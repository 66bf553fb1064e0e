/** `app/services/subscription_service.py`: plan prices and limits, the
    resource-limit check, and the create/upgrade/cancel operations on the one
    subscription record each user may hold. */
module Subscriptions {
  import opened Wrappers

  // ---- plans (`PlanType` is a `str` enum, so lookups go by its string value) ----

  const Free := "free"
  const Basic := "basic"
  const Pro := "pro"

  datatype Status = Active | Cancelled | Expired | Pending

  /** A day, in the microseconds that times are counted in here. */
  const Day: int := 86_400_000_000

  /** How long a paid plan runs from a creation or an upgrade. */
  const Period: int := 30 * Day

  /** `get_plan_price(plan_type)`: the price table, 0.0 for an unknown plan. */
  function PlanPrice(plan: string): real
  {
    if plan == Free then 0.0
    else if plan == Basic then 29.90
    else if plan == Pro then 59.90
    else 0.0
  }

  /** `get_plan_limits(plan_type)`: the limits table (-1 is unlimited), `{}` for an unknown plan. */
  function PlanLimits(plan: string): map<string, int>
  {
    if plan == Free then
      map["max_vacas" := 5, "producao_historico" := 30, "relatorios_mes" := 5, "exportacoes_mes" := 2]
    else if plan == Basic then
      map["max_vacas" := 50, "producao_historico" := 365, "relatorios_mes" := 50, "exportacoes_mes" := 20]
    else if plan == Pro then
      map["max_vacas" := -1, "producao_historico" := -1, "relatorios_mes" := -1, "exportacoes_mes" := -1]
    else map[]
  }

  /** `limits.get("max_vacas", 0)`. */
  function MaxVacas(plan: string): int
  {
    var limits := PlanLimits(plan);
    if "max_vacas" in limits then limits["max_vacas"] else 0
  }

  lemma PlanTables()
    ensures PlanPrice(Free) == 0.0 && PlanPrice(Basic) == 29.90 && PlanPrice(Pro) == 59.90
    ensures MaxVacas(Free) == 5 && MaxVacas(Basic) == 50 && MaxVacas(Pro) == -1
  {}

  /** Any plan other than the three costs nothing and allows no cows. */
  lemma UnknownPlan(plan: string)
    requires plan != Free && plan != Basic && plan != Pro
    ensures PlanPrice(plan) == 0.0 && PlanLimits(plan) == map[] && MaxVacas(plan) == 0
  {}

  /** Only the paid plans have a price. */
  lemma PaidIffPriced(plan: string)
    ensures PlanPrice(plan) > 0.0 <==> plan == Basic || plan == Pro
  {}

  // ---- the subscription record ----

  /** The fields of a `Subscription` row the service reads or writes. */
  datatype Subscription = Subscription(
    userId: int,
    planType: string,
    status: Status,
    endDate: Option<int>,
    price: real,
    paymentMethod: Option<string>,
    updatedAt: Option<int>)

  /** The end date a plan gets at `now`: none for the free plan, 30 days on otherwise. */
  function EndDate(plan: string, now: int): (e: Option<int>)
    ensures e.None? <==> plan == Free
    ensures e.Some? ==> e.value == now + Period
  {
    if plan != Free then Some(now + Period) else None
  }

  /** The row `create_subscription` inserts for a user without one. */
  function NewSubscription(userId: int, plan: string, paymentMethod: Option<string>, now: int): (s: Subscription)
    ensures s.userId == userId && s.planType == plan && s.status == Active
    ensures s.price == PlanPrice(plan) && s.paymentMethod == paymentMethod
    ensures s.endDate.None? <==> plan == Free
  {
    Subscription(userId, plan, Active, EndDate(plan, now), PlanPrice(plan), paymentMethod, None)
  }

  /** The row after `upgrade_subscription(user_id, new_plan)` at `now`. */
  function Upgraded(s: Subscription, plan: string, now: int): (u: Subscription)
    ensures u.planType == plan && u.price == PlanPrice(plan) && u.updatedAt == Some(now)
    ensures u.endDate.None? <==> plan == Free
    ensures u.userId == s.userId && u.status == s.status && u.paymentMethod == s.paymentMethod
  {
    s.(planType := plan, price := PlanPrice(plan), updatedAt := Some(now), endDate := EndDate(plan, now))
  }

  /**
   * The row after `cancel_subscription` at `now`. The service writes only the
   * status; `updated_at` is declared with `onupdate=func.now()`, so the commit
   * stamps it too, but only when the status really changes (an already
   * cancelled row gives no UPDATE).
   */
  function CancelledRow(s: Subscription, now: int): (c: Subscription)
    ensures c.status == Cancelled
    ensures c.(status := s.status, updatedAt := s.updatedAt) == s
    ensures c == s <==> s.status == Cancelled
    ensures s.status != Cancelled ==> c.updatedAt == Some(now)
  {
    if s.status == Cancelled then s else s.(status := Cancelled, updatedAt := Some(now))
  }

  /** Cancelling a cancelled row changes nothing, whenever it happens. */
  lemma CancelledRowIdempotent(s: Subscription, now: int, later: int)
    ensures CancelledRow(CancelledRow(s, now), later) == CancelledRow(s, now)
  {}

  /** Upgrading twice to the same plan at the same time is upgrading once. */
  lemma UpgradedIdempotent(s: Subscription, plan: string, now: int)
    ensures Upgraded(Upgraded(s, plan, now), plan, now) == Upgraded(s, plan, now)
  {}

  /** An upgrade keeps a cancelled subscription cancelled: the status is not touched. */
  lemma UpgradeKeepsCancellation(s: Subscription, plan: string, now: int)
    requires s.status == Cancelled
    ensures Upgraded(s, plan, now).status == Cancelled
  {}

  /** A row whose price and end date agree with its plan, as every write leaves it. */
  predicate Consistent(s: Subscription)
  {
    s.price == PlanPrice(s.planType) && (s.endDate.None? <==> s.planType == Free)
  }

  lemma WritesConsistent(userId: int, plan: string, paymentMethod: Option<string>, now: int, s: Subscription)
    ensures Consistent(NewSubscription(userId, plan, paymentMethod, now))
    ensures Consistent(Upgraded(s, plan, now))
    ensures Consistent(s) ==> Consistent(CancelledRow(s, now))
  {}

  // ---- check_limits ----

  /**
   * `check_limits(user_id, resource, current_count)`: `sub` is the user's
   * row if any, `cowCount` what the cow query would count when no count is
   * supplied.
   */
  function CheckLimits(sub: Option<Subscription>, resource: string, currentCount: Option<int>, cowCount: int): bool
  {
    if sub.None? then false
    else if resource == "vacas" then
      var count := if currentCount.None? then cowCount else currentCount.value;
      var maxVacas := MaxVacas(sub.value.planType);
      maxVacas == -1 || count < maxVacas
    else true
  }

  /** The check per plan: no row refuses, free allows fewer than 5 cows, basic fewer than 50, pro any number; other resources always pass. */
  lemma CheckLimitsByPlan(sub: Option<Subscription>, resource: string, count: int)
    ensures sub.None? ==> !CheckLimits(sub, resource, Some(count), count)
    ensures sub.Some? && resource != "vacas" ==> CheckLimits(sub, resource, Some(count), count)
    ensures sub.Some? && resource == "vacas" && sub.value.planType == Free ==> (CheckLimits(sub, resource, Some(count), count) <==> count < 5)
    ensures sub.Some? && resource == "vacas" && sub.value.planType == Basic ==> (CheckLimits(sub, resource, Some(count), count) <==> count < 50)
    ensures sub.Some? && resource == "vacas" && sub.value.planType == Pro ==> CheckLimits(sub, resource, Some(count), count)
  {}

  /** The supplied count wins over the queried one; without it the query decides. */
  lemma CheckLimitsCount(sub: Option<Subscription>, resource: string, count: int, cowCount: int)
    ensures CheckLimits(sub, resource, Some(count), cowCount) == CheckLimits(sub, resource, Some(count), count)
    ensures CheckLimits(sub, resource, None, cowCount) == CheckLimits(sub, resource, Some(cowCount), cowCount)
  {}

  /** The status is not consulted: a cancelled or expired plan still grants its limits. */
  lemma CheckLimitsIgnoresStatus(s: Subscription, st: Status, resource: string, currentCount: Option<int>, cowCount: int)
    ensures CheckLimits(Some(s.(status := st)), resource, currentCount, cowCount) == CheckLimits(Some(s), resource, currentCount, cowCount)
  {}

  /** Whatever count is allowed, every smaller count is allowed too. */
  lemma CheckLimitsMonotone(sub: Option<Subscription>, count: int, smaller: int)
    requires smaller <= count && CheckLimits(sub, "vacas", Some(count), count)
    ensures CheckLimits(sub, "vacas", Some(smaller), smaller)
  {}

  // ---- the store of subscriptions ----

  const NotFound := "Subscription not found"
  const CancelledMessage := "Subscription cancelled successfully"

  /** The subscriptions table, keyed by user (`user_id` is unique). */
  class SubscriptionService {
    var subs: map<int, Subscription>

    /** Every row sits under its own user and agrees with its plan. */
    ghost predicate Valid()
      reads this
    {
      forall u :: u in subs ==> subs[u].userId == u && Consistent(subs[u])
    }

    constructor()
      ensures subs == map[] && Valid()
    {
      subs := map[];
    }

    /** `upgrade_subscription(user_id, new_plan)` at `now`. */
    method UpgradeSubscription(userId: int, newPlan: string, now: int) returns (r: Result<Subscription, string>)
      requires Valid()
      modifies this
      ensures Valid()
      ensures userId !in old(subs) ==> r == Err(NotFound) && subs == old(subs)
      ensures userId in old(subs) ==>
        subs == old(subs)[userId := Upgraded(old(subs)[userId], newPlan, now)] && r == Ok(subs[userId])
    {
      if userId !in subs {
        return Err(NotFound);
      }
      var subscription := subs[userId];
      subscription := subscription.(planType := newPlan);
      subscription := subscription.(price := PlanPrice(newPlan));
      subscription := subscription.(updatedAt := Some(now));
      if newPlan != Free {
        subscription := subscription.(endDate := Some(now + Period));
      } else {
        subscription := subscription.(endDate := None);
      }
      subs := subs[userId := subscription];
      return Ok(subscription);
    }

    /** `create_subscription(user_id, data)` at `now`: an existing row is upgraded instead. */
    method CreateSubscription(userId: int, planType: string, paymentMethod: Option<string>, now: int) returns (s: Subscription)
      requires Valid()
      modifies this
      ensures Valid()
      ensures userId in subs && s == subs[userId]
      ensures userId in old(subs) ==> subs == old(subs)[userId := Upgraded(old(subs)[userId], planType, now)]
      ensures userId !in old(subs) ==> subs == old(subs)[userId := NewSubscription(userId, planType, paymentMethod, now)]
    {
      if userId in subs {
        var r := UpgradeSubscription(userId, planType, now);
        return r.value;
      }
      var endDate: Option<int> := None;
      if planType != Free {
        endDate := Some(now + Period);
      }
      s := Subscription(userId, planType, Active, endDate, PlanPrice(planType), paymentMethod, None);
      subs := subs[userId := s];
    }

    /** `cancel_subscription(user_id)`, committed at `now`. */
    method CancelSubscription(userId: int, now: int) returns (r: Result<string, string>)
      requires Valid()
      modifies this
      ensures Valid()
      ensures userId !in old(subs) ==> r == Err(NotFound) && subs == old(subs)
      ensures userId in old(subs) ==>
        subs == old(subs)[userId := CancelledRow(old(subs)[userId], now)] && r == Ok(CancelledMessage)
    {
      if userId !in subs {
        return Err(NotFound);
      }
      var subscription := subs[userId];
      if subscription.status != Cancelled {
        // the ORM's `onupdate` stamp, written by the commit of a changed row
        subscription := subscription.(status := Cancelled, updatedAt := Some(now));
      }
      subs := subs[userId := subscription];
      return Ok(CancelledMessage);
    }

    /** `check_limits` against the stored row. */
    function CheckUserLimits(userId: int, resource: string, currentCount: Option<int>, cowCount: int): (allowed: bool)
      reads this
      ensures userId !in subs ==> !allowed
      ensures resource != "vacas" ==> (allowed <==> userId in subs)
    {
      CheckLimits(if userId in subs then Some(subs[userId]) else None, resource, currentCount, cowCount)
    }
  }
}
