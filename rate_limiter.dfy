/**
 * The in-memory sliding-window rate limiter. Times are integer microseconds
 * counted from 0001-01-01T00:00, so `datetime.min` is 0 and the clock is a
 * parameter of every operation. The dictionary of request times keeps its
 * keys in insertion order, which decides ties when the oldest keys are
 * evicted; the class keeps that order beside the map.
 */
module RateLimiting {
  import Stats

  const Second := 1_000_000
  /** `datetime.min`. */
  const DateTimeMin := 0
  /** Cleanup runs when more than 300 s passed since the last one. */
  const CleanupInterval := 300 * Second
  /** Cleanup drops request times older than one hour. */
  const CleanupHorizon := 3600 * Second
  /** The default `max_keys`. */
  const DefaultMaxKeys := 10000
  /** The defaults of `is_allowed`: 100 requests per 1-minute window. */
  const DefaultMaxRequests := 100
  const DefaultWindowMinutes := 1

  /** `now - timedelta(minutes=window_minutes)`. */
  function WindowStart(now: int, windowMinutes: int): int
  {
    now - windowMinutes * 60 * Second
  }

  /** `[t for t in ts if t > cutoff]`. */
  function Prune(ts: seq<int>, cutoff: int): (rs: seq<int>)
    ensures |rs| <= |ts|
    ensures forall t :: t in rs <==> t in ts && t > cutoff
  {
    if ts == [] then []
    else Prune(ts[..|ts| - 1], cutoff) + (if ts[|ts| - 1] > cutoff then [ts[|ts| - 1]] else [])
  }

  /** Pruning twice with the same cutoff is pruning once. */
  lemma {:induction false} PruneIdempotent(ts: seq<int>, cutoff: int)
    ensures Prune(Prune(ts, cutoff), cutoff) == Prune(ts, cutoff)
  {
    if ts != [] {
      var front := ts[..|ts| - 1];
      var last := ts[|ts| - 1];
      PruneIdempotent(front, cutoff);
      if last > cutoff {
        var p := Prune(front, cutoff) + [last];
        assert Prune(ts, cutoff) == p;
        assert p[..|p| - 1] == Prune(front, cutoff);
        assert Prune(p, cutoff) == Prune(Prune(front, cutoff), cutoff) + [last];
      } else {
        assert Prune(ts, cutoff) == Prune(front, cutoff);
      }
    }
  }

  /** Appending a time after the cutoff keeps it. */
  lemma PruneAppend(ts: seq<int>, t: int, cutoff: int)
    requires t > cutoff
    ensures Prune(ts + [t], cutoff) == Prune(ts, cutoff) + [t]
  {
    assert (ts + [t])[..|ts|] == ts;
  }

  /** The sort key `max(requests[k]) if requests[k] else datetime.min`. */
  function LatestOf(requests: map<string, seq<int>>, k: string): int
  {
    if k in requests && requests[k] != [] then Stats.Max(requests[k]) else DateTimeMin
  }

  predicate Distinct(ks: seq<string>)
  {
    forall i, j :: 0 <= i < j < |ks| ==> ks[i] != ks[j]
  }

  /** The keys of `ks` not in `gone`, in order. */
  function Keep(ks: seq<string>, gone: set<string>): (rs: seq<string>)
    ensures forall k :: k in rs <==> k in ks && k !in gone
    ensures |rs| <= |ks|
  {
    if ks == [] then []
    else Keep(ks[..|ks| - 1], gone) + (if ks[|ks| - 1] in gone then [] else [ks[|ks| - 1]])
  }

  lemma {:induction false} KeepDistinct(ks: seq<string>, gone: set<string>)
    requires Distinct(ks)
    ensures Distinct(Keep(ks, gone))
  {
    if ks != [] {
      KeepDistinct(ks[..|ks| - 1], gone);
    }
  }

  /** Deleting one more key from the kept ones is deleting it with the others. */
  lemma {:induction false} KeepMore(ks: seq<string>, gone: set<string>, k: string)
    ensures Keep(Keep(ks, gone), {k}) == Keep(ks, gone + {k})
  {
    if ks != [] {
      var front := ks[..|ks| - 1];
      var last := ks[|ks| - 1];
      KeepMore(front, gone, k);
      if last !in gone {
        var kept := Keep(front, gone) + [last];
        assert Keep(ks, gone) == kept;
        assert kept[..|kept| - 1] == Keep(front, gone);
        assert Keep(kept, {k}) == Keep(Keep(front, gone), {k}) + (if last == k then [] else [last]);
      } else {
        assert Keep(ks, gone) == Keep(front, gone);
      }
    }
  }

  lemma KeepNothing(ks: seq<string>)
    ensures Keep(ks, {}) == ks
  {
    if ks != [] {
      KeepNothing(ks[..|ks| - 1]);
      assert ks == ks[..|ks| - 1] + [ks[|ks| - 1]];
    }
  }

  /** A distinct list has as many elements as its set of elements. */
  lemma {:induction false} DistinctCard(ks: seq<string>)
    requires Distinct(ks)
    ensures |set k | k in ks| == |ks|
  {
    if ks != [] {
      var front := ks[..|ks| - 1];
      DistinctCard(front);
      assert (set k | k in ks) == (set k | k in front) + {ks[|ks| - 1]};
    }
  }

  // ---- the eviction order: `sorted(keys, key=latest)`, a stable sort ----

  /** Place k after every key whose latest time is at most its own. */
  function InsertByLatest(ks: seq<string>, k: string, requests: map<string, seq<int>>): (rs: seq<string>)
    ensures |rs| == |ks| + 1
  {
    if ks == [] then [k]
    else if LatestOf(requests, ks[0]) <= LatestOf(requests, k) then [ks[0]] + InsertByLatest(ks[1..], k, requests)
    else [k] + ks
  }

  function SortByLatest(ks: seq<string>, requests: map<string, seq<int>>): (rs: seq<string>)
    ensures |rs| == |ks|
  {
    if ks == [] then [] else InsertByLatest(SortByLatest(ks[..|ks| - 1], requests), ks[|ks| - 1], requests)
  }

  predicate SortedByLatest(ks: seq<string>, requests: map<string, seq<int>>)
  {
    forall i, j :: 0 <= i < j < |ks| ==> LatestOf(requests, ks[i]) <= LatestOf(requests, ks[j])
  }

  lemma {:induction false} InsertByLatestPermutes(ks: seq<string>, k: string, requests: map<string, seq<int>>)
    ensures multiset(InsertByLatest(ks, k, requests)) == multiset(ks) + multiset{k}
  {
    if ks != [] && LatestOf(requests, ks[0]) <= LatestOf(requests, k) {
      InsertByLatestPermutes(ks[1..], k, requests);
      assert ks == [ks[0]] + ks[1..];
    }
  }

  /** Inserting keeps a common lower bound on the latest times. */
  lemma {:induction false} InsertByLatestAbove(ks: seq<string>, k: string, requests: map<string, seq<int>>, lo: int)
    requires forall i :: 0 <= i < |ks| ==> lo <= LatestOf(requests, ks[i])
    requires lo <= LatestOf(requests, k)
    ensures forall i :: 0 <= i < |InsertByLatest(ks, k, requests)| ==> lo <= LatestOf(requests, InsertByLatest(ks, k, requests)[i])
  {
    if ks != [] && LatestOf(requests, ks[0]) <= LatestOf(requests, k) {
      InsertByLatestAbove(ks[1..], k, requests, lo);
    }
  }

  lemma {:induction false} InsertByLatestSorted(ks: seq<string>, k: string, requests: map<string, seq<int>>)
    requires SortedByLatest(ks, requests)
    ensures SortedByLatest(InsertByLatest(ks, k, requests), requests)
  {
    if ks != [] && LatestOf(requests, ks[0]) <= LatestOf(requests, k) {
      InsertByLatestSorted(ks[1..], k, requests);
      InsertByLatestAbove(ks[1..], k, requests, LatestOf(requests, ks[0]));
    }
  }

  lemma {:induction false} SortByLatestSorted(ks: seq<string>, requests: map<string, seq<int>>)
    ensures SortedByLatest(SortByLatest(ks, requests), requests)
  {
    if ks != [] {
      var front := ks[..|ks| - 1];
      SortByLatestSorted(front, requests);
      InsertByLatestSorted(SortByLatest(front, requests), ks[|ks| - 1], requests);
    }
  }

  lemma {:induction false} SortByLatestPermutes(ks: seq<string>, requests: map<string, seq<int>>)
    ensures multiset(SortByLatest(ks, requests)) == multiset(ks)
  {
    if ks != [] {
      var front := ks[..|ks| - 1];
      SortByLatestPermutes(front, requests);
      InsertByLatestPermutes(SortByLatest(front, requests), ks[|ks| - 1], requests);
      assert ks == front + [ks[|ks| - 1]];
    }
  }

  /** The eviction order is ascending by latest time and holds exactly the keys. */
  lemma SortByLatestCorrect(ks: seq<string>, requests: map<string, seq<int>>)
    ensures SortedByLatest(SortByLatest(ks, requests), requests)
    ensures multiset(SortByLatest(ks, requests)) == multiset(ks)
  {
    SortByLatestSorted(ks, requests);
    SortByLatestPermutes(ks, requests);
  }

  // ---- the cleanup, as a function of the dictionary ----

  /** The dictionary: its keys in insertion order and the request times of each. */
  datatype Table = Table(order: seq<string>, requests: map<string, seq<int>>)

  /** The keys are exactly those listed in the order, each once. */
  ghost predicate WellFormed(t: Table)
  {
    (forall k :: k in t.requests <==> k in t.order) && Distinct(t.order)
  }

  /** The keys whose pruned list is empty, in order (`keys_to_remove`). */
  function Stale(order: seq<string>, requests: map<string, seq<int>>, cutoff: int): (rs: seq<string>)
    requires forall k :: k in order ==> k in requests
    ensures forall k :: k in rs <==> k in order && Prune(requests[k], cutoff) == []
  {
    if order == [] then []
    else
      var k := order[|order| - 1];
      Stale(order[..|order| - 1], requests, cutoff) + (if Prune(requests[k], cutoff) == [] then [k] else [])
  }

  /** Every list pruned to the times after `cutoff`. */
  function PrunedAll(r: map<string, seq<int>>, cutoff: int): map<string, seq<int>>
  {
    map k | k in r :: Prune(r[k], cutoff)
  }

  /** The first loop and the deletions of `_cleanup_old_entries`: prune every list, drop the emptied keys. */
  function DropStale(t: Table, cutoff: int): Table
    requires WellFormed(t)
  {
    var gone := set k | k in Stale(t.order, t.requests, cutoff);
    Table(Keep(t.order, gone), PrunedAll(t.requests, cutoff) - gone)
  }

  /** How many keys are evicted: `len - max_keys` when that is positive, at most all of them. */
  function EvictCount(n: nat, maxKeys: int): (c: nat)
    ensures c <= n
    ensures n > maxKeys ==> (c == n || c == n - maxKeys)
    ensures n > maxKeys && maxKeys >= 0 ==> c == n - maxKeys
    ensures n <= maxKeys ==> c == 0
  {
    if n <= maxKeys then 0 else if maxKeys < 0 then n else n - maxKeys
  }

  /** `sorted_keys[:len(requests) - max_keys]` when the dictionary is too large, else nothing. */
  function Evicted(t: Table, maxKeys: int): seq<string>
  {
    SortByLatest(t.order, t.requests)[..EvictCount(|t.order|, maxKeys)]
  }

  /** The eviction step. */
  function EvictOldest(t: Table, maxKeys: int): Table
  {
    var gone := set k | k in Evicted(t, maxKeys);
    Table(Keep(t.order, gone), t.requests - gone)
  }

  /** `_cleanup_old_entries(now)`. */
  function Cleaned(t: Table, now: int, maxKeys: int): Table
    requires WellFormed(t)
  {
    EvictOldest(DropStale(t, now - CleanupHorizon), maxKeys)
  }

  lemma DropStaleProperties(t: Table, cutoff: int)
    requires WellFormed(t)
    ensures WellFormed(DropStale(t, cutoff))
    ensures forall k :: k in DropStale(t, cutoff).requests ==>
      k in t.requests && DropStale(t, cutoff).requests[k] == Prune(t.requests[k], cutoff) != []
    ensures forall k :: k in t.requests && Prune(t.requests[k], cutoff) != [] ==> k in DropStale(t, cutoff).requests
  {
    KeepDistinct(t.order, set k | k in Stale(t.order, t.requests, cutoff));
  }

  /** Eviction keeps the table well formed and leaves the surviving lists untouched. */
  lemma EvictOldestKeeps(t: Table, maxKeys: int)
    requires WellFormed(t)
    ensures WellFormed(EvictOldest(t, maxKeys))
    ensures forall k :: k in EvictOldest(t, maxKeys).requests ==>
      k in t.requests && EvictOldest(t, maxKeys).requests[k] == t.requests[k]
    ensures |t.order| <= maxKeys ==> EvictOldest(t, maxKeys) == t
  {
    var gone := set k | k in Evicted(t, maxKeys);
    KeepDistinct(t.order, gone);
    if |t.order| <= maxKeys {
      assert gone == {};
      KeepNothing(t.order);
      assert t.requests - gone == t.requests;
    }
  }

  /** The evicted keys are those with the oldest latest time: none kept is older than one evicted. */
  lemma EvictOldestFirst(t: Table, maxKeys: int)
    ensures forall e, k :: e in Evicted(t, maxKeys) && k in EvictOldest(t, maxKeys).order ==>
      LatestOf(t.requests, e) <= LatestOf(t.requests, k)
  {
    var sorted := SortByLatest(t.order, t.requests);
    SortByLatestCorrect(t.order, t.requests);
    var n := EvictCount(|t.order|, maxKeys);
    var ev := sorted[..n];
    forall e, k | e in ev && k in EvictOldest(t, maxKeys).order
      ensures LatestOf(t.requests, e) <= LatestOf(t.requests, k)
    {
      var i :| 0 <= i < n && sorted[i] == e;
      assert k in multiset(sorted);
      var j :| 0 <= j < |sorted| && sorted[j] == k;
      assert k !in ev;
    }
  }

  /** After eviction at most max_keys keys remain (none when max_keys is negative). */
  lemma EvictOldestBound(t: Table, maxKeys: int)
    requires WellFormed(t)
    ensures |EvictOldest(t, maxKeys).order| <= (if maxKeys < 0 then 0 else maxKeys)
  {
    var sorted := SortByLatest(t.order, t.requests);
    var n := EvictCount(|t.order|, maxKeys);
    var ev := sorted[..n];
    var gone := set k | k in ev;
    if |t.order| > maxKeys {
      SortedDistinct(t.order, t.requests);
      DistinctCard(ev);
      EvictedPresent(t, sorted, ev);
      KeepCount(t.order, gone);
    }
  }

  /** Every evicted key is a key of the table. */
  lemma EvictedPresent(t: Table, sorted: seq<string>, ev: seq<string>)
    requires sorted == SortByLatest(t.order, t.requests)
    requires exists n :: 0 <= n <= |sorted| && ev == sorted[..n]
    ensures (set k | k in ev) <= (set k | k in t.order)
  {
    SortByLatestCorrect(t.order, t.requests);
    forall k | k in ev ensures k in t.order {
      assert k in multiset(sorted);
    }
  }

  /** Deleting keys present in a distinct list shortens it by their number. */
  lemma KeepCount(ks: seq<string>, gone: set<string>)
    requires Distinct(ks) && gone <= set k | k in ks
    ensures |Keep(ks, gone)| == |ks| - |gone|
  {
    var kept := Keep(ks, gone);
    KeepDistinct(ks, gone);
    DistinctCard(ks);
    DistinctCard(kept);
    var all := set k | k in ks;
    assert (set k | k in kept) == all - gone;
  }

  /** A sorted permutation of a distinct list is distinct. */
  lemma SortedDistinct(ks: seq<string>, requests: map<string, seq<int>>)
    requires Distinct(ks)
    ensures Distinct(SortByLatest(ks, requests))
  {
    var s := SortByLatest(ks, requests);
    SortByLatestCorrect(ks, requests);
    forall i, j | 0 <= i < j < |s| ensures s[i] != s[j] {
      if s[i] == s[j] {
        TwiceCounted(s, i, j);
        DistinctCount(ks, s[i]);
      }
    }
  }

  lemma TwiceCounted(s: seq<string>, i: int, j: int)
    requires 0 <= i < j < |s| && s[i] == s[j]
    ensures multiset(s)[s[i]] >= 2
  {
    assert s == s[..j] + s[j..];
    assert s[i] in s[..j];
    assert s[j..][0] == s[j];
  }

  lemma {:induction false} DistinctCount(ks: seq<string>, k: string)
    requires Distinct(ks)
    ensures multiset(ks)[k] <= 1
  {
    if ks != [] {
      var front := ks[..|ks| - 1];
      DistinctCount(front, k);
      assert ks == front + [ks[|ks| - 1]];
    }
  }

  /** A well-formed table has as many keys as its order lists. */
  lemma WellFormedSize(t: Table)
    requires WellFormed(t)
    ensures |t.requests| == |t.order|
  {
    DistinctCard(t.order);
    assert t.requests.Keys == set k | k in t.order;
  }

  /**
   * After cleanup the table is well formed, holds at most max_keys keys, and
   * every remaining key has a non-empty list of times newer than one hour
   * before now, the old list pruned and nothing else.
   */
  lemma CleanedProperties(t: Table, now: int, maxKeys: int)
    requires WellFormed(t)
    ensures WellFormed(Cleaned(t, now, maxKeys))
    ensures |Cleaned(t, now, maxKeys).order| <= (if maxKeys < 0 then 0 else maxKeys)
    ensures forall k :: k in Cleaned(t, now, maxKeys).requests ==>
      k in t.requests &&
      Cleaned(t, now, maxKeys).requests[k] == Prune(t.requests[k], now - CleanupHorizon) &&
      Cleaned(t, now, maxKeys).requests[k] != [] &&
      forall x :: x in Cleaned(t, now, maxKeys).requests[k] ==> x > now - CleanupHorizon
  {
    var d := DropStale(t, now - CleanupHorizon);
    DropStaleProperties(t, now - CleanupHorizon);
    EvictOldestKeeps(d, maxKeys);
    EvictOldestBound(d, maxKeys);
  }

  /** With few enough keys after pruning, cleanup evicts nothing. */
  lemma CleanedWithoutEviction(t: Table, now: int, maxKeys: int)
    requires WellFormed(t) && |DropStale(t, now - CleanupHorizon).order| <= maxKeys
    ensures Cleaned(t, now, maxKeys) == DropStale(t, now - CleanupHorizon)
  {
    DropStaleProperties(t, now - CleanupHorizon);
    EvictOldestKeeps(DropStale(t, now - CleanupHorizon), maxKeys);
  }

  // ---- admission ----

  /** The table after a request, and whether it was let through. */
  datatype Outcome = Outcome(table: Table, allowed: bool)

  /**
   * The body of `is_allowed` after the periodic cleanup: the key's list is
   * created if missing and pruned to the window; the request is refused when
   * the pruned list already holds max_requests times, and otherwise `now` is
   * appended.
   */
  function Admit(t: Table, key: string, maxRequests: int, windowStart: int, now: int): Outcome
  {
    var order := if key in t.requests then t.order else t.order + [key];
    var pruned := Prune(if key in t.requests then t.requests[key] else [], windowStart);
    if |pruned| >= maxRequests then Outcome(Table(order, t.requests[key := pruned]), false)
    else Outcome(Table(order, t.requests[key := pruned + [now]]), true)
  }

  /** Whether `is_allowed` at `now` runs the cleanup first. */
  predicate CleanupDue(lastCleanup: int, now: int)
  {
    now - lastCleanup > CleanupInterval
  }

  /** All of `is_allowed`: the cleanup when due, then the admission. */
  function Request(t: Table, lastCleanup: int, maxKeys: int, key: string, maxRequests: int, windowMinutes: int, now: int): Outcome
    requires WellFormed(t)
  {
    var t0 := if CleanupDue(lastCleanup, now) then Cleaned(t, now, maxKeys) else t;
    Admit(t0, key, maxRequests, WindowStart(now, windowMinutes), now)
  }

  /**
   * Refused iff the pruned list already holds max_requests times; a refusal
   * stores the pruned list, an admission the pruned list plus exactly `now`.
   */
  lemma AdmitDecision(t: Table, key: string, maxRequests: int, windowStart: int, now: int)
    ensures var pruned := Prune(if key in t.requests then t.requests[key] else [], windowStart);
      var o := Admit(t, key, maxRequests, windowStart, now);
      (o.allowed <==> |pruned| < maxRequests) &&
      key in o.table.requests &&
      (!o.allowed ==> o.table.requests[key] == pruned) &&
      (o.allowed ==> o.table.requests[key] == pruned + [now] && |o.table.requests[key]| == |pruned| + 1)
  {}

  /** Admission touches no key other than the requested one. */
  lemma AdmitOthersUnchanged(t: Table, key: string, maxRequests: int, windowStart: int, now: int)
    ensures forall k :: k != key ==>
      (k in Admit(t, key, maxRequests, windowStart, now).table.requests <==> k in t.requests)
    ensures forall k :: k != key && k in t.requests ==>
      Admit(t, key, maxRequests, windowStart, now).table.requests[k] == t.requests[k]
  {}

  lemma AdmitWellFormed(t: Table, key: string, maxRequests: int, windowStart: int, now: int)
    requires WellFormed(t)
    ensures WellFormed(Admit(t, key, maxRequests, windowStart, now).table)
  {}

  /** Every key holds at most m request times. */
  predicate Bounded(t: Table, m: int)
  {
    forall k :: k in t.requests ==> |t.requests[k]| <= m
  }

  /** Admission keeps every list within max_requests. */
  lemma AdmitBounded(t: Table, key: string, maxRequests: int, windowStart: int, now: int)
    requires maxRequests >= 0 && Bounded(t, maxRequests)
    ensures Bounded(Admit(t, key, maxRequests, windowStart, now).table, maxRequests)
  {}

  /** Cleanup keeps every list within any bound it was within. */
  lemma CleanedBounded(t: Table, now: int, maxKeys: int, m: int)
    requires WellFormed(t) && Bounded(t, m)
    ensures Bounded(Cleaned(t, now, maxKeys), m)
  {
    CleanedProperties(t, now, maxKeys);
  }

  /** Under a fixed max_requests, no key's list ever grows beyond it, whatever the requests. */
  lemma RequestBounded(t: Table, lastCleanup: int, maxKeys: int, key: string, maxRequests: int, windowMinutes: int, now: int)
    requires WellFormed(t) && maxRequests >= 0 && Bounded(t, maxRequests)
    ensures Bounded(Request(t, lastCleanup, maxKeys, key, maxRequests, windowMinutes, now).table, maxRequests)
    ensures WellFormed(Request(t, lastCleanup, maxKeys, key, maxRequests, windowMinutes, now).table)
  {
    var t0 := if CleanupDue(lastCleanup, now) then Cleaned(t, now, maxKeys) else t;
    if CleanupDue(lastCleanup, now) {
      CleanedBounded(t, now, maxKeys, maxRequests);
      CleanedProperties(t, now, maxKeys);
    }
    AdmitBounded(t0, key, maxRequests, WindowStart(now, windowMinutes), now);
    AdmitWellFormed(t0, key, maxRequests, WindowStart(now, windowMinutes), now);
  }

  // ---- the steps of the cleanup loops ----

  /** `del requests[key]`: the key leaves the map and the insertion order. */
  function Delete(t: Table, key: string): Table
  {
    Table(Keep(t.order, {key}), t.requests - {key})
  }

  /** Deleting the keys of `gone` one after the other. */
  function DeleteAll(t: Table, gone: seq<string>): Table
  {
    if gone == [] then t else Delete(DeleteAll(t, gone[..|gone| - 1]), gone[|gone| - 1])
  }

  lemma MembersSnoc(s: seq<string>, front: seq<string>)
    requires s != [] && front == s[..|s| - 1]
    ensures (set k | k in s) == (set k | k in front) + {s[|s| - 1]}
  {
    assert s == front + [s[|s| - 1]];
  }

  lemma MinusMore(r: map<string, seq<int>>, gone: set<string>, key: string)
    ensures (r - gone) - {key} == r - (gone + {key})
  {}

  /** Deleting one by one removes exactly the keys of `gone`, from the map and the order. */
  lemma {:induction false} DeleteAllRemoves(t: Table, gone: seq<string>)
    requires WellFormed(t)
    ensures WellFormed(DeleteAll(t, gone))
    ensures DeleteAll(t, gone) == Table(Keep(t.order, set k | k in gone), t.requests - (set k | k in gone))
  {
    if gone == [] {
      KeepNothing(t.order);
      assert (set k | k in gone) == {};
      assert t.requests - {} == t.requests;
    } else {
      var front, last := gone[..|gone| - 1], gone[|gone| - 1];
      var before := set k | k in front;
      DeleteAllRemoves(t, front);
      var d := DeleteAll(t, front);
      assert DeleteAll(t, gone) == Delete(d, last);
      KeepMore(t.order, before, last);
      KeepDistinct(d.order, {last});
      MinusMore(t.requests, before, last);
      var g := set k | k in gone;
      MembersSnoc(gone, front);
      assert DeleteAll(t, gone).order == Keep(t.order, g);
      assert DeleteAll(t, gone).requests == t.requests - g;
    }
  }

  /** The first loop of `_cleanup_old_entries`: each key of `ks` in turn has its list pruned. */
  function PruneKeys(r: map<string, seq<int>>, ks: seq<string>, cutoff: int): (p: map<string, seq<int>>)
    requires forall k :: k in ks ==> k in r
    ensures p.Keys == r.Keys
  {
    if ks == [] then r
    else
      var front := PruneKeys(r, ks[..|ks| - 1], cutoff);
      front[ks[|ks| - 1] := Prune(front[ks[|ks| - 1]], cutoff)]
  }

  /** A key the loop has not reached yet still holds its old list. */
  lemma {:induction false} PruneKeysOutside(r: map<string, seq<int>>, ks: seq<string>, cutoff: int, k: string)
    requires forall k :: k in ks ==> k in r
    requires k in r && k !in ks
    ensures PruneKeys(r, ks, cutoff)[k] == r[k]
  {
    if ks != [] {
      PruneKeysOutside(r, ks[..|ks| - 1], cutoff, k);
    }
  }

  /** After visiting every key once, every list is pruned. */
  lemma {:induction false} PruneKeysVisited(r: map<string, seq<int>>, ks: seq<string>, cutoff: int)
    requires forall k :: k in ks ==> k in r
    requires Distinct(ks)
    ensures forall k :: k in ks ==> PruneKeys(r, ks, cutoff)[k] == Prune(r[k], cutoff)
  {
    if ks != [] {
      var front, last := ks[..|ks| - 1], ks[|ks| - 1];
      PruneKeysVisited(r, front, cutoff);
      PruneKeysOutside(r, front, cutoff, last);
    }
  }

  /** One turn of the first cleanup loop, at the key `ks[i]`. */
  lemma PruneKeysStep(r: map<string, seq<int>>, ks: seq<string>, i: int, cutoff: int)
    requires forall k :: k in ks ==> k in r
    requires Distinct(ks) && 0 <= i < |ks|
    ensures ks[i] in PruneKeys(r, ks[..i], cutoff) && PruneKeys(r, ks[..i], cutoff)[ks[i]] == r[ks[i]]
    ensures PruneKeys(r, ks[..i + 1], cutoff) == PruneKeys(r, ks[..i], cutoff)[ks[i] := Prune(r[ks[i]], cutoff)]
    ensures Stale(ks[..i + 1], r, cutoff) == Stale(ks[..i], r, cutoff) + (if Prune(r[ks[i]], cutoff) == [] then [ks[i]] else [])
  {
    assert ks[..i + 1][..i] == ks[..i];
    assert ks[i] !in ks[..i];
    PruneKeysOutside(r, ks[..i], cutoff, ks[i]);
  }

  lemma PruneKeysAll(t: Table, cutoff: int)
    requires WellFormed(t)
    ensures PruneKeys(t.requests, t.order, cutoff) == PrunedAll(t.requests, cutoff)
  {
    PruneKeysVisited(t.requests, t.order, cutoff);
  }

  /** Pruning every list and then deleting the emptied keys is the first pass of the cleanup. */
  lemma DropStaleSteps(t: Table, cutoff: int)
    requires WellFormed(t)
    ensures WellFormed(DeleteAll(Table(t.order, PruneKeys(t.requests, t.order, cutoff)), Stale(t.order, t.requests, cutoff)))
    ensures DeleteAll(Table(t.order, PruneKeys(t.requests, t.order, cutoff)), Stale(t.order, t.requests, cutoff)) == DropStale(t, cutoff)
  {
    PruneKeysAll(t, cutoff);
    DeleteAllRemoves(Table(t.order, PruneKeys(t.requests, t.order, cutoff)), Stale(t.order, t.requests, cutoff));
  }

  // ---- the limiter ----

  class RateLimiter {
    /** The keys of `requests`, in the dictionary's insertion order. */
    var order: seq<string>
    var requests: map<string, seq<int>>
    var maxKeys: int
    var lastCleanup: int

    ghost predicate Valid()
      reads this
    {
      WellFormed(Table(order, requests))
    }

    constructor(maxKeys: int, now: int)
      ensures Valid()
      ensures order == [] && requests == map[]
      ensures this.maxKeys == maxKeys && lastCleanup == now
    {
      order := [];
      requests := map[];
      this.maxKeys := maxKeys;
      lastCleanup := now;
    }

    /** `del self.requests[key]` for each key of `gone`, in turn. */
    method DeleteKeys(gone: seq<string>)
      requires Valid()
      modifies this
      ensures Valid()
      ensures Table(order, requests) == DeleteAll(old(Table(order, requests)), gone)
      ensures maxKeys == old(maxKeys) && lastCleanup == old(lastCleanup)
    {
      ghost var t := Table(order, requests);
      for j := 0 to |gone|
        invariant Table(order, requests) == DeleteAll(t, gone[..j])
        invariant maxKeys == old(maxKeys) && lastCleanup == old(lastCleanup)
      {
        var key := gone[j];
        assert gone[..j + 1][..j] == gone[..j];
        order := Keep(order, {key});
        requests := requests - {key};
      }
      assert gone[..|gone|] == gone;
      DeleteAllRemoves(t, gone);
    }

    /** The first pass of `_cleanup_old_entries`: prune every list, then delete the emptied keys. */
    method DropStaleEntries(cutoff: int)
      requires Valid()
      modifies this
      ensures Valid()
      ensures Table(order, requests) == DropStale(old(Table(order, requests)), cutoff)
      ensures maxKeys == old(maxKeys) && lastCleanup == old(lastCleanup)
    {
      ghost var t := Table(order, requests);
      var keysToRemove: seq<string> := [];
      for i := 0 to |order|
        invariant order == t.order
        invariant requests == PruneKeys(t.requests, order[..i], cutoff)
        invariant keysToRemove == Stale(order[..i], t.requests, cutoff)
        invariant maxKeys == old(maxKeys) && lastCleanup == old(lastCleanup)
      {
        var key := order[i];
        PruneKeysStep(t.requests, order, i, cutoff);
        requests := requests[key := Prune(requests[key], cutoff)];
        if requests[key] == [] {
          keysToRemove := keysToRemove + [key];
        }
      }
      assert order[..|order|] == order;
      DropStaleSteps(t, cutoff);
      DeleteKeys(keysToRemove);
    }

    /** The second pass of `_cleanup_old_entries`: evict the keys whose latest request is oldest. */
    method EvictOldestEntries()
      requires Valid()
      modifies this
      ensures Valid()
      ensures Table(order, requests) == EvictOldest(old(Table(order, requests)), maxKeys)
      ensures maxKeys == old(maxKeys) && lastCleanup == old(lastCleanup)
    {
      WellFormedSize(Table(order, requests));
      if |requests| > maxKeys {
        var sortedKeys := SortByLatest(order, requests);
        var count := EvictCount(|requests|, maxKeys);
        DeleteAllRemoves(Table(order, requests), sortedKeys[..count]);
        DeleteKeys(sortedKeys[..count]);
      } else {
        EvictOldestKeeps(Table(order, requests), maxKeys);
      }
    }

    /** `_cleanup_old_entries(now)`. */
    method CleanupOldEntries(now: int)
      requires Valid()
      modifies this
      ensures Valid()
      ensures Table(order, requests) == Cleaned(old(Table(order, requests)), now, maxKeys)
      ensures maxKeys == old(maxKeys) && lastCleanup == old(lastCleanup)
    {
      DropStaleEntries(now - CleanupHorizon);
      EvictOldestEntries();
    }

    /** The part of `is_allowed` after the cleanup. */
    method Admission(key: string, maxRequests: int, windowStart: int, now: int) returns (allowed: bool)
      requires Valid()
      modifies this
      ensures Valid()
      ensures Outcome(Table(order, requests), allowed) == Admit(old(Table(order, requests)), key, maxRequests, windowStart, now)
      ensures maxKeys == old(maxKeys) && lastCleanup == old(lastCleanup)
    {
      ghost var t := Table(order, requests);
      ghost var o := Admit(t, key, maxRequests, windowStart, now);
      ghost var before := if key in t.requests then t.requests[key] else [];
      AdmitWellFormed(t, key, maxRequests, windowStart, now);
      if key !in requests {
        requests := requests[key := []];
        order := order + [key];
      }
      assert order == o.table.order && requests[key] == before;
      var pruned := Prune(requests[key], windowStart);
      requests := requests[key := pruned];
      assert requests == t.requests[key := pruned];
      if |pruned| >= maxRequests {
        assert o == Outcome(Table(order, requests), false);
        return false;
      }
      requests := requests[key := pruned + [now]];
      assert requests == t.requests[key := pruned + [now]];
      assert o == Outcome(Table(order, requests), true);
      return true;
    }

    /** `is_allowed(key, max_requests, window_minutes)` at the time `now`. */
    method IsAllowed(key: string, maxRequests: int, windowMinutes: int, now: int) returns (allowed: bool)
      requires Valid()
      modifies this
      ensures Valid()
      ensures Outcome(Table(order, requests), allowed)
           == Request(old(Table(order, requests)), old(lastCleanup), old(maxKeys), key, maxRequests, windowMinutes, now)
      ensures lastCleanup == (if CleanupDue(old(lastCleanup), now) then now else old(lastCleanup))
      ensures maxKeys == old(maxKeys)
    {
      var windowStart := WindowStart(now, windowMinutes);
      if now - lastCleanup > CleanupInterval {
        CleanupOldEntries(now);
        lastCleanup := now;
      }
      allowed := Admission(key, maxRequests, windowStart, now);
    }
  }
}
