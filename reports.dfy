/** `app/routers/report_routes.py`: the aggregations behind the production,
    financial and full JSON reports. The queries become filters over the
    tables passed in; `por_vaca` and the per-category dictionaries become
    tallies kept in insertion order, as Python dictionaries are. */
module Reports {
  import opened Wrappers
  import opened Records
  import Stats

  /** A row of the receitas or the despesas table. */
  datatype Lancamento = Lancamento(userId: int, descricao: string, valor: real, data: int, categoria: string)

  // ---- the queries ----

  /** The optional date filters: an absent bound (a missing or empty parameter) does not filter; both ends are inclusive. */
  predicate InPeriod(d: int, inicio: Option<int>, fim: Option<int>)
  {
    (inicio.None? || d >= inicio.value) && (fim.None? || d <= fim.value)
  }

  /** The user's production records in the period, in table order. */
  function ProductionQuery(table: seq<Producao>, userId: int, inicio: Option<int>, fim: Option<int>): (ps: seq<Producao>)
    ensures |ps| <= |table|
    ensures forall p :: p in ps <==> p in table && p.userId == userId && InPeriod(p.data, inicio, fim)
  {
    if table == [] then []
    else
      var p := table[|table| - 1];
      ProductionQuery(table[..|table| - 1], userId, inicio, fim)
        + (if p.userId == userId && InPeriod(p.data, inicio, fim) then [p] else [])
  }

  /** The user's revenue or expense rows in the period, in table order. */
  function EntryQuery(table: seq<Lancamento>, userId: int, inicio: Option<int>, fim: Option<int>): (es: seq<Lancamento>)
    ensures |es| <= |table|
    ensures forall e :: e in es <==> e in table && e.userId == userId && InPeriod(e.data, inicio, fim)
  {
    if table == [] then []
    else
      var e := table[|table| - 1];
      EntryQuery(table[..|table| - 1], userId, inicio, fim)
        + (if e.userId == userId && InPeriod(e.data, inicio, fim) then [e] else [])
  }

  /** The user's cows, in table order. */
  function CowsOf(vacas: seq<Vaca>, userId: int): (vs: seq<Vaca>)
    ensures |vs| <= |vacas|
    ensures forall v :: v in vs <==> v in vacas && v.userId == userId
  {
    if vacas == [] then []
    else CowsOf(vacas[..|vacas| - 1], userId) + (if vacas[|vacas| - 1].userId == userId then [vacas[|vacas| - 1]] else [])
  }

  function Valores(es: seq<Lancamento>): (vs: seq<real>)
    ensures |vs| == |es|
    ensures forall i :: 0 <= i < |es| ==> vs[i] == es[i].valor
  {
    seq(|es|, i requires 0 <= i < |es| => es[i].valor)
  }

  function Categorias(es: seq<Lancamento>): (cs: seq<string>)
    ensures |cs| == |es|
    ensures forall i :: 0 <= i < |es| ==> cs[i] == es[i].categoria
  {
    seq(|es|, i requires 0 <= i < |es| => es[i].categoria)
  }

  function VacaIds(ps: seq<Producao>): (ids: seq<int>)
    ensures |ids| == |ps|
    ensures forall i :: 0 <= i < |ps| ==> ids[i] == ps[i].vacaId
  {
    seq(|ps|, i requires 0 <= i < |ps| => ps[i].vacaId)
  }

  // ---- tallies: `d[k] = 0` on first sight, then `d[k] += v` ----

  /** A dictionary from key to running total and count, its keys in insertion order. */
  datatype Tally<K> = Tally(order: seq<K>, sums: map<K, real>, counts: map<K, nat>)

  /** One step of the grouping loop. */
  function Bump<K(==)>(t: Tally<K>, k: K, v: real): Tally<K>
  {
    var t0 := if k in t.sums then t else Tally(t.order + [k], t.sums[k := 0.0], t.counts[k := 0]);
    Tally(t0.order, t0.sums[k := t0.sums[k] + v], t0.counts[k := if k in t0.counts then t0.counts[k] + 1 else 1])
  }

  /** The tally after the loop has seen the pairs `(keys[i], amounts[i])` in order. */
  function TallyOf<K(==)>(keys: seq<K>, amounts: seq<real>): Tally<K>
    requires |keys| == |amounts|
  {
    if keys == [] then Tally([], map[], map[])
    else Bump(TallyOf(keys[..|keys| - 1], amounts[..|amounts| - 1]), keys[|keys| - 1], amounts[|amounts| - 1])
  }

  predicate Distinct<K(==)>(ks: seq<K>)
  {
    forall i, j :: 0 <= i < j < |ks| ==> ks[i] != ks[j]
  }

  /** The amounts paired with key `k`, in order. */
  function AmountsOf<K(==)>(keys: seq<K>, amounts: seq<real>, k: K): (r: seq<real>)
    requires |keys| == |amounts|
    ensures |r| <= |keys|
  {
    if keys == [] then []
    else AmountsOf(keys[..|keys| - 1], amounts[..|amounts| - 1], k) + (if keys[|keys| - 1] == k then [amounts[|amounts| - 1]] else [])
  }

  /** Each key appears once, in order of first sight; the totals and counts have exactly those keys. */
  lemma {:induction false} TallyKeys<K>(keys: seq<K>, amounts: seq<real>)
    requires |keys| == |amounts|
    ensures Distinct(TallyOf(keys, amounts).order)
    ensures forall k :: k in TallyOf(keys, amounts).order <==> k in keys
    ensures forall k :: k in TallyOf(keys, amounts).sums <==> k in keys
    ensures forall k :: k in TallyOf(keys, amounts).counts <==> k in keys
  {
    if keys != [] {
      var front := keys[..|keys| - 1];
      TallyKeys(front, amounts[..|amounts| - 1]);
      assert keys == front + [keys[|keys| - 1]];
    }
  }

  lemma {:induction false} AmountsOfAbsent<K>(keys: seq<K>, amounts: seq<real>, k: K)
    requires |keys| == |amounts| && k !in keys
    ensures AmountsOf(keys, amounts, k) == []
  {
    if keys != [] {
      AmountsOfAbsent(keys[..|keys| - 1], amounts[..|amounts| - 1], k);
    }
  }

  /** Each key's total is the sum of its own amounts, and its count their number. */
  lemma {:induction false} TallyPerKey<K>(keys: seq<K>, amounts: seq<real>, k: K)
    requires |keys| == |amounts| && k in keys
    ensures k in TallyOf(keys, amounts).sums && k in TallyOf(keys, amounts).counts
    ensures TallyOf(keys, amounts).sums[k] == Stats.Sum(AmountsOf(keys, amounts, k))
    ensures TallyOf(keys, amounts).counts[k] == |AmountsOf(keys, amounts, k)|
  {
    var front, fa := keys[..|keys| - 1], amounts[..|amounts| - 1];
    var last, v := keys[|keys| - 1], amounts[|amounts| - 1];
    TallyKeys(front, fa);
    TallyKeys(keys, amounts);
    assert keys == front + [last];
    var mine := AmountsOf(keys, amounts, k);
    if k in front {
      TallyPerKey(front, fa, k);
    } else {
      AmountsOfAbsent(front, fa, k);
    }
    if k == last {
      assert mine == AmountsOf(front, fa, k) + [v];
      assert mine[..|mine| - 1] == AmountsOf(front, fa, k);
    } else {
      assert mine == AmountsOf(front, fa, k);
    }
  }

  /** The total of `sums` over the keys of `order`, in order. */
  function SumOver<K(==)>(order: seq<K>, sums: map<K, real>): real
    requires forall k :: k in order ==> k in sums
  {
    if order == [] then 0.0 else SumOver(order[..|order| - 1], sums) + sums[order[|order| - 1]]
  }

  function CountOver<K(==)>(order: seq<K>, counts: map<K, nat>): int
    requires forall k :: k in order ==> k in counts
  {
    if order == [] then 0 else CountOver(order[..|order| - 1], counts) + counts[order[|order| - 1]]
  }

  /** Changing the entry of a key outside `order` changes nothing. */
  lemma {:induction false} OverFrame<K>(order: seq<K>, sums: map<K, real>, counts: map<K, nat>, k: K, v: real, c: nat)
    requires forall x :: x in order ==> x in sums && x in counts
    requires k !in order
    ensures SumOver(order, sums[k := v]) == SumOver(order, sums)
    ensures CountOver(order, counts[k := c]) == CountOver(order, counts)
  {
    if order != [] {
      OverFrame(order[..|order| - 1], sums, counts, k, v, c);
    }
  }

  /** Raising one key's entry raises the total by as much. */
  lemma {:induction false} OverBump<K>(order: seq<K>, sums: map<K, real>, counts: map<K, nat>, k: K, v: real)
    requires forall x :: x in order ==> x in sums && x in counts
    requires Distinct(order) && k in order
    ensures SumOver(order, sums[k := sums[k] + v]) == SumOver(order, sums) + v
    ensures CountOver(order, counts[k := counts[k] + 1]) == CountOver(order, counts) + 1
  {
    var front, last := order[..|order| - 1], order[|order| - 1];
    if last == k {
      assert k !in front;
      OverFrame(front, sums, counts, k, sums[k] + v, counts[k] + 1);
    } else {
      OverBump(front, sums, counts, k, v);
    }
  }

  /** A tally whose keys in order, totals and counts agree. */
  ghost predicate Coherent<K(!new)>(t: Tally<K>)
  {
    Distinct(t.order) && (forall k :: k in t.order <==> k in t.sums) && (forall k :: k in t.order ==> k in t.counts)
  }

  /** The step at a key seen for the first time. */
  lemma BumpFresh<K>(t: Tally<K>, k: K, v: real)
    requires k !in t.sums
    ensures Bump(t, k, v) == Tally(t.order + [k], t.sums[k := 0.0 + v], t.counts[k := 1])
  {}

  lemma BumpCoherent<K(!new)>(t: Tally<K>, k: K, v: real)
    requires Coherent(t)
    ensures Coherent(Bump(t, k, v))
  {
    if k !in t.sums {
      BumpFresh(t, k, v);
    }
  }

  /** The step at a key seen before. */
  lemma BumpSeen<K(!new)>(t: Tally<K>, k: K, v: real)
    requires Coherent(t) && k in t.sums
    ensures k in t.counts
    ensures Bump(t, k, v) == Tally(t.order, t.sums[k := t.sums[k] + v], t.counts[k := t.counts[k] + 1])
  {}

  /** One step adds the amount to the grand total and one to the count. */
  lemma BumpSum<K(!new)>(t: Tally<K>, k: K, v: real)
    requires Coherent(t)
    ensures Coherent(Bump(t, k, v))
    ensures SumOver(Bump(t, k, v).order, Bump(t, k, v).sums) == SumOver(t.order, t.sums) + v
    ensures CountOver(Bump(t, k, v).order, Bump(t, k, v).counts) == CountOver(t.order, t.counts) + 1
  {
    BumpCoherent(t, k, v);
    if k in t.sums {
      BumpSumSeen(t, k, v);
    } else {
      BumpSumFresh(t, k, v);
    }
  }

  lemma BumpSumSeen<K(!new)>(t: Tally<K>, k: K, v: real)
    requires Coherent(t) && k in t.sums
    ensures SumOver(Bump(t, k, v).order, Bump(t, k, v).sums) == SumOver(t.order, t.sums) + v
    ensures CountOver(Bump(t, k, v).order, Bump(t, k, v).counts) == CountOver(t.order, t.counts) + 1
  {
    BumpSeen(t, k, v);
    OverBump(t.order, t.sums, t.counts, k, v);
  }

  lemma BumpSumFresh<K(!new)>(t: Tally<K>, k: K, v: real)
    requires Coherent(t) && k !in t.sums
    ensures SumOver(Bump(t, k, v).order, Bump(t, k, v).sums) == SumOver(t.order, t.sums) + v
    ensures CountOver(Bump(t, k, v).order, Bump(t, k, v).counts) == CountOver(t.order, t.counts) + 1
  {
    BumpFresh(t, k, v);
    BumpFreshSum(t.order, t.sums, t.counts, k, v);
  }

  /** Appending a fresh key adds its entry to the totals. */
  lemma BumpFreshSum<K>(order: seq<K>, sums: map<K, real>, counts: map<K, nat>, k: K, v: real)
    requires forall x :: x in order ==> x in sums && x in counts
    requires k !in order
    ensures SumOver(order + [k], sums[k := 0.0 + v]) == SumOver(order, sums) + v
    ensures CountOver(order + [k], counts[k := 1]) == CountOver(order, counts) + 1
  {
    OverFrame(order, sums, counts, k, 0.0 + v, 1);
    var longer := order + [k];
    assert longer[..|longer| - 1] == order;
  }

  /** The totals add up to the sum of all amounts, and the counts to the number of pairs. */
  lemma {:induction false} TallySum<K(!new)>(keys: seq<K>, amounts: seq<real>)
    requires |keys| == |amounts|
    ensures Coherent(TallyOf(keys, amounts))
    ensures SumOver(TallyOf(keys, amounts).order, TallyOf(keys, amounts).sums) == Stats.Sum(amounts)
    ensures CountOver(TallyOf(keys, amounts).order, TallyOf(keys, amounts).counts) == |keys|
  {
    if keys != [] {
      var front, fa := keys[..|keys| - 1], amounts[..|amounts| - 1];
      TallySum(front, fa);
      BumpSum(TallyOf(front, fa), keys[|keys| - 1], amounts[|amounts| - 1]);
    }
  }

  // ---- relatorio_producao_json ----

  datatype ProductionSummary = ProductionSummary(totalProducao: real, mediaDiaria: real, totalRegistros: nat)

  /** One `por_vaca` entry. */
  datatype CowEntry = CowEntry(vacaNome: string, total: real, registros: nat)

  /** The name of the first cow with that id, "Desconhecida" when there is none. */
  function CowName(vacas: seq<Vaca>, id: int): (name: string)
    ensures (exists v :: v in vacas && v.id == id) || name == "Desconhecida"
  {
    if vacas == [] then "Desconhecida"
    else if vacas[0].id == id then vacas[0].nome
    else CowName(vacas[1..], id)
  }

  /** The `resumo` of the production report, before rounding. */
  function ProductionSummaryOf(ps: seq<Producao>): (s: ProductionSummary)
    ensures s.totalRegistros == |ps| && s.totalProducao == Stats.Sum(Totals(ps))
    ensures ps == [] ==> s.mediaDiaria == 0.0
    ensures ps != [] ==> s.mediaDiaria * (|ps| as real) == s.totalProducao
  {
    var total := Stats.Sum(Totals(ps));
    ProductionSummary(total, if ps != [] then total / (|ps| as real) else 0.0, |ps|)
  }

  /** `porVaca` holds, for each cow of the tally, its name, total and count. */
  ghost predicate Mirrors(porVaca: map<int, CowEntry>, t: Tally<int>, vacas: seq<Vaca>)
  {
    (forall id :: id in porVaca <==> id in t.sums) &&
    forall id :: id in porVaca ==>
      id in t.sums && id in t.counts && porVaca[id] == CowEntry(CowName(vacas, id), t.sums[id], t.counts[id])
  }

  /** The `por_vaca` loop over the selected records. */
  method PorVaca(ps: seq<Producao>, vacas: seq<Vaca>) returns (order: seq<int>, porVaca: map<int, CowEntry>)
    ensures order == TallyOf(VacaIds(ps), Totals(ps)).order
    ensures forall id :: id in porVaca <==> id in order
    ensures Mirrors(porVaca, TallyOf(VacaIds(ps), Totals(ps)), vacas)
  {
    order := [];
    porVaca := map[];
    for i := 0 to |ps|
      invariant order == TallyOf(VacaIds(ps[..i]), Totals(ps[..i])).order
      invariant Mirrors(porVaca, TallyOf(VacaIds(ps[..i]), Totals(ps[..i])), vacas)
    {
      PorVacaStep(ps, i);
      order, porVaca := AddRecord(order, porVaca, ps[i], vacas, TallyOf(VacaIds(ps[..i]), Totals(ps[..i])));
    }
    assert ps[..|ps|] == ps;
    TallyKeys(VacaIds(ps), Totals(ps));
  }

  /** One turn of the `por_vaca` loop: a new cow starts at zero, then the record is added to its entry. */
  method AddRecord(order: seq<int>, porVaca: map<int, CowEntry>, p: Producao, vacas: seq<Vaca>, ghost t: Tally<int>)
    returns (order': seq<int>, porVaca': map<int, CowEntry>)
    requires order == t.order && Mirrors(porVaca, t, vacas)
    ensures order' == Bump(t, p.vacaId, p.total).order
    ensures Mirrors(porVaca', Bump(t, p.vacaId, p.total), vacas)
  {
    order', porVaca' := order, porVaca;
    if p.vacaId !in porVaca' {
      porVaca' := porVaca'[p.vacaId := CowEntry(CowName(vacas, p.vacaId), 0.0, 0)];
      order' := order' + [p.vacaId];
    }
    var e := porVaca'[p.vacaId];
    porVaca' := porVaca'[p.vacaId := e.(total := e.total + p.total, registros := e.registros + 1)];
  }

  /** One turn of the `por_vaca` loop, as a step of the tally. */
  lemma PorVacaStep(ps: seq<Producao>, i: int)
    requires 0 <= i < |ps|
    ensures TallyOf(VacaIds(ps[..i + 1]), Totals(ps[..i + 1])) == Bump(TallyOf(VacaIds(ps[..i]), Totals(ps[..i])), ps[i].vacaId, ps[i].total)
    ensures forall k :: k in TallyOf(VacaIds(ps[..i]), Totals(ps[..i])).sums <==> k in TallyOf(VacaIds(ps[..i]), Totals(ps[..i])).counts
  {
    var ids, ts := VacaIds(ps[..i + 1]), Totals(ps[..i + 1]);
    assert ids[..i] == VacaIds(ps[..i]);
    assert ts[..i] == Totals(ps[..i]);
    TallyKeys(VacaIds(ps[..i]), Totals(ps[..i]));
  }

  /** A cow's amounts in the tally are the totals of that cow's records. */
  lemma {:induction false} AmountsOfCow(ps: seq<Producao>, id: int)
    ensures AmountsOf(VacaIds(ps), Totals(ps), id) == Totals(OfCow(ps, id))
  {
    if ps != [] {
      var front := ps[..|ps| - 1];
      AmountsOfCow(front, id);
      assert VacaIds(ps)[..|ps| - 1] == VacaIds(front);
      assert Totals(ps)[..|ps| - 1] == Totals(front);
      assert Totals(OfCow(front, id) + [ps[|ps| - 1]]) == Totals(OfCow(front, id)) + [ps[|ps| - 1].total];
    }
  }

  /**
   * `por_vaca` lists every cow of the records once; each entry holds the sum
   * and the number of that cow's records; the entries add up to the report's
   * total and record count.
   */
  lemma PorVacaMeaning(ps: seq<Producao>, id: int)
    requires id in VacaIds(ps)
    ensures var t := TallyOf(VacaIds(ps), Totals(ps));
      id in t.sums && id in t.counts &&
      t.sums[id] == Stats.Sum(Totals(OfCow(ps, id))) && t.counts[id] == |OfCow(ps, id)|
  {
    TallyPerKey(VacaIds(ps), Totals(ps), id);
    AmountsOfCow(ps, id);
  }

  lemma PorVacaAddsUp(ps: seq<Producao>)
    ensures var t := TallyOf(VacaIds(ps), Totals(ps));
      Distinct(t.order) && (forall id :: id in t.order <==> exists p :: p in ps && p.vacaId == id) &&
      (forall id :: id in t.order ==> id in t.sums && id in t.counts) &&
      SumOver(t.order, t.sums) == ProductionSummaryOf(ps).totalProducao &&
      CountOver(t.order, t.counts) == ProductionSummaryOf(ps).totalRegistros
  {
    var ids := VacaIds(ps);
    TallyKeys(ids, Totals(ps));
    TallySum(ids, Totals(ps));
    forall id ensures id in ids <==> exists p :: p in ps && p.vacaId == id {
      if id in ids {
        var i :| 0 <= i < |ids| && ids[i] == id;
        assert ps[i] in ps;
      }
    }
  }

  /** The `periodo` labels: the parameter as given, or the default when it is missing or empty. */
  function PeriodLabel(param: Option<string>, fallback: string): (shown: string)
    ensures param.Some? && param.value != "" ==> shown == param.value
    ensures (param.None? || param.value == "") ==> shown == fallback
  {
    if param.Some? && param.value != "" then param.value else fallback
  }

  /** A date bound is parsed exactly when its parameter is given and not empty. */
  predicate ParsedFrom(raw: Option<string>, parsed: Option<int>)
  {
    parsed.Some? <==> raw.Some? && raw.value != ""
  }

  datatype ProductionReport = ProductionReport(
    inicio: string, fim: string,
    resumo: ProductionSummary,
    ordemVacas: seq<int>, porVaca: map<int, CowEntry>,
    registros: seq<Producao>)

  /**
   * `relatorio_producao_json`: `dataInicio`/`dataFim` are the raw parameters,
   * `inicio`/`fim` the dates they parse to (absent when a parameter is
   * missing or empty).
   */
  method RelatorioProducao(table: seq<Producao>, vacas: seq<Vaca>, userId: int,
                           dataInicio: Option<string>, dataFim: Option<string>,
                           inicio: Option<int>, fim: Option<int>) returns (r: ProductionReport)
    requires ParsedFrom(dataInicio, inicio) && ParsedFrom(dataFim, fim)
    ensures r.registros == ProductionQuery(table, userId, inicio, fim)
    ensures r.resumo == ProductionSummaryOf(r.registros)
    ensures r.ordemVacas == TallyOf(VacaIds(r.registros), Totals(r.registros)).order
    ensures forall id :: id in r.porVaca <==> id in r.ordemVacas
    ensures Mirrors(r.porVaca, TallyOf(VacaIds(r.registros), Totals(r.registros)), vacas)
    ensures r.inicio == PeriodLabel(dataInicio, "Início") && r.fim == PeriodLabel(dataFim, "Hoje")
  {
    var producoes := ProductionQuery(table, userId, inicio, fim);
    var order, porVaca := PorVaca(producoes, vacas);
    r := ProductionReport(PeriodLabel(dataInicio, "Início"), PeriodLabel(dataFim, "Hoje"),
      ProductionSummaryOf(producoes), order, porVaca, producoes);
  }

  // ---- relatorio_financeiro_json ----

  /** `round((saldo / total_receitas * 100) if total_receitas > 0 else 0, 2)`, before rounding. */
  function Margin(saldo: real, receitas: real): (m: real)
    ensures receitas > 0.0 ==> m * receitas == saldo * 100.0
    ensures receitas <= 0.0 ==> m == 0.0
  {
    if receitas > 0.0 then saldo / receitas * 100.0 else 0.0
  }

  /** A margin never exceeds 100 when the expenses are not negative, and is negative exactly at a loss. */
  lemma MarginBounds(receitas: real, despesas: real)
    requires receitas > 0.0
    ensures despesas >= 0.0 ==> Margin(receitas - despesas, receitas) <= 100.0
    ensures Margin(receitas - despesas, receitas) < 0.0 <==> despesas > receitas
  {
    var m := Margin(receitas - despesas, receitas);
    assert m * receitas == (receitas - despesas) * 100.0;
    ScaleOrder(m, 100.0, receitas);
    ScaleOrder(m, 0.0, receitas);
    assert 0.0 * receitas == 0.0;
    assert m > 100.0 <==> despesas < 0.0;
  }

  /** Multiplying by a positive number keeps the order. */
  lemma ScaleOrder(a: real, c: real, b: real)
    requires b > 0.0
    ensures a * b > c * b <==> a > c
    ensures a * b < c * b <==> a < c
  {}

  datatype FinancialSummary = FinancialSummary(totalReceitas: real, totalDespesas: real, saldo: real, margem: real)

  function FinancialSummaryOf(receitas: seq<Lancamento>, despesas: seq<Lancamento>): (s: FinancialSummary)
    ensures s.totalReceitas == Stats.Sum(Valores(receitas)) && s.totalDespesas == Stats.Sum(Valores(despesas))
    ensures s.saldo == s.totalReceitas - s.totalDespesas
    ensures s.margem == Margin(s.saldo, s.totalReceitas)
  {
    var tr := Stats.Sum(Valores(receitas));
    var td := Stats.Sum(Valores(despesas));
    FinancialSummary(tr, td, tr - td, Margin(tr - td, tr))
  }

  /** A per-category loop: `d[categoria] += valor`. */
  method PorCategoria(es: seq<Lancamento>) returns (order: seq<string>, sums: map<string, real>)
    ensures order == TallyOf(Categorias(es), Valores(es)).order
    ensures sums == TallyOf(Categorias(es), Valores(es)).sums
  {
    order := [];
    sums := map[];
    for i := 0 to |es|
      invariant order == TallyOf(Categorias(es[..i]), Valores(es[..i])).order
      invariant sums == TallyOf(Categorias(es[..i]), Valores(es[..i])).sums
    {
      var e := es[i];
      assert Categorias(es[..i + 1])[..i] == Categorias(es[..i]);
      assert Valores(es[..i + 1])[..i] == Valores(es[..i]);
      if e.categoria !in sums {
        sums := sums[e.categoria := 0.0];
        order := order + [e.categoria];
      }
      sums := sums[e.categoria := sums[e.categoria] + e.valor];
    }
    assert es[..|es|] == es;
  }

  /** The category totals add up to the report's total, and each is the sum of its own rows. */
  lemma CategoriesAddUp(es: seq<Lancamento>, c: string)
    ensures var t := TallyOf(Categorias(es), Valores(es));
      Distinct(t.order) && (forall k :: k in t.order ==> k in t.sums && k in t.counts) &&
      SumOver(t.order, t.sums) == Stats.Sum(Valores(es))
    ensures c in Categorias(es) ==>
      c in TallyOf(Categorias(es), Valores(es)).sums &&
      TallyOf(Categorias(es), Valores(es)).sums[c] == Stats.Sum(AmountsOf(Categorias(es), Valores(es), c))
  {
    TallyKeys(Categorias(es), Valores(es));
    TallySum(Categorias(es), Valores(es));
    if c in Categorias(es) {
      TallyPerKey(Categorias(es), Valores(es), c);
    }
  }

  datatype FinancialReport = FinancialReport(
    inicio: string, fim: string,
    resumo: FinancialSummary,
    ordemReceitas: seq<string>, receitasPorCategoria: map<string, real>,
    ordemDespesas: seq<string>, despesasPorCategoria: map<string, real>,
    receitas: seq<Lancamento>, despesas: seq<Lancamento>)

  /** `relatorio_financeiro_json`, with the parameters as in `RelatorioProducao`. */
  method RelatorioFinanceiro(receitasTable: seq<Lancamento>, despesasTable: seq<Lancamento>, userId: int,
                             dataInicio: Option<string>, dataFim: Option<string>,
                             inicio: Option<int>, fim: Option<int>) returns (r: FinancialReport)
    requires ParsedFrom(dataInicio, inicio) && ParsedFrom(dataFim, fim)
    ensures r.receitas == EntryQuery(receitasTable, userId, inicio, fim)
    ensures r.despesas == EntryQuery(despesasTable, userId, inicio, fim)
    ensures r.resumo == FinancialSummaryOf(r.receitas, r.despesas)
    ensures r.ordemReceitas == TallyOf(Categorias(r.receitas), Valores(r.receitas)).order
    ensures r.receitasPorCategoria == TallyOf(Categorias(r.receitas), Valores(r.receitas)).sums
    ensures r.ordemDespesas == TallyOf(Categorias(r.despesas), Valores(r.despesas)).order
    ensures r.despesasPorCategoria == TallyOf(Categorias(r.despesas), Valores(r.despesas)).sums
    ensures r.inicio == PeriodLabel(dataInicio, "Início") && r.fim == PeriodLabel(dataFim, "Hoje")
  {
    var receitas := EntryQuery(receitasTable, userId, inicio, fim);
    var despesas := EntryQuery(despesasTable, userId, inicio, fim);
    var ro, rs := PorCategoria(receitas);
    var dor, ds := PorCategoria(despesas);
    r := FinancialReport(PeriodLabel(dataInicio, "Início"), PeriodLabel(dataFim, "Hoje"),
      FinancialSummaryOf(receitas, despesas), ro, rs, dor, ds, receitas, despesas);
  }

  // ---- relatorio_completo_json ----

  /** The full report covers the records dated from 30 days before today on. */
  const CompleteWindow := 30

  datatype CompleteReport = CompleteReport(
    totalVacas: nat, vacasAtivas: nat,
    producaoTotal: real, producaoMediaDiaria: real, registros: nat,
    receitas: real, despesas: real, saldo: real)

  /** The cows whose status is "ativa". */
  function ActiveCows(vs: seq<Vaca>): (r: seq<Vaca>)
    ensures |r| <= |vs|
    ensures forall v :: v in r <==> v in vs && v.status == "ativa"
  {
    if vs == [] then []
    else ActiveCows(vs[..|vs| - 1]) + (if vs[|vs| - 1].status == "ativa" then [vs[|vs| - 1]] else [])
  }

  /** The full report with the active cows counted by their status, as the cow model stores it. */
  function CompleteReportOf(vacas: seq<Vaca>, producoes: seq<Producao>, receitas: seq<Lancamento>,
                            despesas: seq<Lancamento>, userId: int, today: int): (r: CompleteReport)
    ensures r.vacasAtivas <= r.totalVacas == |CowsOf(vacas, userId)|
    ensures r.vacasAtivas == |ActiveCows(CowsOf(vacas, userId))|
  {
    var since := Some(today - CompleteWindow);
    var vs := CowsOf(vacas, userId);
    var ps := ProductionQuery(producoes, userId, since, None);
    var total := Stats.Sum(Totals(ps));
    var tr := Stats.Sum(Valores(EntryQuery(receitas, userId, since, None)));
    var td := Stats.Sum(Valores(EntryQuery(despesas, userId, since, None)));
    CompleteReport(|vs|, |ActiveCows(vs)|, total, total / 30.0, |ps|, tr, td, tr - td)
  }

  /** The positions of the rows of `vacas` that are the user's cows with status "ativa". */
  ghost function ActiveRows(vacas: seq<Vaca>, userId: int): set<int>
  {
    set i | 0 <= i < |vacas| && vacas[i].userId == userId && vacas[i].status == "ativa"
  }

  lemma ActiveCowsSnoc(vs: seq<Vaca>, v: Vaca)
    ensures |ActiveCows(vs + [v])| == |ActiveCows(vs)| + (if v.status == "ativa" then 1 else 0)
  {
    assert (vs + [v])[..|vs|] == vs;
  }

  lemma OwnActiveCowsSnoc(vacas: seq<Vaca>, userId: int)
    requires vacas != []
    ensures var last := vacas[|vacas| - 1];
      |ActiveCows(CowsOf(vacas, userId))| == |ActiveCows(CowsOf(vacas[..|vacas| - 1], userId))|
        + (if last.userId == userId && last.status == "ativa" then 1 else 0)
  {
    var init, last := vacas[..|vacas| - 1], vacas[|vacas| - 1];
    var mine := CowsOf(init, userId);
    if last.userId == userId {
      assert CowsOf(vacas, userId) == mine + [last];
      ActiveCowsSnoc(mine, last);
    } else {
      assert CowsOf(vacas, userId) == mine;
    }
  }

  lemma ActiveRowsSnoc(vacas: seq<Vaca>, userId: int)
    requires vacas != []
    ensures var last := vacas[|vacas| - 1];
      |ActiveRows(vacas, userId)| == |ActiveRows(vacas[..|vacas| - 1], userId)|
        + (if last.userId == userId && last.status == "ativa" then 1 else 0)
  {
    var n := |vacas|;
    var init := vacas[..n - 1];
    var before, after := ActiveRows(init, userId), ActiveRows(vacas, userId);
    var last := if vacas[n - 1].userId == userId && vacas[n - 1].status == "ativa" then {n - 1} else {};
    forall i ensures i in after <==> i in before + last {
      if 0 <= i < n - 1 {
        assert vacas[i] == init[i];
      }
    }
    assert after == before + last;
    assert n - 1 !in before;
  }

  lemma {:induction false} ActiveCowsCountsRows(vacas: seq<Vaca>, userId: int)
    ensures |ActiveCows(CowsOf(vacas, userId))| == |ActiveRows(vacas, userId)|
  {
    if vacas != [] {
      ActiveCowsCountsRows(vacas[..|vacas| - 1], userId);
      OwnActiveCowsSnoc(vacas, userId);
      ActiveRowsSnoc(vacas, userId);
    }
  }

  /** `vacas_ativas` counts, row by row, the user's cows whose status is "ativa". */
  lemma CompleteReportCountsActiveCows(vacas: seq<Vaca>, producoes: seq<Producao>, receitas: seq<Lancamento>,
                                       despesas: seq<Lancamento>, userId: int, today: int)
    ensures CompleteReportOf(vacas, producoes, receitas, despesas, userId, today).vacasAtivas
         == |set i | 0 <= i < |vacas| && vacas[i].userId == userId && vacas[i].status == "ativa"|
  {
    ActiveCowsCountsRows(vacas, userId);
  }

  /** The full report's figures: the daily mean always divides by 30, whatever the number of records. */
  lemma CompleteReportFigures(vacas: seq<Vaca>, producoes: seq<Producao>, receitas: seq<Lancamento>,
                              despesas: seq<Lancamento>, userId: int, today: int)
    ensures var r := CompleteReportOf(vacas, producoes, receitas, despesas, userId, today);
      var ps := ProductionQuery(producoes, userId, Some(today - 30), None);
      r.producaoMediaDiaria * 30.0 == r.producaoTotal && r.registros == |ps| &&
      r.producaoTotal == Stats.Sum(Totals(ps)) &&
      r.saldo == r.receitas - r.despesas &&
      (forall p :: p in ps <==> p in producoes && p.userId == userId && p.data >= today - 30)
  {}

  /** The message of the exception the full report raises as written. */
  const NoAtivaAttribute := "'Vaca' object has no attribute 'ativa'"

  /**
   * The full report as written: counting the active cows reads `v.ativa`,
   * an attribute the cow model does not have, so the first cow the
   * comprehension looks at raises.
   */
  function CompleteReportAsWritten(vacas: seq<Vaca>, producoes: seq<Producao>, receitas: seq<Lancamento>,
                                   despesas: seq<Lancamento>, userId: int, today: int): (r: Result<CompleteReport, string>)
    ensures r.Ok? <==> CowsOf(vacas, userId) == []
  {
    if CowsOf(vacas, userId) != [] then Err(NoAtivaAttribute)
    else Ok(CompleteReportOf(vacas, producoes, receitas, despesas, userId, today))
  }

  /** A single active cow is enough to make the report as written fail, where the corrected one counts her. */
  lemma CompleteReportFailsWithACow()
    ensures CompleteReportAsWritten([Vaca(1, 7, "Mimosa", "ativa")], [], [], [], 7, 738000).Err?
    ensures CompleteReportOf([Vaca(1, 7, "Mimosa", "ativa")], [], [], [], 7, 738000).vacasAtivas == 1
  {
    var vs := [Vaca(1, 7, "Mimosa", "ativa")];
    assert CowsOf(vs, 7) == vs;
    assert ActiveCows(vs) == vs;
  }

  /** Without cows both agree. */
  lemma CompleteReportAgreesWithoutCows(vacas: seq<Vaca>, producoes: seq<Producao>, receitas: seq<Lancamento>,
                                        despesas: seq<Lancamento>, userId: int, today: int)
    requires CowsOf(vacas, userId) == []
    ensures CompleteReportAsWritten(vacas, producoes, receitas, despesas, userId, today)
         == Ok(CompleteReportOf(vacas, producoes, receitas, despesas, userId, today))
  {}
}
