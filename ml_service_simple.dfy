/**
 * The simplified analytics service: a moving-average forecast with a
 * weekday variation, a performance table with the same tiers but no trend
 * and no sort, and a reduced rule set. Its operations have no catch-all,
 * so only the explicit error returns are modelled.
 */
module MlServiceSimple {
  import opened Wrappers
  import opened Records
  import Stats
  import opened MlService

  /** The service's error returns; SimpleMessage gives the text under "error". */
  datatype SimpleError = InsufficientData | NoCowsFound

  function SimpleMessage(e: SimpleError): string
  {
    match e
    case InsufficientData => "Dados insuficientes"
    case NoCowsFound => "Nenhuma vaca encontrada"
  }

  // ===================== predict_milk_production_simple =====================

  /** `.limit(7)` on the cow's records, newest first. */
  const SimpleWindow := 7
  const MinSimpleRecords := 3

  datatype SimplePrediction = SimplePrediction(vacaId: int, predicoes: seq<Point>, confiabilidade: real, metodo: string)

  /** `1.0 + (weekday % 3 - 1) * 0.1` for the day ordinal d. */
  function Variation(d: int): (v: real)
    ensures v == 0.9 || v == 1.0 || v == 1.1
    ensures v == 0.9 <==> Weekday(d) % 3 == 0
    ensures v == 1.1 <==> Weekday(d) % 3 == 2
  {
    1.0 + ((Weekday(d) % 3 - 1) as real) * 0.1
  }

  /** `min(0.8, n / 7)`. */
  function SimpleConfidence(n: nat): (c: real)
    ensures c <= 0.8 && c <= (n as real) / 7.0
    ensures c == 0.8 || c == (n as real) / 7.0
  {
    if (n as real) / 7.0 < 0.8 then (n as real) / 7.0 else 0.8
  }

  /** How many points `range(days_ahead)` yields. */
  function Steps(daysAhead: int): (k: nat)
    ensures daysAhead <= 0 ==> k == 0
    ensures daysAhead >= 0 ==> k == daysAhead
  {
    if daysAhead <= 0 then 0 else daysAhead
  }

  /** The forecast for the day ordinal d: the mean scaled by the day's variation, clamped at zero. */
  function SimpleForecast(media: real, d: int): real
  {
    NonNegative(media * Variation(d))
  }

  /**
   * `predict_milk_production_simple` over the cow's records, newest first, at
   * most 7; `today` is the ordinal of the current date.
   */
  method PredictSimple(vacaId: int, ps: seq<Producao>, daysAhead: int, today: int) returns (r: Result<SimplePrediction, SimpleError>)
    requires |ps| <= SimpleWindow && NewestFirst(ps)
    ensures r.Err? <==> |ps| < MinSimpleRecords
    ensures r.Err? ==> r.error == InsufficientData
    ensures r.Ok? ==> r.value.vacaId == vacaId && r.value.confiabilidade == SimpleConfidence(|ps|)
    ensures r.Ok? ==> r.value.metodo == "media_movel_simples"
    ensures r.Ok? ==> |r.value.predicoes| == Steps(daysAhead)
    ensures r.Ok? ==> forall i :: 0 <= i < |r.value.predicoes| ==>
      r.value.predicoes[i] == Point(today + i + 1, SimpleForecast(Stats.Mean(Totals(ps)), today + i + 1))
  {
    if |ps| < MinSimpleRecords {
      return Err(InsufficientData);
    }
    var media := Stats.Sum(Totals(ps)) / (|ps| as real);
    var predictions: seq<Point> := [];
    var i := 0;
    while i < daysAhead
      invariant 0 <= i <= Steps(daysAhead)
      invariant |predictions| == i
      invariant forall j :: 0 <= j < i ==> predictions[j] == Point(today + j + 1, SimpleForecast(media, today + j + 1))
    {
      var futureDate := today + i + 1;
      var variation := Variation(futureDate);
      var predValue := media * variation;
      predictions := predictions + [Point(futureDate, NonNegative(predValue))];
      i := i + 1;
    }
    return Ok(SimplePrediction(vacaId, predictions, SimpleConfidence(|ps|), "media_movel_simples"));
  }

  /**
   * Every forecast is non-negative, and for yields in [0, hi] it lies between
   * 0.9 and 1.1 times the mean yield, itself within [0, hi].
   */
  lemma SimpleForecastBounds(ps: seq<Producao>, hi: real, d: int)
    requires ps != []
    requires forall i :: 0 <= i < |ps| ==> 0.0 <= ps[i].total <= hi
    ensures 0.0 <= Stats.Mean(Totals(ps)) <= hi
    ensures 0.9 * Stats.Mean(Totals(ps)) <= SimpleForecast(Stats.Mean(Totals(ps)), d) <= 1.1 * Stats.Mean(Totals(ps))
  {
    var m := Stats.Mean(Totals(ps));
    Stats.MeanBetween(Totals(ps), 0.0, hi);
    var v := Variation(d);
    assert 0.9 * m <= v * m <= 1.1 * m;
  }

  /** Over a week from a Monday: Mondays, Thursdays and Sundays get 0.9, Tuesdays and Fridays 1.0, Wednesdays and Saturdays 1.1. */
  lemma VariationOfWeek(d: int)
    requires Weekday(d) == 0
    ensures Variation(d) == 0.9 && Variation(d + 1) == 1.0 && Variation(d + 2) == 1.1
    ensures Variation(d + 3) == 0.9 && Variation(d + 4) == 1.0 && Variation(d + 5) == 1.1
    ensures Variation(d + 6) == 0.9
  {
    var q := (d + 6) / 7;
    assert d + 6 == 7 * q;
    assert Weekday(d + 1) == 1 by { assert d + 1 + 6 == 7 * q + 1; }
    assert Weekday(d + 2) == 2 by { assert d + 2 + 6 == 7 * q + 2; }
    assert Weekday(d + 3) == 3 by { assert d + 3 + 6 == 7 * q + 3; }
    assert Weekday(d + 4) == 4 by { assert d + 4 + 6 == 7 * q + 4; }
    assert Weekday(d + 5) == 5 by { assert d + 5 + 6 == 7 * q + 5; }
    assert Weekday(d + 6) == 6 by { assert d + 6 + 6 == 7 * q + 6; }
  }

  // ===================== analyze_performance_simple =====================

  /** Cows with fewer records than this are skipped. */
  const MinSimpleAnalysisRecords := 2

  datatype SimpleCowPerformance = SimpleCowPerformance(
    vacaId: int,
    nome: string,
    mediaProducao: real,
    totalProducao: real,
    performance: Tier,
    diasAnalisados: nat)

  datatype SimpleHerdPerformance = SimpleHerdPerformance(
    totalVacas: nat,
    mediaGeral: real,
    vacas: seq<SimpleCowPerformance>,
    metodo: string)

  function SimpleSummary(v: Vaca, ps: seq<Producao>): SimpleCowPerformance
    requires ps != []
  {
    var total := Stats.Sum(Totals(ps));
    var media := total / (|ps| as real);
    SimpleCowPerformance(v.id, v.nome, media, total, TierOf(media), |ps|)
  }

  /** The entries the loop appends, in the order of `vacas`; the list is not sorted. */
  function SimpleSummaries(vacas: seq<Vaca>, table: seq<Producao>): (cs: seq<SimpleCowPerformance>)
    ensures |cs| <= |vacas|
  {
    if vacas == [] then []
    else
      var v := vacas[|vacas| - 1];
      var ps := OfCow(table, v.id);
      SimpleSummaries(vacas[..|vacas| - 1], table) + (if |ps| < MinSimpleAnalysisRecords then [] else [SimpleSummary(v, ps)])
  }

  /** An entry's `media_producao`. */
  function SimpleMeanYield(c: SimpleCowPerformance): real
  {
    c.mediaProducao
  }

  /** `media_geral`: the mean of the cows' means, 0 with no entries. */
  function SimpleMediaGeral(cs: seq<SimpleCowPerformance>): real
  {
    if cs == [] then 0.0 else Stats.Mean(Stats.Values(cs, SimpleMeanYield))
  }

  function SimplePerformance(vacas: seq<Vaca>, table: seq<Producao>): Result<SimpleHerdPerformance, SimpleError>
  {
    if vacas == [] then Err(NoCowsFound)
    else
      var cs := SimpleSummaries(vacas, table);
      Ok(SimpleHerdPerformance(|cs|, SimpleMediaGeral(cs), cs, "analise_simples"))
  }

  /** `analyze_performance_simple` over the user's cows and the production table. */
  method AnalyzePerformanceSimple(vacas: seq<Vaca>, table: seq<Producao>) returns (r: Result<SimpleHerdPerformance, SimpleError>)
    ensures r == SimplePerformance(vacas, table)
    ensures vacas == [] <==> r == Err(NoCowsFound)
    ensures r.Ok? ==> r.value.totalVacas == |r.value.vacas|
    ensures r.Ok? && r.value.vacas == [] ==> r.value.mediaGeral == 0.0
  {
    if vacas == [] {
      return Err(NoCowsFound);
    }
    var results: seq<SimpleCowPerformance> := [];
    for k := 0 to |vacas|
      invariant results == SimpleSummaries(vacas[..k], table)
    {
      assert vacas[..k + 1][..k] == vacas[..k];
      var vaca := vacas[k];
      var producoes := OfCow(table, vaca.id);
      if |producoes| < MinSimpleAnalysisRecords {
        continue;
      }
      var total := Stats.Sum(Totals(producoes));
      var media := total / (|producoes| as real);
      results := results + [SimpleCowPerformance(vaca.id, vaca.nome, media, total, TierOf(media), |producoes|)];
    }
    assert vacas[..|vacas|] == vacas;
    return Ok(SimpleHerdPerformance(|results|, SimpleMediaGeral(results), results, "analise_simples"));
  }

  /**
   * A cow has an entry exactly when it has at least two records, and each
   * entry's tier is that of its mean yield.
   */
  lemma {:induction false} SimpleSummariesSelect(vacas: seq<Vaca>, table: seq<Producao>)
    ensures forall c :: c in SimpleSummaries(vacas, table) ==>
      exists v :: v in vacas && |OfCow(table, v.id)| >= MinSimpleAnalysisRecords && c == SimpleSummary(v, OfCow(table, v.id))
    ensures forall v :: v in vacas && |OfCow(table, v.id)| >= MinSimpleAnalysisRecords ==>
      SimpleSummary(v, OfCow(table, v.id)) in SimpleSummaries(vacas, table)
    ensures forall c :: c in SimpleSummaries(vacas, table) ==> c.performance == TierOf(c.mediaProducao)
  {
    if vacas != [] {
      SimpleSummariesSelect(vacas[..|vacas| - 1], table);
      assert vacas == vacas[..|vacas| - 1] + [vacas[|vacas| - 1]];
    }
  }

  /** The entries follow the order of the cows: those of a concatenation are those of each part, in turn. */
  lemma {:induction false} SimpleSummariesAppend(us: seq<Vaca>, ws: seq<Vaca>, table: seq<Producao>)
    ensures SimpleSummaries(us + ws, table) == SimpleSummaries(us, table) + SimpleSummaries(ws, table)
  {
    if ws == [] {
      assert us + ws == us;
    } else {
      var front, v := ws[..|ws| - 1], ws[|ws| - 1];
      var ps := OfCow(table, v.id);
      var tail := if |ps| < MinSimpleAnalysisRecords then [] else [SimpleSummary(v, ps)];
      SimpleSummariesAppend(us, front, table);
      assert (us + ws)[..|us + ws| - 1] == us + front;
      assert (us + ws)[|us + ws| - 1] == v;
      assert SimpleSummaries(us + ws, table) == SimpleSummaries(us + front, table) + tail;
      assert SimpleSummaries(ws, table) == SimpleSummaries(front, table) + tail;
    }
  }

  // ===================== get_recommendations_simple =====================

  function SimpleLowYieldAlert(nome: string): Recommendation
  {
    Recommendation(Alerta, Some(nome), "Produção baixa - verificar alimentação e saúde", Alta)
  }

  const SimpleHerdAdvice := Recommendation(Geral, None, "Média do rebanho abaixo do ideal - revisar manejo", Media)

  datatype SimpleRecommendationReport = SimpleRecommendationReport(totalRecomendacoes: nat, recomendacoes: seq<Recommendation>, metodo: string)

  /** One alert per "baixa" cow, in list order. */
  function SimplePerCow(cs: seq<SimpleCowPerformance>): seq<Recommendation>
  {
    if cs == [] then []
    else SimplePerCow(cs[..|cs| - 1]) + (if cs[|cs| - 1].performance == Baixa then [SimpleLowYieldAlert(cs[|cs| - 1].nome)] else [])
  }

  function SimpleRecommendationsOf(h: SimpleHerdPerformance): SimpleRecommendationReport
  {
    var recs := SimplePerCow(h.vacas) + (if h.mediaGeral < LowHerdMean then [SimpleHerdAdvice] else []);
    SimpleRecommendationReport(|recs|, recs, "regras_simples")
  }

  /** The loop of `get_recommendations_simple` over a performance result. */
  method SimpleRecommendFor(h: SimpleHerdPerformance) returns (report: SimpleRecommendationReport)
    ensures report == SimpleRecommendationsOf(h)
  {
    var recommendations: seq<Recommendation> := [];
    for k := 0 to |h.vacas|
      invariant recommendations == SimplePerCow(h.vacas[..k])
    {
      assert h.vacas[..k + 1][..k] == h.vacas[..k];
      if h.vacas[k].performance == Baixa {
        recommendations := recommendations + [SimpleLowYieldAlert(h.vacas[k].nome)];
      }
    }
    assert h.vacas[..|h.vacas|] == h.vacas;
    if h.mediaGeral < LowHerdMean {
      recommendations := recommendations + [SimpleHerdAdvice];
    }
    return SimpleRecommendationReport(|recommendations|, recommendations, "regras_simples");
  }

  /** `get_recommendations_simple`: the simple analysis, then its two rules. */
  method GetRecommendationsSimple(vacas: seq<Vaca>, table: seq<Producao>) returns (r: Result<SimpleRecommendationReport, SimpleError>)
    ensures SimplePerformance(vacas, table).Err? ==> r == Err(SimplePerformance(vacas, table).error)
    ensures SimplePerformance(vacas, table).Ok? ==> r == Ok(SimpleRecommendationsOf(SimplePerformance(vacas, table).value))
    ensures r.Err? <==> vacas == []
  {
    var performance := AnalyzePerformanceSimple(vacas, table);
    if performance.Err? {
      return Err(performance.error);
    }
    var report := SimpleRecommendFor(performance.value);
    return Ok(report);
  }

  /** The names of the "baixa" cows, in list order. */
  function SimpleLowCows(cs: seq<SimpleCowPerformance>): seq<Option<string>>
  {
    if cs == [] then []
    else SimpleLowCows(cs[..|cs| - 1]) + (if cs[|cs| - 1].performance == Baixa then [Some(cs[|cs| - 1].nome)] else [])
  }

  /** The per-cow entries are exactly one high-priority alert per "baixa" cow: no trend rule, no herd entry. */
  lemma {:induction false} SimplePerCowNames(cs: seq<SimpleCowPerformance>)
    ensures NamesOfKind(SimplePerCow(cs), Alerta) == SimpleLowCows(cs)
    ensures |SimplePerCow(cs)| == |SimpleLowCows(cs)|
    ensures forall x :: x in SimplePerCow(cs) ==> x.tipo == Alerta && x.prioridade == Alta
  {
    if cs != [] {
      var c := cs[|cs| - 1];
      var tail := if c.performance == Baixa then [SimpleLowYieldAlert(c.nome)] else [];
      SimplePerCowNames(cs[..|cs| - 1]);
      NamesOfKindAppend(SimplePerCow(cs[..|cs| - 1]), tail, Alerta);
    }
  }

  /** The herd-wide entry, of medium priority, appears once and last exactly when the herd mean is below 15. */
  lemma SimpleHerdAdviceIffLowMean(h: SimpleHerdPerformance)
    ensures var recs := SimpleRecommendationsOf(h).recomendacoes;
      (SimpleHerdAdvice in recs <==> h.mediaGeral < LowHerdMean) &&
      (h.mediaGeral < LowHerdMean ==> recs[|recs| - 1] == SimpleHerdAdvice && SimpleHerdAdvice.prioridade == Media) &&
      (forall i :: 0 <= i < |recs| - 1 ==> recs[i].tipo == Alerta)
  {
    SimplePerCowNames(h.vacas);
    var per := SimplePerCow(h.vacas);
    var recs := SimpleRecommendationsOf(h).recomendacoes;
    forall i | 0 <= i < |recs| - 1 ensures recs[i].tipo == Alerta {
      assert recs[i] == per[i];
      assert per[i] in per;
    }
  }
}
