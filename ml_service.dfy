/**
 * The herd analytics service: milk-yield forecasting by least squares,
 * per-cow performance with trend and tier, anomaly detection by z-score,
 * rule-based recommendations and a linear financial projection.
 *
 * Each database query becomes a sequence argument whose ordering and limit
 * are stated as preconditions. Yields are exact reals (no rounding), and the
 * Python catch-all that turns an exception into {"error": ...} becomes `Err`.
 */
module MlService {
  import opened Wrappers
  import opened Records
  import Stats

  /** The analytics' error returns; Message gives the text the service returns under "error". */
  datatype MlError =
    | PredictionInsufficientData
    | PredictionDivisionByZero
    | NoCows
    | AnomalyInsufficientData
    | ForecastInsufficientData

  function Message(e: MlError): string
  {
    match e
    case PredictionInsufficientData => "Dados insuficientes para predição"
    case PredictionDivisionByZero => "Erro na predição: float division by zero"
    case NoCows => "Nenhuma vaca encontrada"
    case AnomalyInsufficientData => "Dados insuficientes para análise de anomalias"
    case ForecastInsufficientData => "Dados insuficientes para previsão financeira"
  }

  // ===================== predict_milk_production =====================

  /** A forecast point: its date and the predicted yield, before rounding. */
  datatype Point = Point(data: int, producaoPrevista: real)

  datatype Prediction = Prediction(vacaId: int, predicoes: seq<Point>, confiabilidade: real)

  /** `.limit(30)` on the query. */
  const PredictionWindow := 30
  const MinPredictionRecords := 5
  /** `min(days_ahead, 30)`. */
  const MaxHorizon := 30
  /** The default `days_ahead`, in this service and in the simplified one. */
  const DefaultDaysAhead := 7

  /** `max(0, v)`. */
  function NonNegative(v: real): (r: real)
    ensures r >= 0.0 && r >= v
    ensures r == v || r == 0.0
  {
    if v > 0.0 then v else 0.0
  }

  /** How many points `range(min(days_ahead, 30))` yields. */
  function Horizon(daysAhead: int): (k: nat)
    ensures k <= MaxHorizon
    ensures daysAhead <= 0 ==> k == 0
    ensures 0 <= daysAhead <= MaxHorizon ==> k == daysAhead
    ensures daysAhead >= MaxHorizon ==> k == MaxHorizon
  {
    if daysAhead <= 0 then 0 else if daysAhead < MaxHorizon then daysAhead else MaxHorizon
  }

  /** `min(0.95, n / 30)`. */
  function Confidence(n: nat): (c: real)
    ensures c <= 0.95 && c <= (n as real) / 30.0
    ensures c == 0.95 || c == (n as real) / 30.0
  {
    if (n as real) / 30.0 < 0.95 then (n as real) / 30.0 else 0.95
  }

  /** Offsets from the oldest record of a newest-first list peak at the newest record. */
  lemma LastDayIsNewest(ps: seq<Producao>, base: int)
    requires ps != [] && NewestFirst(ps)
    ensures Stats.Max(Offsets(ps, base)) == ps[0].data - base
  {
    var xs := Offsets(ps, base);
    var m := Stats.Max(xs);
    assert xs[0] == ps[0].data - base;
  }

  /** The offsets of a list are all equal exactly when its dates are. */
  lemma EqualOffsetsIffSameDate(ps: seq<Producao>, base: int)
    ensures Stats.AllEqual(Offsets(ps, base)) <==> AllSameDate(ps)
  {
    var xs := Offsets(ps, base);
    if AllSameDate(ps) {
      forall i, j | 0 <= i < |xs| && 0 <= j < |xs| ensures xs[i] == xs[j] {
        assert ps[i].data == ps[0].data == ps[j].data;
      }
    } else if ps != [] {
      var i :| 0 <= i < |ps| && ps[i].data != ps[0].data;
      assert xs[i] != xs[0];
    }
  }

  /** The least-squares denominator vanishes exactly when every record has the same date. */
  lemma DenominatorZeroIffSameDate(ps: seq<Producao>, base: int)
    ensures Stats.OlsDenominator(Offsets(ps, base)) == 0 <==> AllSameDate(ps)
    ensures Stats.OlsDenominator(Offsets(ps, base)) >= 0
  {
    EqualOffsetsIffSameDate(ps, base);
    Stats.OlsDenominatorZeroIff(Offsets(ps, base));
    Stats.OlsDenominatorNonNegative(Offsets(ps, base));
  }

  /** Measuring from another base date shifts every offset by the same amount. */
  lemma OffsetsRebased(ps: seq<Producao>, base: int, base': int)
    ensures Offsets(ps, base') == Stats.Shift(Offsets(ps, base), base - base')
  {}

  /** The fitted line y = a + b*x. */
  datatype Line = Line(a: real, b: real)

  /** The line's value at day offset x. */
  function LineAt(line: Line, x: int): real
  {
    line.a + line.b * (x as real)
  }

  /**
   * The least-squares line through the (offset, yield) pairs, offsets
   * measured in days from the oldest record, `producoes[-1]`.
   */
  function FitOf(ps: seq<Producao>): Line
    requires ps != [] && !AllSameDate(ps)
  {
    var xs, ys := Offsets(ps, ps[|ps| - 1].data), Totals(ps);
    DenominatorZeroIffSameDate(ps, ps[|ps| - 1].data);
    Line(Stats.OlsIntercept(xs, ys), Stats.OlsSlope(xs, ys))
  }

  /**
   * Yields lying exactly on a + b*(days since the oldest record) are fitted
   * by that very line.
   */
  lemma FitOfLinearSeries(ps: seq<Producao>, a: real, b: real)
    requires ps != [] && !AllSameDate(ps)
    requires Stats.OnLine(Offsets(ps, ps[|ps| - 1].data), Totals(ps), a, b)
    ensures FitOf(ps) == Line(a, b)
  {
    var base := ps[|ps| - 1].data;
    DenominatorZeroIffSameDate(ps, base);
    Stats.OlsRecoversLine(Offsets(ps, base), Totals(ps), a, b);
  }

  /** The fitted line's value at day offset x, clamped at zero: `max(0, a + b * x)`. */
  function Forecast(ps: seq<Producao>, x: int): (v: real)
    requires ps != [] && !AllSameDate(ps)
    ensures v >= 0.0
  {
    NonNegative(LineAt(FitOf(ps), x))
  }

  /**
   * The loop of `predict_milk_production`: for i in range(count), the day
   * `last_day + i + 1` after the base date, valued by the line clamped at zero.
   */
  method ForecastPoints(line: Line, base: int, lastDay: int, count: nat) returns (predictions: seq<Point>)
    ensures |predictions| == count
    ensures forall j :: 0 <= j < count ==>
      predictions[j] == Point(base + lastDay + j + 1, NonNegative(LineAt(line, lastDay + j + 1)))
  {
    predictions := [];
    var i := 0;
    while i < count
      invariant 0 <= i <= count
      invariant |predictions| == i
      invariant forall j :: 0 <= j < i ==>
        predictions[j] == Point(base + lastDay + j + 1, NonNegative(LineAt(line, lastDay + j + 1)))
    {
      var futureDay := lastDay + i + 1;
      var predValue := LineAt(line, futureDay);
      predictions := predictions + [Point(base + futureDay, NonNegative(predValue))];
      i := i + 1;
    }
  }

  /**
   * `predict_milk_production` over the cow's records, newest first, at most 30.
   * All-equal dates make the slope's denominator zero; Python then raises
   * ZeroDivisionError, which the catch-all reports as an error.
   */
  method PredictMilkProduction(vacaId: int, ps: seq<Producao>, daysAhead: int) returns (r: Result<Prediction, MlError>)
    requires |ps| <= PredictionWindow && NewestFirst(ps)
    ensures |ps| < MinPredictionRecords ==> r == Err(PredictionInsufficientData)
    ensures |ps| >= MinPredictionRecords && AllSameDate(ps) ==> r == Err(PredictionDivisionByZero)
    ensures r.Ok? <==> |ps| >= MinPredictionRecords && !AllSameDate(ps)
    ensures r.Ok? ==> r.value.vacaId == vacaId && r.value.confiabilidade == Confidence(|ps|)
    ensures r.Ok? ==> |r.value.predicoes| == Horizon(daysAhead)
    ensures r.Ok? ==> forall i :: 0 <= i < |r.value.predicoes| ==>
      r.value.predicoes[i] == Point(ps[0].data + i + 1, Forecast(ps, ps[0].data - ps[|ps| - 1].data + i + 1))
  {
    if |ps| < MinPredictionRecords {
      return Err(PredictionInsufficientData);
    }
    var base := ps[|ps| - 1].data;
    DenominatorZeroIffSameDate(ps, base);
    if Stats.OlsDenominator(Offsets(ps, base)) == 0 {
      return Err(PredictionDivisionByZero);
    }
    var predictions := PredictFromFit(ps, daysAhead);
    return Ok(Prediction(vacaId, predictions, Confidence(|ps|)));
  }

  /** The fit and the forecast loop, once the slope's denominator is known to be non-zero. */
  method PredictFromFit(ps: seq<Producao>, daysAhead: int) returns (predictions: seq<Point>)
    requires ps != [] && NewestFirst(ps) && !AllSameDate(ps)
    ensures |predictions| == Horizon(daysAhead)
    ensures forall i :: 0 <= i < |predictions| ==>
      predictions[i] == Point(ps[0].data + i + 1, Forecast(ps, ps[0].data - ps[|ps| - 1].data + i + 1))
  {
    var base := ps[|ps| - 1].data;
    var xs := Offsets(ps, base);
    var fit := FitOf(ps);
    var lastDay := Stats.Max(xs);
    LastDayIsNewest(ps, base);
    assert lastDay == ps[0].data - base;
    predictions := ForecastPoints(fit, base, lastDay, Horizon(daysAhead));
    PointsAreForecasts(ps, base, lastDay, predictions);
  }

  /** The loop's points, read as the forecast of the records from the day after the newest. */
  lemma PointsAreForecasts(ps: seq<Producao>, base: int, lastDay: int, predictions: seq<Point>)
    requires ps != [] && !AllSameDate(ps)
    requires base == ps[|ps| - 1].data && lastDay == ps[0].data - base
    requires forall j :: 0 <= j < |predictions| ==>
      predictions[j] == Point(base + lastDay + j + 1, NonNegative(LineAt(FitOf(ps), lastDay + j + 1)))
    ensures forall i :: 0 <= i < |predictions| ==>
      predictions[i] == Point(ps[0].data + i + 1, Forecast(ps, ps[0].data - ps[|ps| - 1].data + i + 1))
  {
    forall i | 0 <= i < |predictions|
      ensures predictions[i] == Point(ps[0].data + i + 1, Forecast(ps, ps[0].data - ps[|ps| - 1].data + i + 1))
    {
      assert Forecast(ps, lastDay + i + 1) == NonNegative(LineAt(FitOf(ps), lastDay + i + 1));
    }
  }

  // ===================== analyze_cattle_performance =====================

  datatype CowPerformance = CowPerformance(
    vacaId: int,
    nome: string,
    mediaProducao: real,
    totalProducao: real,
    tendencia: Trend,
    performance: Tier,
    diasAnalisados: nat)

  datatype HerdPerformance = HerdPerformance(totalVacas: nat, mediaGeral: real, vacas: seq<CowPerformance>)

  /** Cows with fewer records than this are skipped. */
  const MinAnalysisRecords := 3

  datatype Trend = Crescente | Estavel | Decrescente

  /** The `tendencia` text of a trend. */
  function TrendLabel(t: Trend): string
  {
    match t
    case Crescente => "crescente"
    case Estavel => "estável"
    case Decrescente => "decrescente"
  }

  /** The trend of a slope, with the strict thresholds +-0.1. */
  function TrendOfSlope(coef: real): (t: Trend)
    ensures t == Crescente <==> coef > 0.1
    ensures t == Decrescente <==> coef < -0.1
    ensures t == Estavel <==> -0.1 <= coef <= 0.1
  {
    if coef > 0.1 then Crescente else if coef < -0.1 then Decrescente else Estavel
  }

  /** Trends ranked from falling to rising. */
  function TrendRank(t: Trend): int
  {
    match t
    case Decrescente => 0
    case Estavel => 1
    case Crescente => 2
  }

  /** A steeper slope never gets a lower trend. */
  lemma TrendMonotone(c1: real, c2: real)
    requires c1 <= c2
    ensures TrendRank(TrendOfSlope(c1)) <= TrendRank(TrendOfSlope(c2))
  {}

  /**
   * The trend of one cow's records: the least-squares slope over day offsets
   * from the first record returned, "estável" when the slope is undefined.
   */
  function TrendOf(ps: seq<Producao>): Trend
  {
    if |ps| > 1 then
      var xs, ys := Offsets(ps, ps[0].data), Totals(ps);
      if Stats.OlsDenominator(xs) != 0 then TrendOfSlope(Stats.OlsSlope(xs, ys)) else Estavel
    else Estavel
  }

  /**
   * The trend does not depend on the base date of the offsets: measured from
   * any date, it is the label of the slope, or "estável" when all dates agree.
   */
  lemma TrendFromAnyBase(ps: seq<Producao>, base: int)
    requires |ps| > 1
    ensures AllSameDate(ps) ==> TrendOf(ps) == Estavel
    ensures !AllSameDate(ps) ==>
      Stats.OlsDenominator(Offsets(ps, base)) != 0 &&
      TrendOf(ps) == TrendOfSlope(Stats.OlsSlope(Offsets(ps, base), Totals(ps)))
  {
    var xs := Offsets(ps, ps[0].data);
    DenominatorZeroIffSameDate(ps, ps[0].data);
    DenominatorZeroIffSameDate(ps, base);
    if !AllSameDate(ps) {
      OffsetsRebased(ps, ps[0].data, base);
      Stats.OlsSlopeShiftInvariant(xs, Totals(ps), ps[0].data - base);
    }
  }

  datatype Tier = Excelente | Boa | Regular | Baixa

  /** The `performance` text of a tier. */
  function TierLabel(p: Tier): string
  {
    match p
    case Excelente => "excelente"
    case Boa => "boa"
    case Regular => "regular"
    case Baixa => "baixa"
  }

  /** The performance tier of a mean yield, with strict thresholds 20, 15 and 10. */
  function TierOf(media: real): (p: Tier)
    ensures p == Excelente <==> media > 20.0
    ensures p == Boa <==> 15.0 < media <= 20.0
    ensures p == Regular <==> 10.0 < media <= 15.0
    ensures p == Baixa <==> media <= 10.0
  {
    if media > 20.0 then Excelente
    else if media > 15.0 then Boa
    else if media > 10.0 then Regular
    else Baixa
  }

  function TierRank(p: Tier): int
  {
    match p
    case Baixa => 0
    case Regular => 1
    case Boa => 2
    case Excelente => 3
  }

  /** A higher mean never gets a lower tier. */
  lemma TierMonotone(m1: real, m2: real)
    requires m1 <= m2
    ensures TierRank(TierOf(m1)) <= TierRank(TierOf(m2))
  {}

  /** The result entry of one cow with its records. */
  function Summary(v: Vaca, ps: seq<Producao>): CowPerformance
    requires ps != []
  {
    var total := Stats.Sum(Totals(ps));
    var media := total / (|ps| as real);
    CowPerformance(v.id, v.nome, media, total, TrendOf(ps), TierOf(media), |ps|)
  }

  /** The entries the loop over the cows appends, in the order of `vacas`. */
  function Summaries(vacas: seq<Vaca>, table: seq<Producao>): (cs: seq<CowPerformance>)
    ensures |cs| <= |vacas|
  {
    if vacas == [] then []
    else
      var v := vacas[|vacas| - 1];
      var ps := OfCow(table, v.id);
      Summaries(vacas[..|vacas| - 1], table) + (if |ps| < MinAnalysisRecords then [] else [Summary(v, ps)])
  }

  /** A cow has an entry exactly when it has at least three records; skipped cows raise nothing. */
  lemma {:induction false} SummariesSelect(vacas: seq<Vaca>, table: seq<Producao>)
    ensures forall c :: c in Summaries(vacas, table) ==>
      exists v :: v in vacas && |OfCow(table, v.id)| >= MinAnalysisRecords && c == Summary(v, OfCow(table, v.id))
    ensures forall v :: v in vacas && |OfCow(table, v.id)| >= MinAnalysisRecords ==>
      Summary(v, OfCow(table, v.id)) in Summaries(vacas, table)
  {
    if vacas != [] {
      SummariesSelect(vacas[..|vacas| - 1], table);
      assert vacas == vacas[..|vacas| - 1] + [vacas[|vacas| - 1]];
    }
  }

  /** Non-increasing by mean yield. */
  predicate SortedByMedia(cs: seq<CowPerformance>)
  {
    forall i, j :: 0 <= i < j < |cs| ==> cs[i].mediaProducao >= cs[j].mediaProducao
  }

  /** Place c after every entry whose mean is at least its own. */
  function InsertByMedia(cs: seq<CowPerformance>, c: CowPerformance): seq<CowPerformance>
  {
    if cs == [] then [c]
    else if cs[0].mediaProducao >= c.mediaProducao then [cs[0]] + InsertByMedia(cs[1..], c)
    else [c] + cs
  }

  /**
   * `results.sort(key=media_producao, reverse=True)`: a stable sort, so cows
   * with equal means keep the order of the loop.
   */
  function SortByMedia(cs: seq<CowPerformance>): seq<CowPerformance>
  {
    if cs == [] then [] else InsertByMedia(SortByMedia(cs[..|cs| - 1]), cs[|cs| - 1])
  }

  lemma {:induction false} InsertByMediaPermutes(cs: seq<CowPerformance>, c: CowPerformance)
    ensures multiset(InsertByMedia(cs, c)) == multiset(cs) + multiset{c}
  {
    if cs != [] && cs[0].mediaProducao >= c.mediaProducao {
      InsertByMediaPermutes(cs[1..], c);
      assert cs == [cs[0]] + cs[1..];
    }
  }

  lemma {:induction false} InsertByMediaSorted(cs: seq<CowPerformance>, c: CowPerformance)
    requires SortedByMedia(cs)
    ensures SortedByMedia(InsertByMedia(cs, c))
  {
    if cs != [] && cs[0].mediaProducao >= c.mediaProducao {
      InsertByMediaSorted(cs[1..], c);
      InsertByMediaPermutes(cs[1..], c);
      var rest := InsertByMedia(cs[1..], c);
      forall k | 0 <= k < |rest| ensures cs[0].mediaProducao >= rest[k].mediaProducao {
        assert rest[k] in multiset(cs[1..]) + multiset{c};
      }
    }
  }

  /** The sorted list is ordered and holds exactly the loop's entries. */
  lemma {:induction false} SortByMediaCorrect(cs: seq<CowPerformance>)
    ensures SortedByMedia(SortByMedia(cs))
    ensures multiset(SortByMedia(cs)) == multiset(cs)
  {
    if cs != [] {
      SortByMediaCorrect(cs[..|cs| - 1]);
      InsertByMediaSorted(SortByMedia(cs[..|cs| - 1]), cs[|cs| - 1]);
      InsertByMediaPermutes(SortByMedia(cs[..|cs| - 1]), cs[|cs| - 1]);
      assert cs == cs[..|cs| - 1] + [cs[|cs| - 1]];
    }
  }

  /** An entry's `media_producao`. */
  function MeanYield(c: CowPerformance): real
  {
    c.mediaProducao
  }

  /** `media_geral`: the mean of the cows' means, 0 with no entries. */
  function MediaGeral(cs: seq<CowPerformance>): real
  {
    if cs == [] then 0.0 else Stats.Mean(Stats.Values(cs, MeanYield))
  }

  /** The whole result of the analysis, as the loop and the sort build it. */
  function Performance(vacas: seq<Vaca>, table: seq<Producao>): Result<HerdPerformance, MlError>
  {
    if vacas == [] then Err(NoCows)
    else
      var sorted := SortByMedia(Summaries(vacas, table));
      Ok(HerdPerformance(|sorted|, MediaGeral(sorted), sorted))
  }

  /**
   * `analyze_cattle_performance` over the user's cows and the production table.
   * Each cow's records are read in table order, as the unordered query returns them.
   */
  method AnalyzeCattlePerformance(vacas: seq<Vaca>, table: seq<Producao>) returns (r: Result<HerdPerformance, MlError>)
    ensures r == Performance(vacas, table)
    ensures vacas == [] <==> r == Err(NoCows)
    ensures r.Ok? ==> SortedByMedia(r.value.vacas) && r.value.totalVacas == |r.value.vacas|
    ensures r.Ok? ==> multiset(r.value.vacas) == multiset(Summaries(vacas, table))
    ensures r.Ok? && r.value.vacas == [] ==> r.value.mediaGeral == 0.0
  {
    if vacas == [] {
      return Err(NoCows);
    }
    var results: seq<CowPerformance> := [];
    for k := 0 to |vacas|
      invariant results == Summaries(vacas[..k], table)
    {
      assert vacas[..k + 1][..k] == vacas[..k];
      var vaca := vacas[k];
      var producoes := OfCow(table, vaca.id);
      if |producoes| < MinAnalysisRecords {
        continue;
      }
      var totalProducao := Stats.Sum(Totals(producoes));
      var mediaProducao := totalProducao / (|producoes| as real);
      var tendencia := TrendOf(producoes);
      var performance := TierOf(mediaProducao);
      results := results + [CowPerformance(vaca.id, vaca.nome, mediaProducao, totalProducao, tendencia, performance, |producoes|)];
    }
    assert vacas[..|vacas|] == vacas;
    SortByMediaCorrect(results);
    var sorted := SortByMedia(results);
    return Ok(HerdPerformance(|sorted|, MediaGeral(sorted), sorted));
  }

  // ===================== detect_anomalies =====================

  /** `.limit(100)` on the user's records, newest first. */
  const AnomalyWindow := 100
  const MinAnomalyRecords := 10
  /** `anomalies[:10]`. */
  const MaxListedAnomalies := 10

  /** The `tipo` of an anomaly: above the mean ("alta") or not ("baixa"). */
  datatype Deviation = Above | Below

  function DeviationLabel(d: Deviation): string
  {
    match d
    case Above => "alta"
    case Below => "baixa"
  }

  /** A flagged record; its rounded z-score `desvio` is not kept. */
  datatype Anomaly = Anomaly(data: int, vacaId: int, producao: real, tipo: Deviation)

  /** The report, with the spread given as the sample variance (the square of `desvio_padrao`). */
  datatype AnomalyReport = AnomalyReport(totalAnomalias: nat, mediaProducao: real, variancia: real, anomalias: seq<Anomaly>)

  /**
   * The test z > 2, where z = |v - mean| / stdev when stdev > 0 and z = 0
   * otherwise, decided on squares.
   */
  predicate IsOutlier(v: real, m: real, variance: real)
  {
    variance > 0.0 && (v - m) * (v - m) > 4.0 * variance
  }

  /** The squared test flags exactly the records whose z-score, computed from the deviation s, exceeds 2. */
  lemma OutlierIffZScoreAboveTwo(v: real, m: real, variance: real, s: real)
    requires s >= 0.0 && s * s == variance
    ensures IsOutlier(v, m, variance) <==> (if s > 0.0 then (if v >= m then v - m else m - v) / s else 0.0) > 2.0
  {
    if s > 0.0 {
      Stats.FlagMatchesZScore(v, m, variance, s);
    }
  }

  /** The entry appended for a flagged record. */
  function AnomalyOf(p: Producao, m: real): Anomaly
  {
    Anomaly(p.data, p.vacaId, p.total, if p.total > m then Above else Below)
  }

  /** Every flagged record, in record order. */
  function Outliers(ps: seq<Producao>, m: real, variance: real): (rs: seq<Anomaly>)
    ensures |rs| <= |ps|
  {
    if ps == [] then []
    else
      var p := ps[|ps| - 1];
      Outliers(ps[..|ps| - 1], m, variance) + (if IsOutlier(p.total, m, variance) then [AnomalyOf(p, m)] else [])
  }

  /** A record yields an entry exactly when it is flagged; the entry carries its date, cow and yield, and "alta" iff above the mean. */
  lemma {:induction false} OutliersSelect(ps: seq<Producao>, m: real, variance: real)
    ensures forall a :: a in Outliers(ps, m, variance) <==>
      exists i :: 0 <= i < |ps| && IsOutlier(ps[i].total, m, variance) && a == AnomalyOf(ps[i], m)
    ensures forall a :: a in Outliers(ps, m, variance) ==>
      IsOutlier(a.producao, m, variance) && (a.tipo == Above <==> a.producao > m)
  {
    if ps != [] {
      var n := |ps|;
      OutliersSelect(ps[..n - 1], m, variance);
      forall a | a in Outliers(ps, m, variance)
        ensures exists i :: 0 <= i < n && IsOutlier(ps[i].total, m, variance) && a == AnomalyOf(ps[i], m)
      {
        if a !in Outliers(ps[..n - 1], m, variance) {
          assert a == AnomalyOf(ps[n - 1], m);
        } else {
          var i :| 0 <= i < n - 1 && IsOutlier(ps[..n - 1][i].total, m, variance) && a == AnomalyOf(ps[..n - 1][i], m);
          assert ps[..n - 1][i] == ps[i];
        }
      }
      forall i | 0 <= i < n && IsOutlier(ps[i].total, m, variance)
        ensures AnomalyOf(ps[i], m) in Outliers(ps, m, variance)
      {
        if i < n - 1 {
          assert ps[..n - 1][i] == ps[i];
        }
      }
    }
  }

  /** Flagging keeps record order: the entries of a concatenation are those of each part, in turn. */
  lemma {:induction false} OutliersAppend(ps: seq<Producao>, qs: seq<Producao>, m: real, variance: real)
    ensures Outliers(ps + qs, m, variance) == Outliers(ps, m, variance) + Outliers(qs, m, variance)
  {
    if qs == [] {
      assert ps + qs == ps;
    } else {
      var n := |qs|;
      var front := qs[..n - 1];
      var tail := if IsOutlier(qs[n - 1].total, m, variance) then [AnomalyOf(qs[n - 1], m)] else [];
      OutliersAppend(ps, front, m, variance);
      assert (ps + qs)[..|ps + qs| - 1] == ps + front;
      assert (ps + qs)[|ps + qs| - 1] == qs[n - 1];
      assert Outliers(ps + qs, m, variance) == Outliers(ps + front, m, variance) + tail;
      assert Outliers(qs, m, variance) == Outliers(front, m, variance) + tail;
    }
  }

  /** With a positive variance, the entries are the yields counted beyond two deviations. */
  lemma {:induction false} OutliersCount(ps: seq<Producao>, m: real, variance: real)
    requires variance > 0.0
    ensures |Outliers(ps, m, variance)| == Stats.CountBeyond(Totals(ps), m, 4.0 * variance)
  {
    if ps != [] {
      var n := |ps|;
      OutliersCount(ps[..n - 1], m, variance);
      assert Totals(ps)[..n - 1] == Totals(ps[..n - 1]);
    }
  }

  /** With a zero variance nothing is flagged. */
  lemma {:induction false} NoOutliersWithoutSpread(ps: seq<Producao>, m: real)
    ensures Outliers(ps, m, 0.0) == []
  {
    if ps != [] {
      NoOutliersWithoutSpread(ps[..|ps| - 1], m);
    }
  }

  /** `min(total, 10)`: how many entries are listed. */
  function Listed(total: nat): (k: nat)
    ensures k <= total && k <= MaxListedAnomalies
    ensures k == total || k == MaxListedAnomalies
  {
    if total < MaxListedAnomalies then total else MaxListedAnomalies
  }

  /** The report the loop and the truncation build over at least ten records. */
  function AnomalyReportOf(ps: seq<Producao>): AnomalyReport
    requires |ps| >= MinAnomalyRecords
  {
    var ys := Totals(ps);
    var m := Stats.Mean(ys);
    var variance := Stats.SampleVariance(ys);
    var all := Outliers(ps, m, variance);
    AnomalyReport(|all|, m, variance, all[..Listed(|all|)])
  }

  /**
   * `detect_anomalies` over the user's records, newest first, at most 100.
   * With at least ten records the standard deviation is always the sample one.
   */
  method DetectAnomalies(ps: seq<Producao>) returns (r: Result<AnomalyReport, MlError>)
    requires |ps| <= AnomalyWindow && NewestFirst(ps)
    ensures |ps| < MinAnomalyRecords ==> r == Err(AnomalyInsufficientData)
    ensures |ps| >= MinAnomalyRecords ==> r == Ok(AnomalyReportOf(ps))
  {
    if |ps| < MinAnomalyRecords {
      return Err(AnomalyInsufficientData);
    }
    var values := Totals(ps);
    var meanVal := Stats.Mean(values);
    var variance := Stats.SampleVariance(values);
    var anomalies: seq<Anomaly> := [];
    for i := 0 to |ps|
      invariant anomalies == Outliers(ps[..i], meanVal, variance)
    {
      assert ps[..i + 1][..i] == ps[..i];
      var p := ps[i];
      if IsOutlier(p.total, meanVal, variance) {
        anomalies := anomalies + [AnomalyOf(p, meanVal)];
      }
    }
    assert ps[..|ps|] == ps;
    return Ok(AnomalyReport(|anomalies|, meanVal, variance, anomalies[..Listed(|anomalies|)]));
  }

  /**
   * The report's parts: the mean and variance of the yields, a count of all
   * flagged records, and the first ten of them (all when fewer) in record order.
   */
  lemma AnomalyReportParts(ps: seq<Producao>)
    requires |ps| >= MinAnomalyRecords
    ensures AnomalyReportOf(ps).mediaProducao == Stats.Mean(Totals(ps))
    ensures AnomalyReportOf(ps).variancia == Stats.SampleVariance(Totals(ps)) >= 0.0
    ensures AnomalyReportOf(ps).totalAnomalias == |Outliers(ps, Stats.Mean(Totals(ps)), Stats.SampleVariance(Totals(ps)))|
    ensures AnomalyReportOf(ps).anomalias <= Outliers(ps, Stats.Mean(Totals(ps)), Stats.SampleVariance(Totals(ps)))
    ensures |AnomalyReportOf(ps).anomalias| == Listed(AnomalyReportOf(ps).totalAnomalias)
  {
    Stats.SampleVarianceNonNegative(Totals(ps));
  }

  /** When every yield is the same the deviation is zero and nothing is flagged. */
  lemma SteadyYieldsNoAnomalies(ps: seq<Producao>)
    requires |ps| >= MinAnomalyRecords
    requires forall i :: 0 <= i < |ps| ==> ps[i].total == ps[0].total
    ensures AnomalyReportOf(ps).variancia == 0.0
    ensures AnomalyReportOf(ps).totalAnomalias == 0 && AnomalyReportOf(ps).anomalias == []
  {
    var ys := Totals(ps);
    assert Stats.AllEqualTo(ys, ys[0]);
    Stats.SampleVarianceZeroIff(ys);
    NoOutliersWithoutSpread(ps, Stats.Mean(ys));
  }

  /** Fewer than a quarter of the records are ever flagged (Chebyshev's bound at two deviations). */
  lemma FewAnomalies(ps: seq<Producao>)
    requires |ps| >= MinAnomalyRecords
    ensures 4 * AnomalyReportOf(ps).totalAnomalias <= |ps| - 1
  {
    var ys := Totals(ps);
    var m, variance := Stats.Mean(ys), Stats.SampleVariance(ys);
    Stats.SampleVarianceNonNegative(ys);
    if variance > 0.0 {
      OutliersCount(ps, m, variance);
      Stats.FewBeyondTwoDeviations(ys);
    } else {
      NoOutliersWithoutSpread(ps, m);
    }
  }

  // ===================== recommend_actions =====================

  datatype RecommendationKind = Alerta | Atencao | Geral

  function KindLabel(k: RecommendationKind): string
  {
    match k
    case Alerta => "alerta"
    case Atencao => "atenção"
    case Geral => "geral"
  }

  datatype Priority = Alta | Media

  function PriorityLabel(p: Priority): string
  {
    match p
    case Alta => "alta"
    case Media => "média"
  }

  /** One recommendation; `vaca` is absent from the herd-wide entry. */
  datatype Recommendation = Recommendation(tipo: RecommendationKind, vaca: Option<string>, recomendacao: string, prioridade: Priority)

  datatype RecommendationReport = RecommendationReport(totalRecomendacoes: nat, recomendacoes: seq<Recommendation>)

  /** A herd mean below this earns the herd-wide entry. */
  const LowHerdMean := 15.0

  function LowYieldAlert(nome: string): Recommendation
  {
    Recommendation(Alerta, Some(nome), "Verificar saúde e alimentação - produção abaixo da média", Alta)
  }

  function DecliningAttention(nome: string): Recommendation
  {
    Recommendation(Atencao, Some(nome), "Produção em declínio - avaliar condições", Media)
  }

  const HerdAdvice := Recommendation(Geral, None, "Média do rebanho baixa - revisar manejo nutricional", Alta)

  /** The entries for one cow: an alert if its tier is "baixa", then an attention if its trend is "decrescente". */
  function CowRecommendations(c: CowPerformance): seq<Recommendation>
  {
    (if c.performance == Baixa then [LowYieldAlert(c.nome)] else []) +
    (if c.tendencia == Decrescente then [DecliningAttention(c.nome)] else [])
  }

  /** The entries for the cows, in list order. */
  function PerCowRecommendations(cs: seq<CowPerformance>): seq<Recommendation>
  {
    if cs == [] then []
    else PerCowRecommendations(cs[..|cs| - 1]) + CowRecommendations(cs[|cs| - 1])
  }

  lemma PerCowStep(cs: seq<CowPerformance>, k: int)
    requires 0 <= k < |cs|
    ensures PerCowRecommendations(cs[..k + 1]) == PerCowRecommendations(cs[..k]) + CowRecommendations(cs[k])
  {
    assert cs[..k + 1][..k] == cs[..k];
  }

  /** The report built from a performance result. */
  function RecommendationsOf(h: HerdPerformance): RecommendationReport
  {
    var recs := PerCowRecommendations(h.vacas) + (if h.mediaGeral < LowHerdMean then [HerdAdvice] else []);
    RecommendationReport(|recs|, recs)
  }

  /** One turn of the `recommend_actions` loop: the two rules for one cow. */
  method AddCowRecommendations(recommendations: seq<Recommendation>, vaca: CowPerformance) returns (r: seq<Recommendation>)
    ensures r == recommendations + CowRecommendations(vaca)
  {
    r := recommendations;
    if vaca.performance == Baixa {
      r := r + [LowYieldAlert(vaca.nome)];
    }
    if vaca.tendencia == Decrescente {
      r := r + [DecliningAttention(vaca.nome)];
    }
  }

  /** The loop of `recommend_actions` over a performance result. */
  method RecommendFor(h: HerdPerformance) returns (report: RecommendationReport)
    ensures report == RecommendationsOf(h)
  {
    var recommendations: seq<Recommendation> := [];
    for k := 0 to |h.vacas|
      invariant recommendations == PerCowRecommendations(h.vacas[..k])
    {
      PerCowStep(h.vacas, k);
      recommendations := AddCowRecommendations(recommendations, h.vacas[k]);
    }
    assert h.vacas[..|h.vacas|] == h.vacas;
    if h.mediaGeral < LowHerdMean {
      recommendations := recommendations + [HerdAdvice];
    }
    return RecommendationReport(|recommendations|, recommendations);
  }

  /** `recommend_actions`: the performance analysis, then the rules over its sorted cows. */
  method RecommendActions(vacas: seq<Vaca>, table: seq<Producao>) returns (r: Result<RecommendationReport, MlError>)
    ensures Performance(vacas, table).Err? ==> r == Err(Performance(vacas, table).error)
    ensures Performance(vacas, table).Ok? ==> r == Ok(RecommendationsOf(Performance(vacas, table).value))
    ensures r.Err? <==> vacas == []
  {
    var performance := AnalyzeCattlePerformance(vacas, table);
    if performance.Err? {
      return Err(performance.error);
    }
    var report := RecommendFor(performance.value);
    return Ok(report);
  }

  /** The cows named by the entries of one kind, in order. */
  function NamesOfKind(recs: seq<Recommendation>, k: RecommendationKind): seq<Option<string>>
  {
    if recs == [] then []
    else NamesOfKind(recs[..|recs| - 1], k) + (if recs[|recs| - 1].tipo == k then [recs[|recs| - 1].vaca] else [])
  }

  /** The names of the cows in the "baixa" tier, in list order. */
  function LowCows(cs: seq<CowPerformance>): seq<Option<string>>
  {
    if cs == [] then []
    else LowCows(cs[..|cs| - 1]) + (if cs[|cs| - 1].performance == Baixa then [Some(cs[|cs| - 1].nome)] else [])
  }

  /** The names of the cows with a falling trend, in list order. */
  function DecliningCows(cs: seq<CowPerformance>): seq<Option<string>>
  {
    if cs == [] then []
    else DecliningCows(cs[..|cs| - 1]) + (if cs[|cs| - 1].tendencia == Decrescente then [Some(cs[|cs| - 1].nome)] else [])
  }

  lemma {:induction false} NamesOfKindAppend(rs: seq<Recommendation>, qs: seq<Recommendation>, k: RecommendationKind)
    ensures NamesOfKind(rs + qs, k) == NamesOfKind(rs, k) + NamesOfKind(qs, k)
  {
    if qs == [] {
      assert rs + qs == rs;
    } else {
      NamesOfKindAppend(rs, qs[..|qs| - 1], k);
      assert (rs + qs)[..|rs + qs| - 1] == rs + qs[..|qs| - 1];
    }
  }

  lemma CowRecommendationsNames(c: CowPerformance)
    ensures NamesOfKind(CowRecommendations(c), Alerta) == (if c.performance == Baixa then [Some(c.nome)] else [])
    ensures NamesOfKind(CowRecommendations(c), Atencao) == (if c.tendencia == Decrescente then [Some(c.nome)] else [])
    ensures NamesOfKind(CowRecommendations(c), Geral) == []
  {
    var a := if c.performance == Baixa then [LowYieldAlert(c.nome)] else [];
    var b := if c.tendencia == Decrescente then [DecliningAttention(c.nome)] else [];
    NamesOfKindAppend(a, b, Alerta);
    NamesOfKindAppend(a, b, Atencao);
    NamesOfKindAppend(a, b, Geral);
  }

  /**
   * One alert per "baixa" cow and one attention per falling cow, in the
   * cows' order, and no herd-wide entry among them.
   */
  lemma {:induction false} PerCowRecommendationsNames(cs: seq<CowPerformance>)
    ensures NamesOfKind(PerCowRecommendations(cs), Alerta) == LowCows(cs)
    ensures NamesOfKind(PerCowRecommendations(cs), Atencao) == DecliningCows(cs)
    ensures NamesOfKind(PerCowRecommendations(cs), Geral) == []
  {
    if cs != [] {
      var c := cs[|cs| - 1];
      var front := PerCowRecommendations(cs[..|cs| - 1]);
      PerCowRecommendationsNames(cs[..|cs| - 1]);
      CowRecommendationsNames(c);
      NamesOfKindAppend(front, CowRecommendations(c), Alerta);
      NamesOfKindAppend(front, CowRecommendations(c), Atencao);
      NamesOfKindAppend(front, CowRecommendations(c), Geral);
    }
  }

  /** Alerts are high priority, attentions medium, and no per-cow entry is herd-wide. */
  lemma {:induction false} PerCowRecommendationsPriorities(cs: seq<CowPerformance>)
    ensures forall x :: x in PerCowRecommendations(cs) ==>
      (x.tipo == Alerta ==> x.prioridade == Alta) && (x.tipo == Atencao ==> x.prioridade == Media) && x.tipo != Geral
  {
    if cs != [] {
      PerCowRecommendationsPriorities(cs[..|cs| - 1]);
    }
  }

  /** The herd-wide entry appears, once and last, exactly when the herd mean is below 15. */
  lemma HerdAdviceIffLowMean(h: HerdPerformance)
    ensures var recs := RecommendationsOf(h).recomendacoes;
      (HerdAdvice in recs <==> h.mediaGeral < LowHerdMean) &&
      (h.mediaGeral < LowHerdMean ==> recs[|recs| - 1] == HerdAdvice) &&
      (forall i :: 0 <= i < |recs| - 1 ==> recs[i].tipo != Geral)
    ensures RecommendationsOf(h).totalRecomendacoes == |RecommendationsOf(h).recomendacoes|
  {
    PerCowRecommendationsPriorities(h.vacas);
    var per := PerCowRecommendations(h.vacas);
    var recs := RecommendationsOf(h).recomendacoes;
    forall i | 0 <= i < |recs| - 1 ensures recs[i].tipo != Geral {
      assert recs[i] == per[i];
    }
  }

  /** Every entry's tier is that of its own mean, and it covers at least three records. */
  lemma {:induction false} SummariesEntries(vacas: seq<Vaca>, table: seq<Producao>)
    ensures forall c :: c in Summaries(vacas, table) ==>
      c.performance == TierOf(c.mediaProducao) && c.diasAnalisados >= MinAnalysisRecords
  {
    if vacas != [] {
      SummariesEntries(vacas[..|vacas| - 1], table);
    }
  }

  /** The same holds of the sorted list the analysis returns. */
  lemma PerformanceEntries(vacas: seq<Vaca>, table: seq<Producao>)
    requires Performance(vacas, table).Ok?
    ensures forall c :: c in Performance(vacas, table).value.vacas ==>
      c.performance == TierOf(c.mediaProducao) && c.diasAnalisados >= MinAnalysisRecords
  {
    var cs := Summaries(vacas, table);
    SortByMediaCorrect(cs);
    SummariesEntries(vacas, table);
    forall c | c in Performance(vacas, table).value.vacas
      ensures c in cs
    {
      assert c in multiset(SortByMedia(cs));
    }
  }

  /** A herd whose listed cows are all "baixa" (or that lists none) always gets the herd-wide entry. */
  lemma AllLowCowsGetHerdAdvice(vacas: seq<Vaca>, table: seq<Producao>)
    requires Performance(vacas, table).Ok?
    requires forall c :: c in Performance(vacas, table).value.vacas ==> c.performance == Baixa
    ensures HerdAdvice in RecommendationsOf(Performance(vacas, table).value).recomendacoes
  {
    var h := Performance(vacas, table).value;
    PerformanceEntries(vacas, table);
    if h.vacas != [] {
      var ms := Stats.Values(h.vacas, MeanYield);
      forall i | 0 <= i < |ms| ensures ms[i] <= 10.0 {
        assert h.vacas[i] in h.vacas;
      }
      Stats.MeanAtMost(ms, 10.0);
    }
    HerdAdviceIffLowMean(h);
  }

  // ===================== financial_forecast =====================

  /** `.limit(30)` on the user's records, newest first. */
  const FinanceWindow := 30
  const MinFinanceRecords := 7
  /** The default `price_per_liter`. */
  const DefaultPricePerLiter := 2.50

  /** Production and revenue over one horizon. */
  datatype Projection = Projection(producao: real, receita: real)

  datatype FinancialForecast = FinancialForecast(
    producaoMediaDiaria: real,
    receitaMediaDiaria: real,
    precoLitro: real,
    semanal: Projection,
    mensal: Projection,
    anual: Projection)

  /** The daily figures scaled to a horizon of `days` days. */
  function Projected(producao: real, receita: real, days: real): Projection
  {
    Projection(producao * days, receita * days)
  }

  /** `financial_forecast` over the user's records, newest first, at most 30. */
  function FinancialForecastOf(ps: seq<Producao>, price: real): (r: Result<FinancialForecast, MlError>)
    requires |ps| <= FinanceWindow && NewestFirst(ps)
    ensures r.Err? <==> |ps| < MinFinanceRecords
    ensures r.Err? ==> r.error == ForecastInsufficientData
    ensures r.Ok? ==> r.value.precoLitro == price && r.value.producaoMediaDiaria == Stats.Mean(Totals(ps))
  {
    if |ps| < MinFinanceRecords then Err(ForecastInsufficientData)
    else
      var producaoDiaria := Stats.Sum(Totals(ps)) / (|ps| as real);
      var receitaDiaria := producaoDiaria * price;
      Ok(FinancialForecast(
        producaoDiaria, receitaDiaria, price,
        Projected(producaoDiaria, receitaDiaria, 7.0),
        Projected(producaoDiaria, receitaDiaria, 30.0),
        Projected(producaoDiaria, receitaDiaria, 365.0)))
  }

  /** At every horizon the revenue is the production times the price, and the horizons scale by 7, 30 and 365 days. */
  lemma ForecastIsLinear(ps: seq<Producao>, price: real)
    requires |ps| <= FinanceWindow && NewestFirst(ps) && |ps| >= MinFinanceRecords
    ensures var f := FinancialForecastOf(ps, price).value;
      f.receitaMediaDiaria == f.producaoMediaDiaria * price &&
      f.semanal.receita == f.semanal.producao * price &&
      f.mensal.receita == f.mensal.producao * price &&
      f.anual.receita == f.anual.producao * price &&
      f.semanal.producao == 7.0 * f.producaoMediaDiaria &&
      f.mensal.producao == 30.0 * f.producaoMediaDiaria &&
      f.anual.producao == 365.0 * f.producaoMediaDiaria
  {
    var f := FinancialForecastOf(ps, price).value;
    var d := f.producaoMediaDiaria;
    assert (d * price) * 7.0 == (d * 7.0) * price;
    assert (d * price) * 30.0 == (d * 30.0) * price;
    assert (d * price) * 365.0 == (d * 365.0) * price;
  }

  /** Yields within [lo, hi] give a daily production within [lo, hi]. */
  lemma ForecastBounds(ps: seq<Producao>, price: real, lo: real, hi: real)
    requires |ps| <= FinanceWindow && NewestFirst(ps) && |ps| >= MinFinanceRecords
    requires forall i :: 0 <= i < |ps| ==> lo <= ps[i].total <= hi
    ensures lo <= FinancialForecastOf(ps, price).value.producaoMediaDiaria <= hi
  {
    Stats.MeanBetween(Totals(ps), lo, hi);
  }
}
