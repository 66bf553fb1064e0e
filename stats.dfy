/** Summary statistics and the ordinary least-squares line used by the herd analytics. */
module Stats {

  /** Sum of a sequence of yields, accumulated from the left as Python's sum() does. */
  function Sum(ys: seq<real>): real
  {
    if ys == [] then 0.0 else Sum(ys[..|ys| - 1]) + ys[|ys| - 1]
  }

  /** Sum of integer day offsets. */
  function SumInt(xs: seq<int>): int
  {
    if xs == [] then 0 else SumInt(xs[..|xs| - 1]) + xs[|xs| - 1]
  }

  /** Python's max() of a non-empty list of integers. */
  function Max(xs: seq<int>): (m: int)
    requires xs != []
    ensures m in xs
    ensures forall i :: 0 <= i < |xs| ==> xs[i] <= m
  {
    if |xs| == 1 then xs[0]
    else
      var m := Max(xs[..|xs| - 1]);
      if xs[|xs| - 1] > m then xs[|xs| - 1] else m
  }

  /** One value per element, `[f(x) for x in xs]`. */
  function Values<T>(xs: seq<T>, f: T -> real): (ys: seq<real>)
    ensures |ys| == |xs|
    ensures forall i :: 0 <= i < |xs| ==> ys[i] == f(xs[i])
  {
    seq(|xs|, i requires 0 <= i < |xs| => f(xs[i]))
  }

  /** The regression's sum_x2. */
  function SumOfSquares(xs: seq<int>): int
  {
    if xs == [] then 0 else SumOfSquares(xs[..|xs| - 1]) + xs[|xs| - 1] * xs[|xs| - 1]
  }

  /** The regression's sum_xy, over offsets paired with yields. */
  function SumOfProducts(xs: seq<int>, ys: seq<real>): real
    requires |xs| == |ys|
  {
    if xs == [] then 0.0
    else SumOfProducts(xs[..|xs| - 1], ys[..|xs| - 1]) + (xs[|xs| - 1] as real) * ys[|xs| - 1]
  }

  /** Sum of (x - c)^2 over integer offsets. */
  function SquaredDistances(xs: seq<int>, c: int): int
  {
    if xs == [] then 0
    else SquaredDistances(xs[..|xs| - 1], c) + (xs[|xs| - 1] - c) * (xs[|xs| - 1] - c)
  }

  function Mean(ys: seq<real>): real
    requires ys != []
  {
    Sum(ys) / (|ys| as real)
  }

  /** Sum of (y - c)^2 over yields. */
  function SquaredDeviations(ys: seq<real>, c: real): real
  {
    if ys == [] then 0.0
    else SquaredDeviations(ys[..|ys| - 1], c) + (ys[|ys| - 1] - c) * (ys[|ys| - 1] - c)
  }

  /** Bessel-corrected variance, the square of statistics.stdev. */
  function SampleVariance(ys: seq<real>): real
    requires |ys| >= 2
  {
    SquaredDeviations(ys, Mean(ys)) / ((|ys| - 1) as real)
  }

  /** n * sum_x2 - sum_x * sum_x, computed in integers as Python does. */
  function OlsDenominator(xs: seq<int>): int
  {
    |xs| * SumOfSquares(xs) - SumInt(xs) * SumInt(xs)
  }

  /** n * sum_xy - sum_x * sum_y. */
  function OlsNumerator(xs: seq<int>, ys: seq<real>): real
    requires |xs| == |ys|
  {
    (|xs| as real) * SumOfProducts(xs, ys) - (SumInt(xs) as real) * Sum(ys)
  }

  function OlsSlope(xs: seq<int>, ys: seq<real>): real
    requires |xs| == |ys| && OlsDenominator(xs) != 0
  {
    OlsNumerator(xs, ys) / (OlsDenominator(xs) as real)
  }

  function OlsIntercept(xs: seq<int>, ys: seq<real>): real
    requires |xs| == |ys| && OlsDenominator(xs) != 0
  {
    (Sum(ys) - OlsSlope(xs, ys) * (SumInt(xs) as real)) / (|xs| as real)
  }

  predicate AllEqual(xs: seq<int>)
  {
    forall i, j :: 0 <= i < |xs| && 0 <= j < |xs| ==> xs[i] == xs[j]
  }

  predicate OnLine(xs: seq<int>, ys: seq<real>, a: real, b: real)
  {
    |xs| == |ys| && forall i :: 0 <= i < |xs| ==> ys[i] == a + b * (xs[i] as real)
  }

  function Shift(xs: seq<int>, k: int): (r: seq<int>)
    ensures |r| == |xs| && forall i :: 0 <= i < |xs| ==> r[i] == xs[i] + k
  {
    seq(|xs|, i requires 0 <= i < |xs| => xs[i] + k)
  }

  // ---- integer side: the denominator ----

  lemma DistancesAlgebra(d: int, q: int, s: int, n: int, x: int, c: int, d': int, q': int, s': int)
    requires d == q - 2 * s * c + n * c * c
    requires q' == q + x * x && s' == s + x && d' == d + (x - c) * (x - c)
    ensures d' == q' - 2 * s' * c + (n + 1) * c * c
  {}

  lemma {:induction false} SquaredDistancesExpand(xs: seq<int>, c: int)
    ensures SquaredDistances(xs, c) == SumOfSquares(xs) - 2 * SumInt(xs) * c + |xs| * c * c
  {
    if xs != [] {
      var p := xs[..|xs| - 1];
      SquaredDistancesExpand(p, c);
      DistancesAlgebra(SquaredDistances(p, c), SumOfSquares(p), SumInt(p), |p|, xs[|xs| - 1], c,
                       SquaredDistances(xs, c), SumOfSquares(xs), SumInt(xs));
    }
  }

  lemma DenominatorAlgebra(n: int, q: int, s: int, x: int, d: int)
    requires d == q - 2 * s * x + n * x * x
    ensures (n + 1) * (q + x * x) - (s + x) * (s + x) == n * q - s * s + d
  {}

  /** Adding one offset x raises the denominator by the squared distances of the others to x. */
  lemma OlsDenominatorStep(xs: seq<int>)
    requires xs != []
    ensures OlsDenominator(xs) == OlsDenominator(xs[..|xs| - 1]) + SquaredDistances(xs[..|xs| - 1], xs[|xs| - 1])
  {
    var p, x := xs[..|xs| - 1], xs[|xs| - 1];
    SquaredDistancesExpand(p, x);
    DenominatorAlgebra(|p|, SumOfSquares(p), SumInt(p), x, SquaredDistances(p, x));
  }

  lemma {:induction false} SquaredDistancesNonNegative(xs: seq<int>, c: int)
    ensures SquaredDistances(xs, c) >= 0
  {
    if xs != [] {
      SquaredDistancesNonNegative(xs[..|xs| - 1], c);
    }
  }

  lemma {:induction false} SquaredDistancesPositive(xs: seq<int>, c: int, i: int)
    requires 0 <= i < |xs| && xs[i] != c
    ensures SquaredDistances(xs, c) > 0
  {
    var p := xs[..|xs| - 1];
    if i == |xs| - 1 {
      SquaredDistancesNonNegative(p, c);
    } else {
      SquaredDistancesPositive(p, c, i);
    }
  }

  /** Cauchy-Schwarz for the regression: the denominator is never negative. */
  lemma {:induction false} OlsDenominatorNonNegative(xs: seq<int>)
    ensures OlsDenominator(xs) >= 0
  {
    if xs != [] {
      OlsDenominatorNonNegative(xs[..|xs| - 1]);
      OlsDenominatorStep(xs);
      SquaredDistancesNonNegative(xs[..|xs| - 1], xs[|xs| - 1]);
    }
  }

  /** Two different day offsets make the denominator positive. */
  lemma {:induction false} OlsDenominatorPositive(xs: seq<int>, i: int, j: int)
    requires 0 <= i < |xs| && 0 <= j < |xs| && xs[i] != xs[j]
    ensures OlsDenominator(xs) > 0
  {
    var n := |xs|;
    var p := xs[..n - 1];
    OlsDenominatorStep(xs);
    if i == n - 1 {
      OlsDenominatorNonNegative(p);
      SquaredDistancesPositive(p, xs[n - 1], j);
    } else if j == n - 1 {
      OlsDenominatorNonNegative(p);
      SquaredDistancesPositive(p, xs[n - 1], i);
    } else {
      OlsDenominatorPositive(p, i, j);
      SquaredDistancesNonNegative(p, xs[n - 1]);
    }
  }

  lemma {:induction false} SquaredDistancesOfConstant(xs: seq<int>, c: int)
    requires forall i :: 0 <= i < |xs| ==> xs[i] == c
    ensures SquaredDistances(xs, c) == 0
  {
    if xs != [] {
      SquaredDistancesOfConstant(xs[..|xs| - 1], c);
    }
  }

  /** Equal offsets make the denominator zero. */
  lemma {:induction false} OlsDenominatorZero(xs: seq<int>)
    requires AllEqual(xs)
    ensures OlsDenominator(xs) == 0
  {
    if xs != [] {
      var p := xs[..|xs| - 1];
      OlsDenominatorZero(p);
      OlsDenominatorStep(xs);
      SquaredDistancesOfConstant(p, xs[|xs| - 1]);
    }
  }

  /** The denominator vanishes exactly when all offsets coincide. */
  lemma OlsDenominatorZeroIff(xs: seq<int>)
    ensures OlsDenominator(xs) == 0 <==> AllEqual(xs)
  {
    if AllEqual(xs) {
      OlsDenominatorZero(xs);
    } else {
      var i, j :| 0 <= i < |xs| && 0 <= j < |xs| && xs[i] != xs[j];
      OlsDenominatorPositive(xs, i, j);
    }
  }

  // ---- shifting the base date ----

  lemma {:induction false} SumIntOfShift(xs: seq<int>, k: int)
    ensures SumInt(Shift(xs, k)) == SumInt(xs) + |xs| * k
  {
    if xs != [] {
      var p := xs[..|xs| - 1];
      assert Shift(xs, k)[..|xs| - 1] == Shift(p, k);
      SumIntOfShift(p, k);
    }
  }

  lemma ShiftLast(xs: seq<int>, k: int)
    requires xs != []
    ensures Shift(xs, k)[..|xs| - 1] == Shift(xs[..|xs| - 1], k)
    ensures Shift(xs, k)[|xs| - 1] == xs[|xs| - 1] + k
  {}

  lemma SquaresShiftAlgebra(r: int, r': int, q: int, q': int, s: int, s': int, x: int, k: int, m: int)
    requires r == q + 2 * k * s + m * k * k && r' == r + (x + k) * (x + k)
    requires q' == q + x * x && s' == s + x
    ensures r' == q' + 2 * k * s' + (m + 1) * k * k
  {}

  lemma {:induction false} SumOfSquaresOfShift(xs: seq<int>, k: int)
    ensures SumOfSquares(Shift(xs, k)) == SumOfSquares(xs) + 2 * k * SumInt(xs) + |xs| * k * k
  {
    if xs != [] {
      var p := xs[..|xs| - 1];
      ShiftLast(xs, k);
      SumOfSquaresOfShift(p, k);
      SquaresShiftAlgebra(SumOfSquares(Shift(p, k)), SumOfSquares(Shift(xs, k)), SumOfSquares(p), SumOfSquares(xs),
                          SumInt(p), SumInt(xs), xs[|xs| - 1], k, |p|);
    }
  }

  lemma ShiftDenominatorAlgebra(n: int, q: int, s: int, k: int)
    ensures n * (q + 2 * k * s + n * k * k) - (s + n * k) * (s + n * k) == n * q - s * s
  {}

  /** Moving the base date does not change the denominator. */
  lemma OlsDenominatorOfShift(xs: seq<int>, k: int)
    ensures OlsDenominator(Shift(xs, k)) == OlsDenominator(xs)
  {
    SumIntOfShift(xs, k);
    SumOfSquaresOfShift(xs, k);
    ShiftDenominatorAlgebra(|xs|, SumOfSquares(xs), SumInt(xs), k);
  }

  lemma {:induction false} SumOfProductsOfShift(xs: seq<int>, ys: seq<real>, k: int)
    requires |xs| == |ys|
    ensures SumOfProducts(Shift(xs, k), ys) == SumOfProducts(xs, ys) + (k as real) * Sum(ys)
  {
    if xs != [] {
      var n := |xs|;
      assert Shift(xs, k)[..n - 1] == Shift(xs[..n - 1], k);
      SumOfProductsOfShift(xs[..n - 1], ys[..n - 1], k);
      var x, y := xs[n - 1], ys[n - 1];
      assert (x + k) as real * y == x as real * y + k as real * y;
    }
  }

  lemma ShiftNumeratorAlgebra(n: real, p: real, s: real, s': real, t: real, k: real)
    requires s' == s + n * k
    ensures n * (p + k * t) - s' * t == n * p - s * t
  {}

  lemma CastSumOfProduct(a: int, n: int, k: int)
    ensures (a + n * k) as real == a as real + (n as real) * (k as real)
  {}

  /** Moving the base date does not change the numerator. */
  lemma OlsNumeratorOfShift(xs: seq<int>, ys: seq<real>, k: int)
    requires |xs| == |ys|
    ensures OlsNumerator(Shift(xs, k), ys) == OlsNumerator(xs, ys)
  {
    SumIntOfShift(xs, k);
    SumOfProductsOfShift(xs, ys, k);
    CastSumOfProduct(SumInt(xs), |xs|, k);
    ShiftNumeratorAlgebra(|xs| as real, SumOfProducts(xs, ys), SumInt(xs) as real, SumInt(Shift(xs, k)) as real,
                          Sum(ys), k as real);
  }

  /** The slope does not depend on which record's date is the base of the offsets. */
  lemma OlsSlopeShiftInvariant(xs: seq<int>, ys: seq<real>, k: int)
    requires |xs| == |ys| && OlsDenominator(xs) != 0
    ensures OlsDenominator(Shift(xs, k)) != 0
    ensures OlsSlope(Shift(xs, k), ys) == OlsSlope(xs, ys)
  {
    OlsDenominatorOfShift(xs, k);
    OlsNumeratorOfShift(xs, ys, k);
  }

  // ---- exact lines ----

  /** The same condition as OnLine, unrolled from the last record backwards. */
  predicate OnLineFromEnd(xs: seq<int>, ys: seq<real>, a: real, b: real)
  {
    |xs| == |ys| &&
    (xs == [] ||
     (OnLineFromEnd(xs[..|xs| - 1], ys[..|xs| - 1], a, b) && ys[|xs| - 1] == a + b * (xs[|xs| - 1] as real)))
  }

  lemma {:induction false} OnLineUnrolled(xs: seq<int>, ys: seq<real>, a: real, b: real)
    requires OnLine(xs, ys, a, b)
    ensures OnLineFromEnd(xs, ys, a, b)
  {
    if xs != [] {
      OnLineUnrolled(xs[..|xs| - 1], ys[..|xs| - 1], a, b);
    }
  }

  /** (i*i) as real is the square of i as real. */
  lemma CastSquare(i: int)
    ensures (i * i) as real == (i as real) * (i as real)
  {}

  lemma ProductStep(a: real, b: real, x: real, y: real, sx0: real, sxx0: real, sxy0: real,
                    sx: real, sxx: real, sxy: real)
    requires y == a + b * x
    requires sxy0 == a * sx0 + b * sxx0
    requires sx == sx0 + x && sxx == sxx0 + x * x && sxy == sxy0 + x * y
    ensures sxy == a * sx + b * sxx
  {
    assert x * y == a * x + b * (x * x);
  }

  // Each link below ties one named value to the sum it stands for, so that
  // the algebra of the fit is done on plain reals.

  lemma SumIntStepAt(xs: seq<int>, sx: real, sx0: real, x: real)
    requires xs != []
    requires sx == SumInt(xs) as real && sx0 == SumInt(xs[..|xs| - 1]) as real && x == xs[|xs| - 1] as real
    ensures sx == sx0 + x
  {}

  lemma SquaresStepAt(xs: seq<int>, sxx: real, sxx0: real, x: real)
    requires xs != []
    requires sxx == SumOfSquares(xs) as real && sxx0 == SumOfSquares(xs[..|xs| - 1]) as real
    requires x == xs[|xs| - 1] as real
    ensures sxx == sxx0 + x * x
  {
    CastSquare(xs[|xs| - 1]);
  }

  lemma ProductsStepAt(xs: seq<int>, ys: seq<real>, sxy: real, sxy0: real, x: real, y: real)
    requires xs != [] && |xs| == |ys|
    requires sxy == SumOfProducts(xs, ys) && sxy0 == SumOfProducts(xs[..|xs| - 1], ys[..|xs| - 1])
    requires x == xs[|xs| - 1] as real && y == ys[|xs| - 1]
    ensures sxy == sxy0 + x * y
  {}

  lemma LastOnLineAt(xs: seq<int>, ys: seq<real>, a: real, b: real, x: real, y: real)
    requires OnLineFromEnd(xs, ys, a, b) && xs != []
    requires x == xs[|xs| - 1] as real && y == ys[|xs| - 1]
    ensures y == a + b * x
  {}

  /** On a line, sum_xy == a*sum_x + b*sum_x2 (sums passed as named values). */
  lemma {:induction false} ProductsOnLineAt(xs: seq<int>, ys: seq<real>, a: real, b: real,
                                            sx: real, sxx: real, sxy: real)
    requires OnLineFromEnd(xs, ys, a, b)
    requires sx == SumInt(xs) as real
    requires sxx == SumOfSquares(xs) as real
    requires sxy == SumOfProducts(xs, ys)
    ensures sxy == a * sx + b * sxx
  {
    if xs != [] {
      var n := |xs|;
      var px, py := xs[..n - 1], ys[..n - 1];
      var sx0, sxx0, sxy0 := SumInt(px) as real, SumOfSquares(px) as real, SumOfProducts(px, py);
      var x, y := xs[n - 1] as real, ys[n - 1];
      ProductsOnLineAt(px, py, a, b, sx0, sxx0, sxy0);
      SumIntStepAt(xs, sx, sx0, x);
      SquaresStepAt(xs, sxx, sxx0, x);
      ProductsStepAt(xs, ys, sxy, sxy0, x, y);
      LastOnLineAt(xs, ys, a, b, x, y);
      ProductStep(a, b, x, y, sx0, sxx0, sxy0, sx, sxx, sxy);
    }
  }

  lemma SumStep(a: real, b: real, x: real, y: real, n0: real, sx0: real, sy0: real,
                n: real, sx: real, sy: real)
    requires y == a + b * x
    requires sy0 == n0 * a + b * sx0
    requires n == n0 + 1.0 && sx == sx0 + x && sy == sy0 + y
    ensures sy == n * a + b * sx
  {}

  lemma SumStepAt(ys: seq<real>, sy: real, sy0: real, y: real)
    requires ys != []
    requires sy == Sum(ys) && sy0 == Sum(ys[..|ys| - 1]) && y == ys[|ys| - 1]
    ensures sy == sy0 + y
  {}

  /** On a line, sum_y == n*a + b*sum_x (sums passed as named values). */
  lemma {:induction false} SumOnLineAt(xs: seq<int>, ys: seq<real>, a: real, b: real,
                                       n: real, sx: real, sy: real)
    requires OnLineFromEnd(xs, ys, a, b)
    requires n == |xs| as real && sx == SumInt(xs) as real && sy == Sum(ys)
    ensures sy == n * a + b * sx
  {
    if xs != [] {
      var k := |xs|;
      var px, py := xs[..k - 1], ys[..k - 1];
      var n0, sx0, sy0 := |px| as real, SumInt(px) as real, Sum(py);
      var x, y := xs[k - 1] as real, ys[k - 1];
      SumOnLineAt(px, py, a, b, n0, sx0, sy0);
      SumIntStepAt(xs, sx, sx0, x);
      SumStepAt(ys, sy, sy0, y);
      LastOnLineAt(xs, ys, a, b, x, y);
      SumStep(a, b, x, y, n0, sx0, sy0, n, sx, sy);
    }
  }

  /** (n*q - s*s) as real in terms of the casts of n, q and s. */
  lemma CastDenominator(n: int, q: int, s: int)
    ensures (n * q - s * s) as real == (n as real) * (q as real) - (s as real) * (s as real)
  {}

  lemma DenominatorAt(xs: seq<int>, n: real, sx: real, sxx: real, d: real)
    requires n == |xs| as real && sx == SumInt(xs) as real && sxx == SumOfSquares(xs) as real
    requires d == OlsDenominator(xs) as real
    ensures d == n * sxx - sx * sx
  {
    CastDenominator(|xs|, SumOfSquares(xs), SumInt(xs));
  }

  lemma NumeratorAt(xs: seq<int>, ys: seq<real>, n: real, sx: real, sy: real, sxy: real, num: real)
    requires |xs| == |ys|
    requires n == |xs| as real && sx == SumInt(xs) as real && sy == Sum(ys) && sxy == SumOfProducts(xs, ys)
    requires num == OlsNumerator(xs, ys)
    ensures num == n * sxy - sx * sy
  {}

  lemma FitAt(xs: seq<int>, ys: seq<real>, n: real, sx: real, sy: real, num: real, d: real,
              slope: real, intercept: real)
    requires |xs| == |ys| && OlsDenominator(xs) != 0
    requires n == |xs| as real && sx == SumInt(xs) as real && sy == Sum(ys)
    requires num == OlsNumerator(xs, ys) && d == OlsDenominator(xs) as real
    requires slope == OlsSlope(xs, ys) && intercept == OlsIntercept(xs, ys)
    ensures d != 0.0 && slope == num / d && intercept == (sy - slope * sx) / n
  {}

  lemma NumeratorAlgebra(n: real, sx: real, sxx: real, sy: real, sxy: real, a: real, b: real,
                         num: real, d: real)
    requires sy == n * a + b * sx
    requires sxy == a * sx + b * sxx
    requires num == n * sxy - sx * sy
    requires d == n * sxx - sx * sx
    ensures num == b * d
  {
    assert n * sxy == n * a * sx + b * (n * sxx);
    assert sx * sy == n * a * sx + b * (sx * sx);
  }

  lemma SlopeAlgebra(num: real, d: real, b: real)
    requires d != 0.0 && num == b * d
    ensures num / d == b
  {}

  lemma InterceptAlgebra(n: real, sx: real, sy: real, a: real, b: real)
    requires n > 0.0 && sy == n * a + b * sx
    ensures (sy - b * sx) / n == a
  {
    assert sy - b * sx == n * a;
  }

  /** The whole fit computed on named sums: it returns the line the sums come from. */
  lemma LineAlgebra(n: real, sx: real, sxx: real, sy: real, sxy: real, a: real, b: real,
                    num: real, d: real, slope: real, intercept: real)
    requires n > 0.0 && d != 0.0
    requires sy == n * a + b * sx
    requires sxy == a * sx + b * sxx
    requires num == n * sxy - sx * sy
    requires d == n * sxx - sx * sx
    requires slope == num / d
    requires intercept == (sy - slope * sx) / n
    ensures slope == b && intercept == a
  {
    NumeratorAlgebra(n, sx, sxx, sy, sxy, a, b, num, d);
    SlopeAlgebra(num, d, b);
    InterceptAlgebra(n, sx, sy, a, b);
  }

  /**
   * When every yield lies exactly on a + b*x and the offsets are not all
   * equal, the least-squares fit returns that very line.
   */
  lemma OlsRecoversLine(xs: seq<int>, ys: seq<real>, a: real, b: real)
    requires OnLine(xs, ys, a, b) && OlsDenominator(xs) != 0
    ensures OlsSlope(xs, ys) == b && OlsIntercept(xs, ys) == a
  {
    var n, sx, sxx := |xs| as real, SumInt(xs) as real, SumOfSquares(xs) as real;
    var sy, sxy := Sum(ys), SumOfProducts(xs, ys);
    var num, d := OlsNumerator(xs, ys), OlsDenominator(xs) as real;
    var slope, intercept := OlsSlope(xs, ys), OlsIntercept(xs, ys);
    OnLineUnrolled(xs, ys, a, b);
    SumOnLineAt(xs, ys, a, b, n, sx, sy);
    ProductsOnLineAt(xs, ys, a, b, sx, sxx, sxy);
    DenominatorAt(xs, n, sx, sxx, d);
    NumeratorAt(xs, ys, n, sx, sy, sxy, num);
    FitAt(xs, ys, n, sx, sy, num, d, slope, intercept);
    LineAlgebra(n, sx, sxx, sy, sxy, a, b, num, d, slope, intercept);
  }

  // ---- spread of the yields ----

  predicate AllEqualTo(ys: seq<real>, c: real)
  {
    forall i :: 0 <= i < |ys| ==> ys[i] == c
  }

  lemma {:induction false} SumOfConstant(ys: seq<real>, c: real)
    requires AllEqualTo(ys, c)
    ensures Sum(ys) == (|ys| as real) * c
  {
    if ys != [] {
      SumOfConstant(ys[..|ys| - 1], c);
      assert (|ys| as real) * c == ((|ys| - 1) as real) * c + c;
    }
  }

  /** The mean of identical yields is that yield. */
  lemma MeanOfConstant(ys: seq<real>, c: real)
    requires ys != [] && AllEqualTo(ys, c)
    ensures Mean(ys) == c
  {
    SumOfConstant(ys, c);
  }

  lemma {:induction false} SquaredDeviationsNonNegative(ys: seq<real>, c: real)
    ensures SquaredDeviations(ys, c) >= 0.0
  {
    if ys != [] {
      SquaredDeviationsNonNegative(ys[..|ys| - 1], c);
      var d := ys[|ys| - 1] - c;
      assert d * d >= 0.0;
    }
  }

  lemma {:induction false} SquaredDeviationsOfConstant(ys: seq<real>, c: real)
    requires AllEqualTo(ys, c)
    ensures SquaredDeviations(ys, c) == 0.0
  {
    if ys != [] {
      SquaredDeviationsOfConstant(ys[..|ys| - 1], c);
    }
  }

  /** One yield away from c makes the sum of squared deviations from c positive. */
  lemma {:induction false} SquaredDeviationsPositive(ys: seq<real>, c: real, i: int)
    requires 0 <= i < |ys| && ys[i] != c
    ensures SquaredDeviations(ys, c) > 0.0
  {
    var n := |ys|;
    var d := ys[n - 1] - c;
    assert d * d >= 0.0;
    assert SquaredDeviations(ys, c) == SquaredDeviations(ys[..n - 1], c) + d * d;
    if i == n - 1 {
      SquaredDeviationsNonNegative(ys[..n - 1], c);
      var e := if d >= 0.0 then d else -d;
      assert e * e == d * d;
      SquareMonotone(e, 0.0);
    } else {
      SquaredDeviationsPositive(ys[..n - 1], c, i);
    }
  }

  lemma SampleVarianceNonNegative(ys: seq<real>)
    requires |ys| >= 2
    ensures SampleVariance(ys) >= 0.0
  {
    SquaredDeviationsNonNegative(ys, Mean(ys));
  }

  /** The sample variance is zero exactly when every yield is the same. */
  lemma SampleVarianceZeroIff(ys: seq<real>)
    requires |ys| >= 2
    ensures SampleVariance(ys) == 0.0 <==> AllEqualTo(ys, ys[0])
  {
    var m := Mean(ys);
    if AllEqualTo(ys, ys[0]) {
      MeanOfConstant(ys, ys[0]);
      SquaredDeviationsOfConstant(ys, m);
    } else {
      var i :| 0 <= i < |ys| && ys[i] != ys[0];
      if ys[i] != m {
        SquaredDeviationsPositive(ys, m, i);
      } else {
        SquaredDeviationsPositive(ys, m, 0);
      }
    }
  }

  lemma ScaleAboveTwo(t: real, s: real)
    requires s > 0.0
    ensures t > 2.0 <==> t * s > 2.0 * s
  {
    if t > 2.0 {
      assert (t - 2.0) * s > 0.0;
    } else {
      assert (2.0 - t) * s >= 0.0;
    }
  }

  lemma RatioAboveTwo(a: real, s: real)
    requires s > 0.0
    ensures a / s > 2.0 <==> a > 2.0 * s
  {
    var t := a / s;
    ScaleAboveTwo(t, s);
    assert t * s == a;
  }

  lemma SquareMonotone(a: real, b: real)
    requires 0.0 <= a && 0.0 <= b
    ensures a > b <==> a * a > b * b
  {
    if a > b {
      assert a * a - b * b == (a - b) * (a + b);
      assert a - b > 0.0 && a + b > 0.0;
      assert (a - b) * (a + b) > 0.0;
    } else {
      assert b * b - a * a == (b - a) * (a + b);
      assert (b - a) * (a + b) >= 0.0;
    }
  }

  /**
   * With s the positive square root of the variance, the score |v - m| / s
   * exceeds 2 exactly when (v - m)^2 exceeds 4 times the variance.
   */
  lemma FlagMatchesZScore(v: real, m: real, variance: real, s: real)
    requires s > 0.0 && s * s == variance
    ensures (if v >= m then v - m else m - v) / s > 2.0 <==> (v - m) * (v - m) > 4.0 * variance
  {
    var a := if v >= m then v - m else m - v;
    assert a * a == (v - m) * (v - m);
    RatioAboveTwo(a, s);
    SquareMonotone(a, 2.0 * s);
    assert (2.0 * s) * (2.0 * s) == 4.0 * variance;
    assert a > 2.0 * s <==> (v - m) * (v - m) > 4.0 * variance;
  }

  // ---- location of the mean ----

  lemma {:induction false} SumBetween(ys: seq<real>, lo: real, hi: real)
    requires forall i :: 0 <= i < |ys| ==> lo <= ys[i] <= hi
    ensures (|ys| as real) * lo <= Sum(ys) <= (|ys| as real) * hi
  {
    if ys != [] {
      SumBetween(ys[..|ys| - 1], lo, hi);
      assert (|ys| as real) * lo == ((|ys| - 1) as real) * lo + lo;
      assert (|ys| as real) * hi == ((|ys| - 1) as real) * hi + hi;
    }
  }

  lemma CancelPositive(n: real, a: real, b: real)
    requires n > 0.0 && n * a <= n * b
    ensures a <= b
  {}

  /** The mean of yields that all lie in [lo, hi] lies in [lo, hi]. */
  lemma MeanBetween(ys: seq<real>, lo: real, hi: real)
    requires ys != []
    requires forall i :: 0 <= i < |ys| ==> lo <= ys[i] <= hi
    ensures lo <= Mean(ys) <= hi
  {
    var n := |ys| as real;
    SumBetween(ys, lo, hi);
    assert n * Mean(ys) == Sum(ys);
    CancelPositive(n, lo, Mean(ys));
    CancelPositive(n, Mean(ys), hi);
  }

  lemma {:induction false} SumAtMost(ys: seq<real>, hi: real)
    requires forall i :: 0 <= i < |ys| ==> ys[i] <= hi
    ensures Sum(ys) <= (|ys| as real) * hi
  {
    if ys != [] {
      SumAtMost(ys[..|ys| - 1], hi);
      assert (|ys| as real) * hi == ((|ys| - 1) as real) * hi + hi;
    }
  }

  /** The mean of yields that are all at most hi is at most hi. */
  lemma MeanAtMost(ys: seq<real>, hi: real)
    requires ys != []
    requires forall i :: 0 <= i < |ys| ==> ys[i] <= hi
    ensures Mean(ys) <= hi
  {
    var n := |ys| as real;
    SumAtMost(ys, hi);
    assert n * Mean(ys) == Sum(ys);
    CancelPositive(n, Mean(ys), hi);
  }

  /** How many yields lie further than sqrt(t) from c: (y - c)^2 > t. */
  function CountBeyond(ys: seq<real>, c: real, t: real): (k: nat)
    ensures k <= |ys|
  {
    if ys == [] then 0
    else
      var d := ys[|ys| - 1] - c;
      CountBeyond(ys[..|ys| - 1], c, t) + (if d * d > t then 1 else 0)
  }

  /** Each yield beyond sqrt(t) contributes more than t to the squared deviations. */
  lemma {:induction false} DeviationsExceedCount(ys: seq<real>, c: real, t: real, k: nat)
    requires t >= 0.0 && k == CountBeyond(ys, c, t)
    ensures SquaredDeviations(ys, c) >= t * (k as real)
  {
    if ys != [] {
      var n := |ys|;
      var k' := CountBeyond(ys[..n - 1], c, t);
      DeviationsExceedCount(ys[..n - 1], c, t, k');
      var d := ys[n - 1] - c;
      assert d * d >= 0.0;
      assert t * ((k' + 1) as real) == t * (k' as real) + t;
    }
  }

  lemma ChebyshevAlgebra(sd: real, v: real, n1: real, t: real, k: real)
    requires n1 > 0.0 && v > 0.0
    requires v == sd / n1
    requires t == 4.0 * v
    requires sd >= t * k
    ensures 4.0 * k <= n1
  {
    assert sd == v * n1;
    assert v * (4.0 * k) <= v * n1;
    CancelPositive(v, 4.0 * k, n1);
  }

  /**
   * Chebyshev's bound for the sample variance v: at most (n - 1)/4 yields
   * lie more than two standard deviations from the mean.
   */
  lemma FewBeyondTwoDeviations(ys: seq<real>)
    requires |ys| >= 2 && SampleVariance(ys) > 0.0
    ensures 4 * CountBeyond(ys, Mean(ys), 4.0 * SampleVariance(ys)) <= |ys| - 1
  {
    var m := Mean(ys);
    var v := SampleVariance(ys);
    CountBoundAt(ys, m, v, 4.0 * v, SquaredDeviations(ys, m), CountBeyond(ys, m, 4.0 * v));
  }

  lemma CountBoundAt(ys: seq<real>, m: real, v: real, t: real, sd: real, k: nat)
    requires |ys| >= 2 && v > 0.0
    requires m == Mean(ys) && v == SampleVariance(ys) && t == 4.0 * v
    requires sd == SquaredDeviations(ys, m) && k == CountBeyond(ys, m, t)
    ensures 4 * k <= |ys| - 1
  {
    DeviationsExceedCount(ys, m, t, k);
    CountBoundFromDeviations(ys, sd, v, t, k);
  }

  lemma CountBoundFromDeviations(ys: seq<real>, sd: real, v: real, t: real, k: nat)
    requires |ys| >= 2 && v > 0.0
    requires v == sd / ((|ys| - 1) as real)
    requires t == 4.0 * v
    requires sd >= t * (k as real)
    ensures 4 * k <= |ys| - 1
  {
    ChebyshevAlgebra(sd, v, (|ys| - 1) as real, t, k as real);
  }

}
