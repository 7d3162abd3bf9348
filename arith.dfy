/** Small facts of integer and exact real arithmetic used by the impurity
    proofs.  Every real quantity that is a product is computed on integers and
    then cast, so that each lemma here only multiplies or divides plain
    variables. */
module Arith {
  lemma DivUnique(x: real, y: real, m: real)
    requires m != 0.0
    requires x * m == y
    ensures x == y / m
  {}
  lemma RatioTimes(c: real, n: real)
    requires n != 0.0
    ensures (c / n) * n == c
  {}
  lemma CastMul(a: int, b: int)
    ensures (a * b) as real == a as real * b as real
  {}
  lemma AddSameDenominator(x: real, y: real, m: real)
    requires m != 0.0
    ensures x / m + y / m == (x + y) / m
  {}
  lemma SubSameDenominator(x: real, y: real, m: real)
    requires m != 0.0
    ensures x / m - y / m == (x - y) / m
  {}
  lemma NonNegRatio(p: real, m: real)
    requires p >= 0.0 && m > 0.0
    ensures p / m >= 0.0
  {}
  lemma ScaleFractionReal(x: real, d: real, k: real)
    requires d != 0.0 && k != 0.0
    ensures x / d == (x * k) / (d * k)
  {
    var q := x / d;
    RatioTimes(x, d);
    assert q * (d * k) == x * k;
    assert d * k != 0.0;
    DivUnique(q, x * k, d * k);
  }
  /** x/d == (x·k)/(d·k) for integer quantities. */
  lemma ScaleFraction(x: int, d: int, k: int)
    requires d > 0 && k > 0
    ensures x as real / d as real == (x * k) as real / (d * k) as real
  {
    CastMul(x, k);
    CastMul(d, k);
    ScaleFractionReal(x as real, d as real, k as real);
  }
  lemma WeightedReal(ar: real, nr: real, l: real, a2: real)
    requires ar > 0.0 && nr > 0.0 && a2 > 0.0 && a2 == ar * ar
    ensures (ar / nr) * (1.0 - l / a2) == ar / nr - l / (ar * nr)
  {
    var w := ar / nr;
    var q := l / a2;
    RatioTimes(ar, nr);
    RatioTimes(l, a2);
    Cancel(w, q, ar, nr, a2, l);
    PosMul(ar, nr);
    DivUnique(w * q, l, ar * nr);
  }
  lemma PosMul(x: real, y: real)
    requires x > 0.0 && y > 0.0
    ensures x * y > 0.0
  {}
  lemma Cancel(w: real, q: real, ar: real, nr: real, a2: real, l: real)
    requires w * nr == ar && q * a2 == l && a2 == ar * ar
    ensures w * q * (ar * nr) == l
  {
    calc {
      w * q * (ar * nr);
      (w * nr) * (q * ar);
      ar * (q * ar);
      q * (ar * ar);
      q * a2;
    }
  }
  lemma Weighted(a: int, n: int, l: int)
    requires a > 0 && n > 0
    ensures (a as real / n as real) * (1.0 - l as real / (a * a) as real)
            == a as real / n as real - l as real / (a * n) as real
  {
    CastMul(a, a);
    CastMul(a, n);
    assert a * a > 0;
    WeightedReal(a as real, n as real, l as real, (a * a) as real);
  }
  /** The weighted gain over integer counts, as one fraction. */
  lemma GainAsFractions(a: int, b: int, L: int, R: int, C: int)
    requires a > 0 && b > 0
    ensures
      var n := a + b;
      (1.0 - C as real / (n * n) as real)
        - ((a as real / n as real) * (1.0 - L as real / (a * a) as real)
           + (b as real / n as real) * (1.0 - R as real / (b * b) as real))
      == L as real / (a * n) as real + R as real / (b * n) as real - C as real / (n * n) as real
  {
    var n := a + b;
    Weighted(a, n, L);
    Weighted(b, n, R);
    WeightsSumToOne(a, b, n);
    Combine(C as real / (n * n) as real, a as real / n as real, 1.0 - L as real / (a * a) as real,
            b as real / n as real, 1.0 - R as real / (b * b) as real,
            L as real / (a * n) as real, R as real / (b * n) as real);
  }
  lemma WeightsSumToOne(a: int, b: int, n: int)
    requires a > 0 && b > 0 && n == a + b
    ensures a as real / n as real + b as real / n as real == 1.0
  {
    AddSameDenominator(a as real, b as real, n as real);
  }
  lemma Combine(c: real, wl: real, sl: real, wr: real, sr: real, fl: real, fr: real)
    requires wl * sl == wl - fl && wr * sr == wr - fr && wl + wr == 1.0
    ensures (1.0 - c) - (wl * sl + wr * sr) == fl + fr - c
  {}
  lemma FractionsNonNegative(a: int, b: int, L: int, R: int, C: int)
    requires a > 0 && b > 0
    requires b * (a + b) * L + a * (a + b) * R >= a * b * C
    ensures
      var n := a + b;
      L as real / (a * n) as real + R as real / (b * n) as real - C as real / (n * n) as real >= 0.0
  {
    var n := a + b;
    var an, bn, nn, ab := a * n, b * n, n * n, a * b;
    var D := ab * nn;
    CommonDenominator(a, b, n, an, bn, nn, ab, D);
    ScaleFraction(L, an, bn);
    ScaleFraction(R, bn, an);
    ScaleFraction(C, nn, ab);
    var X, Y, Z := L * bn, R * an, C * ab;
    NumeratorNonNegative(a, b, n, L, R, C, an, bn, ab);
    AddSameDenominator(X as real, Y as real, D as real);
    SubSameDenominator(X as real + Y as real, Z as real, D as real);
    NonNegRatio(X as real + Y as real - Z as real, D as real);
  }
  lemma CommonDenominator(a: int, b: int, n: int, an: int, bn: int, nn: int, ab: int, D: int)
    requires a > 0 && b > 0 && n > 0
    requires an == a * n && bn == b * n && nn == n * n && ab == a * b && D == ab * nn
    ensures an > 0 && bn > 0 && nn > 0 && ab > 0 && D > 0
    ensures an * bn == D && bn * an == D && nn * ab == D
  {}
  lemma NumeratorNonNegative(a: int, b: int, n: int, L: int, R: int, C: int, an: int, bn: int, ab: int)
    requires n == a + b && an == a * n && bn == b * n && ab == a * b
    requires b * (a + b) * L + a * (a + b) * R >= a * b * C
    ensures L * bn + R * an - C * ab >= 0
  {}

  lemma Regroup(p: real, n: real)
    ensures (p * p) * (n * n) == (p * n) * (p * n)
  {}

  /** (c/n)² == c²/n² for integer quantities. */
  lemma SquareOfRatio(c: int, n: int)
    requires n > 0
    ensures (c as real / n as real) * (c as real / n as real) == (c * c) as real / (n * n) as real
  {
    var cr, nr := c as real, n as real;
    var p := cr / nr;
    RatioTimes(cr, nr);
    Regroup(p, nr);
    CastMul(c, c);
    CastMul(n, n);
    assert n * n > 0;
    DivUnique(p * p, (c * c) as real, (n * n) as real);
  }

  lemma RatioBounds(p: real, m: real)
    requires 0.0 < p <= m
    ensures 0.0 < p / m <= 1.0
    ensures p / m == 1.0 <==> p == m
  {}

  lemma RatioIsOne(p: real, m: real)
    requires m > 0.0
    ensures p / m == 1.0 <==> p == m
  {
    if p / m == 1.0 {
      RatioTimes(p, m);
    }
  }

  lemma RatioAtMostOne(p: real, m: real)
    requires 0.0 <= p <= m && m > 0.0
    ensures p / m <= 1.0
  {
    RatioTimes(p, m);
  }

  lemma MulNonNeg(x: real, y: real)
    requires x >= 0.0 && y >= 0.0
    ensures x * y >= 0.0
  {}

  lemma SquareOfSum(s: int, c: int)
    ensures (s + c) * (s + c) == s * s + 2 * (s * c) + c * c
  {}
  lemma Dist(x: int, y: int, z: int)
    ensures x * (y + z) == x * y + x * z
  {}
  lemma PerKeyIdentity(l: int, r: int, a: int, b: int)
    ensures b * (a + b) * (l * l) + a * (a + b) * (r * r) - a * b * ((l + r) * (l + r))
            == (l * b - r * a) * (l * b - r * a)
  {
    SquareOfSum(l, r);
    SquareOfSum(l * b, -(r * a));
    calc {
      b * (a + b) * (l * l) + a * (a + b) * (r * r) - a * b * ((l + r) * (l + r));
      (a * b) * (l * l) + (b * b) * (l * l) + (a * a) * (r * r) + (a * b) * (r * r)
        - (a * b) * (l * l) - 2 * ((a * b) * (l * r)) - (a * b) * (r * r);
      (b * b) * (l * l) + (a * a) * (r * r) - 2 * ((a * b) * (l * r));
      (l * b) * (l * b) + 2 * ((l * b) * (-(r * a))) + (-(r * a)) * (-(r * a));
    }
  }
  lemma SquareNonNeg(x: int)
    ensures x * x >= 0
  {}
  /** Adding one key with counts l and r to the two sides keeps the cross-term inequality. */
  lemma PerKey(l: int, r: int, a: int, b: int, n: int, L0: int, R0: int, C0: int)
    requires n == a + b
    requires b * n * L0 + a * n * R0 >= a * b * C0
    ensures b * n * (L0 + l * l) + a * n * (R0 + r * r) >= a * b * (C0 + (l + r) * (l + r))
  {
    PerKeyIdentity(l, r, a, b);
    SquareNonNeg(l * b - r * a);
    Dist(b * n, L0, l * l);
    Dist(a * n, R0, r * r);
    Dist(a * b, C0, (l + r) * (l + r));
  }

  lemma MulNonNegInt(x: int, y: int)
    requires x >= 0 && y >= 0
    ensures x * y >= 0
  {}

  lemma MulPosInt(x: int, y: int)
    requires x > 0 && y > 0
    ensures x * y > 0
  {}

  /** Gain formula over integer counts: with parent impurity 1 - C/n² and
      side impurities 1 - L/a², 1 - R/b² (n = a + b), if the per-key cross
      terms are non-negative then so is the gain. */
  lemma GainOfCounts(a: int, b: int, n: int, L: int, R: int, C: int, g: real, gl: real, gr: real)
    requires a > 0 && b > 0 && n == a + b
    requires b * n * L + a * n * R >= a * b * C
    requires g == 1.0 - C as real / (n * n) as real
    requires gl == 1.0 - L as real / (a * a) as real
    requires gr == 1.0 - R as real / (b * b) as real
    ensures g - ((a as real / n as real) * gl + (b as real / n as real) * gr) >= 0.0
  {
    GainAsFractions(a, b, L, R, C);
    FractionsNonNegative(a, b, L, R, C);
  }

  /** Subtracting two non-negative weighted terms never increases a value. */
  lemma WeightedBelow(g: real, wl: real, gl: real, wr: real, gr: real)
    requires wl >= 0.0 && gl >= 0.0 && wr >= 0.0 && gr >= 0.0
    ensures g - (wl * gl + wr * gr) <= g
    ensures gl == 0.0 && gr == 0.0 ==> g - (wl * gl + wr * gr) == g
  {
    MulNonNeg(wl, gl);
    MulNonNeg(wr, gr);
  }

  /** Dividing a non-negative count by a larger total gives a smaller share. */
  lemma ShareBelow(c: real, n: real, N: real)
    requires c >= 0.0 && 0.0 < n <= N
    ensures c / N <= c / n
  {
    var x, x' := c / N, c / n;
    RatioTimes(c, N);
    RatioTimes(c, n);
    assert x * N == x' * n;
  }

  lemma MulLeft(x: real, x': real, g: real)
    requires x <= x' && g >= 0.0
    ensures x * g <= x' * g
  {
  }

  /** Weighting the children by a larger total keeps a non-negative
      impurity decrease non-negative. */
  lemma DecreaseOverLargerTotal(g: real, l: real, gl: real, r: real, gr: real, n: real, N: real)
    requires l >= 0.0 && r >= 0.0 && gl >= 0.0 && gr >= 0.0 && 0.0 < n <= N
    requires g - ((l / n) * gl + (r / n) * gr) >= 0.0
    ensures g - ((l / N) * gl + (r / N) * gr) >= 0.0
  {
    ShareBelow(l, n, N);
    ShareBelow(r, n, N);
    MulLeft(l / N, l / n, gl);
    MulLeft(r / N, r / n, gr);
  }

  /** Scaling by a positive total keeps a value non-negative. */
  lemma ScaleNonNeg(d: real, N: real)
    requires d >= 0.0 && N > 0.0
    ensures d * N >= 0.0
  {
  }
}
