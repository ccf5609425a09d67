/** Adverse correlation stress of an exact positive semidefinite covariance matrix. */
module Covariance {
  type Vector = nat -> real
  type Matrix = (nat, nat) -> real

  /** A product, kept whole while sums are rearranged. */
  function Mul(a: real, b: real): real {
    a * b
  }

  // ---- Finite sums ----

  function Sum(f: nat -> real, n: nat): real {
    if n == 0 then 0.0 else Sum(f, n - 1) + f(n - 1)
  }

  lemma {:induction false} SumSame(f: nat -> real, g: nat -> real, n: nat)
    requires forall i: nat :: i < n ==> f(i) == g(i)
    ensures Sum(f, n) == Sum(g, n)
  {
    if n > 0 {
      SumSame(f, g, n - 1);
    }
  }

  lemma {:induction false} SumAtMost(f: nat -> real, g: nat -> real, n: nat)
    requires forall i: nat :: i < n ==> f(i) <= g(i)
    ensures Sum(f, n) <= Sum(g, n)
  {
    if n > 0 {
      SumAtMost(f, g, n - 1);
    }
  }

  lemma MulAdds(k: real, x: real, y: real)
    ensures Mul(k, x + y) == Mul(k, x) + Mul(k, y)
  {}

  lemma MulZero(k: real)
    ensures Mul(k, 0.0) == 0.0 && Mul(0.0, k) == 0.0
  {}

  /** Sums are linear: h is a*f + b*g term by term. */
  lemma {:induction false} SumLinear(a: real, f: nat -> real, b: real, g: nat -> real, h: nat -> real, n: nat)
    requires forall i: nat :: i < n ==> h(i) == Mul(a, f(i)) + Mul(b, g(i))
    ensures Sum(h, n) == Mul(a, Sum(f, n)) + Mul(b, Sum(g, n))
  {
    hide Mul;
    if n == 0 {
      MulZero(a);
      MulZero(b);
    } else {
      SumLinear(a, f, b, g, h, n - 1);
      MulAdds(a, Sum(f, n - 1), f(n - 1));
      MulAdds(b, Sum(g, n - 1), g(n - 1));
    }
  }

  lemma {:induction false} SumScaled(k: real, f: nat -> real, h: nat -> real, n: nat)
    requires forall i: nat :: i < n ==> h(i) == Mul(k, f(i))
    ensures Sum(h, n) == Mul(k, Sum(f, n))
  {
    hide Mul;
    if n == 0 {
      MulZero(k);
    } else {
      SumScaled(k, f, h, n - 1);
      MulAdds(k, Sum(f, n - 1), f(n - 1));
    }
  }

  lemma {:induction false} SumOfNone(f: nat -> real, n: nat)
    requires forall i: nat :: i < n ==> f(i) == 0.0
    ensures Sum(f, n) == 0.0
  {
    if n > 0 {
      SumOfNone(f, n - 1);
    }
  }

  lemma {:induction false} SumOfOne(f: nat -> real, n: nat, p: nat)
    requires p < n && forall i: nat :: i < n && i != p ==> f(i) == 0.0
    ensures Sum(f, n) == f(p)
  {
    if p == n - 1 {
      SumOfNone(f, n - 1);
    } else {
      SumOfOne(f, n - 1, p);
    }
  }

  lemma {:induction false} SumOfTwo(f: nat -> real, n: nat, p: nat, q: nat)
    requires p < n && q < n && p != q && forall i: nat :: i < n && i != p && i != q ==> f(i) == 0.0
    ensures Sum(f, n) == f(p) + f(q)
  {
    if p == n - 1 {
      SumOfOne(f, n - 1, q);
    } else if q == n - 1 {
      SumOfOne(f, n - 1, p);
    } else {
      SumOfTwo(f, n - 1, p, q);
    }
  }

  // ---- Quadratic forms ----

  function Row(m: Matrix, x: Vector, n: nat, i: nat): real {
    Sum((j: nat) => Mul(m(i, j), x(j)), n)
  }

  /** Portfolio variance: x' M x. */
  function Variance(m: Matrix, x: Vector, n: nat): real {
    Sum((i: nat) => Mul(x(i), Row(m, x, n, i)), n)
  }

  ghost predicate Symmetric(m: Matrix, n: nat) {
    forall i: nat, j: nat :: i < n && j < n ==> m(i, j) == m(j, i)
  }

  ghost predicate Semidefinite(m: Matrix, n: nat) {
    Symmetric(m, n) && forall x: Vector :: Variance(m, x, n) >= 0.0
  }

  /** Volatilities: the nonnegative roots of the diagonal. */
  ghost predicate Roots(m: Matrix, sigma: Vector, n: nat) {
    forall i: nat :: i < n ==> sigma(i) >= 0.0 && sigma(i) * sigma(i) == m(i, i)
  }

  function Pair(p: nat, a: real, q: nat, b: real): Vector {
    (i: nat) => if i == p then a else if i == q then b else 0.0
  }

  lemma Zeros(x: real)
    ensures x * 0.0 == 0.0 && 0.0 * x == 0.0
  {}

  lemma RowOfTwo(m: Matrix, n: nat, p: nat, a: real, q: nat, b: real, i: nat)
    requires p < n && q < n && p != q
    ensures Row(m, Pair(p, a, q, b), n, i) == Mul(m(i, p), a) + Mul(m(i, q), b)
  {
    hide Mul;
    var x := Pair(p, a, q, b);
    var f := (j: nat) => Mul(m(i, j), x(j));
    forall j: nat | j < n && j != p && j != q ensures f(j) == 0.0 {
      MulZero(m(i, j));
    }
    SumOfTwo(f, n, p, q);
  }

  /** The variance of holding two instruments only. */
  lemma TwoHoldings(m: Matrix, n: nat, p: nat, a: real, q: nat, b: real)
    requires p < n && q < n && p != q
    ensures Variance(m, Pair(p, a, q, b), n)
         == Mul(a, Mul(m(p, p), a) + Mul(m(p, q), b)) + Mul(b, Mul(m(q, p), a) + Mul(m(q, q), b))
  {
    hide Row, Mul;
    var x := Pair(p, a, q, b);
    var f := (i: nat) => Mul(x(i), Row(m, x, n, i));
    forall i: nat | i < n && i != p && i != q ensures f(i) == 0.0 {
      MulZero(Row(m, x, n, i));
    }
    SumOfTwo(f, n, p, q);
    RowOfTwo(m, n, p, a, q, b, p);
    RowOfTwo(m, n, p, a, q, b, q);
  }

  lemma PairIsNonnegative(m: Matrix, n: nat, p: nat, a: real, q: nat, b: real)
    requires Semidefinite(m, n) && p < n && q < n && p != q
    ensures a * (m(p, p) * a + m(p, q) * b) + b * (m(p, q) * a + m(q, q) * b) >= 0.0
  {
    hide Variance;
    TwoHoldings(m, n, p, a, q, b);
    assert m(q, p) == m(p, q);
    assert Variance(m, Pair(p, a, q, b), n) >= 0.0;
  }

  /** Semidefiniteness bounds every covariance by the product of the volatilities; in particular a zero
      volatility has zero covariances. */
  lemma CovarianceBound(m: Matrix, sigma: Vector, n: nat, p: nat, q: nat)
    requires Semidefinite(m, n) && Roots(m, sigma, n) && p < n && q < n
    ensures -(sigma(p) * sigma(q)) <= m(p, q) <= sigma(p) * sigma(q)
  {
    hide Variance;
    var u, v := sigma(p), sigma(q);
    if p == q {
      Product(u, u);
    } else if u == 0.0 || v == 0.0 {
      ZeroCovariance(m, sigma, n, p, q);
      Zeros(u);
      Zeros(v);
    } else {
      PairIsNonnegative(m, n, p, v, q, u);
      PairIsNonnegative(m, n, p, v, q, -u);
      BoundFromForms(u, v, m(p, q), m(p, p), m(q, q));
    }
  }

  lemma Product(a: real, b: real)
    requires a >= 0.0 && b >= 0.0
    ensures a * b >= 0.0
  {}

  lemma BoundFromForms(u: real, v: real, c: real, uu: real, vv: real)
    requires u > 0.0 && v > 0.0 && uu == u * u && vv == v * v
    requires v * (uu * v + c * u) + u * (c * v + vv * u) >= 0.0
    requires v * (uu * v + c * -u) + -u * (c * v + vv * -u) >= 0.0
    ensures -(u * v) <= c <= u * v
  {
    FirstForm(u, v, c);
    SecondForm(u, v, c);
    Positive(u, v);
    Cancel(u * v, u * v + c);
    Cancel(u * v, u * v - c);
  }

  lemma FirstForm(u: real, v: real, c: real)
    ensures v * ((u * u) * v + c * u) + u * (c * v + (v * v) * u) == 2.0 * ((u * v) * (u * v + c))
  {}

  lemma SecondForm(u: real, v: real, c: real)
    ensures v * ((u * u) * v + c * -u) + -u * (c * v + (v * v) * -u) == 2.0 * ((u * v) * (u * v - c))
  {}

  lemma Positive(a: real, b: real)
    requires a > 0.0 && b > 0.0
    ensures a * b > 0.0
  {}

  lemma Cancel(w: real, y: real)
    requires w > 0.0 && w * y >= 0.0
    ensures y >= 0.0
  {
    if y < 0.0 {
      Positive(w, -y);
    }
  }

  lemma ZeroCovariance(m: Matrix, sigma: Vector, n: nat, p: nat, q: nat)
    requires Semidefinite(m, n) && Roots(m, sigma, n) && p < n && q < n && p != q
    requires sigma(p) == 0.0 || sigma(q) == 0.0
    ensures m(p, q) == 0.0
  {
    hide Variance;
    var c := m(p, q);
    if c != 0.0 {
      if sigma(p) == 0.0 {
        var t := (m(q, q) + 1.0) / (2.0 * c);
        PairIsNonnegative(m, n, p, -t, q, 1.0);
        NegativeForm(c, m(q, q), t);
      } else {
        var t := (m(p, p) + 1.0) / (2.0 * c);
        PairIsNonnegative(m, n, p, 1.0, q, -t);
        NegativeForm(c, m(p, p), t);
      }
    }
  }

  /** With a zero on the diagonal the form can be driven to -1. */
  lemma NegativeForm(c: real, d: real, t: real)
    requires c != 0.0 && t == (d + 1.0) / (2.0 * c)
    ensures -t * (0.0 * -t + c * 1.0) + 1.0 * (c * -t + d * 1.0) == -1.0
    ensures 1.0 * (d * 1.0 + c * -t) + -t * (c * 1.0 + 0.0 * -t) == -1.0
  {
    assert t * (2.0 * c) == d + 1.0;
    assert t * c == c * t;
  }

  // ---- The stress ----

  function Sign(x: real): real {
    if x < 0.0 then -1.0 else 1.0
  }

  function Abs(x: real): real {
    if x < 0.0 then -x else x
  }

  /** `CovarianceEstimate.correlation`: one on the diagonal, zero where a volatility is zero. */
  function Correlation(m: Matrix, sigma: Vector, i: nat, j: nat): real {
    if i == j then 1.0
    else if sigma(i) * sigma(j) > 0.0 then m(i, j) / (sigma(i) * sigma(j))
    else 0.0
  }

  /** `with_adverse_correlation_stress` for the exposures `x`. */
  function Stressed(m: Matrix, sigma: Vector, x: Vector, severity: real): Matrix {
    (i: nat, j: nat) =>
      (sigma(i) * sigma(j)) * ((1.0 - severity) * Correlation(m, sigma, i, j) + severity * (Sign(x(i)) * Sign(x(j))))
  }

  /** Volatility times correlation is covariance, zero volatilities included. */
  lemma CorrelationRescales(m: Matrix, sigma: Vector, n: nat, i: nat, j: nat)
    requires Semidefinite(m, n) && Roots(m, sigma, n) && i < n && j < n
    ensures (sigma(i) * sigma(j)) * Correlation(m, sigma, i, j) == m(i, j)
  {
    hide Variance;
    var w := sigma(i) * sigma(j);
    CovarianceBound(m, sigma, n, i, j);
    Product(sigma(i), sigma(j));
    if i != j && w > 0.0 {
      Quotient(m(i, j), w);
    } else if i != j {
      Zeros(w);
    }
  }

  lemma Quotient(a: real, w: real)
    requires w != 0.0
    ensures w * (a / w) == a
  {}

  /** A position's volatility, signed as the stress assumes. */
  function Adverse(sigma: Vector, x: Vector): Vector {
    (i: nat) => sigma(i) * Sign(x(i))
  }

  /** Entry by entry the stress mixes the matrix with the rank-one worst case. */
  lemma StressedEntry(m: Matrix, sigma: Vector, x: Vector, s: real, n: nat, i: nat, j: nat)
    requires Semidefinite(m, n) && Roots(m, sigma, n) && i < n && j < n
    ensures Stressed(m, sigma, x, s)(i, j)
         == Blend(s, m(i, j), Adverse(sigma, x)(i), Adverse(sigma, x)(j))
  {
    hide Variance, Correlation;
    CorrelationRescales(m, sigma, n, i, j);
    Mix(sigma(i), sigma(j), Correlation(m, sigma, i, j), Sign(x(i)), Sign(x(j)), 1.0 - s, s);
  }

  lemma Mix(u: real, v: real, c: real, a: real, b: real, k: real, s: real)
    ensures (u * v) * (k * c + s * (a * b)) == k * ((u * v) * c) + s * ((u * a) * (v * b))
  {}

  // ---- Its quadratic form ----

  /** Sum of volatility-weighted holdings. */
  function Weighted(w: Vector, y: Vector, n: nat): real {
    Sum((i: nat) => Mul(w(i), y(i)), n)
  }

  /** What a mixture's entry is: part of the matrix, part of a rank-one matrix. */
  function Blend(s: real, c: real, u: real, v: real): real {
    (1.0 - s) * c + s * (u * v)
  }

  lemma MixedRow(a: Matrix, m: Matrix, w: Vector, s: real, y: Vector, n: nat, i: nat)
    requires forall j: nat :: j < n ==> a(i, j) == Blend(s, m(i, j), w(i), w(j))
    ensures Row(a, y, n, i) == Mul(1.0 - s, Row(m, y, n, i)) + Mul(Mul(s, w(i)), Weighted(w, y, n))
  {
    hide Mul, Blend;
    var f, g, h := (j: nat) => Mul(m(i, j), y(j)), (j: nat) => Mul(w(j), y(j)), (j: nat) => Mul(a(i, j), y(j));
    forall j: nat | j < n ensures h(j) == Mul(1.0 - s, f(j)) + Mul(Mul(s, w(i)), g(j)) {
      BlendTerm(s, m(i, j), w(i), w(j), y(j));
    }
    SumLinear(1.0 - s, f, Mul(s, w(i)), g, h, n);
  }

  lemma BlendTerm(s: real, c: real, u: real, v: real, y: real)
    ensures Mul(Blend(s, c, u, v), y) == Mul(1.0 - s, Mul(c, y)) + Mul(Mul(s, u), Mul(v, y))
  {
    assert ((1.0 - s) * c + s * (u * v)) * y == (1.0 - s) * (c * y) + (s * u) * (v * y);
  }

  /** A mixture's form is the mixture of the forms; the rank-one part contributes a square. */
  lemma MixedVariance(a: Matrix, m: Matrix, w: Vector, s: real, y: Vector, n: nat)
    requires forall i: nat, j: nat :: i < n && j < n ==> a(i, j) == Blend(s, m(i, j), w(i), w(j))
    ensures Variance(a, y, n) == Mul(1.0 - s, Variance(m, y, n)) + Mul(s, Mul(Weighted(w, y, n), Weighted(w, y, n)))
  {
    hide Row, Mul, Blend, Weighted;
    var total := Weighted(w, y, n);
    var f, g := (i: nat) => Mul(y(i), Row(m, y, n, i)), (i: nat) => Mul(w(i), y(i));
    var h := (i: nat) => Mul(y(i), Row(a, y, n, i));
    forall i: nat | i < n ensures h(i) == Mul(1.0 - s, f(i)) + Mul(Mul(s, total), g(i)) {
      MixedRow(a, m, w, s, y, n, i);
      RowTerm(y(i), Row(m, y, n, i), w(i), total, s);
    }
    SumLinear(1.0 - s, f, Mul(s, total), g, h, n);
    WeightedIs(w, y, g, n);
    MulAssociates(s, total, total);
  }

  lemma WeightedIs(w: Vector, y: Vector, g: Vector, n: nat)
    requires forall i: nat :: i < n ==> g(i) == Mul(w(i), y(i))
    ensures Sum(g, n) == Weighted(w, y, n)
  {
    hide Mul;
    SumSame(g, (i: nat) => Mul(w(i), y(i)), n);
  }

  lemma MulAssociates(a: real, b: real, c: real)
    ensures Mul(Mul(a, b), c) == Mul(a, Mul(b, c))
  {}

  lemma RowTerm(y: real, r: real, u: real, t: real, s: real)
    ensures Mul(y, Mul(1.0 - s, r) + Mul(Mul(s, u), t)) == Mul(1.0 - s, Mul(y, r)) + Mul(Mul(s, t), Mul(u, y))
  {
    assert y * ((1.0 - s) * r + (s * u) * t) == (1.0 - s) * (y * r) + (s * t) * (u * y);
  }

  /** Sum of absolute risks. */
  function AbsoluteRisk(sigma: Vector, x: Vector, n: nat): real {
    Sum((i: nat) => Mul(Abs(x(i)), sigma(i)), n)
  }

  /** For the stressed exposures themselves the weighted sum is that of absolute risks. */
  lemma AdverseIsAbsolute(sigma: Vector, x: Vector, n: nat)
    ensures Weighted(Adverse(sigma, x), x, n) == AbsoluteRisk(sigma, x, n)
  {
    hide Mul, Adverse;
    var f, g := (i: nat) => Mul(Adverse(sigma, x)(i), x(i)), (i: nat) => Mul(Abs(x(i)), sigma(i));
    forall i: nat | i < n ensures f(i) == g(i) {
      SignedTerm(sigma, x, i);
    }
    SumSame(f, g, n);
  }

  lemma SignedTerm(sigma: Vector, x: Vector, i: nat)
    ensures Mul(Adverse(sigma, x)(i), x(i)) == Mul(Abs(x(i)), sigma(i))
  {
    var u, y := sigma(i), x(i);
    assert Sign(y) * y == Abs(y);
    assert (u * Sign(y)) * y == u * (Sign(y) * y);
  }

  /** The stressed variance interpolates between the variance and the squared sum of absolute risks. */
  lemma StressedVariance(m: Matrix, sigma: Vector, x: Vector, s: real, n: nat)
    requires Semidefinite(m, n) && Roots(m, sigma, n)
    ensures Variance(Stressed(m, sigma, x, s), x, n)
         == (1.0 - s) * Variance(m, x, n) + s * (AbsoluteRisk(sigma, x, n) * AbsoluteRisk(sigma, x, n))
  {
    hide Variance, Stressed, Blend, AbsoluteRisk, Weighted, Adverse;
    forall i: nat, j: nat | i < n && j < n
      ensures Stressed(m, sigma, x, s)(i, j) == Blend(s, m(i, j), Adverse(sigma, x)(i), Adverse(sigma, x)(j))
    {
      StressedEntry(m, sigma, x, s, n, i, j);
    }
    MixedVariance(Stressed(m, sigma, x, s), m, Adverse(sigma, x), s, x, n);
    AdverseIsAbsolute(sigma, x, n);
  }

  // ---- What the stress guarantees ----

  /** The variance never exceeds the squared sum of absolute risks. */
  lemma VarianceIsBounded(m: Matrix, sigma: Vector, x: Vector, n: nat)
    requires Semidefinite(m, n) && Roots(m, sigma, n)
    ensures Variance(m, x, n) <= AbsoluteRisk(sigma, x, n) * AbsoluteRisk(sigma, x, n)
  {
    hide Row, AbsoluteRisk, Semidefinite, Roots, Mul;
    var risk, total := (i: nat) => Mul(Abs(x(i)), sigma(i)), AbsoluteRisk(sigma, x, n);
    var f, h := (i: nat) => Mul(x(i), Row(m, x, n, i)), (i: nat) => Mul(total, risk(i));
    forall i: nat | i < n ensures f(i) <= h(i) {
      RowIsBounded(m, sigma, x, n, i);
    }
    SumAtMost(f, h, n);
    SumScaled(total, risk, h, n);
    RiskIsSum(sigma, x, risk, n);
    assert Mul(total, total) == total * total by {
      MulIs(total, total);
    }
  }

  lemma MulIs(a: real, b: real)
    ensures Mul(a, b) == a * b && Mul(a, b) == Mul(b, a)
  {}

  lemma RiskIsSum(sigma: Vector, x: Vector, risk: Vector, n: nat)
    requires forall i: nat :: i < n ==> risk(i) == Mul(Abs(x(i)), sigma(i))
    ensures Sum(risk, n) == AbsoluteRisk(sigma, x, n)
  {
    hide Mul;
    SumSame(risk, (i: nat) => Mul(Abs(x(i)), sigma(i)), n);
  }

  lemma RowIsBounded(m: Matrix, sigma: Vector, x: Vector, n: nat, i: nat)
    requires Semidefinite(m, n) && Roots(m, sigma, n) && i < n
    ensures Mul(x(i), Row(m, x, n, i)) <= Mul(AbsoluteRisk(sigma, x, n), Mul(Abs(x(i)), sigma(i)))
  {
    hide Variance, AbsoluteRisk, Semidefinite, Roots, Mul;
    var f, risk := (j: nat) => Mul(m(i, j), x(j)), (j: nat) => Mul(Abs(x(j)), sigma(j));
    var own := Mul(Abs(x(i)), sigma(i));
    var scaled, bound := (j: nat) => Mul(x(i), f(j)), (j: nat) => Mul(own, risk(j));
    forall j: nat | j < n ensures scaled(j) <= bound(j) {
      CovarianceBound(m, sigma, n, i, j);
      TermIsBounded(m(i, j), sigma(i), sigma(j), x(i), x(j));
    }
    SumAtMost(scaled, bound, n);
    SumScaled(x(i), f, scaled, n);
    SumScaled(own, risk, bound, n);
    RiskIsSum(sigma, x, risk, n);
    MulIs(own, AbsoluteRisk(sigma, x, n));
  }

  lemma TermIsBounded(c: real, u: real, v: real, x: real, y: real)
    requires -(u * v) <= c <= u * v
    ensures Mul(x, Mul(c, y)) <= Mul(Mul(Abs(x), u), Mul(Abs(y), v))
  {
    var p := Abs(x) * Abs(y);
    Product(Abs(x), Abs(y));
    Product(p, u * v - c);
    Product(p, u * v + c);
    Rearranged(c, u, v, x, y);
  }

  lemma Rearranged(c: real, u: real, v: real, x: real, y: real)
    ensures x * (c * y) == if (x < 0.0) == (y < 0.0) then (Abs(x) * Abs(y)) * c else -((Abs(x) * Abs(y)) * c)
    ensures (Abs(x) * u) * (Abs(y) * v) == (Abs(x) * Abs(y)) * (u * v)
    ensures (Abs(x) * Abs(y)) * (u * v - c) == (Abs(x) * Abs(y)) * (u * v) - (Abs(x) * Abs(y)) * c
    ensures (Abs(x) * Abs(y)) * (u * v + c) == (Abs(x) * Abs(y)) * (u * v) + (Abs(x) * Abs(y)) * c
  {}

  /** Adverse stress never lowers the variance, grows with severity, and at severity one reaches the
      squared sum of absolute risks. */
  lemma StressIsAdverse(m: Matrix, sigma: Vector, x: Vector, s: real, t: real, n: nat)
    requires Semidefinite(m, n) && Roots(m, sigma, n) && 0.0 <= s <= t <= 1.0
    ensures Variance(m, x, n) <= Variance(Stressed(m, sigma, x, s), x, n) <= Variance(Stressed(m, sigma, x, t), x, n)
    ensures Variance(Stressed(m, sigma, x, 1.0), x, n) == AbsoluteRisk(sigma, x, n) * AbsoluteRisk(sigma, x, n)
  {
    hide Variance, Stressed, AbsoluteRisk;
    var v, a := Variance(m, x, n), AbsoluteRisk(sigma, x, n) * AbsoluteRisk(sigma, x, n);
    StressedVariance(m, sigma, x, s, n);
    StressedVariance(m, sigma, x, t, n);
    StressedVariance(m, sigma, x, 1.0, n);
    VarianceIsBounded(m, sigma, x, n);
    Between(v, a, s, t);
  }

  lemma Between(v: real, a: real, s: real, t: real)
    requires v <= a && 0.0 <= s <= t <= 1.0
    ensures v <= (1.0 - s) * v + s * a <= (1.0 - t) * v + t * a
    ensures (1.0 - 1.0) * v + 1.0 * a == a
  {
    Product(s, a - v);
    Product(t - s, a - v);
    assert (1.0 - s) * v + s * a == v + s * (a - v);
    assert (1.0 - t) * v + t * a == v + s * (a - v) + (t - s) * (a - v);
  }

  /** The stressed matrix is again symmetric and semidefinite, with the same volatilities: building the
      stressed estimate is never refused. */
  lemma StressedIsCovariance(m: Matrix, sigma: Vector, x: Vector, s: real, n: nat)
    requires Semidefinite(m, n) && Roots(m, sigma, n) && 0.0 <= s <= 1.0
    ensures Semidefinite(Stressed(m, sigma, x, s), n) && Roots(Stressed(m, sigma, x, s), sigma, n)
  {
    hide Variance, Stressed, Adverse, Blend, Weighted;
    var a, w := Stressed(m, sigma, x, s), Adverse(sigma, x);
    forall i: nat, j: nat | i < n && j < n
      ensures a(i, j) == Blend(s, m(i, j), w(i), w(j)) && a(i, j) == a(j, i)
    {
      StressedEntry(m, sigma, x, s, n, i, j);
      StressedEntry(m, sigma, x, s, n, j, i);
      BlendIsSymmetric(s, m(i, j), w(i), w(j));
    }
    forall y: Vector ensures Variance(a, y, n) >= 0.0 {
      MixedVariance(a, m, w, s, y, n);
      Square(Weighted(w, y, n));
      Product(1.0 - s, Variance(m, y, n));
      Product(s, Weighted(w, y, n) * Weighted(w, y, n));
    }
    forall i: nat | i < n ensures a(i, i) == m(i, i) {
      OwnVolatility(m, sigma, x, s, i);
    }
  }

  lemma BlendIsSymmetric(s: real, c: real, u: real, v: real)
    ensures Blend(s, c, u, v) == Blend(s, c, v, u)
  {}

  lemma Square(a: real)
    ensures a * a >= 0.0
  {}

  lemma OwnVolatility(m: Matrix, sigma: Vector, x: Vector, s: real, i: nat)
    requires sigma(i) * sigma(i) == m(i, i)
    ensures Stressed(m, sigma, x, s)(i, i) == m(i, i)
  {
    assert Sign(x(i)) * Sign(x(i)) == 1.0;
    assert (1.0 - s) * 1.0 + s * 1.0 == 1.0;
  }

  // ---- The portfolio overlay ----

  /** Scaling every exposure scales the variance by the square. */
  lemma ScaledVariance(m: Matrix, x: Vector, k: real, n: nat)
    ensures Variance(m, (i: nat) => Mul(k, x(i)), n) == (k * k) * Variance(m, x, n)
  {
    hide Mul, Row;
    var y := (i: nat) => Mul(k, x(i));
    var f, g := (i: nat) => Mul(x(i), Row(m, x, n, i)), (i: nat) => Mul(y(i), Row(m, y, n, i));
    forall i: nat | i < n ensures g(i) == Mul(Mul(k, k), f(i)) {
      ScaledRow(m, x, k, n, i);
      SquareOut(k, x(i), Row(m, x, n, i));
    }
    SumScaled(Mul(k, k), f, g, n);
    MulIs(k, k);
    MulIs(Mul(k, k), Variance(m, x, n));
  }

  lemma ScaledRow(m: Matrix, x: Vector, k: real, n: nat, i: nat)
    ensures Row(m, (j: nat) => Mul(k, x(j)), n, i) == Mul(k, Row(m, x, n, i))
  {
    hide Mul;
    var f, g := (j: nat) => Mul(m(i, j), x(j)), (j: nat) => Mul(m(i, j), Mul(k, x(j)));
    forall j: nat | j < n ensures g(j) == Mul(k, f(j)) {
      PullOut(m(i, j), k, x(j));
    }
    SumScaled(k, f, g, n);
    SumSame(g, (j: nat) => Mul(m(i, j), ((j: nat) => Mul(k, x(j)))(j)), n);
  }

  lemma PullOut(c: real, k: real, y: real)
    ensures Mul(c, Mul(k, y)) == Mul(k, Mul(c, y))
  {}

  lemma SquareOut(k: real, y: real, r: real)
    ensures Mul(Mul(k, y), Mul(k, r)) == Mul(Mul(k, k), Mul(y, r))
  {}

  /** So the volatility, its root, scales with the exposures. */
  lemma ScaledVolatility(m: Matrix, x: Vector, k: real, n: nat, v: real)
    requires k >= 0.0 && v >= 0.0 && v * v == Variance(m, x, n)
    ensures k * v >= 0.0 && (k * v) * (k * v) == Variance(m, (i: nat) => Mul(k, x(i)), n)
  {
    hide Variance;
    ScaledVariance(m, x, k, n);
    Product(k, v);
    assert (k * v) * (k * v) == (k * k) * (v * v);
  }

  /** `min(1.0, limit / value)`. */
  function Room(value: real, limit: real): real
    requires limit > 0.0
  {
    if value > 0.0 && limit / value < 1.0 then limit / value else 1.0
  }

  lemma RoomIs(value: real, limit: real, k: real)
    requires limit > 0.0 && value >= 0.0
    ensures 0.0 < Room(value, limit) <= 1.0
    ensures 0.0 <= k <= 1.0 ==> (k * value <= limit <==> k <= Room(value, limit))
  {
    if value > 0.0 {
      var r := limit / value;
      assert r * value == limit;
      RatioIsPositive(limit, value, r);
      if r < 1.0 {
        Differs(k, r, value);
      } else if 0.0 <= k <= 1.0 {
        Differs(k, r, value);
      }
    } else {
      Zeros(k);
    }
  }

  lemma RatioIsPositive(a: real, b: real, r: real)
    requires a > 0.0 && b > 0.0 && r * b == a
    ensures r > 0.0
  {
    if r <= 0.0 {
      Product(-r, b);
    }
  }

  /** Multiplication by a positive number keeps order. */
  lemma Differs(k: real, r: real, value: real)
    requires value > 0.0
    ensures k <= r <==> k * value <= r * value
  {
    if k <= r {
      Product(r - k, value);
    } else {
      Positive(k - r, value);
    }
  }

  /** `PortfolioRiskOverlay.evaluate`: the largest scaling in (0, 1] under which every measure, each
      proportional to the exposures, meets its limit. */
  method OverlayMultiplier(values: seq<real>, limits: seq<real>) returns (multiplier: real)
    requires |values| == |limits| && forall i :: 0 <= i < |values| ==> values[i] >= 0.0 && limits[i] > 0.0
    ensures 0.0 < multiplier <= 1.0
    ensures forall i :: 0 <= i < |values| ==> multiplier * values[i] <= limits[i]
    ensures forall k :: 0.0 <= k <= 1.0 && AllMeet(k, values, limits) ==> k <= multiplier
  {
    multiplier := 1.0;
    for i := 0 to |values|
      invariant 0.0 < multiplier <= 1.0
      invariant forall j :: 0 <= j < i ==> multiplier <= Room(values[j], limits[j])
      invariant forall k :: 0.0 <= k <= 1.0 && AllMeet(k, values, limits) ==> k <= multiplier
    {
      var room := Room(values[i], limits[i]);
      RoomIs(values[i], limits[i], 1.0);
      forall k | 0.0 <= k <= 1.0 && AllMeet(k, values, limits) ensures k <= room {
        RoomIs(values[i], limits[i], k);
        assert Meets(k, values, limits, i);
      }
      multiplier := if room < multiplier then room else multiplier;
    }
    forall i | 0 <= i < |values| ensures multiplier * values[i] <= limits[i] {
      RoomIs(values[i], limits[i], multiplier);
    }
  }

  predicate Meets(k: real, values: seq<real>, limits: seq<real>, i: nat)
    requires i < |values| == |limits|
  {
    k * values[i] <= limits[i]
  }

  predicate AllMeet(k: real, values: seq<real>, limits: seq<real>)
    requires |values| == |limits|
  {
    forall i :: 0 <= i < |values| ==> Meets(k, values, limits, i)
  }
}
