/** The closing regression of `compute_features` (utils.py): a weighted
    least-squares slope of each log-cumulant against scale, over the scales
    `sc = 1..5` with abscissae `sc + 1`, weighted by the number of leaders
    each scale kept. */
module Regression {
  import opened Numerics

  /** The abscissa `sc + 1` of scale `sc`. */
  function Abscissa(s: nat): real {
    (s + 1) as real
  }

  /** `v0 = sum(b)`, `v1 = dot(sc + 1, b)` and `v2 = dot((sc + 1)**2, b)`,
      over scales 1..5 of the eight per-scale counts `b`. */
  function V0(b: seq<real>): real
    requires |b| == 8
  {
    b[1] + b[2] + b[3] + b[4] + b[5]
  }

  function V1(b: seq<real>): real
    requires |b| == 8
  {
    2.0 * b[1] + 3.0 * b[2] + 4.0 * b[3] + 5.0 * b[4] + 6.0 * b[5]
  }

  function V2(b: seq<real>): real
    requires |b| == 8
  {
    4.0 * b[1] + 9.0 * b[2] + 16.0 * b[3] + 25.0 * b[4] + 36.0 * b[5]
  }

  /** `v0 * v2 - v1**2`. */
  function Denominator(b: seq<real>): real
    requires |b| == 8
  {
    V0(b) * V2(b) - V1(b) * V1(b)
  }

  /** The numerator `v0 * (sc + 1) - v1` of the weight of scale `s`. */
  function Lever(b: seq<real>, s: nat): real
    requires |b| == 8
  {
    V0(b) * Abscissa(s) - V1(b)
  }

  /** `w = b.T * ((v0 * (sc + 1) - v1) / (v0 * v2 - v1**2))` at scale `s`.
      Over a zero denominator the quotient is NaN or an infinity, and so is
      its product with `b`. */
  function Weight(b: seq<real>, s: nat): (w: Fp)
    requires |b| == 8 && 1 <= s <= 5
    ensures w.Finite? <==> Denominator(b) != 0.0
  {
    if Denominator(b) == 0.0 then NonFinite
    else Finite(b[s] * (Lever(b, s) / Denominator(b)))
  }

  /** The term `log2(e) * w * c` of scale `s`. */
  function Term(log2e: real, b: seq<real>, c: seq<Fp>, s: nat): Fp
    requires |b| == 8 && |c| == 8 && 1 <= s <= 5
  {
    Mul(Scale(log2e, Weight(b, s)), c[s])
  }

  /** One row of `np.sum(np.log2(np.exp(1)) * w * c, axis=1)`: the slope of
      the cumulant row `c` (one entry per scale) against scale. It is finite
      exactly when the denominator is nonzero and the five cumulants used
      are finite. */
  function Slope(log2e: real, b: seq<real>, c: seq<Fp>): (f: Fp)
    requires |b| == 8 && |c| == 8
    ensures f.Finite? <==> Denominator(b) != 0.0 && forall s :: 1 <= s <= 5 ==> c[s].Finite?
  {
    Add(Add(Add(Add(Term(log2e, b, c, 1), Term(log2e, b, c, 2)), Term(log2e, b, c, 3)),
        Term(log2e, b, c, 4)), Term(log2e, b, c, 5))
  }

  /** The three slopes `f`, one per cumulant row. */
  function Slopes(log2e: real, b: seq<real>, c: seq<seq<Fp>>): (f: seq<Fp>)
    requires |b| == 8 && |c| == 3 && forall r :: 0 <= r < 3 ==> |c[r]| == 8
    ensures |f| == 3 && forall r :: 0 <= r < 3 ==> f[r] == Slope(log2e, b, c[r])
    ensures forall r :: 0 <= r < 3 ==>
      (f[r].Finite? <==> Denominator(b) != 0.0 && forall s :: 1 <= s <= 5 ==> c[r][s].Finite?)
  {
    [Slope(log2e, b, c[0]), Slope(log2e, b, c[1]), Slope(log2e, b, c[2])]
  }

  /** Lagrange's identity: the denominator is the weighted sum of the squared
      distances between the abscissae of every two scales. */
  lemma DenominatorPairs(b: seq<real>)
    requires |b| == 8
    ensures Denominator(b) ==
      b[1] * b[2] + 4.0 * (b[1] * b[3]) + 9.0 * (b[1] * b[4]) + 16.0 * (b[1] * b[5])
      + b[2] * b[3] + 4.0 * (b[2] * b[4]) + 9.0 * (b[2] * b[5])
      + b[3] * b[4] + 4.0 * (b[3] * b[5])
      + b[4] * b[5]
  {
  }

  lemma MulNonneg(x: real, y: real)
    requires x >= 0.0 && y >= 0.0
    ensures x * y >= 0.0 && (x * y > 0.0 <==> x > 0.0 && y > 0.0)
  {
  }

  /** With counts that are never negative, the denominator is never negative,
      and it is positive exactly when at least two of the scales 1..5 kept
      some leaders. */
  lemma DenominatorPositive(b: seq<real>)
    requires |b| == 8 && forall s :: 1 <= s <= 5 ==> b[s] >= 0.0
    ensures Denominator(b) >= 0.0
    ensures Denominator(b) > 0.0 <==>
      exists i, j :: 1 <= i < j <= 5 && b[i] > 0.0 && b[j] > 0.0
  {
    DenominatorPairs(b);
    MulNonneg(b[1], b[2]); MulNonneg(b[1], b[3]); MulNonneg(b[1], b[4]); MulNonneg(b[1], b[5]);
    MulNonneg(b[2], b[3]); MulNonneg(b[2], b[4]); MulNonneg(b[2], b[5]);
    MulNonneg(b[3], b[4]); MulNonneg(b[3], b[5]);
    MulNonneg(b[4], b[5]);
    PairSum(b, Denominator(b), b[1] * b[2], b[1] * b[3], b[1] * b[4], b[1] * b[5],
      b[2] * b[3], b[2] * b[4], b[2] * b[5], b[3] * b[4], b[3] * b[5], b[4] * b[5]);
  }

  /** The same statement with each product of two counts given by its sign
      alone. */
  lemma PairSum(b: seq<real>, d: real, p12: real, p13: real, p14: real, p15: real,
                p23: real, p24: real, p25: real, p34: real, p35: real, p45: real)
    requires |b| == 8
    requires d == p12 + 4.0 * p13 + 9.0 * p14 + 16.0 * p15 + p23 + 4.0 * p24 + 9.0 * p25
      + p34 + 4.0 * p35 + p45
    requires p12 >= 0.0 && (p12 > 0.0 <==> b[1] > 0.0 && b[2] > 0.0)
    requires p13 >= 0.0 && (p13 > 0.0 <==> b[1] > 0.0 && b[3] > 0.0)
    requires p14 >= 0.0 && (p14 > 0.0 <==> b[1] > 0.0 && b[4] > 0.0)
    requires p15 >= 0.0 && (p15 > 0.0 <==> b[1] > 0.0 && b[5] > 0.0)
    requires p23 >= 0.0 && (p23 > 0.0 <==> b[2] > 0.0 && b[3] > 0.0)
    requires p24 >= 0.0 && (p24 > 0.0 <==> b[2] > 0.0 && b[4] > 0.0)
    requires p25 >= 0.0 && (p25 > 0.0 <==> b[2] > 0.0 && b[5] > 0.0)
    requires p34 >= 0.0 && (p34 > 0.0 <==> b[3] > 0.0 && b[4] > 0.0)
    requires p35 >= 0.0 && (p35 > 0.0 <==> b[3] > 0.0 && b[5] > 0.0)
    requires p45 >= 0.0 && (p45 > 0.0 <==> b[4] > 0.0 && b[5] > 0.0)
    ensures d >= 0.0
    ensures d > 0.0 <==> exists i, j :: 1 <= i < j <= 5 && b[i] > 0.0 && b[j] > 0.0
  {
    if d > 0.0 {
      if p12 > 0.0 { assert b[1] > 0.0 && b[2] > 0.0; }
      else if p13 > 0.0 { assert b[1] > 0.0 && b[3] > 0.0; }
      else if p14 > 0.0 { assert b[1] > 0.0 && b[4] > 0.0; }
      else if p15 > 0.0 { assert b[1] > 0.0 && b[5] > 0.0; }
      else if p23 > 0.0 { assert b[2] > 0.0 && b[3] > 0.0; }
      else if p24 > 0.0 { assert b[2] > 0.0 && b[4] > 0.0; }
      else if p25 > 0.0 { assert b[2] > 0.0 && b[5] > 0.0; }
      else if p34 > 0.0 { assert b[3] > 0.0 && b[4] > 0.0; }
      else if p35 > 0.0 { assert b[3] > 0.0 && b[5] > 0.0; }
      else { assert b[4] > 0.0 && b[5] > 0.0; }
    }
  }

  /** The levers sum to zero against the counts, and to the denominator
      against the counts times the abscissae. */
  lemma LeverSums(b: seq<real>)
    requires |b| == 8
    ensures b[1] * Lever(b, 1) + b[2] * Lever(b, 2) + b[3] * Lever(b, 3)
      + b[4] * Lever(b, 4) + b[5] * Lever(b, 5) == 0.0
    ensures (b[1] * Lever(b, 1)) * 2.0 + (b[2] * Lever(b, 2)) * 3.0
      + (b[3] * Lever(b, 3)) * 4.0 + (b[4] * Lever(b, 4)) * 5.0
      + (b[5] * Lever(b, 5)) * 6.0 == Denominator(b)
  {
  }

  /** The weights sum to 0, and their sum against the abscissae is 1: they
      are the least-squares slope weights. */
  lemma WeightSums(b: seq<real>)
    requires |b| == 8 && Denominator(b) != 0.0
    ensures Weight(b, 1).v + Weight(b, 2).v + Weight(b, 3).v + Weight(b, 4).v + Weight(b, 5).v == 0.0
    ensures Weight(b, 1).v * Abscissa(1) + Weight(b, 2).v * Abscissa(2) + Weight(b, 3).v * Abscissa(3)
      + Weight(b, 4).v * Abscissa(4) + Weight(b, 5).v * Abscissa(5) == 1.0
  {
    WeightSum(b);
    WeightMoment(b);
  }

  lemma WeightSum(b: seq<real>)
    requires |b| == 8 && Denominator(b) != 0.0
    ensures Weight(b, 1).v + Weight(b, 2).v + Weight(b, 3).v + Weight(b, 4).v + Weight(b, 5).v == 0.0
  {
    LeverSums(b);
    ScaledSums(Denominator(b), b[1], b[2], b[3], b[4], b[5],
      Lever(b, 1), Lever(b, 2), Lever(b, 3), Lever(b, 4), Lever(b, 5));
  }

  lemma WeightMoment(b: seq<real>)
    requires |b| == 8 && Denominator(b) != 0.0
    ensures Weight(b, 1).v * Abscissa(1) + Weight(b, 2).v * Abscissa(2) + Weight(b, 3).v * Abscissa(3)
      + Weight(b, 4).v * Abscissa(4) + Weight(b, 5).v * Abscissa(5) == 1.0
  {
    LeverSums(b);
    ScaledSums(Denominator(b), b[1], b[2], b[3], b[4], b[5],
      Lever(b, 1), Lever(b, 2), Lever(b, 3), Lever(b, 4), Lever(b, 5));
  }

  /** Five quotients `c_s * (l_s / d)` sum as their numerators `c_s * l_s`
      do, over `d`. */
  lemma ScaledSums(d: real, c1: real, c2: real, c3: real, c4: real, c5: real,
                   l1: real, l2: real, l3: real, l4: real, l5: real)
    requires d != 0.0
    requires c1 * l1 + c2 * l2 + c3 * l3 + c4 * l4 + c5 * l5 == 0.0
    requires (c1 * l1) * 2.0 + (c2 * l2) * 3.0 + (c3 * l3) * 4.0 + (c4 * l4) * 5.0 + (c5 * l5) * 6.0 == d
    ensures c1 * (l1 / d) + c2 * (l2 / d) + c3 * (l3 / d) + c4 * (l4 / d) + c5 * (l5 / d) == 0.0
    ensures c1 * (l1 / d) * 2.0 + c2 * (l2 / d) * 3.0 + c3 * (l3 / d) * 4.0 + c4 * (l4 / d) * 5.0
      + c5 * (l5 / d) * 6.0 == 1.0
  {
    var w1, w2, w3, w4, w5 := c1 * (l1 / d), c2 * (l2 / d), c3 * (l3 / d), c4 * (l4 / d), c5 * (l5 / d);
    QuotientTimes(c1, l1, d); QuotientTimes(c2, l2, d); QuotientTimes(c3, l3, d);
    QuotientTimes(c4, l4, d); QuotientTimes(c5, l5, d);
    Distribute(w1, w2, w3, w4, w5, d);
    Cancel(w1 + w2 + w3 + w4 + w5, 0.0, d);
    Distribute(w1 * 2.0, w2 * 3.0, w3 * 4.0, w4 * 5.0, w5 * 6.0, d);
    Cancel(w1 * 2.0 + w2 * 3.0 + w3 * 4.0 + w4 * 5.0 + w5 * 6.0, 1.0, d);
  }

  lemma QuotientTimes(c: real, l: real, d: real)
    requires d != 0.0
    ensures c * (l / d) * d == c * l
  {
  }

  lemma Distribute(a1: real, a2: real, a3: real, a4: real, a5: real, d: real)
    ensures (a1 + a2 + a3 + a4 + a5) * d == a1 * d + a2 * d + a3 * d + a4 * d + a5 * d
  {
  }

  lemma Cancel(x: real, y: real, d: real)
    requires d != 0.0 && x * d == y * d
    ensures x == y
  {
  }

  /** A cumulant row exactly linear in the abscissa, `alpha + beta * (sc + 1)`,
      yields `log2(e) * beta`. */
  lemma LinearSlope(log2e: real, b: seq<real>, c: seq<Fp>, alpha: real, beta: real)
    requires |b| == 8 && |c| == 8 && Denominator(b) != 0.0
    requires forall s :: 1 <= s <= 5 ==> c[s] == Finite(alpha + beta * Abscissa(s))
    ensures Slope(log2e, b, c) == Finite(log2e * beta)
  {
    WeightSums(b);
    var w1, w2, w3, w4, w5 := Weight(b, 1).v, Weight(b, 2).v, Weight(b, 3).v, Weight(b, 4).v, Weight(b, 5).v;
    calc {
      Slope(log2e, b, c).v;
      log2e * w1 * (alpha + beta * 2.0) + log2e * w2 * (alpha + beta * 3.0) + log2e * w3 * (alpha + beta * 4.0)
        + log2e * w4 * (alpha + beta * 5.0) + log2e * w5 * (alpha + beta * 6.0);
      log2e * alpha * (w1 + w2 + w3 + w4 + w5)
        + log2e * beta * (w1 * 2.0 + w2 * 3.0 + w3 * 4.0 + w4 * 5.0 + w5 * 6.0);
      log2e * beta;
    }
  }
}
