/** `compute_features` (utils.py): the per-scale summaries of the trimmed
    wavelet details and leaders, the regression of the log-cumulants against
    scale, and the 24-entry feature vector; and the loop over the scales that
    fills `mwc`, `c` and `b` in place. */
module Features {
  import opened Numerics
  import opened Outcomes
  import opened Dsp
  import opened Leaders
  import Regression

  /** What scale jj contributes: `mwc[jj]` (log of the mean detail
      magnitude), `mwc[jj + 8]` (sum of squared magnitudes), `mwc[jj + 16]`
      (log of their standard deviation), the column `c[:, jj]` of
      log-leader cumulants and the count `b[jj]` of leaders kept. */
  datatype Summary = Summary(lnMean: Fp, sumSq: real, lnStd: Fp, cumulants: seq<Fp>, count: nat)

  /** `np.abs` of every entry. */
  function Magnitudes(s: seq<real>): (r: seq<real>)
    ensures |r| == |s| && forall i :: 0 <= i < |s| ==> r[i] == Abs(s[i]) && r[i] >= 0.0
  {
    seq(|s|, i requires 0 <= i < |s| => Abs(s[i]))
  }

  /** `np.log` of every entry. */
  function LnAll(lib: MathLib, s: seq<real>): (r: seq<Fp>)
    ensures |r| == |s| && forall i :: 0 <= i < |s| ==> r[i] == lib.ln(s[i])
  {
    seq(|s|, i requires 0 <= i < |s| => lib.ln(s[i]))
  }

  /** `le ** 2` and `le ** 3`. */
  function Squares(le: seq<Fp>): (r: seq<Fp>)
    ensures |r| == |le| && forall i :: 0 <= i < |le| ==> (r[i].Finite? <==> le[i].Finite?)
  {
    seq(|le|, i requires 0 <= i < |le| => Mul(le[i], le[i]))
  }

  function Cubes(le: seq<Fp>): (r: seq<Fp>)
    ensures |r| == |le| && forall i :: 0 <= i < |le| ==> (r[i].Finite? <==> le[i].Finite?)
  {
    seq(|le|, i requires 0 <= i < |le| => Mul(Mul(le[i], le[i]), le[i]))
  }

  /** The first three cumulants of the log-leaders,
      `[u1, u2 - u1**2, u3 - 3*u1*u2 + 2*u1**3]` from the raw moments. */
  function Cumulants(le: seq<Fp>): (c: seq<Fp>)
    ensures |c| == 3
  {
    var u1 := MeanFp(le);
    var u2 := MeanFp(Squares(le));
    var u3 := MeanFp(Cubes(le));
    [u1, Sub(u2, Mul(u1, u1)), Add(Sub(u3, Mul(Scale(3.0, u1), u2)), Scale(2.0, Mul(Mul(u1, u1), u1)))]
  }

  lemma MeanFpFinite(s: seq<Fp>)
    ensures MeanFp(s).Finite? <==> |s| > 0 && forall i :: 0 <= i < |s| ==> s[i].Finite?
  {
  }

  /** The cumulants are finite exactly when some leaders were kept and every
      log-leader is finite; otherwise all three are NaN or infinite. */
  lemma CumulantsFinite(le: seq<Fp>)
    ensures (forall r :: 0 <= r < 3 ==> Cumulants(le)[r].Finite?) <==>
      |le| > 0 && forall i :: 0 <= i < |le| ==> le[i].Finite?
    ensures (exists r :: 0 <= r < 3 && Cumulants(le)[r].Finite?) ==>
      forall r :: 0 <= r < 3 ==> Cumulants(le)[r].Finite?
  {
    var u1, u2, u3 := MeanFp(le), MeanFp(Squares(le)), MeanFp(Cubes(le));
    MeanFpFinite(le);
    MeanFpFinite(Squares(le));
    MeanFpFinite(Cubes(le));
    assert u1.Finite? <==> u2.Finite?;
    assert u1.Finite? <==> u3.Finite?;
    var cs := Cumulants(le);
    assert cs[0] == u1;
    assert cs[1].Finite? <==> u1.Finite?;
    assert cs[2].Finite? <==> u1.Finite?;
  }

  lemma {:induction false} SumConstant(s: seq<real>, a: real)
    requires forall i :: 0 <= i < |s| ==> s[i] == a
    ensures Sum(s) == |s| as real * a
  {
    if |s| > 0 {
      SumConstant(s[1..], a);
    }
  }

  lemma MeanConstant(s: seq<Fp>, a: real)
    requires |s| > 0 && forall i :: 0 <= i < |s| ==> s[i] == Finite(a)
    ensures MeanFp(s) == Finite(a)
  {
    var vs := AllFinite(s).value;
    SumConstant(vs, a);
  }

  /** When every kept log-leader has the same value a, the cumulants are a,
      0 and 0: a scale without spread has no variance and no skewness. */
  lemma CumulantsOfConstant(le: seq<Fp>, a: real)
    requires |le| > 0 && forall i :: 0 <= i < |le| ==> le[i] == Finite(a)
    ensures Cumulants(le) == [Finite(a), Finite(0.0), Finite(0.0)]
  {
    var sq, cu := Squares(le), Cubes(le);
    forall i | 0 <= i < |sq|
      ensures sq[i] == Finite(a * a) && cu[i] == Finite(a * a * a)
    {
      assert le[i] == Finite(a);
    }
    MeanConstant(le, a);
    MeanConstant(sq, a * a);
    MeanConstant(cu, a * a * a);
    assert (a * a * a - (3.0 * a) * (a * a)) + 2.0 * ((a * a) * a) == 0.0;
    assert Cumulants(le)[1] == Finite(a * a - a * a);
    assert Cumulants(le)[2] == Finite((a * a * a - (3.0 * a) * (a * a)) + 2.0 * ((a * a) * a));
  }

  /** The summary of scale jj from its untrimmed details `d` and leaders
      `lea`: both are trimmed; the magnitudes of the details give `mwc`, the
      logs of the leaders give the cumulants and their number the count. */
  function Summarize(lib: MathLib, jj: nat, d: seq<real>, lea: seq<real>): (sm: Summary)
    ensures |sm.cumulants| == 3
  {
    var mm := Magnitudes(Trim(d, jj));
    var kept := Trim(lea, jj);
    Summary(Ln(lib, Mean(mm)), SumSq(mm), Ln(lib, Std(lib, mm)), Cumulants(LnAll(lib, kept)), |kept|)
  }

  /** The summaries of the eight scales of a truncated segment `t` whose
      leader recursion produced `lead`. */
  function Summaries(lib: MathLib, t: seq<real>, lead: seq<seq<real>>): (sums: seq<Summary>)
    requires |lead| == J
    ensures |sums| == J && forall jj :: 0 <= jj < J ==> sums[jj] == Summarize(lib, jj, Detail(t, jj), lead[jj])
  {
    seq(J, jj requires 0 <= jj < J => Summarize(lib, jj, Detail(t, jj), lead[jj]))
  }

  /** `s` without its entry `i`. */
  function Without<T>(s: seq<T>, i: nat): (r: seq<T>)
    requires i < |s|
    ensures |r| == |s| - 1
    ensures forall k :: 0 <= k < |r| ==> r[k] == if k < i then s[k] else s[k + 1]
  {
    s[..i] + s[i + 1..]
  }

  /** `np.delete(f, (4, 4 + j, 4 + 2 * j))`: drops the three entries of scale
      1 from the 27-vector. At 256 samples/s the details of scale 1 cover
      32 to 64 Hz. */
  function DeleteScale1<T>(f: seq<T>): (r: seq<T>)
    requires |f| == 3 + 3 * J
    ensures |r| == 3 * J
    ensures forall k :: 0 <= k < |r| ==>
      r[k] == f[k + (if k < 4 then 0 else if k < 11 then 1 else if k < 18 then 2 else 3)]
  {
    Without(Without(Without(f, 4 + 2 * J), 4 + J), 4)
  }

  /** The counts `b` the regression weighs by. */
  function Counts(sums: seq<Summary>): (b: seq<real>)
    requires |sums| == J
    ensures |b| == J && forall jj :: 0 <= jj < J ==> b[jj] == sums[jj].count as real
  {
    seq(J, jj requires 0 <= jj < J => sums[jj].count as real)
  }

  /** The cumulant matrix `c`, one row per cumulant and one column per scale. */
  function CumulantRows(sums: seq<Summary>): (c: seq<seq<Fp>>)
    requires |sums| == J && forall jj :: 0 <= jj < J ==> |sums[jj].cumulants| == 3
    ensures |c| == 3 && forall r :: 0 <= r < 3 ==> |c[r]| == J
    ensures forall r, jj :: 0 <= r < 3 && 0 <= jj < J ==> c[r][jj] == sums[jj].cumulants[r]
  {
    seq(3, r requires 0 <= r < 3 => seq(J, jj requires 0 <= jj < J => sums[jj].cumulants[r]))
  }

  /** `mwc`: the log-means, then the sums of squares, then the log-stds. */
  function Mwc(sums: seq<Summary>): (m: seq<Fp>)
    requires |sums| == J
    ensures |m| == 3 * J
    ensures forall jj :: 0 <= jj < J ==>
      m[jj] == sums[jj].lnMean && m[jj + J] == Finite(sums[jj].sumSq) && m[jj + 2 * J] == sums[jj].lnStd
  {
    seq(J, jj requires 0 <= jj < J => sums[jj].lnMean)
    + seq(J, jj requires 0 <= jj < J => Finite(sums[jj].sumSq))
    + seq(J, jj requires 0 <= jj < J => sums[jj].lnStd)
  }

  /** The feature vector: the three slopes and `mwc`, without scale 1. */
  function Assemble(lib: MathLib, sums: seq<Summary>): (f: seq<Fp>)
    requires |sums| == J && forall jj :: 0 <= jj < J ==> |sums[jj].cumulants| == 3
    ensures |f| == 3 * J
  {
    DeleteScale1(Regression.Slopes(lib.log2e, Counts(sums), CumulantRows(sums)) + Mwc(sums))
  }

  /** Where a scale lands among the seven scales the output keeps. */
  function Kept7(jj: nat): nat
  {
    if jj == 0 then 0 else jj - 1
  }

  /** The 24 features are the slopes of the three cumulants, then for every
      scale but scale 1, in order, the log-mean of the detail magnitudes, then
      likewise the sums of squares, then the log-stds. */
  lemma FeatureLayout(lib: MathLib, sums: seq<Summary>)
    requires |sums| == J && forall jj :: 0 <= jj < J ==> |sums[jj].cumulants| == 3
    ensures var f := Assemble(lib, sums);
      (forall r :: 0 <= r < 3 ==>
        f[r] == Regression.Slope(lib.log2e, Counts(sums), CumulantRows(sums)[r]))
      && forall jj :: 0 <= jj < J && jj != 1 ==>
        f[3 + Kept7(jj)] == sums[jj].lnMean
        && f[3 + (J - 1) + Kept7(jj)] == Finite(sums[jj].sumSq)
        && f[3 + 2 * (J - 1) + Kept7(jj)] == sums[jj].lnStd
  {
    var sl := Regression.Slopes(lib.log2e, Counts(sums), CumulantRows(sums));
    var m := Mwc(sums);
    var g := sl + m;
    var f := DeleteScale1(g);
    assert f == Assemble(lib, sums);
    forall r | 0 <= r < 3
      ensures f[r] == Regression.Slope(lib.log2e, Counts(sums), CumulantRows(sums)[r])
    {
      assert f[r] == g[r] == sl[r];
    }
    forall jj | 0 <= jj < J && jj != 1
      ensures f[3 + Kept7(jj)] == sums[jj].lnMean
      ensures f[3 + (J - 1) + Kept7(jj)] == Finite(sums[jj].sumSq)
      ensures f[3 + 2 * (J - 1) + Kept7(jj)] == sums[jj].lnStd
    {
      assert f[3 + Kept7(jj)] == g[3 + jj] == m[jj];
      assert f[3 + (J - 1) + Kept7(jj)] == g[3 + J + jj] == m[J + jj];
      assert f[3 + 2 * (J - 1) + Kept7(jj)] == g[3 + 2 * J + jj] == m[2 * J + jj];
    }
  }

  /** The whole of `compute_features` on a segment `x`. */
  function Features(x: seq<real>, lib: MathLib): (r: Result<seq<Fp>>)
    ensures r.Ok? ==> |r.value| == 3 * J
  {
    var t := Truncate(x);
    var p :- LeadersOf(t);
    Ok(Assemble(lib, Summaries(lib, t, p.0)))
  }

  /** `compute_features` raises ValueError exactly when the truncated length
      N satisfies: N = 0 (a segment of fewer than 256 samples), or N / 256
      odd and at least 5 (on the program's 8192-sample epochs, N / 256 = 32,
      and it never raises). */
  lemma FeaturesFail(x: seq<real>, lib: MathLib)
    ensures Features(x, lib).Raise? <==> |x| < 256 || ((|x| / 256) % 2 == 1 && |x| / 256 >= 5)
    ensures Features(x, lib).Raise? ==> Features(x, lib).exc == ValueError
  {
    var t := Truncate(x);
    LeadersFail(t, |x| / 256);
  }

  /** On success, scale jj weighs in with the number of leaders its trim
      keeps from a segment of 256k samples. */
  lemma FeatureCounts(x: seq<real>, lib: MathLib, jj: nat)
    requires jj < J && Features(x, lib).Ok?
    ensures var t := Truncate(x);
      LeadersOf(t).Ok? && |LeadersOf(t).value.0| == J
      && Summaries(lib, t, LeadersOf(t).value.0)[jj].count == KeptAtScale(|x| / 256, jj)
  {
    var t := Truncate(x);
    var k := |x| / 256;
    var ds := Details(t);
    DetailsHalve(t, k);
    CascadeLeaders(ds, Zeros(|t| / 2), jj);
    DetailLength(t, k, jj);
    TrimOffsets(LeadersOf(t).value.0[jj], jj);
  }

  /** With a segment of at least 1792 samples, every scale keeps leaders and
      the regression's denominator is positive; the three slopes are then
      finite whenever the cumulants of scales 1..5 are. */
  lemma RegressionWellPosed(k: nat)
    requires k >= 7
    ensures Regression.Denominator(seq(J, jj requires 0 <= jj < J => KeptAtScale(k, jj) as real)) > 0.0
  {
    var b := seq(J, jj requires 0 <= jj < J => KeptAtScale(k, jj) as real);
    KeptPositive(k);
    assert b[1] > 0.0 && b[2] > 0.0;
    Regression.DenominatorPositive(b);
  }

  /** Where the loop keeps what scale s contributed. */
  predicate Stored(c: array2<Fp>, b: array<real>, mwc: array<Fp>, s: nat, sm: Summary)
    reads c, b, mwc
  {
    c.Length0 == 3 && c.Length1 == J && b.Length == J && mwc.Length == 3 * J && s < J
    && MomentsAt(mwc, s, sm) && CumulantsAt(c, b, s, sm)
  }

  /** `mwc[s]`, `mwc[s + j]` and `mwc[s + 2j]` hold the moments of scale s. */
  predicate MomentsAt(mwc: array<Fp>, s: nat, sm: Summary)
    reads mwc
  {
    mwc.Length == 3 * J && s < J
    && mwc[s] == sm.lnMean && mwc[s + J] == Finite(sm.sumSq) && mwc[s + 2 * J] == sm.lnStd
  }

  /** `c[:, s]` and `b[s]` hold the cumulants and the count of scale s. */
  predicate CumulantsAt(c: array2<Fp>, b: array<real>, s: nat, sm: Summary)
    reads c, b
  {
    c.Length0 == 3 && c.Length1 == J && b.Length == J && s < J && |sm.cumulants| == 3
    && c[0, s] == sm.cumulants[0] && c[1, s] == sm.cumulants[1] && c[2, s] == sm.cumulants[2]
    && b[s] == sm.count as real
  }

  /** The cumulant matrix as the arrays hold it. */
  function CumulantArray(c: array2<Fp>): (cs: seq<seq<Fp>>)
    requires c.Length0 == 3 && c.Length1 == J
    reads c
    ensures |cs| == 3 && forall r :: 0 <= r < 3 ==> |cs[r]| == J
    ensures forall r, jj :: 0 <= r < 3 && 0 <= jj < J ==> cs[r][jj] == c[r, jj]
  {
    [CumulantRow(c, 0), CumulantRow(c, 1), CumulantRow(c, 2)]
  }

  /** Row r of the cumulant array. */
  function CumulantRow(c: array2<Fp>, r: nat): (row: seq<Fp>)
    requires c.Length0 == 3 && c.Length1 == J && r < 3
    reads c
    ensures |row| == J && forall jj :: 0 <= jj < J ==> row[jj] == c[r, jj]
  {
    seq(J, jj requires 0 <= jj < J reads c => c[r, jj])
  }

  /** Once every scale is stored, the arrays hold `b`, `c` and `mwc` of the
      summaries. */
  lemma StoredAll(c: array2<Fp>, b: array<real>, mwc: array<Fp>, sums: seq<Summary>)
    requires c.Length0 == 3 && c.Length1 == J && b.Length == J && mwc.Length == 3 * J && |sums| == J
    requires forall s :: 0 <= s < J ==> |sums[s].cumulants| == 3 && Stored(c, b, mwc, s, sums[s])
    ensures b[..] == Counts(sums)
    ensures CumulantArray(c) == CumulantRows(sums)
    ensures mwc[..] == Mwc(sums)
  {
    var m := Mwc(sums);
    forall i | 0 <= i < 3 * J
      ensures mwc[i] == m[i]
    {
      if i < J {
        assert Stored(c, b, mwc, i, sums[i]);
      } else if i < 2 * J {
        assert Stored(c, b, mwc, i - J, sums[i - J]);
      } else {
        assert Stored(c, b, mwc, i - 2 * J, sums[i - 2 * J]);
      }
    }
    var cs, rows := CumulantArray(c), CumulantRows(sums);
    forall r | 0 <= r < 3
      ensures cs[r] == rows[r]
    {
      forall jj | 0 <= jj < J
        ensures cs[r][jj] == rows[r][jj]
      {
        assert Stored(c, b, mwc, jj, sums[jj]);
      }
    }
  }

  /** The filters of one pass of the loop: the details
      `lfilter(h, 1, x)[::2]` of scale jj, and the next approximation
      `lfilter(lx, 1, x)[::2]`. The first filter raises ValueError when `x`
      is empty, which happens exactly when the segment is. */
  method FilterBank(ghost t: seq<real>, ghost jj: nat, x: seq<real>)
    returns (e: Option<Exception>, d: seq<real>, next: seq<real>)
    requires x == Approx(t, jj)
    ensures e.Some? <==> |t| == 0
    ensures e == Some(ValueError) || e == None
    ensures d == Detail(t, jj) && next == Approx(t, jj + 1)
  {
    ApproxEmpty(t, jj);
    d := Stride(Lfilter(Hx, x), 2);
    next := Stride(Lfilter(Lx, x), 2);
    e := if |x| == 0 then Some(ValueError) else None;
  }

  /** The leader part of one pass of the loop: `np.maximum` of the three
      neighbours and the inherited `laa`, then the next `laa`. A failure ends
      the whole recursion with its error; a success extends it by one scale. */
  method NextLeaders(ghost ds: seq<seq<real>>, ghost laa0: seq<real>, ghost n: nat, ghost lead: seq<seq<real>>,
                     d: seq<real>, laa: seq<real>) returns (step: Result<Step>)
    requires n < |ds| && ds[n] == d && Cascade(ds, laa0, n) == Ok((lead, laa))
    ensures step.Raise? ==> Cascade(ds, laa0, |ds|) == Raise(step.exc)
    ensures step.Ok? ==> Cascade(ds, laa0, n + 1) == Ok((lead + [step.value.leaders], step.value.next))
  {
    step := LeaderStep(d, laa);
    CascadeLast(ds, laa0, n + 1);
    if step.Raise? {
      CascadeFailureStays(ds, laa0, n + 1, |ds|);
    }
  }

  /** A successful recursion over the eight scales gives the features of the
      summaries. */
  lemma FeaturesOk(x: seq<real>, lib: MathLib, lead: seq<seq<real>>, laa: seq<real>)
    requires LeadersOf(Truncate(x)) == Ok((lead, laa)) && |lead| == J
    ensures Features(x, lib) == Ok(Assemble(lib, Summaries(lib, Truncate(x), lead)))
  {
  }

  /** The summaries the loop collects scale by scale are those of the
      specification. */
  lemma SummariesOfDetails(lib: MathLib, t: seq<real>, lead: seq<seq<real>>)
    requires |lead| == J
    ensures SummariesOf(lib, Details(t), lead) == Summaries(lib, t, lead)
  {
    var a, b := SummariesOf(lib, Details(t), lead), Summaries(lib, t, lead);
    forall s | 0 <= s < J
      ensures a[s] == b[s]
    {
    }
  }

  /** A failed recursion is the error of the features. */
  lemma FeaturesRaise(x: seq<real>, lib: MathLib, e: Exception)
    requires LeadersOf(Truncate(x)) == Raise(e)
    ensures Features(x, lib) == Raise(e)
  {
  }

  /** The summary part of one pass of the loop: `mm`, `mwc[jj]`,
      `mwc[jj + j]`, `mwc[jj + 2j]`, the trim of the leaders, the moments of
      their logs, `c[:, jj]` and `b[jj]`. What the earlier scales `done`
      stored stays. */
  method StoreScale(c: array2<Fp>, b: array<real>, mwc: array<Fp>, lib: MathLib, jj: nat, d: seq<real>, lea: seq<real>,
                    ghost done: seq<Summary>)
    requires c.Length0 == 3 && c.Length1 == J && b.Length == J && mwc.Length == 3 * J && jj < J
    requires |done| == jj && forall s :: 0 <= s < jj ==> Stored(c, b, mwc, s, done[s])
    modifies c, b, mwc
    ensures forall s :: 0 <= s < jj ==> Stored(c, b, mwc, s, done[s])
    ensures Stored(c, b, mwc, jj, Summarize(lib, jj, d, lea))
  {
    var mm := Magnitudes(Trim(d, jj));
    var kept := Trim(lea, jj);
    var le := LnAll(lib, kept);
    var u1 := MeanFp(le);
    var u2 := MeanFp(Squares(le));
    var u3 := MeanFp(Cubes(le));
    var cs := [u1, Sub(u2, Mul(u1, u1)), Add(Sub(u3, Mul(Scale(3.0, u1), u2)), Scale(2.0, Mul(Mul(u1, u1), u1)))];
    var sm := Summary(Ln(lib, Mean(mm)), SumSq(mm), Ln(lib, Std(lib, mm)), cs, |kept|);
    assert sm == Summarize(lib, jj, d, lea);
    WriteMoments(mwc, jj, sm, done);
    WriteCumulants(c, b, jj, sm, done);
  }

  /** `c[:, jj]` and `b[jj]`; the cells of the earlier scales stay. */
  method WriteCumulants(c: array2<Fp>, b: array<real>, jj: nat, sm: Summary, ghost done: seq<Summary>)
    requires c.Length0 == 3 && c.Length1 == J && b.Length == J && jj < J && |sm.cumulants| == 3
    requires |done| == jj && forall s :: 0 <= s < jj ==> CumulantsAt(c, b, s, done[s])
    modifies c, b
    ensures CumulantsAt(c, b, jj, sm)
    ensures forall s :: 0 <= s < jj ==> CumulantsAt(c, b, s, done[s])
  {
    c[0, jj] := sm.cumulants[0];
    c[1, jj] := sm.cumulants[1];
    c[2, jj] := sm.cumulants[2];
    b[jj] := sm.count as real;
  }

  /** `mwc[jj]`, `mwc[jj + j]` and `mwc[jj + 2j]`; the cells of the earlier
      scales stay. */
  method WriteMoments(mwc: array<Fp>, jj: nat, sm: Summary, ghost done: seq<Summary>)
    requires mwc.Length == 3 * J && jj < J
    requires |done| == jj && forall s :: 0 <= s < jj ==> MomentsAt(mwc, s, done[s])
    modifies mwc
    ensures MomentsAt(mwc, jj, sm)
    ensures forall s :: 0 <= s < jj ==> MomentsAt(mwc, s, done[s])
  {
    mwc[jj] := sm.lnMean;
    mwc[jj + J] := Finite(sm.sumSq);
    mwc[jj + 2 * J] := sm.lnStd;
  }

  /** The summaries of the scales the recursion has reached, from their
      details `ds` and leaders `lead`. */
  function SummariesOf(lib: MathLib, ds: seq<seq<real>>, lead: seq<seq<real>>): (sums: seq<Summary>)
    requires |lead| <= |ds|
    ensures |sums| == |lead|
  {
    seq(|lead|, s requires 0 <= s < |lead| => Summarize(lib, s, ds[s], lead[s]))
  }

  /** One more scale appends its summary. */
  lemma SummariesOfSnoc(lib: MathLib, ds: seq<seq<real>>, lead: seq<seq<real>>, l: seq<real>)
    requires |lead| < |ds|
    ensures SummariesOf(lib, ds, lead + [l]) == SummariesOf(lib, ds, lead) + [Summarize(lib, |lead|, ds[|lead|], l)]
  {
    var a, b := SummariesOf(lib, ds, lead + [l]), SummariesOf(lib, ds, lead) + [Summarize(lib, |lead|, ds[|lead|], l)];
    assert |a| == |b|;
    forall s | 0 <= s < |a|
      ensures a[s] == b[s]
    {
      if s < |lead| {
        assert (lead + [l])[s] == lead[s];
      }
    }
  }

  /** One pass of the loop over the scales, at scale jj: the filter bank,
      the leaders, and the summary stored in `c`, `b` and `mwc`. A failed
      leader step is the error of the whole recursion; otherwise the
      recursion and the stored summaries reach one scale further. */
  method ScaleStep(t: seq<real>, lib: MathLib, c: array2<Fp>, b: array<real>, mwc: array<Fp>, jj: nat,
                   x: seq<real>, laa: seq<real>, ghost lead: seq<seq<real>>, ghost done: seq<Summary>)
    returns (step: Result<Step>, next: seq<real>, ghost done': seq<Summary>)
    requires c.Length0 == 3 && c.Length1 == J && b.Length == J && mwc.Length == 3 * J && jj < J
    requires x == Approx(t, jj)
    requires Cascade(Details(t), Zeros(|t| / 2), jj) == Ok((lead, laa)) && |lead| == jj && |done| == jj
    requires done == SummariesOf(lib, Details(t), lead)
    requires forall s :: 0 <= s < jj ==> Stored(c, b, mwc, s, done[s])
    modifies c, b, mwc
    ensures next == Approx(t, jj + 1)
    ensures step.Ok? ==> |t| > 0
    ensures step.Raise? ==> LeadersOf(t) == Raise(step.exc)
    ensures step.Ok? ==> Cascade(Details(t), Zeros(|t| / 2), jj + 1) == Ok((lead + [step.value.leaders], step.value.next))
    ensures step.Ok? ==> done' == SummariesOf(lib, Details(t), lead + [step.value.leaders]) && |done'| == jj + 1
    ensures step.Ok? ==> forall s :: 0 <= s < jj + 1 ==> Stored(c, b, mwc, s, done'[s])
  {
    ghost var ds := Details(t);
    var e, lea;
    e, lea, next := FilterBank(t, jj, x);
    done' := done;
    if e.Some? {
      return Raise(e.value), next, done';
    }
    step := NextLeaders(ds, Zeros(|t| / 2), jj, lead, lea, laa);
    if step.Ok? {
      done' := RecordScale(c, b, mwc, lib, jj, lea, ds, lead, step.value.leaders, done);
    }
  }

  /** The summary of scale jj = |lead| stored after those of the earlier
      scales. */
  method RecordScale(c: array2<Fp>, b: array<real>, mwc: array<Fp>, lib: MathLib, jj: nat, d: seq<real>,
                     ghost ds: seq<seq<real>>, ghost lead: seq<seq<real>>, leaders: seq<real>, ghost done: seq<Summary>)
    returns (ghost done': seq<Summary>)
    requires c.Length0 == 3 && c.Length1 == J && b.Length == J && mwc.Length == 3 * J
    requires jj == |lead| < J == |ds| && d == ds[jj] && |done| == jj && done == SummariesOf(lib, ds, lead)
    requires forall s :: 0 <= s < |lead| ==> Stored(c, b, mwc, s, done[s])
    modifies c, b, mwc
    ensures done' == SummariesOf(lib, ds, lead + [leaders]) && |done'| == |lead| + 1
    ensures forall s :: 0 <= s < |lead| + 1 ==> Stored(c, b, mwc, s, done'[s])
  {
    StoreScale(c, b, mwc, lib, jj, d, leaders, done);
    SummariesOfSnoc(lib, ds, lead, leaders);
    StoredSnoc(c, b, mwc, done, Summarize(lib, jj, d, leaders));
    done' := done + [Summarize(lib, jj, d, leaders)];
  }

  /** The scales stored so far, and one more. */
  lemma StoredSnoc(c: array2<Fp>, b: array<real>, mwc: array<Fp>, done: seq<Summary>, sm: Summary)
    requires forall s :: 0 <= s < |done| ==> Stored(c, b, mwc, s, done[s])
    requires Stored(c, b, mwc, |done|, sm)
    ensures forall s :: 0 <= s < |done| + 1 ==> Stored(c, b, mwc, s, (done + [sm])[s])
  {
  }

  /** The loop over the scales of `compute_features` on the truncated
      segment `t`: reassigns `x` and `laa`, and writes column jj of `c`, entry
      jj of `b` and entries jj, jj + 8, jj + 16 of `mwc`. It stops with the
      error of a failed leader step, which is then the error of the whole
      recursion; otherwise the recursion succeeds with `lead`, and the arrays
      hold the summaries of its scales. */
  method FillScales(t: seq<real>, lib: MathLib, c: array2<Fp>, b: array<real>, mwc: array<Fp>)
    returns (e: Option<Exception>, ghost lead: seq<seq<real>>, ghost done: seq<Summary>)
    requires c.Length0 == 3 && c.Length1 == J && b.Length == J && mwc.Length == 3 * J
    modifies c, b, mwc
    ensures e.Some? ==> LeadersOf(t) == Raise(e.value)
    ensures e.None? ==> LeadersOf(t).Ok? && |lead| == J && |done| == J
    ensures e.None? ==> LeadersOf(t).value.0 == lead
    ensures e.None? ==> done == SummariesOf(lib, Details(t), lead)
    ensures e.None? ==> forall s :: 0 <= s < J ==> Stored(c, b, mwc, s, done[s])
  {
    var x := t;
    var laa := Zeros(|t| / 2);
    lead, done := [], [];
    for jj := 0 to J
      invariant x == Approx(t, jj)
      invariant jj > 0 ==> |t| > 0
      invariant Cascade(Details(t), Zeros(|t| / 2), jj) == Ok((lead, laa)) && |lead| == jj && |done| == jj
      invariant done == SummariesOf(lib, Details(t), lead)
      invariant forall s :: 0 <= s < jj ==> Stored(c, b, mwc, s, done[s])
    {
      var step;
      step, x, done := ScaleStep(t, lib, c, b, mwc, jj, x, laa, lead, done);
      if step.Raise? {
        return Some(step.exc), lead, done;
      }
      laa := step.value.next;
      lead := lead + [step.value.leaders];
    }
    e := None;
  }

  /** `compute_features` as the program runs it: the truncation, the arrays
      `c`, `b` and `mwc`, the loop over the scales, then the regression and
      the deletion of scale 1. */
  method ComputeFeatures(x0: seq<real>, lib: MathLib) returns (r: Result<seq<Fp>>)
    ensures r == Features(x0, lib)
  {
    var x := Truncate(x0);
    var c := new Fp[3, J]((i, k) => Finite(0.0));
    var b := new real[J](i => 1.0);
    var mwc := new Fp[3 * J](i => Finite(0.0));
    var e, lead, done := FillScales(x, lib, c, b, mwc);
    if e.Some? {
      FeaturesRaise(x0, lib, e.value);
      return Raise(e.value);
    }
    StoredAll(c, b, mwc, done);
    SummariesOfDetails(lib, x, lead);
    FeaturesOk(x0, lib, lead, LeadersOf(x).value.1);
    r := Ok(DeleteScale1(Regression.Slopes(lib.log2e, b[..], CumulantArray(c)) + mwc[..]));
  }
}
