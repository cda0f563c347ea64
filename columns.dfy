/** One (channel, feature) column of the feature tensor across epochs, and
    the four steps the post-processing loop of the feature script
    (sleep_features_v2.py) applies to it: the outlier fence on a detrended
    copy, the 3-point smoothing, the z-score and the discriminability score.
    A missing entry is `NonFinite`; after the first pass of the script has
    turned every infinity into NaN, a missing entry is exactly a NaN. The
    NumPy masking `f[~np.isnan(f)]` is `Present`, and the masked assignment
    `f[~in_nan] = w` is `Scatter`. */
module Columns {
  import opened Numerics
  import opened Outcomes
  import opened Dsp
  import Sorting

  /** `f[~np.isnan(f)]`: the values that are not missing, in order. */
  function Present(f: seq<Fp>): (v: seq<real>)
    ensures |v| <= |f|
  {
    if |f| == 0 then []
    else if f[0].NonFinite? then Present(f[1..])
    else [f[0].v] + Present(f[1..])
  }

  /** How many values are present before position i. */
  function Rank(f: seq<Fp>, i: nat): nat
    requires i <= |f|
  {
    |Present(f[..i])|
  }

  /** The values of v as doubles. */
  function Finites(v: seq<real>): (w: seq<Fp>)
    ensures |w| == |v| && forall k :: 0 <= k < |v| ==> w[k] == Finite(v[k])
  {
    seq(|v|, k requires 0 <= k < |v| => Finite(v[k]))
  }

  /** `f[~in_nan] = w`: the entries of w, in order, go to the positions of
      f that hold a value; the missing positions stay missing. */
  function Scatter(f: seq<Fp>, w: seq<Fp>): (r: seq<Fp>)
    requires |w| == |Present(f)|
    ensures |r| == |f|
  {
    if |f| == 0 then []
    else if f[0].NonFinite? then [NonFinite] + Scatter(f[1..], w)
    else [w[0]] + Scatter(f[1..], w[1..])
  }

  /** The value at a present position i is entry `Rank(f, i)` of the
      compacted values. */
  lemma {:induction false} PresentAt(f: seq<Fp>, i: nat)
    requires i < |f| && f[i].Finite?
    ensures Rank(f, i) < |Present(f)| && Present(f)[Rank(f, i)] == f[i].v
  {
    if i > 0 {
      assert f[..i][1..] == f[1..][..i - 1];
      PresentAt(f[1..], i - 1);
    }
  }

  /** Position i of the scattered column: missing where f is missing,
      otherwise entry `Rank(f, i)` of w. */
  lemma {:induction false} ScatterAt(f: seq<Fp>, w: seq<Fp>, i: nat)
    requires |w| == |Present(f)| && i < |f|
    ensures f[i].NonFinite? ==> Scatter(f, w)[i] == NonFinite
    ensures f[i].Finite? ==> Rank(f, i) < |w| && Scatter(f, w)[i] == w[Rank(f, i)]
  {
    PresentLength(f, i);
    if i > 0 {
      assert f[..i][1..] == f[1..][..i - 1];
      if f[0].NonFinite? {
        ScatterAt(f[1..], w, i - 1);
      } else {
        ScatterAt(f[1..], w[1..], i - 1);
      }
    }
  }

  /** Fewer values are present before i than in all of f, and one fewer
      when position i itself holds one. */
  lemma {:induction false} PresentLength(f: seq<Fp>, i: nat)
    requires i < |f|
    ensures Rank(f, i) + (if f[i].Finite? then 1 else 0) <= |Present(f)|
  {
    if i > 0 {
      assert f[..i][1..] == f[1..][..i - 1];
      PresentLength(f[1..], i - 1);
    }
  }

  /** Writing the present values back where they came from changes nothing. */
  lemma {:induction false} ScatterPresent(f: seq<Fp>)
    ensures Scatter(f, Finites(Present(f))) == f
  {
    if |f| > 0 {
      ScatterPresent(f[1..]);
      if f[0].Finite? {
        assert Finites(Present(f))[1..] == Finites(Present(f[1..]));
      }
    }
  }

  /** The values scattered into a column are what the column then holds. */
  lemma {:induction false} PresentScatter(f: seq<Fp>, v: seq<real>)
    requires |v| == |Present(f)|
    ensures Present(Scatter(f, Finites(v))) == v
  {
    if |f| > 0 {
      var r := Scatter(f, Finites(v));
      if f[0].NonFinite? {
        PresentScatter(f[1..], v);
        assert r[1..] == Scatter(f[1..], Finites(v));
      } else {
        assert Finites(v)[1..] == Finites(v[1..]);
        PresentScatter(f[1..], v[1..]);
        assert r[1..] == Scatter(f[1..], Finites(v[1..]));
      }
    }
  }

  /** Scattering values keeps the missing positions exactly where they were. */
  lemma ScatterMissing(f: seq<Fp>, v: seq<real>)
    requires |v| == |Present(f)|
    ensures forall i :: 0 <= i < |f| ==> (Scatter(f, Finites(v))[i].NonFinite? <==> f[i].NonFinite?)
  {
    forall i | 0 <= i < |f|
      ensures Scatter(f, Finites(v))[i].NonFinite? <==> f[i].NonFinite?
    {
      ScatterAt(f, Finites(v), i);
    }
  }

  // ----- outlier fence (lines 109-119) -----

  /** `v - np.convolve(v, np.ones(10), 'same') / 10`. `np.convolve` refuses
      an empty v; with 1 to 9 values the convolution has 10 entries, which
      the subtraction cannot broadcast against 2 to 9 values and which the
      masked assignment of line 117 cannot fit into 1 value: ValueError
      either way. */
  function Detrend(v: seq<real>): (r: Result<seq<real>>)
    ensures r.Ok? <==> |v| >= 10
    ensures r.Raise? ==> r.exc == ValueError
    ensures r.Ok? ==> |r.value| == |v|
  {
    var c :- ConvSameOnes(v, 10);
    if |v| < 10 then Raise(ValueError)
    else Ok(seq(|v|, i requires 0 <= i < |v| => v[i] - c[i] / 10.0))
  }

  /** Where the 10-sample window lies inside v, the detrended value is the
      value minus the mean of the window `v[i-5 .. i+4]`; so a stretch of
      equal values detrends to zero. */
  lemma DetrendInterior(v: seq<real>, i: int)
    requires |v| >= 10 && 5 <= i <= |v| - 5
    ensures Detrend(v).value[i] == v[i] - WindowSum(v, i - 5, i + 5) / 10.0
  {
  }

  lemma DetrendConstant(v: seq<real>, x: real, i: int)
    requires |v| >= 10 && 5 <= i <= |v| - 5
    requires forall k :: 0 <= k < |v| ==> v[k] == x
    ensures Detrend(v).value[i] == 0.0
  {
    WindowSumConstant(v, x, i - 5, i + 5);
  }

  lemma {:induction false} WindowSumConstant(v: seq<real>, x: real, lo: int, hi: int)
    requires 0 <= lo <= hi <= |v|
    requires forall k :: 0 <= k < |v| ==> v[k] == x
    ensures WindowSum(v, lo, hi) == (hi - lo) as real * x
    decreases hi - lo
  {
    if lo < hi {
      WindowSumConstant(v, x, lo, hi - 1);
      var n := (hi - 1 - lo) as real;
      assert WindowSum(v, lo, hi) == n * x + x;
      assert (hi - lo) as real == n + 1.0;
      assert (n + 1.0) * x == n * x + x;
    }
  }

  /** The order `np.sort` puts reals in. */
  function RealLe(a: real, b: real): bool {
    a <= b
  }

  /** The indices `round(0.25 * n)` and `round(0.75 * n)` of line 114. */
  function LowerIndex(n: nat): int {
    RoundHalfEven(0.25 * n as real)
  }

  function UpperIndex(n: nat): int {
    RoundHalfEven(0.75 * n as real)
  }

  /** Both quartile indices are valid exactly when at least 3 values are
      present (round-half-to-even sends 0.75 and 1.5 to 1 and 2), and the
      lower one never passes the upper one. */
  lemma QuartileIndexValid(n: nat)
    ensures 0 <= LowerIndex(n) <= UpperIndex(n)
    ensures UpperIndex(n) < n <==> n >= 3
  {
    var lo, hi := LowerIndex(n), UpperIndex(n);
    assert 0.25 * n as real - 0.5 <= lo as real <= 0.25 * n as real + 0.5;
    assert 0.75 * n as real - 0.5 <= hi as real <= 0.75 * n as real + 0.5;
  }

  /** Q1 and Q3 of the sorted detrended values; Q1 never exceeds Q3. */
  function Quartiles(d: seq<real>): (q: (real, real))
    requires |d| >= 3
    ensures q.0 <= q.1
  {
    var s := Sorting.Sort(d, RealLe);
    QuartileIndexValid(|s|);
    RealOrder();
    Sorting.SortIsSorted(d, RealLe);
    assert LowerIndex(|s|) < UpperIndex(|s|);
    assert RealLe(s[LowerIndex(|s|)], s[UpperIndex(|s|)]);
    (s[LowerIndex(|s|)], s[UpperIndex(|s|)])
  }

  lemma RealOrder()
    ensures Sorting.Total(RealLe) && Sorting.Transitive(RealLe)
  {
  }

  /** The fence of line 117: below Q1 - 2.5 IQR or above Q3 + 2.5 IQR. */
  predicate OutsideFence(x: real, q: (real, real)) {
    x < q.0 - 2.5 * (q.1 - q.0) || x > q.1 + 2.5 * (q.1 - q.0)
  }

  /** Every value from Q1 to Q3 is inside the fence. */
  lemma QuartileRangeKept(x: real, d: seq<real>)
    requires |d| >= 3
    requires Quartiles(d).0 <= x <= Quartiles(d).1
    ensures !OutsideFence(x, Quartiles(d))
  {
  }

  /** Lines 109-119: the column with every value whose detrended copy lies
      outside the fence made missing. */
  function Outliers(f: seq<Fp>): (r: Result<seq<Fp>>)
    ensures r.Ok? <==> |Present(f)| >= 10
    ensures r.Raise? ==> r.exc == ValueError
    ensures r.Ok? ==> |r.value| == |f|
  {
    var v := Present(f);
    var d :- Detrend(v);
    var q := Quartiles(d);
    Ok(Scatter(f, seq(|v|, k requires 0 <= k < |v| => if OutsideFence(d[k], q) then NonFinite else Finite(v[k]))))
  }

  /** The outlier step only adds missing markers: a missing entry stays
      missing and an entry that is not made missing keeps its value. */
  lemma OutliersOnlyAdd(f: seq<Fp>)
    requires |Present(f)| >= 10
    ensures forall i :: 0 <= i < |f| && f[i].NonFinite? ==> Outliers(f).value[i].NonFinite?
    ensures forall i :: 0 <= i < |f| && Outliers(f).value[i].Finite? ==> Outliers(f).value[i] == f[i]
  {
    forall i | 0 <= i < |f|
      ensures f[i].NonFinite? ==> Outliers(f).value[i].NonFinite?
      ensures Outliers(f).value[i].Finite? ==> Outliers(f).value[i] == f[i]
    {
      OutliersAt(f, i);
      if f[i].Finite? {
        PresentAt(f, i);
      }
    }
  }

  /** A present value becomes missing exactly when its detrended copy lies
      outside the fence. */
  lemma OutliersFence(f: seq<Fp>, i: nat)
    requires |Present(f)| >= 10 && i < |f| && f[i].Finite?
    ensures var d := Detrend(Present(f)).value;
      Rank(f, i) < |d|
      && (Outliers(f).value[i].NonFinite? <==> OutsideFence(d[Rank(f, i)], Quartiles(d)))
  {
    OutliersAt(f, i);
  }

  lemma OutliersAt(f: seq<Fp>, i: nat)
    requires |Present(f)| >= 10 && i < |f|
    ensures f[i].NonFinite? ==> Outliers(f).value[i] == NonFinite
    ensures var v := Present(f); var d := Detrend(v).value;
      f[i].Finite? ==>
        (Rank(f, i) < |v| &&
         Outliers(f).value[i] == if OutsideFence(d[Rank(f, i)], Quartiles(d)) then NonFinite else Finite(v[Rank(f, i)]))
  {
    var v := Present(f);
    var d := Detrend(v).value;
    var q := Quartiles(d);
    var w := seq(|v|, k requires 0 <= k < |v| => if OutsideFence(d[k], q) then NonFinite else Finite(v[k]));
    assert Outliers(f).value == Scatter(f, w);
    ScatterAt(f, w, i);
  }

  // ----- smoothing (lines 122-127) -----

  /** Lines 122-127: the present values replaced, in order, by
      `np.convolve(v, np.ones(3), 'same') / 3` of the compacted values v and
      written back through the mask. `np.convolve` refuses an empty v; one or
      two values give a 3-entry result that the masked assignment cannot fit
      (ValueError). */
  function Smooth(f: seq<Fp>): (r: Result<seq<Fp>>)
    ensures r.Ok? <==> |Present(f)| >= 3
    ensures r.Raise? ==> r.exc == ValueError
    ensures r.Ok? ==> |r.value| == |f|
  {
    var v := Present(f);
    var c :- ConvSameOnes(v, 3);
    if |c| != |v| then Raise(ValueError)
    else Ok(Scatter(f, Finites(seq(|v|, k requires 0 <= k < |v| => c[k] / 3.0))))
  }

  /** Smoothing leaves the missing positions exactly as they were. */
  lemma SmoothMissing(f: seq<Fp>)
    requires |Present(f)| >= 3
    ensures forall i :: 0 <= i < |f| ==> (Smooth(f).value[i].NonFinite? <==> f[i].NonFinite?)
  {
    var v := Present(f);
    var c := ConvSameOnes(v, 3).value;
    ScatterMissing(f, seq(|v|, k requires 0 <= k < |v| => c[k] / 3.0));
  }

  /** After smoothing, the present values are, in order, the 3-point means
      of the values present before, with zeros beyond both ends. */
  lemma SmoothAverage(f: seq<Fp>)
    requires |Present(f)| >= 3
    ensures var v := Present(f); var p := Present(Smooth(f).value);
      |p| == |v| && forall k :: 0 <= k < |v| ==> p[k] == (At(v, k - 1) + At(v, k) + At(v, k + 1)) / 3.0
  {
    var v := Present(f);
    var c := ConvSameOnes(v, 3).value;
    var a := seq(|v|, k requires 0 <= k < |v| => c[k] / 3.0);
    PresentScatter(f, a);
    forall k | 0 <= k < |v|
      ensures a[k] == (At(v, k - 1) + At(v, k) + At(v, k + 1)) / 3.0
    {
      assert c[k] == WindowSum(v, k - 1, k + 2);
      assert WindowSum(v, k - 1, k + 2) == WindowSum(v, k - 1, k + 1) + At(v, k + 1);
      assert WindowSum(v, k - 1, k + 1) == WindowSum(v, k - 1, k) + At(v, k);
      assert WindowSum(v, k - 1, k) == WindowSum(v, k - 1, k - 1) + At(v, k - 1);
    }
  }

  // ----- z-score (lines 130-132) -----

  /** `np.any(f)`: some entry is nonzero, and NaN counts as nonzero. */
  predicate AnySet(f: seq<Fp>) {
    exists i :: 0 <= i < |f| && (f[i].NonFinite? || f[i].v != 0.0)
  }

  /** `np.any(f)` is false exactly for a column of zeros. */
  lemma AnySetZeros(f: seq<Fp>)
    ensures !AnySet(f) <==> forall i :: 0 <= i < |f| ==> f[i] == Finite(0.0)
  {
  }

  /** `f[night]`: the entries at the epochs flagged night, in order. */
  function Masked(f: seq<Fp>, night: seq<bool>): (r: seq<Fp>)
    requires |night| == |f|
    ensures |r| <= |f|
  {
    if |f| == 0 then []
    else (if night[0] then [f[0]] else []) + Masked(f[1..], night[1..])
  }

  /** With every epoch flagged night the mask selects the whole column. */
  lemma {:induction false} MaskedAll(f: seq<Fp>, night: seq<bool>)
    requires |night| == |f| && forall e :: 0 <= e < |night| ==> night[e]
    ensures Masked(f, night) == f
  {
    if |f| > 0 {
      MaskedAll(f[1..], night[1..]);
    }
  }

  /** `np.nanmean` and `np.nanstd` of `f[night]`: the mean and the standard
      deviation of the values present there, NaN when there are none. */
  function NightMean(f: seq<Fp>, night: seq<bool>): (m: Fp)
    requires |night| == |f|
    ensures m.Finite? <==> |Present(Masked(f, night))| > 0
  {
    Mean(Present(Masked(f, night)))
  }

  function NightStd(lib: MathLib, f: seq<Fp>, night: seq<bool>): (s: Fp)
    requires |night| == |f|
    ensures s.Finite? <==> |Present(Masked(f, night))| > 0
  {
    Std(lib, Present(Masked(f, night)))
  }

  /** Lines 130-132: when `np.any(f)`, every entry becomes `(f - mean) / std`
      over the night values; otherwise the column is left as it is. The
      boolean mask must be as long as the column (IndexError). */
  function Normalize(lib: MathLib, f: seq<Fp>, night: seq<bool>): (r: Result<seq<Fp>>)
    ensures r.Raise? <==> AnySet(f) && |night| != |f|
    ensures r.Raise? ==> r.exc == IndexError
    ensures r.Ok? ==> |r.value| == |f|
    ensures !AnySet(f) ==> r == Ok(f)
  {
    if !AnySet(f) then Ok(f)
    else if |night| != |f| then Raise(IndexError)
    else
      var m, s := NightMean(f, night), NightStd(lib, f, night);
      Ok(seq(|f|, i requires 0 <= i < |f| => Div(Sub(f[i], m), s)))
  }

  /** With a finite, nonzero deviation the z-score keeps the missing
      positions and maps every present value x to (x - mean) / std. */
  lemma NormalizeApplied(lib: MathLib, f: seq<Fp>, night: seq<bool>)
    requires AnySet(f) && |night| == |f|
    requires NightStd(lib, f, night).Finite? && NightStd(lib, f, night).v != 0.0
    ensures var r := Normalize(lib, f, night).value;
      var m, s := NightMean(f, night).v, NightStd(lib, f, night).v;
      forall i :: 0 <= i < |f| ==>
        (r[i].NonFinite? <==> f[i].NonFinite?) && (f[i].Finite? ==> r[i].v == (f[i].v - m) / s)
  {
  }

  /** With no night value present, or a zero deviation, every entry becomes
      missing. */
  lemma NormalizeDegenerate(lib: MathLib, f: seq<Fp>, night: seq<bool>)
    requires AnySet(f) && |night| == |f|
    requires NightStd(lib, f, night).NonFinite? || NightStd(lib, f, night).v == 0.0
    ensures forall i :: 0 <= i < |f| ==> Normalize(lib, f, night).value[i].NonFinite?
  {
  }

  /** `(v - m) / s` for every value of v. */
  function ZScores(v: seq<real>, m: real, s: real): (z: seq<real>)
    requires s != 0.0
    ensures |z| == |v|
  {
    seq(|v|, k requires 0 <= k < |v| => (v[k] - m) / s)
  }

  /** The present values of the z-scored column are the z-scores of the
      present values. */
  lemma {:induction false} PresentZScores(f: seq<Fp>, m: real, s: real)
    requires s != 0.0
    ensures Present(seq(|f|, i requires 0 <= i < |f| => Div(Sub(f[i], Finite(m)), Finite(s)))) == ZScores(Present(f), m, s)
  {
    if |f| > 0 {
      var g := seq(|f|, i requires 0 <= i < |f| => Div(Sub(f[i], Finite(m)), Finite(s)));
      var g' := seq(|f| - 1, i requires 0 <= i < |f| - 1 => Div(Sub(f[1..][i], Finite(m)), Finite(s)));
      assert g[1..] == g';
      PresentZScores(f[1..], m, s);
      if f[0].Finite? {
        assert ZScores(Present(f), m, s) == [(f[0].v - m) / s] + ZScores(Present(f[1..]), m, s);
      }
    }
  }

  lemma {:induction false} SumZScores(v: seq<real>, m: real, s: real)
    requires s != 0.0
    ensures Sum(ZScores(v, m, s)) == (Sum(v) - |v| as real * m) / s
  {
    if |v| > 0 {
      assert ZScores(v, m, s)[1..] == ZScores(v[1..], m, s);
      SumZScores(v[1..], m, s);
      DivAdd(v[0] - m, Sum(v[1..]) - (|v| - 1) as real * m, s);
    }
  }

  lemma DivAdd(a: real, b: real, s: real)
    requires s != 0.0
    ensures a / s + b / s == (a + b) / s
  {
  }

  lemma MeanTimesCount(t: real, n: nat)
    requires n > 0
    ensures n as real * (t / n as real) == t
  {
  }

  /** Z-scores taken about the mean sum to zero. */
  lemma CentredSum(v: seq<real>, s: real)
    requires |v| > 0 && s != 0.0
    ensures Sum(ZScores(v, Sum(v) / |v| as real, s)) == 0.0
  {
    var m := Sum(v) / |v| as real;
    SumZScores(v, m, s);
    MeanTimesCount(Sum(v), |v|);
    assert Sum(v) - |v| as real * m == 0.0;
  }

  /** With every epoch flagged night, as the epoch loop leaves them, the
      present z-scores sum to zero: the column is centred. */
  lemma NormalizedCentred(lib: MathLib, f: seq<Fp>, night: seq<bool>)
    requires AnySet(f) && |night| == |f| && forall e :: 0 <= e < |night| ==> night[e]
    requires NightStd(lib, f, night).Finite? && NightStd(lib, f, night).v != 0.0
    ensures Sum(Present(Normalize(lib, f, night).value)) == 0.0
  {
    MaskedAll(f, night);
    var v := Present(f);
    var mean, std := NightMean(f, night), NightStd(lib, f, night);
    assert mean == Finite(Sum(v) / |v| as real);
    var m, s := mean.v, std.v;
    assert Normalize(lib, f, night).value
      == seq(|f|, i requires 0 <= i < |f| => Div(Sub(f[i], Finite(m)), Finite(s)));
    PresentZScores(f, m, s);
    CentredSum(v, s);
  }

  // ----- discriminability (lines 134-142) -----

  /** Lines 134-142: for the present values f, `fm = np.convolve(f,
      np.ones(10), 'same') / 10`; when the norm of f is nonzero the cell
      becomes `norm(fm) / |norm(f)|`, otherwise it is not written (None).
      `np.convolve` refuses a column with no value present. */
  function Score(lib: MathLib, f: seq<Fp>): (r: Result<Option<real>>)
    ensures r.Ok? <==> |Present(f)| > 0
    ensures r.Raise? ==> r.exc == ValueError
  {
    var v := Present(f);
    var c :- ConvSameOnes(v, 10);
    var nrm := lib.sqrt(SumSq(v));
    if nrm == 0.0 then Ok(None)
    else Ok(Some(lib.sqrt(SumSq(seq(|c|, k requires 0 <= k < |c| => c[k] / 10.0))) / Abs(nrm)))
  }

  /** The cell is written exactly when the norm of the present values is
      nonzero. */
  lemma ScoreGuard(lib: MathLib, f: seq<Fp>)
    requires |Present(f)| > 0
    ensures Score(lib, f).value.Some? <==> lib.sqrt(SumSq(Present(f))) != 0.0
  {
  }

  /** A column whose present values are all zero leaves its cell at 0, when
      the square root of 0 is 0. */
  lemma ScoreZeroColumn(lib: MathLib, f: seq<Fp>)
    requires lib.sqrt(0.0) == 0.0 && |Present(f)| > 0
    requires forall k :: 0 <= k < |Present(f)| ==> Present(f)[k] == 0.0
    ensures Score(lib, f) == Ok(None)
  {
    SumSqZeros(Present(f));
  }

  lemma {:induction false} SumSqZeros(v: seq<real>)
    requires forall k :: 0 <= k < |v| ==> v[k] == 0.0
    ensures SumSq(v) == 0.0
  {
    if |v| > 0 {
      SumSqZeros(v[1..]);
    }
  }

  /** With a square root that never goes negative, a written cell is not
      negative. */
  lemma ScoreNonneg(lib: MathLib, f: seq<Fp>)
    requires forall x :: lib.sqrt(x) >= 0.0
    requires |Present(f)| > 0 && Score(lib, f).value.Some?
    ensures Score(lib, f).value.value >= 0.0
  {
    var v := Present(f);
    var c := ConvSameOnes(v, 10).value;
    var a := lib.sqrt(SumSq(seq(|c|, k requires 0 <= k < |c| => c[k] / 10.0)));
    var b := Abs(lib.sqrt(SumSq(v)));
    QuotientNonneg(a, b);
  }

  lemma QuotientNonneg(a: real, b: real)
    requires a >= 0.0 && b > 0.0
    ensures a / b >= 0.0
  {
  }

  // ----- one column -----

  /** What one pass of the `nch`/`nf` loop leaves: the column written back
      into the tensor and the discriminability cell (None: not written). */
  datatype Processed = Processed(column: seq<Fp>, score: Option<real>)

  /** The four steps on one column, stopping at the first exception. */
  function ProcessColumn(lib: MathLib, f: seq<Fp>, night: seq<bool>): (r: Result<Processed>)
    ensures r.Ok? ==> |r.value.column| == |f|
  {
    var o :- Outliers(f);
    var s :- Smooth(o);
    var n :- Normalize(lib, s, night);
    var sc :- Score(lib, n);
    Ok(Processed(n, sc))
  }

  /** An entry missing before the column is processed is missing after it:
      no step ever fills a gap. */
  lemma ProcessKeepsMissing(lib: MathLib, f: seq<Fp>, night: seq<bool>, i: nat)
    requires ProcessColumn(lib, f, night).Ok? && i < |f| && f[i].NonFinite?
    ensures ProcessColumn(lib, f, night).value.column[i].NonFinite?
  {
    var o := Outliers(f).value;
    OutliersOnlyAdd(f);
    var s := Smooth(o).value;
    SmoothMissing(o);
  }
}
