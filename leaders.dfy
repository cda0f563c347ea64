/** The wavelet-leader part of `compute_features` (utils.py): truncation of
    the segment to a multiple of 256 samples, the eight-scale filter bank, the
    leader recursion that carries `laa` from scale to scale, and the
    scale-dependent trims that discard filter transients. */
module Leaders {
  import opened Numerics
  import opened Outcomes
  import opened Dsp

  /** Number of scales (`j`). */
  const J: nat := 8

  /** Half the length of the wavelet filters (`nd`). */
  const Nd: nat := 5

  /** The low-pass filter `lx`: the Daubechies db5 scaling filter times sqrt 2. */
  const Lx: seq<real> := [0.22641898, 0.85394354, 1.02432694, 0.19576696, -0.34265671,
                         -0.04560113, 0.10970265, -0.0088268, -0.01779187, 0.00471742793]

  function Pow2(n: nat): (r: nat)
    ensures r >= 1
  {
    if n == 0 then 1 else 2 * Pow2(n - 1)
  }

  /** `np.flipud(l) * (-1) ** np.arange(len(l))`: `l` reversed, with the sign
      of every odd position flipped. */
  function Mirror(l: seq<real>): (h: seq<real>)
    ensures |h| == |l|
  {
    seq(|l|, k requires 0 <= k < |l| => if k % 2 == 0 then l[|l| - 1 - k] else -l[|l| - 1 - k])
  }

  /** The high-pass filter `h`. */
  const Hx: seq<real> := Mirror(Lx)

  /** For a filter of even length, mirroring twice gives back the filter
      negated: the high-pass filter determines the low-pass one. */
  lemma MirrorTwice(l: seq<real>)
    requires |l| % 2 == 0
    ensures Mirror(Mirror(l)) == seq(|l|, k requires 0 <= k < |l| => -l[k])
  {
    var n := |l|;
    forall k | 0 <= k < n
      ensures Mirror(Mirror(l))[k] == -l[k]
    {
      assert (n - 1 - k) % 2 != k % 2;
    }
  }

  /** `h` and `lx` are orthogonal: the two halves of the filter bank split the
      signal into complementary parts. */
  lemma FiltersOrthogonal()
    ensures Hx[0] * Lx[0] + Hx[1] * Lx[1] + Hx[2] * Lx[2] + Hx[3] * Lx[3] + Hx[4] * Lx[4]
      + Hx[5] * Lx[5] + Hx[6] * Lx[6] + Hx[7] * Lx[7] + Hx[8] * Lx[8] + Hx[9] * Lx[9] == 0.0
  {
    assert |Lx| == 10;
    assert Hx == [Lx[9], -Lx[8], Lx[7], -Lx[6], Lx[5], -Lx[4], Lx[3], -Lx[2], Lx[1], -Lx[0]];
  }

  /** `x[:2**j * int(np.floor(len(x) * 2**-j))]`: the longest prefix whose
      length is a multiple of 2**8 = 256. */
  function Truncate(x: seq<real>): (t: seq<real>)
    ensures |t| % 256 == 0 && |x| - 256 < |t| <= |x|
    ensures forall i :: 0 <= i < |t| ==> t[i] == x[i]
  {
    x[..256 * (|x| / 256)]
  }

  /** The approximation `x` entering scale `jj`: each scale low-passes it
      with `lx` and keeps the even samples. */
  function Approx(t: seq<real>, jj: nat): seq<real>
  {
    if jj == 0 then t else Stride(Lfilter(Lx, Approx(t, jj - 1)), 2)
  }

  /** The detail coefficients of scale `jj`, `lfilter(h, 1, x)[::2]`. */
  function Detail(t: seq<real>, jj: nat): seq<real>
  {
    Stride(Lfilter(Hx, Approx(t, jj)), 2)
  }

  /** Keeping every other sample of an even number of samples halves it. */
  lemma HalfLength<T>(s: seq<T>)
    ensures |Stride(s, 2)| == (|s| + 1) / 2
  {
    StrideLength(s, 2);
    StrideLength2(|s|, |Stride(s, 2)|);
  }

  lemma Pow2Succ(k: nat, m: nat)
    ensures k * Pow2(m + 1) == 2 * (k * Pow2(m))
  {
  }

  /** For a truncated segment of 256k samples, scale `jj` receives
      k * 2**(8 - jj) samples. */
  lemma {:induction false} ApproxLength(t: seq<real>, k: nat, jj: nat)
    requires |t| == 256 * k && jj <= J
    ensures |Approx(t, jj)| == k * Pow2(J - jj)
  {
    if jj == 0 {
      assert Pow2(8) == 256;
    } else {
      ApproxLength(t, k, jj - 1);
      var a := Lfilter(Lx, Approx(t, jj - 1));
      HalfLength(a);
      Pow2Succ(k, J - jj);
    }
  }

  /** The detail and the leaders of scale `jj` have k * 2**(7 - jj) entries,
      that is N / 2**(jj + 1) for N = 256k. */
  lemma DetailLength(t: seq<real>, k: nat, jj: nat)
    requires |t| == 256 * k && jj < J
    ensures |Detail(t, jj)| == k * Pow2(J - 1 - jj) == |Approx(t, jj + 1)|
  {
    ApproxLength(t, k, jj + 1);
    HalfLength(Lfilter(Hx, Approx(t, jj)));
    HalfLength(Lfilter(Lx, Approx(t, jj)));
  }

  /** `np.abs(np.hstack([0, d, 0]))`: entry j is |d[j - 1]|, with 0 at both ends. */
  function Padded(d: seq<real>): (p: seq<real>)
    ensures |p| == |d| + 2 && forall j :: 0 <= j < |p| ==> p[j] == Abs(At(d, j - 1))
  {
    [0.0] + seq(|d|, i requires 0 <= i < |d| => Abs(d[i])) + [0.0]
  }

  /** The maximum of each padded entry and its two neighbours. */
  function Neighbour3(d: seq<real>): (q: seq<real>)
    ensures |q| == |d|
  {
    var p := Padded(d);
    seq(|d|, i requires 0 <= i < |d| => Max(Max(p[i], p[i + 1]), p[i + 2]))
  }

  /** Entry `i` of the 3-neighbour maximum is the largest magnitude among
      positions i - 1, i and i + 1 of `d`, the positions outside `d` counting
      as 0. */
  lemma Neighbour3Max(d: seq<real>)
    ensures forall i :: 0 <= i < |d| ==>
      Neighbour3(d)[i] >= Abs(At(d, i - 1)) && Neighbour3(d)[i] >= Abs(d[i])
      && Neighbour3(d)[i] >= Abs(At(d, i + 1))
    ensures forall i :: 0 <= i < |d| ==>
      Neighbour3(d)[i] == Abs(At(d, i - 1)) || Neighbour3(d)[i] == Abs(d[i])
      || Neighbour3(d)[i] == Abs(At(d, i + 1))
  {
    var p := Padded(d);
    forall i | 0 <= i < |d|
      ensures Neighbour3(d)[i] == Max(Max(Abs(At(d, i - 1)), Abs(d[i])), Abs(At(d, i + 1)))
    {
      assert p[i] == Abs(At(d, i - 1)) && p[i + 1] == Abs(At(d, i)) && p[i + 2] == Abs(At(d, i + 1));
    }
  }

  /** `s[1::2]`. */
  function OddEntries<T>(s: seq<T>): seq<T>
  {
    if |s| == 0 then [] else Stride(s[1..], 2)
  }

  /** `s[::2]` and `s[1::2]` split `s` into its even and odd positions. */
  lemma EvenOdd<T>(s: seq<T>)
    ensures |Stride(s, 2)| == (|s| + 1) / 2 && |OddEntries(s)| == |s| / 2
    ensures forall i :: 0 <= i < |Stride(s, 2)| ==> Stride(s, 2)[i] == s[2 * i]
    ensures forall i :: 0 <= i < |OddEntries(s)| ==> OddEntries(s)[i] == s[2 * i + 1]
  {
    HalfLength(s);
    forall i | 0 <= i < |Stride(s, 2)|
      ensures Stride(s, 2)[i] == s[2 * i]
    {
      StrideAt(s, 2, i);
    }
    if |s| > 0 {
      HalfLength(s[1..]);
      forall i | 0 <= i < |OddEntries(s)|
        ensures OddEntries(s)[i] == s[2 * i + 1]
      {
        StrideAt(s[1..], 2, i);
      }
    }
  }

  /** What one scale of the leader recursion produces: the leaders `lea`
      before trimming, and the `laa` it hands to the next scale. */
  datatype Step = Step(leaders: seq<real>, next: seq<real>)

  /** One scale of the recursion: the 3-neighbour maximum of |d|, then the
      maximum with the inherited `laa`, then `laa = np.maximum(lea[::2],
      lea[1::2])`. Each `np.maximum` raises ValueError when NumPy cannot
      broadcast its operands. */
  function LeaderStep(d: seq<real>, laa: seq<real>): (r: Result<Step>)
    ensures r.Raise? ==> r.exc == ValueError
  {
    var lea :- Maximum(Neighbour3(d), laa);
    var next :- Maximum(Stride(lea, 2), OddEntries(lea));
    Ok(Step(lea, next))
  }

  /** With an inherited `laa` as long as the detail, the step fails exactly
      when the number of leaders is odd and at least 5. On success there are
      as many leaders as details, and for an even count the next `laa` has
      half as many entries. */
  lemma LeaderStepOk(d: seq<real>, laa: seq<real>)
    requires |laa| == |d|
    ensures LeaderStep(d, laa).Ok? <==> |d| % 2 == 0 || |d| <= 3
    ensures LeaderStep(d, laa).Ok? ==> |LeaderStep(d, laa).value.leaders| == |d|
    ensures LeaderStep(d, laa).Ok? && |d| % 2 == 0 ==> |LeaderStep(d, laa).value.next| == |d| / 2
  {
    var lea := Maximum(Neighbour3(d), laa).value;
    EvenOdd(lea);
  }

  /** Each leader is non-negative, dominates the magnitude of the detail at
      its own position and at its two neighbours, and dominates the inherited
      `laa` entry. */
  lemma LeaderBounds(d: seq<real>, laa: seq<real>)
    requires |laa| == |d| && LeaderStep(d, laa).Ok?
    ensures var lea := LeaderStep(d, laa).value.leaders;
      |lea| == |d| &&
      forall i :: 0 <= i < |d| ==>
        lea[i] >= 0.0 && lea[i] >= Abs(d[i]) && lea[i] >= Abs(At(d, i - 1))
        && lea[i] >= Abs(At(d, i + 1)) && lea[i] >= laa[i]
  {
    Neighbour3Max(d);
  }

  /** For an even count, the next `laa[i]` is the larger of leaders 2i and
      2i + 1. */
  lemma LeaderNext(d: seq<real>, laa: seq<real>)
    requires |laa| == |d| && |d| % 2 == 0
    ensures LeaderStep(d, laa).Ok?
    ensures var s := LeaderStep(d, laa).value;
      |s.leaders| == |d| && |s.next| == |d| / 2 &&
      forall i :: 0 <= i < |d| / 2 ==> s.next[i] == Max(s.leaders[2 * i], s.leaders[2 * i + 1])
  {
    var lea := Maximum(Neighbour3(d), laa).value;
    EvenOdd(lea);
  }

  /** From one scale to the next of the first seven, the detail halves. */
  lemma DetailHalves(t: seq<real>, k: nat, jj: nat)
    requires |t| == 256 * k && jj + 1 < J
    ensures |Detail(t, jj)| % 2 == 0 && |Detail(t, jj + 1)| == |Detail(t, jj)| / 2
  {
    DetailLength(t, k, jj);
    DetailLength(t, k, jj + 1);
    Pow2Succ(k, J - 2 - jj);
  }

  /** The details of the eight scales. */
  function Details(t: seq<real>): (ds: seq<seq<real>>)
    ensures |ds| == J && forall jj :: 0 <= jj < J ==> ds[jj] == Detail(t, jj)
  {
    seq(J, jj requires 0 <= jj < J => Detail(t, jj))
  }

  /** Detail counts as the filter bank produces them: every scale but the
      last has an even count, and the next scale has half as many. */
  predicate Halving(ds: seq<seq<real>>)
  {
    forall s :: 0 <= s < |ds| - 1 ==> |ds[s]| % 2 == 0 && |ds[s + 1]| == |ds[s]| / 2
  }

  /** On a segment of 256k samples the details halve from N / 2 entries at
      scale 0 down to k entries at scale 7. */
  lemma DetailsHalve(t: seq<real>, k: nat)
    requires |t| == 256 * k
    ensures Halving(Details(t))
    ensures |Details(t)[0]| == |t| / 2 && |Details(t)[J - 1]| == k
  {
    forall s | 0 <= s < J - 1
      ensures |Details(t)[s]| % 2 == 0 && |Details(t)[s + 1]| == |Details(t)[s]| / 2
    {
      DetailHalves(t, k, s);
    }
    DetailLength(t, k, 0);
    DetailLength(t, k, J - 1);
    assert Pow2(7) == 128 && Pow2(0) == 1;
  }

  /** One scale of a recursion over the scales: from a detail and the `laa`
      handed down, the leaders and the next `laa`. */
  type Stepper = (seq<real>, seq<real>) -> Result<Step>

  /** A recursion over the scales 0..n-1 of the details `ds` by the scale
      step `f`, starting from `laa`: the untrimmed leaders of each scale, and
      the `laa` left for scale n. The first failing scale ends it. */
  function Chain(f: Stepper, ds: seq<seq<real>>, laa: seq<real>, n: nat): (r: Result<(seq<seq<real>>, seq<real>)>)
    requires n <= |ds|
    ensures r.Ok? ==> |r.value.0| == n
  {
    if n == 0 then Ok(([], laa))
    else
      var prev :- Chain(f, ds, laa, n - 1);
      var s :- f(ds[n - 1], prev.1);
      Ok((prev.0 + [s.leaders], s.next))
  }

  /** A chain fails only with an exception some scale raised. */
  lemma {:induction false} ChainError(f: Stepper, ds: seq<seq<real>>, laa: seq<real>, n: nat, e: Exception)
    requires n <= |ds| && forall d, l :: f(d, l).Raise? ==> f(d, l).exc == e
    ensures Chain(f, ds, laa, n).Raise? ==> Chain(f, ds, laa, n).exc == e
  {
    if n > 0 {
      ChainError(f, ds, laa, n - 1, e);
    }
  }

  /** When the first m - 1 scales succeed, the chain over m scales is decided
      by its last step. */
  lemma ChainLast(f: Stepper, ds: seq<seq<real>>, laa: seq<real>, m: nat)
    requires 0 < m <= |ds| && Chain(f, ds, laa, m - 1).Ok?
    ensures var s := f(ds[m - 1], Chain(f, ds, laa, m - 1).value.1);
      Chain(f, ds, laa, m) ==
        if s.Ok? then Ok((Chain(f, ds, laa, m - 1).value.0 + [s.value.leaders], s.value.next))
        else Raise(s.exc)
  {
  }

  /** A successful chain over m > 0 scales is the one over m - 1 scales
      followed by one more step. */
  lemma ChainUnfold(f: Stepper, ds: seq<seq<real>>, laa: seq<real>, m: nat)
    requires 0 < m <= |ds| && Chain(f, ds, laa, m).Ok?
    ensures Chain(f, ds, laa, m - 1).Ok?
    ensures f(ds[m - 1], Chain(f, ds, laa, m - 1).value.1).Ok?
    ensures var s := f(ds[m - 1], Chain(f, ds, laa, m - 1).value.1).value;
      Chain(f, ds, laa, m).value == (Chain(f, ds, laa, m - 1).value.0 + [s.leaders], s.next)
  {
  }

  /** Once a scale fails, every longer chain fails with its exception. */
  lemma {:induction false} ChainFailureStays(f: Stepper, ds: seq<seq<real>>, laa: seq<real>, n: nat, m: nat)
    requires n <= m <= |ds| && Chain(f, ds, laa, n).Raise?
    ensures Chain(f, ds, laa, m) == Raise(Chain(f, ds, laa, n).exc)
    decreases m
  {
    if m > n {
      ChainFailureStays(f, ds, laa, n, m - 1);
    }
  }

  /** A successful chain extends every shorter one: its first n scales are
      those of the chain over n scales. */
  lemma {:induction false} ChainPrefix(f: Stepper, ds: seq<seq<real>>, laa: seq<real>, n: nat, m: nat)
    requires n <= m <= |ds| && Chain(f, ds, laa, m).Ok?
    ensures Chain(f, ds, laa, n).Ok?
    ensures Chain(f, ds, laa, n).value.0 == Chain(f, ds, laa, m).value.0[..n]
    decreases m
  {
    var all := Chain(f, ds, laa, m).value.0;
    if n == m {
      assert all[..n] == all;
    } else {
      ChainPrefix(f, ds, laa, n, m - 1);
      var prev := Chain(f, ds, laa, m - 1).value.0;
      assert all[..n] == prev[..n] by {
        assert all[..m - 1] == prev;
      }
    }
  }

  /** The leader recursion over the scales 0..n-1 of the details `ds`,
      starting from `laa`: the chain of `LeaderStep`. */
  function Cascade(ds: seq<seq<real>>, laa: seq<real>, n: nat): (r: Result<(seq<seq<real>>, seq<real>)>)
    requires n <= |ds|
    ensures r.Raise? ==> r.exc == ValueError
    ensures r.Ok? ==> |r.value.0| == n
  {
    ChainError(LeaderStep, ds, laa, n, ValueError);
    Chain(LeaderStep, ds, laa, n)
  }

  /** The leader recursion of `compute_features` over a truncated segment. The
      first `laa` is `np.zeros(round(N / 2))`; N is a multiple of 256, so
      N / 2 is exact. An empty segment stops the loop at its first filter:
      with a denominator of 1, `lfilter` convolves by `np.convolve`, which
      raises ValueError on an empty input. */
  function LeadersOf(t: seq<real>): (r: Result<(seq<seq<real>>, seq<real>)>)
    ensures |t| == 0 ==> r == Raise(ValueError)
  {
    if |t| == 0 then Raise(ValueError)
    else
      var ds := Details(t);
      Cascade(ds, Zeros(|t| / 2), |ds|)
  }

  /** Filtering keeps the length and `x[::2]` of a non-empty `x` is not
      empty, so every scale's approximation is empty iff the segment is. */
  lemma {:induction false} ApproxEmpty(t: seq<real>, jj: nat)
    ensures |Approx(t, jj)| == 0 <==> |t| == 0
  {
    if jj > 0 {
      ApproxEmpty(t, jj - 1);
    }
  }

  lemma CascadeUnfold(ds: seq<seq<real>>, laa: seq<real>, m: nat)
    requires 0 < m <= |ds| && Cascade(ds, laa, m).Ok?
    ensures Cascade(ds, laa, m - 1).Ok?
    ensures LeaderStep(ds[m - 1], Cascade(ds, laa, m - 1).value.1).Ok?
    ensures var s := LeaderStep(ds[m - 1], Cascade(ds, laa, m - 1).value.1).value;
      Cascade(ds, laa, m).value == (Cascade(ds, laa, m - 1).value.0 + [s.leaders], s.next)
  {
    ChainUnfold(LeaderStep, ds, laa, m);
  }

  lemma CascadeLast(ds: seq<seq<real>>, laa: seq<real>, m: nat)
    requires 0 < m <= |ds| && Cascade(ds, laa, m - 1).Ok?
    ensures var s := LeaderStep(ds[m - 1], Cascade(ds, laa, m - 1).value.1);
      Cascade(ds, laa, m) ==
        if s.Ok? then Ok((Cascade(ds, laa, m - 1).value.0 + [s.value.leaders], s.value.next))
        else Raise(s.exc)
  {
    ChainLast(LeaderStep, ds, laa, m);
  }

  /** Once a scale of the leader recursion fails, the whole recursion fails
      with its exception. */
  lemma CascadeFailureStays(ds: seq<seq<real>>, laa: seq<real>, n: nat, m: nat)
    requires n <= m <= |ds| && Cascade(ds, laa, n).Raise?
    ensures Cascade(ds, laa, m) == Raise(Cascade(ds, laa, n).exc)
  {
    ChainFailureStays(LeaderStep, ds, laa, n, m);
  }

  /** The leaders of the first n scales do not depend on how many scales
      follow. */
  lemma CascadePrefix(ds: seq<seq<real>>, laa: seq<real>, n: nat, m: nat)
    requires n <= m <= |ds| && Cascade(ds, laa, m).Ok?
    ensures Cascade(ds, laa, n).Ok?
    ensures Cascade(ds, laa, n).value.0 == Cascade(ds, laa, m).value.0[..n]
  {
    ChainPrefix(LeaderStep, ds, laa, n, m);
  }

  /** One more scale of the recursion, when the `laa` left over is as long as
      the next detail and that length is even. */
  lemma CascadeStep(ds: seq<seq<real>>, laa: seq<real>, n: nat)
    requires 0 < n <= |ds| && Cascade(ds, laa, n - 1).Ok?
    requires |Cascade(ds, laa, n - 1).value.0| == n - 1
    requires |Cascade(ds, laa, n - 1).value.1| == |ds[n - 1]| && |ds[n - 1]| % 2 == 0
    ensures Cascade(ds, laa, n).Ok? && |Cascade(ds, laa, n).value.0| == n
    ensures |Cascade(ds, laa, n).value.1| == |ds[n - 1]| / 2
  {
    var prev := Cascade(ds, laa, n - 1).value;
    LeaderStepOk(ds[n - 1], prev.1);
    var s := LeaderStep(ds[n - 1], prev.1).value;
    assert Cascade(ds, laa, n) == Ok((prev.0 + [s.leaders], s.next));
  }

  /** Over halving details, all scales but the last succeed, and the `laa`
      each leaves over is as long as the next detail. */
  lemma {:induction false} CascadeShape(ds: seq<seq<real>>, laa: seq<real>, n: nat)
    requires Halving(ds) && n < |ds| && |laa| == |ds[0]|
    ensures Cascade(ds, laa, n).Ok? && |Cascade(ds, laa, n).value.0| == n
    ensures |Cascade(ds, laa, n).value.1| == |ds[n]|
  {
    if n > 0 {
      CascadeShape(ds, laa, n - 1);
      CascadeStep(ds, laa, n);
    }
  }

  /** Over halving details, the recursion fails exactly when the last scale
      has an odd number of details, at least 5: `np.maximum(lea[::2],
      lea[1::2])` then broadcasts only when one half has a single entry. */
  lemma CascadeFails(ds: seq<seq<real>>, laa: seq<real>)
    requires Halving(ds) && |ds| > 0 && |laa| == |ds[0]|
    ensures Cascade(ds, laa, |ds|).Raise? <==> |ds[|ds| - 1]| % 2 == 1 && |ds[|ds| - 1]| >= 5
  {
    var n := |ds|;
    CascadeShape(ds, laa, n - 1);
    CascadeLast(ds, laa, n);
    var d, rest := ds[n - 1], Cascade(ds, laa, n - 1).value.1;
    LeaderStepOk(d, rest);
    var ok := LeaderStep(d, rest).Ok?;
    assert ok <==> |d| % 2 == 0 || |d| <= 3;
    assert Cascade(ds, laa, n).Ok? <==> ok;
    OddFromFive(|d|);
  }

  lemma OddFromFive(x: nat)
    ensures !(x % 2 == 0 || x <= 3) <==> x % 2 == 1 && x >= 5
  {
    if x == 4 {
      assert x % 2 == 0;
    }
  }

  /** `compute_features` raises ValueError in the loop over the scales
      exactly when the segment is empty or N / 256 is odd and at least 5. */
  lemma LeadersFail(t: seq<real>, k: nat)
    requires |t| == 256 * k
    ensures LeadersOf(t).Raise? <==> k == 0 || (k % 2 == 1 && k >= 5)
    ensures LeadersOf(t).Raise? ==> LeadersOf(t).exc == ValueError
  {
    if k > 0 {
      DetailsHalve(t, k);
      CascadeFails(Details(t), Zeros(|t| / 2));
    }
  }

  /** In a successful run over halving details, the leaders of scale jj are
      as many as its details; each is non-negative and dominates the
      magnitude of the detail at its own position. */
  lemma CascadeLeaders(ds: seq<seq<real>>, laa: seq<real>, jj: nat)
    requires Halving(ds) && jj < |ds| && |laa| == |ds[0]| && Cascade(ds, laa, |ds|).Ok?
    ensures var lead := Cascade(ds, laa, |ds|).value.0;
      |lead| == |ds| && |lead[jj]| == |ds[jj]| &&
      forall i :: 0 <= i < |lead[jj]| ==> lead[jj][i] >= Abs(ds[jj][i]) && lead[jj][i] >= 0.0
  {
    CascadePrefix(ds, laa, jj + 1, |ds|);
    CascadeShape(ds, laa, jj);
    CascadeUnfold(ds, laa, jj + 1);
    var lead := Cascade(ds, laa, |ds|).value.0;
    var step := LeaderStep(ds[jj], Cascade(ds, laa, jj).value.1).value;
    assert lead[jj] == Cascade(ds, laa, jj + 1).value.0[jj] == step.leaders;
    LeaderBounds(ds[jj], Cascade(ds, laa, jj).value.1);
  }

  /** Across scales, each leader of scale jj + 1 dominates the two leaders of
      scale jj it inherits from. */
  lemma LeadersInherit(ds: seq<seq<real>>, laa: seq<real>, jj: nat, i: nat)
    requires Halving(ds) && jj + 2 <= |ds| && |laa| == |ds[0]|
    requires Cascade(ds, laa, jj + 2).Ok? && i < |ds[jj + 1]|
    ensures var lead := Cascade(ds, laa, jj + 2).value.0;
      |lead| == jj + 2 && 2 * i + 1 < |lead[jj]| && i < |lead[jj + 1]|
      && lead[jj + 1][i] >= lead[jj][2 * i] && lead[jj + 1][i] >= lead[jj][2 * i + 1]
  {
    CascadeShape(ds, laa, jj);
    CascadeShape(ds, laa, jj + 1);
    CascadeUnfold(ds, laa, jj + 1);
    CascadeUnfold(ds, laa, jj + 2);
    LeaderNext(ds[jj], Cascade(ds, laa, jj).value.1);
    LeaderBounds(ds[jj + 1], Cascade(ds, laa, jj + 1).value.1);
  }

  /** `int(np.ceil(256 / 2 ** (jj + 1)))`. */
  function Ceil256(jj: nat): nat
  {
    (256 + Pow2(jj + 1) - 1) / Pow2(jj + 1)
  }

  /** Samples discarded at the front of scale jj: `nd - 1 + ceil(256 / 2**(jj + 1))`. */
  function Front(jj: nat): nat
  {
    Nd - 1 + Ceil256(jj)
  }

  /** Samples discarded at the back of scale jj: `1 + max(ceil(256 / 2**(jj + 1)) - nd - 1, 0)`. */
  function Back(jj: nat): nat
  {
    1 + (if Ceil256(jj) > Nd + 1 then Ceil256(jj) - Nd - 1 else 0)
  }

  /** Python's `s[lo:-drop]` for `drop >= 1`: a bound past the end is clipped. */
  function DropEnds<T>(s: seq<T>, lo: nat, drop: nat): (r: seq<T>)
    requires drop > 0
    ensures |r| == if |s| >= lo + drop then |s| - lo - drop else 0
    ensures forall i :: 0 <= i < |r| ==> r[i] == s[lo + i]
  {
    var start := if lo <= |s| then lo else |s|;
    var stop := if drop <= |s| then |s| - drop else 0;
    if stop <= start then [] else s[start..stop]
  }

  /** The transient trim of scale jj. */
  function Trim<T>(s: seq<T>, jj: nat): seq<T>
  {
    DropEnds(s, Front(jj), Back(jj))
  }

  /** The number of entries the trim of scale jj keeps out of n. */
  function Kept(n: nat, jj: nat): nat
  {
    if n >= Front(jj) + Back(jj) then n - Front(jj) - Back(jj) else 0
  }

  /** For the eight scales, the trim drops 4 + 2**(7 - jj) entries in front
      and 1 + max(2**(7 - jj) - 6, 0) >= 1 at the back, and keeps the rest. */
  lemma TrimOffsets<T>(s: seq<T>, jj: nat)
    requires jj < J
    ensures Ceil256(jj) == Pow2(J - 1 - jj)
    ensures Front(jj) == 4 + Pow2(J - 1 - jj)
    ensures Back(jj) == 1 + (if Pow2(J - 1 - jj) > 6 then Pow2(J - 1 - jj) - 6 else 0) >= 1
    ensures |Trim(s, jj)| == Kept(|s|, jj)
    ensures forall i :: 0 <= i < |Trim(s, jj)| ==> Trim(s, jj)[i] == s[Front(jj) + i]
  {
    assert Pow2(1) == 2 && Pow2(2) == 4 && Pow2(3) == 8 && Pow2(4) == 16;
    assert Pow2(5) == 32 && Pow2(6) == 64 && Pow2(7) == 128 && Pow2(8) == 256;
  }

  /** The number of leaders and details scale jj keeps from a segment of
      256k samples. */
  function KeptAtScale(k: nat, jj: nat): nat
    requires jj < J
  {
    Kept(k * Pow2(J - 1 - jj), jj)
  }

  /** For the 8192-sample epochs the program feeds it, the scales keep
      3841, 1921, 961, 481, 241, 119, 57 and 26 entries. */
  lemma KeptFor8192(jj: nat)
    requires jj < J
    ensures KeptAtScale(32, jj) == [3841, 1921, 961, 481, 241, 119, 57, 26][jj]
  {
    TrimOffsets([0.0], jj);
  }

  /** Every scale keeps at least one entry exactly when the segment has at
      least 7 * 256 = 1792 samples after truncation; the coarsest scale is the
      first to run dry. */
  lemma KeptPositive(k: nat)
    ensures (forall jj :: 0 <= jj < J ==> KeptAtScale(k, jj) > 0) <==> k >= 7
  {
    forall jj | 0 <= jj < J
      ensures Front(jj) == 4 + Pow2(J - 1 - jj)
      ensures Back(jj) == 1 + (if Pow2(J - 1 - jj) > 6 then Pow2(J - 1 - jj) - 6 else 0)
    {
      TrimOffsets([0.0], jj);
    }
    assert Pow2(0) == 1 && Pow2(1) == 2 && Pow2(2) == 4 && Pow2(3) == 8;
    assert Pow2(4) == 16 && Pow2(5) == 32 && Pow2(6) == 64 && Pow2(7) == 128;
    if k >= 7 {
      forall jj | 0 <= jj < J
        ensures KeptAtScale(k, jj) > 0
      {
        assert k * Pow2(J - 1 - jj) >= 7 * Pow2(J - 1 - jj);
      }
    } else {
      assert KeptAtScale(k, 7) == 0;
    }
  }
}
