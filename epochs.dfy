/** The epoch schedule of the feature script (sleep_features_v2.py): the
    alignment of the first epoch on the next second 29 or 59 of the clock,
    the number of whole 30-second epochs, the read windows, and the
    bookkeeping that stores the features of epoch ii at index ii of a
    preallocated 1500-epoch tensor. */
module Epochs {
  import opened Numerics
  import opened Outcomes

  /** `window` and `overlap`, in seconds. */
  const Window: real := 30.0
  const Overlap: real := 1.25
  /** The epochs the tensors are allocated for, and the features per epoch. */
  const MaxEpochs: nat := 1500
  const NFeat: nat := 24

  /** How far after the recording start the first epoch begins, in seconds,
      and the clock second it begins on. */
  datatype Alignment = Alignment(offset: real, second: nat)

  /** The first epoch starts on the next second 29 or 59 that leaves more
      than the overlap before it: for `sec`, the second of the recording
      start within its minute, the offset lies in (1.25, 31.25]. */
  function Align(sec: real): (a: Alignment)
    ensures a.second == 29 || a.second == 59
    ensures 0.0 <= sec < 60.0 ==> Overlap < a.offset <= 31.25
    ensures sec + a.offset == a.second as real || sec + a.offset == a.second as real + 60.0
  {
    if sec < 27.75 then Alignment(29.0 - sec, 29)
    else if sec < 57.75 then Alignment(59.0 - sec, 59)
    else Alignment(60.0 - sec + 29.0, 29)
  }

  /** `sta = fs * offset` before rounding: at a positive rate it lies in
      (1.25 fs, 31.25 fs]. */
  function ExactStart(fs: int, sec: real): (y: real)
    ensures fs > 0 && 0.0 <= sec < 60.0 ==> fs as real * Overlap < y <= fs as real * 31.25
  {
    var o := Align(sec).offset;
    if fs > 0 && 0.0 <= sec < 60.0 then ScaledOffset(fs as real, o); fs as real * o
    else fs as real * o
  }

  /** `sta = round(fs * offset)`: the first epoch's start, in samples. */
  function StartSample(fs: int, sec: real): int
  {
    RoundHalfEven(ExactStart(fs, sec))
  }

  /** At a rate divisible by 4 (as 2000 and 5000 Hz are), the rounded start
      still leaves the whole overlap before it, and stays within 31.25 s. */
  lemma StartAfterOverlap(fs: int, sec: real)
    requires fs > 0 && fs % 4 == 0 && 0.0 <= sec < 60.0
    ensures fs as real * Overlap <= StartSample(fs, sec) as real <= fs as real * 31.25
  {
    var k := fs / 4;
    assert fs == 4 * k;
    var y := ExactStart(fs, sec);
    RoundedBetween(fs, k, y, RoundHalfEven(y));
  }

  /** An integer within a half of a value in (1.25 fs, 31.25 fs] stays in
      [1.25 fs, 31.25 fs] when fs = 4k. */
  lemma RoundedBetween(fs: int, k: int, y: real, r: int)
    requires fs == 4 * k && fs as real * 1.25 < y <= fs as real * 31.25
    requires y - 0.5 <= r as real <= y + 0.5
    ensures fs as real * 1.25 <= r as real <= fs as real * 31.25
  {
    NearestBetween(y, r, 5 * k, 125 * k);
  }

  lemma ScaledOffset(f: real, o: real)
    requires f > 0.0 && 1.25 < o <= 31.25
    ensures f * 1.25 < f * o <= f * 31.25
  {
    assert (o - 1.25) * f > 0.0;
    assert (31.25 - o) * f >= 0.0;
  }

  /** An integer within a half of a value strictly above lo and at most hi
      lies in [lo, hi]. */
  lemma NearestBetween(y: real, r: int, lo: int, hi: int)
    requires lo as real < y <= hi as real
    requires y - 0.5 <= r as real <= y + 0.5
    ensures lo <= r <= hi
  {
  }

  /** `Ne = int((nsamp - sta) / fs / 30)`: the whole epochs after the start. */
  function EpochCount(nsamp: int, sta: int, fs: int): int
    requires fs > 0
  {
    TruncToInt((nsamp - sta) as real / fs as real / Window)
  }

  /** When the recording reaches the start, `Ne` whole epochs of `30 * fs`
      samples fit between the start and the end, and one more does not. */
  lemma EpochsFit(nsamp: int, sta: int, fs: int)
    requires fs > 0 && nsamp >= sta
    ensures var ne := EpochCount(nsamp, sta, fs);
      ne >= 0 && 30 * fs * ne <= nsamp - sta < 30 * fs * (ne + 1)
  {
    var ne := EpochCount(nsamp, sta, fs);
    var len := 30 * fs;
    var x, d := (nsamp - sta) as real, len as real;
    DivDiv(x, fs as real, Window);
    DivNonneg(x, d);
    WholeParts(x, d, ne);
    CastMul(len, ne);
    CastMul(len, ne + 1);
  }

  /** n whole parts of size d fit in x when n is the integer part of x / d. */
  lemma WholeParts(x: real, d: real, n: int)
    requires d > 0.0 && n as real <= x / d < n as real + 1.0
    ensures n as real * d <= x < (n as real + 1.0) * d
  {
    ScaledLower(x, d, n as real);
    ScaledUpper(x, d, n as real + 1.0);
  }

  lemma ScaledLower(x: real, d: real, a: real)
    requires d > 0.0 && a <= x / d
    ensures a * d <= x
  {
    var q := x / d;
    assert q * d == x;
    assert (q - a) * d >= 0.0;
    assert q * d - a * d >= 0.0;
  }

  lemma ScaledUpper(x: real, d: real, b: real)
    requires d > 0.0 && x / d < b
    ensures x < b * d
  {
    var q := x / d;
    assert q * d == x;
    assert (b - q) * d > 0.0;
    assert b * d - q * d > 0.0;
  }

  lemma DivDiv(x: real, a: real, b: real)
    requires a > 0.0 && b > 0.0
    ensures x / a / b == x / (a * b)
  {
  }

  lemma CastMul(a: int, b: int)
    ensures (a * b) as real == a as real * b as real
  {
  }

  lemma DivNonneg(x: real, d: real)
    requires x >= 0.0 && d > 0.0
    ensures x / d >= 0.0
  {
  }

  /** The read of epoch ii, in microseconds, before `int` truncates it: it
      starts `overlap` before the epoch and lasts `window + 2 * overlap`.
      `t0` is the recording start in seconds. */
  function ReadSpan(t0: real, sta: int, fs: int, ii: int): (w: (real, real))
    requires fs > 0
    ensures w.1 - w.0 == (Window + 2.0 * Overlap) * 1000000.0
  {
    var start := (t0 + sta as real / fs as real) * 1000000.0;
    var lo := start + ii as real * Window * 1000000.0 - Overlap * 1000000.0;
    (lo, lo + Window * 1000000.0 + 2.0 * Overlap * 1000000.0)
  }

  /** `[int(time_start), int(time_stop)]`, the span `read_signal` asks for. */
  function ReadWindow(t0: real, sta: int, fs: int, ii: int): (w: (int, int))
    requires fs > 0
  {
    var s := ReadSpan(t0, sta, fs, ii);
    (TruncToInt(s.0), TruncToInt(s.1))
  }

  lemma TruncMonotone(x: real, y: real)
    requires x <= y
    ensures TruncToInt(x) <= TruncToInt(y)
  {
  }

  /** With the whole overlap before the start, no read begins before the
      recording: every window starts at or after `int(t0 * 1e6)`. */
  lemma ReadsStartInRecording(t0: real, sta: int, fs: int, ii: int)
    requires fs > 0 && ii >= 0 && sta as real >= Overlap * fs as real
    ensures ReadWindow(t0, sta, fs, ii).0 >= TruncToInt(t0 * 1000000.0)
  {
    var s := ReadSpan(t0, sta, fs, ii);
    assert sta as real / fs as real >= Overlap;
    assert s.0 >= t0 * 1000000.0;
    TruncMonotone(t0 * 1000000.0, s.0);
  }

  /** The reads of the `Ne` epochs end at most one overlap past the last
      sample of the recording. */
  lemma ReadsEndNearRecording(t0: real, nsamp: int, sta: int, fs: int, ii: int)
    requires fs > 0 && nsamp >= sta && 0 <= ii < EpochCount(nsamp, sta, fs)
    ensures ReadSpan(t0, sta, fs, ii).1 <= (t0 + nsamp as real / fs as real + Overlap) * 1000000.0
  {
    var ne := EpochCount(nsamp, sta, fs);
    EpochsFit(nsamp, sta, fs);
    assert 30 * fs * (ii + 1) <= 30 * fs * ne by {
      MulMonotone(30 * fs, ii + 1, ne);
    }
    var f := fs as real;
    assert (sta + 30 * fs * (ii + 1)) as real <= nsamp as real;
    DivMonotone((sta + 30 * fs * (ii + 1)) as real, nsamp as real, f);
    assert (sta + 30 * fs * (ii + 1)) as real / f == sta as real / f + (ii + 1) as real * 30.0;
  }

  lemma MulMonotone(a: int, b: int, c: int)
    requires a >= 0 && b <= c
    ensures a * b <= a * c
  {
  }

  lemma DivMonotone(x: real, y: real, d: real)
    requires d > 0.0 && x <= y
    ensures x / d <= y / d
  {
  }

  /** What the script keeps: `feature` (channel, epoch, feature) after the
      transpose, `night` and `sleep_stage`, cut to the epochs counted. */
  datatype Run = Run(feature: seq<seq<seq<Fp>>>, night: seq<bool>, stage: seq<seq<real>>)

  /** The epochs kept after the closing `ne += 1`: the slice `0:ne` of a
      1500-epoch tensor. */
  function Kept(ne: nat): (k: nat)
    ensures k <= MaxEpochs && (ne < MaxEpochs ==> k == ne + 1)
  {
    if ne + 1 <= MaxEpochs then ne + 1 else MaxEpochs
  }

  /** The 24 zeros of an epoch `np.zeros` allocated and no pass wrote. */
  function ZeroFeatures(): (z: seq<Fp>)
    ensures |z| == NFeat && forall f :: 0 <= f < NFeat ==> z[f] == Finite(0.0)
  {
    seq(NFeat, f => Finite(0.0))
  }

  /** The first columns of `sleep_stage` the script sets before the loop:
      the stage `nf = 1` and `int(start_time + k / 2880)`. */
  function StageHead(k: nat, startUs: real): seq<real>
  {
    [1.0, TruncToInt(startUs + k as real / 2880.0) as real, 0.0, 0.0, 0.0]
  }

  /** A row of `sleep_stage` after the loop: epoch k < Ne also has
      `sta + 30 * fs * (k - 1)` in its last column; the others stay zero. */
  function StageRow(k: nat, ne: nat, startUs: real, sta: int, fs: int): (row: seq<real>)
    ensures |row| == 5
  {
    if k < ne then StageHead(k, startUs)[4 := (sta + 30 * fs * (k - 1)) as real]
    else [0.0, 0.0, 0.0, 0.0, 0.0]
  }

  /** Every epoch gives `nch` feature vectors of 24 entries. */
  ghost predicate WellShaped(nch: nat, feats: seq<seq<seq<Fp>>>) {
    forall ii :: 0 <= ii < |feats| ==>
      |feats[ii]| == nch && forall i :: 0 <= i < nch ==> |feats[ii][i]| == NFeat
  }

  /** The outcome of the epoch loop, given the feature vectors
      `feats[ii][i]` that `compute_features` produced for channel i of epoch
      ii. A negative `Ne` makes `np.ones(Ne)` raise ValueError; more than
      1500 epochs do not fit the 1500 rows of `sleep_stage` (ValueError);
      no epoch at all leaves `feature` undefined (NameError). */
  function Collected(ne: int, nch: nat, feats: seq<seq<seq<Fp>>>, startUs: real, sta: int, fs: int): (r: Result<Run>)
    requires ne <= |feats| && WellShaped(nch, feats)
    ensures r.Ok? <==> 1 <= ne <= MaxEpochs
  {
    if ne < 0 || ne > MaxEpochs then Raise(ValueError)
    else if ne == 0 then Raise(NameError)
    else
      var k := Kept(ne);
      Ok(Run(seq(nch, i requires 0 <= i < nch => seq(k, e requires 0 <= e < k => if e < ne then feats[e][i] else ZeroFeatures())),
             seq(k, e => true),
             seq(k, e requires 0 <= e < k => StageRow(e, ne, startUs, sta, fs))))
  }

  /** The failures of the schedule. */
  lemma CollectedFails(ne: int, nch: nat, feats: seq<seq<seq<Fp>>>, startUs: real, sta: int, fs: int)
    requires ne <= |feats| && WellShaped(nch, feats)
    ensures var r := Collected(ne, nch, feats, startUs, sta, fs);
      (r.Raise? && r.exc == NameError <==> ne == 0)
      && (r.Raise? && r.exc == ValueError <==> ne < 0 || ne > MaxEpochs)
  {
  }

  /** On success: one row per channel and one entry per kept epoch (Ne + 1,
      unless that passes 1500); epoch ii holds the features computed in pass
      ii; the extra epoch, when there is room for it, is all zero; and every
      kept epoch is flagged night. */
  lemma CollectedLayout(ne: int, nch: nat, feats: seq<seq<seq<Fp>>>, startUs: real, sta: int, fs: int)
    requires ne <= |feats| && WellShaped(nch, feats)
    requires 1 <= ne <= MaxEpochs
    ensures var run := Collected(ne, nch, feats, startUs, sta, fs).value;
      |run.feature| == nch && |run.night| == Kept(ne) && |run.stage| == Kept(ne)
      && (forall i :: 0 <= i < nch ==> |run.feature[i]| == Kept(ne))
      && (forall i, ii :: 0 <= i < nch && 0 <= ii < ne ==> run.feature[i][ii] == feats[ii][i])
      && (ne < MaxEpochs ==> forall i :: 0 <= i < nch ==> run.feature[i][ne] == ZeroFeatures())
      && (forall e :: 0 <= e < Kept(ne) ==> run.night[e])
  {
  }

  /** The vector of every channel of one pass, `feature[:, i, ne] = ...` for
      each channel i. Nothing else in the tensor changes. */
  method StoreEpoch(feature: array<seq<seq<Fp>>>, ne: nat, vecs: seq<seq<Fp>>)
    requires ne < feature.Length && |feature[ne]| == |vecs|
    modifies feature
    ensures feature[..] == old(feature[..])[ne := vecs]
  {
    for i := 0 to |vecs|
      invariant |feature[ne]| == |vecs|
      invariant feature[ne][..i] == vecs[..i]
      invariant feature[ne][i..] == old(feature[ne])[i..]
      invariant forall e :: 0 <= e < feature.Length && e != ne ==> feature[e] == old(feature[e])
    {
      feature[ne] := feature[ne][i := vecs[i]];
    }
    assert feature[ne] == feature[ne][..|vecs|];
    forall e | 0 <= e < feature.Length
      ensures feature[..][e] == old(feature[..])[ne := vecs][e]
    {
    }
  }

  /** `sleep_stage` after the loop, all 1500 rows. */
  function StageTable(ne: nat, startUs: real, sta: int, fs: int): (t: seq<seq<real>>)
    ensures |t| == MaxEpochs
  {
    seq(MaxEpochs, k requires 0 <= k < MaxEpochs => StageRow(k, ne, startUs, sta, fs))
  }

  /** The feature tensor after the loop, epoch by epoch: the vectors of the
      passes, then the zeros of the allocation. */
  function EpochTable(ne: nat, nch: nat, feats: seq<seq<seq<Fp>>>): (t: seq<seq<seq<Fp>>>)
    requires ne <= |feats|
    ensures |t| == MaxEpochs
  {
    seq(MaxEpochs, e requires 0 <= e < MaxEpochs => if e < ne then feats[e] else seq(nch, i => ZeroFeatures()))
  }

  /** The transpose `(1, 2, 0)` of the first k epochs of a tensor kept epoch
      by epoch. */
  function ByChannel(nch: nat, k: nat, cut: seq<seq<seq<Fp>>>): (f: seq<seq<seq<Fp>>>)
    requires k <= |cut| && forall e :: 0 <= e < k ==> |cut[e]| == nch
    ensures |f| == nch && forall i :: 0 <= i < nch ==> |f[i]| == k
    ensures forall i, e :: 0 <= i < nch && 0 <= e < k ==> f[i][e] == cut[e][i]
  {
    seq(nch, i requires 0 <= i < nch => seq(k, e requires 0 <= e < k => cut[e][i]))
  }

  /** The transpose loses nothing: transposing back gives the epochs it was
      taken from. */
  lemma ByChannelRoundTrip(nch: nat, k: nat, cut: seq<seq<seq<Fp>>>)
    requires k <= |cut| && forall e :: 0 <= e < k ==> |cut[e]| == nch
    ensures ByChannel(k, nch, ByChannel(nch, k, cut)) == cut[..k]
  {
    var f := ByChannel(nch, k, cut);
    var back := ByChannel(k, nch, f);
    forall e | 0 <= e < k
      ensures back[e] == cut[e]
    {
      assert |back[e]| == |cut[e]|;
      forall i | 0 <= i < nch
        ensures back[e][i] == cut[e][i]
      {
        assert back[e][i] == f[i][e];
      }
    }
  }

  /** Cutting the tables after the loop gives the schedule's outcome. */
  lemma CutIsCollected(ne: int, nch: nat, feats: seq<seq<seq<Fp>>>, startUs: real, sta: int, fs: int)
    requires ne <= |feats| && WellShaped(nch, feats) && 1 <= ne <= MaxEpochs
    ensures var k := Kept(ne); var cut := EpochTable(ne, nch, feats)[..k];
      (forall e :: 0 <= e < k ==> |cut[e]| == nch)
      && Collected(ne, nch, feats, startUs, sta, fs)
         == Ok(Run(ByChannel(nch, k, cut), seq(k, e => true), StageTable(ne, startUs, sta, fs)[..k]))
  {
    var k := Kept(ne);
    var cut := EpochTable(ne, nch, feats)[..k];
    var run := Collected(ne, nch, feats, startUs, sta, fs).value;
    var f := ByChannel(nch, k, cut);
    forall i | 0 <= i < nch
      ensures run.feature[i] == f[i]
    {
    }
    assert run.feature == f;
    assert run.stage == StageTable(ne, startUs, sta, fs)[..k];
  }

  /** `sleep_stage` as allocated and given its first columns before the
      loop: rows below `Ne` hold the stage and the time, the rest zeros. */
  method InitStage(ne0: nat, startUs: real) returns (stage: array<seq<real>>)
    requires ne0 <= MaxEpochs
    ensures fresh(stage) && stage.Length == MaxEpochs
    ensures forall k :: 0 <= k < ne0 ==> stage[k] == StageHead(k, startUs)
    ensures forall k :: ne0 <= k < MaxEpochs ==> stage[k] == StageRow(k, ne0, startUs, 0, 0)
  {
    stage := new seq<real>[MaxEpochs](k => [0.0, 0.0, 0.0, 0.0, 0.0]);
    forall k | 0 <= k < ne0 {
      stage[k] := StageHead(k, startUs);
    }
  }

  /** The passes of the loop over the preallocated tables. */
  method RunPasses(feature: array<seq<seq<Fp>>>, night: array<bool>, stage: array<seq<real>>,
                   ne0: nat, nch: nat, feats: seq<seq<seq<Fp>>>, startUs: real, sta: int, fs: int)
    requires ne0 <= |feats| && ne0 <= MaxEpochs && WellShaped(nch, feats)
    requires feature.Length == MaxEpochs && night.Length == MaxEpochs && stage.Length == MaxEpochs
    requires forall e :: 0 <= e < MaxEpochs ==> feature[e] == seq(nch, i => ZeroFeatures())
    requires forall e :: 0 <= e < MaxEpochs ==> night[e]
    requires forall k :: 0 <= k < ne0 ==> stage[k] == StageHead(k, startUs)
    requires forall k :: ne0 <= k < MaxEpochs ==> stage[k] == StageRow(k, ne0, startUs, sta, fs)
    modifies feature, night, stage
    ensures feature[..] == EpochTable(ne0, nch, feats)
    ensures forall e :: 0 <= e < MaxEpochs ==> night[e]
    ensures stage[..] == StageTable(ne0, startUs, sta, fs)
  {
    var nf, nnf := 1, 1;
    var ne := 0;
    for ii := 0 to ne0
      invariant ne == ii
      invariant forall e :: 0 <= e < ii ==> feature[e] == feats[e]
      invariant forall e :: ii <= e < MaxEpochs ==> feature[e] == seq(nch, i => ZeroFeatures())
      invariant forall e :: 0 <= e < MaxEpochs ==> night[e]
      invariant forall k :: 0 <= k < ii ==> stage[k] == StageRow(k, ne0, startUs, sta, fs)
      invariant forall k :: ii <= k < ne0 ==> stage[k] == StageHead(k, startUs)
      invariant forall k :: ne0 <= k < MaxEpochs ==> stage[k] == StageRow(k, ne0, startUs, sta, fs)
    {
      StoreEpoch(feature, ne, feats[ii]);
      night[ne] := nf <= nnf;
      stage[ne] := stage[ne][4 := (sta + 30 * fs * (ii - 1)) as real];
      ne := ne + 1;
    }
    assert feature[..] == EpochTable(ne0, nch, feats);
    assert stage[..] == StageTable(ne0, startUs, sta, fs);
  }

  /** The epoch loop of the script: `sleep_stage` and `night` are allocated
      for 1500 epochs, the first columns of `sleep_stage` are set for the
      `Ne` epochs, and each pass stores its feature vectors at index `ne`,
      flags the epoch night (`nf <= nnf` with `nf = nnf = 1`) and records its
      start sample; `ne` is then bumped once more and the tensors are cut to
      `0:ne`. The tensor is kept epoch by epoch; its allocation happens before
      the first pass rather than inside it. */
  method CollectEpochs(ne0: int, nch: nat, feats: seq<seq<seq<Fp>>>, startUs: real, sta: int, fs: int)
    returns (r: Result<Run>)
    requires ne0 <= |feats| && WellShaped(nch, feats)
    ensures r == Collected(ne0, nch, feats, startUs, sta, fs)
  {
    if ne0 < 0 || ne0 > MaxEpochs {
      return Raise(ValueError);
    }
    var stage := InitStage(ne0, startUs);
    var night := new bool[MaxEpochs](k => true);
    if ne0 == 0 {
      return Raise(NameError);
    }
    var feature := new seq<seq<Fp>>[MaxEpochs](e => seq(nch, i => ZeroFeatures()));
    RunPasses(feature, night, stage, ne0, nch, feats, startUs, sta, fs);
    var ne := ne0 + 1;
    var k := if ne <= MaxEpochs then ne else MaxEpochs;
    CutIsCollected(ne0, nch, feats, startUs, sta, fs);
    assert night[..k] == seq(k, e => true);
    r := Ok(Run(ByChannel(nch, k, feature[..k]), night[..k], stage[..k]));
  }
}
