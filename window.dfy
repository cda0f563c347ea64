/** The cut of every converted epoch in the feature script
    (sleep_features_v2.py, lines 72-74): `signal[63:, :]`, then
    `signal[:8192, :]`, then `signal - np.tile(np.mean(signal), (8192, 1))`.
    A block is a sequence of columns, one per bipolar channel, each with the
    block's `n` rows. `np.mean` of a 2-D array is the mean of all its
    entries, so one offset is subtracted from every channel. */
module EpochWindow {
  import opened Numerics
  import opened Outcomes
  import Multirate

  /** The converted samples skipped at the front of an epoch, and the
      window kept after them. */
  const Skip: nat := 63
  const Len: nat := 8192

  /** The rows `signal[63:][:8192]` keeps out of `n`. */
  function CutRows(n: nat): (m: nat)
    ensures m <= Len
    ensures n >= Skip + Len ==> m == Len
  {
    if n <= Skip then 0 else if n - Skip >= Len then Len else n - Skip
  }

  /** `col[63:][:8192]`. */
  function Cut(col: seq<real>): (r: seq<real>)
    ensures |r| == CutRows(|col|)
    ensures forall t :: 0 <= t < |r| ==> r[t] == col[Skip + t]
  {
    if |col| <= Skip then []
    else if |col| - Skip >= Len then col[Skip..Skip + Len]
    else col[Skip..]
  }

  /** The entries of a block, column after column. */
  function Flatten(x: seq<seq<real>>): seq<real>
  {
    if |x| == 0 then [] else x[0] + Flatten(x[1..])
  }

  /** `s - m`. */
  function Shift(s: seq<real>, m: real): (r: seq<real>)
    ensures |r| == |s| && forall i :: 0 <= i < |s| ==> r[i] == s[i] - m
  {
    seq(|s|, i requires 0 <= i < |s| => s[i] - m)
  }

  /** Lines 72-74 on a block of `n` rows. The tile of shape (8192, 1)
      broadcasts against the cut only when the cut has 8192 rows or a single
      one (which is then repeated); any other count raises ValueError. With
      no channel there is no entry to shift, and the mean is not used. */
  function EpochSignal(x: seq<seq<real>>, n: nat): (r: Result<seq<seq<real>>>)
    requires forall c :: 0 <= c < |x| ==> |x[c]| == n
    ensures r.Ok? <==> CutRows(n) == Len || CutRows(n) == 1
    ensures r.Raise? ==> r.exc == ValueError
    ensures r.Ok? ==> |r.value| == |x| && forall c :: 0 <= c < |x| ==> |r.value[c]| == Len
  {
    var m := CutRows(n);
    if m != Len && m != 1 then Raise(ValueError)
    else
      var cut := seq(|x|, c requires 0 <= c < |x| => Cut(x[c]));
      var mu := Mean(Flatten(cut));
      var mean := if mu.Finite? then mu.v else 0.0;
      Ok(seq(|x|, c requires 0 <= c < |x| =>
        seq(Len, t requires 0 <= t < Len => cut[c][if m == 1 then 0 else t] - mean)))
  }

  /** The mean the window subtracts: the mean of every entry of every
      channel in rows 63 .. 8254. */
  function WindowMean(x: seq<seq<real>>): real
    requires forall c :: 0 <= c < |x| ==> |x[c]| >= Skip + Len
  {
    var cut := seq(|x|, c requires 0 <= c < |x| => Cut(x[c]));
    if |x| == 0 then 0.0 else Sum(Flatten(cut)) / (Len * |x|) as real
  }

  lemma {:induction false} FlattenLength(x: seq<seq<real>>, m: nat)
    requires forall c :: 0 <= c < |x| ==> |x[c]| == m
    ensures |Flatten(x)| == m * |x|
  {
    if |x| > 0 {
      FlattenLength(x[1..], m);
    }
  }

  /** A long enough block is cut without error: entry t of channel c is
      sample 63 + t minus the mean of the whole window. */
  lemma EpochSignalAt(x: seq<seq<real>>, n: nat)
    requires n >= Skip + Len && forall c :: 0 <= c < |x| ==> |x[c]| == n
    ensures EpochSignal(x, n).Ok?
    ensures forall c, t :: 0 <= c < |x| && 0 <= t < Len ==>
      EpochSignal(x, n).value[c][t] == x[c][Skip + t] - WindowMean(x)
  {
    var cut := seq(|x|, c requires 0 <= c < |x| => Cut(x[c]));
    FlattenLength(cut, Len);
    if |x| > 0 {
      assert Mean(Flatten(cut)) == Finite(Sum(Flatten(cut)) / (Len * |x|) as real);
    }
  }

  /** One offset for every channel: the window changes every sample of
      every channel by the same amount, so the differences between channels
      are kept. */
  lemma SameOffset(x: seq<seq<real>>, n: nat, c: nat, c': nat, t: nat, t': nat)
    requires n >= Skip + Len && forall k :: 0 <= k < |x| ==> |x[k]| == n
    requires c < |x| && c' < |x| && t < Len && t' < Len
    ensures EpochSignal(x, n).Ok?
    ensures x[c][Skip + t] - EpochSignal(x, n).value[c][t] == x[c'][Skip + t'] - EpochSignal(x, n).value[c'][t']
  {
    EpochSignalAt(x, n);
  }

  lemma {:induction false} SumShift(s: seq<real>, m: real)
    ensures Sum(Shift(s, m)) == Sum(s) - |s| as real * m
  {
    if |s| > 0 {
      assert Shift(s, m)[1..] == Shift(s[1..], m);
      SumShift(s[1..], m);
    }
  }

  lemma {:induction false} FlattenShift(x: seq<seq<real>>, y: seq<seq<real>>, m: real)
    requires |x| == |y| && forall c :: 0 <= c < |x| ==> y[c] == Shift(x[c], m)
    ensures Flatten(y) == Shift(Flatten(x), m)
  {
    if |x| > 0 {
      FlattenShift(x[1..], y[1..], m);
      var a, b := Flatten(y), Shift(Flatten(x), m);
      assert |a| == |b|;
      forall i | 0 <= i < |a|
        ensures a[i] == b[i]
      {
        if i < |x[0]| {
          assert a[i] == y[0][i];
        } else {
          assert a[i] == Flatten(y[1..])[i - |x[0]|];
        }
      }
    }
  }

  /** The window is centred as a whole: its entries over all channels sum
      to zero (each channel on its own need not be centred). */
  lemma EpochSignalCentred(x: seq<seq<real>>, n: nat)
    requires n >= Skip + Len && forall c :: 0 <= c < |x| ==> |x[c]| == n
    ensures EpochSignal(x, n).Ok?
    ensures Sum(Flatten(EpochSignal(x, n).value)) == 0.0
  {
    EpochSignalAt(x, n);
    var r := EpochSignal(x, n).value;
    var cut := seq(|x|, c requires 0 <= c < |x| => Cut(x[c]));
    var m := WindowMean(x);
    assert Flatten(r) == Shift(Flatten(cut), m) by {
      forall c | 0 <= c < |x|
        ensures r[c] == Shift(cut[c], m)
      {
      }
      FlattenShift(cut, r, m);
    }
    if |x| > 0 {
      FlattenLength(cut, Len);
      ShiftByMean(Flatten(cut), m);
    }
  }

  /** A sequence shifted by its own mean sums to zero. */
  lemma ShiftByMean(s: seq<real>, m: real)
    requires |s| > 0 && m == Sum(s) / |s| as real
    ensures Sum(Shift(s, m)) == 0.0
  {
    SumShift(s, m);
    DivCancel(Sum(s), |s| as real, m);
  }

  lemma DivCancel(a: real, n: real, m: real)
    requires n > 0.0 && m == a / n
    ensures a - n * m == 0.0
  {
  }

  /** A 32.5-second read (the 30-second epoch and 1.25 seconds either side)
      of at least one channel converts to 8320 samples at either supported
      rate, enough for the window: 65000 samples at 2000 Hz, or 162500 at
      5000 Hz with the corrected 5000 Hz branch. */
  lemma ReadFits(x: seq<seq<real>>, fs: int)
    requires fs == 2000 || fs == 5000
    requires forall c :: 0 <= c < |x| ==> |x[c]| == (if fs == 2000 then 65000 else 162500)
    ensures var r := Multirate.ChangeSamplingRateIntended(x, fs);
      (r.Ok? <==> |x| > 0) && (r.Ok? ==> forall c :: 0 <= c < |x| ==> |r.value[c]| == 8320 >= Skip + Len)
  {
    Multirate.ChangeSamplingRateIntendedLength(x, fs, if fs == 2000 then 520 else 260);
  }
}
