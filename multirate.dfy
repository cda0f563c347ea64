/** `change_sampling_rate` (utils.py): conversion of a block of samples taken
    at 2000 or 5000 samples per second by a fixed chain of FIR filtering,
    decimation by 5 and zero-stuffing interpolation by 4, all with the one
    55-tap low-pass filter `hd5`. A block is a sequence of columns, one per
    channel; every stage of the source works along axis 0, column by column. */
module Multirate {
  import opened Numerics
  import opened Outcomes
  import opened Dsp

  /** `od5`: the order of `hd5`; the source pads and discards `od5 // 2` samples. */
  const Od5: nat := 54
  const Delay: nat := Od5 / 2

  /** The 55 taps of the low-pass filter `hd5`, utils.py:140-153 (written as
      two literals, up to and after the centre tap). */
  const Hd5: seq<real> := [
    -0.000413312132792, 0.000384910656353, 0.000895384486596, 0.001426584098180,
    0.001572675788393, 0.000956099017099, -0.000559378457343, -0.002678217568221,
    -0.004629975982837, -0.005358589238386, -0.003933117464092, -0.000059710059922,
    0.005521319363883, 0.010983495478404, 0.013840996082966, 0.011817315106321,
    0.003905283425021, -0.008768844009700, -0.022682212400564, -0.032498023687148,
    -0.032456772047175, -0.018225658085891, 0.011386634156651, 0.053456542440034,
    0.101168250947271, 0.145263694388270, 0.176384224234024, 0.187607302744229] + [
    0.176384224234024, 0.145263694388270, 0.101168250947271, 0.053456542440034,
    0.011386634156651, -0.018225658085891, -0.032456772047175, -0.032498023687148,
    -0.022682212400564, -0.008768844009700, 0.003905283425021, 0.011817315106321,
    0.013840996082966, 0.010983495478404, 0.005521319363883, -0.000059710059922,
    -0.003933117464092, -0.005358589238386, -0.004629975982837, -0.002678217568221,
    -0.000559378457343, 0.000956099017099, 0.001572675788393, 0.001426584098180,
    0.000895384486596, 0.000384910656353, -0.000413312132792]

  /** The filter has `od5 + 1` taps and is symmetric, hence linear-phase with
      a delay of `od5 // 2` samples, the amount the filter stage discards. */
  lemma Hd5Symmetric()
    ensures |Hd5| == Od5 + 1
    ensures forall k :: 0 <= k < |Hd5| ==> Hd5[k] == Hd5[Od5 - k]
  {
    forall k | 0 <= k <= Od5 / 2 ensures Hd5[k] == Hd5[Od5 - k] {
      assert k == 0 || k == 1 || k == 2 || k == 3 || k == 4 || k == 5 || k == 6 || k == 7 || k == 8 || k == 9 || k == 10 || k == 11 || k == 12 || k == 13 || k == 14 || k == 15 || k == 16 || k == 17 || k == 18 || k == 19 || k == 20 || k == 21 || k == 22 || k == 23 || k == 24 || k == 25 || k == 26 || k == 27;
    }
  }

  /** One filter stage, `lfilter(hd5, 1, np.concatenate([x, z]))[od5 // 2:]`:
      append `od5 // 2` zeros, filter causally, drop the first `od5 // 2`
      outputs. */
  function FilterStage(x: seq<real>): seq<real> {
    Lfilter(Hd5, x + Zeros(Delay))[Delay..]
  }

  /** A filter stage followed by `x[::5, :]`. */
  function FilterDecimate(x: seq<real>): seq<real> {
    Stride(FilterStage(x), 5)
  }

  /** One interpolate-then-decimate step, as both branches chain them. */
  function Resample(x: seq<real>, l: nat, gain: real): seq<real>
    requires l > 0
  {
    FilterDecimate(ZeroStuff(x, l, gain))
  }

  /** The 2000 samples/s branch, utils.py:155-168, on one column: a filtered
      decimation by 5, then twice zero-stuffing by 4 with gain 4 followed by a
      filtered decimation by 5. */
  function Convert2000(x: seq<real>): seq<real> {
    Resample(Resample(FilterDecimate(x), 4, 4.0), 4, 4.0)
  }

  /** The 5000 samples/s branch as written, utils.py:170-189, on one column:
      four decimations by 5 and three interpolations by 4, the first of them
      with gain 2. */
  function Convert5000(x: seq<real>): seq<real> {
    Resample(Resample(Resample(FilterDecimate(x), 4, 2.0), 4, 4.0), 4, 4.0)
  }

  /** The 5000 samples/s branch as its gain of 2 and its 256 samples/s target
      call for: the first interpolation is by 2, not by 4. */
  function Convert5000Intended(x: seq<real>): seq<real> {
    Resample(Resample(Resample(FilterDecimate(x), 2, 2.0), 4, 4.0), 4, 4.0)
  }

  /** `change_sampling_rate(x, fs)`, column by column; any rate other than
      2000 and 5000 raises ValueError. So does a block with no channel: the
      first `lfilter` applies `np.convolve` along axis 0 with
      `np.apply_along_axis`, which refuses an array with no column. (A
      channel is never empty there: 27 zeros are appended to it first.) */
  function ChangeSamplingRate(x: seq<seq<real>>, fs: int): (r: Result<seq<seq<real>>>)
    ensures r.Ok? <==> (fs == 2000 || fs == 5000) && |x| > 0
    ensures r.Raise? ==> r.exc == ValueError
    ensures r.Ok? ==> |r.value| == |x|
  {
    if fs == 2000 && |x| > 0 then Ok(seq(|x|, c requires 0 <= c < |x| => Convert2000(x[c])))
    else if fs == 5000 && |x| > 0 then Ok(seq(|x|, c requires 0 <= c < |x| => Convert5000(x[c])))
    else Raise(ValueError)
  }

  /** `change_sampling_rate` with the 5000 samples/s branch corrected. */
  function ChangeSamplingRateIntended(x: seq<seq<real>>, fs: int): (r: Result<seq<seq<real>>>)
    ensures r.Ok? <==> (fs == 2000 || fs == 5000) && |x| > 0
    ensures r.Raise? ==> r.exc == ValueError
    ensures r.Ok? ==> |r.value| == |x|
  {
    if fs == 2000 && |x| > 0 then Ok(seq(|x|, c requires 0 <= c < |x| => Convert2000(x[c])))
    else if fs == 5000 && |x| > 0 then Ok(seq(|x|, c requires 0 <= c < |x| => Convert5000Intended(x[c])))
    else Raise(ValueError)
  }

  /** Output `m` of a filter stage is the filter centred on input `m`: it
      weighs `x[m + 27 - k]` by `hd5[k]`, reaching 27 samples either side,
      with zeros beyond both ends of the block. */
  lemma FilterStageAt(x: seq<real>, m: nat)
    requires m < |x|
    ensures |FilterStage(x)| == |x|
    ensures FilterStage(x)[m] == FirSum(Hd5, x, m + Delay, |Hd5|)
  {
    FirSumPadded(Hd5, x, Delay, m + Delay, |Hd5|);
  }

  lemma FilterStageLinear(c: real, x: seq<real>, y: seq<real>)
    requires |x| == |y|
    ensures FilterStage(Lin(c, x, y)) == Lin(c, FilterStage(x), FilterStage(y))
  {
    var z := Zeros(Delay);
    LinZeros(c, Delay);
    LinAppend(c, x, z, y, z);
    LfilterLinear(Hd5, c, x + z, y + z);
    LinSlice(c, Lfilter(Hd5, x + z), Lfilter(Hd5, y + z), Delay);
  }

  lemma FilterDecimateLinear(c: real, x: seq<real>, y: seq<real>)
    requires |x| == |y|
    ensures |FilterDecimate(x)| == |FilterDecimate(y)|
    ensures FilterDecimate(Lin(c, x, y)) == Lin(c, FilterDecimate(x), FilterDecimate(y))
  {
    FilterStageLinear(c, x, y);
    StrideLinear(c, FilterStage(x), FilterStage(y), 5);
  }

  lemma ResampleLinear(c: real, x: seq<real>, y: seq<real>, l: nat, gain: real)
    requires l > 0 && |x| == |y|
    ensures |Resample(x, l, gain)| == |Resample(y, l, gain)|
    ensures Resample(Lin(c, x, y), l, gain) == Lin(c, Resample(x, l, gain), Resample(y, l, gain))
  {
    ZeroStuffLinear(c, x, y, l, gain);
    FilterDecimateLinear(c, ZeroStuff(x, l, gain), ZeroStuff(y, l, gain));
  }

  /** Every filtered decimation of `5 * q` samples keeps `q` of them. */
  lemma FilterDecimateLength(x: seq<real>, q: nat)
    requires |x| == 5 * q
    ensures |FilterDecimate(x)| == q
  {
    StrideLength(FilterStage(x), 5);
    StrideLength5(|x|, |FilterDecimate(x)|);
  }

  lemma ResampleLength(x: seq<real>, l: nat, gain: real, q: nat)
    requires l > 0 && l * |x| == 5 * q
    ensures |Resample(x, l, gain)| == q
  {
    ZeroStuffLength(x, l, gain);
    FilterDecimateLength(ZeroStuff(x, l, gain), q);
  }

  /** At 2000 samples/s every 125 input samples become 16 output samples:
      256 samples per second of signal. */
  lemma Convert2000Length(x: seq<real>, q: nat)
    requires |x| == 125 * q
    ensures |Convert2000(x)| == 16 * q
  {
    var a := FilterDecimate(x);
    FilterDecimateLength(x, 25 * q);
    var b := Resample(a, 4, 4.0);
    ResampleLength(a, 4, 4.0, 20 * q);
    ResampleLength(b, 4, 4.0, 16 * q);
  }

  /** As written, at 5000 samples/s every 625 input samples become 64 output
      samples: 512 samples per second of signal, twice the rate of the 2000
      samples/s branch. */
  lemma Convert5000Length(x: seq<real>, q: nat)
    requires |x| == 625 * q
    ensures |Convert5000(x)| == 64 * q
  {
    var a := FilterDecimate(x);
    FilterDecimateLength(x, 125 * q);
    var b := Resample(a, 4, 2.0);
    ResampleLength(a, 4, 2.0, 100 * q);
    var c := Resample(b, 4, 4.0);
    ResampleLength(b, 4, 4.0, 80 * q);
    ResampleLength(c, 4, 4.0, 64 * q);
  }

  /** With the first interpolation by 2, every 625 input samples become 32
      output samples: 256 samples per second, as at 2000 samples/s. */
  lemma Convert5000IntendedLength(x: seq<real>, q: nat)
    requires |x| == 625 * q
    ensures |Convert5000Intended(x)| == 32 * q
  {
    var a := FilterDecimate(x);
    FilterDecimateLength(x, 125 * q);
    var b := Resample(a, 2, 2.0);
    ResampleLength(a, 2, 2.0, 50 * q);
    var c := Resample(b, 4, 4.0);
    ResampleLength(b, 4, 4.0, 40 * q);
    ResampleLength(c, 4, 4.0, 32 * q);
  }

  /** The conversion is a linear map of the column: it commutes with
      `c * x + y`. */
  lemma Convert2000Linear(c: real, x: seq<real>, y: seq<real>)
    requires |x| == |y|
    ensures |Convert2000(x)| == |Convert2000(y)|
    ensures Convert2000(Lin(c, x, y)) == Lin(c, Convert2000(x), Convert2000(y))
  {
    FilterDecimateLinear(c, x, y);
    var a, a' := FilterDecimate(x), FilterDecimate(y);
    ResampleLinear(c, a, a', 4, 4.0);
    ResampleLinear(c, Resample(a, 4, 4.0), Resample(a', 4, 4.0), 4, 4.0);
  }

  lemma Convert5000Linear(c: real, x: seq<real>, y: seq<real>)
    requires |x| == |y|
    ensures |Convert5000(x)| == |Convert5000(y)|
    ensures Convert5000(Lin(c, x, y)) == Lin(c, Convert5000(x), Convert5000(y))
  {
    FilterDecimateLinear(c, x, y);
    var a, a' := FilterDecimate(x), FilterDecimate(y);
    ResampleLinear(c, a, a', 4, 2.0);
    var b, b' := Resample(a, 4, 2.0), Resample(a', 4, 2.0);
    ResampleLinear(c, b, b', 4, 4.0);
    ResampleLinear(c, Resample(b, 4, 4.0), Resample(b', 4, 4.0), 4, 4.0);
  }

  lemma Convert5000IntendedLinear(c: real, x: seq<real>, y: seq<real>)
    requires |x| == |y|
    ensures |Convert5000Intended(x)| == |Convert5000Intended(y)|
    ensures Convert5000Intended(Lin(c, x, y)) == Lin(c, Convert5000Intended(x), Convert5000Intended(y))
  {
    FilterDecimateLinear(c, x, y);
    var a, a' := FilterDecimate(x), FilterDecimate(y);
    ResampleLinear(c, a, a', 2, 2.0);
    var b, b' := Resample(a, 2, 2.0), Resample(a', 2, 2.0);
    ResampleLinear(c, b, b', 4, 4.0);
    ResampleLinear(c, Resample(b, 4, 4.0), Resample(b', 4, 4.0), 4, 4.0);
  }

  /** A silent channel stays silent: a column of zeros converts to zeros. */
  lemma Convert2000Silence(n: nat)
    ensures Convert2000(Zeros(n)) == Zeros(|Convert2000(Zeros(n))|)
  {
    var x := Zeros(n);
    LinNegSelf(x);
    Convert2000Linear(-1.0, x, x);
    LinNegSelf(Convert2000(x));
  }

  lemma Convert5000Silence(n: nat)
    ensures Convert5000(Zeros(n)) == Zeros(|Convert5000(Zeros(n))|)
  {
    var x := Zeros(n);
    LinNegSelf(x);
    Convert5000Linear(-1.0, x, x);
    LinNegSelf(Convert5000(x));
  }

  lemma ChangeSamplingRateSilence(x: seq<seq<real>>, fs: int)
    requires forall c :: 0 <= c < |x| ==> x[c] == Zeros(|x[c]|)
    ensures var r := ChangeSamplingRate(x, fs);
      r.Ok? ==> forall c :: 0 <= c < |x| ==> r.value[c] == Zeros(|r.value[c]|)
  {
    forall c | 0 <= c < |x| && (fs == 2000 || fs == 5000)
      ensures ChangeSamplingRate(x, fs).value[c] == Zeros(|ChangeSamplingRate(x, fs).value[c]|)
    {
      if fs == 2000 { Convert2000Silence(|x[c]|); } else { Convert5000Silence(|x[c]|); }
    }
  }

  /** Block lengths: with every column holding a whole number of
      125-sample (2000 samples/s) or 625-sample (5000 samples/s) periods,
      the output columns hold 16 or 64 samples per period. */
  lemma ChangeSamplingRateLength(x: seq<seq<real>>, fs: int, q: nat)
    requires fs == 2000 ==> forall c :: 0 <= c < |x| ==> |x[c]| == 125 * q
    requires fs == 5000 ==> forall c :: 0 <= c < |x| ==> |x[c]| == 625 * q
    ensures var r := ChangeSamplingRate(x, fs);
      r.Ok? ==> forall c :: 0 <= c < |x| ==> |r.value[c]| == (if fs == 2000 then 16 * q else 64 * q)
  {
    forall c | 0 <= c < |x| && (fs == 2000 || fs == 5000)
      ensures |ChangeSamplingRate(x, fs).value[c]| == (if fs == 2000 then 16 * q else 64 * q)
    {
      if fs == 2000 { Convert2000Length(x[c], q); } else { Convert5000Length(x[c], q); }
    }
  }

  lemma ChangeSamplingRateIntendedLength(x: seq<seq<real>>, fs: int, q: nat)
    requires fs == 2000 ==> forall c :: 0 <= c < |x| ==> |x[c]| == 125 * q
    requires fs == 5000 ==> forall c :: 0 <= c < |x| ==> |x[c]| == 625 * q
    ensures var r := ChangeSamplingRateIntended(x, fs);
      r.Ok? ==> forall c :: 0 <= c < |x| ==> |r.value[c]| == (if fs == 2000 then 16 * q else 32 * q)
  {
    forall c | 0 <= c < |x| && (fs == 2000 || fs == 5000)
      ensures |ChangeSamplingRateIntended(x, fs).value[c]| == (if fs == 2000 then 16 * q else 32 * q)
    {
      if fs == 2000 { Convert2000Length(x[c], q); } else { Convert5000IntendedLength(x[c], q); }
    }
  }
}
