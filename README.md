# SleepScoring feature extraction, modelled in Dafny

This project models the signal-processing core of the SleepScoring
repository. That core computes sleep features from intracranial EEG: the
helpers in `utils.py` and the epoch loop and post-processing in
`sleep_features_v2.py`. The model covers:

- **Bipolar montage** (`montage.dfy`, module `Montage`):
  - `channel_sort_list` pads single-digit contact numbers with a zero, sorts the names and strips the padding again;
  - `define_pairs` pairs neighbouring contacts of one electrode (same letters, number one apart) and names each pair `first_number`;
  - `bipolar_montage` subtracts each pair's two columns in a new array, looking channels up through a name → column dictionary.
- **Sampling-rate conversion** (`multirate.dfy`, module `Multirate`, over `dsp.dfy`):
  - `change_sampling_rate` uses the 55-tap half-band filter `hd5`, the 27-sample group delay compensation, `x[::5]` decimation and zero-stuffing interpolation with gain;
  - 2000 Hz input goes down to 256 samples/s, and every other rate except 5000 Hz raises ValueError, as does a block with no channel.
- **The epoch window** (`window.dfy`, module `EpochWindow`): the converted block is cut to rows 63 .. 8254, and one mean, taken over all channels, is subtracted.
- **Wavelet-leader features** (`leaders.dfy`, `regression.dfy`, `features.dfy`; modules `Leaders`, `Regression`, `Features`):
  - `compute_features` truncates to a multiple of 256 samples and runs eight levels of the Daubechies-5 filter bank;
  - at each level it forms leaders (3-neighbourhood maxima combined with the finer scale's leaders) and discards transients at both ends;
  - per scale it computes the log-mean / sum-of-squares / log-std of the detail magnitudes and three log-cumulants;
  - it regresses the cumulants against scale 2..6 with count weights and returns 24 features after dropping scale 1.
  - The loop that fills `mwc`, `c` and `b` in place is `Features.FillScales` / `Features.ComputeFeatures`.
- **Epoch bookkeeping** (`epochs.dfy`, module `Epochs`):
  - the first epoch is aligned on clock second 29 or 59, with `round(sta)`, and `Ne = int((nsamp - sta) / fs / 30)` epochs are counted;
  - each epoch reads a window of 30 s plus 1.25 s either side;
  - features are stored in a preallocated 1500-epoch tensor, and the closing `ne += 1` cut keeps one epoch more than was computed.
- **Post-processing** (`columns.dfy`, `postprocess.dfy`; modules `Columns`, `PostProcess`):
  - a vector holding any NaN or infinity becomes all NaN;
  - then, for every (channel, feature) column:
    - outliers are removed: a moving average of 10 is subtracted, and values outside quartiles ± 2.5 IQR are dropped;
    - the column is smoothed with a 3-point moving average;
    - it is z-scored over night epochs;
    - it gets a discriminability score `norm(movavg10(f)) / norm(f)`.

Shared pieces:

- `outcomes.dfy` (`Outcomes`): the Python exceptions a path can raise, and a `Result` type.
- `numerics.dfy` (`Numerics`):
  - IEEE values as `Fp`, which is either `NonFinite` (NaN or an infinity) or a real;
  - Python's half-to-even `round` and truncating `int()`;
  - `MathLib`, a parameter supplying `ln`, `sqrt` and `log2(e)`.
- `sorting.dfy` (`Sorting`): a specified sort that stands in for `list.sort` and `np.sort`. `SortIsUnique` shows that any sort meeting the same contract gives the same result.

Imperative parts of the source are imperative here:

- `ChannelSortList`, `DefinePairs` and its helpers, `BipolarMontage` over an `array2`, `FillScales`, `CollectEpochs`, and `Sanitize` / `Preprocess` over an `array3`;
- each is proved against the function that specifies it.

## Model

| member | source | states |
|---|---|---|
| Numerics.RoundHalfEven | sleep_features_v2.py:42 | the result is a nearest integer to its argument, and at an exact half it is even (Python 3 `round`) |
| Numerics.TruncToInt | sleep_features_v2.py:43 | `int()` truncates toward zero: for y ≥ 0 the result is the floor, for y < 0 the ceiling |
| Numerics.Mean | utils.py:229 | the mean is finite exactly when the sequence is non-empty (`np.mean` of an empty array is NaN) |
| Dsp.Lfilter | utils.py:157 | `lfilter(b, 1, x)` has the length of x |
| Dsp.LfilterLinear | utils.py:157 | the FIR filter is linear: filtering c·x + y gives c·filter(x) + filter(y) |
| Dsp.FirSumPadded | utils.py:156-157 | appending zeros does not change any output sample at a time before the padding |
| Dsp.StrideAt | utils.py:158 | entry i of `x[::k]` is x[k·i] |
| Dsp.StrideLength | utils.py:158 | `x[::k]` has ⌈|x|/k⌉ entries |
| Dsp.StrideLinear | utils.py:158 | decimation commutes with linear combination |
| Dsp.ZeroStuffAt | utils.py:160-161 | the interleave with three zero arrays puts gain·x[i] at position l·i and zeros at the l−1 positions after it |
| Dsp.ZeroStuffLinear | utils.py:160-161 | zero-stuffing commutes with linear combination |
| Dsp.ConvSameOnes | sleep_features_v2.py:112 | `np.convolve(a, ones(m), 'same')` fails (ValueError) exactly on an empty input, and has max(|a|, m) entries |
| Dsp.Maximum | utils.py:234-235 | `np.maximum` succeeds iff the shapes broadcast (equal lengths or a single entry), each entry being the larger of the two |
| Multirate.Hd5Symmetric | utils.py:138-153 | the 55 taps of hd5 are symmetric about tap 27 (linear phase, so the 27-sample shift aligns the output) |
| Multirate.FilterStageAt | utils.py:156-157 | padding with 27 zeros, filtering and dropping 27 samples keeps the length; sample m is the filter centred on input m |
| Multirate.FilterDecimateLength | utils.py:156-158 | filtering then `[::5]` on 5q samples leaves q |
| Multirate.ResampleLength | utils.py:160-163 | interpolating by l and decimating by 5 maps n samples to l·n/5 when that is whole |
| Multirate.Convert2000Length | utils.py:155-168 | 125q samples at 2000 Hz become 16q samples (256 per second) |
| Multirate.Convert2000Linear | utils.py:155-168 | the 2000 Hz conversion is linear in its input |
| Multirate.Convert2000Silence | utils.py:155-168 | silence converts to silence |
| Multirate.Convert5000Length | utils.py:170-189 | as written, 625q samples at 5000 Hz become 64q samples: 512 per second, not 256 |
| Multirate.Convert5000Linear | utils.py:170-189 | the 5000 Hz conversion as written is linear in its input |
| Multirate.Convert5000Silence | utils.py:170-189 | silence converts to silence |
| Multirate.Convert5000IntendedLength | utils.py:170-189 | with the first interpolation by 2 (matching its gain of 2), 625q samples become 32q: 256 per second |
| Multirate.Convert5000IntendedLinear | utils.py:170-189 | the corrected 5000 Hz conversion is linear in its input |
| Multirate.ChangeSamplingRate | utils.py:129-194 | succeeds iff fs is 2000 or 5000 and the block has at least one channel, and then keeps the channel count; otherwise ValueError (an unsupported rate, or `lfilter` on a block with no column) |
| Multirate.ChangeSamplingRateIntended | utils.py:129-194 | the same with the corrected 5000 Hz branch: Ok iff fs is 2000 or 5000 and there is a channel, ValueError otherwise |
| Multirate.ChangeSamplingRateLength | utils.py:155-192 | every channel has 16q samples (2000 Hz) or 64q samples (5000 Hz as written) |
| Multirate.ChangeSamplingRateIntendedLength | utils.py:155-192 | every channel has 16q or 32q samples: 256 per second at both rates |
| Multirate.ChangeSamplingRateSilence | utils.py:129-194 | silent channels stay silent at a supported rate |
| EpochWindow.Cut | sleep_features_v2.py:72-73 | `col[63:][:8192]` keeps min(max(n − 63, 0), 8192) samples, entry t being col[63 + t] |
| EpochWindow.EpochSignal | sleep_features_v2.py:72-74 | the broadcast against the (8192, 1) tile succeeds iff the cut has 8192 rows or one row (ValueError otherwise); every channel then has 8192 samples |
| EpochWindow.EpochSignalAt | sleep_features_v2.py:72-74 | on a long enough block, sample t of channel c is input sample 63 + t minus the mean of the whole window |
| EpochWindow.SameOffset | sleep_features_v2.py:74 | the same offset is subtracted from every sample of every channel (the mean is global, not per channel) |
| EpochWindow.EpochSignalCentred | sleep_features_v2.py:74 | the window's samples over all channels sum to zero |
| EpochWindow.ReadFits | sleep_features_v2.py:60-74 | a 32.5-second read (65000 samples at 2000 Hz, 162500 at 5000 Hz) converts, when it has a channel, to 8320 samples with the corrected converter, enough for the 63 + 8192-sample cut; with no channel the conversion raises |
| Sorting.SortIsSorted | utils.py:24 | the sort's output is ordered under a total transitive order |
| Sorting.SortIsUnique | utils.py:24 | any ordered permutation equals the sort's output (so the sort algorithm does not matter) |
| Sorting.Sort | utils.py:24 | the sort's output is a permutation of its input |
| Montage.UnpadPad | utils.py:15-32 | for names whose first digit is not 0, stripping the padding restores the name |
| Montage.LexOrder | utils.py:24 | Python string order is total, transitive and antisymmetric |
| Montage.ChannelSortList | utils.py:5-34 | the two loops compute the specifying function |
| Montage.SortChannelsPermutation | utils.py:5-34 | for restorable names, the output is a permutation of the input |
| Montage.SortChannelsOrdered | utils.py:13-24 | the output, padded again, is sorted |
| Montage.RepadSorted | utils.py:13-34 | the padded output is exactly the sorted padded input |
| Montage.SortChannelsExample | utils.py:5-34 | ["A10", "A2"] sorts to ["A2", "A10"] |
| Montage.Digits | utils.py:16 | the digits of a name are digits and no more than its length |
| Montage.FirstDigit | utils.py:18 | `channel.index(digits[0])` is the first digit's position, no digit before it |
| Montage.NatToStringValue | utils.py:54-74 | `str` of a contact number reads back as that number |
| Montage.WithDigitsMembers | utils.py:51-64 | the names kept are input names that have digits |
| Montage.WithDigitsAll | utils.py:60-64 | when every name has a digit nothing is dropped |
| Montage.LeadLabels | utils.py:47-49 | the loop collects each name's letters and apostrophes |
| Montage.ContactNumbers | utils.py:51-58 | the loop collects the number of each numbered name, and position j is listed unused iff name j has no digit |
| Montage.DropUnnumbered | utils.py:60-64 | the filter keeps exactly the numbered names, with their bases |
| Montage.PairNeighbours | utils.py:66-74 | the loop pairs exactly the adjacent neighbours and names them |
| Montage.DefinePairs | utils.py:37-77 | the pairs are the adjacent neighbours among the sorted, numbered names, and the names are the pairs' names |
| Montage.PairsMembers | utils.py:69-73 | a pair is produced iff it is (k[i], k[i+1]) for some i with the same base and number + 1 |
| Montage.PairsCount | utils.py:69-74 | n names give at most n − 1 pairs |
| Montage.DefinePairsMembers | utils.py:45-74 | every pair joins two numbered contacts of one lead with consecutive numbers; for restorable names both are input names |
| Montage.PairNameNumber | utils.py:74 | a pair's name is the first name, `_`, and a string that reads back as the second contact's number |
| Montage.DefinePairsExample | utils.py:37-77 | A1, A2, A3, B1 give the pairs (A1, A2) and (A2, A3) |
| Montage.DefinePairsNamesExample | utils.py:74 | those pairs are named A1_2 and A2_3 |
| Montage.LastIndex | utils.py:92 | the dictionary finds a name iff it is a channel, at its last position |
| Montage.Column | utils.py:92-98 | a lookup fails with KeyError iff the name is not a channel, with IndexError when its position is not a column, and otherwise gives the last position |
| Montage.Columns | utils.py:97-98 | on success, each pair's two columns hold the pair's two names |
| Montage.ColumnsSucceed | utils.py:92-98 | all lookups succeed when every paired name is a channel and there are enough columns |
| Montage.ColumnsPrefixFails | utils.py:97-98 | the first failing pair decides the exception |
| Montage.SubtractColumns | utils.py:98 | column i of the new array becomes data[:, a] − data[:, b]; nothing else changes |
| Montage.BipolarMontage | utils.py:80-100 | fails iff a lookup fails (same exception); otherwise a fresh array with one column per pair, each the difference of the pair's columns, and the pair names |
| Montage.BipolarMontageSucceeds | utils.py:89-98 | the montage succeeds on restorable names and enough columns |
| Montage.BipolarMontageRenamedKeyError | utils.py:92-98 | names A01, A02 are paired as (A1, A2), which the dictionary does not know: KeyError |
| Leaders.MirrorTwice | utils.py:210 | the quadrature mirror applied twice negates the filter |
| Leaders.FiltersOrthogonal | utils.py:207-210 | the high-pass and low-pass filters are orthogonal |
| Leaders.Truncate | utils.py:212 | the segment is cut to the largest multiple of 256 not above its length, keeping its first samples |
| Leaders.ApproxLength | utils.py:219-224 | after jj levels the approximation has k·2^(8−jj) samples |
| Leaders.DetailLength | utils.py:221-222 | the details at level jj have k·2^(7−jj) samples, as many as the next approximation |
| Leaders.DetailsHalve | utils.py:219-224 | each level's details are half the previous level's, from |t|/2 down to k |
| Leaders.Padded | utils.py:233 | `abs(hstack([0, d, 0]))` |
| Leaders.Neighbour3Max | utils.py:233-234 | each entry is the largest magnitude among the detail and its two neighbours (0 beyond the ends) |
| Leaders.EvenOdd | utils.py:236 | `lea[::2]` and `lea[1::2]` hold the even and odd entries, ⌈n/2⌉ and ⌊n/2⌋ of them |
| Leaders.LeaderStepOk | utils.py:233-236 | a level succeeds iff its detail count is even or at most 3 (otherwise the broadcast raises ValueError) |
| Leaders.LeaderBounds | utils.py:233-235 | a leader is non-negative, at least its own and its neighbours' magnitudes, and at least the finer scale's leader |
| Leaders.LeaderNext | utils.py:236 | the leaders passed on are the maxima of consecutive pairs |
| Leaders.CascadePrefix | utils.py:219-236 | the loop's leaders for the first n levels are a prefix of those for more levels |
| Leaders.CascadeFailureStays | utils.py:219-236 | once a level raises, the loop raises the same exception |
| Leaders.ChainError | utils.py:233-236 | when every scale step can raise only one exception, so can the whole recursion |
| Leaders.ChainFailureStays | utils.py:219-236 | for any scale step, a failure at one scale is the failure of every longer recursion |
| Leaders.ChainPrefix | utils.py:219-236 | for any scale step, a successful recursion's first n scales are those of the recursion over n scales |
| Leaders.CascadeShape | utils.py:219-236 | with halving details, every level before the last succeeds and passes on leaders of the next level's length |
| Leaders.CascadeFails | utils.py:219-236 | the loop fails iff the last level's detail count is odd and at least 5 |
| Leaders.LeadersOf | utils.py:212-236 | an empty segment raises ValueError at the first `lfilter` |
| Leaders.ApproxEmpty | utils.py:221-224 | the approximation of every scale is empty iff the segment is, so only the first filter can meet an empty input |
| Leaders.LeadersFail | utils.py:212-236 | on 256k samples, the loop raises iff k = 0 or k is odd and ≥ 5, always with ValueError |
| Leaders.CascadeLeaders | utils.py:219-236 | each level's leaders have the length of that level's details |
| Leaders.LeadersInherit | utils.py:235-236 | a leader at level jj + 1 is at least both of the two level-jj leaders it covers |
| Leaders.DropEnds | utils.py:240 | the slice keeps the entries between the front and back trims |
| Leaders.TrimOffsets | utils.py:227-240 | the trims are 4 + 2^(7−jj) at the front and 1 + max(2^(7−jj) − 6, 0) ≥ 1 at the back |
| Leaders.KeptFor8192 | utils.py:240-249 | on 8192 samples the scales keep 3841, 1921, 961, 481, 241, 119, 57 and 26 leaders |
| Leaders.KeptPositive | utils.py:240 | every scale keeps a leader iff the segment has at least 7·256 samples |
| Regression.Weight | utils.py:257 | a weight is finite iff the denominator v0·v2 − v1² is nonzero |
| Regression.Slope | utils.py:257-259 | a slope is finite iff the denominator is nonzero and the scale 2..6 cumulants are finite |
| Regression.Slopes | utils.py:259 | slope r is finite iff the denominator is nonzero and row r's cumulants at scales 1..5 are finite |
| Regression.DenominatorPairs | utils.py:254-257 | the denominator is the sum over scale pairs of b_i·b_j·(i − j)² |
| Regression.DenominatorPositive | utils.py:254-257 | with non-negative counts the denominator is ≥ 0, and > 0 iff two scales have positive counts |
| Regression.WeightSums | utils.py:257 | the weights sum to 0 and their moment against scale + 1 is 1 |
| Regression.LinearSlope | utils.py:257-259 | for cumulants linear in scale (α + β·(s+1)), the slope is log2(e)·β |
| Features.Magnitudes | utils.py:226 | `np.abs` entry by entry, non-negative |
| Features.CumulantsFinite | utils.py:242-247 | all three cumulants are finite iff the log-leaders are non-empty and all finite |
| Features.CumulantsOfConstant | utils.py:243-247 | constant log-leaders a give cumulants [a, 0, 0] |
| Features.DeleteScale1 | utils.py:261 | `np.delete` of entries 4, 12, 20 shifts the later entries down by 1, 2, 3 |
| Features.Mwc | utils.py:229-231 | `mwc` holds the log-means, then the sums of squares, then the log-stds |
| Features.FeatureLayout | utils.py:251-261 | the 24 features are the three slopes, then log-mean, sum of squares and log-std for scales 0 and 2..7 |
| Features.FeaturesFail | utils.py:197-263 | `compute_features` raises ValueError iff n < 256 (the first `lfilter` meets an empty segment) or ⌊n/256⌋ is odd and ≥ 5 (never for 8192 samples) |
| Features.FeatureCounts | utils.py:240-259 | the regression weighs scale jj by the number of leaders the trim keeps |
| Features.RegressionWellPosed | utils.py:240-257 | from 7·256 samples on, the regression's denominator is positive |
| Features.FilterBank | utils.py:221-224 | one level of the filter bank gives that level's details and the next approximation, and reports ValueError exactly when the segment is empty |
| Features.NextLeaders | utils.py:233-236 | one level of leaders extends the specified recursion, or its exception ends it |
| Features.StoreScale | utils.py:229-249 | one scale's summary lands in `mwc[jj]`, `mwc[jj + 8]`, `mwc[jj + 16]`, `c[:, jj]` and `b[jj]`, and the earlier scales keep theirs |
| Features.RecordScale | utils.py:229-249 | storing scale jj extends the stored summaries by exactly that scale's summary |
| Features.ScaleStep | utils.py:219-249 | one pass of the loop advances the approximation, the recursion and the stored summaries by one scale, or its exception is the recursion's |
| Features.StoredAll | utils.py:229-249 | once every scale is stored, `b`, `c` and `mwc` equal the specified counts, cumulants and `mwc` |
| Features.SummariesOfSnoc | utils.py:219-249 | the loop's summaries grow one scale per iteration |
| Features.FillScales | utils.py:219-249 | the loop over scales either raises the leaders' exception, or fills `b`, `c` and `mwc` with every scale's summary |
| Features.ComputeFeatures | utils.py:197-263 | the method returns exactly the specified features or exception, including the ValueError under 256 samples |
| Epochs.Align | sleep_features_v2.py:32-40 | the first epoch starts on second 29 or 59, between 1.25 s (exclusive) and 31.25 s after the recording start |
| Epochs.ExactStart | sleep_features_v2.py:33-39 | `sta` before rounding lies in (1.25·fs, 31.25·fs] |
| Epochs.StartAfterOverlap | sleep_features_v2.py:32-42 | at a rate divisible by 4, the rounded start leaves the whole overlap before it |
| Epochs.EpochsFit | sleep_features_v2.py:43 | Ne whole 30-second epochs fit after the start, and Ne + 1 do not |
| Epochs.ReadSpan | utils.py:115-119 | each read spans 30 s + 2·1.25 s in microseconds |
| Epochs.ReadsStartInRecording | utils.py:115-121 | no read begins before the recording start |
| Epochs.ReadsEndNearRecording | sleep_features_v2.py:43-61 | no read ends later than the overlap past the recording end |
| Epochs.Kept | sleep_features_v2.py:88-94 | Ne + 1 epochs are kept, capped at 1500 |
| Epochs.Collected | sleep_features_v2.py:49-94 | the run succeeds iff 1 ≤ Ne ≤ 1500 |
| Epochs.CollectedFails | sleep_features_v2.py:43-68 | NameError iff Ne = 0 (`feature` never allocated); ValueError iff Ne < 0 or Ne > 1500 |
| Epochs.CollectedLayout | sleep_features_v2.py:59-94 | the features of pass ii are epoch ii of every channel; the extra kept epoch is all zero; all kept epochs are night |
| Epochs.StoreEpoch | sleep_features_v2.py:76-77 | storing a pass writes that epoch's vectors and nothing else |
| Epochs.InitStage | sleep_features_v2.py:53-55 | `sleep_stage` rows below Ne hold the stage and time; the rest are zero |
| Epochs.ByChannelRoundTrip | sleep_features_v2.py:93 | the transpose loses nothing: transposing back gives the epochs it came from |
| Epochs.CutIsCollected | sleep_features_v2.py:88-94 | cutting the tables after the loop gives the specified run |
| Epochs.RunPasses | sleep_features_v2.py:59-84 | the loop leaves the tensor, the night mask and `sleep_stage` as specified |
| Epochs.CollectEpochs | sleep_features_v2.py:49-94 | the whole schedule returns exactly the specified run or exception |
| Columns.PresentAt | sleep_features_v2.py:110-111 | `f[~isnan(f)]` lists the present values in order; entry i lands at its rank |
| Columns.ScatterAt | sleep_features_v2.py:117-127 | writing back through the mask fills present positions in order and leaves missing ones missing |
| Columns.ScatterPresent | sleep_features_v2.py:125-127 | writing back a column's own present values restores it |
| Columns.PresentScatter | sleep_features_v2.py:125-127 | the present values after a write-back are the values written |
| Columns.ScatterMissing | sleep_features_v2.py:127 | a write-back keeps exactly the same positions missing |
| Columns.Detrend | sleep_features_v2.py:112-117 | subtracting the 10-point moving average succeeds iff at least 10 values are present; otherwise ValueError, from `np.convolve` (no value), the broadcast at line 112 (2 to 9 values) or the masked assignment at line 117 (one value, broadcast to 10) |
| Columns.DetrendInterior | sleep_features_v2.py:112 | away from the ends, each value loses the mean of the 10 values around it |
| Columns.DetrendConstant | sleep_features_v2.py:112 | a constant column detrends to 0 in the interior |
| Columns.QuartileIndexValid | sleep_features_v2.py:115 | the quartile indices are ordered, and both are valid iff at least 3 values are present |
| Columns.Quartiles | sleep_features_v2.py:114-115 | the lower quartile does not exceed the upper |
| Columns.QuartileRangeKept | sleep_features_v2.py:117 | a value between the quartiles is never an outlier |
| Columns.Outliers | sleep_features_v2.py:109-119 | outlier removal succeeds iff at least 10 values are present, and keeps the length |
| Columns.OutliersOnlyAdd | sleep_features_v2.py:116-119 | missing stays missing, and a value that survives is unchanged |
| Columns.OutliersFence | sleep_features_v2.py:117 | a present value is removed iff its detrended value lies outside the 2.5-IQR fence |
| Columns.OutliersAt | sleep_features_v2.py:116-119 | entry by entry, the result is missing or the original value, as the fence decides |
| Columns.Smooth | sleep_features_v2.py:122-127 | smoothing succeeds iff at least 3 values are present, and keeps the length |
| Columns.SmoothMissing | sleep_features_v2.py:124-127 | smoothing keeps exactly the same positions missing |
| Columns.SmoothAverage | sleep_features_v2.py:126 | each present value becomes the mean of itself and its present neighbours, zero-padded |
| Columns.AnySetZeros | sleep_features_v2.py:130 | `np.any(f)` is false iff every entry is 0 (NaN counts as set) |
| Columns.MaskedAll | sleep_features_v2.py:131-132 | with the all-true night mask, nothing is masked out |
| Columns.NightMean | sleep_features_v2.py:132 | `np.nanmean` over night epochs is finite iff some value is present |
| Columns.NightStd | sleep_features_v2.py:132 | `np.nanstd` over night epochs is finite iff some value is present |
| Columns.Normalize | sleep_features_v2.py:130-132 | an all-zero column is unchanged; otherwise a mask of the wrong length raises IndexError |
| Columns.NormalizeApplied | sleep_features_v2.py:132 | with a finite nonzero std, each entry becomes (f − mean) / std |
| Columns.NormalizeDegenerate | sleep_features_v2.py:132 | with a zero or undefined std, the whole column becomes non-finite |
| Columns.SumZScores | sleep_features_v2.py:132 | the z-scores sum to (Σv − n·m) / s |
| Columns.NormalizedCentred | sleep_features_v2.py:130-132 | with every epoch night, the normalised present values sum to 0 |
| Columns.Score | sleep_features_v2.py:136-142 | scoring fails (ValueError) iff no value is present |
| Columns.ScoreGuard | sleep_features_v2.py:139-142 | the score cell is written iff the norm is nonzero |
| Columns.ScoreZeroColumn | sleep_features_v2.py:139-142 | an all-zero column leaves its score at 0 |
| Columns.ScoreNonneg | sleep_features_v2.py:142 | a written score is non-negative |
| Columns.ProcessColumn | sleep_features_v2.py:107-142 | the four steps keep the column length |
| Columns.ProcessKeepsMissing | sleep_features_v2.py:107-135 | an entry missing before the column steps is missing after them |
| PostProcess.Invalidate | sleep_features_v2.py:99-102 | a vector with any NaN or infinity becomes all NaN; otherwise it is unchanged |
| PostProcess.SanitizedVectors | sleep_features_v2.py:99-102 | afterwards every vector is all missing or all present, and repeating the pass changes nothing |
| PostProcess.Sanitize | sleep_features_v2.py:99-102 | the in-place pass leaves the specified tensor |
| PostProcess.ColumnOfWith | sleep_features_v2.py:109-135 | writing a column changes that column and no other |
| PostProcess.WithColumnTwice | sleep_features_v2.py:135 | writing a column twice keeps the second write |
| PostProcess.PassColumn | sleep_features_v2.py:106-135 | after the loop each column is its step's result on the sanitized column |
| PostProcess.PassScore | sleep_features_v2.py:106-142 | after the loop each score cell is its column's score, or 0 |
| PostProcess.PassRaiseStays | sleep_features_v2.py:106-142 | an exception in one column ends the loop with that exception |
| PostProcess.TransposeInjective | sleep_features_v2.py:144 | `featfeat.T` loses nothing: two score grids with the same transpose are equal |
| PostProcess.PostProcessedColumns | sleep_features_v2.py:99-144 | on success every column and score is what the column steps make of the sanitized column |
| PostProcess.ReadColumn | sleep_features_v2.py:109 | reading `feature[nch, :, nf]` gives the specified column |
| PostProcess.StoreColumn | sleep_features_v2.py:135 | storing a column leaves the specified tensor |
| PostProcess.ProcessOne | sleep_features_v2.py:107-142 | one iteration stores the column step's result and score, or reports its exception |
| PostProcess.OutlierSmooth | sleep_features_v2.py:108-127 | the outlier mask and the smoothing are written back into column (nch, nf) as specified, or their exception is reported |
| PostProcess.WriteScore | sleep_features_v2.py:141-142 | `featfeat[nf, nch]` is written only when the norm is nonzero |
| PostProcess.ProcessStep | sleep_features_v2.py:107-142 | one iteration advances the specified loop by one column, or its exception ends the loop |
| PostProcess.ProcessChannel | sleep_features_v2.py:107-142 | one channel's 24 iterations advance the specified loop by one channel |
| PostProcess.ZeroGrid | sleep_features_v2.py:104 | `featfeat` starts as the zero matrix of the specification |
| PostProcess.ProcessAll | sleep_features_v2.py:106-142 | the nested loops leave the specified tensor and `featfeat`, or stop with the first column's exception |
| PostProcess.Preprocess | sleep_features_v2.py:99-144 | in place, the tensor and `featfeat.T` end as specified, with the same exception when a column raises |

## Left out

- Reading the recording (`MefSession`, `read_ts_channels_uutc`, the header, `datetime` formatting): I/O. The model takes the recording's start second, sample count and samples as parameters.
- `pickle` output and `print` calls: I/O, no effect on the computed values.
- Dsp.Lfilter: it is the filter's arithmetic only. The ValueError SciPy raises on an empty input is modelled where an input can be empty: in `Leaders.LeadersOf` and `Features.FilterBank` (a segment under 256 samples), and in `Multirate.ChangeSamplingRate` (a block with no channel). Every other filtered input has at least 27 samples, or at least 2 samples of a non-empty segment.
- Floating point: values are reals, so double rounding and overflow are not modelled. NaN and the infinities are one `NonFinite` value.
- Columns.Score: its NaN mask in line 136 removes NaN only, so an infinity left by a zero std still counts as present there. The model drops it with NaN, so such degenerate columns score differently.
- Transcendental functions (`np.log`, `np.sqrt` inside `np.std` and `np.linalg.norm`, `log2(e)`) are a `MathLib` parameter; only the properties stated about it are used.
- `str.isdigit`, `str.isalpha` and `str.isnumeric` are modelled on ASCII; other Unicode digits and letters are not.
- The sort algorithm behind `list.sort` and `np.sort` is replaced by a specified sort. `Sorting.SortIsUnique` shows that the result does not depend on the algorithm.
- The `sleep_stage` timestamps: `int(start_time + k / 2880)` is computed, but not checked against any clock property.
- The repository's own description counts 21 features per channel; the code produces 24 (3 slopes plus 7 scales × 3 statistics), and the model follows the code.
- Epochs.CollectEpochs: the sampling-rate conversion and `compute_features` for each epoch are supplied as the vectors `feats`, not recomputed inside the loop. Their models are `Multirate.ChangeSamplingRate`, `EpochWindow.EpochSignal` and `Features.Features`.

## Findings

| source | as written | input that shows it | evidently intended | confidence | as-written member | corrected member |
|---|---|---|---|---|---|---|
| utils.py:170-189 | the 5000 Hz branch decimates by 5 four times and interpolates by 4 three times, so 5000 Hz becomes 5000·4³/5⁴ = 512 samples/s; the docstring promises 256 | a 32.5-second read at 5000 Hz (162500 = 625·260 samples) gives 64·260 = 16640 samples, so the 8192-sample epoch window covers 16 s of signal at twice the rate of the 2000 Hz path | the first interpolation is by 2, as its gain of 2 shows, giving 625q → 32q (256 samples/s, as 2000 Hz gives 125q → 16q); against this, the band comment at utils.py:261 ("64-128 Hz" for the deleted scale 1) fits 512 samples/s, not 256 (where scale 1 covers 32-64 Hz), while the docstring (utils.py:131) and the trims at utils.py:227 assume 256 | not executed; high | Multirate.Convert5000Length | Multirate.Convert5000IntendedLength |
