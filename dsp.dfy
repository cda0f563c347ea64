/** The array primitives the pipeline takes from NumPy and SciPy, written out
    over sequences of reals: a causal FIR filter (`scipy.signal.lfilter` with
    denominator 1), strided slicing `x[::k]`, zero-stuffing interpolation,
    `np.convolve(a, np.ones(m), 'same')` and `np.maximum` with broadcasting. */
module Dsp {
  import opened Numerics
  import opened Outcomes

  /** Sample `i` of `x`, zero outside `x`: the zero history a causal filter
      starts from and the zero padding of a convolution. */
  function At(x: seq<real>, i: int): real {
    if 0 <= i < |x| then x[i] else 0.0
  }

  function Zeros(n: nat): (r: seq<real>)
    ensures |r| == n && forall i :: 0 <= i < n ==> r[i] == 0.0
  {
    seq(n, _ => 0.0)
  }

  ghost predicate AllZero(x: seq<real>) {
    forall i :: 0 <= i < |x| ==> x[i] == 0.0
  }

  /** `c * x + y`, entry by entry. */
  function Lin(c: real, x: seq<real>, y: seq<real>): (r: seq<real>)
    requires |x| == |y|
    ensures |r| == |x| && forall i :: 0 <= i < |x| ==> r[i] == c * x[i] + y[i]
  {
    seq(|x|, i requires 0 <= i < |x| => c * x[i] + y[i])
  }

  /** The first `K` taps of a causal FIR filter at time `t`:
      b[0]·x[t] + b[1]·x[t-1] + ... + b[K-1]·x[t-K+1]. */
  function FirSum(b: seq<real>, x: seq<real>, t: int, K: nat): real
    requires K <= |b|
  {
    if K == 0 then 0.0 else FirSum(b, x, t, K - 1) + b[K - 1] * At(x, t - (K - 1))
  }

  /** `scipy.signal.lfilter(b, 1, x)`: the output has the input's length, and
      output `t` is the sum of `b[k] * x[t - k]` over the taps that reach back
      no further than the first sample. SciPy raises ValueError on an empty
      `x`; the callers whose input can be empty model that raise. */
  function Lfilter(b: seq<real>, x: seq<real>): (y: seq<real>)
    ensures |y| == |x|
  {
    seq(|x|, t => FirSum(b, x, t, |b|))
  }

  /** The slice `x[::k]`: every `k`-th sample, starting with the first. */
  function Stride<T>(x: seq<T>, k: nat): (r: seq<T>)
    requires k > 0
    ensures |r| == 0 <==> |x| == 0
    decreases |x|
  {
    if |x| == 0 then []
    else if |x| <= k then [x[0]]
    else [x[0]] + Stride(x[k..], k)
  }

  /** `x[::k]` has ceil(|x| / k) entries. */
  lemma {:induction false} StrideLength<T>(x: seq<T>, k: nat)
    requires k > 0
    ensures |x| > 0 ==> k * (|Stride(x, k)| - 1) < |x| <= k * |Stride(x, k)|
    decreases |x|
  {
    if |x| > k {
      StrideLength(x[k..], k);
      var m := |Stride(x[k..], k)|;
      MulSucc(k, m);
      MulSucc(k, m - 1);
    }
  }

  lemma MulSucc(k: int, m: int)
    ensures k * (m + 1) == k * m + k
  {
  }

  /** Entry `i` of `x[::k]` is entry `k * i` of `x`. */
  lemma {:induction false} StrideAt<T>(x: seq<T>, k: nat, i: nat)
    requires k > 0 && i < |Stride(x, k)|
    ensures k * i < |x| && Stride(x, k)[i] == x[k * i]
    decreases |x|
  {
    if i > 0 {
      StrideAt(x[k..], k, i - 1);
      MulSucc(k, i - 1);
    }
  }

  /** With `k` fixed, the bounds of `Stride` pin its length to ceil(n / k). */
  lemma StrideLength2(n: nat, m: nat)
    requires (n == 0 && m == 0) || (m > 0 && 2 * (m - 1) < n <= 2 * m)
    ensures m == (n + 1) / 2
  {
  }

  lemma StrideLength5(n: nat, m: nat)
    requires (n == 0 && m == 0) || (m > 0 && 5 * (m - 1) < n <= 5 * m)
    ensures m == (n + 4) / 5
  {
  }

  /** Zero-stuffing interpolation by `l`: sample `i` of `x`, times `gain`, goes
      to position `l * i`, and the `l - 1` positions after it are zero. The
      source builds it as `np.reshape(np.stack([x, 0, 0, 0]), (4 * n, ...),
      order='F')`, whose Fortran order puts stack entry `(j, i)` at row
      `j + 4 * i`. */
  function ZeroStuff(x: seq<real>, l: nat, gain: real): (r: seq<real>)
    requires l > 0
    ensures |r| == Times(l, |x|)
  {
    if |x| == 0 then []
    else [gain * x[0]] + Zeros(l - 1) + ZeroStuff(x[1..], l, gain)
  }

  /** Sum of `a[i]` over `lo <= i < hi`, zero outside `a`. */
  function WindowSum(a: seq<real>, lo: int, hi: int): real
    decreases hi - lo
  {
    if hi <= lo then 0.0 else WindowSum(a, lo, hi - 1) + At(a, hi - 1)
  }

  /** `np.convolve(a, np.ones(m), mode='same')`. NumPy refuses an empty `a`.
      The result has `max(|a|, m)` entries, cut out of the full convolution
      (whose entry `t` sums `a[t - m + 1 .. t]`) from position
      `(min(|a|, m) - 1) / 2` on. */
  function ConvSameOnes(a: seq<real>, m: nat): (r: Result<seq<real>>)
    requires m > 0
    ensures r.Ok? <==> |a| > 0
    ensures r.Ok? ==> |r.value| == (if |a| >= m then |a| else m)
  {
    if |a| == 0 then Raise(ValueError)
    else
      var n := if |a| >= m then |a| else m;
      var s := ((if |a| <= m then |a| else m) - 1) / 2;
      Ok(seq(n, k => WindowSum(a, k + s - m + 1, k + s + 1)))
  }

  /** `np.maximum(a, b)` on one-dimensional arrays under NumPy broadcasting:
      equal lengths pair entries up, an array of length 1 is repeated against
      the other, any other mismatch raises ValueError. */
  function Maximum(a: seq<real>, b: seq<real>): (r: Result<seq<real>>)
    ensures r.Ok? <==> |a| == |b| || |a| == 1 || |b| == 1
    ensures r.Raise? ==> r.exc == ValueError
    ensures r.Ok? && |a| == |b| ==>
      |r.value| == |a| && forall i :: 0 <= i < |a| ==> r.value[i] == Max(a[i], b[i])
  {
    if |a| == |b| then Ok(seq(|a|, i requires 0 <= i < |a| => Max(a[i], b[i])))
    else if |a| == 1 then Ok(seq(|b|, i requires 0 <= i < |b| => Max(a[0], b[i])))
    else if |b| == 1 then Ok(seq(|a|, i requires 0 <= i < |a| => Max(a[i], b[0])))
    else Raise(ValueError)
  }

  // Linearity of the primitives, entry by entry.

  lemma LinAppend(c: real, a: seq<real>, b: seq<real>, a': seq<real>, b': seq<real>)
    requires |a| == |a'| && |b| == |b'|
    ensures Lin(c, a + b, a' + b') == Lin(c, a, a') + Lin(c, b, b')
  {
    var l, r := Lin(c, a + b, a' + b'), Lin(c, a, a') + Lin(c, b, b');
    forall i | 0 <= i < |l| ensures l[i] == r[i] {
      if i < |a| {
        assert l[i] == c * a[i] + a'[i];
      } else {
        assert l[i] == c * b[i - |a|] + b'[i - |a|];
      }
    }
  }

  lemma LinSingle(c: real, a: real, b: real)
    ensures Lin(c, [a], [b]) == [c * a + b]
  {
    var l := Lin(c, [a], [b]);
    assert |l| == 1;
    assert l[0] == c * a + b;
    assert [c * a + b][0] == c * a + b;
  }

  /** `x - x` is the zero signal. */
  lemma LinNegSelf(x: seq<real>)
    ensures Lin(-1.0, x, x) == Zeros(|x|)
  {
  }

  lemma LinZeros(c: real, n: nat)
    ensures Lin(c, Zeros(n), Zeros(n)) == Zeros(n)
  {
  }

  lemma LinSlice(c: real, x: seq<real>, y: seq<real>, d: nat)
    requires |x| == |y| && d <= |x|
    ensures Lin(c, x, y)[d..] == Lin(c, x[d..], y[d..])
  {
    var l, r := Lin(c, x, y)[d..], Lin(c, x[d..], y[d..]);
    forall i | 0 <= i < |l| ensures l[i] == r[i] {
      assert l[i] == Lin(c, x, y)[i + d];
    }
  }

  lemma {:induction false} FirSumLinear(b: seq<real>, c: real, x: seq<real>, y: seq<real>, t: int, K: nat)
    requires |x| == |y| && K <= |b|
    ensures FirSum(b, Lin(c, x, y), t, K) == c * FirSum(b, x, t, K) + FirSum(b, y, t, K)
  {
    if K > 0 {
      FirSumLinear(b, c, x, y, t, K - 1);
      var i := t - (K - 1);
      AtLin(c, x, y, i);
      Regroup(c, FirSum(b, x, t, K - 1), FirSum(b, y, t, K - 1), b[K - 1], At(x, i), At(y, i));
    }
  }

  lemma AtLin(c: real, x: seq<real>, y: seq<real>, i: int)
    requires |x| == |y|
    ensures At(Lin(c, x, y), i) == c * At(x, i) + At(y, i)
  {
  }

  lemma Regroup(c: real, p: real, q: real, w: real, u: real, v: real)
    ensures (c * p + q) + w * (c * u + v) == c * (p + w * u) + (q + w * v)
  {
  }

  /** Filtering commutes with linear combination. */
  lemma LfilterLinear(b: seq<real>, c: real, x: seq<real>, y: seq<real>)
    requires |x| == |y|
    ensures Lfilter(b, Lin(c, x, y)) == Lin(c, Lfilter(b, x), Lfilter(b, y))
  {
    forall t | 0 <= t < |x|
      ensures Lfilter(b, Lin(c, x, y))[t] == Lin(c, Lfilter(b, x), Lfilter(b, y))[t]
    {
      FirSumLinear(b, c, x, y, t, |b|);
    }
  }

  lemma {:induction false} StrideLengthOnly<T, U>(x: seq<T>, y: seq<U>, k: nat)
    requires k > 0 && |x| == |y|
    ensures |Stride(x, k)| == |Stride(y, k)|
    decreases |x|
  {
    if |x| > k {
      StrideLengthOnly(x[k..], y[k..], k);
    }
  }

  /** Downsampling commutes with linear combination. */
  lemma {:induction false} StrideLinear(c: real, x: seq<real>, y: seq<real>, k: nat)
    requires k > 0 && |x| == |y|
    ensures |Stride(x, k)| == |Stride(y, k)|
    ensures Stride(Lin(c, x, y), k) == Lin(c, Stride(x, k), Stride(y, k))
    decreases |x|
  {
    StrideLengthOnly(x, y, k);
    var z := Lin(c, x, y);
    if |x| > 0 {
      var x0, y0 := x[0], y[0];
      LinSingle(c, x0, y0);
      assert z[0] == c * x0 + y0;
      if |x| > k {
        var sx, sy := Stride(x[k..], k), Stride(y[k..], k);
        LinSlice(c, x, y, k);
        StrideLinear(c, x[k..], y[k..], k);
        LinAppend(c, [x0], sx, [y0], sy);
        calc {
          Stride(z, k);
          [z[0]] + Stride(z[k..], k);
          [c * x0 + y0] + Lin(c, sx, sy);
          Lin(c, [x0] + sx, [y0] + sy);
        }
      }
    }
  }

  lemma ZeroStuffHead(z: seq<real>, l: nat, gain: real)
    requires l > 0 && |z| > 0
    ensures ZeroStuff(z, l, gain) == [gain * z[0]] + Zeros(l - 1) + ZeroStuff(z[1..], l, gain)
  {
  }

  /** Zero-stuffing commutes with linear combination. */
  lemma {:induction false} ZeroStuffLinear(c: real, x: seq<real>, y: seq<real>, l: nat, gain: real)
    requires l > 0 && |x| == |y|
    ensures ZeroStuff(Lin(c, x, y), l, gain) == Lin(c, ZeroStuff(x, l, gain), ZeroStuff(y, l, gain))
  {
    if |x| > 0 {
      var z := Lin(c, x, y);
      ZeroStuffHead(z, l, gain);
      var gx, gy := gain * x[0], gain * y[0];
      var tx, ty := ZeroStuff(x[1..], l, gain), ZeroStuff(y[1..], l, gain);
      assert gain * z[0] == c * gx + gy;
      LinSlice(c, x, y, 1);
      ZeroStuffLinear(c, x[1..], y[1..], l, gain);
      LinSingle(c, gx, gy);
      LinZeros(c, l - 1);
      LinAppend(c, [gx], Zeros(l - 1), [gy], Zeros(l - 1));
      LinAppend(c, [gx] + Zeros(l - 1), tx, [gy] + Zeros(l - 1), ty);
      calc {
        ZeroStuff(z, l, gain);
        [gain * z[0]] + Zeros(l - 1) + ZeroStuff(z[1..], l, gain);
        ([c * gx + gy] + Zeros(l - 1)) + Lin(c, tx, ty);
        Lin(c, [gx] + Zeros(l - 1), [gy] + Zeros(l - 1)) + Lin(c, tx, ty);
        Lin(c, [gx] + Zeros(l - 1) + tx, [gy] + Zeros(l - 1) + ty);
      }
    }
  }

  /** Entry `l * i + j` of the interpolated signal: `gain * x[i]` when `j` is
      0, zero for the `l - 1` positions after it. */
  lemma ZeroStuffAt(x: seq<real>, l: nat, gain: real, i: nat, j: nat)
    requires l > 0 && i < |x| && j < l
    ensures |ZeroStuff(x, l, gain)| == l * |x|
    ensures l * i + j < l * |x|
    ensures ZeroStuff(x, l, gain)[l * i + j] == if j == 0 then gain * x[i] else 0.0
  {
    ZeroStuffBlock(x, l, gain, i, j);
    ZeroStuffLength(x, l, gain);
    TimesIsMul(l, i);
  }

  /** `l * i` as `i` repeated additions of `l`, so that stepping `i` is linear. */
  function Times(l: nat, i: nat): nat {
    if i == 0 then 0 else Times(l, i - 1) + l
  }

  lemma {:induction false} TimesIsMul(l: nat, i: nat)
    ensures Times(l, i) == l * i
  {
    if i > 0 {
      TimesIsMul(l, i - 1);
      MulSucc(l, i - 1);
    }
  }

  /** The interpolated signal is `l` times as long. */
  lemma ZeroStuffLength(x: seq<real>, l: nat, gain: real)
    requires l > 0
    ensures |ZeroStuff(x, l, gain)| == l * |x|
  {
    TimesIsMul(l, |x|);
  }

  /** `ZeroStuffAt` with the block offset written as `Times(l, i)`. */
  lemma {:induction false} ZeroStuffBlock(x: seq<real>, l: nat, gain: real, i: nat, j: nat)
    requires l > 0 && i < |x| && j < l
    ensures Times(l, i) + j < Times(l, |x|)
    ensures ZeroStuff(x, l, gain)[Times(l, i) + j] == if j == 0 then gain * x[i] else 0.0
  {
    if i == 0 {
      assert Times(l, i) + j == j;
      ZeroStuffSplit(x, l, gain, j);
    } else {
      var k := Times(l, i - 1) + j;
      ZeroStuffBlock(x[1..], l, gain, i - 1, j);
      assert Times(l, i) + j == k + l;
      ZeroStuffSplit(x, l, gain, k + l);
      assert ZeroStuff(x, l, gain)[k + l] == ZeroStuff(x[1..], l, gain)[k];
      assert x[1..][i - 1] == x[i];
    }
  }

  /** The first block of `l` entries comes from `x[0]`, the rest from `x[1..]`. */
  lemma ZeroStuffSplit(x: seq<real>, l: nat, gain: real, k: nat)
    requires l > 0 && 0 < |x| && k < |ZeroStuff(x, l, gain)|
    ensures k < l ==> ZeroStuff(x, l, gain)[k] == if k == 0 then gain * x[0] else 0.0
    ensures l <= k ==> ZeroStuff(x, l, gain)[k] == ZeroStuff(x[1..], l, gain)[k - l]
  {
    var h := [gain * x[0]] + Zeros(l - 1);
    assert ZeroStuff(x, l, gain) == h + ZeroStuff(x[1..], l, gain);
  }

  /** Zero padding at the end does not change a causal filter's output at
      times inside the padded signal: a tap that reaches it sees zero either way. */
  lemma {:induction false} FirSumPadded(b: seq<real>, x: seq<real>, p: nat, t: int, K: nat)
    requires K <= |b| && t < |x| + p
    ensures FirSum(b, x + Zeros(p), t, K) == FirSum(b, x, t, K)
  {
    if K > 0 {
      FirSumPadded(b, x, p, t, K - 1);
    }
  }
}
