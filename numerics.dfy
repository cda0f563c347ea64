/** Numbers as the Python code computes them: doubles reduced to "a finite
    real, or not", the sums and means NumPy takes, and Python's `round` and
    `int` applied to floats. Values are exact reals: rounding error and
    overflow of doubles are not modelled. */
module Numerics {

  /** A double as far as the model tells them apart: a finite value, or the
      one marker that stands for NaN, +inf and -inf alike. */
  datatype Fp = NonFinite | Finite(v: real)

  /** `+`, `-` and `*` on doubles: once an operand is NaN or infinite, so is
      the result (inf - inf and 0 * inf are NaN, inf + x is inf). */
  function Add(a: Fp, b: Fp): Fp {
    if a.Finite? && b.Finite? then Finite(a.v + b.v) else NonFinite
  }

  function Sub(a: Fp, b: Fp): Fp {
    if a.Finite? && b.Finite? then Finite(a.v - b.v) else NonFinite
  }

  function Mul(a: Fp, b: Fp): Fp {
    if a.Finite? && b.Finite? then Finite(a.v * b.v) else NonFinite
  }

  /** `/` on doubles: dividing by zero gives an infinity or NaN, which the
      marker stands for too. */
  function Div(a: Fp, b: Fp): Fp {
    if a.Finite? && b.Finite? && b.v != 0.0 then Finite(a.v / b.v) else NonFinite
  }

  function Scale(k: real, a: Fp): Fp {
    if a.Finite? then Finite(k * a.v) else NonFinite
  }

  /** The transcendental functions the code takes from NumPy, and the double
      `np.log2(np.exp(1))`. They are parameters of the model: nothing is
      assumed about their values. */
  datatype MathLib = MathLib(ln: real -> Fp, sqrt: real -> real, log2e: real)

  /** `np.log` of a double: the logarithm of NaN or of an infinity is not finite. */
  function Ln(lib: MathLib, a: Fp): Fp {
    if a.Finite? then lib.ln(a.v) else NonFinite
  }

  function Abs(x: real): (r: real)
    ensures r >= 0.0 && (r == x || r == -x)
  {
    if x < 0.0 then -x else x
  }

  function Max(x: real, y: real): (r: real)
    ensures r >= x && r >= y && (r == x || r == y)
  {
    if x >= y then x else y
  }

  function Sum(s: seq<real>): real {
    if |s| == 0 then 0.0 else s[0] + Sum(s[1..])
  }

  function SumSq(s: seq<real>): real {
    if |s| == 0 then 0.0 else s[0] * s[0] + SumSq(s[1..])
  }

  /** `np.mean`: the mean of no values is NaN. */
  function Mean(s: seq<real>): (r: Fp)
    ensures r.Finite? <==> |s| > 0
  {
    if |s| == 0 then NonFinite else Finite(Sum(s) / |s| as real)
  }

  /** The mean square deviation from the mean, the square of `np.std` (ddof 0). */
  function Variance(s: seq<real>): real
    requires |s| > 0
  {
    var m := Sum(s) / |s| as real;
    SumSq(seq(|s|, i requires 0 <= i < |s| => s[i] - m)) / |s| as real
  }

  /** `np.std`: NaN for no values, otherwise the square root of the variance. */
  function Std(lib: MathLib, s: seq<real>): (r: Fp)
    ensures r.Finite? <==> |s| > 0
  {
    if |s| == 0 then NonFinite else Finite(lib.sqrt(Variance(s)))
  }

  /** The finite values of `s`, or nothing when one of them is not finite. */
  function AllFinite(s: seq<Fp>): (r: Option<seq<real>>)
    ensures r.Some? <==> forall i :: 0 <= i < |s| ==> s[i].Finite?
    ensures r.Some? ==> |r.value| == |s| && forall i :: 0 <= i < |s| ==> r.value[i] == s[i].v
  {
    if |s| == 0 then Some([])
    else if s[0].NonFinite? then None
    else match AllFinite(s[1..])
      case None => None
      case Some(rest) => Some([s[0].v] + rest)
  }

  datatype Option<+T> = None | Some(value: T)

  /** `np.mean` of an array of doubles: NaN once an entry is NaN or infinite. */
  function MeanFp(s: seq<Fp>): Fp {
    match AllFinite(s)
    case None => NonFinite
    case Some(vs) => Mean(vs)
  }

  /** Python's `round` on a float: the nearest integer, halves to the even one. */
  function RoundHalfEven(y: real): (r: int)
    ensures y - 0.5 <= r as real <= y + 0.5
    ensures r as real - y == 0.5 || y - r as real == 0.5 ==> r % 2 == 0
  {
    var f := y.Floor;
    var d := y - f as real;
    if d < 0.5 then f
    else if d > 0.5 then f + 1
    else if f % 2 == 0 then f else f + 1
  }

  /** Python's `int` on a float: truncation toward zero. */
  function TruncToInt(y: real): (r: int)
    ensures y >= 0.0 ==> r >= 0 && r as real <= y < r as real + 1.0
    ensures y < 0.0 ==> r <= 0 && r as real - 1.0 < y <= r as real
  {
    if y >= 0.0 then y.Floor else -((-y).Floor)
  }
}
