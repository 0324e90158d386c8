/// Automatic gain control: a frame whose gain is not given is scaled so that its root mean
/// square level becomes the frame's `agc_rms_level`.
module GainControl {
  import opened Float64

  /// Σ `pow(x, 2)` over the samples `s`, added from the front.
  function SumOfSquares(math: MathLib, s: seq<real>): real
  {
    if |s| == 0 then 0.0 else SumOfSquares(math, s[..|s| - 1]) + math.pow(s[|s| - 1], 2.0)
  }

  /// `compute_rms`: the square root of the mean of the squares.
  function Rms(math: MathLib, s: seq<real>): real
    requires |s| > 0
  {
    math.sqrt(SumOfSquares(math, s) / |s| as real)
  }

  /// Every sample of `s` times `c`.
  function Scale(s: seq<real>, c: real): (t: seq<real>)
    ensures |t| == |s| && forall i :: 0 <= i < |s| ==> t[i] == s[i] * c
  {
    seq(|s|, i requires 0 <= i < |s| => s[i] * c)
  }

  /// `adjust_signal_gain`: an empty frame and a silent one stay as they are; any other frame is
  /// scaled by `target / rms`.
  function AgcOutput(math: MathLib, s: seq<real>, target: real): (t: seq<real>)
    ensures |t| == |s|
  {
    if |s| == 0 || Rms(math, s) == 0.0 then s else Scale(s, target / Rms(math, s))
  }

  /// The library behaves as exact arithmetic would: `pow(x, 2)` is the square and `sqrt` the
  /// non-negative square root of a non-negative number.
  ghost predicate ExactPowAndSqrt(math: MathLib)
  {
    SquaresExactly(math)
    && (forall y: real {:trigger math.sqrt(y)} :: y >= 0.0 ==> math.sqrt(y) >= 0.0 && math.sqrt(y) * math.sqrt(y) == y)
  }

  // ---------------------------------------------------------------------------------------------
  // What the gain control achieves

  lemma {:induction false} ExactSumOfSquaresIsNonNegative(s: seq<real>)
    ensures ExactSumOfSquares(s) >= 0.0
  {
    if |s| > 0 {
      ExactSumOfSquaresIsNonNegative(s[..|s| - 1]);
    }
  }

  /// Σ `x * x` over the samples `s`: the sum of squares in exact arithmetic.
  function ExactSumOfSquares(s: seq<real>): real
  {
    if |s| == 0 then 0.0 else ExactSumOfSquares(s[..|s| - 1]) + s[|s| - 1] * s[|s| - 1]
  }

  lemma {:induction false} SumOfSquaresIsExact(math: MathLib, s: seq<real>)
    requires ExactPowAndSqrt(math)
    ensures SumOfSquares(math, s) == ExactSumOfSquares(s)
  {
    if |s| > 0 {
      SumOfSquaresIsExact(math, s[..|s| - 1]);
      var x := s[|s| - 1];
      assert math.pow(x, 2.0) == x * x;
    }
  }

  /// Scaling the samples by `c` scales the sum of their squares by `c * c`.
  lemma {:induction false} SumOfSquaresOfScaled(s: seq<real>, c: real)
    ensures ExactSumOfSquares(Scale(s, c)) == c * c * ExactSumOfSquares(s)
  {
    if |s| > 0 {
      var n := |s|;
      var t, u := Scale(s, c), Scale(s[..n - 1], c);
      forall i | 0 <= i < n - 1
        ensures t[..n - 1][i] == u[i]
      {
        assert t[..n - 1][i] == t[i] == s[i] * c;
        assert u[i] == s[..n - 1][i] * c;
      }
      assert t[..n - 1] == u;
      SumOfSquaresOfScaled(s[..n - 1], c);
      var x := s[n - 1];
      assert t[n - 1] == x * c;
      ScaledSquareSum(ExactSumOfSquares(u), ExactSumOfSquares(s[..n - 1]), x, c);
    }
  }

  /// `sqrt` of a square of a non-negative number is that number.
  lemma SqrtOfSquare(math: MathLib, z: real)
    requires ExactPowAndSqrt(math) && z >= 0.0
    ensures math.sqrt(z * z) == z
  {
    var q := math.sqrt(z * z);
    assert q >= 0.0 && q * q == z * z;
    if q > z {
      SquareIsMonotone(q, z);
    } else if q < z {
      SquareIsMonotone(z, q);
    }
  }

  lemma SquareIsMonotone(q: real, z: real)
    requires q > z >= 0.0
    ensures q * q > z * z
  {
    assert q * q - z * z == (q - z) * (q + z);
    ProductIsPositive(q - z, q + z);
  }

  lemma ProductIsPositive(a: real, b: real)
    requires a > 0.0 && b > 0.0
    ensures a * b > 0.0
  {
  }

  lemma Regroup(a: real, b: real, n: real)
    requires n != 0.0
    ensures a * b / n == a * (b / n)
  {
  }


  lemma EqualQuotients(a: real, b: real, n: real)
    requires a == b && n != 0.0
    ensures a / n == b / n
  {
  }

  /// The step of `SumOfSquaresOfScaled`: one more sample `x`, scaled by `c`.
  lemma ScaledSquareSum(scaledSum: real, sum: real, x: real, c: real)
    requires scaledSum == c * c * sum
    ensures scaledSum + (x * c) * (x * c) == c * c * (sum + x * x)
  {
    SquareOfProduct(c, x);
  }

  lemma SquareOfProduct(c: real, r: real)
    ensures c * c * (r * r) == (c * r) * (c * r)
  {
  }

  /// With exact arithmetic and a non-negative target, a frame that is neither empty nor silent
  /// leaves the gain control with exactly the target level.
  lemma {:induction false} AgcReachesTarget(math: MathLib, s: seq<real>, target: real)
    requires ExactPowAndSqrt(math) && |s| > 0 && Rms(math, s) != 0.0 && target >= 0.0
    ensures Rms(math, AgcOutput(math, s, target)) == target
  {
    var n := |s| as real;
    var rms := Rms(math, s);
    var c := target / rms;
    var t := Scale(s, c);
    RmsSquared(math, s);
    MeanSquareOfScaled(s, c, target, rms);
    SumOfSquaresIsExact(math, t);
    EqualQuotients(SumOfSquares(math, t), ExactSumOfSquares(t), n);
    SqrtOfSquare(math, target);
  }

  /// Scaled by `target / rms`, where `rms` is the root mean square, the samples have the mean
  /// square `target * target`.
  lemma {:induction false} MeanSquareOfScaled(s: seq<real>, c: real, target: real, rms: real)
    requires |s| > 0 && rms != 0.0 && rms * rms == ExactSumOfSquares(s) / |s| as real && c == target / rms
    ensures ExactSumOfSquares(Scale(s, c)) / |s| as real == target * target
  {
    var n := |s| as real;
    var a := ExactSumOfSquares(s);
    SumOfSquaresOfScaled(s, c);
    ScaledMean(ExactSumOfSquares(Scale(s, c)), a, n, c, rms, target);
  }

  /// The root mean square, squared, is the mean square.
  lemma {:induction false} RmsSquared(math: MathLib, s: seq<real>)
    requires ExactPowAndSqrt(math) && |s| > 0
    ensures Rms(math, s) * Rms(math, s) == ExactSumOfSquares(s) / |s| as real
  {
    SumOfSquaresIsExact(math, s);
    ExactSumOfSquaresIsNonNegative(s);
    var m := SumOfSquares(math, s) / |s| as real;
    assert m >= 0.0;
    assert math.sqrt(m) * math.sqrt(m) == m;
  }

  /// The arithmetic of `MeanSquareOfScaled`: a sum scaled by `c * c`, with `c` the target over
  /// the root mean square, has the mean `target * target`.
  lemma ScaledMean(scaledSum: real, sum: real, n: real, c: real, rms: real, target: real)
    requires n != 0.0 && rms != 0.0 && scaledSum == c * c * sum && rms * rms == sum / n && c == target / rms
    ensures scaledSum / n == target * target
  {
    Regroup(c * c, sum, n);
    assert c * rms == target;
    SquareOfProduct(c, rms);
  }

  /// With exact arithmetic and a positive target, a second gain control changes nothing.
  lemma {:induction false} AgcIsIdempotent(math: MathLib, s: seq<real>, target: real)
    requires ExactPowAndSqrt(math) && |s| > 0 && Rms(math, s) != 0.0 && target > 0.0
    ensures AgcOutput(math, AgcOutput(math, s, target), target) == AgcOutput(math, s, target)
  {
    var t := AgcOutput(math, s, target);
    AgcReachesTarget(math, s, target);
    assert Rms(math, t) == target;
    assert target / target == 1.0;
    assert Scale(t, 1.0) == t;
  }

  // ---------------------------------------------------------------------------------------------
  // The buffer operations

  /// `compute_rms` over `buf[lo..hi]`.
  method ComputeRms(math: MathLib, buf: array<real>, lo: nat, hi: nat) returns (rms: real)
    requires lo < hi <= buf.Length
    ensures rms == Rms(math, buf[lo..hi])
  {
    var acc := 0.0;
    var i := lo;
    while i < hi
      invariant lo <= i <= hi
      invariant acc == SumOfSquares(math, buf[lo..i])
    {
      assert buf[lo..i + 1][..i - lo] == buf[lo..i];
      acc := acc + math.pow(buf[i], 2.0);
      i := i + 1;
    }
    rms := math.sqrt(acc / (hi - lo) as real);
  }

  /// `adjust_signal_gain` on the frame `buf[lo..hi]`; the rest of the buffer is untouched.
  method AdjustSignalGain(math: MathLib, buf: array<real>, lo: nat, hi: nat, target: real)
    requires lo <= hi <= buf.Length
    modifies buf
    ensures buf[lo..hi] == AgcOutput(math, old(buf[lo..hi]), target)
    ensures buf[..lo] == old(buf[..lo]) && buf[hi..] == old(buf[hi..])
  {
    if hi == lo {
      return;
    }
    var rms := ComputeRms(math, buf, lo, hi);
    if rms == 0.0 {
      return;
    }
    ScaleFrame(buf, lo, hi, target / rms);
  }

  /// Every sample of the frame `buf[lo..hi]` times `r`.
  method ScaleFrame(buf: array<real>, lo: nat, hi: nat, r: real)
    requires lo <= hi <= buf.Length
    modifies buf
    ensures buf[lo..hi] == Scale(old(buf[lo..hi]), r)
    ensures buf[..lo] == old(buf[..lo]) && buf[hi..] == old(buf[hi..])
  {
    ghost var s0 := buf[lo..hi];
    var i := lo;
    while i < hi
      invariant lo <= i <= hi
      invariant buf[..lo] == old(buf[..lo]) && buf[hi..] == old(buf[hi..])
      invariant forall k :: lo <= k < i ==> buf[k] == s0[k - lo] * r
      invariant forall k :: i <= k < hi ==> buf[k] == s0[k - lo]
    {
      buf[i] := buf[i] * r;
      i := i + 1;
    }
    assert forall k :: 0 <= k < hi - lo ==> buf[lo..hi][k] == Scale(s0, r)[k];
    assert buf[lo..hi] == Scale(s0, r);
  }
}
