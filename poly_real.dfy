/// Polynomial algebra over real coefficients, used to compose the transfer functions of the
/// synthesiser's filters.  A polynomial is the sequence of its coefficients in ascending order of
/// power (`p[0] + p[1]·z + p[2]·z² + …`); a rational function is a `Fraction` of two of them.
///
/// Every operation that the source writes as a loop is a method proved equal to a specification
/// function (`Trim` / `Trimmed`, `Add` / `Added`, …); the algebraic meaning of those functions is
/// stated in terms of `Coef` (coefficients, missing ones read as zero) and `ProductCoef` (the
/// coefficients of a product polynomial).
module PolyReal {
  import opened Status

  /// A comparison tolerance.  Callers pass `Some(EPS)` or `None`, which means exact comparison.
  type Tolerance = e: real | 0.0 <= e

  function Tol(eps: Option<Tolerance>): Tolerance
  {
    match eps
    case None => 0.0
    case Some(e) => e
  }

  function Abs(x: real): real { if x < 0.0 then -x else x }

  function Max(a: nat, b: nat): nat { if a < b then b else a }

  function Min(a: nat, b: nat): nat { if a < b then a else b }

  /// Coefficient `i` of `p`; positions outside the sequence (negative ones included) read as 0.
  function Coef(p: seq<real>, i: int): real
  {
    if 0 <= i < |p| then p[i] else 0.0
  }

  /// Two coefficient sequences that denote the same polynomial.
  ghost predicate SameCoefs(p: seq<real>, q: seq<real>)
  {
    forall m :: Coef(p, m) == Coef(q, m)
  }

  /// The zero polynomial as the source tests for it: exactly `[0.0]`.
  predicate IsZeroPoly(p: seq<real>)
  {
    |p| == 1 && p[0] == 0.0
  }

  /// The errors the polynomial operations report: an empty operand, a zero leading coefficient
  /// or a division by the zero polynomial.
  predicate IsArithmeticError(e: string)
  {
    e == "Zero length array." || e == "Zero len() arrays." || e == "Leading coefficient is zero."
    || e == "Polynomial division by zero."
  }

  // ---------------------------------------------------------------------------------------------
  // Trimming

  /// Length of the part of `a[..len]` that ends in a coefficient of magnitude above `eps`.
  function KeptLength(a: seq<real>, eps: real, len: nat): (n: nat)
    requires len <= |a|
    ensures n <= len
    ensures n == 0 || Abs(a[n - 1]) > eps
    ensures forall k :: n <= k < len ==> Abs(a[k]) <= eps
    decreases len
  {
    if len == 0 || Abs(a[len - 1]) > eps then len else KeptLength(a, eps, len - 1)
  }

  /// `r` is the result of trimming `a` to tolerance `eps`: `[0.0]` when every coefficient is
  /// within `eps` of zero, otherwise the shortest prefix of `a` that drops only such coefficients.
  ghost predicate IsTrimOf(r: seq<real>, a: seq<real>, eps: real)
  {
    if forall k :: 0 <= k < |a| ==> Abs(a[k]) <= eps then r == [0.0]
    else
      0 < |r| <= |a| && r == a[..|r|] && Abs(r[|r| - 1]) > eps
      && forall k :: |r| <= k < |a| ==> Abs(a[k]) <= eps
  }

  /// What `trim` returns.
  function Trimmed(a: seq<real>, eps: Option<Tolerance>): (r: Result<seq<real>>)
    ensures r.Err? <==> |a| == 0
    ensures r.Ok? ==> IsTrimOf(r.value, a, Tol(eps)) && |r.value| > 0
  {
    if |a| == 0 then Err("Zero length array.")
    else if Abs(a[|a| - 1]) > Tol(eps) then Ok(a)
    else
      var len := KeptLength(a, Tol(eps), |a| - 1);
      if len == 0 then Ok([0.0]) else Ok(a[..len])
  }

  /// Drops the top-order coefficients that are within the tolerance of zero.
  method Trim(a: seq<real>, eps: Option<Tolerance>) returns (r: Result<seq<real>>)
    ensures r == Trimmed(a, eps)
  {
    var e := Tol(eps);
    if |a| == 0 {
      return Err("Zero length array.");
    }
    if Abs(a[|a| - 1]) > e {
      return Ok(a);
    }
    var len: nat := |a| - 1;
    while len > 0 && Abs(a[len - 1]) <= e
      invariant len <= |a| - 1
      invariant KeptLength(a, e, len) == KeptLength(a, e, |a| - 1)
      decreases len
    {
      len := len - 1;
    }
    if len == 0 {
      return Ok([0.0]);
    }
    var a2 := seq(len, _ => 0.0);
    var i := 0;
    while i < len
      invariant 0 <= i <= len && |a2| == len
      invariant forall k :: 0 <= k < i ==> a2[k] == a[k]
    {
      a2 := a2[i := a[i]];
      i := i + 1;
    }
    assert a2 == a[..len];
    return Ok(a2);
  }

  /// Trimming moves no coefficient by more than the tolerance: the kept ones are unchanged and the
  /// dropped ones are within `eps` of zero.
  lemma TrimWithinTolerance(a: seq<real>, eps: Option<Tolerance>)
    requires |a| > 0
    ensures forall m :: Abs(Coef(Trimmed(a, eps).value, m) - Coef(a, m)) <= Tol(eps)
  {
    var r := Trimmed(a, eps).value;
    var e := Tol(eps);
    forall m
      ensures Abs(Coef(r, m) - Coef(a, m)) <= e
    {
      if forall k :: 0 <= k < |a| ==> Abs(a[k]) <= e {
        assert r == [0.0];
        if 0 <= m < |a| {
          assert Abs(a[m]) <= e;
        }
      } else if m < |r| {
        assert r == a[..|r|];
      }
    }
  }

  /// With exact comparison, trimming does not change the polynomial.
  lemma TrimExact(a: seq<real>, eps: Option<Tolerance>)
    requires |a| > 0 && Tol(eps) == 0.0
    ensures SameCoefs(Trimmed(a, eps).value, a)
  {
    TrimWithinTolerance(a, eps);
  }

  // ---------------------------------------------------------------------------------------------
  // Comparison

  /// Every coefficient of `a1` is within `eps` of the same coefficient of `a2` (the shorter one
  /// padded with zeros).
  predicate CloseWithin(a1: seq<real>, a2: seq<real>, eps: real)
  {
    forall i :: 0 <= i < Max(|a1|, |a2|) ==> Abs(Coef(a1, i) - Coef(a2, i)) <= eps
  }

  /// `compare_equal`: are the two polynomials equal up to the tolerance?  Both must be non-empty
  /// (the source computes `len() - 1` of each).
  method CompareEqual(a1: seq<real>, a2: seq<real>, eps: Option<Tolerance>) returns (b: bool)
    requires |a1| > 0 && |a2| > 0
    ensures b == CloseWithin(a1, a2, Tol(eps))
  {
    var e := Tol(eps);
    var n1 := |a1| - 1;
    var n2 := |a2| - 1;
    var n := Max(n1, n2);
    var i := 0;
    while i <= n
      invariant 0 <= i <= n + 1
      invariant forall k :: 0 <= k < i ==> Abs(Coef(a1, k) - Coef(a2, k)) <= e
    {
      var v1 := if i <= n1 then a1[i] else 0.0;
      var v2 := if i <= n2 then a2[i] else 0.0;
      if Abs(v1 - v2) > e {
        assert Abs(Coef(a1, i) - Coef(a2, i)) > e;
        return false;
      }
      i := i + 1;
    }
    return true;
  }

  /// With exact comparison, `compare_equal` holds exactly when the two sequences denote the same
  /// polynomial.
  lemma CompareEqualExact(a1: seq<real>, a2: seq<real>)
    ensures CloseWithin(a1, a2, 0.0) <==> SameCoefs(a1, a2)
  {
    if CloseWithin(a1, a2, 0.0) {
      forall m
        ensures Coef(a1, m) == Coef(a2, m)
      {
        if 0 <= m < Max(|a1|, |a2|) {
          assert Abs(Coef(a1, m) - Coef(a2, m)) <= 0.0;
        }
      }
    }
  }

  // ---------------------------------------------------------------------------------------------
  // Addition

  /// Coefficient-wise sum, padded to the longer operand.
  function PaddedSum(a1: seq<real>, a2: seq<real>): seq<real>
  {
    seq(Max(|a1|, |a2|), i => Coef(a1, i) + Coef(a2, i))
  }

  /// What `add` returns; the source indexes `a1[0]` and `a2[0]`, so both must be non-empty.
  function Added(a1: seq<real>, a2: seq<real>, eps: Option<Tolerance>): (r: Result<seq<real>>)
    requires |a1| > 0 && |a2| > 0
    ensures r.Ok? && 0 < |r.value| <= Max(|a1|, |a2|)
  {
    Trimmed(PaddedSum(a1, a2), eps)
  }

  /// Adds two polynomials.
  method Add(a1: seq<real>, a2: seq<real>, eps: Option<Tolerance>) returns (r: Result<seq<real>>)
    requires |a1| > 0 && |a2| > 0
    ensures r == Added(a1, a2, eps)
  {
    var n1 := |a1| - 1;
    var n2 := |a2| - 1;
    var n3 := Max(n1, n2);
    var a3 := seq(n3 + 1, _ => 0.0);
    var i := 0;
    while i <= n3
      invariant 0 <= i <= n3 + 1 && |a3| == n3 + 1
      invariant forall k :: 0 <= k < i ==> a3[k] == Coef(a1, k) + Coef(a2, k)
    {
      var v1 := if i <= n1 then a1[i] else 0.0;
      var v2 := if i <= n2 then a2[i] else 0.0;
      a3 := a3[i := v1 + v2];
      i := i + 1;
    }
    assert a3 == PaddedSum(a1, a2);
    r := Trim(a3, eps);
  }

  /// Every coefficient of the sum is within the tolerance of the sum of the coefficients (equal to
  /// it under exact comparison).
  lemma AddWithinTolerance(a1: seq<real>, a2: seq<real>, eps: Option<Tolerance>)
    requires |a1| > 0 && |a2| > 0
    ensures forall m ::
      Abs(Coef(Added(a1, a2, eps).value, m) - (Coef(a1, m) + Coef(a2, m))) <= Tol(eps)
  {
    var s := PaddedSum(a1, a2);
    TrimWithinTolerance(s, eps);
    forall m
      ensures Coef(s, m) == Coef(a1, m) + Coef(a2, m)
    {
    }
  }

  // ---------------------------------------------------------------------------------------------
  // Multiplication

  /// `Σ_{lo <= j < hi} Coef(p, j) · Coef(q, m - j)`.
  function ConvSum(p: seq<real>, q: seq<real>, m: int, lo: int, hi: int): real
    decreases hi - lo
  {
    if hi <= lo then 0.0
    else ConvSum(p, q, m, lo, hi - 1) + Coef(p, hi - 1) * Coef(q, m - (hi - 1))
  }

  /// Coefficient `m` of the product polynomial `p · q`.
  function ProductCoef(p: seq<real>, q: seq<real>, m: int): real
  {
    ConvSum(p, q, m, 0, m + 1)
  }

  /// `i.saturating_sub(n)` on unsigned integers.
  function SaturatingSub(i: nat, n: nat): nat { if i > n then i - n else 0 }

  /// Entry `i` of the source's convolution: the sum over exactly the indices it visits,
  /// `j` from `i.saturating_sub(n2)` to `min(n1, i)`.
  function ConvEntry(a1: seq<real>, a2: seq<real>, i: nat): real
    requires |a1| > 0 && |a2| > 0
  {
    ConvSum(a1, a2, i, SaturatingSub(i, |a2| - 1), Min(|a1| - 1, i) + 1)
  }

  /// The untrimmed product, of length `n1 + n2 + 1`.
  function Convolution(a1: seq<real>, a2: seq<real>): seq<real>
    requires |a1| > 0 && |a2| > 0
  {
    seq(|a1| + |a2| - 1, i requires 0 <= i => ConvEntry(a1, a2, i))
  }

  /// What `multiply` returns.
  function Multiplied(a1: seq<real>, a2: seq<real>, eps: Option<Tolerance>): (r: Result<seq<real>>)
    ensures r.Err? <==> |a1| == 0 || |a2| == 0
    ensures r.Err? ==> IsArithmeticError(r.error)
    ensures r.Ok? ==> |r.value| > 0
  {
    if |a1| == 0 || |a2| == 0 then Err("Zero len() arrays.")
    else if IsZeroPoly(a1) || IsZeroPoly(a2) then Ok([0.0])
    else Trimmed(Convolution(a1, a2), eps)
  }

  /// Multiplies two polynomials.
  method Multiply(a1: seq<real>, a2: seq<real>, eps: Option<Tolerance>) returns (r: Result<seq<real>>)
    ensures r == Multiplied(a1, a2, eps)
  {
    if |a1| == 0 || |a2| == 0 {
      return Err("Zero len() arrays.");
    }
    if (|a1| == 1 && a1[0] == 0.0) || (|a2| == 1 && a2[0] == 0.0) {
      return Ok([0.0]);
    }
    var n1 := |a1| - 1;
    var n2 := |a2| - 1;
    var n3 := n1 + n2;
    var a3 := seq(n3 + 1, _ => 0.0);
    var i := 0;
    while i <= n3
      invariant 0 <= i <= n3 + 1 && |a3| == n3 + 1
      invariant forall k :: 0 <= k < i ==> a3[k] == ConvEntry(a1, a2, k)
    {
      var t := 0.0;
      var p1 := SaturatingSub(i, n2);
      var p2 := Min(n1, i);
      var j := p1;
      while j <= p2
        invariant p1 <= j <= p2 + 1
        invariant t == ConvSum(a1, a2, i, p1, j)
      {
        t := t + a1[j] * a2[i - j];
        j := j + 1;
      }
      a3 := a3[i := t];
      i := i + 1;
    }
    assert a3 == Convolution(a1, a2);
    r := Trim(a3, eps);
  }

  lemma {:induction false} ConvSumSplit(p: seq<real>, q: seq<real>, m: int, lo: int, mid: int, hi: int)
    requires lo <= mid <= hi
    ensures ConvSum(p, q, m, lo, hi) == ConvSum(p, q, m, lo, mid) + ConvSum(p, q, m, mid, hi)
    decreases hi - mid
  {
    if hi > mid {
      ConvSumSplit(p, q, m, lo, mid, hi - 1);
    }
  }

  lemma {:induction false} ConvSumVanishes(p: seq<real>, q: seq<real>, m: int, lo: int, hi: int)
    requires forall j :: lo <= j < hi ==> Coef(p, j) == 0.0 || Coef(q, m - j) == 0.0
    ensures ConvSum(p, q, m, lo, hi) == 0.0
    decreases hi - lo
  {
    if hi > lo {
      ConvSumVanishes(p, q, m, lo, hi - 1);
    }
  }

  lemma {:induction false} ConvSumCongruent(p: seq<real>, p': seq<real>, q: seq<real>, q': seq<real>,
                                            m: int, lo: int, hi: int)
    requires SameCoefs(p, p') && SameCoefs(q, q')
    ensures ConvSum(p, q, m, lo, hi) == ConvSum(p', q', m, lo, hi)
    decreases hi - lo
  {
    if hi > lo {
      ConvSumCongruent(p, p', q, q', m, lo, hi - 1);
      assert Coef(p, hi - 1) == Coef(p', hi - 1);
      assert Coef(q, m - (hi - 1)) == Coef(q', m - (hi - 1));
    }
  }

  /// Product coefficients depend only on the polynomials, not on how they are written.
  lemma ProductCoefCongruent(p: seq<real>, p': seq<real>, q: seq<real>, q': seq<real>)
    requires SameCoefs(p, p') && SameCoefs(q, q')
    ensures forall m :: ProductCoef(p, q, m) == ProductCoef(p', q', m)
  {
    forall m
      ensures ProductCoef(p, q, m) == ProductCoef(p', q', m)
    {
      ConvSumCongruent(p, p', q, q', m, 0, m + 1);
    }
  }

  /// Multiplying by the zero polynomial gives zero coefficients everywhere.
  lemma ProductWithZero(p: seq<real>, q: seq<real>)
    requires IsZeroPoly(p) || IsZeroPoly(q)
    ensures forall m :: ProductCoef(p, q, m) == 0.0
  {
    forall m
      ensures ProductCoef(p, q, m) == 0.0
    {
      ConvSumVanishes(p, q, m, 0, m + 1);
    }
  }

  /// The source's restricted index range skips only vanishing terms.
  lemma ConvEntryIsProductCoef(a1: seq<real>, a2: seq<real>, i: nat)
    requires |a1| > 0 && |a2| > 0 && i <= |a1| + |a2| - 2
    ensures ConvEntry(a1, a2, i) == ProductCoef(a1, a2, i)
  {
    var lo := SaturatingSub(i, |a2| - 1);
    var hi := Min(|a1| - 1, i) + 1;
    ConvSumSplit(a1, a2, i, 0, lo, i + 1);
    ConvSumSplit(a1, a2, i, lo, hi, i + 1);
    ConvSumVanishes(a1, a2, i, 0, lo);
    ConvSumVanishes(a1, a2, i, hi, i + 1);
  }

  /// The product has no coefficient above degree `n1 + n2`.
  lemma ProductCoefBeyondDegree(a1: seq<real>, a2: seq<real>, m: int)
    requires m > |a1| + |a2| - 2
    ensures ProductCoef(a1, a2, m) == 0.0
  {
    ConvSumVanishes(a1, a2, m, 0, m + 1);
  }

  /// Every coefficient of the computed product is within the tolerance of the true product
  /// coefficient (equal to it under exact comparison).
  lemma MultiplyWithinTolerance(a1: seq<real>, a2: seq<real>, eps: Option<Tolerance>)
    requires |a1| > 0 && |a2| > 0
    ensures forall m ::
      Abs(Coef(Multiplied(a1, a2, eps).value, m) - ProductCoef(a1, a2, m)) <= Tol(eps)
  {
    var r := Multiplied(a1, a2, eps).value;
    if IsZeroPoly(a1) || IsZeroPoly(a2) {
      ProductWithZero(a1, a2);
    } else {
      var c := Convolution(a1, a2);
      TrimWithinTolerance(c, eps);
      forall m
        ensures Coef(c, m) == ProductCoef(a1, a2, m)
      {
        if 0 <= m < |c| {
          ConvEntryIsProductCoef(a1, a2, m);
        } else if m >= |c| {
          ProductCoefBeyondDegree(a1, a2, m);
        }
      }
    }
  }

  // ---------------------------------------------------------------------------------------------
  // Division by a constant and monic normalisation

  /// What `div_by_real` returns.
  function DividedByReal(a: seq<real>, b: real): (r: seq<real>)
    requires b != 0.0
    ensures |r| == |a| && forall i :: 0 <= i < |a| ==> r[i] * b == a[i]
  {
    seq(|a|, i requires 0 <= i < |a| => a[i] / b)
  }

  /// Divides every coefficient by `b`; its one caller has excluded `b == 0`.
  method DivByReal(a: seq<real>, b: real) returns (r: seq<real>)
    requires b != 0.0
    ensures r == DividedByReal(a, b)
  {
    r := seq(|a|, _ => 0.0);
    var i := 0;
    while i < |a|
      invariant 0 <= i <= |a| && |r| == |a|
      invariant forall k :: 0 <= k < i ==> r[k] == a[k] / b
      invariant forall k :: i <= k < |a| ==> r[k] == 0.0
    {
      r := r[i := a[i] / b];
      i := i + 1;
    }
  }

  /// What `make_monic` leaves in its argument, or the error it returns.
  function Monic(a: seq<real>): (r: Result<seq<real>>)
    ensures r.Err? <==> |a| == 0 || a[|a| - 1] == 0.0
    ensures r.Err? ==> IsArithmeticError(r.error)
    ensures r.Ok? ==> |r.value| == |a| && r.value[|a| - 1] == 1.0
    ensures r.Ok? ==> forall i :: 0 <= i < |a| ==> r.value[i] * a[|a| - 1] == a[i]
  {
    if |a| == 0 then Err("Zero length array.")
    else
      var lc := a[|a| - 1];
      if lc == 1.0 then Ok(a)
      else if lc == 0.0 then Err("Leading coefficient is zero.")
      else Ok(seq(|a|, i requires 0 <= i < |a| => if i == |a| - 1 then 1.0 else a[i] / lc))
  }

  /// Divides the coefficients in place by the leading coefficient.
  method MakeMonic(a: array<real>) returns (res: Result<()>)
    modifies a
    ensures Monic(old(a[..])).Ok? ==> res == Ok(()) && a[..] == Monic(old(a[..])).value
    ensures Monic(old(a[..])).Err? ==> res == Err(Monic(old(a[..])).error) && a[..] == old(a[..])
  {
    var len := a.Length;
    if len == 0 {
      return Err("Zero length array.");
    }
    var lc := a[len - 1];
    if lc == 1.0 {
      return Ok(());
    }
    if lc == 0.0 {
      return Err("Leading coefficient is zero.");
    }
    a[len - 1] := 1.0;
    var i := 0;
    while i < len - 1
      invariant 0 <= i <= len - 1
      invariant a[len - 1] == 1.0
      invariant forall k :: 0 <= k < i ==> a[k] == old(a[k]) / lc
      invariant forall k :: i <= k < len - 1 ==> a[k] == old(a[k])
    {
      a[i] := a[i] / lc;
      i := i + 1;
    }
    assert a[..] == Monic(old(a[..])).value;
    return Ok(());
  }

  // ---------------------------------------------------------------------------------------------
  // Long division

  /// One step of the source's long division at quotient position `i`: the quotient coefficient
  /// `r = a[n2 + i] / lc2` replaces `a[n2 + i]`, and `r·a2[j]` is subtracted from `a[i + j]`.
  function EliminationStep(a: seq<real>, d: seq<real>, i: nat): (r: seq<real>)
    requires |d| >= 2 && d[|d| - 1] != 0.0 && i + |d| <= |a|
    ensures |r| == |a|
  {
    var n2 := |d| - 1;
    var c := a[n2 + i] / d[n2];
    seq(|a|, k requires 0 <= k < |a| =>
      if k == n2 + i then c else if i <= k < i + n2 then a[k] - c * d[k - i] else a[k])
  }

  /// The steps at positions `hi - 1`, `hi - 2`, …, `0`, in the source's (reversed) order.
  function Eliminate(a: seq<real>, d: seq<real>, hi: nat): (r: seq<real>)
    requires |d| >= 2 && d[|d| - 1] != 0.0 && hi + |d| - 1 <= |a|
    ensures |r| == |a|
    decreases hi
  {
    if hi == 0 then a else Eliminate(EliminationStep(a, d, hi - 1), d, hi - 1)
  }

  /// What `divide` returns: `(quotient, remainder)`.
  function Divided(a1r: seq<real>, a2r: seq<real>, eps: Option<Tolerance>)
    : (r: Result<(seq<real>, seq<real>)>)
    ensures r.Err? <==> |a1r| == 0 || |a2r| == 0 || Trimmed(a2r, eps).value == [0.0]
    ensures r.Err? ==> IsArithmeticError(r.error)
    ensures r.Ok? ==> |r.value.0| > 0 && |r.value.1| > 0
    ensures r.Ok? ==> r.value.1 == [0.0] || |r.value.1| < |Trimmed(a2r, eps).value|
  {
    if |a1r| == 0 || |a2r| == 0 then Err("Zero len() arrays.")
    else
      var a1 := Trimmed(a1r, eps).value;
      var a2 := Trimmed(a2r, eps).value;
      if |a2| == 1 then
        if a2[0] == 0.0 then Err("Polynomial division by zero.")
        else if a2[0] == 1.0 then Ok((a1, [0.0]))
        else Ok((DividedByReal(a1, a2[0]), [0.0]))
      else if |a1| < |a2| then Ok(([0.0], a1))
      else Ok(LongDivision(a1, a2, eps))
  }

  /// The long-division branch of `divide`: eliminate, then trim `a[n2..]` (the quotient) and
  /// `a[..n2]` (the remainder).
  function LongDivision(a1: seq<real>, a2: seq<real>, eps: Option<Tolerance>): (qr: (seq<real>, seq<real>))
    requires |a2| >= 2 && a2[|a2| - 1] != 0.0 && |a2| <= |a1|
    ensures |qr.0| > 0 && (qr.1 == [0.0] || 0 < |qr.1| < |a2|)
  {
    var n2 := |a2| - 1;
    var a := Eliminate(a1, a2, |a1| - n2);
    (Trimmed(a[n2..], eps).value, Trimmed(a[..n2], eps).value)
  }

  /// Divides `a1r` by `a2r`, returning `(quotient, remainder)`.
  method Divide(a1r: seq<real>, a2r: seq<real>, eps: Option<Tolerance>)
    returns (r: Result<(seq<real>, seq<real>)>)
    ensures r == Divided(a1r, a2r, eps)
  {
    if |a1r| == 0 || |a2r| == 0 {
      return Err("Zero len() arrays.");
    }
    var t1 := Trim(a1r, eps);
    var t2 := Trim(a2r, eps);
    var a1 := t1.value;
    var a2 := t2.value;
    if |a2| == 1 {
      if a2[0] == 0.0 {
        return Err("Polynomial division by zero.");
      }
      if a2[0] == 1.0 {
        return Ok((a1, [0.0]));
      }
      var q := DivByReal(a1, a2[0]);
      return Ok((q, [0.0]));
    }
    var n1 := |a1| - 1;
    var n2 := |a2| - 1;
    if n1 < n2 {
      return Ok(([0.0], a1));
    }
    var a := EliminateAll(a1, a2);
    var quotient := Trim(a[n2..], eps);
    var remainder := Trim(a[..n2], eps);
    return Ok((quotient.value, remainder.value));
  }

  /// The elimination loop of `divide`: positions `n1 - n2` down to `0`.
  method EliminateAll(a1: seq<real>, a2: seq<real>) returns (a: seq<real>)
    requires |a2| >= 2 && a2[|a2| - 1] != 0.0 && |a2| <= |a1|
    ensures a == Eliminate(a1, a2, |a1| - |a2| + 1)
  {
    var n2 := |a2| - 1;
    a := a1;
    var k := |a1| - n2;
    while k > 0
      invariant 0 <= k <= |a1| - n2 && |a| == |a1|
      invariant Eliminate(a, a2, k) == Eliminate(a1, a2, |a1| - n2)
    {
      a := EliminateAt(a, a2, k - 1);
      k := k - 1;
    }
  }

  /// One pass of the elimination loop, at quotient position `i`.
  method EliminateAt(a: seq<real>, a2: seq<real>, i: nat) returns (a': seq<real>)
    requires |a2| >= 2 && a2[|a2| - 1] != 0.0 && i + |a2| <= |a|
    ensures a' == EliminationStep(a, a2, i)
  {
    var n2 := |a2| - 1;
    var c := a[n2 + i] / a2[n2];
    a' := a[n2 + i := c];
    var j := 0;
    while j < n2
      invariant 0 <= j <= n2 && |a'| == |a|
      invariant forall x :: 0 <= x < |a| ==> (a'[x] ==
        if x == n2 + i then c else if i <= x < i + j then a[x] - c * a2[x - i] else a[x])
    {
      a' := a'[i + j := a'[i + j] - c * a2[j]];
      j := j + 1;
    }
    assert forall x :: 0 <= x < |a| ==> a'[x] == EliminationStep(a, a2, i)[x];
  }

  /// The quotient coefficients found once only positions `0 .. h-1` remain to eliminate.
  function PartialQuotient(a: seq<real>, n2: nat, h: nat): seq<real>
    requires n2 <= |a|
  {
    seq(|a| - n2, k requires 0 <= k < |a| - n2 => if k >= h then a[n2 + k] else 0.0)
  }

  /// Loop invariant of the long division of `A` by `d`: the dividend equals the partial quotient
  /// times `d` plus the part of `a` not yet eliminated.
  ghost predicate DivisionInvariant(A: seq<real>, d: seq<real>, a: seq<real>, h: nat)
    requires |d| >= 1 && |d| - 1 + h <= |a|
  {
    forall m :: Coef(A, m) == ProductCoef(PartialQuotient(a, |d| - 1, h), d, m) + Coef(a[..|d| - 1 + h], m)
  }

  /// Adding `c` to coefficient `i` of `p` adds `c·q` shifted by `i` to the product.
  lemma CoefUpdate(p: seq<real>, i: nat, c: real, k: int)
    requires i < |p|
    ensures Coef(p[i := p[i] + c], k) == Coef(p, k) + (if k == i then c else 0.0)
  {
  }

  lemma {:induction false} ConvSumPointUpdate(p: seq<real>, q: seq<real>, m: int, i: nat, c: real, hi: int)
    requires i < |p|
    ensures ConvSum(p[i := p[i] + c], q, m, 0, hi)
         == ConvSum(p, q, m, 0, hi) + (if i < hi then c * Coef(q, m - i) else 0.0)
    decreases hi
  {
    if hi > 0 {
      ConvSumPointUpdate(p, q, m, i, c, hi - 1);
      var p' := p[i := p[i] + c];
      var t := Coef(q, m - (hi - 1));
      CoefUpdate(p, i, c, hi - 1);
      var x, x' := Coef(p, hi - 1), Coef(p', hi - 1);
      if hi - 1 == i {
        assert x' * t == x * t + c * t;
      } else {
        assert x' == x;
      }
    }
  }

  /// One elimination step keeps the division invariant.
  lemma EliminationStepKeepsInvariant(A: seq<real>, d: seq<real>, a: seq<real>, h: nat)
    requires |d| >= 2 && d[|d| - 1] != 0.0 && 1 <= h && |d| - 1 + h <= |a|
    requires DivisionInvariant(A, d, a, h)
    ensures DivisionInvariant(A, d, EliminationStep(a, d, h - 1), h - 1)
  {
    var n2 := |d| - 1;
    var i := h - 1;
    var c := a[n2 + i] / d[n2];
    var Q := PartialQuotient(a, n2, h);
    QuotientStep(d, a, h);
    forall m
      ensures Coef(A, m) == ProductCoef(PartialQuotient(EliminationStep(a, d, i), n2, i), d, m)
                            + Coef(EliminationStep(a, d, i)[..n2 + i], m)
    {
      ConvSumPointUpdate(Q, d, m, i, c, m + 1);
      RemainderStep(d, a, h, m);
    }
  }

  /// The elimination step at `h - 1` finds quotient coefficient `h - 1`.
  lemma QuotientStep(d: seq<real>, a: seq<real>, h: nat)
    requires |d| >= 2 && d[|d| - 1] != 0.0 && 1 <= h && |d| - 1 + h <= |a|
    ensures var n2 := |d| - 1;
            var Q := PartialQuotient(a, n2, h);
            PartialQuotient(EliminationStep(a, d, h - 1), n2, h - 1) == Q[h - 1 := Q[h - 1] + a[n2 + h - 1] / d[n2]]
  {
    var n2 := |d| - 1;
    assert PartialQuotient(a, n2, h)[h - 1] == 0.0;
  }

  /// The elimination step at `h - 1` takes `c·d`, shifted by `h - 1`, off the remainder, where
  /// `c` is the quotient coefficient it finds.
  lemma RemainderStep(d: seq<real>, a: seq<real>, h: nat, m: int)
    requires |d| >= 2 && d[|d| - 1] != 0.0 && 1 <= h && |d| - 1 + h <= |a|
    ensures var n2, i := |d| - 1, h - 1;
            Coef(EliminationStep(a, d, i)[..n2 + i], m)
            == Coef(a[..n2 + h], m) - a[n2 + i] / d[n2] * Coef(d, m - i)
  {
    var n2, i := |d| - 1, h - 1;
    var c := a[n2 + i] / d[n2];
    if m == n2 + i {
      assert c * d[n2] == a[n2 + i];
    }
  }

  /// All the elimination steps keep the division invariant.
  lemma {:induction false} EliminateKeepsInvariant(A: seq<real>, d: seq<real>, a: seq<real>, h: nat)
    requires |d| >= 2 && d[|d| - 1] != 0.0 && |d| - 1 + h <= |a|
    requires DivisionInvariant(A, d, a, h)
    ensures DivisionInvariant(A, d, Eliminate(a, d, h), 0)
    decreases h
  {
    if h > 0 {
      EliminationStepKeepsInvariant(A, d, a, h);
      EliminateKeepsInvariant(A, d, EliminationStep(a, d, h - 1), h - 1);
    }
  }

  /// `Σ Coef(p, j)·c·[m == j]`: multiplying by a constant polynomial scales every coefficient.
  lemma {:induction false} ConvSumByConstant(p: seq<real>, c: real, m: int, hi: int)
    ensures ConvSum(p, [c], m, 0, hi) == if 0 <= m < hi then Coef(p, m) * c else 0.0
    decreases hi
  {
    if hi > 0 {
      ConvSumByConstant(p, c, m, hi - 1);
    }
  }

  /// Division identity: under exact comparison, quotient · divisor + remainder is the dividend,
  /// coefficient by coefficient, in every case in which `divide` succeeds.
  lemma DivisionIdentity(a1r: seq<real>, a2r: seq<real>, eps: Option<Tolerance>)
    requires Tol(eps) == 0.0
    requires Divided(a1r, a2r, eps).Ok?
    ensures forall m :: (Coef(a1r, m)
      == ProductCoef(Divided(a1r, a2r, eps).value.0, a2r, m) + Coef(Divided(a1r, a2r, eps).value.1, m))
  {
    var A := Trimmed(a1r, eps).value;
    var d := Trimmed(a2r, eps).value;
    var q := Divided(a1r, a2r, eps).value.0;
    var r := Divided(a1r, a2r, eps).value.1;
    TrimExact(a1r, eps);
    TrimExact(a2r, eps);
    if |d| == 1 {
      DivisionByConstant(A, d, q, r);
    } else if |A| < |d| {
      ProductWithZero(q, d);
    } else {
      LongDivisionIdentity(A, d, eps);
    }
    ProductCoefCongruent(q, q, d, a2r);
  }

  /// The constant-divisor case of `divide`.
  lemma DivisionByConstant(A: seq<real>, d: seq<real>, q: seq<real>, r: seq<real>)
    requires |d| == 1 && d[0] != 0.0 && r == [0.0]
    requires q == (if d[0] == 1.0 then A else DividedByReal(A, d[0]))
    ensures forall m :: Coef(A, m) == ProductCoef(q, d, m) + Coef(r, m)
  {
    assert d == [d[0]];
    forall m
      ensures Coef(A, m) == ProductCoef(q, d, m) + Coef(r, m)
    {
      ConvSumByConstant(q, d[0], m, m + 1);
    }
  }

  /// The long-division case of `divide`.
  lemma LongDivisionIdentity(A: seq<real>, d: seq<real>, eps: Option<Tolerance>)
    requires Tol(eps) == 0.0
    requires |d| >= 2 && d[|d| - 1] != 0.0 && |d| <= |A|
    ensures forall m :: Coef(A, m) == ProductCoef(LongDivision(A, d, eps).0, d, m) + Coef(LongDivision(A, d, eps).1, m)
  {
    var n2 := |d| - 1;
    var h := |A| - n2;
    InitialDivisionInvariant(A, d, h);
    EliminateKeepsInvariant(A, d, A, h);
    var E := Eliminate(A, d, h);
    FinalDivisionInvariant(A, d, E);
    TrimmedDivisionIdentity(A, d, E[n2..], E[..n2], eps);
  }

  /// Once every position is eliminated, `a[n2..]` is the quotient and `a[..n2]` the remainder.
  lemma FinalDivisionInvariant(A: seq<real>, d: seq<real>, E: seq<real>)
    requires 2 <= |d| <= |E|
    requires DivisionInvariant(A, d, E, 0)
    ensures forall m :: Coef(A, m) == ProductCoef(E[|d| - 1..], d, m) + Coef(E[..|d| - 1], m)
  {
    var n2 := |d| - 1;
    assert PartialQuotient(E, n2, 0) == E[n2..];
    assert E[..n2 + 0] == E[..n2];
  }

  /// Exact trimming of the quotient and the remainder keeps the division identity.
  lemma TrimmedDivisionIdentity(A: seq<real>, d: seq<real>, Q: seq<real>, R: seq<real>, eps: Option<Tolerance>)
    requires Tol(eps) == 0.0 && |Q| > 0 && |R| > 0
    requires forall m :: Coef(A, m) == ProductCoef(Q, d, m) + Coef(R, m)
    ensures forall m :: Coef(A, m) == ProductCoef(Trimmed(Q, eps).value, d, m) + Coef(Trimmed(R, eps).value, m)
  {
    var q := Trimmed(Q, eps).value;
    var r := Trimmed(R, eps).value;
    TrimExact(Q, eps);
    TrimExact(R, eps);
    ProductCoefCongruent(q, Q, d, d);
  }

  /// Before the first step the partial quotient is zero and nothing has been eliminated.
  lemma InitialDivisionInvariant(A: seq<real>, d: seq<real>, h: nat)
    requires 1 <= |d| <= |A| && h == |A| - (|d| - 1)
    ensures DivisionInvariant(A, d, A, h)
  {
    var n2 := |d| - 1;
    var Z := PartialQuotient(A, n2, h);
    assert forall k :: 0 <= k < |Z| ==> Z[k] == 0.0;
    ConvSumVanishesOnZeros(Z, d);
    assert A[..n2 + h] == A;
  }

  /// A polynomial with only zero coefficients has a zero product with anything.
  lemma ConvSumVanishesOnZeros(z: seq<real>, d: seq<real>)
    requires forall k :: 0 <= k < |z| ==> z[k] == 0.0
    ensures forall m :: ProductCoef(z, d, m) == 0.0
  {
    forall m
      ensures ProductCoef(z, d, m) == 0.0
    {
      ConvSumVanishes(z, d, m, 0, m + 1);
    }
  }

  /// Under exact comparison the remainder of a successful division is `[0.0]` or ends in a
  /// non-zero coefficient.
  lemma RemainderIsTrimmed(a1r: seq<real>, a2r: seq<real>, eps: Option<Tolerance>)
    requires Tol(eps) == 0.0 && Divided(a1r, a2r, eps).Ok?
    ensures var r := Divided(a1r, a2r, eps).value.1; r == [0.0] || r[|r| - 1] != 0.0
  {
    var A := Trimmed(a1r, eps).value;
    var d := Trimmed(a2r, eps).value;
    if |d| >= 2 && |d| <= |A| {
      var E := Eliminate(A, d, |A| - (|d| - 1));
      assert IsTrimOf(Trimmed(E[..|d| - 1], eps).value, E[..|d| - 1], 0.0);
    }
  }

  /// Coefficient-wise difference `p - q`.
  function Difference(p: seq<real>, q: seq<real>): seq<real>
  {
    seq(Max(|p|, |q|), k => Coef(p, k) - Coef(q, k))
  }

  lemma {:induction false} ConvSumDifference(p: seq<real>, p': seq<real>, q: seq<real>, m: int, lo: int, hi: int)
    ensures ConvSum(Difference(p, p'), q, m, lo, hi) == ConvSum(p, q, m, lo, hi) - ConvSum(p', q, m, lo, hi)
    decreases hi - lo
  {
    if hi > lo {
      ConvSumDifference(p, p', q, m, lo, hi - 1);
      var x := Coef(q, m - (hi - 1));
      assert Coef(Difference(p, p'), hi - 1) == Coef(p, hi - 1) - Coef(p', hi - 1);
      assert Coef(Difference(p, p'), hi - 1) * x == Coef(p, hi - 1) * x - Coef(p', hi - 1) * x;
    }
  }

  /// The coefficient of a product at the sum of the two degrees is the product of the leading
  /// coefficients.
  lemma TopProductCoef(p: seq<real>, q: seq<real>, k: nat, n: nat)
    requires forall j :: j > k ==> Coef(p, j) == 0.0
    requires forall j :: j > n ==> Coef(q, j) == 0.0
    ensures ProductCoef(p, q, k + n) == Coef(p, k) * Coef(q, n)
  {
    var m := k + n;
    ConvSumSplit(p, q, m, 0, k, m + 1);
    ConvSumSplit(p, q, m, k, k + 1, m + 1);
    ConvSumVanishes(p, q, m, 0, k);
    assert forall j :: k + 1 <= j < m + 1 ==> Coef(p, j) == 0.0;
    ConvSumVanishes(p, q, m, k + 1, m + 1);
    assert ConvSum(p, q, m, k, k + 1) == ConvSum(p, q, m, k, k) + Coef(p, k) * Coef(q, n);
  }

  /// The index of the leading non-zero coefficient of a polynomial that is not zero, which is
  /// where the exact trim cuts it.
  lemma LeadingIndex(q: seq<real>, eps: Option<Tolerance>) returns (n: nat)
    requires Tol(eps) == 0.0
    requires exists k :: 0 <= k < |q| && q[k] != 0.0
    ensures Trimmed(q, eps).Ok? && Trimmed(q, eps).value != [0.0]
    ensures n + 1 == |Trimmed(q, eps).value|
    ensures Coef(q, n) != 0.0 && forall j :: j > n ==> Coef(q, j) == 0.0
  {
    var t := Trimmed(q, eps).value;
    assert !(forall k :: 0 <= k < |q| ==> Abs(q[k]) <= 0.0);
    n := |t| - 1;
    assert t == q[..n + 1] && t[n] != 0.0;
  }

  /// If `p · q` and `Q · q + R` agree and `R` stays below the degree of `q`, then `Q` is `p` and
  /// `R` is zero.
  lemma QuotientIsUnique(p: seq<real>, Q: seq<real>, q: seq<real>, R: seq<real>, n: nat)
    requires forall m :: ProductCoef(p, q, m) == ProductCoef(Q, q, m) + Coef(R, m)
    requires Coef(q, n) != 0.0 && forall j :: j > n ==> Coef(q, j) == 0.0
    requires forall m :: m >= n ==> Coef(R, m) == 0.0
    ensures SameCoefs(Q, p)
    ensures forall m :: Coef(R, m) == 0.0
  {
    var D := Difference(p, Q);
    forall m
      ensures ProductCoef(D, q, m) == Coef(R, m)
    {
      ConvSumDifference(p, Q, q, m, 0, m + 1);
    }
    var L := KeptLength(D, 0.0, |D|);
    if L > 0 {
      var k := L - 1;
      TopProductCoef(D, q, k, n);
      assert false;
    }
    forall m
      ensures Coef(Q, m) == Coef(p, m)
    {
      assert Coef(D, m) == 0.0;
    }
    forall m
      ensures Coef(R, m) == 0.0
    {
      ConvSumVanishes(D, q, m, 0, m + 1);
    }
  }

  /// Under exact comparison `multiply` computes the product's coefficients.
  lemma MultipliedExactly(p: seq<real>, q: seq<real>, eps: Option<Tolerance>)
    requires Tol(eps) == 0.0 && |p| > 0 && |q| > 0
    ensures forall m :: Coef(Multiplied(p, q, eps).value, m) == ProductCoef(p, q, m)
  {
    MultiplyWithinTolerance(p, q, eps);
  }

  /// Dividing an exact multiple `P = p · q` by `q` gives back `p` with a zero remainder.
  lemma DivideExactMultiple(P: seq<real>, p: seq<real>, q: seq<real>, eps: Option<Tolerance>, n: nat)
    requires Tol(eps) == 0.0 && Divided(P, q, eps).Ok?
    requires n + 1 == |Trimmed(q, eps).value|
    requires Coef(q, n) != 0.0 && forall j :: j > n ==> Coef(q, j) == 0.0
    requires forall m :: Coef(P, m) == ProductCoef(p, q, m)
    ensures SameCoefs(Divided(P, q, eps).value.0, p)
    ensures Divided(P, q, eps).value.1 == [0.0]
  {
    var Q := Divided(P, q, eps).value.0;
    var R := Divided(P, q, eps).value.1;
    DivisionIdentity(P, q, eps);
    RemainderIsTrimmed(P, q, eps);
    assert forall m :: m >= n ==> Coef(R, m) == 0.0;
    QuotientIsUnique(p, Q, q, R, n);
    assert Coef(R, |R| - 1) == 0.0;
  }

  /// Round trip: under exact comparison, dividing `p · q` by a non-zero `q` gives back `p` with a
  /// zero remainder.
  lemma MultiplyThenDivide(p: seq<real>, q: seq<real>, eps: Option<Tolerance>)
    requires Tol(eps) == 0.0 && |p| > 0
    requires exists k :: 0 <= k < |q| && q[k] != 0.0
    ensures Divided(Multiplied(p, q, eps).value, q, eps).Ok?
    ensures SameCoefs(Divided(Multiplied(p, q, eps).value, q, eps).value.0, p)
    ensures Divided(Multiplied(p, q, eps).value, q, eps).value.1 == [0.0]
  {
    var P := Multiplied(p, q, eps).value;
    MultipliedExactly(p, q, eps);
    var n := LeadingIndex(q, eps);
    DivideExactMultiple(P, p, q, eps, n);
  }

  // ---------------------------------------------------------------------------------------------
  // Greatest common divisor

  /// What `gcd` can return: `[1.0]`, or a monic polynomial of degree at least one.
  predicate MonicOrOne(g: seq<real>)
  {
    g == [1.0] || (|g| >= 2 && g[|g| - 1] == 1.0)
  }

  /// The Euclidean loop of `gcd`, from the pair `(r1, r2)` with `r2` monic.
  function GcdLoop(r1: seq<real>, r2: seq<real>, eps: Option<Tolerance>): (g: Result<seq<real>>)
    requires |r1| > 0 && |r2| > 0 && r2[|r2| - 1] == 1.0
    ensures g.Ok? ==> MonicOrOne(g.value)
    ensures g.Err? ==> IsArithmeticError(g.error)
    decreases |r2|
  {
    if |r2| < 2 then Ok([1.0])
    else
      match Divided(r1, r2, eps)
      case Err(e) => Err(e)
      case Ok(qr) =>
        if IsZeroPoly(qr.1) then Ok(r2)
        else
          match Monic(qr.1)
          case Err(e) => Err(e)
          case Ok(m) => GcdLoop(r2, m, eps)
  }

  /// What `gcd` returns: `[1.0]` for coprime polynomials, otherwise a monic common factor.
  function GcdOf(a1: seq<real>, a2: seq<real>, eps: Option<Tolerance>): (g: Result<seq<real>>)
    ensures |a1| == 0 || |a2| == 0 ==> g.Err?
    ensures g.Ok? ==> MonicOrOne(g.value)
    ensures g.Err? ==> IsArithmeticError(g.error)
  {
    if |a1| == 0 then Err("Zero length array.")
    else if |a2| == 0 then Err("Zero length array.")
    else GcdOfTrimmed(Trimmed(a1, eps).value, Trimmed(a2, eps).value, eps)
  }

  /// `gcd` after both operands are trimmed: make both monic, put the longer first, run the loop.
  function GcdOfTrimmed(t1: seq<real>, t2: seq<real>, eps: Option<Tolerance>): (g: Result<seq<real>>)
    ensures g.Ok? ==> MonicOrOne(g.value)
    ensures g.Err? ==> IsArithmeticError(g.error)
  {
    match Monic(t1)
    case Err(e) => Err(e)
    case Ok(m1) =>
      match Monic(t2)
      case Err(e) => Err(e)
      case Ok(m2) =>
        if |m1| < |m2| then GcdLoop(m2, m1, eps) else GcdLoop(m1, m2, eps)
  }

  /// `make_monic` applied to a local vector of `gcd`: the vector after the call, or the error.
  method MakeMonicVec(v: seq<real>) returns (r: Result<seq<real>>)
    ensures r == Monic(v)
  {
    var buf := new real[|v|](i requires 0 <= i < |v| => v[i]);
    assert buf[..] == v;
    var res := MakeMonic(buf);
    if res.Err? {
      return Err(res.error);
    }
    return Ok(buf[..]);
  }

  /// Computes the monic greatest common divisor by Euclid's algorithm.
  method Gcd(a1: seq<real>, a2: seq<real>, eps: Option<Tolerance>) returns (g: Result<seq<real>>)
    ensures g == GcdOf(a1, a2, eps)
  {
    var t1 := Trim(a1, eps);
    if t1.Err? {
      return Err(t1.error);
    }
    var t2 := Trim(a2, eps);
    if t2.Err? {
      return Err(t2.error);
    }
    var m1 := MakeMonicVec(t1.value);
    if m1.Err? {
      return Err(m1.error);
    }
    var m2 := MakeMonicVec(t2.value);
    if m2.Err? {
      return Err(m2.error);
    }
    var r1 := m1.value;
    var r2 := m2.value;
    if |r1| < |r2| {
      r1, r2 := r2, r1;
    }
    g := EuclidLoop(r1, r2, eps);
  }

  /// The `loop` of `gcd`: divide, stop on a zero remainder, otherwise continue with the monic
  /// remainder as the new divisor.
  method EuclidLoop(r1: seq<real>, r2: seq<real>, eps: Option<Tolerance>) returns (g: Result<seq<real>>)
    requires |r1| > 0 && |r2| > 0 && r2[|r2| - 1] == 1.0
    ensures g == GcdLoop(r1, r2, eps)
  {
    var x1, x2 := r1, r2;
    while true
      invariant |x1| > 0 && |x2| > 0 && x2[|x2| - 1] == 1.0
      invariant GcdLoop(x1, x2, eps) == GcdLoop(r1, r2, eps)
      decreases |x2|
    {
      if |x2| < 2 {
        return Ok([1.0]);
      }
      var done, next;
      done, g, next := EuclidStep(x1, x2, eps);
      if done {
        return;
      }
      x1, x2 := x2, next;
    }
  }

  /// One pass of `gcd`'s loop with a divisor of degree at least one: either the loop ends with
  /// `g`, or it continues with the monic remainder `next`, a shorter divisor.
  method EuclidStep(x1: seq<real>, x2: seq<real>, eps: Option<Tolerance>)
    returns (done: bool, g: Result<seq<real>>, next: seq<real>)
    requires |x1| > 0 && |x2| >= 2 && x2[|x2| - 1] == 1.0
    ensures done ==> g == GcdLoop(x1, x2, eps)
    ensures !done ==> 0 < |next| < |x2| && next[|next| - 1] == 1.0 && GcdLoop(x2, next, eps) == GcdLoop(x1, x2, eps)
  {
    next := x2;
    var qr := Divide(x1, x2, eps);
    if qr.Err? {
      return true, Err(qr.error), next;
    }
    var r := qr.value.1;
    if IsZeroPoly(r) {
      return true, Ok(x2), next;
    }
    var mr := MakeMonicVec(r);
    if mr.Err? {
      return true, Err(mr.error), next;
    }
    return false, Ok([]), mr.value;
  }

  // ---------------------------------------------------------------------------------------------
  // What the GCD divides

  /// The product `p · q` written out, long enough to hold every coefficient.
  function Prod(p: seq<real>, q: seq<real>): (r: seq<real>)
    ensures |r| == |p| + |q|
  {
    seq(|p| + |q|, m => ProductCoef(p, q, m))
  }

  lemma ProdCoef(p: seq<real>, q: seq<real>)
    ensures forall m :: Coef(Prod(p, q), m) == ProductCoef(p, q, m)
  {
    forall m
      ensures Coef(Prod(p, q), m) == ProductCoef(p, q, m)
    {
      if m >= |p| + |q| {
        ProductCoefBeyondDegree(p, q, m);
      }
    }
  }

  /// `p` with the coefficients from index `k` on set to zero.
  function Prefix(p: seq<real>, k: nat): (r: seq<real>)
    ensures |r| == |p|
  {
    seq(|p|, j requires 0 <= j < |p| => if j < k then p[j] else 0.0)
  }

  /// `q · z^k`.
  function Shift(q: seq<real>, k: nat): (r: seq<real>)
    ensures forall i :: Coef(r, i) == Coef(q, i - k)
  {
    seq(k, _ => 0.0) + q
  }

  lemma {:induction false} ConvSumLinear(x: seq<real>, y: seq<real>, z: seq<real>, c: real, q: seq<real>, m: int, hi: int)
    requires forall i :: Coef(x, i) == Coef(y, i) + c * Coef(z, i)
    ensures ConvSum(x, q, m, 0, hi) == ConvSum(y, q, m, 0, hi) + c * ConvSum(z, q, m, 0, hi)
    decreases hi
  {
    if hi > 0 {
      ConvSumLinear(x, y, z, c, q, m, hi - 1);
      var t := Coef(q, m - (hi - 1));
      assert Coef(x, hi - 1) * t == Coef(y, hi - 1) * t + c * (Coef(z, hi - 1) * t);
      assert c * ConvSum(z, q, m, 0, hi) == c * ConvSum(z, q, m, 0, hi - 1) + c * (Coef(z, hi - 1) * t);
    }
  }

  lemma {:induction false} ConvSumShifted(q: seq<real>, c: seq<real>, k: nat, m: int, hi: int)
    requires hi >= k
    ensures ConvSum(Shift(q, k), c, m, k, hi) == ConvSum(q, c, m - k, 0, hi - k)
    decreases hi
  {
    if hi > k {
      ConvSumShifted(q, c, k, m, hi - 1);
      assert Coef(Shift(q, k), hi - 1) == Coef(q, hi - 1 - k);
      assert m - (hi - 1) == (m - k) - (hi - k - 1);
    }
  }

  /// Shifting a factor up by `k` degrees shifts the product by `k`.
  lemma ShiftedProduct(q: seq<real>, c: seq<real>, k: nat, m: int)
    ensures ProductCoef(Shift(q, k), c, m) == ProductCoef(q, c, m - k)
  {
    if m + 1 >= k {
      ConvSumSplit(Shift(q, k), c, m, 0, k, m + 1);
      ConvSumVanishes(Shift(q, k), c, m, 0, k);
      ConvSumShifted(q, c, k, m, m + 1);
    } else {
      ConvSumVanishes(Shift(q, k), c, m, 0, m + 1);
    }
  }

  /// Adding `x` to coefficient `j` of `p` adds `x · b · z^j` to `p · b`.
  lemma PrefixProductStep(p: seq<real>, b: seq<real>, j: nat, x: real)
    requires j < |p|
    ensures forall i :: Coef(Prod(p[j := p[j] + x], b), i) == Coef(Prod(p, b), i) + x * Coef(Shift(b, j), i)
  {
    ProdCoef(p, b);
    ProdCoef(p[j := p[j] + x], b);
    forall i
      ensures Coef(Prod(p[j := p[j] + x], b), i) == Coef(Prod(p, b), i) + x * Coef(Shift(b, j), i)
    {
      ConvSumPointUpdate(p, b, i, j, x, i + 1);
    }
  }

  /// Associativity survives adding `x` to coefficient `j` of the first factor, at degree `m`.
  lemma AssociativeStep(p: seq<real>, b: seq<real>, c: seq<real>, j: nat, x: real, m: int)
    requires j < |p|
    requires ProductCoef(Prod(p, b), c, m) == ProductCoef(p, Prod(b, c), m)
    ensures ProductCoef(Prod(p[j := p[j] + x], b), c, m) == ProductCoef(p[j := p[j] + x], Prod(b, c), m)
  {
    var p' := p[j := p[j] + x];
    var bc := Prod(b, c);
    PrefixProductStep(p, b, j, x);
    ConvSumLinear(Prod(p', b), Prod(p, b), Shift(b, j), x, c, m, m + 1);
    ShiftedProduct(b, c, j, m);
    ConvSumPointUpdate(p, bc, m, j, x, m + 1);
    ProdCoef(b, c);
    assert Coef(bc, m - j) == ProductCoef(b, c, m - j);
    if j >= m + 1 {
      assert ProductCoef(b, c, m - j) == 0.0;
    }
  }

  lemma {:induction false} AssociativeUpTo(a: seq<real>, b: seq<real>, c: seq<real>, k: nat)
    requires k <= |a|
    ensures forall m :: ProductCoef(Prod(Prefix(a, k), b), c, m) == ProductCoef(Prefix(a, k), Prod(b, c), m)
  {
    if k == 0 {
      var z := Prefix(a, 0);
      ConvSumVanishesOnZeros(z, b);
      var zb := Prod(z, b);
      assert forall i :: 0 <= i < |zb| ==> zb[i] == 0.0;
      ConvSumVanishesOnZeros(zb, c);
      ConvSumVanishesOnZeros(z, Prod(b, c));
    } else {
      var j := k - 1;
      AssociativeUpTo(a, b, c, j);
      var p := Prefix(a, j);
      assert Prefix(a, k) == p[j := p[j] + a[j]];
      forall m
        ensures ProductCoef(Prod(Prefix(a, k), b), c, m) == ProductCoef(Prefix(a, k), Prod(b, c), m)
      {
        AssociativeStep(p, b, c, j, a[j], m);
      }
    }
  }

  /// Polynomial multiplication is associative: `(a · b) · c = a · (b · c)`.
  lemma ProductIsAssociative(a: seq<real>, b: seq<real>, c: seq<real>)
    ensures forall m :: ProductCoef(Prod(a, b), c, m) == ProductCoef(a, Prod(b, c), m)
  {
    AssociativeUpTo(a, b, c, |a|);
    assert Prefix(a, |a|) == a;
  }

  /// `p` is `q · g`, coefficient by coefficient.
  ghost predicate IsMultiple(p: seq<real>, q: seq<real>, g: seq<real>)
  {
    forall m :: Coef(p, m) == ProductCoef(q, g, m)
  }

  /// `g` divides `p` exactly.
  ghost predicate Divides(g: seq<real>, p: seq<real>)
  {
    exists q :: IsMultiple(p, q, g)
  }

  /// `[c] · g` scales every coefficient of `g` by `c`.
  lemma ConstantTimes(c: real, g: seq<real>, m: int)
    ensures ProductCoef([c], g, m) == c * Coef(g, m)
  {
    if m >= 0 {
      ConvSumSplit([c], g, m, 0, 1, m + 1);
      ConvSumVanishes([c], g, m, 1, m + 1);
      assert ConvSum([c], g, m, 0, 1) == ConvSum([c], g, m, 0, 0) + Coef([c], 0) * Coef(g, m);
    }
  }

  /// `[1.0]` divides every polynomial, and every polynomial divides itself.
  lemma OneDivides(p: seq<real>)
    ensures Divides([1.0], p) && Divides(p, p)
  {
    forall m
      ensures Coef(p, m) == ProductCoef(p, [1.0], m) && Coef(p, m) == ProductCoef([1.0], p, m)
    {
      ConvSumByConstant(p, 1.0, m, m + 1);
      ConstantTimes(1.0, p, m);
    }
    assert IsMultiple(p, p, [1.0]);
    assert IsMultiple(p, [1.0], p);
  }

  /// `q · (u · g) + v · g = (q · u + v) · g`.
  lemma CombinationIsMultiple(g: seq<real>, a: seq<real>, q: seq<real>, b: seq<real>, r: seq<real>,
                              u: seq<real>, v: seq<real>)
    requires IsMultiple(b, u, g) && IsMultiple(r, v, g)
    requires forall m :: Coef(a, m) == ProductCoef(q, b, m) + Coef(r, m)
    ensures IsMultiple(a, PaddedSum(Prod(q, u), v), g)
  {
    var qu := Prod(q, u);
    var w := PaddedSum(qu, v);
    assert forall i :: Coef(w, i) == Coef(qu, i) + 1.0 * Coef(v, i);
    ProdCoef(u, g);
    ProductCoefCongruent(q, q, Prod(u, g), b);
    ProductIsAssociative(q, u, g);
    forall m
      ensures Coef(a, m) == ProductCoef(w, g, m)
    {
      ConvSumLinear(w, qu, v, 1.0, g, m, m + 1);
    }
  }

  /// A common divisor of `b` and `r` divides `q · b + r`.
  lemma DividesCombination(g: seq<real>, a: seq<real>, q: seq<real>, b: seq<real>, r: seq<real>)
    requires Divides(g, b) && Divides(g, r)
    requires forall m :: Coef(a, m) == ProductCoef(q, b, m) + Coef(r, m)
    ensures Divides(g, a)
  {
    var u :| IsMultiple(b, u, g);
    var v :| IsMultiple(r, v, g);
    CombinationIsMultiple(g, a, q, b, r, u, v);
  }

  /// A divisor of `s` divides every constant multiple of `s`.
  lemma DividesScaled(g: seq<real>, p: seq<real>, s: seq<real>, c: real)
    requires Divides(g, s)
    requires forall i :: Coef(p, i) == c * Coef(s, i)
    ensures Divides(g, p)
  {
    ProductWithZero([0.0], g);
    assert IsMultiple([0.0], [0.0], g);
    forall m
      ensures Coef(p, m) == ProductCoef([c], s, m) + Coef([0.0], m)
    {
      ConstantTimes(c, s, m);
    }
    DividesCombination(g, p, [c], s, [0.0]);
  }

  /// A monic polynomial divides everything its non-monic original divides into.
  lemma DividesMonicOriginal(g: seq<real>, t: seq<real>)
    requires Monic(t).Ok? && Divides(g, Monic(t).value)
    ensures Divides(g, t)
  {
    var s := Monic(t).value;
    var lc := t[|t| - 1];
    forall i
      ensures Coef(t, i) == lc * Coef(s, i)
    {
      if 0 <= i < |t| {
        assert s[i] * lc == t[i];
      }
    }
    DividesScaled(g, t, s, lc);
  }

  /// A pass of the loop that stops: the divisor divides the dividend and itself.
  lemma ZeroRemainderDivides(r1: seq<real>, r2: seq<real>, eps: Option<Tolerance>)
    requires Tol(eps) == 0.0 && Divided(r1, r2, eps).Ok? && IsZeroPoly(Divided(r1, r2, eps).value.1)
    ensures Divides(r2, r1) && Divides(r2, r2)
  {
    DivisionIdentity(r1, r2, eps);
    OneDivides(r2);
    assert IsMultiple(r1, Divided(r1, r2, eps).value.0, r2);
  }

  /// A pass of the loop that continues: a common divisor of the divisor and the monic remainder
  /// divides the dividend.
  lemma RemainderStepDivides(g: seq<real>, r1: seq<real>, r2: seq<real>, eps: Option<Tolerance>)
    requires Tol(eps) == 0.0 && Divided(r1, r2, eps).Ok?
    requires Monic(Divided(r1, r2, eps).value.1).Ok?
    requires Divides(g, r2) && Divides(g, Monic(Divided(r1, r2, eps).value.1).value)
    ensures Divides(g, r1)
  {
    var qr := Divided(r1, r2, eps).value;
    DivisionIdentity(r1, r2, eps);
    DividesMonicOriginal(g, qr.1);
    DividesCombination(g, r1, qr.0, r2, qr.1);
  }

  /// The Euclidean loop ends on a common divisor of the pair it started from.
  lemma {:induction false} GcdLoopDividesPair(r1: seq<real>, r2: seq<real>, eps: Option<Tolerance>)
    requires Tol(eps) == 0.0
    requires |r1| > 0 && |r2| > 0 && r2[|r2| - 1] == 1.0
    requires GcdLoop(r1, r2, eps).Ok?
    ensures Divides(GcdLoop(r1, r2, eps).value, r1) && Divides(GcdLoop(r1, r2, eps).value, r2)
    decreases |r2|
  {
    if |r2| < 2 {
      OneDivides(r1);
      OneDivides(r2);
    } else {
      var qr := Divided(r1, r2, eps).value;
      if IsZeroPoly(qr.1) {
        ZeroRemainderDivides(r1, r2, eps);
      } else {
        var mm := Monic(qr.1).value;
        GcdLoopDividesPair(r2, mm, eps);
        RemainderStepDivides(GcdLoop(r1, r2, eps).value, r1, r2, eps);
      }
    }
  }

  /// Under exact comparison the polynomial that `gcd` returns divides both operands exactly.
  lemma GcdDividesOperands(a1: seq<real>, a2: seq<real>, eps: Option<Tolerance>)
    requires Tol(eps) == 0.0
    requires GcdOf(a1, a2, eps).Ok?
    ensures Divides(GcdOf(a1, a2, eps).value, a1) && Divides(GcdOf(a1, a2, eps).value, a2)
  {
    var g := GcdOf(a1, a2, eps).value;
    var t1 := Trimmed(a1, eps).value;
    var t2 := Trimmed(a2, eps).value;
    var m1 := Monic(t1).value;
    var m2 := Monic(t2).value;
    if |m1| < |m2| {
      GcdLoopDividesPair(m2, m1, eps);
    } else {
      GcdLoopDividesPair(m1, m2, eps);
    }
    DividesMonicOriginal(g, t1);
    DividesMonicOriginal(g, t2);
    TrimExact(a1, eps);
    TrimExact(a2, eps);
    var u1 :| IsMultiple(t1, u1, g);
    var u2 :| IsMultiple(t2, u2, g);
    assert IsMultiple(a1, u1, g);
    assert IsMultiple(a2, u2, g);
  }

  /// A common divisor of `b` and of `a = q · b + r` divides the remainder `r`.
  lemma DividesRemainder(g: seq<real>, a: seq<real>, q: seq<real>, b: seq<real>, r: seq<real>)
    requires Divides(g, a) && Divides(g, b)
    requires forall m :: Coef(a, m) == ProductCoef(q, b, m) + Coef(r, m)
    ensures Divides(g, r)
  {
    var nq := seq(|q|, i requires 0 <= i < |q| => -q[i]);
    assert forall i :: Coef(nq, i) == Coef([0.0], i) + -1.0 * Coef(q, i);
    ProductWithZero([0.0], b);
    forall m
      ensures Coef(r, m) == ProductCoef(nq, b, m) + Coef(a, m)
    {
      ConvSumLinear(nq, [0.0], q, -1.0, b, m, m + 1);
      assert ProductCoef(nq, b, m) == ProductCoef([0.0], b, m) + -1.0 * ProductCoef(q, b, m);
      assert Coef(a, m) == ProductCoef(q, b, m) + Coef(r, m);
    }
    DividesCombination(g, r, nq, b, a);
  }

  /// A divisor of `t` divides the monic form of `t`.
  lemma DividesMonic(g: seq<real>, t: seq<real>)
    requires Monic(t).Ok? && Divides(g, t)
    ensures Divides(g, Monic(t).value)
  {
    var s := Monic(t).value;
    var lc := t[|t| - 1];
    forall i
      ensures Coef(s, i) == (1.0 / lc) * Coef(t, i)
    {
      if 0 <= i < |t| {
        Unscaled(s[i], t[i], lc);
      } else {
        Unscaled(0.0, 0.0, lc);
      }
    }
    DividesScaled(g, s, t, 1.0 / lc);
  }

  lemma Unscaled(x: real, y: real, c: real)
    requires c != 0.0 && x * c == y
    ensures x == (1.0 / c) * y
  {
    calc {
      (1.0 / c) * y;
      (1.0 / c) * (x * c);
      x * ((1.0 / c) * c);
    }
  }

  /// Every common divisor of the pair the Euclidean loop starts from divides the polynomial it
  /// ends on.
  lemma {:induction false} GcdLoopIsGreatest(d: seq<real>, r1: seq<real>, r2: seq<real>, eps: Option<Tolerance>)
    requires Tol(eps) == 0.0
    requires |r1| > 0 && |r2| > 0 && r2[|r2| - 1] == 1.0
    requires GcdLoop(r1, r2, eps).Ok?
    requires Divides(d, r1) && Divides(d, r2)
    ensures Divides(d, GcdLoop(r1, r2, eps).value)
    decreases |r2|
  {
    if |r2| < 2 {
      assert r2 == [1.0];
    } else {
      var qr := Divided(r1, r2, eps).value;
      if !IsZeroPoly(qr.1) {
        DivisionIdentity(r1, r2, eps);
        DividesRemainder(d, r1, qr.0, r2, qr.1);
        DividesMonic(d, qr.1);
        GcdLoopIsGreatest(d, r2, Monic(qr.1).value, eps);
      }
    }
  }

  /// Under exact comparison every common divisor of the operands divides what `gcd` returns,
  /// which therefore is a greatest common divisor.
  lemma GcdIsGreatest(d: seq<real>, a1: seq<real>, a2: seq<real>, eps: Option<Tolerance>)
    requires Tol(eps) == 0.0
    requires GcdOf(a1, a2, eps).Ok?
    requires Divides(d, a1) && Divides(d, a2)
    ensures Divides(d, GcdOf(a1, a2, eps).value)
  {
    var t1 := Trimmed(a1, eps).value;
    var t2 := Trimmed(a2, eps).value;
    TrimExact(a1, eps);
    TrimExact(a2, eps);
    var u1 :| IsMultiple(a1, u1, d);
    var u2 :| IsMultiple(a2, u2, d);
    assert IsMultiple(t1, u1, d);
    assert IsMultiple(t2, u2, d);
    DividesMonic(d, t1);
    DividesMonic(d, t2);
    var m1 := Monic(t1).value;
    var m2 := Monic(t2).value;
    if |m1| < |m2| {
      GcdLoopIsGreatest(d, m2, m1, eps);
    } else {
      GcdLoopIsGreatest(d, m1, m2, eps);
    }
  }

  // ---------------------------------------------------------------------------------------------
  // Rational functions

  /// A rational function `num / den` (the source's two-element `Vec<Vec<f64>>`).
  datatype Fraction = Fraction(num: seq<real>, den: seq<real>)

  /// What `add_fractions` returns.  `compare_equal` needs non-empty denominators and `add` needs
  /// non-empty numerators when the denominators compare equal.
  function AddFractions(f1: Fraction, f2: Fraction, eps: Option<Tolerance>): (r: Result<Fraction>)
    requires |f1.den| > 0 && |f2.den| > 0
    requires CloseWithin(f1.den, f2.den, Tol(eps)) ==> |f1.num| > 0 && |f2.num| > 0
    ensures CloseWithin(f1.den, f2.den, Tol(eps)) ==> r.Ok? && r.value.den == f1.den
    ensures r.Err? ==>
      !CloseWithin(f1.den, f2.den, Tol(eps))
      && (GcdOf(f1.den, f2.den, eps).Err? || |f1.num| == 0 || |f2.num| == 0)
    ensures r.Ok? ==> r.value == Fraction([], []) || (|r.value.num| > 0 && |r.value.den| > 0)
    ensures r.Err? ==> IsArithmeticError(r.error)
  {
    if CloseWithin(f1.den, f2.den, Tol(eps)) then
      Ok(Fraction(Added(f1.num, f2.num, eps).value, f1.den))
    else
      match GcdOf(f1.den, f2.den, eps)
      case Err(e) => Err(e)
      case Ok(g) =>
        if |g| == 1 && g[0] == 1.0 then
          match Multiplied(f1.num, f2.den, eps)
          case Err(e) => Err(e)
          case Ok(p1) =>
            match Multiplied(f2.num, f1.den, eps)
            case Err(e) => Err(e)
            case Ok(p2) =>
              match Multiplied(f1.den, f2.den, eps)
              case Err(e) => Err(e)
              case Ok(bottom) => Ok(Fraction(Added(p1, p2, eps).value, bottom))
        else Ok(Fraction([], []))
  }

  /// What `multiply_fractions` returns.
  function MultiplyFractions(f1: Fraction, f2: Fraction, eps: Option<Tolerance>): (r: Result<Fraction>)
    ensures r.Err? <==> |f1.num| == 0 || |f2.num| == 0 || |f1.den| == 0 || |f2.den| == 0
    ensures r.Err? ==> IsArithmeticError(r.error)
    ensures r.Ok? ==> |r.value.num| > 0 && |r.value.den| > 0
  {
    match Multiplied(f1.num, f2.num, eps)
    case Err(e) => Err(e)
    case Ok(top) =>
      match Multiplied(f1.den, f2.den, eps)
      case Err(e) => Err(e)
      case Ok(bottom) => Ok(Fraction(top, bottom))
  }

  /// Under exact comparison `add_fractions` returns `n1/d1 + n2/d2`: with equal denominators the
  /// numerators are added over the shared denominator; with coprime denominators the result is
  /// `(n1·d2 + n2·d1) / (d1·d2)`.
  lemma AddFractionsExact(f1: Fraction, f2: Fraction, eps: Option<Tolerance>)
    requires Tol(eps) == 0.0
    requires |f1.num| > 0 && |f2.num| > 0 && |f1.den| > 0 && |f2.den| > 0
    ensures SameCoefs(f1.den, f2.den) ==>
      AddFractions(f1, f2, eps).Ok? && AddFractions(f1, f2, eps).value.den == f1.den
      && forall m :: Coef(AddFractions(f1, f2, eps).value.num, m) == Coef(f1.num, m) + Coef(f2.num, m)
    ensures !SameCoefs(f1.den, f2.den) && GcdOf(f1.den, f2.den, eps) == Ok([1.0]) ==>
      AddFractions(f1, f2, eps).Ok?
      && (forall m :: Coef(AddFractions(f1, f2, eps).value.num, m)
                      == ProductCoef(f1.num, f2.den, m) + ProductCoef(f2.num, f1.den, m))
      && forall m :: Coef(AddFractions(f1, f2, eps).value.den, m) == ProductCoef(f1.den, f2.den, m)
  {
    CompareEqualExact(f1.den, f2.den);
    if SameCoefs(f1.den, f2.den) {
      AddWithinTolerance(f1.num, f2.num, eps);
    } else if GcdOf(f1.den, f2.den, eps) == Ok([1.0]) {
      var p1 := Multiplied(f1.num, f2.den, eps).value;
      var p2 := Multiplied(f2.num, f1.den, eps).value;
      MultiplyWithinTolerance(f1.num, f2.den, eps);
      MultiplyWithinTolerance(f2.num, f1.den, eps);
      MultiplyWithinTolerance(f1.den, f2.den, eps);
      AddWithinTolerance(p1, p2, eps);
    }
  }

  /// When the denominators differ and share a non-trivial factor, `add_fractions` gives an empty
  /// numerator and denominator, which every later `multiply_fractions` rejects.
  lemma CommonFactorIsRejectedLater(f1: Fraction, f2: Fraction, g: Fraction, eps: Option<Tolerance>)
    requires |f1.den| > 0 && |f2.den| > 0 && !CloseWithin(f1.den, f2.den, Tol(eps))
    requires GcdOf(f1.den, f2.den, eps).Ok? && GcdOf(f1.den, f2.den, eps).value != [1.0]
    ensures AddFractions(f1, f2, eps) == Ok(Fraction([], []))
    ensures MultiplyFractions(AddFractions(f1, f2, eps).value, g, eps).Err?
  {
  }

  /// `multiply_fractions` multiplies numerators and denominators: every coefficient is within the
  /// tolerance of the true product coefficient.
  lemma MultiplyFractionsWithinTolerance(f1: Fraction, f2: Fraction, eps: Option<Tolerance>)
    requires |f1.num| > 0 && |f2.num| > 0 && |f1.den| > 0 && |f2.den| > 0
    ensures MultiplyFractions(f1, f2, eps).Ok?
    ensures forall m :: Abs(Coef(MultiplyFractions(f1, f2, eps).value.num, m) - ProductCoef(f1.num, f2.num, m)) <= Tol(eps)
    ensures forall m :: Abs(Coef(MultiplyFractions(f1, f2, eps).value.den, m) - ProductCoef(f1.den, f2.den, m)) <= Tol(eps)
  {
    MultiplyWithinTolerance(f1.num, f2.num, eps);
    MultiplyWithinTolerance(f1.den, f2.den, eps);
  }
}
