/// IEEE-754 double values as far as the synthesiser observes them: a finite value, NaN, or an
/// infinity. Finite values are exact reals (no rounding, no overflow, no signed zero).
module Float64 {

  datatype F64 = Fin(v: real) | NaN | Inf(positive: bool)

  predicate IsNaN(x: F64) { x.NaN? }

  predicate IsFinite(x: F64) { x.Fin? }

  predicate IsInfinite(x: F64) { x.Inf? }

  /// `x == y`: NaN equals nothing, not even itself.
  predicate Eq(x: F64, y: F64)
  {
    match (x, y)
    case (Fin(a), Fin(b)) => a == b
    case (Inf(p), Inf(q)) => p == q
    case _ => false
  }

  /// `x != y`, the negation of `==`, so it holds whenever either side is NaN.
  predicate Ne(x: F64, y: F64) { !Eq(x, y) }

  /// `x < y`; every ordered comparison involving NaN is false.
  predicate Lt(x: F64, y: F64)
  {
    match (x, y)
    case (Fin(a), Fin(b)) => a < b
    case (Inf(p), Fin(_)) => !p
    case (Fin(_), Inf(q)) => q
    case (Inf(p), Inf(q)) => !p && q
    case _ => false
  }

  predicate Le(x: F64, y: F64) { Lt(x, y) || Eq(x, y) }

  predicate Gt(x: F64, y: F64) { Lt(y, x) }

  predicate Ge(x: F64, y: F64) { Le(y, x) }

  function Neg(x: F64): F64
  {
    match x
    case Fin(a) => Fin(-a)
    case Inf(p) => Inf(!p)
    case NaN => NaN
  }

  function Add(x: F64, y: F64): F64
  {
    match (x, y)
    case (Fin(a), Fin(b)) => Fin(a + b)
    case (Inf(p), Fin(_)) => Inf(p)
    case (Fin(_), Inf(q)) => Inf(q)
    case (Inf(p), Inf(q)) => if p == q then Inf(p) else NaN
    case _ => NaN
  }

  function Mul(x: F64, y: F64): F64
  {
    match (x, y)
    case (Fin(a), Fin(b)) => Fin(a * b)
    case (Inf(p), Fin(b)) => if b == 0.0 then NaN else Inf(p == (b > 0.0))
    case (Fin(a), Inf(q)) => if a == 0.0 then NaN else Inf(q == (a > 0.0))
    case (Inf(p), Inf(q)) => Inf(p == q)
    case _ => NaN
  }

  /// Division; a non-zero value over zero is an infinity, zero over zero is NaN.
  function Div(x: F64, y: F64): F64
  {
    match (x, y)
    case (Fin(a), Fin(b)) =>
      if b != 0.0 then Fin(a / b)
      else if a == 0.0 then NaN
      else Inf(a > 0.0)
    case (Inf(p), Fin(b)) => Inf(p == (b >= 0.0))
    case (Fin(_), Inf(_)) => Fin(0.0)
    case _ => NaN
  }

  /// The value a non-finite input contributes to the real-valued signal path: 0.
  function Val(x: F64): real
  {
    if x.Fin? then x.v else 0.0
  }

  /// Real division where the source divides by a computed value that may be zero.
  function Quot(x: real, y: real): real
  {
    if y == 0.0 then 0.0 else x / y
  }

  const USIZE_MAX: nat := 0xFFFF_FFFF_FFFF_FFFF

  function Floor(x: real): int { x.Floor }

  /// `x as usize`: saturating, truncating toward zero, NaN becomes 0.
  function AsUsize(x: F64): nat
  {
    match x
    case NaN => 0
    case Inf(p) => if p then USIZE_MAX else 0
    case Fin(a) =>
      if a <= 0.0 then 0
      else if a >= USIZE_MAX as real then USIZE_MAX
      else Floor(a)
  }

  /// The libm functions the synthesiser calls, left uninterpreted.
  datatype MathLib = MathLib(
    exp: real -> real,
    cos: real -> real,
    sin: real -> real,
    sqrt: real -> real,
    pow: (real, real) -> real,
    round: real -> real)

  /// A `pow` that squares exactly.
  ghost predicate SquaresExactly(math: MathLib)
  {
    forall x: real {:trigger math.pow(x, 2.0)} :: math.pow(x, 2.0) == x * x
  }

  /// `round` lifted to doubles: non-finite values round to themselves.
  function Round(math: MathLib, x: F64): F64
  {
    if x.Fin? then Fin(math.round(x.v)) else x
  }

  /// `core::f64::consts::PI`.
  const PI: real := 3.141592653589793
}
