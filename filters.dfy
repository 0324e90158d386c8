/// The four filter primitives: a first-order low-pass `LpFilter1`, the second-order `Resonator`
/// and `AntiResonator`, and the first-difference `DifferencingFilter`. Each keeps its
/// coefficients, a short delay line and the passthrough/mute flags in fields; the pure functions
/// over a value of the state say what `step` and `get_transfer_function_coefficients` compute.
module Filters {
  import opened Status
  import opened Float64
  import opened PolyReal

  // ---------------------------------------------------------------------------------------------
  // Transfer functions and difference equations

  /// `Σ p[k] * v[k]` over the coefficients of `p`, reading missing samples of `v` as 0.
  function Dot(p: seq<real>, v: seq<real>): real
  {
    if |p| == 0 then 0.0 else Dot(p[..|p| - 1], v) + p[|p| - 1] * Coef(v, |p| - 1)
  }

  /// The filter's transfer function `num(z^-1) / den(z^-1)` holds between the current and past
  /// inputs `xs = [x[n], x[n-1], ...]` and outputs `ys = [y[n], y[n-1], ...]`.
  predicate DifferenceEquation(tf: Fraction, xs: seq<real>, ys: seq<real>)
  {
    Dot(tf.den, ys) == Dot(tf.num, xs)
  }

  lemma DotOne(p0: real, v: seq<real>)
    ensures Dot([p0], v) == p0 * Coef(v, 0)
  {
    assert [p0][..0] == [];
  }

  lemma DotTwo(p0: real, p1: real, v: seq<real>)
    ensures Dot([p0, p1], v) == p0 * Coef(v, 0) + p1 * Coef(v, 1)
  {
    assert [p0, p1][..1] == [p0];
    DotOne(p0, v);
  }

  lemma DotThree(p0: real, p1: real, p2: real, v: seq<real>)
    ensures Dot([p0, p1, p2], v) == p0 * Coef(v, 0) + p1 * Coef(v, 1) + p2 * Coef(v, 2)
  {
    assert [p0, p1, p2][..2] == [p0, p1];
    DotTwo(p0, p1, v);
  }

  const Unity := Fraction([1.0], [1.0])
  const Silence := Fraction([0.0], [1.0])

  /// Angular frequency `2 * PI * f / sample_rate`.
  function Omega(sampleRate: nat, f: real): real
  {
    Quot(2.0 * PI * f, sampleRate as real)
  }

  /// `sample_rate as f64 / 2.0`, the Nyquist frequency.
  function Nyquist(sampleRate: nat): F64
  {
    Fin(sampleRate as real / 2.0)
  }

  // ---------------------------------------------------------------------------------------------
  // LpFilter1

  datatype Lp1State = Lp1State(a: real, b: real, y1: real, passthrough: bool, muted: bool)

  /// A new filter: in passthrough, with zero coefficients and delay line.
  const FreshLp1 := Lp1State(0.0, 0.0, 0.0, true, false)

  /// `y[n] = a * x[n] + b * y[n-1]` when active.
  function Lp1Output(s: Lp1State, x: real): real
  {
    if s.passthrough then x else if s.muted then 0.0 else s.a * x + s.b * s.y1
  }

  function Lp1Next(s: Lp1State, x: real): Lp1State
  {
    if s.passthrough || s.muted then s else s.(y1 := Lp1Output(s, x))
  }

  function Lp1Tf(s: Lp1State): Fraction
  {
    if s.passthrough then Unity else if s.muted then Silence else Fraction([s.a], [1.0, -s.b])
  }

  /// A step's output solves the transfer function the filter reports: `y = x` in passthrough,
  /// `y = 0` when muted, `y[n] - b * y[n-1] = a * x[n]` otherwise.
  lemma Lp1StepSolvesTransferFunction(s: Lp1State, x: real)
    ensures DifferenceEquation(Lp1Tf(s), [x], [Lp1Output(s, x), s.y1])
    ensures Lp1Next(s, x).y1 == (if s.passthrough || s.muted then s.y1 else Lp1Output(s, x))
  {
    var ys := [Lp1Output(s, x), s.y1];
    DotOne(1.0, ys);
    DotOne(0.0, [x]);
    DotOne(1.0, [x]);
    DotOne(s.a, [x]);
    DotTwo(1.0, -s.b, ys);
  }

  /// `set` accepts `f` strictly between 0 and the Nyquist frequency, `g` strictly between 0 and
  /// 1, and finite values throughout (NaN passes, as none of its comparisons holds).
  predicate Lp1Accepts(sampleRate: nat, f: F64, g: F64, extraGain: F64)
  {
    !(Le(f, Fin(0.0)) || Ge(f, Nyquist(sampleRate)) || Le(g, Fin(0.0)) || Ge(g, Fin(1.0))
      || IsInfinite(f) || IsInfinite(g) || IsInfinite(extraGain))
  }

  /// Coefficients `(a, b)` for gain `g` at frequency `f`, DC gain `extraGain`.
  function Lp1Coefficients(math: MathLib, sampleRate: nat, f: F64, g: F64, extraGain: F64): (real, real)
  {
    var w := Omega(sampleRate, Val(f));
    var g2 := math.pow(Val(g), 2.0);
    var q := Quot(1.0 - g2 * math.cos(w), 1.0 - g2);
    var b := q - math.sqrt(math.pow(q, 2.0) - 1.0);
    ((1.0 - b) * Val(extraGain), b)
  }

  /// `unwrap_or(1.0)` of an optional gain.
  function GainOr1(gain: Option<F64>): F64
  {
    if gain.Some? then gain.value else Fin(1.0)
  }

  class LpFilter1 {
    const sampleRate: nat
    var a: real
    var b: real
    var y1: real
    var passthrough: bool
    var muted: bool

    function State(): Lp1State
      reads this
    {
      Lp1State(a, b, y1, passthrough, muted)
    }

    /// A fresh filter is in passthrough with zero coefficients and delay line.
    constructor(sampleRate: nat)
      ensures this.sampleRate == sampleRate
      ensures State() == FreshLp1
    {
      this.sampleRate := sampleRate;
      a, b, y1 := 0.0, 0.0, 0.0;
      passthrough, muted := true, false;
    }

    /// The unvalidated `set` of the snapshot: new coefficients, both flags cleared, delay line
    /// kept.
    method Tune(math: MathLib, f: F64, g: F64, extraGain: Option<F64>)
      modifies this
      ensures (a, b) == Lp1Coefficients(math, sampleRate, f, g, GainOr1(extraGain))
      ensures !passthrough && !muted && y1 == old(y1)
    {
      var coefficients := Lp1Coefficients(math, sampleRate, f, g, GainOr1(extraGain));
      b := coefficients.1;
      a := coefficients.0;
      passthrough := false;
      muted := false;
    }

    /// The validated `set`: an invalid parameter leaves the filter untouched.
    method Set(math: MathLib, f: F64, g: F64, extraGain: Option<F64>) returns (r: Result<()>)
      modifies this
      ensures r.Ok? <==> Lp1Accepts(sampleRate, f, g, GainOr1(extraGain))
      ensures r.Err? ==> r.error == "Invalid filter parameters." && State() == old(State())
      ensures r.Ok? ==> (a, b) == Lp1Coefficients(math, sampleRate, f, g, GainOr1(extraGain))
      ensures r.Ok? ==> !passthrough && !muted && y1 == old(y1)
    {
      if !Lp1Accepts(sampleRate, f, g, GainOr1(extraGain)) {
        return Err("Invalid filter parameters.");
      }
      Tune(math, f, g, extraGain);
      return Ok(());
    }

    method SetPassthrough()
      modifies this
      ensures State() == old(State()).(y1 := 0.0, passthrough := true, muted := false)
    {
      passthrough := true;
      muted := false;
      y1 := 0.0;
    }

    method SetMute()
      modifies this
      ensures State() == old(State()).(y1 := 0.0, passthrough := false, muted := true)
    {
      passthrough := false;
      muted := true;
      y1 := 0.0;
    }

    /// The reported transfer function is the one every step of the filter solves.
    function TransferFunctionCoefficients(): (tf: Fraction)
      reads this
      ensures forall x {:trigger Lp1Output(State(), x)} :: DifferenceEquation(tf, [x], [Lp1Output(State(), x), y1])
    {
      assert forall x {:trigger Lp1Output(State(), x)} :: DifferenceEquation(Lp1Tf(State()), [x], [Lp1Output(State(), x), y1]) by {
        forall x {
          Lp1StepSolvesTransferFunction(State(), x);
        }
      }
      Lp1Tf(State())
    }

    method Step(x: real) returns (y: real)
      modifies this
      ensures y == Lp1Output(old(State()), x)
      ensures State() == Lp1Next(old(State()), x)
    {
      if passthrough {
        return x;
      }
      if muted {
        return 0.0;
      }
      y := a * x + b * y1;
      y1 := y;
    }
  }

  // ---------------------------------------------------------------------------------------------
  // Resonator

  datatype ResonatorState = ResonatorState(
    a: real, b: real, c: real, y1: real, y2: real, r: real, passthrough: bool, muted: bool)

  const FreshResonator := ResonatorState(0.0, 0.0, 0.0, 0.0, 0.0, 0.0, true, false)

  /// `y[n] = a * x[n] + b * y[n-1] + c * y[n-2]` when active.
  function ResonatorOutput(s: ResonatorState, x: real): real
  {
    if s.passthrough then x else if s.muted then 0.0 else s.a * x + s.b * s.y1 + s.c * s.y2
  }

  function ResonatorNext(s: ResonatorState, x: real): ResonatorState
  {
    if s.passthrough || s.muted then s else s.(y2 := s.y1, y1 := ResonatorOutput(s, x))
  }

  function ResonatorTf(s: ResonatorState): Fraction
  {
    if s.passthrough then Unity
    else if s.muted then Silence
    else Fraction([s.a], [1.0, -s.b, -s.c])
  }

  /// A step's output solves `y[n] - b * y[n-1] - c * y[n-2] = a * x[n]` (or is `x`, or 0), and
  /// the delay line shifts by one.
  lemma ResonatorStepSolvesTransferFunction(s: ResonatorState, x: real)
    ensures DifferenceEquation(ResonatorTf(s), [x], [ResonatorOutput(s, x), s.y1, s.y2])
    ensures !s.passthrough && !s.muted ==>
      ResonatorNext(s, x).y1 == ResonatorOutput(s, x) && ResonatorNext(s, x).y2 == s.y1
  {
    var ys := [ResonatorOutput(s, x), s.y1, s.y2];
    DotOne(1.0, ys);
    DotOne(0.0, [x]);
    DotOne(1.0, [x]);
    DotOne(s.a, [x]);
    DotThree(1.0, -s.b, -s.c, ys);
  }

  /// `set` accepts `0 <= f` below the Nyquist frequency, positive `bw` and `dc_gain`, and finite
  /// values (NaN passes).
  predicate ResonatorAccepts(sampleRate: nat, f: F64, bw: F64, dcGain: F64)
  {
    !(Lt(f, Fin(0.0)) || Ge(f, Nyquist(sampleRate)) || Le(bw, Fin(0.0)) || Le(dcGain, Fin(0.0))
      || IsInfinite(f) || IsInfinite(bw) || IsInfinite(dcGain))
  }

  /// Coefficients `(a, b, c, r)` for centre frequency `f`, bandwidth `bw` and DC gain `dcGain`.
  function ResonatorCoefficients(math: MathLib, sampleRate: nat, f: F64, bw: F64, dcGain: F64)
    : (real, real, real, real)
  {
    var r := math.exp(Quot(-PI * Val(bw), sampleRate as real));
    var w := Omega(sampleRate, Val(f));
    var c := -math.pow(r, 2.0);
    var b := 2.0 * r * math.cos(w);
    ((1.0 - b - c) * Val(dcGain), b, c, r)
  }

  /// The state after a successful `set`: new coefficients, flags cleared, delay line kept.
  function ResonatorTuned(s: ResonatorState, coefficients: (real, real, real, real)): ResonatorState
  {
    s.(a := coefficients.0, b := coefficients.1, c := coefficients.2, r := coefficients.3,
       passthrough := false, muted := false)
  }

  class Resonator {
    const sampleRate: nat
    var a: real
    var b: real
    var c: real
    var y1: real
    var y2: real
    var r: real
    var passthrough: bool
    var muted: bool

    function State(): ResonatorState
      reads this
    {
      ResonatorState(a, b, c, y1, y2, r, passthrough, muted)
    }

    /// A fresh resonator is in passthrough with everything else zero.
    constructor(sampleRate: nat)
      ensures this.sampleRate == sampleRate && State() == FreshResonator
    {
      this.sampleRate := sampleRate;
      a, b, c, y1, y2, r := 0.0, 0.0, 0.0, 0.0, 0.0, 0.0;
      passthrough, muted := true, false;
    }

    /// Puts the resonator back into its freshly constructed state (the source drops the object
    /// and creates a new one).
    method Reset()
      modifies this
      ensures State() == FreshResonator
    {
      a, b, c, y1, y2, r := 0.0, 0.0, 0.0, 0.0, 0.0, 0.0;
      passthrough, muted := true, false;
    }

    /// The unvalidated `set` of the snapshot.
    method Tune(math: MathLib, f: F64, bw: F64, dcGain: Option<F64>)
      modifies this
      ensures State() == ResonatorTuned(old(State()), ResonatorCoefficients(math, sampleRate, f, bw, GainOr1(dcGain)))
    {
      var coefficients := ResonatorCoefficients(math, sampleRate, f, bw, GainOr1(dcGain));
      a, b, c, r := coefficients.0, coefficients.1, coefficients.2, coefficients.3;
      passthrough := false;
      muted := false;
    }

    /// The validated `set`: an invalid parameter leaves the resonator untouched.
    method Set(math: MathLib, f: F64, bw: F64, dcGain: Option<F64>) returns (res: Result<()>)
      modifies this
      ensures res.Ok? <==> ResonatorAccepts(sampleRate, f, bw, GainOr1(dcGain))
      ensures res.Err? ==> res.error == "Invalid resonator parameters." && State() == old(State())
      ensures res.Ok? ==>
        State() == ResonatorTuned(old(State()), ResonatorCoefficients(math, sampleRate, f, bw, GainOr1(dcGain)))
    {
      if !ResonatorAccepts(sampleRate, f, bw, GainOr1(dcGain)) {
        return Err("Invalid resonator parameters.");
      }
      Tune(math, f, bw, dcGain);
      return Ok(());
    }

    method SetPassthrough()
      modifies this
      ensures State() == old(State()).(y1 := 0.0, y2 := 0.0, passthrough := true, muted := false)
    {
      passthrough := true;
      muted := false;
      y1 := 0.0;
      y2 := 0.0;
    }

    method SetMute()
      modifies this
      ensures State() == old(State()).(y1 := 0.0, y2 := 0.0, passthrough := false, muted := true)
    {
      passthrough := false;
      muted := true;
      y1 := 0.0;
      y2 := 0.0;
    }

    method AdjustImpulseGain(newA: real)
      modifies this
      ensures State() == old(State()).(a := newA)
    {
      a := newA;
    }

    /// The unvalidated `adjust_peak_gain` of the snapshot: the gain at the centre frequency,
    /// `a / (1 - r)`, becomes `peakGain`.
    method TunePeakGain(peakGain: F64)
      modifies this
      ensures State() == old(State()).(a := Val(peakGain) * (1.0 - old(r)))
    {
      a := Val(peakGain) * (1.0 - r);
    }

    /// The validated `adjust_peak_gain`: rejects a gain that is not positive or is infinite.
    method AdjustPeakGain(peakGain: F64) returns (res: Result<()>)
      modifies this
      ensures res.Err? <==> Le(peakGain, Fin(0.0)) || IsInfinite(peakGain)
      ensures res.Err? ==> res.error == "Invalid resonator peak gain." && State() == old(State())
      ensures res.Ok? ==> State() == old(State()).(a := Val(peakGain) * (1.0 - old(r)))
    {
      if Le(peakGain, Fin(0.0)) || IsInfinite(peakGain) {
        return Err("Invalid resonator peak gain.");
      }
      TunePeakGain(peakGain);
      return Ok(());
    }

    /// The reported transfer function is the one every step of the filter solves.
    function TransferFunctionCoefficients(): (tf: Fraction)
      reads this
      ensures forall x {:trigger ResonatorOutput(State(), x)} :: DifferenceEquation(tf, [x], [ResonatorOutput(State(), x), y1, y2])
    {
      assert forall x {:trigger ResonatorOutput(State(), x)} :: DifferenceEquation(ResonatorTf(State()), [x], [ResonatorOutput(State(), x), y1, y2]) by {
        forall x {
          ResonatorStepSolvesTransferFunction(State(), x);
        }
      }
      ResonatorTf(State())
    }

    method Step(x: real) returns (y: real)
      modifies this
      ensures y == ResonatorOutput(old(State()), x)
      ensures State() == ResonatorNext(old(State()), x)
    {
      if passthrough {
        return x;
      }
      if muted {
        return 0.0;
      }
      y := a * x + b * y1 + c * y2;
      y2 := y1;
      y1 := y;
    }
  }

  // ---------------------------------------------------------------------------------------------
  // AntiResonator

  datatype AntiResonatorState = AntiResonatorState(
    a: real, b: real, c: real, x1: real, x2: real, passthrough: bool, muted: bool)

  /// A new anti-resonator: in passthrough, everything else zero.
  const FreshAntiResonator := AntiResonatorState(0.0, 0.0, 0.0, 0.0, 0.0, true, false)

  /// `y[n] = a * x[n] + b * x[n-1] + c * x[n-2]` when active.
  function AntiResonatorOutput(s: AntiResonatorState, x: real): real
  {
    if s.passthrough then x else if s.muted then 0.0 else s.a * x + s.b * s.x1 + s.c * s.x2
  }

  function AntiResonatorNext(s: AntiResonatorState, x: real): AntiResonatorState
  {
    if s.passthrough || s.muted then s else s.(x2 := s.x1, x1 := x)
  }

  function AntiResonatorTf(s: AntiResonatorState): Fraction
  {
    if s.passthrough then Unity
    else if s.muted then Silence
    else Fraction([s.a, s.b, s.c], [1.0])
  }

  /// A step's output is `a * x[n] + b * x[n-1] + c * x[n-2]` (or `x`, or 0) as the transfer
  /// function says, and the delay line of inputs shifts by one.
  lemma AntiResonatorStepSolvesTransferFunction(s: AntiResonatorState, x: real)
    ensures DifferenceEquation(AntiResonatorTf(s), [x, s.x1, s.x2], [AntiResonatorOutput(s, x)])
    ensures !s.passthrough && !s.muted ==>
      AntiResonatorNext(s, x).x1 == x && AntiResonatorNext(s, x).x2 == s.x1
  {
    var xs := [x, s.x1, s.x2];
    var ys := [AntiResonatorOutput(s, x)];
    DotOne(1.0, ys);
    DotOne(1.0, xs);
    DotOne(0.0, xs);
    DotThree(s.a, s.b, s.c, xs);
  }

  /// `set` accepts `f` strictly between 0 and the Nyquist frequency, a positive `bw`, and finite
  /// values (NaN passes).
  predicate AntiResonatorAccepts(sampleRate: nat, f: F64, bw: F64)
  {
    !(Le(f, Fin(0.0)) || Ge(f, Nyquist(sampleRate)) || Le(bw, Fin(0.0))
      || IsInfinite(f) || IsInfinite(bw))
  }

  /// The unnormalised coefficients `(a0, b0, c0)` of the zero pair.
  function AntiResonatorRaw(math: MathLib, sampleRate: nat, f: F64, bw: F64): (real, real, real)
  {
    var r := math.exp(Quot(-PI * Val(bw), sampleRate as real));
    var w := Omega(sampleRate, Val(f));
    var c0 := -(r * r);
    var b0 := 2.0 * r * math.cos(w);
    (1.0 - b0 - c0, b0, c0)
  }

  /// The state after `set`: with `a0 == 0` the coefficients are zeroed and the flags stay as they
  /// were; otherwise the coefficients are normalised by `a0` and both flags are cleared.
  function AntiResonatorTuned(s: AntiResonatorState, raw: (real, real, real)): AntiResonatorState
  {
    var (a0, b0, c0) := raw;
    if a0 == 0.0 then s.(a := 0.0, b := 0.0, c := 0.0)
    else s.(a := 1.0 / a0, b := -b0 / a0, c := -c0 / a0, passthrough := false, muted := false)
  }

  /// Normalising by `a0` gives the anti-resonator unit gain at DC: its coefficients sum to 1.
  lemma AntiResonatorUnitDcGain(s: AntiResonatorState, math: MathLib, sampleRate: nat, f: F64, bw: F64)
    requires AntiResonatorRaw(math, sampleRate, f, bw).0 != 0.0
    ensures var t := AntiResonatorTuned(s, AntiResonatorRaw(math, sampleRate, f, bw));
      t.a + t.b + t.c == 1.0 && AntiResonatorTf(t).num == [t.a, t.b, t.c]
  {
    var (a0, b0, c0) := AntiResonatorRaw(math, sampleRate, f, bw);
    assert 1.0 / a0 + -b0 / a0 + -c0 / a0 == (1.0 - b0 - c0) / a0;
  }

  class AntiResonator {
    const sampleRate: nat
    var a: real
    var b: real
    var c: real
    var x1: real
    var x2: real
    var passthrough: bool
    var muted: bool

    function State(): AntiResonatorState
      reads this
    {
      AntiResonatorState(a, b, c, x1, x2, passthrough, muted)
    }

    constructor(sampleRate: nat)
      ensures this.sampleRate == sampleRate
      ensures State() == FreshAntiResonator
    {
      this.sampleRate := sampleRate;
      a, b, c, x1, x2 := 0.0, 0.0, 0.0, 0.0, 0.0;
      passthrough, muted := true, false;
    }

    /// The unvalidated `set` of the snapshot.
    method Tune(math: MathLib, f: F64, bw: F64)
      modifies this
      ensures State() == AntiResonatorTuned(old(State()), AntiResonatorRaw(math, sampleRate, f, bw))
    {
      var (a0, b0, c0) := AntiResonatorRaw(math, sampleRate, f, bw);
      if a0 == 0.0 {
        a, b, c := 0.0, 0.0, 0.0;
        return;
      }
      a, b, c := 1.0 / a0, -b0 / a0, -c0 / a0;
      passthrough := false;
      muted := false;
    }

    /// The validated `set`: an invalid parameter leaves the anti-resonator untouched.
    method Set(math: MathLib, f: F64, bw: F64) returns (res: Result<()>)
      modifies this
      ensures res.Ok? <==> AntiResonatorAccepts(sampleRate, f, bw)
      ensures res.Err? ==> res.error == "Invalid anti-resonator parameters." && State() == old(State())
      ensures res.Ok? ==> State() == AntiResonatorTuned(old(State()), AntiResonatorRaw(math, sampleRate, f, bw))
    {
      if !AntiResonatorAccepts(sampleRate, f, bw) {
        return Err("Invalid anti-resonator parameters.");
      }
      Tune(math, f, bw);
      return Ok(());
    }

    method SetPassthrough()
      modifies this
      ensures State() == old(State()).(x1 := 0.0, x2 := 0.0, passthrough := true, muted := false)
    {
      passthrough := true;
      muted := false;
      x1 := 0.0;
      x2 := 0.0;
    }

    method SetMute()
      modifies this
      ensures State() == old(State()).(x1 := 0.0, x2 := 0.0, passthrough := false, muted := true)
    {
      passthrough := false;
      muted := true;
      x1 := 0.0;
      x2 := 0.0;
    }

    /// The reported transfer function is the one every step of the filter solves.
    function TransferFunctionCoefficients(): (tf: Fraction)
      reads this
      ensures forall x {:trigger AntiResonatorOutput(State(), x)} :: DifferenceEquation(tf, [x, x1, x2], [AntiResonatorOutput(State(), x)])
    {
      assert forall x {:trigger AntiResonatorOutput(State(), x)} :: DifferenceEquation(AntiResonatorTf(State()), [x, x1, x2], [AntiResonatorOutput(State(), x)]) by {
        forall x {
          AntiResonatorStepSolvesTransferFunction(State(), x);
        }
      }
      AntiResonatorTf(State())
    }

    method Step(x: real) returns (y: real)
      modifies this
      ensures y == AntiResonatorOutput(old(State()), x)
      ensures State() == AntiResonatorNext(old(State()), x)
    {
      if passthrough {
        return x;
      }
      if muted {
        return 0.0;
      }
      y := a * x + b * x1 + c * x2;
      x2 := x1;
      x1 := x;
    }
  }

  // ---------------------------------------------------------------------------------------------
  // DifferencingFilter

  const DifferencingTf := Fraction([1.0, -1.0], [1.0])

  /// The first difference `y[n] = x[n] - x[n-1]` is the transfer function `1 - z^-1`.
  /// The first difference of the input `x` and the previous input `x1`.
  function FirstDifference(x: real, x1: real): real
  {
    x - x1
  }

  lemma DifferencingSolvesTransferFunction(x: real, x1: real)
    ensures DifferenceEquation(DifferencingTf, [x, x1], [FirstDifference(x, x1)])
  {
    DotTwo(1.0, -1.0, [x, x1]);
    DotOne(1.0, [x - x1]);
  }

  class DifferencingFilter {
    var x1: real

    constructor()
      ensures x1 == 0.0
    {
      x1 := 0.0;
    }

    /// The reported transfer function `1 - z^-1` is the one every step of the filter solves.
    function TransferFunctionCoefficients(): (tf: Fraction)
      reads this
      ensures forall x {:trigger FirstDifference(x, x1)} :: DifferenceEquation(tf, [x, x1], [FirstDifference(x, x1)])
    {
      assert forall x {:trigger FirstDifference(x, x1)} :: DifferenceEquation(DifferencingTf, [x, x1], [FirstDifference(x, x1)]) by {
        forall x {
          DifferencingSolvesTransferFunction(x, x1);
        }
      }
      DifferencingTf
    }

    method Step(x: real) returns (y: real)
      modifies this
      ensures y == FirstDifference(x, old(x1)) && x1 == x
    {
      y := x - x1;
      x1 := x;
    }
  }
}
