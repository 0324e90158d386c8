/// The excitation sources: low-pass filtered white noise, the impulsive glottal source (a pulse
/// doublet through a low-pass resonator) and the "natural" KLGLOTT88 glottal source.
module Sources {
  import opened Status
  import opened Float64
  import opened Params
  import opened Filters

  /// A stream of white-noise draws in `-1 .. 1`; draw `i` is `noise(i)`. Clones of one random
  /// generator replay the same stream, each from its own cursor.
  type Noise = f: nat -> real | forall i :: -1.0 <= f(i) <= 1.0 witness (i: nat) => 0.0

  /// Draw `i` of the stream `noise`.
  function Draw(noise: Noise, i: nat): (x: real)
    ensures -1.0 <= x <= 1.0
  {
    noise(i)
  }

  /// The snapshot's `get_white_noise`, which always returns 0.5.
  const ConstantNoise: Noise := (i: nat) => 0.5

  // ---------------------------------------------------------------------------------------------
  // LpNoiseSource

  /// Gain at 1000 Hz of the original filter (`b = 0.75` at 10 kHz, unit DC gain).
  function NoiseFilterGain(math: MathLib): real
  {
    Quot(1.0 - 0.75, math.sqrt(1.0 - 2.0 * 0.75 * math.cos(2.0 * PI * 1000.0 / 10000.0) + math.pow(0.75, 2.0)))
  }

  /// Extra gain that compensates the amplitude for the sample rate.
  function NoiseExtraGain(math: MathLib, sampleRate: nat): real
  {
    2.5 * math.pow(sampleRate as real / 10000.0, 0.33)
  }

  class LpNoiseSource {
    const lpFilter: LpFilter1
    const noise: Noise
    var drawn: nat

    /// Allocates the source with an untuned filter; `New` tunes it.
    constructor(sampleRate: nat, noise: Noise)
      ensures fresh(lpFilter) && lpFilter.sampleRate == sampleRate
      ensures lpFilter.State() == FreshLp1
      ensures this.noise == noise && drawn == 0
    {
      lpFilter := new LpFilter1(sampleRate);
      this.noise := noise;
      drawn := 0;
    }

    /// `LpNoiseSource::new`: a filter with gain `NoiseFilterGain` at 1000 Hz. The current version
    /// fails when the filter rejects its parameters (a sample rate of 2000 Hz or below puts
    /// 1000 Hz at or above the Nyquist frequency); the snapshot never fails.
    static method New(variant: Variant, math: MathLib, sampleRate: nat, noise: Noise)
      returns (r: Result<LpNoiseSource>)
      ensures r.Ok? ==> fresh(r.value) && fresh(r.value.lpFilter)
      ensures r.Ok? ==> r.value.drawn == 0 && r.value.noise == noise
      ensures r.Ok? ==> r.value.lpFilter.sampleRate == sampleRate
      ensures r.Ok? ==> !r.value.lpFilter.passthrough && !r.value.lpFilter.muted
      ensures r.Ok? ==> r.value.lpFilter.y1 == 0.0
      ensures r.Ok? ==>
        ((r.value.lpFilter.a, r.value.lpFilter.b)
         == Lp1Coefficients(math, sampleRate, Fin(1000.0), Fin(NoiseFilterGain(math)),
                            Fin(NoiseExtraGain(math, sampleRate))))
      ensures r.Err? <==> variant == Current && !Lp1Accepts(sampleRate, Fin(1000.0),
                                                 Fin(NoiseFilterGain(math)), Fin(NoiseExtraGain(math, sampleRate)))
      ensures sampleRate <= 2000 && variant == Current ==> r.Err?
      ensures r.Err? ==> r.error == "Invalid filter parameters."
    {
      var source := new LpNoiseSource(sampleRate, noise);
      var g := Fin(NoiseFilterGain(math));
      var extraGain := Some(Fin(NoiseExtraGain(math, sampleRate)));
      if variant == Current {
        var res := source.lpFilter.Set(math, Fin(1000.0), g, extraGain);
        if res.Err? {
          return Err(res.error);
        }
      } else {
        source.lpFilter.Tune(math, Fin(1000.0), g, extraGain);
      }
      return Ok(source);
    }

    /// The next white-noise draw through the low-pass filter.
    method GetNext() returns (y: real)
      modifies this, lpFilter
      ensures drawn == old(drawn) + 1
      ensures y == Lp1Output(old(lpFilter.State()), Draw(noise, old(drawn)))
      ensures lpFilter.State() == Lp1Next(old(lpFilter.State()), Draw(noise, old(drawn)))
    {
      var x := Draw(noise, drawn);
      drawn := drawn + 1;
      y := lpFilter.Step(x);
    }
  }

  // ---------------------------------------------------------------------------------------------
  // ImpulsiveGlottalSource

  /// The excitation at a position of the period: +1 at position 1, -1 at position 2, else 0.
  function Pulse(position: nat): real
  {
    if position == 1 then 1.0 else if position == 2 then -1.0 else 0.0
  }

  function PulseSum(n: nat): real
  {
    if n == 0 then 0.0 else PulseSum(n - 1) + Pulse(n - 1)
  }

  /// The excitation is a doublet: its running sum is 1 only between the two pulses and 0 once
  /// both have been emitted, so it carries no DC.
  lemma {:induction false} PulseIsDoublet(n: nat)
    ensures PulseSum(n) == (if n == 2 then 1.0 else 0.0)
  {
    if n > 0 {
      PulseIsDoublet(n - 1);
    }
  }

  /// Bandwidth of the pulse-shaping low-pass filter: `sample_rate / open_phase_length`.
  function ImpulseBandwidth(sampleRate: nat, openPhaseLength: nat): real
    requires openPhaseLength > 0
  {
    sampleRate as real / openPhaseLength as real
  }

  class ImpulsiveGlottalSource {
    const sampleRate: nat
    /// The resonator used as a low-pass filter; `hasResonator` says whether the source currently
    /// holds one (the source drops it for an empty open phase and makes a new one afterwards).
    const resonator: Resonator
    var hasResonator: bool
    var positionInPeriod: nat

    constructor(sampleRate: nat)
      ensures this.sampleRate == sampleRate && resonator.sampleRate == sampleRate
      ensures fresh(resonator) && !hasResonator && positionInPeriod == 0
      ensures resonator.State() == FreshResonator
    {
      this.sampleRate := sampleRate;
      resonator := new Resonator(sampleRate);
      hasResonator := false;
      positionInPeriod := 0;
    }

    /// `start_period`: an empty open phase drops the resonator and silences the source; otherwise
    /// the (possibly new) resonator is tuned as a low-pass filter with bandwidth
    /// `sample_rate / open_phase_length` and unit impulse gain, and the position restarts.
    method StartPeriod(variant: Variant, math: MathLib, openPhaseLength: nat) returns (r: Result<()>)
      requires resonator.sampleRate == sampleRate
      modifies this, resonator
      ensures r.Err? <==> variant == Current && openPhaseLength > 0 && sampleRate == 0
      ensures r.Err? ==> r.error == "Invalid resonator parameters."
      ensures openPhaseLength == 0 ==>
        !hasResonator && positionInPeriod == old(positionInPeriod) && resonator.State() == old(resonator.State())
      ensures r.Ok? && openPhaseLength > 0 ==> hasResonator && positionInPeriod == 0
      ensures r.Ok? && openPhaseLength > 0 ==>
        resonator.State()
        == ResonatorTuned(if old(hasResonator) then old(resonator.State()) else FreshResonator,
                          ResonatorCoefficients(math, sampleRate, Fin(0.0),
                                                Fin(ImpulseBandwidth(sampleRate, openPhaseLength)), Fin(1.0))).(a := 1.0)
    {
      if openPhaseLength == 0 {
        hasResonator := false;
        return Ok(());
      }
      if !hasResonator {
        resonator.Reset();
        hasResonator := true;
      }
      var bw := Fin(ImpulseBandwidth(sampleRate, openPhaseLength));
      if variant == Current {
        var res := resonator.Set(math, Fin(0.0), bw, None);
        if res.Err? {
          return Err(res.error);
        }
      } else {
        resonator.Tune(math, Fin(0.0), bw, None);
      }
      resonator.AdjustImpulseGain(1.0);
      positionInPeriod := 0;
      return Ok(());
    }

    /// `get_next`: 0 without a resonator; otherwise the pulse at the current position through
    /// the resonator, and the position moves on.
    method GetNext() returns (y: real)
      modifies this, resonator
      ensures hasResonator == old(hasResonator)
      ensures !hasResonator ==> y == 0.0 && positionInPeriod == old(positionInPeriod)
      ensures !hasResonator ==> resonator.State() == old(resonator.State())
      ensures hasResonator ==> positionInPeriod == old(positionInPeriod) + 1
      ensures hasResonator ==> y == ResonatorOutput(old(resonator.State()), Pulse(old(positionInPeriod)))
      ensures hasResonator ==> resonator.State() == ResonatorNext(old(resonator.State()), Pulse(old(positionInPeriod)))
    {
      if !hasResonator {
        return 0.0;
      }
      var pulse := Pulse(positionInPeriod);
      positionInPeriod := positionInPeriod + 1;
      y := resonator.Step(pulse);
    }
  }

  // ---------------------------------------------------------------------------------------------
  // NaturalGlottalSource

  /// Second derivative `b` of the glottal flow for an open phase of `n` samples: `-5 / n^2` in
  /// the current version, `-(5 / n)^2` in the snapshot.
  function NaturalB(variant: Variant, math: MathLib, n: nat): real
  {
    if variant == Current then Quot(-5.0, math.pow(n as real, 2.0))
    else -math.pow(Quot(5.0, n as real), 2.0)
  }

  /// The snapshot's flow derivative is five times steeper than the current one.
  lemma NaturalBVersions(math: MathLib, n: nat)
    requires SquaresExactly(math) && n > 0
    ensures NaturalB(Current, math, n) == -5.0 / (n as real * n as real)
    ensures NaturalB(Snapshot, math, n) == 5.0 * NaturalB(Current, math, n)
  {
    var m := n as real;
    assert math.pow(m, 2.0) == m * m;
    assert math.pow(5.0 / m, 2.0) == (5.0 / m) * (5.0 / m);
    assert (5.0 / m) * (5.0 / m) == 25.0 / (m * m);
  }

  /// The slope of the KLGLOTT88 flow derivative after `k` samples of an `n`-sample open
  /// phase with second derivative `b`: it starts at `-b * n / 3` and grows by `b` per sample.
  function FlowSlope(b: real, n: nat, k: nat): real
  {
    if k == 0 then -b * n as real / 3.0 else FlowSlope(b, n, k - 1) + b
  }

  /// The flow derivative at sample `k` of the open phase: it starts at zero and grows by the
  /// slope at each sample.
  function FlowDerivative(b: real, n: nat, k: nat): real
  {
    if k == 0 then 0.0 else FlowDerivative(b, n, k - 1) + FlowSlope(b, n, k)
  }

  /// The source's state `(x, a)` after `k` samples of the open phase.
  ghost predicate OnGlottalFlow(x: real, a: real, b: real, n: nat, k: nat)
  {
    a == FlowSlope(b, n, k) && x == FlowDerivative(b, n, k)
  }

  /// Closed form of the flow derivative: with `a0 = -b * n / 3`, the slope is `a0 + k * b`
  /// and the signal `k * a0 + b * k * (k + 1) / 2`.
  lemma {:induction false} FlowClosedForm(b: real, n: nat, k: nat)
    ensures FlowSlope(b, n, k) == -b * n as real / 3.0 + k as real * b
    ensures FlowDerivative(b, n, k) ==
      k as real * (-b * n as real / 3.0) + b * (k as real * (k as real + 1.0)) / 2.0
  {
    if k > 0 {
      FlowClosedForm(b, n, k - 1);
      var m := (k - 1) as real;
      assert k as real == m + 1.0;
      assert b * ((m + 1.0) * (m + 2.0)) / 2.0 == b * (m * (m + 1.0)) / 2.0 + (m + 1.0) * b;
    }
  }

  class NaturalGlottalSource {
    var x: real
    var a: real
    var b: real
    var openPhaseLength: nat
    var positionInPeriod: nat

    /// Within the open phase the signal follows the closed form of the flow derivative.
    ghost predicate Valid()
      reads this
    {
      positionInPeriod < openPhaseLength ==> OnGlottalFlow(x, a, b, openPhaseLength, positionInPeriod)
    }

    /// `new` starts an empty period.
    constructor(variant: Variant, math: MathLib)
      ensures Valid()
      ensures openPhaseLength == 0 && positionInPeriod == 0 && x == 0.0
      ensures b == NaturalB(variant, math, 0)
    {
      x, a, b := 0.0, 0.0, 0.0;
      openPhaseLength, positionInPeriod := 0, 0;
      new;
      StartPeriod(variant, math, 0);
    }

    /// `start_period`: a new open phase of `openPhaseLength` samples starting at zero flow.
    method StartPeriod(variant: Variant, math: MathLib, openPhaseLength: nat)
      modifies this
      ensures Valid()
      ensures this.openPhaseLength == openPhaseLength && positionInPeriod == 0 && x == 0.0
      ensures b == NaturalB(variant, math, openPhaseLength)
      ensures a == -b * openPhaseLength as real / 3.0
    {
      this.openPhaseLength := openPhaseLength;
      x := 0.0;
      b := NaturalB(variant, math, openPhaseLength);
      a := -b * openPhaseLength as real / 3.0;
      positionInPeriod := 0;
    }

    /// `get_next`: advances the position; past the open phase the signal is 0, inside it the
    /// slope grows by `b` and the signal by the slope.
    method GetNext() returns (y: real)
      requires Valid()
      modifies this
      ensures Valid()
      ensures positionInPeriod == old(positionInPeriod) + 1
      ensures openPhaseLength == old(openPhaseLength) && b == old(b)
      ensures positionInPeriod >= openPhaseLength ==> y == 0.0 && x == 0.0
      ensures positionInPeriod < openPhaseLength ==>
        y == x && y == FlowDerivative(b, openPhaseLength, positionInPeriod)
    {
      positionInPeriod := positionInPeriod + 1;
      if positionInPeriod >= openPhaseLength {
        x := 0.0;
        return 0.0;
      }
      a := a + b;
      x := x + a;
      y := x;
    }
  }
}
