/// The sound generator: it owns the filters and sources, activates a frame's parameters at the
/// start of an F0 period, computes one output sample at a time through the cascade and the
/// parallel branch, and applies automatic gain control to frames that ask for it.
module Synthesis {
  import opened Status
  import opened Float64
  import opened Params
  import opened Filters
  import opened Sources
  import opened Setters
  import opened Branches
  import opened GainControl

  /// `max(n, 1)`.
  function AtLeastOne(n: nat): nat
  {
    if n > 1 then n else 1
  }

  /// A modulation that applies in the second half of the period only: from position
  /// `period_length / 2` on it is `m`, before that 0.
  function SecondHalfMod(ps: PeriodState, m: F64): real
  {
    if ps.positionInPeriod >= ps.periodLength / 2 then Val(m) else 0.0
  }

  /// An output sample: the sum of the branches through the output low-pass filter in state
  /// `lp`, times the frame's gain.
  function Amplified(lp: ResonatorState, branches: real, gain: real): real
  {
    ResonatorOutput(lp, branches) * gain
  }

  /// What `generate_frame` leaves in the frame's slice, given the samples `raw` its loop
  /// computed: a frame without a given gain goes through the automatic gain control.
  function FrameOutput(math: MathLib, p: FrameParms, raw: seq<real>): (out: seq<real>)
    ensures |out| == |raw|
    ensures !IsNaN(p.gainDb) ==> out == raw
  {
    if IsNaN(p.gainDb) then AgcOutput(math, raw, Val(p.agcRmsLevel)) else raw
  }

  /// The output low-pass filter of a new generator: a fresh resonator tuned to the Nyquist
  /// frequency with unit gain.
  function NyquistLowPass(math: MathLib, sampleRate: nat): ResonatorState
  {
    ResonatorTuned(FreshResonator, ResonatorCoefficients(math, sampleRate, Fin(0.0), Nyquist(sampleRate), Fin(1.0)))
  }

  /// What putting frame `p` to use reports from setter stage `stage` on: the tilt filter (0),
  /// the cascade branch (1), then the parallel branch (2); the first error ends it.
  function FrameStatusFrom(variant: Variant, math: MathLib, sampleRate: nat, p: FrameParms, stage: nat): (r: Result<()>)
    requires stage <= 2
    ensures variant == Snapshot ==> r.Ok?
    decreases 2 - stage
  {
    if stage == 0 then
      var tilt :- TiltStatus(variant, math, sampleRate, p.tiltDb);
      FrameStatusFrom(variant, math, sampleRate, p, 1)
    else if stage == 1 then
      var cascade :- CascadeStatus(variant, sampleRate, p);
      FrameStatusFrom(variant, math, sampleRate, p, 2)
    else ParallelStatus(variant, math, sampleRate, p)
  }

  /// What putting frame `p` to use reports; the snapshot never fails.
  function FrameStatus(variant: Variant, math: MathLib, sampleRate: nat, p: FrameParms): (r: Result<()>)
    ensures variant == Snapshot ==> r.Ok?
  {
    FrameStatusFrom(variant, math, sampleRate, p, 0)
  }

  /// A frame is rejected exactly when the tilt filter, the cascade or the parallel branch
  /// rejects it, and with the error of the first that does.
  lemma FrameStatusRejects(variant: Variant, math: MathLib, sampleRate: nat, p: FrameParms)
    ensures FrameStatus(variant, math, sampleRate, p).Err? <==>
      TiltStatus(variant, math, sampleRate, p.tiltDb).Err? || CascadeStatus(variant, sampleRate, p).Err?
      || ParallelStatus(variant, math, sampleRate, p).Err?
    ensures FrameStatus(variant, math, sampleRate, p)
            == if TiltStatus(variant, math, sampleRate, p.tiltDb).Err? then TiltStatus(variant, math, sampleRate, p.tiltDb)
               else if CascadeStatus(variant, sampleRate, p).Err? then CascadeStatus(variant, sampleRate, p)
               else ParallelStatus(variant, math, sampleRate, p)
  {
    assert FrameStatusFrom(variant, math, sampleRate, p, 1)
           == if CascadeStatus(variant, sampleRate, p).Err? then CascadeStatus(variant, sampleRate, p)
              else ParallelStatus(variant, math, sampleRate, p);
  }

  /// Success or the error of `r`, without its value.
  function Outcome<T>(r: Result<T>): Result<()>
  {
    if r.Ok? then Ok(()) else Err(r.error)
  }

  // -----------------------------------------------------------------------------------------------
  // The generator as values: what it holds, what it emits, how it moves on

  /// What a generator is made with and never changes: the version, the math library, the main
  /// parameters, the random stream and the flutter offset.
  datatype Config = Config(variant: Variant, math: MathLib, mParms: MainParms, noise: Noise, flutterTimeOffset: nat)

  /// The settings `Generator::new` gives a generator: the snapshot replaces the random stream
  /// by constant noise and the flutter offset by 555.
  function ConfigOf(variant: Variant, math: MathLib, mParms: MainParms, noise: Noise, flutterTimeOffset: nat): Config
  {
    Config(variant, math, mParms, if variant == Current then noise else ConstantNoise,
           if variant == Current then flutterTimeOffset else 555)
  }

  /// A noise source: its cursor in the stream and its low-pass filter.
  datatype NoiseSourceState = NoiseSourceState(drawn: nat, filter: Lp1State)

  /// The impulsive glottal source: whether it holds its resonator, its position, the resonator.
  datatype ImpulsiveState = ImpulsiveState(hasResonator: bool, position: nat, resonator: ResonatorState)

  /// The natural glottal source as far as its output depends on it: the second derivative `b`,
  /// the open phase and the position (within the open phase its signal and slope follow from
  /// these).
  datatype NaturalState = NaturalState(b: real, openPhaseLength: nat, position: nat)

  /// Everything of a generator that changes: the frames, the linear levels, the period, the
  /// positions, the draws taken, and the state of every filter and source.
  datatype GenState = GenState(
    fParms: Option<FrameParms>, newFParms: Option<FrameParms>, fState: FrameState, pState: Option<PeriodState>,
    absPosition: nat, drawn: nat, tilt: Lp1State, outputLp: ResonatorState,
    impulsive: ImpulsiveState, natural: NaturalState,
    aspirationCasc: NoiseSourceState, aspirationPar: NoiseSourceState, frication: NoiseSourceState,
    cascade: CascadeState, parallel: ParallelState)

  /// A state the generator can be in: a running period belongs to an active frame, and both
  /// branches have their six oral formants.
  predicate Coherent(s: GenState)
  {
    (s.pState.Some? ==> s.fParms.Some?)
    && |s.cascade.oral| == MAX_ORAL_FORMANTS && |s.parallel.oral| == MAX_ORAL_FORMANTS
  }

  /// The low-pass filter of a new noise source: gain `NoiseFilterGain` at 1000 Hz, times the
  /// sample-rate compensation.
  function NoiseFilterOf(math: MathLib, sampleRate: nat): Lp1State
  {
    var ab := Lp1Coefficients(math, sampleRate, Fin(1000.0), Fin(NoiseFilterGain(math)),
                              Fin(NoiseExtraGain(math, sampleRate)));
    Lp1State(ab.0, ab.1, 0.0, false, false)
  }

  /// A noise source as `new` makes it: no draw taken, its filter tuned.
  function FreshNoiseSource(c: Config): NoiseSourceState
  {
    NoiseSourceState(0, NoiseFilterOf(c.math, c.mParms.sampleRate))
  }

  /// A new generator: no frame, no period, every filter fresh except the noise filters and the
  /// output low-pass, which `new` tunes.
  function InitialState(c: Config): (s: GenState)
    ensures Coherent(s)
  {
    GenState(None, None, InitialFrameState, None, 0, 0, FreshLp1, NyquistLowPass(c.math, c.mParms.sampleRate),
             ImpulsiveState(false, 0, FreshResonator), NaturalState(NaturalB(c.variant, c.math, 0), 0, 0),
             FreshNoiseSource(c), FreshNoiseSource(c), FreshNoiseSource(c),
             CascadeState(FreshAntiResonator, FreshResonator, FreshResonators),
             ParallelState(FreshResonator, FreshResonators, 0.0))
  }

  /// A draw of a noise source through its low-pass filter.
  function NoiseOutput(noise: Noise, ns: NoiseSourceState): real
  {
    Lp1Output(ns.filter, Draw(noise, ns.drawn))
  }

  /// A noise source after a draw.
  function NoiseNext(noise: Noise, ns: NoiseSourceState): NoiseSourceState
  {
    NoiseSourceState(ns.drawn + 1, Lp1Next(ns.filter, Draw(noise, ns.drawn)))
  }

  /// What the glottal source in use emits next; the noise source takes draw `drawn` of the
  /// generator's stream.
  function GlottalOf(c: Config, drawn: nat, im: ImpulsiveState, na: NaturalState): real
  {
    match c.mParms.glottalSourceType
    case Impulsive =>
      if im.hasResonator then ResonatorOutput(im.resonator, Pulse(im.position)) else 0.0
    case Natural =>
      var k := na.position + 1;
      if k >= na.openPhaseLength then 0.0 else FlowDerivative(na.b, na.openPhaseLength, k)
    case Noise => Draw(c.noise, drawn)
  }

  /// The impulsive source after a sample: with a resonator, the pulse at its position has passed
  /// the resonator and the position has moved on.
  function ImpulsiveNext(im: ImpulsiveState): ImpulsiveState
  {
    if im.hasResonator then ImpulsiveState(true, im.position + 1, ResonatorNext(im.resonator, Pulse(im.position)))
    else im
  }

  /// Draws the voice of a sample takes from the generator's stream: one for the noise glottal
  /// source, one for breathiness within the open phase.
  function VoiceDrawsOf(c: Config, ps: PeriodState): nat
  {
    (if c.mParms.glottalSourceType == Noise then 1 else 0)
    + (if ps.positionInPeriod < ps.openPhaseLength then 1 else 0)
  }

  /// Breathiness: within the open phase of period `ps`, noise draw `d` scaled by
  /// `breathinessLin` joins the tilted glottal sample `tilted`.
  function Breath(c: Config, d: nat, ps: PeriodState, breathinessLin: real, tilted: real): real
  {
    if ps.positionInPeriod < ps.openPhaseLength then tilted + Draw(c.noise, d) * breathinessLin else tilted
  }

  /// The voice made of the tilted glottal sample `tilted` of state `s`: the breathiness noise is
  /// the draw after the glottal source's own.
  function Breathed(c: Config, s: GenState, tilted: real): real
    requires s.pState.Some?
  {
    var d := if c.mParms.glottalSourceType == Noise then s.drawn + 1 else s.drawn;
    Breath(c, d, s.pState.value, s.fState.breathinessLin, tilted)
  }

  /// Input of the cascade branch: voicing plus aspiration, the aspiration reduced by its
  /// modulation in the second half of the period.
  function CascadeInputOf(fs: FrameState, ps: PeriodState, p: FrameParms, aspiration: real, voice: real): real
  {
    voice * fs.cascadeVoicingLin
    + aspiration * fs.cascadeAspirationLin * (1.0 - SecondHalfMod(ps, p.cascadeAspirationMod))
  }

  /// Source of the parallel branch: voicing plus aspiration.
  function ParallelSourceOf(fs: FrameState, ps: PeriodState, p: FrameParms, aspiration: real, voice: real): real
  {
    voice * fs.parallelVoicingLin
    + aspiration * fs.parallelAspirationLin * (1.0 - SecondHalfMod(ps, p.parallelAspirationMod))
  }

  /// Frication noise of the parallel branch.
  function FricationOf(fs: FrameState, ps: PeriodState, p: FrameParms, frication: real): real
  {
    frication * fs.fricationLin * (1.0 - SecondHalfMod(ps, p.fricationMod))
  }

  /// Sum of the branches frame `p` enables, for the given inputs.
  function BranchesOf(variant: Variant, p: FrameParms, cs: CascadeState, pas: ParallelState, cascadeInput: real,
                      parallelSource: real, frication: real, bypassLin: real): real
    requires |pas.oral| > 0
  {
    (if p.cascadeEnabled then CascadeOutput(cs, cascadeInput) else 0.0)
    + (if p.parallelEnabled then ParallelOutput(variant, pas, parallelSource, frication, bypassLin) else 0.0)
  }

  /// The voice of the next sample of state `s`.
  function VoiceIn(c: Config, s: GenState): real
    requires s.pState.Some?
  {
    Breathed(c, s, Lp1Output(s.tilt, GlottalOf(c, s.drawn, s.impulsive, s.natural)))
  }

  /// The cascade input of the next sample of state `s`, for voice `voice`.
  function CascadeInputIn(c: Config, s: GenState, voice: real): real
    requires Coherent(s) && s.pState.Some?
  {
    CascadeInputOf(s.fState, s.pState.value, s.fParms.value, NoiseOutput(c.noise, s.aspirationCasc), voice)
  }

  /// The parallel source of the next sample of state `s`, for voice `voice`.
  function ParallelSourceIn(c: Config, s: GenState, voice: real): real
    requires Coherent(s) && s.pState.Some?
  {
    ParallelSourceOf(s.fState, s.pState.value, s.fParms.value, NoiseOutput(c.noise, s.aspirationPar), voice)
  }

  /// The frication of the next sample of state `s`.
  function FricationIn(c: Config, s: GenState): real
    requires Coherent(s) && s.pState.Some?
  {
    FricationOf(s.fState, s.pState.value, s.fParms.value, NoiseOutput(c.noise, s.frication))
  }

  /// The sum of the enabled branches of the next sample of state `s`, for voice `voice`.
  function BranchesIn(c: Config, s: GenState, voice: real): real
    requires Coherent(s) && s.pState.Some?
  {
    BranchesOf(c.variant, s.fParms.value, s.cascade, s.parallel, CascadeInputIn(c, s, voice),
               ParallelSourceIn(c, s, voice), FricationIn(c, s), s.fState.parallelBypassLin)
  }

  /// `compute_next_output_signal_sample` on state `s`: the voice, the enabled branches, the
  /// output low-pass filter and the gain.
  function SampleOf(c: Config, s: GenState): real
    requires Coherent(s) && s.pState.Some?
  {
    Amplified(s.outputLp, BranchesIn(c, s, VoiceIn(c, s)), s.fState.gainLin)
  }

  /// State `s` after the voice of its sample: the draws, the tilt filter and the glottal source
  /// in use have taken their step.
  function Voiced(c: Config, s: GenState): (t: GenState)
    requires s.pState.Some?
    ensures t == s.(drawn := t.drawn, tilt := t.tilt, impulsive := t.impulsive, natural := t.natural)
    ensures t.drawn == s.drawn + VoiceDrawsOf(c, s.pState.value)
  {
    var kind := c.mParms.glottalSourceType;
    s.(drawn := s.drawn + VoiceDrawsOf(c, s.pState.value),
       tilt := Lp1Next(s.tilt, GlottalOf(c, s.drawn, s.impulsive, s.natural)),
       impulsive := if kind == Impulsive then ImpulsiveNext(s.impulsive) else s.impulsive,
       natural := if kind == Natural then s.natural.(position := s.natural.position + 1) else s.natural)
  }

  /// State `s` after `compute_cascade_branch` for voice `voice`: a draw of the cascade's
  /// aspiration source and a step of the cascade filters.
  function CascadeStepped(c: Config, s: GenState, voice: real): (t: GenState)
    requires Coherent(s) && s.pState.Some?
    ensures Coherent(t) && t == s.(aspirationCasc := t.aspirationCasc, cascade := t.cascade)
  {
    s.(aspirationCasc := NoiseNext(c.noise, s.aspirationCasc),
       cascade := CascadeNext(s.cascade, CascadeInputIn(c, s, voice)))
  }

  /// State `s` after `compute_parallel_branch` for voice `voice`: a draw of the parallel
  /// aspiration and frication sources and a step of the parallel filters.
  function ParallelStepped(c: Config, s: GenState, voice: real): (t: GenState)
    requires Coherent(s) && s.pState.Some?
    ensures Coherent(t)
    ensures t == s.(aspirationPar := t.aspirationPar, frication := t.frication, parallel := t.parallel)
  {
    s.(aspirationPar := NoiseNext(c.noise, s.aspirationPar), frication := NoiseNext(c.noise, s.frication),
       parallel := ParallelNext(c.variant, s.parallel, ParallelSourceIn(c, s, voice), FricationIn(c, s)))
  }

  /// The enabled branches one after the other: the cascade branch of `s` gives `cascadeOut`
  /// and the state `t`, the parallel branch of `t` gives `parallelOut` and the state `u`.
  lemma BranchesCompose(c: Config, s: GenState, voice: real, t: GenState, cascadeOut: real, u: GenState,
                        parallelOut: real)
    requires Coherent(s) && s.pState.Some?
    requires t == if s.fParms.value.cascadeEnabled then CascadeStepped(c, s, voice) else s
    requires cascadeOut ==
      if s.fParms.value.cascadeEnabled then CascadeOutput(s.cascade, CascadeInputIn(c, s, voice)) else 0.0
    requires u == if s.fParms.value.parallelEnabled then ParallelStepped(c, t, voice) else t
    requires parallelOut ==
      if s.fParms.value.parallelEnabled
      then ParallelOutput(c.variant, t.parallel, ParallelSourceIn(c, t, voice), FricationIn(c, t), t.fState.parallelBypassLin)
      else 0.0
    ensures cascadeOut + parallelOut == BranchesIn(c, s, voice)
    ensures u == BranchesStepped(c, s, voice)
  {
  }

  /// State `s` after the branches the active frame enables, the cascade first.
  function BranchesStepped(c: Config, s: GenState, voice: real): (t: GenState)
    requires Coherent(s) && s.pState.Some?
    ensures Coherent(t)
  {
    var p := s.fParms.value;
    var t := if p.cascadeEnabled then CascadeStepped(c, s, voice) else s;
    if p.parallelEnabled then ParallelStepped(c, t, voice) else t
  }

  /// The voice stage leaves what the branches read alone.
  lemma BranchesAfterVoiced(c: Config, s: GenState, voice: real)
    requires Coherent(s) && s.pState.Some?
    ensures Coherent(Voiced(c, s)) && BranchesIn(c, Voiced(c, s), voice) == BranchesIn(c, s, voice)
  {
  }

  /// State `s` after `compute_next_output_signal_sample`: the voice, the enabled branches, and
  /// the output low-pass filter fed with their sum; the frames and positions are as they were.
  function Sampled(c: Config, s: GenState): (t: GenState)
    requires Coherent(s) && s.pState.Some?
    ensures Coherent(t) && t.pState == s.pState && t.fParms == s.fParms && t.newFParms == s.newFParms
    ensures t.fState == s.fState && t.absPosition == s.absPosition
  {
    var voice := VoiceIn(c, s);
    BranchesStepped(c, Voiced(c, s), voice).(outputLp := ResonatorNext(s.outputLp, BranchesIn(c, s, voice)))
  }

  /// State `s` after its sample and `position_in_period += 1`, `abs_position += 1`.
  function Advanced(c: Config, s: GenState): (t: GenState)
    requires Coherent(s) && s.pState.Some?
    ensures Coherent(t) && t.fParms == s.fParms && t.newFParms == s.newFParms
    ensures t.absPosition == s.absPosition + 1
    ensures t.pState == Some(s.pState.value.(positionInPeriod := s.pState.value.positionInPeriod + 1))
  {
    var ps := s.pState.value;
    Sampled(c, s).(pState := Some(ps.(positionInPeriod := ps.positionInPeriod + 1)), absPosition := s.absPosition + 1)
  }

  /// State `s` with frame `p`'s linear levels, tilt filter and branches in use (what
  /// `start_using_new_frame_parameters` does when `FrameStatus` allows it).
  function Retuned(c: Config, s: GenState, p: FrameParms): (t: GenState)
    ensures Coherent(s) ==> Coherent(t)
  {
    var sr := c.mParms.sampleRate;
    s.(fState := FrameStateOf(c.variant, c.math, p),
       tilt := TiltTuned(c.variant, c.math, sr, s.tilt, p.tiltDb),
       cascade := CascadeTuned(c.variant, c.math, sr, s.cascade, p),
       parallel := ParallelTuned(c.variant, c.math, sr, s.parallel, p))
  }

  /// State `s` with frame `p`'s breathiness and gain levels, the first step of
  /// `start_using_new_frame_parameters`.
  function Leveled(c: Config, s: GenState, p: FrameParms): (t: GenState)
    ensures Coherent(s) ==> Coherent(t)
  {
    var f := FrameStateOf(c.variant, c.math, p);
    s.(fState := s.fState.(breathinessLin := f.breathinessLin, gainLin := f.gainLin))
  }

  /// Retuning is the levels, then the tilt filter, then the cascade levels and filters, then the
  /// parallel levels and filters: `t` is the state once the tilt filter is set, `u` once the
  /// cascade branch is.
  lemma RetunedInSteps(c: Config, s: GenState, p: FrameParms, t: GenState, u: GenState)
    requires t == Leveled(c, s, p).(tilt := TiltTuned(c.variant, c.math, c.mParms.sampleRate, s.tilt, p.tiltDb))
    requires u == t.(fState := t.fState.(cascadeVoicingLin := LinLevel(c.variant, c.math, p.cascadeVoicingDb),
                                         cascadeAspirationLin := LinLevel(c.variant, c.math, p.cascadeAspirationDb)),
                     cascade := CascadeTuned(c.variant, c.math, c.mParms.sampleRate, t.cascade, p))
    ensures Retuned(c, s, p) ==
      u.(fState := u.fState.(parallelVoicingLin := LinLevel(c.variant, c.math, p.parallelVoicingDb),
                             parallelAspirationLin := LinLevel(c.variant, c.math, p.parallelAspirationDb),
                             fricationLin := LinLevel(c.variant, c.math, p.fricationDb),
                             parallelBypassLin := LinLevel(c.variant, c.math, p.parallelBypassDb)),
         parallel := ParallelTuned(c.variant, c.math, c.mParms.sampleRate, u.parallel, p))
  {
  }

  /// The impulsive source starting a period with open phase `opl`: an empty open phase drops
  /// the resonator; otherwise the resonator (a fresh one unless it was held) is tuned as a
  /// low-pass filter of bandwidth `ImpulseBandwidth` with unit impulse gain, which the current
  /// version rejects only without a sample rate, and the position restarts.
  function ImpulsiveStarted(c: Config, opl: nat, im: ImpulsiveState): (r: Result<ImpulsiveState>)
    ensures r.Err? <==> c.variant == Current && opl > 0 && c.mParms.sampleRate == 0
    ensures r.Err? ==> r.error == "Invalid resonator parameters."
    ensures r.Ok? ==> (r.value.hasResonator <==> opl > 0)
    ensures r.Ok? && opl > 0 ==> r.value.position == 0 && r.value.resonator.a == 1.0
  {
    var sr := c.mParms.sampleRate;
    if opl == 0 then Ok(im.(hasResonator := false))
    else if c.variant == Current && sr == 0 then Err("Invalid resonator parameters.")
    else
      var base := if im.hasResonator then im.resonator else FreshResonator;
      var tuned := ResonatorTuned(base, ResonatorCoefficients(c.math, sr, Fin(0.0),
                                                              Fin(ImpulseBandwidth(sr, opl)), Fin(1.0)));
      Ok(ImpulsiveState(true, 0, tuned.(a := 1.0)))
  }

  /// The natural source starting a period with open phase `opl`.
  function NaturalStarted(c: Config, opl: nat): NaturalState
  {
    NaturalState(NaturalB(c.variant, c.math, opl), opl, 0)
  }

  /// `start_glottal_source_period` on state `s`: the glottal source in use starts a period with
  /// the open phase of the period state; only the impulsive source can fail.
  function GlottalStarted(c: Config, s: GenState): (r: Result<GenState>)
    requires s.pState.Some?
    ensures r.Err? <==>
      c.variant == Current && c.mParms.glottalSourceType == Impulsive
      && s.pState.value.openPhaseLength > 0 && c.mParms.sampleRate == 0
    ensures r.Ok? ==>
      r.value == s.(impulsive := r.value.impulsive, natural := r.value.natural)
  {
    var opl := s.pState.value.openPhaseLength;
    match c.mParms.glottalSourceType
    case Impulsive =>
      var im :- ImpulsiveStarted(c, opl, s.impulsive);
      Ok(s.(impulsive := im))
    case Natural => Ok(s.(natural := NaturalStarted(c, opl)))
    case Noise => Ok(s)
  }

  /// `start_new_period` on state `s`: a pending frame that `FrameStatus` accepts becomes the
  /// active one and is put to use, a rejected one ends the generation with its error; then the
  /// period state is computed afresh at the current position and the glottal source starts it.
  function PeriodStart(c: Config, s: GenState): (r: Result<GenState>)
    requires Coherent(s) && c.mParms.sampleRate > 0 && (s.newFParms.Some? || s.fParms.Some?)
    ensures r.Err? <==>
      s.newFParms.Some? && FrameStatus(c.variant, c.math, c.mParms.sampleRate, s.newFParms.value).Err?
    ensures r.Err? ==> r.error == FrameStatus(c.variant, c.math, c.mParms.sampleRate, s.newFParms.value).error
    ensures r.Ok? ==>
      Coherent(r.value) && r.value.newFParms.None? && r.value.absPosition == s.absPosition
      && r.value.fParms == (if s.newFParms.Some? then s.newFParms else s.fParms)
      && r.value.pState == Some(NewPeriod(c.math, c.mParms.sampleRate, c.flutterTimeOffset, s.absPosition,
                                          r.value.fParms.value))
  {
    if s.newFParms.Some? && FrameStatus(c.variant, c.math, c.mParms.sampleRate, s.newFParms.value).Err? then
      Err(FrameStatus(c.variant, c.math, c.mParms.sampleRate, s.newFParms.value).error)
    else
      var active := Activated(c, s);
      GlottalStarted(c, active.(pState := Some(NewPeriod(c.math, c.mParms.sampleRate, c.flutterTimeOffset,
                                                           active.absPosition, active.fParms.value))))
  }

  /// State `s` once a pending frame is the active one and put to use.
  function Activated(c: Config, s: GenState): (t: GenState)
    requires Coherent(s) && (s.newFParms.Some? || s.fParms.Some?)
    ensures Coherent(t) && t.fParms.Some? && t.newFParms.None? && t.absPosition == s.absPosition
  {
    if s.newFParms.Some? then Retuned(c, s, s.newFParms.value).(fParms := s.newFParms, newFParms := None)
    else s
  }

  /// A period is running in state `s` and not yet over, so the next sample continues it.
  predicate PeriodRunningIn(s: GenState)
  {
    s.pState.Some? && s.pState.value.positionInPeriod < s.pState.value.periodLength
  }

  /// One turn of `generate_frame`'s loop on state `s`: a new period when none runs or the
  /// running one is over, then the sample and the advance of both positions. Only a new period
  /// can fail, and only on a pending frame that `FrameStatus` rejects.
  function SampleStep(c: Config, s: GenState): (r: Result<(real, GenState)>)
    requires Coherent(s) && c.mParms.sampleRate > 0 && (s.newFParms.Some? || s.fParms.Some?)
    ensures r.Err? <==>
      !PeriodRunningIn(s) && s.newFParms.Some?
      && FrameStatus(c.variant, c.math, c.mParms.sampleRate, s.newFParms.value).Err?
    ensures r.Err? ==> r.error == FrameStatus(c.variant, c.math, c.mParms.sampleRate, s.newFParms.value).error
    ensures r.Ok? ==> Coherent(r.value.1) && r.value.1.fParms.Some? && r.value.1.absPosition == s.absPosition + 1
    ensures r.Ok? ==>
      (r.value.1.newFParms == s.newFParms || r.value.1.newFParms.None?)
      && (r.value.1.fParms == s.fParms || r.value.1.fParms == s.newFParms)
  {
    if PeriodRunningIn(s) then Ok((SampleOf(c, s), Advanced(c, s)))
    else
      var t :- PeriodStart(c, s);
      Ok((SampleOf(c, t), Advanced(c, t)))
  }

  /// `r` with `prefix` before its output: the run that emitted `prefix` and then `r`.
  function After<S>(prefix: seq<real>, r: Result<(seq<real>, S)>): Result<(seq<real>, S)>
  {
    if r.Ok? then Ok((prefix + r.value.0, r.value.1)) else Err(r.error)
  }

  /// The next `n` samples from state `s`, and the state after them; the first error ends it.
  /// An error comes from a pending frame that `FrameStatus` rejects, and when no period is
  /// running such a frame is rejected at once; the snapshot never fails.
  function Samples(c: Config, s: GenState, n: nat): (r: Result<(seq<real>, GenState)>)
    requires Coherent(s) && (n > 0 ==> c.mParms.sampleRate > 0 && (s.newFParms.Some? || s.fParms.Some?))
    ensures r.Ok? ==> |r.value.0| == n && Coherent(r.value.1) && r.value.1.absPosition == s.absPosition + n
    ensures r.Ok? && n > 0 ==> r.value.1.fParms.Some?
    ensures r.Ok? ==>
      (r.value.1.newFParms == s.newFParms || r.value.1.newFParms.None?)
      && (r.value.1.fParms == s.fParms || r.value.1.fParms == s.newFParms)
    ensures r.Err? ==>
      s.newFParms.Some? && FrameStatus(c.variant, c.math, c.mParms.sampleRate, s.newFParms.value).Err?
      && r.error == FrameStatus(c.variant, c.math, c.mParms.sampleRate, s.newFParms.value).error
    ensures n > 0 && !PeriodRunningIn(s) ==>
      (r.Err? <==> s.newFParms.Some? && FrameStatus(c.variant, c.math, c.mParms.sampleRate, s.newFParms.value).Err?)
    ensures c.variant == Snapshot ==> r.Ok?
    decreases n
  {
    if n == 0 then Ok(([], s))
    else
      var step :- SampleStep(c, s);
      After([step.0], Samples(c, step.1, n - 1))
  }

  /// Emitting `a` and then `b` before a run is emitting `a + b` before it.
  lemma AfterAfter<S>(a: seq<real>, b: seq<real>, r: Result<(seq<real>, S)>)
    ensures After(a, After(b, r)) == After(a + b, r)
  {
    if r.Ok? {
      assert a + (b + r.value.0) == (a + b) + r.value.0;
    }
  }

  /// Emitting nothing before a run leaves it as it is.
  lemma AfterNothing<S>(prefix: seq<real>, r: Result<(seq<real>, S)>)
    requires prefix == []
    ensures After(prefix, r) == r
  {
    if r.Ok? {
      assert prefix + r.value.0 == r.value.0;
    }
  }

  /// Emitting `prefix` before an empty run that ends in `t` is a run of `prefix` ending in `t`.
  lemma AfterEmpty<S>(prefix: seq<real>, t: S)
    ensures After(prefix, Ok(([], t))) == Ok((prefix, t))
  {
    assert prefix + [] == prefix;
  }

  /// The error of `generate_frame` for a frame equal to the active one.
  const ReusedFrame := "FrameParms structure must not be re-used."

  /// The current version refuses frame `p` in state `s`: it equals the active frame under the
  /// derived `PartialEq`.
  predicate Reused(c: Config, s: GenState, p: FrameParms)
  {
    c.variant == Current && s.fParms.Some? && DerivedFrameEq(s.fParms.value, p)
  }

  /// `generate_frame` for `n` samples of frame `p` from state `s`: the current version refuses
  /// a frame equal to the active one under the derived `PartialEq`; otherwise the frame becomes
  /// pending, the samples are computed in turn, and a frame without a given gain goes through
  /// the automatic gain control. It fails only on a re-used frame or one `FrameStatus` rejects,
  /// and when no period is running it fails on every such frame.
  function FrameRun(c: Config, s: GenState, p: FrameParms, n: nat): (r: Result<(seq<real>, GenState)>)
    requires Coherent(s) && (n > 0 ==> c.mParms.sampleRate > 0)
    ensures r.Ok? ==> |r.value.0| == n && Coherent(r.value.1) && r.value.1.absPosition == s.absPosition + n
    ensures r.Ok? ==>
      (r.value.1.newFParms == Some(p) || r.value.1.newFParms.None?)
      && (r.value.1.fParms == s.fParms || r.value.1.fParms == Some(p))
    ensures Reused(c, s, p) ==> r == Err(ReusedFrame)
    ensures r.Err? ==>
      Reused(c, s, p)
      || (FrameStatus(c.variant, c.math, c.mParms.sampleRate, p).Err?
          && r.error == FrameStatus(c.variant, c.math, c.mParms.sampleRate, p).error)
    ensures n > 0 && !PeriodRunningIn(s) ==>
      (r.Err? <==> Reused(c, s, p) || FrameStatus(c.variant, c.math, c.mParms.sampleRate, p).Err?)
    ensures c.variant == Snapshot ==> r.Ok?
  {
    if Reused(c, s, p) then Err(ReusedFrame)
    else
      var run :- Samples(c, s.(newFParms := Some(p)), n);
      Ok((FrameOutput(c.math, p, run.0), run.1))
  }

  /// A frame that is not re-used runs as its samples from the state where it is pending,
  /// followed by the gain control.
  lemma FrameRunOfSamples(c: Config, s: GenState, p: FrameParms, n: nat)
    requires Coherent(s) && (n > 0 ==> c.mParms.sampleRate > 0) && !Reused(c, s, p)
    ensures var run := Samples(c, s.(newFParms := Some(p)), n);
      FrameRun(c, s, p, n) == if run.Ok? then Ok((FrameOutput(c.math, p, run.value.0), run.value.1)) else Err(run.error)
  {
  }

  /// The number of samples of a frame: `duration * sample_rate`.
  function FrameLength(f: FrameParms, sampleRate: nat): nat
  {
    f.duration * sampleRate
  }

  /// `generate_sound`'s frames from state `s`, each for `duration * sample_rate` samples; the
  /// outputs lie one after the other and the first error ends it. The snapshot never fails.
  function SoundRun(c: Config, s: GenState, frames: seq<FrameParms>): (r: Result<(seq<real>, GenState)>)
    requires Coherent(s)
    ensures r.Ok? ==> |r.value.0| == TotalLength(frames, c.mParms.sampleRate) && Coherent(r.value.1)
    ensures r.Ok? ==> r.value.1.absPosition == s.absPosition + TotalLength(frames, c.mParms.sampleRate)
    ensures c.variant == Snapshot ==> r.Ok?
    decreases |frames|
  {
    if |frames| == 0 then Ok(([], s))
    else
      var run :- FrameRun(c, s, frames[0], FrameLength(frames[0], c.mParms.sampleRate));
      TotalLengthOfConcat([frames[0]], frames[1..], c.mParms.sampleRate);
      assert [frames[0]] + frames[1..] == frames;
      After(run.0, SoundRun(c, run.1, frames[1..]))
  }

  /// The sound fails only in the current version, with a re-used frame's error or with the
  /// error `FrameStatus` gives one of the frames.
  lemma {:induction false} SoundRunFailure(c: Config, s: GenState, frames: seq<FrameParms>)
    requires Coherent(s) && SoundRun(c, s, frames).Err?
    ensures c.variant == Current
    ensures SoundRun(c, s, frames).error == ReusedFrame
            || exists k :: 0 <= k < |frames| && FrameStatus(c.variant, c.math, c.mParms.sampleRate, frames[k]).Err?
                           && SoundRun(c, s, frames).error
                              == FrameStatus(c.variant, c.math, c.mParms.sampleRate, frames[k]).error
    decreases |frames|
  {
    var run := FrameRun(c, s, frames[0], FrameLength(frames[0], c.mParms.sampleRate));
    if run.Ok? {
      var rest := frames[1..];
      SoundRunFailure(c, run.value.1, rest);
      if SoundRun(c, s, frames).error != ReusedFrame {
        var k :| 0 <= k < |rest| && FrameStatus(c.variant, c.math, c.mParms.sampleRate, rest[k]).Err?
                 && SoundRun(c, run.value.1, rest).error
                    == FrameStatus(c.variant, c.math, c.mParms.sampleRate, rest[k]).error;
        assert rest[k] == frames[k + 1];
      }
    }
  }

  /// After the first of `frames` runs, the active frame is the one before or that first frame;
  /// either way it equals none of the frames still to come, which are accepted by
  /// `FrameStatus` and pairwise unequal like all of them.
  lemma ActiveFrameFresh(c: Config, active: Option<FrameParms>, before: Option<FrameParms>, frames: seq<FrameParms>)
    requires |frames| > 0 && (active == before || active == Some(frames[0]))
    requires before.Some? ==> forall k :: 0 <= k < |frames| ==> !DerivedFrameEq(before.value, frames[k])
    requires forall k :: 0 <= k < |frames| ==> FrameStatus(c.variant, c.math, c.mParms.sampleRate, frames[k]).Ok?
    requires forall j, k :: 0 <= j < k < |frames| ==> !DerivedFrameEq(frames[j], frames[k])
    ensures active.Some? ==> forall k :: 0 <= k < |frames[1..]| ==> !DerivedFrameEq(active.value, frames[1..][k])
    ensures forall k :: 0 <= k < |frames[1..]| ==> FrameStatus(c.variant, c.math, c.mParms.sampleRate, frames[1..][k]).Ok?
    ensures forall j, k :: 0 <= j < k < |frames[1..]| ==> !DerivedFrameEq(frames[1..][j], frames[1..][k])
  {
    var rest := frames[1..];
    assert forall k :: 0 <= k < |rest| ==> rest[k] == frames[k + 1];
  }

  /// The first frame of a sound runs to its end when it is not a re-use and `FrameStatus`
  /// accepts it.
  lemma FrameRunAccepted(c: Config, s: GenState, p: FrameParms, n: nat)
    requires Coherent(s) && (n > 0 ==> c.mParms.sampleRate > 0)
    requires !Reused(c, s, p) && FrameStatus(c.variant, c.math, c.mParms.sampleRate, p).Ok?
    ensures FrameRun(c, s, p, n).Ok?
  {
  }

  /// A generator whose active frame equals none of the frames under the derived `PartialEq`
  /// produces the whole sound when `FrameStatus` accepts every frame and no frame equals a
  /// later one: no frame is ever re-used.
  lemma {:induction false} SoundRunSucceeds(c: Config, s: GenState, frames: seq<FrameParms>)
    requires Coherent(s)
    requires s.fParms.Some? ==> forall k :: 0 <= k < |frames| ==> !DerivedFrameEq(s.fParms.value, frames[k])
    requires forall k :: 0 <= k < |frames| ==> FrameStatus(c.variant, c.math, c.mParms.sampleRate, frames[k]).Ok?
    requires forall j, k :: 0 <= j < k < |frames| ==> !DerivedFrameEq(frames[j], frames[k])
    ensures SoundRun(c, s, frames).Ok?
    decreases |frames|
  {
    if |frames| > 0 {
      FrameRunAccepted(c, s, frames[0], FrameLength(frames[0], c.mParms.sampleRate));
      var run := FrameRun(c, s, frames[0], FrameLength(frames[0], c.mParms.sampleRate)).value;
      ActiveFrameFresh(c, run.1.fParms, s.fParms, frames);
      SoundRunSucceeds(c, run.1, frames[1..]);
    }
  }

  /// The error of `Generator::new` when the noise sources' filter rejects its parameters.
  const RejectedNoiseFilter := "Invalid filter parameters."

  /// `generate_sound` as a value: a new generator, then every frame in turn. The current version
  /// fails when the noise sources reject the sample rate, or as `SoundRun` does.
  function SoundOf(variant: Variant, math: MathLib, mParms: MainParms, frames: seq<FrameParms>, noise: Noise,
                   flutterTimeOffset: nat): (r: Result<seq<real>>)
    ensures r.Ok? ==> |r.value| == TotalLength(frames, mParms.sampleRate)
    ensures variant == Snapshot ==> r.Ok?
    ensures variant == Current && mParms.sampleRate <= 2000 ==> r == Err(RejectedNoiseFilter)
  {
    if variant == Current
       && !Lp1Accepts(mParms.sampleRate, Fin(1000.0), Fin(NoiseFilterGain(math)),
                      Fin(NoiseExtraGain(math, mParms.sampleRate)))
    then Err(RejectedNoiseFilter)
    else
      var run :- SoundRun(ConfigOf(variant, math, mParms, noise, flutterTimeOffset),
                          InitialState(ConfigOf(variant, math, mParms, noise, flutterTimeOffset)), frames);
      Ok(run.0)
  }

  /// `generate_sound` fails when the current version's noise filters reject the sample rate.
  lemma SoundOfRejected(variant: Variant, math: MathLib, mParms: MainParms, frames: seq<FrameParms>, noise: Noise,
                        flutterTimeOffset: nat)
    requires variant == Current
    requires !Lp1Accepts(mParms.sampleRate, Fin(1000.0), Fin(NoiseFilterGain(math)),
                         Fin(NoiseExtraGain(math, mParms.sampleRate)))
    ensures SoundOf(variant, math, mParms, frames, noise, flutterTimeOffset) == Err(RejectedNoiseFilter)
  {
  }

  /// Otherwise `generate_sound` runs the frames from the new generator's state `s`.
  lemma SoundOfRun(variant: Variant, math: MathLib, mParms: MainParms, frames: seq<FrameParms>, noise: Noise,
                   flutterTimeOffset: nat, c: Config, s: GenState)
    requires !(variant == Current
               && !Lp1Accepts(mParms.sampleRate, Fin(1000.0), Fin(NoiseFilterGain(math)),
                              Fin(NoiseExtraGain(math, mParms.sampleRate))))
    requires c == ConfigOf(variant, math, mParms, noise, flutterTimeOffset) && s == InitialState(c)
    ensures var run := SoundRun(c, s, frames);
      SoundOf(variant, math, mParms, frames, noise, flutterTimeOffset)
      == if run.Ok? then Ok(run.value.0) else Err(run.error)
  {
  }

  /// A noise source as a value.
  ghost function NoiseSourceNow(src: LpNoiseSource): NoiseSourceState
    reads src, src.lpFilter
  {
    NoiseSourceState(src.drawn, src.lpFilter.State())
  }

  /// The three noise sources of `Generator::new`, each with its own filter, in the order the
  /// current version validates them; the first to fail ends it.
  method NewNoiseSources(variant: Variant, math: MathLib, sampleRate: nat, noise: Noise)
    returns (r: Result<(LpNoiseSource, LpNoiseSource, LpNoiseSource)>)
    ensures r.Err? <==>
      variant == Current
      && !Lp1Accepts(sampleRate, Fin(1000.0), Fin(NoiseFilterGain(math)), Fin(NoiseExtraGain(math, sampleRate)))
    ensures r.Err? ==> r.error == "Invalid filter parameters."
    ensures r.Ok? ==>
      var (ac, ap, fp) := r.value;
      fresh(ac) && fresh(ac.lpFilter) && fresh(ap) && fresh(ap.lpFilter) && fresh(fp) && fresh(fp.lpFilter)
      && ac != ap && ac != fp && ap != fp
      && ac.lpFilter != ap.lpFilter && ac.lpFilter != fp.lpFilter && ap.lpFilter != fp.lpFilter
      && ac.noise == noise && ap.noise == noise && fp.noise == noise
      && NoiseSourceNow(ac) == NoiseSourceState(0, NoiseFilterOf(math, sampleRate))
      && NoiseSourceNow(ap) == NoiseSourceState(0, NoiseFilterOf(math, sampleRate))
      && NoiseSourceNow(fp) == NoiseSourceState(0, NoiseFilterOf(math, sampleRate))
  {
    var aspirationCasc := LpNoiseSource.New(variant, math, sampleRate, noise);
    if aspirationCasc.Err? {
      return Err(aspirationCasc.error);
    }
    var aspirationPar := LpNoiseSource.New(variant, math, sampleRate, noise);
    var frication := LpNoiseSource.New(variant, math, sampleRate, noise);
    return Ok((aspirationCasc.value, aspirationPar.value, frication.value));
  }

  /// The tilt filter, the output low-pass filter and both glottal sources of a new generator.
  method NewOwnParts(variant: Variant, math: MathLib, sampleRate: nat)
    returns (tilt: LpFilter1, outputLp: Resonator, impulsive: ImpulsiveGlottalSource, natural: NaturalGlottalSource)
    ensures fresh(tilt) && fresh(outputLp) && fresh(impulsive) && fresh(impulsive.resonator) && fresh(natural)
    ensures outputLp != impulsive.resonator
    ensures tilt.sampleRate == sampleRate && tilt.State() == FreshLp1
    ensures outputLp.sampleRate == sampleRate && outputLp.State() == FreshResonator
    ensures impulsive.sampleRate == sampleRate && impulsive.resonator.sampleRate == sampleRate
    ensures !impulsive.hasResonator && impulsive.positionInPeriod == 0 && impulsive.resonator.State() == FreshResonator
    ensures natural.Valid() && natural.openPhaseLength == 0 && natural.positionInPeriod == 0
    ensures natural.b == NaturalB(variant, math, 0)
  {
    tilt := new LpFilter1(sampleRate);
    outputLp := new Resonator(sampleRate);
    impulsive := new ImpulsiveGlottalSource(sampleRate);
    natural := new NaturalGlottalSource(variant, math);
  }

  /// The filters of both branches, new and apart from each other.
  method NewBranches(sampleRate: nat) returns (casc: CascadeFilters, par: ParallelFilters)
    ensures casc.Wired() && par.Wired() && casc.sampleRate == sampleRate && par.sampleRate == sampleRate
    ensures fresh(casc.Repr) && fresh(par.Repr) && casc.Repr !! par.Repr
    ensures casc.State() == CascadeState(FreshAntiResonator, FreshResonator, FreshResonators)
    ensures par.State() == ParallelState(FreshResonator, FreshResonators, 0.0)
  {
    casc := new CascadeFilters(sampleRate);
    par := new ParallelFilters(sampleRate);
  }

  class Generator {
    const variant: Variant
    const math: MathLib
    const mParms: MainParms
    /// The random stream of the generator's own random number generator (noise glottal source
    /// and breathiness); each noise source replays the same stream from its own cursor.
    const noise: Noise
    const flutterTimeOffset: nat
    /// Draws taken from `noise` so far.
    var drawn: nat

    var fParms: Option<FrameParms>
    var newFParms: Option<FrameParms>
    var fState: FrameState
    var pState: Option<PeriodState>
    var absPosition: nat

    const tiltFilter: LpFilter1
    const outputLpFilter: Resonator
    /// Both glottal sources exist; only the one `mParms.glottalSourceType` names is used.
    const impulsiveSource: ImpulsiveGlottalSource
    const naturalSource: NaturalGlottalSource
    const aspirationSourceCasc: LpNoiseSource
    const aspirationSourcePar: LpNoiseSource
    const fricationSourcePar: LpNoiseSource
    const cascade: CascadeFilters
    const parallel: ParallelFilters

    /// The filters and glottal sources the constructor allocates.
    ghost const Mine: set<object>
    /// The noise sources and their filters, allocated before the generator.
    ghost const Shared: set<object>
    ghost const Repr: set<object>

    // -------------------------------------------------------------------------------------------
    // Invariants

    /// The objects the generator owns outside the two branches.
    ghost function Owned(): set<object>
    {
      {this} + Mine + Shared
    }

    /// The fixed structure: both branches wired, all objects distinct and tuned for the main
    /// sample rate, and the branches' footprints apart from each other and from everything else.
    /// It depends on constant fields only. (Compared with `true`, it is checked as one fact, not
    /// conjunct by conjunct; the methods that carry it stay within their proof budget only so.)
    ghost predicate Wired()
    {
      (cascade.Wired() && parallel.Wired() && SourcesDistinct() && SampleRatesAgree()
       && (variant == Current ==> mParms.sampleRate > 2000 && flutterTimeOffset <= 1000)
       && Apart()) == true
    }

    /// The objects outside the two branches, one by one, lie outside both branch footprints,
    /// and the footprints are disjoint.
    ghost predicate Apart()
    {
      cascade.Repr !! parallel.Repr
      && this !in cascade.Repr && this !in parallel.Repr
      && tiltFilter !in cascade.Repr && tiltFilter !in parallel.Repr
      && outputLpFilter !in cascade.Repr && outputLpFilter !in parallel.Repr
      && impulsiveSource !in cascade.Repr && impulsiveSource !in parallel.Repr
      && impulsiveSource.resonator !in cascade.Repr && impulsiveSource.resonator !in parallel.Repr
      && naturalSource !in cascade.Repr && naturalSource !in parallel.Repr
      && aspirationSourceCasc !in cascade.Repr && aspirationSourceCasc !in parallel.Repr
      && aspirationSourceCasc.lpFilter !in cascade.Repr && aspirationSourceCasc.lpFilter !in parallel.Repr
      && aspirationSourcePar !in cascade.Repr && aspirationSourcePar !in parallel.Repr
      && aspirationSourcePar.lpFilter !in cascade.Repr && aspirationSourcePar.lpFilter !in parallel.Repr
      && fricationSourcePar !in cascade.Repr && fricationSourcePar !in parallel.Repr
      && fricationSourcePar.lpFilter !in cascade.Repr && fricationSourcePar.lpFilter !in parallel.Repr
    }

    /// What the generator holds: the objects it allocates, those it shares with the noise
    /// sources, and the footprint `Repr` of all of them.
    ghost predicate Inventory()
    {
      Mine == {tiltFilter, outputLpFilter, impulsiveSource, impulsiveSource.resonator, naturalSource}
      && Shared == {aspirationSourceCasc, aspirationSourceCasc.lpFilter, aspirationSourcePar,
                    aspirationSourcePar.lpFilter, fricationSourcePar, fricationSourcePar.lpFilter}
      && Repr == Owned() + cascade.Repr + parallel.Repr
    }

    ghost predicate SourcesDistinct()
    {
      aspirationSourceCasc != aspirationSourcePar && aspirationSourceCasc != fricationSourcePar
      && aspirationSourcePar != fricationSourcePar
      && aspirationSourceCasc.lpFilter != aspirationSourcePar.lpFilter
      && aspirationSourceCasc.lpFilter != fricationSourcePar.lpFilter
      && aspirationSourcePar.lpFilter != fricationSourcePar.lpFilter
      && tiltFilter != aspirationSourceCasc.lpFilter && tiltFilter != aspirationSourcePar.lpFilter
      && tiltFilter != fricationSourcePar.lpFilter
      && outputLpFilter != impulsiveSource.resonator
      && aspirationSourceCasc.noise == noise && aspirationSourcePar.noise == noise
      && fricationSourcePar.noise == noise
    }

    ghost predicate SampleRatesAgree()
    {
      tiltFilter.sampleRate == mParms.sampleRate && outputLpFilter.sampleRate == mParms.sampleRate
      && impulsiveSource.sampleRate == mParms.sampleRate
      && impulsiveSource.resonator.sampleRate == mParms.sampleRate
      && cascade.sampleRate == mParms.sampleRate && parallel.sampleRate == mParms.sampleRate
    }

    /// A running period belongs to an active frame, its position stays within the period (or at
    /// 1 for periods of at most one sample), and such short periods have no open phase.
    ghost predicate PeriodInvariant()
      reads this`pState, this`fParms
    {
      pState.Some? ==>
        fParms.Some?
        && pState.value.positionInPeriod <= AtLeastOne(pState.value.periodLength)
        && (pState.value.periodLength <= 1 ==> pState.value.openPhaseLength == 0)
    }

    /// The glottal source in use runs `lead` samples ahead of the period position: the natural
    /// source shares the open phase and the position, the impulsive source holds a resonator
    /// exactly when the open phase is not empty.
    ghost predicate Synced(lead: nat)
      reads this`pState, naturalSource, impulsiveSource
    {
      pState.Some? ==>
        (mParms.glottalSourceType == Natural ==>
           naturalSource.openPhaseLength == pState.value.openPhaseLength
           && naturalSource.positionInPeriod == pState.value.positionInPeriod + lead)
        && (mParms.glottalSourceType == Impulsive ==>
              (impulsiveSource.hasResonator <==> pState.value.openPhaseLength > 0)
              && (impulsiveSource.hasResonator ==>
                    impulsiveSource.positionInPeriod == pState.value.positionInPeriod + lead))
    }

    /// The structure is wired, the natural source is sound, and the period state agrees with the
    /// glottal sources. (Compared with `true`, it is checked as one fact.)
    ghost predicate Valid()
      reads this`pState, this`fParms, naturalSource, impulsiveSource
    {
      (Wired() && naturalSource.Valid() && PeriodInvariant() && Synced(0)) == true
    }

    // -------------------------------------------------------------------------------------------
    // The state as a value

    /// What the generator was made with.
    function Cfg(): Config
    {
      Config(variant, math, mParms, noise, flutterTimeOffset)
    }

    /// The impulsive source as a value.
    ghost function ImpulsiveNow(): ImpulsiveState
      reads impulsiveSource, impulsiveSource.resonator
    {
      ImpulsiveState(impulsiveSource.hasResonator, impulsiveSource.positionInPeriod, impulsiveSource.resonator.State())
    }

    /// The natural source as a value.
    ghost function NaturalNow(): NaturalState
      reads naturalSource
    {
      NaturalState(naturalSource.b, naturalSource.openPhaseLength, naturalSource.positionInPeriod)
    }

    /// The whole generator as a value.
    ghost function Snap(): GenState
      requires cascade.Wired() && parallel.Wired()
      reads this, tiltFilter, outputLpFilter, impulsiveSource, impulsiveSource.resonator, naturalSource
      reads aspirationSourceCasc, aspirationSourceCasc.lpFilter, aspirationSourcePar, aspirationSourcePar.lpFilter
      reads fricationSourcePar, fricationSourcePar.lpFilter, cascade.Repr, parallel.Repr
    {
      GenState(fParms, newFParms, fState, pState, absPosition, drawn, tiltFilter.State(), outputLpFilter.State(),
               ImpulsiveNow(), NaturalNow(), NoiseSourceNow(aspirationSourceCasc), NoiseSourceNow(aspirationSourcePar),
               NoiseSourceNow(fricationSourcePar), cascade.State(), parallel.State())
    }

    // -------------------------------------------------------------------------------------------
    // Construction

    /// Allocates the filters and both glottal sources around the given noise sources and branches.
    constructor(variant: Variant, math: MathLib, mParms: MainParms, noise: Noise, flutterTimeOffset: nat,
                aspirationSourceCasc: LpNoiseSource, aspirationSourcePar: LpNoiseSource,
                fricationSourcePar: LpNoiseSource, casc: CascadeFilters, par: ParallelFilters)
      requires aspirationSourceCasc != aspirationSourcePar && aspirationSourceCasc != fricationSourcePar
      requires aspirationSourcePar != fricationSourcePar
      requires aspirationSourceCasc.lpFilter != aspirationSourcePar.lpFilter
      requires aspirationSourceCasc.lpFilter != fricationSourcePar.lpFilter
      requires aspirationSourcePar.lpFilter != fricationSourcePar.lpFilter
      requires aspirationSourceCasc.noise == noise && aspirationSourcePar.noise == noise
      requires fricationSourcePar.noise == noise
      requires variant == Current ==> mParms.sampleRate > 2000 && flutterTimeOffset <= 1000
      requires casc.Wired() && par.Wired() && casc.Repr !! par.Repr
      requires casc.sampleRate == mParms.sampleRate && par.sampleRate == mParms.sampleRate
      requires {aspirationSourceCasc, aspirationSourceCasc.lpFilter, aspirationSourcePar, aspirationSourcePar.lpFilter,
                fricationSourcePar, fricationSourcePar.lpFilter} !! casc.Repr + par.Repr
      ensures Valid()
      ensures Snap() ==
        GenState(None, None, InitialFrameState, None, 0, 0, FreshLp1, FreshResonator,
                 ImpulsiveState(false, 0, FreshResonator), NaturalState(NaturalB(variant, math, 0), 0, 0),
                 NoiseSourceNow(aspirationSourceCasc), NoiseSourceNow(aspirationSourcePar),
                 NoiseSourceNow(fricationSourcePar), casc.State(), par.State())
      ensures this.variant == variant && this.math == math && this.mParms == mParms
      ensures this.noise == noise && this.flutterTimeOffset == flutterTimeOffset
      ensures this.aspirationSourceCasc == aspirationSourceCasc && this.aspirationSourcePar == aspirationSourcePar
      ensures this.fricationSourcePar == fricationSourcePar && cascade == casc && parallel == par
      ensures outputLpFilter.State() == FreshResonator
      ensures fresh(tiltFilter) && fresh(outputLpFilter) && fresh(impulsiveSource) && fresh(impulsiveSource.resonator)
      ensures fresh(naturalSource) && fresh(Mine)
      ensures Inventory()
    {
      var tilt, outputLp, impulsive, natural := NewOwnParts(variant, math, mParms.sampleRate);
      ghost var mine: set<object> := {tilt, outputLp, impulsive, impulsive.resonator, natural};
      assert fresh(mine);
      ghost var shared: set<object> :=
        {aspirationSourceCasc, aspirationSourceCasc.lpFilter, aspirationSourcePar, aspirationSourcePar.lpFilter,
         fricationSourcePar, fricationSourcePar.lpFilter};
      this.variant := variant;
      this.math := math;
      this.mParms := mParms;
      this.noise := noise;
      this.flutterTimeOffset := flutterTimeOffset;
      drawn := 0;
      fParms, newFParms, pState := None, None, None;
      fState := InitialFrameState;
      absPosition := 0;
      tiltFilter := tilt;
      outputLpFilter := outputLp;
      impulsiveSource := impulsive;
      naturalSource := natural;
      this.aspirationSourceCasc := aspirationSourceCasc;
      this.aspirationSourcePar := aspirationSourcePar;
      this.fricationSourcePar := fricationSourcePar;
      cascade := casc;
      parallel := par;
      Mine := mine;
      Shared := shared;
      Repr := {this} + Mine + Shared + casc.Repr + par.Repr;
      new;
      assert naturalSource.openPhaseLength == 0;
    }

    /// Tunes the output low-pass filter to the Nyquist frequency with unit gain.
    method TuneOutputFilter()
      requires Valid() && outputLpFilter.State() == FreshResonator
      modifies outputLpFilter
      ensures Valid()
      ensures Snap() == old(Snap()).(outputLp := NyquistLowPass(math, mParms.sampleRate))
    {
      var nyquist := Nyquist(mParms.sampleRate);
      if variant == Current {
        var res := outputLpFilter.Set(math, Fin(0.0), nyquist, None);
        // Sample rates above 2000 Hz, the only ones the noise sources accept, are valid here.
        assert res.Ok?;
      } else {
        outputLpFilter.Tune(math, Fin(0.0), nyquist, None);
      }
    }

    /// `Generator::new`. The current version draws the flutter offset from the random generator
    /// (here the parameter `flutterTimeOffset`, in `0 ..= 1000`), validates the noise sources'
    /// filters, which rejects sample rates of 2000 Hz and below, and tunes the output low-pass
    /// filter to the Nyquist frequency. The snapshot uses the offset 555 and constant noise.
    static method New(variant: Variant, math: MathLib, mParms: MainParms, noise: Noise, flutterTimeOffset: nat)
      returns (r: Result<Generator>)
      requires flutterTimeOffset <= 1000
      ensures r.Err? <==>
        variant == Current
        && !Lp1Accepts(mParms.sampleRate, Fin(1000.0), Fin(NoiseFilterGain(math)),
                       Fin(NoiseExtraGain(math, mParms.sampleRate)))
      ensures r.Err? ==> r.error == "Invalid filter parameters."
      ensures variant == Current && mParms.sampleRate <= 2000 ==> r.Err?
      ensures r.Ok? ==> r.value.Valid() && r.value.Inventory()
      ensures r.Ok? ==>
        fresh(r.value) && fresh(r.value.Mine) && fresh(r.value.Shared)
        && fresh(r.value.cascade.Repr) && fresh(r.value.parallel.Repr)
      ensures r.Ok? ==> r.value.Cfg() == ConfigOf(variant, math, mParms, noise, flutterTimeOffset)
      ensures r.Ok? ==> r.value.Snap() == InitialState(r.value.Cfg())
    {
      var sr := mParms.sampleRate;
      var stream := if variant == Current then noise else ConstantNoise;
      var offset := if variant == Current then flutterTimeOffset else 555;
      var sources := NewNoiseSources(variant, math, sr, stream);
      if sources.Err? {
        return Err(sources.error);
      }
      var (ac, ap, fp) := sources.value;
      ghost var shared: set<object> := {ac, ac.lpFilter, ap, ap.lpFilter, fp, fp.lpFilter};
      assert fresh(shared);
      var casc, par := NewBranches(sr);
      var g := new Generator(variant, math, mParms, stream, offset, ac, ap, fp, casc, par);
      assert g.Shared == shared;
      g.TuneOutputFilter();
      return Ok(g);
    }

    // -------------------------------------------------------------------------------------------
    // One sample

    /// `glottal_source`: the next sample of the glottal source in use, from the state `s`; the
    /// noise source draws from the generator's own stream. Only the source in use moves on.
    method GlottalSourceNext(ghost s: GenState) returns (v: real)
      requires Wired() && naturalSource.Valid() && s == Snap()
      modifies this`drawn, impulsiveSource, impulsiveSource.resonator, naturalSource
      ensures v == GlottalOf(Cfg(), s.drawn, s.impulsive, s.natural)
      ensures Snap() == s.(drawn := s.drawn + (if mParms.glottalSourceType == Noise then 1 else 0),
                           impulsive := if mParms.glottalSourceType == Impulsive then ImpulsiveNext(s.impulsive)
                                        else s.impulsive,
                           natural := if mParms.glottalSourceType == Natural
                                      then s.natural.(position := s.natural.position + 1) else s.natural)
      ensures naturalSource.Valid()
      ensures old(Synced(0)) ==> Synced(1)
    {
      match mParms.glottalSourceType {
        case Impulsive =>
          v := impulsiveSource.GetNext();
        case Natural =>
          v := naturalSource.GetNext();
        case Noise =>
          v := Draw(noise, drawn);
          drawn := drawn + 1;
      }
      GlottalMoved();
    }

    /// The glottal sample of state `s` through the tilt filter.
    method TiltedGlottal(ghost s: GenState) returns (v: real)
      requires Wired() && naturalSource.Valid() && pState.Some? && s == Snap()
      modifies this`drawn, tiltFilter, impulsiveSource, impulsiveSource.resonator, naturalSource
      ensures v == Lp1Output(s.tilt, GlottalOf(Cfg(), s.drawn, s.impulsive, s.natural))
      ensures Snap() == Voiced(Cfg(), s).(drawn := s.drawn + (if mParms.glottalSourceType == Noise then 1 else 0))
      ensures naturalSource.Valid()
      ensures old(Synced(0)) ==> Synced(1)
    {
      var glottal := GlottalSourceNext(s);
      v := tiltFilter.Step(glottal);
    }

    /// The voice of `compute_next_output_signal_sample` from the state `s`: the glottal sample
    /// through the tilt filter, plus breathiness noise within the open phase.
    method NextVoice(ghost s: GenState) returns (voice: real)
      requires Wired() && naturalSource.Valid() && pState.Some? && s == Snap()
      modifies this`drawn, tiltFilter, impulsiveSource, impulsiveSource.resonator, naturalSource
      ensures voice == VoiceIn(Cfg(), s)
      ensures Snap() == Voiced(Cfg(), s)
      ensures naturalSource.Valid()
      ensures old(Synced(0)) ==> Synced(1)
    {
      var tilted := TiltedGlottal(s);
      voice := Breathe(tilted, s);
    }

    /// Breathiness noise joins `tilted` within the open phase, drawing from the stream; this
    /// completes the voice stage of state `s`.
    method Breathe(tilted: real, ghost s: GenState) returns (voice: real)
      requires Wired() && s.pState.Some?
      requires Snap() == Voiced(Cfg(), s).(drawn := s.drawn + (if mParms.glottalSourceType == Noise then 1 else 0))
      modifies this`drawn
      ensures voice == Breathed(Cfg(), s, tilted)
      ensures Snap() == Voiced(Cfg(), s)
    {
      voice := Breath(Cfg(), drawn, pState.value, fState.breathinessLin, tilted);
      DrawBreath(s);
    }

    /// The breathiness draw within the open phase, which completes the voice stage of state `s`.
    method DrawBreath(ghost s: GenState)
      requires Wired() && s.pState.Some?
      requires Snap() == Voiced(Cfg(), s).(drawn := s.drawn + (if mParms.glottalSourceType == Noise then 1 else 0))
      modifies this`drawn
      ensures Snap() == Voiced(Cfg(), s)
    {
      if pState.value.positionInPeriod < pState.value.openPhaseLength {
        drawn := drawn + 1;
      }
    }

    /// `compute_cascade_branch`: voicing plus aspiration through the cascade, from the state `s`.
    method ComputeCascadeBranch(voice: real, ghost s: GenState) returns (v: real)
      requires Wired() && pState.Some? && fParms.Some? && s == Snap()
      modifies aspirationSourceCasc, aspirationSourceCasc.lpFilter, cascade.Repr
      ensures v == CascadeOutput(s.cascade, CascadeInputIn(Cfg(), s, voice))
      ensures Snap() == CascadeStepped(Cfg(), s, voice)
    {
      var cascadeVoice := voice * fState.cascadeVoicingLin;
      var currentAspirationMod := SecondHalfMod(pState.value, fParms.value.cascadeAspirationMod);
      var aspiration := aspirationSourceCasc.GetNext();
      assert Snap() == s.(aspirationCasc := NoiseNext(noise, s.aspirationCasc));
      aspiration := aspiration * fState.cascadeAspirationLin * (1.0 - currentAspirationMod);
      assert cascadeVoice + aspiration == CascadeInputIn(Cfg(), s, voice);
      v := cascade.Step(cascadeVoice + aspiration);
    }

    /// `compute_parallel_branch`: voicing plus aspiration feeds the parallel filters, frication
    /// joins the differenced source; from the state `s`.
    method ComputeParallelBranch(voice: real, ghost s: GenState) returns (v: real)
      requires Wired() && pState.Some? && fParms.Some? && s == Snap()
      modifies aspirationSourcePar, aspirationSourcePar.lpFilter, fricationSourcePar, fricationSourcePar.lpFilter
      modifies parallel.Repr
      ensures v == ParallelOutput(variant, s.parallel, ParallelSourceIn(Cfg(), s, voice), FricationIn(Cfg(), s),
                                  s.fState.parallelBypassLin)
      ensures Snap() == ParallelStepped(Cfg(), s, voice)
    {
      var source := ParallelSource(voice, s);
      v := FricatedParallel(voice, source, s);
    }

    /// The voicing and the aspiration that feed the parallel filters, from the state `s`.
    method ParallelSource(voice: real, ghost s: GenState) returns (source: real)
      requires Wired() && pState.Some? && fParms.Some? && s == Snap()
      modifies aspirationSourcePar, aspirationSourcePar.lpFilter
      ensures source == ParallelSourceIn(Cfg(), s, voice)
      ensures Snap() == s.(aspirationPar := NoiseNext(noise, s.aspirationPar))
    {
      var parallelVoice := voice * fState.parallelVoicingLin;
      var currentAspirationMod := SecondHalfMod(pState.value, fParms.value.parallelAspirationMod);
      var aspiration := aspirationSourcePar.GetNext();
      aspiration := aspiration * fState.parallelAspirationLin * (1.0 - currentAspirationMod);
      source := parallelVoice + aspiration;
    }

    /// The frication and the parallel filters once the source of the state `s` is drawn; this
    /// completes the parallel branch of `s`.
    method FricatedParallel(voice: real, source: real, ghost s: GenState) returns (v: real)
      requires Wired() && Coherent(s) && s.pState.Some? && pState == s.pState && fParms == s.fParms
      requires Snap() == s.(aspirationPar := NoiseNext(noise, s.aspirationPar))
      requires source == ParallelSourceIn(Cfg(), s, voice)
      modifies fricationSourcePar, fricationSourcePar.lpFilter, parallel.Repr
      ensures v == ParallelOutput(variant, s.parallel, ParallelSourceIn(Cfg(), s, voice), FricationIn(Cfg(), s),
                                  s.fState.parallelBypassLin)
      ensures Snap() == ParallelStepped(Cfg(), s, voice)
    {
      var currentFricationMod := SecondHalfMod(pState.value, fParms.value.fricationMod);
      var fricationNoise := fricationSourcePar.GetNext();
      fricationNoise := fricationNoise * fState.fricationLin * (1.0 - currentFricationMod);
      v := StepParallelFilters(voice, source, fricationNoise, s);
    }

    /// The parallel filters on `source` and `frication` once both are drawn from the state `s`.
    method StepParallelFilters(voice: real, source: real, frication: real, ghost s: GenState) returns (v: real)
      requires Wired() && Coherent(s) && s.pState.Some?
      requires Snap() == s.(aspirationPar := NoiseNext(noise, s.aspirationPar), frication := NoiseNext(noise, s.frication))
      requires source == ParallelSourceIn(Cfg(), s, voice) && frication == FricationIn(Cfg(), s)
      modifies parallel.Repr
      ensures v == ParallelOutput(variant, s.parallel, source, frication, s.fState.parallelBypassLin)
      ensures Snap() == ParallelStepped(Cfg(), s, voice)
    {
      v := parallel.Step(variant, source, frication, fState.parallelBypassLin);
    }

    /// The enabled branches of one sample, cascade first, from the state `s`.
    method ComputeBranches(voice: real, ghost s: GenState) returns (sum: real)
      requires Wired() && pState.Some? && fParms.Some? && s == Snap()
      modifies aspirationSourceCasc, aspirationSourceCasc.lpFilter, aspirationSourcePar, aspirationSourcePar.lpFilter
      modifies fricationSourcePar, fricationSourcePar.lpFilter, cascade.Repr, parallel.Repr
      ensures sum == BranchesIn(Cfg(), s, voice)
      ensures Snap() == BranchesStepped(Cfg(), s, voice)
    {
      var cascadeOut := 0.0;
      ghost var t := s;
      if fParms.value.cascadeEnabled {
        cascadeOut := ComputeCascadeBranch(voice, s);
        t := CascadeStepped(Cfg(), s, voice);
      }
      sum := ParallelAfterCascade(voice, cascadeOut, s, t);
    }

    /// The rest of the branches of one sample after the cascade took state `s` to `t` with
    /// output `cascadeOut`.
    method ParallelAfterCascade(voice: real, cascadeOut: real, ghost s: GenState, ghost t: GenState) returns (sum: real)
      requires Wired() && pState.Some? && fParms.Some? && Coherent(s) && s.pState.Some? && t == Snap()
      requires t == if s.fParms.value.cascadeEnabled then CascadeStepped(Cfg(), s, voice) else s
      requires cascadeOut ==
        if s.fParms.value.cascadeEnabled then CascadeOutput(s.cascade, CascadeInputIn(Cfg(), s, voice)) else 0.0
      modifies aspirationSourcePar, aspirationSourcePar.lpFilter, fricationSourcePar, fricationSourcePar.lpFilter
      modifies parallel.Repr
      ensures sum == BranchesIn(Cfg(), s, voice)
      ensures Snap() == BranchesStepped(Cfg(), s, voice)
    {
      ghost var u := if t.fParms.value.parallelEnabled then ParallelStepped(Cfg(), t, voice) else t;
      ghost var out := if t.fParms.value.parallelEnabled
        then ParallelOutput(variant, t.parallel, ParallelSourceIn(Cfg(), t, voice), FricationIn(Cfg(), t),
                            t.fState.parallelBypassLin)
        else 0.0;
      BranchesCompose(Cfg(), s, voice, t, cascadeOut, u, out);
      var parallelOut := ParallelIfEnabled(voice, t);
      sum := cascadeOut + parallelOut;
    }

    /// The parallel branch of one sample from state `t`, when the frame enables it.
    method ParallelIfEnabled(voice: real, ghost t: GenState) returns (v: real)
      requires Wired() && pState.Some? && fParms.Some? && t == Snap()
      modifies aspirationSourcePar, aspirationSourcePar.lpFilter, fricationSourcePar, fricationSourcePar.lpFilter
      modifies parallel.Repr
      ensures v == if t.fParms.value.parallelEnabled
        then ParallelOutput(variant, t.parallel, ParallelSourceIn(Cfg(), t, voice), FricationIn(Cfg(), t),
                            t.fState.parallelBypassLin)
        else 0.0
      ensures Snap() == if t.fParms.value.parallelEnabled then ParallelStepped(Cfg(), t, voice) else t
    {
      v := 0.0;
      if fParms.value.parallelEnabled {
        v := ComputeParallelBranch(voice, t);
      }
    }

    /// `compute_next_output_signal_sample`: the voice, the enabled branches, the output low-pass
    /// filter and the gain.
    method ComputeNextOutputSignalSample(ghost s: GenState) returns (out: real)
      requires Wired() && naturalSource.Valid() && Synced(0) && pState.Some? && fParms.Some? && s == Snap()
      modifies this`drawn, tiltFilter, outputLpFilter, impulsiveSource, impulsiveSource.resonator, naturalSource
      modifies aspirationSourceCasc, aspirationSourceCasc.lpFilter, aspirationSourcePar, aspirationSourcePar.lpFilter
      modifies fricationSourcePar, fricationSourcePar.lpFilter, cascade.Repr, parallel.Repr
      ensures out == SampleOf(Cfg(), s)
      ensures Snap() == Sampled(Cfg(), s)
      ensures naturalSource.Valid() && Synced(1)
    {
      var voice := NextVoice(s);
      BranchesAfterVoiced(Cfg(), s, voice);
      var sum := ComputeBranches(voice, Voiced(Cfg(), s));
      out := OutputStage(sum);
    }

    /// The output low-pass filter and the gain of the current frame.
    method OutputStage(sum: real) returns (out: real)
      requires Wired()
      modifies outputLpFilter
      ensures out == Amplified(old(outputLpFilter.State()), sum, fState.gainLin)
      ensures Snap() == old(Snap()).(outputLp := ResonatorNext(old(outputLpFilter.State()), sum))
    {
      out := outputLpFilter.Step(sum);
      out := out * fState.gainLin;
    }

    // -------------------------------------------------------------------------------------------
    // Periods and frames

    /// `start_glottal_source_period` on the state `s`: the glottal source in use starts a period
    /// with the open phase of the period state; the impulsive source fails where its resonator
    /// would.
    method StartGlottalSourcePeriod(ghost s: GenState) returns (r: Result<()>)
      requires Wired() && pState.Some? && pState.value.positionInPeriod == 0 && naturalSource.Valid()
      requires s == Snap()
      modifies impulsiveSource, impulsiveSource.resonator, naturalSource
      ensures naturalSource.Valid()
      ensures r == Outcome(GlottalStarted(Cfg(), s))
      ensures r.Ok? ==> Snap() == GlottalStarted(Cfg(), s).value && Synced(0)
    {
      var opl := pState.value.openPhaseLength;
      match mParms.glottalSourceType
      case Impulsive =>
        r := impulsiveSource.StartPeriod(variant, math, opl);
        if r.Ok? {
          UnitSuccess(r);
        }
      case Natural =>
        naturalSource.StartPeriod(variant, math, opl);
        r := Ok(());
      case Noise =>
        r := Ok(());
    }

    /// `start_new_period` on the state `s`: a pending frame becomes the active one and its
    /// parameters are put to use; then the period state is computed afresh at the current
    /// absolute position and the glottal source starts its period.
    method StartNewPeriod(ghost s: GenState) returns (r: Result<()>)
      requires Valid() && mParms.sampleRate > 0 && (newFParms.Some? || fParms.Some?) && s == Snap()
      modifies this`fParms, this`newFParms, this`fState, this`pState, tiltFilter, cascade.Repr, parallel.Repr
      modifies impulsiveSource, impulsiveSource.resonator, naturalSource
      ensures Valid() && fParms.Some?
      ensures r == Outcome(PeriodStart(Cfg(), s))
      ensures r.Ok? ==> Snap() == PeriodStart(Cfg(), s).value
    {
      if newFParms.Some? {
        r := ActivateNewFrame(s);
        if r.Err? {
          return;
        }
      }
      r := StartActivePeriod(s);
    }

    /// The second part of `start_new_period` once the frame of the state `s` is active: the
    /// period state at the current absolute position, then the glottal source's period.
    method StartActivePeriod(ghost s: GenState) returns (r: Result<()>)
      requires Wired() && naturalSource.Valid() && Coherent(s) && mParms.sampleRate > 0
      requires (s.newFParms.Some? || s.fParms.Some?) && fParms.Some?
      requires s.newFParms.Some? ==> FrameStatus(variant, math, mParms.sampleRate, s.newFParms.value).Ok?
      requires Snap() == Activated(Cfg(), s)
      modifies this`pState, impulsiveSource, impulsiveSource.resonator, naturalSource
      ensures Valid()
      ensures r == Outcome(PeriodStart(Cfg(), s))
      ensures r.Ok? ==> Snap() == PeriodStart(Cfg(), s).value
    {
      SetNewPeriod(Snap());
      r := StartGlottalSourcePeriod(Snap());
    }

    /// The period state computed afresh at the current absolute position, on the state `s`.
    method SetNewPeriod(ghost s: GenState)
      requires Wired() && fParms.Some? && mParms.sampleRate > 0 && s == Snap()
      modifies this`pState
      ensures pState == Some(NewPeriod(math, mParms.sampleRate, flutterTimeOffset, absPosition, fParms.value))
      ensures Snap() == s.(pState := pState)
    {
      pState := Some(NewPeriod(math, mParms.sampleRate, flutterTimeOffset, absPosition, fParms.value));
    }

    /// The first part of `start_new_period` on the state `s`: the pending frame becomes the
    /// active one and its parameters are put to use, which fails as `FrameStatus` says.
    method ActivateNewFrame(ghost s: GenState) returns (r: Result<()>)
      requires Wired() && newFParms.Some? && s == Snap()
      modifies this`fParms, this`newFParms, this`fState, tiltFilter, cascade.Repr, parallel.Repr
      ensures fParms == s.newFParms && newFParms.None?
      ensures r == FrameStatus(variant, math, mParms.sampleRate, s.newFParms.value)
      ensures r.Ok? ==> Snap() == Retuned(Cfg(), s, s.newFParms.value).(fParms := s.newFParms, newFParms := None)
    {
      fParms := newFParms;
      newFParms := None;
      assert Snap() == s.(fParms := s.newFParms, newFParms := None);
      r := StartUsingNewFrameParameters(s.(fParms := s.newFParms, newFParms := None));
    }

    /// `start_using_new_frame_parameters` on the state `s`: the linear levels of the active
    /// frame, the tilt filter and both branches, in the order of the source; the first setter
    /// that fails ends it, so the outcome is `FrameStatus` of the frame.
    method StartUsingNewFrameParameters(ghost s: GenState) returns (r: Result<()>)
      requires Wired() && fParms.Some? && s == Snap()
      modifies this`fState, tiltFilter, cascade.Repr, parallel.Repr
      ensures r == FrameStatus(variant, math, mParms.sampleRate, fParms.value)
      ensures r.Ok? ==> Snap() == Retuned(Cfg(), s, fParms.value)
    {
      var p := fParms.value;
      fState := fState.(breathinessLin := LinLevel(variant, math, p.breathinessDb));
      fState := fState.(gainLin := LinLevel(variant, math, p.gainDb));
      if variant == Current {
        var db := if IsFinite(p.gainDb) then p.gainDb else Fin(0.0);
        fState := fState.(gainLin := LinLevel(variant, math, db));
      }
      r := RetuneFilters(s);
    }

    /// The filters' part of `start_using_new_frame_parameters` once the levels of the state `s`
    /// are set: the tilt filter, then both branches.
    method RetuneFilters(ghost s: GenState) returns (r: Result<()>)
      requires Wired() && fParms.Some? && Snap() == Leveled(Cfg(), s, fParms.value)
      modifies this`fState, tiltFilter, cascade.Repr, parallel.Repr
      ensures r == FrameStatus(variant, math, mParms.sampleRate, fParms.value)
      ensures r.Ok? ==> Snap() == Retuned(Cfg(), s, fParms.value)
    {
      FrameStatusRejects(variant, math, mParms.sampleRate, fParms.value);
      r := RetuneTilt(Snap());
      if r.Err? {
        return;
      }
      r := RetuneBranches(s);
    }

    /// The tilt filter of the active frame, on the state `s`; the outcome is `TiltStatus`.
    method RetuneTilt(ghost s: GenState) returns (r: Result<()>)
      requires Wired() && fParms.Some? && s == Snap()
      modifies tiltFilter
      ensures r == TiltStatus(variant, math, mParms.sampleRate, fParms.value.tiltDb)
      ensures r.Ok? ==> Snap() == s.(tilt := TiltTuned(variant, math, mParms.sampleRate, s.tilt, fParms.value.tiltDb))
    {
      r := SetTiltFilter(variant, math, tiltFilter, fParms.value.tiltDb);
    }

    /// Both branches of the active frame once the levels and the tilt filter of the state `s`
    /// are set, the cascade first.
    method RetuneBranches(ghost s: GenState) returns (r: Result<()>)
      requires Wired() && fParms.Some?
      requires TiltStatus(variant, math, mParms.sampleRate, fParms.value.tiltDb).Ok?
      requires Snap() == Leveled(Cfg(), s, fParms.value).(tilt := TiltTuned(variant, math, mParms.sampleRate, s.tilt,
                                                                            fParms.value.tiltDb))
      modifies this`fState, cascade.Repr, parallel.Repr
      ensures r == FrameStatus(variant, math, mParms.sampleRate, fParms.value)
      ensures r.Ok? ==> Snap() == Retuned(Cfg(), s, fParms.value)
    {
      FrameStatusRejects(variant, math, mParms.sampleRate, fParms.value);
      ghost var t := Snap();
      r := AdjustCascadeBranch(t);
      if r.Err? {
        return;
      }
      ghost var u := Snap();
      RetunedInSteps(Cfg(), s, fParms.value, t, u);
      r := AdjustParallelBranch(u);
    }

    /// The cascade levels of the active frame and the cascade branch's filters, on the state
    /// `s`; the outcome is `CascadeStatus` of the frame.
    method AdjustCascadeBranch(ghost s: GenState) returns (r: Result<()>)
      requires Wired() && fParms.Some? && s == Snap()
      modifies this`fState, cascade.Repr
      ensures fState == s.fState.(cascadeVoicingLin := LinLevel(variant, math, fParms.value.cascadeVoicingDb),
                                  cascadeAspirationLin := LinLevel(variant, math, fParms.value.cascadeAspirationDb))
      ensures r == CascadeStatus(variant, mParms.sampleRate, fParms.value)
      ensures r.Ok? ==>
        Snap() == s.(fState := fState, cascade := CascadeTuned(variant, math, mParms.sampleRate, s.cascade, fParms.value))
    {
      var p := fParms.value;
      fState := fState.(cascadeVoicingLin := LinLevel(variant, math, p.cascadeVoicingDb),
                        cascadeAspirationLin := LinLevel(variant, math, p.cascadeAspirationDb));
      assert Snap() == s.(fState := fState);
      r := cascade.Adjust(variant, math, p);
    }

    /// The parallel levels of the active frame and the parallel branch's filters, on the state
    /// `s`; the outcome is `ParallelStatus` of the frame.
    method AdjustParallelBranch(ghost s: GenState) returns (r: Result<()>)
      requires Wired() && fParms.Some? && s == Snap()
      modifies this`fState, parallel.Repr
      ensures fState == s.fState.(parallelVoicingLin := LinLevel(variant, math, fParms.value.parallelVoicingDb),
                                  parallelAspirationLin := LinLevel(variant, math, fParms.value.parallelAspirationDb),
                                  fricationLin := LinLevel(variant, math, fParms.value.fricationDb),
                                  parallelBypassLin := LinLevel(variant, math, fParms.value.parallelBypassDb))
      ensures r == ParallelStatus(variant, math, mParms.sampleRate, fParms.value)
      ensures r.Ok? ==>
        Snap() == s.(fState := fState, parallel := ParallelTuned(variant, math, mParms.sampleRate, s.parallel, fParms.value))
    {
      var p := fParms.value;
      fState := fState.(parallelVoicingLin := LinLevel(variant, math, p.parallelVoicingDb),
                        parallelAspirationLin := LinLevel(variant, math, p.parallelAspirationDb),
                        fricationLin := LinLevel(variant, math, p.fricationDb),
                        parallelBypassLin := LinLevel(variant, math, p.parallelBypassDb));
      assert Snap() == s.(fState := fState);
      r := parallel.Adjust(variant, math, p);
    }

    /// One turn of `generate_frame`'s loop on the state `s`: a new period when none runs or the
    /// running one is over, then the sample, then the advance of both positions; it does what
    /// `SampleStep` says.
    method NextSample(ghost s: GenState) returns (r: Result<()>, out: real)
      requires Valid() && mParms.sampleRate > 0 && (newFParms.Some? || fParms.Some?) && s == Snap()
      modifies this`drawn, this`fParms, this`newFParms, this`fState, this`pState, this`absPosition
      modifies tiltFilter, outputLpFilter, impulsiveSource, impulsiveSource.resonator, naturalSource
      modifies aspirationSourceCasc, aspirationSourceCasc.lpFilter, aspirationSourcePar, aspirationSourcePar.lpFilter
      modifies fricationSourcePar, fricationSourcePar.lpFilter, cascade.Repr, parallel.Repr
      ensures Valid() && fParms.Some?
      ensures r == Outcome(SampleStep(Cfg(), s))
      ensures r.Ok? ==> (out, Snap()) == SampleStep(Cfg(), s).value
    {
      if pState.None? || pState.value.positionInPeriod >= pState.value.periodLength {
        r, out := BeginPeriod(s);
      } else {
        r := Ok(());
        out := SampleAndAdvance(s);
      }
    }

    /// A new period on the state `s`, then its first sample.
    method BeginPeriod(ghost s: GenState) returns (r: Result<()>, out: real)
      requires Valid() && mParms.sampleRate > 0 && (newFParms.Some? || fParms.Some?) && s == Snap()
      requires !PeriodRunningIn(s)
      modifies this`drawn, this`fParms, this`newFParms, this`fState, this`pState, this`absPosition
      modifies tiltFilter, outputLpFilter, impulsiveSource, impulsiveSource.resonator, naturalSource
      modifies aspirationSourceCasc, aspirationSourceCasc.lpFilter, aspirationSourcePar, aspirationSourcePar.lpFilter
      modifies fricationSourcePar, fricationSourcePar.lpFilter, cascade.Repr, parallel.Repr
      ensures Valid() && fParms.Some?
      ensures r == Outcome(SampleStep(Cfg(), s))
      ensures r.Ok? ==> (out, Snap()) == SampleStep(Cfg(), s).value
    {
      r := StartNewPeriod(s);
      if r.Err? {
        return r, 0.0;
      }
      out := SampleAndAdvance(PeriodStart(Cfg(), s).value);
    }

    /// The sample of a period that is not over on the state `s`, and the advance of both
    /// positions.
    method SampleAndAdvance(ghost s: GenState) returns (out: real)
      requires Valid() && pState.Some? && pState.value.positionInPeriod < AtLeastOne(pState.value.periodLength)
      requires s == Snap()
      modifies this`drawn, this`pState, this`absPosition
      modifies tiltFilter, outputLpFilter, impulsiveSource, impulsiveSource.resonator, naturalSource
      modifies aspirationSourceCasc, aspirationSourceCasc.lpFilter, aspirationSourcePar, aspirationSourcePar.lpFilter
      modifies fricationSourcePar, fricationSourcePar.lpFilter, cascade.Repr, parallel.Repr
      ensures Valid()
      ensures out == SampleOf(Cfg(), s)
      ensures Snap() == Advanced(Cfg(), s)
    {
      out := ComputeNextOutputSignalSample(s);
      Advance(s);
    }

    /// `position_in_period += 1` and `abs_position += 1` after the sample of the state `s`,
    /// which bring the glottal source, one sample ahead after the sample, back in step.
    method Advance(ghost s: GenState)
      requires Wired() && naturalSource.Valid() && pState.Some? && Synced(1) && fParms.Some?
      requires Coherent(s) && s.pState.Some? && Snap() == Sampled(Cfg(), s)
      requires pState.value.positionInPeriod < AtLeastOne(pState.value.periodLength)
      requires pState.value.periodLength <= 1 ==> pState.value.openPhaseLength == 0
      modifies this`pState, this`absPosition
      ensures naturalSource.Valid() && PeriodInvariant() && Synced(0)
      ensures Snap() == Advanced(Cfg(), s)
    {
      ghost var m := Snap();
      pState, absPosition := Some(pState.value.(positionInPeriod := pState.value.positionInPeriod + 1)), absPosition + 1;
      assert Snap() == m.(pState := pState, absPosition := absPosition);
    }

    /// `generate_frame` writing the frame `buf[lo..hi]` from the state `s`: the current version
    /// refuses a frame equal to the active one under the derived `PartialEq`; the frame becomes
    /// pending, every sample is computed in turn, and a frame without a given gain goes through
    /// the automatic gain control. It does what `FrameRun` says.
    method GenerateFrame(p: FrameParms, buf: array<real>, lo: nat, hi: nat, ghost s: GenState) returns (r: Result<()>)
      requires Valid() && lo <= hi <= buf.Length && buf !in cascade.Repr && buf !in parallel.Repr
      requires (lo < hi ==> mParms.sampleRate > 0) && s == Snap()
      modifies this`drawn, this`fParms, this`newFParms, this`fState, this`pState, this`absPosition
      modifies tiltFilter, outputLpFilter, impulsiveSource, impulsiveSource.resonator, naturalSource
      modifies aspirationSourceCasc, aspirationSourceCasc.lpFilter, aspirationSourcePar, aspirationSourcePar.lpFilter
      modifies fricationSourcePar, fricationSourcePar.lpFilter, cascade.Repr, parallel.Repr, buf
      ensures Valid()
      ensures buf[..lo] == old(buf[..lo]) && buf[hi..] == old(buf[hi..])
      ensures r == Outcome(FrameRun(Cfg(), s, p, hi - lo))
      ensures r.Ok? ==> buf[lo..hi] == FrameRun(Cfg(), s, p, hi - lo).value.0 && Snap() == FrameRun(Cfg(), s, p, hi - lo).value.1
      ensures Reused(Cfg(), s, p) ==> buf[..] == old(buf[..]) && Snap() == s
    {
      if variant == Current && fParms.Some? && DerivedFrameEq(fParms.value, p) {
        return Err(ReusedFrame);
      }
      SetPending(p, s);
      r := GenerateFrameSamples(p, buf, lo, hi, s);
    }

    /// The rest of `generate_frame` once the frame `p` is pending: the loop over the slice and
    /// the gain control after it.
    method GenerateFrameSamples(p: FrameParms, buf: array<real>, lo: nat, hi: nat, ghost s: GenState)
      returns (r: Result<()>)
      requires Valid() && lo <= hi <= buf.Length && buf !in cascade.Repr && buf !in parallel.Repr
      requires (lo < hi ==> mParms.sampleRate > 0) && Coherent(s) && !Reused(Cfg(), s, p)
      requires Snap() == s.(newFParms := Some(p))
      modifies this`drawn, this`fParms, this`newFParms, this`fState, this`pState, this`absPosition
      modifies tiltFilter, outputLpFilter, impulsiveSource, impulsiveSource.resonator, naturalSource
      modifies aspirationSourceCasc, aspirationSourceCasc.lpFilter, aspirationSourcePar, aspirationSourcePar.lpFilter
      modifies fricationSourcePar, fricationSourcePar.lpFilter, cascade.Repr, parallel.Repr, buf
      ensures Valid()
      ensures buf[..lo] == old(buf[..lo]) && buf[hi..] == old(buf[hi..])
      ensures r == Outcome(FrameRun(Cfg(), s, p, hi - lo))
      ensures r.Ok? ==> buf[lo..hi] == FrameRun(Cfg(), s, p, hi - lo).value.0 && Snap() == FrameRun(Cfg(), s, p, hi - lo).value.1
    {
      FrameRunOfSamples(Cfg(), s, p, hi - lo);
      r := GenerateSamples(buf, lo, hi, s.(newFParms := Some(p)));
      if r.Err? {
        return;
      }
      GainControl(p, buf, lo, hi);
    }

    /// The loop of `generate_sound` has written the first `k` frames into `buf[..pos]`: the run
    /// `whole` over all the frames is what it wrote followed by the run of the other frames from
    /// the current state. (Compared with `true`, it is checked as one fact.)
    ghost function Sounding(frames: seq<FrameParms>, k: nat, pos: nat, buf: array<real>,
                            whole: Result<(seq<real>, GenState)>): bool
      reads this, tiltFilter, outputLpFilter, impulsiveSource, impulsiveSource.resonator, naturalSource
      reads aspirationSourceCasc, aspirationSourceCasc.lpFilter, aspirationSourcePar, aspirationSourcePar.lpFilter
      reads fricationSourcePar, fricationSourcePar.lpFilter, cascade.Repr, parallel.Repr, buf
    {
      (Valid() && k <= |frames| && pos == TotalLength(frames[..k], mParms.sampleRate) <= buf.Length
       && buf !in cascade.Repr && buf !in parallel.Repr
       && whole == After(buf[..pos], SoundRun(Cfg(), Snap(), frames[k..]))) == true
    }

    /// One turn of the loop of `generate_sound`: `generate_frame` for frame `k` into the slice
    /// of `buf` that follows the frames before it, ending at `next`.
    method EmitFrame(frames: seq<FrameParms>, k: nat, pos: nat, buf: array<real>,
                     ghost whole: Result<(seq<real>, GenState)>)
      returns (r: Result<()>, next: nat)
      requires k < |frames| && buf.Length == TotalLength(frames, mParms.sampleRate)
      requires Sounding(frames, k, pos, buf, whole)
      modifies this`drawn, this`fParms, this`newFParms, this`fState, this`pState, this`absPosition
      modifies tiltFilter, outputLpFilter, impulsiveSource, impulsiveSource.resonator, naturalSource
      modifies aspirationSourceCasc, aspirationSourceCasc.lpFilter, aspirationSourcePar, aspirationSourcePar.lpFilter
      modifies fricationSourcePar, fricationSourcePar.lpFilter, cascade.Repr, parallel.Repr, buf
      ensures r.Err? ==> Valid() && whole == Err(r.error)
      ensures r.Ok? ==> Sounding(frames, k + 1, next, buf, whole)
    {
      next := pos;
      var sampleRate := mParms.sampleRate;
      FrameWithinSound(frames, k, sampleRate);
      var len := FrameLength(frames[k], sampleRate);
      ghost var t := Snap();
      ghost var before := buf[..pos];
      var hi := pos + len;
      SoundRunAdvances(Cfg(), t, frames, k, hi - pos, before, whole);
      r := FrameAfter(frames, k, pos, hi, buf, whole, before, t);
      next := hi;
    }

    /// `generate_frame` for frame `k` into `buf[pos..hi]` from the state `s`, where `whole` is
    /// what the frames before it wrote followed by this frame's run and the run of the frames
    /// after it.
    method FrameAfter(frames: seq<FrameParms>, k: nat, pos: nat, hi: nat, buf: array<real>,
                      ghost whole: Result<(seq<real>, GenState)>, ghost before: seq<real>, ghost s: GenState)
      returns (r: Result<()>)
      requires Valid() && k < |frames| && buf.Length == TotalLength(frames, mParms.sampleRate)
      requires buf !in cascade.Repr && buf !in parallel.Repr && s == Snap()
      requires pos == TotalLength(frames[..k], mParms.sampleRate)
      requires hi == pos + FrameLength(frames[k], mParms.sampleRate) && hi <= buf.Length
      requires hi > pos ==> mParms.sampleRate > 0
      requires buf[..pos] == before
      requires FrameRun(Cfg(), s, frames[k], hi - pos).Err? ==> whole == Err(FrameRun(Cfg(), s, frames[k], hi - pos).error)
      requires FrameRun(Cfg(), s, frames[k], hi - pos).Ok? ==>
        whole == After(before + FrameRun(Cfg(), s, frames[k], hi - pos).value.0,
                       SoundRun(Cfg(), FrameRun(Cfg(), s, frames[k], hi - pos).value.1, frames[k + 1..]))
      modifies this`drawn, this`fParms, this`newFParms, this`fState, this`pState, this`absPosition
      modifies tiltFilter, outputLpFilter, impulsiveSource, impulsiveSource.resonator, naturalSource
      modifies aspirationSourceCasc, aspirationSourceCasc.lpFilter, aspirationSourcePar, aspirationSourcePar.lpFilter
      modifies fricationSourcePar, fricationSourcePar.lpFilter, cascade.Repr, parallel.Repr, buf
      ensures r.Err? ==> Valid() && whole == Err(r.error)
      ensures r.Ok? ==> Sounding(frames, k + 1, hi, buf, whole)
    {
      r := GenerateFrame(frames[k], buf, pos, hi, s);
      if r.Err? {
        return;
      }
      SoundingNext(frames, k, pos, hi, buf, whole, before);
    }

    /// Frame `k`'s output in `buf[pos..next]` after what was written before it extends the
    /// loop's invariant by one frame.
    lemma SoundingNext(frames: seq<FrameParms>, k: nat, pos: nat, next: nat, buf: array<real>,
                       whole: Result<(seq<real>, GenState)>, before: seq<real>)
      requires Valid() && k < |frames| && buf.Length == TotalLength(frames, mParms.sampleRate)
      requires buf !in cascade.Repr && buf !in parallel.Repr
      requires pos == TotalLength(frames[..k], mParms.sampleRate)
      requires next == pos + FrameLength(frames[k], mParms.sampleRate) && next <= buf.Length
      requires buf[..pos] == before
      requires whole == After(before + buf[pos..next], SoundRun(Cfg(), Snap(), frames[k + 1..]))
      ensures Sounding(frames, k + 1, next, buf, whole)
    {
      FrameWithinSound(frames, k, mParms.sampleRate);
      PrefixSplit(buf[..], pos, next);
    }

    /// `self.new_f_parms = Some(f_parms)`: the frame `p` becomes pending.
    method SetPending(p: FrameParms, ghost s: GenState)
      requires Wired() && s == Snap()
      modifies this`newFParms
      ensures newFParms == Some(p) && Snap() == s.(newFParms := Some(p))
    {
      newFParms := Some(p);
    }

    /// The end of `generate_frame`: a frame without a given gain goes through the automatic
    /// gain control; the generator itself is left as it is.
    method GainControl(p: FrameParms, buf: array<real>, lo: nat, hi: nat)
      requires Valid() && lo <= hi <= buf.Length && buf !in cascade.Repr && buf !in parallel.Repr
      modifies buf
      ensures Valid() && Snap() == old(Snap())
      ensures buf[..lo] == old(buf[..lo]) && buf[hi..] == old(buf[hi..])
      ensures buf[lo..hi] == FrameOutput(math, p, old(buf[lo..hi]))
    {
      if IsNaN(p.gainDb) {
        AdjustSignalGain(math, buf, lo, hi, Val(p.agcRmsLevel));
      }
      Untouched();
    }

    /// The loop of `generate_frame` has filled `buf[lo..i]` of `buf[lo..hi]`, leaving the rest
    /// of `buf` as `before` and `beyond`: the run `whole` from the frame's start is what it
    /// wrote followed by the run from the current state. (Compared with `true`, it is checked as
    /// one fact.)
    ghost function Emitting(buf: array<real>, lo: nat, i: nat, hi: nat, whole: Result<(seq<real>, GenState)>,
                            before: seq<real>, beyond: seq<real>): bool
      reads this, tiltFilter, outputLpFilter, impulsiveSource, impulsiveSource.resonator, naturalSource
      reads aspirationSourceCasc, aspirationSourceCasc.lpFilter, aspirationSourcePar, aspirationSourcePar.lpFilter
      reads fricationSourcePar, fricationSourcePar.lpFilter, cascade.Repr, parallel.Repr, buf
    {
      (Valid() && lo <= i <= hi <= buf.Length && buf !in cascade.Repr && buf !in parallel.Repr
       && (i < hi ==> mParms.sampleRate > 0) && (newFParms.Some? || fParms.Some?)
       && buf[..lo] == before && buf[hi..] == beyond
       && whole == After(buf[lo..i], Samples(Cfg(), Snap(), hi - i))) == true
    }

    /// The loop of `generate_frame` over `buf[lo..hi]` from the state `s`, with a frame pending
    /// or active; it does what `Samples` says.
    method GenerateSamples(buf: array<real>, lo: nat, hi: nat, ghost s: GenState) returns (r: Result<()>)
      requires Valid() && lo <= hi <= buf.Length && buf !in cascade.Repr && buf !in parallel.Repr
      requires lo < hi ==> mParms.sampleRate > 0
      requires (newFParms.Some? || fParms.Some?) && s == Snap()
      modifies this`drawn, this`fParms, this`newFParms, this`fState, this`pState, this`absPosition
      modifies tiltFilter, outputLpFilter, impulsiveSource, impulsiveSource.resonator, naturalSource
      modifies aspirationSourceCasc, aspirationSourceCasc.lpFilter, aspirationSourcePar, aspirationSourcePar.lpFilter
      modifies fricationSourcePar, fricationSourcePar.lpFilter, cascade.Repr, parallel.Repr, buf
      ensures Valid()
      ensures buf[..lo] == old(buf[..lo]) && buf[hi..] == old(buf[hi..])
      ensures r == Outcome(Samples(Cfg(), s, hi - lo))
      ensures r.Ok? ==> buf[lo..hi] == Samples(Cfg(), s, hi - lo).value.0 && Snap() == Samples(Cfg(), s, hi - lo).value.1
    {
      ghost var whole := Samples(Cfg(), s, hi - lo);
      AfterNothing(buf[lo..lo], whole);
      r := SampleLoop(buf, lo, hi, whole, buf[..lo], buf[hi..]);
      if r.Ok? {
        AfterEmpty(buf[lo..hi], Snap());
        UnitSuccess(r);
      }
    }

    /// The loop itself, from `Emitting` with nothing written to `Emitting` with all written,
    /// unless a sample fails, when `whole` is that error.
    method SampleLoop(buf: array<real>, lo: nat, hi: nat, ghost whole: Result<(seq<real>, GenState)>,
                      ghost before: seq<real>, ghost beyond: seq<real>)
      returns (r: Result<()>)
      requires Emitting(buf, lo, lo, hi, whole, before, beyond)
      modifies this`drawn, this`fParms, this`newFParms, this`fState, this`pState, this`absPosition
      modifies tiltFilter, outputLpFilter, impulsiveSource, impulsiveSource.resonator, naturalSource
      modifies aspirationSourceCasc, aspirationSourceCasc.lpFilter, aspirationSourcePar, aspirationSourcePar.lpFilter
      modifies fricationSourcePar, fricationSourcePar.lpFilter, cascade.Repr, parallel.Repr, buf
      ensures r.Err? ==> Valid() && buf[..lo] == before && buf[hi..] == beyond && whole == Err(r.error)
      ensures r.Ok? ==> Emitting(buf, lo, hi, hi, whole, before, beyond)
    {
      var i := lo;
      while i < hi
        invariant i <= hi && Emitting(buf, lo, i, hi, whole, before, beyond)
      {
        r := EmitSample(buf, lo, i, hi, whole, before, beyond);
        if r.Err? {
          return;
        }
        i := i + 1;
      }
      r := Ok(());
    }

    /// One turn of the loop of `generate_frame`, with the sample stored at `buf[i]`: the run
    /// `whole` from the frame's start is the samples so far followed by the rest.
    method EmitSample(buf: array<real>, lo: nat, i: nat, hi: nat, ghost whole: Result<(seq<real>, GenState)>,
                      ghost before: seq<real>, ghost beyond: seq<real>)
      returns (r: Result<()>)
      requires i < hi && Emitting(buf, lo, i, hi, whole, before, beyond)
      modifies this`drawn, this`fParms, this`newFParms, this`fState, this`pState, this`absPosition
      modifies tiltFilter, outputLpFilter, impulsiveSource, impulsiveSource.resonator, naturalSource
      modifies aspirationSourceCasc, aspirationSourceCasc.lpFilter, aspirationSourcePar, aspirationSourcePar.lpFilter
      modifies fricationSourcePar, fricationSourcePar.lpFilter, cascade.Repr, parallel.Repr, buf
      ensures r.Err? ==> Valid() && buf[..lo] == before && buf[hi..] == beyond && whole == Err(r.error)
      ensures r.Ok? ==> Emitting(buf, lo, i + 1, hi, whole, before, beyond)
    {
      ghost var s := Snap();
      var out;
      r, out := NextSample(s);
      if r.Err? {
        return;
      }
      ghost var rest := Samples(Cfg(), Snap(), hi - (i + 1));
      assert Samples(Cfg(), s, hi - i) == After([out], rest);
      StoreSample(buf, lo, i, hi, out, whole, rest);
    }

    /// The sample `out` stored at `buf[i]`, the generator untouched: the run `whole` is the
    /// samples up to `i` followed by `rest`.
    method StoreSample(buf: array<real>, lo: nat, i: nat, hi: nat, out: real,
                       ghost whole: Result<(seq<real>, GenState)>, ghost rest: Result<(seq<real>, GenState)>)
      requires Valid() && lo <= i < hi <= buf.Length && buf !in cascade.Repr && buf !in parallel.Repr
      requires whole == After(buf[lo..i], After([out], rest))
      modifies buf
      ensures Valid() && Snap() == old(Snap())
      ensures buf[..lo] == old(buf[..lo]) && buf[hi..] == old(buf[hi..])
      ensures whole == After(buf[lo..i + 1], rest)
    {
      ghost var prefix := buf[lo..i];
      Store(buf, lo, i, hi, out);
      Untouched();
      AfterAfter(prefix, [out], rest);
    }

    /// Only the draws and the glottal sources moved: the rest of the state is as it was.
    twostate lemma GlottalMoved()
      requires Wired()
      requires fParms == old(fParms) && newFParms == old(newFParms) && fState == old(fState)
      requires pState == old(pState) && absPosition == old(absPosition)
      requires unchanged(tiltFilter, outputLpFilter, aspirationSourceCasc, aspirationSourceCasc.lpFilter)
      requires unchanged(aspirationSourcePar, aspirationSourcePar.lpFilter, fricationSourcePar, fricationSourcePar.lpFilter)
      requires unchanged(cascade.Repr) && unchanged(parallel.Repr)
      ensures Snap() == old(Snap()).(drawn := drawn, impulsive := ImpulsiveNow(), natural := NaturalNow())
    {
    }

    /// A step that touches none of the generator's objects leaves its state and its invariant
    /// as they were.
    twostate lemma Untouched()
      requires Wired() && old(Valid())
      requires unchanged(this, tiltFilter, outputLpFilter, impulsiveSource, impulsiveSource.resonator, naturalSource)
      requires unchanged(aspirationSourceCasc, aspirationSourceCasc.lpFilter, aspirationSourcePar)
      requires unchanged(aspirationSourcePar.lpFilter, fricationSourcePar, fricationSourcePar.lpFilter)
      requires unchanged(cascade.Repr) && unchanged(parallel.Repr)
      ensures Valid() && Snap() == old(Snap())
    {
    }
  }

  /// The first `j` elements are the first `i` followed by those from `i` to `j`.
  lemma PrefixSplit(a: seq<real>, i: nat, j: nat)
    requires i <= j <= |a|
    ensures a[..j] == a[..i] + a[i..j]
  {
  }

  /// `buf[i] = x`: the slice from `lo` grows by `x`, the rest of the buffer is as it was.
  method Store(buf: array<real>, lo: nat, i: nat, hi: nat, x: real)
    requires lo <= i < hi <= buf.Length
    modifies buf
    ensures buf[lo..i + 1] == old(buf[lo..i]) + [x]
    ensures buf[..lo] == old(buf[..lo]) && buf[hi..] == old(buf[hi..])
  {
    buf[i] := x;
  }

  // ---------------------------------------------------------------------------------------------
  // The whole sound

  /// Σ `duration * sample_rate` over the frames: the number of samples of the sound.
  function TotalLength(frames: seq<FrameParms>, sampleRate: nat): nat
  {
    if |frames| == 0 then 0
    else TotalLength(frames[..|frames| - 1], sampleRate) + FrameLength(frames[|frames| - 1], sampleRate)
  }

  /// The samples of consecutive runs of frames lie one after the other.
  lemma {:induction false} TotalLengthOfConcat(a: seq<FrameParms>, b: seq<FrameParms>, sampleRate: nat)
    ensures TotalLength(a + b, sampleRate) == TotalLength(a, sampleRate) + TotalLength(b, sampleRate)
  {
    if |b| == 0 {
      assert a + b == a;
    } else {
      assert (a + b)[..|a + b| - 1] == a + b[..|b| - 1];
      TotalLengthOfConcat(a, b[..|b| - 1], sampleRate);
    }
  }

  /// The frames up to `k` end where frame `k` starts, and frame `k` ends within the sound.
  lemma FrameWithinSound(frames: seq<FrameParms>, k: nat, sampleRate: nat)
    requires k < |frames|
    ensures TotalLength(frames[..k + 1], sampleRate)
            == TotalLength(frames[..k], sampleRate) + FrameLength(frames[k], sampleRate)
    ensures TotalLength(frames[..k + 1], sampleRate) <= TotalLength(frames, sampleRate)
  {
    assert frames[..k + 1][..k] == frames[..k];
    assert frames == frames[..k + 1] + frames[k + 1..];
    TotalLengthOfConcat(frames[..k + 1], frames[k + 1..], sampleRate);
  }

  /// `generate_sound`: a new generator, a buffer of `TotalLength` samples, and every frame in
  /// turn generated into its own slice of the buffer; the first error ends it. It does what
  /// `SoundOf` says.
  method GenerateSound(variant: Variant, math: MathLib, mParms: MainParms, frames: seq<FrameParms>,
                       noise: Noise, flutterTimeOffset: nat)
    returns (r: Result<seq<real>>)
    requires flutterTimeOffset <= 1000
    ensures r == SoundOf(variant, math, mParms, frames, noise, flutterTimeOffset)
  {
    var g := Generator.New(variant, math, mParms, noise, flutterTimeOffset);
    if g.Err? {
      SoundOfRejected(variant, math, mParms, frames, noise, flutterTimeOffset);
      return Err(g.error);
    }
    var gen := g.value;
    SoundOfRun(variant, math, mParms, frames, noise, flutterTimeOffset, gen.Cfg(), gen.Snap());
    r := SoundFrom(gen, frames, gen.Snap());
  }

  /// The rest of `generate_sound` once the generator `gen` is made in the state `s`: a buffer of
  /// `TotalLength` samples, and every frame in turn generated into its own slice of it.
  method SoundFrom(gen: Generator, frames: seq<FrameParms>, ghost s: GenState) returns (r: Result<seq<real>>)
    requires gen.Valid() && gen.Inventory() && s == gen.Snap()
    modifies gen, gen.tiltFilter, gen.outputLpFilter, gen.impulsiveSource, gen.impulsiveSource.resonator
    modifies gen.naturalSource, gen.aspirationSourceCasc, gen.aspirationSourceCasc.lpFilter
    modifies gen.aspirationSourcePar, gen.aspirationSourcePar.lpFilter, gen.fricationSourcePar
    modifies gen.fricationSourcePar.lpFilter, gen.cascade.Repr, gen.parallel.Repr
    ensures var run := SoundRun(gen.Cfg(), s, frames); r == if run.Ok? then Ok(run.value.0) else Err(run.error)
  {
    var total := SoundLength(frames, gen.mParms.sampleRate);
    var buf := new real[total](_ => 0.0);
    var res := GenerateFrames(gen, frames, buf, s);
    if res.Err? {
      return Err(res.error);
    }
    return Ok(buf[..]);
  }

  /// The first loop of `generate_sound`: the number of samples of the sound.
  method SoundLength(frames: seq<FrameParms>, sampleRate: nat) returns (total: nat)
    ensures total == TotalLength(frames, sampleRate)
  {
    total := 0;
    for k := 0 to |frames|
      invariant total == TotalLength(frames[..k], sampleRate)
    {
      assert frames[..k + 1][..k] == frames[..k];
      total := total + FrameLength(frames[k], sampleRate);
    }
    assert frames[..|frames|] == frames;
  }

  /// One frame of `SoundRun`: the frame's run, then the rest from where it ends.
  lemma SoundRunStep(c: Config, s: GenState, frames: seq<FrameParms>)
    requires Coherent(s) && |frames| > 0
    ensures FrameLength(frames[0], c.mParms.sampleRate) > 0 ==> c.mParms.sampleRate > 0
    ensures var run := FrameRun(c, s, frames[0], FrameLength(frames[0], c.mParms.sampleRate));
      SoundRun(c, s, frames)
      == if run.Err? then Err(run.error) else After(run.value.0, SoundRun(c, run.value.1, frames[1..]))
  {
    FrameLengthNeedsRate(frames[0], c.mParms.sampleRate);
  }

  /// Only a positive sample rate gives a frame samples.
  lemma FrameLengthNeedsRate(f: FrameParms, sampleRate: nat)
    ensures FrameLength(f, sampleRate) > 0 ==> sampleRate > 0
  {
    if sampleRate == 0 {
      assert f.duration * sampleRate == 0;
    }
  }

  /// Frame `k` of a sound run: when its `FrameRun` fails the whole run fails with its error,
  /// otherwise its output follows what was written before and the other frames run on from
  /// the state it leaves.
  lemma SoundRunAdvances(c: Config, t: GenState, frames: seq<FrameParms>, k: nat, n: nat, before: seq<real>,
                         whole: Result<(seq<real>, GenState)>)
    requires Coherent(t) && k < |frames| && n == FrameLength(frames[k], c.mParms.sampleRate)
    requires whole == After(before, SoundRun(c, t, frames[k..]))
    ensures n > 0 ==> c.mParms.sampleRate > 0
    ensures var run := FrameRun(c, t, frames[k], n);
      (run.Err? ==> whole == Err(run.error))
      && (run.Ok? ==> whole == After(before + run.value.0, SoundRun(c, run.value.1, frames[k + 1..])))
  {
    assert frames[k..][0] == frames[k] && frames[k..][1..] == frames[k + 1..];
    SoundRunStep(c, t, frames[k..]);
    var run := FrameRun(c, t, frames[k], n);
    if run.Ok? {
      AfterAfter(before, run.value.0, SoundRun(c, run.value.1, frames[k + 1..]));
    }
  }

  /// The second loop of `generate_sound`: frame after frame from the state `s` into consecutive
  /// slices of `buf`; it does what `SoundRun` says.
  method GenerateFrames(gen: Generator, frames: seq<FrameParms>, buf: array<real>, ghost s: GenState)
    returns (r: Result<()>)
    requires gen.Valid() && buf.Length == TotalLength(frames, gen.mParms.sampleRate)
    requires buf !in gen.cascade.Repr && buf !in gen.parallel.Repr && s == gen.Snap()
    modifies gen, gen.tiltFilter, gen.outputLpFilter, gen.impulsiveSource, gen.impulsiveSource.resonator
    modifies gen.naturalSource, gen.aspirationSourceCasc, gen.aspirationSourceCasc.lpFilter
    modifies gen.aspirationSourcePar, gen.aspirationSourcePar.lpFilter, gen.fricationSourcePar
    modifies gen.fricationSourcePar.lpFilter, gen.cascade.Repr, gen.parallel.Repr, buf
    ensures gen.Valid()
    ensures r == Outcome(SoundRun(gen.Cfg(), s, frames))
    ensures r.Ok? ==> buf[..] == SoundRun(gen.Cfg(), s, frames).value.0 && gen.Snap() == SoundRun(gen.Cfg(), s, frames).value.1
  {
    ghost var whole := SoundRun(gen.Cfg(), s, frames);
    assert frames[0..] == frames && frames[..0] == [];
    AfterNothing(buf[..0], whole);
    var pos: nat := 0;
    for k := 0 to |frames|
      invariant gen.Sounding(frames, k, pos, buf, whole)
    {
      r, pos := gen.EmitFrame(frames, k, pos, buf, whole);
      if r.Err? {
        return;
      }
    }
    assert frames[|frames|..] == [] && frames[..|frames|] == frames && buf[..pos] == buf[..];
    AfterEmpty(buf[..], gen.Snap());
    r := Ok(());
  }

}
