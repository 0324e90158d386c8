/// Sound and frame parameters, the derived per-frame and per-period values, and the small pure
/// rules that turn parameters into linear levels, a modulated F0 and period lengths.
module Params {
  import opened Float64

  datatype GlottalSourceType = Impulsive | Natural | Noise

  /// Which version of the generator is modelled: the validated `klatt/src/klatt.rs` or the earlier
  /// unvalidated `src/lib.rs`.
  datatype Variant = Current | Snapshot

  const MAX_ORAL_FORMANTS: nat := 6

  /// Parameters for the whole sound.
  datatype MainParms = MainParms(sampleRate: nat, glottalSourceType: GlottalSourceType)

  /// Parameters for one frame. Every `f64` field keeps its NaN and infinities, since the
  /// generator tests them (`gain_db` NaN selects automatic gain control, a non-finite formant
  /// frequency disables the formant).
  datatype FrameParms = FrameParms(
    duration: nat,
    f0: F64,
    flutterLevel: F64,
    openPhaseRatio: F64,
    breathinessDb: F64,
    tiltDb: F64,
    gainDb: F64,
    agcRmsLevel: F64,
    nasalFormantFreq: F64,
    nasalFormantBw: F64,
    oralFormantFreq: seq<F64>,
    oralFormantBw: seq<F64>,
    // cascade branch
    cascadeEnabled: bool,
    cascadeVoicingDb: F64,
    cascadeAspirationDb: F64,
    cascadeAspirationMod: F64,
    nasalAntiformantFreq: F64,
    nasalAntiformantBw: F64,
    // parallel branch
    parallelEnabled: bool,
    parallelVoicingDb: F64,
    parallelAspirationDb: F64,
    parallelAspirationMod: F64,
    fricationDb: F64,
    fricationMod: F64,
    parallelBypassDb: F64,
    nasalFormantDb: F64,
    oralFormantDb: seq<F64>)

  /// Linear levels of the active frame.
  datatype FrameState = FrameState(
    breathinessLin: real,
    gainLin: real,
    cascadeVoicingLin: real,
    cascadeAspirationLin: real,
    parallelVoicingLin: real,
    parallelAspirationLin: real,
    fricationLin: real,
    parallelBypassLin: real)

  const InitialFrameState := FrameState(0.0, 0.0, 0.0, 0.0, 0.0, 0.0, 0.0, 0.0)

  /// State of the active F0 period.
  datatype PeriodState = PeriodState(
    f0: F64,
    periodLength: nat,
    openPhaseLength: nat,
    positionInPeriod: nat)

  // ---------------------------------------------------------------------------------------------
  // Frame equality (the re-use check)

  /// Element-wise IEEE equality of two `Vec<f64>`.
  predicate SeqEq(s: seq<F64>, t: seq<F64>)
  {
    |s| == |t| && forall i :: 0 <= i < |s| ==> Eq(s[i], t[i])
  }

  /// The derived `PartialEq` of `FrameParms`: every field compared with `==`, so a NaN field makes
  /// two frames unequal.
  predicate DerivedFrameEq(p: FrameParms, q: FrameParms)
  {
    p.duration == q.duration && Eq(p.f0, q.f0) && Eq(p.flutterLevel, q.flutterLevel)
    && Eq(p.openPhaseRatio, q.openPhaseRatio) && Eq(p.breathinessDb, q.breathinessDb)
    && Eq(p.tiltDb, q.tiltDb) && Eq(p.gainDb, q.gainDb) && Eq(p.agcRmsLevel, q.agcRmsLevel)
    && Eq(p.nasalFormantFreq, q.nasalFormantFreq) && Eq(p.nasalFormantBw, q.nasalFormantBw)
    && SeqEq(p.oralFormantFreq, q.oralFormantFreq) && SeqEq(p.oralFormantBw, q.oralFormantBw)
    && p.cascadeEnabled == q.cascadeEnabled && Eq(p.cascadeVoicingDb, q.cascadeVoicingDb)
    && Eq(p.cascadeAspirationDb, q.cascadeAspirationDb)
    && Eq(p.cascadeAspirationMod, q.cascadeAspirationMod)
    && Eq(p.nasalAntiformantFreq, q.nasalAntiformantFreq)
    && Eq(p.nasalAntiformantBw, q.nasalAntiformantBw)
    && p.parallelEnabled == q.parallelEnabled && Eq(p.parallelVoicingDb, q.parallelVoicingDb)
    && Eq(p.parallelAspirationDb, q.parallelAspirationDb)
    && Eq(p.parallelAspirationMod, q.parallelAspirationMod)
    && Eq(p.fricationDb, q.fricationDb) && Eq(p.fricationMod, q.fricationMod)
    && Eq(p.parallelBypassDb, q.parallelBypassDb) && Eq(p.nasalFormantDb, q.nasalFormantDb)
    && SeqEq(p.oralFormantDb, q.oralFormantDb)
  }

  /// A frame whose `gain_db` is NaN (automatic gain control) is not equal to itself under the
  /// derived equality, so handing the same frame in twice slips past the re-use check.
  lemma DerivedFrameEqMissesAgcFrames(p: FrameParms)
    requires IsNaN(p.gainDb)
    ensures !DerivedFrameEq(p, p)
  {
  }

  /// The re-use check the generator is meant to make: the same frame again, compared bit for bit.
  predicate IsReusedFrame(active: FrameParms, p: FrameParms)
  {
    active == p
  }

  /// The intended check agrees with the derived equality on frames without NaN fields and, unlike
  /// it, recognises every frame as equal to itself.
  lemma ReuseCheckRefinesDerivedEq(p: FrameParms, q: FrameParms)
    ensures DerivedFrameEq(p, q) ==> IsReusedFrame(p, q)
    ensures IsReusedFrame(p, p)
  {
    if DerivedFrameEq(p, q) {
      EqIsIdentity(p.f0, q.f0);
      SeqEqIsIdentity(p.oralFormantFreq, q.oralFormantFreq);
      SeqEqIsIdentity(p.oralFormantBw, q.oralFormantBw);
      SeqEqIsIdentity(p.oralFormantDb, q.oralFormantDb);
    }
  }

  lemma EqIsIdentity(x: F64, y: F64)
    requires Eq(x, y)
    ensures x == y
  {
  }

  lemma SeqEqIsIdentity(s: seq<F64>, t: seq<F64>)
    requires SeqEq(s, t)
    ensures s == t
  {
    forall i | 0 <= i < |s|
      ensures s[i] == t[i]
    {
      EqIsIdentity(s[i], t[i]);
    }
  }

  // ---------------------------------------------------------------------------------------------
  // Levels

  /// `db_to_lin`: dB values of -99 and below, and NaN, become 0; otherwise `10^(db/20)`.
  function DbToLin(math: MathLib, db: F64): (r: F64)
    ensures Le(db, Fin(-99.0)) || IsNaN(db) ==> r == Fin(0.0)
    ensures db.Fin? && db.v > -99.0 ==> r == Fin(math.pow(10.0, db.v / 20.0))
    ensures db == Inf(true) ==> r == Inf(true)
    ensures !IsNaN(r)
  {
    if Le(db, Fin(-99.0)) || IsNaN(db) then Fin(0.0)
    else if db.Fin? then Fin(math.pow(10.0, db.v / 20.0))
    else db
  }

  /// `db_to_lin` of the snapshot: its NaN test `db == f64::NAN` never holds, so NaN flows on into
  /// `powf` and comes out as NaN.
  function SnapshotDbToLin(math: MathLib, db: F64): (r: F64)
    ensures IsNaN(db) <==> IsNaN(r)
  {
    if Le(db, Fin(-99.0)) || Eq(db, NaN) then Fin(0.0)
    else if db.Fin? then Fin(math.pow(10.0, db.v / 20.0))
    else db
  }

  /// The two versions of `db_to_lin` agree everywhere except on NaN, which the current one maps
  /// to 0 and the snapshot passes through.
  lemma DbToLinVersionsAgree(math: MathLib, db: F64)
    ensures !IsNaN(db) ==> DbToLin(math, db) == SnapshotDbToLin(math, db)
    ensures IsNaN(db) ==> DbToLin(math, db) == Fin(0.0) && IsNaN(SnapshotDbToLin(math, db))
  {
  }

  /// `db_to_lin` of the given version.
  function DbToLinOf(variant: Variant, math: MathLib, db: F64): F64
  {
    if variant == Current then DbToLin(math, db) else SnapshotDbToLin(math, db)
  }

  /// The linear level a dB parameter contributes to the signal path.
  function LinLevel(variant: Variant, math: MathLib, db: F64): real
  {
    Val(DbToLinOf(variant, math, db))
  }

  /// Linear levels of a frame, as `start_using_new_frame_parameters` computes them. The current
  /// version takes the gain from a finite `gain_db` only, using 0 dB otherwise.
  function FrameStateOf(variant: Variant, math: MathLib, p: FrameParms): (s: FrameState)
    ensures variant == Current && !IsFinite(p.gainDb) ==> s.gainLin == Val(DbToLin(math, Fin(0.0)))
    ensures IsFinite(p.gainDb) ==> s.gainLin == LinLevel(variant, math, p.gainDb)
    ensures s.cascadeVoicingLin == LinLevel(variant, math, p.cascadeVoicingDb)
    ensures s.parallelVoicingLin == LinLevel(variant, math, p.parallelVoicingDb)
  {
    FrameState(
      breathinessLin := LinLevel(variant, math, p.breathinessDb),
      gainLin :=
        if variant == Current then
          LinLevel(variant, math, if IsFinite(p.gainDb) then p.gainDb else Fin(0.0))
        else LinLevel(variant, math, p.gainDb),
      cascadeVoicingLin := LinLevel(variant, math, p.cascadeVoicingDb),
      cascadeAspirationLin := LinLevel(variant, math, p.cascadeAspirationDb),
      parallelVoicingLin := LinLevel(variant, math, p.parallelVoicingDb),
      parallelAspirationLin := LinLevel(variant, math, p.parallelAspirationDb),
      fricationLin := LinLevel(variant, math, p.fricationDb),
      parallelBypassLin := LinLevel(variant, math, p.parallelBypassDb))
  }

  /// Entry `i` of a per-formant vector, or NaN past its end.
  function FormantField(s: seq<F64>, i: nat): (r: F64)
    ensures i < |s| ==> r == s[i]
    ensures i >= |s| ==> IsNaN(r)
  {
    if i < |s| then s[i] else NaN
  }

  // ---------------------------------------------------------------------------------------------
  // F0 flutter and period lengths

  /// Sum of the three flutter sines at time `time` (seconds).
  function FlutterWave(math: MathLib, time: real): real
  {
    var w := 2.0 * PI * time;
    math.sin(12.7 * w) + math.sin(7.1 * w) + math.sin(4.7 * w)
  }

  /// `perform_frequency_modulation`: F0 scaled by `1 + wave * flutter_level / 50`; a flutter level
  /// of 0 or below leaves F0 as it is.
  function PerformFrequencyModulation(math: MathLib, f0: F64, flutterLevel: F64, time: real): (r: F64)
    ensures Le(flutterLevel, Fin(0.0)) ==> r == f0
    ensures IsNaN(f0) || IsNaN(flutterLevel) ==> IsNaN(r)
  {
    if Le(flutterLevel, Fin(0.0)) then f0
    else Mul(f0, Add(Fin(1.0), Div(Mul(Fin(FlutterWave(math, time)), flutterLevel), Fin(50.0))))
  }

  function AbsReal(x: real): real { if x < 0.0 then -x else x }

  /// The flutter deviates F0 by at most `6% * flutter_level`, given sines bounded by 1.
  lemma FlutterDeviationBounded(math: MathLib, f0: real, flutterLevel: real, time: real)
    requires forall t :: -1.0 <= math.sin(t) <= 1.0
    requires flutterLevel > 0.0
    ensures PerformFrequencyModulation(math, Fin(f0), Fin(flutterLevel), time).Fin?
    ensures var d := PerformFrequencyModulation(math, Fin(f0), Fin(flutterLevel), time).v - f0;
      -(AbsReal(f0) * 3.0 * flutterLevel / 50.0) <= d <= AbsReal(f0) * 3.0 * flutterLevel / 50.0
  {
    var a := FlutterWave(math, time);
    var w := 2.0 * PI * time;
    assert -1.0 <= math.sin(12.7 * w) <= 1.0;
    assert -1.0 <= math.sin(7.1 * w) <= 1.0;
    assert -1.0 <= math.sin(4.7 * w) <= 1.0;
    var u := 3.0 * flutterLevel;
    var m := a * flutterLevel;
    ScaledBound(flutterLevel, a, 3.0);
    assert -u <= m <= u;
    var r := f0 * (1.0 + m / 50.0);
    assert PerformFrequencyModulation(math, Fin(f0), Fin(flutterLevel), time) == Fin(r);
    ScaledBound(f0, m, u);
    DeviationIsScaled(f0, m);
  }

  lemma DeviationIsScaled(f0: real, m: real)
    ensures f0 * (1.0 + m / 50.0) - f0 == f0 * m / 50.0
  {
  }

  /// `|x * m| <= |x| * u` whenever `|m| <= u`.
  lemma ScaledBound(x: real, m: real, u: real)
    requires -u <= m <= u
    ensures -(AbsReal(x) * u) <= x * m <= AbsReal(x) * u
  {
    MulNonNegative(u - m, AbsReal(x));
    MulNonNegative(u + m, AbsReal(x));
  }

  lemma MulNonNegative(x: real, y: real)
    requires x >= 0.0 && y >= 0.0
    ensures x * y >= 0.0
  {
  }

  /// Flutter time as written: `abs_position / sample_rate + flutter_time_offset` on `usize`, an
  /// integer division that keeps only whole seconds.
  function FlutterTimeAsWritten(absPosition: nat, sampleRate: nat, offset: nat): (t: nat)
    requires sampleRate > 0
    ensures t >= offset
    ensures (t - offset) * sampleRate <= absPosition < (t - offset + 1) * sampleRate
  {
    absPosition / sampleRate + offset
  }

  /// Flutter time as intended: the signal position in seconds plus the random offset.
  function FlutterTime(absPosition: nat, sampleRate: nat, offset: nat): (t: real)
    requires sampleRate > 0
    ensures t - offset as real == absPosition as real / sampleRate as real
  {
    absPosition as real / sampleRate as real + offset as real
  }

  /// The intended flutter clock advances with every sample.
  lemma FlutterTimeAdvances(p: nat, q: nat, sampleRate: nat, offset: nat)
    requires sampleRate > 0 && p < q
    ensures FlutterTime(p, sampleRate, offset) < FlutterTime(q, sampleRate, offset)
  {
    var sr := sampleRate as real;
    assert p as real / sr < q as real / sr by {
      assert p as real < q as real;
    }
  }

  /// At 10 kHz the first sample after the start reads a later time under the intended clock but
  /// the same time under the clock as written.
  lemma FlutterTimeAsWrittenDiffers()
    ensures FlutterTimeAsWritten(1, 10000, 0) == FlutterTimeAsWritten(0, 10000, 0)
    ensures FlutterTime(1, 10000, 0) != FlutterTime(0, 10000, 0)
  {
  }

  /// Period length in samples: `round(sample_rate / f0)` for a positive F0, else 1.
  function PeriodLength(math: MathLib, sampleRate: nat, f0: F64): (n: nat)
    ensures !Gt(f0, Fin(0.0)) ==> n == 1
    ensures f0 == Inf(true) ==> n == AsUsize(Round(math, Fin(0.0)))
  {
    if Gt(f0, Fin(0.0)) then AsUsize(Round(math, Div(Fin(sampleRate as real), f0))) else 1
  }

  /// Open-phase length in samples: `round(period_length * open_phase_ratio)` for periods longer
  /// than one sample, else 0.
  function OpenPhaseLength(math: MathLib, periodLength: nat, openPhaseRatio: F64): (n: nat)
    ensures periodLength <= 1 ==> n == 0
  {
    if periodLength > 1 then AsUsize(Round(math, Mul(Fin(periodLength as real), openPhaseRatio)))
    else 0
  }

  /// The state of a period that starts at sample `absPosition` under frame `p`: F0 with flutter
  /// at the flutter time as written (whole seconds), its period and open-phase lengths, position 0.
  function NewPeriod(math: MathLib, sampleRate: nat, offset: nat, absPosition: nat, p: FrameParms): (ps: PeriodState)
    requires sampleRate > 0
    ensures ps.positionInPeriod == 0
    ensures ps.periodLength <= 1 ==> ps.openPhaseLength == 0
    ensures Le(p.flutterLevel, Fin(0.0)) ==> ps.f0 == p.f0
    ensures ps.f0 == PerformFrequencyModulation(math, p.f0, p.flutterLevel,
                                                 FlutterTimeAsWritten(absPosition, sampleRate, offset) as real)
  {
    var f0 := PerformFrequencyModulation(math, p.f0, p.flutterLevel, FlutterTimeAsWritten(absPosition, sampleRate, offset) as real);
    var periodLength := PeriodLength(math, sampleRate, f0);
    PeriodState(f0, periodLength, OpenPhaseLength(math, periodLength, p.openPhaseRatio), 0)
  }

  /// Under the flutter time as written, every period that starts within the same whole second
  /// gets the same modulated F0.
  lemma FlutterConstantWithinSecond(math: MathLib, sampleRate: nat, offset: nat, a: nat, b: nat, p: FrameParms)
    requires sampleRate > 0
    requires a / sampleRate == b / sampleRate
    ensures NewPeriod(math, sampleRate, offset, a, p) == NewPeriod(math, sampleRate, offset, b, p)
  {
  }

  /// A `round` that is monotone and fixes whole numbers.
  ghost predicate RoundIsSound(math: MathLib)
  {
    (forall x: real, y: real :: x <= y ==> math.round(x) <= math.round(y))
    && forall x: real :: x == x.Floor as real ==> math.round(x) == x
  }

  /// With a ratio in `[0, 1]` the glottis is open for at most one period.
  lemma OpenPhaseWithinPeriod(math: MathLib, periodLength: nat, ratio: real)
    requires RoundIsSound(math)
    requires 0.0 <= ratio <= 1.0
    ensures OpenPhaseLength(math, periodLength, Fin(ratio)) <= periodLength
  {
    if periodLength > 1 {
      var x := periodLength as real * ratio;
      assert x <= periodLength as real;
      assert math.round(x) <= math.round(periodLength as real);
      assert (periodLength as real).Floor == periodLength;
      assert math.round(periodLength as real) == periodLength as real;
    }
  }

  // ---------------------------------------------------------------------------------------------
  // Which formant filters a frame enables

  /// A value that is given: neither 0 nor NaN, the fields being documented "in Hz, or NaN"
  /// (klatt/src/klatt.rs:747-750).
  predicate IsGiven(x: F64)
  {
    Ne(x, Fin(0.0)) && !IsNaN(x)
  }

  /// The intended cascade nasal-formant test: frequency and bandwidth given.
  predicate NasalFormantCascGiven(p: FrameParms)
  {
    IsGiven(p.nasalFormantFreq) && IsGiven(p.nasalFormantBw)
  }

  /// The intended cascade nasal-antiformant test: frequency and bandwidth given.
  predicate NasalAntiformantCascGiven(p: FrameParms)
  {
    IsGiven(p.nasalAntiformantFreq) && IsGiven(p.nasalAntiformantBw)
  }

  /// The intended parallel nasal-formant test: frequency and bandwidth given, non-zero level.
  predicate NasalFormantParGiven(math: MathLib, p: FrameParms)
  {
    IsGiven(p.nasalFormantFreq) && IsGiven(p.nasalFormantBw) && Ne(DbToLin(math, p.nasalFormantDb), Fin(0.0))
  }

  /// Whether the cascade nasal formant is enabled: frequency and bandwidth `!= 0.0`, which a NaN
  /// passes (current), or both at least 0 (snapshot).
  predicate NasalFormantCascEnabled(variant: Variant, p: FrameParms)
    ensures variant == Current ==>
      (NasalFormantCascEnabled(variant, p) <==>
         (IsGiven(p.nasalFormantFreq) || IsNaN(p.nasalFormantFreq))
         && (IsGiven(p.nasalFormantBw) || IsNaN(p.nasalFormantBw)))
  {
    if variant == Current then Ne(p.nasalFormantFreq, Fin(0.0)) && Ne(p.nasalFormantBw, Fin(0.0))
    else Ge(p.nasalFormantFreq, Fin(0.0)) && Ge(p.nasalFormantBw, Fin(0.0))
  }

  /// Whether the cascade nasal antiformant is enabled: frequency and bandwidth `!= 0.0`
  /// (current), or both finite (snapshot).
  predicate NasalAntiformantCascEnabled(variant: Variant, p: FrameParms)
    ensures variant == Current ==>
      (NasalAntiformantCascEnabled(variant, p) <==>
         (IsGiven(p.nasalAntiformantFreq) || IsNaN(p.nasalAntiformantFreq))
         && (IsGiven(p.nasalAntiformantBw) || IsNaN(p.nasalAntiformantBw)))
  {
    if variant == Current then Ne(p.nasalAntiformantFreq, Fin(0.0)) && Ne(p.nasalAntiformantBw, Fin(0.0))
    else IsFinite(p.nasalAntiformantFreq) && IsFinite(p.nasalAntiformantBw)
  }

  /// Whether cascade oral formant `i` is enabled: finite frequency and bandwidth.
  predicate OralFormantCascEnabled(p: FrameParms, i: nat)
    ensures OralFormantCascEnabled(p, i) ==> i < |p.oralFormantFreq| && i < |p.oralFormantBw|
  {
    IsFinite(FormantField(p.oralFormantFreq, i)) && IsFinite(FormantField(p.oralFormantBw, i))
  }

  /// Whether the parallel nasal formant is enabled: frequency, bandwidth and linear level all
  /// `!= 0.0` (current), or all three finite (snapshot).
  predicate NasalFormantParEnabled(variant: Variant, math: MathLib, p: FrameParms)
    ensures variant == Current ==>
      (NasalFormantParEnabled(variant, math, p) <==>
         NasalFormantCascEnabled(variant, p) && Ne(DbToLin(math, p.nasalFormantDb), Fin(0.0)))
  {
    if variant == Current then
      Ne(p.nasalFormantFreq, Fin(0.0)) && Ne(p.nasalFormantBw, Fin(0.0))
      && Ne(DbToLin(math, p.nasalFormantDb), Fin(0.0))
    else
      IsFinite(p.nasalFormantFreq) && IsFinite(p.nasalFormantBw)
      && IsFinite(SnapshotDbToLin(math, p.nasalFormantDb))
  }

  /// Whether parallel oral formant `i` is enabled: finite frequency, bandwidth and peak gain.
  predicate OralFormantParEnabled(variant: Variant, math: MathLib, p: FrameParms, i: nat)
    ensures OralFormantParEnabled(variant, math, p, i) ==>
      i < |p.oralFormantFreq| && i < |p.oralFormantBw|
    ensures variant == Snapshot && OralFormantParEnabled(variant, math, p, i) ==> i < |p.oralFormantDb|
  {
    IsFinite(FormantField(p.oralFormantFreq, i)) && IsFinite(FormantField(p.oralFormantBw, i))
    && IsFinite(DbToLinOf(variant, math, FormantField(p.oralFormantDb, i)))
  }

  /// The current nasal tests let a NaN frequency and bandwidth through, which the intended tests
  /// refuse; on every other input the two agree.
  lemma NasalTestsAsWrittenAdmitNaN(math: MathLib, p: FrameParms)
    ensures IsNaN(p.nasalFormantFreq) && IsNaN(p.nasalFormantBw) ==>
      NasalFormantCascEnabled(Current, p) && !NasalFormantCascGiven(p)
    ensures IsNaN(p.nasalAntiformantFreq) && IsNaN(p.nasalAntiformantBw) ==>
      NasalAntiformantCascEnabled(Current, p) && !NasalAntiformantCascGiven(p)
    ensures IsNaN(p.nasalFormantFreq) && IsNaN(p.nasalFormantBw) && IsFinite(p.nasalFormantDb)
            && p.nasalFormantDb.v > -99.0 && math.pow(10.0, p.nasalFormantDb.v / 20.0) != 0.0 ==>
      NasalFormantParEnabled(Current, math, p) && !NasalFormantParGiven(math, p)
    ensures !IsNaN(p.nasalFormantFreq) && !IsNaN(p.nasalFormantBw) ==>
      (NasalFormantCascEnabled(Current, p) <==> NasalFormantCascGiven(p))
      && (NasalFormantParEnabled(Current, math, p) <==> NasalFormantParGiven(math, p))
    ensures !IsNaN(p.nasalAntiformantFreq) && !IsNaN(p.nasalAntiformantBw) ==>
      (NasalAntiformantCascEnabled(Current, p) <==> NasalAntiformantCascGiven(p))
  {
  }

  /// Under the intended tests, and in the snapshot, every enabled nasal filter receives a
  /// frequency and a bandwidth that are numbers.
  lemma EnabledFormantsHaveNumbers(math: MathLib, p: FrameParms)
    ensures NasalFormantCascGiven(p) ==> !IsNaN(p.nasalFormantFreq) && !IsNaN(p.nasalFormantBw)
    ensures NasalAntiformantCascGiven(p) ==> !IsNaN(p.nasalAntiformantFreq) && !IsNaN(p.nasalAntiformantBw)
    ensures NasalFormantParGiven(math, p) ==>
      !IsNaN(p.nasalFormantFreq) && !IsNaN(p.nasalFormantBw) && Ne(DbToLin(math, p.nasalFormantDb), Fin(0.0))
    ensures NasalFormantCascEnabled(Snapshot, p) ==> !IsNaN(p.nasalFormantFreq) && !IsNaN(p.nasalFormantBw)
    ensures NasalAntiformantCascEnabled(Snapshot, p) ==>
      !IsNaN(p.nasalAntiformantFreq) && !IsNaN(p.nasalAntiformantBw)
    ensures NasalFormantParEnabled(Snapshot, math, p) ==>
      !IsNaN(p.nasalFormantFreq) && !IsNaN(p.nasalFormantBw) && IsFinite(SnapshotDbToLin(math, p.nasalFormantDb))
  {
  }

  /// Formants past the end of the frequency or bandwidth vectors are disabled in both branches.
  lemma MissingOralFormantsAreDisabled(variant: Variant, math: MathLib, p: FrameParms, i: nat)
    requires i >= |p.oralFormantFreq| || i >= |p.oralFormantBw|
    ensures !OralFormantCascEnabled(p, i) && !OralFormantParEnabled(variant, math, p, i)
  {
  }
}
