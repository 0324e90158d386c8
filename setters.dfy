/// The functions that tune the generator's filters from a frame's parameters at the start of a
/// period. Each either tunes its filter or switches it to passthrough (cascade branch) or mutes
/// it (parallel branch); the current version validates through `set` and passes errors on, the
/// snapshot tunes without validation.
module Setters {
  import opened Status
  import opened Float64
  import opened Params
  import opened Filters

  // ---------------------------------------------------------------------------------------------
  // The filter states the setters produce

  /// The tilt filter after `set_tilt_filter`: passthrough with cleared memory for a tilt of
  /// exactly 0 dB, else a low-pass with gain `db_to_lin(-tilt)` at 3000 Hz that keeps its memory.
  function TiltTuned(variant: Variant, math: MathLib, sampleRate: nat, s: Lp1State, tiltDb: F64): Lp1State
  {
    if Eq(tiltDb, Fin(0.0)) then s.(y1 := 0.0, passthrough := true, muted := false)
    else
      var ab := Lp1Coefficients(math, sampleRate, Fin(3000.0), DbToLinOf(variant, math, Neg(tiltDb)), Fin(1.0));
      s.(a := ab.0, b := ab.1, passthrough := false, muted := false)
  }

  /// A cascade formant after `set_*_formant_casc`: tuned to `f`, `bw` with unit gain when
  /// enabled, else in passthrough with cleared memory.
  function CascadeFormantTuned(math: MathLib, sampleRate: nat, s: ResonatorState, enabled: bool, f: F64, bw: F64)
    : ResonatorState
  {
    if enabled then ResonatorTuned(s, ResonatorCoefficients(math, sampleRate, f, bw, Fin(1.0)))
    else s.(y1 := 0.0, y2 := 0.0, passthrough := true, muted := false)
  }

  /// Oral formant `k` (0-based) of the cascade after frame `p` is in use.
  function CascadeOralTuned(math: MathLib, sampleRate: nat, s: ResonatorState, p: FrameParms, k: nat): ResonatorState
  {
    CascadeFormantTuned(math, sampleRate, s, OralFormantCascEnabled(p, k),
                        FormantField(p.oralFormantFreq, k), FormantField(p.oralFormantBw, k))
  }

  /// A parallel formant after `set_*_formant_par`: tuned to `f`, `bw` with peak gain `peak`
  /// when enabled, else muted with cleared memory.
  function ParallelFormantTuned(math: MathLib, sampleRate: nat, s: ResonatorState, enabled: bool, f: F64, bw: F64,
                                peak: F64): ResonatorState
  {
    if enabled then
      var tuned := ResonatorTuned(s, ResonatorCoefficients(math, sampleRate, f, bw, Fin(1.0)));
      tuned.(a := Val(peak) * (1.0 - tuned.r))
    else s.(y1 := 0.0, y2 := 0.0, passthrough := false, muted := true)
  }

  /// Oral formant `k` (0-based) of the parallel branch after frame `p` is in use; F2 .. F6 get
  /// the peak gain that compensates the differencing filter.
  function ParallelOralTuned(variant: Variant, math: MathLib, sampleRate: nat, s: ResonatorState, p: FrameParms,
                             k: nat): (r: ResonatorState)
    ensures !r.passthrough && (r.muted <==> !OralFormantParEnabled(variant, math, p, k))
    ensures r.muted ==> r.y1 == 0.0 && r.y2 == 0.0
    ensures !r.muted ==> r.y1 == s.y1 && r.y2 == s.y2
  {
    var f := FormantField(p.oralFormantFreq, k);
    ParallelFormantTuned(math, sampleRate, s, OralFormantParEnabled(variant, math, p, k), f,
                         FormantField(p.oralFormantBw, k),
                         ParallelPeakGain(math, sampleRate, k, f, DbToLinOf(variant, math, FormantField(p.oralFormantDb, k))))
  }


  // ---------------------------------------------------------------------------------------------
  // What the setters report

  /// What `set_tilt_filter` reports: only the current version validates, and only a tilt other
  /// than exactly 0 dB.
  function TiltStatus(variant: Variant, math: MathLib, sampleRate: nat, tiltDb: F64): Result<()>
  {
    if variant == Current && !Eq(tiltDb, Fin(0.0))
       && !Lp1Accepts(sampleRate, Fin(3000.0), DbToLin(math, Neg(tiltDb)), Fin(1.0))
    then Err("Invalid filter parameters.")
    else Ok(())
  }

  /// What a cascade setter reports for a formant that is `enabled` with `f` and `bw`.
  function CascadeFormantStatus(variant: Variant, sampleRate: nat, enabled: bool, f: F64, bw: F64): Result<()>
  {
    if variant == Current && enabled && !ResonatorAccepts(sampleRate, f, bw, Fin(1.0))
    then Err("Invalid resonator parameters.")
    else Ok(())
  }

  /// What `set_nasal_formant_casc` reports for frame `p`.
  function NasalCascStatus(variant: Variant, sampleRate: nat, p: FrameParms): Result<()>
  {
    CascadeFormantStatus(variant, sampleRate, NasalFormantCascEnabled(variant, p), p.nasalFormantFreq, p.nasalFormantBw)
  }

  /// What `set_nasal_antiformant_casc` reports for frame `p`.
  function AntiformantStatus(variant: Variant, sampleRate: nat, p: FrameParms): Result<()>
  {
    if variant == Current && NasalAntiformantCascEnabled(variant, p)
       && !AntiResonatorAccepts(sampleRate, p.nasalAntiformantFreq, p.nasalAntiformantBw)
    then Err("Invalid anti-resonator parameters.")
    else Ok(())
  }

  /// What `set_oral_formant_casc` reports for formant `i` (0-based) of frame `p`.
  function OralCascStatus(variant: Variant, sampleRate: nat, p: FrameParms, i: nat): Result<()>
  {
    CascadeFormantStatus(variant, sampleRate, OralFormantCascEnabled(p, i),
                         FormantField(p.oralFormantFreq, i), FormantField(p.oralFormantBw, i))
  }

  /// What a parallel setter reports for a formant that is `enabled` with `f`, `bw` and peak gain
  /// `peak`: `set` checks the frequency and bandwidth first, then `adjust_peak_gain` the gain.
  function ParallelFormantStatus(variant: Variant, sampleRate: nat, enabled: bool, f: F64, bw: F64, peak: F64)
    : Result<()>
  {
    if variant == Snapshot || !enabled then Ok(())
    else if !ResonatorAccepts(sampleRate, f, bw, Fin(1.0)) then Err("Invalid resonator parameters.")
    else if Le(peak, Fin(0.0)) || IsInfinite(peak) then Err("Invalid resonator peak gain.")
    else Ok(())
  }

  /// What `set_nasal_formant_par` reports for frame `p`.
  function NasalParStatus(variant: Variant, math: MathLib, sampleRate: nat, p: FrameParms): Result<()>
  {
    ParallelFormantStatus(variant, sampleRate, NasalFormantParEnabled(variant, math, p), p.nasalFormantFreq,
                          p.nasalFormantBw, DbToLinOf(variant, math, p.nasalFormantDb))
  }

  /// What `set_oral_formant_par` reports for formant `i` (0-based) of frame `p`.
  function OralParStatus(variant: Variant, math: MathLib, sampleRate: nat, p: FrameParms, i: nat): Result<()>
  {
    var f := FormantField(p.oralFormantFreq, i);
    ParallelFormantStatus(variant, sampleRate, OralFormantParEnabled(variant, math, p, i), f,
                          FormantField(p.oralFormantBw, i),
                          ParallelPeakGain(math, sampleRate, i, f, DbToLinOf(variant, math, FormantField(p.oralFormantDb, i))))
  }

  // ---------------------------------------------------------------------------------------------
  // The setters

  /// `set_tilt_filter`: a tilt of exactly 0 dB switches the filter to passthrough, any other
  /// tilt makes it a low-pass with gain `db_to_lin(-tilt)` at 3000 Hz.
  method SetTiltFilter(variant: Variant, math: MathLib, tilt: LpFilter1, tiltDb: F64) returns (r: Result<()>)
    modifies tilt
    ensures Eq(tiltDb, Fin(0.0)) ==> r.Ok?
    ensures !Eq(tiltDb, Fin(0.0)) ==>
      (r.Ok? <==> variant == Snapshot
                  || Lp1Accepts(tilt.sampleRate, Fin(3000.0), DbToLin(math, Neg(tiltDb)), Fin(1.0)))
    ensures r.Err? ==> r.error == "Invalid filter parameters."
    ensures r.Ok? ==> tilt.State() == TiltTuned(variant, math, tilt.sampleRate, old(tilt.State()), tiltDb)
    ensures r == TiltStatus(variant, math, tilt.sampleRate, tiltDb)
    ensures r.Err? ==> tilt.State() == old(tilt.State())
  {
    if Eq(tiltDb, Fin(0.0)) {
      tilt.SetPassthrough();
      return Ok(());
    }
    if variant == Current {
      r := tilt.Set(math, Fin(3000.0), DbToLin(math, Neg(tiltDb)), None);
      if r.Ok? {
        UnitSuccess(r);
      }
    } else {
      tilt.Tune(math, Fin(3000.0), SnapshotDbToLin(math, Neg(tiltDb)), None);
      r := Ok(());
    }
  }

  /// Tunes a cascade resonator when `enabled`, else switches it to passthrough.
  method SetResonatorOrPassthrough(variant: Variant, math: MathLib, res: Resonator, enabled: bool, f: F64, bw: F64)
    returns (r: Result<()>)
    modifies res
    ensures !enabled ==> r.Ok?
    ensures enabled ==> (r.Ok? <==> variant == Snapshot || ResonatorAccepts(res.sampleRate, f, bw, Fin(1.0)))
    ensures r.Err? ==> r.error == "Invalid resonator parameters."
    ensures r.Ok? ==> res.State() == CascadeFormantTuned(math, res.sampleRate, old(res.State()), enabled, f, bw)
    ensures r == CascadeFormantStatus(variant, res.sampleRate, enabled, f, bw)
    ensures r.Err? ==> res.State() == old(res.State())
  {
    if !enabled {
      res.SetPassthrough();
      return Ok(());
    }
    if variant == Current {
      r := res.Set(math, f, bw, None);
      if r.Ok? {
        UnitSuccess(r);
      }
    } else {
      res.Tune(math, f, bw, None);
      r := Ok(());
    }
  }

  /// `set_nasal_formant_casc`.
  method SetNasalFormantCasc(variant: Variant, math: MathLib, res: Resonator, p: FrameParms) returns (r: Result<()>)
    modifies res
    ensures !NasalFormantCascEnabled(variant, p) ==> r.Ok?
    ensures NasalFormantCascEnabled(variant, p) ==>
      (r.Ok? <==> variant == Snapshot
                  || ResonatorAccepts(res.sampleRate, p.nasalFormantFreq, p.nasalFormantBw, Fin(1.0)))
    ensures r.Err? ==> r.error == "Invalid resonator parameters."
    ensures r.Ok? ==>
      res.State() == CascadeFormantTuned(math, res.sampleRate, old(res.State()), NasalFormantCascEnabled(variant, p),
                                         p.nasalFormantFreq, p.nasalFormantBw)
    ensures r == NasalCascStatus(variant, res.sampleRate, p)
    ensures r.Err? ==> res.State() == old(res.State())
  {
    r := SetResonatorOrPassthrough(variant, math, res, NasalFormantCascEnabled(variant, p),
                                   p.nasalFormantFreq, p.nasalFormantBw);
  }

  /// In the current version a NaN nasal frequency and bandwidth pass the enable tests and are
  /// accepted by `set`, so `set_nasal_formant_casc` and `set_nasal_antiformant_casc` tune their
  /// filters to them instead of switching them to passthrough.
  lemma NaNNasalFiltersAreTuned(sampleRate: nat, p: FrameParms)
    ensures IsNaN(p.nasalFormantFreq) && IsNaN(p.nasalFormantBw) ==>
      NasalFormantCascEnabled(Current, p)
      && ResonatorAccepts(sampleRate, p.nasalFormantFreq, p.nasalFormantBw, Fin(1.0))
    ensures IsNaN(p.nasalAntiformantFreq) && IsNaN(p.nasalAntiformantBw) ==>
      NasalAntiformantCascEnabled(Current, p)
      && AntiResonatorAccepts(sampleRate, p.nasalAntiformantFreq, p.nasalAntiformantBw)
  {
  }

  /// `set_nasal_antiformant_casc`.
  method SetNasalAntiformantCasc(variant: Variant, math: MathLib, anti: AntiResonator, p: FrameParms)
    returns (r: Result<()>)
    modifies anti
    ensures !NasalAntiformantCascEnabled(variant, p) ==>
      r.Ok? && anti.State() == old(anti.State()).(x1 := 0.0, x2 := 0.0, passthrough := true, muted := false)
    ensures NasalAntiformantCascEnabled(variant, p) ==>
      (r.Ok? <==> variant == Snapshot
                  || AntiResonatorAccepts(anti.sampleRate, p.nasalAntiformantFreq, p.nasalAntiformantBw))
    ensures r.Err? ==> r.error == "Invalid anti-resonator parameters."
    ensures r == AntiformantStatus(variant, anti.sampleRate, p)
    ensures NasalAntiformantCascEnabled(variant, p) && r.Ok? ==>
      anti.State()
      == AntiResonatorTuned(old(anti.State()),
                            AntiResonatorRaw(math, anti.sampleRate, p.nasalAntiformantFreq, p.nasalAntiformantBw))
    ensures r.Err? ==> anti.State() == old(anti.State())
  {
    if !NasalAntiformantCascEnabled(variant, p) {
      anti.SetPassthrough();
      return Ok(());
    }
    if variant == Current {
      r := anti.Set(math, p.nasalAntiformantFreq, p.nasalAntiformantBw);
      if r.Ok? {
        UnitSuccess(r);
      }
    } else {
      anti.Tune(math, p.nasalAntiformantFreq, p.nasalAntiformantBw);
      r := Ok(());
    }
  }

  /// `set_oral_formant_casc` for formant `i` (0-based); a missing entry reads as NaN.
  method SetOralFormantCasc(variant: Variant, math: MathLib, res: Resonator, p: FrameParms, i: nat)
    returns (r: Result<()>)
    modifies res
    ensures !OralFormantCascEnabled(p, i) ==> r.Ok?
    ensures OralFormantCascEnabled(p, i) ==>
      (r.Ok? <==> variant == Snapshot
                  || ResonatorAccepts(res.sampleRate, FormantField(p.oralFormantFreq, i),
                                      FormantField(p.oralFormantBw, i), Fin(1.0)))
    ensures r.Err? ==> r.error == "Invalid resonator parameters."
    ensures r.Ok? ==> res.State() == CascadeOralTuned(math, res.sampleRate, old(res.State()), p, i)
    ensures r == OralCascStatus(variant, res.sampleRate, p, i)
    ensures r.Err? ==> res.State() == old(res.State())
  {
    r := SetResonatorOrPassthrough(variant, math, res, OralFormantCascEnabled(p, i),
                                   FormantField(p.oralFormantFreq, i), FormantField(p.oralFormantBw, i));
  }

  /// Tunes a parallel resonator to `f`, `bw` with peak gain `peak` when `enabled`, else mutes it.
  /// The current version reports the first failing step; a failed peak-gain adjustment leaves
  /// the resonator tuned with its old gain.
  method SetResonatorOrMute(variant: Variant, math: MathLib, res: Resonator, enabled: bool, f: F64, bw: F64, peak: F64)
    returns (r: Result<()>)
    modifies res
    ensures !enabled ==> r.Ok?
    ensures enabled ==>
      (r.Ok? <==> variant == Snapshot
                  || (ResonatorAccepts(res.sampleRate, f, bw, Fin(1.0)) && !(Le(peak, Fin(0.0)) || IsInfinite(peak))))
    ensures r.Err? ==>
      r.error == if ResonatorAccepts(res.sampleRate, f, bw, Fin(1.0)) then "Invalid resonator peak gain."
                 else "Invalid resonator parameters."
    ensures r.Ok? ==> res.State() == ParallelFormantTuned(math, res.sampleRate, old(res.State()), enabled, f, bw, peak)
    ensures r == ParallelFormantStatus(variant, res.sampleRate, enabled, f, bw, peak)
    ensures r.Err? ==>
      (res.State() == old(res.State())
       || res.State() == ResonatorTuned(old(res.State()), ResonatorCoefficients(math, res.sampleRate, f, bw, Fin(1.0))))
  {
    if !enabled {
      res.SetMute();
      return Ok(());
    }
    if variant == Current {
      r := SetAndAdjustPeakGain(math, res, f, bw, peak);
    } else {
      ghost var tuned := ResonatorTuned(res.State(), ResonatorCoefficients(math, res.sampleRate, f, bw, Fin(1.0)));
      res.Tune(math, f, bw, None);
      assert res.State() == tuned;
      res.TunePeakGain(peak);
      r := Ok(());
    }
  }

  /// The validated tuning of an enabled parallel resonator: `set`, then `adjust_peak_gain`, each
  /// passing its error on.
  method SetAndAdjustPeakGain(math: MathLib, res: Resonator, f: F64, bw: F64, peak: F64) returns (r: Result<()>)
    modifies res
    ensures r == ParallelFormantStatus(Current, res.sampleRate, true, f, bw, peak)
    ensures r.Ok? <==> ResonatorAccepts(res.sampleRate, f, bw, Fin(1.0)) && !(Le(peak, Fin(0.0)) || IsInfinite(peak))
    ensures r.Err? ==>
      r.error == if ResonatorAccepts(res.sampleRate, f, bw, Fin(1.0)) then "Invalid resonator peak gain."
                 else "Invalid resonator parameters."
    ensures r.Ok? ==> res.State() == ParallelFormantTuned(math, res.sampleRate, old(res.State()), true, f, bw, peak)
    ensures r.Err? ==>
      (res.State() == old(res.State())
       || res.State() == ResonatorTuned(old(res.State()), ResonatorCoefficients(math, res.sampleRate, f, bw, Fin(1.0))))
  {
    ghost var tuned := ResonatorTuned(res.State(), ResonatorCoefficients(math, res.sampleRate, f, bw, Fin(1.0)));
    r := res.Set(math, f, bw, None);
    if r.Err? {
      return;
    }
    assert res.State() == tuned;
    r := res.AdjustPeakGain(peak);
    if r.Ok? {
      UnitSuccess(r);
    }
  }

  /// `set_nasal_formant_par`: the nasal formant's level in dB becomes its peak gain.
  method SetNasalFormantPar(variant: Variant, math: MathLib, res: Resonator, p: FrameParms) returns (r: Result<()>)
    modifies res
    ensures !NasalFormantParEnabled(variant, math, p) ==> r.Ok?
    ensures NasalFormantParEnabled(variant, math, p) ==>
      (r.Ok? <==> variant == Snapshot
                  || (ResonatorAccepts(res.sampleRate, p.nasalFormantFreq, p.nasalFormantBw, Fin(1.0))
                      && !(Le(DbToLin(math, p.nasalFormantDb), Fin(0.0)) || IsInfinite(DbToLin(math, p.nasalFormantDb)))))
    ensures r.Err? ==>
      r.error == if ResonatorAccepts(res.sampleRate, p.nasalFormantFreq, p.nasalFormantBw, Fin(1.0))
                 then "Invalid resonator peak gain." else "Invalid resonator parameters."
    ensures r.Ok? ==>
      res.State() == ParallelFormantTuned(math, res.sampleRate, old(res.State()), NasalFormantParEnabled(variant, math, p),
                                          p.nasalFormantFreq, p.nasalFormantBw, DbToLinOf(variant, math, p.nasalFormantDb))
    ensures r == NasalParStatus(variant, math, res.sampleRate, p)
    ensures r.Err? ==>
      (res.State() == old(res.State())
       || res.State() == ResonatorTuned(old(res.State()), ResonatorCoefficients(math, res.sampleRate, p.nasalFormantFreq,
                                                                                p.nasalFormantBw, Fin(1.0))))
  {
    r := SetResonatorOrMute(variant, math, res, NasalFormantParEnabled(variant, math, p),
                            p.nasalFormantFreq, p.nasalFormantBw, DbToLinOf(variant, math, p.nasalFormantDb));
  }

  /// Gain `sqrt(2 - 2 cos w)` of the differencing filter at frequency `f`.
  function DifferencingGain(math: MathLib, sampleRate: nat, f: F64): real
  {
    math.sqrt(2.0 - 2.0 * math.cos(Quot(2.0 * PI * Val(f), sampleRate as real)))
  }

  /// Peak gain of parallel formant `i` (0-based): the level itself for F1, and for F2 .. F6 the
  /// level divided by the differencing filter's gain at the formant frequency, which the
  /// differencing filter in front of them takes back out.
  function ParallelPeakGain(math: MathLib, sampleRate: nat, i: nat, f: F64, peak: F64): (g: F64)
    ensures i == 0 ==> g == peak
    ensures i >= 1 && IsFinite(peak) && DifferencingGain(math, sampleRate, f) != 0.0 ==>
      g == Fin(Val(peak) / DifferencingGain(math, sampleRate, f))
  {
    if i + 1 >= 2 then Div(peak, Fin(DifferencingGain(math, sampleRate, f))) else peak
  }

  /// A zero-frequency parallel formant above F1 makes the compensating gain infinite (or NaN for
  /// a zero level): the differencing filter blocks DC entirely.
  lemma ZeroFrequencyFormantGainIsNotFinite(math: MathLib, sampleRate: nat, i: nat, peak: F64)
    requires i >= 1 && IsFinite(peak)
    requires math.cos(0.0) == 1.0 && math.sqrt(0.0) == 0.0
    ensures !IsFinite(ParallelPeakGain(math, sampleRate, i, Fin(0.0), peak))
    ensures Val(peak) == 0.0 ==> IsNaN(ParallelPeakGain(math, sampleRate, i, Fin(0.0), peak))
  {
    assert Quot(2.0 * PI * 0.0, sampleRate as real) == 0.0;
    assert DifferencingGain(math, sampleRate, Fin(0.0)) == 0.0;
  }

  /// `set_oral_formant_par` for formant `i` (0-based); missing entries read as NaN.
  method SetOralFormantPar(variant: Variant, math: MathLib, res: Resonator, sampleRate: nat, p: FrameParms, i: nat)
    returns (r: Result<()>)
    modifies res
    ensures !OralFormantParEnabled(variant, math, p, i) ==> r.Ok?
    ensures OralFormantParEnabled(variant, math, p, i) ==>
      (var f := FormantField(p.oralFormantFreq, i);
       var g := ParallelPeakGain(math, sampleRate, i, f, DbToLinOf(variant, math, FormantField(p.oralFormantDb, i)));
       (r.Ok? <==> variant == Snapshot
                   || (ResonatorAccepts(res.sampleRate, f, FormantField(p.oralFormantBw, i), Fin(1.0))
                       && !(Le(g, Fin(0.0)) || IsInfinite(g)))))
    ensures r.Err? ==>
      r.error == if ResonatorAccepts(res.sampleRate, FormantField(p.oralFormantFreq, i), FormantField(p.oralFormantBw, i), Fin(1.0))
                 then "Invalid resonator peak gain." else "Invalid resonator parameters."
    ensures r.Ok? && res.sampleRate == sampleRate ==>
      res.State() == ParallelOralTuned(variant, math, sampleRate, old(res.State()), p, i)
    ensures res.sampleRate == sampleRate ==> r == OralParStatus(variant, math, sampleRate, p, i)
    ensures r.Err? ==>
      (res.State() == old(res.State())
       || res.State() == ResonatorTuned(old(res.State()),
                                        ResonatorCoefficients(math, res.sampleRate, FormantField(p.oralFormantFreq, i),
                                                              FormantField(p.oralFormantBw, i), Fin(1.0))))
  {
    var f := FormantField(p.oralFormantFreq, i);
    var bw := FormantField(p.oralFormantBw, i);
    var peak := DbToLinOf(variant, math, FormantField(p.oralFormantDb, i));
    r := SetResonatorOrMute(variant, math, res, OralFormantParEnabled(variant, math, p, i),
                            f, bw, ParallelPeakGain(math, sampleRate, i, f, peak));
  }
}
