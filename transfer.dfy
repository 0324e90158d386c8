/// The vocal tract's transfer function in the z-plane, as the current version composes it from
/// the transfer functions of freshly tuned filters: the tilt filter, the cascade and parallel
/// branches added together, the output low-pass and the overall gain. Every step passes the
/// first error on, as the source's `?` does; `add_fractions` on an empty denominator, where the
/// source panics, is the error `EmptyOperandPanic`.
module Transfer {
  import opened Status
  import opened Float64
  import opened Params
  import opened PolyReal
  import opened Filters
  import opened Setters

  /// The tolerance every composition step trims and compares with, `1e-10`.
  const EPS: Tolerance := 0.0000000001

  /// Stands for the panic of `add_fractions` when an operand is empty.
  const EmptyOperandPanic := "panic: empty coefficient vector"

  /// An error of the polynomial arithmetic, the panic of `add_fractions` included, as opposed to
  /// a filter that rejects its parameters.
  predicate ArithmeticFailure(e: string)
  {
    IsArithmeticError(e) || e == EmptyOperandPanic
  }

  /// The constant rational function `g / 1`.
  function Gain(g: real): Fraction
  {
    Fraction([g], [1.0])
  }

  /// A fraction whose numerator and denominator both have coefficients.
  predicate WellFormed(f: Fraction)
  {
    |f.num| > 0 && |f.den| > 0
  }

  /// `add_fractions`, with its panics (an empty denominator, or an empty numerator once the
  /// denominators compare equal) made the error `EmptyOperandPanic`.
  function Sum(f1: Fraction, f2: Fraction, eps: Option<Tolerance>): (r: Result<Fraction>)
    ensures r.Ok? ==> WellFormed(r.value) || r.value == Fraction([], [])
    ensures r.Err? ==> ArithmeticFailure(r.error)
  {
    if |f1.den| == 0 || |f2.den| == 0 || (CloseWithin(f1.den, f2.den, Tol(eps)) && (|f1.num| == 0 || |f2.num| == 0))
    then Err(EmptyOperandPanic)
    else AddFractions(f1, f2, eps)
  }

  // ---------------------------------------------------------------------------------------------
  // The filters the composition tunes, each newly made and then set from the frame

  /// `set_tilt_filter` on a new low-pass filter.
  function TiltSetting(math: MathLib, sampleRate: nat, tiltDb: F64): Result<Lp1State>
  {
    if !Eq(tiltDb, Fin(0.0)) && !Lp1Accepts(sampleRate, Fin(3000.0), DbToLin(math, Neg(tiltDb)), Fin(1.0))
    then Err("Invalid filter parameters.")
    else Ok(TiltTuned(Current, math, sampleRate, FreshLp1, tiltDb))
  }

  /// `set_nasal_antiformant_casc` on a new anti-resonator.
  function AntiformantSetting(math: MathLib, sampleRate: nat, p: FrameParms): Result<AntiResonatorState>
  {
    if !NasalAntiformantCascEnabled(Current, p) then Ok(FreshAntiResonator)
    else if AntiResonatorAccepts(sampleRate, p.nasalAntiformantFreq, p.nasalAntiformantBw) then
      Ok(AntiResonatorTuned(FreshAntiResonator,
                            AntiResonatorRaw(math, sampleRate, p.nasalAntiformantFreq, p.nasalAntiformantBw)))
    else Err("Invalid anti-resonator parameters.")
  }

  /// `set_nasal_formant_casc` on a new resonator.
  function NasalCascSetting(math: MathLib, sampleRate: nat, p: FrameParms): Result<ResonatorState>
  {
    var enabled := NasalFormantCascEnabled(Current, p);
    if enabled && !ResonatorAccepts(sampleRate, p.nasalFormantFreq, p.nasalFormantBw, Fin(1.0))
    then Err("Invalid resonator parameters.")
    else Ok(CascadeFormantTuned(math, sampleRate, FreshResonator, enabled, p.nasalFormantFreq, p.nasalFormantBw))
  }

  /// `set_oral_formant_casc` for formant `i` (0-based) on a new resonator.
  function OralCascSetting(math: MathLib, sampleRate: nat, p: FrameParms, i: nat): Result<ResonatorState>
  {
    if OralFormantCascEnabled(p, i)
       && !ResonatorAccepts(sampleRate, FormantField(p.oralFormantFreq, i), FormantField(p.oralFormantBw, i), Fin(1.0))
    then Err("Invalid resonator parameters.")
    else Ok(CascadeOralTuned(math, sampleRate, FreshResonator, p, i))
  }

  /// A parallel resonator, newly made, then muted or set and given its peak gain.
  function ParallelSetting(math: MathLib, sampleRate: nat, enabled: bool, f: F64, bw: F64, peak: F64)
    : Result<ResonatorState>
  {
    if !enabled then Ok(ParallelFormantTuned(math, sampleRate, FreshResonator, false, f, bw, peak))
    else if !ResonatorAccepts(sampleRate, f, bw, Fin(1.0)) then Err("Invalid resonator parameters.")
    else if Le(peak, Fin(0.0)) || IsInfinite(peak) then Err("Invalid resonator peak gain.")
    else Ok(ParallelFormantTuned(math, sampleRate, FreshResonator, true, f, bw, peak))
  }

  /// `set_nasal_formant_par` on a new resonator.
  function NasalParSetting(math: MathLib, sampleRate: nat, p: FrameParms): Result<ResonatorState>
  {
    ParallelSetting(math, sampleRate, NasalFormantParEnabled(Current, math, p), p.nasalFormantFreq,
                    p.nasalFormantBw, DbToLin(math, p.nasalFormantDb))
  }

  /// `set_oral_formant_par` for formant `i` (0-based) on a new resonator.
  function OralParSetting(math: MathLib, sampleRate: nat, p: FrameParms, i: nat): Result<ResonatorState>
  {
    var f := FormantField(p.oralFormantFreq, i);
    ParallelSetting(math, sampleRate, OralFormantParEnabled(Current, math, p, i), f, FormantField(p.oralFormantBw, i),
                    ParallelPeakGain(math, sampleRate, i, f, DbToLin(math, FormantField(p.oralFormantDb, i))))
  }

  /// The output low-pass: a new resonator set to 0 Hz with half the sample rate as bandwidth.
  function OutputLpSetting(math: MathLib, sampleRate: nat): (r: Result<ResonatorState>)
    ensures r.Ok? <==> sampleRate > 0
  {
    if ResonatorAccepts(sampleRate, Fin(0.0), Nyquist(sampleRate), Fin(1.0)) then
      Ok(ResonatorTuned(FreshResonator, ResonatorCoefficients(math, sampleRate, Fin(0.0), Nyquist(sampleRate), Fin(1.0))))
    else Err("Invalid resonator parameters.")
  }

  // ---------------------------------------------------------------------------------------------
  // The composition

  /// `multiply_fractions` of two fractions with coefficients, where it cannot fail.
  function Product(f1: Fraction, f2: Fraction, eps: Option<Tolerance>): (r: Fraction)
    requires WellFormed(f1) && WellFormed(f2)
    ensures WellFormed(r)
  {
    MultiplyFractions(f1, f2, eps).value
  }

  /// Formant `i` of the cascade multiplied into `v`.
  function CascadeOralStep(math: MathLib, sampleRate: nat, p: FrameParms, v: Fraction, i: nat): (r: Result<Fraction>)
    requires WellFormed(v)
    ensures r.Ok? ==> WellFormed(r.value)
  {
    var oral :- OralCascSetting(math, sampleRate, p, i);
    Ok(Product(v, ResonatorTf(oral), Some(EPS)))
  }

  /// The cascade's oral formants from `i` on, multiplied one by one into `v`.
  function CascadeOrals(math: MathLib, sampleRate: nat, p: FrameParms, v: Fraction, i: nat): (r: Result<Fraction>)
    requires WellFormed(v)
    decreases MAX_ORAL_FORMANTS - i
  {
    if i >= MAX_ORAL_FORMANTS then Ok(v)
    else
      var v' :- CascadeOralStep(math, sampleRate, p, v, i);
      CascadeOrals(math, sampleRate, p, v', i + 1)
  }

  /// The cascade voicing level through the nasal antiformant and the nasal formant.
  function CascadeNasals(math: MathLib, sampleRate: nat, p: FrameParms): (r: Result<Fraction>)
    ensures r.Ok? ==> WellFormed(r.value)
  {
    var anti :- AntiformantSetting(math, sampleRate, p);
    var v := Product(Gain(Val(DbToLin(math, p.cascadeVoicingDb))), AntiResonatorTf(anti), Some(EPS));
    var nasal :- NasalCascSetting(math, sampleRate, p);
    Ok(Product(v, ResonatorTf(nasal), Some(EPS)))
  }

  /// `get_cascade_branch_transfer_function_coefficients`: the cascade voicing level through the
  /// nasal antiformant, the nasal formant and the six oral formants.
  function CascadeTf(math: MathLib, sampleRate: nat, p: FrameParms): Result<Fraction>
  {
    var v :- CascadeNasals(math, sampleRate, p);
    CascadeOrals(math, sampleRate, p, v, 0)
  }

  /// `+1` for the odd-numbered formants F1, F3, F5 and `-1` for the others.
  function AlternatingSign(i: nat): real
  {
    if i % 2 == 0 then 1.0 else -1.0
  }

  /// Formant `i` of the parallel branch added into `v`: F1 filters the voicing `source`, F2 .. F6
  /// its first difference `source2`, and the sign alternates.
  function ParallelOralStep(math: MathLib, sampleRate: nat, p: FrameParms, source: Fraction, source2: Fraction,
                            v: Fraction, i: nat): Result<Fraction>
    requires WellFormed(source) && WellFormed(source2)
  {
    var oral :- OralParSetting(math, sampleRate, p, i);
    var out := Product(if i == 0 then source else source2, ResonatorTf(oral), Some(EPS));
    Sum(v, Product(out, Gain(AlternatingSign(i)), Some(EPS)), Some(EPS))
  }

  /// The parallel branch's oral formants from `i` on, added one by one into `v`.
  function ParallelOrals(math: MathLib, sampleRate: nat, p: FrameParms, source: Fraction, source2: Fraction,
                         v: Fraction, i: nat): Result<Fraction>
    requires WellFormed(source) && WellFormed(source2)
    decreases MAX_ORAL_FORMANTS - i
  {
    if i >= MAX_ORAL_FORMANTS then Ok(v)
    else
      var v' :- ParallelOralStep(math, sampleRate, p, source, source2, v, i);
      ParallelOrals(math, sampleRate, p, source, source2, v', i + 1)
  }

  /// The parallel voicing level and its first difference.
  function ParallelSource(math: MathLib, p: FrameParms): (r: Fraction)
    ensures WellFormed(r)
  {
    Gain(Val(DbToLin(math, p.parallelVoicingDb)))
  }

  function ParallelSource2(math: MathLib, p: FrameParms): (r: Fraction)
    ensures WellFormed(r)
  {
    Product(ParallelSource(math, p), DifferencingTf, Some(EPS))
  }

  /// The parallel nasal formant on the voicing source, added to silence.
  function ParallelNasal(math: MathLib, sampleRate: nat, p: FrameParms): Result<Fraction>
  {
    var nasal :- NasalParSetting(math, sampleRate, p);
    Sum(Silence, Product(ParallelSource(math, p), ResonatorTf(nasal), None), Some(EPS))
  }

  /// `get_parallel_branch_transfer_function_coefficients`: the nasal formant and the six oral
  /// formants in parallel, plus the bypass path of the differenced voicing source.
  function ParallelTf(math: MathLib, sampleRate: nat, p: FrameParms): Result<Fraction>
  {
    var source2 := ParallelSource2(math, p);
    var v :- ParallelNasal(math, sampleRate, p);
    var v' :- ParallelOrals(math, sampleRate, p, ParallelSource(math, p), source2, v, 0);
    Sum(v', Product(source2, Gain(Val(DbToLin(math, p.parallelBypassDb))), Some(EPS)), Some(EPS))
  }

  /// The glottal source through the tilt filter.
  function VoiceTf(math: MathLib, sampleRate: nat, tiltDb: F64): (r: Result<Fraction>)
    ensures r.Ok? ==> WellFormed(r.value)
  {
    var tilt :- TiltSetting(math, sampleRate, tiltDb);
    Ok(Product(Unity, Lp1Tf(tilt), Some(EPS)))
  }

  /// The enabled branches added together; a disabled branch contributes silence.
  function BranchesTf(math: MathLib, sampleRate: nat, p: FrameParms): Result<Fraction>
  {
    var cascade :- if p.cascadeEnabled then CascadeTf(math, sampleRate, p) else Ok(Silence);
    var parallel :- if p.parallelEnabled then ParallelTf(math, sampleRate, p) else Ok(Silence);
    Sum(cascade, parallel, Some(EPS))
  }

  /// `out` through the output low-pass and the overall gain, 0 dB when `gain_db` is not finite.
  function OutputTf(math: MathLib, sampleRate: nat, out: Fraction, gainDb: F64): (r: Result<Fraction>)
    requires WellFormed(out)
  {
    var lp :- OutputLpSetting(math, sampleRate);
    var db := if IsFinite(gainDb) then gainDb else Fin(0.0);
    Ok(Product(Product(out, ResonatorTf(lp), Some(EPS)), Gain(Val(DbToLin(math, db))), Some(EPS)))
  }

  /// `get_vocal_tract_transfer_function_coefficients`. It succeeds only with a positive sample
  /// rate (the output low-pass rejects 0) and when every filter it tunes accepts its parameters.
  function VocalTractTf(math: MathLib, mParms: MainParms, p: FrameParms): (r: Result<Fraction>)
  {
    var voice :- VoiceTf(math, mParms.sampleRate, p.tiltDb);
    var branches :- BranchesTf(math, mParms.sampleRate, p);
    var out :- MultiplyFractions(voice, branches, Some(EPS));
    OutputTf(math, mParms.sampleRate, out, p.gainDb)
  }

  // ---------------------------------------------------------------------------------------------
  // The source's procedures, on filter objects

  method VocalTractTransferFunction(math: MathLib, mParms: MainParms, p: FrameParms) returns (r: Result<Fraction>)
    ensures r == VocalTractTf(math, mParms, p)
  {
    var sr := mParms.sampleRate;
    var voice := Unity;
    var tiltFilter := new LpFilter1(sr);
    var _ :- SetTiltFilter(Current, math, tiltFilter, p.tiltDb);
    voice := Product(voice, tiltFilter.TransferFunctionCoefficients(), Some(EPS));
    var branches :- Branches(math, mParms, p);
    var out :- MultiplyFractions(voice, branches, Some(EPS));
    var outputLpFilter := new Resonator(sr);
    var _ :- outputLpFilter.Set(math, Fin(0.0), Nyquist(sr), None);
    out := Product(out, outputLpFilter.TransferFunctionCoefficients(), Some(EPS));
    var db := if IsFinite(p.gainDb) then p.gainDb else Fin(0.0);
    var gainLin := DbToLin(math, db);
    r := Ok(Product(out, Gain(Val(gainLin)), Some(EPS)));
  }

  /// The enabled branches' transfer functions, added.
  method Branches(math: MathLib, mParms: MainParms, p: FrameParms) returns (r: Result<Fraction>)
    ensures r == BranchesTf(math, mParms.sampleRate, p)
  {
    var cascade := Silence;
    if p.cascadeEnabled {
      cascade :- CascadeBranchTransferFunction(math, mParms, p);
    }
    var parallel := Silence;
    if p.parallelEnabled {
      parallel :- ParallelBranchTransferFunction(math, mParms, p);
    }
    r := Sum(cascade, parallel, Some(EPS));
  }

  method CascadeBranchTransferFunction(math: MathLib, mParms: MainParms, p: FrameParms) returns (r: Result<Fraction>)
    ensures r == CascadeTf(math, mParms.sampleRate, p)
  {
    var v :- CascadeNasalFilters(math, mParms.sampleRate, p);
    r := CascadeOralFilters(math, mParms.sampleRate, p, v);
  }

  /// The cascade's loop over the oral formants, each a new resonator, multiplied into `v`.
  method CascadeOralFilters(math: MathLib, sr: nat, p: FrameParms, v: Fraction) returns (r: Result<Fraction>)
    requires WellFormed(v)
    ensures r == CascadeOrals(math, sr, p, v, 0)
  {
    var acc := v;
    var i := 0;
    while i < MAX_ORAL_FORMANTS
      invariant i <= MAX_ORAL_FORMANTS && WellFormed(acc)
      invariant CascadeOrals(math, sr, p, acc, i) == CascadeOrals(math, sr, p, v, 0)
    {
      acc :- MultiplyCascadeOral(math, sr, p, acc, i);
      i := i + 1;
    }
    r := Ok(acc);
  }

  /// The cascade voicing level, then the nasal antiformant and formant, each a new filter.
  method CascadeNasalFilters(math: MathLib, sr: nat, p: FrameParms) returns (r: Result<Fraction>)
    ensures r == CascadeNasals(math, sr, p)
  {
    var v := Gain(Val(DbToLin(math, p.cascadeVoicingDb)));
    var antiformant := new AntiResonator(sr);
    var _ :- SetNasalAntiformantCasc(Current, math, antiformant, p);
    v := Product(v, antiformant.TransferFunctionCoefficients(), Some(EPS));
    var nasal := new Resonator(sr);
    var _ :- SetNasalFormantCasc(Current, math, nasal, p);
    r := Ok(Product(v, nasal.TransferFunctionCoefficients(), Some(EPS)));
  }

  /// One pass of the cascade's oral-formant loop.
  method MultiplyCascadeOral(math: MathLib, sr: nat, p: FrameParms, v: Fraction, i: nat) returns (r: Result<Fraction>)
    requires WellFormed(v)
    ensures r == CascadeOralStep(math, sr, p, v, i)
  {
    var oral := new Resonator(sr);
    var _ :- SetOralFormantCasc(Current, math, oral, p, i);
    r := Ok(Product(v, oral.TransferFunctionCoefficients(), Some(EPS)));
  }

  method ParallelBranchTransferFunction(math: MathLib, mParms: MainParms, p: FrameParms) returns (r: Result<Fraction>)
    ensures r == ParallelTf(math, mParms.sampleRate, p)
  {
    var sr := mParms.sampleRate;
    var source := Gain(Val(DbToLin(math, p.parallelVoicingDb)));
    var differencing := new DifferencingFilter();
    var source2 := Product(source, differencing.TransferFunctionCoefficients(), Some(EPS));
    var v :- ParallelNasalFilter(math, sr, p);
    v :- ParallelOralFilters(math, sr, p, source, source2, v);
    var parallelBypassLin := DbToLin(math, p.parallelBypassDb);
    var bypass := Product(source2, Gain(Val(parallelBypassLin)), Some(EPS));
    r := Sum(v, bypass, Some(EPS));
  }

  /// The parallel branch's loop over the oral formants, each a new resonator, added into `v`.
  method ParallelOralFilters(math: MathLib, sr: nat, p: FrameParms, source: Fraction, source2: Fraction, v: Fraction)
    returns (r: Result<Fraction>)
    requires WellFormed(source) && WellFormed(source2)
    ensures r == ParallelOrals(math, sr, p, source, source2, v, 0)
  {
    var acc := v;
    var i := 0;
    while i < MAX_ORAL_FORMANTS
      invariant i <= MAX_ORAL_FORMANTS
      invariant ParallelOrals(math, sr, p, source, source2, acc, i) == ParallelOrals(math, sr, p, source, source2, v, 0)
    {
      acc :- AddParallelOral(math, sr, p, source, source2, acc, i);
      i := i + 1;
    }
    r := Ok(acc);
  }

  /// The parallel nasal formant, a new resonator, on the voicing source.
  method ParallelNasalFilter(math: MathLib, sr: nat, p: FrameParms) returns (r: Result<Fraction>)
    ensures r == ParallelNasal(math, sr, p)
  {
    var source := Gain(Val(DbToLin(math, p.parallelVoicingDb)));
    var nasal := new Resonator(sr);
    var _ :- SetNasalFormantPar(Current, math, nasal, p);
    r := Sum(Silence, Product(source, nasal.TransferFunctionCoefficients(), None), Some(EPS));
  }

  /// One pass of the parallel branch's oral-formant loop.
  method AddParallelOral(math: MathLib, sr: nat, p: FrameParms, source: Fraction, source2: Fraction, v: Fraction,
                         i: nat) returns (r: Result<Fraction>)
    requires WellFormed(source) && WellFormed(source2)
    ensures r == ParallelOralStep(math, sr, p, source, source2, v, i)
  {
    var oral := new Resonator(sr);
    var _ :- SetOralFormantPar(Current, math, oral, sr, p, i);
    var formantIn := if i == 0 then source else source2;
    var formantOut := Product(formantIn, oral.TransferFunctionCoefficients(), Some(EPS));
    var v2 := Product(formantOut, Gain(AlternatingSign(i)), Some(EPS));
    r := Sum(v, v2, Some(EPS));
  }

  // ---------------------------------------------------------------------------------------------
  // What the composition computes

  /// Some filter of the cascade branch rejects its parameters.
  predicate CascadeRejects(math: MathLib, sampleRate: nat, p: FrameParms)
  {
    AntiformantSetting(math, sampleRate, p).Err? || NasalCascSetting(math, sampleRate, p).Err?
    || exists i :: 0 <= i < MAX_ORAL_FORMANTS && OralCascSetting(math, sampleRate, p, i).Err?
  }

  lemma {:induction false} CascadeOralsFailOnlyOnRejectedFormant(math: MathLib, sampleRate: nat, p: FrameParms,
                                                                 v: Fraction, i: nat)
    requires WellFormed(v)
    ensures CascadeOrals(math, sampleRate, p, v, i).Err?
            <==> exists j :: i <= j < MAX_ORAL_FORMANTS && OralCascSetting(math, sampleRate, p, j).Err?
    decreases MAX_ORAL_FORMANTS - i
  {
    if i < MAX_ORAL_FORMANTS && OralCascSetting(math, sampleRate, p, i).Ok? {
      var v' := CascadeOralStep(math, sampleRate, p, v, i).value;
      CascadeOralsFailOnlyOnRejectedFormant(math, sampleRate, p, v', i + 1);
      if exists j :: i <= j < MAX_ORAL_FORMANTS && OralCascSetting(math, sampleRate, p, j).Err? {
        var j :| i <= j < MAX_ORAL_FORMANTS && OralCascSetting(math, sampleRate, p, j).Err?;
        assert j != i;
      }
    }
  }

  /// The cascade branch fails exactly when one of its filters rejects its parameters: none of its
  /// multiplications can fail.
  lemma CascadeFailsOnlyOnRejectedFilter(math: MathLib, sampleRate: nat, p: FrameParms)
    ensures CascadeTf(math, sampleRate, p).Err? <==> CascadeRejects(math, sampleRate, p)
  {
    var v := CascadeNasals(math, sampleRate, p);
    if v.Ok? {
      CascadeOralsFailOnlyOnRejectedFormant(math, sampleRate, p, v.value, 0);
    }
  }

  /// Some filter of the parallel branch rejects its parameters.
  predicate ParallelRejects(math: MathLib, sampleRate: nat, p: FrameParms)
  {
    NasalParSetting(math, sampleRate, p).Err?
    || exists i :: 0 <= i < MAX_ORAL_FORMANTS && OralParSetting(math, sampleRate, p, i).Err?
  }

  lemma {:induction false} ParallelOralsFailOnRejectedFormant(math: MathLib, sampleRate: nat, p: FrameParms,
                                                              source: Fraction, source2: Fraction, v: Fraction,
                                                              i: nat)
    requires WellFormed(source) && WellFormed(source2)
    ensures (exists j :: i <= j < MAX_ORAL_FORMANTS && OralParSetting(math, sampleRate, p, j).Err?) ==>
      ParallelOrals(math, sampleRate, p, source, source2, v, i).Err?
    decreases MAX_ORAL_FORMANTS - i
  {
    if i < MAX_ORAL_FORMANTS {
      var step := ParallelOralStep(math, sampleRate, p, source, source2, v, i);
      if step.Ok? {
        ParallelOralsFailOnRejectedFormant(math, sampleRate, p, source, source2, step.value, i + 1);
        if exists j :: i <= j < MAX_ORAL_FORMANTS && OralParSetting(math, sampleRate, p, j).Err? {
          var j :| i <= j < MAX_ORAL_FORMANTS && OralParSetting(math, sampleRate, p, j).Err?;
          assert j != i;
        }
      }
    }
  }

  lemma {:induction false} ParallelOralsFailure(math: MathLib, sampleRate: nat, p: FrameParms,
                                                source: Fraction, source2: Fraction, v: Fraction, i: nat)
    requires WellFormed(source) && WellFormed(source2)
    ensures ParallelOrals(math, sampleRate, p, source, source2, v, i).Err? ==>
      ArithmeticFailure(ParallelOrals(math, sampleRate, p, source, source2, v, i).error)
      || exists j :: i <= j < MAX_ORAL_FORMANTS && OralParSetting(math, sampleRate, p, j).Err?
    decreases MAX_ORAL_FORMANTS - i
  {
    if i < MAX_ORAL_FORMANTS {
      var step := ParallelOralStep(math, sampleRate, p, source, source2, v, i);
      if step.Ok? {
        ParallelOralsFailure(math, sampleRate, p, source, source2, step.value, i + 1);
      } else if OralParSetting(math, sampleRate, p, i).Err? {
        assert i <= i < MAX_ORAL_FORMANTS;
      }
    }
  }

  /// The parallel branch fails whenever one of its filters rejects its parameters, and otherwise
  /// only with an error of the polynomial arithmetic.
  lemma ParallelFailsOnRejectedFilter(math: MathLib, sampleRate: nat, p: FrameParms)
    ensures ParallelRejects(math, sampleRate, p) ==> ParallelTf(math, sampleRate, p).Err?
    ensures ParallelTf(math, sampleRate, p).Err? ==>
      ParallelRejects(math, sampleRate, p) || ArithmeticFailure(ParallelTf(math, sampleRate, p).error)
  {
    var source := ParallelSource(math, p);
    var source2 := ParallelSource2(math, p);
    var nasal := ParallelNasal(math, sampleRate, p);
    if nasal.Ok? {
      ParallelOralsFailure(math, sampleRate, p, source, source2, nasal.value, 0);
      ParallelOralsFailOnRejectedFormant(math, sampleRate, p, source, source2, nasal.value, 0);
    }
  }

  /// The enabled branches fail whenever a filter of theirs rejects its parameters, and otherwise
  /// only with an error of the polynomial arithmetic.
  lemma BranchesFailOnRejectedFilter(math: MathLib, sampleRate: nat, p: FrameParms)
    ensures (p.cascadeEnabled && CascadeRejects(math, sampleRate, p))
            || (p.parallelEnabled && ParallelRejects(math, sampleRate, p))
            ==> BranchesTf(math, sampleRate, p).Err?
    ensures BranchesTf(math, sampleRate, p).Err? ==>
      (p.cascadeEnabled && CascadeRejects(math, sampleRate, p))
      || (p.parallelEnabled && ParallelRejects(math, sampleRate, p))
      || ArithmeticFailure(BranchesTf(math, sampleRate, p).error)
  {
    CascadeFailsOnlyOnRejectedFilter(math, sampleRate, p);
    ParallelFailsOnRejectedFilter(math, sampleRate, p);
  }

  /// Some filter that the vocal tract's transfer function tunes rejects its parameters: the tilt
  /// filter, the output low-pass (which rejects a zero sample rate) or a filter of an enabled
  /// branch.
  predicate VocalTractRejects(math: MathLib, mParms: MainParms, p: FrameParms)
  {
    TiltSetting(math, mParms.sampleRate, p.tiltDb).Err? || mParms.sampleRate == 0
    || (p.cascadeEnabled && CascadeRejects(math, mParms.sampleRate, p))
    || (p.parallelEnabled && ParallelRejects(math, mParms.sampleRate, p))
  }

  /// The vocal tract's transfer function reports a rejected tilt first; it fails whenever a
  /// filter it tunes rejects its parameters, and otherwise only with an error of the polynomial
  /// arithmetic.
  lemma VocalTractFailsOnRejectedFilter(math: MathLib, mParms: MainParms, p: FrameParms)
    ensures TiltSetting(math, mParms.sampleRate, p.tiltDb).Err? ==>
      VocalTractTf(math, mParms, p) == Err("Invalid filter parameters.")
    ensures VocalTractRejects(math, mParms, p) ==> VocalTractTf(math, mParms, p).Err?
    ensures VocalTractTf(math, mParms, p).Err? ==>
      VocalTractRejects(math, mParms, p) || ArithmeticFailure(VocalTractTf(math, mParms, p).error)
  {
    var sr := mParms.sampleRate;
    BranchesFailOnRejectedFilter(math, sr, p);
    var voice := VoiceTf(math, sr, p.tiltDb);
    if voice.Ok? {
      var branches := BranchesTf(math, sr, p);
      if branches.Ok? {
        var out := MultiplyFractions(voice.value, branches.value, Some(EPS));
        if out.Ok? && sr == 0 {
          assert OutputLpSetting(math, sr).Err?;
        }
      }
    }
  }

  /// A gain coefficient after trimming: kept when above the tolerance, else 0.
  function Kept(c: real): real
  {
    if Abs(c) > EPS then c else 0.0
  }

  /// The product with a constant polynomial scales every coefficient.
  lemma ConvolutionByConstant(a: seq<real>, c: real)
    requires |a| > 0
    ensures Convolution(a, [c]) == seq(|a|, i requires 0 <= i < |a| => a[i] * c)
  {
    var conv, scaled := Convolution(a, [c]), seq(|a|, i requires 0 <= i < |a| => a[i] * c);
    assert |conv| == |scaled|;
    forall i | 0 <= i < |a|
      ensures conv[i] == scaled[i]
    {
      assert SaturatingSub(i, 0) == i && Min(|a| - 1, i) + 1 == i + 1;
      assert ConvSum(a, [c], i, i, i + 1) == ConvSum(a, [c], i, i, i) + Coef(a, i) * Coef([c], 0);
    }
  }

  /// A constant gain through a filter in passthrough is the trimmed gain.
  lemma GainThroughUnity(c: real)
    ensures Product(Gain(c), Unity, Some(EPS)) == Gain(Kept(c))
  {
    ConvolutionByConstant([c], 1.0);
    ConvolutionByConstant([1.0], 1.0);
  }

  lemma {:induction false} CascadeOralsPassThrough(math: MathLib, sampleRate: nat, p: FrameParms, c: real, i: nat)
    requires Kept(c) == c
    requires forall k :: i <= k < MAX_ORAL_FORMANTS ==> !OralFormantCascEnabled(p, k)
    ensures CascadeOrals(math, sampleRate, p, Gain(c), i) == Ok(Gain(c))
    decreases MAX_ORAL_FORMANTS - i
  {
    if i < MAX_ORAL_FORMANTS {
      GainThroughUnity(c);
      CascadeOralsPassThrough(math, sampleRate, p, c, i + 1);
    }
  }

  /// A cascade branch whose filters are all disabled is the cascade voicing level alone (0 below
  /// the tolerance), as its filters in passthrough pass the signal through unchanged.
  lemma CascadeWithoutFormantsIsVoicingGain(math: MathLib, sampleRate: nat, p: FrameParms)
    requires !NasalAntiformantCascEnabled(Current, p) && !NasalFormantCascEnabled(Current, p)
    requires forall k :: 0 <= k < MAX_ORAL_FORMANTS ==> !OralFormantCascEnabled(p, k)
    ensures CascadeTf(math, sampleRate, p) == Ok(Gain(Kept(Val(DbToLin(math, p.cascadeVoicingDb)))))
  {
    var c := Val(DbToLin(math, p.cascadeVoicingDb));
    GainThroughUnity(c);
    GainThroughUnity(Kept(c));
    CascadeOralsPassThrough(math, sampleRate, p, Kept(c), 0);
  }

  /// A product with the zero polynomial as either numerator has the zero numerator.
  lemma ZeroNumeratorAbsorbs(f1: Fraction, f2: Fraction, eps: Option<Tolerance>)
    requires WellFormed(f1) && WellFormed(f2) && (f1.num == [0.0] || f2.num == [0.0])
    ensures Product(f1, f2, eps).num == [0.0]
  {
  }

  /// Silence times a fraction over 1, or such a fraction times silence, is silence.
  lemma SilenceAbsorbs(f: Fraction, eps: Option<Tolerance>)
    requires WellFormed(f) && f.den == [1.0] && Tol(eps) < 1.0
    ensures Product(f, Silence, eps) == Silence && Product(Silence, f, eps) == Silence
  {
    ConvolutionByConstant([1.0], 1.0);
  }

  /// A denominator compares equal to itself.
  lemma CloseToItself(a: seq<real>, eps: real)
    requires eps >= 0.0
    ensures CloseWithin(a, a, eps)
  {
    assert Abs(0.0) <= eps;
  }

  /// Silence added to silence is silence.
  lemma SilencePlusSilence()
    ensures Sum(Silence, Silence, Some(EPS)) == Ok(Silence)
  {
    CloseToItself([1.0], EPS);
    assert PaddedSum([0.0], [0.0]) == [0.0];
  }

  /// The product of two levels, named so that equal levels give equal products without
  /// arithmetic.
  function Times(a: real, b: real): real
  {
    a * b
  }

  /// `g - g z^-1`: a first difference scaled by `g`.
  function Differenced(g: real): Fraction
  {
    Fraction([g, -g], [1.0])
  }

  /// Silence added to `g - g z^-1` leaves it as it is.
  lemma SilencePlusDifference(g: real)
    requires Abs(g) > EPS
    ensures Sum(Silence, Differenced(g), Some(EPS)) == Ok(Differenced(g))
  {
    CloseToItself([1.0], EPS);
    assert PaddedSum([0.0], [g, -g]) == [g, -g];
  }

  /// The bypass level `b` applied to the differenced gain `c - c z^-1`.
  lemma ScaledDifference(c: real, b: real)
    requires Abs(Times(c, b)) > EPS
    ensures Product(Differenced(c), Gain(b), Some(EPS)) == Differenced(Times(c, b))
  {
    ConvolutionByConstant([c, -c], b);
    var conv := Convolution([c, -c], [b]);
    assert conv[0] == c * b && conv[1] == (-c) * b;
    assert (-c) * b == -(c * b) && Abs(-(c * b)) > EPS;
    assert conv == [c * b, -(c * b)];
    assert b != 0.0 && !IsZeroPoly([c, -c]);
    assert Trimmed(conv, Some(EPS)) == Ok(conv);
    assert Multiplied([c, -c], [b], Some(EPS)) == Ok([c * b, -(c * b)]);
    UnitDenominator(Some(EPS));
  }

  /// The product of two denominators `1` is `1`.
  lemma UnitDenominator(eps: Option<Tolerance>)
    requires Tol(eps) < 1.0
    ensures Multiplied([1.0], [1.0], eps) == Ok([1.0])
  {
    ConvolutionByConstant([1.0], 1.0);
    assert Convolution([1.0], [1.0]) == [1.0];
    assert Abs(1.0) == 1.0;
  }

  /// A muted parallel nasal formant contributes silence.
  lemma ParallelNasalMuted(math: MathLib, sampleRate: nat, p: FrameParms)
    requires !NasalFormantParEnabled(Current, math, p)
    ensures ParallelNasal(math, sampleRate, p) == Ok(Silence)
  {
    var nasal := NasalParSetting(math, sampleRate, p).value;
    assert ResonatorTf(nasal) == Silence;
    SilenceAbsorbs(ParallelSource(math, p), None);
    SilencePlusSilence();
  }

  lemma {:induction false} ParallelOralsSilent(math: MathLib, sampleRate: nat, p: FrameParms, source: Fraction,
                                               source2: Fraction, i: nat)
    requires WellFormed(source) && WellFormed(source2) && source.den == [1.0] && source2.den == [1.0]
    requires forall k :: i <= k < MAX_ORAL_FORMANTS ==> !OralFormantParEnabled(Current, math, p, k)
    ensures ParallelOrals(math, sampleRate, p, source, source2, Silence, i) == Ok(Silence)
    decreases MAX_ORAL_FORMANTS - i
  {
    if i < MAX_ORAL_FORMANTS {
      var oral := OralParSetting(math, sampleRate, p, i).value;
      assert ResonatorTf(oral) == Silence;
      SilenceAbsorbs(source, Some(EPS));
      SilenceAbsorbs(source2, Some(EPS));
      SilenceAbsorbs(Gain(AlternatingSign(i)), Some(EPS));
      SilencePlusSilence();
      assert ParallelOralStep(math, sampleRate, p, source, source2, Silence, i) == Ok(Silence);
      ParallelOralsSilent(math, sampleRate, p, source, source2, i + 1);
    }
  }

  /// The first difference of a constant gain `c` above the tolerance is `c - c z^-1`.
  lemma DifferencedGain(c: real)
    requires Abs(c) > EPS
    ensures Product(Gain(c), DifferencingTf, Some(EPS)) == Differenced(c)
  {
    var conv := Convolution([c], [1.0, -1.0]);
    assert SaturatingSub(0, 1) == 0 && SaturatingSub(1, 1) == 0 && Min(0, 0) == 0 && Min(0, 1) == 0;
    assert ConvSum([c], [1.0, -1.0], 0, 0, 1) == ConvSum([c], [1.0, -1.0], 0, 0, 0) + c * 1.0;
    assert ConvSum([c], [1.0, -1.0], 1, 0, 1) == ConvSum([c], [1.0, -1.0], 1, 0, 0) + c * -1.0;
    assert conv == [c, -c];
    ConvolutionByConstant([1.0], 1.0);
  }

  /// The level of the parallel bypass path: the parallel voicing level times the bypass level.
  function BypassGain(math: MathLib, p: FrameParms): real
  {
    Times(Val(DbToLin(math, p.parallelVoicingDb)), Val(DbToLin(math, p.parallelBypassDb)))
  }

  /// A parallel branch whose formants are all disabled is its bypass path alone: the differenced
  /// voicing source scaled by the bypass level, `g - g z^-1` with `g` the product of the two
  /// levels (when both stay above the tolerance).
  lemma ParallelWithoutFormantsIsBypass(math: MathLib, sampleRate: nat, p: FrameParms)
    requires !NasalFormantParEnabled(Current, math, p)
    requires forall k :: 0 <= k < MAX_ORAL_FORMANTS ==> !OralFormantParEnabled(Current, math, p, k)
    requires Abs(Val(DbToLin(math, p.parallelVoicingDb))) > EPS && Abs(BypassGain(math, p)) > EPS
    ensures ParallelTf(math, sampleRate, p) == Ok(Differenced(BypassGain(math, p)))
  {
    BypassPath(math, p);
    ParallelTfOfSilentFormants(math, sampleRate, p, Differenced(BypassGain(math, p)));
  }

  /// The bypass path added to silence is `g - g z^-1`, `g` the bypass gain.
  lemma BypassPath(math: MathLib, p: FrameParms)
    requires Abs(Val(DbToLin(math, p.parallelVoicingDb))) > EPS && Abs(BypassGain(math, p)) > EPS
    ensures Sum(Silence, Product(ParallelSource2(math, p), Gain(Val(DbToLin(math, p.parallelBypassDb))), Some(EPS)),
                Some(EPS)) == Ok(Differenced(BypassGain(math, p)))
  {
    DifferencedBypass(DbToLin(math, p.parallelVoicingDb), DbToLin(math, p.parallelBypassDb));
  }

  /// The bypass path with the voicing level `Val(x)` and the bypass level `Val(y)`.
  lemma DifferencedBypass(x: F64, y: F64)
    requires Abs(Val(x)) > EPS && Abs(Times(Val(x), Val(y))) > EPS
    ensures Sum(Silence, Product(Product(Gain(Val(x)), DifferencingTf, Some(EPS)), Gain(Val(y)), Some(EPS)), Some(EPS))
            == Ok(Differenced(Times(Val(x), Val(y))))
  {
    DifferencedGain(Val(x));
    BypassOfDifferencedGain(Val(x), Val(y));
  }

  /// The differenced voicing source is `c - c z^-1`, `c` the parallel voicing level.
  lemma ParallelSource2IsDifferenced(math: MathLib, p: FrameParms)
    requires Abs(Val(DbToLin(math, p.parallelVoicingDb))) > EPS
    ensures ParallelSource2(math, p) == Differenced(Val(DbToLin(math, p.parallelVoicingDb)))
  {
    DifferencedGain(Val(DbToLin(math, p.parallelVoicingDb)));
  }

  /// Disabled parallel formants contribute silence.
  lemma ParallelFormantsSilent(math: MathLib, sampleRate: nat, p: FrameParms)
    requires !NasalFormantParEnabled(Current, math, p)
    requires forall k :: 0 <= k < MAX_ORAL_FORMANTS ==> !OralFormantParEnabled(Current, math, p, k)
    ensures ParallelNasal(math, sampleRate, p) == Ok(Silence)
    ensures ParallelOrals(math, sampleRate, p, ParallelSource(math, p), ParallelSource2(math, p), Silence, 0)
            == Ok(Silence)
  {
    ParallelNasalMuted(math, sampleRate, p);
    ParallelOralsSilent(math, sampleRate, p, ParallelSource(math, p), ParallelSource2(math, p), 0);
  }

  /// With the nasal and oral formants disabled, the parallel branch is what the bypass path adds
  /// to silence.
  lemma ParallelTfOfSilentFormants(math: MathLib, sampleRate: nat, p: FrameParms, tf: Fraction)
    requires !NasalFormantParEnabled(Current, math, p)
    requires forall k :: 0 <= k < MAX_ORAL_FORMANTS ==> !OralFormantParEnabled(Current, math, p, k)
    requires Sum(Silence, Product(ParallelSource2(math, p), Gain(Val(DbToLin(math, p.parallelBypassDb))), Some(EPS)),
                 Some(EPS)) == Ok(tf)
    ensures ParallelTf(math, sampleRate, p) == Ok(tf)
  {
    ParallelFormantsSilent(math, sampleRate, p);
  }

  /// Silence plus the bypass level `b` applied to the differenced gain `c - c z^-1`.
  lemma BypassOfDifferencedGain(c: real, b: real)
    requires Abs(Times(c, b)) > EPS
    ensures Sum(Silence, Product(Differenced(c), Gain(b), Some(EPS)), Some(EPS)) == Ok(Differenced(Times(c, b)))
  {
    ScaledDifference(c, b);
    SilencePlusDifference(Times(c, b));
  }

  /// With both branches disabled the vocal tract is silent: its transfer function, when there
  /// is one, has the zero numerator, and there is one exactly when the tilt filter accepts its
  /// parameters and the sample rate is positive.
  lemma SilentTractWithoutBranches(math: MathLib, mParms: MainParms, p: FrameParms)
    requires !p.cascadeEnabled && !p.parallelEnabled
    ensures VocalTractTf(math, mParms, p).Ok?
            <==> mParms.sampleRate > 0 && TiltSetting(math, mParms.sampleRate, p.tiltDb).Ok?
    ensures VocalTractTf(math, mParms, p).Ok? ==> VocalTractTf(math, mParms, p).value.num == [0.0]
  {
    SilencePlusSilence();
    assert BranchesTf(math, mParms.sampleRate, p) == Ok(Silence);
    var voice := VoiceTf(math, mParms.sampleRate, p.tiltDb);
    if voice.Ok? {
      var out := MultiplyFractions(voice.value, Silence, Some(EPS)).value;
      assert out.num == [0.0];
      SilentOutput(math, mParms.sampleRate, out, p.gainDb);
    }
  }

  /// Silence stays silent through the output low-pass and the gain.
  lemma SilentOutput(math: MathLib, sampleRate: nat, out: Fraction, gainDb: F64)
    requires WellFormed(out) && out.num == [0.0]
    ensures OutputTf(math, sampleRate, out, gainDb).Ok? <==> sampleRate > 0
    ensures OutputTf(math, sampleRate, out, gainDb).Ok? ==> OutputTf(math, sampleRate, out, gainDb).value.num == [0.0]
  {
    if sampleRate > 0 {
      var lp := OutputLpSetting(math, sampleRate).value;
      ZeroNumeratorAbsorbs(out, ResonatorTf(lp), Some(EPS));
      var db := if IsFinite(gainDb) then gainDb else Fin(0.0);
      ZeroNumeratorAbsorbs(Product(out, ResonatorTf(lp), Some(EPS)), Gain(Val(DbToLin(math, db))), Some(EPS));
    }
  }
}
