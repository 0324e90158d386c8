# Klatt formant synthesiser — a Dafny model

This project models the core of a Rust port of the Klatt cascade/parallel formant synthesiser
(Klatt 1980, with the KLGLOTT88 "natural" glottal source). The synthesiser turns a sequence
of frame parameters into samples, one F0 period at a time:

- a glottal source produces the voice: an impulse train through a low-pass resonator, the
  KLGLOTT88 flow derivative, or white noise;
- a tilt filter shapes it and breathiness noise is added during the open phase;
- the cascade branch runs the voice through the nasal antiformant, the nasal formant and six
  oral formants in series;
- the parallel branch sends it through F1 directly and, after a differencing filter, through
  F2 .. F6 with alternating signs, plus a bypass path;
- the sum of both branches goes through a Nyquist low-pass resonator and is scaled by the
  frame's gain, or by automatic gain control when the gain is NaN.

The same filters also yield the rational z-plane transfer function of the whole vocal tract.
That function is built with a small real-polynomial library: trim, add, multiply, long
division, monic GCD and fraction arithmetic.

Two versions of the generator are modelled side by side through `Params.Variant`:

- `Current` is `klatt/src/klatt.rs`, the validated version, whose setters return errors.
- `Snapshot` is the earlier `src/lib.rs`, which does not validate and differs in several
  details:
  - its nasal enable tests;
  - `db_to_lin` of NaN;
  - the natural source's amplitude;
  - a constant noise and flutter offset;
  - the parallel F1 is stepped twice.

The polynomial library is modelled once. `klatt/src/poly_real.rs` and
`reference-implementation/src/poly_real.rs` are the same algorithm and differ only in Rust
idiom; rows below cite either copy.

Modules and files:

- `status.dfy` (`Status`): `Option` and `Result`.
- `float64.dfy` (`Float64`): the `F64` datatype. It covers finite values, NaN and infinities,
  with IEEE comparisons for the parameters the code tests for NaN or finiteness. `MathLib` is
  the record of libm functions, passed as a parameter.
- `poly_real.dfy` (`PolyReal`): the polynomial library. Its methods are proved against
  specification functions, and its lemmas relate those functions to exact polynomial algebra:
  - the division identity;
  - multiplication followed by division;
  - tolerance bounds for trim, add, multiply and fraction products;
  - a monic GCD;
  - the cases of fraction addition.
- `params.dfy` (`Params`): the main and frame parameters and the per-frame linear levels. It
  also holds the pure rules:
  - dB to linear;
  - flutter;
  - period and open-phase length;
  - which formants a frame enables.
- `filters.dfy` (`Filters`): classes for the first-order low-pass filter, the resonator, the
  anti-resonator and the differencing filter. Every `step` is proved to solve the filter's
  transfer function as a difference equation.
- `sources.dfy` (`Sources`): the low-pass noise source and the impulsive and natural glottal
  sources, as classes.
- `setters.dfy` (`Setters`): the per-frame setters for the tilt filter and the cascade and
  parallel formants, with their error cases.
- `branches.dfy` (`Branches`): the cascade and parallel filter banks as classes, each
  abstracted by a state value with step and tuning functions.
- `agc.dfy` (`GainControl`): the RMS computation and automatic gain control over an array
  slice.
- `generator.dfy` (`Synthesis`): the `Generator` class with `generate_frame` and its
  per-sample and per-period steps, and `generate_sound`.
- `transfer.dfy` (`Transfer`): the transfer-function composition of the current version.

## Model

| member | source | states |
|---|---|---|
| PolyReal.KeptLength | klatt/src/poly_real.rs:133-136 | the kept length is the last coefficient above the tolerance; every coefficient from it up to the bound is within the tolerance |
| PolyReal.Trimmed | klatt/src/poly_real.rs:125-145 | fails exactly on the empty array; otherwise a non-empty trim of the input: a prefix with every dropped coefficient within tolerance, or `[0.0]` |
| PolyReal.Trim | klatt/src/poly_real.rs:125-145 | the loop computes `Trimmed` |
| PolyReal.TrimWithinTolerance | reference-implementation/src/poly_real.rs:121-141 | every coefficient of the trimmed polynomial is within the tolerance of the input's |
| PolyReal.TrimExact | reference-implementation/src/poly_real.rs:121-141 | with tolerance 0 trimming keeps the polynomial's coefficients exactly |
| PolyReal.CompareEqual | klatt/src/poly_real.rs:8-21 | true exactly when all coefficients, zero-extended, lie within the tolerance |
| PolyReal.CompareEqualExact | reference-implementation/src/poly_real.rs:4-17 | with tolerance 0 the comparison is equality of coefficients, both directions |
| PolyReal.Added | klatt/src/poly_real.rs:24-35 | the sum of two non-empty polynomials always succeeds and is no longer than the longer operand |
| PolyReal.Add | klatt/src/poly_real.rs:24-35 | the loop computes `Added` |
| PolyReal.AddWithinTolerance | reference-implementation/src/poly_real.rs:20-31 | each coefficient of the result is within the tolerance of the exact sum of coefficients |
| PolyReal.Multiplied | klatt/src/poly_real.rs:38-59 | fails exactly when an operand is empty, with an arithmetic error; otherwise non-empty |
| PolyReal.Multiply | klatt/src/poly_real.rs:38-59 | the nested loops compute `Multiplied` |
| PolyReal.MultiplyWithinTolerance | reference-implementation/src/poly_real.rs:34-55 | each coefficient of the result is within the tolerance of the exact convolution coefficient |
| PolyReal.DividedByReal | klatt/src/poly_real.rs:171-177 | same length, and each result coefficient times the divisor gives back the input coefficient |
| PolyReal.DivByReal | klatt/src/poly_real.rs:171-177 | the loop computes `DividedByReal` |
| PolyReal.Monic | klatt/src/poly_real.rs:150-169 | fails exactly on an empty array or a zero leading coefficient, with an arithmetic error; otherwise the leading coefficient is 1 and each coefficient times the old leading one is the old coefficient |
| PolyReal.MakeMonic | klatt/src/poly_real.rs:150-169 | in place on the array: on success the array holds `Monic` of its old contents, on failure it is unchanged and the same error is returned |
| PolyReal.EliminationStep | klatt/src/poly_real.rs:88-94 | one elimination round keeps the length of the working array |
| PolyReal.Eliminate | klatt/src/poly_real.rs:88-94 | all elimination rounds keep the length of the working array |
| PolyReal.Divided | klatt/src/poly_real.rs:65-98 | fails exactly on an empty operand or a divisor that trims to zero, with an arithmetic error; otherwise quotient and remainder are non-empty and the remainder is zero or shorter than the trimmed divisor |
| PolyReal.LongDivision | klatt/src/poly_real.rs:80-97 | the remainder is zero or of lower degree than the divisor |
| PolyReal.Divide | klatt/src/poly_real.rs:65-98 | the method computes `Divided` |
| PolyReal.EliminateAll | klatt/src/poly_real.rs:87-94 | the outer loop computes `Eliminate` |
| PolyReal.EliminateAt | klatt/src/poly_real.rs:89-93 | the inner loop computes `EliminationStep` |
| PolyReal.DivisionIdentity | reference-implementation/src/poly_real.rs:59-92 | with tolerance 0, dividend = quotient × divisor + remainder, coefficient by coefficient |
| PolyReal.LongDivisionIdentity | klatt/src/poly_real.rs:80-97 | the elimination loop establishes dividend = quotient × divisor + remainder |
| PolyReal.RemainderIsTrimmed | reference-implementation/src/poly_real.rs:89-91 | with tolerance 0 the remainder is `[0.0]` or has a non-zero leading coefficient |
| PolyReal.QuotientIsUnique | reference-implementation/src/poly_real.rs:59-92 | if p×q = Q×q + R with R of lower degree than q, then Q = p and R = 0 |
| PolyReal.MultiplyThenDivide | reference-implementation/src/poly_real.rs:34-92 | with tolerance 0, multiplying by a non-zero q and dividing by q gives back p with remainder `[0.0]` |
| PolyReal.GcdLoop | klatt/src/poly_real.rs:109-121 | the Euclidean loop returns `[1.0]` or a monic polynomial and fails only with an arithmetic error; with tolerance 0 it divides both polynomials it starts from (`GcdLoopDividesPair`) and every common divisor of them divides it (`GcdLoopIsGreatest`) |
| PolyReal.GcdOf | klatt/src/poly_real.rs:101-122 | fails on an empty operand, with an arithmetic error; a result is `[1.0]` or monic, and with tolerance 0 a common divisor of both operands (`GcdDividesOperands`) that every common divisor divides (`GcdIsGreatest`) |
| PolyReal.GcdOfTrimmed | klatt/src/poly_real.rs:104-121 | after trimming, a result is `[1.0]` or monic and an error is arithmetic; with tolerance 0 it is the greatest common divisor, as `GcdDividesOperands` and `GcdIsGreatest` prove |
| PolyReal.MakeMonicVec | klatt/src/poly_real.rs:150-169 | `make_monic` applied to a vector computes `Monic` |
| PolyReal.Gcd | klatt/src/poly_real.rs:101-122 | the method computes `GcdOf`, the monic greatest common divisor of the operands |
| PolyReal.EuclidLoop | klatt/src/poly_real.rs:109-121 | the loop computes `GcdLoop`, a common divisor of the polynomials it starts from that each of their common divisors divides |
| PolyReal.EuclidStep | klatt/src/poly_real.rs:110-120 | one round either finishes with the loop's result or hands a shorter monic remainder to a loop with the same result |
| PolyReal.ProductIsAssociative | reference-implementation/src/poly_real.rs:34-55 | exact polynomial multiplication is associative, coefficient by coefficient |
| PolyReal.DividesCombination | reference-implementation/src/poly_real.rs:59-92 | a common divisor of the divisor and the remainder divides the dividend q·b + r |
| PolyReal.DividesMonicOriginal | klatt/src/poly_real.rs:150-169 | a divisor of a polynomial made monic divides the polynomial itself |
| PolyReal.GcdLoopDividesPair | klatt/src/poly_real.rs:109-121 | with tolerance 0, the loop's result divides both polynomials it starts from |
| PolyReal.GcdDividesOperands | klatt/src/poly_real.rs:100-122 | with tolerance 0, the monic GCD divides both operands: each is a product of some quotient with it |
| PolyReal.DividesRemainder | klatt/src/poly_real.rs:110-120 | a common divisor of a dividend and a divisor divides the remainder |
| PolyReal.DividesMonic | klatt/src/poly_real.rs:150-169 | a divisor of a polynomial divides the polynomial made monic |
| PolyReal.GcdLoopIsGreatest | klatt/src/poly_real.rs:109-121 | with tolerance 0, every common divisor of the two polynomials the loop starts from divides its result |
| PolyReal.GcdIsGreatest | klatt/src/poly_real.rs:100-122 | with tolerance 0, every common divisor of the two operands divides their monic GCD |
| PolyReal.MultiplyFractions | klatt/src/poly_real.rs:208-216 | fails exactly when a numerator or denominator is empty, with an arithmetic error; otherwise both parts are non-empty |
| PolyReal.MultiplyFractionsWithinTolerance | reference-implementation/src/poly_real.rs:200-208 | numerator and denominator are within the tolerance of the exact products |
| PolyReal.AddFractions | klatt/src/poly_real.rs:181-206 | denominators equal within the tolerance always succeed and keep the first denominator; an error comes only from different denominators whose GCD fails or an empty numerator, and is an arithmetic error; a result is the empty fraction or has non-empty parts |
| PolyReal.AddFractionsExact | klatt/src/poly_real.rs:181-206 | with tolerance 0, equal denominators add numerators and keep the denominator; denominators whose greatest common divisor is 1, i.e. coprime by `GcdIsGreatest`, give the cross-multiplied fraction |
| PolyReal.CommonFactorIsRejectedLater | klatt/src/poly_real.rs:190-205 | denominators whose greatest common divisor is not 1 (a non-trivial common factor, by `GcdIsGreatest`) give the empty fraction, which the next multiplication rejects |
| Params.DbToLin | klatt/src/klatt.rs:703-709 | −99 dB and below, and NaN, give 0; other finite values give 10^(dB/20); +∞ gives +∞; never NaN |
| Params.SnapshotDbToLin | src/lib.rs:1103-1109 | NaN in gives NaN out, both directions |
| Params.DbToLinVersionsAgree | src/lib.rs:1103-1109 | the two versions agree except on NaN, where the current gives 0 and the snapshot NaN |
| Params.FrameStateOf | klatt/src/klatt.rs:1149-1172 | the gain is the linear gain of a finite `gain_db` and of 0 dB otherwise (current); the voicing levels are the linear levels of their dB fields |
| Params.FormantField | klatt/src/klatt.rs:1256-1266 | the i-th entry when present, NaN past the end |
| Params.PerformFrequencyModulation | klatt/src/klatt.rs:691-699 | a flutter level of 0 or below leaves F0 unchanged; a NaN F0 or level gives NaN |
| Params.FlutterDeviationBounded | klatt/src/klatt.rs:695-698 | with sines in [−1, 1] the modulated F0 deviates from F0 by at most \|F0\|·3·level/50 |
| Params.FlutterTime | klatt/src/klatt.rs:1126 | the intended flutter time, the position in seconds as a real number plus the offset; the generator uses `FlutterTimeAsWritten` |
| Params.FlutterTimeAdvances | klatt/src/klatt.rs:1126-1128 | a later sample has a strictly later flutter time |
| Params.FlutterTimeAsWrittenDiffers | klatt/src/klatt.rs:1126 | the integer division maps samples 0 and 1 at 10 kHz to the same time; the intended clock does not |
| Params.FlutterTimeAsWritten | klatt/src/klatt.rs:1126 | the flutter time the code computes: the whole seconds elapsed plus the offset, bracketing the position |
| Params.FlutterConstantWithinSecond | klatt/src/klatt.rs:1124-1128 | two periods that start within the same second of the sound get the same period state |
| Params.PeriodLength | klatt/src/klatt.rs:1130-1134 | a non-positive or NaN F0 gives a period of 1 sample |
| Params.OpenPhaseLength | klatt/src/klatt.rs:1136-1140 | periods of at most one sample have no open phase |
| Params.NewPeriod | klatt/src/klatt.rs:1124-1142 | a new period starts at position 0; a period of at most one sample has no open phase; its F0 is the frame's F0 modulated at the whole-second flutter time the code computes, so without flutter it is the frame's F0 |
| Params.OpenPhaseWithinPeriod | klatt/src/klatt.rs:1136-1140 | with a sound rounding and a ratio in [0, 1] the open phase fits in the period |
| Params.NasalTestsAsWrittenAdmitNaN | klatt/src/klatt.rs:1227-1290 | the `!= 0.0` tests enable a NaN nasal formant or antiformant, which the intended tests refuse; on non-NaN input the two agree, both directions |
| Params.EnabledFormantsHaveNumbers | klatt/src/klatt.rs:1227-1290 | under the intended tests, and in the snapshot, every enabled nasal filter gets a frequency and a bandwidth that are not NaN |
| Params.NasalFormantCascEnabled | klatt/src/klatt.rs:1231 | current: enabled exactly when frequency and bandwidth are each given or NaN (`!= 0.0`); snapshot: both at least 0 (src/lib.rs:984) |
| Params.NasalAntiformantCascEnabled | klatt/src/klatt.rs:1243 | current: enabled exactly when frequency and bandwidth are each given or NaN (`!= 0.0`); snapshot: both finite (src/lib.rs:992) |
| Params.NasalFormantParEnabled | klatt/src/klatt.rs:1280-1282 | current: enabled exactly when the cascade test passes and the linear level is not 0; snapshot: all three finite (src/lib.rs:1018-1020) |
| Params.OralFormantCascEnabled | klatt/src/klatt.rs:1256-1268 | an enabled oral formant has both its frequency and bandwidth entries present |
| Params.OralFormantParEnabled | klatt/src/klatt.rs:1299-1324 | an enabled oral formant has its frequency and bandwidth entries, and in the snapshot its level entry too |
| Params.NasalFormantCascGiven | klatt/src/klatt.rs:747-750 | the intended cascade nasal-formant test: both values given, neither 0 nor NaN |
| Params.NasalAntiformantCascGiven | klatt/src/klatt.rs:765-768 | the intended nasal-antiformant test: both values given, neither 0 nor NaN |
| Params.NasalFormantParGiven | klatt/src/klatt.rs:747-750 | the intended parallel nasal-formant test: both values given and a non-zero level |
| Params.MissingOralFormantsAreDisabled | klatt/src/klatt.rs:1299-1324 | oral formants past the end of the frequency or bandwidth vector are disabled in both branches |
| Params.DerivedFrameEqMissesAgcFrames | klatt/src/klatt.rs:729-789 | under the derived equality a frame with a NaN gain is not equal to itself |
| Params.ReuseCheckRefinesDerivedEq | klatt/src/klatt.rs:973-976 | frames equal under the derived equality are the same frame, and the intended check recognises every frame as re-used |
| Params.DerivedFrameEq | klatt/src/klatt.rs:728-729 | the derived `PartialEq` of frames: every field compared with IEEE `==` |
| Params.IsReusedFrame | klatt/src/klatt.rs:973-976 | the intended re-use check: the same frame again |
| Filters.LpFilter1.constructor | klatt/src/klatt.rs:77-86 | a new filter is in pass-through with zero coefficients and state |
| Filters.LpFilter1.Tune | klatt/src/klatt.rs:96-116 | sets the coefficients computed from frequency, gain and extra gain; leaves pass-through and mute; keeps `y1` |
| Filters.LpFilter1.Set | klatt/src/klatt.rs:96-116 | succeeds exactly on accepted parameters, tuning the filter; otherwise "Invalid filter parameters." and no change |
| Filters.LpFilter1.SetPassthrough | klatt/src/klatt.rs:118-122 | pass-through on, mute off, `y1` cleared, coefficients kept |
| Filters.LpFilter1.SetMute | klatt/src/klatt.rs:125-129 | mute on, pass-through off, `y1` cleared, coefficients kept |
| Filters.LpFilter1.Step | klatt/src/klatt.rs:150-160 | output and new state are the filter's output and next-state functions of the old state and input |
| Filters.Lp1StepSolvesTransferFunction | klatt/src/klatt.rs:133-160 | the step's output satisfies the difference equation of the filter's transfer function |
| Filters.LpFilter1.TransferFunctionCoefficients | klatt/src/klatt.rs:133-141 | the reported fraction is the one every step of the filter solves: `y[n] − b·y[n−1] = a·x[n]`, or pass-through, or silence |
| Filters.Resonator.constructor | klatt/src/klatt.rs:224-236 | a new resonator is in pass-through with zero state |
| Filters.Resonator.Reset | klatt/src/klatt.rs:587-589 | re-creating the resonator returns it to the fresh state |
| Filters.Resonator.Tune | klatt/src/klatt.rs:244-264 | sets a, b, c from frequency, bandwidth and DC gain; clears pass-through and mute |
| Filters.Resonator.Set | klatt/src/klatt.rs:244-264 | succeeds exactly on accepted parameters, tuning; otherwise "Invalid resonator parameters." and no change |
| Filters.Resonator.SetPassthrough | klatt/src/klatt.rs:266-271 | pass-through on, mute off, both delays cleared |
| Filters.Resonator.SetMute | klatt/src/klatt.rs:273-278 | mute on, pass-through off, both delays cleared |
| Filters.Resonator.AdjustImpulseGain | klatt/src/klatt.rs:280-282 | only `a` changes, to the new value |
| Filters.Resonator.TunePeakGain | klatt/src/klatt.rs:288 | `a` becomes peak gain × (1 − r), nothing else changes |
| Filters.Resonator.AdjustPeakGain | klatt/src/klatt.rs:284-290 | fails exactly when the gain is ≤ 0 or infinite (a NaN passes), leaving the state; otherwise `a` = gain × (1 − r) |
| Filters.Resonator.Step | klatt/src/klatt.rs:311-322 | output and new state are the resonator's output and next-state functions |
| Filters.ResonatorStepSolvesTransferFunction | klatt/src/klatt.rs:294-322 | the step solves the resonator's difference equation; an active resonator shifts its delays |
| Filters.Resonator.TransferFunctionCoefficients | klatt/src/klatt.rs:294-302 | the reported fraction is the one every step of the resonator solves |
| Filters.AntiResonator.constructor | klatt/src/klatt.rs:365-377 | a new anti-resonator is in pass-through with zero state |
| Filters.AntiResonator.Tune | klatt/src/klatt.rs:385-411 | the coefficients become the tuned ones; with a non-zero a0 pass-through and mute go off, with a0 = 0 the flags are kept |
| Filters.AntiResonator.Set | klatt/src/klatt.rs:385-411 | succeeds exactly on accepted parameters, tuning; otherwise "Invalid anti-resonator parameters." and no change |
| Filters.AntiResonator.SetPassthrough | klatt/src/klatt.rs:413-418 | pass-through on, mute off, both input delays cleared |
| Filters.AntiResonator.SetMute | klatt/src/klatt.rs:421-426 | mute on, pass-through off, both input delays cleared |
| Filters.AntiResonator.Step | klatt/src/klatt.rs:446-457 | output and new state are the anti-resonator's output and next-state functions |
| Filters.AntiResonatorStepSolvesTransferFunction | klatt/src/klatt.rs:430-457 | the step solves the anti-resonator's difference equation; an active one shifts its input delays |
| Filters.AntiResonator.TransferFunctionCoefficients | klatt/src/klatt.rs:430-438 | the reported fraction is the one every step of the anti-resonator solves |
| Filters.AntiResonatorUnitDcGain | klatt/src/klatt.rs:400-410 | after tuning a + b + c = 1, unit gain at DC, and the transfer function's numerator is [a, b, c] |
| Filters.DifferencingFilter.constructor | klatt/src/klatt.rs:493-495 | the delay starts at 0 |
| Filters.DifferencingFilter.Step | klatt/src/klatt.rs:508-512 | the output is x − x1 and the delay takes x |
| Filters.DifferencingSolvesTransferFunction | klatt/src/klatt.rs:498-512 | the step solves the difference equation of 1 − z⁻¹ |
| Filters.DifferencingFilter.TransferFunctionCoefficients | klatt/src/klatt.rs:498-500 | the reported `1 − z⁻¹` is the one every step of the filter solves |
| Sources.LpNoiseSource.constructor | klatt/src/klatt.rs:545-548 | a fresh low-pass filter in pass-through at the sample rate and an unread noise stream |
| Sources.LpNoiseSource.New | klatt/src/klatt.rs:531-551 | fails exactly when the current version rejects the 1 kHz filter (always at 2 kHz and below); otherwise the filter is tuned to the compensated gain |
| Sources.LpNoiseSource.GetNext | klatt/src/klatt.rs:554-557 | draws the next noise value and returns the filter's output on it |
| Sources.PulseIsDoublet | klatt/src/klatt.rs:603-609 | the running sum of the pulse train is 1 only between its two pulses and 0 otherwise, so the excitation carries no DC |
| Sources.ImpulsiveGlottalSource.constructor | klatt/src/klatt.rs:571-577 | no resonator, position 0 |
| Sources.ImpulsiveGlottalSource.StartPeriod | klatt/src/klatt.rs:582-596 | no open phase drops the resonator; otherwise tunes it to bandwidth sr/open-phase with impulse gain 1; fails exactly on a zero sample rate (current) |
| Sources.ImpulsiveGlottalSource.GetNext | klatt/src/klatt.rs:598-613 | 0 without a resonator; otherwise the resonator's output on the pulse at the current position, which advances |
| Sources.NaturalBVersions | src/lib.rs:569-576 | the current b is −5/n², the snapshot's is five times that |
| Sources.NaturalGlottalSource.constructor | klatt/src/klatt.rs:636-647 | starts a period of length 0 |
| Sources.NaturalGlottalSource.StartPeriod | klatt/src/klatt.rs:653-660 | sets the open phase, b for the version, a = −b·n/3, x = 0, position 0 |
| Sources.NaturalGlottalSource.GetNext | klatt/src/klatt.rs:662-671 | advances the position; outside the open phase returns and keeps 0; inside returns the KLGLOTT88 flow derivative at that position |
| Sources.Draw | klatt/src/klatt.rs:518-522 | a white-noise draw lies in -1 .. 1 |
| Sources.FlowClosedForm | klatt/src/klatt.rs:653-671 | the slope after k open-phase samples is −b·n/3 + k·b and the signal k·(−b·n/3) + b·k(k+1)/2, the KLGLOTT88 flow derivative |
| Setters.SetTiltFilter | klatt/src/klatt.rs:1218-1225 | 0 dB always succeeds; otherwise succeeds exactly when the 3 kHz filter is accepted (current); the tilt state is the tuned one, or unchanged on error |
| Setters.SetResonatorOrPassthrough | klatt/src/klatt.rs:1231-1235 | disabled sets pass-through; enabled succeeds exactly on accepted parameters; unchanged on error |
| Setters.SetNasalFormantCasc | klatt/src/klatt.rs:1227-1237 | the nasal formant is tuned when its frequency and bandwidth are `!= 0.0` (a NaN passes), else pass-through; the error cases are exactly the rejected parameters |
| Setters.SetNasalAntiformantCasc | klatt/src/klatt.rs:1239-1249 | the antiformant is tuned when its frequency and bandwidth are `!= 0.0` (a NaN passes), else pass-through; the error cases are exactly the rejected parameters |
| Setters.SetOralFormantCasc | klatt/src/klatt.rs:1251-1274 | oral formant i is tuned when its frequency and bandwidth are finite, else pass-through; the error cases are exactly the rejected parameters |
| Setters.SetResonatorOrMute | klatt/src/klatt.rs:1283-1288 | disabled mutes; enabled succeeds exactly on accepted parameters and a valid peak gain, with the error message naming the first failing check |
| Setters.SetAndAdjustPeakGain | klatt/src/klatt.rs:1284-1285 | succeeds exactly on accepted parameters and a positive finite peak gain; the message names the failing check |
| Setters.SetNasalFormantPar | klatt/src/klatt.rs:1276-1290 | the parallel nasal formant is tuned to its peak gain when frequency, bandwidth and linear level are `!= 0.0`, else muted; the error cases are exactly the rejected settings |
| Setters.ParallelPeakGain | klatt/src/klatt.rs:1326-1334 | F1 keeps the peak gain; F2 .. F6 divide it by the differencing filter's gain at the formant frequency |
| Setters.ZeroFrequencyFormantGainIsNotFinite | klatt/src/klatt.rs:1326-1334 | a formant above F1 at 0 Hz gets a non-finite gain: ±∞ for a non-zero peak gain, which `adjust_peak_gain` rejects, and NaN for a zero one, which it accepts |
| Setters.SetOralFormantPar | klatt/src/klatt.rs:1292-1341 | oral formant i is tuned to its compensated peak gain when enabled, else muted; the error cases are exactly the rejected settings |
| Setters.ParallelOralTuned | klatt/src/klatt.rs:1292-1341 | a parallel oral formant is never in pass-through; it is muted with cleared memory exactly when the frame disables it, and keeps its memory when tuned |
| Setters.NaNNasalFiltersAreTuned | klatt/src/klatt.rs:1227-1249 | a NaN nasal frequency and bandwidth pass the enable tests and `set`'s checks, so the current version tunes the nasal filters to them |
| Branches.ChainNext | klatt/src/klatt.rs:1054-1056 | each resonator of a chain steps on the output of the ones before it |
| Branches.PassthroughChainIsIdentity | klatt/src/klatt.rs:1054-1056 | a chain of pass-through resonators passes its input through |
| Branches.PassthroughChainKeepsStates | klatt/src/klatt.rs:1054-1056 | a chain of pass-through resonators keeps its states |
| Branches.MutedStageSilencesChain | klatt/src/klatt.rs:1051-1057 | a muted stage followed only by pass-through or muted stages silences the chain |
| Branches.TransparentCascade | klatt/src/klatt.rs:1051-1057 | a cascade whose filters are all in pass-through outputs its input |
| Branches.AfterF1 | klatt/src/klatt.rs:1095 | F1 steps on the source, the other formants are untouched |
| Branches.ParallelFormantsNext | klatt/src/klatt.rs:1093-1100 | the parallel formants keep their number |
| Branches.ParallelFormantRouting | klatt/src/klatt.rs:1093-1100 | F1 steps once on the source, F2 .. F6 once each on the differenced source, and the sum takes signs +, −, +, −, +, − |
| Branches.SnapshotRunsF1Twice | src/lib.rs:858-868 | in the snapshot F1 steps on the source and then on the differenced source, and enters the sum a second time |
| Branches.SignedSumSplit | klatt/src/klatt.rs:1096-1100 | the signed sum of formant outputs splits at any index |
| Branches.MutedFormantsAreSilent | klatt/src/klatt.rs:1096-1100 | muted formants contribute nothing to the signed sum |
| Branches.SilentParallelBranch | klatt/src/klatt.rs:1093-1103 | with every parallel formant muted and no bypass the branch outputs 0 |
| Branches.CascadeTuned | klatt/src/klatt.rs:1162-1166 | tuning keeps the number of oral formants |
| Branches.ParallelTuned | klatt/src/klatt.rs:1173-1176 | tuning keeps the number of oral formants and the differencing delay |
| Branches.CascadeTunedFollows | klatt/src/klatt.rs:1162-1166 | after tuning, the nasal formant and each oral formant are in pass-through exactly when the code's enable tests fail for them, and a disabled antiformant is in pass-through |
| Branches.ParallelTunedFollows | klatt/src/klatt.rs:1173-1176 | after tuning, each parallel formant is muted exactly when the code's enable test fails for it |
| Branches.CascadeWithoutFormantsIsTransparent | klatt/src/klatt.rs:1051-1057 | a cascade tuned to a frame without nasal and oral formants passes its input through |
| Branches.ParallelWithoutFormantsIsBypass | klatt/src/klatt.rs:1092-1103 | a parallel branch tuned to a frame without formants outputs the bypass level times the differenced source |
| Branches.NewResonators | klatt/src/klatt.rs:954-961 | n distinct fresh resonators at the sample rate |
| Branches.CascadeFilters.constructor | klatt/src/klatt.rs:937-939 | a wired cascade bank of fresh filters at the sample rate |
| Branches.CascadeFilters.Step | klatt/src/klatt.rs:1051-1057 | output and new state are the cascade's output and next-state functions |
| Branches.CascadeFilters.StepChain | klatt/src/klatt.rs:1054-1056 | the oral loop computes the chain's output and states |
| Branches.CascadeFilters.Adjust | klatt/src/klatt.rs:1162-1166 | returns `CascadeStatus` of the frame (the first rejecting filter's error); on success the bank's state is `CascadeTuned` of the old one |
| Branches.CascadeFilters.AdjustOralFormants | klatt/src/klatt.rs:1164-1166 | returns `CascadeOralsStatus` from F1; on success each oral formant holds its tuned state |
| Branches.ParallelFilters.constructor | klatt/src/klatt.rs:942-944 | a wired parallel bank of fresh filters at the sample rate |
| Branches.ParallelFilters.Step | klatt/src/klatt.rs:1074-1103 | output and new state are the parallel branch's output and next-state functions |
| Branches.ParallelFilters.StepFilters | klatt/src/klatt.rs:1074-1099 | the differencing filter, the nasal formant and the oral formants each step once; each output is the one the branch's functions give for the old state |
| Branches.ParallelFilters.Adjust | klatt/src/klatt.rs:1173-1176 | returns `ParallelStatus` of the frame (the first rejecting formant's error); on success the bank's state is `ParallelTuned` of the old one |
| Branches.ParallelFilters.AdjustOralFormants | klatt/src/klatt.rs:1174-1176 | returns `ParallelOralsStatus` from F1; on success each oral formant holds its tuned state |
| Branches.ParallelFilters.StepOralFormants | klatt/src/klatt.rs:1095-1100 | returns the parallel formants' sum and leaves their next states |
| Branches.ParallelFilters.StepFormants | klatt/src/klatt.rs:1096-1100 | the loop from `lo` computes the signed sum and steps exactly those formants |
| Branches.ParallelFilters.TuneOralFormant | klatt/src/klatt.rs:1175 | sets formant `i` from the frame, keeping the others; an error is the orals' status from `i`, success passes the status on to `i + 1` |
| Branches.ParallelOutputOf | klatt/src/klatt.rs:1095-1103 | the nasal output, the signed formant sum and the bypass term add up to the branch output |
| Branches.CascadeOralsStatus | klatt/src/klatt.rs:1164-1166 | an error occurs only in the current version, as "Invalid resonator parameters." |
| Branches.CascadeOralsStatusFails | klatt/src/klatt.rs:1164-1166 | the oral formants from `i` fail exactly when one of them rejects its parameters |
| Branches.CascadeStatus | klatt/src/klatt.rs:1162-1166 | the snapshot never fails |
| Branches.CascadeStatusFails | klatt/src/klatt.rs:1162-1166 | adjusting the cascade fails exactly when the nasal formant, the anti-formant or an oral formant rejects its parameters |
| Branches.ParallelOralsStatus | klatt/src/klatt.rs:1174-1176 | an error occurs only in the current version |
| Branches.ParallelOralsStatusFails | klatt/src/klatt.rs:1174-1176 | the parallel oral formants from `i` fail exactly when one of them rejects its parameters or its peak gain |
| Branches.ParallelOralFails | klatt/src/klatt.rs:1174-1176 | a rejecting formant at or after `i` makes the run from `i` fail |
| Branches.ParallelOralFailing | klatt/src/klatt.rs:1174-1176 | a failing run from `i` has a rejecting formant at or after `i` |
| Branches.ParallelStatus | klatt/src/klatt.rs:1173-1176 | the snapshot never fails |
| Branches.ParallelStatusFails | klatt/src/klatt.rs:1173-1176 | adjusting the parallel branch fails exactly when the nasal formant or an oral formant rejects its parameters or its peak gain |
| GainControl.Scale | klatt/src/klatt.rs:1354-1356 | each sample is multiplied by the factor |
| GainControl.AgcOutput | klatt/src/klatt.rs:1343-1357 | gain control keeps the frame length |
| GainControl.ExactSumOfSquaresIsNonNegative | klatt/src/klatt.rs:1360 | the sum of squares is never negative |
| GainControl.SumOfSquaresIsExact | klatt/src/klatt.rs:1360 | with exact squaring `pow(x, 2)` sums to the exact sum of squares |
| GainControl.SumOfSquaresOfScaled | klatt/src/klatt.rs:1353-1356 | scaling by c scales the sum of squares by c² |
| GainControl.RmsSquared | klatt/src/klatt.rs:1359-1361 | the RMS squared is the mean square |
| GainControl.AgcReachesTarget | klatt/src/klatt.rs:1343-1361 | a non-silent frame has exactly the target RMS after gain control |
| GainControl.AgcIsIdempotent | klatt/src/klatt.rs:1343-1361 | applying gain control twice gives the same frame as once |
| GainControl.ComputeRms | klatt/src/klatt.rs:1359-1361 | the loop computes the RMS of the slice |
| GainControl.AdjustSignalGain | klatt/src/klatt.rs:1343-1357 | the slice becomes `AgcOutput` of its old contents, the rest of the array is unchanged |
| GainControl.ScaleFrame | klatt/src/klatt.rs:1353-1356 | the slice is scaled in place, the rest unchanged |
| Synthesis.FrameStatusFrom | klatt/src/klatt.rs:1157-1177 | what the setters report from a stage on; the snapshot never fails |
| Synthesis.FrameStatus | klatt/src/klatt.rs:1147-1178 | what `start_using_new_frame_parameters` reports for a frame; the snapshot never fails |
| Synthesis.FrameStatusRejects | klatt/src/klatt.rs:1157-1177 | a frame is rejected exactly when the tilt filter, the cascade or the parallel branch rejects it, and the error is the first of these |
| Synthesis.InitialState | klatt/src/klatt.rs:914-946 | the state of a new generator is coherent |
| Synthesis.Voiced | klatt/src/klatt.rs:1004-1017 | the voice stage changes only the draws, the tilt filter and the glottal sources, and draws the source's and the breathiness noise |
| Synthesis.CascadeStepped | klatt/src/klatt.rs:1037-1058 | the cascade step changes only its aspiration source and its filters |
| Synthesis.ParallelStepped | klatt/src/klatt.rs:1060-1104 | the parallel step changes only its aspiration and frication sources and its filters |
| Synthesis.BranchesCompose | klatt/src/klatt.rs:1019-1031 | the cascade then the parallel step give the branch sum and the branch state |
| Synthesis.BranchesStepped | klatt/src/klatt.rs:1019-1031 | stepping the enabled branches keeps the state coherent |
| Synthesis.BranchesAfterVoiced | klatt/src/klatt.rs:1004-1031 | the voice stage leaves what the branches read unchanged |
| Synthesis.Sampled | klatt/src/klatt.rs:1003-1035 | a sample keeps the frames, levels, period and position |
| Synthesis.Advanced | klatt/src/klatt.rs:990-992 | after a sample the period position and the absolute position each advance by one; frames kept |
| Synthesis.Retuned | klatt/src/klatt.rs:1147-1178 | retuning keeps the state coherent |
| Synthesis.Leveled | klatt/src/klatt.rs:1149-1156 | setting the levels keeps the state coherent |
| Synthesis.RetunedInSteps | klatt/src/klatt.rs:1147-1178 | retuning is the levels, the tilt filter, the cascade levels and bank, then the parallel levels and bank |
| Synthesis.ImpulsiveStarted | klatt/src/klatt.rs:582-596 | fails exactly in the current version with an open phase at sample rate 0, as "Invalid resonator parameters."; a resonator exists exactly with an open phase, starting at position 0 with a = 1 |
| Synthesis.GlottalStarted | klatt/src/klatt.rs:1199-1215 | fails exactly for the impulsive source at sample rate 0 with an open phase (current); otherwise only the glottal sources change |
| Synthesis.PeriodStart | klatt/src/klatt.rs:1114-1145 | fails exactly when a pending frame is rejected by `FrameStatus`, with its error; otherwise no frame is pending, the active frame is the pending one if any, the position is kept and the period state is `NewPeriod` |
| Synthesis.Activated | klatt/src/klatt.rs:1115-1120 | after activation a frame is active and none is pending; position kept |
| Synthesis.SampleStep | klatt/src/klatt.rs:980-993 | fails exactly when no period is running and the pending frame is rejected, with `FrameStatus`'s error; otherwise the position advances by one and a frame is active |
| Synthesis.Samples | klatt/src/klatt.rs:979-993 | `n` samples and a coherent state `n` positions on; an error is `FrameStatus`'s of the pending frame, and with no period running it fails exactly then; the snapshot never fails |
| Synthesis.FrameRun | klatt/src/klatt.rs:968-1001 | `n` samples and a state `n` positions on; a re-used frame gives the re-use error; otherwise an error is the frame's `FrameStatus` error, and with no period running it fails exactly when the frame is re-used or rejected; the snapshot never fails |
| Synthesis.FrameRunOfSamples | klatt/src/klatt.rs:978-998 | a frame run is the frame made pending, its samples, then gain control |
| Synthesis.FrameRunAccepted | klatt/src/klatt.rs:968-1001 | a frame that is not re-used and that `FrameStatus` accepts is generated |
| Synthesis.SoundRun | klatt/src/klatt.rs:1381-1389 | a result has the total length of the frames and advances the position by it; the snapshot never fails |
| Synthesis.SoundRunFailure | klatt/src/klatt.rs:1381-1389 | a failure happens only in the current version, and is the re-use error or the `FrameStatus` error of some frame |
| Synthesis.ActiveFrameFresh | klatt/src/klatt.rs:972-976 | accepted, pairwise distinct frames stay so after the first is generated |
| Synthesis.SoundRunSucceeds | klatt/src/klatt.rs:1381-1389 | frames that are all accepted, pairwise distinct and distinct from the active frame are all generated |
| Synthesis.SoundOf | klatt/src/klatt.rs:1370-1390 | a result has the total length of the frames; the snapshot never fails; at 2 kHz and below the current version fails with the noise filter's error |
| Synthesis.SoundOfRejected | klatt/src/klatt.rs:1375 | a rejected noise filter makes the sound fail with its error |
| Synthesis.SoundOfRun | klatt/src/klatt.rs:1375-1389 | otherwise the sound is `SoundRun` of the frames from the initial state |
| Synthesis.NewNoiseSources | klatt/src/klatt.rs:931-934 | fails exactly when the noise filter is rejected (current), with its error; otherwise three fresh, distinct noise sources over the same stream, each at draw 0 |
| Synthesis.NewOwnParts | klatt/src/klatt.rs:918-921 | a fresh tilt filter and output low-pass at the sample rate, in their initial states, and fresh glottal sources: the impulsive one without a resonator in use, the natural one with an empty period |
| Synthesis.NewBranches | klatt/src/klatt.rs:936-944 | two fresh, separate filter banks at the sample rate, in their initial states |
| Synthesis.Generator.constructor | klatt/src/klatt.rs:915-946 | a valid generator with no frame or period yet, position 0, initial levels and a fresh output filter |
| Synthesis.Generator.TuneOutputFilter | klatt/src/klatt.rs:948-950 | the output filter becomes the Nyquist low-pass |
| Synthesis.Generator.New | klatt/src/klatt.rs:914-964 | fails exactly when the noise filter is rejected (current; always at 2 kHz and below); otherwise a fresh valid generator with the Nyquist low-pass |
| Synthesis.Generator.GlottalSourceNext | klatt/src/klatt.rs:1180-1197 | returns the selected glottal source's next value; only the noise source draws noise |
| Synthesis.Generator.NextVoice | klatt/src/klatt.rs:1004-1017 | the tilted voice plus breathiness noise in the open phase, with the tilt filter stepped |
| Synthesis.Generator.ComputeCascadeBranch | klatt/src/klatt.rs:1037-1058 | output and new state are the cascade's on voicing plus modulated aspiration; one noise draw |
| Synthesis.Generator.ComputeParallelBranch | klatt/src/klatt.rs:1060-1104 | output and new state are the parallel branch's on its source and frication; one draw from each noise source |
| Synthesis.Generator.ComputeBranches | klatt/src/klatt.rs:1019-1031 | the sum of the enabled branches, 0 for a disabled one |
| Synthesis.Generator.ComputeNextOutputSignalSample | klatt/src/klatt.rs:1003-1035 | the sample is the output low-pass of the branch sum times the linear gain |
| Synthesis.Generator.OutputStage | klatt/src/klatt.rs:1032-1034 | the output filter steps on the sum, and its output is scaled by the gain |
| Synthesis.Generator.StartGlottalSourcePeriod | klatt/src/klatt.rs:1199-1215 | fails exactly for the impulsive source at sample rate 0 with an open phase (current); the natural source's b follows the open phase; the other source is untouched |
| Synthesis.Generator.StartNewPeriod | klatt/src/klatt.rs:1114-1145 | returns the outcome of `PeriodStart`: it fails exactly when a pending frame is rejected by `FrameStatus`, with that error; on success the pending frame is active with its levels and filters and the new period state is `NewPeriod` at the current position, with the code's whole-second flutter time |
| Synthesis.Generator.ActivateNewFrame | klatt/src/klatt.rs:1115-1120 | the pending frame becomes active; the outcome is its `FrameStatus`, and on success levels and filters are `Retuned` to it |
| Synthesis.Generator.StartUsingNewFrameParameters | klatt/src/klatt.rs:1147-1178 | returns `FrameStatus` of the frame: the error of the first rejecting stage among tilt, cascade and parallel (`FrameStatusRejects`); on success the levels, the tilt filter and both filter banks are tuned to the frame; the snapshot always succeeds |
| Synthesis.Generator.AdjustCascadeBranch | klatt/src/klatt.rs:1159-1166 | the cascade levels are the frame's linear levels; returns `CascadeStatus`, which fails exactly when a cascade filter rejects its parameters (`CascadeStatusFails`); on success the cascade bank is tuned |
| Synthesis.Generator.AdjustParallelBranch | klatt/src/klatt.rs:1168-1176 | the parallel levels are the frame's linear levels; returns `ParallelStatus`, which fails exactly when a parallel formant rejects its parameters or peak gain (`ParallelStatusFails`); on success the parallel bank is tuned |
| Synthesis.Generator.NextSample | klatt/src/klatt.rs:980-993 | returns the outcome and, on success, the sample and new state of `SampleStep`: within a period the next sample and one step on; at a period end a new period first, failing exactly when the pending frame is rejected by `FrameStatus` |
| Synthesis.Generator.BeginPeriod | klatt/src/klatt.rs:981-992 | with no period running, starts one and emits its first sample: the outcome, the sample and the state are `SampleStep`'s |
| Synthesis.Generator.SampleAndAdvance | klatt/src/klatt.rs:990-992 | emits the sample and advances period and absolute position by one |
| Synthesis.Generator.Advance | klatt/src/klatt.rs:991-992 | period and absolute position advance by one, keeping the generator valid |
| Synthesis.Generator.GenerateFrame | klatt/src/klatt.rs:968-1001 | returns the outcome of `FrameRun`; on success the slice holds its samples (gain controlled when the gain is NaN) and the state is the one it leaves; a frame equal to the active one under the derived `PartialEq` is rejected with buffer and state unchanged (current); nothing outside the slice changes |
| Synthesis.Generator.GenerateFrameSamples | klatt/src/klatt.rs:978-998 | with the frame pending and not re-used: returns the outcome of `FrameRun`, and on success the slice holds its samples after gain control and the state is the one it leaves |
| Synthesis.Generator.GainControl | klatt/src/klatt.rs:995-998 | a NaN gain applies gain control to the slice, any other leaves it |
| Synthesis.Generator.GenerateSamples | klatt/src/klatt.rs:979-993 | the loop returns the outcome of `Samples`; on success the slice holds exactly its samples and the state is the one it leaves; nothing outside the slice changes |
| Synthesis.Generator.EmitSample | klatt/src/klatt.rs:980-993 | one turn of the loop: the next sample of the run is stored at its index and the run's remaining samples still follow, or the whole run failed with this error |
| Synthesis.Generator.TiltedGlottal | klatt/src/klatt.rs:1005-1011 | returns the tilt filter's output on the glottal source's next value; only the draws, the tilt filter and the glottal sources change |
| Synthesis.Generator.Breathe | klatt/src/klatt.rs:1013-1017 | adds breathiness noise in the open phase; the result is the voice of `VoiceIn` |
| Synthesis.Generator.DrawBreath | klatt/src/klatt.rs:1013-1016 | draws the breathiness noise, completing the voice stage |
| Synthesis.Generator.ParallelSource | klatt/src/klatt.rs:1063-1074 | the parallel source is voicing plus modulated aspiration; one aspiration draw |
| Synthesis.Generator.FricatedParallel | klatt/src/klatt.rs:1082-1103 | adds modulated frication and steps the parallel filters: the parallel output and state |
| Synthesis.Generator.StepParallelFilters | klatt/src/klatt.rs:1074-1103 | steps the parallel filters on the source and frication: the parallel output and state |
| Synthesis.Generator.ParallelAfterCascade | klatt/src/klatt.rs:1025-1031 | the enabled parallel branch after the cascade: the branch sum and state |
| Synthesis.Generator.ParallelIfEnabled | klatt/src/klatt.rs:1025-1029 | the parallel output and step when enabled, 0 and no change otherwise |
| Synthesis.Generator.StartActivePeriod | klatt/src/klatt.rs:1121-1144 | after the frame is activated, the rest of `PeriodStart`: its outcome and state |
| Synthesis.Generator.SetNewPeriod | klatt/src/klatt.rs:1121-1141 | the period state is `NewPeriod` at the current position; nothing else changes |
| Synthesis.Generator.RetuneFilters | klatt/src/klatt.rs:1157-1177 | returns `FrameStatus`; on success the state is `Retuned` |
| Synthesis.Generator.RetuneTilt | klatt/src/klatt.rs:1157 | returns the tilt status; on success the tilt filter is tuned and nothing else changes |
| Synthesis.Generator.RetuneBranches | klatt/src/klatt.rs:1159-1177 | after the tilt filter, returns `FrameStatus`; on success the state is `Retuned` |
| Synthesis.Generator.SetPending | klatt/src/klatt.rs:978 | the frame becomes pending; nothing else changes |
| Synthesis.Generator.SampleLoop | klatt/src/klatt.rs:979-993 | the loop over the slice: all of it holds the run's samples, or the whole run failed with this error |
| Synthesis.Generator.StoreSample | klatt/src/klatt.rs:990 | stores the sample and keeps the rest of the run after it |
| Synthesis.Generator.EmitFrame | klatt/src/klatt.rs:1382-1388 | one turn of the frame loop: the frame's slice holds its run, or the whole run failed with this error |
| Synthesis.Generator.FrameAfter | klatt/src/klatt.rs:1383-1387 | one frame into its slice, continuing the sound run |
| Synthesis.Generator.SoundingNext | klatt/src/klatt.rs:1382-1388 | after a frame is written the frame loop's invariant holds for the next one |
| Synthesis.TotalLengthOfConcat | klatt/src/klatt.rs:1376-1379 | the total length of concatenated frame lists is the sum of their lengths |
| Synthesis.FrameWithinSound | klatt/src/klatt.rs:1382-1388 | each frame's slice starts at the length of the frames before it and ends within the sound |
| Synthesis.SoundFrom | klatt/src/klatt.rs:1375-1389 | returns the samples or the error of `SoundRun` from the generator's state |
| Synthesis.SoundLength | klatt/src/klatt.rs:1376-1379 | the length loop computes the total length of the frames |
| Synthesis.SoundRunStep | klatt/src/klatt.rs:1381-1388 | a sound run is the first frame's run followed by the rest, or its error |
| Synthesis.FrameLengthNeedsRate | klatt/src/klatt.rs:1383 | a non-empty frame needs a positive sample rate |
| Synthesis.SoundRunAdvances | klatt/src/klatt.rs:1382-1388 | frame `k` of a sound run either ends it with its error or is followed by the rest |
| Synthesis.FrameOutput | klatt/src/klatt.rs:995-998 | the frame's output has the length of its samples, and is those samples when the gain is given |
| Synthesis.GenerateSound | klatt/src/klatt.rs:1370-1390 | returns `SoundOf`: the noise filter's rejection when the generator cannot be built, otherwise the samples or the first error of `SoundRun` over the frames |
| Synthesis.GenerateFrames | klatt/src/klatt.rs:1382-1389 | the frame loop returns the outcome of `SoundRun` from the current state; on success the buffer holds its samples and the generator its final state; the generator stays valid |
| Transfer.Sum | klatt/src/poly_real.rs:181-206 | a sum of fractions is well formed or the empty fraction; an error is an arithmetic error or the empty-operand panic |
| Transfer.OutputLpSetting | klatt/src/klatt.rs:1427-1429 | the output low-pass can be set exactly when the sample rate is positive |
| Transfer.TiltSetting | klatt/src/klatt.rs:1409-1410 | `set_tilt_filter` on a new low-pass filter |
| Transfer.AntiformantSetting | klatt/src/klatt.rs:1450-1451 | `set_nasal_antiformant_casc` on a new anti-resonator |
| Transfer.NasalCascSetting | klatt/src/klatt.rs:1455-1456 | `set_nasal_formant_casc` on a new resonator |
| Transfer.OralCascSetting | klatt/src/klatt.rs:1461-1462 | `set_oral_formant_casc` on a new resonator |
| Transfer.ParallelSetting | klatt/src/klatt.rs:1280-1288 | a new parallel resonator muted, or set and given its peak gain, with the first failing check as the error |
| Transfer.NasalParSetting | klatt/src/klatt.rs:1483-1484 | `set_nasal_formant_par` on a new resonator |
| Transfer.OralParSetting | klatt/src/klatt.rs:1493-1494 | `set_oral_formant_par` on a new resonator |
| Transfer.CascadeTf | klatt/src/klatt.rs:1443-1468 | the cascade branch's fraction; it fails exactly when one of its filters is rejected (`CascadeFailsOnlyOnRejectedFilter`) |
| Transfer.ParallelTf | klatt/src/klatt.rs:1470-1519 | the parallel branch's fraction: nasal term, signed oral terms and bypass; its failure cases are `ParallelFailsOnRejectedFilter`'s |
| Transfer.VocalTractTf | klatt/src/klatt.rs:1402-1441 | the vocal tract's fraction; it fails exactly when a filter it sets is rejected or the arithmetic fails (`VocalTractFailsOnRejectedFilter`) |
| Transfer.Product | klatt/src/poly_real.rs:208-216 | the product of well-formed fractions is well formed |
| Transfer.CascadeOralStep | klatt/src/klatt.rs:1461-1464 | one oral stage keeps the fraction well formed |
| Transfer.CascadeNasals | klatt/src/klatt.rs:1447-1458 | the nasal stages, each set by the code's `!= 0.0` test, give a well-formed fraction |
| Transfer.ParallelSource | klatt/src/klatt.rs:1474-1475 | the parallel source is well formed |
| Transfer.ParallelSource2 | klatt/src/klatt.rs:1477-1479 | the differenced source is well formed |
| Transfer.VoiceTf | klatt/src/klatt.rs:1407-1412 | the tilted voice is well formed |
| Transfer.VocalTractTransferFunction | klatt/src/klatt.rs:1402-1441 | the method computes the vocal tract's transfer function |
| Transfer.Branches | klatt/src/klatt.rs:1414-1424 | the method computes the sum of the enabled branches |
| Transfer.CascadeBranchTransferFunction | klatt/src/klatt.rs:1443-1468 | the method computes the cascade transfer function |
| Transfer.CascadeOralFilters | klatt/src/klatt.rs:1460-1465 | the loop computes the oral stages |
| Transfer.CascadeNasalFilters | klatt/src/klatt.rs:1447-1458 | the method computes the nasal stages |
| Transfer.MultiplyCascadeOral | klatt/src/klatt.rs:1461-1464 | one iteration computes one oral stage |
| Transfer.ParallelBranchTransferFunction | klatt/src/klatt.rs:1470-1519 | the method computes the parallel transfer function |
| Transfer.ParallelOralFilters | klatt/src/klatt.rs:1492-1507 | the loop computes the parallel oral sum |
| Transfer.ParallelNasalFilter | klatt/src/klatt.rs:1483-1490 | the method computes the nasal term |
| Transfer.AddParallelOral | klatt/src/klatt.rs:1493-1506 | one iteration adds one signed oral term |
| Transfer.CascadeOralsFailOnlyOnRejectedFormant | klatt/src/klatt.rs:1460-1465 | the oral stages fail exactly when some remaining oral formant is rejected |
| Transfer.CascadeFailsOnlyOnRejectedFilter | klatt/src/klatt.rs:1443-1468 | the cascade fails exactly when one of its filters is rejected |
| Transfer.VocalTractFailsOnRejectedFilter | klatt/src/klatt.rs:1402-1441 | a rejected tilt filter fails with "Invalid filter parameters."; a rejected tilt filter, a zero sample rate, or a rejected filter in an enabled branch makes the function fail; conversely every failure is one of these or an arithmetic error |
| Transfer.ParallelOralsFailOnRejectedFormant | klatt/src/klatt.rs:1492-1507 | a rejected parallel oral formant from `i` on makes the oral terms fail |
| Transfer.ParallelOralsFailure | klatt/src/klatt.rs:1492-1507 | a failure of the oral terms from `i` is an arithmetic error or a rejected oral formant from `i` on |
| Transfer.ParallelFailsOnRejectedFilter | klatt/src/klatt.rs:1470-1519 | a rejected nasal or oral parallel formant makes the branch fail; every failure is one of these or an arithmetic error |
| Transfer.BranchesFailOnRejectedFilter | klatt/src/klatt.rs:1414-1424 | a rejected filter in an enabled branch makes the branch sum fail; every failure is one of these or an arithmetic error |
| Transfer.ConvolutionByConstant | klatt/src/poly_real.rs:38-59 | convolving with a constant scales each coefficient |
| Transfer.GainThroughUnity | klatt/src/klatt.rs:1448-1453 | a gain times the unit fraction is the trimmed gain |
| Transfer.CascadeOralsPassThrough | klatt/src/klatt.rs:1460-1465 | disabled oral formants leave a gain fraction unchanged |
| Transfer.CascadeWithoutFormantsIsVoicingGain | klatt/src/klatt.rs:1443-1468 | with no nasal or oral formant the cascade is the voicing gain |
| Transfer.ZeroNumeratorAbsorbs | klatt/src/poly_real.rs:208-216 | a zero numerator stays zero under multiplication |
| Transfer.SilenceAbsorbs | klatt/src/poly_real.rs:208-216 | silence times a polynomial fraction is silence, on either side |
| Transfer.CloseToItself | klatt/src/poly_real.rs:8-21 | every polynomial compares equal to itself |
| Transfer.SilencePlusSilence | klatt/src/poly_real.rs:181-189 | silence plus silence is silence |
| Transfer.SilencePlusDifference | klatt/src/poly_real.rs:186-200 | silence plus a differenced gain is that differenced gain |
| Transfer.ScaledDifference | klatt/src/klatt.rs:1511-1515 | a differenced gain times a gain is the differenced product |
| Transfer.UnitDenominator | klatt/src/poly_real.rs:38-59 | the unit denominators multiply to the unit denominator |
| Transfer.ParallelNasalMuted | klatt/src/klatt.rs:1483-1490 | a disabled parallel nasal formant contributes silence |
| Transfer.ParallelOralsSilent | klatt/src/klatt.rs:1492-1507 | disabled parallel oral formants keep the sum silent |
| Transfer.DifferencedGain | klatt/src/klatt.rs:1477-1479 | a gain through the differencing filter is the differenced gain |
| Transfer.ParallelWithoutFormantsIsBypass | klatt/src/klatt.rs:1470-1519 | with no parallel formant the branch is the differenced voicing-times-bypass gain |
| Transfer.BypassPath | klatt/src/klatt.rs:1509-1516 | the bypass term added to silence is the differenced bypass gain |
| Transfer.DifferencedBypass | klatt/src/klatt.rs:1509-1516 | a differenced gain through the bypass, added to silence, is the differenced product |
| Transfer.ParallelSource2IsDifferenced | klatt/src/klatt.rs:1474-1479 | the differenced source is the differenced voicing gain |
| Transfer.ParallelFormantsSilent | klatt/src/klatt.rs:1481-1507 | with no parallel formant both the nasal term and the oral sum are silent |
| Transfer.ParallelTfOfSilentFormants | klatt/src/klatt.rs:1470-1519 | with silent formants the branch is the bypass term |
| Transfer.BypassOfDifferencedGain | klatt/src/klatt.rs:1509-1516 | silence plus a differenced gain times a gain is the differenced product |
| Transfer.SilentTractWithoutBranches | klatt/src/klatt.rs:1402-1441 | with both branches disabled the function succeeds exactly for a positive sample rate and an accepted tilt, and its numerator is zero |
| Transfer.SilentOutput | klatt/src/klatt.rs:1427-1438 | a silent fraction through the output stage stays silent, and succeeds exactly for a positive sample rate |

## Left out

- IEEE rounding. Signal samples, filter coefficients and polynomial coefficients are `real`.
  Only the parameters the code tests for NaN or finiteness are `F64` (finite, NaN, ±∞).
  Where the code divides by a value that may be zero, the model's `Quot` yields 0 instead of
  ∞ or NaN.
- The libm functions (`exp`, `cos`, `sin`, `sqrt`, `pow`, `round`) are the fields of a
  `MathLib` record passed as a parameter; their properties are assumed only where a lemma's
  `requires` names them (`SquaresExactly`, `RoundIsSound`, sines in [−1, 1]).
  `src/math.rs` is not part of this model.
- Randomness:
  - White noise is an injected stream of values, and every clone of the random generator reads
    the same stream through its own cursor.
  - The flutter offset is an injected number in 0 ..= 1000.
  - `get_white_noise`'s range assertions are not modelled; the stream stands for values in
    [−1, 1].
- Printing in the snapshot's `perform_frequency_modulation`, the demo drivers, WAV output and
  the `Rng` trait plumbing are not modelled.
- `usize` overflow of the absolute position and of buffer lengths is not modelled; lengths are
  unbounded naturals.
- Panics become preconditions or explicit errors:
  - `generate_frame` needs a positive sample rate whenever the slice is non-empty, since the
    flutter time divides by it.
  - Indexing an empty fraction in `add_fractions` becomes an error result.
- Both glottal sources are allocated up front, and `init_glottal_source`'s choice of source
  becomes a dispatch on the source type.
- The generator's state after an error. When a frame update fails part-way, the code leaves
  some filters retuned and others not. The methods promise the error (the first failing
  filter's, as `FrameStatus` defines it) and `Valid()`, not that partial state, and the value
  functions (`PeriodStart`, `SampleStep`, `Samples`, `FrameRun`, `SoundRun`) carry no state on
  an error.
- The contents of the output slice after an error: `generate_frame` has written the samples
  before the failing period start, but the model promises only what lies outside the slice.
- Setters.SetOralFormantPar: the tuned state is promised only when the resonator's sample rate
  equals the main parameters' sample rate, which is how the generator builds it.
- GainControl.AgcReachesTarget and GainControl.AgcIsIdempotent hold only when `pow(x, 2)` and
  `sqrt` are exact (`ExactPowAndSqrt`).
- Transfer functions:
  - The transfer-function lemmas cover exact special cases: pass-through cascades, silent and
    bypass-only parallel branches, silent output, and the failure cases. No lemma bounds the
    general product of tolerances through the whole chain.
  - `transfer.dfy` covers the current version only; the snapshot has no transfer-function
    code.
  - PolyReal.AddFractions states when it succeeds and the shape of its result;
    `AddFractionsExact` and `CommonFactorIsRejectedLater` state the value in exact cases.
- NaN propagation. A NaN parameter that passes the code's checks yields NaN coefficients and
  NaN samples in the code. The model instead reads such a value as 0 through `Val`, so the
  members below are weaker than the code where a NaN gets through:
- Float64.Val: maps NaN and ±∞ to 0 instead of carrying them into the signal path.
- Params.FrameStateOf: a NaN level (for example `agc_rms_level`, or any dB level in the
  snapshot, whose `db_to_lin(NaN)` is NaN) becomes 0, so the snapshot's automatic gain
  control on a NaN level is not modelled as NaN output.
- Filters.LpFilter1.Tune: NaN coefficients are not modelled; the tuning reads NaN as 0.
- Filters.LpFilter1.Set: as `Tune` for a NaN that passes its checks.
- Filters.Resonator.Tune: a NaN frequency or bandwidth is tuned as 0 rather than to NaN
  coefficients.
- Filters.Resonator.Set: accepts a NaN frequency and bandwidth, as the code does, and tunes
  them as 0.
- Filters.Resonator.TunePeakGain: a NaN peak gain sets the gain to 0 rather than NaN.
- Filters.Resonator.AdjustPeakGain: accepts a NaN peak gain, as the code does, and sets the
  gain to 0 rather than NaN; the NaN gain (0 / 0) of a 0 Hz formant above F1 at a level of
  −99 dB or below is such a case.
- Filters.AntiResonator.Tune: a NaN frequency or bandwidth is tuned as 0.
- Filters.AntiResonator.Set: accepts a NaN frequency and bandwidth, as the code does, and
  tunes them as 0.
- Setters.SetOralFormantPar: the NaN filter gain (0 / 0) of a 0 Hz formant above F1 at −99 dB
  or below is stored as 0.
- Setters.SetNasalFormantCasc: a NaN nasal formant passes the `!= 0.0` test and `set`, and is
  tuned as 0 (`NaNNasalFiltersAreTuned`).
- Setters.SetNasalAntiformantCasc: the same for the nasal antiformant.
- Setters.SetNasalFormantPar: the same for the parallel nasal formant.

## Findings

| source | as written | input that shows it | evidently intended | confidence | as-written member | corrected member |
|---|---|---|---|---|---|---|
| klatt/src/klatt.rs:1126 | the flutter time is `abs_position / sample_rate` in `usize`, an integer division that keeps only whole seconds | sample positions 0 and 1 at 10000 Hz get the same flutter time | the position in seconds as a real number, so flutter varies within a second | high, not executed | Params.FlutterTimeAsWrittenDiffers | Params.FlutterTimeAdvances |
| klatt/src/klatt.rs:1231 | the nasal formant and antiformant tests are `!= 0.0`, which NaN passes, although the fields are documented as "in Hz, or NaN" | `nasal_formant_freq` = `nasal_formant_bw` = NaN enables the resonator; `set` accepts the NaN values and tunes the filter to NaN coefficients | NaN disables the nasal filters, like a missing oral formant | high, not executed | Params.NasalTestsAsWrittenAdmitNaN | Params.EnabledFormantsHaveNumbers |
| klatt/src/klatt.rs:974 | the re-use check compares frames with the derived `PartialEq`, under which a NaN field is unequal to itself | a frame with `gain_db` = NaN (automatic gain control) handed to `generate_frame` twice is accepted | the same frame is recognised as re-used | medium, not executed | Params.DerivedFrameEqMissesAgcFrames | Params.ReuseCheckRefinesDerivedEq |
| src/lib.rs:1104 | `db == std::f64::NAN` is always false, so NaN is not mapped to 0 | `db_to_lin(NaN)` returns NaN | NaN dB gives a linear level of 0, as in the current version | high, not executed | Params.DbToLinVersionsAgree | Params.DbToLin |
| src/lib.rs:861 | the loop over F2 .. F6 starts at index 0, so F1 steps a second time on the differenced source and enters the sum twice | any frame whose F1 is enabled in the parallel branch | the loop starts at 1, as in the current version | high, not executed | Branches.SnapshotRunsF1Twice | Branches.ParallelFormantRouting |

For the first three rows the generator follows the code as written: the flutter clock keeps
whole seconds, the nasal tests are `!= 0.0`, and the re-use check is the derived equality. The
corrected definitions (`FlutterTime`, the `…Given` predicates, `IsReusedFrame`) stand beside
them, and the corrected members prove the intended property of each.
