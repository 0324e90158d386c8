/// The signal path of one sample through the cascade and the parallel branch, as functions of
/// the filter states: the cascade feeds the anti-resonator, the nasal formant and the six oral
/// formants in series; the parallel branch feeds the nasal formant and F1 with the source and
/// F2 .. F6 and the bypass with the differenced source plus frication, with alternating signs.
module Branches {
  import opened Status
  import opened Float64
  import opened Params
  import opened Filters
  import opened Setters

  // ---------------------------------------------------------------------------------------------
  // Resonators in series

  /// Output after the first `k` resonators of a series chain fed `x`.
  function ChainPrefix(s: seq<ResonatorState>, x: real, k: nat): real
    requires k <= |s|
  {
    if k == 0 then x else ResonatorOutput(s[k - 1], ChainPrefix(s, x, k - 1))
  }

  /// Output of the whole chain.
  function ChainOutput(s: seq<ResonatorState>, x: real): real
  {
    ChainPrefix(s, x, |s|)
  }

  /// States after the step: every resonator has taken the output of the ones before it.
  function ChainNext(s: seq<ResonatorState>, x: real): (t: seq<ResonatorState>)
    ensures |t| == |s|
    ensures forall k :: 0 <= k < |s| ==> t[k] == ResonatorNext(s[k], ChainPrefix(s, x, k))
  {
    seq(|s|, k requires 0 <= k < |s| => ResonatorNext(s[k], ChainPrefix(s, x, k)))
  }

  /// A chain whose resonators are all in passthrough passes its input on unchanged.
  lemma {:induction false} PassthroughChainIsIdentity(s: seq<ResonatorState>, x: real, k: nat)
    requires k <= |s|
    requires forall j :: 0 <= j < |s| ==> s[j].passthrough
    ensures ChainPrefix(s, x, k) == x
  {
    if k > 0 {
      PassthroughChainIsIdentity(s, x, k - 1);
    }
  }

  /// Resonators in passthrough keep their states through a step.
  lemma PassthroughChainKeepsStates(s: seq<ResonatorState>, x: real)
    requires forall j :: 0 <= j < |s| ==> s[j].passthrough
    ensures ChainNext(s, x) == s
  {
    var t := ChainNext(s, x);
    forall j | 0 <= j < |s|
      ensures t[j] == s[j]
    {
    }
  }

  /// A muted resonator followed only by resonators in passthrough or mute silences the chain.
  lemma {:induction false} MutedStageSilencesChain(s: seq<ResonatorState>, x: real, m: nat, k: nat)
    requires m < k <= |s|
    requires s[m].muted && !s[m].passthrough
    requires forall j :: m < j < |s| ==> s[j].passthrough || s[j].muted
    ensures ChainPrefix(s, x, k) == 0.0
  {
    if k - 1 > m {
      MutedStageSilencesChain(s, x, m, k - 1);
    }
  }

  // ---------------------------------------------------------------------------------------------
  // Cascade branch

  /// Filter states of the cascade branch.
  datatype CascadeState = CascadeState(
    anti: AntiResonatorState, nasal: ResonatorState, oral: seq<ResonatorState>)

  /// The cascade branch: anti-resonator, nasal formant, then the oral formants in order.
  function CascadeOutput(cs: CascadeState, x: real): real
  {
    ChainOutput(cs.oral, ResonatorOutput(cs.nasal, AntiResonatorOutput(cs.anti, x)))
  }

  function CascadeNext(cs: CascadeState, x: real): CascadeState
  {
    var y := AntiResonatorOutput(cs.anti, x);
    CascadeState(AntiResonatorNext(cs.anti, x), ResonatorNext(cs.nasal, y),
                 ChainNext(cs.oral, ResonatorOutput(cs.nasal, y)))
  }

  /// With the nasal pair and every oral formant in passthrough the cascade branch is transparent.
  lemma TransparentCascade(cs: CascadeState, x: real)
    requires cs.anti.passthrough && cs.nasal.passthrough
    requires forall j :: 0 <= j < |cs.oral| ==> cs.oral[j].passthrough
    ensures CascadeOutput(cs, x) == x
  {
    PassthroughChainIsIdentity(cs.oral, x, |cs.oral|);
  }

  // ---------------------------------------------------------------------------------------------
  // Parallel branch

  /// Klatt's alternating signs (Klatt 1980, figure 13): formant `i` (0-based) is added for even
  /// `i` and subtracted for odd `i`, so F2 .. F6 enter with signs `-, +, -, +, -`.
  function Sign(i: nat): real
  {
    if i % 2 == 0 then 1.0 else -1.0
  }

  /// `sum_{i = lo}^{hi - 1} Sign(i) * output of resonator i fed x`.
  function SignedSum(s: seq<ResonatorState>, x: real, lo: nat, hi: nat): real
    requires lo <= hi <= |s|
    decreases hi - lo
  {
    if hi == lo then 0.0 else SignedSum(s, x, lo, hi - 1) + Sign(hi - 1) * ResonatorOutput(s[hi - 1], x)
  }

  /// The first formant the loop over the differenced source visits: F2 in the current version;
  /// the snapshot's loop starts at F1, which thereby runs a second time.
  function FirstDifferencedFormant(variant: Variant): nat
  {
    if variant == Current then 1 else 0
  }

  /// States after F1 has taken the undifferenced source.
  function AfterF1(s: seq<ResonatorState>, source: real): (t: seq<ResonatorState>)
    requires |s| > 0
    ensures |t| == |s| && t[0] == ResonatorNext(s[0], source)
    ensures forall k :: 0 < k < |s| ==> t[k] == s[k]
  {
    s[0 := ResonatorNext(s[0], source)]
  }

  /// Sum of the oral formants of the parallel branch.
  function ParallelFormantsOutput(variant: Variant, s: seq<ResonatorState>, source: real, source2: real): real
    requires |s| > 0
  {
    ResonatorOutput(s[0], source)
    + SignedSum(AfterF1(s, source), source2, FirstDifferencedFormant(variant), |s|)
  }

  /// States of the parallel oral formants after the step.
  function ParallelFormantsNext(variant: Variant, s: seq<ResonatorState>, source: real, source2: real)
    : (t: seq<ResonatorState>)
    requires |s| > 0
    ensures |t| == |s|
  {
    var a := AfterF1(s, source);
    seq(|s|, k requires 0 <= k < |s| =>
      if k >= FirstDifferencedFormant(variant) then ResonatorNext(a[k], source2) else a[k])
  }

  /// Routing of the parallel formants: F1 takes the source, F2 .. F6 take the differenced source,
  /// each exactly once, with signs `-, +, -, +, -`.
  lemma ParallelFormantRouting(s: seq<ResonatorState>, source: real, source2: real)
    requires |s| == MAX_ORAL_FORMANTS
    ensures ParallelFormantsNext(Current, s, source, source2)[0] == ResonatorNext(s[0], source)
    ensures forall k :: 1 <= k < |s| ==>
      ParallelFormantsNext(Current, s, source, source2)[k] == ResonatorNext(s[k], source2)
    ensures ParallelFormantsOutput(Current, s, source, source2)
            == ResonatorOutput(s[0], source)
               - ResonatorOutput(s[1], source2) + ResonatorOutput(s[2], source2)
               - ResonatorOutput(s[3], source2) + ResonatorOutput(s[4], source2)
               - ResonatorOutput(s[5], source2)
  {
    var a := AfterF1(s, source);
    assert SignedSum(a, source2, 1, 1) == 0.0;
  }

  /// In the snapshot, F1 also takes the differenced source, after the source, and enters the sum
  /// a second time.
  lemma SnapshotRunsF1Twice(s: seq<ResonatorState>, source: real, source2: real)
    requires |s| == MAX_ORAL_FORMANTS
    ensures ParallelFormantsNext(Snapshot, s, source, source2)[0]
            == ResonatorNext(ResonatorNext(s[0], source), source2)
    ensures ParallelFormantsOutput(Snapshot, s, source, source2)
            == ParallelFormantsOutput(Current, s, source, source2)
               + ResonatorOutput(ResonatorNext(s[0], source), source2)
  {
    var a := AfterF1(s, source);
    assert SignedSum(a, source2, 0, 1) == ResonatorOutput(a[0], source2);
    SignedSumSplit(a, source2, 0, 1, 6);
  }

  /// A signed sum splits at any intermediate index.
  lemma {:induction false} SignedSumSplit(s: seq<ResonatorState>, x: real, lo: nat, mid: nat, hi: nat)
    requires lo <= mid <= hi <= |s|
    ensures SignedSum(s, x, lo, hi) == SignedSum(s, x, lo, mid) + SignedSum(s, x, mid, hi)
    decreases hi - mid
  {
    if hi > mid {
      SignedSumSplit(s, x, lo, mid, hi - 1);
    }
  }

  /// Muted formants contribute nothing to a signed sum.
  lemma {:induction false} MutedFormantsAreSilent(s: seq<ResonatorState>, x: real, lo: nat, hi: nat)
    requires lo <= hi <= |s|
    requires forall j :: lo <= j < hi ==> s[j].muted && !s[j].passthrough
    ensures SignedSum(s, x, lo, hi) == 0.0
    decreases hi - lo
  {
    if hi > lo {
      MutedFormantsAreSilent(s, x, lo, hi - 1);
    }
  }

  /// Filter states of the parallel branch: the nasal formant, the oral formants and the
  /// differencing filter's previous input.
  datatype ParallelState = ParallelState(nasal: ResonatorState, oral: seq<ResonatorState>, x1: real)

  /// The differenced source plus frication, which feeds F2 .. F6 and the bypass.
  function DifferencedSource(ps: ParallelState, source: real, frication: real): real
  {
    (source - ps.x1) + frication
  }

  /// The parallel branch for source `source`, frication noise `frication` and bypass level
  /// `bypassLin`.
  function ParallelOutput(variant: Variant, ps: ParallelState, source: real, frication: real, bypassLin: real): real
    requires |ps.oral| > 0
  {
    var source2 := DifferencedSource(ps, source, frication);
    ResonatorOutput(ps.nasal, source) + ParallelFormantsOutput(variant, ps.oral, source, source2)
    + bypassLin * source2
  }

  /// The parallel output assembled from the outputs of its filters.
  lemma ParallelOutputOf(variant: Variant, ps: ParallelState, source: real, frication: real, bypassLin: real,
                         n: real, formants: real, source2: real)
    requires |ps.oral| > 0
    requires source2 == DifferencedSource(ps, source, frication)
    requires n == ResonatorOutput(ps.nasal, source)
    requires formants == ParallelFormantsOutput(variant, ps.oral, source, source2)
    ensures n + formants + bypassLin * source2 == ParallelOutput(variant, ps, source, frication, bypassLin)
  {
  }

  function ParallelNext(variant: Variant, ps: ParallelState, source: real, frication: real): ParallelState
    requires |ps.oral| > 0
  {
    var source2 := DifferencedSource(ps, source, frication);
    ParallelState(ResonatorNext(ps.nasal, source), ParallelFormantsNext(variant, ps.oral, source, source2), source)
  }

  /// With the nasal formant and every oral formant muted and no bypass the current parallel
  /// branch is silent, whatever its input.
  lemma SilentParallelBranch(ps: ParallelState, source: real, frication: real)
    requires |ps.oral| > 0
    requires ps.nasal.muted && !ps.nasal.passthrough
    requires forall j :: 0 <= j < |ps.oral| ==> ps.oral[j].muted && !ps.oral[j].passthrough
    ensures ParallelOutput(Current, ps, source, frication, 0.0) == 0.0
  {
    var a := AfterF1(ps.oral, source);
    MutedFormantsAreSilent(a, DifferencedSource(ps, source, frication), 1, |ps.oral|);
  }

  // ---------------------------------------------------------------------------------------------
  // Tuning the branches from a frame

  /// The cascade branch after a frame's parameters are in use.
  function CascadeTuned(variant: Variant, math: MathLib, sampleRate: nat, cs: CascadeState, p: FrameParms)
    : (t: CascadeState)
    ensures |t.oral| == |cs.oral|
  {
    CascadeState(
      if NasalAntiformantCascEnabled(variant, p)
      then AntiResonatorTuned(cs.anti, AntiResonatorRaw(math, sampleRate, p.nasalAntiformantFreq, p.nasalAntiformantBw))
      else cs.anti.(x1 := 0.0, x2 := 0.0, passthrough := true, muted := false),
      CascadeFormantTuned(math, sampleRate, cs.nasal, NasalFormantCascEnabled(variant, p),
                          p.nasalFormantFreq, p.nasalFormantBw),
      seq(|cs.oral|, k requires 0 <= k < |cs.oral| => CascadeOralTuned(math, sampleRate, cs.oral[k], p, k)))
  }

  /// The parallel branch after a frame's parameters are in use; the differencing filter keeps
  /// its memory.
  function ParallelTuned(variant: Variant, math: MathLib, sampleRate: nat, ps: ParallelState, p: FrameParms)
    : (t: ParallelState)
    ensures |t.oral| == |ps.oral| && t.x1 == ps.x1
  {
    ParallelState(
      ParallelFormantTuned(math, sampleRate, ps.nasal, NasalFormantParEnabled(variant, math, p),
                           p.nasalFormantFreq, p.nasalFormantBw, DbToLinOf(variant, math, p.nasalFormantDb)),
      seq(|ps.oral|, k requires 0 <= k < |ps.oral| => ParallelOralTuned(variant, math, sampleRate, ps.oral[k], p, k)),
      ps.x1)
  }

  /// After a frame's parameters are in use, a cascade formant is in passthrough exactly when the
  /// frame disables it, and none is muted; a disabled anti-formant is in passthrough too.
  predicate CascadeFollows(variant: Variant, cs: CascadeState, p: FrameParms)
  {
    (cs.nasal.passthrough <==> !NasalFormantCascEnabled(variant, p)) && !cs.nasal.muted
    && (!NasalAntiformantCascEnabled(variant, p) ==> cs.anti.passthrough)
    && forall k :: 0 <= k < |cs.oral| ==>
         (cs.oral[k].passthrough <==> !OralFormantCascEnabled(p, k)) && !cs.oral[k].muted
  }

  /// After a frame's parameters are in use, a parallel formant is muted exactly when the frame
  /// disables it, and none is in passthrough.
  predicate ParallelFollows(variant: Variant, math: MathLib, ps: ParallelState, p: FrameParms)
  {
    (ps.nasal.muted <==> !NasalFormantParEnabled(variant, math, p)) && !ps.nasal.passthrough
    && forall k :: 0 <= k < |ps.oral| ==>
         (ps.oral[k].muted <==> !OralFormantParEnabled(variant, math, p, k)) && !ps.oral[k].passthrough
  }

  /// A frame without nasal formants and without oral formant frequencies makes the cascade
  /// branch transparent.
  lemma CascadeWithoutFormantsIsTransparent(variant: Variant, cs: CascadeState, p: FrameParms, x: real)
    requires CascadeFollows(variant, cs, p)
    requires !NasalFormantCascEnabled(variant, p) && !NasalAntiformantCascEnabled(variant, p)
    requires p.oralFormantFreq == []
    ensures CascadeOutput(cs, x) == x
  {
    forall k | 0 <= k < |cs.oral|
      ensures cs.oral[k].passthrough
    {
      assert !OralFormantCascEnabled(p, k);
    }
    TransparentCascade(cs, x);
  }

  /// A frame without nasal formant and without oral formant frequencies silences the parallel
  /// formants: only the bypass passes, fed by the differenced source plus frication.
  lemma ParallelWithoutFormantsIsBypass(variant: Variant, math: MathLib, ps: ParallelState, p: FrameParms,
                                        source: real, frication: real, bypassLin: real)
    requires |ps.oral| > 0
    requires ParallelFollows(variant, math, ps, p)
    requires !NasalFormantParEnabled(variant, math, p)
    requires p.oralFormantFreq == []
    ensures ParallelOutput(variant, ps, source, frication, bypassLin)
            == bypassLin * DifferencedSource(ps, source, frication)
  {
    forall k | 0 <= k < |ps.oral|
      ensures ps.oral[k].muted && !ps.oral[k].passthrough
    {
      assert !OralFormantParEnabled(variant, math, p, k);
    }
    var a := AfterF1(ps.oral, source);
    MutedFormantsAreSilent(a, DifferencedSource(ps, source, frication), FirstDifferencedFormant(variant), |a|);
  }

  /// Tuning the cascade from a frame switches exactly its disabled formants to passthrough.
  lemma CascadeTunedFollows(variant: Variant, math: MathLib, sampleRate: nat, cs: CascadeState, p: FrameParms)
    ensures CascadeFollows(variant, CascadeTuned(variant, math, sampleRate, cs, p), p)
  {
  }

  /// Tuning the parallel branch from a frame mutes exactly its disabled formants.
  lemma ParallelTunedFollows(variant: Variant, math: MathLib, sampleRate: nat, ps: ParallelState, p: FrameParms)
    ensures ParallelFollows(variant, math, ParallelTuned(variant, math, sampleRate, ps, p), p)
  {
  }

  // ---------------------------------------------------------------------------------------------
  // What adjusting the branches reports

  /// What setting the cascade's oral formants from `i` on reports: the error of the first one
  /// that rejects its parameters.
  function CascadeOralsStatus(variant: Variant, sampleRate: nat, p: FrameParms, i: nat): (r: Result<()>)
    ensures r.Err? ==> variant == Current && r.error == "Invalid resonator parameters."
    decreases MAX_ORAL_FORMANTS - i
  {
    if i >= MAX_ORAL_FORMANTS then Ok(())
    else
      var formant :- OralCascStatus(variant, sampleRate, p, i);
      CascadeOralsStatus(variant, sampleRate, p, i + 1)
  }

  /// Setting the cascade's oral formants from `i` on fails exactly when one of them rejects
  /// its parameters.
  lemma {:induction false} CascadeOralsStatusFails(variant: Variant, sampleRate: nat, p: FrameParms, i: nat)
    ensures CascadeOralsStatus(variant, sampleRate, p, i).Err?
      <==> exists j :: i <= j < MAX_ORAL_FORMANTS && OralCascStatus(variant, sampleRate, p, j).Err?
    decreases MAX_ORAL_FORMANTS - i
  {
    if i < MAX_ORAL_FORMANTS {
      CascadeOralsStatusFails(variant, sampleRate, p, i + 1);
    }
  }

  /// What the cascade's `adjust` reports: the error of the first of the nasal formant, the
  /// nasal anti-formant and F1 .. F6 that rejects its parameters; the snapshot never fails.
  function CascadeStatus(variant: Variant, sampleRate: nat, p: FrameParms): (r: Result<()>)
    ensures variant == Snapshot ==> r.Ok?
  {
    var nasal :- NasalCascStatus(variant, sampleRate, p);
    var anti :- AntiformantStatus(variant, sampleRate, p);
    CascadeOralsStatus(variant, sampleRate, p, 0)
  }

  /// Adjusting the cascade fails exactly when one of its filters rejects its parameters.
  lemma CascadeStatusFails(variant: Variant, sampleRate: nat, p: FrameParms)
    ensures CascadeStatus(variant, sampleRate, p).Err? <==>
      NasalCascStatus(variant, sampleRate, p).Err? || AntiformantStatus(variant, sampleRate, p).Err?
      || exists j :: 0 <= j < MAX_ORAL_FORMANTS && OralCascStatus(variant, sampleRate, p, j).Err?
  {
    CascadeOralsStatusFails(variant, sampleRate, p, 0);
  }

  /// What setting the parallel oral formants from `i` on reports: the error of the first one
  /// that rejects its parameters or its peak gain.
  function ParallelOralsStatus(variant: Variant, math: MathLib, sampleRate: nat, p: FrameParms, i: nat)
    : (r: Result<()>)
    ensures r.Err? ==> variant == Current
    decreases MAX_ORAL_FORMANTS - i
  {
    if i >= MAX_ORAL_FORMANTS then Ok(())
    else
      var formant :- OralParStatus(variant, math, sampleRate, p, i);
      ParallelOralsStatus(variant, math, sampleRate, p, i + 1)
  }

  /// Setting the parallel oral formants from `i` on fails exactly when one of them rejects its
  /// parameters or its peak gain.
  lemma ParallelOralsStatusFails(variant: Variant, math: MathLib, sampleRate: nat, p: FrameParms, i: nat)
    ensures ParallelOralsStatus(variant, math, sampleRate, p, i).Err? <==>
      exists j :: i <= j < MAX_ORAL_FORMANTS && OralParStatus(variant, math, sampleRate, p, j).Err?
  {
    forall j | i <= j < MAX_ORAL_FORMANTS && OralParStatus(variant, math, sampleRate, p, j).Err?
      ensures ParallelOralsStatus(variant, math, sampleRate, p, i).Err?
    {
      ParallelOralFails(variant, math, sampleRate, p, i, j);
    }
    if ParallelOralsStatus(variant, math, sampleRate, p, i).Err? {
      var j := ParallelOralFailing(variant, math, sampleRate, p, i);
    }
  }

  /// A formant from `i` on that rejects its parameters makes the run from `i` fail.
  lemma {:induction false} ParallelOralFails(variant: Variant, math: MathLib, sampleRate: nat, p: FrameParms, i: nat, j: nat)
    requires i <= j < MAX_ORAL_FORMANTS && OralParStatus(variant, math, sampleRate, p, j).Err?
    ensures ParallelOralsStatus(variant, math, sampleRate, p, i).Err?
    decreases j - i
  {
    if i < j && OralParStatus(variant, math, sampleRate, p, i).Ok? {
      ParallelOralFails(variant, math, sampleRate, p, i + 1, j);
    }
  }

  /// A run from `i` that fails fails at a formant `j` from `i` on.
  lemma {:induction false} ParallelOralFailing(variant: Variant, math: MathLib, sampleRate: nat, p: FrameParms, i: nat)
    returns (j: nat)
    requires ParallelOralsStatus(variant, math, sampleRate, p, i).Err?
    ensures i <= j < MAX_ORAL_FORMANTS && OralParStatus(variant, math, sampleRate, p, j).Err?
    decreases MAX_ORAL_FORMANTS - i
  {
    if OralParStatus(variant, math, sampleRate, p, i).Err? {
      j := i;
    } else {
      j := ParallelOralFailing(variant, math, sampleRate, p, i + 1);
    }
  }


  /// What the parallel branch's `adjust` reports: the error of the first of the nasal formant
  /// and F1 .. F6 that rejects its parameters or its peak gain; the snapshot never fails.
  function ParallelStatus(variant: Variant, math: MathLib, sampleRate: nat, p: FrameParms): (r: Result<()>)
    ensures variant == Snapshot ==> r.Ok?
  {
    var nasal :- NasalParStatus(variant, math, sampleRate, p);
    ParallelOralsStatus(variant, math, sampleRate, p, 0)
  }

  /// Adjusting the parallel branch fails exactly when one of its formants rejects its
  /// parameters or its peak gain.
  lemma ParallelStatusFails(variant: Variant, math: MathLib, sampleRate: nat, p: FrameParms)
    ensures ParallelStatus(variant, math, sampleRate, p).Err? <==>
      NasalParStatus(variant, math, sampleRate, p).Err?
      || exists j :: 0 <= j < MAX_ORAL_FORMANTS && OralParStatus(variant, math, sampleRate, p, j).Err?
  {
    ParallelOralsStatusFails(variant, math, sampleRate, p, 0);
  }

  // ---------------------------------------------------------------------------------------------
  // The filters of the two branches

  /// The states of six new oral formants.
  const FreshResonators: seq<ResonatorState> :=
    [FreshResonator, FreshResonator, FreshResonator, FreshResonator, FreshResonator, FreshResonator]

  /// `n` fresh resonators in their initial state.
  method NewResonators(sampleRate: nat, n: nat) returns (rs: seq<Resonator>)
    ensures |rs| == n
    ensures forall i :: 0 <= i < n ==> fresh(rs[i]) && rs[i].sampleRate == sampleRate
    ensures forall i :: 0 <= i < n ==> rs[i].State() == FreshResonator
    ensures forall i, j :: 0 <= i < j < n ==> rs[i] != rs[j]
  {
    rs := [];
    while |rs| < n
      invariant |rs| <= n
      invariant forall i :: 0 <= i < |rs| ==> fresh(rs[i]) && rs[i].sampleRate == sampleRate
      invariant forall i :: 0 <= i < |rs| ==> rs[i].State() == FreshResonator
      invariant forall i, j :: 0 <= i < j < |rs| ==> rs[i] != rs[j]
    {
      var r := new Resonator(sampleRate);
      rs := rs + [r];
    }
  }

  /// The states of a sequence of resonators.
  ghost function StatesOf(rs: seq<Resonator>): (s: seq<ResonatorState>)
    reads set r | r in rs
    ensures |s| == |rs|
    ensures forall k :: 0 <= k < |rs| ==> s[k] == rs[k].State()
  {
    seq(|rs|, k requires 0 <= k < |rs| reads set r | r in rs => rs[k].State())
  }

  /// The filters of the cascade branch: the nasal anti-formant, the nasal formant and the six
  /// oral formants, in the order the signal passes them.
  class CascadeFilters {
    const sampleRate: nat
    const antiformant: AntiResonator
    const nasalFormant: Resonator
    const oralFormants: seq<Resonator>
    ghost const Repr: set<object>

    /// Six distinct oral formants besides the nasal one, all within `Repr`.
    ghost predicate Wired()
    {
      |oralFormants| == MAX_ORAL_FORMANTS
      && (forall i, j :: 0 <= i < j < |oralFormants| ==> oralFormants[i] != oralFormants[j])
      && nasalFormant !in oralFormants
      && antiformant in Repr && nasalFormant in Repr && (forall r :: r in oralFormants ==> r in Repr)
      && antiformant.sampleRate == sampleRate && nasalFormant.sampleRate == sampleRate
      && (forall i :: 0 <= i < |oralFormants| ==> oralFormants[i].sampleRate == sampleRate)
    }

    ghost function State(): (cs: CascadeState)
      reads Repr
      requires Wired()
      ensures |cs.oral| == MAX_ORAL_FORMANTS
    {
      CascadeState(antiformant.State(), nasalFormant.State(), StatesOf(oralFormants))
    }

    constructor(sampleRate: nat)
      ensures Wired() && fresh(Repr) && this.sampleRate == sampleRate
      ensures State() == CascadeState(FreshAntiResonator, FreshResonator, FreshResonators)
    {
      var anti := new AntiResonator(sampleRate);
      var nasal := new Resonator(sampleRate);
      var oral := NewResonators(sampleRate, MAX_ORAL_FORMANTS);
      this.sampleRate := sampleRate;
      antiformant, nasalFormant, oralFormants := anti, nasal, oral;
      Repr := {anti, nasal} + set r | r in oral;
    }

    /// The cascade's part of `compute_cascade_branch`: the input passes the anti-formant, the
    /// nasal formant and F1 .. F6 in turn.
    method Step(x: real) returns (y: real)
      requires Wired()
      modifies Repr
      ensures y == CascadeOutput(old(State()), x)
      ensures State() == CascadeNext(old(State()), x)
    {
      ghost var s0 := State();
      var v := antiformant.Step(x);
      v := nasalFormant.Step(v);
      y := StepChain(v, s0.oral);
      StateIs(CascadeNext(s0, x));
    }

    /// F1 .. F6, in states `s0`, take `x` one after the other.
    method StepChain(x: real, ghost s0: seq<ResonatorState>) returns (y: real)
      requires Wired() && |s0| == |oralFormants|
      requires forall k {:trigger oralFormants[k].State()} :: 0 <= k < |s0| ==> oralFormants[k].State() == s0[k]
      modifies set r | r in oralFormants
      ensures y == ChainOutput(s0, x)
      ensures forall k {:trigger oralFormants[k].State()} :: 0 <= k < |s0| ==> oralFormants[k].State() == ChainNext(s0, x)[k]
    {
      y := x;
      var i := 0;
      while i < |oralFormants|
        invariant 0 <= i <= |s0|
        invariant y == ChainPrefix(s0, x, i)
        invariant forall k {:trigger oralFormants[k].State()} :: 0 <= k < i ==> oralFormants[k].State() == ChainNext(s0, x)[k]
        invariant forall k {:trigger oralFormants[k].State()} :: i <= k < |s0| ==> oralFormants[k].State() == s0[k]
      {
        y := oralFormants[i].Step(y);
        i := i + 1;
      }
    }

    /// The cascade's part of `start_using_new_frame_parameters`: the nasal formant, the nasal
    /// anti-formant and F1 .. F6 are set from frame `p` in turn; the first error stops the
    /// adjustment and is passed on.
    method Adjust(variant: Variant, math: MathLib, p: FrameParms) returns (r: Result<()>)
      requires Wired()
      modifies Repr
      ensures r.Ok? ==> State() == CascadeTuned(variant, math, sampleRate, old(State()), p)
      ensures r == CascadeStatus(variant, sampleRate, p)
      ensures variant == Snapshot ==> r.Ok?
    {
      ghost var s0 := State();
      r := SetNasalFormantCasc(variant, math, nasalFormant, p);
      if r.Err? {
        return;
      }
      r := SetNasalAntiformantCasc(variant, math, antiformant, p);
      if r.Err? {
        return;
      }
      r := AdjustOralFormants(variant, math, p, s0.oral);
      if r.Ok? {
        StateIs(CascadeTuned(variant, math, sampleRate, s0, p));
      }
    }

    /// F1 .. F6, in states `s0`, are set from frame `p` in turn, up to the first error.
    method AdjustOralFormants(variant: Variant, math: MathLib, p: FrameParms, ghost s0: seq<ResonatorState>)
      returns (r: Result<()>)
      requires Wired() && |s0| == |oralFormants|
      requires forall k {:trigger oralFormants[k].State()} :: 0 <= k < |s0| ==> oralFormants[k].State() == s0[k]
      modifies set r | r in oralFormants
      ensures r.Ok? ==>
        forall k {:trigger oralFormants[k].State()} :: 0 <= k < |s0| ==> oralFormants[k].State() == CascadeOralTuned(math, sampleRate, s0[k], p, k)
      ensures r == CascadeOralsStatus(variant, sampleRate, p, 0)
      ensures variant == Snapshot ==> r.Ok?
    {
      var i := 0;
      while i < |oralFormants|
        invariant 0 <= i <= |s0|
        invariant CascadeOralsStatus(variant, sampleRate, p, 0) == CascadeOralsStatus(variant, sampleRate, p, i)
        invariant forall k {:trigger oralFormants[k].State()} :: 0 <= k < i ==> oralFormants[k].State() == CascadeOralTuned(math, sampleRate, s0[k], p, k)
        invariant forall k {:trigger oralFormants[k].State()} :: i <= k < |s0| ==> oralFormants[k].State() == s0[k]
      {
        r := SetOralFormantCasc(variant, math, oralFormants[i], p, i);
        if r.Err? {
          return;
        }
        i := i + 1;
      }
      return Ok(());
    }

    /// The state is `cs` when every filter's state is the corresponding part of `cs`.
    lemma StateIs(cs: CascadeState)
      requires Wired() && |cs.oral| == |oralFormants|
      requires antiformant.State() == cs.anti && nasalFormant.State() == cs.nasal
      requires forall k {:trigger oralFormants[k].State()} :: 0 <= k < |oralFormants| ==> oralFormants[k].State() == cs.oral[k]
      ensures State() == cs
    {
    }
  }

  /// The filters of the parallel branch: the nasal formant, the six oral formants and the
  /// differencing filter.
  class ParallelFilters {
    const sampleRate: nat
    const nasalFormant: Resonator
    const oralFormants: seq<Resonator>
    const differencing: DifferencingFilter
    ghost const Repr: set<object>

    ghost predicate Wired()
    {
      |oralFormants| == MAX_ORAL_FORMANTS
      && (forall i, j :: 0 <= i < j < |oralFormants| ==> oralFormants[i] != oralFormants[j])
      && nasalFormant !in oralFormants
      && nasalFormant in Repr && differencing in Repr && (forall r :: r in oralFormants ==> r in Repr)
      && nasalFormant.sampleRate == sampleRate
      && (forall i :: 0 <= i < |oralFormants| ==> oralFormants[i].sampleRate == sampleRate)
    }

    ghost function State(): (ps: ParallelState)
      reads Repr
      requires Wired()
      ensures |ps.oral| == MAX_ORAL_FORMANTS
    {
      ParallelState(nasalFormant.State(), StatesOf(oralFormants), differencing.x1)
    }

    constructor(sampleRate: nat)
      ensures Wired() && fresh(Repr) && this.sampleRate == sampleRate
      ensures State() == ParallelState(FreshResonator, FreshResonators, 0.0)
    {
      var nasal := new Resonator(sampleRate);
      var oral := NewResonators(sampleRate, MAX_ORAL_FORMANTS);
      var diff := new DifferencingFilter();
      this.sampleRate := sampleRate;
      nasalFormant, oralFormants, differencing := nasal, oral, diff;
      Repr := {nasal, diff} + set r | r in oral;
    }

    /// The filters' part of `compute_parallel_branch`: the nasal formant and F1 take the source,
    /// the differencing filter turns it into the source of the other formants and the bypass.
    method Step(variant: Variant, source: real, frication: real, bypassLin: real) returns (y: real)
      requires Wired()
      modifies Repr
      ensures y == ParallelOutput(variant, old(State()), source, frication, bypassLin)
      ensures State() == ParallelNext(variant, old(State()), source, frication)
    {
      ghost var s0 := State();
      var n, formants, source2 := StepFilters(variant, source, frication);
      y := n + formants + bypassLin * source2;
      ParallelOutputOf(variant, s0, source, frication, bypassLin, n, formants, source2);
    }

    /// The filter steps of `compute_parallel_branch`, each output returned on its own.
    method StepFilters(variant: Variant, source: real, frication: real) returns (n: real, formants: real, source2: real)
      requires Wired()
      modifies Repr
      ensures source2 == DifferencedSource(old(State()), source, frication)
      ensures n == ResonatorOutput(old(State()).nasal, source)
      ensures formants == ParallelFormantsOutput(variant, old(State()).oral, source, source2)
      ensures State() == ParallelNext(variant, old(State()), source, frication)
    {
      ghost var s0 := State();
      var difference := differencing.Step(source);
      source2 := difference + frication;
      n := nasalFormant.Step(source);
      formants := StepOralFormants(variant, source, source2, s0.oral);
      StateIs(ParallelNext(variant, s0, source, frication));
    }

    /// The parallel branch's part of `start_using_new_frame_parameters`: the nasal formant and
    /// F1 .. F6 are set from frame `p` in turn; the first error stops the adjustment and is
    /// passed on.
    method Adjust(variant: Variant, math: MathLib, p: FrameParms) returns (r: Result<()>)
      requires Wired()
      modifies Repr
      ensures r.Ok? ==> State() == ParallelTuned(variant, math, sampleRate, old(State()), p)
      ensures r == ParallelStatus(variant, math, sampleRate, p)
      ensures variant == Snapshot ==> r.Ok?
    {
      ghost var s0 := State();
      r := SetNasalFormantPar(variant, math, nasalFormant, p);
      if r.Err? {
        return;
      }
      r := AdjustOralFormants(variant, math, p, s0.oral);
      if r.Ok? {
        StateIs(ParallelTuned(variant, math, sampleRate, s0, p));
      }
    }

    /// F1 .. F6, in states `s0`, are set from frame `p` in turn, up to the first error.
    method AdjustOralFormants(variant: Variant, math: MathLib, p: FrameParms, ghost s0: seq<ResonatorState>)
      returns (r: Result<()>)
      requires Wired() && |s0| == |oralFormants|
      requires forall k {:trigger oralFormants[k].State()} :: 0 <= k < |s0| ==> oralFormants[k].State() == s0[k]
      modifies set r | r in oralFormants
      ensures r.Ok? ==>
        forall k {:trigger oralFormants[k].State()} :: 0 <= k < |s0| ==> oralFormants[k].State() == ParallelOralTuned(variant, math, sampleRate, s0[k], p, k)
      ensures r == ParallelOralsStatus(variant, math, sampleRate, p, 0)
      ensures variant == Snapshot ==> r.Ok?
    {
      var i := 0;
      while i < |oralFormants|
        invariant 0 <= i <= |s0|
        invariant ParallelOralsStatus(variant, math, sampleRate, p, 0) == ParallelOralsStatus(variant, math, sampleRate, p, i)
        invariant forall k {:trigger oralFormants[k].State()} :: 0 <= k < i ==>
          oralFormants[k].State() == ParallelOralTuned(variant, math, sampleRate, s0[k], p, k)
        invariant forall k {:trigger oralFormants[k].State()} :: i <= k < |s0| ==> oralFormants[k].State() == s0[k]
      {
        r := TuneOralFormant(variant, math, p, s0, i);
        if r.Err? {
          return;
        }
        i := i + 1;
      }
      return Ok(());
    }

    /// Formant `i` of F1 .. F6 is set from frame `p`; those before it are already set.
    method TuneOralFormant(variant: Variant, math: MathLib, p: FrameParms, ghost s0: seq<ResonatorState>, i: nat)
      returns (r: Result<()>)
      requires Wired() && |s0| == |oralFormants| && i < |s0|
      requires forall k {:trigger oralFormants[k].State()} :: 0 <= k < i ==>
        oralFormants[k].State() == ParallelOralTuned(variant, math, sampleRate, s0[k], p, k)
      requires forall k {:trigger oralFormants[k].State()} :: i <= k < |s0| ==> oralFormants[k].State() == s0[k]
      modifies oralFormants[i]
      ensures r.Err? ==> r == ParallelOralsStatus(variant, math, sampleRate, p, i)
      ensures r.Ok? ==> ParallelOralsStatus(variant, math, sampleRate, p, i) == ParallelOralsStatus(variant, math, sampleRate, p, i + 1)
      ensures r.Ok? ==> forall k {:trigger oralFormants[k].State()} :: 0 <= k <= i ==>
        oralFormants[k].State() == ParallelOralTuned(variant, math, sampleRate, s0[k], p, k)
      ensures forall k {:trigger oralFormants[k].State()} :: i < k < |s0| ==> oralFormants[k].State() == s0[k]
    {
      r := SetOralFormantPar(variant, math, oralFormants[i], sampleRate, p, i);
    }

    /// The oral formants' part: F1 takes the source, then the formants from
    /// `FirstDifferencedFormant(variant)` on take the differenced source.
    method StepOralFormants(variant: Variant, source: real, source2: real, ghost s0: seq<ResonatorState>)
      returns (sum: real)
      requires Wired() && |s0| == |oralFormants|
      requires forall k {:trigger oralFormants[k].State()} :: 0 <= k < |s0| ==> oralFormants[k].State() == s0[k]
      modifies set r | r in oralFormants
      ensures sum == ParallelFormantsOutput(variant, s0, source, source2)
      ensures forall k {:trigger oralFormants[k].State()} :: 0 <= k < |s0| ==> oralFormants[k].State() == ParallelFormantsNext(variant, s0, source, source2)[k]
    {
      var f1 := oralFormants[0].Step(source);
      var rest := StepFormants(FirstDifferencedFormant(variant), source2, AfterF1(s0, source));
      sum := f1 + rest;
    }

    /// The state is `ps` when every filter's state is the corresponding part of `ps`.
    lemma StateIs(ps: ParallelState)
      requires Wired() && |ps.oral| == |oralFormants|
      requires nasalFormant.State() == ps.nasal && differencing.x1 == ps.x1
      requires forall k {:trigger oralFormants[k].State()} :: 0 <= k < |oralFormants| ==> oralFormants[k].State() == ps.oral[k]
      ensures State() == ps
    {
    }

    /// Formants `lo` .. F6, in states `s0`, take `x`; their outputs enter the sum with
    /// alternating signs.
    method StepFormants(lo: nat, x: real, ghost s0: seq<ResonatorState>) returns (sum: real)
      requires Wired() && |s0| == |oralFormants| && lo <= |s0|
      requires forall k {:trigger oralFormants[k].State()} :: 0 <= k < |s0| ==> oralFormants[k].State() == s0[k]
      modifies set r | r in oralFormants
      ensures sum == SignedSum(s0, x, lo, |s0|)
      ensures forall k {:trigger oralFormants[k].State()} :: 0 <= k < lo ==> oralFormants[k].State() == s0[k]
      ensures forall k {:trigger oralFormants[k].State()} :: lo <= k < |s0| ==> oralFormants[k].State() == ResonatorNext(s0[k], x)
    {
      sum := 0.0;
      var i := lo;
      while i < |oralFormants|
        invariant lo <= i <= |s0|
        invariant sum == SignedSum(s0, x, lo, i)
        invariant forall k {:trigger oralFormants[k].State()} :: 0 <= k < lo ==> oralFormants[k].State() == s0[k]
        invariant forall k {:trigger oralFormants[k].State()} :: lo <= k < i ==> oralFormants[k].State() == ResonatorNext(s0[k], x)
        invariant forall k {:trigger oralFormants[k].State()} :: i <= k < |s0| ==> oralFormants[k].State() == s0[k]
      {
        var alternatingSign := if i % 2 == 0 then 1.0 else -1.0;
        var out := oralFormants[i].Step(x);
        sum := sum + alternatingSign * out;
        i := i + 1;
      }
    }
  }
}
