/** The fixed investigation: the steps of a finite plan in order, each through the same
    controller, until a stop rule applies or the plan is exhausted. */
module FixedPlan {
  import opened Wrappers
  import A = AdaptiveLoop

  const MAX_STEPS: nat := 64
  const MAX_EMITTED: nat := 2 + 3 * 64

  /** How many journal events a fixed plan can come to. */
  const MAX_JOURNALED: nat := 3 * 64

  datatype StopReason =
    | SufficientEvidence | RequiredCapabilityUnavailable | RequiredProbeFailed | BudgetExhausted
    | DeadlineExhausted | Cancelled | NonProgress | PlanExhausted

  /** A step by its request's digest; `probe` is what its read comes to. */
  datatype Step = Step(hash: nat, required: bool, probe: A.Probe)

  datatype Plan = Plan(
    steps: seq<Step>, sufficient: set<A.Classification>,
    engine: seq<A.Audit> -> A.Evaluation, decide: seq<A.Audit> -> A.Decision)
  {
    predicate Valid() { 1 <= |steps| <= MAX_STEPS && A.Unknown !in sufficient }

    predicate Sufficient(trail: seq<A.Audit>) { engine(trail).classification in sufficient }
  }

  /** The last step before `i` with this digest. */
  function LastUse(steps: seq<Step>, i: nat, hash: nat): (j: Option<nat>)
    requires i <= |steps|
    ensures j.Some? ==> j.value < i
  {
    if i == 0 then None
    else if steps[i - 1].hash == hash then Some(i - 1)
    else LastUse(steps, i - 1, hash)
  }

  predicate Repeated(p: Plan, i: nat)
    requires i < |p.steps|
  {
    LastUse(p.steps, i, p.steps[i].hash).Some?
  }

  /** A repeated request after which the evidence is what it was after its last use. */
  predicate Pointless(p: Plan, trail: seq<A.Audit>, i: nat)
    requires i < |p.steps| && i < |trail|
  {
    match LastUse(p.steps, i, p.steps[i].hash)
    case Some(j) => p.engine(trail[..i + 1]).fingerprint == p.engine(trail[..j + 1]).fingerprint
    case None => false
  }

  predicate Unsupported(p: Plan, trail: seq<A.Audit>, i: nat)
    requires i < |trail|
  {
    trail[i].stop.Refused? || p.decide(trail[..i + 1]).unsupported
  }

  predicate Redundant(p: Plan, trail: seq<A.Audit>, i: nat)
    requires i < |p.steps| && i < |trail|
  {
    p.decide(trail[..i + 1]).duplicate || Pointless(p, trail, i)
  }

  /** The stop rules after step `i`, in order. */
  function StopAfter(p: Plan, trail: seq<A.Audit>, i: nat): Option<StopReason>
    requires i < |p.steps| && i < |trail|
  {
    var audit := trail[i];
    if p.Sufficient(trail[..i + 1]) then Some(SufficientEvidence)
    else if p.steps[i].required && audit.stop.CapabilityUnavailable? then Some(RequiredCapabilityUnavailable)
    else if p.steps[i].required
            && (Unsupported(p, trail, i) || audit.outcome.OutcomeRejected? || audit.outcome.OutcomeMalformed?)
    then Some(RequiredProbeFailed)
    else if audit.stop.Budget() then Some(BudgetExhausted)
    else if audit.stop.Deadline() then Some(DeadlineExhausted)
    else if audit.stop.ProbeCancelled? then Some(Cancelled)
    else if Pointless(p, trail, i) then Some(NonProgress)
    else None
  }

  /** Everything a step decides depends only on the trail up to it. */
  lemma StopRulesLookBack(p: Plan, trail: seq<A.Audit>, longer: seq<A.Audit>, i: nat)
    requires i < |p.steps| && i < |trail| && trail <= longer
    ensures StopAfter(p, longer, i) == StopAfter(p, trail, i)
    ensures Redundant(p, longer, i) == Redundant(p, trail, i) && Unsupported(p, longer, i) == Unsupported(p, trail, i)
  {
    assert longer[..i + 1] == trail[..i + 1];
    var j := LastUse(p.steps, i, p.steps[i].hash);
    assert j.Some? ==> longer[..j.value + 1] == trail[..j.value + 1];
  }

  datatype Result = Result(
    stop: StopReason, planned: nat, attempted: nat, probeCountUsed: nat, totalElapsedMs: nat,
    sufficientSequence: Option<nat>, sufficientElapsedMs: Option<nat>,
    unsupported: nat, unavailable: nat, redundant: nat, duplicate: nat)

  /** The consistency conditions of the result's constructor. */
  predicate ResultAccepted(r: Result) {
    && r.attempted <= r.planned
    && r.unsupported <= r.attempted && r.unavailable <= r.attempted
    && r.redundant <= r.attempted && r.duplicate <= r.attempted
    && (r.stop.SufficientEvidence? <==> r.sufficientSequence.Some?)
    && (r.stop.SufficientEvidence? <==> r.sufficientElapsedMs.Some?)
    && (r.sufficientSequence.Some? ==> 1 <= r.sufficientSequence.value <= r.attempted)
    && (r.sufficientElapsedMs.Some? ==> r.sufficientElapsedMs.value <= r.totalElapsedMs)
  }

  datatype Findings = Findings(unsupported: set<nat>, unavailable: set<nat>, redundant: set<nat>, duplicate: set<nat>)

  /** Which sequences each set of findings holds after `n` steps. */
  ghost predicate FindingsInv(p: Plan, trail: seq<A.Audit>, n: nat, f: Findings)
    requires n <= |trail| && n <= |p.steps|
  {
    && (forall k :: k in f.unsupported <==> 1 <= k <= n && Unsupported(p, trail, k - 1))
    && (forall k :: k in f.unavailable <==> 1 <= k <= n && trail[k - 1].stop.CapabilityUnavailable?)
    && (forall k :: k in f.redundant <==> 1 <= k <= n && Redundant(p, trail, k - 1))
    && (forall k :: k in f.duplicate <==> 1 <= k <= n && Repeated(p, k - 1))
  }

  /** The evidence after the last use of each digest. */
  ghost predicate ProgressInv(p: Plan, trail: seq<A.Audit>, n: nat, progress: map<nat, nat>)
    requires n <= |trail| && n <= |p.steps|
  {
    forall h :: match LastUse(p.steps, n, h)
      case Some(j) => h in progress && progress[h] == p.engine(trail[..j + 1]).fingerprint
      case None => h !in progress
  }

  /** One more audit changes nothing about the steps before it. */
  lemma EarlierStepsStay(p: Plan, trail: seq<A.Audit>, audit: A.Audit, n: nat)
    requires n == |trail| < |p.steps|
    ensures var after := trail + [audit];
            forall i :: 0 <= i < n ==>
              && StopAfter(p, after, i) == StopAfter(p, trail, i)
              && Unsupported(p, after, i) == Unsupported(p, trail, i)
              && Redundant(p, after, i) == Redundant(p, trail, i)
  {
    var after := trail + [audit];
    forall i | 0 <= i < n
      ensures StopAfter(p, after, i) == StopAfter(p, trail, i)
      ensures Unsupported(p, after, i) == Unsupported(p, trail, i)
      ensures Redundant(p, after, i) == Redundant(p, trail, i)
    {
      StopRulesLookBack(p, trail, after, i);
    }
  }

  lemma ProgressExtends(p: Plan, trail: seq<A.Audit>, audit: A.Audit, n: nat, progress: map<nat, nat>)
    requires n == |trail| < |p.steps| && ProgressInv(p, trail, n, progress)
    ensures var after := trail + [audit];
            && ProgressInv(p, after, n + 1, progress[p.steps[n].hash := p.engine(after).fingerprint])
            && (Repeated(p, n) <==> p.steps[n].hash in progress)
            && (Pointless(p, after, n) <==>
                  p.steps[n].hash in progress && progress[p.steps[n].hash] == p.engine(after).fingerprint)
  {
    var after := trail + [audit];
    assert after[..n + 1] == after;
    forall h
      ensures match LastUse(p.steps, n, h)
              case Some(j) => after[..j + 1] == trail[..j + 1]
              case None => true
    {
    }
  }

  /** The findings after step `|trail| - 1`. */
  function Noted(
    f: Findings, sequence: nat, unsupported: bool, unavailable: bool, redundant: bool, duplicate: bool): Findings
  {
    Findings(if unsupported then f.unsupported + {sequence} else f.unsupported,
             if unavailable then f.unavailable + {sequence} else f.unavailable,
             if redundant then f.redundant + {sequence} else f.redundant,
             if duplicate then f.duplicate + {sequence} else f.duplicate)
  }

  lemma FindingsExtend(p: Plan, trail: seq<A.Audit>, audit: A.Audit, n: nat, f: Findings)
    requires n == |trail| < |p.steps| && FindingsInv(p, trail, n, f)
    ensures var after := trail + [audit];
            FindingsInv(p, after, n + 1, Noted(f, n + 1, Unsupported(p, after, n), audit.stop.CapabilityUnavailable?,
                                               Redundant(p, after, n), Repeated(p, n)))
  {
    EarlierStepsStay(p, trail, audit, n);
  }

  /** What is noted about one step once its audit is on the trail. */
  method NoteStep(p: Plan, ghost before: seq<A.Audit>, trail: seq<A.Audit>, f: Findings, progress: map<nat, nat>)
    returns (after: Findings, noted: map<nat, nat>)
    requires |before| < |p.steps| && |trail| == |before| + 1 && trail == before + [trail[|before|]]
    requires trail[|before|].sequence == |trail|
    requires FindingsInv(p, before, |before|, f) && ProgressInv(p, before, |before|, progress)
    ensures FindingsInv(p, trail, |trail|, after) && ProgressInv(p, trail, |trail|, noted)
  {
    var audit := trail[|trail| - 1];
    var hash := p.steps[|trail| - 1].hash;
    ProgressExtends(p, before, audit, |before|, progress);
    FindingsExtend(p, before, audit, |before|, f);
    assert trail[..|trail|] == trail;
    var evaluation := p.engine(trail);
    var decision := p.decide(trail);
    var repeated := hash in progress;
    var pointless := repeated && progress[hash] == evaluation.fingerprint;
    after := Noted(f, audit.sequence, audit.stop.Refused? || decision.unsupported, audit.stop.CapabilityUnavailable?,
                   decision.duplicate || pointless, repeated);
    noted := progress[hash := evaluation.fingerprint];
  }

  /** Where the plan stops is determined by its stop rules. */
  ghost predicate Stops(p: Plan, trail: seq<A.Audit>, stop: Option<StopReason>)
    requires |trail| <= |p.steps|
  {
    && (forall i :: 0 <= i < |trail| - 1 ==> StopAfter(p, trail, i).None?)
    && (if trail == [] then stop.None? else StopAfter(p, trail, |trail| - 1) == stop)
  }

  lemma Seals(p: Plan, trail: seq<A.Audit>, stop: StopReason, f: Findings)
    requires 1 <= |trail| <= |p.steps| && FindingsInv(p, trail, |trail|, f) && A.TrailInv(A.Controller(trail, None))
    ensures ResultAccepted(Seal(p, trail, stop, f))
  {
    A.SequencesFit(f.unsupported, |trail|);
    A.SequencesFit(f.unavailable, |trail|);
    A.SequencesFit(f.redundant, |trail|);
    A.SequencesFit(f.duplicate, |trail|);
  }

  function Seal(p: Plan, trail: seq<A.Audit>, stop: StopReason, f: Findings): Result
    requires trail != []
  {
    var last := trail[|trail| - 1];
    Result(stop, |p.steps|, |trail|, last.probeCountUsed, last.elapsedMs,
           if stop.SufficientEvidence? then Some(last.sequence) else None,
           if stop.SufficientEvidence? then Some(last.elapsedMs) else None,
           |f.unsupported|, |f.unavailable|, |f.redundant|, |f.duplicate|)
  }

  lemma SealsEnd(p: Plan, r: Run, stop: StopReason)
    requires RunInv(p, r) && r.controller.trail != []
    ensures ResultAccepted(Seal(p, r.controller.trail, stop, r.findings))
  {
    Seals(p, r.controller.trail, stop, r.findings);
  }

  /** The loop's variables. */
  datatype Run = Run(controller: A.Controller, stop: Option<StopReason>, findings: Findings, progress: map<nat, nat>)

  ghost predicate RunInv(p: Plan, r: Run) {
    var trail := r.controller.trail;
    && |trail| <= |p.steps|
    && A.TrailInv(r.controller) && (r.controller.terminal.Some? ==> r.stop.Some?)
    && FindingsInv(p, trail, |trail|, r.findings) && ProgressInv(p, trail, |trail|, r.progress)
    && Stops(p, trail, r.stop)
  }

  lemma StopsExtend(p: Plan, trail: seq<A.Audit>, audit: A.Audit)
    requires |trail| < |p.steps| && Stops(p, trail, None)
    ensures Stops(p, trail + [audit], StopAfter(p, trail + [audit], |trail|))
  {
    EarlierStepsStay(p, trail, audit, |trail|);
  }

  /** One step: dispatch it, note it, apply the stop rules. */
  method ExecuteStep(p: Plan, r: Run) returns (after: Run)
    requires RunInv(p, r) && r.stop.None? && |r.controller.trail| < |p.steps|
    ensures RunInv(p, after) && |after.controller.trail| == |r.controller.trail| + 1
  {
    var i := |r.controller.trail|;
    A.TrailKept(r.controller, p.steps[i].probe);
    var (controller, audit) := A.Execute(r.controller, p.steps[i].probe);
    StopsExtend(p, r.controller.trail, audit);
    var findings, progress := NoteStep(p, r.controller.trail, controller.trail, r.findings, r.progress);
    after := Run(controller, StopAfter(p, controller.trail, i), findings, progress);
  }

  lemma StepIsJournaled(emitted: seq<A.Emission>)
    ensures A.Journaled(emitted + [A.ProbeRequested, A.ProbeFinished, A.EvidenceDecided], false)
            == A.Journaled(emitted, false) + 3
  {
    var step := [A.ProbeRequested, A.ProbeFinished, A.EvidenceDecided];
    A.JournaledAppends(emitted, step, false);
    A.JournaledAppends([A.ProbeRequested], [A.ProbeFinished], false);
    A.JournaledAppends([A.ProbeRequested] + [A.ProbeFinished], [A.EvidenceDecided], false);
    assert step == [A.ProbeRequested] + [A.ProbeFinished] + [A.EvidenceDecided];
  }

  /** Nothing was dispatched yet, and nothing but the start was emitted. */
  const START := Run(A.Controller([], None), None, Findings({}, {}, {}, {}), map[])

  lemma StartHolds(p: Plan)
    ensures RunInv(p, START) && A.Journaled([A.StrategyStarted], false) == 0
  {
    assert A.Journaled([A.StrategyStarted], false) == A.Journaled([], false) + 0;
  }

  lemma FinishIsNotJournaled(emitted: seq<A.Emission>)
    ensures A.Journaled(emitted + [A.StrategyFinished], false) == A.Journaled(emitted, false)
  {
    A.JournaledAppends(emitted, [A.StrategyFinished], false);
  }

  /** What a run that is over says about its end. */
  lemma EndIsDecided(p: Plan, r: Run)
    requires p.Valid() && RunInv(p, r) && (r.stop.Some? || |r.controller.trail| == |p.steps|)
    ensures 1 <= |r.controller.trail| <= |p.steps|
    ensures r.stop != Some(PlanExhausted)
    ensures r.stop == Some(SufficientEvidence) <==> p.Sufficient(r.controller.trail)
  {
    var trail := r.controller.trail;
    assert trail[..|trail|] == trail;
  }

  /** The plan runs through its steps until the first stop rule that applies: everything it
      reports is what those rules and the audit trail determine, its result meets every condition
      of its constructor, and it emits three events a step besides its first and last. */
  method ExecuteFixedPlan(p: Plan)
    returns (result: Result, trail: seq<A.Audit>, findings: Findings, emitted: seq<A.Emission>)
    requires p.Valid()
    ensures 1 <= |trail| <= |p.steps|
    ensures FindingsInv(p, trail, |trail|, findings) && result == Seal(p, trail, result.stop, findings)
    ensures Stops(p, trail, if result.stop.PlanExhausted? then None else Some(result.stop))
    ensures result.stop.PlanExhausted? ==> |trail| == |p.steps|
    ensures result.stop.SufficientEvidence? <==> p.Sufficient(trail)
    ensures ResultAccepted(result)
    ensures |emitted| == 2 + 3 * |trail| <= MAX_EMITTED
    ensures A.Journaled(emitted, false) == 3 * |trail| <= MAX_JOURNALED
  {
    hide A.Journaled, A.TrailInv, FindingsInv, ProgressInv, ResultAccepted, StopAfter;
    StartHolds(p);
    var r := START;
    emitted := [A.StrategyStarted];
    while |r.controller.trail| < |p.steps| && r.stop.None?
      invariant RunInv(p, r)
      invariant |emitted| == 1 + 3 * |r.controller.trail|
      invariant A.Journaled(emitted, false) == 3 * |r.controller.trail|
      decreases |p.steps| - |r.controller.trail|
    {
      r := ExecuteStep(p, r);
      StepIsJournaled(emitted);
      emitted := emitted + [A.ProbeRequested, A.ProbeFinished, A.EvidenceDecided];
    }
    trail, findings := r.controller.trail, r.findings;
    var reason := if r.stop.None? then PlanExhausted else r.stop.value;
    EndIsDecided(p, r);
    SealsEnd(p, r, reason);
    result := Seal(p, trail, reason, findings);
    FinishIsNotJournaled(emitted);
    emitted := emitted + [A.StrategyFinished];
  }
}
