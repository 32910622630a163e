/** The bounded adaptive investigation: an optional bootstrap probe, at most `maxTurns` planner
    turns, and an optional explanation turn. What the planner, the controller's handlers and the
    evidence engine answer are arguments; everything the loop decides from them is here. */
module AdaptiveLoop {
  import opened Wrappers
  import S = Selection

  const MAX_TURNS: nat := 64
  const NON_PROGRESS_LIMIT: nat := 2
  const MAX_EMITTED: nat := 2 + 5 * 64 + 2
  const MAX_PROPOSALS: nat := 8

  /** How many journal events one adaptive investigation can come to: for each turn two advisory
      events with a request for each proposal and two probe events, and one explanation turn. */
  const MAX_JOURNALED: nat := (2 + MAX_PROPOSALS + 2) * 64 + (2 + MAX_PROPOSALS)

  datatype Classification = Committed | NotCommitted | Partial | Pending | Unknown

  datatype StopReason =
    | SufficientEvidence | Cancelled | RequiredCapabilityUnavailable | CatalogUnsafe | DeadlineExhausted
    | BudgetExhausted | PlannerUnavailable | PlannerTimeout | PlannerSchemaInvalid | NoValidProposal
    | NonProgress | RequiredProbeFailed | MaxTurns

  // ---------- The controller ----------

  /** Why a probe stopped; `Refused` stands for every reason a request is refused outright. */
  datatype ProbeStop =
    | ProbeCompleted | Refused | ProbeCountExhausted | CapabilityLimitExhausted | CostExhausted
    | ElapsedExhausted | TotalBytesExhausted | ResultTooLarge | ProbeTimeout | ProbeCancelled
    | CapabilityUnavailable | MalformedObservation
  {
    predicate Budget() {
      ProbeCountExhausted? || CapabilityLimitExhausted? || CostExhausted? || TotalBytesExhausted? || ResultTooLarge?
    }

    predicate Deadline() { ElapsedExhausted? || ProbeTimeout? }

    /** After these the controller answers every further request with the same execution. */
    predicate Terminal() {
      ProbeCancelled? || ProbeCountExhausted? || ElapsedExhausted? || TotalBytesExhausted? || ProbeTimeout?
    }
  }

  datatype Outcome = OutcomeCompleted | OutcomeRejected | OutcomeMalformed | OutcomeOther

  datatype Audit = Audit(
    sequence: nat, stop: ProbeStop, outcome: Outcome, elapsedMs: nat, probeCountUsed: nat, content: nat)

  /** What a handler's run comes to, before the controller numbers it. */
  datatype Probe = Probe(stop: ProbeStop, outcome: Outcome, elapsedMs: nat, counted: bool, content: nat)

  datatype Controller = Controller(trail: seq<Audit>, terminal: Option<Audit>)

  /** Audits are numbered 1..n with counters that never fall. */
  function Execute(c: Controller, probe: Probe): (Controller, Audit) {
    if c.terminal.Some? then (c, c.terminal.value)
    else
      var last := if c.trail == [] then Audit(0, probe.stop, probe.outcome, 0, 0, 0) else c.trail[|c.trail| - 1];
      var audit := Audit(|c.trail| + 1, probe.stop, probe.outcome, Max(last.elapsedMs, probe.elapsedMs),
                         last.probeCountUsed + if probe.counted then 1 else 0, probe.content);
      (Controller(c.trail + [audit], if probe.stop.Terminal() then Some(audit) else None), audit)
  }

  // ---------- The investigation ----------

  datatype Policy = Policy(
    sufficient: set<Classification>, required: set<S.Capability>, maxTurns: nat, explanation: bool)
  {
    predicate Valid() { Unknown !in sufficient && 1 <= maxTurns <= MAX_TURNS }
  }

  datatype Evaluation = Evaluation(classification: Classification, fingerprint: nat)

  datatype Decision = Decision(duplicate: bool, unsupported: bool, rejected: bool)

  /** `engine` and `decide` are the evidence engine on an audit trail. */
  datatype Env = Env(
    policy: Policy, catalog: map<S.Capability, S.Entry>, bootstrap: Option<S.Request>, effects: set<nat>,
    rank: S.Request -> nat, digest: (S.Capability, nat, set<nat>) -> nat, argumentsValid: S.Request -> bool,
    engine: seq<Audit> -> Evaluation, decide: seq<Audit> -> Decision)
  {
    /** The engine knows nothing without evidence, and a bootstrap goes with one silent turn. */
    predicate Valid() {
      && policy.Valid() && engine([]).classification == Unknown
      && (bootstrap.Some? ==> policy.maxTurns == 1 && !policy.explanation)
    }

    /** The catalog the planner sees: the bootstrap capability may be used once. */
    function PlannerCatalog(): map<S.Capability, S.Entry> {
      if bootstrap.Some? && bootstrap.value.capability in catalog then
        catalog[bootstrap.value.capability := catalog[bootstrap.value.capability].(remainingInvocations := 1)]
      else catalog
    }

    function PlannerRequired(): set<S.Capability> {
      if bootstrap.Some? then policy.required - {bootstrap.value.capability} else policy.required
    }

    function Limit(c: S.Capability): nat {
      if c in PlannerCatalog() then PlannerCatalog()[c].remainingInvocations else 0
    }

    predicate Sufficient(trail: seq<Audit>) { engine(trail).classification in policy.sufficient }
  }

  datatype Attempt = Attempt(hash: nat, capability: S.Capability)

  datatype Phase = Acquire | Explain

  datatype Failure = FailureUnavailable | FailureTimeout | FailureSchemaInvalid

  datatype Usage = Usage(promptTokens: nat, outputTokens: nat)

  datatype Judgement = Judged(disposition: S.Disposition) | Ignored

  datatype ProposalRecord = ProposalRecord(sequence: nat, hash: nat, judgement: Judgement)

  datatype TurnRecord = TurnRecord(
    sequence: nat, phase: Phase, hasOutput: bool, failure: Option<Failure>, cancelled: bool,
    usage: Option<Usage>, proposals: seq<ProposalRecord>, selected: Option<nat>, recommendedStop: Option<bool>)

  /** The consistency conditions of a turn record's constructor. */
  ghost predicate TurnAccepted(t: TurnRecord) {
    && t.sequence >= 1
    && (forall i :: 0 <= i < |t.proposals| ==> t.proposals[i].sequence == i + 1)
    && (if t.selected.Some? then
          exists i :: && 0 <= i < |t.proposals|
                      && t.proposals[i].judgement == Judged(S.Selected) && t.proposals[i].hash == t.selected.value
                      && forall j :: 0 <= j < |t.proposals| && j != i ==> t.proposals[j].judgement != Judged(S.Selected)
        else forall j :: 0 <= j < |t.proposals| ==> t.proposals[j].judgement != Judged(S.Selected))
    && (t.cancelled ==>
          !t.hasOutput && t.failure.None? && t.usage.None? && t.proposals == [] && t.recommendedStop.None?)
    && (!t.cancelled && t.failure.None? ==> t.hasOutput && t.usage.Some? && t.recommendedStop.Some?)
    && (t.failure.Some? ==> t.proposals == [] && t.selected.None? && t.recommendedStop.None?)
    && (forall j :: 0 <= j < |t.proposals| ==> (t.proposals[j].judgement.Ignored? <==> t.phase.Explain?))
  }

  /** What the planner answers to one call. */
  datatype Answer =
    | CallCancelled
    | CallFailed(failure: Failure, hasOutput: bool, spent: Option<Usage>)
    | Proposed(proposals: seq<S.Request>, usage: Usage, recommendStop: bool)

  /** One turn's outside world: cancellation, what is left of the budgets, the planner's answer
      and what the selected probe comes to. */
  datatype Round = Round(
    cancelled: bool, elapsedLeft: nat, probesLeft: nat, costLeft: nat, bytesLeft: nat, answer: Answer, probe: Probe)

  datatype Emission =
    | StrategyStarted | AdvisoryRequested | AdvisoryCompleted | ProbeRequested | ProbeFinished
    | EvidenceDecided | StrategyFinished

  /** How many events an operator's journal gets from one emission: an adaptive request is
      journalled with the advisory turn that proposed it, which has at most `MAX_PROPOSALS`. */
  function JournalWeight(e: Emission, adaptive: bool): nat {
    match e
    case StrategyStarted => 0
    case AdvisoryRequested => 1
    case AdvisoryCompleted => 1 + MAX_PROPOSALS
    case ProbeRequested => if adaptive then 0 else 1
    case ProbeFinished => 1
    case EvidenceDecided => 1
    case StrategyFinished => 0
  }

  function Journaled(emitted: seq<Emission>, adaptive: bool): nat {
    if emitted == [] then 0
    else Journaled(emitted[..|emitted| - 1], adaptive) + JournalWeight(emitted[|emitted| - 1], adaptive)
  }

  lemma {:induction false} JournaledAppends(emitted: seq<Emission>, more: seq<Emission>, adaptive: bool)
    ensures Journaled(emitted + more, adaptive) == Journaled(emitted, adaptive) + Journaled(more, adaptive)
    decreases |more|
  {
    if more == [] {
      assert emitted + more == emitted;
    } else {
      var before := more[..|more| - 1];
      assert (emitted + more)[..|emitted + more| - 1] == emitted + before;
      JournaledAppends(emitted, before, adaptive);
    }
  }

  /** A probe's three emissions and a turn's two. */
  lemma JournaledPieces(emitted: seq<Emission>)
    ensures Journaled(emitted + [ProbeRequested] + [ProbeFinished] + [EvidenceDecided], true)
            == Journaled(emitted, true) + 2
    ensures Journaled(emitted + [AdvisoryRequested, AdvisoryCompleted], true)
            == Journaled(emitted, true) + 2 + MAX_PROPOSALS
    ensures Journaled(emitted + [StrategyFinished], true) == Journaled(emitted, true)
  {
    JournaledAppends(emitted, [ProbeRequested], true);
    JournaledAppends(emitted + [ProbeRequested], [ProbeFinished], true);
    JournaledAppends(emitted + [ProbeRequested] + [ProbeFinished], [EvidenceDecided], true);
    JournaledAppends(emitted, [AdvisoryRequested, AdvisoryCompleted], true);
    assert [AdvisoryRequested, AdvisoryCompleted][..1] == [AdvisoryRequested];
    JournaledAppends(emitted, [StrategyFinished], true);
  }

  /** The loop's variables. */
  datatype Loop = Loop(
    stop: Option<StopReason>, sufficientAt: Option<Audit>, turns: seq<TurnRecord>, attempts: seq<Attempt>,
    counts: map<S.Capability, nat>, controller: Controller, unavailable: set<nat>, redundant: set<nat>,
    idle: nat, plannerFailed: bool, emitted: seq<Emission>)
  {
    function Trail(): seq<Audit> { controller.trail }

    /** The sequences processed so far. */
    predicate Processed(sequence: nat) { 1 <= sequence <= |Trail()| }

    function Emit(e: Emission): Loop { this.(emitted := emitted + [e]) }

    function Stop(reason: StopReason): Loop { this.(stop := Some(reason)) }
  }

  const START := Loop(None, None, [], [], map[], Controller([], None), {}, {}, 0, false, [StrategyStarted])

  function Hashes(attempts: seq<Attempt>): set<nat> {
    set i | 0 <= i < |attempts| :: attempts[i].hash
  }

  function CountOf(counts: map<S.Capability, nat>, c: S.Capability): nat {
    if c in counts then counts[c] else 0
  }

  function Tally(attempts: seq<Attempt>, c: S.Capability): nat {
    if attempts == [] then 0
    else Tally(attempts[..|attempts| - 1], c) + if attempts[|attempts| - 1].capability == c then 1 else 0
  }

  /** How many of the last probes in a row left the fingerprint as it was. */
  function IdleRun(x: Env, trail: seq<Audit>): nat {
    if trail == [] then 0
    else
      var before := trail[..|trail| - 1];
      if x.engine(trail).fingerprint == x.engine(before).fingerprint then IdleRun(x, before) + 1 else 0
  }

  // ---------- One probe ----------

  function Requested(x: Env, l: Loop, request: S.Request): Loop {
    var hash := x.digest(request.capability, request.arguments, request.effects);
    l.(attempts := l.attempts + [Attempt(hash, request.capability)],
       counts := l.counts[request.capability := CountOf(l.counts, request.capability) + 1])
     .Emit(ProbeRequested)
  }

  /** A new audit is processed: evidence, findings and progress. */
  function Process(x: Env, l: Loop, controller: Controller, audit: Audit): Loop {
    var before, after := x.engine(l.Trail()), x.engine(controller.trail);
    l.(controller := controller,
       unavailable := if audit.stop.CapabilityUnavailable? then l.unavailable + {audit.sequence} else l.unavailable,
       redundant := if x.decide(controller.trail).duplicate then l.redundant + {audit.sequence} else l.redundant,
       idle := if after.fingerprint == before.fingerprint then l.idle + 1 else 0)
     .Emit(ProbeFinished).Emit(EvidenceDecided)
  }

  predicate Failed(x: Env, trail: seq<Audit>, audit: Audit) {
    || audit.stop.Refused? || audit.outcome.OutcomeRejected? || audit.outcome.OutcomeMalformed?
    || x.decide(trail).unsupported
  }

  /** The stop rules after the bootstrap probe. */
  function AfterBootstrap(x: Env, l: Loop, audit: Audit): Loop {
    if x.Sufficient(l.Trail()) then l.(sufficientAt := Some(audit)).Stop(SufficientEvidence)
    else if audit.stop.CapabilityUnavailable? then l.Stop(RequiredCapabilityUnavailable)
    else if Failed(x, l.Trail(), audit) then l.Stop(RequiredProbeFailed)
    else if audit.stop.Budget() then l.Stop(BudgetExhausted)
    else if audit.stop.Deadline() then l.Stop(DeadlineExhausted)
    else if audit.stop.ProbeCancelled? then l.Stop(Cancelled)
    else l
  }

  /** The stop rules after a proposed probe. */
  function AfterProbe(x: Env, l: Loop, capability: S.Capability, audit: Audit): Loop {
    var required := capability in x.PlannerRequired();
    if x.Sufficient(l.Trail()) then l.(sufficientAt := Some(audit)).Stop(SufficientEvidence)
    else if required && audit.stop.CapabilityUnavailable? then l.Stop(RequiredCapabilityUnavailable)
    else if required && (Failed(x, l.Trail(), audit)
                         || (audit.outcome.OutcomeCompleted? && x.decide(l.Trail()).rejected))
    then l.Stop(RequiredProbeFailed)
    else if audit.stop.Budget() then l.Stop(BudgetExhausted)
    else if audit.stop.Deadline() then l.Stop(DeadlineExhausted)
    else if audit.stop.ProbeCancelled? then l.Stop(Cancelled)
    else if audit.stop.Refused? then l.Stop(NoValidProposal)
    else if l.idle >= NON_PROGRESS_LIMIT then
      l.(redundant := l.redundant + {audit.sequence}).Stop(NonProgress)
    else l
  }

  // ---------- What every state of the loop satisfies ----------

  ghost predicate TrailInv(c: Controller) {
    && (forall i :: 0 <= i < |c.trail| ==> c.trail[i].sequence == i + 1 && c.trail[i].probeCountUsed <= i + 1)
    && (forall i :: 0 < i < |c.trail| ==>
          && c.trail[i - 1].elapsedMs <= c.trail[i].elapsedMs
          && c.trail[i - 1].probeCountUsed <= c.trail[i].probeCountUsed)
  }

  ghost predicate AttemptsInv(x: Env, l: Loop) {
    && |l.attempts| == |l.Trail()|
    && (forall i, j :: 0 <= i < j < |l.attempts| ==> l.attempts[i].hash != l.attempts[j].hash)
    && (forall c :: CountOf(l.counts, c) == Tally(l.attempts, c))
    && (forall c :: Tally(l.attempts, c) <= x.Limit(c))
  }

  ghost predicate FindingsInv(l: Loop) {
    && (forall k <- l.unavailable :: l.Processed(k))
    && (forall k <- l.redundant :: l.Processed(k))
  }

  /** No three probes in a row leave the fingerprint unchanged. */
  ghost predicate Restless(x: Env, trail: seq<Audit>) {
    forall i :: 0 <= i <= |trail| ==> IdleRun(x, trail[..i]) <= NON_PROGRESS_LIMIT
  }

  ghost predicate StopInv(x: Env, l: Loop) {
    && (l.stop == Some(SufficientEvidence) <==> x.Sufficient(l.Trail()))
    && (l.stop == Some(SufficientEvidence) <==> l.sufficientAt.Some?)
    && (l.sufficientAt.Some? ==> l.Trail() != [] && l.sufficientAt.value == l.Trail()[|l.Trail()| - 1])
    && (l.controller.terminal.Some? ==> l.stop.Some?)
    && l.idle == IdleRun(x, l.Trail())
    && (l.stop.None? ==> l.idle < NON_PROGRESS_LIMIT)
    && Restless(x, l.Trail())
  }

  ghost predicate TurnsInv(l: Loop) {
    && (forall i :: 0 <= i < |l.turns| ==>
          l.turns[i].sequence == i + 1 && l.turns[i].phase.Acquire? && TurnAccepted(l.turns[i]))
  }

  ghost predicate Inv(x: Env, l: Loop) {
    TrailInv(l.controller) && AttemptsInv(x, l) && FindingsInv(l) && StopInv(x, l) && TurnsInv(l)
  }

  // ---------- Steps keep the invariant ----------

  lemma TrailKept(c: Controller, probe: Probe)
    requires TrailInv(c) && c.terminal.None?
    ensures var (after, audit) := Execute(c, probe);
            && TrailInv(after) && after.trail == c.trail + [audit] && audit.sequence == |after.trail|
            && audit.stop == probe.stop && audit.outcome == probe.outcome
            && (after.terminal.Some? <==> probe.stop.Terminal())
  {
    var (after, audit) := Execute(c, probe);
    assert after.trail == c.trail + [audit];
    assert forall i :: 0 <= i < |c.trail| ==> after.trail[i] == c.trail[i];
    assert c.trail != [] ==> c.trail[|c.trail| - 1].probeCountUsed <= |c.trail|;
  }

  lemma TallyAppended(attempts: seq<Attempt>, a: Attempt, c: S.Capability)
    ensures Tally(attempts + [a], c) == Tally(attempts, c) + if a.capability == c then 1 else 0
  {
    assert (attempts + [a])[..|attempts|] == attempts;
  }

  lemma IdleAppended(x: Env, trail: seq<Audit>, audit: Audit)
    ensures IdleRun(x, trail + [audit])
            == if x.engine(trail + [audit]).fingerprint == x.engine(trail).fingerprint then IdleRun(x, trail) + 1 else 0
  {
    assert (trail + [audit])[..|trail|] == trail;
  }

  lemma RestlessAppended(x: Env, trail: seq<Audit>, audit: Audit)
    requires Restless(x, trail) && IdleRun(x, trail + [audit]) <= NON_PROGRESS_LIMIT
    ensures Restless(x, trail + [audit])
  {
    var after := trail + [audit];
    forall i | 0 <= i <= |after|
      ensures IdleRun(x, after[..i]) <= NON_PROGRESS_LIMIT
    {
      if i <= |trail| {
        assert after[..i] == trail[..i];
      } else {
        assert after[..i] == after;
      }
    }
  }

  /** A request that is new and within its capability's limit, as the two call sites see it. */
  predicate Dispatchable(x: Env, l: Loop, request: S.Request) {
    && x.digest(request.capability, request.arguments, request.effects) !in Hashes(l.attempts)
    && CountOf(l.counts, request.capability) < x.Limit(request.capability)
  }

  /** Dispatching one request and processing its audit, whatever stop rule comes next. */
  function Probed(x: Env, l: Loop, request: S.Request, probe: Probe): Loop {
    var requested := Requested(x, l, request);
    var (controller, audit) := Execute(l.controller, probe);
    Process(x, requested, controller, audit)
  }

  lemma ProbedKeepsAttempts(x: Env, l: Loop, request: S.Request, probe: Probe)
    requires Inv(x, l) && l.stop.None? && Dispatchable(x, l, request)
    ensures AttemptsInv(x, Probed(x, l, request, probe))
  {
    var t := Probed(x, l, request, probe);
    var a := Attempt(x.digest(request.capability, request.arguments, request.effects), request.capability);
    assert t.attempts == l.attempts + [a];
    forall i | 0 <= i < |l.attempts|
      ensures l.attempts[i].hash != a.hash
    {
      assert l.attempts[i].hash in Hashes(l.attempts);
    }
    forall c
      ensures CountOf(t.counts, c) == Tally(t.attempts, c) <= x.Limit(c)
    {
      TallyAppended(l.attempts, a, c);
      assert CountOf(l.counts, c) == Tally(l.attempts, c);
    }
  }

  /** A loop between a processed probe and the stop rules. */
  ghost predicate Undecided(x: Env, l: Loop) {
    && TrailInv(l.controller) && AttemptsInv(x, l) && FindingsInv(l) && TurnsInv(l)
    && l.Trail() != [] && l.stop.None? && l.sufficientAt.None?
    && l.idle == IdleRun(x, l.Trail()) <= NON_PROGRESS_LIMIT && Restless(x, l.Trail())
    && (l.controller.terminal.Some? <==> l.Trail()[|l.Trail()| - 1].stop.Terminal())
  }

  lemma ProbedIsUndecided(x: Env, l: Loop, request: S.Request, probe: Probe)
    requires Inv(x, l) && l.stop.None? && Dispatchable(x, l, request)
    ensures var t := Probed(x, l, request, probe);
            && Undecided(x, t) && t.turns == l.turns && |t.emitted| == |l.emitted| + 3
            && |t.Trail()| == |l.Trail()| + 1
            && t.emitted == l.emitted + [ProbeRequested] + [ProbeFinished] + [EvidenceDecided]
  {
    ProbedKeepsAttempts(x, l, request, probe);
    TrailKept(l.controller, probe);
    var audit := Execute(l.controller, probe).1;
    IdleAppended(x, l.Trail(), audit);
    RestlessAppended(x, l.Trail(), audit);
  }

  /** Stop rules that decide sufficiency first and stop after every terminal execution and every
      second idle probe keep the invariant. */
  lemma DecidedKeepsInv(x: Env, l: Loop, after: Loop)
    requires Undecided(x, l)
    requires after == l.(stop := after.stop, sufficientAt := after.sufficientAt, redundant := after.redundant)
    requires after.redundant == l.redundant || after.redundant == l.redundant + {|l.Trail()|}
    requires after.stop == Some(SufficientEvidence) <==> x.Sufficient(l.Trail())
    requires after.sufficientAt == if x.Sufficient(l.Trail()) then Some(l.Trail()[|l.Trail()| - 1]) else None
    requires after.stop.None? ==> !l.Trail()[|l.Trail()| - 1].stop.Terminal() && l.idle < NON_PROGRESS_LIMIT
    ensures Inv(x, after)
  {
    assert after.Trail() == l.Trail();
  }

  /** What the stop rules leave alone. */
  predicate OnlyDecides(l: Loop, after: Loop) {
    after == l.(stop := after.stop, sufficientAt := after.sufficientAt, redundant := after.redundant)
  }

  lemma AfterBootstrapKeepsInv(x: Env, l: Loop)
    requires Undecided(x, l) && |l.Trail()| == 1
    ensures var after := AfterBootstrap(x, l, l.Trail()[0]);
            Inv(x, after) && OnlyDecides(l, after)
  {
    assert l.Trail()[..0] == [];
    assert IdleRun(x, l.Trail()) <= 1;
    DecidedKeepsInv(x, l, AfterBootstrap(x, l, l.Trail()[0]));
  }

  lemma AfterProbeKeepsInv(x: Env, l: Loop, capability: S.Capability)
    requires Undecided(x, l)
    ensures var after := AfterProbe(x, l, capability, l.Trail()[|l.Trail()| - 1]);
            Inv(x, after) && OnlyDecides(l, after)
  {
    DecidedKeepsInv(x, l, AfterProbe(x, l, capability, l.Trail()[|l.Trail()| - 1]));
  }

  /** As long as the loop has not stopped, the controller answers with a new execution: the branch
      for a reused sequence is never taken. */
  lemma NoSequenceIsReused(x: Env, l: Loop, probe: Probe)
    requires Inv(x, l) && l.stop.None?
    ensures !l.Processed(Execute(l.controller, probe).1.sequence)
  {
  }

  // ---------- Planner turns ----------

  function SelectionContext(x: Env, l: Loop, round: Round): S.Context {
    S.Context(x.PlannerCatalog(), round.probesLeft, round.costLeft, round.bytesLeft, l.counts, x.effects,
              Hashes(l.attempts), x.rank, x.digest, x.argumentsValid)
  }

  function Records(x: S.Context, records: seq<(S.Request, S.Disposition)>): (r: seq<ProposalRecord>)
    ensures |r| == |records|
  {
    seq(|records|, i requires 0 <= i < |records| =>
      ProposalRecord(i + 1, x.Hash(records[i].0), Judged(records[i].1)))
  }

  function FailureRecord(sequence: nat, phase: Phase, answer: Answer): TurnRecord
    requires !answer.Proposed?
  {
    match answer
    case CallCancelled => TurnRecord(sequence, phase, false, None, true, None, [], None, None)
    case CallFailed(failure, hasOutput, spent) =>
      TurnRecord(sequence, phase, hasOutput, Some(failure), false, spent, [], None, None)
  }

  function FailureStop(answer: Answer): StopReason
    requires !answer.Proposed?
  {
    match answer
    case CallCancelled => Cancelled
    case CallFailed(failure, _, _) =>
      match failure
      case FailureUnavailable => PlannerUnavailable
      case FailureTimeout => PlannerTimeout
      case FailureSchemaInvalid => PlannerSchemaInvalid
  }

  /** The records of a selection name exactly the selected request, and only if there is one. */
  lemma SelectionRecordIsAccepted(x: S.Context, p: seq<S.Request>, sequence: nat, usage: Usage, recommended: bool)
    requires sequence >= 1
    ensures var selected := S.SelectedRequest(x, p);
            var hash := if selected.Some? then Some(x.Hash(selected.value)) else None;
            TurnAccepted(TurnRecord(sequence, Acquire, true, None, false, Some(usage), Records(x, S.Verdicts(x, p)),
                                    hash, Some(recommended)))
  {
    var records := Records(x, S.Verdicts(x, p));
    S.BestIsFirst(x, p, |p|);
    match S.Best(x, p, |p|)
    case Some(i) =>
      assert records[i].judgement == Judged(S.Selected);
      assert forall j :: 0 <= j < |p| && j != i ==> records[j].judgement != Judged(S.Selected);
    case None =>
      assert forall j :: 0 <= j < |p| ==> records[j].judgement != Judged(S.Selected);
  }

  /** What the selection hands to the controller is new and within its limit. */
  lemma SelectedIsDispatchable(x: Env, l: Loop, round: Round, p: seq<S.Request>)
    requires S.SelectedRequest(SelectionContext(x, l, round), p).Some?
    ensures Dispatchable(x, l, S.SelectedRequest(SelectionContext(x, l, round), p).value)
  {
    var c := SelectionContext(x, l, round);
    S.BestIsFirst(c, p, |p|);
    var i := S.Best(c, p, |p|).value;
    S.AtMostOneSelected(c, p, i, i);
  }

  lemma TurnAddedKeepsInv(
    x: Env, l: Loop, record: TurnRecord, stop: Option<StopReason>, failed: bool, emitted: seq<Emission>)
    requires Inv(x, l) && l.stop.None?
    requires record.sequence == |l.turns| + 1 && record.phase.Acquire? && TurnAccepted(record)
    requires stop != Some(SufficientEvidence)
    ensures Inv(x, l.(turns := l.turns + [record], stop := stop, plannerFailed := failed, emitted := emitted))
  {
    var t := l.(turns := l.turns + [record], stop := stop, plannerFailed := failed, emitted := emitted);
    assert t.Trail() == l.Trail();
  }

  /** What a piece of the loop may add: at most so many turns, emissions and journal events, and
      a probe only along with a turn. */
  predicate Within(l: Loop, after: Loop, turns: nat, emissions: nat, journaled: nat) {
    && |l.turns| <= |after.turns| <= |l.turns| + turns
    && |after.emitted| <= |l.emitted| + emissions
    && Journaled(after.emitted, true) <= Journaled(l.emitted, true) + journaled
    && |after.Trail()| - |l.Trail()| <= |after.turns| - |l.turns|
  }

  /** Dispatch one request: record the attempt, run the probe, process its audit. */
  method Dispatch(x: Env, l: Loop, request: S.Request, probe: Probe) returns (processed: Loop, audit: Audit)
    requires Inv(x, l) && l.stop.None? && Dispatchable(x, l, request)
    ensures Undecided(x, processed) && audit == processed.Trail()[|processed.Trail()| - 1]
    ensures processed.turns == l.turns && |processed.emitted| == |l.emitted| + 3
    ensures |processed.Trail()| == |l.Trail()| + 1
    ensures Journaled(processed.emitted, true) == Journaled(l.emitted, true) + 2
  {
    JournaledPieces(l.emitted);
    NoSequenceIsReused(x, l, probe);
    ProbedIsUndecided(x, l, request, probe);
    var requested := Requested(x, l, request);
    var (controller, a) := Execute(requested.controller, probe);
    audit := a;
    processed := Process(x, requested, controller, audit);
  }

  /** Dispatch the selected request and apply the stop rules. */
  method ProbeSelected(x: Env, l: Loop, request: S.Request, probe: Probe) returns (after: Loop)
    requires Inv(x, l) && l.stop.None? && Dispatchable(x, l, request)
    ensures Inv(x, after)
    ensures after.turns == l.turns && |after.Trail()| == |l.Trail()| + 1 && |after.emitted| == |l.emitted| + 3
    ensures Journaled(after.emitted, true) == Journaled(l.emitted, true) + 2
  {
    var processed, audit := Dispatch(x, l, request, probe);
    AfterProbeKeepsInv(x, processed, request.capability);
    after := AfterProbe(x, processed, request.capability, audit);
    assert OnlyDecides(processed, after);
  }

  /** The stop rules before a call, in order. */
  function StopBeforeCall(x: Env, l: Loop, round: Round): Option<StopReason> {
    if round.cancelled then Some(Cancelled)
    else if round.elapsedLeft == 0 then Some(DeadlineExhausted)
    else if round.probesLeft == 0 || round.costLeft == 0 || round.bytesLeft == 0 then Some(BudgetExhausted)
    else if exists c <- x.PlannerRequired() :: CountOf(l.counts, c) >= x.Limit(c) then
      Some(RequiredCapabilityUnavailable)
    else None
  }

  lemma StoppedKeepsInv(x: Env, l: Loop, stop: StopReason)
    requires Inv(x, l) && l.stop.None? && !stop.SufficientEvidence?
    ensures Inv(x, l.Stop(stop))
  {
    assert l.Stop(stop).Trail() == l.Trail();
  }

  /** A turn whose call failed or was cancelled ends the loop. */
  method FailedTurn(x: Env, l: Loop, answer: Answer) returns (after: Loop)
    requires Inv(x, l) && l.stop.None? && !answer.Proposed?
    ensures Inv(x, after) && Within(l, after, 1, 2, 2 + MAX_PROPOSALS)
  {
    JournaledPieces(l.emitted);
    var record := FailureRecord(|l.turns| + 1, Acquire, answer);
    var emitted := l.emitted + [AdvisoryRequested, AdvisoryCompleted];
    TurnAddedKeepsInv(x, l, record, Some(FailureStop(answer)), answer.CallFailed?, emitted);
    after := l.(turns := l.turns + [record], stop := Some(FailureStop(answer)),
                plannerFailed := answer.CallFailed?, emitted := emitted);
  }

  /** One acquisition turn: the stop rules before the call, the call, the selection, the probe. */
  method Turn(x: Env, l: Loop, round: Round) returns (after: Loop)
    requires x.Valid() && Inv(x, l) && l.stop.None?
    ensures Inv(x, after) && Within(l, after, 1, 5, 2 + MAX_PROPOSALS + 2)
  {
    hide TrailInv, AttemptsInv, FindingsInv, TurnsInv, TurnAccepted, Restless, Journaled;
    JournaledPieces(l.emitted);
    if x.Sufficient(l.Trail()) {
      assert false;
    }
    var early := StopBeforeCall(x, l, round);
    if early.Some? {
      StoppedKeepsInv(x, l, early.value);
      return l.Stop(early.value);
    }
    if !round.answer.Proposed? {
      after := FailedTurn(x, l, round.answer);
      return;
    }
    var c := SelectionContext(x, l, round);
    var selected, records := S.SelectProposal(c, round.answer.proposals);
    var record := TurnRecord(
      |l.turns| + 1, Acquire, true, None, false, Some(round.answer.usage), Records(c, records),
      if selected.Some? then Some(c.Hash(selected.value)) else None, Some(round.answer.recommendStop));
    SelectionRecordIsAccepted(c, round.answer.proposals, |l.turns| + 1, round.answer.usage, round.answer.recommendStop);
    var emitted := l.emitted + [AdvisoryRequested, AdvisoryCompleted];
    if selected.None? {
      var stop := if records != [] && forall i :: 0 <= i < |records| ==> records[i].1.Duplicate? then NonProgress
                  else NoValidProposal;
      TurnAddedKeepsInv(x, l, record, Some(stop), l.plannerFailed, emitted);
      return l.(turns := l.turns + [record], stop := Some(stop), emitted := emitted);
    }
    var turned := l.(turns := l.turns + [record], emitted := emitted);
    TurnAddedKeepsInv(x, l, record, None, l.plannerFailed, emitted);
    SelectedIsDispatchable(x, turned, round, round.answer.proposals);
    after := ProbeSelected(x, turned, selected.value, round.probe);
  }

  // ---------- The whole investigation ----------

  lemma BootstrapIsDispatchable(x: Env, l: Loop, request: S.Request)
    requires l.attempts == [] && l.counts == map[] && x.bootstrap == Some(request) && request.capability in x.catalog
    ensures Dispatchable(x, l, request)
  {
  }

  /** The bootstrap probe, before any planner call. */
  method Bootstrap(x: Env, l: Loop, request: S.Request, probe: Probe) returns (after: Loop)
    requires Inv(x, l) && l.stop.None? && l.attempts == [] && l.counts == map[] && l.Trail() == []
    requires x.bootstrap == Some(request) && request.capability in x.catalog
    ensures Inv(x, after) && after.turns == l.turns && |after.Trail()| == 1 && |after.emitted| == |l.emitted| + 3
    ensures Journaled(after.emitted, true) == Journaled(l.emitted, true) + 2
  {
    BootstrapIsDispatchable(x, l, request);
    var processed, audit := Dispatch(x, l, request, probe);
    AfterBootstrapKeepsInv(x, processed);
    after := AfterBootstrap(x, processed, audit);
  }

  lemma StartInv(x: Env)
    requires x.Valid()
    ensures Inv(x, START)
  {
  }

  /** The explanation turn's outside world. */
  datatype Explanation = Explanation(cancelled: bool, elapsedLeft: nat, inputValid: bool, answer: Answer)

  function ExplanationRecord(x: Env, sequence: nat, answer: Answer): TurnRecord {
    if answer.Proposed? then
      TurnRecord(sequence, Explain, true, None, false, Some(answer.usage),
                 seq(|answer.proposals|, i requires 0 <= i < |answer.proposals| =>
                   ProposalRecord(i + 1, x.digest(answer.proposals[i].capability, answer.proposals[i].arguments,
                                                  answer.proposals[i].effects), Ignored)),
                 None, Some(answer.recommendStop))
    else FailureRecord(sequence, Explain, answer)
  }

  /** Turn records as the result lists them: acquisitions, then at most one explanation. */
  ghost predicate Transcript(turns: seq<TurnRecord>, maxTurns: nat) {
    && (forall i :: 0 <= i < |turns| ==> turns[i].sequence == i + 1 && TurnAccepted(turns[i]))
    && (forall i :: 0 <= i < |turns| - 1 ==> turns[i].phase.Acquire?)
    && |turns| <= maxTurns + 1
  }

  /** What the finished loop carries over to its result: everything but the turns' phase. */
  ghost predicate FinishedInv(x: Env, l: Loop) {
    && TrailInv(l.controller) && AttemptsInv(x, l) && FindingsInv(l) && StopInv(x, l) && l.stop.Some?
    && Transcript(l.turns, x.policy.maxTurns)
  }

  lemma ExplanationIsAccepted(x: Env, sequence: nat, answer: Answer)
    requires sequence >= 1
    ensures TurnAccepted(ExplanationRecord(x, sequence, answer))
    ensures ExplanationRecord(x, sequence, answer).sequence == sequence
  {
  }

  lemma FinishedWith(x: Env, l: Loop, turns: seq<TurnRecord>, emitted: seq<Emission>)
    requires Inv(x, l) && l.stop.Some? && Transcript(turns, x.policy.maxTurns)
    ensures FinishedInv(x, l.(turns := turns, emitted := emitted))
  {
    assert l.(turns := turns, emitted := emitted).Trail() == l.Trail();
  }

  method Explaining(x: Env, l: Loop, catalogSafe: bool, e: Explanation) returns (after: Loop)
    requires Inv(x, l) && l.stop.Some? && |l.turns| <= x.policy.maxTurns
    ensures FinishedInv(x, after) && after == l.(turns := after.turns, emitted := after.emitted)
    ensures after.emitted == l.emitted || (|after.emitted| == |l.emitted| + 2 && x.policy.explanation)
    ensures Journaled(after.emitted, true)
            <= Journaled(l.emitted, true) + if x.policy.explanation then 2 + MAX_PROPOSALS else 0
  {
    hide FinishedInv, AttemptsInv, FindingsInv, StopInv, TrailInv, TurnAccepted, Journaled, ExplanationRecord;
    JournaledPieces(l.emitted);
    after := l;
    if x.policy.explanation && catalogSafe && !l.plannerFailed && l.stop != Some(Cancelled) && !e.cancelled {
      if e.elapsedLeft > 0 && e.inputValid {
        var record := ExplanationRecord(x, |l.turns| + 1, e.answer);
        ExplanationIsAccepted(x, |l.turns| + 1, e.answer);
        after := l.(turns := l.turns + [record], emitted := l.emitted + [AdvisoryRequested, AdvisoryCompleted]);
      }
    }
    FinishedWith(x, l, after.turns, after.emitted);
  }

  /** How many probes come before the first turn at most. */
  function Bootstraps(x: Env): nat {
    if x.bootstrap.Some? then 1 else 0
  }

  /** Cancellation and catalog checks, then the bootstrap probe. */
  method OpenLoop(x: Env, cancelled: bool, catalogSafe: bool, first: Probe) returns (l: Loop)
    requires x.Valid()
    ensures Inv(x, l) && l.turns == [] && |l.Trail()| <= Bootstraps(x)
    ensures |l.emitted| <= 1 + 3 * Bootstraps(x) && Journaled(l.emitted, true) <= 2 * Bootstraps(x)
  {
    StartInv(x);
    assert Journaled(START.emitted, true) == Journaled([], true) + 0;
    l := START;
    if cancelled {
      l := l.Stop(Cancelled);
    } else if !(x.policy.required <= x.catalog.Keys) {
      l := l.Stop(RequiredCapabilityUnavailable);
    } else if !catalogSafe
              || (x.bootstrap.Some? && !(x.bootstrap.value.capability in x.catalog && |x.PlannerCatalog()| == 2))
    {
      l := l.Stop(CatalogUnsafe);
    } else if x.bootstrap.Some? {
      l := Bootstrap(x, l, x.bootstrap.value, first);
    }
  }

  /** The loop itself: bootstrap or catalog checks, turns until a stop rule applies, explanation. */
  method Investigate(x: Env, cancelled: bool, catalogSafe: bool, first: Probe, rounds: seq<Round>, e: Explanation)
    returns (l: Loop)
    requires x.Valid() && |rounds| == x.policy.maxTurns
    ensures FinishedInv(x, l)
    ensures |l.attempts| <= x.policy.maxTurns + (if x.bootstrap.Some? then 1 else 0)
    ensures |l.emitted| < MAX_EMITTED && Journaled(l.emitted, true) <= MAX_JOURNALED
  {
    hide TrailInv, AttemptsInv, FindingsInv, StopInv, TurnsInv, Journaled;
    l := OpenLoop(x, cancelled, catalogSafe, first);
    var i := 0;
    while i < |rounds| && l.stop.None?
      invariant 0 <= i <= |rounds|
      invariant Inv(x, l) && |l.turns| <= i && |l.Trail()| <= Bootstraps(x) + |l.turns|
      invariant |l.emitted| <= 1 + 3 * Bootstraps(x) + 5 * i
      invariant Journaled(l.emitted, true) <= 2 * Bootstraps(x) + (2 + MAX_PROPOSALS + 2) * i
    {
      l := Turn(x, l, rounds[i]);
      i := i + 1;
    }
    if l.stop.None? {
      StoppedKeepsInv(x, l, MaxTurns);
      l := l.Stop(MaxTurns);
    }
    assert |l.Trail()| <= x.policy.maxTurns + Bootstraps(x);
    l := Explaining(x, l, catalogSafe, e);
    AttemptsFollowTrail(x, l);
  }

  lemma AttemptsFollowTrail(x: Env, l: Loop)
    requires AttemptsInv(x, l)
    ensures |l.attempts| == |l.Trail()|
  {
  }

  // ---------- The sealed result ----------

  datatype Result = Result(
    stop: StopReason, acquisitionTurns: nat, modelInvocations: nat, proposals: nat, attempted: nat,
    probeCountUsed: nat, totalElapsedMs: nat, sufficientSequence: Option<nat>, sufficientElapsedMs: Option<nat>,
    unsupported: nat, invalid: nat, duplicate: nat, unavailable: nat, redundant: nat,
    promptTokens: Option<nat>, outputTokens: Option<nat>, totalTokens: Option<nat>, turns: seq<TurnRecord>)

  function AcquisitionTurns(turns: seq<TurnRecord>): nat {
    if turns == [] then 0 else (if turns[0].phase.Acquire? then 1 else 0) + AcquisitionTurns(turns[1..])
  }

  function AllProposals(turns: seq<TurnRecord>): seq<ProposalRecord> {
    if turns == [] then [] else turns[0].proposals + AllProposals(turns[1..])
  }

  function ProposalTotal(turns: seq<TurnRecord>): nat {
    if turns == [] then 0 else |turns[0].proposals| + ProposalTotal(turns[1..])
  }

  function CountJudged(records: seq<ProposalRecord>, dispositions: set<S.Disposition>): (n: nat)
    ensures n <= |records|
  {
    if records == [] then 0
    else
      (if records[0].judgement.Judged? && records[0].judgement.disposition in dispositions then 1 else 0)
      + CountJudged(records[1..], dispositions)
  }

  predicate AllMeasured(turns: seq<TurnRecord>) {
    forall i :: 0 <= i < |turns| ==> turns[i].usage.Some?
  }

  function Tokens(turns: seq<TurnRecord>, prompt: bool): nat
    requires AllMeasured(turns)
  {
    if turns == [] then 0
    else
      (if prompt then turns[0].usage.value.promptTokens else turns[0].usage.value.outputTokens)
      + Tokens(turns[1..], prompt)
  }

  /** The consistency conditions of the result's constructor. */
  ghost predicate ResultAccepted(r: Result) {
    && (forall i :: 0 <= i < |r.turns| ==> TurnAccepted(r.turns[i]))
    && r.modelInvocations == |r.turns|
    && r.acquisitionTurns == AcquisitionTurns(r.turns)
    && r.proposals == ProposalTotal(r.turns)
    && r.probeCountUsed <= r.attempted
    && r.unsupported <= r.proposals && r.invalid <= r.proposals && r.duplicate <= r.proposals
    && r.unavailable <= r.attempted && r.redundant <= r.attempted
    && (r.sufficientSequence.Some? ==> 1 <= r.sufficientSequence.value <= r.attempted)
    && (r.stop.SufficientEvidence? <==> r.sufficientSequence.Some?)
    && (r.stop.SufficientEvidence? <==> r.sufficientElapsedMs.Some?)
    && (r.sufficientElapsedMs.Some? ==> r.sufficientElapsedMs.value <= r.totalElapsedMs)
    && (if r.promptTokens.None? || r.outputTokens.None? || r.totalTokens.None? then
          r.promptTokens.None? && r.outputTokens.None? && r.totalTokens.None?
        else r.totalTokens.value == r.promptTokens.value + r.outputTokens.value)
  }

  lemma {:induction false} ProposalsAdd(turns: seq<TurnRecord>)
    ensures |AllProposals(turns)| == ProposalTotal(turns)
    decreases turns
  {
    if turns != [] {
      ProposalsAdd(turns[1..]);
    }
  }

  lemma {:induction false} SequencesFit(sequences: set<nat>, n: nat)
    requires forall k <- sequences :: 1 <= k <= n
    ensures |sequences| <= n
  {
    if n == 0 {
      assert sequences == {};
    } else {
      SequencesFit(sequences - {n}, n - 1);
    }
  }

  function Seal(l: Loop, measuredMs: nat): Result
    requires l.stop.Some?
  {
    var last := if l.Trail() == [] then None else Some(l.Trail()[|l.Trail()| - 1]);
    var records := AllProposals(l.turns);
    var measured := AllMeasured(l.turns);
    var prompt := if measured then Some(Tokens(l.turns, true)) else None;
    var output := if measured then Some(Tokens(l.turns, false)) else None;
    Result(
      l.stop.value, AcquisitionTurns(l.turns), |l.turns|, |records|, |l.Trail()|,
      if last.Some? then last.value.probeCountUsed else 0,
      if last.Some? then Max(measuredMs, last.value.elapsedMs) else measuredMs,
      if l.sufficientAt.Some? then Some(l.sufficientAt.value.sequence) else None,
      if l.sufficientAt.Some? then Some(l.sufficientAt.value.elapsedMs) else None,
      CountJudged(records, {S.UnsupportedCapability}),
      CountJudged(records, {S.InvalidArguments, S.InvalidEffectReference}),
      CountJudged(records, {S.Duplicate}),
      |l.unavailable|, |l.redundant|,
      prompt, output, if measured then Some(prompt.value + output.value) else None,
      l.turns)
  }

  /** The constructor never rejects what the loop produced. */
  lemma SealIsAccepted(x: Env, l: Loop, measuredMs: nat)
    requires FinishedInv(x, l)
    ensures ResultAccepted(Seal(l, measuredMs))
  {
    ProposalsAdd(l.turns);
    SequencesFit(l.unavailable, |l.Trail()|);
    SequencesFit(l.redundant, |l.Trail()|);
  }

  /** Every adaptive run, bootstrap included: its result and turn records satisfy all conditions
      of their constructors; the dispatched requests have distinct digests and stay within each
      capability's limit; there is at most one attempt per turn plus the bootstrap; no three
      probes in a row leave the evidence unchanged; it stops for sufficient evidence exactly when
      the final classification is sufficient; and its progress fits the announced bound. */
  method ExecuteAdaptive(
    x: Env, cancelled: bool, catalogSafe: bool, first: Probe, rounds: seq<Round>, e: Explanation, measuredMs: nat)
    returns (result: Result, l: Loop)
    requires x.Valid() && |rounds| == x.policy.maxTurns
    ensures ResultAccepted(result) && result.attempted == |l.attempts|
    ensures forall i, j :: 0 <= i < j < |l.attempts| ==> l.attempts[i].hash != l.attempts[j].hash
    ensures forall c :: Tally(l.attempts, c) <= x.Limit(c)
    ensures |l.attempts| <= x.policy.maxTurns + 1
    ensures Restless(x, l.Trail())
    ensures result.stop.SufficientEvidence? <==> x.Sufficient(l.Trail())
    ensures |l.emitted| <= MAX_EMITTED && Journaled(l.emitted, true) <= MAX_JOURNALED
  {
    l := Investigate(x, cancelled, catalogSafe, first, rounds, e);
    SealIsAccepted(x, l, measuredMs);
    result := Seal(l, measuredMs);
    JournaledPieces(l.emitted);
    l := l.Emit(StrategyFinished);
  }
}
