/** One durable scenario: mutate a system once, investigate the outcome, clean up once. The
    parent record is written under its own lease by workers that may crash, be fenced off or
    take over between any two awaits. A worker's phase is the await it is about to perform. */
module Scenario {
  import opened Wrappers
  import L = LeaseFence

  // ---------- The scenario lease ----------

  const RENEWAL_MARGIN: int := 20_000_000

  predicate Accepts(row: L.LeaseRow, token: L.Token, now: int) {
    row.held == Some(token) && !token.Expired(now)
  }

  /** Every acquisition is by a new owner, so an unexpired lease is never handed out again. */
  function Acquire(row: L.LeaseRow, owner: nat, now: int): Option<L.LeaseRow> {
    if row.held.Some? && !row.held.value.Expired(now) then None
    else Some(L.LeaseRow(row.fence + 1, Some(L.Token(owner, row.fence + 1, now, now))))
  }

  function Renew(row: L.LeaseRow, token: L.Token, now: int): Option<L.LeaseRow> {
    var at := Max(now, token.renewedAt);
    if Accepts(row, token, at) then Some(L.LeaseRow(row.fence, Some(token.(renewedAt := at)))) else None
  }

  class ScenarioAuthority {
    const table: L.LeaseTable
    var token: L.Token
    var released: bool

    constructor (table: L.LeaseTable, token: L.Token)
      ensures this.table == table && this.token == token && !released
    {
      this.table := table;
      this.token := token;
      released := false;
    }

    /** Whatever is handed out has more than the margin left, keeps its fence, and is the stored
        token whenever it had to be renewed; holding fails only when released, expired, or due
        for renewal and fenced off. */
    method Hold(clock: int) returns (held: Option<L.Token>)
      modifies this`token, table`row
      ensures var now := Max(clock, old(token).renewedAt);
              && (held.Some? ==> held.value == token && RENEWAL_MARGIN < token.ExpiresAt() - now)
              && (held.None? <==>
                    || released || old(token).Expired(now)
                    || (old(token).ExpiresAt() - now <= RENEWAL_MARGIN && old(table.row).held != Some(old(token))))
      ensures token.fence == old(token.fence) && token.owner == old(token.owner)
      ensures token == old(token) || (table.row.held == Some(token) && old(table.row).held == Some(old(token)))
      ensures token == old(token) ==> table.row == old(table.row)
    {
      if released {
        return None;
      }
      var now := Max(clock, token.renewedAt);
      if token.ExpiresAt() <= now {
        return None;
      }
      if token.ExpiresAt() - now <= RENEWAL_MARGIN {
        match Renew(table.row, token, now) {
          case Some(row) =>
            table.row := row;
            token := row.held.value;
          case None =>
            return None;
        }
      }
      return Some(token);
    }
  }

  // ---------- The parent record: one fenced transaction each ----------

  datatype Mutation = NotStarted | Started | Recorded

  datatype Investigation = NotBegun | Begun | Concluded | EscalationRequired

  datatype Cleanup = NotRequested | Pending | Succeeded | Failed

  /** `prepared` is the digest of the envelope the mutation was authorised for, `envelope` the
      one its result carries, `lanes` whether any lane result is stored. */
  datatype Work = Work(
    mutation: Mutation, prepared: Option<nat>, envelope: Option<nat>, investigation: Investigation,
    lanes: bool, result: Option<nat>, cleanup: Cleanup)

  const ACCEPTED := Work(NotStarted, None, None, NotBegun, false, None, NotRequested)

  function MutationStarted(work: Work, prepared: nat): Option<Work> {
    if work.mutation.NotStarted? then Some(work.(mutation := Started, prepared := Some(prepared))) else None
  }

  function MutationRecorded(work: Work, prepared: nat, envelope: Option<nat>): Option<Work> {
    if work.mutation.Started? && work.prepared == Some(prepared) then
      Some(work.(mutation := Recorded, envelope := envelope))
    else None
  }

  function InvestigationStarted(work: Work): Option<Work> {
    if work.mutation.Recorded? && work.envelope.Some? && work.investigation.NotBegun? then
      Some(work.(investigation := Begun))
    else None
  }

  function LaneRecorded(work: Work): Option<Work> {
    if work.investigation.Begun? then Some(work.(lanes := true)) else None
  }

  function ResultRecorded(work: Work, result: nat): Option<Work> {
    if work.investigation.Begun? then Some(work.(investigation := Concluded, result := Some(result))) else None
  }

  function Escalated(work: Work): Option<Work> {
    if work.investigation.Concluded? then None else Some(work.(investigation := EscalationRequired))
  }

  function CleanupRecorded(work: Work, status: Cleanup): Option<Work> {
    if work.investigation.Concluded?
       && ((work.cleanup.NotRequested? && status.Pending?) || (work.cleanup.Pending? && status in {Succeeded, Failed}))
    then Some(work.(cleanup := status))
    else None
  }

  /** Nothing irreversible was ever authorised, as far as this snapshot of the record goes. */
  predicate Pristine(work: Work) {
    && work.mutation.NotStarted? && work.prepared.None? && work.envelope.None?
    && work.investigation.NotBegun? && work.result.None? && work.cleanup.NotRequested?
  }

  // ---------- Workers ----------

  /** `audit` marks a worker that only audits a journal that already ended. */
  datatype Phase =
    | Idle
    | Loading(audit: bool)
    | CheckingWorkspace(work: Work, audit: bool)
    | CheckingLanes(work: Work, audit: bool)
    | Repairing(work: Work, audit: bool)
    | Entering(work: Work, audit: bool)
    | StartingMutation(work: Work)
    | Mutating(prepared: nat)
    | RecordingMutation(prepared: nat, envelope: Option<nat>)
    | StartingInvestigation(work: Work)
    | Investigating(recovering: bool)
    | RecordingLane(recovering: bool)
    | RecordingResult(result: nat)
    | EnteringCleanup(work: Work)
    | RequestingCleanup
    | Cleaning
    | RecordingCleanup(status: Cleanup)
    | Escalating
    | Stopped

  datatype Worker = Worker(token: Option<L.Token>, phase: Phase)

  /** `workspace` is whether the working directory exists. The last four fields are history:
      whose authority the mutation and the cleanup intent were stored under, and how often the
      mutation and the cleanup were executed. */
  datatype System = System(
    work: Work, workspace: bool, lease: L.LeaseRow, workers: seq<Worker>,
    starter: Option<nat>, requester: Option<nat>, mutations: nat, cleanups: nat)
  {
    function At(w: nat, phase: Phase): System
      requires w < |workers|
    {
      this.(workers := workers[w := workers[w].(phase := phase)])
    }

    predicate Owns(w: nat)
      requires w < |workers|
    {
      lease.held.Some? && workers[w].token == lease.held
    }

    predicate Fenced(w: nat, now: int)
      requires w < |workers|
    {
      workers[w].token.Some? && Accepts(lease, workers[w].token.value, now)
    }
  }

  function Initial(workers: nat): System {
    System(ACCEPTED, true, L.LeaseRow(0, None), seq(workers, _ => Worker(None, Idle)), None, None, 0, 0)
  }

  datatype InvestigationOutcome = Reported(result: nat) | LaneReady | LaneEscalated | InvestigationRaised

  /** What the workspace checks, the scenario, the lanes and the cleanup answer at one step. */
  datatype Choice = Choice(
    drift: bool, repairable: bool, prepared: nat, envelope: Option<nat>,
    investigation: InvestigationOutcome, cleaned: bool)

  datatype Action =
    | Take(w: nat, now: int, audit: bool)
    | Proceed(w: nat, now: int, choice: Choice)
    | Raise(w: nat)
    | Heartbeat(w: nat, now: int, acknowledged: bool)
    | Leave(w: nat, now: int)
    | Crash(w: nat)
    | RemoveWorkspace

  // ---------- Steps ----------

  /** A fenced write of the record; a refusal of either kind raises. */
  function Write(s: System, w: nat, now: int, updated: Option<Work>, next: Phase): System
    requires w < |s.workers|
  {
    if s.Fenced(w, now) && updated.Some? then s.(work := updated.value).At(w, next) else s.At(w, Stopped)
  }

  function Load(s: System, w: nat, audit: bool): System
    requires w < |s.workers|
  {
    s.At(w, if audit && s.work.investigation.EscalationRequired? then Stopped
            else CheckingWorkspace(s.work, audit))
  }

  /** Drift of any kind ends the work unless its result is already stored. */
  function Drift(work: Work): Phase {
    if work.investigation.Concluded? then Stopped else Escalating
  }

  function CheckWorkspace(s: System, w: nat, work: Work, audit: bool, choice: Choice): System
    requires w < |s.workers|
  {
    s.At(w, if choice.drift then Drift(work)
            else if s.workspace then Entering(work, audit)
            else if choice.repairable && Pristine(work) then CheckingLanes(work, audit)
            else Drift(work))
  }

  function CheckLanes(s: System, w: nat, work: Work, audit: bool): System
    requires w < |s.workers|
  {
    s.At(w, if s.work.lanes then Drift(work) else Repairing(work, audit))
  }

  /** The workspace is validated: decide on the record this worker loaded. */
  function Enter(s: System, w: nat, work: Work, audit: bool): System
    requires w < |s.workers|
  {
    s.At(w, if audit then
              if work.investigation.Concluded? then EnteringCleanup(work) else Escalating
            else if work.investigation.EscalationRequired? then Stopped
            else if work.result.Some? then
              if work.envelope.None? then Escalating else EnteringCleanup(work)
            else match work.mutation
              case Started => Escalating
              case NotStarted => StartingMutation(work)
              case Recorded => AfterMutation(work))
  }

  function AfterMutation(work: Work): Phase {
    if work.envelope.None? then Escalating
    else if work.investigation.NotBegun? then StartingInvestigation(work)
    else Investigating(work.investigation.Begun?)
  }

  /** The mutation is authorised under the fence before it is executed. */
  function StartMutation(s: System, w: nat, now: int, prepared: nat): System
    requires w < |s.workers|
  {
    var started := MutationStarted(s.work, prepared);
    if s.Fenced(w, now) && started.Some? then
      s.(work := started.value, starter := Some(w)).At(w, Mutating(prepared))
    else s.At(w, Stopped)
  }

  function Mutate(s: System, w: nat, prepared: nat, envelope: Option<nat>): System
    requires w < |s.workers|
  {
    s.(mutations := s.mutations + 1).At(w, RecordingMutation(prepared, envelope))
  }

  function RecordMutation(s: System, w: nat, now: int, prepared: nat, envelope: Option<nat>): System
    requires w < |s.workers|
  {
    var recorded := MutationRecorded(s.work, prepared, envelope);
    if recorded.Some? then Write(s, w, now, recorded, AfterMutation(recorded.value)) else s.At(w, Stopped)
  }

  function Investigate(s: System, w: nat, recovering: bool, outcome: InvestigationOutcome): System
    requires w < |s.workers|
  {
    s.At(w, match outcome
            case Reported(result) => RecordingResult(result)
            case LaneReady => RecordingLane(recovering)
            case LaneEscalated => Escalating
            case InvestigationRaised => Stopped)
  }

  function RecordResult(s: System, w: nat, now: int, result: nat): System
    requires w < |s.workers|
  {
    var concluded := ResultRecorded(s.work, result);
    if concluded.Some? then Write(s, w, now, concluded, EnteringCleanup(concluded.value)) else s.At(w, Stopped)
  }

  /** Recovery of cleanup: an intent whose outcome is unknown is a failure, never a second try. */
  function EnterCleanup(s: System, w: nat, work: Work): System
    requires w < |s.workers|
  {
    s.At(w, if work.cleanup.Pending? then RecordingCleanup(Failed)
            else if work.cleanup in {Succeeded, Failed} || work.result.None? then Stopped
            else RequestingCleanup)
  }

  function RequestCleanup(s: System, w: nat, now: int): System
    requires w < |s.workers|
  {
    var pending := CleanupRecorded(s.work, Pending);
    if s.Fenced(w, now) && pending.Some? then
      s.(work := pending.value, requester := Some(w)).At(w, Cleaning)
    else s.At(w, Stopped)
  }

  function Clean(s: System, w: nat, cleaned: bool): System
    requires w < |s.workers|
  {
    s.(cleanups := s.cleanups + 1).At(w, RecordingCleanup(if cleaned then Succeeded else Failed))
  }

  function AfterProceed(s: System, w: nat, now: int, choice: Choice): System
    requires w < |s.workers|
  {
    match s.workers[w].phase
    case Idle => s
    case Loading(audit) => Load(s, w, audit)
    case CheckingWorkspace(work, audit) => CheckWorkspace(s, w, work, audit, choice)
    case CheckingLanes(work, audit) => CheckLanes(s, w, work, audit)
    case Repairing(work, audit) => s.(workspace := true).At(w, Entering(work, audit))
    case Entering(work, audit) => Enter(s, w, work, audit)
    case StartingMutation(_) => StartMutation(s, w, now, choice.prepared)
    case Mutating(prepared) => Mutate(s, w, prepared, choice.envelope)
    case RecordingMutation(prepared, envelope) => RecordMutation(s, w, now, prepared, envelope)
    case StartingInvestigation(_) => Write(s, w, now, InvestigationStarted(s.work), Investigating(false))
    case Investigating(recovering) => Investigate(s, w, recovering, choice.investigation)
    case RecordingLane(recovering) => Write(s, w, now, LaneRecorded(s.work), Investigating(recovering))
    case RecordingResult(result) => RecordResult(s, w, now, result)
    case EnteringCleanup(work) => EnterCleanup(s, w, work)
    case RequestingCleanup => RequestCleanup(s, w, now)
    case Cleaning => Clean(s, w, choice.cleaned)
    case RecordingCleanup(status) => Write(s, w, now, CleanupRecorded(s.work, status), Stopped)
    case Escalating => Write(s, w, now, Escalated(s.work), Stopped)
    case Stopped => s
  }

  function AfterTake(s: System, w: nat, now: int, audit: bool): System
    requires w < |s.workers|
  {
    if !s.workers[w].phase.Idle? then s
    else match Acquire(s.lease, w, now)
      case Some(row) => s.(lease := row, workers := s.workers[w := Worker(row.held, Loading(audit))])
      case None => s
  }

  function AfterHeartbeat(s: System, w: nat, now: int, acknowledged: bool): System
    requires w < |s.workers|
  {
    if s.workers[w].token.None? then s
    else match Renew(s.lease, s.workers[w].token.value, now)
      case Some(row) =>
        if acknowledged then s.(lease := row, workers := s.workers[w := s.workers[w].(token := row.held)])
        else s.(lease := row)
      case None => s
  }

  function AfterCrash(s: System, w: nat): System
    requires w < |s.workers|
  {
    s.(workers := s.workers[w := Worker(None, Idle)])
  }

  function AfterLeave(s: System, w: nat, now: int): System
    requires w < |s.workers|
  {
    if s.workers[w].token.Some?
       && Accepts(s.lease, s.workers[w].token.value, Max(now, s.workers[w].token.value.renewedAt))
    then AfterCrash(s, w).(lease := L.LeaseRow(s.lease.fence, None))
    else AfterCrash(s, w)
  }

  function Next(s: System, action: Action): System {
    if action.RemoveWorkspace? then s.(workspace := false)
    else if |s.workers| <= action.w then s
    else match action
      case Take(w, now, audit) => AfterTake(s, w, now, audit)
      case Proceed(w, now, choice) => AfterProceed(s, w, now, choice)
      case Raise(w) => if s.workers[w].phase.Idle? then s else s.At(w, Stopped)
      case Heartbeat(w, now, acknowledged) => AfterHeartbeat(s, w, now, acknowledged)
      case Leave(w, now) => AfterLeave(s, w, now)
      case Crash(w) => AfterCrash(s, w)
  }

  function Run(s: System, actions: seq<Action>): System
    decreases actions
  {
    if actions == [] then s else Run(Next(s, actions[0]), actions[1..])
  }

  // ---------- What every reachable state satisfies ----------

  /** What the record's own stages imply about each other. */
  predicate Staged(work: Work) {
    && (work.mutation.NotStarted? <==> work.prepared.None?)
    && (work.envelope.Some? ==> work.mutation.Recorded?)
    && (work.investigation.Begun? || work.investigation.Concluded? || work.lanes ==>
          work.mutation.Recorded? && work.envelope.Some?)
    && (work.result.Some? <==> work.investigation.Concluded?)
    && (!work.cleanup.NotRequested? ==> work.investigation.Concluded?)
  }

  predicate Live(work: Work) {
    work.investigation.NotBegun? || work.investigation.Begun?
  }

  /** What a worker that still owns the lease knows about the record. */
  predicate Current(s: System, phase: Phase) {
    match phase
    case CheckingWorkspace(work, _) => work == s.work
    case CheckingLanes(work, _) => work == s.work && Pristine(work)
    case Repairing(work, _) => work == s.work && Pristine(work)
    case Entering(work, _) => work == s.work
    case StartingMutation(work) => work == s.work && work.mutation.NotStarted? && Live(work)
    case Mutating(prepared) => s.work.mutation.Started? && s.work.prepared == Some(prepared) && Live(s.work)
    case RecordingMutation(prepared, _) =>
      s.work.mutation.Started? && s.work.prepared == Some(prepared) && Live(s.work)
    case StartingInvestigation(work) =>
      s.work.mutation.Recorded? && s.work.envelope.Some? && s.work.investigation.NotBegun?
    case Investigating(_) => s.work.investigation.Begun?
    case RecordingLane(_) => s.work.investigation.Begun?
    case RecordingResult(_) => s.work.investigation.Begun?
    case EnteringCleanup(work) => work == s.work && work.investigation.Concluded?
    case RequestingCleanup => s.work.investigation.Concluded? && s.work.cleanup.NotRequested?
    case Cleaning => s.work.cleanup.Pending?
    case RecordingCleanup(_) => s.work.cleanup.Pending?
    case _ => true
  }

  predicate WorkerInv(s: System, w: nat)
    requires w < |s.workers|
  {
    var worker := s.workers[w];
    && (worker.phase.Idle? <==> worker.token.None?)
    && (worker.token.Some? ==> worker.token.value.owner == w)
    && (s.Owns(w) ==> Current(s, worker.phase))
    && (worker.phase.Mutating? ==> s.starter == Some(w) && s.mutations == 0)
    && (worker.phase.RecordingMutation? ==> s.mutations == 1)
    && (worker.phase.Cleaning? ==> s.requester == Some(w) && s.cleanups == 0)
    && (worker.phase.CheckingLanes? || worker.phase.Repairing? ==> Pristine(worker.phase.work))
  }

  predicate StoreInv(s: System) {
    && s.lease.Valid() && Staged(s.work)
    && (s.work.mutation.NotStarted? <==> s.starter.None?)
    && (s.work.cleanup.NotRequested? <==> s.requester.None?)
    && s.mutations <= 1 && s.cleanups <= 1
    && (s.starter.None? ==> s.mutations == 0)
    && (s.requester.None? ==> s.cleanups == 0)
    && (s.work.mutation.Recorded? ==> s.mutations == 1)
  }

  ghost predicate Inv(s: System) {
    StoreInv(s) && forall w :: 0 <= w < |s.workers| ==> WorkerInv(s, w)
  }

  // ---------- Every step keeps the invariant ----------

  /** A worker's own step: the lease and the other workers are as before, and the record only
      changes for a worker that owns the lease. */
  lemma StepKeepsInv(s: System, t: System, w: nat)
    requires Inv(s) && w < |s.workers| && StoreInv(t)
    requires |t.workers| == |s.workers| && t.workers == s.workers[w := s.workers[w].(phase := t.workers[w].phase)]
    requires t.lease == s.lease && WorkerInv(t, w)
    requires t.work == s.work || s.Owns(w)
    requires t.starter == s.starter || s.starter.None?
    requires t.requester == s.requester || s.requester.None?
    requires s.mutations <= t.mutations && s.cleanups <= t.cleanups
    requires t.mutations == s.mutations || s.workers[w].phase.Mutating?
    requires t.cleanups == s.cleanups || s.workers[w].phase.Cleaning?
    ensures Inv(t)
  {
    forall v | 0 <= v < |t.workers|
      ensures WorkerInv(t, v)
    {
      if v != w {
        assert WorkerInv(s, v) && WorkerInv(s, w);
      }
    }
  }

  lemma LoadKeepsInv(s: System, w: nat, audit: bool)
    requires Inv(s) && w < |s.workers| && s.workers[w].phase == Loading(audit)
    ensures Inv(Load(s, w, audit))
  {
    assert WorkerInv(s, w);
    StepKeepsInv(s, Load(s, w, audit), w);
  }

  lemma CheckWorkspaceKeepsInv(s: System, w: nat, work: Work, audit: bool, choice: Choice)
    requires Inv(s) && w < |s.workers| && s.workers[w].phase == CheckingWorkspace(work, audit)
    ensures Inv(CheckWorkspace(s, w, work, audit, choice))
  {
    assert WorkerInv(s, w);
    StepKeepsInv(s, CheckWorkspace(s, w, work, audit, choice), w);
  }

  lemma CheckLanesKeepsInv(s: System, w: nat, work: Work, audit: bool)
    requires Inv(s) && w < |s.workers| && s.workers[w].phase == CheckingLanes(work, audit)
    ensures Inv(CheckLanes(s, w, work, audit))
  {
    assert WorkerInv(s, w);
    StepKeepsInv(s, CheckLanes(s, w, work, audit), w);
  }

  lemma RepairKeepsInv(s: System, w: nat, work: Work, audit: bool)
    requires Inv(s) && w < |s.workers| && s.workers[w].phase == Repairing(work, audit)
    ensures Inv(s.(workspace := true).At(w, Entering(work, audit)))
  {
    assert WorkerInv(s, w);
    StepKeepsInv(s, s.(workspace := true).At(w, Entering(work, audit)), w);
  }

  lemma EnterKeepsInv(s: System, w: nat, work: Work, audit: bool)
    requires Inv(s) && w < |s.workers| && s.workers[w].phase == Entering(work, audit)
    ensures Inv(Enter(s, w, work, audit))
  {
    assert WorkerInv(s, w);
    StepKeepsInv(s, Enter(s, w, work, audit), w);
  }

  lemma StartMutationKeepsInv(s: System, w: nat, work: Work, now: int, prepared: nat)
    requires Inv(s) && w < |s.workers| && s.workers[w].phase == StartingMutation(work)
    ensures Inv(StartMutation(s, w, now, prepared))
  {
    assert WorkerInv(s, w);
    StepKeepsInv(s, StartMutation(s, w, now, prepared), w);
  }

  lemma MutateKeepsInv(s: System, w: nat, prepared: nat, envelope: Option<nat>)
    requires Inv(s) && w < |s.workers| && s.workers[w].phase == Mutating(prepared)
    ensures Inv(Mutate(s, w, prepared, envelope))
  {
    assert WorkerInv(s, w);
    StepKeepsInv(s, Mutate(s, w, prepared, envelope), w);
  }

  lemma RecordMutationKeepsInv(s: System, w: nat, prepared: nat, envelope: Option<nat>, now: int)
    requires Inv(s) && w < |s.workers| && s.workers[w].phase == RecordingMutation(prepared, envelope)
    ensures Inv(RecordMutation(s, w, now, prepared, envelope))
  {
    assert WorkerInv(s, w);
    StepKeepsInv(s, RecordMutation(s, w, now, prepared, envelope), w);
  }

  lemma StartInvestigationKeepsInv(s: System, w: nat, work: Work, now: int)
    requires Inv(s) && w < |s.workers| && s.workers[w].phase == StartingInvestigation(work)
    ensures Inv(Write(s, w, now, InvestigationStarted(s.work), Investigating(false)))
  {
    assert WorkerInv(s, w);
    StepKeepsInv(s, Write(s, w, now, InvestigationStarted(s.work), Investigating(false)), w);
  }

  lemma InvestigateKeepsInv(s: System, w: nat, recovering: bool, outcome: InvestigationOutcome)
    requires Inv(s) && w < |s.workers| && s.workers[w].phase == Investigating(recovering)
    ensures Inv(Investigate(s, w, recovering, outcome))
  {
    assert WorkerInv(s, w);
    StepKeepsInv(s, Investigate(s, w, recovering, outcome), w);
  }

  lemma RecordLaneKeepsInv(s: System, w: nat, recovering: bool, now: int)
    requires Inv(s) && w < |s.workers| && s.workers[w].phase == RecordingLane(recovering)
    ensures Inv(Write(s, w, now, LaneRecorded(s.work), Investigating(recovering)))
  {
    assert WorkerInv(s, w);
    StepKeepsInv(s, Write(s, w, now, LaneRecorded(s.work), Investigating(recovering)), w);
  }

  lemma RecordResultKeepsInv(s: System, w: nat, result: nat, now: int)
    requires Inv(s) && w < |s.workers| && s.workers[w].phase == RecordingResult(result)
    ensures Inv(RecordResult(s, w, now, result))
  {
    assert WorkerInv(s, w);
    StepKeepsInv(s, RecordResult(s, w, now, result), w);
  }

  lemma EnterCleanupKeepsInv(s: System, w: nat, work: Work)
    requires Inv(s) && w < |s.workers| && s.workers[w].phase == EnteringCleanup(work)
    ensures Inv(EnterCleanup(s, w, work))
  {
    assert WorkerInv(s, w);
    StepKeepsInv(s, EnterCleanup(s, w, work), w);
  }

  lemma RequestCleanupKeepsInv(s: System, w: nat, now: int)
    requires Inv(s) && w < |s.workers| && s.workers[w].phase == RequestingCleanup
    ensures Inv(RequestCleanup(s, w, now))
  {
    assert WorkerInv(s, w);
    StepKeepsInv(s, RequestCleanup(s, w, now), w);
  }

  lemma CleanKeepsInv(s: System, w: nat, cleaned: bool)
    requires Inv(s) && w < |s.workers| && s.workers[w].phase == Cleaning
    ensures Inv(Clean(s, w, cleaned))
  {
    assert WorkerInv(s, w);
    StepKeepsInv(s, Clean(s, w, cleaned), w);
  }

  lemma RecordCleanupKeepsInv(s: System, w: nat, status: Cleanup, now: int)
    requires Inv(s) && w < |s.workers| && s.workers[w].phase == RecordingCleanup(status)
    ensures Inv(Write(s, w, now, CleanupRecorded(s.work, status), Stopped))
  {
    assert WorkerInv(s, w);
    StepKeepsInv(s, Write(s, w, now, CleanupRecorded(s.work, status), Stopped), w);
  }

  lemma EscalateKeepsInv(s: System, w: nat, now: int)
    requires Inv(s) && w < |s.workers| && s.workers[w].phase == Escalating
    ensures Inv(Write(s, w, now, Escalated(s.work), Stopped))
  {
    assert WorkerInv(s, w);
    StepKeepsInv(s, Write(s, w, now, Escalated(s.work), Stopped), w);
  }

  lemma ProceedKeepsInv(s: System, w: nat, now: int, choice: Choice)
    requires Inv(s) && w < |s.workers|
    ensures Inv(AfterProceed(s, w, now, choice))
  {
    match s.workers[w].phase
    case Idle =>
    case Loading(audit) => LoadKeepsInv(s, w, audit);
    case CheckingWorkspace(work, audit) => CheckWorkspaceKeepsInv(s, w, work, audit, choice);
    case CheckingLanes(work, audit) => CheckLanesKeepsInv(s, w, work, audit);
    case Repairing(work, audit) => RepairKeepsInv(s, w, work, audit);
    case Entering(work, audit) => EnterKeepsInv(s, w, work, audit);
    case StartingMutation(work) => StartMutationKeepsInv(s, w, work, now, choice.prepared);
    case Mutating(prepared) => MutateKeepsInv(s, w, prepared, choice.envelope);
    case RecordingMutation(prepared, envelope) => RecordMutationKeepsInv(s, w, prepared, envelope, now);
    case StartingInvestigation(work) => StartInvestigationKeepsInv(s, w, work, now);
    case Investigating(recovering) => InvestigateKeepsInv(s, w, recovering, choice.investigation);
    case RecordingLane(recovering) => RecordLaneKeepsInv(s, w, recovering, now);
    case RecordingResult(result) => RecordResultKeepsInv(s, w, result, now);
    case EnteringCleanup(work) => EnterCleanupKeepsInv(s, w, work);
    case RequestingCleanup => RequestCleanupKeepsInv(s, w, now);
    case Cleaning => CleanKeepsInv(s, w, choice.cleaned);
    case RecordingCleanup(status) => RecordCleanupKeepsInv(s, w, status, now);
    case Escalating => EscalateKeepsInv(s, w, now);
    case Stopped =>
  }

  lemma TakeKeepsInv(s: System, w: nat, now: int, audit: bool)
    requires Inv(s) && w < |s.workers|
    ensures Inv(AfterTake(s, w, now, audit))
  {
    var t := AfterTake(s, w, now, audit);
    assert WorkerInv(s, w);
    forall v | 0 <= v < |t.workers|
      ensures WorkerInv(t, v)
    {
      assert WorkerInv(s, v);
    }
  }

  lemma HeartbeatKeepsInv(s: System, w: nat, now: int, acknowledged: bool)
    requires Inv(s) && w < |s.workers|
    ensures Inv(AfterHeartbeat(s, w, now, acknowledged))
  {
    var t := AfterHeartbeat(s, w, now, acknowledged);
    assert WorkerInv(s, w);
    forall v | 0 <= v < |t.workers|
      ensures WorkerInv(t, v)
    {
      assert WorkerInv(s, v);
    }
  }

  lemma CrashKeepsInv(s: System, w: nat)
    requires Inv(s) && w < |s.workers|
    ensures Inv(AfterCrash(s, w))
  {
    assert WorkerInv(s, w);
    forall v | 0 <= v < |s.workers|
      ensures WorkerInv(AfterCrash(s, w), v)
    {
      assert WorkerInv(s, v);
    }
  }

  /** With the lease free nobody owns anything. */
  lemma FreeKeepsInv(s: System)
    requires Inv(s)
    ensures Inv(s.(lease := L.LeaseRow(s.lease.fence, None)))
  {
    var t := s.(lease := L.LeaseRow(s.lease.fence, None));
    forall v | 0 <= v < |t.workers|
      ensures WorkerInv(t, v)
    {
      assert WorkerInv(s, v);
    }
  }

  lemma LeaveKeepsInv(s: System, w: nat, now: int)
    requires Inv(s) && w < |s.workers|
    ensures Inv(AfterLeave(s, w, now)) && Inv(AfterCrash(s, w))
  {
    hide Inv;
    CrashKeepsInv(s, w);
    FreeKeepsInv(AfterCrash(s, w));
  }

  lemma NextKeepsInv(s: System, action: Action)
    requires Inv(s)
    ensures Inv(Next(s, action))
  {
    if action.RemoveWorkspace? {
      assert forall w :: 0 <= w < |s.workers| ==> WorkerInv(s, w) ==> WorkerInv(s.(workspace := false), w);
    } else if action.w < |s.workers| {
      assert WorkerInv(s, action.w);
      match action
      case Take(w, now, audit) => TakeKeepsInv(s, w, now, audit);
      case Proceed(w, now, choice) => ProceedKeepsInv(s, w, now, choice);
      case Raise(w) => if !s.workers[w].phase.Idle? { StepKeepsInv(s, s.At(w, Stopped), w); }
      case Heartbeat(w, now, acknowledged) => HeartbeatKeepsInv(s, w, now, acknowledged);
      case Leave(w, now) => LeaveKeepsInv(s, w, now);
      case Crash(w) => LeaveKeepsInv(s, w, 0);
    }
  }

  lemma {:induction false} ReachableInv(s: System, actions: seq<Action>)
    requires Inv(s)
    ensures Inv(Run(s, actions))
    decreases actions
  {
    if actions != [] {
      NextKeepsInv(s, actions[0]);
      ReachableInv(Next(s, actions[0]), actions[1..]);
    }
  }

  // ---------- Every interleaving of workers, crashes and takeovers ----------

  lemma ReachedInv(workers: nat, actions: seq<Action>)
    ensures Inv(Run(Initial(workers), actions))
  {
    ReachableInv(Initial(workers), actions);
  }

  /** Mutation and cleanup are each executed at most once, never before they were authorised,
      and every stored stage presupposes the ones before it. */
  lemma EffectsRunAtMostOnce(workers: nat, actions: seq<Action>)
    ensures var s := Run(Initial(workers), actions);
            && s.mutations <= 1 && s.cleanups <= 1
            && (s.mutations == 1 ==> !s.work.mutation.NotStarted?)
            && (s.work.mutation.Recorded? ==> s.mutations == 1)
            && (s.cleanups == 1 ==> !s.work.cleanup.NotRequested?)
            && Staged(s.work)
  {
    ReachedInv(workers, actions);
  }

  function MutationRank(m: Mutation): nat {
    match m case NotStarted => 0 case Started => 1 case Recorded => 2
  }

  function InvestigationRank(i: Investigation): nat {
    match i case NotBegun => 0 case Begun => 1 case Concluded => 2 case EscalationRequired => 2
  }

  function CleanupRank(c: Cleanup): nat {
    match c case NotRequested => 0 case Pending => 1 case Succeeded => 2 case Failed => 2
  }

  /** From `a` to `b` no stage goes back, what is recorded stays, and an escalated record is final. */
  predicate Advances(a: Work, b: Work) {
    && MutationRank(a.mutation) <= MutationRank(b.mutation)
    && InvestigationRank(a.investigation) <= InvestigationRank(b.investigation)
    && CleanupRank(a.cleanup) <= CleanupRank(b.cleanup)
    && (a.prepared.Some? ==> b.prepared == a.prepared)
    && (a.mutation.Recorded? ==> b.envelope == a.envelope)
    && (a.investigation.Concluded? ==> b.investigation.Concluded? && b.result == a.result)
    && (CleanupRank(a.cleanup) == 2 ==> b.cleanup == a.cleanup)
    && (a.investigation.EscalationRequired? ==> b == a)
  }

  /** Every update of the record that its guards let through advances it. */
  lemma UpdatesAdvance(work: Work, prepared: nat, envelope: Option<nat>, result: nat, status: Cleanup)
    requires Staged(work)
    ensures Advances(work, work)
    ensures Live(work) && MutationStarted(work, prepared).Some? ==>
              Advances(work, MutationStarted(work, prepared).value)
    ensures Live(work) && MutationRecorded(work, prepared, envelope).Some? ==>
              Advances(work, MutationRecorded(work, prepared, envelope).value)
    ensures InvestigationStarted(work).Some? ==> Advances(work, InvestigationStarted(work).value)
    ensures LaneRecorded(work).Some? ==> Advances(work, LaneRecorded(work).value)
    ensures ResultRecorded(work, result).Some? ==> Advances(work, ResultRecorded(work, result).value)
    ensures CleanupRecorded(work, status).Some? ==> Advances(work, CleanupRecorded(work, status).value)
    ensures Escalated(work).Some? ==> Advances(work, Escalated(work).value)
  {
  }

  lemma ProceedAdvances(s: System, w: nat, now: int, choice: Choice)
    requires StoreInv(s) && w < |s.workers| && WorkerInv(s, w)
    ensures Advances(s.work, AfterProceed(s, w, now, choice).work)
  {
    var phase := s.workers[w].phase;
    UpdatesAdvance(
      s.work, if phase.RecordingMutation? then phase.prepared else choice.prepared,
      if phase.RecordingMutation? then phase.envelope else None, if phase.RecordingResult? then phase.result else 0,
      if phase.RecordingCleanup? then phase.status else Pending);
    hide Advances, MutationStarted, MutationRecorded, InvestigationStarted, LaneRecorded, ResultRecorded,
      CleanupRecorded, Escalated;
  }

  lemma StepAdvances(s: System, action: Action)
    requires Inv(s)
    ensures Advances(s.work, Next(s, action).work)
  {
    if !action.RemoveWorkspace? && action.w < |s.workers| {
      assert WorkerInv(s, action.w);
      if action.Proceed? {
        ProceedAdvances(s, action.w, action.now, action.choice);
      } else {
        assert Next(s, action).work == s.work;
      }
    }
    hide AfterProceed, Inv, WorkerInv;
  }

  /** The stages only advance, over any further run. */
  lemma {:induction false} StagesOnlyAdvance(s: System, actions: seq<Action>)
    requires Inv(s)
    ensures Advances(s.work, Run(s, actions).work)
    decreases actions
  {
    if actions != [] {
      NextKeepsInv(s, actions[0]);
      StepAdvances(s, actions[0]);
      StagesOnlyAdvance(Next(s, actions[0]), actions[1..]);
    }
  }

  /** The worker that authorised the mutation is gone, and its outcome was never stored. */
  ghost predicate MutationAbandoned(s: System) {
    && s.work.mutation.Started?
    && forall w :: 0 <= w < |s.workers| ==> !s.workers[w].phase.Mutating? && !s.workers[w].phase.RecordingMutation?
  }

  lemma AbandonedMutationProceeds(s: System, w: nat, now: int, choice: Choice)
    requires StoreInv(s) && w < |s.workers| && WorkerInv(s, w) && MutationAbandoned(s)
    ensures var t := AfterProceed(s, w, now, choice);
            && |t.workers| == |s.workers| && t.workers == s.workers[w := t.workers[w]]
            && !t.workers[w].phase.Mutating? && !t.workers[w].phase.RecordingMutation?
            && t.work.mutation.Started? && t.work.result.None? && t.mutations == s.mutations
  {
    assert !s.workers[w].phase.Mutating? && !s.workers[w].phase.RecordingMutation?;
    hide MutationAbandoned, Staged, Pristine;
  }

  lemma AbandonedMutationStep(s: System, action: Action)
    requires Inv(s) && MutationAbandoned(s)
    ensures var t := Next(s, action); MutationAbandoned(t) && t.mutations == s.mutations && t.work.result.None?
  {
    if !action.RemoveWorkspace? && action.w < |s.workers| {
      assert WorkerInv(s, action.w);
      var t := Next(s, action);
      if action.Proceed? {
        AbandonedMutationProceeds(s, action.w, action.now, action.choice);
      }
      hide Inv, WorkerInv, AfterProceed;
      forall w | 0 <= w < |t.workers|
        ensures !t.workers[w].phase.Mutating? && !t.workers[w].phase.RecordingMutation?
      {
        assert w != action.w ==> t.workers[w] == s.workers[w];
      }
    }
  }

  /** A mutation found STARTED after its worker is gone is never executed again and never
      investigated, over any further run. */
  lemma {:induction false} AbandonedMutationIsNeverRepeated(s: System, actions: seq<Action>)
    requires Inv(s) && MutationAbandoned(s)
    ensures var t := Run(s, actions);
            MutationAbandoned(t) && t.mutations == s.mutations && t.work.result.None?
    decreases actions
  {
    if actions != [] {
      NextKeepsInv(s, actions[0]);
      AbandonedMutationStep(s, actions[0]);
      AbandonedMutationIsNeverRepeated(Next(s, actions[0]), actions[1..]);
    }
  }

  /** An owner that loads such a record escalates it, on the workflow and on the audit path. */
  lemma StartedMutationIsEscalated(s: System, w: nat, audit: bool, now: int, choice: Choice)
    requires Inv(s) && w < |s.workers| && s.Fenced(w, now)
    requires s.work.mutation.Started? && Live(s.work) && s.workers[w].phase == Entering(s.work, audit)
    ensures var t := AfterProceed(AfterProceed(s, w, now, choice), w, now, choice);
            t.work == s.work.(investigation := EscalationRequired) && t.mutations == s.mutations
  {
  }

  /** The intent to clean up is stored, and the worker that stored it did not get to execute it. */
  ghost predicate CleanupAbandoned(s: System) {
    && !s.work.cleanup.NotRequested?
    && forall w :: 0 <= w < |s.workers| ==> !s.workers[w].phase.Cleaning?
  }

  lemma AbandonedCleanupStep(s: System, action: Action)
    requires Inv(s) && CleanupAbandoned(s)
    ensures var t := Next(s, action); CleanupAbandoned(t) && t.cleanups == s.cleanups
  {
    if !action.RemoveWorkspace? && action.w < |s.workers| {
      assert WorkerInv(s, action.w);
      var t := Next(s, action);
      StepAdvances(s, action);
      forall w | 0 <= w < |t.workers|
        ensures !t.workers[w].phase.Cleaning?
      {
        assert w != action.w ==> t.workers[w] == s.workers[w];
      }
    }
  }

  /** Once nobody is about to execute it, a requested cleanup is never executed again. */
  lemma {:induction false} AbandonedCleanupIsNeverRetried(s: System, actions: seq<Action>)
    requires Inv(s) && CleanupAbandoned(s)
    ensures var t := Run(s, actions); CleanupAbandoned(t) && t.cleanups == s.cleanups
    decreases actions
  {
    if actions != [] {
      NextKeepsInv(s, actions[0]);
      AbandonedCleanupStep(s, actions[0]);
      AbandonedCleanupIsNeverRetried(Next(s, actions[0]), actions[1..]);
    }
  }

  /** A pending cleanup that an owner finds, on the workflow or the audit path, is recorded as
      failed without being executed. */
  lemma PendingCleanupIsRecordedFailed(s: System, w: nat, audit: bool, now: int, choice: Choice)
    requires Inv(s) && w < |s.workers| && s.Fenced(w, now)
    requires s.work.cleanup.Pending? && s.workers[w].phase == Entering(s.work, audit)
    ensures var t := AfterProceed(AfterProceed(AfterProceed(s, w, now, choice), w, now, choice), w, now, choice);
            t.work == s.work.(cleanup := Failed) && t.cleanups == s.cleanups
  {
  }

  // ---------- Workspace repair ----------

  /** An owner only recreates the workspace when no mutation was ever authorised. */
  lemma OwnerRepairsOnlyPristineWork(workers: nat, actions: seq<Action>, w: nat)
    requires w < |Run(Initial(workers), actions).workers|
    requires var s := Run(Initial(workers), actions); s.Owns(w) && s.workers[w].phase.Repairing?
    ensures var s := Run(Initial(workers), actions); Pristine(s.work) && s.starter.None? && s.mutations == 0
  {
    ReachedInv(workers, actions);
    assert WorkerInv(Run(Initial(workers), actions), w);
  }

  /** A worker that is about to recreate the workspace, owner or not, does so before any mutation was
      ever authorised if and only if the record still shows the mutation it loaded. */
  lemma RepairIsPristineIffUnchanged(workers: nat, actions: seq<Action>, w: nat)
    requires w < |Run(Initial(workers), actions).workers|
    requires Run(Initial(workers), actions).workers[w].phase.Repairing?
    ensures var s := Run(Initial(workers), actions);
            && (s.starter.None? <==> s.work.mutation == s.workers[w].phase.work.mutation)
            && (s.starter.None? ==> s.mutations == 0)
  {
    ReachedInv(workers, actions);
    assert WorkerInv(Run(Initial(workers), actions), w);
  }

  const REPAIRABLE: Choice := Choice(false, true, 9, None, InvestigationRaised, false)

  function Proceeds(w: nat, n: nat): seq<Action> {
    if n == 0 then [] else [Proceed(w, 30_000_000, REPAIRABLE)] + Proceeds(w, n - 1)
  }

  /** Worker 0 checks a missing workspace and stalls before recreating it; worker 1 takes over,
      recreates it and authorises the mutation. */
  function Overtaken(): System {
    var missing := Next(Initial(2), RemoveWorkspace);
    var stalled := Run(Next(missing, Take(0, 0, false)), Proceeds(0, 3));
    Run(Next(stalled, Take(1, 30_000_000, false)), Proceeds(1, 6))
  }

  const FIRST: L.Token := L.Token(0, 1, 0, 0)
  const SECOND: L.Token := L.Token(1, 2, 30_000_000, 30_000_000)

  function OneIn(phase: Phase): System {
    System(ACCEPTED, false, L.LeaseRow(1, Some(FIRST)), [Worker(Some(FIRST), phase), Worker(None, Idle)],
           None, None, 0, 0)
  }

  function TwoIn(work: Work, workspace: bool, phase: Phase, starter: Option<nat>): System {
    System(work, workspace, L.LeaseRow(2, Some(SECOND)),
           [Worker(Some(FIRST), Repairing(ACCEPTED, false)), Worker(Some(SECOND), phase)], starter, None, 0, 0)
  }

  lemma FirstStalls()
    ensures Run(OneIn(Loading(false)), Proceeds(0, 3)) == OneIn(Repairing(ACCEPTED, false))
  {
  }

  lemma SecondMutates()
    ensures Run(TwoIn(ACCEPTED, false, Loading(false), None), Proceeds(1, 6))
            == TwoIn(ACCEPTED.(mutation := Started, prepared := Some(9)), true, Mutating(9), Some(1))
  {
  }

  /** A fenced-off worker still recreates a workspace that is gone again: the directory is not
      written under the fence, so only an owner's repair implies that nothing was authorised. */
  lemma StaleRepairFollowsMutation()
    ensures var s := Next(Overtaken(), RemoveWorkspace);
            && |s.workers| == 2 && !s.Owns(0) && !s.workspace && s.work.mutation.Started?
            && AfterProceed(s, 0, 30_000_000, REPAIRABLE).workspace
  {
    hide Run, Proceeds, Pristine;
    assert Initial(2).workers == [Worker(None, Idle), Worker(None, Idle)];
    assert AfterTake(Next(Initial(2), RemoveWorkspace), 0, 0, false) == OneIn(Loading(false));
    FirstStalls();
    assert AfterTake(OneIn(Repairing(ACCEPTED, false)), 1, 30_000_000, false)
        == TwoIn(ACCEPTED, false, Loading(false), None);
    SecondMutates();
  }
}
