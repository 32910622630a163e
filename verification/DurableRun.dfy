/** One durable investigation: a stored run record and journal, written under a lease by any
    number of workers that may crash, lose the lease, or resume each other's work between any
    two awaits. A worker's phase is the await it is about to perform. */
module DurableRun {
  import opened Wrappers
  import L = LeaseFence
  import J = Journal

  datatype Strategy = Fixed | Adaptive | Compare

  datatype RunState = Created | Active | Terminal | EscalationRequired

  datatype CleanupStatus = NotRequested | Pending | Succeeded | Failed

  datatype Run = Run(
    state: RunState, createdAt: int, updatedAt: int, report: Option<J.Report>, cleanup: CleanupStatus)

  // ---------- The stored record: one fenced transaction each ----------

  function MarkActive(run: Run, at: int): Option<Run> {
    match run.state
    case Active => Some(run)
    case Created => Some(run.(state := Active, updatedAt := Max(run.updatedAt, at)))
    case _ => None
  }

  function RequireEscalation(run: Run, at: int): Option<Run> {
    match run.state
    case EscalationRequired => Some(run)
    case Terminal => None
    case _ => Some(run.(state := EscalationRequired, updatedAt := Max(run.updatedAt, at)))
  }

  function EstablishReport(run: Run, report: J.Report, at: int): Option<Run> {
    if run.report.Some? then
      if run.report.value == report then Some(run) else None
    else if run.state != Active then None
    else
      Some(run.(state := Terminal, report := Some(report),
                updatedAt := Max(Max(run.updatedAt, at), report.updatedAt)))
  }

  function RecordCleanup(run: Run, status: CleanupStatus, at: int): Option<Run> {
    if run.cleanup in {Succeeded, Failed} then
      if run.cleanup == status then Some(run) else None
    else if run.cleanup == Pending && status == Pending then Some(run)
    else Some(run.(cleanup := status, updatedAt := Max(run.updatedAt, at)))
  }

  // ---------- Workers ----------

  datatype Phase =
    | Idle
    | Acquiring(recovering: bool)
    | Loading(recovering: bool)
    | ReadingPrefix(run: Run, recovering: bool)
    | AppendingCreated(run: Run, recovering: bool)
    | CheckingPrefix(run: Run, recovering: bool)
    | Activating(run: Run, recovering: bool, cursor: nat)
    | AppendingInvestigating(run: Run, recovering: bool)
    | Deciding(run: Run, recovering: bool)
    | Executing(run: Run)
    | Establishing(run: Run, report: J.Report)
    | Projecting(run: Run, resumed: bool)
    | Appending(run: Run, resumed: bool, next: nat, cursor: nat)
    | Rereading(run: Run, resumed: bool, next: nat)
    | RequestingCleanup(run: Run, floor: int)
    | RecoveringCleanup(run: Run)
    | AuthorisingCleanup(run: Run)
    | DispatchingCleanup(run: Run)
    | RecordingCleanup(run: Run, status: CleanupStatus, floor: int)
    | Drifted
    | Failing
    | Escalating
    | Finished

  datatype Worker = Worker(token: Option<L.Token>, phase: Phase)

  /** The last five fields are history: when the run was activated, which worker's call created
      it, which worker stored the intent to clean up, and how often the executor and the
      external cleanup were called. */
  datatype System = System(
    strategy: Strategy, hasCleanup: bool,
    run: Option<Run>, journal: seq<J.Event>, lease: L.LeaseRow, workers: seq<Worker>,
    activeAt: Option<int>, creator: Option<nat>, requester: Option<nat>, executions: nat, dispatches: nat)
  {
    function At(w: nat, phase: Phase): System
      requires w < |workers|
    {
      this.(workers := workers[w := workers[w].(phase := phase)])
    }

    /** Whether worker `w` still owns the lease, whatever the clocks say. */
    predicate Owns(w: nat)
      requires w < |workers|
    {
      lease.held.Some? && workers[w].token == lease.held
    }

    predicate Fenced(w: nat, now: int)
      requires w < |workers|
    {
      workers[w].token.Some? && lease.Accepts(workers[w].token.value, now)
    }
  }

  function Initial(strategy: Strategy, hasCleanup: bool, workers: nat): System {
    System(strategy, hasCleanup, None, [], L.LeaseRow(0, None),
           seq(workers, _ => Worker(None, Idle)), None, None, None, 0, 0)
  }

  /** What the outside world decides at one step. */
  datatype ExecutorOutcome = Reported(report: J.Report) | Raised | RecordingLost

  datatype Choice = Choice(escalate: bool, executor: ExecutorOutcome, cleaned: bool)

  datatype Action =
    | Create(w: nat, createdAt: int, started: bool)
    | Start(w: nat)
    | Acquire(w: nat, now: int)
    | Proceed(w: nat, now: int, choice: Choice)
    | Raise(w: nat)
    | Heartbeat(w: nat, now: int, acknowledged: bool)
    | Leave(w: nat, now: int)
    | Crash(w: nat)

  // ---------- Steps ----------

  /** `_append_lifecycle_prefix` after it has read the journal. */
  function AfterPrefixRead(run: Run, recovering: bool, journal: seq<J.Event>): Phase {
    if !J.ValidLifecyclePrefix(journal)
       || (run.state == Created && |journal| != 1)
       || (run.state == Active && |journal| !in {1, 2})
       || journal[0].occurredAt != run.createdAt
    then Drifted
    else if run.state == Created then Activating(run, recovering, |journal|)
    else if |journal| == 1 then AppendingInvestigating(run, recovering)
    else Deciding(run, recovering)
  }

  /** Where projection goes once `next` report events are in the journal. */
  function AfterProjected(s: System, run: Run, resumed: bool): Phase
    requires run.report.Some?
  {
    if resumed then RecoveringCleanup(run)
    else if s.hasCleanup then RequestingCleanup(run, run.report.value.updatedAt)
    else Finished
  }

  function ProjectNext(s: System, run: Run, resumed: bool, next: nat, cursor: nat): Phase
    requires run.report.Some?
  {
    if next < |run.report.value.Payloads()| then Appending(run, resumed, next, cursor)
    else AfterProjected(s, run, resumed)
  }

  /** A fenced update of the run record; a refusal of either kind raises. */
  function WriteRun(s: System, w: nat, now: int, updated: Option<Run>, next: Phase): System
    requires w < |s.workers|
  {
    if s.Fenced(w, now) && updated.Some? then s.(run := updated).At(w, next) else s.At(w, Failing)
  }

  function WriteEvent(s: System, w: nat, now: int, event: J.Event, next: Phase): System
    requires w < |s.workers|
  {
    if !s.Fenced(w, now) then s.At(w, Failing)
    else match J.DurableAppend(s.journal, event)
      case Success(after) => s.(journal := after).At(w, next)
      case Failure(_) => s.At(w, Failing)
  }

  // One function per await of `_run`; each returns the system after that await.

  function Load(s: System, w: nat, recovering: bool): System
    requires w < |s.workers| && s.run.Some?
  {
    s.At(w, match s.run.value.state
            case Terminal => Projecting(s.run.value, true)
            case EscalationRequired => Finished
            case _ => ReadingPrefix(s.run.value, recovering))
  }

  function ReadPrefix(s: System, w: nat, run: Run, recovering: bool): System
    requires w < |s.workers|
  {
    s.At(w, if s.journal == [] then AppendingCreated(run, recovering)
            else AfterPrefixRead(run, recovering, s.journal))
  }

  function Activate(s: System, w: nat, now: int, run: Run, recovering: bool, cursor: nat): System
    requires w < |s.workers| && s.run.Some?
  {
    var at := Max(now, run.updatedAt);
    var active := MarkActive(s.run.value, at);
    if s.Fenced(w, at) && active.Some? then
      var activeAt := if s.run.value.state == Created then Some(active.value.updatedAt) else s.activeAt;
      s.(run := active, activeAt := activeAt)
       .At(w, if cursor == 1 then AppendingInvestigating(active.value, recovering)
              else Deciding(active.value, recovering))
    else s.At(w, Failing)
  }

  /** A planner-driven run is never re-entered: recovery escalates instead of executing. */
  function Decide(s: System, w: nat, run: Run, recovering: bool, escalate: bool): System
    requires w < |s.workers|
  {
    if escalate || (recovering && s.strategy != Fixed) then s.At(w, Escalating)
    else s.(executions := s.executions + 1).At(w, Executing(run))
  }

  function FinishExecution(s: System, w: nat, run: Run, outcome: ExecutorOutcome): System
    requires w < |s.workers|
  {
    s.At(w, match outcome
            case Reported(report) =>
              if report.WellFormed() && run.updatedAt <= report.updatedAt then Establishing(run, report)
              else Failing
            case Raised => Failing
            case RecordingLost => Finished)
  }

  function Establish(s: System, w: nat, now: int, report: J.Report): System
    requires w < |s.workers| && s.run.Some?
  {
    var at := Max(now, report.updatedAt);
    var terminal := EstablishReport(s.run.value, report, at);
    if terminal.Some? then WriteRun(s, w, at, terminal, Projecting(terminal.value, false))
    else s.At(w, Failing)
  }

  /** The start of terminal projection: compare the whole journal with the report. */
  function CompareJournal(s: System, w: nat, run: Run, resumed: bool): System
    requires w < |s.workers|
  {
    s.At(w, if run.report.None? || !J.Agrees(s.journal, run.report.value) then Drifted
            else ProjectNext(s, run, resumed, J.Accepted(s.journal), |s.journal|))
  }

  /** One step of terminal projection: append report event `next` after `cursor` events. */
  function AppendReportEvent(
    s: System, w: nat, now: int, run: Run, resumed: bool, next: nat, cursor: nat): System
    requires w < |s.workers|
  {
    if run.report.None? || |run.report.value.Payloads()| <= next then s.At(w, Failing)
    else
      var report := run.report.value;
      WriteEvent(s, w, Max(now, report.updatedAt),
                 J.Event(cursor + 1, report.updatedAt, report.Payloads()[next]),
                 Rereading(run, resumed, next + 1))
  }

  function Reread(s: System, w: nat, run: Run, resumed: bool, next: nat): System
    requires w < |s.workers|
  {
    s.At(w, if run.report.None? then Failing else ProjectNext(s, run, resumed, next, |s.journal|))
  }

  /** Persist the intent to clean up, under the fence, before anything is dispatched. */
  function RequestCleanup(s: System, w: nat, now: int, floor: int): System
    requires w < |s.workers| && s.run.Some?
  {
    var at := Max(now, floor);
    var pending := RecordCleanup(s.run.value, Pending, at);
    if s.Fenced(w, at) && pending.Some? then
      s.(run := pending, requester := Some(w)).At(w, AuthorisingCleanup(pending.value))
    else s.At(w, Failing)
  }

  /** Recovery of cleanup, decided on the record this worker loaded. */
  function RecoverCleanup(s: System, w: nat, run: Run): System
    requires w < |s.workers|
  {
    s.At(w, match run.cleanup
            case NotRequested => if s.hasCleanup then RequestingCleanup(run, run.updatedAt) else Finished
            case Pending => RecordingCleanup(run, Failed, run.updatedAt)
            case _ => Finished)
  }

  function AuthoriseCleanup(s: System, w: nat, now: int, run: Run): System
    requires w < |s.workers|
  {
    s.At(w, if run.report.Some? && s.Fenced(w, Max(now, run.report.value.updatedAt))
            then DispatchingCleanup(run) else Failing)
  }

  function DispatchCleanup(s: System, w: nat, run: Run, cleaned: bool): System
    requires w < |s.workers|
  {
    if run.report.None? then s.At(w, Failing)
    else
      s.(dispatches := s.dispatches + 1)
       .At(w, RecordingCleanup(run, if cleaned then Succeeded else Failed, run.report.value.updatedAt))
  }

  function HandleFailure(s: System, w: nat): System
    requires w < |s.workers| && s.run.Some?
  {
    s.At(w, if s.run.value.state in {Terminal, EscalationRequired} then Finished else Escalating)
  }

  /** From loading the run to establishing its report. */
  function ProceedOpening(s: System, w: nat, now: int, choice: Choice): System
    requires w < |s.workers| && s.run.Some?
  {
    match s.workers[w].phase
    case Loading(recovering) => Load(s, w, recovering)
    case ReadingPrefix(run, recovering) => ReadPrefix(s, w, run, recovering)
    case AppendingCreated(run, recovering) =>
      WriteEvent(s, w, now, J.Event(1, run.createdAt, J.Lifecycle(J.Created)), CheckingPrefix(run, recovering))
    case CheckingPrefix(run, recovering) => s.At(w, AfterPrefixRead(run, recovering, s.journal))
    case Activating(run, recovering, cursor) => Activate(s, w, now, run, recovering, cursor)
    case AppendingInvestigating(run, recovering) =>
      WriteEvent(s, w, now, J.Event(2, run.updatedAt, J.Lifecycle(J.Investigating)), Deciding(run, recovering))
    case Deciding(run, recovering) => Decide(s, w, run, recovering, choice.escalate)
    case Executing(run) => FinishExecution(s, w, run, choice.executor)
    case Establishing(run, report) => Establish(s, w, now, report)
    case _ => s
  }

  /** From projecting an established report to the end, and every failure. */
  function ProceedClosing(s: System, w: nat, now: int, choice: Choice): System
    requires w < |s.workers| && s.run.Some?
  {
    match s.workers[w].phase
    case Projecting(run, resumed) => CompareJournal(s, w, run, resumed)
    case Appending(run, resumed, next, cursor) => AppendReportEvent(s, w, now, run, resumed, next, cursor)
    case Rereading(run, resumed, next) => Reread(s, w, run, resumed, next)
    case RequestingCleanup(run, floor) => RequestCleanup(s, w, now, floor)
    case RecoveringCleanup(run) => RecoverCleanup(s, w, run)
    case AuthorisingCleanup(run) => AuthoriseCleanup(s, w, now, run)
    case DispatchingCleanup(run) => DispatchCleanup(s, w, run, choice.cleaned)
    case RecordingCleanup(run, status, floor) =>
      WriteRun(s, w, Max(now, floor), RecordCleanup(s.run.value, status, Max(now, floor)), Finished)
    case Drifted => s.At(w, Failing)
    case Failing => HandleFailure(s, w)
    case Escalating => WriteRun(s, w, now, RequireEscalation(s.run.value, now), Finished)
    case _ => s
  }

  predicate Opening(phase: Phase) {
    phase.Loading? || phase.ReadingPrefix? || phase.AppendingCreated? || phase.CheckingPrefix? || phase.Activating?
    || phase.AppendingInvestigating? || phase.Deciding? || phase.Executing? || phase.Establishing?
  }

  function AfterProceed(s: System, w: nat, now: int, choice: Choice): System
    requires w < |s.workers| && s.run.Some?
  {
    if Opening(s.workers[w].phase) then ProceedOpening(s, w, now, choice) else ProceedClosing(s, w, now, choice)
  }

  /** `create`: the call that first stores the run starts its only non-recovering task. A caller
      that fails before it starts the task leaves the run without one. */
  function AfterCreate(s: System, w: nat, createdAt: int, started: bool): System
    requires w < |s.workers|
  {
    if s.run.None? then
      var created := s.(run := Some(Run(Created, createdAt, createdAt, None, NotRequested)), creator := Some(w));
      if started && s.workers[w].phase.Idle? then created.At(w, Acquiring(false)) else created
    else if started then AfterStart(s, w)
    else s
  }

  /** `start`, or `create` for a run that exists: a recovering task, one at a time. */
  function AfterStart(s: System, w: nat): System
    requires w < |s.workers|
  {
    if s.run.Some? && s.workers[w].phase.Idle? && s.run.value.state != EscalationRequired then
      s.At(w, Acquiring(true))
    else s
  }

  function AfterAcquire(s: System, w: nat, now: int): System
    requires w < |s.workers|
  {
    if s.run.None? || !s.workers[w].phase.Acquiring? then s
    else match s.lease.Acquire(w, now)
      case Success((row, token)) =>
        s.(lease := row,
           workers := s.workers[w := Worker(Some(token), Loading(s.workers[w].phase.recovering))])
      case Failure(_) => s
  }

  /** An exception at any await: the handler escalates unless the run already ended. */
  function AfterRaise(s: System, w: nat): System
    requires w < |s.workers|
  {
    var phase := s.workers[w].phase;
    if phase.Idle? || phase.Acquiring? || phase.Finished? then s
    else s.At(w, if phase.Failing? || phase.Escalating? then Finished else Failing)
  }

  /** The heartbeat renewed the stored lease; a worker that is never told keeps its old token. */
  function AfterHeartbeat(s: System, w: nat, now: int, acknowledged: bool): System
    requires w < |s.workers|
  {
    var worker := s.workers[w];
    if worker.token.None? then s
    else match s.lease.Renew(worker.token.value, now)
      case Success((row, token)) =>
        if acknowledged then s.(lease := row, workers := s.workers[w := worker.(token := Some(token))])
        else s.(lease := row)
      case Failure(_) => s
  }

  /** The task ends or is cancelled, and releases what it still owns. */
  function AfterLeave(s: System, w: nat, now: int): System
    requires w < |s.workers|
  {
    var freed :=
      if s.workers[w].token.None? then s.lease
      else match s.lease.Release(s.workers[w].token.value, now)
        case Success(row) => row
        case Failure(_) => s.lease;
    AfterCrash(s, w).(lease := freed)
  }

  function AfterCrash(s: System, w: nat): System
    requires w < |s.workers|
  {
    s.(workers := s.workers[w := Worker(None, Idle)])
  }

  function Next(s: System, action: Action): System {
    if |s.workers| <= action.w then s
    else match action
      case Create(w, createdAt, started) => AfterCreate(s, w, createdAt, started)
      case Start(w) => AfterStart(s, w)
      case Acquire(w, now) => AfterAcquire(s, w, now)
      case Proceed(w, now, choice) => if s.run.None? then s else AfterProceed(s, w, now, choice)
      case Raise(w) => AfterRaise(s, w)
      case Heartbeat(w, now, acknowledged) => AfterHeartbeat(s, w, now, acknowledged)
      case Leave(w, now) => AfterLeave(s, w, now)
      case Crash(w) => AfterCrash(s, w)
  }

  function Execute(s: System, actions: seq<Action>): System
    decreases actions
  {
    if actions == [] then s else Execute(Next(s, actions[0]), actions[1..])
  }

  // ---------- What every reachable state satisfies ----------

  /** The journal the run is on the way to, as far as the stored record determines it. */
  function Destination(run: Run, activeAt: Option<int>): seq<J.Event> {
    if activeAt.None? then [J.Event(1, run.createdAt, J.Lifecycle(J.Created))]
    else if run.report.None? then J.LifecyclePrefix(run.createdAt, activeAt.value)
    else J.Canonical(run.createdAt, activeAt.value, run.report.value)
  }

  ghost predicate RunInv(run: Run, activeAt: Option<int>, journal: seq<J.Event>) {
    && journal <= Destination(run, activeAt)
    && (activeAt.Some? ==> run.createdAt <= activeAt.value && |journal| >= 1)
    && (run.report.Some? <==> run.state == Terminal)
    && (run.state != Terminal ==> run.cleanup == NotRequested)
    && (run.state == Created ==> activeAt.None? && run.updatedAt == run.createdAt)
    && (run.state == Active ==> activeAt == Some(run.updatedAt))
    && (run.state == Terminal ==> activeAt.Some? && run.report.value.WellFormed() && |journal| >= 2)
    && (run.cleanup != NotRequested ==> journal == Destination(run, activeAt))
  }

  ghost predicate StoreInv(s: System) {
    && s.lease.Valid()
    && (s.run.Some? ==> RunInv(s.run.value, s.activeAt, s.journal))
    && (s.run.None? ==>
          && s.journal == [] && s.lease == L.LeaseRow(0, None) && s.activeAt.None?
          && s.executions == 0 && s.dispatches == 0
          && forall w :: 0 <= w < |s.workers| ==> s.workers[w] == Worker(None, Idle))
  }

  ghost predicate Complete(s: System) {
    s.run.Some? && s.run.value.state == Terminal && s.activeAt.Some? && s.run.value.report.Some?
    && s.journal == J.Canonical(s.run.value.createdAt, s.activeAt.value, s.run.value.report.value)
  }

  predicate PastProjection(phase: Phase) {
    phase.RequestingCleanup? || phase.RecoveringCleanup? || phase.AuthorisingCleanup?
    || phase.DispatchingCleanup? || phase.RecordingCleanup?
  }

  /** What a worker that still owns the lease knows about the store. */
  ghost predicate Current(s: System, phase: Phase)
    requires s.run.Some?
  {
    var stored := s.run.value;
    match phase
    case ReadingPrefix(run, _) => run == stored && stored.state in {Created, Active}
    case AppendingCreated(run, _) => run == stored && stored.state == Created && s.journal == []
    case CheckingPrefix(run, _) => run == stored && stored.state in {Created, Active} && |s.journal| >= 1
    case Activating(run, _, cursor) => run == stored && stored.state == Created && cursor == |s.journal| == 1
    case AppendingInvestigating(run, _) => run == stored && stored.state == Active && |s.journal| == 1
    case Deciding(run, _) => run == stored && stored.state == Active && |s.journal| == 2
    case Executing(run) => run == stored && stored.state == Active && |s.journal| == 2
    case Establishing(run, report) =>
      run == stored && stored.state == Active && |s.journal| == 2
      && report.WellFormed() && run.updatedAt <= report.updatedAt
    case Projecting(run, resumed) =>
      run == stored && stored.state == Terminal && (!resumed ==> stored.cleanup == NotRequested)
    case Appending(run, resumed, next, cursor) =>
      run == stored && stored.state == Terminal && (!resumed ==> stored.cleanup == NotRequested)
      && cursor == |s.journal| == next + 2
      && stored.report.Some? && next < |stored.report.value.Payloads()|
    case Rereading(run, resumed, next) =>
      run == stored && stored.state == Terminal && (!resumed ==> stored.cleanup == NotRequested)
      && |s.journal| == next + 2
    case RequestingCleanup(run, _) => run == stored && stored.cleanup == NotRequested
    case RecoveringCleanup(run) => run == stored
    case AuthorisingCleanup(run) => run == stored && stored.cleanup == Pending
    case DispatchingCleanup(run) => run == stored && stored.cleanup == Pending
    case RecordingCleanup(run, _, _) => run == stored && stored.cleanup == Pending
    case Drifted => false
    case _ => true
  }

  /** What a worker knows even after it lost the lease: a report, once stored, is the report,
      and events once appended stay. */
  ghost predicate Lasting(s: System, phase: Phase)
    requires s.run.Some?
  {
    var stored := s.run.value;
    match phase
    case Projecting(run, _) => stored.state == Terminal && run.report == stored.report
    case Appending(run, _, next, _) =>
      stored.state == Terminal && run.report == stored.report && next + 2 <= |s.journal|
    case Rereading(run, _, next) =>
      stored.state == Terminal && run.report == stored.report && next + 2 <= |s.journal|
    case RecordingCleanup(_, status, _) => status in {Succeeded, Failed}
    case _ => true
  }

  ghost predicate WorkerInv(s: System, w: nat)
    requires w < |s.workers|
  {
    var worker := s.workers[w];
    && (worker.phase.Idle? || worker.phase.Acquiring? <==> worker.token.None?)
    && (worker.token.Some? ==> worker.token.value.owner == w)
    && (s.run.Some? && s.Owns(w) ==> Current(s, worker.phase))
    && (s.run.Some? ==> Lasting(s, worker.phase))
    && (PastProjection(worker.phase) ==> Complete(s))
    && (Unexecuted(worker.phase) ==> s.creator == Some(w) && (s.strategy != Fixed ==> s.executions == 0))
    && (Undispatched(worker.phase) ==>
          s.requester == Some(w) && s.dispatches == 0 && s.run.Some? && s.run.value.cleanup != NotRequested)
  }

  /** The task started by the call that created the run, as long as it has not executed. */
  predicate Unexecuted(phase: Phase) {
    match phase
    case Acquiring(r) => !r
    case Loading(r) => !r
    case ReadingPrefix(_, r) => !r
    case AppendingCreated(_, r) => !r
    case CheckingPrefix(_, r) => !r
    case Activating(_, r, _) => !r
    case AppendingInvestigating(_, r) => !r
    case Deciding(_, r) => !r
    case _ => false
  }

  /** Cleanup intent is stored and the external call is still to come. */
  predicate Undispatched(phase: Phase) {
    phase.AuthorisingCleanup? || phase.DispatchingCleanup?
  }

  ghost predicate HistoryInv(s: System) {
    && (s.strategy != Fixed ==> s.executions <= 1)
    && s.dispatches <= 1
    && (s.run.Some? && s.run.value.cleanup == NotRequested ==> s.dispatches == 0)
  }

  ghost predicate Inv(s: System) {
    && StoreInv(s)
    && (forall w :: 0 <= w < |s.workers| ==> WorkerInv(s, w))
    && HistoryInv(s)
  }

  // ---------- Every step keeps the invariant ----------

  /** A worker's own step: the lease and every other worker are as before, and what is stored
      only changes for a worker that owns the lease. */
  lemma StepKeepsInv(s: System, t: System, w: nat)
    requires Inv(s) && s.run.Some? && t.run.Some? && w < |s.workers|
    requires t.lease == s.lease && t.strategy == s.strategy && t.hasCleanup == s.hasCleanup
    requires |t.workers| == |s.workers|
    requires t.workers == s.workers[w := s.workers[w].(phase := t.workers[w].phase)]
    requires t.creator == s.creator && (t.requester == s.requester || s.run.value.cleanup == NotRequested)
    requires t.executions == s.executions || Unexecuted(s.workers[w].phase) || s.strategy == Fixed
    requires t.dispatches == s.dispatches || Undispatched(s.workers[w].phase)
    requires s.run.value.cleanup != NotRequested ==> t.run.value.cleanup != NotRequested
    requires (t.run == s.run && t.journal == s.journal && t.activeAt == s.activeAt) || s.Owns(w)
    requires s.run.value.state == Terminal ==>
               && t.run.value.state == Terminal && t.run.value.report == s.run.value.report
               && t.run.value.createdAt == s.run.value.createdAt && t.activeAt == s.activeAt
    requires |s.journal| <= |t.journal|
    requires StoreInv(t) && WorkerInv(t, w) && HistoryInv(t)
    ensures Inv(t)
  {
    forall v | 0 <= v < |t.workers|
      ensures WorkerInv(t, v)
    {
      if v != w {
        assert WorkerInv(s, v) && WorkerInv(s, w);
        assert t.workers[v] == s.workers[v];
        assert Complete(s) ==> Complete(t);
      }
    }
  }

  lemma AcquiredKeepsInv(s: System, w: nat, now: int)
    requires Inv(s) && w < |s.workers|
    ensures Inv(AfterAcquire(s, w, now))
  {
    hide RunInv, J.Canonical;
    var t := AfterAcquire(s, w, now);
    assert WorkerInv(s, w);
    forall v | 0 <= v < |t.workers|
      ensures WorkerInv(t, v)
    {
      assert WorkerInv(s, v);
    }
  }

  lemma RenewedKeepsInv(s: System, w: nat, now: int, acknowledged: bool)
    requires Inv(s) && w < |s.workers|
    ensures Inv(AfterHeartbeat(s, w, now, acknowledged))
  {
    hide RunInv, J.Canonical;
    var t := AfterHeartbeat(s, w, now, acknowledged);
    assert WorkerInv(s, w);
    forall v | 0 <= v < |t.workers|
      ensures WorkerInv(t, v)
    {
      assert WorkerInv(s, v);
    }
  }

  lemma CrashedKeepsInv(s: System, w: nat)
    requires Inv(s) && w < |s.workers|
    ensures Inv(AfterCrash(s, w))
  {
    hide RunInv, J.Canonical;
    var t := AfterCrash(s, w);
    assert WorkerInv(s, w);
    forall v | 0 <= v < |t.workers|
      ensures WorkerInv(t, v)
    {
      assert WorkerInv(s, v);
    }
  }

  /** With the lease released nobody owns anything. */
  lemma ReleasedKeepsInv(s: System)
    requires Inv(s) && s.run.Some?
    ensures Inv(s.(lease := L.LeaseRow(s.lease.fence, None)))
  {
    var t := s.(lease := L.LeaseRow(s.lease.fence, None));
    forall v | 0 <= v < |t.workers|
      ensures WorkerInv(t, v)
    {
      assert WorkerInv(s, v);
    }
  }

  lemma LeftKeepsInv(s: System, w: nat, now: int)
    requires Inv(s) && w < |s.workers|
    ensures Inv(AfterLeave(s, w, now))
  {
    CrashedKeepsInv(s, w);
    var crashed := AfterCrash(s, w);
    var t := AfterLeave(s, w, now);
    if t != crashed {
      assert WorkerInv(s, w);
      ReleasedKeepsInv(crashed);
      assert t == crashed.(lease := L.LeaseRow(s.lease.fence, None));
    }
  }

  lemma RaisedToKeepsInv(s: System, w: nat, phase: Phase)
    requires Inv(s) && s.run.Some? && w < |s.workers| && phase in {Failing, Finished}
    requires !s.workers[w].phase.Idle? && !s.workers[w].phase.Acquiring?
    ensures Inv(s.At(w, phase))
  {
    assert WorkerInv(s, w);
    StepKeepsInv(s, s.At(w, phase), w);
  }

  lemma RaisedKeepsInv(s: System, w: nat)
    requires Inv(s) && w < |s.workers|
    ensures Inv(AfterRaise(s, w))
  {
    var t := AfterRaise(s, w);
    if t != s {
      assert t == s.At(w, t.workers[w].phase);
      RaisedToKeepsInv(s, w, t.workers[w].phase);
    }
  }

  lemma StartedKeepsInv(s: System, w: nat)
    requires Inv(s) && w < |s.workers|
    ensures Inv(AfterStart(s, w))
  {
    hide RunInv, J.Canonical;
    var t := AfterStart(s, w);
    assert WorkerInv(s, w);
    forall v | 0 <= v < |t.workers|
      ensures WorkerInv(t, v)
    {
      assert WorkerInv(s, v);
    }
  }

  lemma CreatedKeepsInv(s: System, w: nat, createdAt: int, started: bool)
    requires Inv(s) && w < |s.workers|
    ensures Inv(AfterCreate(s, w, createdAt, started))
  {
    if s.run.Some? && started {
      StartedKeepsInv(s, w);
    }
  }

  lemma LoadingKeepsInv(s: System, w: nat, recovering: bool)
    requires Inv(s) && s.run.Some? && w < |s.workers|
    requires s.workers[w].phase == Loading(recovering)
    ensures Inv(Load(s, w, recovering))
  {
    assert WorkerInv(s, w);
    StepKeepsInv(s, Load(s, w, recovering), w);
  }

  lemma ReadingKeepsInv(s: System, w: nat, run: Run, recovering: bool)
    requires Inv(s) && s.run.Some? && w < |s.workers|
    requires s.workers[w].phase == ReadingPrefix(run, recovering)
    ensures Inv(ReadPrefix(s, w, run, recovering))
  {
    assert WorkerInv(s, w);
    StepKeepsInv(s, ReadPrefix(s, w, run, recovering), w);
  }

  lemma AppendingCreatedKeepsInv(s: System, w: nat, run: Run, recovering: bool, now: int)
    requires Inv(s) && s.run.Some? && w < |s.workers|
    requires s.workers[w].phase == AppendingCreated(run, recovering)
    ensures Inv(WriteEvent(s, w, now, J.Event(1, run.createdAt, J.Lifecycle(J.Created)),
                           CheckingPrefix(run, recovering)))
  {
    assert WorkerInv(s, w);
    if s.Owns(w) {
      AppendedKeepsInv(s, w, J.Event(1, run.createdAt, J.Lifecycle(J.Created)), CheckingPrefix(run, recovering));
    }
    RaisedKeepsInv(s, w);
  }

  lemma CheckingKeepsInv(s: System, w: nat, run: Run, recovering: bool)
    requires Inv(s) && s.run.Some? && w < |s.workers|
    requires s.workers[w].phase == CheckingPrefix(run, recovering)
    ensures Inv(s.At(w, AfterPrefixRead(run, recovering, s.journal)))
  {
    assert WorkerInv(s, w);
    StepKeepsInv(s, s.At(w, AfterPrefixRead(run, recovering, s.journal)), w);
  }

  lemma ActivatingKeepsInv(s: System, w: nat, run: Run, recovering: bool, cursor: nat, now: int)
    requires Inv(s) && s.run.Some? && w < |s.workers|
    requires s.workers[w].phase == Activating(run, recovering, cursor)
    ensures Inv(Activate(s, w, now, run, recovering, cursor))
  {
    hide J.Canonical, J.ReportEvents;
    assert WorkerInv(s, w);
    StepKeepsInv(s, Activate(s, w, now, run, recovering, cursor), w);
  }

  lemma AppendingInvestigatingKeepsInv(s: System, w: nat, run: Run, recovering: bool, now: int)
    requires Inv(s) && s.run.Some? && w < |s.workers|
    requires s.workers[w].phase == AppendingInvestigating(run, recovering)
    ensures Inv(WriteEvent(s, w, now, J.Event(2, run.updatedAt, J.Lifecycle(J.Investigating)),
                           Deciding(run, recovering)))
  {
    assert WorkerInv(s, w);
    var event := J.Event(2, run.updatedAt, J.Lifecycle(J.Investigating));
    if s.Owns(w) {
      assert s.journal + [event] == J.LifecyclePrefix(run.createdAt, run.updatedAt);
      AppendedKeepsInv(s, w, event, Deciding(run, recovering));
    }
    RaisedKeepsInv(s, w);
  }

  lemma ExecutesKeepsInv(s: System, w: nat, run: Run, recovering: bool)
    requires Inv(s) && s.run.Some? && w < |s.workers|
    requires s.workers[w].phase == Deciding(run, recovering) && (recovering ==> s.strategy == Fixed)
    ensures Inv(s.(executions := s.executions + 1).At(w, Executing(run)))
  {
    assert WorkerInv(s, w);
    StepKeepsInv(s, s.(executions := s.executions + 1).At(w, Executing(run)), w);
  }

  lemma DecidingKeepsInv(s: System, w: nat, run: Run, recovering: bool, escalate: bool)
    requires Inv(s) && s.run.Some? && w < |s.workers|
    requires s.workers[w].phase == Deciding(run, recovering)
    ensures Inv(Decide(s, w, run, recovering, escalate))
  {
    assert WorkerInv(s, w);
    if escalate || (recovering && s.strategy != Fixed) {
      StepKeepsInv(s, s.At(w, Escalating), w);
    } else {
      ExecutesKeepsInv(s, w, run, recovering);
    }
  }

  lemma ExecutingKeepsInv(s: System, w: nat, run: Run, outcome: ExecutorOutcome)
    requires Inv(s) && s.run.Some? && w < |s.workers|
    requires s.workers[w].phase == Executing(run)
    ensures Inv(FinishExecution(s, w, run, outcome))
  {
    assert WorkerInv(s, w);
    StepKeepsInv(s, FinishExecution(s, w, run, outcome), w);
  }

  lemma EstablishedKeepsInv(s: System, w: nat, run: Run, report: J.Report, at: int)
    requires Inv(s) && s.run.Some? && w < |s.workers| && s.Owns(w)
    requires s.workers[w].phase == Establishing(run, report)
    ensures var terminal := EstablishReport(s.run.value, report, at);
            terminal.Some? && Inv(s.(run := terminal).At(w, Projecting(terminal.value, false)))
  {
    assert WorkerInv(s, w);
    var terminal := EstablishReport(s.run.value, report, at);
    StepKeepsInv(s, s.(run := terminal).At(w, Projecting(terminal.value, false)), w);
  }

  lemma EstablishingKeepsInv(s: System, w: nat, run: Run, report: J.Report, now: int)
    requires Inv(s) && s.run.Some? && w < |s.workers|
    requires s.workers[w].phase == Establishing(run, report)
    ensures Inv(Establish(s, w, now, report))
  {
    if s.Owns(w) {
      EstablishedKeepsInv(s, w, run, report, Max(now, report.updatedAt));
    }
    RaisedKeepsInv(s, w);
  }

  lemma ProjectingKeepsInv(s: System, w: nat, run: Run, resumed: bool)
    requires Inv(s) && s.run.Some? && w < |s.workers|
    requires s.workers[w].phase == Projecting(run, resumed)
    ensures Inv(CompareJournal(s, w, run, resumed))
  {
    assert WorkerInv(s, w);
    StepKeepsInv(s, CompareJournal(s, w, run, resumed), w);
  }

  lemma RereadingKeepsInv(s: System, w: nat, run: Run, resumed: bool, next: nat)
    requires Inv(s) && s.run.Some? && w < |s.workers|
    requires s.workers[w].phase == Rereading(run, resumed, next)
    ensures Inv(Reread(s, w, run, resumed, next))
  {
    assert WorkerInv(s, w);
    StepKeepsInv(s, Reread(s, w, run, resumed, next), w);
  }

  lemma AppendingKeepsInv(s: System, w: nat, now: int, run: Run, resumed: bool, next: nat, cursor: nat)
    requires Inv(s) && s.run.Some? && w < |s.workers|
    requires s.workers[w].phase == Appending(run, resumed, next, cursor)
    ensures Inv(AppendReportEvent(s, w, now, run, resumed, next, cursor))
  {
    hide J.DurableAppend, J.Canonical, Destination;
    assert WorkerInv(s, w);
    if s.Owns(w) {
      var report := s.run.value.report.value;
      OwnedAppend(s.run.value, s.activeAt, s.journal);
      var event := J.Event(cursor + 1, report.updatedAt, report.Payloads()[next]);
      AppendedKeepsInv(s, w, event, Rereading(run, resumed, next + 1));
    }
    RaisedKeepsInv(s, w);
  }

  lemma AppendedKeepsInv(s: System, w: nat, event: J.Event, next: Phase)
    requires Inv(s) && s.run.Some? && w < |s.workers| && s.Owns(w) && !s.workers[w].phase.Idle?
    requires next.Rereading? || next.CheckingPrefix? || next.Deciding?
    requires var t := s.(journal := s.journal + [event]).At(w, next);
             && RunInv(s.run.value, s.activeAt, t.journal) && Current(t, next) && Lasting(t, next)
             && (Unexecuted(next) ==> Unexecuted(s.workers[w].phase))
    ensures Inv(s.(journal := s.journal + [event]).At(w, next))
  {
    var t := s.(journal := s.journal + [event]).At(w, next);
    assert WorkerInv(s, w);
    assert WorkerInv(t, w);
    StepKeepsInv(s, t, w);
  }

  /** The event an owner appends next is the next canonical event, and it is accepted. */
  lemma OwnedAppend(run: Run, activeAt: Option<int>, journal: seq<J.Event>)
    requires RunInv(run, activeAt, journal) && run.state == Terminal
    requires |journal| < |run.report.value.Payloads()| + 2
    ensures var report := run.report.value;
            var event := J.Event(|journal| + 1, report.updatedAt, report.Payloads()[|journal| - 2]);
            && J.DurableAppend(journal, event) == Success(journal + [event])
            && RunInv(run, activeAt, journal + [event])
  {
    var c := J.Canonical(run.createdAt, activeAt.value, run.report.value);
    J.CanonicalStep(run.createdAt, activeAt.value, run.report.value, |journal|);
    assert c[|journal|] == J.ReportEvents(run.report.value, 2, 0)[|journal| - 2];
    assert journal + [c[|journal|]] == c[..|journal| + 1];
  }

  lemma RequestingKeepsInv(s: System, w: nat, run: Run, floor: int, now: int)
    requires Inv(s) && s.run.Some? && w < |s.workers|
    requires s.workers[w].phase == RequestingCleanup(run, floor)
    ensures Inv(RequestCleanup(s, w, now, floor))
  {
    hide J.Canonical, J.LifecyclePrefix;
    assert WorkerInv(s, w);
    StepKeepsInv(s, RequestCleanup(s, w, now, floor), w);
  }

  lemma RecoveringKeepsInv(s: System, w: nat, run: Run)
    requires Inv(s) && s.run.Some? && w < |s.workers|
    requires s.workers[w].phase == RecoveringCleanup(run)
    ensures Inv(RecoverCleanup(s, w, run))
  {
    assert WorkerInv(s, w);
    StepKeepsInv(s, RecoverCleanup(s, w, run), w);
  }

  lemma AuthorisingKeepsInv(s: System, w: nat, run: Run, now: int)
    requires Inv(s) && s.run.Some? && w < |s.workers|
    requires s.workers[w].phase == AuthorisingCleanup(run)
    ensures Inv(AuthoriseCleanup(s, w, now, run))
  {
    assert WorkerInv(s, w);
    StepKeepsInv(s, AuthoriseCleanup(s, w, now, run), w);
  }

  lemma DispatchingKeepsInv(s: System, w: nat, run: Run, cleaned: bool)
    requires Inv(s) && s.run.Some? && w < |s.workers|
    requires s.workers[w].phase == DispatchingCleanup(run)
    ensures Inv(DispatchCleanup(s, w, run, cleaned))
  {
    assert WorkerInv(s, w);
    StepKeepsInv(s, DispatchCleanup(s, w, run, cleaned), w);
  }

  lemma RecordingKeepsInv(s: System, w: nat, run: Run, status: CleanupStatus, floor: int, now: int)
    requires Inv(s) && s.run.Some? && w < |s.workers|
    requires s.workers[w].phase == RecordingCleanup(run, status, floor)
    ensures Inv(WriteRun(s, w, Max(now, floor), RecordCleanup(s.run.value, status, Max(now, floor)), Finished))
  {
    hide J.Canonical, J.LifecyclePrefix;
    assert WorkerInv(s, w);
    StepKeepsInv(s, WriteRun(s, w, Max(now, floor), RecordCleanup(s.run.value, status, Max(now, floor)), Finished), w);
  }

  lemma FailingKeepsInv(s: System, w: nat)
    requires Inv(s) && s.run.Some? && w < |s.workers|
    requires s.workers[w].phase == Failing
    ensures Inv(HandleFailure(s, w))
  {
    assert WorkerInv(s, w);
    StepKeepsInv(s, HandleFailure(s, w), w);
  }

  lemma EscalatedKeepsInv(s: System, w: nat, now: int)
    requires Inv(s) && s.run.Some? && w < |s.workers| && s.Owns(w)
    requires s.workers[w].phase == Escalating && RequireEscalation(s.run.value, now).Some?
    ensures Inv(s.(run := RequireEscalation(s.run.value, now)).At(w, Finished))
  {
    assert WorkerInv(s, w);
    StepKeepsInv(s, s.(run := RequireEscalation(s.run.value, now)).At(w, Finished), w);
  }

  lemma EscalatingKeepsInv(s: System, w: nat, now: int)
    requires Inv(s) && s.run.Some? && w < |s.workers|
    requires s.workers[w].phase == Escalating
    ensures Inv(WriteRun(s, w, now, RequireEscalation(s.run.value, now), Finished))
  {
    if s.Owns(w) && RequireEscalation(s.run.value, now).Some? {
      EscalatedKeepsInv(s, w, now);
    }
    RaisedToKeepsInv(s, w, Failing);
  }

  lemma OpeningKeepsInv(s: System, w: nat, now: int, choice: Choice)
    requires Inv(s) && s.run.Some? && w < |s.workers|
    ensures Inv(ProceedOpening(s, w, now, choice))
  {
    hide Inv;
    match s.workers[w].phase
    case Loading(recovering) => LoadingKeepsInv(s, w, recovering);
    case ReadingPrefix(run, recovering) => ReadingKeepsInv(s, w, run, recovering);
    case AppendingCreated(run, recovering) => AppendingCreatedKeepsInv(s, w, run, recovering, now);
    case CheckingPrefix(run, recovering) => CheckingKeepsInv(s, w, run, recovering);
    case Activating(run, recovering, cursor) => ActivatingKeepsInv(s, w, run, recovering, cursor, now);
    case AppendingInvestigating(run, recovering) =>
      AppendingInvestigatingKeepsInv(s, w, run, recovering, now);
    case Deciding(run, recovering) => DecidingKeepsInv(s, w, run, recovering, choice.escalate);
    case Executing(run) => ExecutingKeepsInv(s, w, run, choice.executor);
    case Establishing(run, report) => EstablishingKeepsInv(s, w, run, report, now);
    case _ =>
  }

  lemma ClosingKeepsInv(s: System, w: nat, now: int, choice: Choice)
    requires Inv(s) && s.run.Some? && w < |s.workers|
    ensures Inv(ProceedClosing(s, w, now, choice))
  {
    hide Inv;
    match s.workers[w].phase
    case Projecting(run, resumed) => ProjectingKeepsInv(s, w, run, resumed);
    case Appending(run, resumed, next, cursor) => AppendingKeepsInv(s, w, now, run, resumed, next, cursor);
    case Rereading(run, resumed, next) => RereadingKeepsInv(s, w, run, resumed, next);
    case RequestingCleanup(run, floor) => RequestingKeepsInv(s, w, run, floor, now);
    case RecoveringCleanup(run) => RecoveringKeepsInv(s, w, run);
    case AuthorisingCleanup(run) => AuthorisingKeepsInv(s, w, run, now);
    case DispatchingCleanup(run) => DispatchingKeepsInv(s, w, run, choice.cleaned);
    case RecordingCleanup(run, status, floor) => RecordingKeepsInv(s, w, run, status, floor, now);
    case Drifted => RaisedKeepsInv(s, w);
    case Failing => FailingKeepsInv(s, w);
    case Escalating => EscalatingKeepsInv(s, w, now);
    case _ =>
  }

  lemma ProceedKeepsInv(s: System, w: nat, now: int, choice: Choice)
    requires Inv(s) && s.run.Some? && w < |s.workers|
    ensures Inv(AfterProceed(s, w, now, choice))
  {
    hide Inv;
    OpeningKeepsInv(s, w, now, choice);
    ClosingKeepsInv(s, w, now, choice);
  }

  lemma NextKeepsInv(s: System, action: Action)
    requires Inv(s)
    ensures Inv(Next(s, action))
  {
    hide Inv;
    if action.w < |s.workers| {
      match action
      case Create(w, createdAt, started) => CreatedKeepsInv(s, w, createdAt, started);
      case Start(w) => StartedKeepsInv(s, w);
      case Acquire(w, now) => AcquiredKeepsInv(s, w, now);
      case Proceed(w, now, choice) => if s.run.Some? { ProceedKeepsInv(s, w, now, choice); }
      case Raise(w) => RaisedKeepsInv(s, w);
      case Heartbeat(w, now, acknowledged) => RenewedKeepsInv(s, w, now, acknowledged);
      case Leave(w, now) => LeftKeepsInv(s, w, now);
      case Crash(w) => CrashedKeepsInv(s, w);
    }
  }

  lemma {:induction false} ReachableInv(s: System, actions: seq<Action>)
    requires Inv(s)
    ensures Inv(Execute(s, actions))
    decreases actions
  {
    if actions != [] {
      NextKeepsInv(s, actions[0]);
      ReachableInv(Next(s, actions[0]), actions[1..]);
    }
  }

  // ---------- Safety over every run ----------

  /** The system after any interleaving of creations, starts, takeovers, steps, exceptions,
      heartbeats, releases and crashes of any number of workers. */
  function Reached(strategy: Strategy, hasCleanup: bool, workers: nat, actions: seq<Action>): System {
    Execute(Initial(strategy, hasCleanup, workers), actions)
  }

  lemma ReachedInv(strategy: Strategy, hasCleanup: bool, workers: nat, actions: seq<Action>)
    ensures Inv(Reached(strategy, hasCleanup, workers, actions))
  {
    ReachableInv(Initial(strategy, hasCleanup, workers), actions);
  }

  /** The stored journal is always a prefix of [CREATED, INVESTIGATING] followed by the events of
      the one established report, and its length goes with the state of the run. */
  lemma JournalIsCanonicalPrefix(strategy: Strategy, hasCleanup: bool, workers: nat, actions: seq<Action>)
    ensures var s := Reached(strategy, hasCleanup, workers, actions);
            match s.run
            case None => s.journal == []
            case Some(run) =>
              && s.journal <= Destination(run, s.activeAt)
              && (run.state == Created ==> |s.journal| <= 1)
              && (run.state == Active ==> 1 <= |s.journal| <= 2)
              && (run.state == Terminal ==> |s.journal| >= 2)
              && (run.state == EscalationRequired ==> |s.journal| <= 2)
  {
    ReachedInv(strategy, hasCleanup, workers, actions);
  }

  /** A planner-driven executor is called at most once per investigation over all incarnations. */
  lemma ExecutorRunsAtMostOnce(strategy: Strategy, hasCleanup: bool, workers: nat, actions: seq<Action>)
    requires strategy != Fixed
    ensures Reached(strategy, hasCleanup, workers, actions).executions <= 1
  {
    ReachedInv(strategy, hasCleanup, workers, actions);
    StrategyIsFixedForLife(Initial(strategy, hasCleanup, workers), actions);
  }

  lemma {:induction false} StrategyIsFixedForLife(s: System, actions: seq<Action>)
    ensures Execute(s, actions).strategy == s.strategy
    decreases actions
  {
    if actions != [] {
      StrategyIsFixedForLife(Next(s, actions[0]), actions[1..]);
    }
  }

  /** The external cleanup is dispatched at most once, never before its intent is stored, and
      only when the run's whole canonical journal is. */
  lemma CleanupIsDispatchedAtMostOnce(strategy: Strategy, hasCleanup: bool, workers: nat, actions: seq<Action>)
    ensures var s := Reached(strategy, hasCleanup, workers, actions);
            && s.dispatches <= 1
            && (s.dispatches == 1 ==> s.run.Some? && s.run.value.cleanup != NotRequested)
            && (s.run.Some? && s.run.value.cleanup != NotRequested ==> Complete(s))
  {
    ReachedInv(strategy, hasCleanup, workers, actions);
  }

  /** A worker that still owns the lease never finds a journal that disagrees with its run:
      drift is only ever seen by a worker that was already fenced off. */
  lemma OwnerNeverDrifts(strategy: Strategy, hasCleanup: bool, workers: nat, actions: seq<Action>, w: nat)
    requires w < |Reached(strategy, hasCleanup, workers, actions).workers|
    requires Reached(strategy, hasCleanup, workers, actions).workers[w].phase.Drifted?
    ensures !Reached(strategy, hasCleanup, workers, actions).Owns(w)
  {
    ReachedInv(strategy, hasCleanup, workers, actions);
    assert WorkerInv(Reached(strategy, hasCleanup, workers, actions), w);
  }

  /** Recovery that finds a stored intent to clean up records a failure and dispatches nothing. */
  lemma PendingCleanupIsRecordedFailed(s: System, w: nat, now: int, choices: (Choice, Choice))
    requires s.run.Some? && w < |s.workers|
    requires s.workers[w].phase == RecoveringCleanup(s.run.value) && s.run.value.cleanup == Pending
    ensures var t := AfterProceed(AfterProceed(s, w, now, choices.0), w, now, choices.1);
            && t.dispatches == s.dispatches
            && t.workers[w].phase in {Finished, Failing}
            && (t.workers[w].phase == Finished ==> t.run.value.cleanup == Failed)
  {
  }

  /** About to dispatch a cleanup or to record that it succeeded. */
  predicate Cleaning(phase: Phase) {
    Undispatched(phase) || (phase.RecordingCleanup? && phase.status != Failed)
  }

  /** The intent to clean up is stored, and no success is. */
  predicate Unfulfilled(s: System) {
    s.run.Some? && s.run.value.state == Terminal && s.run.value.cleanup in {Pending, Failed}
  }

  /** The intent to clean up is stored, and whoever was to carry it out is gone. */
  ghost predicate CleanupAbandoned(s: System) {
    && Unfulfilled(s)
    && forall w :: 0 <= w < |s.workers| ==> !Cleaning(s.workers[w].phase)
  }

  lemma AbandonedCleanupStep(s: System, action: Action)
    requires Inv(s) && CleanupAbandoned(s)
    ensures CleanupAbandoned(Next(s, action)) && Next(s, action).dispatches == s.dispatches
  {
    var t := Next(s, action);
    if action.w < |s.workers| {
      AbandonedCleanupWorker(s, action);
      forall w | 0 <= w < |t.workers|
        ensures !Cleaning(t.workers[w].phase)
      {
        assert w != action.w ==> t.workers[w] == s.workers[w];
      }
    }
  }

  lemma AbandonedCleanupWorker(s: System, action: Action)
    requires Inv(s) && CleanupAbandoned(s) && action.w < |s.workers|
    ensures var t := Next(s, action);
            && |t.workers| == |s.workers| && t.workers == s.workers[action.w := t.workers[action.w]]
            && !Cleaning(t.workers[action.w].phase)
            && Unfulfilled(t) && t.dispatches == s.dispatches
  {
    assert !Cleaning(s.workers[action.w].phase);
    if action.Proceed? {
      AbandonedCleanupProceeds(s, action.w, action.now, action.choice);
    }
  }

  lemma OpeningMovesOne(s: System, w: nat, now: int, choice: Choice)
    requires w < |s.workers| && s.run.Some?
    ensures var t := ProceedOpening(s, w, now, choice);
            |t.workers| == |s.workers| && t.workers == s.workers[w := t.workers[w]]
  {
    hide J.DurableAppend, J.ValidLifecyclePrefix;
  }

  lemma ClosingMovesOne(s: System, w: nat, now: int, choice: Choice)
    requires w < |s.workers| && s.run.Some?
    ensures var t := ProceedClosing(s, w, now, choice);
            |t.workers| == |s.workers| && t.workers == s.workers[w := t.workers[w]]
  {
    hide J.DurableAppend, J.Agrees, J.Accepted;
  }

  lemma AbandonedCleanupOpens(s: System, w: nat, now: int, choice: Choice)
    requires Unfulfilled(s) && w < |s.workers| && !Cleaning(s.workers[w].phase)
    ensures var t := ProceedOpening(s, w, now, choice);
            && |t.workers| == |s.workers| && !Cleaning(t.workers[w].phase)
            && t.run == s.run && t.dispatches == s.dispatches
  {
    hide J.DurableAppend, J.ValidLifecyclePrefix;
    match s.workers[w].phase
    case Loading(_) =>
    case ReadingPrefix(_, _) =>
    case AppendingCreated(_, _) =>
    case CheckingPrefix(_, _) =>
    case Activating(run, _, _) => assert MarkActive(s.run.value, Max(now, run.updatedAt)).None?;
    case AppendingInvestigating(_, _) =>
    case Deciding(_, _) =>
    case Executing(_) =>
    case Establishing(_, report) =>
      var terminal := EstablishReport(s.run.value, report, Max(now, report.updatedAt));
      assert terminal in {None, s.run};
    case _ =>
  }

  lemma AbandonedCleanupCloses(s: System, w: nat, now: int, choice: Choice)
    requires Unfulfilled(s) && w < |s.workers| && !Cleaning(s.workers[w].phase)
    requires s.Owns(w) ==> !s.workers[w].phase.RequestingCleanup?
    ensures var t := ProceedClosing(s, w, now, choice);
            && |t.workers| == |s.workers| && !Cleaning(t.workers[w].phase)
            && Unfulfilled(t) && t.dispatches == s.dispatches
  {
    hide J.DurableAppend, J.Agrees, J.Accepted;
    match s.workers[w].phase
    case Projecting(_, _) =>
    case Appending(_, _, _, _) =>
    case Rereading(_, _, _) =>
    case RequestingCleanup(_, _) =>
    case RecoveringCleanup(_) =>
    case RecordingCleanup(_, status, _) => assert status == Failed;
    case Escalating => assert RequireEscalation(s.run.value, now).None?;
    case _ =>
  }

  lemma AbandonedCleanupProceeds(s: System, w: nat, now: int, choice: Choice)
    requires Inv(s) && CleanupAbandoned(s) && w < |s.workers|
    ensures var t := AfterProceed(s, w, now, choice);
            && |t.workers| == |s.workers| && t.workers == s.workers[w := t.workers[w]]
            && !Cleaning(t.workers[w].phase)
            && Unfulfilled(t) && t.dispatches == s.dispatches
  {
    hide ProceedOpening, ProceedClosing, StoreInv;
    assert !Cleaning(s.workers[w].phase) && WorkerInv(s, w);
    if Opening(s.workers[w].phase) {
      OpeningMovesOne(s, w, now, choice);
      AbandonedCleanupOpens(s, w, now, choice);
    } else {
      ClosingMovesOne(s, w, now, choice);
      AbandonedCleanupCloses(s, w, now, choice);
    }
  }

  /** Once its intent is stored and whoever was to carry it out is gone, a cleanup is never
      dispatched again over any run: whatever recovery records is a failure. */
  lemma {:induction false} PendingCleanupIsNeverRetried(s: System, actions: seq<Action>)
    requires Inv(s) && CleanupAbandoned(s)
    ensures var t := Execute(s, actions);
            Unfulfilled(t) && t.dispatches == s.dispatches
    decreases actions
  {
    if actions != [] {
      NextKeepsInv(s, actions[0]);
      AbandonedCleanupStep(s, actions[0]);
      PendingCleanupIsNeverRetried(Next(s, actions[0]), actions[1..]);
    }
  }

  /** What is stored is never taken back: the journal only grows, an established report and a
      final cleanup status stay as they are. */
  ghost predicate Extends(s: System, t: System) {
    && s.journal <= t.journal
    && (s.run.Some? ==>
          && t.run.Some?
          && t.run.value.createdAt == s.run.value.createdAt
          && (s.run.value.report.Some? ==> t.run.value.report == s.run.value.report)
          && (s.run.value.cleanup in {Succeeded, Failed} ==> t.run.value.cleanup == s.run.value.cleanup))
  }

  lemma AppendExtends(journal: seq<J.Event>, event: J.Event)
    ensures J.DurableAppend(journal, event).Success? ==> journal <= J.DurableAppend(journal, event).value
  {
  }

  lemma WriteExtends(s: System, w: nat, now: int, event: J.Event, next: Phase)
    requires w < |s.workers|
    ensures var t := WriteEvent(s, w, now, event, next); s.journal <= t.journal && t.run == s.run
  {
    hide J.DurableAppend;
    AppendExtends(s.journal, event);
  }

  lemma OpeningExtends(s: System, w: nat, now: int, choice: Choice)
    requires w < |s.workers| && s.run.Some?
    ensures Extends(s, ProceedOpening(s, w, now, choice))
  {
    hide WriteEvent, J.ValidLifecyclePrefix, AfterPrefixRead;
    match s.workers[w].phase
    case AppendingCreated(run, recovering) =>
      WriteExtends(s, w, now, J.Event(1, run.createdAt, J.Lifecycle(J.Created)), CheckingPrefix(run, recovering));
    case AppendingInvestigating(run, recovering) =>
      WriteExtends(s, w, now, J.Event(2, run.updatedAt, J.Lifecycle(J.Investigating)), Deciding(run, recovering));
    case _ =>
  }

  lemma ClosingExtends(s: System, w: nat, now: int, choice: Choice)
    requires w < |s.workers| && s.run.Some?
    ensures Extends(s, ProceedClosing(s, w, now, choice))
  {
    hide WriteEvent, J.Agrees, J.Accepted;
    match s.workers[w].phase
    case Appending(run, resumed, next, cursor) =>
      if run.report.Some? && next < |run.report.value.Payloads()| {
        var report := run.report.value;
        WriteExtends(s, w, Max(now, report.updatedAt), J.Event(cursor + 1, report.updatedAt, report.Payloads()[next]),
                     Rereading(run, resumed, next + 1));
      }
    case _ =>
  }

  lemma NextExtends(s: System, action: Action)
    ensures Extends(s, Next(s, action))
  {
    if action.Proceed? && action.w < |s.workers| && s.run.Some? {
      OpeningExtends(s, action.w, action.now, action.choice);
      ClosingExtends(s, action.w, action.now, action.choice);
    }
    hide ProceedOpening, ProceedClosing;
  }

  lemma {:induction false} NothingStoredIsTakenBack(s: System, actions: seq<Action>)
    ensures Extends(s, Execute(s, actions))
    decreases actions
  {
    if actions != [] {
      NextExtends(s, actions[0]);
      NothingStoredIsTakenBack(Next(s, actions[0]), actions[1..]);
    }
  }
}
