/** How a durable run gets to its end: a worker that keeps its lease brings the journal to the
    canonical one, whether it is the first to run, resumes an interrupted run or finishes a
    projection, and whatever everybody else does in the meantime. */
module DurableRecovery {
  import opened Wrappers
  import J = Journal
  import L = LeaseFence
  import opened DurableRun

  // ---------- The way to a complete journal ----------

  /** From loading the run to projecting the last event of its report. */
  predicate OnPath(phase: Phase) {
    Opening(phase) || phase.Projecting? || phase.Appending? || phase.Rereading?
  }

  /** A recovering task that has not decided yet whether it may execute. */
  predicate Recovers(phase: Phase) {
    match phase
    case Loading(recovering) => recovering
    case ReadingPrefix(_, recovering) => recovering
    case AppendingCreated(_, recovering) => recovering
    case CheckingPrefix(_, recovering) => recovering
    case Activating(_, recovering, _) => recovering
    case AppendingInvestigating(_, recovering) => recovering
    case Deciding(_, recovering) => recovering
    case _ => false
  }

  /** The run may be executed by a task in this phase, if it still has to be. */
  predicate MayExecute(s: System, phase: Phase)
    requires s.run.Some?
  {
    Recovers(phase) && s.run.value.state != Terminal ==> s.strategy == Fixed
  }

  /** Worker `w` owns the lease and is on its way to the journal of `report`, or has got there. */
  ghost predicate Underway(s: System, w: nat, report: J.Report) {
    && Inv(s) && w < |s.workers| && s.run.Some? && s.Owns(w) && report.WellFormed()
    && s.run.value.state != EscalationRequired
    && (s.run.value.report.Some? ==> s.run.value.report.value == report)
    && (OnPath(s.workers[w].phase) ==>
          && MayExecute(s, s.workers[w].phase)
          && (s.workers[w].phase.Establishing? ==> s.workers[w].phase.report == report))
    && (!OnPath(s.workers[w].phase) ==> Complete(s) && s.run.value.report == Some(report))
  }

  /** How many steps are left once the lifecycle prefix of an unreported run was read. */
  function AfterReading(s: System, payloads: nat): nat
    requires s.run.Some?
  {
    2 * payloads + if s.run.value.state == Created then 6 else if |s.journal| == 1 then 5 else 4
  }

  /** How many report events are missing. */
  function Missing(s: System, payloads: nat): nat {
    if |s.journal| <= payloads + 2 then payloads + 2 - |s.journal| else 0
  }

  /** How many steps of its own worker `w` is away from a complete journal. */
  function Left(s: System, w: nat, report: J.Report): nat
    requires w < |s.workers| && s.run.Some?
  {
    var payloads := |report.Payloads()|;
    match s.workers[w].phase
    case Loading(_) =>
      if s.run.value.state == Terminal then 2 + 2 * Missing(s, payloads)
      else if s.journal == [] then 2 * payloads + 10
      else 2 + AfterReading(s, payloads)
    case ReadingPrefix(_, _) => if s.journal == [] then 2 * payloads + 9 else 1 + AfterReading(s, payloads)
    case AppendingCreated(_, _) => 2 * payloads + 8
    case CheckingPrefix(_, _) => 1 + AfterReading(s, payloads)
    case Activating(_, _, _) => 2 * payloads + 6
    case AppendingInvestigating(_, _) => 2 * payloads + 5
    case Deciding(_, _) => 2 * payloads + 4
    case Executing(_) => 2 * payloads + 3
    case Establishing(_, _) => 2 * payloads + 2
    case Projecting(_, _) => 1 + 2 * Missing(s, payloads)
    case Appending(_, _, _, _) => 2 * Missing(s, payloads)
    case Rereading(_, _, _) => 1 + 2 * Missing(s, payloads)
    case _ => 0
  }

  /** The clock readings of a step at which worker `w` writes under its lease. */
  predicate HoldsAt(s: System, w: nat, now: int, report: J.Report)
    requires w < |s.workers| && s.run.Some?
  {
    && s.Fenced(w, now) && s.Fenced(w, Max(now, report.updatedAt))
    && (s.run.value.state == Created ==> s.Fenced(w, Max(now, s.run.value.updatedAt)))
  }

  /** The outside world lets the run go on: nothing has drifted, and the executor reports
      `report`, stamped no earlier than the run it was given. */
  predicate GoesOn(s: System, w: nat, choice: Choice, report: J.Report)
    requires w < |s.workers|
  {
    && !choice.escalate && choice.executor == Reported(report)
    && (s.workers[w].phase.Executing? ==> s.workers[w].phase.run.updatedAt <= report.updatedAt)
  }

  ghost predicate Ready(s: System, w: nat, now: int, choice: Choice, report: J.Report) {
    Underway(s, w, report) && HoldsAt(s, w, now, report) && GoesOn(s, w, choice, report)
  }

  /** One step closer, under the same lease. */
  ghost predicate Advanced(s: System, t: System, w: nat, now: int, report: J.Report)
    requires w < |s.workers| && s.run.Some?
  {
    && Underway(t, w, report) && Left(t, w, report) + 1 == Left(s, w, report)
    && |t.workers| == |s.workers| && t.lease == s.lease && t.workers[w].token == s.workers[w].token
    && t.run.value.createdAt == s.run.value.createdAt
    && (match s.run.value.state
        case Created =>
          || (t.run == s.run && t.activeAt == s.activeAt)
          || (t.run.value.state == Active && t.activeAt == Some(t.run.value.updatedAt)
              && t.run.value.updatedAt == Max(now, s.run.value.updatedAt))
        case Active => t.activeAt == s.activeAt && (t.run == s.run || t.run.value.state == Terminal)
        case _ => t.activeAt == s.activeAt && t.run.value.state == Terminal)
  }

  lemma OwnerKnows(s: System, w: nat, report: J.Report)
    requires Underway(s, w, report)
    ensures Current(s, s.workers[w].phase) && RunInv(s.run.value, s.activeAt, s.journal)
  {
    assert WorkerInv(s, w);
  }

  lemma ProceedKeepsInv(s: System, w: nat, now: int, choice: Choice)
    requires Inv(s) && s.run.Some? && w < |s.workers|
    ensures Inv(AfterProceed(s, w, now, choice))
  {
    hide Inv;
    NextKeepsInv(s, Proceed(w, now, choice));
  }

  /** What an unreported run's owner finds in its journal. */
  lemma PrefixIsRead(run: Run, activeAt: Option<int>, journal: seq<J.Event>, recovering: bool)
    requires RunInv(run, activeAt, journal) && run.state in {Created, Active} && journal != []
    ensures |journal| in {1, 2} && (run.state == Created ==> |journal| == 1)
    ensures AfterPrefixRead(run, recovering, journal)
            == if run.state == Created then Activating(run, recovering, 1)
               else if |journal| == 1 then AppendingInvestigating(run, recovering)
               else Deciding(run, recovering)
  {
    assert journal == Destination(run, activeAt)[..|journal|];
  }

  lemma LoadingStep(s: System, w: nat, now: int, choice: Choice, report: J.Report)
    requires Ready(s, w, now, choice, report) && s.workers[w].phase.Loading?
    ensures Advanced(s, AfterProceed(s, w, now, choice), w, now, report)
  {
    OwnerKnows(s, w, report);
    ProceedKeepsInv(s, w, now, choice);
    hide Inv, Current;
    assert s.run.value.state != Terminal && s.journal != [] ==> |s.journal| in {1, 2} by {
      if s.run.value.state != Terminal && s.journal != [] {
        PrefixIsRead(s.run.value, s.activeAt, s.journal, false);
      }
    }
  }

  lemma ReadingStep(s: System, w: nat, now: int, choice: Choice, report: J.Report)
    requires Ready(s, w, now, choice, report)
    requires s.workers[w].phase.ReadingPrefix? || s.workers[w].phase.CheckingPrefix?
    ensures Advanced(s, AfterProceed(s, w, now, choice), w, now, report)
  {
    OwnerKnows(s, w, report);
    ProceedKeepsInv(s, w, now, choice);
    if s.journal != [] {
      PrefixIsRead(s.run.value, s.activeAt, s.journal, s.workers[w].phase.recovering);
    }
    hide Inv, AfterPrefixRead, RunInv, Destination, Complete;
  }

  lemma CreatedEventStep(s: System, w: nat, now: int, choice: Choice, report: J.Report)
    requires Ready(s, w, now, choice, report) && s.workers[w].phase.AppendingCreated?
    ensures Advanced(s, AfterProceed(s, w, now, choice), w, now, report)
  {
    OwnerKnows(s, w, report);
    ProceedKeepsInv(s, w, now, choice);
    hide Inv;
    var event := J.Event(1, s.run.value.createdAt, J.Lifecycle(J.Created));
    assert s.journal == [] && s.journal + [event] == [event];
    assert J.DurableAppend(s.journal, event) == Success([event]);
  }

  lemma ActivatingStep(s: System, w: nat, now: int, choice: Choice, report: J.Report)
    requires Ready(s, w, now, choice, report) && s.workers[w].phase.Activating?
    ensures Advanced(s, AfterProceed(s, w, now, choice), w, now, report)
  {
    OwnerKnows(s, w, report);
    ProceedKeepsInv(s, w, now, choice);
    hide Inv;
  }

  lemma InvestigatingEventStep(s: System, w: nat, now: int, choice: Choice, report: J.Report)
    requires Ready(s, w, now, choice, report) && s.workers[w].phase.AppendingInvestigating?
    ensures Advanced(s, AfterProceed(s, w, now, choice), w, now, report)
  {
    OwnerKnows(s, w, report);
    ProceedKeepsInv(s, w, now, choice);
    var event := J.Event(2, s.run.value.updatedAt, J.Lifecycle(J.Investigating));
    assert s.journal[0] == J.LifecyclePrefix(s.run.value.createdAt, s.activeAt.value)[0];
    assert J.DurableAppend(s.journal, event) == Success(s.journal + [event]);
    hide Inv, RunInv, Destination;
  }

  lemma ExecutionStep(s: System, w: nat, now: int, choice: Choice, report: J.Report)
    requires Ready(s, w, now, choice, report)
    requires s.workers[w].phase.Deciding? || s.workers[w].phase.Executing?
    ensures Advanced(s, AfterProceed(s, w, now, choice), w, now, report)
  {
    OwnerKnows(s, w, report);
    ProceedKeepsInv(s, w, now, choice);
    hide Inv, RunInv;
  }

  lemma EstablishingStep(s: System, w: nat, now: int, choice: Choice, report: J.Report)
    requires Ready(s, w, now, choice, report) && s.workers[w].phase.Establishing?
    ensures Advanced(s, AfterProceed(s, w, now, choice), w, now, report)
  {
    OwnerKnows(s, w, report);
    ProceedKeepsInv(s, w, now, choice);
    hide Inv;
  }

  /** With no event missing an owner's journal is complete. */
  lemma NothingMissing(s: System, w: nat, report: J.Report)
    requires Underway(s, w, report) && s.run.value.state == Terminal && |report.Payloads()| + 2 <= |s.journal|
    ensures Complete(s) && |s.journal| == |report.Payloads()| + 2
  {
    OwnerKnows(s, w, report);
  }

  lemma ComparingStep(s: System, w: nat, now: int, choice: Choice, report: J.Report)
    requires Ready(s, w, now, choice, report) && s.workers[w].phase.Projecting?
    ensures Advanced(s, AfterProceed(s, w, now, choice), w, now, report)
  {
    OwnerKnows(s, w, report);
    ProceedKeepsInv(s, w, now, choice);
    JournalAgrees(s.run.value, s.activeAt, s.journal);
    if |report.Payloads()| + 2 <= |s.journal| {
      NothingMissing(s, w, report);
    }
    hide Inv, RunInv, J.Agrees;
  }

  lemma JournalAgrees(run: Run, activeAt: Option<int>, journal: seq<J.Event>)
    requires RunInv(run, activeAt, journal) && run.state == Terminal
    ensures J.Agrees(journal, run.report.value) && 2 <= |journal| <= |run.report.value.Payloads()| + 2
  {
    assert journal == J.Canonical(run.createdAt, activeAt.value, run.report.value)[..|journal|];
  }

  /** The owner's next report event is the next canonical one, and it is accepted. */
  lemma Appends(s: System, w: nat, now: int, choice: Choice, report: J.Report) returns (event: J.Event)
    requires Ready(s, w, now, choice, report) && s.workers[w].phase.Appending?
    ensures var phase := s.workers[w].phase;
            && |s.journal| < |report.Payloads()| + 2 && s.run.value.state == Terminal
            && AfterProceed(s, w, now, choice)
               == s.(journal := s.journal + [event]).At(w, Rereading(phase.run, phase.resumed, phase.next + 1))
  {
    OwnerKnows(s, w, report);
    hide Inv;
    event := J.Event(|s.journal| + 1, report.updatedAt, report.Payloads()[|s.journal| - 2]);
    OwnedAppend(s.run.value, s.activeAt, s.journal);
    hide RunInv, J.DurableAppend, Current;
  }

  lemma AppendingStep(s: System, w: nat, now: int, choice: Choice, report: J.Report)
    requires Ready(s, w, now, choice, report) && s.workers[w].phase.Appending?
    ensures Advanced(s, AfterProceed(s, w, now, choice), w, now, report)
  {
    ProceedKeepsInv(s, w, now, choice);
    hide Inv, AfterProceed;
    var event := Appends(s, w, now, choice, report);
  }

  lemma RereadingStep(s: System, w: nat, now: int, choice: Choice, report: J.Report)
    requires Ready(s, w, now, choice, report) && s.workers[w].phase.Rereading?
    ensures Advanced(s, AfterProceed(s, w, now, choice), w, now, report)
  {
    OwnerKnows(s, w, report);
    ProceedKeepsInv(s, w, now, choice);
    JournalAgrees(s.run.value, s.activeAt, s.journal);
    if |report.Payloads()| + 2 <= |s.journal| {
      NothingMissing(s, w, report);
    }
    hide Inv, RunInv, J.Agrees;
  }

  lemma InRange(s: System, w: nat, report: J.Report)
    requires Underway(s, w, report)
    ensures w < |s.workers| && s.run.Some?
  {
  }

  /** Every step of an undisturbed owner brings it one step closer. */
  lemma OwnStep(s: System, w: nat, now: int, choice: Choice, report: J.Report)
    requires Ready(s, w, now, choice, report) && OnPath(s.workers[w].phase)
    ensures Advanced(s, AfterProceed(s, w, now, choice), w, now, report)
  {
    hide Advanced, Underway, AfterProceed;
    InRange(s, w, report);
    match s.workers[w].phase
    case Loading(_) => LoadingStep(s, w, now, choice, report);
    case AppendingCreated(_, _) => CreatedEventStep(s, w, now, choice, report);
    case Activating(_, _, _) => ActivatingStep(s, w, now, choice, report);
    case AppendingInvestigating(_, _) => InvestigatingEventStep(s, w, now, choice, report);
    case Deciding(_, _) => ExecutionStep(s, w, now, choice, report);
    case Executing(_) => ExecutionStep(s, w, now, choice, report);
    case Establishing(_, _) => EstablishingStep(s, w, now, choice, report);
    case Projecting(_, _) => ComparingStep(s, w, now, choice, report);
    case Appending(_, _, _, _) => AppendingStep(s, w, now, choice, report);
    case Rereading(_, _, _) => RereadingStep(s, w, now, choice, report);
    case _ => ReadingStep(s, w, now, choice, report);
  }

  // ---------- Everybody else ----------

  /** An action that is not the owner's own await, exception, release or crash. */
  predicate Elsewhere(w: nat, action: Action) {
    action.w != w || !(action.Proceed? || action.Raise? || action.Leave? || action.Crash?)
  }

  /** What the owner relies on is as before. */
  predicate Undisturbed(s: System, t: System, w: nat)
    requires w < |s.workers|
  {
    && |t.workers| == |s.workers| && t.workers[w].phase == s.workers[w].phase
    && t.run == s.run && t.journal == s.journal && t.activeAt == s.activeAt && t.strategy == s.strategy
  }

  /** A worker that does not own the lease stores nothing. */
  lemma OthersStoreNothing(s: System, v: nat, now: int, choice: Choice)
    requires v < |s.workers| && s.run.Some? && !s.Owns(v)
    ensures var t := AfterProceed(s, v, now, choice);
            && |t.workers| == |s.workers| && t.workers == s.workers[v := t.workers[v]]
            && t.run == s.run && t.journal == s.journal && t.activeAt == s.activeAt && t.strategy == s.strategy
  {
    OpeningMovesOne(s, v, now, choice);
    ClosingMovesOne(s, v, now, choice);
    if Opening(s.workers[v].phase) {
      OthersOpenNothing(s, v, now, choice);
    } else {
      OthersCloseNothing(s, v, now, choice);
    }
    hide ProceedOpening, ProceedClosing;
  }

  lemma OthersOpenNothing(s: System, v: nat, now: int, choice: Choice)
    requires v < |s.workers| && s.run.Some? && !s.Owns(v)
    ensures var t := ProceedOpening(s, v, now, choice);
            t.run == s.run && t.journal == s.journal && t.activeAt == s.activeAt && t.strategy == s.strategy
  {
    hide J.DurableAppend, J.ValidLifecyclePrefix, MarkActive, EstablishReport, AfterPrefixRead;
    match s.workers[v].phase
    case AppendingCreated(_, _) => assert !s.Fenced(v, now);
    case AppendingInvestigating(_, _) => assert !s.Fenced(v, now);
    case Activating(run, _, _) => assert !s.Fenced(v, Max(now, run.updatedAt));
    case Establishing(_, report) => assert !s.Fenced(v, Max(now, report.updatedAt));
    case _ =>
  }

  lemma OthersCloseNothing(s: System, v: nat, now: int, choice: Choice)
    requires v < |s.workers| && s.run.Some? && !s.Owns(v)
    ensures var t := ProceedClosing(s, v, now, choice);
            t.run == s.run && t.journal == s.journal && t.activeAt == s.activeAt && t.strategy == s.strategy
  {
    hide J.DurableAppend, J.Agrees, J.Accepted, RecordCleanup, RequireEscalation;
  }

  lemma TwoNeverOwn(s: System, v: nat, w: nat)
    requires Inv(s) && v < |s.workers| && w < |s.workers| && v != w && s.Owns(w)
    ensures !s.Owns(v)
  {
    assert WorkerInv(s, v) && WorkerInv(s, w);
  }

  /** Whatever else happens, as long as the owner still owns the lease afterwards. */
  lemma ElsewhereIsUndisturbed(s: System, w: nat, action: Action)
    requires Inv(s) && w < |s.workers| && s.run.Some? && s.Owns(w) && Elsewhere(w, action)
    requires !s.workers[w].phase.Idle? && !s.workers[w].phase.Acquiring?
    ensures Undisturbed(s, Next(s, action), w)
  {
    if action.w < |s.workers| && action.Proceed? {
      TwoNeverOwn(s, action.w, w);
      OthersStoreNothing(s, action.w, action.now, action.choice);
    }
    hide Inv, AfterProceed;
  }

  lemma ElsewhereKeepsUnderway(s: System, w: nat, action: Action, report: J.Report)
    requires Underway(s, w, report) && Elsewhere(w, action)
    requires w < |Next(s, action).workers| && Next(s, action).Owns(w)
    ensures Underway(Next(s, action), w, report) && Left(Next(s, action), w, report) == Left(s, w, report)
    ensures Next(s, action).run == s.run && Next(s, action).activeAt == s.activeAt
  {
    NextKeepsInv(s, action);
    assert WorkerInv(s, w);
    ElsewhereIsUndisturbed(s, w, action);
    hide Inv, Next;
  }

  // ---------- Undisturbed runs ----------

  /** A run in which worker `w` keeps the lease: its own steps are made under it, with the executor
      reporting `report`, and anything else may happen in between. */
  ghost predicate Steady(s: System, w: nat, report: J.Report, actions: seq<Action>)
    decreases actions
  {
    actions == [] || (
      && w < |s.workers| && s.run.Some?
      && (if actions[0].w == w && actions[0].Proceed? then
            HoldsAt(s, w, actions[0].now, report) && GoesOn(s, w, actions[0].choice, report)
          else
            Elsewhere(w, actions[0]) && w < |Next(s, actions[0]).workers| && Next(s, actions[0]).Owns(w))
      && Steady(Next(s, actions[0]), w, report, actions[1..]))
  }

  function OwnSteps(w: nat, actions: seq<Action>): nat {
    if actions == [] then 0
    else (if actions[0].w == w && actions[0].Proceed? then 1 else 0) + OwnSteps(w, actions[1..])
  }

  /** A complete journal stays as it is, over any run. */
  lemma CompleteForever(s: System, actions: seq<Action>)
    requires Inv(s) && Complete(s)
    ensures var t := Execute(s, actions);
            && Complete(t) && t.run.value.report == s.run.value.report && t.journal == s.journal
            && t.run.value.createdAt == s.run.value.createdAt && t.activeAt == s.activeAt
  {
    ReachableInv(s, actions);
    NothingStoredIsTakenBack(s, actions);
    var t := Execute(s, actions);
    assert StoreInv(t) && RunInv(t.run.value, t.activeAt, t.journal);
    assert |t.journal| == |s.journal| && t.journal == s.journal;
    assert s.journal[1].occurredAt == s.activeAt.value && t.journal[1].occurredAt == t.activeAt.value;
  }

  /** What a steady run comes to. */
  ghost predicate Completed(s: System, t: System, report: J.Report)
    requires s.run.Some?
  {
    && Complete(t) && t.run.value.report == Some(report) && t.run.value.createdAt == s.run.value.createdAt
    && (s.run.value.state != Created ==> t.activeAt == s.activeAt)
    && t.journal == J.Canonical(s.run.value.createdAt, t.activeAt.value, report)
  }

  lemma Arrived(s: System, w: nat, report: J.Report, actions: seq<Action>)
    requires Underway(s, w, report) && !OnPath(s.workers[w].phase)
    ensures Completed(s, Execute(s, actions), report)
  {
    CompleteForever(s, actions);
  }

  lemma LeftOnPath(s: System, w: nat, report: J.Report)
    requires Underway(s, w, report) && OnPath(s.workers[w].phase)
    ensures Left(s, w, report) > 0
  {
    OwnerKnows(s, w, report);
    hide Inv;
  }

  /** A worker that keeps the lease gets to the canonical journal of its report in as many own
      steps as `Left` says, whatever happens in between, and the journal then stays. */
  lemma {:induction false} SteadyRunCompletes(s: System, w: nat, report: J.Report, actions: seq<Action>)
    requires Underway(s, w, report) && Steady(s, w, report, actions)
    requires Left(s, w, report) <= OwnSteps(w, actions)
    ensures Completed(s, Execute(s, actions), report)
    decreases actions
  {
    hide Inv, Complete, Advanced, Completed, HoldsAt, AfterProceed;
    if !OnPath(s.workers[w].phase) {
      Arrived(s, w, report, actions);
    } else {
      LeftOnPath(s, w, report);
      var t := SteadyStep(s, w, report, actions[0], actions[1..]);
      SteadyRunCompletes(t, w, report, actions[1..]);
      CompletedLater(s, t, Execute(s, actions), w, report);
    }
  }

  lemma SteadyStep(s: System, w: nat, report: J.Report, action: Action, rest: seq<Action>) returns (t: System)
    requires Underway(s, w, report) && OnPath(s.workers[w].phase) && Steady(s, w, report, [action] + rest)
    ensures t == Next(s, action) && Underway(t, w, report) && Steady(t, w, report, rest) && Follows(s, t)
    ensures Left(s, w, report) == Left(t, w, report) + if action.w == w && action.Proceed? then 1 else 0
  {
    t := Next(s, action);
    assert ([action] + rest)[0] == action && ([action] + rest)[1..] == rest;
    if action.w == w && action.Proceed? {
      OwnStep(s, w, action.now, action.choice, report);
    } else {
      ElsewhereKeepsUnderway(s, w, action, report);
    }
    hide Inv, AfterProceed, Underway;
  }

  /** What one step of a steady run keeps for the rest of it. */
  predicate Follows(s: System, t: System) {
    && s.run.Some? && t.run.Some? && t.run.value.createdAt == s.run.value.createdAt
    && (s.run.value.state != Created ==> t.run.value.state != Created && t.activeAt == s.activeAt)
  }

  lemma CompletedLater(s: System, t: System, u: System, w: nat, report: J.Report)
    requires Follows(s, t) && Completed(t, u, report)
    ensures Completed(s, u, report)
  {
  }

  // ---------- First, resumed and finishing runs ----------

  /** Worker `w` creates the run and takes the lease. */
  function CreatedRun(strategy: Strategy, hasCleanup: bool, workers: nat, w: nat, createdAt: int, now: int): System {
    Execute(Initial(strategy, hasCleanup, workers), [Create(w, createdAt, true), Acquire(w, now)])
  }

  /** Worker `w` dies, is started again and takes the lease. */
  function Restarted(s: System, w: nat, now: int): System {
    Execute(s, [Crash(w), Start(w), Acquire(w, now)])
  }

  lemma CreatedRunIsUnderway(
    strategy: Strategy, hasCleanup: bool, workers: nat, w: nat, createdAt: int, now: int, report: J.Report)
    requires w < workers && report.WellFormed()
    ensures var s := CreatedRun(strategy, hasCleanup, workers, w, createdAt, now);
            && Underway(s, w, report) && s.run == Some(Run(Created, createdAt, createdAt, None, NotRequested))
            && s.activeAt.None? && s.lease.held == Some(L.Token(w, 1, now, now))
            && Left(s, w, report) == 2 * |report.Payloads()| + 10
            && s.workers[w].phase == Loading(false)
  {
    var initial := Initial(strategy, hasCleanup, workers);
    var created := Next(initial, Create(w, createdAt, true));
    var acquired := Next(created, Acquire(w, now));
    assert Execute(initial, [Create(w, createdAt, true), Acquire(w, now)])
        == Execute(created, [Acquire(w, now)]) == Execute(acquired, []);
    ReachableInv(initial, [Create(w, createdAt, true), Acquire(w, now)]);
    hide Inv;
  }

  /** A run that recovery can complete with `report`: it has that report already, or none and an
      executor that may be run again; and the lease is free. */
  predicate Recoverable(s: System, w: nat, now: int, report: J.Report) {
    && w < |s.workers| && s.run.Some? && report.WellFormed() && s.run.value.state != EscalationRequired
    && (s.run.value.report.Some? ==> s.run.value.report.value == report)
    && (s.run.value.state == Terminal || s.strategy == Fixed)
    && (s.lease.held.Some? ==> s.lease.held.value.Expired(now))
  }

  /** Worker `w` keeps the lease for as many steps as it needs. */
  ghost predicate RunsThrough(s: System, w: nat, report: J.Report, actions: seq<Action>) {
    && w < |s.workers| && s.run.Some?
    && Steady(s, w, report, actions) && Left(s, w, report) <= OwnSteps(w, actions)
  }

  /** Crashing, starting and acquiring leave what is stored alone. */
  lemma RestartedLoads(s: System, w: nat, now: int)
    requires w < |s.workers| && s.run.Some? && s.run.value.state != EscalationRequired
    requires s.lease.held.Some? ==> s.lease.held.value.Expired(now)
    ensures var t := Restarted(s, w, now);
            && t.run == s.run && t.activeAt == s.activeAt && t.journal == s.journal && t.strategy == s.strategy
            && |t.workers| == |s.workers| && t.workers[w].phase == Loading(true)
            && t.workers[w].token == t.lease.held == Some(L.Token(w, t.lease.fence, now, now))
  {
    var crashed := Next(s, Crash(w));
    var started := Next(crashed, Start(w));
    assert started.workers[w] == Worker(None, Acquiring(true)) && started.lease == s.lease;
    assert Execute(s, [Crash(w), Start(w), Acquire(w, now)]) == Execute(crashed, [Start(w), Acquire(w, now)])
        == Execute(started, [Acquire(w, now)]) == Execute(Next(started, Acquire(w, now)), []);
  }

  lemma RestartedIsUnderway(s: System, w: nat, now: int, report: J.Report)
    requires Inv(s) && Recoverable(s, w, now, report)
    ensures var t := Restarted(s, w, now);
            && Underway(t, w, report) && t.run == s.run && t.activeAt == s.activeAt && t.journal == s.journal
            && t.strategy == s.strategy && t.workers[w].phase == Loading(true)
            && t.lease.held == Some(L.Token(w, t.lease.fence, now, now))
  {
    ReachableInv(s, [Crash(w), Start(w), Acquire(w, now)]);
    RestartedLoads(s, w, now);
    hide Inv, Execute;
  }

  /** The worker that creates a run and is not interrupted ends with the canonical journal of what
      its executor reports, whatever the strategy. */
  lemma UninterruptedRunCompletes(
    strategy: Strategy, hasCleanup: bool, workers: nat, w: nat, createdAt: int, now: int, report: J.Report,
    actions: seq<Action>)
    requires w < workers && report.WellFormed()
    requires RunsThrough(CreatedRun(strategy, hasCleanup, workers, w, createdAt, now), w, report, actions)
    ensures Completed(CreatedRun(strategy, hasCleanup, workers, w, createdAt, now),
                      Execute(CreatedRun(strategy, hasCleanup, workers, w, createdAt, now), actions), report)
  {
    CreatedRunIsUnderway(strategy, hasCleanup, workers, w, createdAt, now, report);
    hide Inv, Completed, CreatedRun;
    SteadyRunCompletes(CreatedRun(strategy, hasCleanup, workers, w, createdAt, now), w, report, actions);
  }

  /** However a run was interrupted, and whether it was created, active or reported, a worker that
      is restarted once the lease is free and keeps it ends with the canonical journal; before
      there is a report that takes a run that may be executed again. */
  lemma RecoveredRunCompletes(
    strategy: Strategy, hasCleanup: bool, workers: nat, before: seq<Action>, w: nat, now: int, report: J.Report,
    actions: seq<Action>)
    requires Recoverable(Reached(strategy, hasCleanup, workers, before), w, now, report)
    requires RunsThrough(Restarted(Reached(strategy, hasCleanup, workers, before), w, now), w, report, actions)
    ensures var s := Reached(strategy, hasCleanup, workers, before);
            Completed(s, Execute(Restarted(s, w, now), actions), report)
  {
    var s := Reached(strategy, hasCleanup, workers, before);
    ReachedInv(strategy, hasCleanup, workers, before);
    RestartedIsUnderway(s, w, now, report);
    hide Inv, Restarted;
    SteadyRunCompletes(Restarted(s, w, now), w, report, actions);
  }

  /** A recovered run ends with exactly the journal of an uninterrupted one that was created and
      activated at the same times and reported the same. */
  lemma RecoveredEndsAsUninterrupted(
    strategy: Strategy, hasCleanup: bool, workers: nat, before: seq<Action>, w: nat, now: int, report: J.Report,
    actions: seq<Action>, v: nat, leasedAt: int, undisturbed: seq<Action>)
    requires Recoverable(Reached(strategy, hasCleanup, workers, before), w, now, report) && v < workers
    requires RunsThrough(Restarted(Reached(strategy, hasCleanup, workers, before), w, now), w, report, actions)
    requires var createdAt := Reached(strategy, hasCleanup, workers, before).run.value.createdAt;
             RunsThrough(CreatedRun(strategy, hasCleanup, workers, v, createdAt, leasedAt), v, report, undisturbed)
    ensures var s := Reached(strategy, hasCleanup, workers, before);
            var recovered := Execute(Restarted(s, w, now), actions);
            var created := CreatedRun(strategy, hasCleanup, workers, v, s.run.value.createdAt, leasedAt);
            var first := Execute(created, undisturbed);
            recovered.activeAt == first.activeAt ==> recovered.journal == first.journal
  {
    var createdAt := Reached(strategy, hasCleanup, workers, before).run.value.createdAt;
    RecoveredRunCompletes(strategy, hasCleanup, workers, before, w, now, report, actions);
    UninterruptedRunCompletes(strategy, hasCleanup, workers, v, createdAt, leasedAt, report, undisturbed);
    CreatedRunIsUnderway(strategy, hasCleanup, workers, v, createdAt, leasedAt, report);
    hide Inv, Restarted, Reached, CreatedRun, Underway, RunsThrough;
  }

  // ---------- Such runs exist ----------

  /** Worker `w` takes `n` steps at one clock reading. */
  function Proceeding(w: nat, now: int, report: J.Report, n: nat): seq<Action> {
    if n == 0 then [] else [Proceed(w, now, Choice(false, Reported(report), false))] + Proceeding(w, now, report, n - 1)
  }

  /** The report is stamped no earlier than the run it completes is activated. */
  predicate Timely(s: System, now: int, report: J.Report)
    requires s.run.Some?
  {
    && (s.run.value.state == Created ==> now <= report.updatedAt)
    && (s.run.value.state != Terminal ==> s.run.value.updatedAt <= report.updatedAt)
  }

  lemma ProceedingStep(s: System, w: nat, now: int, report: J.Report, choice: Choice) returns (t: System)
    requires Underway(s, w, report) && HoldsAt(s, w, now, report) && Timely(s, now, report)
    requires choice == Choice(false, Reported(report), false) && Left(s, w, report) > 0
    ensures t == Next(s, Proceed(w, now, choice)) && GoesOn(s, w, choice, report)
    ensures Underway(t, w, report) && HoldsAt(t, w, now, report) && Timely(t, now, report)
    ensures Left(t, w, report) + 1 == Left(s, w, report)
  {
    OwnerKnows(s, w, report);
    hide Inv, AfterProceed, RunInv, Complete;
    OwnStep(s, w, now, choice, report);
    t := AfterProceed(s, w, now, choice);
  }

  lemma {:induction false} ProceedingIsSteady(s: System, w: nat, now: int, report: J.Report, n: nat)
    requires Underway(s, w, report) && HoldsAt(s, w, now, report) && Timely(s, now, report)
    requires n <= Left(s, w, report)
    ensures Steady(s, w, report, Proceeding(w, now, report, n))
    ensures OwnSteps(w, Proceeding(w, now, report, n)) == n
    decreases n
  {
    InRange(s, w, report);
    hide Next, Underway, Left, Timely, GoesOn;
    if n > 0 {
      var choice := Choice(false, Reported(report), false);
      var t := ProceedingStep(s, w, now, report, choice);
      ProceedingIsSteady(t, w, now, report, n - 1);
      var actions := Proceeding(w, now, report, n);
      assert actions[0] == Proceed(w, now, choice) && actions[1..] == Proceeding(w, now, report, n - 1);
    }
  }

  /** From any reachable state that is created, active or reported, however its workers were
      interrupted, a worker that is restarted once the lease is free, proceeds at one clock reading
      and gets its report within the lease completes the journal. */
  lemma RecoveredRunIsComplete(
    strategy: Strategy, hasCleanup: bool, workers: nat, before: seq<Action>, w: nat, now: int, report: J.Report)
    requires var s := Reached(strategy, hasCleanup, workers, before);
             && Recoverable(s, w, now, report)
             && Timely(s, now, report) && report.updatedAt < now + L.LEASE_DURATION
    ensures var s := Reached(strategy, hasCleanup, workers, before);
            var t := Restarted(s, w, now);
            && w < |t.workers| && t.run.Some?
            && Completed(s, Execute(t, Proceeding(w, now, report, Left(t, w, report))), report)
  {
    var s := Reached(strategy, hasCleanup, workers, before);
    ReachedInv(strategy, hasCleanup, workers, before);
    RestartedIsUnderway(s, w, now, report);
    hide Inv, Restarted, Underway;
    InRange(Restarted(s, w, now), w, report);
    ProceedingFrom(Restarted(s, w, now), w, now, report);
  }

  lemma ProceedingFrom(s: System, w: nat, now: int, report: J.Report)
    requires Underway(s, w, report) && Timely(s, now, report) && report.updatedAt < now + L.LEASE_DURATION
    requires s.lease.held == Some(L.Token(w, s.lease.fence, now, now))
    ensures Completed(s, Execute(s, Proceeding(w, now, report, Left(s, w, report))), report)
  {
    hide Inv;
    ProceedingIsSteady(s, w, now, report, Left(s, w, report));
    SteadyRunCompletes(s, w, report, Proceeding(w, now, report, Left(s, w, report)));
  }

  /** So does the worker that creates a run. */
  lemma UninterruptedRunIsComplete(
    strategy: Strategy, hasCleanup: bool, workers: nat, w: nat, createdAt: int, now: int, report: J.Report)
    requires w < workers && report.WellFormed()
    requires createdAt <= report.updatedAt && now <= report.updatedAt < now + L.LEASE_DURATION
    ensures var s := CreatedRun(strategy, hasCleanup, workers, w, createdAt, now);
            var t := Execute(s, Proceeding(w, now, report, 2 * |report.Payloads()| + 10));
            s.run.Some? && s.run.value.createdAt == createdAt && Completed(s, t, report)
  {
    CreatedRunIsUnderway(strategy, hasCleanup, workers, w, createdAt, now, report);
    hide Inv, CreatedRun;
    ProceedingFrom(CreatedRun(strategy, hasCleanup, workers, w, createdAt, now), w, now, report);
  }
}
