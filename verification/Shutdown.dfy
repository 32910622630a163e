/** The in-memory service as a whole: the tasks it started, readers that come at any time, and a
    shutdown that cancels the tasks, joins them and finishes every owned investigation. Tasks
    and the closing caller may be cancelled at each of their awaits. */
module Shutdown {
  import opened Wrappers
  import J = Journal
  import M = MemoryService

  /** The engine's action gates on no evidence. */
  type Gates = gates: seq<bool> | |gates| == J.REQUESTED_ACTIONS
    witness seq(J.REQUESTED_ACTIONS, i => false)

  /** More effects than any section has. */
  const UNCUT: nat := J.MAX_EVENTS + 3

  /** A task's next await: its body not yet entered, marking, the executor, the finish with the
      executor's candidate, and the finish without one that every exception leads to. */
  datatype Phase = Scheduled | Marking | Executing | Finishing(candidate: M.Candidate) | Rescuing

  /** `cancelled` is a cancellation that was requested and has not been delivered yet. */
  datatype Task = Task(phase: Phase, cancelled: bool) {
    /** How many effects a section of the task gets to make: all, unless it is being cancelled. */
    function Reach(fuel: nat): nat { if cancelled then fuel else UNCUT }
  }

  /** Where the first call of `aclose` stands: joining the tasks it cancelled, finishing what
      they owned one by one, returned, or cancelled itself. Every later call returns at once. */
  datatype Closer = Open | Joining(active: seq<nat>) | Finalizing(rest: seq<nat>) | Returned | CutOff

  /** `abandoned` is history: the investigations whose task was cancelled before it entered its
      body or inside its last finish, until the shutdown or a reader completes them. */
  datatype Service = Service(
    states: map<nat, M.State>, tasks: map<nat, Task>, closer: Closer, abandoned: set<nat>)
  {
    function With(id: nat, state: M.State): Service {
      this.(states := states[id := state])
    }

    function Enter(id: nat, state: M.State, task: Task): Service {
      With(id, state).(tasks := tasks[id := task])
    }

    function Leave(id: nat, state: M.State): Service {
      With(id, state).(tasks := tasks - {id})
    }
  }

  const INITIAL := Service(map[], map[], Open, {})

  /** How the executor ends: with a candidate or with an exception, having noticed a pending
      cancellation or not. */
  datatype Execution = Execution(candidate: Option<M.Candidate>, noticed: bool)

  datatype Action =
    | Create(id: nat, limits: M.Limits, now: int, fuel: nat)
    | Late(id: nat, createdAt: int)
    | Read(id: nat, fuel: nat)
    | Proceed(id: nat, now: int, fuel: nat, execution: Execution, gates: Gates)
    | Close(order: seq<nat>)
    | Joined
    | FinishNext(now: int, gates: Gates, cut: Option<nat>)
    | CancelClose

  // ---------- Steps ----------

  /** Whether a `create` gets as far as an investigation that is not over. */
  predicate Unfinished(x: M.Section) {
    x.outcome.Done? && x.state.record.Some? && x.state.record.value.revision < 2
  }

  /** `create` is refused after a shutdown began, and starts at most one task at a time. */
  function AfterCreate(s: Service, id: nat, limits: M.Limits, now: int, fuel: nat): Service {
    var state := if id in s.states then s.states[id] else M.Fresh(limits);
    if !s.closer.Open? then s
    else if Unfinished(M.CreateSection(state, now, fuel)) && id !in s.tasks then
      s.Enter(id, M.Created(state, now, fuel), Task(Scheduled, false))
    else s.With(id, M.Created(state, now, fuel))
  }

  predicate Projected(x: M.Section) {
    x.outcome.Done? && x.state.record.Some? && x.state.record.value.revision == 2
  }

  /** A reader projects an established report as far as it gets. */
  function AfterRead(s: Service, id: nat, fuel: nat): Service
    requires id in s.states
  {
    var x := M.GetSection(s.states[id], fuel);
    var t := s.With(id, x.state);
    if Projected(x) then t.(abandoned := s.abandoned - {id}) else t
  }

  /** The finish with the candidate; any exception leads on to the finish without one. */
  function AfterFinishing(s: Service, id: nat, x: M.Section): Service
    requires id in s.tasks
  {
    match x.outcome
    case Done => s.Leave(id, x.state)
    case Cut => s.Enter(id, x.state, Task(Rescuing, false))
    case Raised => s.Enter(id, x.state, s.tasks[id].(phase := Rescuing))
  }

  /** The last finish: nothing catches what ends it. */
  function AfterRescuing(s: Service, id: nat, x: M.Section): Service {
    if x.outcome.Done? then s.Leave(id, x.state) else s.Leave(id, x.state).(abandoned := s.abandoned + {id})
  }

  function AfterProceed(s: Service, id: nat, now: int, fuel: nat, execution: Execution, gates: Gates): Service
    requires id in s.tasks && id in s.states
  {
    var task, state := s.tasks[id], s.states[id];
    match task.phase
    case Scheduled =>
      if task.cancelled then s.Leave(id, state).(abandoned := s.abandoned + {id})
      else s.Enter(id, state, task.(phase := Marking))
    case Marking =>
      var x := M.MarkSection(state, now, task.Reach(fuel));
      s.Enter(id, x.state, if x.outcome.Done? then task.(phase := Executing) else Task(Rescuing, false))
    case Executing =>
      var next := match execution.candidate
        case None => Rescuing
        case Some(candidate) => Finishing(candidate);
      s.Enter(id, state, Task(next, task.cancelled && !execution.noticed))
    case Finishing(candidate) => AfterFinishing(s, id, M.FinishSection(state, candidate, now, task.Reach(fuel)))
    case Rescuing => AfterRescuing(s, id, M.FinishSection(state, M.NoCandidate(gates), now, task.Reach(fuel)))
  }

  function Cancelled(tasks: map<nat, Task>): map<nat, Task> {
    map id | id in tasks :: tasks[id].(cancelled := true)
  }

  /** `order` is the order in which the service happens to list its tasks. */
  function AfterClose(s: Service, order: seq<nat>): Service {
    if !s.closer.Open? || (set id <- order) != s.tasks.Keys then s
    else s.(tasks := Cancelled(s.tasks), closer := if order == [] then Returned else Joining(order))
  }

  function AfterJoined(s: Service): Service {
    if s.closer.Joining? && forall id <- s.closer.active :: id !in s.tasks then
      s.(closer := Finalizing(s.closer.active))
    else s
  }

  /** One round of the closing loop; `cut` is how many effects it makes before its caller is
      cancelled. */
  function AfterFinishNext(s: Service, now: int, gates: Gates, cut: Option<nat>): Service {
    if !s.closer.Finalizing? || s.closer.rest == [] || s.closer.rest[0] !in s.states then s
    else
      var id := s.closer.rest[0];
      var x := M.FinishSection(s.states[id], M.NoCandidate(gates), now, if cut.Some? then cut.value else UNCUT);
      if x.outcome.Done? then
        s.With(id, x.state).(closer := if |s.closer.rest| == 1 then Returned else Finalizing(s.closer.rest[1..]),
                             abandoned := s.abandoned - {id})
      else s.With(id, x.state).(closer := CutOff)
  }

  /** A caller cancelled while it joins cancels the tasks it waits for once more. */
  function AfterCancelClose(s: Service): Service {
    match s.closer
    case Joining(_) => s.(tasks := Cancelled(s.tasks), closer := CutOff)
    case Finalizing(_) => s.(closer := CutOff)
    case _ => s
  }

  function Next(s: Service, action: Action): Service {
    match action
    case Create(id, limits, now, fuel) => AfterCreate(s, id, limits, now, fuel)
    case Late(id, createdAt) => if id in s.states then s.With(id, M.LateCreated(s.states[id], createdAt)) else s
    case Read(id, fuel) => if id in s.states then AfterRead(s, id, fuel) else s
    case Proceed(id, now, fuel, execution, gates) =>
      if id in s.tasks && id in s.states then AfterProceed(s, id, now, fuel, execution, gates) else s
    case Close(order) => AfterClose(s, order)
    case Joined => AfterJoined(s)
    case FinishNext(now, gates, cut) => AfterFinishNext(s, now, gates, cut)
    case CancelClose => AfterCancelClose(s)
  }

  function Run(s: Service, actions: seq<Action>): Service
    decreases actions
  {
    if actions == [] then s else Run(Next(s, actions[0]), actions[1..])
  }

  // ---------- What every reachable state satisfies ----------

  predicate Early(state: M.State) {
    state.record.Some? && state.record.value.revision < 2
  }

  /** An owned investigation without a task is complete, unless its task was cut short. */
  ghost predicate IdInv(s: Service, id: nat)
    requires id in s.states
  {
    var state := s.states[id];
    && M.Inv(state)
    && (id in s.tasks ==>
          && state.owned && id !in s.abandoned
          && (s.tasks[id].phase.Scheduled? ==> Early(state))
          && (s.tasks[id].cancelled ==> !s.closer.Open?))
    && (id in s.abandoned ==> state.owned)
    && (state.owned && id !in s.tasks ==> (M.Complete(state) <==> id !in s.abandoned))
  }

  /** While the shutdown is under way, only what it still has to finish can be abandoned. */
  ghost predicate CloserInv(s: Service) {
    match s.closer
    case Open => s.abandoned == {}
    case Joining(active) =>
      && active != [] && (forall id <- s.tasks :: id in active) && (forall id <- s.abandoned :: id in active)
      && forall id <- active :: id in s.states && s.states[id].owned
    case Finalizing(rest) =>
      && rest != [] && s.tasks == map[] && (forall id <- s.abandoned :: id in rest)
      && forall id <- rest :: id in s.states && s.states[id].owned
    case Returned => s.tasks == map[] && s.abandoned == {}
    case CutOff => true
  }

  ghost predicate Inv(s: Service) {
    && s.tasks.Keys <= s.states.Keys && s.abandoned <= s.states.Keys
    && (forall id <- s.states :: IdInv(s, id))
    && CloserInv(s)
  }

  // ---------- Sections, as seen from the service ----------

  lemma CompleteStays(state: M.State, after: M.State)
    requires M.Complete(state) && M.Extends(state, after) && M.Inv(after)
    ensures M.Complete(after)
  {
  }

  lemma ReadSection(state: M.State, fuel: nat)
    requires M.Inv(state)
    ensures var x := M.GetSection(state, fuel);
            && M.Inv(x.state) && x.state.owned == state.owned && M.Extends(state, x.state)
            && (Early(state) ==> x.state == state)
            && (M.Complete(x.state) <==>
                  M.Complete(state) || Projected(x))
  {
    M.GetKeepsInv(state, fuel);
    if M.Complete(state) {
      CompleteStays(state, M.GetSection(state, fuel).state);
    }
    ProjectKeepsOwner(M.Section(state, fuel, M.Done));
  }

  lemma {:induction false} AppendKeepsOwner(x: M.Section, report: J.Report)
    requires 2 <= |x.state.journal|
    ensures M.AppendMissing(x, report).state.owned == x.state.owned
    decreases |report.Payloads()| + 2 - |x.state.journal|
  {
    var next := |x.state.journal| - 2;
    if next < |report.Payloads()| && x.outcome.Done? {
      var y := M.AppendEffect(x, J.Event(next + 3, report.updatedAt, report.Payloads()[next]));
      if |y.state.journal| == |x.state.journal| + 1 {
        AppendKeepsOwner(y, report);
      }
    }
  }

  lemma ProjectKeepsOwner(x: M.Section)
    ensures M.Project(x).state.owned == x.state.owned
  {
    if x.outcome.Done? && x.state.record.Some? && x.state.record.value.report.Some? && 2 <= |x.state.journal| {
      AppendKeepsOwner(x, x.state.record.value.report.value);
    }
  }

  lemma LateSection(state: M.State, createdAt: int)
    requires M.Inv(state)
    ensures var after := M.LateCreated(state, createdAt);
            && M.Inv(after) && after.owned == state.owned && after.record == state.record
            && (state.owned ==> after == state)
  {
    M.NextKeepsInv(state, M.Late(createdAt));
  }

  lemma CreateKeepsOwner(state: M.State, now: int, fuel: nat)
    requires M.Inv(state)
    ensures var x := M.CreateSection(state, now, fuel);
            x.state.owned == state.owned && (Early(state) ==> Early(x.state))
  {
    var stored := if state.record.None? then
                    M.Effect(M.Section(state, fuel, M.Done), state.(record := Some(M.Record(0, now, now, None))))
                  else M.Section(state, fuel, M.Done);
    if stored.outcome.Done? {
      var record := stored.state.record.value;
      M.EnsureCreatedKeepsInv(stored, record);
      ProjectKeepsOwner(M.EnsureCreated(stored, record));
    }
  }

  lemma CreateSection(state: M.State, now: int, fuel: nat)
    requires M.Inv(state)
    ensures var after := M.Created(state, now, fuel);
            && M.Inv(after) && M.Extends(state, after)
            && (Early(state) ==> Early(after))
            && (Unfinished(M.CreateSection(state, now, fuel)) ==> after.owned && Early(after))
            && (after.owned ==> state.owned || Unfinished(M.CreateSection(state, now, fuel)))
            && (M.Complete(state) ==> !Unfinished(M.CreateSection(state, now, fuel)) && M.Complete(after))
  {
    M.NextKeepsInv(state, M.Create(now, fuel));
    M.CreateKeepsInv(state, now, fuel);
    CreateKeepsOwner(state, now, fuel);
    if M.Complete(state) {
      CompleteStays(state, M.Created(state, now, fuel));
    }
  }

  lemma FinishSection(state: M.State, candidate: M.Candidate, now: int, fuel: nat)
    requires M.Inv(state) && state.owned
    ensures var x := M.FinishSection(state, candidate, now, fuel);
            && M.Inv(x.state) && x.state.owned && M.Extends(state, x.state)
            && (x.outcome.Done? <==> M.Complete(x.state))
  {
    M.FinishKeepsInv(state, candidate, now, fuel);
  }

  /** A finish without a candidate that nobody cuts completes the investigation. */
  lemma UncutFinishCompletes(state: M.State, gates: Gates, now: int)
    requires M.Inv(state) && state.owned
    ensures M.FinishSection(state, M.NoCandidate(gates), now, UNCUT).outcome.Done?
  {
    M.FinishKeepsInv(state, M.NoCandidate(gates), now, UNCUT);
  }

  // ---------- Every step keeps the invariant ----------

  /** A step on one investigation leaves the others alone. */
  lemma StepKeepsInv(s: Service, t: Service, id: nat)
    requires Inv(s) && id in t.states && t.states.Keys == s.states.Keys + {id}
    requires t.tasks - {id} == s.tasks - {id} && t.abandoned - {id} == s.abandoned - {id}
    requires t.states - {id} == s.states - {id}
    requires !s.closer.Open? ==> !t.closer.Open?
    requires IdInv(t, id) && CloserInv(t)
    ensures Inv(t)
  {
    forall other <- t.tasks
      ensures other in t.states
    {
      assert other != id ==> other in s.tasks - {id};
    }
    forall other <- t.abandoned
      ensures other in t.states
    {
      assert other != id ==> other in s.abandoned - {id};
    }
    forall other <- t.states
      ensures IdInv(t, other)
    {
      if other != id {
        SameElsewhere(s, t, id, other);
      }
    }
  }

  lemma SameElsewhere(s: Service, t: Service, id: nat, other: nat)
    requires other != id && other in t.states && t.states.Keys == s.states.Keys + {id}
    requires t.tasks - {id} == s.tasks - {id} && t.abandoned - {id} == s.abandoned - {id}
    requires t.states - {id} == s.states - {id}
    ensures other in s.states && t.states[other] == s.states[other]
    ensures (other in t.tasks <==> other in s.tasks) && (other in t.tasks ==> t.tasks[other] == s.tasks[other])
    ensures other in t.abandoned <==> other in s.abandoned
  {
    assert other in t.states - {id} && (t.states - {id})[other] == t.states[other];
    assert other in s.states && (s.states - {id})[other] == s.states[other];
    assert other in t.tasks <==> other in t.tasks - {id};
    assert other in s.tasks <==> other in s.tasks - {id};
    assert other in t.tasks ==> (t.tasks - {id})[other] == t.tasks[other];
    assert other in s.tasks ==> (s.tasks - {id})[other] == s.tasks[other];
    assert other in t.abandoned <==> other in t.abandoned - {id};
    assert other in s.abandoned <==> other in s.abandoned - {id};
  }

  lemma UpdateKeepsInv(s: Service, id: nat, state: M.State, abandoned: set<nat>)
    requires Inv(s) && M.Inv(state) && abandoned in {s.abandoned, s.abandoned - {id}}
    requires if id in s.states then state.owned == s.states[id].owned && (Early(s.states[id]) ==> Early(state))
             else !state.owned
    requires state.owned && id !in s.tasks ==> (M.Complete(state) <==> id !in abandoned)
    ensures Inv(s.With(id, state).(abandoned := abandoned))
  {
    hide M.Inv, M.Complete;
    assert id in s.states ==> IdInv(s, id);
    StepKeepsInv(s, s.With(id, state).(abandoned := abandoned), id);
  }

  lemma EnterKeepsInv(s: Service, id: nat, state: M.State, task: Task)
    requires Inv(s) && M.Inv(state) && state.owned && id !in s.abandoned
    requires s.closer.Open? || id in s.tasks
    requires (task.phase.Scheduled? ==> Early(state)) && (task.cancelled ==> !s.closer.Open?)
    ensures Inv(s.Enter(id, state, task))
  {
    hide M.Inv, M.Complete;
    StepKeepsInv(s, s.Enter(id, state, task), id);
  }

  lemma LeaveKeepsInv(s: Service, id: nat, state: M.State)
    requires Inv(s) && id in s.tasks && M.Inv(state) && state.owned && M.Complete(state)
    ensures Inv(s.Leave(id, state))
  {
    hide M.Inv, M.Complete;
    assert IdInv(s, id);
    StepKeepsInv(s, s.Leave(id, state), id);
  }

  lemma AbandonKeepsInv(s: Service, id: nat, state: M.State)
    requires Inv(s) && id in s.tasks && !s.closer.Open? && M.Inv(state) && state.owned && !M.Complete(state)
    ensures Inv(s.Leave(id, state).(abandoned := s.abandoned + {id}))
  {
    hide M.Inv, M.Complete;
    assert IdInv(s, id);
    StepKeepsInv(s, s.Leave(id, state).(abandoned := s.abandoned + {id}), id);
  }

  lemma CreateKeepsInv(s: Service, id: nat, limits: M.Limits, now: int, fuel: nat)
    requires Inv(s)
    ensures Inv(AfterCreate(s, id, limits, now, fuel))
  {
    hide M.CreateSection, M.Created, M.Complete, M.Extends;
    var state := if id in s.states then s.states[id] else M.Fresh(limits);
    if s.closer.Open? {
      assert id in s.states ==> IdInv(s, id);
      CreateSection(state, now, fuel);
      if Unfinished(M.CreateSection(state, now, fuel)) && id !in s.tasks {
        EnterKeepsInv(s, id, M.Created(state, now, fuel), Task(Scheduled, false));
      } else {
        UpdateKeepsInv(s, id, M.Created(state, now, fuel), s.abandoned);
      }
    }
  }

  lemma LateKeepsInv(s: Service, id: nat, createdAt: int)
    requires Inv(s) && id in s.states
    ensures Inv(s.With(id, M.LateCreated(s.states[id], createdAt)))
  {
    hide M.LateCreated, M.Inv, M.Complete;
    assert IdInv(s, id);
    LateSection(s.states[id], createdAt);
    UpdateKeepsInv(s, id, M.LateCreated(s.states[id], createdAt), s.abandoned);
  }

  lemma ReadKeepsInv(s: Service, id: nat, fuel: nat)
    requires Inv(s) && id in s.states
    ensures Inv(AfterRead(s, id, fuel))
  {
    hide M.GetSection, M.Inv, M.Complete;
    assert IdInv(s, id);
    ReadSection(s.states[id], fuel);
    var x := M.GetSection(s.states[id], fuel);
    UpdateKeepsInv(s, id, x.state, if Projected(x) then s.abandoned - {id} else s.abandoned);
  }

  lemma ProceedKeepsInv(s: Service, id: nat, now: int, fuel: nat, execution: Execution, gates: Gates)
    requires Inv(s) && id in s.tasks && id in s.states
    ensures Inv(AfterProceed(s, id, now, fuel, execution, gates))
  {
    hide M.MarkSection, M.FinishSection, M.Inv, M.Complete;
    assert IdInv(s, id);
    var task, state := s.tasks[id], s.states[id];
    match task.phase
    case Scheduled => ScheduledKeepsInv(s, id);
    case Marking => MarkingKeepsInv(s, id, now, fuel);
    case Executing =>
      var next := match execution.candidate
        case None => Rescuing
        case Some(candidate) => Finishing(candidate);
      EnterKeepsInv(s, id, state, Task(next, task.cancelled && !execution.noticed));
    case Finishing(candidate) => FinishingKeepsInv(s, id, candidate, now, task.Reach(fuel));
    case Rescuing => RescueKeepsInv(s, id, now, task.Reach(fuel), gates);
  }

  lemma ScheduledKeepsInv(s: Service, id: nat)
    requires Inv(s) && id in s.tasks && id in s.states && s.tasks[id].phase.Scheduled?
    ensures if s.tasks[id].cancelled then Inv(s.Leave(id, s.states[id]).(abandoned := s.abandoned + {id}))
            else Inv(s.Enter(id, s.states[id], s.tasks[id].(phase := Marking)))
  {
    assert IdInv(s, id);
    if s.tasks[id].cancelled {
      AbandonKeepsInv(s, id, s.states[id]);
    } else {
      EnterKeepsInv(s, id, s.states[id], s.tasks[id].(phase := Marking));
    }
  }

  lemma MarkingKeepsInv(s: Service, id: nat, now: int, fuel: nat)
    requires Inv(s) && id in s.tasks && id in s.states
    ensures var task := s.tasks[id];
            var x := M.MarkSection(s.states[id], now, task.Reach(fuel));
            && Inv(s.Enter(id, x.state, task.(phase := Executing))) && Inv(s.Enter(id, x.state, Task(Rescuing, false)))
  {
    hide M.MarkSection, M.Inv, M.Complete;
    assert IdInv(s, id);
    var task := s.tasks[id];
    MarkSection(s.states[id], now, task.Reach(fuel));
    var x := M.MarkSection(s.states[id], now, task.Reach(fuel));
    EnterKeepsInv(s, id, x.state, task.(phase := Executing));
    EnterKeepsInv(s, id, x.state, Task(Rescuing, false));
  }

  lemma MarkSection(state: M.State, now: int, fuel: nat)
    requires M.Inv(state) && state.owned
    ensures var x := M.MarkSection(state, now, fuel);
            M.Inv(x.state) && x.state.owned
  {
    M.EnsureInvestigatingKeepsInv(M.Section(state, fuel, M.Done), now);
  }

  lemma FinishingKeepsInv(s: Service, id: nat, candidate: M.Candidate, now: int, fuel: nat)
    requires Inv(s) && id in s.tasks && id in s.states
    ensures Inv(AfterFinishing(s, id, M.FinishSection(s.states[id], candidate, now, fuel)))
  {
    hide M.FinishSection, M.Inv, M.Complete;
    assert IdInv(s, id);
    FinishSection(s.states[id], candidate, now, fuel);
    var x := M.FinishSection(s.states[id], candidate, now, fuel);
    match x.outcome
    case Done => LeaveKeepsInv(s, id, x.state);
    case Cut => EnterKeepsInv(s, id, x.state, Task(Rescuing, false));
    case Raised => EnterKeepsInv(s, id, x.state, s.tasks[id].(phase := Rescuing));
  }

  lemma RescueKeepsInv(s: Service, id: nat, now: int, fuel: nat, gates: Gates)
    requires Inv(s) && id in s.tasks && id in s.states && (!s.tasks[id].cancelled ==> fuel == UNCUT)
    ensures Inv(AfterRescuing(s, id, M.FinishSection(s.states[id], M.NoCandidate(gates), now, fuel)))
  {
    hide M.FinishSection, M.Inv, M.Complete;
    assert IdInv(s, id);
    FinishSection(s.states[id], M.NoCandidate(gates), now, fuel);
    UncutFinishCompletes(s.states[id], gates, now);
    var x := M.FinishSection(s.states[id], M.NoCandidate(gates), now, fuel);
    if x.outcome.Done? {
      LeaveKeepsInv(s, id, x.state);
    } else {
      AbandonKeepsInv(s, id, x.state);
    }
  }

  /** Cancelling tasks changes nothing else about them. */
  lemma CancelKeepsInv(s: Service, closer: Closer)
    requires Inv(s) && !closer.Open?
    requires CloserInv(s.(tasks := Cancelled(s.tasks), closer := closer))
    ensures Inv(s.(tasks := Cancelled(s.tasks), closer := closer))
  {
    var t := s.(tasks := Cancelled(s.tasks), closer := closer);
    forall id <- t.states
      ensures IdInv(t, id)
    {
      assert IdInv(s, id);
    }
  }

  lemma CloseKeepsInv(s: Service, order: seq<nat>)
    requires Inv(s)
    ensures Inv(AfterClose(s, order))
  {
    if s.closer.Open? && (set id <- order) == s.tasks.Keys {
      forall id <- s.tasks
        ensures id in order && s.states[id].owned
      {
        assert IdInv(s, id);
      }
      forall id <- order
        ensures id in s.tasks
      {
        assert id in set k <- order;
      }
      CancelKeepsInv(s, if order == [] then Returned else Joining(order));
    }
  }

  lemma CloserKeepsInv(s: Service, closer: Closer)
    requires Inv(s) && !s.closer.Open? && !closer.Open? && CloserInv(s.(closer := closer))
    ensures Inv(s.(closer := closer))
  {
    var t := s.(closer := closer);
    forall id <- t.states
      ensures IdInv(t, id)
    {
      assert IdInv(s, id);
    }
  }

  lemma FinishNextKeepsInv(s: Service, now: int, gates: Gates, cut: Option<nat>)
    requires Inv(s)
    ensures Inv(AfterFinishNext(s, now, gates, cut))
  {
    hide M.FinishSection, M.Inv, M.Complete;
    if s.closer.Finalizing? {
      var id := s.closer.rest[0];
      assert IdInv(s, id);
      FinishSection(s.states[id], M.NoCandidate(gates), now, if cut.Some? then cut.value else UNCUT);
      if M.Complete(s.states[id]) {
        CompleteStays(s.states[id], M.FinishSection(s.states[id], M.NoCandidate(gates), now,
                                                    if cut.Some? then cut.value else UNCUT).state);
      }
      var t := AfterFinishNext(s, now, gates, cut);
      assert forall k <- s.closer.rest :: k == id || k in s.closer.rest[1..];
      StepKeepsInv(s, t, id);
    }
  }

  lemma NextKeepsInv(s: Service, action: Action)
    requires Inv(s)
    ensures Inv(Next(s, action))
  {
    match action
    case Create(id, limits, now, fuel) => CreateKeepsInv(s, id, limits, now, fuel);
    case Late(id, createdAt) => if id in s.states { LateKeepsInv(s, id, createdAt); }
    case Read(id, fuel) => if id in s.states { ReadKeepsInv(s, id, fuel); }
    case Proceed(id, now, fuel, execution, gates) =>
      if id in s.tasks && id in s.states { ProceedKeepsInv(s, id, now, fuel, execution, gates); }
    case Close(order) => CloseKeepsInv(s, order);
    case Joined => if AfterJoined(s) != s { CloserKeepsInv(s, Finalizing(s.closer.active)); }
    case FinishNext(now, gates, cut) => FinishNextKeepsInv(s, now, gates, cut);
    case CancelClose =>
      if s.closer.Joining? {
        CancelKeepsInv(s, CutOff);
      } else if s.closer.Finalizing? {
        CloserKeepsInv(s, CutOff);
      }
  }

  lemma {:induction false} ReachableInv(s: Service, actions: seq<Action>)
    requires Inv(s)
    ensures Inv(Run(s, actions))
    decreases actions
  {
    if actions != [] {
      NextKeepsInv(s, actions[0]);
      ReachableInv(Next(s, actions[0]), actions[1..]);
    }
  }

  // ---------- What a shutdown leaves behind ----------

  ghost predicate AllComplete(s: Service) {
    forall id <- s.states :: s.states[id].owned ==> M.Complete(s.states[id])
  }

  lemma InitialInv()
    ensures Inv(INITIAL)
  {
  }

  /** Before a shutdown every owned investigation whose task is over is complete, and once the
      first call of `aclose` has returned, every owned investigation is. */
  lemma FirstCloseCompletesEverything(actions: seq<Action>)
    ensures var s := Run(INITIAL, actions);
            && (s.closer.Open? ==>
                  forall id <- s.states :: s.states[id].owned && id !in s.tasks ==> M.Complete(s.states[id]))
            && (s.closer.Returned? ==> s.tasks == map[] && AllComplete(s))
  {
    InitialInv();
    ReachableInv(INITIAL, actions);
    var s := Run(INITIAL, actions);
    forall id <- s.states
      ensures s.states[id].owned && id !in s.tasks && id !in s.abandoned ==> M.Complete(s.states[id])
    {
      assert IdInv(s, id);
    }
  }

  /** At any time, an owned investigation whose task is over is incomplete exactly if its task
      was cut short and neither the shutdown nor a reader has completed it since. */
  lemma IncompleteExactlyIfAbandoned(actions: seq<Action>, id: nat)
    requires var s := Run(INITIAL, actions); id in s.states && s.states[id].owned && id !in s.tasks
    ensures var s := Run(INITIAL, actions); M.Complete(s.states[id]) <==> id !in s.abandoned
  {
    InitialInv();
    ReachableInv(INITIAL, actions);
    assert IdInv(Run(INITIAL, actions), id);
  }

  /** Every call of `aclose` after the first returns at once. It finds everything complete if and
      only if no task was cut short for good and what still has a task is complete already. */
  lemma LaterCloseChecksNothing(actions: seq<Action>, order: seq<nat>)
    requires !Run(INITIAL, actions).closer.Open?
    ensures var s := Run(INITIAL, actions);
            && Next(s, Close(order)) == s
            && (AllComplete(s) <==>
                  s.abandoned == {} && forall id <- s.tasks :: id in s.states && M.Complete(s.states[id]))
  {
    InitialInv();
    ReachableInv(INITIAL, actions);
    var s := Run(INITIAL, actions);
    if id :| id in s.abandoned {
      assert IdInv(s, id) && id !in s.tasks;
    } else {
      forall id <- s.states
        ensures s.states[id].owned && id !in s.tasks ==> M.Complete(s.states[id])
      {
        assert IdInv(s, id);
      }
      forall id <- s.tasks
        ensures s.states[id].owned
      {
        assert IdInv(s, id);
      }
    }
  }

  /** After a cancelled shutdown, an investigation that was cut short before its report was
      established stays as it is for good: no later call, no reader and no task completes it. */
  lemma {:induction false} StrandedForGood(s: Service, id: nat, actions: seq<Action>)
    requires Inv(s) && s.closer.CutOff? && id in s.abandoned && Early(s.states[id])
    ensures var t := Run(s, actions);
            && t.closer.CutOff? && id in t.states && t.states[id] == s.states[id] && !M.Complete(t.states[id])
    decreases actions
  {
    assert IdInv(s, id);
    if actions != [] {
      NextKeepsInv(s, actions[0]);
      StrandedStep(s, id, actions[0]);
      StrandedForGood(Next(s, actions[0]), id, actions[1..]);
    }
  }

  lemma StrandedStep(s: Service, id: nat, action: Action)
    requires Inv(s) && s.closer.CutOff? && id in s.abandoned && Early(s.states[id])
    ensures var t := Next(s, action);
            t.closer.CutOff? && id in t.abandoned && id in t.states && t.states[id] == s.states[id]
  {
    assert IdInv(s, id);
    match action
    case Late(k, createdAt) => if k == id { LateSection(s.states[id], createdAt); }
    case Read(k, fuel) => if k == id { ReadSection(s.states[id], fuel); }
    case _ =>
  }

  /** One whose report was established is completed by the next reader that is not cancelled. */
  lemma ReaderCompletes(s: Service, id: nat, fuel: nat)
    requires Inv(s) && id in s.states && J.MAX_EVENTS <= fuel
    requires s.states[id].record.Some? && s.states[id].record.value.revision == 2
    ensures M.Complete(Next(s, Read(id, fuel)).states[id]) && id !in Next(s, Read(id, fuel)).abandoned
  {
    assert IdInv(s, id);
    M.ProjectKeepsInv(M.Section(s.states[id], fuel, M.Done));
  }

  // ---------- A cancelled shutdown ----------

  const LIMITS := M.Limits(1, 1, 1, 1)
  const CREATED := M.State(
    LIMITS, Some(M.Record(0, 0, 0, None)), true, [J.Event(1, 0, J.Lifecycle(J.Created))], true)

  /** One investigation whose task has not entered its body. */
  function OneTask(cancelled: bool, closer: Closer): Service {
    Service(map[1 := CREATED], map[1 := Task(Scheduled, cancelled)], closer, {})
  }

  lemma CreatesOneTask()
    ensures Next(INITIAL, Create(1, LIMITS, 0, 3)) == OneTask(false, Open)
  {
    var empty := M.Section(M.Fresh(LIMITS), 3, M.Done);
    var stored := M.Effect(empty, empty.state.(record := Some(M.Record(0, 0, 0, None))));
    var registered := M.Register(stored, M.Record(0, 0, 0, None));
    assert registered.fuel == 1 && registered.state.registered;
    assert M.AppendCreated(registered, M.Record(0, 0, 0, None)).state == CREATED.(owned := false);
  }

  lemma ClosesOneTask()
    ensures Run(INITIAL, [Create(1, LIMITS, 0, 3), Close([1])]) == OneTask(true, Joining([1]))
  {
    CreatesOneTask();
    var created, closing := OneTask(false, Open), OneTask(true, Joining([1]));
    assert (set id <- [1]) == {1} == created.tasks.Keys;
    assert Cancelled(created.tasks) == closing.tasks;
    assert Next(created, Close([1])) == closing;
    assert Run(INITIAL, [Create(1, LIMITS, 0, 3), Close([1])]) == Run(created, [Close([1])]) == Run(closing, []);
  }

  /** An investigation is created and the service is closed before its task has run at all. A
      second call of `aclose` that comes while the first one joins returns, with nothing complete. */
  lemma ConcurrentCloseReturnsEarly()
    ensures var s := Run(INITIAL, [Create(1, LIMITS, 0, 3), Close([1])]);
            s.closer.Joining? && Next(s, Close([])) == s && !AllComplete(s)
  {
    ClosesOneTask();
    assert !M.Complete(OneTask(true, Joining([1])).states[1]);
  }

  /** If the first call is cancelled there, the task ends without ever entering its body: the
      investigation is incomplete, for good, and every further `aclose` returns at once. */
  lemma CancelledCloseStrands(execution: Execution, gates: Gates)
    ensures var closing := Run(INITIAL, [Create(1, LIMITS, 0, 3), Close([1])]);
            var s := Run(closing, [CancelClose, Proceed(1, 0, 0, execution, gates)]);
            && s.closer.CutOff? && s.tasks == map[] && s.abandoned == {1} && 1 in s.states && Early(s.states[1])
            && Next(s, Close([])) == s && !AllComplete(s)
  {
    ClosesOneTask();
    var closing, cut := OneTask(true, Joining([1])), OneTask(true, CutOff);
    assert Cancelled(closing.tasks) == cut.tasks;
    assert Next(closing, CancelClose) == cut;
    var last := Proceed(1, 0, 0, execution, gates);
    assert Next(cut, last) == Service(map[1 := CREATED], map[], CutOff, {1});
    assert Run(closing, [CancelClose, last]) == Run(cut, [last]) == Run(Next(cut, last), []);
    assert !M.Complete(CREATED);
  }

  // ---------- The service as an object ----------

  /** The closing loop until it is done or its caller is cancelled, `patience` effects from now. */
  function FinishAll(s: Service, now: int, gates: Gates, patience: Option<nat>): Service
    decreases if s.closer.Finalizing? then |s.closer.rest| else 0
  {
    if !s.closer.Finalizing? || s.closer.rest == [] || s.closer.rest[0] !in s.states then s
    else
      var t := AfterFinishNext(s, now, gates, patience);
      if t.closer.Finalizing? then FinishAll(t, now, gates, Left(s, now, gates, patience)) else t
  }

  /** What is left of the caller's patience after the next finish. */
  function Left(s: Service, now: int, gates: Gates, patience: Option<nat>): Option<nat>
    requires s.closer.Finalizing? && s.closer.rest != [] && s.closer.rest[0] in s.states
  {
    if patience.None? then None
    else Some(M.FinishSection(s.states[s.closer.rest[0]], M.NoCandidate(gates), now, patience.value).fuel)
  }

  lemma {:induction false} FinishAllKeepsInv(s: Service, now: int, gates: Gates, patience: Option<nat>)
    requires Inv(s) && s.closer.Finalizing?
    ensures var t := FinishAll(s, now, gates, patience);
            && Inv(t) && (t.closer.Returned? || t.closer.CutOff?) && (patience.None? ==> t.closer.Returned?)
            && (t.closer.Returned? ==> AllComplete(t))
    decreases |s.closer.rest|
  {
    hide M.FinishSection, M.Inv, M.Complete;
    var id := s.closer.rest[0];
    assert IdInv(s, id);
    UncutFinishCompletes(s.states[id], gates, now);
    FinishNextKeepsInv(s, now, gates, patience);
    var t := AfterFinishNext(s, now, gates, patience);
    if t.closer.Finalizing? {
      FinishAllKeepsInv(t, now, gates, Left(s, now, gates, patience));
    } else if t.closer.Returned? {
      forall k <- t.states
        ensures t.states[k].owned ==> M.Complete(t.states[k])
      {
        assert IdInv(t, k);
      }
    }
  }

  class InvestigationService {
    var states: map<nat, M.State>
    var tasks: map<nat, Task>
    var closer: Closer
    ghost var abandoned: set<nat>

    ghost function Model(): Service
      reads this
    {
      Service(states, tasks, closer, abandoned)
    }

    ghost predicate Valid()
      reads this
    {
      Inv(Model())
    }

    constructor ()
      ensures Valid() && Model() == INITIAL
    {
      states, tasks, closer, abandoned := map[], map[], Open, {};
    }

    /** Create once, and start a task unless there is one or the investigation is over. */
    method CreateInvestigation(id: nat, limits: M.Limits, now: int, fuel: nat)
      requires Valid()
      modifies this
      ensures Valid() && Model() == Next(old(Model()), Create(id, limits, now, fuel))
    {
      CreateKeepsInv(Model(), id, limits, now, fuel);
      if !closer.Open? {
        return;
      }
      var state := if id in states then states[id] else M.Fresh(limits);
      states := states[id := M.Created(state, now, fuel)];
      if Unfinished(M.CreateSection(state, now, fuel)) && id !in tasks {
        tasks := tasks[id := Task(Scheduled, false)];
      }
    }

    /** `aclose` up to its first await: only the first call cancels the tasks. */
    method BeginClose(order: seq<nat>)
      requires Valid() && (closer.Open? ==> (set id <- order) == tasks.Keys)
      modifies this
      ensures Valid() && Model() == Next(old(Model()), Close(order))
      ensures !closer.Open? && (!old(closer).Open? ==> Model() == old(Model()))
    {
      CloseKeepsInv(Model(), order);
      if !closer.Open? {
        return;
      }
      closer := if order == [] then Returned else Joining(order);
      tasks := Cancelled(tasks);
    }

    /** One round of the closing loop. */
    method FinishNextOwned(now: int, gates: Gates, patience: Option<nat>) returns (left: Option<nat>)
      requires Valid() && closer.Finalizing?
      modifies this
      ensures Valid() && Model() == AfterFinishNext(old(Model()), now, gates, patience)
      ensures left == Left(old(Model()), now, gates, patience)
      ensures closer.Finalizing? ==> |closer.rest| < |old(closer).rest|
      ensures !closer.Open? && !closer.Joining?
    {
      hide M.FinishSection, M.Inv, M.Complete;
      var id, rest := closer.rest[0], closer.rest[1..];
      assert IdInv(Model(), id);
      FinishNextKeepsInv(Model(), now, gates, patience);
      var x := M.FinishSection(states[id], M.NoCandidate(gates), now, if patience.Some? then patience.value else UNCUT);
      states := states[id := x.state];
      if x.outcome.Done? {
        abandoned := abandoned - {id};
        closer := if rest == [] then Returned else Finalizing(rest);
      } else {
        closer := CutOff;
      }
      left := if patience.Some? then Some(x.fuel) else None;
    }

    /** `aclose` once its tasks are joined: finish what they owned, one by one, until it is done
        or its caller is cancelled. */
    method FinishOwned(now: int, gates: Gates, patience: Option<nat>) returns (returned: bool)
      requires Valid() && closer.Finalizing?
      modifies this
      ensures Valid() && Model() == FinishAll(old(Model()), now, gates, patience)
      ensures if returned then closer.Returned? && AllComplete(Model()) else closer.CutOff? && patience.Some?
    {
      hide M.FinishSection, M.Inv, M.Complete, AfterFinishNext, Left, IdInv;
      FinishAllKeepsInv(Model(), now, gates, patience);
      var left: Option<nat> := patience;
      while closer.Finalizing?
        invariant Valid() && !closer.Open? && !closer.Joining?
        invariant FinishAll(Model(), now, gates, left) == FinishAll(old(Model()), now, gates, patience)
        decreases if closer.Finalizing? then |closer.rest| else 0
      {
        left := FinishNextOwned(now, gates, left);
      }
      return closer.Returned?;
    }
  }
}
