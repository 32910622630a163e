/** The operator's journal of one scenario run: an append-only event list, a snapshot kept
    coherent with it, and counters that a restart recomputes from the events. */
module OperatorJournal {
  import opened Wrappers
  import A = AdaptiveLoop
  import F = FixedPlan

  const MAX_SCENARIO_RUN_EVENTS: nat := 1024

  datatype Lifecycle = Accepted | Running | Completed | Failed | Cancelled {
    predicate Final() { Completed? || Failed? || Cancelled? }
  }

  datatype TurnStatus = TurnStarted | TurnCompleted | TurnFailed | TurnCancelled

  datatype TurnPhase = Proposal | Explanation

  datatype Turn = Turn(sequence: nat, phase: TurnPhase, status: TurnStatus, input: nat)

  datatype Payload =
    | LifecycleEvent(lifecycle: Lifecycle)
    | EnvelopeEvent(summary: nat)
    | AdvisoryEvent(turn: Turn)
    | RequestEvent(sequence: nat)
    | ResultEvent(probe: nat)
    | EvidenceEvent(evidence: nat)
    | TerminalEvent(lifecycle: Lifecycle)

  datatype Event = Event(cursor: nat, occurredAt: int, payload: Payload)

  datatype Snapshot = Snapshot(
    lifecycle: Lifecycle, envelope: Option<nat>, cursor: nat, acceptedAt: int, updatedAt: int)

  // ---------- Replay ----------

  datatype Counters = Counters(requests: nat, turns: nat, open: Option<Turn>)

  const NO_COUNTS := Counters(0, 0, None)

  /** Whether `turn` closes the turn that is open. */
  predicate Closes(c: Counters, turn: Turn) {
    c.open.Some? && turn.sequence == c.turns && turn.phase == c.open.value.phase && turn.input == c.open.value.input
  }

  /** One event against the counters; `None` is a journal that replay rejects. */
  function Count(c: Counters, payload: Payload): Option<Counters> {
    match payload
    case RequestEvent(sequence) =>
      if sequence == c.requests + 1 then Some(c.(requests := sequence)) else None
    case AdvisoryEvent(turn) =>
      if turn.status.TurnStarted? then
        if c.open.None? && turn.sequence == c.turns + 1 then Some(c.(turns := turn.sequence, open := Some(turn)))
        else None
      else if Closes(c, turn) then Some(c.(open := None))
      else None
    case _ => Some(c)
  }

  function Replay(events: seq<Event>): Option<Counters> {
    if events == [] then Some(NO_COUNTS)
    else
      var before := Replay(events[..|events| - 1]);
      if before.None? then None else Count(before.value, events[|events| - 1].payload)
  }

  /** The loop a restart runs over a stored journal. */
  method JournalCounters(events: seq<Event>) returns (counters: Option<Counters>)
    ensures counters == Replay(events)
  {
    var c := NO_COUNTS;
    var i := 0;
    while i < |events|
      invariant 0 <= i <= |events|
      invariant Replay(events[..i]) == Some(c)
    {
      assert events[..i + 1][..i] == events[..i];
      match Count(c, events[i].payload) {
        case None =>
          RejectedPrefix(events, i + 1);
          return None;
        case Some(next) => c := next;
      }
      i := i + 1;
    }
    assert events[..i] == events;
    return Some(c);
  }

  lemma {:induction false} RejectedPrefix(events: seq<Event>, n: nat)
    requires n <= |events| && Replay(events[..n]).None?
    ensures Replay(events).None?
    decreases |events|
  {
    if n < |events| {
      assert events[..|events| - 1][..n] == events[..n];
      RejectedPrefix(events[..|events| - 1], n);
    } else {
      assert events[..n] == events;
    }
  }

  // ---------- One run ----------

  datatype State = State(events: seq<Event>, snapshot: Snapshot, counters: Counters, terminal: bool) {
    predicate CanAppend(terminal: bool) {
      !this.terminal && |events| < (if terminal then MAX_SCENARIO_RUN_EVENTS else MAX_SCENARIO_RUN_EVENTS - 1)
    }

    /** One transition: an event and the snapshot that goes with it; the counters follow after. */
    function Append(payload: Payload, at: int, lifecycle: Lifecycle, envelope: Option<nat>, terminal: bool): State
      requires CanAppend(terminal)
    {
      var occurredAt := Max(at, snapshot.updatedAt);
      var cursor := |events| + 1;
      this.(events := events + [Event(cursor, occurredAt, payload)],
            snapshot := Snapshot(lifecycle, envelope, cursor, snapshot.acceptedAt, occurredAt),
            terminal := terminal)
    }

    function Plain(payload: Payload, at: int): State
      requires CanAppend(false)
    {
      Append(payload, at, snapshot.lifecycle, snapshot.envelope, false)
    }
  }

  function Launched(at: int): State {
    State([Event(1, at, LifecycleEvent(Accepted))], Snapshot(Accepted, None, 1, at, at), NO_COUNTS, false)
  }

  datatype Progress =
    | EnvelopeSeen(summary: nat)
    | AdvisoryRequested(sequence: nat, phase: TurnPhase, input: nat)
    | AdvisoryFinished(sequence: nat, phase: TurnPhase, input: nat, status: TurnStatus, proposals: nat)
    | ProbeRequested(adaptive: bool)
    | ProbeFinished(reused: bool, probe: nat)
    | EvidenceSeen(evidence: nat)

  /** `cut` is how many appends the caller gets to make before it is cancelled. */
  datatype Step =
    | MarkRunning(at: int)
    | Project(progress: Progress, at: int, cut: nat)
    | Complete(at: int, matches: bool)
    | Fail(at: int, cut: nat)
    | CancelRun(at: int, cut: nat)

  /** One request event per proposal, each counted as soon as it is in the journal. */
  function AppendRequests(s: State, proposals: nat, at: int, cut: nat): State
    decreases proposals
  {
    if proposals == 0 || cut == 0 || !s.CanAppend(false) then s
    else
      var sequence := s.counters.requests + 1;
      var appended := s.Plain(RequestEvent(sequence), at);
      AppendRequests(appended.(counters := s.counters.(requests := sequence)), proposals - 1, at, cut - 1)
  }

  function StartTurn(s: State, turn: Turn, at: int): State {
    if s.counters.open.Some? || turn.sequence != s.counters.turns + 1 || !s.CanAppend(false) then s
    else
      s.Plain(AdvisoryEvent(turn), at).(counters := s.counters.(turns := turn.sequence, open := Some(turn)))
  }

  function FinishTurn(s: State, turn: Turn, proposals: nat, at: int, cut: nat): State {
    if !Closes(s.counters, turn) || !s.CanAppend(false) || cut == 0 then s
    else
      var closed := s.Plain(AdvisoryEvent(turn), at).(counters := s.counters.(open := None));
      AppendRequests(closed, proposals, at, cut - 1)
  }

  function ProjectProgress(s: State, progress: Progress, at: int, cut: nat): State {
    match progress
    case EnvelopeSeen(summary) =>
      if cut == 0 || s.snapshot.envelope.Some? || !s.CanAppend(false) then s
      else s.Append(EnvelopeEvent(summary), at, s.snapshot.lifecycle, Some(summary), false)
    case AdvisoryRequested(sequence, phase, input) =>
      if cut == 0 then s else StartTurn(s, Turn(sequence, phase, TurnStarted, input), at)
    case AdvisoryFinished(sequence, phase, input, status, proposals) =>
      if status.TurnStarted? then s
      else FinishTurn(s, Turn(sequence, phase, status, input), proposals, at, cut)
    case ProbeRequested(adaptive) => if adaptive then s else AppendRequests(s, 1, at, cut)
    case ProbeFinished(reused, probe) =>
      if reused || cut == 0 || !s.CanAppend(false) then s else s.Plain(ResultEvent(probe), at)
    case EvidenceSeen(evidence) =>
      if cut == 0 || !s.CanAppend(false) then s else s.Plain(EvidenceEvent(evidence), at)
  }

  /** Close an open turn with the run's own outcome; `None` when that event does not fit. */
  function CloseTurn(s: State, status: TurnStatus, at: int): Option<State> {
    if s.counters.open.None? then Some(s)
    else if !s.CanAppend(false) then None
    else
      var turn := s.counters.open.value.(status := status);
      Some(s.Plain(AdvisoryEvent(turn), at).(counters := s.counters.(open := None)))
  }

  /** End a run that has not ended: first the open turn, then the terminal event. */
  function Terminate(s: State, lifecycle: Lifecycle, status: TurnStatus, at: int, cut: nat): State {
    if s.snapshot.lifecycle.Final() || cut == 0 then s
    else
      match CloseTurn(s, status, at)
      case None => s
      case Some(closed) =>
        var left := if s.counters.open.Some? then cut - 1 else cut;
        if left == 0 || !closed.CanAppend(true) then closed
        else closed.Append(TerminalEvent(lifecycle), at, lifecycle, closed.snapshot.envelope, true)
  }

  function Next(s: State, step: Step): State {
    match step
    case MarkRunning(at) =>
      if s.snapshot.lifecycle.Accepted? && s.CanAppend(false) then
        s.Append(LifecycleEvent(Running), at, Running, s.snapshot.envelope, false)
      else s
    case Project(progress, at, cut) =>
      if s.snapshot.lifecycle.Running? then ProjectProgress(s, progress, at, cut) else s
    case Complete(at, matches) =>
      if !s.snapshot.lifecycle.Running? || !matches || s.counters.open.Some? || s.snapshot.envelope.None?
         || !s.CanAppend(true)
      then s
      else s.Append(TerminalEvent(Completed), at, Completed, s.snapshot.envelope, true)
    case Fail(at, cut) => Terminate(s, Failed, TurnFailed, at, cut)
    case CancelRun(at, cut) => Terminate(s, Cancelled, TurnCancelled, at, cut)
  }

  function Run(s: State, steps: seq<Step>): State
    decreases steps
  {
    if steps == [] then s else Run(Next(s, steps[0]), steps[1..])
  }

  // ---------- What every reachable state satisfies ----------

  /** Times never decrease along the journal. */
  predicate Sorted(events: seq<Event>) {
    |events| <= 1
    || (events[|events| - 2].occurredAt <= events[|events| - 1].occurredAt && Sorted(events[..|events| - 1]))
  }

  lemma {:induction false} TimesNeverDecrease(events: seq<Event>, i: nat, j: nat)
    requires Sorted(events) && i <= j < |events|
    ensures events[i].occurredAt <= events[j].occurredAt
    decreases |events|
  {
    var before := events[..|events| - 1];
    if j < |before| {
      TimesNeverDecrease(before, i, j);
    } else if i < j {
      TimesNeverDecrease(before, i, j - 1);
    }
  }

  /** Cursors are 1..n, times never decrease, and only the last event may be terminal. */
  ghost predicate Ordered(s: State) {
    && |s.events| == s.snapshot.cursor >= 1
    && (forall i :: 0 <= i < |s.events| ==> s.events[i].cursor == i + 1)
    && Sorted(s.events)
    && s.events[|s.events| - 1].occurredAt == s.snapshot.updatedAt
    && (forall i :: 0 <= i < |s.events| - 1 ==> !s.events[i].payload.TerminalEvent?)
    && (s.terminal <==> s.events[|s.events| - 1].payload == TerminalEvent(s.snapshot.lifecycle))
    && (s.terminal <==> s.snapshot.lifecycle.Final())
    && (!s.terminal ==> !s.events[|s.events| - 1].payload.TerminalEvent?)
  }

  predicate Counted(s: State) {
    && Replay(s.events) == Some(s.counters)
    && (s.terminal ==> s.counters.open.None?)
    && |s.events| <= (if s.terminal then MAX_SCENARIO_RUN_EVENTS else MAX_SCENARIO_RUN_EVENTS - 1)
  }

  function Envelopes(events: seq<Event>): seq<nat> {
    if events == [] then []
    else
      var last := events[|events| - 1];
      Envelopes(events[..|events| - 1]) + if last.payload.EnvelopeEvent? then [last.payload.summary] else []
  }

  /** Lifecycle events come first, and the snapshot's envelope is the one the journal carries. */
  ghost predicate Shaped(s: State) {
    && s.events != []
    && s.events[0].payload == LifecycleEvent(Accepted) && s.events[0].occurredAt == s.snapshot.acceptedAt
    && (forall i :: 2 <= i < |s.events| ==> !s.events[i].payload.LifecycleEvent?)
    && (|s.events| == 1 <==> s.snapshot.lifecycle.Accepted?)
    && (|s.events| > 1 ==> s.events[1].payload == LifecycleEvent(Running) || (s.terminal && |s.events| == 2))
    && Envelopes(s.events) == if s.snapshot.envelope.Some? then [s.snapshot.envelope.value] else []
  }

  ghost predicate Inv(s: State) {
    Ordered(s) && Counted(s) && Shaped(s)
  }

  /** What an append must look like to keep the run coherent. */
  predicate Fits(s: State, payload: Payload, lifecycle: Lifecycle, envelope: Option<nat>, terminal: bool) {
    && s.CanAppend(terminal)
    && Count(s.counters, payload).Some?
    && (if terminal then payload == TerminalEvent(lifecycle) && lifecycle.Final() && s.counters.open.None?
        else !payload.TerminalEvent? &&
             if |s.events| == 1 then payload == LifecycleEvent(Running) && lifecycle == Running
             else !payload.LifecycleEvent? && lifecycle == s.snapshot.lifecycle)
    && (if payload.EnvelopeEvent? then s.snapshot.envelope.None? && envelope == Some(payload.summary)
        else envelope == s.snapshot.envelope)
  }

  /** One append with counters that follow it keeps the run coherent. */
  lemma AppendKeepsInv(s: State, payload: Payload, at: int, lifecycle: Lifecycle, envelope: Option<nat>, terminal: bool)
    requires Inv(s) && Fits(s, payload, lifecycle, envelope, terminal)
    ensures Inv(s.Append(payload, at, lifecycle, envelope, terminal)
                 .(counters := Count(s.counters, payload).value))
  {
  }

  /** An append that leaves the lifecycle and the envelope alone, with the counters it leads to. */
  lemma PlainKeepsInv(s: State, payload: Payload, at: int, counters: Counters)
    requires Inv(s) && s.snapshot.lifecycle.Running? && s.CanAppend(false)
    requires !payload.TerminalEvent? && !payload.LifecycleEvent? && !payload.EnvelopeEvent?
    requires Count(s.counters, payload) == Some(counters)
    ensures Inv(s.Plain(payload, at).(counters := counters))
  {
    AppendKeepsInv(s, payload, at, s.snapshot.lifecycle, s.snapshot.envelope, false);
  }

  lemma OneRequest(s: State, proposals: nat, at: int, cut: nat) returns (next: State)
    requires Inv(s) && s.snapshot.lifecycle.Running? && s.CanAppend(false) && proposals > 0 && cut > 0
    ensures Inv(next) && next.snapshot.lifecycle.Running?
    ensures AppendRequests(s, proposals, at, cut) == AppendRequests(next, proposals - 1, at, cut - 1)
  {
    hide Ordered, Shaped;
    var counters := s.counters.(requests := s.counters.requests + 1);
    PlainKeepsInv(s, RequestEvent(counters.requests), at, counters);
    next := s.Plain(RequestEvent(counters.requests), at).(counters := counters);
  }

  lemma {:induction false} RequestsKeepInv(s: State, proposals: nat, at: int, cut: nat)
    requires Inv(s) && s.snapshot.lifecycle.Running?
    ensures Inv(AppendRequests(s, proposals, at, cut))
    decreases proposals
  {
    hide Inv;
    if proposals > 0 && cut > 0 && s.CanAppend(false) {
      var next := OneRequest(s, proposals, at, cut);
      RequestsKeepInv(next, proposals - 1, at, cut - 1);
    }
  }

  lemma FinishTurnKeepsInv(s: State, turn: Turn, proposals: nat, at: int, cut: nat)
    requires Inv(s) && s.snapshot.lifecycle.Running? && !turn.status.TurnStarted?
    ensures Inv(FinishTurn(s, turn, proposals, at, cut))
  {
    if Closes(s.counters, turn) && s.CanAppend(false) && cut > 0 {
      var counters := s.counters.(open := None);
      PlainKeepsInv(s, AdvisoryEvent(turn), at, counters);
      var closed := s.Plain(AdvisoryEvent(turn), at).(counters := counters);
      RequestsKeepInv(closed, proposals, at, cut - 1);
      assert FinishTurn(s, turn, proposals, at, cut) == AppendRequests(closed, proposals, at, cut - 1);
    } else {
      assert FinishTurn(s, turn, proposals, at, cut) == s;
    }
  }

  lemma ProjectKeepsInv(s: State, progress: Progress, at: int, cut: nat)
    requires Inv(s) && s.snapshot.lifecycle.Running?
    ensures Inv(ProjectProgress(s, progress, at, cut))
  {
    match progress
    case EnvelopeSeen(summary) =>
      if cut > 0 && s.snapshot.envelope.None? && s.CanAppend(false) {
        AppendKeepsInv(s, EnvelopeEvent(summary), at, s.snapshot.lifecycle, Some(summary), false);
      }
    case AdvisoryRequested(sequence, phase, input) =>
      var turn := Turn(sequence, phase, TurnStarted, input);
      if cut > 0 && s.counters.open.None? && sequence == s.counters.turns + 1 && s.CanAppend(false) {
        PlainKeepsInv(s, AdvisoryEvent(turn), at, s.counters.(turns := sequence, open := Some(turn)));
      }
    case AdvisoryFinished(sequence, phase, input, status, proposals) =>
      if !status.TurnStarted? {
        FinishTurnKeepsInv(s, Turn(sequence, phase, status, input), proposals, at, cut);
      }
    case ProbeRequested(adaptive) => RequestsKeepInv(s, 1, at, cut);
    case ProbeFinished(reused, probe) =>
      if !reused && cut > 0 && s.CanAppend(false) {
        PlainKeepsInv(s, ResultEvent(probe), at, s.counters);
      }
    case EvidenceSeen(evidence) =>
      if cut > 0 && s.CanAppend(false) {
        PlainKeepsInv(s, EvidenceEvent(evidence), at, s.counters);
      }
  }

  lemma CloseTurnKeepsInv(s: State, status: TurnStatus, at: int)
    requires Inv(s) && !status.TurnStarted? && CloseTurn(s, status, at).Some?
    ensures var closed := CloseTurn(s, status, at).value;
            Inv(closed) && closed.counters.open.None? && closed.snapshot.lifecycle == s.snapshot.lifecycle
  {
    if s.counters.open.Some? {
      OpenTurnIsNumbered(s.events);
      RunningIfCounted(s);
      PlainKeepsInv(s, AdvisoryEvent(s.counters.open.value.(status := status)), at, s.counters.(open := None));
    }
  }

  lemma RunningIfCounted(s: State)
    requires Inv(s) && s.counters.open.Some?
    ensures s.snapshot.lifecycle.Running?
  {
    OpenTurnIsNumbered(s.events);
    var e :| e in s.events && e.payload.AdvisoryEvent?;
  }

  lemma TerminalKeepsInv(s: State, lifecycle: Lifecycle, at: int)
    requires Inv(s) && lifecycle.Final() && s.counters.open.None? && s.CanAppend(true)
    ensures Inv(Ended(s, lifecycle, at))
  {
    AppendKeepsInv(s, TerminalEvent(lifecycle), at, lifecycle, s.snapshot.envelope, true);
  }

  /** Where ending a run can leave it: as it was, with its turn closed, or terminal. */
  lemma TerminateOutcomes(s: State, lifecycle: Lifecycle, status: TurnStatus, at: int, cut: nat)
    ensures var t := Terminate(s, lifecycle, status, at, cut);
            || t == s
            || (CloseTurn(s, status, at).Some?
                && var closed := CloseTurn(s, status, at).value;
                   t == closed || (closed.CanAppend(true) && t == Ended(closed, lifecycle, at)))
  {
  }

  function Ended(s: State, lifecycle: Lifecycle, at: int): State
    requires s.CanAppend(true)
  {
    s.Append(TerminalEvent(lifecycle), at, lifecycle, s.snapshot.envelope, true)
  }

  lemma TerminateKeepsInv(s: State, lifecycle: Lifecycle, status: TurnStatus, at: int, cut: nat)
    requires Inv(s) && lifecycle.Final() && !status.TurnStarted?
    ensures Inv(Terminate(s, lifecycle, status, at, cut))
  {
    TerminateOutcomes(s, lifecycle, status, at, cut);
    if CloseTurn(s, status, at).Some? {
      CloseTurnKeepsInv(s, status, at);
      var closed := CloseTurn(s, status, at).value;
      if closed.CanAppend(true) {
        TerminalKeepsInv(closed, lifecycle, at);
      }
    }
  }

  /** A replayed journal's open turn is the last one it numbered, and a journal of one event has
      none. */
  lemma {:induction false} OpenTurnIsNumbered(events: seq<Event>)
    requires Replay(events).Some?
    ensures var c := Replay(events).value;
            c.open.Some? ==> c.open.value.sequence == c.turns && exists e <- events :: e.payload.AdvisoryEvent?
    decreases |events|
  {
    if events != [] {
      var before, last := events[..|events| - 1], events[|events| - 1];
      OpenTurnIsNumbered(before);
      assert last in events && forall e <- before :: e in events;
    }
  }

  lemma NextKeepsInv(s: State, step: Step)
    requires Inv(s)
    ensures Inv(Next(s, step))
  {
    match step
    case MarkRunning(at) =>
      if s.snapshot.lifecycle.Accepted? && s.CanAppend(false) {
        AppendKeepsInv(s, LifecycleEvent(Running), at, Running, s.snapshot.envelope, false);
      }
    case Project(progress, at, cut) =>
      if s.snapshot.lifecycle.Running? { ProjectKeepsInv(s, progress, at, cut); }
    case Complete(at, matches) =>
      if Next(s, step) != s {
        TerminalKeepsInv(s, Completed, at);
      }
    case Fail(at, cut) => TerminateKeepsInv(s, Failed, TurnFailed, at, cut);
    case CancelRun(at, cut) => TerminateKeepsInv(s, Cancelled, TurnCancelled, at, cut);
  }

  lemma {:induction false} ReachableInv(s: State, steps: seq<Step>)
    requires Inv(s)
    ensures Inv(Run(s, steps))
    decreases steps
  {
    if steps != [] {
      NextKeepsInv(s, steps[0]);
      ReachableInv(Next(s, steps[0]), steps[1..]);
    }
  }

  lemma LaunchedInv(at: int)
    ensures Inv(Launched(at))
  {
    var s := Launched(at);
    assert s.events[..0] == [];
    assert Replay(s.events) == Count(NO_COUNTS, s.events[0].payload);
  }

  // ---------- Every run ----------

  /** After any steps, each cut short anywhere, replaying the journal gives exactly the counters
      that were maintained along the way, cursors and times are in order, the terminal event is
      there at most once, last, with no turn open, and the journal is within its bound. */
  lemma ReplayGivesTheCounters(at: int, steps: seq<Step>)
    ensures var s := Run(Launched(at), steps);
            && Replay(s.events) == Some(s.counters)
            && Ordered(s)
            && (s.terminal ==> s.counters.open.None?)
            && |s.events| <= MAX_SCENARIO_RUN_EVENTS
  {
    LaunchedInv(at);
    ReachableInv(Launched(at), steps);
  }

  /** Ending an unfinished run succeeds exactly when no advisory turn is open or there is still
      room for the event that closes it: only the terminal event's own slot is reserved. */
  lemma TerminalStepAccepted(s: State, at: int, cancelled: bool)
    requires Inv(s) && !s.terminal
    ensures var t := Next(s, if cancelled then CancelRun(at, 2) else Fail(at, 2));
            t.terminal <==> s.counters.open.None? || |s.events| < MAX_SCENARIO_RUN_EVENTS - 1
  {
  }

  predicate Stuck(s: State) {
    !s.terminal && s.counters.open.Some? && |s.events| == MAX_SCENARIO_RUN_EVENTS - 1
  }

  /** A run whose journal is full up to the reserved slot while a turn is open never changes
      again: it can neither go on nor end. */
  lemma {:induction false} StuckRunStaysStuck(s: State, steps: seq<Step>)
    requires Inv(s) && Stuck(s)
    ensures Run(s, steps) == s
    decreases steps
  {
    if steps != [] {
      RunningIfCounted(s);
      assert Next(s, steps[0]) == s;
      StuckRunStaysStuck(s, steps[1..]);
    }
  }

  function Evidences(n: nat): seq<Step> {
    if n == 0 then [] else [Project(EvidenceSeen(n), 0, 1)] + Evidences(n - 1)
  }

  lemma OneEvidence(s: State, n: nat) returns (next: State)
    requires Inv(s) && s.snapshot.lifecycle.Running? && s.CanAppend(false)
    ensures next == Next(s, Project(EvidenceSeen(n), 0, 1)) && Inv(next) && next.snapshot.lifecycle.Running?
    ensures next.counters == s.counters && |next.events| == |s.events| + 1
  {
    hide Inv;
    PlainKeepsInv(s, EvidenceEvent(n), 0, s.counters);
    next := s.Plain(EvidenceEvent(n), 0);
  }

  lemma {:induction false} EvidencesFill(s: State, n: nat)
    requires Inv(s) && s.snapshot.lifecycle.Running? && |s.events| + n < MAX_SCENARIO_RUN_EVENTS
    requires s.counters == NO_COUNTS
    ensures var t := Run(s, Evidences(n));
            Inv(t) && t.snapshot.lifecycle.Running? && t.counters == NO_COUNTS && |t.events| == |s.events| + n
    decreases n
  {
    if n > 0 {
      hide Inv;
      var next := OneEvidence(s, n);
      EvidencesFill(next, n - 1);
      assert Evidences(n) == [Project(EvidenceSeen(n), 0, 1)] + Evidences(n - 1);
    }
  }

  const FIRST_TURN := Project(AdvisoryRequested(1, Proposal, 5), 0, 1)

  lemma FirstTurnGetsStuck(s: State)
    requires Inv(s) && s.snapshot.lifecycle.Running? && s.counters == NO_COUNTS
    requires |s.events| == MAX_SCENARIO_RUN_EVENTS - 2
    ensures Stuck(Next(s, FIRST_TURN))
  {
  }

  lemma MarkedRunning()
    ensures var s := Next(Launched(0), MarkRunning(0));
            Inv(s) && s.snapshot.lifecycle.Running? && s.counters == NO_COUNTS && |s.events| == 2
  {
    hide Inv;
    LaunchedInv(0);
    NextKeepsInv(Launched(0), MarkRunning(0));
  }

  /** Such a state is reachable: fill all but the last open slot and then request a turn. */
  lemma StuckRunIsReachable(evidences: nat)
    requires evidences == MAX_SCENARIO_RUN_EVENTS - 4
    ensures Stuck(Next(Run(Next(Launched(0), MarkRunning(0)), Evidences(evidences)), FIRST_TURN))
  {
    MarkedRunning();
    EvidencesFill(Next(Launched(0), MarkRunning(0)), evidences);
    FirstTurnGetsStuck(Run(Next(Launched(0), MarkRunning(0)), Evidences(evidences)));
  }

  // ---------- One workflow call ----------

  /** One workflow call journals at most the envelope, a fixed plan and an adaptive investigation. */
  const MAX_CALL_EVENTS: nat := 1 + F.MAX_JOURNALED + A.MAX_JOURNALED

  /** How many events a step can append at most. */
  function Weight(step: Step): nat {
    match step
    case MarkRunning(_) => 1
    case Project(progress, _, _) =>
      if progress.AdvisoryFinished? then 1 + progress.proposals
      else if progress.ProbeRequested? && progress.adaptive then 0
      else 1
    case Complete(_, _) => 1
    case Fail(_, _) => 2
    case CancelRun(_, _) => 2
  }

  function Weights(steps: seq<Step>): nat {
    if steps == [] then 0 else Weight(steps[0]) + Weights(steps[1..])
  }

  lemma {:induction false} RequestsAtMost(s: State, proposals: nat, at: int, cut: nat)
    ensures |AppendRequests(s, proposals, at, cut).events| <= |s.events| + proposals
    decreases proposals
  {
    if proposals > 0 && cut > 0 && s.CanAppend(false) {
      var counters := s.counters.(requests := s.counters.requests + 1);
      RequestsAtMost(s.Plain(RequestEvent(counters.requests), at).(counters := counters), proposals - 1, at, cut - 1);
    }
  }

  lemma StepAtMost(s: State, step: Step)
    ensures |Next(s, step).events| <= |s.events| + Weight(step)
  {
    if step.Project? && step.progress.AdvisoryFinished? && !step.progress.status.TurnStarted? && step.cut > 0 {
      var turn := Turn(step.progress.sequence, step.progress.phase, step.progress.status, step.progress.input);
      if Closes(s.counters, turn) && s.CanAppend(false) {
        var closed := s.Plain(AdvisoryEvent(turn), step.at).(counters := s.counters.(open := None));
        RequestsAtMost(closed, step.progress.proposals, step.at, step.cut - 1);
      }
    } else if step.Project? && step.progress.ProbeRequested? && !step.progress.adaptive {
      RequestsAtMost(s, 1, step.at, step.cut);
    }
  }

  lemma {:induction false} StepsAtMost(s: State, steps: seq<Step>)
    ensures |Run(s, steps).events| <= |s.events| + Weights(steps)
    decreases steps
  {
    if steps != [] {
      StepAtMost(s, steps[0]);
      StepsAtMost(Next(s, steps[0]), steps[1..]);
    }
  }

  /** The step that projects one emission of an investigation's loop. */
  predicate Shows(step: Step, e: A.Emission, adaptive: bool) {
    step.Project? &&
    match e
    case AdvisoryRequested => step.progress.AdvisoryRequested?
    case AdvisoryCompleted => step.progress.AdvisoryFinished? && step.progress.proposals <= A.MAX_PROPOSALS
    case ProbeRequested => step.progress == ProbeRequested(adaptive)
    case ProbeFinished => step.progress.ProbeFinished?
    case EvidenceDecided => step.progress.EvidenceSeen?
    case _ => false
  }

  /** The steps are the projection of what a loop emitted, in order; the strategy's own start and
      finish are not projected. */
  predicate Projection(steps: seq<Step>, emitted: seq<A.Emission>, adaptive: bool)
    decreases |emitted|
  {
    if emitted == [] then steps == []
    else
      var before, last := emitted[..|emitted| - 1], emitted[|emitted| - 1];
      if last.StrategyStarted? || last.StrategyFinished? then Projection(steps, before, adaptive)
      else
        && steps != [] && Shows(steps[|steps| - 1], last, adaptive)
        && Projection(steps[..|steps| - 1], before, adaptive)
  }

  lemma {:induction false} WeightsAdd(first: seq<Step>, second: seq<Step>)
    ensures Weights(first + second) == Weights(first) + Weights(second)
    decreases first
  {
    if first == [] {
      assert first + second == second;
    } else {
      assert (first + second)[1..] == first[1..] + second;
      WeightsAdd(first[1..], second);
    }
  }

  lemma {:induction false} ProjectionWeighs(steps: seq<Step>, emitted: seq<A.Emission>, adaptive: bool)
    requires Projection(steps, emitted, adaptive)
    ensures Weights(steps) <= A.Journaled(emitted, adaptive)
    decreases |emitted|
  {
    if emitted != [] {
      var before, last := emitted[..|emitted| - 1], emitted[|emitted| - 1];
      if last.StrategyStarted? || last.StrategyFinished? {
        ProjectionWeighs(steps, before, adaptive);
      } else {
        var earlier, step := steps[..|steps| - 1], steps[|steps| - 1];
        ProjectionWeighs(earlier, before, adaptive);
        WeightsAdd(earlier, [step]);
        assert steps == earlier + [step] && Weights([step]) == Weight(step) + Weights([]);
      }
    }
  }

  /** A run that projects no more than one workflow call, whose loops keep to what they may emit,
      can always be ended, even with an advisory turn open: only repeated calls can fill its
      journal. */
  lemma OneCallCanAlwaysEnd(
    at: int, started: int, envelope: Step, fixed: seq<A.Emission>, fixedSteps: seq<Step>,
    adaptive: seq<A.Emission>, adaptiveSteps: seq<Step>, fixedFirst: bool, later: int, cancelled: bool)
    requires envelope.Project? && envelope.progress.EnvelopeSeen?
    requires Projection(fixedSteps, fixed, false) && A.Journaled(fixed, false) <= F.MAX_JOURNALED
    requires Projection(adaptiveSteps, adaptive, true) && A.Journaled(adaptive, true) <= A.MAX_JOURNALED
    ensures var loops := if fixedFirst then fixedSteps + adaptiveSteps else adaptiveSteps + fixedSteps;
            var s := Run(Launched(at), [MarkRunning(started), envelope] + loops);
            Next(s, if cancelled then CancelRun(later, 2) else Fail(later, 2)).terminal
  {
    var opening := [MarkRunning(started), envelope];
    assert Weights(opening) == Weight(opening[0]) + Weights(opening[1..]) && opening[1..] == [envelope];
    assert Weights([envelope]) == Weight(envelope) + Weights([]);
    ProjectionWeighs(fixedSteps, fixed, false);
    ProjectionWeighs(adaptiveSteps, adaptive, true);
    WeightsAdd(fixedSteps, adaptiveSteps);
    WeightsAdd(adaptiveSteps, fixedSteps);
    var loops := if fixedFirst then fixedSteps + adaptiveSteps else adaptiveSteps + fixedSteps;
    WeightsAdd(opening, loops);
    LightRunCanEnd(at, opening + loops, later, cancelled);
  }

  lemma LightRunCanEnd(at: int, steps: seq<Step>, later: int, cancelled: bool)
    requires Weights(steps) <= 1 + MAX_CALL_EVENTS
    ensures Next(Run(Launched(at), steps), if cancelled then CancelRun(later, 2) else Fail(later, 2)).terminal
  {
    hide Replay, Sorted, Shaped, Run;
    LaunchedInv(at);
    ReachableInv(Launched(at), steps);
    StepsAtMost(Launched(at), steps);
    var s := Run(Launched(at), steps);
    if !s.terminal {
      TerminalStepAccepted(s, later, cancelled);
    } else {
      EndedStaysEnded(s, if cancelled then CancelRun(later, 2) else Fail(later, 2));
    }
  }

  lemma EndedStaysEnded(s: State, step: Step)
    requires Inv(s) && s.terminal
    ensures Next(s, step) == s
  {
  }

  // ---------- The store's reader ----------

  /** What the store demands of a projection before it returns it. */
  ghost predicate SemanticsValid(events: seq<Event>, snapshot: Snapshot, terminal: bool) {
    && events != []
    && events[0].payload == LifecycleEvent(Accepted) && events[0].occurredAt == snapshot.acceptedAt
    && snapshot.updatedAt == events[|events| - 1].occurredAt
    && (forall i :: 0 < i < |events| ==> events[i - 1].occurredAt <= events[i].occurredAt)
    && (|events| > 1 ==> events[1].payload == LifecycleEvent(Running))
    && (forall i :: 2 <= i < |events| ==> !events[i].payload.LifecycleEvent?)
    && Envelopes(events) == (if snapshot.envelope.Some? then [snapshot.envelope.value] else [])
    && Replay(events).Some?
    && (if terminal then
          events[|events| - 1].payload == TerminalEvent(snapshot.lifecycle) && Replay(events).value.open.None?
        else snapshot.lifecycle == if |events| == 1 then Accepted else Running)
  }

  /** A step that marks the run as running. */
  predicate Marks(s: State, step: Step) {
    step.MarkRunning? && s.snapshot.lifecycle.Accepted? && s.CanAppend(false)
  }

  /** Whether some step of a run marked it as running. */
  predicate Marked(s: State, steps: seq<Step>)
    decreases steps
  {
    steps != [] && (Marks(s, steps[0]) || Marked(Next(s, steps[0]), steps[1..]))
  }

  predicate ShowsRunning(events: seq<Event>) {
    |events| > 1 && events[1].payload == LifecycleEvent(Running)
  }

  lemma StepShowsRunning(s: State, step: Step)
    requires Inv(s)
    ensures ShowsRunning(Next(s, step).events) <==> ShowsRunning(s.events) || Marks(s, step)
  {
    StepOnlyAppends(s, step);
    var t := Next(s, step);
    assert |s.events| > 1 ==> t.events[1] == s.events[1];
    if s.counters.open.Some? {
      RunningIfCounted(s);
    }
  }

  lemma {:induction false} RunShowsRunning(s: State, steps: seq<Step>)
    requires Inv(s)
    ensures ShowsRunning(Run(s, steps).events) <==> ShowsRunning(s.events) || Marked(s, steps)
    decreases steps
  {
    if steps != [] {
      NextKeepsInv(s, steps[0]);
      StepShowsRunning(s, steps[0]);
      RunShowsRunning(Next(s, steps[0]), steps[1..]);
    }
  }

  /** The store's reader accepts a journal these steps wrote if and only if the run has not ended
      before a step marked it as running. */
  lemma ReaderAcceptsTheJournal(at: int, steps: seq<Step>)
    ensures var s := Run(Launched(at), steps);
            && (SemanticsValid(s.events, s.snapshot, s.terminal) <==> !s.terminal || Marked(Launched(at), steps))
            && (s.terminal && !Marked(Launched(at), steps) <==> s.terminal && |s.events| == 2)
  {
    LaunchedInv(at);
    ReachableInv(Launched(at), steps);
    RunShowsRunning(Launched(at), steps);
    WrittenIsAccepted(Run(Launched(at), steps));
  }

  lemma WrittenIsAccepted(s: State)
    requires Inv(s)
    ensures SemanticsValid(s.events, s.snapshot, s.terminal) <==> !(s.terminal && |s.events| == 2)
    ensures s.terminal ==> (|s.events| == 2 <==> !ShowsRunning(s.events))
  {
    forall i | 0 < i < |s.events|
      ensures s.events[i - 1].occurredAt <= s.events[i].occurredAt
    {
      TimesNeverDecrease(s.events, i - 1, i);
    }
  }

  /** A run that fails before it is marked as running leaves a journal the reader refuses. */
  lemma UnmarkedFailureIsRefused()
    ensures var s := Run(Launched(0), [Fail(0, 1)]);
            s.terminal && |s.events| == 2 && !SemanticsValid(s.events, s.snapshot, s.terminal)
  {
    ReaderAcceptsTheJournal(0, [Fail(0, 1)]);
    assert Run(Launched(0), [Fail(0, 1)]) == Run(Next(Launched(0), Fail(0, 1)), []);
    assert !Marked(Launched(0), [Fail(0, 1)]) by {
      assert !Marked(Next(Launched(0), Fail(0, 1)), []);
    }
  }

  // ---------- Rebuilding a run without recounting ----------

  /** A run state rebuilt from a projection with its counters left at zero. */
  function Rebuilt(s: State): State {
    s.(counters := NO_COUNTS)
  }

  predicate HasRequest(events: seq<Event>) {
    exists i :: 0 <= i < |events| && events[i].payload.RequestEvent?
  }

  predicate HasAdvisory(events: seq<Event>) {
    exists i :: 0 <= i < |events| && events[i].payload.AdvisoryEvent?
  }

  lemma {:induction false} CountersByKind(events: seq<Event>)
    requires Replay(events).Some?
    ensures var c := Replay(events).value;
            && (c.requests > 0 <==> HasRequest(events))
            && (c.turns > 0 <==> HasAdvisory(events))
            && (c.open.Some? ==> c.turns > 0)
    decreases |events|
  {
    if events != [] {
      var before := events[..|events| - 1];
      CountersByKind(before);
      assert forall i :: 0 <= i < |before| ==> before[i] == events[i];
    }
  }

  /** Such a rebuilt state is coherent exactly when the journal has no request and no advisory
      event yet. */
  lemma RebuiltIsCoherent(s: State)
    requires Inv(s)
    ensures Replay(Rebuilt(s).events) == Some(Rebuilt(s).counters)
            <==> !HasRequest(s.events) && !HasAdvisory(s.events)
  {
    CountersByKind(s.events);
  }

  /** The next steps of a rebuilt run that number an event the journal already has: a probe
      request once there was one, and the start of a first advisory turn once there was one. */
  predicate NumbersAgain(s: State, step: Step) {
    && step.Project? && step.cut > 0 && s.snapshot.lifecycle.Running? && s.CanAppend(false)
    && match step.progress
       case ProbeRequested(adaptive) => !adaptive && HasRequest(s.events)
       case AdvisoryRequested(sequence, _, _) => sequence == 1 && HasAdvisory(s.events)
       case _ => false
  }

  lemma ReplayOneMore(events: seq<Event>, event: Event)
    ensures Replay(events + [event])
            == if Replay(events).None? then None else Count(Replay(events).value, event.payload)
  {
    assert (events + [event])[..|events|] == events;
  }

  /** Exactly those steps make the journal one that replay rejects. */
  lemma RebuiltStepBreaksReplay(s: State, step: Step)
    requires Inv(s)
    ensures Replay(Next(Rebuilt(s), step).events).None? <==> NumbersAgain(s, step)
  {
    hide Ordered, Shaped, Replay, HasRequest, HasAdvisory;
    CountersByKind(s.events);
    var r, t := Rebuilt(s), Next(Rebuilt(s), step);
    if t.events != s.events {
      var event := RebuiltAppendsOne(r, step);
      ReplayOneMore(s.events, event);
    }
  }

  /** A step of a run that believes no turn is open appends one event at most, and closes none. */
  lemma RebuiltAppendsOne(r: State, step: Step) returns (event: Event)
    requires r.counters.open.None? && Next(r, step).events != r.events
    ensures var t := Next(r, step);
            && t.events == r.events + [event]
            && (event.payload.RequestEvent? <==> step.Project? && step.progress.ProbeRequested?)
            && (event.payload.RequestEvent? ==>
                  event.payload.sequence == r.counters.requests + 1 && !step.progress.adaptive)
            && (event.payload.AdvisoryEvent? <==> step.Project? && step.progress.AdvisoryRequested?)
            && (event.payload.AdvisoryEvent? ==>
                  && event.payload.turn.status.TurnStarted?
                  && event.payload.turn.sequence == r.counters.turns + 1 == step.progress.sequence)
            && (!event.payload.AdvisoryEvent? ==> t.counters.open.None?)
            && (step.Project? ==> step.cut > 0 && r.snapshot.lifecycle.Running? && r.CanAppend(false))
  {
    event := Next(r, step).events[|r.events|];
  }

  /** A turn that was open when the run was rebuilt is never closed again, over any further
      steps: either replay rejects the journal or the turn is still open in it. */
  lemma {:induction false} RebuiltTurnStaysOpen(r: State, steps: seq<Step>, turn: Turn)
    requires Replay(r.events).Some? ==> r.counters.open.None? && Replay(r.events).value.open == Some(turn)
    ensures var t := Run(r, steps);
            Replay(t.events).Some? ==> t.counters.open.None? && Replay(t.events).value.open == Some(turn)
    decreases steps
  {
    if steps != [] {
      RebuiltStepKeepsTurn(r, steps[0], turn);
      RebuiltTurnStaysOpen(Next(r, steps[0]), steps[1..], turn);
    }
  }

  lemma RebuiltStepKeepsTurn(r: State, step: Step, turn: Turn)
    requires Replay(r.events).Some? ==> r.counters.open.None? && Replay(r.events).value.open == Some(turn)
    ensures var t := Next(r, step);
            Replay(t.events).Some? ==> t.counters.open.None? && Replay(t.events).value.open == Some(turn)
  {
    if Replay(r.events).None? {
      StaysRejected(r, step);
    } else if Next(r, step).events != r.events {
      var event := RebuiltAppendsOne(r, step);
      ReplayOneMore(r.events, event);
    }
  }

  /** A step only appends, so a journal that replay rejects stays rejected. */
  lemma StaysRejected(r: State, step: Step)
    requires Replay(r.events).None?
    ensures Replay(Next(r, step).events).None?
  {
    StepOnlyAppends(r, step);
    var t := Next(r, step);
    assert t.events[..|r.events|] == r.events;
    RejectedPrefix(t.events, |r.events|);
  }

  lemma {:induction false} RequestsOnlyAppend(s: State, proposals: nat, at: int, cut: nat)
    ensures s.events <= AppendRequests(s, proposals, at, cut).events
    decreases proposals
  {
    if proposals > 0 && cut > 0 && s.CanAppend(false) {
      var counters := s.counters.(requests := s.counters.requests + 1);
      RequestsOnlyAppend(s.Plain(RequestEvent(counters.requests), at).(counters := counters),
                         proposals - 1, at, cut - 1);
    }
  }

  lemma StepOnlyAppends(s: State, step: Step)
    ensures s.events <= Next(s, step).events
  {
    if step.Project? && step.progress.AdvisoryFinished? && !step.progress.status.TurnStarted? && step.cut > 0 {
      var turn := Turn(step.progress.sequence, step.progress.phase, step.progress.status, step.progress.input);
      if Closes(s.counters, turn) && s.CanAppend(false) {
        var closed := s.Plain(AdvisoryEvent(turn), step.at).(counters := s.counters.(open := None));
        RequestsOnlyAppend(closed, step.progress.proposals, step.at, step.cut - 1);
      }
    } else if step.Project? && step.progress.ProbeRequested? {
      RequestsOnlyAppend(s, 1, step.at, step.cut);
    }
  }

  /** So a run rebuilt with a turn open never ends with a journal the store's reader accepts. */
  lemma RebuiltRunNeverEndsWell(s: State, steps: seq<Step>)
    requires Inv(s) && s.counters.open.Some?
    ensures var t := Run(Rebuilt(s), steps);
            t.terminal ==> !SemanticsValid(t.events, t.snapshot, t.terminal)
  {
    RebuiltTurnStaysOpen(Rebuilt(s), steps, s.counters.open.value);
  }

  // ---------- The run state as the operator holds it ----------

  class ScenarioRun {
    var events: seq<Event>
    var snapshot: Snapshot
    var terminal: bool
    var generation: nat
    var requestSequence: nat
    var turnSequence: nat
    var turnOpen: Option<Turn>

    ghost function View(): State
      reads this
    {
      State(events, snapshot, Counters(requestSequence, turnSequence, turnOpen), terminal)
    }

    constructor (at: int)
      ensures View() == Launched(at) && generation == 1
    {
      events := [Event(1, at, LifecycleEvent(Accepted))];
      snapshot := Snapshot(Accepted, None, 1, at, at);
      terminal := false;
      generation := 1;
      requestSequence := 0;
      turnSequence := 0;
      turnOpen := None;
    }

    method AppendTransition(payload: Payload, at: int, lifecycle: Lifecycle, envelope: Option<nat>, final: bool)
      returns (appended: bool)
      modifies this
      ensures appended == old(View()).CanAppend(final)
      ensures View() == if appended then old(View()).Append(payload, at, lifecycle, envelope, final) else old(View())
      ensures generation == old(generation) + if appended then 1 else 0
    {
      if terminal {
        return false;
      }
      var capacity := if final then MAX_SCENARIO_RUN_EVENTS else MAX_SCENARIO_RUN_EVENTS - 1;
      if |events| >= capacity {
        return false;
      }
      var occurredAt := Max(at, snapshot.updatedAt);
      var cursor := |events| + 1;
      events := events + [Event(cursor, occurredAt, payload)];
      snapshot := Snapshot(lifecycle, envelope, cursor, snapshot.acceptedAt, occurredAt);
      generation := generation + 1;
      terminal := final;
      return true;
    }

    method ProjectTurn(turn: Turn, proposals: nat, at: int, cut: nat)
      modifies this
      ensures View() == if turn.status.TurnStarted? then
                          (if cut == 0 then old(View()) else StartTurn(old(View()), turn, at))
                        else FinishTurn(old(View()), turn, proposals, at, cut)
    {
      if turn.status.TurnStarted? {
        if turnOpen.Some? || turn.sequence != turnSequence + 1 {
          return;
        }
      } else if turnOpen.None? || turn.sequence != turnSequence || turn.phase != turnOpen.value.phase
                || turn.input != turnOpen.value.input {
        return;
      }
      if cut == 0 {
        return;
      }
      var appended := AppendTransition(AdvisoryEvent(turn), at, snapshot.lifecycle, snapshot.envelope, false);
      if !appended {
        return;
      }
      if turn.status.TurnStarted? {
        turnSequence := turn.sequence;
        turnOpen := Some(turn);
        return;
      }
      turnOpen := None;
      ProjectRequests(proposals, at, cut - 1);
    }

    method ProjectRequests(proposals: nat, at: int, cut: nat)
      modifies this
      ensures View() == AppendRequests(old(View()), proposals, at, cut)
    {
      var left, budget := proposals, cut;
      while left > 0
        invariant 0 <= left && 0 <= budget
        invariant AppendRequests(View(), left, at, budget) == AppendRequests(old(View()), proposals, at, cut)
      {
        if budget == 0 {
          return;
        }
        var sequence := requestSequence + 1;
        var appended := AppendTransition(RequestEvent(sequence), at, snapshot.lifecycle, snapshot.envelope, false);
        if !appended {
          return;
        }
        requestSequence := sequence;
        left, budget := left - 1, budget - 1;
      }
    }

    method Finish(lifecycle: Lifecycle, status: TurnStatus, at: int, cut: nat)
      modifies this
      ensures View() == Terminate(old(View()), lifecycle, status, at, cut)
    {
      if snapshot.lifecycle.Final() || cut == 0 {
        return;
      }
      var left := cut;
      if turnOpen.Some? {
        var turn := turnOpen.value.(status := status);
        var closed := AppendTransition(AdvisoryEvent(turn), at, snapshot.lifecycle, snapshot.envelope, false);
        if !closed {
          return;
        }
        turnOpen := None;
        left := left - 1;
      }
      if left > 0 {
        var _ := AppendTransition(TerminalEvent(lifecycle), at, lifecycle, snapshot.envelope, true);
      }
    }
  }
}
