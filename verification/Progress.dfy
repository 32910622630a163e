/** Ordered progress delivery: a bounded queue between an investigation that must never wait and
    a consumer that may stall, fail or be cut off. */
module Progress {
  import opened Wrappers
  import A = AdaptiveLoop
  import F = FixedPlan

  const MAX_WORKFLOW_EVENTS: nat := F.MAX_EMITTED + A.MAX_EMITTED + 1
  const QUEUE_CAPACITY: nat := MAX_WORKFLOW_EVENTS + 1

  datatype Item = Event(id: nat) | Close

  datatype Worker = Waiting | Delivering(id: nat) | Returned | Cancelled {
    predicate Done() { Returned? || Cancelled? }
  }

  /** Where the caller of `finish` stands. */
  datatype Caller = NotCalled | Flushing | Accepted | Refused | Interrupted

  /** `emitted` and `received` are history: every event handed to `emit`, and every event the
      callback was called with. */
  datatype State = State(
    queue: seq<Item>, failed: bool, closed: bool, finished: bool, worker: Worker, caller: Caller,
    emitted: seq<nat>, received: seq<nat>)

  const INITIAL := State([], false, false, false, Waiting, NotCalled, [], [])

  datatype Action =
    | Emit(id: nat, known: bool)
    | Take
    | CallbackDone(accepted: bool)
    | FinishCalled
    | WorkerJoined
    | TimedOut
    | FinishCancelled
    | Aborted

  // ---------- Steps ----------

  /** `emit`: never raises; an unknown record, a closed or a full queue only marks failure. */
  function AfterEmit(s: State, id: nat, known: bool): State {
    var noted := s.(emitted := s.emitted + [id]);
    if s.closed || !known || QUEUE_CAPACITY <= |s.queue| then noted.(failed := true)
    else noted.(queue := s.queue + [Event(id)])
  }

  /** The worker takes the next item: after a failure events are dropped, not delivered. */
  function AfterTake(s: State): State {
    if !s.worker.Waiting? || s.queue == [] then s
    else
      var left := s.(queue := s.queue[1..]);
      match s.queue[0]
      case Close => left.(worker := Returned)
      case Event(id) =>
        if s.failed then left else left.(worker := Delivering(id), received := s.received + [id])
  }

  /** The callback returned nothing, or raised or returned something it should not. */
  function AfterCallback(s: State, accepted: bool): State {
    if s.worker.Delivering? then s.(worker := Waiting, failed := s.failed || !accepted) else s
  }

  /** The worker is cancelled and joined, and what it left in the queue is discarded. */
  function CancelWorker(s: State): State {
    s.(worker := if s.worker.Done() then s.worker else Cancelled, queue := [])
  }

  function Settle(s: State): State {
    s.(finished := true, caller := if s.failed then Refused else Accepted)
  }

  function AfterFinish(s: State): State {
    if s.caller.Flushing? then s
    else if s.finished then Settle(s)
    else
      var closing := s.(closed := true);
      if QUEUE_CAPACITY <= |s.queue| then Settle(CancelWorker(closing.(failed := true)))
      else closing.(queue := s.queue + [Close], caller := Flushing)
  }

  /** The awaited worker is done; one that was cancelled cancels the caller that waits for it. */
  function AfterJoin(s: State): State {
    if !s.caller.Flushing? || !s.worker.Done() then s
    else if s.worker.Cancelled? then CancelWorker(s).(finished := true, caller := Interrupted)
    else Settle(s)
  }

  function Next(s: State, action: Action): State {
    match action
    case Emit(id, known) => AfterEmit(s, id, known)
    case Take => AfterTake(s)
    case CallbackDone(accepted) => AfterCallback(s, accepted)
    case FinishCalled => AfterFinish(s)
    case WorkerJoined => AfterJoin(s)
    case TimedOut =>
      if s.caller.Flushing? && !s.worker.Done() then Settle(CancelWorker(s.(failed := true))) else s
    case FinishCancelled =>
      if s.caller.Flushing? then CancelWorker(s).(finished := true, caller := Interrupted) else s
    case Aborted => CancelWorker(s.(closed := true)).(finished := true)
  }

  function Run(s: State, actions: seq<Action>): State
    decreases actions
  {
    if actions == [] then s else Run(Next(s, actions[0]), actions[1..])
  }

  function Events(queue: seq<Item>): seq<nat> {
    if queue == [] then []
    else (if queue[0].Event? then [queue[0].id] else []) + Events(queue[1..])
  }

  // ---------- What every reachable state satisfies ----------

  lemma {:induction false} EventsAppend(queue: seq<Item>, item: Item)
    ensures Events(queue + [item]) == Events(queue) + if item.Event? then [item.id] else []
    decreases |queue|
  {
    if queue == [] {
      assert queue + [item] == [item];
    } else {
      assert (queue + [item])[0] == queue[0] && (queue + [item])[1..] == queue[1..] + [item];
      EventsAppend(queue[1..], item);
    }
  }

  lemma Regroup(a: seq<nat>, x: nat, b: seq<nat>)
    ensures a + ([x] + b) == a + [x] + b && a + [x] <= a + ([x] + b)
  {
  }

  lemma DeliveredNext(received: seq<nat>, queue: seq<Item>, emitted: seq<nat>)
    requires queue != [] && queue[0].Event? && emitted == received + Events(queue)
    ensures emitted == received + [queue[0].id] + Events(queue[1..])
    ensures received + [queue[0].id] <= emitted
  {
    Regroup(received, queue[0].id, Events(queue[1..]));
  }

  /** Nothing that was emitted got lost: it was delivered or is still queued. */
  predicate Whole(s: State) {
    s.emitted == s.received + Events(s.queue)
  }

  ghost predicate Inv(s: State) {
    && s.received <= s.emitted && |s.received| + |Events(s.queue)| <= |s.emitted|
    && (!s.failed && !s.worker.Cancelled? ==> Whole(s))
    && (!s.closed ==> forall i :: 0 <= i < |s.queue| ==> s.queue[i].Event?)
    && (forall i :: 0 <= i < |s.queue| - 1 ==> s.queue[i].Event?)
    && (s.worker.Done() ==> s.queue == [])
    && (s.worker.Done() ==> s.closed)
    && (s.closed <==> s.finished || s.caller.Flushing?)
    && |s.queue| <= |s.emitted| + (if s.closed then 1 else 0)
    && (s.finished ==> s.worker.Done())
  }

  lemma EmitKeepsInv(s: State, id: nat, known: bool)
    requires Inv(s)
    ensures Inv(AfterEmit(s, id, known))
  {
    EventsAppend(s.queue, Event(id));
  }

  lemma FinishKeepsInv(s: State)
    requires Inv(s)
    ensures Inv(AfterFinish(s))
  {
    EventsAppend(s.queue, Close);
  }

  lemma TakeKeepsInv(s: State)
    requires Inv(s)
    ensures Inv(AfterTake(s))
  {
    if s.worker.Waiting? && s.queue != [] && s.queue[0].Event? {
      Regroup(s.received, s.queue[0].id, Events(s.queue[1..]));
    }
  }

  lemma CancelKeepsInv(s: State)
    requires Inv(s)
    ensures s.caller.Flushing? ==> Inv(CancelWorker(s).(finished := true, caller := Interrupted))
    ensures s.caller.Flushing? ==> Inv(Settle(CancelWorker(s.(failed := true))))
    ensures Inv(CancelWorker(s.(closed := true)).(finished := true))
  {
  }

  lemma NextKeepsInv(s: State, action: Action)
    requires Inv(s)
    ensures Inv(Next(s, action))
  {
    match action
    case Emit(id, known) => EmitKeepsInv(s, id, known);
    case Take => TakeKeepsInv(s);
    case CallbackDone(_) =>
    case FinishCalled => FinishKeepsInv(s);
    case WorkerJoined => CancelKeepsInv(s);
    case TimedOut => CancelKeepsInv(s);
    case FinishCancelled => CancelKeepsInv(s);
    case Aborted => CancelKeepsInv(s);
    hide Events, Whole, AfterTake, AfterEmit, AfterFinish, CancelWorker;
  }

  lemma {:induction false} ReachableInv(s: State, actions: seq<Action>)
    requires Inv(s)
    ensures Inv(Run(s, actions))
    decreases actions
  {
    if actions != [] {
      NextKeepsInv(s, actions[0]);
      ReachableInv(Next(s, actions[0]), actions[1..]);
    }
  }

  // ---------- Every interleaving of producer, worker and caller ----------

  /** As long as no more is emitted than one workflow call can emit, the queue has room for the
      next event and for the sentinel, even if the consumer never takes anything. */
  lemma QueueIsNeverFull(actions: seq<Action>)
    requires |Run(INITIAL, actions).emitted| <= MAX_WORKFLOW_EVENTS
    ensures var s := Run(INITIAL, actions);
            && (!s.closed ==> |s.queue| < QUEUE_CAPACITY)
            && (!s.finished && !s.caller.Flushing? ==> AfterFinish(s).caller.Flushing?)
  {
    ReachableInv(INITIAL, actions);
  }

  /** What the callback received is always a prefix of what was emitted: in order, once each. */
  lemma DeliveryIsAPrefix(actions: seq<Action>)
    ensures Run(INITIAL, actions).received <= Run(INITIAL, actions).emitted
  {
    ReachableInv(INITIAL, actions);
  }

  /** A step that discards queued progress: an abort, or the cancellation of a flushing `finish`,
      while an event is still in the queue. */
  predicate Drops(s: State, action: Action) {
    (action.Aborted? || (action.FinishCancelled? && s.caller.Flushing?)) && Events(s.queue) != []
  }

  predicate Dropped(s: State, actions: seq<Action>)
    decreases actions
  {
    actions != [] && (Drops(s, actions[0]) || Dropped(Next(s, actions[0]), actions[1..]))
  }

  lemma StepLosesOnlyDropped(s: State, action: Action)
    requires Inv(s) && !Next(s, action).failed
    ensures !s.failed && (Whole(Next(s, action)) <==> Whole(s) && !Drops(s, action))
  {
    match action
    case Emit(id, known) =>
      EventsAppend(s.queue, Event(id));
      assert !s.failed ==> s.received + (Events(s.queue) + [id]) == s.received + Events(s.queue) + [id];
    case Take => TakeLosesNothing(s);
    case FinishCalled => EventsAppend(s.queue, Close);
    case _ =>
  }

  lemma TakeLosesNothing(s: State)
    requires Inv(s) && !s.failed
    ensures Whole(AfterTake(s)) <==> Whole(s)
  {
    if s.worker.Waiting? && s.queue != [] && s.queue[0].Event? {
      Regroup(s.received, s.queue[0].id, Events(s.queue[1..]));
    }
  }

  lemma {:induction false} RunLosesOnlyDropped(s: State, actions: seq<Action>)
    requires Inv(s) && !Run(s, actions).failed
    ensures !s.failed && (Whole(Run(s, actions)) <==> Whole(s) && !Dropped(s, actions))
    decreases actions
  {
    if actions != [] {
      NextKeepsInv(s, actions[0]);
      RunLosesOnlyDropped(Next(s, actions[0]), actions[1..]);
      StepLosesOnlyDropped(s, actions[0]);
    }
  }

  /** A step in which a call of `finish` returns without raising. */
  predicate ReturnsNormally(s: State, action: Action) {
    && (action.FinishCalled? || (action.WorkerJoined? && s.caller.Flushing?))
    && Next(s, action).caller.Accepted?
  }

  /** A `finish` that returns normally means that the callback received exactly what was emitted
      if and only if no abort and no cancelled `finish` ever came while an event was queued. */
  lemma NormalFinishDeliveredAll(actions: seq<Action>, action: Action)
    requires ReturnsNormally(Run(INITIAL, actions), action)
    ensures var t := Next(Run(INITIAL, actions), action);
            t.received == t.emitted <==> !Dropped(INITIAL, actions)
  {
    ReachableInv(INITIAL, actions);
    var s := Run(INITIAL, actions);
    RunLosesOnlyDropped(INITIAL, actions);
    assert s.queue == [] && s.received + [] == s.received;
  }

  /** The caller of a `finish` that was cancelled in mid-flush can call it again: it returns
      normally, though what was queued is gone. */
  lemma CancelledFinishThenFinish()
    ensures var t := Run(INITIAL, [Emit(1, true), FinishCalled, FinishCancelled, FinishCalled]);
            t.caller.Accepted? && t.emitted == [1] && t.received == []
  {
    var emitted := Next(INITIAL, Emit(1, true));
    var flushing := Next(emitted, FinishCalled);
    var cancelled := Next(flushing, FinishCancelled);
    assert emitted.queue == [Event(1)] && emitted.emitted == [1];
    assert Run(INITIAL, [Emit(1, true), FinishCalled, FinishCancelled, FinishCalled])
        == Run(emitted, [FinishCalled, FinishCancelled, FinishCalled])
        == Run(flushing, [FinishCancelled, FinishCalled])
        == Run(cancelled, [FinishCalled])
        == Next(cancelled, FinishCalled);
  }

  /** After an abort it means nothing of the kind: `finish` then returns normally unless delivery
      had already failed, and everything was delivered exactly if nothing was left queued. */
  lemma FinishAfterAbort(s: State)
    requires Inv(s) && !s.caller.Flushing? && !s.worker.Cancelled? && !s.failed
    ensures var t := Next(Next(s, Aborted), FinishCalled);
            t.caller.Accepted? && (t.received == t.emitted <==> Events(s.queue) == [])
  {
    assert s.received + Events(s.queue) == s.received <==> Events(s.queue) == [];
  }

  // ---------- The dispatcher ----------

  class ProgressDispatcher {
    var queue: seq<Item>
    var failed: bool
    var closed: bool
    var finished: bool
    ghost var emitted: seq<nat>
    ghost var received: seq<nat>

    /** The dispatcher between two awaits, with a worker that waits for its next item. */
    ghost function Model(): State
      reads this
    {
      State(queue, failed, closed, finished, if finished then Returned else Waiting,
            if finished then (if failed then Refused else Accepted) else if closed then Flushing else NotCalled,
            emitted, received)
    }

    ghost predicate Valid()
      reads this
    {
      Inv(Model())
    }

    constructor ()
      ensures Valid() && !failed && !finished && emitted == [] && received == []
    {
      queue := [];
      failed, closed, finished := false, false, false;
      emitted, received := [], [];
    }

    method Emit(id: nat, known: bool)
      requires Valid()
      modifies this
      ensures Valid() && emitted == old(emitted) + [id] && received == old(received)
      ensures finished == old(finished) && closed == old(closed)
      ensures if old(closed) || !known || QUEUE_CAPACITY <= |old(queue)| then failed && queue == old(queue)
              else failed == old(failed) && queue == old(queue) + [Event(id)]
    {
      EventsAppend(queue, Event(id));
      emitted := emitted + [id];
      if closed || !known || QUEUE_CAPACITY <= |queue| {
        failed := true;
      } else {
        queue := queue + [Event(id)];
      }
    }

    /** One turn of the worker's loop on an event; `accepted` is the callback's behaviour. */
    method Deliver(accepted: bool)
      requires Valid() && !finished && queue != [] && queue[0].Event?
      modifies this
      ensures Valid() && queue == old(queue)[1..] && emitted == old(emitted)
      ensures closed == old(closed) && finished == old(finished)
      ensures received == if old(failed) then old(received) else old(received) + [old(queue)[0].id]
      ensures failed == (old(failed) || !accepted)
    {
      ghost var was := Model();
      NextKeepsInv(was, Take);
      NextKeepsInv(Next(was, Take), CallbackDone(accepted));
      hide Inv;
      var item := queue[0];
      queue := queue[1..];
      if !failed {
        received := received + [item.id];
      }
      failed := failed || !accepted;
      assert Next(Next(was, Take), CallbackDone(accepted)) == Model();
    }

    /** Close and flush with a worker that keeps up: everything queued is taken in order, and the
        call succeeds exactly when nothing had failed and the callback accepts every event. */
    method Finish(accepts: nat -> bool) returns (ok: bool)
      requires Valid() && !closed && |queue| < QUEUE_CAPACITY
      modifies this
      ensures Valid() && finished && closed && queue == [] && emitted == old(emitted)
      ensures ok <==> !old(failed) && AllAccepted(old(queue), accepts)
      ensures ok ==> received == emitted
    {
      assert !finished;
      hide Inv;
      AllAcceptedAppend(queue, accepts);
      NextKeepsInv(Model(), FinishCalled);
      QueueBehindClose(Next(Model(), FinishCalled));
      ghost var promised := !failed && AllAccepted(queue, accepts);
      closed := true;
      queue := queue + [Close];
      while queue[0].Event?
        invariant Valid() && closed && !finished && emitted == old(emitted)
        invariant queue != [] && queue[|queue| - 1] == Close
        invariant promised <==> !failed && AllAccepted(queue, accepts)
        decreases |queue|
      {
        Deliver(accepts(queue[0].id));
      }
      ghost var last := Model();
      QueueBehindClose(last);
      NextKeepsInv(last, Take);
      NextKeepsInv(Next(last, Take), WorkerJoined);
      assert queue == [Close];
      queue := [];
      finished := true;
      ok := !failed;
      assert Next(Next(last, Take), WorkerJoined) == Model();
    }
  }

  /** Nothing is queued behind the sentinel, and unless delivery failed nothing was lost. */
  lemma QueueBehindClose(s: State)
    requires Inv(s)
    ensures forall i :: 0 <= i < |s.queue| - 1 ==> s.queue[i].Event?
    ensures s.queue == [Close] && !s.failed && s.worker.Waiting? ==> s.received == s.emitted
  {
    if s.queue == [Close] {
      assert s.queue[1..] == [] && Events(s.queue) == [] + Events(s.queue[1..]);
      assert s.received + [] == s.received;
    }
  }

  /** The callback accepts every queued event. */
  predicate AllAccepted(queue: seq<Item>, accepts: nat -> bool) {
    queue == [] || ((queue[0].Event? ==> accepts(queue[0].id)) && AllAccepted(queue[1..], accepts))
  }

  lemma {:induction false} AllAcceptedAppend(queue: seq<Item>, accepts: nat -> bool)
    ensures AllAccepted(queue + [Close], accepts) <==> AllAccepted(queue, accepts)
    decreases |queue|
  {
    if queue != [] {
      assert (queue + [Close])[1..] == queue[1..] + [Close];
      AllAcceptedAppend(queue[1..], accepts);
    }
  }
}
