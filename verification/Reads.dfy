/** Durable reads of one investigation: each external read is charged, checkpointed, authorised,
    dispatched, recorded and audited, one await at a time, by workers that may crash or be fenced
    off in between; a later worker restores what was recorded and repeats what was not. */
module Reads {
  import opened Wrappers
  import L = LeaseFence

  /** The controller audit and the observation of one finished probe, as opaque contents. */
  datatype Outcome = Outcome(audit: nat, observation: Option<nat>)

  /** STARTED without a result, RECORDED with one. Its identifier is its sequence and request. */
  datatype Checkpoint = Checkpoint(request: nat, result: Option<Outcome>)

  /** One probe charge; every attempt adds a new entry. The worker is history. */
  datatype Charge = Charge(worker: nat, sequence: nat)

  datatype Phase =
    | Idle
    | Opening(recovering: bool)
    | Surveying(recovering: bool, seen: set<nat>)
    | Ready
    | Looking(request: nat)
    | Restoring(request: nat, found: Checkpoint)
    | Fresh(request: nat)
    | Charging(request: nat)
    | Starting(request: nat, ticket: nat)
    | Authorising(request: nat, ticket: nat)
    | Validating(request: nat, ticket: nat)
    | Dispatching(request: nat, ticket: nat)
    | Handling(request: nat)
    | Recording(request: nat, outcome: Outcome)
    | Auditing(outcome: Outcome, dispatched: bool)
    | Drifted
    | Stopped

  /** `trail` is the controller's own audit trail: the probes it executed or restored. */
  datatype Worker = Worker(token: Option<L.Token>, trail: seq<Outcome>, phase: Phase) {
    function Step(): nat { |trail| + 1 }
  }

  /** Checkpoints are keyed by their step sequence. The last two fields are history: the step
      each dispatched read was for, by the ledger entry that paid for it, and whether a worker
      ever stopped between recording a read and recording its audit. */
  datatype System = System(
    checkpoints: map<nat, Checkpoint>, audits: seq<nat>, ledger: seq<Charge>,
    lease: L.LeaseRow, workers: seq<Worker>, dispatches: map<nat, nat>, torn: bool)
  {
    function At(w: nat, phase: Phase): System
      requires w < |workers|
    {
      this.(workers := workers[w := workers[w].(phase := phase)])
    }

    predicate Owns(w: nat)
      requires w < |workers|
    {
      lease.held.Some? && workers[w].token == lease.held
    }

    predicate Fenced(w: nat, now: int)
      requires w < |workers|
    {
      workers[w].token.Some? && lease.Accepts(workers[w].token.value, now)
    }
  }

  function Initial(workers: nat): System {
    System(map[], [], [], L.LeaseRow(0, None), seq(workers, _ => Worker(None, [], Idle)), map[], false)
  }

  /** What the budgets, the clocks and the external handler decide at one step. */
  datatype Choice = Choice(accepted: bool, skip: bool, outcome: Outcome)

  datatype Action =
    | Acquire(w: nat, now: int, recovering: bool)
    | Execute(w: nat, request: nat)
    | Reject(w: nat, audit: nat)
    | Proceed(w: nat, now: int, choice: Choice)
    | Raise(w: nat)
    | Heartbeat(w: nat, now: int, acknowledged: bool)
    | Leave(w: nat, now: int)
    | Crash(w: nat)

  // ---------- Steps ----------

  /** Whether recovery goes on: every stored audit belongs to a checkpoint. */
  predicate Covered(audits: seq<nat>, seen: set<nat>) {
    forall n :: 1 <= n <= |audits| ==> n in seen
  }

  /** `before_dispatch`, first read: what is stored under this step decides where to look next. */
  function Look(s: System, w: nat, request: nat): System
    requires w < |s.workers|
  {
    var n := s.workers[w].Step();
    s.At(w, if n in s.checkpoints then
              if s.checkpoints[n].request != request then Drifted
              else if s.checkpoints[n].result.Some? then Restoring(request, s.checkpoints[n])
              else Fresh(request)
            else if exists k <- s.checkpoints :: n <= k then Drifted
            else Fresh(request))
  }

  predicate Paired(audits: seq<nat>, n: nat, found: Checkpoint) {
    found.result.Some? && 1 <= n <= |audits| && audits[n - 1] == found.result.value.audit
  }

  function Restore(s: System, w: nat, found: Checkpoint): System
    requires w < |s.workers|
  {
    s.At(w, if Paired(s.audits, s.workers[w].Step(), found) then Auditing(found.result.value, false)
            else Drifted)
  }

  function CheckFresh(s: System, w: nat, request: nat): System
    requires w < |s.workers|
  {
    s.At(w, if s.workers[w].Step() <= |s.audits| then Drifted else Charging(request))
  }

  /** The fenced charge. A deadline refusal is audited without a dispatch, any other raises. */
  function ChargeProbe(s: System, w: nat, now: int, request: nat, choice: Choice): System
    requires w < |s.workers|
  {
    if !s.Fenced(w, now) then s.At(w, Stopped)
    else if choice.accepted then
      s.(ledger := s.ledger + [Charge(w, s.workers[w].Step())]).At(w, Starting(request, |s.ledger|))
    else s.At(w, if choice.skip then Auditing(Outcome(choice.outcome.audit, None), false) else Stopped)
  }

  /** The fenced checkpoint: an identical one is returned, a new one must come after all others. */
  function StartProbe(s: System, w: nat, now: int, request: nat, ticket: nat, choice: Choice): System
    requires w < |s.workers|
  {
    var n := s.workers[w].Step();
    if !s.Fenced(w, now) then s.At(w, Stopped)
    else if n in s.checkpoints && s.checkpoints[n].request == request then
      s.At(w, if s.checkpoints[n].result.Some? then Drifted else Authorising(request, ticket))
    else if !choice.accepted then
      s.At(w, if choice.skip then Auditing(Outcome(choice.outcome.audit, None), false) else Stopped)
    else if exists k <- s.checkpoints :: n <= k then s.At(w, Stopped)
    else s.(checkpoints := s.checkpoints[n := Checkpoint(request, None)]).At(w, Authorising(request, ticket))
  }

  function Authorise(s: System, w: nat, request: nat, ticket: nat, choice: Choice): System
    requires w < |s.workers|
  {
    var n := s.workers[w].Step();
    s.At(w, if n !in s.checkpoints || s.checkpoints[n] != Checkpoint(request, None) then Drifted
            else if choice.skip then Recording(request, Outcome(choice.outcome.audit, None))
            else Validating(request, ticket))
  }

  /** The fence is checked once more; after this await the handler is called. */
  function Validate(s: System, w: nat, now: int, request: nat, ticket: nat, choice: Choice): System
    requires w < |s.workers|
  {
    s.At(w, if !s.Fenced(w, now) then Stopped
            else if choice.skip then Recording(request, Outcome(choice.outcome.audit, None))
            else Dispatching(request, ticket))
  }

  function Dispatch(s: System, w: nat, request: nat, ticket: nat): System
    requires w < |s.workers|
  {
    s.(dispatches := s.dispatches[ticket := s.workers[w].Step()]).At(w, Handling(request))
  }

  /** A recorded result is returned unchanged to an exact replay and never overwritten. */
  function Record(s: System, w: nat, now: int, request: nat, outcome: Outcome): System
    requires w < |s.workers|
  {
    var n := s.workers[w].Step();
    if !s.Fenced(w, now) || n !in s.checkpoints || s.checkpoints[n].request != request
       || (s.checkpoints[n].result.Some? && s.checkpoints[n].result != Some(outcome))
    then s.At(w, Stopped)
    else
      s.(checkpoints := s.checkpoints[n := Checkpoint(request, Some(outcome))]).At(w, Auditing(outcome, true))
  }

  /** The audit log takes the next audit or an exact replay; then the probe is on the trail. */
  function Audit(s: System, w: nat, now: int, outcome: Outcome): System
    requires w < |s.workers|
  {
    var n := s.workers[w].Step();
    var worker := s.workers[w];
    var done := s.workers[w := worker.(trail := worker.trail + [outcome], phase := Ready)];
    if s.Fenced(w, now) && n == |s.audits| + 1 then s.(audits := s.audits + [outcome.audit], workers := done)
    else if s.Fenced(w, now) && n <= |s.audits| && s.audits[n - 1] == outcome.audit then s.(workers := done)
    else s.At(w, Stopped).(torn := s.torn || worker.phase == Auditing(outcome, true))
  }

  function AfterProceed(s: System, w: nat, now: int, choice: Choice): System
    requires w < |s.workers|
  {
    match s.workers[w].phase
    case Opening(recovering) => s.At(w, Surveying(recovering, s.checkpoints.Keys))
    case Surveying(recovering, seen) =>
      s.At(w, if recovering && !Covered(s.audits, seen) then Stopped else Ready)
    case Looking(request) => Look(s, w, request)
    case Restoring(_, found) => Restore(s, w, found)
    case Fresh(request) => CheckFresh(s, w, request)
    case Charging(request) => ChargeProbe(s, w, now, request, choice)
    case Starting(request, ticket) => StartProbe(s, w, now, request, ticket, choice)
    case Authorising(request, ticket) => Authorise(s, w, request, ticket, choice)
    case Validating(request, ticket) => Validate(s, w, now, request, ticket, choice)
    case Dispatching(request, ticket) => Dispatch(s, w, request, ticket)
    case Handling(request) => s.At(w, Recording(request, choice.outcome))
    case Recording(request, outcome) => Record(s, w, now, request, outcome)
    case Auditing(outcome, _) => Audit(s, w, now, outcome)
    case _ => s
  }

  predicate MidPair(worker: Worker) {
    worker.phase.Auditing? && worker.phase.dispatched
  }

  /** A takeover while the last owner stands between its two writes leaves them apart. */
  function AfterAcquire(s: System, w: nat, now: int, recovering: bool): System
    requires w < |s.workers|
  {
    if !s.workers[w].phase.Idle? then s
    else match s.lease.Acquire(w, now)
      case Success((row, token)) =>
        var left := s.lease.held.Some? && s.lease.held.value.owner < |s.workers|
                    && MidPair(s.workers[s.lease.held.value.owner]);
        s.(lease := row, workers := s.workers[w := Worker(Some(token), [], Opening(recovering))],
           torn := s.torn || left)
      case Failure(_) => s
  }

  function AfterHeartbeat(s: System, w: nat, now: int, acknowledged: bool): System
    requires w < |s.workers|
  {
    var worker := s.workers[w];
    if worker.token.None? then s
    else match s.lease.Renew(worker.token.value, now)
      case Success((row, token)) =>
        if acknowledged then s.(lease := row, workers := s.workers[w := worker.(token := Some(token))])
        else s.(lease := row)
      case Failure(_) => s
  }

  function AfterCrash(s: System, w: nat): System
    requires w < |s.workers|
  {
    s.(workers := s.workers[w := Worker(None, [], Idle)], torn := s.torn || MidPair(s.workers[w]))
  }

  function AfterLeave(s: System, w: nat, now: int): System
    requires w < |s.workers|
  {
    var freed :=
      if s.workers[w].token.None? then s.lease
      else match s.lease.Release(s.workers[w].token.value, now)
        case Success(row) => row
        case Failure(_) => s.lease;
    AfterCrash(s, w).(lease := freed)
  }

  function Next(s: System, action: Action): System {
    if |s.workers| <= action.w then s
    else match action
      case Acquire(w, now, recovering) => AfterAcquire(s, w, now, recovering)
      case Execute(w, request) => if s.workers[w].phase.Ready? then s.At(w, Looking(request)) else s
      case Reject(w, audit) =>
        if s.workers[w].phase.Ready? then s.At(w, Auditing(Outcome(audit, None), false)) else s
      case Proceed(w, now, choice) => AfterProceed(s, w, now, choice)
      case Raise(w) =>
        if s.workers[w].phase.Idle? then s
        else s.At(w, Stopped).(torn := s.torn || MidPair(s.workers[w]))
      case Heartbeat(w, now, acknowledged) => AfterHeartbeat(s, w, now, acknowledged)
      case Leave(w, now) => AfterLeave(s, w, now)
      case Crash(w) => AfterCrash(s, w)
  }

  function Run(s: System, actions: seq<Action>): System
    decreases actions
  {
    if actions == [] then s else Run(Next(s, actions[0]), actions[1..])
  }

  // ---------- What every reachable state satisfies ----------

  predicate Started(s: System, n: nat, request: nat) {
    n in s.checkpoints && s.checkpoints[n] == Checkpoint(request, None)
  }

  /** No checkpoint at or after step `n`, or the one this worker left there unfinished. */
  ghost predicate Open(s: System, n: nat, request: nat) {
    Started(s, n, request) || forall k <- s.checkpoints :: k < n
  }

  /** What a worker that still owns the lease knows about the store. */
  ghost predicate Current(s: System, worker: Worker) {
    var n := worker.Step();
    && |worker.trail| <= |s.audits|
    && (forall i :: 0 <= i < |worker.trail| ==> worker.trail[i].audit == s.audits[i])
    && match worker.phase
       case Restoring(request, found) =>
         n in s.checkpoints && s.checkpoints[n] == found && found.request == request && found.result.Some?
       case Fresh(request) => Open(s, n, request)
       case Charging(request) => Open(s, n, request) && n == |s.audits| + 1
       case Starting(request, _) => Open(s, n, request) && n == |s.audits| + 1
       case Authorising(request, _) => Started(s, n, request) && n == |s.audits| + 1
       case Validating(request, _) => Started(s, n, request) && n == |s.audits| + 1
       case Dispatching(request, _) => Started(s, n, request) && n == |s.audits| + 1
       case Handling(request) => Started(s, n, request) && n == |s.audits| + 1
       case Recording(request, _) => Started(s, n, request) && n == |s.audits| + 1
       case Auditing(outcome, true) =>
         n == |s.audits| + 1 && n in s.checkpoints && s.checkpoints[n].result == Some(outcome)
       case _ => true
  }

  /** The ledger entry that paid for the read a worker is about to make. */
  predicate HoldsTicket(s: System, w: nat, ticket: nat)
    requires w < |s.workers|
  {
    ticket < |s.ledger| && ticket !in s.dispatches && s.ledger[ticket] == Charge(w, s.workers[w].Step())
  }

  ghost predicate WorkerInv(s: System, w: nat)
    requires w < |s.workers|
  {
    var worker := s.workers[w];
    && (worker.phase.Idle? <==> worker.token.None?)
    && (worker.token.Some? ==> worker.token.value.owner == w)
    && (s.Owns(w) ==> Current(s, worker))
    && match worker.phase
       case Starting(_, ticket) => HoldsTicket(s, w, ticket)
       case Authorising(_, ticket) => HoldsTicket(s, w, ticket)
       case Validating(_, ticket) => HoldsTicket(s, w, ticket)
       case Dispatching(_, ticket) => HoldsTicket(s, w, ticket)
       case _ => true
  }

  /** The owner of the lease row stands between recording step `n` and recording its audit. */
  predicate BetweenWrites(s: System, n: nat) {
    && s.lease.held.Some? && s.lease.held.value.owner < |s.workers|
    && var worker := s.workers[s.lease.held.value.owner];
       MidPair(worker) && worker.Step() == n && n == |s.audits| + 1
  }

  ghost predicate StoreInv(s: System) {
    && s.lease.Valid()
    && (s.lease.held.Some? ==> s.lease.held.value.owner < |s.workers|)
    && (forall n <- s.checkpoints :: 1 <= n)
    && (forall n <- s.checkpoints :: exists t :: 0 <= t < |s.ledger| && s.ledger[t].sequence == n)
    && (forall t <- s.dispatches :: t < |s.ledger| && s.dispatches[t] == s.ledger[t].sequence)
    && (!s.torn ==> forall n <- s.checkpoints ::
          s.checkpoints[n].result.Some? ==> Paired(s.audits, n, s.checkpoints[n]) || BetweenWrites(s, n))
  }

  ghost predicate Inv(s: System) {
    StoreInv(s) && forall w :: 0 <= w < |s.workers| ==> WorkerInv(s, w)
  }

  // ---------- Every step keeps the invariant ----------

  /** A worker's own step: the lease and the other workers are as before, and what is stored
      only changes for a worker that owns the lease. */
  lemma StepKeepsInv(s: System, t: System, w: nat)
    requires Inv(s) && w < |s.workers| && StoreInv(t)
    requires |t.workers| == |s.workers| && t.workers == s.workers[w := t.workers[w]]
    requires t.lease == s.lease && WorkerInv(t, w)
    requires (t.checkpoints == s.checkpoints && t.audits == s.audits) || s.Owns(w)
    requires s.ledger <= t.ledger
    requires forall k <- t.dispatches :: k in s.dispatches || (k < |s.ledger| && s.ledger[k].worker == w)
    ensures Inv(t)
  {
    forall v | 0 <= v < |t.workers|
      ensures WorkerInv(t, v)
    {
      if v != w {
        assert WorkerInv(s, v) && WorkerInv(s, w);
      }
    }
  }

  lemma QuietKeepsInv(s: System, w: nat, phase: Phase)
    requires Inv(s) && w < |s.workers| && !s.workers[w].phase.Idle? && !phase.Idle? && !MidPair(s.workers[w])
    requires WorkerInv(s.At(w, phase), w)
    ensures Inv(s.At(w, phase))
  {
    StepKeepsInv(s, s.At(w, phase), w);
  }

  lemma LookKeepsInv(s: System, w: nat, request: nat)
    requires Inv(s) && w < |s.workers| && s.workers[w].phase == Looking(request)
    ensures Inv(Look(s, w, request))
  {
    assert WorkerInv(s, w);
    QuietKeepsInv(s, w, Look(s, w, request).workers[w].phase);
  }

  lemma RestoreKeepsInv(s: System, w: nat, request: nat, found: Checkpoint)
    requires Inv(s) && w < |s.workers| && s.workers[w].phase == Restoring(request, found)
    ensures Inv(Restore(s, w, found))
  {
    assert WorkerInv(s, w);
    QuietKeepsInv(s, w, Restore(s, w, found).workers[w].phase);
  }

  lemma CheckFreshKeepsInv(s: System, w: nat, request: nat)
    requires Inv(s) && w < |s.workers| && s.workers[w].phase == Fresh(request)
    ensures Inv(CheckFresh(s, w, request))
  {
    assert WorkerInv(s, w);
    QuietKeepsInv(s, w, CheckFresh(s, w, request).workers[w].phase);
  }

  lemma ChargeKeepsInv(s: System, w: nat, now: int, request: nat, choice: Choice)
    requires Inv(s) && w < |s.workers| && s.workers[w].phase == Charging(request)
    ensures Inv(ChargeProbe(s, w, now, request, choice))
  {
    var t := ChargeProbe(s, w, now, request, choice);
    assert WorkerInv(s, w);
    if s.Fenced(w, now) && choice.accepted {
      forall n <- t.checkpoints
        ensures exists k :: 0 <= k < |t.ledger| && t.ledger[k].sequence == n
      {
        var k :| 0 <= k < |s.ledger| && s.ledger[k].sequence == n;
        assert t.ledger[k].sequence == n;
      }
      StepKeepsInv(s, t, w);
    } else {
      QuietKeepsInv(s, w, t.workers[w].phase);
    }
  }

  lemma CheckpointedKeepsInv(s: System, w: nat, request: nat, ticket: nat)
    requires Inv(s) && w < |s.workers| && s.workers[w].phase == Starting(request, ticket) && s.Owns(w)
    requires forall k <- s.checkpoints :: k < s.workers[w].Step()
    ensures Inv(s.(checkpoints := s.checkpoints[s.workers[w].Step() := Checkpoint(request, None)])
                 .At(w, Authorising(request, ticket)))
  {
    assert WorkerInv(s, w);
    StepKeepsInv(s, s.(checkpoints := s.checkpoints[s.workers[w].Step() := Checkpoint(request, None)])
                     .At(w, Authorising(request, ticket)), w);
  }

  lemma StartKeepsInv(s: System, w: nat, now: int, request: nat, ticket: nat, choice: Choice)
    requires Inv(s) && w < |s.workers| && s.workers[w].phase == Starting(request, ticket)
    ensures Inv(StartProbe(s, w, now, request, ticket, choice))
  {
    var n := s.workers[w].Step();
    var t := StartProbe(s, w, now, request, ticket, choice);
    assert WorkerInv(s, w);
    if s.Fenced(w, now) && n !in s.checkpoints && choice.accepted && forall k <- s.checkpoints :: k < n {
      CheckpointedKeepsInv(s, w, request, ticket);
    } else {
      assert t == s.At(w, t.workers[w].phase);
      QuietKeepsInv(s, w, t.workers[w].phase);
    }
  }

  lemma AuthoriseKeepsInv(s: System, w: nat, request: nat, ticket: nat, choice: Choice)
    requires Inv(s) && w < |s.workers| && s.workers[w].phase == Authorising(request, ticket)
    ensures Inv(Authorise(s, w, request, ticket, choice))
  {
    assert WorkerInv(s, w);
    QuietKeepsInv(s, w, Authorise(s, w, request, ticket, choice).workers[w].phase);
  }

  lemma ValidateKeepsInv(s: System, w: nat, now: int, request: nat, ticket: nat, choice: Choice)
    requires Inv(s) && w < |s.workers| && s.workers[w].phase == Validating(request, ticket)
    ensures Inv(Validate(s, w, now, request, ticket, choice))
  {
    assert WorkerInv(s, w);
    QuietKeepsInv(s, w, Validate(s, w, now, request, ticket, choice).workers[w].phase);
  }

  lemma DispatchKeepsInv(s: System, w: nat, request: nat, ticket: nat)
    requires Inv(s) && w < |s.workers| && s.workers[w].phase == Dispatching(request, ticket)
    ensures Inv(Dispatch(s, w, request, ticket))
  {
    assert WorkerInv(s, w);
    StepKeepsInv(s, Dispatch(s, w, request, ticket), w);
  }

  lemma RecordedKeepsInv(s: System, w: nat, request: nat, outcome: Outcome)
    requires Inv(s) && w < |s.workers| && s.workers[w].phase == Recording(request, outcome) && s.Owns(w)
    ensures Inv(s.(checkpoints := s.checkpoints[s.workers[w].Step() := Checkpoint(request, Some(outcome))])
                 .At(w, Auditing(outcome, true)))
  {
    assert WorkerInv(s, w);
    StepKeepsInv(s, s.(checkpoints := s.checkpoints[s.workers[w].Step() := Checkpoint(request, Some(outcome))])
                     .At(w, Auditing(outcome, true)), w);
  }

  lemma RecordKeepsInv(s: System, w: nat, now: int, request: nat, outcome: Outcome)
    requires Inv(s) && w < |s.workers| && s.workers[w].phase == Recording(request, outcome)
    ensures Inv(Record(s, w, now, request, outcome))
  {
    assert WorkerInv(s, w);
    if s.Owns(w) {
      RecordedKeepsInv(s, w, request, outcome);
    }
    QuietKeepsInv(s, w, Stopped);
  }

  lemma AuditedKeepsInv(s: System, w: nat, outcome: Outcome, audits: seq<nat>)
    requires Inv(s) && w < |s.workers| && s.Owns(w)
    requires s.workers[w].phase.Auditing? && s.workers[w].phase.outcome == outcome
    requires audits == s.audits || audits == s.audits + [outcome.audit]
    requires s.workers[w].Step() <= |audits| && audits[s.workers[w].Step() - 1] == outcome.audit
    ensures var worker := s.workers[w];
            Inv(s.(audits := audits,
                   workers := s.workers[w := worker.(trail := worker.trail + [outcome], phase := Ready)]))
  {
    var worker := s.workers[w];
    var t := s.(audits := audits,
                workers := s.workers[w := worker.(trail := worker.trail + [outcome], phase := Ready)]);
    assert WorkerInv(s, w);
    StepKeepsInv(s, t, w);
  }

  lemma AuditKeepsInv(s: System, w: nat, now: int, outcome: Outcome)
    requires Inv(s) && w < |s.workers|
    requires s.workers[w].phase.Auditing? && s.workers[w].phase.outcome == outcome
    ensures Inv(Audit(s, w, now, outcome))
  {
    assert WorkerInv(s, w);
    var n := s.workers[w].Step();
    if s.Fenced(w, now) && n == |s.audits| + 1 {
      AuditedKeepsInv(s, w, outcome, s.audits + [outcome.audit]);
    } else if s.Fenced(w, now) && n <= |s.audits| && s.audits[n - 1] == outcome.audit {
      AuditedKeepsInv(s, w, outcome, s.audits);
    } else {
      StepKeepsInv(s, Audit(s, w, now, outcome), w);
    }
  }

  lemma ProceedKeepsInv(s: System, w: nat, now: int, choice: Choice)
    requires Inv(s) && w < |s.workers|
    ensures Inv(AfterProceed(s, w, now, choice))
  {
    assert WorkerInv(s, w);
    match s.workers[w].phase
    case Opening(recovering) => QuietKeepsInv(s, w, Surveying(recovering, s.checkpoints.Keys));
    case Surveying(recovering, seen) =>
      QuietKeepsInv(s, w, if recovering && !Covered(s.audits, seen) then Stopped else Ready);
    case Looking(request) => LookKeepsInv(s, w, request);
    case Restoring(request, found) => RestoreKeepsInv(s, w, request, found);
    case Fresh(request) => CheckFreshKeepsInv(s, w, request);
    case Charging(request) => ChargeKeepsInv(s, w, now, request, choice);
    case Starting(request, ticket) => StartKeepsInv(s, w, now, request, ticket, choice);
    case Authorising(request, ticket) => AuthoriseKeepsInv(s, w, request, ticket, choice);
    case Validating(request, ticket) => ValidateKeepsInv(s, w, now, request, ticket, choice);
    case Dispatching(request, ticket) => DispatchKeepsInv(s, w, request, ticket);
    case Handling(request) => QuietKeepsInv(s, w, Recording(request, choice.outcome));
    case Recording(request, outcome) => RecordKeepsInv(s, w, now, request, outcome);
    case Auditing(outcome, _) => AuditKeepsInv(s, w, now, outcome);
    case _ =>
  }

  lemma AcquireKeepsInv(s: System, w: nat, now: int, recovering: bool)
    requires Inv(s) && w < |s.workers|
    ensures Inv(AfterAcquire(s, w, now, recovering))
  {
    var t := AfterAcquire(s, w, now, recovering);
    assert WorkerInv(s, w);
    forall v | 0 <= v < |t.workers|
      ensures WorkerInv(t, v)
    {
      assert WorkerInv(s, v);
    }
  }

  lemma HeartbeatKeepsInv(s: System, w: nat, now: int, acknowledged: bool)
    requires Inv(s) && w < |s.workers|
    ensures Inv(AfterHeartbeat(s, w, now, acknowledged))
  {
    var t := AfterHeartbeat(s, w, now, acknowledged);
    assert WorkerInv(s, w);
    forall v | 0 <= v < |t.workers|
      ensures WorkerInv(t, v)
    {
      assert WorkerInv(s, v);
    }
  }

  lemma LeaveKeepsInv(s: System, w: nat, now: int)
    requires Inv(s) && w < |s.workers|
    ensures Inv(AfterLeave(s, w, now))
  {
    var t := AfterLeave(s, w, now);
    assert WorkerInv(s, w);
    forall v | 0 <= v < |t.workers|
      ensures WorkerInv(t, v)
    {
      assert WorkerInv(s, v);
    }
  }

  lemma CrashKeepsInv(s: System, w: nat)
    requires Inv(s) && w < |s.workers|
    ensures Inv(AfterCrash(s, w))
  {
    var t := AfterCrash(s, w);
    assert WorkerInv(s, w);
    forall v | 0 <= v < |t.workers|
      ensures WorkerInv(t, v)
    {
      assert WorkerInv(s, v);
    }
  }

  lemma RaiseKeepsInv(s: System, w: nat)
    requires Inv(s) && w < |s.workers|
    ensures Inv(Next(s, Raise(w)))
  {
    assert WorkerInv(s, w);
    StepKeepsInv(s, Next(s, Raise(w)), w);
  }

  /** A worker that is ready is handed a request, or refuses one on its own. */
  lemma RequestKeepsInv(s: System, w: nat, phase: Phase)
    requires Inv(s) && w < |s.workers| && s.workers[w].phase.Ready?
    requires phase.Looking? || (phase.Auditing? && !phase.dispatched && phase.outcome.observation.None?)
    ensures Inv(s.At(w, phase))
  {
    assert WorkerInv(s, w);
    QuietKeepsInv(s, w, phase);
  }

  lemma NextKeepsInv(s: System, action: Action)
    requires Inv(s)
    ensures Inv(Next(s, action))
  {
    hide Inv;
    if action.w < |s.workers| {
      match action
      case Acquire(w, now, recovering) => AcquireKeepsInv(s, w, now, recovering);
      case Execute(w, request) => if s.workers[w].phase.Ready? { RequestKeepsInv(s, w, Looking(request)); }
      case Reject(w, audit) =>
        if s.workers[w].phase.Ready? { RequestKeepsInv(s, w, Auditing(Outcome(audit, None), false)); }
      case Proceed(w, now, choice) => ProceedKeepsInv(s, w, now, choice);
      case Raise(w) => RaiseKeepsInv(s, w);
      case Heartbeat(w, now, acknowledged) => HeartbeatKeepsInv(s, w, now, acknowledged);
      case Leave(w, now) => LeaveKeepsInv(s, w, now);
      case Crash(w) => CrashKeepsInv(s, w);
    }
  }

  lemma {:induction false} ReachableInv(s: System, actions: seq<Action>)
    requires Inv(s)
    ensures Inv(Run(s, actions))
    decreases actions
  {
    if actions != [] {
      NextKeepsInv(s, actions[0]);
      ReachableInv(Next(s, actions[0]), actions[1..]);
    }
  }

  // ---------- Every crashing run ----------

  lemma ReachedInv(workers: nat, actions: seq<Action>)
    ensures Inv(Run(Initial(workers), actions))
  {
    ReachableInv(Initial(workers), actions);
  }

  lemma {:induction false} EntriesFit(entries: set<nat>, n: nat)
    requires forall k <- entries :: k < n
    ensures |entries| <= n
  {
    if n == 0 {
      assert entries == {};
    } else {
      EntriesFit(entries - {n - 1}, n - 1);
    }
  }

  lemma {:induction false} StepsFit(steps: set<nat>, ledger: seq<Charge>)
    requires forall n <- steps :: exists t :: 0 <= t < |ledger| && ledger[t].sequence == n
    ensures |steps| <= |ledger|
    decreases |ledger|
  {
    if ledger == [] {
      assert steps == {};
    } else {
      var before, last := ledger[..|ledger| - 1], ledger[|ledger| - 1];
      forall n <- steps - {last.sequence}
        ensures exists t :: 0 <= t < |before| && before[t].sequence == n
      {
        var t :| 0 <= t < |ledger| && ledger[t].sequence == n;
        assert before[t].sequence == n;
      }
      StepsFit(steps - {last.sequence}, before);
    }
  }

  /** Neither dispatched reads nor checkpoints ever outnumber the charges, however many workers
      crash, take over, or act on a lease they lost: every read has a charge of its own, made
      for the same step. */
  lemma ReadsNeverOutnumberCharges(workers: nat, actions: seq<Action>)
    ensures var s := Run(Initial(workers), actions);
            && |s.dispatches| <= |s.ledger| && |s.checkpoints| <= |s.ledger|
            && forall t <- s.dispatches :: t < |s.ledger| && s.ledger[t].sequence == s.dispatches[t]
  {
    ReachedInv(workers, actions);
    var s := Run(Initial(workers), actions);
    EntriesFit(s.dispatches.Keys, |s.ledger|);
    StepsFit(s.checkpoints.Keys, s.ledger);
    assert |s.dispatches| == |s.dispatches.Keys| && |s.checkpoints| == |s.checkpoints.Keys|;
  }

  predicate Recorded(s: System, n: nat) {
    n in s.checkpoints && s.checkpoints[n].result.Some?
  }

  predicate NotCharged(before: System, after: System, n: nat) {
    && before.ledger <= after.ledger
    && forall k :: |before.ledger| <= k < |after.ledger| ==> after.ledger[k].sequence != n
  }

  /** One step against a recorded read: its checkpoint stays and nothing is charged for it. */
  lemma RecordedReadStays(s: System, action: Action, n: nat)
    requires Inv(s) && Recorded(s, n)
    ensures KeepsRecorded(s, Next(s, action), n)
  {
    if action.Proceed? && action.w < |s.workers| {
      RecordedReadSurvives(s, action.w, action.now, action.choice, n);
    }
  }

  lemma RecordedSurvivesCharge(s: System, w: nat, now: int, request: nat, choice: Choice, n: nat)
    requires Inv(s) && Recorded(s, n) && w < |s.workers| && s.workers[w].phase == Charging(request)
    ensures KeepsRecorded(s, ChargeProbe(s, w, now, request, choice), n)
  {
    assert WorkerInv(s, w);
  }

  lemma RecordedSurvivesStart(s: System, w: nat, now: int, request: nat, ticket: nat, choice: Choice, n: nat)
    requires Inv(s) && Recorded(s, n) && w < |s.workers| && s.workers[w].phase == Starting(request, ticket)
    ensures KeepsRecorded(s, StartProbe(s, w, now, request, ticket, choice), n)
  {
    assert WorkerInv(s, w);
  }

  lemma RecordedReadSurvives(s: System, w: nat, now: int, choice: Choice, n: nat)
    requires Inv(s) && Recorded(s, n) && w < |s.workers|
    ensures KeepsRecorded(s, AfterProceed(s, w, now, choice), n)
  {
    hide Inv;
    match s.workers[w].phase
    case Charging(request) => RecordedSurvivesCharge(s, w, now, request, choice, n);
    case Starting(request, ticket) => RecordedSurvivesStart(s, w, now, request, ticket, choice, n);
    case Recording(_, _) =>
    case _ => assert SameStore(s, AfterProceed(s, w, now, choice));
  }

  predicate SameStore(s: System, t: System) {
    t.checkpoints == s.checkpoints && t.ledger == s.ledger
  }

  ghost predicate KeepsRecorded(s: System, t: System, n: nat)
    requires Recorded(s, n)
  {
    Recorded(t, n) && t.checkpoints[n] == s.checkpoints[n] && NotCharged(s, t, n)
  }

  lemma RecordedStep(s: System, w: nat, now: int, choice: Choice)
    requires Inv(s) && w < |s.workers| && Recorded(s, s.workers[w].Step())
    ensures var t := AfterProceed(s, w, now, choice);
            && |t.workers| == |s.workers|
            && (t.workers[w].phase.Dispatching? ==> s.workers[w].phase.Dispatching?)
            && (t.dispatches != s.dispatches ==> s.workers[w].phase.Dispatching? && !s.Owns(w))
  {
    assert WorkerInv(s, w);
  }

  /** Over any run, nobody is authorised to repeat a read that is recorded, and it is dispatched
      again only by a worker that was authorised before it was recorded and has lost the lease. */
  lemma RecordedReadIsNotRepeated(workers: nat, actions: seq<Action>, w: nat, now: int, choice: Choice)
    requires var s := Run(Initial(workers), actions); w < |s.workers| && Recorded(s, s.workers[w].Step())
    ensures var s := Run(Initial(workers), actions);
            var t := Next(s, Proceed(w, now, choice));
            && |t.workers| == |s.workers|
            && (t.workers[w].phase.Dispatching? ==> s.workers[w].phase.Dispatching?)
            && (t.dispatches != s.dispatches ==> s.workers[w].phase.Dispatching? && !s.Owns(w))
  {
    ReachedInv(workers, actions);
    RecordedStep(Run(Initial(workers), actions), w, now, choice);
    hide Inv, AfterProceed;
  }

  /** A recorded read keeps its result and is never charged again, over any further run. */
  lemma {:induction false} RecordedReadIsFinal(s: System, actions: seq<Action>, n: nat)
    requires Inv(s) && Recorded(s, n)
    ensures KeepsRecorded(s, Run(s, actions), n)
    decreases actions
  {
    if actions != [] {
      NextKeepsInv(s, actions[0]);
      RecordedReadStays(s, actions[0], n);
      RecordedReadIsFinal(Next(s, actions[0]), actions[1..], n);
    }
  }

  lemma CheckpointStep(s: System, action: Action)
    ensures var t := Next(s, action);
            && s.checkpoints.Keys <= t.checkpoints.Keys
            && forall n <- t.checkpoints, k <- s.checkpoints :: n !in s.checkpoints ==> k < n
  {
  }

  /** Checkpoint sequences strictly increase in the order of creation: over any run checkpoints
      stay, and every one created later comes after all that were there before. */
  lemma {:induction false} CheckpointsIncrease(s: System, actions: seq<Action>)
    ensures var t := Run(s, actions);
            && s.checkpoints.Keys <= t.checkpoints.Keys
            && forall n <- t.checkpoints, k <- s.checkpoints :: n !in s.checkpoints ==> k < n
    decreases actions
  {
    if actions != [] {
      CheckpointStep(s, actions[0]);
      CheckpointsIncrease(Next(s, actions[0]), actions[1..]);
    }
  }

  /** An owner that found a recorded read takes exactly the stored audit and observation onto
      its trail and stores, charges and dispatches nothing, if and only if the stored audit log
      has that audit at that step; otherwise it stops with drift. */
  lemma RestoredExactly(s: System, w: nat, request: nat, found: Checkpoint, now: int, choice: Choice)
    requires Inv(s) && w < |s.workers| && s.Owns(w) && s.Fenced(w, now)
    requires s.workers[w].phase == Restoring(request, found)
    ensures var n := s.workers[w].Step();
            var t := AfterProceed(AfterProceed(s, w, now, choice), w, now, choice);
            && t.audits == s.audits && t.checkpoints == s.checkpoints
            && t.ledger == s.ledger && t.dispatches == s.dispatches
            && Recorded(s, n)
            && (Paired(s.audits, n, s.checkpoints[n]) ==>
                  t.workers[w].trail == s.workers[w].trail + [s.checkpoints[n].result.value]
                  && t.workers[w].phase.Ready?)
            && (!Paired(s.audits, n, s.checkpoints[n]) ==> t.workers[w].phase.Drifted?)
  {
    assert WorkerInv(s, w);
  }

  /** As long as no worker stopped between its two writes, an owner restores every recorded read. */
  lemma UntornReadIsRestored(workers: nat, actions: seq<Action>, w: nat)
    requires w < |Run(Initial(workers), actions).workers|
    requires var s := Run(Initial(workers), actions); !s.torn && s.Owns(w) && s.workers[w].phase.Restoring?
    ensures var s := Run(Initial(workers), actions);
            Paired(s.audits, s.workers[w].Step(), s.workers[w].phase.found)
  {
    ReachedInv(workers, actions);
    assert WorkerInv(Run(Initial(workers), actions), w);
  }

  /** At any time the owner's trail is what the stored audit log begins with. */
  lemma OwnerTrailIsStored(workers: nat, actions: seq<Action>, w: nat)
    requires w < |Run(Initial(workers), actions).workers|
    requires Run(Initial(workers), actions).Owns(w)
    ensures var s := Run(Initial(workers), actions);
            && |s.workers[w].trail| <= |s.audits|
            && forall i :: 0 <= i < |s.workers[w].trail| ==> s.workers[w].trail[i].audit == s.audits[i]
  {
    ReachedInv(workers, actions);
    assert WorkerInv(Run(Initial(workers), actions), w);
  }

  // ---------- A crash between the two writes ----------

  const ONE_READ: Choice := Choice(true, false, Outcome(7, Some(8)))

  function Proceeds(n: nat): seq<Action> {
    if n == 0 then [] else [Proceed(0, 1, ONE_READ)] + Proceeds(n - 1)
  }

  /** A worker takes the lease and executes one request for some awaits. */
  function Executing(s: System, recovering: bool, awaits: nat): System {
    var ready := Run(Next(s, Acquire(0, 0, recovering)), Proceeds(2));
    Run(Next(ready, Execute(0, 5)), Proceeds(awaits))
  }

  /** The crash comes after the read was recorded and before its audit is. */
  function TornState(): System {
    Next(Executing(Initial(1), false, 9), Crash(0))
  }

  /** The only worker in some phase, under its first lease and with nothing audited. */
  function Alone(phase: Phase, checkpoints: map<nat, Checkpoint>, ledger: seq<Charge>,
                 dispatches: map<nat, nat>, torn: bool): System
  {
    var token := L.Token(0, 1, 0, 0);
    System(checkpoints, [], ledger, L.LeaseRow(1, Some(token)), [Worker(Some(token), [], phase)], dispatches, torn)
  }

  lemma ProceedsOnce(s: System, n: nat)
    requires n > 0
    ensures Run(s, Proceeds(n)) == Run(Next(s, Proceed(0, 1, ONE_READ)), Proceeds(n - 1))
  {
    assert Proceeds(n)[1..] == Proceeds(n - 1);
  }

  lemma AloneOpens(recovering: bool, checkpoints: map<nat, Checkpoint>, ledger: seq<Charge>,
                   dispatches: map<nat, nat>, torn: bool)
    ensures Run(Alone(Opening(recovering), checkpoints, ledger, dispatches, torn), Proceeds(2))
            == Alone(Ready, checkpoints, ledger, dispatches, torn)
  {
    var s := Alone(Opening(recovering), checkpoints, ledger, dispatches, torn);
    var t := Alone(Surveying(recovering, checkpoints.Keys), checkpoints, ledger, dispatches, torn);
    ProceedsOnce(s, 2);
    assert Next(s, Proceed(0, 1, ONE_READ)) == t;
    ProceedsOnce(t, 1);
  }

  lemma Stepping(s: System, t: System, n: nat)
    requires n > 0 && |s.workers| == 1 && AfterProceed(s, 0, 1, ONE_READ) == t
    ensures Run(s, Proceeds(n)) == Run(t, Proceeds(n - 1))
  {
    ProceedsOnce(s, n);
  }

  lemma RunsOut(s: System)
    ensures Run(s, Proceeds(0)) == s
  {
  }

  lemma AloneStarts()
    ensures Run(Alone(Looking(5), map[], [], map[], false), Proceeds(9))
            == Run(Alone(Authorising(5, 0), map[1 := Checkpoint(5, None)], [Charge(0, 1)], map[], false), Proceeds(5))
  {
    hide Run, Proceeds;
    var looking := Alone(Looking(5), map[], [], map[], false);
    var unread := Alone(Fresh(5), map[], [], map[], false);
    var charging := Alone(Charging(5), map[], [], map[], false);
    var starting := Alone(Starting(5, 0), map[], [Charge(0, 1)], map[], false);
    Stepping(looking, unread, 9);
    Stepping(unread, charging, 8);
    Stepping(charging, starting, 7);
    Stepping(starting, Alone(Authorising(5, 0), map[1 := Checkpoint(5, None)], [Charge(0, 1)], map[], false), 6);
  }

  lemma AloneDispatches()
    ensures Run(Alone(Authorising(5, 0), map[1 := Checkpoint(5, None)], [Charge(0, 1)], map[], false), Proceeds(5))
            == Run(Alone(Handling(5), map[1 := Checkpoint(5, None)], [Charge(0, 1)], map[0 := 1], false), Proceeds(2))
  {
    hide Run, Proceeds;
    var paid, started := [Charge(0, 1)], map[1 := Checkpoint(5, None)];
    var validating := Alone(Validating(5, 0), started, paid, map[], false);
    var dispatching := Alone(Dispatching(5, 0), started, paid, map[], false);
    Stepping(Alone(Authorising(5, 0), started, paid, map[], false), validating, 5);
    Stepping(validating, dispatching, 4);
    Stepping(dispatching, Alone(Handling(5), started, paid, map[0 := 1], false), 3);
  }

  lemma AloneRecords()
    ensures Run(Alone(Handling(5), map[1 := Checkpoint(5, None)], [Charge(0, 1)], map[0 := 1], false), Proceeds(2))
            == Alone(Auditing(Outcome(7, Some(8)), true), map[1 := Checkpoint(5, Some(Outcome(7, Some(8))))],
                     [Charge(0, 1)], map[0 := 1], false)
  {
    hide Run, Proceeds;
    var paid, started := [Charge(0, 1)], map[1 := Checkpoint(5, None)];
    var recording := Alone(Recording(5, Outcome(7, Some(8))), started, paid, map[0 := 1], false);
    Stepping(Alone(Handling(5), started, paid, map[0 := 1], false), recording, 2);
    Stepping(recording, Alone(Auditing(Outcome(7, Some(8)), true), map[1 := Checkpoint(5, Some(Outcome(7, Some(8))))],
                              paid, map[0 := 1], false), 1);
    RunsOut(Alone(Auditing(Outcome(7, Some(8)), true), map[1 := Checkpoint(5, Some(Outcome(7, Some(8))))],
                  [Charge(0, 1)], map[0 := 1], false));
  }

  lemma AloneExecutes(s: System, recovering: bool, checkpoints: map<nat, Checkpoint>, ledger: seq<Charge>,
                      dispatches: map<nat, nat>, torn: bool, awaits: nat)
    requires |s.workers| == 1
    requires AfterAcquire(s, 0, 0, recovering) == Alone(Opening(recovering), checkpoints, ledger, dispatches, torn)
    ensures Executing(s, recovering, awaits)
            == Run(Alone(Looking(5), checkpoints, ledger, dispatches, torn), Proceeds(awaits))
  {
    AloneOpens(recovering, checkpoints, ledger, dispatches, torn);
  }

  /** The read of step 1 is recorded, its audit is not stored, and the worker is gone. */
  function Abandoned(): System {
    var recorded := map[1 := Checkpoint(5, Some(Outcome(7, Some(8))))];
    Alone(Idle, recorded, [Charge(0, 1)], map[0 := 1], true).(workers := [Worker(None, [], Idle)])
  }

  lemma TornRunReaches()
    ensures TornState() == Abandoned()
  {
    hide Run, Proceeds;
    assert Initial(1).workers == [Worker(None, [], Idle)];
    AloneExecutes(Initial(1), false, map[], [], map[], false, 9);
    AloneStarts();
    AloneDispatches();
    AloneRecords();
  }

  lemma AbandonedDrifts()
    ensures Executing(Abandoned(), true, 2)
            == Alone(Drifted, Abandoned().checkpoints, [Charge(0, 1)], map[0 := 1], true)
  {
    hide Run, Proceeds;
    var checkpoints, paid := Abandoned().checkpoints, [Charge(0, 1)];
    AloneExecutes(Abandoned(), true, checkpoints, paid, map[0 := 1], true, 2);
    var restoring := Alone(Restoring(5, checkpoints[1]), checkpoints, paid, map[0 := 1], true);
    Stepping(Alone(Looking(5), checkpoints, paid, map[0 := 1], true), restoring, 2);
    Stepping(restoring, Alone(Drifted, checkpoints, paid, map[0 := 1], true), 1);
    RunsOut(Alone(Drifted, Abandoned().checkpoints, [Charge(0, 1)], map[0 := 1], true));
  }

  /** After such a crash, recovery by an owner finds the read recorded but cannot restore it. */
  lemma TornReadIsNotRestored()
    ensures var s := Executing(TornState(), true, 2);
            && |s.workers| == 1 && s.Owns(0) && s.workers[0].phase.Drifted?
            && Recorded(s, 1) && s.audits == []
  {
    TornRunReaches();
    AbandonedDrifts();
  }

  // ---------- A read that overlaps ----------

  const EARLY: L.Token := L.Token(0, 1, 0, 0)
  const LATE: L.Token := L.Token(1, 2, 30_000_000, 30_000_000)

  function Goes(w: nat, now: int, n: nat): seq<Action> {
    if n == 0 then [] else [Proceed(w, now, ONE_READ)] + Goes(w, now, n - 1)
  }

  lemma GoesOn(s: System, t: System, w: nat, now: int, n: nat)
    requires n > 0 && Next(s, Proceed(w, now, ONE_READ)) == t
    ensures Run(s, Goes(w, now, n)) == Run(t, Goes(w, now, n - 1))
  {
    assert Goes(w, now, n)[1..] == Goes(w, now, n - 1);
  }

  lemma GoesNowhere(s: System, w: nat, now: int)
    ensures Run(s, Goes(w, now, 0)) == s
  {
  }

  /** Worker 0 alone at work, next to an idle worker. */
  function First(phase: Phase, checkpoints: map<nat, Checkpoint>, ledger: seq<Charge>): System {
    System(checkpoints, [], ledger, L.LeaseRow(1, Some(EARLY)),
           [Worker(Some(EARLY), [], phase), Worker(None, [], Idle)], map[], false)
  }

  /** Worker 0 is fenced off where it was about to dispatch, and worker 1 has the lease. */
  function Both(phase: Phase, result: Option<Outcome>, ledger: seq<Charge>, dispatches: map<nat, nat>): System {
    System(map[1 := Checkpoint(5, result)], [], ledger, L.LeaseRow(2, Some(LATE)),
           [Worker(Some(EARLY), [], Dispatching(5, 0)), Worker(Some(LATE), [], phase)], dispatches, false)
  }

  lemma FirstIsAuthorised()
    ensures Run(First(Looking(5), map[], []), Goes(0, 1, 6))
            == First(Dispatching(5, 0), map[1 := Checkpoint(5, None)], [Charge(0, 1)])
  {
    hide Run, Goes;
    var started, paid := map[1 := Checkpoint(5, None)], [Charge(0, 1)];
    GoesOn(First(Looking(5), map[], []), First(Fresh(5), map[], []), 0, 1, 6);
    GoesOn(First(Fresh(5), map[], []), First(Charging(5), map[], []), 0, 1, 5);
    GoesOn(First(Charging(5), map[], []), First(Starting(5, 0), map[], paid), 0, 1, 4);
    GoesOn(First(Starting(5, 0), map[], paid), First(Authorising(5, 0), started, paid), 0, 1, 3);
    GoesOn(First(Authorising(5, 0), started, paid), First(Validating(5, 0), started, paid), 0, 1, 2);
    GoesOn(First(Validating(5, 0), started, paid), First(Dispatching(5, 0), started, paid), 0, 1, 1);
    GoesNowhere(First(Dispatching(5, 0), started, paid), 0, 1);
  }

  const ONCE: seq<Charge> := [Charge(0, 1)]
  const TWICE: seq<Charge> := [Charge(0, 1), Charge(1, 1)]

  lemma SecondIsAuthorised()
    ensures Run(Both(Looking(5), None, ONCE, map[]), Goes(1, 30_000_001, 9))
            == Run(Both(Validating(5, 1), None, TWICE, map[]), Goes(1, 30_000_001, 4))
  {
    hide Run, Goes;
    assert ONCE + [Charge(1, 1)] == TWICE;
    GoesOn(Both(Looking(5), None, ONCE, map[]), Both(Fresh(5), None, ONCE, map[]), 1, 30_000_001, 9);
    GoesOn(Both(Fresh(5), None, ONCE, map[]), Both(Charging(5), None, ONCE, map[]), 1, 30_000_001, 8);
    GoesOn(Both(Charging(5), None, ONCE, map[]), Both(Starting(5, 1), None, TWICE, map[]), 1, 30_000_001, 7);
    GoesOn(Both(Starting(5, 1), None, TWICE, map[]), Both(Authorising(5, 1), None, TWICE, map[]), 1, 30_000_001, 6);
    GoesOn(Both(Authorising(5, 1), None, TWICE, map[]), Both(Validating(5, 1), None, TWICE, map[]), 1, 30_000_001, 5);
  }

  const READ: Outcome := Outcome(7, Some(8))

  lemma SecondRecords()
    ensures Run(Both(Validating(5, 1), None, TWICE, map[]), Goes(1, 30_000_001, 4))
            == Both(Auditing(READ, true), Some(READ), TWICE, map[1 := 1])
  {
    hide Run, Goes;
    var read := map[1 := 1];
    GoesOn(Both(Validating(5, 1), None, TWICE, map[]), Both(Dispatching(5, 1), None, TWICE, map[]), 1, 30_000_001, 4);
    GoesOn(Both(Dispatching(5, 1), None, TWICE, map[]), Both(Handling(5), None, TWICE, read), 1, 30_000_001, 3);
    GoesOn(Both(Handling(5), None, TWICE, read), Both(Recording(5, READ), None, TWICE, read), 1, 30_000_001, 2);
    GoesOn(Both(Recording(5, READ), None, TWICE, read), Both(Auditing(READ, true), Some(READ), TWICE, read),
           1, 30_000_001, 1);
    GoesNowhere(Both(Auditing(READ, true), Some(READ), TWICE, read), 1, 30_000_001);
  }

  /** Worker `w` takes the lease, surveys what is stored and takes `n` steps on a request. */
  function Works(s: System, w: nat, at: int, recovering: bool, n: nat): System {
    Run(Next(Run(Next(s, Acquire(w, at, recovering)), Goes(w, at + 1, 2)), Execute(w, 5)), Goes(w, at + 1, n))
  }

  /** Worker 0 is authorised to read step 1 and stalls; worker 1 takes over, reads and records it;
      then worker 0 reads it once more. */
  lemma StaleReadOverlaps()
    ensures var s := Works(Works(Initial(2), 0, 0, false, 6), 1, 30_000_000, true, 9);
            && |s.workers| == 2 && s.workers[0].Step() == 1 && Recorded(s, 1) && !s.Owns(0)
            && Next(s, Proceed(0, 30_000_002, ONE_READ)).dispatches == s.dispatches[0 := 1]
            && 0 !in s.dispatches
  {
    FirstOpens();
    FirstIsAuthorised();
    SecondOpens();
    SecondIsAuthorised();
    SecondRecords();
    hide Run, Goes;
  }

  lemma FirstOpens()
    ensures Next(Run(Next(Initial(2), Acquire(0, 0, false)), Goes(0, 1, 2)), Execute(0, 5))
            == First(Looking(5), map[], [])
  {
    hide Run, Goes;
    assert Initial(2).workers == [Worker(None, [], Idle), Worker(None, [], Idle)];
    var none: map<nat, Checkpoint> := map[];
    var seen := none.Keys;
    assert Next(Initial(2), Acquire(0, 0, false)) == First(Opening(false), map[], []);
    GoesOn(First(Opening(false), map[], []), First(Surveying(false, seen), map[], []), 0, 1, 2);
    GoesOn(First(Surveying(false, seen), map[], []), First(Ready, map[], []), 0, 1, 1);
    GoesNowhere(First(Ready, map[], []), 0, 1);
  }

  lemma SecondOpens()
    ensures var s := First(Dispatching(5, 0), map[1 := Checkpoint(5, None)], ONCE);
            Next(Run(Next(s, Acquire(1, 30_000_000, true)), Goes(1, 30_000_001, 2)), Execute(1, 5))
            == Both(Looking(5), None, ONCE, map[])
  {
    hide Run, Goes;
    var s := First(Dispatching(5, 0), map[1 := Checkpoint(5, None)], ONCE);
    assert Next(s, Acquire(1, 30_000_000, true)) == Both(Opening(true), None, ONCE, map[]);
    var seen := s.checkpoints.Keys;
    GoesOn(Both(Opening(true), None, ONCE, map[]), Both(Surveying(true, seen), None, ONCE, map[]), 1, 30_000_001, 2);
    GoesOn(Both(Surveying(true, seen), None, ONCE, map[]), Both(Ready, None, ONCE, map[]), 1, 30_000_001, 1);
    GoesNowhere(Both(Ready, None, ONCE, map[]), 1, 30_000_001);
  }
}
