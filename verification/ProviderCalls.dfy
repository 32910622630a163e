/** Metered advisory provider calls of one execution context: any number of concurrent callers,
    one lock around the reservation, and one task per charged call that may outlive its caller.
    Every await is a step, and a caller may be cancelled at each of them. */
module ProviderCalls {
  import opened Wrappers

  datatype PlannerPhase = Proposal | Explanation

  datatype CallId = CallId(sequence: nat, phase: PlannerPhase, digest: nat)

  // ---------- The cost ledger ----------

  datatype Entry = ProviderEntry(id: CallId, cost: nat) | ProbeEntry

  datatype Receipt = Receipt(order: nat, ledgerSequence: nat, id: CallId, cost: nat)

  /** The receipts a ledger stands for: its provider entries, in ledger order. */
  function Receipts(ledger: seq<Entry>): seq<Receipt> {
    if ledger == [] then []
    else
      var before := Receipts(ledger[..|ledger| - 1]);
      match ledger[|ledger| - 1]
      case ProviderEntry(id, cost) => before + [Receipt(|before| + 1, |ledger|, id, cost)]
      case ProbeEntry => before
  }

  lemma ReceiptsAppended(ledger: seq<Entry>, entry: Entry)
    ensures var before := Receipts(ledger);
            Receipts(ledger + [entry])
            == match entry
               case ProviderEntry(id, cost) => before + [Receipt(|before| + 1, |ledger| + 1, id, cost)]
               case ProbeEntry => before
  {
    assert (ledger + [entry])[..|ledger|] == ledger;
  }

  predicate Charged(receipts: seq<Receipt>, id: CallId) {
    exists r <- receipts :: r.id == id
  }

  // ---------- The context ----------

  /** `Cut`: cancelled while its reservation was being written, so the write may still land. */
  datatype Waiter = Queued | Reserving | Reading | Awaiting | Returned | Raised | Cut

  datatype Task = NotCreated | Validating | Operating | Succeeded | Failed | Cancelled {
    predicate Unfinished() { Validating? || Operating? }
  }

  datatype Call = Call(id: CallId, cost: nat, waiter: Waiter, task: Task)

  /** `owners` is the context's set of call identifiers together with the call that registered
      each. The last two fields are history: the outcome last sealed and the operations invoked. */
  datatype Context = Context(
    ledger: seq<Entry>, calls: seq<Call>, owners: map<CallId, nat>, receipts: seq<Receipt>,
    inFlight: set<CallId>, detached: set<nat>, exhausted: bool, lock: Option<nat>,
    sealed: Option<seq<Receipt>>, invoked: seq<CallId>)
  {
    function With(k: nat, call: Call): Context
      requires k < |calls|
    {
      this.(calls := calls[k := call])
    }

    function Ends(k: nat, waiter: Waiter): Context
      requires k < |calls|
    {
      With(k, calls[k].(waiter := waiter)).(inFlight := inFlight - {calls[k].id})
    }

    predicate CanComplete() {
      lock.None? && inFlight == {} && detached == {} && !exhausted
    }
  }

  const INITIAL := Context([], [], map[], [], {}, {}, false, None, None, [])

  /** What the clocks, the store and the provider decide. `inTime` is a positive remainder of
      the elapsed budget, `accepted` a reservation the fence and the limits let through. */
  datatype Choice = Choice(windowOpen: bool, accepted: bool, inTime: bool, stale: bool, result: Task)

  datatype Action =
    | Begin(id: CallId, cost: nat)
    | Advance(k: nat, choice: Choice)
    | TimeOut(k: nat)
    | Cancel(k: nat)
    | RunTask(k: nat, choice: Choice)
    | ChargeProbe
    | Complete

  // ---------- Steps ----------

  /** The caller gets the lock: refuse a known identifier or a closed window, else register. */
  function Enter(s: Context, k: nat, windowOpen: bool): Context
    requires k < |s.calls|
  {
    var c := s.calls[k];
    if s.lock.Some? then s
    else if c.id in s.owners || !windowOpen then s.With(k, c.(waiter := Raised))
    else s.With(k, c.(waiter := Reserving)).(owners := s.owners[c.id := k], lock := Some(k))
  }

  /** The fenced reservation; the ledger refuses an identifier it already holds. */
  function Reserve(s: Context, k: nat, accepted: bool): Context
    requires k < |s.calls|
  {
    var c := s.calls[k];
    if accepted && !Charged(Receipts(s.ledger), c.id) then
      s.With(k, c.(waiter := Reading)).(ledger := s.ledger + [ProviderEntry(c.id, c.cost)])
    else s.With(k, c.(waiter := Raised)).(lock := None)
  }

  /** The receipt joins the context's list, and the deadline decides about the task. */
  function Charge(s: Context, k: nat, receipt: Receipt, inTime: bool): Context
    requires k < |s.calls|
  {
    var c := s.calls[k];
    var charged := s.(receipts := s.receipts + [receipt], lock := None);
    if inTime then
      charged.With(k, c.(waiter := Awaiting, task := Validating)).(inFlight := s.inFlight + {c.id})
    else charged.With(k, c.(waiter := Raised)).(exhausted := true)
  }

  /** Read the stored receipts back; they must be the list and this call's own receipt. */
  function ReadBack(s: Context, k: nat, inTime: bool): Context
    requires k < |s.calls|
  {
    var c, stored := s.calls[k], Receipts(s.ledger);
    if |stored| != |s.receipts| + 1 || stored[..|s.receipts|] != s.receipts
       || stored[|s.receipts|].id != c.id || stored[|s.receipts|].cost != c.cost
    then s.With(k, c.(waiter := Raised)).(lock := None)
    else Charge(s, k, stored[|s.receipts|], inTime)
  }

  /** The caller sees its task done. */
  function Collect(s: Context, k: nat, inTime: bool): Context
    requires k < |s.calls|
  {
    if s.calls[k].task.Unfinished() then s
    else if !s.calls[k].task.Succeeded? then s.Ends(k, Raised)
    else if inTime then s.Ends(k, Returned)
    else s.Ends(k, Raised).(exhausted := true)
  }

  /** The write of a cancelled reservation lands after all, or is refused. */
  function Land(s: Context, k: nat, accepted: bool): Context
    requires k < |s.calls|
  {
    var c := s.calls[k];
    var t := s.With(k, c.(waiter := Raised));
    if accepted && !Charged(Receipts(s.ledger), c.id) then
      t.(ledger := s.ledger + [ProviderEntry(c.id, c.cost)])
    else t
  }

  function AfterAdvance(s: Context, k: nat, choice: Choice): Context
    requires k < |s.calls|
  {
    match s.calls[k].waiter
    case Queued => Enter(s, k, choice.windowOpen)
    case Reserving => Reserve(s, k, choice.accepted)
    case Reading => ReadBack(s, k, choice.inTime)
    case Awaiting => Collect(s, k, choice.inTime)
    case Cut => Land(s, k, choice.accepted)
    case _ => s
  }

  /** The caller gives up on a task: one that is not finished is cancelled and kept as detached. */
  function Abandon(s: Context, k: nat): Context
    requires k < |s.calls|
  {
    var detached := if s.calls[k].task.Unfinished() then s.detached + {k} else s.detached;
    s.Ends(k, Raised).(detached := detached, exhausted := true)
  }

  function AfterCancel(s: Context, k: nat): Context
    requires k < |s.calls|
  {
    var c := s.calls[k];
    match c.waiter
    case Queued => s.With(k, c.(waiter := Raised))
    case Reserving => s.With(k, c.(waiter := Cut)).(lock := None)
    case Reading => s.With(k, c.(waiter := Raised)).(lock := None)
    case Awaiting => Abandon(s, k)
    case _ => s
  }

  /** One step of the task: revalidate the fence and invoke, or finish. A detached task was
      cancelled, so it invokes nothing any more, though an operation may ignore that. */
  function AfterTask(s: Context, k: nat, choice: Choice): Context
    requires k < |s.calls|
  {
    var c := s.calls[k];
    match c.task
    case Validating =>
      if k in s.detached then s.With(k, c.(task := Cancelled)).(detached := s.detached - {k})
      else if !choice.inTime then s.With(k, c.(task := Failed)).(exhausted := true)
      else if choice.stale then s.With(k, c.(task := Failed))
      else s.With(k, c.(task := Operating)).(invoked := s.invoked + [c.id])
    case Operating =>
      if choice.result.Unfinished() || choice.result.NotCreated? then s
      else s.With(k, c.(task := choice.result)).(detached := s.detached - {k})
    case _ => s
  }

  function Next(s: Context, action: Action): Context {
    match action
    case Begin(id, cost) => s.(calls := s.calls + [Call(id, cost, Queued, NotCreated)])
    case Advance(k, choice) => if k < |s.calls| then AfterAdvance(s, k, choice) else s
    case TimeOut(k) =>
      if k < |s.calls| && s.calls[k].waiter.Awaiting? && s.calls[k].task.Unfinished() then Abandon(s, k) else s
    case Cancel(k) => if k < |s.calls| then AfterCancel(s, k) else s
    case RunTask(k, choice) => if k < |s.calls| then AfterTask(s, k, choice) else s
    case ChargeProbe => s.(ledger := s.ledger + [ProbeEntry])
    case Complete => if s.CanComplete() then s.(sealed := Some(s.receipts)) else s
  }

  function Execute(s: Context, actions: seq<Action>): Context
    decreases actions
  {
    if actions == [] then s else Execute(Next(s, actions[0]), actions[1..])
  }

  // ---------- What every reachable context satisfies ----------

  /** The receipt a call has stored but not yet read back. */
  function Unread(s: Context): nat {
    if s.lock.Some? && s.lock.value < |s.calls| && s.calls[s.lock.value].waiter.Reading? then 1 else 0
  }

  predicate Registered(c: Call) {
    c.waiter in {Reserving, Reading, Awaiting, Returned, Cut} || !c.task.NotCreated?
  }

  /** The caller of a finished task got its result, or the task failed on its own. */
  predicate Settled(c: Call) {
    (c.waiter.Returned? && c.task.Succeeded?) || (c.waiter.Raised? && (c.task.Failed? || c.task.Cancelled?))
  }

  ghost predicate CallInv(s: Context, k: nat)
    requires k < |s.calls|
  {
    var c := s.calls[k];
    && (c.waiter.Reserving? || c.waiter.Reading? <==> s.lock == Some(k))
    && (Registered(c) ==> c.id in s.owners && s.owners[c.id] == k && (c.id in s.inFlight <==> c.waiter.Awaiting?))
    && (c.waiter.Reserving? || c.waiter.Cut? ==> !Charged(Receipts(s.ledger), c.id))
    && (c.waiter in {Queued, Reserving, Reading, Cut} ==> c.task.NotCreated?)
    && (c.waiter.Awaiting? ==> !c.task.NotCreated?)
    && (c.id in s.owners && s.owners[c.id] == k && (c.task.NotCreated? || c.task.Validating?) ==>
          c.id !in s.invoked)
    && (!c.task.NotCreated? ==> Charged(s.receipts, c.id))
    && (k in s.detached <==> c.task.Unfinished() && !c.waiter.Awaiting?)
    && (!s.exhausted && !c.task.NotCreated? ==> c.waiter.Awaiting? || Settled(c))
    && (s.sealed.Some? && |s.receipts| == |s.sealed.value| && !c.task.NotCreated? ==> Settled(c))
  }

  ghost predicate LedgerInv(s: Context) {
    var stored := Receipts(s.ledger);
    && s.receipts <= stored
    && (s.lock.Some? ==> s.lock.value < |s.calls|)
    && |s.receipts| + Unread(s) <= |stored|
    && (Unread(s) == 1 && |stored| == |s.receipts| + 1 ==>
          && stored[|s.receipts|].id == s.calls[s.lock.value].id
          && stored[|s.receipts|].cost == s.calls[s.lock.value].cost)
    && DistinctReceipts(stored)
    && (s.sealed.Some? ==> s.sealed.value <= s.receipts)
  }

  ghost predicate IndexInv(s: Context) {
    && (forall id <- s.owners :: s.owners[id] < |s.calls| && s.calls[s.owners[id]].id == id)
    && (forall id <- s.inFlight :: id in s.owners && Registered(s.calls[s.owners[id]]))
    && (forall id <- s.invoked :: id in s.owners && !s.calls[s.owners[id]].task.NotCreated?)
    && (forall k <- s.detached :: k < |s.calls|)
    && (forall r <- Receipts(s.ledger) :: r.id in s.owners)
    && Distinct(s.invoked)
  }

  ghost predicate Inv(s: Context) {
    && IndexInv(s)
    && LedgerInv(s)
    && forall k :: 0 <= k < |s.calls| ==> CallInv(s, k)
  }

  ghost predicate Distinct(ids: seq<CallId>) {
    forall i, j :: 0 <= i < j < |ids| ==> ids[i] != ids[j]
  }

  ghost predicate DistinctReceipts(receipts: seq<Receipt>) {
    forall i, j :: 0 <= i < j < |receipts| ==> receipts[i].id != receipts[j].id
  }

  // ---------- Every step keeps the invariant ----------

  /** A step of call `k`: what it may change for the other calls. */
  ghost predicate Frame(s: Context, t: Context, k: nat)
    requires k < |s.calls|
  {
    var id := s.calls[k].id;
    && |t.calls| == |s.calls| && t.calls == s.calls[k := t.calls[k]] && t.calls[k].id == id
    && (t.lock == s.lock || (s.lock in {None, Some(k)} && t.lock in {None, Some(k)}))
    && (t.owners == s.owners || (id !in s.owners && t.owners == s.owners[id := k]))
    && t.inFlight - {id} == s.inFlight - {id}
    && t.detached - {k} == s.detached - {k}
    && (s.exhausted ==> t.exhausted)
    && s.receipts <= t.receipts && t.sealed == s.sealed
    && (t.ledger == s.ledger || t.ledger == s.ledger + [ProviderEntry(id, s.calls[k].cost)])
    && (t.invoked == s.invoked || t.invoked == s.invoked + [id])
    && (Registered(s.calls[k]) || (t.inFlight == s.inFlight && t.ledger == s.ledger && t.invoked == s.invoked))
  }

  lemma StepKeepsInv(s: Context, t: Context, k: nat)
    requires Inv(s) && k < |s.calls| && Frame(s, t, k)
    requires IndexInv(t) && LedgerInv(t) && CallInv(t, k)
    ensures Inv(t)
  {
    forall j | 0 <= j < |t.calls|
      ensures CallInv(t, j)
    {
      if j != k {
        OtherCall(s, t, k, j);
      }
    }
  }

  lemma OtherCall(s: Context, t: Context, k: nat, j: nat)
    requires k < |s.calls| && j < |s.calls| && j != k && Frame(s, t, k)
    requires CallInv(s, k) && CallInv(s, j)
    requires s.sealed.Some? ==> |s.sealed.value| <= |s.receipts|
    requires Receipts(t.ledger) == Receipts(s.ledger)
             || exists r: Receipt :: r.id == s.calls[k].id && Receipts(t.ledger) == Receipts(s.ledger) + [r]
    ensures CallInv(t, j)
  {
    var id, other := s.calls[k].id, s.calls[j].id;
    assert other in t.inFlight - {id} <==> other in s.inFlight - {id};
    assert j in t.detached - {k} <==> j in s.detached - {k};
  }

  lemma RegisteredKeepsInv(s: Context, k: nat)
    requires Inv(s) && k < |s.calls| && s.calls[k].waiter.Queued? && s.lock.None? && s.calls[k].id !in s.owners
    ensures var c := s.calls[k];
            Inv(s.With(k, c.(waiter := Reserving)).(owners := s.owners[c.id := k], lock := Some(k)))
  {
    var c := s.calls[k];
    assert CallInv(s, k);
    StepKeepsInv(s, s.With(k, c.(waiter := Reserving)).(owners := s.owners[c.id := k], lock := Some(k)), k);
  }

  lemma EnterKeepsInv(s: Context, k: nat, windowOpen: bool)
    requires Inv(s) && k < |s.calls| && s.calls[k].waiter.Queued?
    ensures Inv(Enter(s, k, windowOpen))
  {
    assert CallInv(s, k);
    if s.lock.None? && s.calls[k].id !in s.owners {
      RegisteredKeepsInv(s, k);
    }
    StepKeepsInv(s, s.With(k, s.calls[k].(waiter := Raised)), k);
  }

  /** A caller leaves the locked section without a receipt of its own in the context's list. */
  lemma RefusedKeepsInv(s: Context, k: nat, waiter: Waiter)
    requires Inv(s) && k < |s.calls| && s.lock == Some(k)
    requires waiter.Raised? || (waiter.Cut? && s.calls[k].waiter.Reserving?)
    ensures Inv(s.With(k, s.calls[k].(waiter := waiter)).(lock := None))
  {
    assert CallInv(s, k);
    StepKeepsInv(s, s.With(k, s.calls[k].(waiter := waiter)).(lock := None), k);
  }

  lemma ReserveKeepsInv(s: Context, k: nat, accepted: bool)
    requires Inv(s) && k < |s.calls| && s.calls[k].waiter.Reserving?
    ensures Inv(Reserve(s, k, accepted))
  {
    assert CallInv(s, k);
    if accepted {
      StoredKeepsInv(s, k, Reading);
    } else {
      RefusedKeepsInv(s, k, Raised);
    }
  }

  /** The stored receipt beyond the list is this call's own. */
  lemma UnreadReceiptIsOwn(s: Context, k: nat)
    requires Inv(s) && k < |s.calls| && s.calls[k].waiter.Reading?
    requires |Receipts(s.ledger)| == |s.receipts| + 1
    ensures var receipt := Receipts(s.ledger)[|s.receipts|];
            && s.receipts + [receipt] == Receipts(s.ledger)
            && receipt.id == s.calls[k].id && receipt.cost == s.calls[k].cost
            && Charged(s.receipts + [receipt], s.calls[k].id)
  {
    assert CallInv(s, k);
    var receipt := Receipts(s.ledger)[|s.receipts|];
    assert receipt in Receipts(s.ledger);
  }

  lemma ChargedInTime(s: Context, k: nat, receipt: Receipt)
    requires Inv(s) && k < |s.calls| && s.calls[k].waiter.Reading? && receipt.id == s.calls[k].id
    requires Receipts(s.ledger) == s.receipts + [receipt] && Charged(s.receipts + [receipt], s.calls[k].id)
    ensures Inv(Charge(s, k, receipt, true))
  {
    assert CallInv(s, k);
    StepKeepsInv(s, Charge(s, k, receipt, true), k);
  }

  lemma ChargedLate(s: Context, k: nat, receipt: Receipt)
    requires Inv(s) && k < |s.calls| && s.calls[k].waiter.Reading? && receipt.id == s.calls[k].id
    requires Receipts(s.ledger) == s.receipts + [receipt]
    ensures Inv(Charge(s, k, receipt, false))
  {
    assert CallInv(s, k);
    StepKeepsInv(s, Charge(s, k, receipt, false), k);
  }

  lemma ChargeKeepsInv(s: Context, k: nat, inTime: bool)
    requires Inv(s) && k < |s.calls| && s.calls[k].waiter.Reading?
    requires |Receipts(s.ledger)| == |s.receipts| + 1
    ensures Inv(Charge(s, k, Receipts(s.ledger)[|s.receipts|], inTime))
  {
    UnreadReceiptIsOwn(s, k);
    var receipt := Receipts(s.ledger)[|s.receipts|];
    if inTime {
      ChargedInTime(s, k, receipt);
    } else {
      ChargedLate(s, k, receipt);
    }
  }

  /** The receipt that is read back is this call's own, and the list catches up with the store. */
  lemma ReadBackKeepsInv(s: Context, k: nat, inTime: bool)
    requires Inv(s) && k < |s.calls| && s.calls[k].waiter.Reading?
    ensures Inv(ReadBack(s, k, inTime))
  {
    assert CallInv(s, k);
    if |Receipts(s.ledger)| == |s.receipts| + 1 {
      ChargeKeepsInv(s, k, inTime);
      assert ReadBack(s, k, inTime) == Charge(s, k, Receipts(s.ledger)[|s.receipts|], inTime);
    } else {
      RefusedKeepsInv(s, k, Raised);
    }
  }

  lemma EndedCallKeepsInv(s: Context, k: nat, waiter: Waiter, exhausted: bool)
    requires Inv(s) && k < |s.calls| && s.calls[k].waiter.Awaiting? && !s.calls[k].task.Unfinished()
    requires s.exhausted ==> exhausted
    requires if s.calls[k].task.Succeeded? then waiter.Returned? || (waiter.Raised? && exhausted) else waiter.Raised?
    ensures Inv(s.Ends(k, waiter).(exhausted := exhausted))
  {
    assert CallInv(s, k);
    StepKeepsInv(s, s.Ends(k, waiter).(exhausted := exhausted), k);
  }

  lemma CollectKeepsInv(s: Context, k: nat, inTime: bool)
    requires Inv(s) && k < |s.calls| && s.calls[k].waiter.Awaiting?
    ensures Inv(Collect(s, k, inTime))
  {
    if !s.calls[k].task.Unfinished() {
      if s.calls[k].task.Succeeded? {
        EndedCallKeepsInv(s, k, if inTime then Returned else Raised, s.exhausted || !inTime);
      } else {
        EndedCallKeepsInv(s, k, Raised, s.exhausted);
      }
    }
  }

  /** The ledger takes a reservation, on time or late. */
  function Stored(s: Context, k: nat, waiter: Waiter): Context
    requires k < |s.calls|
  {
    s.With(k, s.calls[k].(waiter := waiter)).(ledger := s.ledger + [ProviderEntry(s.calls[k].id, s.calls[k].cost)])
  }

  predicate Stores(call: Call, waiter: Waiter) {
    (call.waiter.Reserving? && waiter.Reading?) || (call.waiter.Cut? && waiter.Raised?)
  }

  lemma StoredKeepsLedger(s: Context, k: nat, waiter: Waiter)
    requires Inv(s) && k < |s.calls| && Stores(s.calls[k], waiter)
    requires !Charged(Receipts(s.ledger), s.calls[k].id)
    ensures LedgerInv(Stored(s, k, waiter))
  {
    hide Receipts, IndexInv;
    ReceiptsAppended(s.ledger, ProviderEntry(s.calls[k].id, s.calls[k].cost));
    assert CallInv(s, k);
  }

  lemma StoredKeepsIndex(s: Context, k: nat, waiter: Waiter)
    requires Inv(s) && k < |s.calls| && Stores(s.calls[k], waiter)
    ensures IndexInv(Stored(s, k, waiter))
  {
    hide Receipts, LedgerInv;
    ReceiptsAppended(s.ledger, ProviderEntry(s.calls[k].id, s.calls[k].cost));
    assert CallInv(s, k);
  }

  lemma StoredKeepsInv(s: Context, k: nat, waiter: Waiter)
    requires Inv(s) && k < |s.calls| && Stores(s.calls[k], waiter)
    requires !Charged(Receipts(s.ledger), s.calls[k].id)
    ensures Inv(Stored(s, k, waiter))
  {
    hide Receipts, IndexInv, LedgerInv;
    StoredKeepsLedger(s, k, waiter);
    StoredKeepsIndex(s, k, waiter);
    ReceiptsAppended(s.ledger, ProviderEntry(s.calls[k].id, s.calls[k].cost));
    assert CallInv(s, k);
    StepKeepsInv(s, Stored(s, k, waiter), k);
  }

  lemma LandKeepsInv(s: Context, k: nat, accepted: bool)
    requires Inv(s) && k < |s.calls| && s.calls[k].waiter.Cut?
    ensures Inv(Land(s, k, accepted))
  {
    assert CallInv(s, k);
    if accepted {
      StoredKeepsInv(s, k, Raised);
    } else {
      StepKeepsInv(s, s.With(k, s.calls[k].(waiter := Raised)), k);
    }
  }

  lemma AbandonKeepsInv(s: Context, k: nat)
    requires Inv(s) && k < |s.calls| && s.calls[k].waiter.Awaiting?
    ensures Inv(Abandon(s, k))
  {
    assert CallInv(s, k);
    StepKeepsInv(s, Abandon(s, k), k);
  }

  lemma CancelKeepsInv(s: Context, k: nat)
    requires Inv(s) && k < |s.calls|
    ensures Inv(AfterCancel(s, k))
  {
    assert CallInv(s, k);
    match s.calls[k].waiter
    case Queued => StepKeepsInv(s, s.With(k, s.calls[k].(waiter := Raised)), k);
    case Reserving => RefusedKeepsInv(s, k, Cut);
    case Reading => RefusedKeepsInv(s, k, Raised);
    case Awaiting => AbandonKeepsInv(s, k);
    case _ =>
  }

  /** A task ends: it is no longer detached, and a deadline it met is remembered. */
  lemma EndedTaskKeepsInv(s: Context, k: nat, task: Task, exhausted: bool)
    requires Inv(s) && k < |s.calls| && s.calls[k].task.Unfinished()
    requires !task.Unfinished() && !task.NotCreated? && (s.exhausted ==> exhausted)
    requires s.calls[k].task.Validating? ==> !task.Succeeded?
    ensures Inv(s.With(k, s.calls[k].(task := task)).(detached := s.detached - {k}, exhausted := exhausted))
  {
    assert CallInv(s, k);
    StepKeepsInv(
      s, s.With(k, s.calls[k].(task := task)).(detached := s.detached - {k}, exhausted := exhausted), k);
  }

  lemma InvokedTaskKeepsInv(s: Context, k: nat)
    requires Inv(s) && k < |s.calls| && s.calls[k].task.Validating? && k !in s.detached
    ensures Inv(s.With(k, s.calls[k].(task := Operating)).(invoked := s.invoked + [s.calls[k].id]))
  {
    assert CallInv(s, k);
    StepKeepsInv(s, s.With(k, s.calls[k].(task := Operating)).(invoked := s.invoked + [s.calls[k].id]), k);
  }

  lemma TaskKeepsInv(s: Context, k: nat, choice: Choice)
    requires Inv(s) && k < |s.calls|
    ensures Inv(AfterTask(s, k, choice))
  {
    assert k !in s.detached ==> s.detached - {k} == s.detached;
    if s.calls[k].task.Validating? {
      if k in s.detached {
        EndedTaskKeepsInv(s, k, Cancelled, s.exhausted);
      } else if !choice.inTime || choice.stale {
        EndedTaskKeepsInv(s, k, Failed, s.exhausted || !choice.inTime);
      } else {
        InvokedTaskKeepsInv(s, k);
      }
    } else if s.calls[k].task.Operating? && !choice.result.Unfinished() && !choice.result.NotCreated? {
      EndedTaskKeepsInv(s, k, choice.result, s.exhausted);
    }
  }

  lemma BeginKeepsInv(s: Context, id: CallId, cost: nat)
    requires Inv(s)
    ensures Inv(Next(s, Begin(id, cost)))
  {
    var t := Next(s, Begin(id, cost));
    forall j | 0 <= j < |t.calls|
      ensures CallInv(t, j)
    {
      if j < |s.calls| {
        assert CallInv(s, j);
      }
    }
  }

  lemma ProbeChargeKeepsInv(s: Context)
    requires Inv(s)
    ensures Inv(Next(s, ChargeProbe))
  {
    hide Receipts;
    ReceiptsAppended(s.ledger, ProbeEntry);
    forall j | 0 <= j < |s.calls|
      ensures CallInv(Next(s, ChargeProbe), j)
    {
      assert CallInv(s, j);
    }
  }

  lemma CompleteKeepsInv(s: Context)
    requires Inv(s)
    ensures Inv(Next(s, Complete))
  {
    forall j | 0 <= j < |s.calls|
      ensures CallInv(Next(s, Complete), j)
    {
      assert CallInv(s, j);
    }
  }

  lemma NextKeepsInv(s: Context, action: Action)
    requires Inv(s)
    ensures Inv(Next(s, action))
  {
    match action
    case Begin(id, cost) => BeginKeepsInv(s, id, cost);
    case Advance(k, choice) =>
      if k < |s.calls| {
        match s.calls[k].waiter
        case Queued => EnterKeepsInv(s, k, choice.windowOpen);
        case Reserving => ReserveKeepsInv(s, k, choice.accepted);
        case Reading => ReadBackKeepsInv(s, k, choice.inTime);
        case Awaiting => CollectKeepsInv(s, k, choice.inTime);
        case Cut => LandKeepsInv(s, k, choice.accepted);
        case _ =>
      }
    case TimeOut(k) => if k < |s.calls| && s.calls[k].waiter.Awaiting? { AbandonKeepsInv(s, k); }
    case Cancel(k) => if k < |s.calls| { CancelKeepsInv(s, k); }
    case RunTask(k, choice) => if k < |s.calls| { TaskKeepsInv(s, k, choice); }
    case ChargeProbe => ProbeChargeKeepsInv(s);
    case Complete => CompleteKeepsInv(s);
  }

  lemma {:induction false} ReachableInv(s: Context, actions: seq<Action>)
    requires Inv(s)
    ensures Inv(Execute(s, actions))
    decreases actions
  {
    if actions != [] {
      NextKeepsInv(s, actions[0]);
      ReachableInv(Next(s, actions[0]), actions[1..]);
    }
  }

  // ---------- Every interleaving ----------

  /** As many distinct identifiers need as many receipts. */
  lemma {:induction false} DistinctIdsFit(ids: seq<CallId>, receipts: seq<Receipt>)
    requires Distinct(ids) && forall id <- ids :: Charged(receipts, id)
    ensures |ids| <= |receipts|
    decreases |ids|
  {
    if ids != [] {
      var before, last := ids[..|ids| - 1], ids[|ids| - 1];
      assert last in ids;
      var i :| 0 <= i < |receipts| && receipts[i].id == last;
      var others := receipts[..i] + receipts[i + 1..];
      forall id <- before
        ensures Charged(others, id)
      {
        assert id in ids;
        var r :| r in receipts && r.id == id;
        assert r in others;
      }
      DistinctIdsFit(before, others);
    }
  }

  /** Operations invoked never outnumber receipts charged, no identifier is charged or invoked
      twice, and nothing is invoked that was not charged first. */
  lemma InvokedNeverOutnumberCharged(actions: seq<Action>)
    ensures var s := Execute(INITIAL, actions);
            && |s.invoked| <= |s.receipts| <= |Receipts(s.ledger)|
            && Distinct(s.invoked) && DistinctReceipts(Receipts(s.ledger))
            && forall id <- s.invoked :: Charged(s.receipts, id)
  {
    ReachableInv(INITIAL, actions);
    var s := Execute(INITIAL, actions);
    forall id <- s.invoked
      ensures Charged(s.receipts, id)
    {
      assert CallInv(s, s.owners[id]);
    }
    DistinctIdsFit(s.invoked, s.receipts);
  }

  // ---------- What happened over a run ----------

  /** Whether some step of a run was of the given kind. */
  predicate Happened(kind: (Context, Action) -> bool, s: Context, actions: seq<Action>)
    decreases actions
  {
    actions != [] && (kind(s, actions[0]) || Happened(kind, Next(s, actions[0]), actions[1..]))
  }

  /** A call meets the deadline: when it is charged, before or after its operation is invoked, or
      while its caller waits. */
  predicate MeetsDeadline(s: Context, action: Action) {
    match action
    case Advance(k, choice) =>
      && k < |s.calls| && !choice.inTime
      && ((s.calls[k].waiter.Reading? && ReadsOwn(s, k))
          || (s.calls[k].waiter.Awaiting? && s.calls[k].task.Succeeded?))
    case TimeOut(k) => k < |s.calls| && s.calls[k].waiter.Awaiting? && s.calls[k].task.Unfinished()
    case RunTask(k, choice) => k < |s.calls| && s.calls[k].task.Validating? && k !in s.detached && !choice.inTime
    case _ => false
  }

  /** The stored receipts are the context's list and one more, which is this call's own. */
  predicate ReadsOwn(s: Context, k: nat)
    requires k < |s.calls|
  {
    var stored := Receipts(s.ledger);
    && |stored| == |s.receipts| + 1 && stored[..|s.receipts|] == s.receipts
    && stored[|s.receipts|].id == s.calls[k].id && stored[|s.receipts|].cost == s.calls[k].cost
  }

  /** A caller is cancelled while it waits for its charged call. */
  predicate CutsOff(s: Context, action: Action) {
    action.Cancel? && action.k < |s.calls| && s.calls[action.k].waiter.Awaiting?
  }

  predicate EndsEarly(s: Context, action: Action) {
    MeetsDeadline(s, action) || CutsOff(s, action)
  }

  /** A reservation that is stored although its caller was cancelled inside the lock: the caller
      goes before it reads the receipt back, or the write lands after the caller went. */
  predicate Orphans(s: Context, action: Action) {
    match action
    case Cancel(k) => k < |s.calls| && s.calls[k].waiter.Reading?
    case Advance(k, choice) =>
      k < |s.calls| && s.calls[k].waiter.Cut? && choice.accepted && !Charged(Receipts(s.ledger), s.calls[k].id)
    case _ => false
  }

  /** More is stored than the list and the receipt about to be read back. */
  predicate Orphaned(s: Context) {
    |s.receipts| + Unread(s) < |Receipts(s.ledger)|
  }

  lemma {:induction false} ExhaustedByHistory(s: Context, actions: seq<Action>)
    ensures Execute(s, actions).exhausted <==> s.exhausted || Happened(EndsEarly, s, actions)
    decreases actions
  {
    if actions != [] {
      ExhaustedByStep(s, actions[0]);
      ExhaustedByHistory(Next(s, actions[0]), actions[1..]);
    }
  }

  lemma ExhaustedByStep(s: Context, action: Action)
    ensures Next(s, action).exhausted <==> s.exhausted || EndsEarly(s, action)
  {
  }

  lemma {:induction false} OrphanedByHistory(s: Context, actions: seq<Action>)
    requires Inv(s)
    ensures Orphaned(Execute(s, actions)) <==> Orphaned(s) || Happened(Orphans, s, actions)
    decreases actions
  {
    if actions != [] {
      NextKeepsInv(s, actions[0]);
      OrphanedByStep(s, actions[0]);
      OrphanedByHistory(Next(s, actions[0]), actions[1..]);
    }
  }

  lemma OrphanedByStep(s: Context, action: Action)
    requires Inv(s)
    ensures Orphaned(Next(s, action)) <==> Orphaned(s) || Orphans(s, action)
  {
    match action
    case Advance(k, choice) => if k < |s.calls| { OrphanedByAdvance(s, k, choice); }
    case Cancel(k) => if k < |s.calls| { OrphanedByCancel(s, k); }
    case RunTask(k, choice) => if k < |s.calls| { TaskStoresNothing(s, k, choice); }
    case _ =>
  }

  lemma OrphanedByAdvance(s: Context, k: nat, choice: Choice)
    requires Inv(s) && k < |s.calls|
    ensures Orphaned(AfterAdvance(s, k, choice)) <==> Orphaned(s) || Orphans(s, Advance(k, choice))
  {
    assert CallInv(s, k);
    match s.calls[k].waiter
    case Reserving => OrphanedByReserve(s, k, choice.accepted);
    case Reading => OrphanedByReadBack(s, k, choice.inTime);
    case Cut => OrphanedByLanding(s, k, choice.accepted);
    case _ =>
  }

  lemma OrphanedByReserve(s: Context, k: nat, accepted: bool)
    requires Inv(s) && k < |s.calls| && s.calls[k].waiter.Reserving?
    ensures Orphaned(Reserve(s, k, accepted)) <==> Orphaned(s)
  {
    assert CallInv(s, k);
    hide Receipts, IndexInv, LedgerInv, CallInv;
    ReceiptsAppended(s.ledger, ProviderEntry(s.calls[k].id, s.calls[k].cost));
  }

  lemma OrphanedByReadBack(s: Context, k: nat, inTime: bool)
    requires Inv(s) && k < |s.calls| && s.calls[k].waiter.Reading?
    ensures Orphaned(ReadBack(s, k, inTime)) <==> Orphaned(s)
  {
    assert CallInv(s, k);
    hide Receipts, IndexInv, CallInv;
  }

  lemma OrphanedByLanding(s: Context, k: nat, accepted: bool)
    requires Inv(s) && k < |s.calls| && s.calls[k].waiter.Cut?
    ensures Orphaned(Land(s, k, accepted)) <==>
              Orphaned(s) || (accepted && !Charged(Receipts(s.ledger), s.calls[k].id))
  {
    assert CallInv(s, k);
    hide Receipts, IndexInv, CallInv;
    ReceiptsAppended(s.ledger, ProviderEntry(s.calls[k].id, s.calls[k].cost));
  }

  lemma OrphanedByCancel(s: Context, k: nat)
    requires Inv(s) && k < |s.calls|
    ensures Orphaned(AfterCancel(s, k)) <==> Orphaned(s) || Orphans(s, Cancel(k))
  {
    assert CallInv(s, k);
  }

  lemma TaskStoresNothing(s: Context, k: nat, choice: Choice)
    requires k < |s.calls|
    ensures Orphaned(AfterTask(s, k, choice)) <==> Orphaned(s)
  {
    var t := AfterTask(s, k, choice);
    assert t == s.(calls := t.calls, detached := t.detached, exhausted := t.exhausted, invoked := t.invoked);
    assert t.calls == s.calls[k := s.calls[k].(task := t.calls[k].task)];
  }

  /** The list is always a prefix of what is stored, and whenever the lock is free it is exactly
      what is stored if and only if no call cut off inside the lock ever stored a reservation. */
  lemma StoredReceiptsAreTheList(actions: seq<Action>)
    ensures var s := Execute(INITIAL, actions);
            && s.receipts <= Receipts(s.ledger)
            && (s.lock.None? ==> (Receipts(s.ledger) == s.receipts <==> !Happened(Orphans, INITIAL, actions)))
  {
    ReachableInv(INITIAL, actions);
    OrphanedByHistory(INITIAL, actions);
  }

  ghost predicate AllSettled(s: Context) {
    forall k :: 0 <= k < |s.calls| && !s.calls[k].task.NotCreated? ==> Settled(s.calls[k])
  }

  /** A call that is still in flight, or whose task outlives it, is not settled. */
  lemma UnsettledCall(s: Context)
    requires Inv(s) && (s.inFlight != {} || s.detached != {})
    ensures !AllSettled(s)
  {
    if id :| id in s.inFlight {
      assert CallInv(s, s.owners[id]);
      assert !Settled(s.calls[s.owners[id]]);
    } else {
      var k :| k in s.detached;
      assert CallInv(s, k);
      assert !Settled(s.calls[k]);
    }
  }

  /** A report can be sealed exactly when the lock is free, no call ever met the deadline or was
      cut off while its caller waited for it, and every task is over with its caller told:
      succeeded and returned, or failed. */
  lemma CompleteMeansSettled(actions: seq<Action>)
    ensures var s := Execute(INITIAL, actions);
            s.CanComplete() <==> s.lock.None? && !Happened(EndsEarly, INITIAL, actions) && AllSettled(s)
  {
    ReachableInv(INITIAL, actions);
    ExhaustedByHistory(INITIAL, actions);
    var s := Execute(INITIAL, actions);
    if s.CanComplete() {
      forall k | 0 <= k < |s.calls| && !s.calls[k].task.NotCreated?
        ensures Settled(s.calls[k])
      {
        assert CallInv(s, k);
      }
    } else if s.inFlight != {} || s.detached != {} {
      UnsettledCall(s);
    }
  }

  /** The check on a sealed outcome: its receipts are exactly the stored ones. */
  predicate Accepted(s: Context) {
    s.sealed == Some(Receipts(s.ledger))
  }

  /** An accepted outcome accounts for everything: whatever happened between sealing and the
      check, each operation ever invoked is over and has its receipt in the outcome. */
  lemma AcceptedOutcomeCoversEveryCall(actions: seq<Action>)
    requires Accepted(Execute(INITIAL, actions))
    ensures var s := Execute(INITIAL, actions);
            && s.sealed == Some(s.receipts)
            && AllSettled(s)
            && forall id <- s.invoked :: Charged(s.sealed.value, id)
  {
    ReachableInv(INITIAL, actions);
    InvokedNeverOutnumberCharged(actions);
    var s := Execute(INITIAL, actions);
    assert s.receipts == Receipts(s.ledger);
    forall k | 0 <= k < |s.calls| && !s.calls[k].task.NotCreated?
      ensures Settled(s.calls[k])
    {
      assert CallInv(s, k);
    }
  }

  /** Sealing leaves an outcome the check accepts if and only if no call cut off inside the lock
      ever stored a reservation. */
  lemma SealedOutcomeIsAccepted(actions: seq<Action>)
    requires Execute(INITIAL, actions).CanComplete()
    ensures Accepted(Next(Execute(INITIAL, actions), Complete)) <==> !Happened(Orphans, INITIAL, actions)
  {
    StoredReceiptsAreTheList(actions);
  }

  /** A stored receipt that no caller read back is fatal: from then on no call is ever charged
      again in this context, and no outcome it seals is accepted. */
  lemma {:induction false} UnreadReceiptIsFatal(s: Context, actions: seq<Action>)
    requires Inv(s) && Orphaned(s)
    ensures var t := Execute(s, actions); t.receipts == s.receipts && !Accepted(t)
    decreases actions
  {
    if actions != [] {
      NextKeepsInv(s, actions[0]);
      OrphanedByStep(s, actions[0]);
      ListStays(s, actions[0]);
      UnreadReceiptIsFatal(Next(s, actions[0]), actions[1..]);
    }
  }

  lemma ListStays(s: Context, action: Action)
    requires Inv(s) && Orphaned(s)
    ensures Next(s, action).receipts == s.receipts
  {
    if action.Advance? && action.k < |s.calls| {
      assert CallInv(s, action.k);
    }
  }

  const FIRST := CallId(1, Proposal, 7)
  const ON_TIME := Choice(true, true, true, false, Succeeded)

  /** Such a run: the only caller is cancelled after its reservation was stored and before it
      read the receipt back. The context is idle and can seal an outcome, which is refused. */
  lemma OrphanedReceiptIsReachable()
    ensures var s := Execute(INITIAL, [Begin(FIRST, 3), Advance(0, ON_TIME), Advance(0, ON_TIME), Cancel(0)]);
            && s.CanComplete() && s.receipts == [] && |Receipts(s.ledger)| == 1
            && Orphaned(s) && !Accepted(Next(s, Complete))
  {
    var begun := Next(INITIAL, Begin(FIRST, 3));
    var entered := Next(begun, Advance(0, ON_TIME));
    var stored := Next(entered, Advance(0, ON_TIME));
    var cut := Next(stored, Cancel(0));
    assert entered.calls[0].waiter.Reserving? && Receipts(entered.ledger) == [];
    assert stored.ledger == [ProviderEntry(FIRST, 3)] && stored.ledger[..0] == [];
    assert Execute(INITIAL, [Begin(FIRST, 3), Advance(0, ON_TIME), Advance(0, ON_TIME), Cancel(0)])
        == Execute(begun, [Advance(0, ON_TIME), Advance(0, ON_TIME), Cancel(0)])
        == Execute(entered, [Advance(0, ON_TIME), Cancel(0)])
        == Execute(stored, [Cancel(0)])
        == Execute(cut, []);
  }

  // ---------- The metered planner ----------

  datatype CallOutcome = WindowUnavailable | CallFailed | Turn(inputDigest: nat)

  /** The planner in front of the context: it numbers its calls, so no two share an identifier. */
  class DurableAdvisoryPlanner {
    var sequence: nat
    var predispatchRefused: bool
    ghost var issued: seq<CallId>

    ghost predicate Valid()
      reads this
    {
      |issued| == sequence && forall i :: 0 <= i < |issued| ==> issued[i].sequence == i + 1
    }

    constructor ()
      ensures Valid() && issued == [] && !predispatchRefused
    {
      sequence := 0;
      predispatchRefused := false;
      issued := [];
    }

    /** `outcome` is what the metered call answers for the identifier it is given. */
    method Plan(phase: PlannerPhase, digest: nat, outcome: CallId -> CallOutcome) returns (turn: Option<nat>)
      requires Valid()
      modifies this
      ensures Valid() && Distinct(issued)
      ensures exists id :: && issued == old(issued) + [id] && id !in old(issued)
                           && id.phase == phase && id.digest == digest
                           && (turn == Some(digest) <==> outcome(id) == Turn(digest))
                           && (turn == None || turn == Some(digest))
                           && predispatchRefused == (old(predispatchRefused) || outcome(id) == WindowUnavailable)
    {
      sequence := sequence + 1;
      var id := CallId(sequence, phase, digest);
      issued := issued + [id];
      match outcome(id) {
        case WindowUnavailable =>
          predispatchRefused := true;
          turn := None;
        case CallFailed =>
          turn := None;
        case Turn(inputDigest) =>
          turn := if inputDigest == digest then Some(digest) else None;
      }
      assert id !in old(issued);
    }
  }
}
