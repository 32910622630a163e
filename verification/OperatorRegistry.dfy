/** The operator's bounded registry of scenario runs: one index by launch identity, in insertion
    order, and one by investigation identity, over the same run states. */
module OperatorRegistry {
  import opened Wrappers

  const MAX_ACTIVE_SCENARIO_RUNS: nat := 4
  const MAX_RETAINED_SCENARIO_RUNS: nat := 64

  /** A launch request by its exact bytes; the investigation identity is derived from it. */
  datatype Request = Request(launch: nat, content: nat, investigation: nat)

  /** One run state object: the request it is bound to, whether its journal ended, whether its
      task is alive, and whether a notifier of its task's exit is still pending. */
  datatype RunState = RunState(request: Request, terminal: bool, task: bool, notifying: bool) {
    predicate Evictable() { terminal && !task && !notifying }
  }

  datatype Entry = Entry(launch: nat, run: nat)

  /** `runs` are the run state objects ever made, by identity. `store` is the durable binding of
      launch identities, present only for a durable operator. */
  datatype Registry = Registry(
    entries: seq<Entry>, byInvestigation: map<nat, nat>, runs: seq<RunState>, store: Option<map<nat, Request>>)

  datatype Error = LaunchConflict | CapacityExceeded | RunNotFound | Collision | Unavailable

  predicate Retained(entries: seq<Entry>, launch: nat) {
    exists e <- entries :: e.launch == launch
  }

  function RunOf(entries: seq<Entry>, launch: nat): nat
    requires Retained(entries, launch)
  {
    if entries[0].launch == launch then entries[0].run else RunOf(entries[1..], launch)
  }

  function ActiveCount(entries: seq<Entry>, runs: seq<RunState>): nat {
    if entries == [] then 0
    else (if entries[0].run < |runs| && runs[entries[0].run].task then 1 else 0) + ActiveCount(entries[1..], runs)
  }

  // ---------- Eviction ----------

  /** The position of the oldest entry that may be evicted. */
  function OldestEvictable(entries: seq<Entry>, runs: seq<RunState>): (k: Option<nat>)
    ensures k.Some? ==> k.value < |entries|
                        && entries[k.value].run < |runs| && runs[entries[k.value].run].Evictable()
    ensures forall i :: 0 <= i < (if k.Some? then k.value else |entries|) && entries[i].run < |runs| ==>
              !runs[entries[i].run].Evictable()
  {
    if entries == [] then None
    else if entries[0].run < |runs| && runs[entries[0].run].Evictable() then Some(0)
    else
      match OldestEvictable(entries[1..], runs)
      case Some(k) => Some(k + 1)
      case None => None
  }

  function Without(s: Registry, k: nat): Registry
    requires k < |s.entries| && s.entries[k].run < |s.runs|
  {
    s.(entries := s.entries[..k] + s.entries[k + 1..],
       byInvestigation := s.byInvestigation - {s.runs[s.entries[k].run].request.investigation})
  }

  function Evict(s: Registry): Option<Registry> {
    if s.store.None? then None
    else match OldestEvictable(s.entries, s.runs)
      case Some(k) => Some(Without(s, k))
      case None => None
  }

  /** Room for one more entry: a registry within its bound needs at most one eviction. */
  function MakeRoom(s: Registry): (Registry, bool) {
    if |s.entries| < MAX_RETAINED_SCENARIO_RUNS then (s, true)
    else match Evict(s)
      case None => (s, false)
      case Some(t) => (t, true)
  }

  // ---------- Operations ----------

  function Register(s: Registry, run: RunState): Registry {
    s.(entries := s.entries + [Entry(run.request.launch, |s.runs|)],
       byInvestigation := s.byInvestigation[run.request.investigation := |s.runs|],
       runs := s.runs + [run])
  }

  function StartTask(s: Registry, run: nat): Registry
    requires run < |s.runs|
  {
    if s.runs[run].terminal || s.runs[run].task then s
    else s.(runs := s.runs[run := s.runs[run].(task := true)])
  }

  /** The durable binding of a launch: created, found with the same bytes, or refused. */
  function Bind(store: map<nat, Request>, request: Request): Result<(map<nat, Request>, bool), Error> {
    if request.launch in store then
      if store[request.launch] == request then Success((store, false)) else Failure(LaunchConflict)
    else if exists l <- store :: store[l].investigation == request.investigation then Failure(LaunchConflict)
    else Success((store[request.launch := request], true))
  }

  datatype Launched = Launched(registry: Registry, outcome: Result<bool, Error>)

  /** `ended` is whether a binding found in the store has a terminal projection. */
  function Launch(s: Registry, request: Request, ended: bool): Launched {
    if Retained(s.entries, request.launch) then
      var run := RunOf(s.entries, request.launch);
      if |s.runs| <= run || s.runs[run].request != request then Launched(s, Failure(LaunchConflict))
      else Launched(StartTask(s, run), Success(false))
    else if request.investigation in s.byInvestigation then Launched(s, Failure(LaunchConflict))
    else if MAX_ACTIVE_SCENARIO_RUNS <= ActiveCount(s.entries, s.runs) then Launched(s, Failure(CapacityExceeded))
    else
      var (roomy, fits) := MakeRoom(s);
      if !fits then Launched(roomy, Failure(CapacityExceeded))
      else LaunchInto(roomy, request, ended)
  }

  function LaunchInto(s: Registry, request: Request, ended: bool): Launched {
    if s.store.None? then Launched(Register(s, RunState(request, false, true, false)), Success(true))
    else match Bind(s.store.value, request)
      case Failure(e) => Launched(s, Failure(e))
      case Success((store, created)) =>
        var terminal := !created && ended;
        Launched(Register(s.(store := Some(store)), RunState(request, terminal, !terminal, false)), Success(created))
  }

  /** A lookup that missed the cache and read `launch` and its projection from the store. */
  function Hydrate(s: Registry, launch: nat, terminal: bool): Launched {
    if s.store.None? || launch !in s.store.value then Launched(s, Failure(RunNotFound))
    else
      var request := s.store.value[launch];
      if request.investigation in s.byInvestigation then Launched(s, Success(false))
      else if Retained(s.entries, request.launch) then Launched(s, Failure(Unavailable))
      else
        var (roomy, fits) := MakeRoom(s);
        if !fits then Launched(roomy, Failure(CapacityExceeded))
        else Launched(Register(roomy, RunState(request, terminal, false, false)), Success(true))
  }

  /** One work item of a restart. */
  function Reconnect(s: Registry, launch: nat, terminal: bool): Launched {
    if s.store.None? || launch !in s.store.value then Launched(s, Failure(RunNotFound))
    else
      var request := s.store.value[launch];
      if Retained(s.entries, request.launch) || request.investigation in s.byInvestigation then
        Launched(s, Failure(Collision))
      else
        var (roomy, fits) := MakeRoom(s);
        if !fits then Launched(roomy, Failure(CapacityExceeded))
        else Launched(Register(roomy, RunState(request, terminal, !terminal, false)), Success(true))
  }

  datatype Action =
    | LaunchRun(request: Request, ended: bool)
    | HydrateRun(launch: nat, terminal: bool)
    | ReconnectRun(launch: nat, terminal: bool)
    | EndRun(run: nat)
    | TaskExits(run: nat, notifying: bool)
    | NotifierDone(run: nat)

  function Next(s: Registry, action: Action): Registry {
    match action
    case LaunchRun(request, ended) => Launch(s, request, ended).registry
    case HydrateRun(launch, terminal) => Hydrate(s, launch, terminal).registry
    case ReconnectRun(launch, terminal) => Reconnect(s, launch, terminal).registry
    case EndRun(run) => if run < |s.runs| then s.(runs := s.runs[run := s.runs[run].(terminal := true)]) else s
    case TaskExits(run, notifying) =>
      if run < |s.runs| && s.runs[run].task then
        s.(runs := s.runs[run := s.runs[run].(task := false, notifying := notifying && !s.runs[run].terminal)])
      else s
    case NotifierDone(run) =>
      if run < |s.runs| then s.(runs := s.runs[run := s.runs[run].(notifying := false)]) else s
  }

  function Run(s: Registry, actions: seq<Action>): Registry
    decreases actions
  {
    if actions == [] then s else Run(Next(s, actions[0]), actions[1..])
  }

  // ---------- What every reachable registry satisfies ----------

  /** Every entry's run is filed under its investigation. */
  ghost predicate EntriesFiled(s: Registry) {
    forall i :: 0 <= i < |s.entries| ==>
      && s.entries[i].run < |s.runs|
      && var request := s.runs[s.entries[i].run].request;
         && request.launch == s.entries[i].launch
         && request.investigation in s.byInvestigation
         && s.byInvestigation[request.investigation] == s.entries[i].run
  }

  ghost predicate DistinctLaunches(entries: seq<Entry>) {
    forall i, j :: 0 <= i < j < |entries| ==> entries[i].launch != entries[j].launch
  }

  /** Everything filed under an investigation has its entry. */
  ghost predicate IndexBacked(s: Registry) {
    forall v <- s.byInvestigation ::
      && s.byInvestigation[v] < |s.runs|
      && s.runs[s.byInvestigation[v]].request.investigation == v
      && Entry(s.runs[s.byInvestigation[v]].request.launch, s.byInvestigation[v]) in s.entries
  }

  /** The two indexes hold the same runs. */
  ghost predicate OneToOne(s: Registry) {
    EntriesFiled(s) && DistinctLaunches(s.entries) && IndexBacked(s)
  }

  /** Whatever is cached of a durable operator is what the store bound. */
  ghost predicate Stored(s: Registry) {
    s.store.Some? ==>
      && (forall l <- s.store.value :: s.store.value[l].launch == l)
      && (forall i :: 0 <= i < |s.entries| && s.entries[i].run < |s.runs| ==>
            s.entries[i].launch in s.store.value
            && s.store.value[s.entries[i].launch] == s.runs[s.entries[i].run].request)
  }

  ghost predicate Inv(s: Registry) {
    OneToOne(s) && Stored(s) && |s.entries| <= MAX_RETAINED_SCENARIO_RUNS
  }

  lemma RunOfIsRetained(entries: seq<Entry>, launch: nat)
    requires Retained(entries, launch)
    ensures Entry(launch, RunOf(entries, launch)) in entries
  {
  }

  lemma WithoutKeepsInv(s: Registry, k: nat)
    requires Inv(s) && k < |s.entries|
    ensures Inv(Without(s, k)) && |Without(s, k).entries| == |s.entries| - 1
  {
    WithoutKeepsFiled(s, k);
    WithoutKeepsBacked(s, k);
    WithoutKeepsStored(s, k);
    hide EntriesFiled, IndexBacked, Stored;
  }

  lemma WithoutKeepsFiled(s: Registry, k: nat)
    requires EntriesFiled(s) && DistinctLaunches(s.entries) && k < |s.entries|
    ensures EntriesFiled(Without(s, k)) && DistinctLaunches(Without(s, k).entries)
  {
    var t := Without(s, k);
    forall i | 0 <= i < |t.entries|
      ensures t.entries[i] == s.entries[if i < k then i else i + 1]
    {
    }
  }

  lemma WithoutKeepsBacked(s: Registry, k: nat)
    requires EntriesFiled(s) && IndexBacked(s) && k < |s.entries|
    ensures IndexBacked(Without(s, k))
  {
    var t := Without(s, k);
    forall v <- t.byInvestigation
      ensures Entry(s.runs[s.byInvestigation[v]].request.launch, s.byInvestigation[v]) in t.entries
    {
      var i :| 0 <= i < |s.entries|
        && s.entries[i] == Entry(s.runs[s.byInvestigation[v]].request.launch, s.byInvestigation[v]);
      assert i != k;
      assert t.entries[if i < k then i else i - 1] == s.entries[i];
    }
  }

  lemma WithoutKeepsStored(s: Registry, k: nat)
    requires EntriesFiled(s) && Stored(s) && k < |s.entries|
    ensures Stored(Without(s, k))
  {
    var t := Without(s, k);
    forall i | 0 <= i < |t.entries|
      ensures t.entries[i] == s.entries[if i < k then i else i + 1]
    {
    }
  }

  lemma MakeRoomKeepsInv(s: Registry)
    requires Inv(s)
    ensures var (t, fits) := MakeRoom(s);
            Inv(t) && (fits <==> |t.entries| < MAX_RETAINED_SCENARIO_RUNS) && t.runs == s.runs && t.store == s.store
  {
    if |s.entries| == MAX_RETAINED_SCENARIO_RUNS && s.store.Some? && OldestEvictable(s.entries, s.runs).Some? {
      WithoutKeepsInv(s, OldestEvictable(s.entries, s.runs).value);
    }
  }

  lemma EvictionMakesRoom(s: Registry)
    requires Inv(s) && MAX_RETAINED_SCENARIO_RUNS <= |s.entries| && Evict(s).Some?
    ensures MakeRoom(s) == (Evict(s).value, true)
    ensures Inv(Evict(s).value) && |Evict(s).value.entries| < MAX_RETAINED_SCENARIO_RUNS
  {
    WithoutKeepsInv(s, OldestEvictable(s.entries, s.runs).value);
  }

  /** Making room evicts at most one run, and only from a full durable registry: the oldest one
      that has ended, has no task and no notifier pending; it fails exactly when there is none. */
  lemma MakeRoomEvictsOldestEnded(s: Registry)
    requires Inv(s)
    ensures var (t, fits) := MakeRoom(s);
            && (|s.entries| < MAX_RETAINED_SCENARIO_RUNS ==> t == s && fits)
            && (|s.entries| == MAX_RETAINED_SCENARIO_RUNS ==>
                  (fits <==> s.store.Some? && exists i :: 0 <= i < |s.entries| && s.runs[s.entries[i].run].Evictable()))
            && (t != s ==> exists k :: && 0 <= k < |s.entries| && s.runs[s.entries[k].run].Evictable()
                                      && (forall i :: 0 <= i < k ==> !s.runs[s.entries[i].run].Evictable())
                                      && t == Without(s, k))
  {
  }

  lemma RegisterKeepsInv(s: Registry, run: RunState)
    requires Inv(s) && |s.entries| < MAX_RETAINED_SCENARIO_RUNS
    requires !Retained(s.entries, run.request.launch) && run.request.investigation !in s.byInvestigation
    requires s.store.Some? ==> run.request.launch in s.store.value && s.store.value[run.request.launch] == run.request
    ensures Inv(Register(s, run))
  {
    RegisterKeepsBacked(s, run);
    hide IndexBacked;
    var t := Register(s, run);
    assert forall i :: 0 <= i < |s.entries| ==> t.entries[i] == s.entries[i];
  }

  lemma RegisterKeepsBacked(s: Registry, run: RunState)
    requires IndexBacked(s) && run.request.investigation !in s.byInvestigation
    ensures IndexBacked(Register(s, run))
  {
    var t := Register(s, run);
    forall v <- t.byInvestigation
      ensures Entry(t.runs[t.byInvestigation[v]].request.launch, t.byInvestigation[v]) in t.entries
    {
      if v == run.request.investigation {
        assert t.entries[|s.entries|] == Entry(run.request.launch, |s.runs|);
      } else {
        assert s.byInvestigation[v] == t.byInvestigation[v];
      }
    }
  }

  lemma LaunchIntoKeepsInv(s: Registry, request: Request, ended: bool)
    requires Inv(s) && |s.entries| < MAX_RETAINED_SCENARIO_RUNS
    requires !Retained(s.entries, request.launch) && request.investigation !in s.byInvestigation
    ensures Inv(LaunchInto(s, request, ended).registry)
  {
    if s.store.None? {
      RegisterKeepsInv(s, RunState(request, false, true, false));
    } else if Bind(s.store.value, request).Success? {
      var (store, created) := Bind(s.store.value, request).value;
      var terminal := !created && ended;
      RegisterKeepsInv(s.(store := Some(store)), RunState(request, terminal, !terminal, false));
    }
  }

  lemma RunChangeKeepsInv(s: Registry, run: nat, after: RunState)
    requires Inv(s) && run < |s.runs| && after.request == s.runs[run].request
    ensures Inv(s.(runs := s.runs[run := after]))
  {
  }

  lemma RelaunchKeepsInv(s: Registry, request: Request, ended: bool)
    requires Inv(s) && Retained(s.entries, request.launch)
    ensures Inv(Launch(s, request, ended).registry)
  {
    RunOfIsRetained(s.entries, request.launch);
    var run := RunOf(s.entries, request.launch);
    RunChangeKeepsInv(s, run, s.runs[run].(task := true));
  }

  lemma LaunchKeepsInv(s: Registry, request: Request, ended: bool)
    requires Inv(s)
    ensures Inv(Launch(s, request, ended).registry)
  {
    if Retained(s.entries, request.launch) {
      RelaunchKeepsInv(s, request, ended);
    } else if request.investigation !in s.byInvestigation {
      MakeRoomKeepsInv(s);
      if MakeRoom(s).1 {
        LaunchIntoKeepsInv(MakeRoom(s).0, request, ended);
      }
    }
  }

  lemma RestoreKeepsInv(s: Registry, launch: nat, terminal: bool, task: bool)
    requires Inv(s) && s.store.Some? && launch in s.store.value
    requires !Retained(s.entries, launch) && s.store.value[launch].investigation !in s.byInvestigation
    ensures var (t, fits) := MakeRoom(s);
            Inv(t) && (fits ==> Inv(Register(t, RunState(s.store.value[launch], terminal, task, false))))
  {
    MakeRoomKeepsInv(s);
    var (t, fits) := MakeRoom(s);
    if fits {
      RegisterKeepsInv(t, RunState(s.store.value[launch], terminal, task, false));
    }
  }

  lemma NextKeepsInv(s: Registry, action: Action)
    requires Inv(s)
    ensures Inv(Next(s, action))
  {
    match action
    case LaunchRun(request, ended) => LaunchKeepsInv(s, request, ended);
    case HydrateRun(launch, terminal) =>
      if s.store.Some? && launch in s.store.value && !Retained(s.entries, launch)
         && s.store.value[launch].investigation !in s.byInvestigation
      {
        RestoreKeepsInv(s, launch, terminal, false);
      }
    case ReconnectRun(launch, terminal) =>
      if s.store.Some? && launch in s.store.value && !Retained(s.entries, launch)
         && s.store.value[launch].investigation !in s.byInvestigation
      {
        RestoreKeepsInv(s, launch, terminal, !terminal);
      }
    case EndRun(run) => if run < |s.runs| { RunChangeKeepsInv(s, run, s.runs[run].(terminal := true)); }
    case TaskExits(run, notifying) =>
      if run < |s.runs| {
        RunChangeKeepsInv(s, run, s.runs[run].(task := false, notifying := notifying && !s.runs[run].terminal));
      }
    case NotifierDone(run) => if run < |s.runs| { RunChangeKeepsInv(s, run, s.runs[run].(notifying := false)); }
  }

  lemma {:induction false} ReachableInv(s: Registry, actions: seq<Action>)
    requires Inv(s)
    ensures Inv(Run(s, actions))
    decreases actions
  {
    if actions != [] {
      NextKeepsInv(s, actions[0]);
      ReachableInv(Next(s, actions[0]), actions[1..]);
    }
  }

  function Empty(durable: bool): Registry {
    Registry([], map[], [], if durable then Some(map[]) else None)
  }

  /** Over any mix of launches, lookups, restarts, evictions and ending runs, the two indexes stay
      in one-to-one correspondence and within their bound. */
  lemma IndexesCorrespond(durable: bool, actions: seq<Action>)
    ensures var s := Run(Empty(durable), actions);
            OneToOne(s) && |s.entries| <= MAX_RETAINED_SCENARIO_RUNS && |s.byInvestigation| == |s.entries|
  {
    ReachableInv(Empty(durable), actions);
    SameSize(Run(Empty(durable), actions));
  }

  lemma {:induction false} SameSize(s: Registry)
    requires OneToOne(s)
    ensures |s.byInvestigation| == |s.entries|
    decreases |s.entries|
  {
    if s.entries == [] {
      assert s.byInvestigation.Keys == {};
    } else {
      SameSize(Without(s, |s.entries| - 1));
    }
  }

  /** What any step does to the registry: entries leave only to make room and join at the end,
      bindings are only added, and no run state changes its request. */
  ghost predicate Grows(s: Registry, t: Registry) {
    && (t.entries == s.entries || MakeRoom(s).0.entries <= t.entries)
    && (s.store.Some? <==> t.store.Some?)
    && (s.store.Some? ==> forall l <- s.store.value :: l in t.store.value && t.store.value[l] == s.store.value[l])
    && |s.runs| <= |t.runs|
    && forall r :: 0 <= r < |s.runs| ==> t.runs[r].request == s.runs[r].request
  }

  lemma RegisteredGrows(s: Registry, store: Option<map<nat, Request>>, run: RunState)
    requires s.store.Some? <==> store.Some?
    requires s.store.Some? ==> forall l <- s.store.value :: l in store.value && store.value[l] == s.store.value[l]
    ensures Grows(s, Register(MakeRoom(s).0.(store := store), run))
  {
  }

  lemma LaunchIntoGrows(s: Registry, request: Request, ended: bool)
    ensures Grows(s, LaunchInto(MakeRoom(s).0, request, ended).registry)
  {
    var r := MakeRoom(s).0;
    if s.store.None? {
      RegisteredGrows(s, None, RunState(request, false, true, false));
      assert r.(store := None) == r;
    } else if Bind(s.store.value, request).Success? {
      var (store, created) := Bind(s.store.value, request).value;
      RegisteredGrows(s, Some(store), RunState(request, !created && ended, !(!created && ended), false));
    }
  }

  lemma LaunchGrows(s: Registry, request: Request, ended: bool)
    requires Inv(s)
    ensures Grows(s, Launch(s, request, ended).registry)
  {
    var t := Launch(s, request, ended).registry;
    if Retained(s.entries, request.launch) {
      RunOfIsRetained(s.entries, request.launch);
      assert t == s || t == StartTask(s, RunOf(s.entries, request.launch));
    } else {
      LaunchIntoGrows(s, request, ended);
      assert t == s || t == MakeRoom(s).0 || t == LaunchInto(MakeRoom(s).0, request, ended).registry;
    }
  }

  lemma RestoreGrows(s: Registry, launch: nat, terminal: bool)
    requires Inv(s)
    ensures Grows(s, Hydrate(s, launch, terminal).registry) && Grows(s, Reconnect(s, launch, terminal).registry)
  {
    if s.store.Some? && launch in s.store.value {
      RegisteredGrows(s, s.store, RunState(s.store.value[launch], terminal, false, false));
      RegisteredGrows(s, s.store, RunState(s.store.value[launch], terminal, !terminal, false));
      assert MakeRoom(s).0.(store := s.store) == MakeRoom(s).0;
    }
  }

  lemma NextGrows(s: Registry, action: Action)
    requires Inv(s)
    ensures Grows(s, Next(s, action))
  {
    match action
    case LaunchRun(request, ended) => LaunchGrows(s, request, ended);
    case HydrateRun(launch, terminal) => RestoreGrows(s, launch, terminal);
    case ReconnectRun(launch, terminal) => RestoreGrows(s, launch, terminal);
    case _ =>
  }

  lemma EvictedAt(s: Registry) returns (k: nat)
    requires Inv(s) && MakeRoom(s).0 != s
    ensures k < |s.entries| && s.store.Some? && s.runs[s.entries[k].run].Evictable()
    ensures MakeRoom(s).0.entries == s.entries[..k] + s.entries[k + 1..]
  {
    k := OldestEvictable(s.entries, s.runs).value;
  }

  /** Only a run that has ended, with no task and no pending notifier, ever leaves the registry,
      and only when a store can replay it. */
  lemma OnlyEndedRunsAreEvicted(s: Registry, action: Action, i: nat)
    requires Inv(s) && i < |s.entries|
    ensures s.entries[i] in Next(s, action).entries
            || (s.store.Some? && s.runs[s.entries[i].run].Evictable())
  {
    NextGrows(s, action);
    StaysUnlessEvicted(s, Next(s, action).entries, i);
  }

  lemma StaysUnlessEvicted(s: Registry, after: seq<Entry>, i: nat)
    requires Inv(s) && i < |s.entries| && (after == s.entries || MakeRoom(s).0.entries <= after)
    ensures s.entries[i] in after || (s.store.Some? && s.runs[s.entries[i].run].Evictable())
  {
    if MakeRoom(s).0 == s {
      assert after[i] == s.entries[i];
    } else if after != s.entries {
      var k := EvictedAt(s);
      if i != k {
        var j := if i < k then i else i - 1;
        assert MakeRoom(s).0.entries[j] == s.entries[i] && after[j] == s.entries[i];
      }
    }
  }

  // ---------- What a launch identity is bound to ----------

  function Bound(s: Registry, launch: nat): Option<Request> {
    if s.store.Some? then (if launch in s.store.value then Some(s.store.value[launch]) else None)
    else if Retained(s.entries, launch) && RunOf(s.entries, launch) < |s.runs| then
      Some(s.runs[RunOf(s.entries, launch)].request)
    else None
  }

  lemma BoundByEntry(s: Registry, i: nat)
    requires Inv(s) && i < |s.entries|
    ensures Bound(s, s.entries[i].launch) == Some(s.runs[s.entries[i].run].request)
  {
    var launch := s.entries[i].launch;
    assert s.entries[i] in s.entries;
    RunOfIsRetained(s.entries, launch);
    var j :| 0 <= j < |s.entries| && s.entries[j] == Entry(launch, RunOf(s.entries, launch));
    assert i == j;
  }

  lemma BoundIsRetained(s: Registry, launch: nat) returns (i: nat)
    requires Inv(s) && Retained(s.entries, launch)
    ensures i < |s.entries| && s.entries[i].launch == launch
    ensures s.entries[i].run == RunOf(s.entries, launch) < |s.runs|
    ensures Bound(s, launch) == Some(s.runs[RunOf(s.entries, launch)].request)
  {
    RunOfIsRetained(s.entries, launch);
    i :| 0 <= i < |s.entries| && s.entries[i] == Entry(launch, RunOf(s.entries, launch));
    BoundByEntry(s, i);
  }

  lemma BindingStays(s: Registry, action: Action, launch: nat)
    requires Inv(s) && Bound(s, launch).Some?
    ensures Bound(Next(s, action), launch) == Bound(s, launch)
  {
    NextKeepsInv(s, action);
    NextGrows(s, action);
    GrowthKeepsBinding(s, Next(s, action), launch);
  }

  lemma GrowthKeepsBinding(s: Registry, t: Registry, launch: nat)
    requires Inv(s) && Inv(t) && Grows(s, t) && Bound(s, launch).Some?
    ensures Bound(t, launch) == Bound(s, launch)
  {
    if s.store.None? {
      var i := BoundIsRetained(s, launch);
      assert MakeRoom(s).0 == s;
      assert t.entries[i] == s.entries[i];
      BoundByEntry(t, i);
    }
  }

  /** A launch identity is never rebound to other bytes, over any further run, evictions and
      restorations included. */
  lemma {:induction false} BindingIsForever(s: Registry, actions: seq<Action>, launch: nat)
    requires Inv(s) && Bound(s, launch).Some?
    ensures Bound(Run(s, actions), launch) == Bound(s, launch)
    decreases actions
  {
    if actions != [] {
      NextKeepsInv(s, actions[0]);
      BindingStays(s, actions[0], launch);
      BindingIsForever(Next(s, actions[0]), actions[1..], launch);
    }
  }

  /** Launching a bound identity with other bytes is refused. */
  lemma OtherBytesAreRefused(s: Registry, request: Request, ended: bool)
    requires Inv(s) && Bound(s, request.launch).Some? && Bound(s, request.launch) != Some(request)
    ensures Launch(s, request, ended).outcome.Failure?
  {
    if Retained(s.entries, request.launch) {
      var _ := BoundIsRetained(s, request.launch);
    } else {
      MakeRoomKeepsInv(s);
      var (t, fits) := MakeRoom(s);
      assert t.store == s.store;
      assert fits && request.investigation !in s.byInvestigation ==> Bind(t.store.value, request).Failure?;
    }
  }

  /** Launching a retained identity with the same bytes creates nothing and leaves both indexes
      alone, whatever the capacity. */
  lemma RelaunchIsIdempotent(s: Registry, request: Request, ended: bool)
    requires Inv(s) && Retained(s.entries, request.launch) && Bound(s, request.launch) == Some(request)
    ensures var l := Launch(s, request, ended);
            && l.outcome == Success(false)
            && l.registry.entries == s.entries && l.registry.byInvestigation == s.byInvestigation
  {
    var _ := BoundIsRetained(s, request.launch);
  }

  // ---------- The registry as the operator holds it ----------

  class RegistryIndexes {
    var entries: seq<Entry>
    var byInvestigation: map<nat, nat>
    var runs: seq<RunState>
    const durable: bool

    ghost function View(store: Option<map<nat, Request>>): Registry
      reads this
    {
      Registry(entries, byInvestigation, runs, store)
    }

    constructor (durable: bool)
      ensures entries == [] && byInvestigation == map[] && runs == [] && this.durable == durable
    {
      entries, byInvestigation, runs := [], map[], [];
      this.durable := durable;
    }

    method EvictOldestTerminal(ghost store: Option<map<nat, Request>>) returns (evicted: bool)
      requires durable == store.Some? && Inv(View(store))
      modifies this
      ensures evicted == Evict(old(View(store))).Some?
      ensures View(store) == if evicted then Evict(old(View(store))).value else old(View(store))
      ensures Inv(View(store))
    {
      if !durable {
        return false;
      }
      var i := 0;
      while i < |entries|
        invariant 0 <= i <= |entries|
        invariant entries == old(entries) && byInvestigation == old(byInvestigation) && runs == old(runs)
        invariant forall j :: 0 <= j < i ==> !runs[entries[j].run].Evictable()
      {
        var state := runs[entries[i].run];
        if state.Evictable() {
          WithoutKeepsInv(View(store), i);
          entries := entries[..i] + entries[i + 1..];
          byInvestigation := byInvestigation - {state.request.investigation};
          return true;
        }
        i := i + 1;
      }
      return false;
    }

    method EnsureCapacity(ghost store: Option<map<nat, Request>>) returns (fits: bool)
      requires durable == store.Some? && Inv(View(store))
      modifies this
      ensures (View(store), fits) == MakeRoom(old(View(store)))
      ensures Inv(View(store))
    {
      ghost var start := View(store);
      while |entries| >= MAX_RETAINED_SCENARIO_RUNS
        invariant Inv(View(store))
        invariant if |entries| < MAX_RETAINED_SCENARIO_RUNS then MakeRoom(start) == (View(store), true)
                  else View(store) == start
        decreases |entries|
      {
        var evicted := EvictOldestTerminal(store);
        if !evicted {
          return false;
        }
        EvictionMakesRoom(start);
      }
      return true;
    }
  }
}
