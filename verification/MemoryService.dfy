/** The in-memory investigation service: one record and one journal per investigation, every
    critical section under the investigation's lock, and a caller that may be cancelled at any
    await, which cuts its section short after any of its effects. */
module MemoryService {
  import opened Wrappers
  import J = Journal

  datatype Limits = Limits(probes: nat, elapsedMs: nat, resultBytes: nat, costUnits: nat)

  /** `report` is the terminal report of revision 2, `activeAt` the time of revision 1. */
  datatype Record = Record(revision: nat, createdAt: int, activeAt: int, report: Option<J.Report>)

  /** Everything kept about one investigation; `owned` is whether a task was ever started for it. */
  datatype State = State(limits: Limits, record: Option<Record>, registered: bool, journal: seq<J.Event>, owned: bool)

  datatype Outcome = Done | Cut | Raised

  /** A section's effects so far: the state, how many more it gets to make, and how it stands. */
  datatype Section = Section(state: State, fuel: nat, outcome: Outcome)

  // ---------- Cumulative counters ----------

  /** The service's check on one counter along the probe audits. */
  predicate Cumulative(values: seq<nat>, limit: nat) {
    && (forall i :: 0 < i < |values| ==> values[i - 1] <= values[i])
    && (forall i :: 0 <= i < |values| ==> values[i] <= limit)
  }

  /** The durable service's check of the same counter looks only at its last value. */
  predicate CumulativeByLast(values: seq<nat>, limit: nat) {
    && (forall i :: 0 < i < |values| ==> values[i - 1] <= values[i])
    && (values != [] ==> values[|values| - 1] <= limit)
  }

  lemma {:induction false} CumulativeChecksAgree(values: seq<nat>, limit: nat)
    ensures Cumulative(values, limit) <==> CumulativeByLast(values, limit)
    decreases |values|
  {
    if |values| > 1 {
      var before := values[..|values| - 1];
      assert values[|values| - 2] == before[|before| - 1];
      CumulativeChecksAgree(before, limit);
      if CumulativeByLast(values, limit) {
        assert forall i :: 0 <= i < |before| ==> values[i] == before[i];
      }
    }
  }

  method CountersWithin(values: seq<nat>, limit: nat) returns (within: bool)
    ensures within <==> Cumulative(values, limit)
  {
    var i := 0;
    while i < |values|
      invariant 0 <= i <= |values|
      invariant Cumulative(values[..i], limit)
    {
      if limit < values[i] || (i > 0 && values[i] < values[i - 1]) {
        return false;
      }
      assert values[..i + 1] == values[..i] + [values[i]];
      i := i + 1;
    }
    assert values[..i] == values;
    return true;
  }

  predicate WithinLimits(probes: seq<J.ProbeAudit>, limits: Limits) {
    && |probes| <= limits.probes
    && Cumulative(seq(|probes|, i requires 0 <= i < |probes| => probes[i].probeCountUsed), limits.probes)
    && Cumulative(seq(|probes|, i requires 0 <= i < |probes| => probes[i].elapsedMs), limits.elapsedMs)
    && Cumulative(seq(|probes|, i requires 0 <= i < |probes| => probes[i].resultBytes), limits.resultBytes)
    && Cumulative(seq(|probes|, i requires 0 <= i < |probes| => probes[i].costUnitsUsed), limits.costUnits)
  }

  /** What the executor hands over: nothing (the engine's report on no evidence takes its place)
      or a candidate, which may belong to another investigation. */
  datatype Candidate = NoCandidate(gates: seq<bool>) | Offered(report: J.Report, matches: bool)

  /** The report that is stored, stamped with the service's own time, or `None` if refused. */
  function Terminal(candidate: Candidate, limits: Limits, at: int): Option<J.Report> {
    var report := match candidate
      case NoCandidate(gates) => J.Report([], [], J.Unknown, gates, at)
      case Offered(offered, _) => offered.(updatedAt := at);
    if report.WellFormed() && (candidate.Offered? ==> candidate.matches) && WithinLimits(report.probes, limits)
    then Some(report) else None
  }

  // ---------- Sections ----------

  function CreatedEvent(record: Record): J.Event {
    J.Event(1, record.createdAt, J.Lifecycle(J.Created))
  }

  function Raise(x: Section): Section {
    x.(outcome := Raised)
  }

  /** One effect, unless the caller was cancelled before it. */
  function Effect(x: Section, after: State): Section {
    if x.fuel == 0 then x.(outcome := Cut) else Section(after, x.fuel - 1, Done)
  }

  function AppendEffect(x: Section, event: J.Event): Section {
    match J.MemoryAppend(x.state.journal, event)
    case Success(journal) => Effect(x, x.state.(journal := journal))
    case Failure(_) => Raise(x)
  }

  predicate ValidPrefix(journal: seq<J.Event>) {
    && journal != [] && journal[0].payload == J.Lifecycle(J.Created)
    && (|journal| >= 2 ==> journal[1].payload == J.Lifecycle(J.Investigating))
  }

  function Register(x: Section, record: Record): Section {
    if x.state.registered then x
    else if record.revision != 0 then Raise(x)
    else Effect(x, x.state.(registered := true))
  }

  function AppendCreated(x: Section, record: Record): Section {
    if !x.outcome.Done? || x.state.journal != [] then x
    else if record.revision != 0 then Raise(x)
    else AppendEffect(x, CreatedEvent(record))
  }

  function EnsureCreated(x: Section, record: Record): Section {
    var y := AppendCreated(Register(x, record), record);
    if !y.outcome.Done? then y
    else if !ValidPrefix(y.state.journal) || y.state.journal[0] != CreatedEvent(record)
            || (record.revision == 0 && |y.state.journal| != 1)
    then Raise(y)
    else y
  }

  /** Revision 0 to 1, then the INVESTIGATING event if it is missing. */
  function Activate(x: Section, now: int): Section
    requires x.state.record.Some?
  {
    var record := x.state.record.value;
    if record.revision == 0 then
      Effect(x, x.state.(record := Some(record.(revision := 1, activeAt := Max(now, record.createdAt)))))
    else if record.revision in {1, 2} then x
    else Raise(x)
  }

  function AppendInvestigating(x: Section): Section
    requires x.state.record.Some?
  {
    var record := x.state.record.value;
    if !x.outcome.Done? then x
    else if !ValidPrefix(x.state.journal) then Raise(x)
    else if |x.state.journal| == 1 then
      AppendEffect(x, J.Event(2, if record.revision == 1 then record.activeAt else record.createdAt,
                              J.Lifecycle(J.Investigating)))
    else x
  }

  function EnsureInvestigating(x: Section, now: int): (y: Section)
    requires x.state.record.Some?
    ensures y.state.record.Some?
  {
    AppendInvestigating(Activate(x, now))
  }

  function Establish(x: Section, candidate: Candidate, now: int): Section
    requires x.state.record.Some?
  {
    var record := x.state.record.value;
    if !x.outcome.Done? || record.revision == 2 then x
    else if record.revision != 1 then Raise(x)
    else match Terminal(candidate, x.state.limits, Max(now, record.createdAt))
      case None => Raise(x)
      case Some(report) => Effect(x, x.state.(record := Some(record.(revision := 2, report := Some(report)))))
  }

  predicate JournalAgrees(journal: seq<J.Event>, report: J.Report) {
    && ValidPrefix(journal) && 2 <= |journal|
    && |journal| - 2 <= |report.Payloads()|
    && forall i :: 0 <= i < |journal| - 2 ==> journal[2 + i] == J.Event(3 + i, report.updatedAt, report.Payloads()[i])
  }

  /** The missing terminal events, one append at a time. */
  function AppendMissing(x: Section, report: J.Report): Section
    requires 2 <= |x.state.journal|
    decreases |report.Payloads()| + 2 - |x.state.journal|
  {
    var next := |x.state.journal| - 2;
    if |report.Payloads()| <= next || !x.outcome.Done? then x
    else
      var y := AppendEffect(x, J.Event(next + 3, report.updatedAt, report.Payloads()[next]));
      if |y.state.journal| == |x.state.journal| + 1 then AppendMissing(y, report) else y
  }

  function Project(x: Section): Section {
    if !x.outcome.Done? then x
    else if x.state.record.None? || x.state.record.value.revision != 2 || x.state.record.value.report.None? then
      Raise(x)
    else
      var report := x.state.record.value.report.value;
      if !JournalAgrees(x.state.journal, report) then Raise(x) else AppendMissing(x, report)
  }

  /** `create`, under both locks; a record that exists is kept. */
  function CreateSection(s: State, now: int, fuel: nat): Section {
    var stored := if s.record.None? then
                    Effect(Section(s, fuel, Done), s.(record := Some(Record(0, now, now, None))))
                  else Section(s, fuel, Done);
    if !stored.outcome.Done? || stored.state.record.None? then stored
    else
      var created := EnsureCreated(stored, stored.state.record.value);
      if created.outcome.Done? && stored.state.record.value.revision == 2 then Project(created) else created
  }

  /** The whole of `create`: the section, then the task of an investigation that is not over. */
  function Created(s: State, now: int, fuel: nat): State {
    var x := CreateSection(s, now, fuel);
    if x.outcome.Done? && x.state.record.Some? && x.state.record.value.revision < 2 then x.state.(owned := true)
    else x.state
  }

  function MarkSection(s: State, now: int, fuel: nat): Section {
    if s.record.None? then Section(s, fuel, Raised) else EnsureInvestigating(Section(s, fuel, Done), now)
  }

  function FinishSection(s: State, candidate: Candidate, now: int, fuel: nat): Section {
    if s.record.None? then Section(s, fuel, Raised)
    else Project(Establish(EnsureInvestigating(Section(s, fuel, Done), now), candidate, now))
  }

  function GetSection(s: State, fuel: nat): Section {
    if s.record.None? then Section(s, fuel, Raised)
    else if s.record.value.revision == 2 then Project(Section(s, fuel, Done))
    else if !s.registered || !ValidPrefix(s.journal) then Section(s, fuel, Raised)
    else Section(s, fuel, Done)
  }

  /** A second cancellation of a creation reaches the task that writes the first event; either of
      its effects may still land. */
  function LateCreated(s: State, createdAt: int): State {
    if s.record.None? || s.record.value.createdAt != createdAt then s
    else if !s.registered then s.(registered := true)
    else match J.MemoryAppend(s.journal, J.Event(1, createdAt, J.Lifecycle(J.Created)))
      case Success(journal) => s.(journal := journal)
      case Failure(_) => s
  }

  datatype Action =
    | Create(now: int, fuel: nat)
    | Mark(now: int, fuel: nat)
    | Finish(candidate: Candidate, now: int, fuel: nat)
    | Get(fuel: nat)
    | Late(createdAt: int)

  function Next(s: State, action: Action): State {
    match action
    case Create(now, fuel) => Created(s, now, fuel)
    case Mark(now, fuel) => if s.owned then MarkSection(s, now, fuel).state else s
    case Finish(candidate, now, fuel) => if s.owned then FinishSection(s, candidate, now, fuel).state else s
    case Get(fuel) => GetSection(s, fuel).state
    case Late(createdAt) => LateCreated(s, createdAt)
  }

  function Run(s: State, actions: seq<Action>): State
    decreases actions
  {
    if actions == [] then s else Run(Next(s, actions[0]), actions[1..])
  }

  // ---------- What every reachable state satisfies ----------

  function Canon(record: Record): seq<J.Event> {
    if record.report.Some? then J.Canonical(record.createdAt, record.activeAt, record.report.value)
    else J.LifecyclePrefix(record.createdAt, record.activeAt)
  }

  ghost predicate Inv(s: State) {
    match s.record
    case None => !s.registered && s.journal == [] && !s.owned
    case Some(record) =>
      && (s.owned ==> s.journal != [])
      && record.revision <= 2
      && (record.report.Some? <==> record.revision == 2)
      && (record.revision == 2 ==>
            record.report.value.WellFormed() && WithinLimits(record.report.value.probes, s.limits))
      && s.journal <= Canon(record)
      && (!s.registered ==> s.journal == [])
      && (record.revision == 0 ==> |s.journal| <= 1)
      && (record.revision == 1 ==> 1 <= |s.journal| <= 2)
      && (record.revision == 2 ==> 2 <= |s.journal|)
  }

  /** The journal carries the whole report. */
  ghost predicate Complete(s: State) {
    s.record.Some? && s.record.value.revision == 2 && s.record.value.report.Some? && s.journal == Canon(s.record.value)
  }

  /** What a section never takes back. */
  ghost predicate Extends(s: State, t: State) {
    && t.limits == s.limits && s.journal <= t.journal
    && (s.registered ==> t.registered) && (s.owned ==> t.owned)
    && (s.record.Some? ==>
          && t.record.Some? && t.record.value.createdAt == s.record.value.createdAt
          && s.record.value.revision <= t.record.value.revision
          && (s.record.value.revision >= 1 ==> t.record.value.activeAt == s.record.value.activeAt)
          && (s.record.value.revision == 2 ==> t.record == s.record))
  }

  // ---------- Every section keeps the invariant ----------

  lemma EnsureCreatedKeepsInv(x: Section, record: Record)
    requires Inv(x.state) && x.state.record == Some(record) && x.outcome.Done?
    ensures var y := EnsureCreated(x, record);
            && Inv(y.state) && Extends(x.state, y.state) && y.state.record == x.state.record
            && !y.outcome.Raised? && (y.outcome.Done? ==> y.state.journal != [])
            && (2 <= x.fuel ==> y.outcome.Done? && x.fuel - 2 <= y.fuel)
  {
  }

  lemma EnsureInvestigatingKeepsInv(x: Section, now: int)
    requires Inv(x.state) && x.state.record.Some? && x.state.journal != [] && x.outcome.Done?
    ensures var y := EnsureInvestigating(x, now);
            && Inv(y.state) && Extends(x.state, y.state)
            && !y.outcome.Raised?
            && (if y.outcome.Done? then 1 <= y.state.record.value.revision && 2 <= |y.state.journal|
                else y.state.record.value.revision < 2)
            && (2 <= x.fuel ==> y.outcome.Done? && x.fuel - 2 <= y.fuel)
  {
    var y := Activate(x, now);
    assert Inv(y.state) && Extends(x.state, y.state);
    if y.outcome.Done? && |y.state.journal| == 1 {
      var record := y.state.record.value;
      var event := J.Event(2, record.activeAt, J.Lifecycle(J.Investigating));
      assert y.state.journal + [event] == J.LifecyclePrefix(record.createdAt, record.activeAt);
    }
  }

  lemma EstablishKeepsInv(x: Section, candidate: Candidate, now: int)
    requires Inv(x.state) && x.state.record.Some?
    requires x.outcome.Done? ==> 1 <= x.state.record.value.revision && 2 <= |x.state.journal|
    ensures var y := Establish(x, candidate, now);
            && Inv(y.state) && Extends(x.state, y.state) && y.state.record.Some?
            && (x.outcome.Done? ==> (y.outcome.Done? <==> y.state.record.value.revision == 2))
            && (!x.outcome.Done? ==> y == x)
            && (y.outcome.Raised? ==> x.outcome.Raised? || !Acceptable(x.state, candidate, now))
            && (x.outcome.Done? && 1 <= x.fuel
                && (x.state.record.value.revision == 2 || Acceptable(x.state, candidate, now)) ==>
                  y.outcome.Done? && x.fuel - 1 <= y.fuel)
  {
    if x.outcome.Done? && x.state.record.value.revision == 1 && Acceptable(x.state, candidate, now) {
      var record := x.state.record.value;
      var report := Terminal(candidate, x.state.limits, Max(now, record.createdAt)).value;
      var c := J.Canonical(record.createdAt, record.activeAt, report);
      assert J.LifecyclePrefix(record.createdAt, record.activeAt) <= c;
    }
  }

  predicate Acceptable(s: State, candidate: Candidate, now: int) {
    s.record.Some? && Terminal(candidate, s.limits, Max(now, s.record.value.createdAt)).Some?
  }

  /** Appending the next canonical event, if the caller is still there. */
  lemma AppendOneKeepsInv(x: Section, record: Record) returns (y: Section)
    requires Inv(x.state) && x.outcome.Done? && x.state.record == Some(record) && record.revision == 2
    requires |x.state.journal| < |Canon(record)| && x.fuel > 0
    ensures Inv(y.state) && Extends(x.state, y.state) && y.outcome.Done? && y.fuel == x.fuel - 1
    ensures y.state.record == Some(record) && |y.state.journal| == |x.state.journal| + 1
    ensures AppendMissing(x, record.report.value) == AppendMissing(y, record.report.value)
  {
    var report := record.report.value;
    var event := J.Event(|x.state.journal| + 1, report.updatedAt, report.Payloads()[|x.state.journal| - 2]);
    var c := Canon(record);
    J.CanonicalStep(record.createdAt, record.activeAt, report, |x.state.journal|);
    assert x.state.journal == c[..|x.state.journal|] && event == c[|x.state.journal|];
    y := Section(x.state.(journal := c[..|x.state.journal| + 1]), x.fuel - 1, Done);
    assert AppendEffect(x, event) == y;
    hide J.MemoryAppend, J.Canonical, AppendEffect;
  }

  lemma NothingAppendedWithoutFuel(x: Section, record: Record)
    requires Inv(x.state) && x.outcome.Done? && x.state.record == Some(record) && record.revision == 2
    requires |x.state.journal| < |Canon(record)| && x.fuel == 0
    ensures AppendMissing(x, record.report.value) == x.(outcome := Cut) && !Complete(x.state)
  {
    var c := Canon(record);
    J.CanonicalStep(record.createdAt, record.activeAt, record.report.value, |x.state.journal|);
    assert x.state.journal == c[..|x.state.journal|];
  }

  lemma {:induction false} AppendMissingKeepsInv(x: Section, record: Record)
    requires Inv(x.state) && x.outcome.Done? && x.state.record == Some(record) && record.revision == 2
    ensures var y := AppendMissing(x, record.report.value);
            && Inv(y.state) && Extends(x.state, y.state) && !y.outcome.Raised?
            && (y.outcome.Done? <==> Complete(y.state))
            && (|Canon(record)| <= |x.state.journal| + x.fuel ==> y.outcome.Done?)
    decreases |Canon(record)| - |x.state.journal|
  {
    if |x.state.journal| < |Canon(record)| {
      if x.fuel > 0 {
        hide Inv, Complete, Canon, AppendMissing;
        var y := AppendOneKeepsInv(x, record);
        AppendMissingKeepsInv(y, record);
      } else {
        NothingAppendedWithoutFuel(x, record);
      }
    }
  }

  lemma ProjectKeepsInv(x: Section)
    requires Inv(x.state)
    requires x.outcome.Done? ==> x.state.record.Some? && x.state.record.value.revision == 2
    ensures var y := Project(x);
            && Inv(y.state) && Extends(x.state, y.state)
            && (y.outcome.Raised? ==> x.outcome.Raised?)
            && (if x.outcome.Done? then y.outcome.Done? <==> Complete(y.state) else y == x)
            && (x.outcome.Done? && J.MAX_EVENTS <= x.fuel ==> y.outcome.Done?)
  {
    if x.outcome.Done? {
      JournalOnCanonAgrees(x.state, x.state.record.value);
      AppendMissingKeepsInv(x, x.state.record.value);
    }
    hide Inv, Complete, JournalAgrees, AppendMissing, Canon;
  }

  lemma JournalOnCanonAgrees(state: State, record: Record)
    requires Inv(state) && state.record == Some(record) && record.revision == 2
    ensures record.report.Some? && JournalAgrees(state.journal, record.report.value)
    ensures |Canon(record)| <= J.MAX_EVENTS
  {
    assert state.journal == Canon(record)[..|state.journal|];
  }

  lemma CreateKeepsInv(s: State, now: int, fuel: nat)
    requires Inv(s)
    ensures var x := CreateSection(s, now, fuel);
            && Inv(x.state) && Extends(s, x.state) && !x.outcome.Raised?
            && (x.outcome.Done? ==> x.state.record.Some? && x.state.journal != [])
            && (x.outcome.Done? && x.state.record.value.revision == 2 ==> Complete(x.state))
  {
    var stored := if s.record.None? then
                    Effect(Section(s, fuel, Done), s.(record := Some(Record(0, now, now, None))))
                  else Section(s, fuel, Done);
    if stored.outcome.Done? {
      var record := stored.state.record.value;
      EnsureCreatedKeepsInv(stored, record);
      var created := EnsureCreated(stored, record);
      if created.outcome.Done? && record.revision == 2 {
        ProjectKeepsInv(created);
      }
    }
  }

  lemma FinishKeepsInv(s: State, candidate: Candidate, now: int, fuel: nat)
    requires Inv(s) && s.owned
    ensures var x := FinishSection(s, candidate, now, fuel);
            && Inv(x.state) && Extends(s, x.state)
            && (x.outcome.Done? <==> Complete(x.state))
            && (x.outcome.Raised? ==> !Acceptable(s, candidate, now))
            && (J.MAX_EVENTS + 3 <= fuel && (s.record.value.revision == 2 || Acceptable(s, candidate, now)) ==>
                  x.outcome.Done?)
  {
    var x := Section(s, fuel, Done);
    EnsureInvestigatingKeepsInv(x, now);
    var y := EnsureInvestigating(x, now);
    EstablishKeepsInv(y, candidate, now);
    ProjectKeepsInv(Establish(y, candidate, now));
  }

  lemma GetKeepsInv(s: State, fuel: nat)
    requires Inv(s)
    ensures var x := GetSection(s, fuel);
            && Inv(x.state) && Extends(s, x.state)
            && (s.record.Some? && s.record.value.revision == 2 ==> (x.outcome.Done? <==> Complete(x.state)))
            && (s.record.Some? && s.record.value.revision < 2 ==> x.state == s)
  {
    if s.record.Some? && s.record.value.revision == 2 {
      ProjectKeepsInv(Section(s, fuel, Done));
    }
  }

  lemma NextKeepsInv(s: State, action: Action)
    requires Inv(s)
    ensures Inv(Next(s, action)) && Extends(s, Next(s, action))
  {
    hide CreateSection, FinishSection, GetSection, EnsureInvestigating, Complete;
    match action
    case Create(now, fuel) => CreateKeepsInv(s, now, fuel);
    case Mark(now, fuel) => if s.owned { EnsureInvestigatingKeepsInv(Section(s, fuel, Done), now); }
    case Finish(candidate, now, fuel) => if s.owned { FinishKeepsInv(s, candidate, now, fuel); }
    case Get(fuel) => GetKeepsInv(s, fuel);
    case Late(createdAt) =>
  }

  lemma {:induction false} ReachableInv(s: State, actions: seq<Action>)
    requires Inv(s)
    ensures Inv(Run(s, actions)) && Extends(s, Run(s, actions))
    decreases actions
  {
    if actions != [] {
      NextKeepsInv(s, actions[0]);
      ReachableInv(Next(s, actions[0]), actions[1..]);
    }
  }

  // ---------- Cancellation at any await ----------

  function Fresh(limits: Limits): State {
    State(limits, None, false, [], false)
  }

  /** However sections are cut, the journal is a prefix of the canonical one, at most one event
      before revision 1 and at most two before revision 2, and nothing that was stored is taken
      back: revisions only advance 0, 1, 2 and an established report stays. */
  lemma CutSectionsStayOnTheCanon(limits: Limits, before: seq<Action>, after: seq<Action>)
    ensures var s := Run(Fresh(limits), before);
            var t := Run(s, after);
            && Inv(s) && Extends(s, t)
            && (s.record.Some? ==> s.journal <= Canon(s.record.value))
            && (s.record.Some? && s.record.value.revision < 2 ==> |s.journal| <= s.record.value.revision + 1)
  {
    ReachableInv(Fresh(limits), before);
    ReachableInv(Run(Fresh(limits), before), after);
  }

  /** No caller is ever handed a completed report before its journal is complete. */
  lemma CompletedReportsAreComplete(limits: Limits, actions: seq<Action>, now: int, fuel: nat)
    ensures var s := Run(Fresh(limits), actions);
            var got, created := GetSection(s, fuel), CreateSection(s, now, fuel);
            && (got.outcome.Done? && s.record.value.revision == 2 ==> Complete(got.state))
            && (created.outcome.Done? && created.state.record.value.revision == 2 ==> Complete(created.state))
  {
    ReachableInv(Fresh(limits), actions);
    var s := Run(Fresh(limits), actions);
    GetKeepsInv(s, fuel);
    CreateKeepsInv(s, now, fuel);
  }

  /** An owned investigation is completed by one uninterrupted finish without a candidate, from
      wherever its earlier sections were cut. */
  lemma FinishCompletes(limits: Limits, actions: seq<Action>, gates: seq<bool>, now: int, fuel: nat)
    requires Run(Fresh(limits), actions).owned
    requires |gates| == J.REQUESTED_ACTIONS && J.MAX_EVENTS + 3 <= fuel
    ensures var x := FinishSection(Run(Fresh(limits), actions), NoCandidate(gates), now, fuel);
            x.outcome.Done? && Complete(x.state)
  {
    ReachableInv(Fresh(limits), actions);
    FinishKeepsInv(Run(Fresh(limits), actions), NoCandidate(gates), now, fuel);
  }
}
