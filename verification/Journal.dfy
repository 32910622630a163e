/** The append-only event journal of one investigation and the canonical journal that a
    completed report projects to. */
module Journal {
  import opened Wrappers

  const MAX_EVENTS: nat := 137
  const MAX_REPORT_ENTRIES: nat := 64
  const REQUESTED_ACTIONS: nat := 5

  datatype Status = Created | Investigating | Completed

  datatype Classification = Committed | NotCommitted | Partial | Pending | Unknown

  datatype ProbeAudit = ProbeAudit(
    sequence: nat, digest: nat, probeCountUsed: nat, costUnitsUsed: nat, resultBytes: nat, elapsedMs: nat)

  datatype Payload =
    | Lifecycle(status: Status)
    | Probe(audit: ProbeAudit)
    | Decision(evidenceId: nat)
    | Classified(classification: Classification)
    | Gate(allowed: bool)

  datatype Event = Event(sequence: nat, occurredAt: int, payload: Payload) {
    predicate Terminal() { payload == Lifecycle(Completed) }
  }

  /** A completed report, reduced to what its events carry. */
  datatype Report = Report(
    probes: seq<ProbeAudit>, decisions: seq<nat>, classification: Classification, gates: seq<bool>, updatedAt: int)
  {
    /** Bounds the report contract enforces on every completed report. */
    predicate WellFormed() {
      && |probes| <= MAX_REPORT_ENTRIES
      && |decisions| <= MAX_REPORT_ENTRIES
      && |gates| == REQUESTED_ACTIONS
    }

    function Payloads(): seq<Payload> {
      seq(|probes|, i requires 0 <= i < |probes| => Probe(probes[i]))
      + seq(|decisions|, i requires 0 <= i < |decisions| => Decision(decisions[i]))
      + [Classified(classification)]
      + seq(|gates|, i requires 0 <= i < |gates| => Gate(gates[i]))
      + [Lifecycle(Completed)]
    }
  }

  /** The events a report adds to a journal of `from` events, skipping the first `skip`. */
  function ReportEvents(report: Report, from: nat, skip: nat): seq<Event>
    requires skip <= |report.Payloads()|
  {
    var p := report.Payloads();
    seq(|p| - skip, i requires 0 <= i < |p| - skip => Event(from + 1 + i, report.updatedAt, p[skip + i]))
  }

  function LifecyclePrefix(createdAt: int, activeAt: int): seq<Event> {
    [Event(1, createdAt, Lifecycle(Created)), Event(2, activeAt, Lifecycle(Investigating))]
  }

  /** The one journal an uninterrupted investigation ends with. */
  function Canonical(createdAt: int, activeAt: int, report: Report): seq<Event> {
    LifecyclePrefix(createdAt, activeAt) + ReportEvents(report, 2, 0)
  }

  predicate Terminated(journal: seq<Event>) {
    journal != [] && journal[|journal| - 1].Terminal()
  }

  // ---------- Appending ----------

  datatype AppendError = DuplicateEvent | OutOfOrderEvent | TerminalJournal | CapacityExceeded

  /** The stored journal accepts an exact replay of an event it already holds. */
  function DurableAppend(journal: seq<Event>, event: Event): Result<seq<Event>, AppendError> {
    if 1 <= event.sequence <= |journal| then
      if journal[event.sequence - 1] == event then Success(journal) else Failure(DuplicateEvent)
    else if event.sequence != |journal| + 1 then Failure(OutOfOrderEvent)
    else if MAX_EVENTS <= |journal| then Failure(CapacityExceeded)
    else if Terminated(journal) then Failure(TerminalJournal)
    else Success(journal + [event])
  }

  /** The in-memory journal refuses any sequence but the next one. */
  function MemoryAppend(journal: seq<Event>, event: Event): Result<seq<Event>, AppendError> {
    if MAX_EVENTS <= |journal| then Failure(CapacityExceeded)
    else if event.sequence < |journal| + 1 then Failure(DuplicateEvent)
    else if event.sequence > |journal| + 1 then Failure(OutOfOrderEvent)
    else if Terminated(journal) then Failure(TerminalJournal)
    else Success(journal + [event])
  }

  /** A canonical journal numbers its events 1..n within capacity, and only its last event is
      terminal. */
  lemma CanonicalShape(createdAt: int, activeAt: int, report: Report)
    ensures var c := Canonical(createdAt, activeAt, report);
            && |c| == 4 + |report.probes| + |report.decisions| + |report.gates|
            && (report.WellFormed() ==> |c| <= MAX_EVENTS)
            && Terminated(c)
            && (forall i :: 0 <= i < |c| ==> c[i].sequence == i + 1)
            && (forall i :: 0 <= i < |c| - 1 ==> !c[i].Terminal())
  {
  }

  /** From a strict prefix of a canonical journal, the next canonical event is accepted by
      either journal, and it is the only new event the two accept in common with the canon. */
  lemma CanonicalStep(createdAt: int, activeAt: int, report: Report, k: nat)
    requires report.WellFormed()
    requires k < |Canonical(createdAt, activeAt, report)|
    ensures var c := Canonical(createdAt, activeAt, report);
            && DurableAppend(c[..k], c[k]) == Success(c[..k + 1])
            && MemoryAppend(c[..k], c[k]) == Success(c[..k + 1])
  {
    var c := Canonical(createdAt, activeAt, report);
    CanonicalShape(createdAt, activeAt, report);
    assert c[..k + 1] == c[..k] + [c[k]];
  }

  // ---------- Terminal projection ----------

  predicate ValidLifecyclePrefix(journal: seq<Event>) {
    && journal != []
    && journal[0].sequence == 1 && journal[0].payload == Lifecycle(Created)
    && (|journal| >= 2 ==>
          && journal[1].sequence == 2 && journal[1].payload == Lifecycle(Investigating)
          && journal[0].occurredAt <= journal[1].occurredAt)
  }

  /** How many report events a journal already carries. */
  function Accepted(journal: seq<Event>): nat {
    if |journal| <= 2 then 0 else |journal| - 2
  }

  /** The journal agrees with the report as far as it goes. */
  predicate Agrees(journal: seq<Event>, report: Report) {
    && ValidLifecyclePrefix(journal)
    && Accepted(journal) <= |report.Payloads()|
    && forall i :: 0 <= i < Accepted(journal) ==>
         journal[2 + i] == Event(3 + i, report.updatedAt, report.Payloads()[i])
  }

  datatype Projection = Projected | Interrupted | Drifted

  /** A journal that agrees with a report has not ended before the report's last event. */
  lemma AgreeingIsOpen(journal: seq<Event>, report: Report)
    requires Agrees(journal, report)
    ensures Terminated(journal) ==> Accepted(journal) == |report.Payloads()|
  {
    LastPayloadOnly(report);
    if |journal| > 2 {
      var last := Accepted(journal) - 1;
      assert journal[2 + last] == Event(3 + last, report.updatedAt, report.Payloads()[last]);
    }
  }

  /** The next event of a report is accepted, and only its last one ends the journal. */
  lemma AppendsNext(journal: seq<Event>, report: Report, offset: nat)
    requires report.WellFormed() && offset < |report.Payloads()| && !Terminated(journal)
    requires |journal| <= offset + 2
    ensures var event := Event(|journal| + 1, report.updatedAt, report.Payloads()[offset]);
            && DurableAppend(journal, event) == Success(journal + [event])
            && (Terminated(journal + [event]) ==> offset + 1 == |report.Payloads()|)
  {
    LastPayloadOnly(report);
  }

  class StoredJournal {
    var events: seq<Event>

    constructor ()
      ensures events == []
    {
      events := [];
    }

    method Append(event: Event) returns (error: Option<AppendError>)
      modifies this
      ensures match DurableAppend(old(events), event)
              case Success(after) => error == None && events == after
              case Failure(e) => error == Some(e) && events == old(events)
    {
      match DurableAppend(events, event) {
        case Success(after) =>
          events := after;
          error := None;
        case Failure(e) =>
          error := Some(e);
      }
    }

    /** Whether the whole journal agrees with a report, event by event. */
    method Compare(report: Report) returns (agrees: bool)
      ensures agrees <==> Agrees(events, report)
    {
      var expected := report.Payloads();
      if !ValidLifecyclePrefix(events) || Accepted(events) > |expected| {
        return false;
      }
      var offset := 0;
      while offset < Accepted(events)
        invariant 0 <= offset <= Accepted(events)
        invariant forall i :: 0 <= i < offset ==>
                    events[2 + i] == Event(3 + i, report.updatedAt, expected[i])
      {
        if events[2 + offset] != Event(3 + offset, report.updatedAt, expected[offset]) {
          return false;
        }
        offset := offset + 1;
      }
      return true;
    }

    /** Project a report under a lease that survives `writes` more appends. A journal that
        disagrees with the report is left alone; otherwise exactly the missing events are
        appended, in order, until the lease is lost. */
    method ProjectTerminal(report: Report, writes: nat) returns (outcome: Projection)
      requires report.WellFormed()
      modifies this
      ensures outcome == Drifted <==> !Agrees(old(events), report)
      ensures outcome == Drifted ==> events == old(events)
      ensures outcome != Drifted ==>
                var missing := ReportEvents(report, |old(events)|, Accepted(old(events)));
                && (outcome == Projected <==> |missing| <= writes)
                && events == old(events) + missing[..Min(writes, |missing|)]
    {
      var agrees := Compare(report);
      if !agrees {
        return Drifted;
      }
      var expected := report.Payloads();
      var offset := Accepted(events);
      AgreeingIsOpen(events, report);
      hide Agrees, ValidLifecyclePrefix, DurableAppend, Terminated, Report.WellFormed, Report.Payloads;
      ghost var before := events;
      ghost var skip := Accepted(events);
      ghost var missing := ReportEvents(report, |before|, skip);
      var written := 0;
      while offset < |expected|
        invariant skip <= offset <= |expected|
        invariant written == offset - skip && written <= writes
        invariant events == before + missing[..written]
        invariant !Terminated(events) || offset == |expected|
      {
        if written == writes {
          return Interrupted;
        }
        var event := Event(|events| + 1, report.updatedAt, expected[offset]);
        assert event == missing[written];
        AppendsNext(events, report, offset);
        var error := Append(event);
        assert missing[..written + 1] == missing[..written] + [event];
        offset := offset + 1;
        written := written + 1;
      }
      return Projected;
    }
  }

  /** However often projection is interrupted and resumed, it only ever moves along the one
      canonical journal: an interrupted projection leaves a prefix from which the next one
      needs exactly the remaining events. */
  lemma ResumedProjection(createdAt: int, activeAt: int, report: Report, k: nat, writes: nat)
    requires 2 <= k <= |Canonical(createdAt, activeAt, report)| && createdAt <= activeAt
    ensures var c := Canonical(createdAt, activeAt, report);
            && Agrees(c[..k], report)
            && var missing := ReportEvents(report, k, Accepted(c[..k]));
               && |missing| == |c| - k
               && c[..k] + missing[..Min(writes, |missing|)] == c[..Min(k + writes, |c|)]
  {
    var c := Canonical(createdAt, activeAt, report);
    var missing := ReportEvents(report, k, Accepted(c[..k]));
    assert missing == c[k..];
    var n := Min(writes, |missing|);
    assert c[..k] + c[k..][..n] == c[..k + n];
  }

  lemma LastPayloadOnly(report: Report)
    ensures var p := report.Payloads();
            && p[|p| - 1] == Lifecycle(Completed)
            && forall i :: 0 <= i < |p| - 1 ==> !p[i].Lifecycle?
  {
  }

  /** A complete journal carries its whole report: no two reports project to the same events. */
  lemma JournalDeterminesReport(createdAt: int, activeAt: int, r: Report, s: Report)
    requires Canonical(createdAt, activeAt, r) == Canonical(createdAt, activeAt, s)
    ensures r == s
  {
    var c, d := Canonical(createdAt, activeAt, r), Canonical(createdAt, activeAt, s);
    CanonicalShape(createdAt, activeAt, r);
    CanonicalShape(createdAt, activeAt, s);
    assert c[2].occurredAt == r.updatedAt && d[2].occurredAt == s.updatedAt;
    var p, q := r.Payloads(), s.Payloads();
    assert |p| == |q|;
    forall i | 0 <= i < |p|
      ensures p[i] == q[i]
    {
      assert c[2 + i].payload == p[i] && d[2 + i].payload == q[i];
    }
    PayloadsDetermineReport(r, s);
  }

  lemma PayloadsDetermineReport(r: Report, s: Report)
    requires r.Payloads() == s.Payloads()
    ensures r.probes == s.probes && r.decisions == s.decisions
    ensures r.classification == s.classification && r.gates == s.gates
  {
    var p, q := r.Payloads(), s.Payloads();
    var a, b := |r.probes|, |s.probes|;
    assert !p[a].Probe? && !q[b].Probe?;
    assert a == b;
    var m, n := a + |r.decisions|, b + |s.decisions|;
    assert p[m] == Classified(r.classification) && q[n] == Classified(s.classification);
    assert m == n;
    SameElements(p, q, r, s);
  }

  lemma SameElements(p: seq<Payload>, q: seq<Payload>, r: Report, s: Report)
    requires p == r.Payloads() && q == s.Payloads() && p == q
    requires |r.probes| == |s.probes| && |r.decisions| == |s.decisions|
    ensures r.probes == s.probes && r.decisions == s.decisions && r.gates == s.gates
  {
    assert |r.gates| == |s.gates|;
    forall i | 0 <= i < |r.probes|
      ensures r.probes[i] == s.probes[i]
    {
      assert p[i] == Probe(r.probes[i]) && q[i] == Probe(s.probes[i]);
    }
    var a := |r.probes|;
    forall i | 0 <= i < |r.decisions|
      ensures r.decisions[i] == s.decisions[i]
    {
      assert p[a + i] == Decision(r.decisions[i]) && q[a + i] == Decision(s.decisions[i]);
    }
    var g := a + |r.decisions| + 1;
    forall i | 0 <= i < |r.gates|
      ensures r.gates[i] == s.gates[i]
    {
      assert p[g + i] == Gate(r.gates[i]) && q[g + i] == Gate(s.gates[i]);
    }
  }
}
