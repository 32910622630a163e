/** The elapsed-time floor of one execution context: a wall clock that may jump, joined to a
    monotonic clock through one base and one anchor. Wall times are microseconds, monotonic
    readings are real seconds, results are whole milliseconds truncated toward zero. */
module ElapsedMeter {
  import opened Wrappers

  /** `max(0, int(seconds * 1_000))`. */
  function MonotonicMs(seconds: real): nat {
    if seconds <= 0.0 then 0 else (seconds * 1000.0).Floor
  }

  /** The same for a wall-clock difference. */
  function WallMs(elapsed: int): nat {
    if elapsed <= 0 then 0 else elapsed / 1000
  }

  /** One call: the caller's time, the service clock, and the monotonic clock. */
  datatype Reading = Reading(now: int, clock: int, mono: real) {
    function Wall(createdAt: int): nat { WallMs(Max(now, clock) - createdAt) }
  }

  datatype Meter = Meter(createdAt: int, budget: nat, highWater: int, base: int, anchor: real) {
    function MonotonicElapsed(mono: real): int { base + MonotonicMs(mono - anchor) }

    /** The reading's result, and the meter after it. */
    function Step(r: Reading): (int, Meter) {
      var wall := r.Wall(createdAt);
      var measured := Max(highWater, Max(wall, MonotonicElapsed(r.mono)));
      var effective := Min(measured, budget);
      var rebased := if wall > MonotonicElapsed(r.mono) then this.(base := wall, anchor := r.mono) else this;
      (effective, rebased.(highWater := effective))
    }
  }

  function Started(createdAt: int, budget: nat, clock: int, mono: real): Meter {
    var initial := Min(WallMs(clock - createdAt), budget);
    Meter(createdAt, budget, initial, initial, mono)
  }

  class ElapsedClock {
    const createdAt: int
    const budget: nat
    var highWater: int
    var base: int
    var anchor: real

    ghost function State(): Meter
      reads this
    {
      Meter(createdAt, budget, highWater, base, anchor)
    }

    constructor (createdAt: int, budget: nat, clock: int, mono: real)
      ensures State() == Started(createdAt, budget, clock, mono)
    {
      this.createdAt := createdAt;
      this.budget := budget;
      var initial := Min(WallMs(clock - createdAt), budget);
      highWater := initial;
      base := initial;
      anchor := mono;
    }

    method EffectiveElapsedMs(r: Reading) returns (elapsed: int)
      modifies this
      ensures (elapsed, State()) == old(State()).Step(r)
    {
      var wall := r.Wall(createdAt);
      var monotonic := base + MonotonicMs(r.mono - anchor);
      var measured := Max(highWater, Max(wall, monotonic));
      if wall > monotonic {
        base := wall;
        anchor := r.mono;
      }
      highWater := Min(measured, budget);
      return highWater;
    }

    method RemainingElapsedMs(r: Reading) returns (remaining: nat)
      modifies this
      ensures State() == old(State()).Step(r).1
      ensures remaining == Max(0, budget - old(State()).Step(r).0)
    {
      var elapsed := EffectiveElapsedMs(r);
      remaining := Max(0, budget - elapsed);
    }
  }

  // ---------- Any sequence of readings ----------

  function Results(m: Meter, readings: seq<Reading>): (r: seq<int>)
    ensures |r| == |readings|
    decreases readings
  {
    if readings == [] then []
    else [m.Step(readings[0]).0] + Results(m.Step(readings[0]).1, readings[1..])
  }

  /** Values that start no lower than `floor`, never fall, and never pass `budget`. */
  ghost predicate Climbs(floor: int, values: seq<int>, budget: int) {
    && (forall v <- values :: floor <= v <= budget)
    && (forall i, j :: 0 <= i < j < |values| ==> values[i] <= values[j])
  }

  /** However either clock jumps, the elapsed time never decreases and never passes the budget
      (so it stays at the budget once there). */
  lemma {:induction false} NeverDecreases(m: Meter, readings: seq<Reading>)
    requires m.highWater <= m.budget
    ensures Climbs(m.highWater, Results(m, readings), m.budget)
    decreases readings
  {
    if readings != [] {
      var (first, after) := m.Step(readings[0]);
      NeverDecreases(after, readings[1..]);
      var rest := Results(after, readings[1..]);
      forall i, j | 0 <= i < j < |rest| + 1
        ensures ([first] + rest)[i] <= ([first] + rest)[j]
      {
        assert rest[j - 1] in rest;
      }
    }
  }

  // ---------- Against the meter that remembers every reading ----------

  datatype Sample = Sample(wall: nat, mono: real) {
    /** What this one sample says the elapsed time is when the monotonic clock reads `mono`. */
    function Extrapolated(mono: real): int { wall + MonotonicMs(mono - this.mono) }
  }

  /** The largest elapsed time any sample supports. */
  function Best(samples: seq<Sample>, mono: real): int
    requires samples != []
  {
    var last := samples[|samples| - 1].Extrapolated(mono);
    if |samples| == 1 then last else Max(Best(samples[..|samples| - 1], mono), last)
  }

  /** `Best` is what its name says: reached by one sample and not exceeded by any. */
  lemma {:induction false} BestIsGreatest(samples: seq<Sample>, mono: real)
    requires samples != []
    ensures forall s <- samples :: s.Extrapolated(mono) <= Best(samples, mono)
    ensures exists s <- samples :: s.Extrapolated(mono) == Best(samples, mono)
  {
    var last := samples[|samples| - 1];
    assert last in samples;
    if |samples| > 1 {
      var before := samples[..|samples| - 1];
      BestIsGreatest(before, mono);
      assert samples == before + [last];
      assert forall s <- before :: s in samples;
    }
  }

  /** Truncating twice loses less than one millisecond against truncating once. */
  lemma TruncationGap(anchor: real, between: real, mono: real)
    requires anchor <= between <= mono
    ensures MonotonicMs(mono - between) + MonotonicMs(between - anchor) <= MonotonicMs(mono - anchor)
    ensures MonotonicMs(mono - anchor) <= MonotonicMs(mono - between) + MonotonicMs(between - anchor) + 1
  {
    var x, y := (mono - between) * 1000.0, (between - anchor) * 1000.0;
    assert (mono - anchor) * 1000.0 == x + y;
  }

  /** From `last` on, the base and anchor say what all samples together say, up to the budget. */
  ghost predicate Tracks(m: Meter, samples: seq<Sample>, last: real)
    requires samples != []
  {
    && m.anchor <= last
    && m.highWater <= m.budget
    && m.highWater <= Best(samples, last)
    && forall mono :: last <= mono ==> SameUpToBudget(m, samples, mono)
  }

  predicate SameUpToBudget(m: Meter, samples: seq<Sample>, mono: real)
    requires samples != []
  {
    Min(m.budget, Best(samples, mono)) == Min(m.budget, m.MonotonicElapsed(mono))
  }

  lemma {:induction false} BestNeverDecreases(samples: seq<Sample>, mono: real, later: real)
    requires samples != [] && mono <= later
    ensures Best(samples, mono) <= Best(samples, later)
  {
    if |samples| > 1 {
      BestNeverDecreases(samples[..|samples| - 1], mono, later);
    }
  }

  lemma StepTracks(m: Meter, samples: seq<Sample>, last: real, r: Reading)
    requires samples != [] && Tracks(m, samples, last) && last <= r.mono
    ensures var all := samples + [Sample(r.Wall(m.createdAt), r.mono)];
            && m.Step(r).0 == Min(m.budget, Best(all, r.mono))
            && Tracks(m.Step(r).1, all, r.mono)
  {
    var sample := Sample(r.Wall(m.createdAt), r.mono);
    var all := samples + [sample];
    assert all[..|all| - 1] == samples;
    BestNeverDecreases(samples, last, r.mono);
    assert SameUpToBudget(m, samples, r.mono);
    var after := m.Step(r).1;
    forall mono | r.mono <= mono
      ensures SameUpToBudget(after, all, mono)
    {
      assert SameUpToBudget(m, samples, mono);
      TruncationGap(m.anchor, r.mono, mono);
    }
  }

  /** The samples taken by a run, the one taken at construction first. */
  function Samples(createdAt: int, clock: int, mono: real, readings: seq<Reading>): (s: seq<Sample>)
    ensures |s| == |readings| + 1
  {
    if readings == [] then [Sample(WallMs(clock - createdAt), mono)]
    else
      var last := readings[|readings| - 1];
      Samples(createdAt, clock, mono, readings[..|readings| - 1]) + [Sample(last.Wall(createdAt), last.mono)]
  }

  function After(m: Meter, readings: seq<Reading>): Meter {
    if readings == [] then m
    else After(m, readings[..|readings| - 1]).Step(readings[|readings| - 1]).1
  }

  ghost predicate Nondecreasing(mono: real, readings: seq<Reading>) {
    && (forall i :: 0 <= i < |readings| ==> mono <= readings[i].mono)
    && (forall i, j :: 0 <= i < j < |readings| ==> readings[i].mono <= readings[j].mono)
  }

  lemma {:induction false} RunTracks(
    createdAt: int, budget: nat, clock: int, mono: real, readings: seq<Reading>, next: Reading)
    requires Nondecreasing(mono, readings + [next])
    ensures var m := After(Started(createdAt, budget, clock, mono), readings);
            var all := Samples(createdAt, clock, mono, readings + [next]);
            && m.Step(next).0 == Min(budget, Best(all, next.mono))
            && m.createdAt == createdAt && m.budget == budget
            && Tracks(m.Step(next).1, all, next.mono)
    decreases |readings|
  {
    var start := Started(createdAt, budget, clock, mono);
    var m := After(start, readings);
    var samples := Samples(createdAt, clock, mono, readings);
    assert (readings + [next])[..|readings|] == readings;
    assert (readings + [next])[|readings|] == next;
    if readings == [] {
      assert forall x :: mono <= x ==> SameUpToBudget(start, samples, x);
      StepTracks(start, samples, mono, next);
    } else {
      var before, last := readings[..|readings| - 1], readings[|readings| - 1];
      assert before + [last] == readings;
      assert forall i :: 0 <= i < |readings| ==> readings[i] == (readings + [next])[i];
      RunTracks(createdAt, budget, clock, mono, before, last);
      StepTracks(m, samples, last.mono, next);
    }
  }

  /** With a monotonic clock that does not go back, and however the wall clock jumps, the meter
      that keeps one base and one anchor answers exactly as if it remembered every reading: the
      next result is the best that any earlier reading supports, capped by the budget. */
  lemma RemembersEveryReading(
    createdAt: int, budget: nat, clock: int, mono: real, readings: seq<Reading>, next: Reading)
    requires Nondecreasing(mono, readings + [next])
    ensures After(Started(createdAt, budget, clock, mono), readings).Step(next).0
            == Min(budget, Best(Samples(createdAt, clock, mono, readings + [next]), next.mono))
  {
    RunTracks(createdAt, budget, clock, mono, readings, next);
  }

  /** Every earlier reading is a lower bound for the next result, whatever happened between. */
  lemma NeverBehindAnyReading(createdAt: int, budget: nat, clock: int, mono: real,
                              readings: seq<Reading>, next: Reading, sample: Sample)
    requires Nondecreasing(mono, readings + [next])
    requires sample in Samples(createdAt, clock, mono, readings + [next])
    ensures Min(budget, sample.Extrapolated(next.mono))
            <= After(Started(createdAt, budget, clock, mono), readings).Step(next).0
  {
    var result := After(Started(createdAt, budget, clock, mono), readings).Step(next).0;
    var all := Samples(createdAt, clock, mono, readings + [next]);
    RemembersEveryReading(createdAt, budget, clock, mono, readings, next);
    AtMostBest(all, next.mono, sample, budget);
    assert result == Min(budget, Best(all, next.mono));
  }

  lemma AtMostBest(samples: seq<Sample>, mono: real, sample: Sample, budget: nat)
    requires samples != [] && sample in samples
    ensures Min(budget, sample.Extrapolated(mono)) <= Min(budget, Best(samples, mono))
  {
    BestIsGreatest(samples, mono);
  }
}
