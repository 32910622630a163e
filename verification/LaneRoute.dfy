/** Which investigation lanes a heterogeneous adaptive scenario opens, over all incarnations of
    its worker. Each lane is a database file that appears before its run record, and the run is
    bound to the kind of executor that created it. Incarnations may overlap and crash anywhere. */
module LaneRoute {
  import opened Wrappers

  /** Fixed executors by the point at which the fixed lane was chosen: before any provider lane
      existed, or behind the fallback report of one. */
  datatype FixedKind = PreProvider | PostProvider

  datatype FixedLane = NoFile | EmptyFile | Bound(kind: FixedKind)

  /** `creator` is the incarnation that created the run; `report` says whether the established
      report is a fixed fallback. */
  datatype AdaptiveLane = NoAdaptive | EmptyAdaptive | Owned(creator: nat, report: Option<bool>)

  datatype Phase =
    | Choosing
    | CheckingFixed
    | CheckingAdaptive
    | OpeningFixed(kind: FixedKind, existing: bool)
    | InspectingFixed(kind: FixedKind, existing: bool)
    | CreatingFixed(kind: FixedKind)
    | RunningFixed(kind: FixedKind)
    | OpeningAdaptive(existing: bool)
    | InspectingAdaptive(existing: bool)
    | CreatingAdaptive
    | RunningAdaptive
    | Mismatched
    | Escalated
    | Ended

  /** What the first incarnation decided; history. */
  datatype Route = Undecided | FixedBeforeProvider | AdaptiveFirst

  /** Incarnation 0 marked the investigation as started; every later one found it so and is
      recovering. */
  datatype System = System(fixed: FixedLane, adaptive: AdaptiveLane, incarnations: seq<Phase>, route: Route) {
    function At(i: nat, phase: Phase): System
      requires i < |incarnations|
    {
      this.(incarnations := incarnations[i := phase])
    }
  }

  const INITIAL := System(NoFile, NoAdaptive, [], Undecided)

  /** Whether a planner could be had, and what the adaptive executor reports. */
  datatype Choice = Choice(plannerReady: bool, report: Option<bool>)

  datatype Action = Begin | Proceed(i: nat, choice: Choice) | Crash(i: nat)

  // ---------- Steps ----------

  /** The first incarnation falls back before any provider lane exists when the provider or its
      planner is missing. */
  function Choose(s: System, i: nat, plannerReady: bool): System
    requires i < |s.incarnations|
  {
    if i > 0 then s.At(i, CheckingFixed)
    else if plannerReady then s.(route := AdaptiveFirst).At(i, OpeningAdaptive(false))
    else s.(route := FixedBeforeProvider).At(i, OpeningFixed(PreProvider, false))
  }

  function OpenFixed(s: System, i: nat, kind: FixedKind, existing: bool): System
    requires i < |s.incarnations|
  {
    if s.fixed.NoFile? then
      if existing then s.At(i, Escalated) else s.(fixed := EmptyFile).At(i, InspectingFixed(kind, existing))
    else s.At(i, InspectingFixed(kind, existing))
  }

  function InspectFixed(s: System, i: nat, kind: FixedKind, existing: bool): System
    requires i < |s.incarnations|
  {
    s.At(i, if s.fixed.Bound? then (if s.fixed.kind == kind then CreatingFixed(kind) else Mismatched)
            else if existing then Escalated
            else CreatingFixed(kind))
  }

  /** Creating the run is idempotent for the same kind of executor and a conflict for another. */
  function CreateFixed(s: System, i: nat, kind: FixedKind): System
    requires i < |s.incarnations|
  {
    if s.fixed.Bound? then s.At(i, if s.fixed.kind == kind then RunningFixed(kind) else Mismatched)
    else s.(fixed := Bound(kind)).At(i, RunningFixed(kind))
  }

  function OpenAdaptive(s: System, i: nat, existing: bool): System
    requires i < |s.incarnations|
  {
    if s.adaptive.NoAdaptive? then
      if existing then s.At(i, Escalated) else s.(adaptive := EmptyAdaptive).At(i, InspectingAdaptive(existing))
    else s.At(i, InspectingAdaptive(existing))
  }

  function InspectAdaptive(s: System, i: nat, existing: bool): System
    requires i < |s.incarnations|
  {
    s.At(i, if existing && !s.adaptive.Owned? then Escalated else CreatingAdaptive)
  }

  function CreateAdaptive(s: System, i: nat): System
    requires i < |s.incarnations|
  {
    if s.adaptive.Owned? then s.At(i, RunningAdaptive)
    else s.(adaptive := Owned(i, None)).At(i, RunningAdaptive)
  }

  /** The creator executes and establishes a report; anyone else finds one, or must escalate.
      A fixed fallback report leads to the fixed lane. */
  function RunAdaptive(s: System, i: nat, report: Option<bool>): System
    requires i < |s.incarnations|
  {
    if !s.adaptive.Owned? then s.At(i, Escalated)
    else
      var established := if s.adaptive.report.None? && s.adaptive.creator == i then report else s.adaptive.report;
      match established
      case None => s.At(i, Escalated)
      case Some(fallback) =>
        s.(adaptive := s.adaptive.(report := established))
         .At(i, if fallback then OpeningFixed(PostProvider, false) else Ended)
  }

  function AfterProceed(s: System, i: nat, choice: Choice): System
    requires i < |s.incarnations|
  {
    match s.incarnations[i]
    case Choosing => Choose(s, i, choice.plannerReady)
    case CheckingFixed => s.At(i, if s.fixed.NoFile? then OpeningAdaptive(true) else CheckingAdaptive)
    case CheckingAdaptive =>
      s.At(i, if s.adaptive.NoAdaptive? then OpeningFixed(PreProvider, true) else OpeningAdaptive(true))
    case OpeningFixed(kind, existing) => OpenFixed(s, i, kind, existing)
    case InspectingFixed(kind, existing) => InspectFixed(s, i, kind, existing)
    case CreatingFixed(kind) => CreateFixed(s, i, kind)
    case RunningFixed(_) => s.At(i, Ended)
    case OpeningAdaptive(existing) => OpenAdaptive(s, i, existing)
    case InspectingAdaptive(existing) => InspectAdaptive(s, i, existing)
    case CreatingAdaptive => CreateAdaptive(s, i)
    case RunningAdaptive => RunAdaptive(s, i, choice.report)
    case _ => s
  }

  function Next(s: System, action: Action): System {
    match action
    case Begin => s.(incarnations := s.incarnations + [Choosing])
    case Proceed(i, choice) => if i < |s.incarnations| then AfterProceed(s, i, choice) else s
    case Crash(i) => if i < |s.incarnations| then s.At(i, Ended) else s
  }

  function Run(s: System, actions: seq<Action>): System
    decreases actions
  {
    if actions == [] then s else Run(Next(s, actions[0]), actions[1..])
  }

  // ---------- What every reachable state satisfies ----------

  predicate FellBack(s: System) {
    s.adaptive.Owned? && s.adaptive.report == Some(true)
  }

  /** Lanes agree with the route the first incarnation took. */
  predicate LanesInv(s: System) {
    match s.route
    case Undecided => s.fixed.NoFile? && s.adaptive.NoAdaptive?
    case FixedBeforeProvider => s.adaptive.NoAdaptive? && (s.fixed.Bound? ==> s.fixed.kind.PreProvider?)
    case AdaptiveFirst =>
      (!s.fixed.NoFile? ==> FellBack(s)) && (s.fixed.Bound? ==> s.fixed.kind.PostProvider?)
      && (s.adaptive.Owned? ==> s.adaptive.creator == 0)
  }

  predicate KindInv(s: System, kind: FixedKind) {
    match kind
    case PreProvider => s.route.FixedBeforeProvider?
    case PostProvider => s.route.AdaptiveFirst? && FellBack(s)
  }

  predicate PhaseInv(s: System, i: nat)
    requires i < |s.incarnations|
  {
    match s.incarnations[i]
    case Choosing => i == 0 ==> s.route.Undecided?
    case CheckingFixed => i > 0
    case CheckingAdaptive => i > 0 && !s.fixed.NoFile?
    case OpeningFixed(kind, existing) => KindInv(s, kind) && (i > 0 && kind.PreProvider? ==> existing)
    case InspectingFixed(kind, existing) =>
      KindInv(s, kind) && !s.fixed.NoFile? && (i > 0 && kind.PreProvider? ==> existing)
    case CreatingFixed(kind) =>
      KindInv(s, kind) && !s.fixed.NoFile? && (i > 0 && kind.PreProvider? ==> s.fixed.Bound?)
    case RunningFixed(kind) => KindInv(s, kind) && s.fixed == Bound(kind)
    case OpeningAdaptive(existing) => if i == 0 then s.route.AdaptiveFirst? else existing
    case InspectingAdaptive(existing) =>
      !s.adaptive.NoAdaptive? && s.route.AdaptiveFirst? && (i > 0 ==> existing)
    case CreatingAdaptive => s.route.AdaptiveFirst? && (i > 0 ==> s.adaptive.Owned?)
    case RunningAdaptive => s.route.AdaptiveFirst? && s.adaptive.Owned?
    case Mismatched => false
    case _ => true
  }

  ghost predicate Inv(s: System) {
    && LanesInv(s)
    && (s.incarnations == [] ==> s.route.Undecided?)
    && forall i :: 0 <= i < |s.incarnations| ==> PhaseInv(s, i)
  }

  /** What one incarnation's step may change for the others: lanes are only added to, and the
      route is decided once. */
  lemma StepKeepsInv(s: System, t: System, i: nat)
    requires Inv(s) && i < |s.incarnations|
    requires |t.incarnations| == |s.incarnations| && t.incarnations == s.incarnations[i := t.incarnations[i]]
    requires LanesInv(t) && PhaseInv(t, i)
    requires t.route == s.route || (i == 0 && s.route.Undecided?)
    requires !s.fixed.NoFile? ==> !t.fixed.NoFile?
    requires s.fixed.Bound? ==> t.fixed == s.fixed
    requires !s.adaptive.NoAdaptive? ==> !t.adaptive.NoAdaptive?
    requires s.adaptive.Owned? ==> t.adaptive.Owned?
    requires FellBack(s) ==> FellBack(t)
    ensures Inv(t)
  {
    forall j | 0 <= j < |t.incarnations|
      ensures PhaseInv(t, j)
    {
      assert PhaseInv(s, j) && PhaseInv(s, i);
    }
  }

  lemma FixedStepKeepsInv(s: System, i: nat, kind: FixedKind, existing: bool)
    requires Inv(s) && i < |s.incarnations|
    requires s.incarnations[i] in {OpeningFixed(kind, existing), InspectingFixed(kind, existing), CreatingFixed(kind)}
    ensures s.incarnations[i] == OpeningFixed(kind, existing) ==> Inv(OpenFixed(s, i, kind, existing))
    ensures s.incarnations[i] == InspectingFixed(kind, existing) ==> Inv(InspectFixed(s, i, kind, existing))
    ensures s.incarnations[i] == CreatingFixed(kind) ==> Inv(CreateFixed(s, i, kind))
  {
    assert PhaseInv(s, i);
    match s.incarnations[i]
    case OpeningFixed(_, _) => StepKeepsInv(s, OpenFixed(s, i, kind, existing), i);
    case InspectingFixed(_, _) => StepKeepsInv(s, InspectFixed(s, i, kind, existing), i);
    case CreatingFixed(_) => StepKeepsInv(s, CreateFixed(s, i, kind), i);
  }

  lemma ProceedKeepsInv(s: System, i: nat, choice: Choice)
    requires Inv(s) && i < |s.incarnations|
    ensures Inv(AfterProceed(s, i, choice))
  {
    assert PhaseInv(s, i);
    match s.incarnations[i]
    case OpeningFixed(kind, existing) => FixedStepKeepsInv(s, i, kind, existing);
    case InspectingFixed(kind, existing) => FixedStepKeepsInv(s, i, kind, existing);
    case CreatingFixed(kind) => FixedStepKeepsInv(s, i, kind, true);
    case _ => StepKeepsInv(s, AfterProceed(s, i, choice), i);
  }

  lemma NextKeepsInv(s: System, action: Action)
    requires Inv(s)
    ensures Inv(Next(s, action))
  {
    match action
    case Begin =>
      var t := Next(s, Begin);
      forall j | 0 <= j < |t.incarnations|
        ensures PhaseInv(t, j)
      {
        assert j < |s.incarnations| ==> PhaseInv(s, j);
      }
    case Proceed(i, choice) => if i < |s.incarnations| { ProceedKeepsInv(s, i, choice); }
    case Crash(i) => if i < |s.incarnations| { StepKeepsInv(s, s.At(i, Ended), i); }
  }

  lemma {:induction false} ReachableInv(s: System, actions: seq<Action>)
    requires Inv(s)
    ensures Inv(Run(s, actions))
    decreases actions
  {
    if actions != [] {
      NextKeepsInv(s, actions[0]);
      ReachableInv(Next(s, actions[0]), actions[1..]);
    }
  }

  // ---------- Every interleaving of incarnations ----------

  /** The fixed lane is bound to the pre-provider executor exactly when no adaptive lane exists,
      the post-provider one is only used behind a recorded fallback report, and no incarnation
      ever finds a lane bound to another kind. */
  lemma LanesFollowTheRoute(actions: seq<Action>)
    ensures var s := Run(INITIAL, actions);
            && (s.fixed.Bound? ==> (s.fixed.kind.PreProvider? <==> s.adaptive.NoAdaptive?))
            && (s.fixed.Bound? && s.fixed.kind.PostProvider? ==> FellBack(s))
            && (!s.fixed.NoFile? && !s.adaptive.NoAdaptive? ==> FellBack(s))
            && forall i :: 0 <= i < |s.incarnations| ==> !s.incarnations[i].Mismatched?
  {
    ReachableInv(INITIAL, actions);
    var s := Run(INITIAL, actions);
    forall i | 0 <= i < |s.incarnations|
      ensures !s.incarnations[i].Mismatched?
    {
      assert PhaseInv(s, i);
    }
  }

  /** Only the first incarnation ever creates the adaptive lane, its file or its run. */
  lemma RecoveryNeverCreatesAnAdaptiveLane(actions: seq<Action>, action: Action)
    ensures var s := Run(INITIAL, actions);
            var t := Next(s, action);
            (s.adaptive.NoAdaptive? && !t.adaptive.NoAdaptive?) || (!s.adaptive.Owned? && t.adaptive.Owned?)
            ==> action.Proceed? && action.i == 0
  {
    ReachableInv(INITIAL, actions);
    var s := Run(INITIAL, actions);
    if action.Proceed? && action.i < |s.incarnations| {
      assert PhaseInv(s, action.i);
    }
  }

  /** What recovery does on undisturbed lanes: it resumes the fixed lane with the pre-provider
      executor exactly when that lane's run exists without an adaptive lane; with neither run,
      it escalates, even when the first incarnation had already created the fixed lane's file. */
  lemma RecoveryResumesTheRoute(actions: seq<Action>, i: nat, choice: Choice)
    requires i < |Run(INITIAL, actions).incarnations|
    requires Run(INITIAL, actions).incarnations[i].CheckingFixed?
    ensures var s := Run(INITIAL, actions);
            var t := Steps(s, i, choice, 4);
            && |t.incarnations| == |s.incarnations|
            && (t.incarnations[i] == CreatingFixed(PreProvider) <==> s.route.FixedBeforeProvider? && s.fixed.Bound?)
            && (s.route.FixedBeforeProvider? && !s.fixed.Bound? ==> t.incarnations[i].Escalated?)
            && (s.route.Undecided? ==> t.incarnations[i].Escalated?)
            && (t.fixed == s.fixed || s.route.AdaptiveFirst?) && (t.adaptive.NoAdaptive? <==> s.adaptive.NoAdaptive?)
  {
    ReachableInv(INITIAL, actions);
    var s := Run(INITIAL, actions);
    assert PhaseInv(s, i);
    var s1 := AfterProceed(s, i, choice);
    var s2 := AfterProceed(s1, i, choice);
    var s3 := AfterProceed(s2, i, choice);
    assert Steps(s, i, choice, 4) == Steps(s1, i, choice, 3) == Steps(s2, i, choice, 2) == Steps(s3, i, choice, 1);
  }

  function Steps(s: System, i: nat, choice: Choice, n: nat): (t: System)
    requires i < |s.incarnations|
    ensures |t.incarnations| == |s.incarnations|
    decreases n
  {
    if n == 0 then s else Steps(AfterProceed(s, i, choice), i, choice, n - 1)
  }

  /** Steps of everyone but incarnation `i`. */
  predicate Others(actions: seq<Action>, i: nat) {
    forall k :: 0 <= k < |actions| ==> actions[k].Begin? || actions[k].i != i
  }

  /** What others cannot take from an incarnation that recovers a fixed route. */
  lemma {:induction false} OthersLeaveTheRoute(s: System, actions: seq<Action>, i: nat)
    requires Inv(s) && i < |s.incarnations| && Others(actions, i)
    ensures var t := Run(s, actions);
            && Inv(t) && i < |t.incarnations| && t.incarnations[i] == s.incarnations[i]
            && (s.route.FixedBeforeProvider? ==> t.route == s.route)
            && (!s.fixed.NoFile? ==> !t.fixed.NoFile?) && (s.fixed.Bound? ==> t.fixed == s.fixed)
    decreases actions
  {
    if actions != [] {
      assert actions[0].Begin? || actions[0].i != i;
      assert forall k :: 0 <= k < |actions[1..]| ==> actions[1..][k] == actions[k + 1];
      NextKeepsInv(s, actions[0]);
      OthersLeaveTheRouteOnce(s, actions[0], i);
      OthersLeaveTheRoute(Next(s, actions[0]), actions[1..], i);
    }
  }

  lemma OthersLeaveTheRouteOnce(s: System, action: Action, i: nat)
    requires Inv(s) && i < |s.incarnations| && (action.Begin? || action.i != i)
    ensures var t := Next(s, action);
            && i < |t.incarnations| && t.incarnations[i] == s.incarnations[i]
            && (s.route.FixedBeforeProvider? ==> t.route == s.route)
            && (!s.fixed.NoFile? ==> !t.fixed.NoFile?) && (s.fixed.Bound? ==> t.fixed == s.fixed)
  {
    if action.Proceed? && action.i < |s.incarnations| {
      assert PhaseInv(s, action.i) && PhaseInv(s, 0);
    }
  }

  /** Others run, then incarnation `i` takes its next step. */
  function Interrupted(s: System, others: seq<Action>, i: nat, choice: Choice): System {
    Next(Run(s, others), Proceed(i, choice))
  }

  /** One own step of a recovery on a fixed route, whatever others did before it. */
  lemma RecoveryStep(s: System, others: seq<Action>, i: nat, choice: Choice)
    requires Inv(s) && 0 < i < |s.incarnations| && Others(others, i)
    requires s.route.FixedBeforeProvider? && !s.fixed.NoFile?
    ensures var t := Interrupted(s, others, i, choice);
            && Inv(t) && i < |t.incarnations| && t.route.FixedBeforeProvider? && !t.fixed.NoFile?
            && (s.fixed.Bound? ==> t.fixed == s.fixed)
            && match s.incarnations[i]
               case CheckingFixed => t.incarnations[i] == CheckingAdaptive
               case CheckingAdaptive => t.incarnations[i] == OpeningFixed(PreProvider, true)
               case OpeningFixed(_, _) => t.incarnations[i] == InspectingFixed(PreProvider, true)
               case InspectingFixed(_, _) =>
                 t.incarnations[i] == if t.fixed == Bound(PreProvider) then CreatingFixed(PreProvider) else Escalated
               case _ => true
  {
    OthersLeaveTheRoute(s, others, i);
    var u := Run(s, others);
    NextKeepsInv(u, Proceed(i, choice));
    assert PhaseInv(u, i);
  }

  /** Whatever others do between its steps, an incarnation that recovers a fixed route resumes the
      fixed lane with the pre-provider executor if that lane's run exists when it starts to look,
      and otherwise does so exactly if the run exists by the time it inspects the lane; if not, it
      escalates. */
  lemma RecoveryResumesAmongOthers(actions: seq<Action>, others: seq<seq<Action>>, i: nat, choice: Choice)
    requires |others| == 4 && forall k :: 0 <= k < 4 ==> Others(others[k], i)
    requires i < |Run(INITIAL, actions).incarnations|
    requires var s := Run(INITIAL, actions);
             s.incarnations[i].CheckingFixed? && s.route.FixedBeforeProvider? && !s.fixed.NoFile?
    ensures var s := Run(INITIAL, actions);
            var s1 := Interrupted(s, others[0], i, choice);
            var s2 := Interrupted(s1, others[1], i, choice);
            var s3 := Interrupted(s2, others[2], i, choice);
            var t := Interrupted(s3, others[3], i, choice);
            && i < |t.incarnations|
            && (s.fixed.Bound? ==> t.incarnations[i] == CreatingFixed(PreProvider))
            && t.incarnations[i] == if t.fixed == Bound(PreProvider) then CreatingFixed(PreProvider) else Escalated
  {
    ReachableInv(INITIAL, actions);
    var s := Run(INITIAL, actions);
    assert PhaseInv(s, i);
    RecoveryStep(s, others[0], i, choice);
    var s1 := Interrupted(s, others[0], i, choice);
    RecoveryStep(s1, others[1], i, choice);
    var s2 := Interrupted(s1, others[1], i, choice);
    RecoveryStep(s2, others[2], i, choice);
    var s3 := Interrupted(s2, others[2], i, choice);
    RecoveryStep(s3, others[3], i, choice);
    assert Interrupted(s3, others[3], i, choice).fixed in {EmptyFile, Bound(PreProvider)} by {
      var t := Interrupted(s3, others[3], i, choice);
      assert LanesInv(t);
    }
  }

  const NO_PLANNER := Choice(false, None)

  /** A first incarnation that chose the fixed lane and created its file, and nothing else. */
  function WithFile(incarnations: seq<Phase>): System {
    System(EmptyFile, NoAdaptive, incarnations, FixedBeforeProvider)
  }

  /** The first incarnation creates the fixed lane's file and crashes before it creates the run;
      the next one finds the file without a run and escalates. */
  lemma StrandedFileEscalates()
    ensures var file := Run(INITIAL, [Begin, Proceed(0, NO_PLANNER), Proceed(0, NO_PLANNER), Crash(0), Begin]);
            var looked := Run(file, [Proceed(1, NO_PLANNER), Proceed(1, NO_PLANNER), Proceed(1, NO_PLANNER)]);
            var t := Run(looked, [Proceed(1, NO_PLANNER), Proceed(1, NO_PLANNER)]);
            t == WithFile([Ended, Escalated])
  {
    var step := Proceed(0, NO_PLANNER);
    var chosen := System(NoFile, NoAdaptive, [OpeningFixed(PreProvider, false)], FixedBeforeProvider);
    var created := WithFile([InspectingFixed(PreProvider, false)]);
    assert Next(INITIAL, Begin) == System(NoFile, NoAdaptive, [Choosing], Undecided);
    assert Next(Next(INITIAL, Begin), step) == chosen && Next(chosen, step) == created;
    assert Next(created, Crash(0)) == WithFile([Ended]);
    assert Next(WithFile([Ended]), Begin) == WithFile([Ended, Choosing]);
    assert Run(INITIAL, [Begin, step, step, Crash(0), Begin])
        == Run(Next(INITIAL, Begin), [step, step, Crash(0), Begin])
        == Run(chosen, [step, Crash(0), Begin])
        == Run(created, [Crash(0), Begin])
        == Run(WithFile([Ended]), [Begin])
        == Run(WithFile([Ended, Choosing]), []);
    StrandedFileIsFound();
  }

  lemma StrandedFileIsFound()
    ensures var looked := Run(WithFile([Ended, Choosing]),
                              [Proceed(1, NO_PLANNER), Proceed(1, NO_PLANNER), Proceed(1, NO_PLANNER)]);
            && looked == WithFile([Ended, OpeningFixed(PreProvider, true)])
            && Run(looked, [Proceed(1, NO_PLANNER), Proceed(1, NO_PLANNER)]) == WithFile([Ended, Escalated])
  {
    var step := Proceed(1, NO_PLANNER);
    assert Next(WithFile([Ended, Choosing]), step) == WithFile([Ended, CheckingFixed]);
    assert Next(WithFile([Ended, CheckingFixed]), step) == WithFile([Ended, CheckingAdaptive]);
    assert Next(WithFile([Ended, CheckingAdaptive]), step) == WithFile([Ended, OpeningFixed(PreProvider, true)]);
    assert Run(WithFile([Ended, Choosing]), [step, step, step])
        == Run(WithFile([Ended, CheckingFixed]), [step, step])
        == Run(WithFile([Ended, CheckingAdaptive]), [step])
        == Run(WithFile([Ended, OpeningFixed(PreProvider, true)]), []);
    assert Next(WithFile([Ended, OpeningFixed(PreProvider, true)]), step)
        == WithFile([Ended, InspectingFixed(PreProvider, true)]);
    assert Next(WithFile([Ended, InspectingFixed(PreProvider, true)]), step) == WithFile([Ended, Escalated]);
    assert Run(WithFile([Ended, OpeningFixed(PreProvider, true)]), [step, step])
        == Run(WithFile([Ended, InspectingFixed(PreProvider, true)]), [step])
        == Run(WithFile([Ended, Escalated]), []);
  }

  /** An adaptive run that was interrupted before its report is never continued by another
      incarnation: recovery escalates, whatever the executor would report. */
  lemma InterruptedAdaptiveRunEscalates(actions: seq<Action>, i: nat, choice: Choice)
    requires 0 < i < |Run(INITIAL, actions).incarnations|
    requires var s := Run(INITIAL, actions);
             s.incarnations[i].RunningAdaptive? && s.adaptive.Owned? && s.adaptive.report.None?
    ensures var s := Run(INITIAL, actions);
            AfterProceed(s, i, choice) == s.At(i, Escalated)
  {
    ReachableInv(INITIAL, actions);
  }
}
