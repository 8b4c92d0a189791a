/**
 Supervision of a child process (internal/proc/proc.go): one caller that starts and stops, the
 supervisors it leaves behind, and their children, interleaved in every order. A step is what
 one of them does between two points where the others can get in.
 */
module Proc {

  datatype Child = NoChild | Alive | Dead

  /**
   Where a supervisor is. Spawning: about to start the child. Publishing: started, not yet
   announced. Waiting: for the child to end. Tallying: about to take note of its end. Deciding:
   has taken note. BackingOff: before the next start. Closing: about to close `done`.
   */
  datatype Place =
    | Spawning(first: bool) | Publishing(first: bool) | Waiting | Tallying | Deciding(stopped: bool)
    | BackingOff | Closing | Ended

  datatype Report = Nothing | Started | StartFailed

  datatype Supervisor = Supervisor(place: Place, child: Child, cancelled: bool, report: Report)

  /** Where the caller is. Only one call runs at a time: the engine holds its lock. */
  datatype Caller = Idle | Starting | Stopping | Killing | Returning(byDone: bool)

  /**
   The fields of the process, the caller, and every supervisor ever started, of which the fields
   know the last. The last three count: children started, deaths noted while stopped, and Stops
   that gave up waiting.
   */
  datatype State = State(
    running: bool,
    stopped: bool,
    exits: nat,
    caller: Caller,
    sups: seq<Supervisor>,
    spawned: nat,
    expected: nat,
    gaveUp: nat)

  const INITIAL := State(false, false, 0, Idle, [], 0, 0, 0)

  datatype Event =
    | CallStart
    | StartReturns
    | CallStop
    | StopProceeds(timeout: bool)
    | SupervisorRuns(i: nat, good: bool)
    | ChildDies(i: nat)

  predicate Quiet(p: Supervisor) {
    p.place.Closing? || p.place.Ended?
  }

  function Last(s: State): Supervisor
    requires s.sups != []
  {
    s.sups[|s.sups| - 1]
  }

  function WithLast(s: State, p: Supervisor): State
    requires s.sups != []
  {
    s.(sups := s.sups[|s.sups| - 1 := p])
  }

  /** What can happen in a state. */
  predicate Enabled(s: State, e: Event) {
    match e
    case CallStart => s.caller == Idle && !s.running
    case StartReturns => s.caller == Starting && s.sups != [] && Last(s).report != Nothing
    case CallStop => s.caller == Idle && s.running
    case StopProceeds(timeout) =>
      && s.sups != [] && (s.caller.Stopping? || s.caller.Killing? || s.caller.Returning?)
      && (!s.caller.Returning? && !timeout ==> Last(s).place.Ended?)
    case SupervisorRuns(i, good) =>
      && i < |s.sups| && !s.sups[i].place.Ended?
      && (s.sups[i].place.Spawning? && good ==> !s.sups[i].cancelled)
      && (s.sups[i].place.Waiting? ==> s.sups[i].child == Dead)
      && (s.sups[i].place.BackingOff? && good ==> s.sups[i].cancelled)
    case ChildDies(i) => i < |s.sups| && s.sups[i].child == Alive
  }

  /** One step of a supervisor. `good` says that a start succeeds, or that a back-off ends
      because of the cancellation rather than the timer. */
  function Supervise(s: State, i: nat, good: bool): State
    requires Enabled(s, SupervisorRuns(i, good))
  {
    var p := s.sups[i];
    match p.place
    case Spawning(first) =>
      if good then s.(sups := s.sups[i := p.(child := Alive, place := Publishing(first))], spawned := s.spawned + 1)
      else
        var report := if first then StartFailed else p.report;
        s.(running := false, sups := s.sups[i := p.(place := Closing, report := report)])
    case Publishing(first) =>
      s.(sups := s.sups[i := p.(place := Waiting, report := if first then Started else p.report)])
    case Waiting => s.(sups := s.sups[i := p.(place := Tallying)])
    case Tallying =>
      s.(sups := s.sups[i := p.(place := Deciding(s.stopped), child := NoChild)],
         exits := if s.stopped then s.exits else s.exits + 1,
         expected := if s.stopped then s.expected + 1 else s.expected)
    case Deciding(stopped) =>
      if stopped || p.cancelled then s.(running := false, sups := s.sups[i := p.(place := Closing)])
      else s.(sups := s.sups[i := p.(place := BackingOff)])
    case BackingOff =>
      if good then s.(running := false, sups := s.sups[i := p.(place := Closing)])
      else s.(sups := s.sups[i := p.(place := Spawning(false))])
    case Closing => s.(sups := s.sups[i := p.(place := Ended)])
    case Ended => s
  }

  function Step(s: State, e: Event): State {
    if !Enabled(s, e) then s
    else match e
      case CallStart =>
        s.(stopped := false, running := true, caller := Starting,
           sups := s.sups + [Supervisor(Spawning(true), NoChild, false, Nothing)])
      case StartReturns =>
        if Last(s).report == Started then s.(caller := Idle)
        else WithLast(s, Last(s).(cancelled := true)).(caller := Idle, running := false)
      case CallStop => s.(stopped := true, caller := Stopping)
      case StopProceeds(timeout) =>
        if s.caller.Stopping? then
          if timeout then WithLast(s, Last(s).(cancelled := true)).(caller := Killing)
          else s.(caller := Returning(true))
        else if s.caller.Killing? then
          if timeout then s.(caller := Returning(false), gaveUp := s.gaveUp + 1) else s.(caller := Returning(true))
        else WithLast(s, Last(s).(cancelled := true)).(caller := Idle, running := false)
      case SupervisorRuns(i, good) => Supervise(s, i, good)
      case ChildDies(i) => s.(sups := s.sups[i := s.sups[i].(child := Dead)])
  }

  function Steps(s: State, events: seq<Event>): State {
    if events == [] then s else Step(Steps(s, events[..|events| - 1]), events[|events| - 1])
  }

  function Run(events: seq<Event>): State {
    Steps(INITIAL, events)
  }

  lemma OneMore(s: State, events: seq<Event>, e: Event)
    ensures Steps(s, events + [e]) == Step(Steps(s, events), e)
  {
    assert (events + [e])[..|events|] == events;
  }

  lemma {:induction false} StepsJoin(s: State, a: seq<Event>, b: seq<Event>)
    ensures Steps(s, a + b) == Steps(Steps(s, a), b)
  {
    hide Step;
    if b == [] {
      assert a + b == a;
    } else {
      assert (a + b)[..|a + b| - 1] == a + b[..|b| - 1];
      StepsJoin(s, a, b[..|b| - 1]);
    }
  }

  // ----- invariants

  predicate ChildFits(p: Supervisor) {
    match p.place
    case Spawning(_) => p.child == NoChild
    case Publishing(_) => p.child != NoChild
    case Waiting => p.child != NoChild
    case Tallying => p.child == Dead
    case _ => p.child == NoChild
  }

  predicate ReportFits(p: Supervisor) {
    && (p.report == StartFailed ==> Quiet(p))
    && (p.place.Spawning? && p.place.first ==> p.report == Nothing)
    && (p.place.Publishing? && p.place.first ==> p.report == Nothing)
  }

  ghost predicate Fits(s: State) {
    forall i :: 0 <= i < |s.sups| ==> ChildFits(s.sups[i]) && ReportFits(s.sups[i])
  }

  /** Every supervisor but the last has done its work, and so has the last one when nothing is
      running. */
  ghost predicate Orderly(s: State) {
    && (forall i :: 0 <= i < |s.sups| - 1 ==> Quiet(s.sups[i]))
    && (s.sups != [] && !s.running ==> Quiet(Last(s)))
    && (s.caller != Idle || s.running ==> s.sups != [])
    && (s.caller == Returning(true) ==> Last(s).place.Ended?)
    && s.caller != Returning(false)
  }

  lemma OneReplaced(s: State, t: State, i: nat, p: Supervisor)
    requires Fits(s) && i < |s.sups| && ChildFits(p) && ReportFits(p) && t.sups == s.sups[i := p]
    ensures Fits(t)
  {
    hide ChildFits, ReportFits;
  }

  lemma SupervisedChildFits(s: State, i: nat, good: bool)
    requires Enabled(s, SupervisorRuns(i, good)) && ChildFits(s.sups[i])
    ensures |Supervise(s, i, good).sups| == |s.sups| && ChildFits(Supervise(s, i, good).sups[i])
  {
  }

  lemma SupervisedReportFits(s: State, i: nat, good: bool)
    requires Enabled(s, SupervisorRuns(i, good)) && ReportFits(s.sups[i])
    ensures |Supervise(s, i, good).sups| == |s.sups| && ReportFits(Supervise(s, i, good).sups[i])
  {
  }

  lemma SupervisedAlone(s: State, i: nat, good: bool)
    requires Enabled(s, SupervisorRuns(i, good))
    ensures var t := Supervise(s, i, good); |t.sups| == |s.sups| && t.sups == s.sups[i := t.sups[i]]
  {
  }

  lemma CancelledFits(p: Supervisor)
    requires ChildFits(p) && ReportFits(p)
    ensures var q := p.(cancelled := true); ChildFits(q) && ReportFits(q)
  {
  }

  lemma FitsEach(s: State, i: nat)
    requires Fits(s) && i < |s.sups|
    ensures ChildFits(s.sups[i]) && ReportFits(s.sups[i])
  {
    hide ChildFits, ReportFits;
  }

  lemma OneMoreFits(s: State, t: State, p: Supervisor)
    requires Fits(s) && ChildFits(p) && ReportFits(p) && t.sups == s.sups + [p]
    ensures Fits(t)
  {
    hide ChildFits, ReportFits;
  }

  lemma SameFits(s: State, t: State)
    requires Fits(s) && t.sups == s.sups
    ensures Fits(t)
  {
    hide ChildFits, ReportFits;
  }

  lemma StepKeepsFits(s: State, e: Event)
    requires Fits(s)
    ensures Fits(Step(s, e))
  {
    hide Fits, Supervise;
    var t := Step(s, e);
    if t.sups == s.sups {
      SameFits(s, t);
    } else {
      match e
      case CallStart => OneMoreFits(s, t, Supervisor(Spawning(true), NoChild, false, Nothing));
      case SupervisorRuns(i, good) =>
        FitsEach(s, i);
        SupervisedChildFits(s, i, good);
        SupervisedReportFits(s, i, good);
        SupervisedAlone(s, i, good);
        OneReplaced(s, t, i, t.sups[i]);
      case ChildDies(i) =>
        FitsEach(s, i);
        OneReplaced(s, t, i, s.sups[i].(child := Dead));
      case StartReturns =>
        FitsEach(s, |s.sups| - 1);
        CancelledFits(Last(s));
        OneReplaced(s, t, |s.sups| - 1, Last(s).(cancelled := true));
      case StopProceeds(_) =>
        FitsEach(s, |s.sups| - 1);
        CancelledFits(Last(s));
        OneReplaced(s, t, |s.sups| - 1, Last(s).(cancelled := true));
      case CallStop =>
    }
  }

  /** Only a Stop that gives up upsets the order. */
  lemma StepKeepsOrder(s: State, e: Event)
    requires Fits(s) && Orderly(s) && Step(s, e).gaveUp == s.gaveUp
    ensures Orderly(Step(s, e))
  {
    hide Fits;
    if Enabled(s, e) {
      match e
      case StartReturns => FailedIsQuiet(s, |s.sups| - 1);
      case SupervisorRuns(i, good) => OnlyLastRuns(s, i, good);
      case _ =>
    }
  }

  lemma FailedIsQuiet(s: State, i: nat)
    requires Fits(s) && i < |s.sups|
    ensures s.sups[i].report == StartFailed ==> Quiet(s.sups[i])
    ensures ChildFits(s.sups[i])
  {
  }

  lemma OnlyLastRuns(s: State, i: nat, good: bool)
    requires Orderly(s) && Enabled(s, SupervisorRuns(i, good))
    ensures Orderly(Supervise(s, i, good))
  {
    var t := Supervise(s, i, good);
    assert i < |s.sups| - 1 ==> Quiet(s.sups[i]);
  }

  lemma GaveUpGrows(s: State, e: Event)
    ensures Step(s, e).gaveUp >= s.gaveUp
  {
  }

  lemma {:induction false} StepsKeepFits(s: State, more: seq<Event>)
    requires Fits(s)
    ensures Fits(Steps(s, more)) && Steps(s, more).gaveUp >= s.gaveUp
  {
    hide Fits, Step;
    if more != [] {
      StepsKeepFits(s, more[..|more| - 1]);
      StepKeepsFits(Steps(s, more[..|more| - 1]), more[|more| - 1]);
      GaveUpGrows(Steps(s, more[..|more| - 1]), more[|more| - 1]);
    }
  }

  /** From an orderly state on, order is kept as long as no Stop gives up. */
  lemma {:induction false} StepsKeepOrder(s: State, more: seq<Event>)
    requires Fits(s) && Orderly(s) && Steps(s, more).gaveUp == s.gaveUp
    ensures Fits(Steps(s, more)) && Orderly(Steps(s, more))
  {
    hide Fits, Orderly, Step;
    if more != [] {
      var init, e := more[..|more| - 1], more[|more| - 1];
      StepsKeepFits(s, init);
      GaveUpGrows(Steps(s, init), e);
      StepsKeepOrder(s, init);
      StepKeepsFits(Steps(s, init), e);
      StepKeepsOrder(Steps(s, init), e);
    }
  }

  /** In every run the pieces of a supervisor fit together, and without a Stop that gave up only
      the last one has work left. */
  lemma RunKeepsInv(events: seq<Event>)
    ensures Fits(Run(events)) && (Run(events).gaveUp == 0 ==> Orderly(Run(events)))
  {
    hide Step;
    StepsKeepFits(INITIAL, events);
    if Run(events).gaveUp == 0 {
      StepsKeepOrder(INITIAL, events);
    }
  }

  // ----- at most one child

  ghost predicate AtMostOneAlive(s: State) {
    forall i, j :: 0 <= i < j < |s.sups| ==> s.sups[i].child != Alive || s.sups[j].child != Alive
  }

  ghost predicate NoneAlive(s: State) {
    forall i :: 0 <= i < |s.sups| ==> s.sups[i].child != Alive
  }

  lemma OrderMeansOneChild(s: State)
    requires Fits(s) && Orderly(s)
    ensures AtMostOneAlive(s)
  {
    forall i | 0 <= i < |s.sups| - 1 ensures s.sups[i].child != Alive {
      assert ChildFits(s.sups[i]) && Quiet(s.sups[i]);
    }
  }

  /** In every run in which no Stop gave up waiting, at most one child is ever alive. */
  lemma AtMostOneChild(events: seq<Event>)
    requires Run(events).gaveUp == 0
    ensures AtMostOneAlive(Run(events))
  {
    hide Run;
    RunKeepsInv(events);
    OrderMeansOneChild(Run(events));
  }

  /** Every supervisor is done, or has only its `done` left to close. */
  ghost predicate AllQuiet(s: State) {
    forall i :: 0 <= i < |s.sups| ==> Quiet(s.sups[i])
  }

  /** A continuation without another Stop that gives up. */
  ghost predicate Patient(s: State, more: seq<Event>) {
    Steps(s, more).gaveUp == s.gaveUp
  }

  ghost predicate StaysAtOne(s: State) {
    forall more :: Patient(s, more) ==> AtMostOneAlive(Steps(s, more))
  }

  ghost predicate CanHaveTwo(s: State) {
    exists more :: Patient(s, more) && !AtMostOneAlive(Steps(s, more))
  }

  lemma StepThenTwo(s: State, e: Event)
    requires Step(s, e).gaveUp == s.gaveUp && CanHaveTwo(Step(s, e))
    ensures CanHaveTwo(s)
  {
    hide Step, AtMostOneAlive;
    var more :| Patient(Step(s, e), more) && !AtMostOneAlive(Steps(Step(s, e), more));
    OneMore(s, [], e);
    StepsJoin(s, [e], more);
    assert [] + [e] == [e];
    assert Patient(s, [e] + more);
  }

  lemma TwoNow(s: State, i: nat, k: nat)
    requires i < k < |s.sups| && s.sups[i].child == Alive && s.sups[k].child == Alive
    ensures CanHaveTwo(s)
  {
    assert Steps(s, []) == s && Patient(s, []);
  }

  /** A new supervisor can be brought to a living child, with the others left as they are. */
  function WithNewChild(s: State): State {
    s.(stopped := false, running := true, spawned := s.spawned + 1,
       sups := s.sups + [Supervisor(Waiting, Alive, false, Started)])
  }

  lemma StartBringsAChild(s: State)
    requires s.caller == Idle && !s.running && CanHaveTwo(WithNewChild(s))
    ensures CanHaveTwo(s)
  {
    hide CanHaveTwo;
    var n := |s.sups|;
    var go := SupervisorRuns(n, true);
    var a := Step(s, CallStart);
    var b := Step(a, go);
    var c := Step(b, go);
    assert a.sups == s.sups + [Supervisor(Spawning(true), NoChild, false, Nothing)];
    assert b.sups == s.sups + [Supervisor(Publishing(true), Alive, false, Nothing)];
    assert c.sups == s.sups + [Supervisor(Waiting, Alive, false, Started)];
    assert Step(c, StartReturns) == WithNewChild(s);
    StepThenTwo(c, StartReturns);
    StepThenTwo(b, go);
    StepThenTwo(a, go);
    StepThenTwo(s, CallStart);
  }

  /** With nothing running and a living child left, a Start makes it two. */
  lemma SecondStart(s: State, k: nat)
    requires s.caller == Idle && !s.running && k < |s.sups| && s.sups[k].child == Alive
    ensures CanHaveTwo(s)
  {
    hide CanHaveTwo;
    TwoNow(WithNewChild(s), k, |s.sups|);
    StartBringsAChild(s);
  }

  /** What an unfinished supervisor does next to end, or to start its child again. */
  function NextMove(p: Supervisor, i: nat): Event {
    match p.place
    case Spawning(_) => SupervisorRuns(i, !p.cancelled)
    case BackingOff => SupervisorRuns(i, p.cancelled)
    case _ => SupervisorRuns(i, true)
  }

  /** Its next move leaves the caller and the other supervisors alone, and leads to a living child,
      to a process that does not count as running, or closer to either. */
  lemma MoveMeans(s: State, i: nat)
    requires i < |s.sups| && ChildFits(s.sups[i]) && s.sups[i].child != Alive && !Quiet(s.sups[i])
    ensures var t := Step(s, NextMove(s.sups[i], i));
            (&& t.caller == s.caller && t.gaveUp == s.gaveUp && |t.sups| == |s.sups| && ChildFits(t.sups[i])
             && (forall k :: 0 <= k < |s.sups| && k != i ==> t.sups[k] == s.sups[k])
             && (t.sups[i].child == Alive || !t.running
                 || (!Quiet(t.sups[i]) && Distance(t.sups[i]) < Distance(s.sups[i]))))
  {
  }

  /** An unfinished supervisor next to a living child can bring about a second one: by starting its
      own child again, or by declaring that nothing is running, which admits another Start. */
  lemma {:induction false} UnfinishedMakesTwo(s: State, i: nat, k: nat)
    requires s.caller == Idle && i < |s.sups| && k < |s.sups| && i != k && s.sups[k].child == Alive
    requires ChildFits(s.sups[i]) && !Quiet(s.sups[i])
    ensures CanHaveTwo(s)
    decreases Distance(s.sups[i])
  {
    hide CanHaveTwo, Step, ChildFits, Distance;
    if s.sups[i].child == Alive {
      TwoNow(s, if i < k then i else k, if i < k then k else i);
    } else {
      var e := NextMove(s.sups[i], i);
      MoveMeans(s, i);
      var t := Step(s, e);
      if t.sups[i].child == Alive {
        TwoNow(t, if i < k then i else k, if i < k then k else i);
      } else if !t.running {
        SecondStart(t, k);
      } else {
        UnfinishedMakesTwo(t, i, k);
      }
      StepThenTwo(s, e);
    }
  }

  /** Once nothing is running, no continuation short of another Stop that gives up has two living
      children if and only if every supervisor is done. */
  lemma OneChildExactlyWhen(events: seq<Event>)
    requires Run(events).caller == Idle && !Run(events).running
    ensures StaysAtOne(Run(events)) <==> AllQuiet(Run(events))
  {
    hide Run, Step, Steps, AtMostOneAlive, Distance, Patient;
    var s := Run(events);
    RunKeepsInv(events);
    if AllQuiet(s) {
      assert Orderly(s);
      forall more | Patient(s, more) ensures AtMostOneAlive(Steps(s, more)) {
        PatientKeepsOrder(s, more);
        OrderMeansOneChild(Steps(s, more));
      }
    } else {
      var i :| 0 <= i < |s.sups| && !Quiet(s.sups[i]);
      assert ChildFits(s.sups[i]);
      var t := WithNewChild(s);
      assert t.sups[i] == s.sups[i] && t.sups[|s.sups|].child == Alive;
      UnfinishedMakesTwo(t, i, |s.sups|);
      StartBringsAChild(s);
    }
  }

  lemma PatientKeepsOrder(s: State, more: seq<Event>)
    requires Fits(s) && Orderly(s) && Patient(s, more)
    ensures Fits(Steps(s, more)) && Orderly(Steps(s, more))
  {
    hide Fits, Orderly, Steps;
    StepsKeepOrder(s, more);
  }

  // A run in which a Stop gives up and leaves a child behind.
  const GO := SupervisorRuns(0, true)
  const LEFT_BEHIND := [
    CallStart, GO, GO, StartReturns, CallStop, StopProceeds(true), StopProceeds(true), StopProceeds(true)]

  const AFTER_GIVING_UP := State(false, true, 0, Idle, [Supervisor(Waiting, Alive, true, Started)], 1, 0, 1)

  lemma GivingUpLeavesAChild()
    ensures Run(LEFT_BEHIND) == AFTER_GIVING_UP
  {
    var s1 := Step(INITIAL, CallStart);
    var s2 := Step(s1, GO);
    var s3 := Step(s2, GO);
    var s4 := Step(s3, StartReturns);
    var s5 := Step(s4, CallStop);
    var s6 := Step(s5, StopProceeds(true));
    var s7 := Step(s6, StopProceeds(true));
    var s8 := Step(s7, StopProceeds(true));
    StepsThrough(INITIAL, LEFT_BEHIND, [INITIAL, s1, s2, s3, s4, s5, s6, s7, s8]);
  }

  /** A Stop that gave up leaves a child behind that the next Start adds another one to. */
  lemma TwoChildrenAfterGivingUp()
    ensures exists events :: Run(events).gaveUp == 1 && !AtMostOneAlive(Run(events))
  {
    hide Run, Step;
    GivingUpLeavesAChild();
    SecondStart(AFTER_GIVING_UP, 0);
    var more :| Patient(AFTER_GIVING_UP, more) && !AtMostOneAlive(Steps(AFTER_GIVING_UP, more));
    RunOn(LEFT_BEHIND, more);
    assert Run(LEFT_BEHIND + more).gaveUp == 1 && !AtMostOneAlive(Run(LEFT_BEHIND + more));
  }

  const AFTER_DECIDING := State(false, true, 0, Idle, [Supervisor(Deciding(true), NoChild, true, Started)], 1, 1, 1)

  lemma LeftBehindDecides()
    ensures Steps(AFTER_GIVING_UP, [ChildDies(0), GO, GO]) == AFTER_DECIDING
  {
    var s1 := Step(AFTER_GIVING_UP, ChildDies(0));
    var s2 := Step(s1, GO);
    var s3 := Step(s2, GO);
    StepsThrough(AFTER_GIVING_UP, [ChildDies(0), GO, GO], [AFTER_GIVING_UP, s1, s2, s3]);
  }

  /** That no child is alive is not enough, not even when the one supervisor left is cancelled and
      has decided to end: it still says that nothing is running once the next child is. */
  lemma NoLivingChildIsNotEnough()
    ensures exists events :: var s := Run(events);
              s.caller == Idle && !s.running && NoneAlive(s) && !StaysAtOne(s)
              && forall i :: 0 <= i < |s.sups| ==> s.sups[i].place == Deciding(true) && s.sups[i].cancelled
  {
    hide Run, Step, Steps, StaysAtOne;
    var more := [ChildDies(0), GO, GO];
    GivingUpLeavesAChild();
    LeftBehindDecides();
    RunOn(LEFT_BEHIND, more);
    OneChildExactlyWhen(LEFT_BEHIND + more);
    assert !Quiet(Run(LEFT_BEHIND + more).sups[0]);
  }

  lemma RunOn(events: seq<Event>, more: seq<Event>)
    ensures Run(events + more) == Steps(Run(events), more)
  {
    StepsJoin(INITIAL, events, more);
  }

  lemma {:induction false} StepsThrough(s: State, events: seq<Event>, states: seq<State>)
    requires |states| == |events| + 1 && states[0] == s
    requires forall i :: 0 <= i < |events| ==> states[i + 1] == Step(states[i], events[i])
    ensures Steps(s, events) == states[|events|]
  {
    if events != [] {
      hide Step;
      StepsThrough(s, events[..|events| - 1], states[..|states| - 1]);
    }
  }

  // ----- after a stop

  lemma {:induction false} QuietStays(s: State, more: seq<Event>)
    requires AllQuiet(s) && Fits(s) && CallStart !in more
    ensures AllQuiet(Steps(s, more)) && Fits(Steps(s, more))
  {
    if more != [] {
      hide Step, Fits, AllQuiet;
      var init, e := more[..|more| - 1], more[|more| - 1];
      QuietStays(s, init);
      QuietKept(Steps(s, init), e);
    }
  }

  lemma QuietIsNotAlive(s: State)
    requires AllQuiet(s) && Fits(s)
    ensures NoneAlive(s)
  {
    forall i | 0 <= i < |s.sups| ensures s.sups[i].child != Alive {
      assert ChildFits(s.sups[i]) && Quiet(s.sups[i]);
    }
  }

  lemma QuietKept(s: State, e: Event)
    requires AllQuiet(s) && Fits(s) && e != CallStart
    ensures AllQuiet(Step(s, e)) && Fits(Step(s, e))
  {
    StepKeepsFits(s, e);
    if Enabled(s, e) && e.ChildDies? {
      QuietIsNotAlive(s);
    }
  }

  /** When a Stop is about to return because the supervisor has ended, or returns at once because
      nothing is running, and no earlier one gave up, no child is alive and none will be, whatever
      happens next short of another Start. */
  lemma StoppedForGood(events: seq<Event>, more: seq<Event>)
    requires Run(events).caller == Returning(true) || !Run(events).running
    requires Run(events).gaveUp == 0 && CallStart !in more
    ensures NoneAlive(Run(events)) && NoneAlive(Run(events + more))
  {
    hide Run, Fits, NoneAlive;
    RunKeepsInv(events);
    RunOn(events, more);
    LastIsQuiet(Run(events));
    QuietStays(Run(events), more);
    QuietIsNotAlive(Run(events));
    QuietIsNotAlive(Run(events + more));
  }

  lemma LastIsQuiet(s: State)
    requires Orderly(s) && (s.caller == Returning(true) || !s.running)
    ensures AllQuiet(s)
  {
  }

  // A run in which a child died and the back-off has begun.
  const CRASHED := [CallStart, GO, GO, StartReturns, ChildDies(0), GO, GO, GO]

  const AFTER_CRASH := State(true, false, 1, Idle, [Supervisor(BackingOff, NoChild, false, Started)], 1, 0, 0)

  lemma CrashBacksOff()
    ensures Run(CRASHED) == AFTER_CRASH
  {
    var s1 := Step(INITIAL, CallStart);
    var s2 := Step(s1, GO);
    var s3 := Step(s2, GO);
    var s4 := Step(s3, StartReturns);
    var s5 := Step(s4, ChildDies(0));
    var s6 := Step(s5, GO);
    var s7 := Step(s6, GO);
    var s8 := Step(s7, GO);
    StepsThrough(INITIAL, CRASHED, [INITIAL, s1, s2, s3, s4, s5, s6, s7, s8]);
  }

  lemma RestartDuringStop()
    ensures var t := Steps(AFTER_CRASH, [CallStop, SupervisorRuns(0, false), GO]);
            t.caller == Stopping && t.stopped && t.spawned == 2 && !NoneAlive(t)
  {
    var timer := SupervisorRuns(0, false);
    var s1 := Step(AFTER_CRASH, CallStop);
    var s2 := Step(s1, timer);
    var s3 := Step(s2, GO);
    StepsThrough(AFTER_CRASH, [CallStop, timer, GO], [AFTER_CRASH, s1, s2, s3]);
    assert s3.sups[0].child == Alive;
  }

  /** The timer of a back-off can start a child while a Stop is waiting already. */
  lemma StopCanMeetARestart()
    ensures exists events :: Run(events).caller == Stopping && Run(events).stopped && !NoneAlive(Run(events))
                             && Run(events).spawned == 2
  {
    hide Run, Step, Steps, NoneAlive;
    CrashBacksOff();
    RestartDuringStop();
    RunOn(CRASHED, [CallStop, SupervisorRuns(0, false), GO]);
  }

  // ----- what it is there for

  lemma CrashIsNoted(s: State, i: nat)
    requires i < |s.sups| && !s.stopped && s.sups[i] == Supervisor(Waiting, Dead, false, Started)
    ensures var on := SupervisorRuns(i, false);
            Steps(s, [on, on, on]) ==
            s.(exits := s.exits + 1, sups := s.sups[i := Supervisor(BackingOff, NoChild, false, Started)])
  {
    var on := SupervisorRuns(i, false);
    var s1 := Step(s, on);
    var s2 := Step(s1, on);
    var s3 := Step(s2, on);
    assert s1.sups == s.sups[i := Supervisor(Tallying, Dead, false, Started)];
    assert s2.sups == s.sups[i := Supervisor(Deciding(false), NoChild, false, Started)];
    assert s3.sups == s.sups[i := Supervisor(BackingOff, NoChild, false, Started)];
    StepsThrough(s, [on, on, on], [s, s1, s2, s3]);
  }

  lemma BackOffStarts(s: State, i: nat)
    requires i < |s.sups| && s.sups[i] == Supervisor(BackingOff, NoChild, false, Started)
    ensures var on, start := SupervisorRuns(i, false), SupervisorRuns(i, true);
            Steps(s, [on, start, on]) ==
            s.(spawned := s.spawned + 1, sups := s.sups[i := Supervisor(Waiting, Alive, false, Started)])
  {
    var on, start := SupervisorRuns(i, false), SupervisorRuns(i, true);
    var s1 := Step(s, on);
    var s2 := Step(s1, start);
    var s3 := Step(s2, on);
    assert s1.sups == s.sups[i := Supervisor(Spawning(false), NoChild, false, Started)];
    assert s2.sups == s.sups[i := Supervisor(Publishing(false), Alive, false, Started)];
    assert s3.sups == s.sups[i := Supervisor(Waiting, Alive, false, Started)];
    StepsThrough(s, [on, start, on], [s, s1, s2, s3]);
  }

  /** A child that died by itself is counted and, after the back-off, replaced. */
  lemma CrashIsMadeGood(s: State, i: nat)
    requires i < |s.sups| && !s.stopped && s.sups[i] == Supervisor(Waiting, Dead, false, Started)
    ensures var on, start := SupervisorRuns(i, false), SupervisorRuns(i, true);
            Steps(s, [on, on, on, on, start, on]) ==
            s.(exits := s.exits + 1, spawned := s.spawned + 1,
               sups := s.sups[i := Supervisor(Waiting, Alive, false, Started)])
  {
    hide Step, Steps;
    var on, start := SupervisorRuns(i, false), SupervisorRuns(i, true);
    CrashIsNoted(s, i);
    BackOffStarts(Steps(s, [on, on, on]), i);
    StepsJoin(s, [on, on, on], [on, start, on]);
    assert [on, on, on] + [on, start, on] == [on, on, on, on, start, on];
  }

  /** A Start brings a child and says so. */
  lemma StartBrings(s: State)
    requires s.caller == Idle && !s.running
    ensures var start := SupervisorRuns(|s.sups|, true);
            Steps(s, [CallStart, start, start, StartReturns]) ==
            s.(stopped := false, running := true, spawned := s.spawned + 1,
               sups := s.sups + [Supervisor(Waiting, Alive, false, Started)])
  {
    var start := SupervisorRuns(|s.sups|, true);
    var s1 := Step(s, CallStart);
    var s2 := Step(s1, start);
    var s3 := Step(s2, start);
    var s4 := Step(s3, StartReturns);
    assert s1.sups == s.sups + [Supervisor(Spawning(true), NoChild, false, Nothing)];
    assert s2.sups == s.sups + [Supervisor(Publishing(true), Alive, false, Nothing)];
    assert s3.sups == s.sups + [Supervisor(Waiting, Alive, false, Started)];
    StepsThrough(s, [CallStart, start, start, StartReturns], [s, s1, s2, s3, s4]);
  }

  /** One whose child cannot be started leaves nothing running. */
  lemma StartFails(s: State)
    requires s.caller == Idle && !s.running
    ensures Steps(s, [CallStart, SupervisorRuns(|s.sups|, false), StartReturns]) ==
            s.(stopped := false, sups := s.sups + [Supervisor(Closing, NoChild, true, StartFailed)])
  {
    var s1 := Step(s, CallStart);
    var s2 := Step(s1, SupervisorRuns(|s.sups|, false));
    var s3 := Step(s2, StartReturns);
    assert s2.sups == s.sups + [Supervisor(Closing, NoChild, false, StartFailed)];
    StepsThrough(s, [CallStart, SupervisorRuns(|s.sups|, false), StartReturns], [s, s1, s2, s3]);
  }

  lemma TwoSteps(s: State, a: Event, b: Event)
    ensures Steps(s, [a, b]) == Step(Step(s, a), b)
  {
    hide Step;
    StepsThrough(s, [a, b], [s, Step(s, a), Step(Step(s, a), b)]);
  }

  lemma StopSignals(s: State, n: nat)
    requires s.caller == Idle && s.running && n < |s.sups| && s.sups[n] == Supervisor(Waiting, Alive, false, Started)
    ensures Steps(s, [CallStop, ChildDies(n)]) ==
            s.(stopped := true, caller := Stopping, sups := s.sups[n := Supervisor(Waiting, Dead, false, Started)])
  {
    hide Steps;
    TwoSteps(s, CallStop, ChildDies(n));
  }

  lemma DeathIsExpected(s: State, n: nat)
    requires s.stopped && n < |s.sups| && s.sups[n] == Supervisor(Waiting, Dead, false, Started)
    ensures Steps(s, [SupervisorRuns(n, true), SupervisorRuns(n, true)]) ==
            s.(expected := s.expected + 1, sups := s.sups[n := Supervisor(Deciding(true), NoChild, false, Started)])
  {
    hide Steps;
    TwoSteps(s, SupervisorRuns(n, true), SupervisorRuns(n, true));
    assert Step(s, SupervisorRuns(n, true)).sups == s.sups[n := Supervisor(Tallying, Dead, false, Started)];
  }

  lemma SupervisorEnds(s: State, n: nat)
    requires n < |s.sups| && s.sups[n] == Supervisor(Deciding(true), NoChild, false, Started)
    ensures Steps(s, [SupervisorRuns(n, true), SupervisorRuns(n, true)]) ==
            s.(running := false, sups := s.sups[n := Supervisor(Ended, NoChild, false, Started)])
  {
    hide Steps;
    TwoSteps(s, SupervisorRuns(n, true), SupervisorRuns(n, true));
    var closing := s.sups[n := Supervisor(Closing, NoChild, false, Started)];
    assert Step(s, SupervisorRuns(n, true)) == s.(running := false, sups := closing);
    assert closing[n := Supervisor(Ended, NoChild, false, Started)] ==
           s.sups[n := Supervisor(Ended, NoChild, false, Started)];
  }

  lemma StopReturns(s: State, n: nat)
    requires s.caller == Stopping && |s.sups| == n + 1 && s.sups[n] == Supervisor(Ended, NoChild, false, Started)
    ensures Steps(s, [StopProceeds(false), StopProceeds(false)]) ==
            s.(running := false, caller := Idle, sups := s.sups[n := Supervisor(Ended, NoChild, true, Started)])
  {
    hide Steps;
    TwoSteps(s, StopProceeds(false), StopProceeds(false));
    assert Step(s, StopProceeds(false)) == s.(caller := Returning(true));
  }

  /** A Stop that is obeyed returns when the supervisor has ended, and that death is no failure. */
  lemma StopEnds(s: State, n: nat)
    requires s.caller == Idle && s.running && |s.sups| == n + 1
    requires s.sups[n] == Supervisor(Waiting, Alive, false, Started)
    ensures var on := SupervisorRuns(n, true);
            Steps(s, [CallStop, ChildDies(n), on, on, on, on, StopProceeds(false), StopProceeds(false)]) ==
            s.(running := false, stopped := true, expected := s.expected + 1,
               sups := s.sups[n := Supervisor(Ended, NoChild, true, Started)])
  {
    hide Step, Steps;
    var on := SupervisorRuns(n, true);
    var first, last := [CallStop, ChildDies(n)], [StopProceeds(false), StopProceeds(false)];
    StopSignals(s, n);
    var s1 := Steps(s, first);
    DeathIsExpected(s1, n);
    var s2 := Steps(s1, [on, on]);
    SupervisorEnds(s2, n);
    StopReturns(Steps(s2, [on, on]), n);
    StepsJoin(s, first, [on, on]);
    StepsJoin(s, first + [on, on], [on, on]);
    StepsJoin(s, first + [on, on] + [on, on], last);
    assert first + [on, on] + [on, on] + last ==
           [CallStop, ChildDies(n), on, on, on, on, StopProceeds(false), StopProceeds(false)];
  }

  /** How far a cancelled supervisor is from its end. */
  function Distance(p: Supervisor): nat {
    match p.place
    case Ended => 0
    case Closing => 1
    case Spawning(_) => 2
    case BackingOff => 3
    case Deciding(_) => 4
    case Tallying => 5
    case Waiting => 6
    case Publishing(_) => 7
  }

  /** Once cancelled, a supervisor starts nothing more, and each of its steps brings it closer
      to its end; it has one to take unless its child is still alive. */
  lemma CancelledComesToAnEnd(s: State, i: nat, good: bool)
    requires i < |s.sups| && s.sups[i].cancelled && Fits(s)
    ensures Enabled(s, SupervisorRuns(i, good)) ==>
              var t := Step(s, SupervisorRuns(i, good));
              t.spawned == s.spawned && t.sups[i].cancelled && Distance(t.sups[i]) < Distance(s.sups[i])
    ensures s.sups[i].place.Ended? || s.sups[i].child == Alive || Enabled(s, SupervisorRuns(i, false))
  {
    assert ChildFits(s.sups[i]);
  }

  // ----- counting deaths

  /** Children whose death has not been noted yet. */
  function Pending(sups: seq<Supervisor>): nat {
    if sups == [] then 0
    else Pending(sups[..|sups| - 1]) + if sups[|sups| - 1].child == NoChild then 0 else 1
  }

  lemma {:induction false} PendingUpdate(sups: seq<Supervisor>, i: nat, p: Supervisor)
    requires i < |sups|
    ensures Pending(sups[i := p]) + (if sups[i].child == NoChild then 0 else 1)
            == Pending(sups) + (if p.child == NoChild then 0 else 1)
  {
    var changed := sups[i := p];
    if i < |sups| - 1 {
      assert changed[..|sups| - 1] == sups[..|sups| - 1][i := p];
      PendingUpdate(sups[..|sups| - 1], i, p);
    } else {
      assert changed[..|sups| - 1] == sups[..|sups| - 1];
    }
  }

  lemma PendingAppended(sups: seq<Supervisor>, p: Supervisor)
    ensures Pending(sups + [p]) == Pending(sups) + if p.child == NoChild then 0 else 1
  {
    assert (sups + [p])[..|sups|] == sups;
  }

  ghost predicate Accounted(s: State) {
    s.spawned == s.exits + s.expected + Pending(s.sups)
  }

  lemma SuperviseAccounts(s: State, i: nat, good: bool)
    requires Enabled(s, SupervisorRuns(i, good)) && ChildFits(s.sups[i]) && Accounted(s)
    ensures Accounted(Supervise(s, i, good))
  {
    hide Pending;
    var t := Supervise(s, i, good);
    SupervisedAlone(s, i, good);
    PendingUpdate(s.sups, i, t.sups[i]);
  }

  lemma StepAccounts(s: State, e: Event)
    requires Fits(s) && Accounted(s)
    ensures Accounted(Step(s, e))
  {
    hide Pending, Supervise, Fits;
    if Enabled(s, e) {
      match e
      case CallStart => PendingAppended(s.sups, Supervisor(Spawning(true), NoChild, false, Nothing));
      case SupervisorRuns(i, good) =>
        FitsEach(s, i);
        SuperviseAccounts(s, i, good);
      case ChildDies(i) => PendingUpdate(s.sups, i, s.sups[i].(child := Dead));
      case StartReturns => PendingUpdate(s.sups, |s.sups| - 1, Last(s).(cancelled := true));
      case StopProceeds(_) => PendingUpdate(s.sups, |s.sups| - 1, Last(s).(cancelled := true));
      case CallStop =>
    }
  }

  lemma {:induction false} StepsAccount(s: State, more: seq<Event>)
    requires Fits(s) && Accounted(s)
    ensures Accounted(Steps(s, more))
  {
    if more != [] {
      hide Fits, Step, Accounted;
      var init := more[..|more| - 1];
      StepsAccount(s, init);
      StepsKeepFits(s, init);
      StepAccounts(Steps(s, init), more[|more| - 1]);
    }
  }

  lemma NothingToAccount()
    ensures Fits(INITIAL) && Accounted(INITIAL)
  {
  }

  /** Every child ever started is accounted for: it has not been seen to end, or its death was
      counted as a failure, or it came while stopping. */
  lemma DeathsAreCountedOnce(events: seq<Event>)
    ensures Accounted(Run(events))
  {
    hide Step, Steps, Accounted, Fits;
    NothingToAccount();
    StepsAccount(INITIAL, events);
  }

  lemma StoppedCountsNothing(s: State, e: Event)
    requires s.stopped && e != CallStart
    ensures Step(s, e).stopped && Step(s, e).exits == s.exits
  {
  }

  lemma {:induction false} StoppedStays(s: State, more: seq<Event>)
    requires s.stopped && CallStart !in more
    ensures Steps(s, more).exits == s.exits && Steps(s, more).stopped
  {
    if more != [] {
      hide Step;
      StoppedStays(s, more[..|more| - 1]);
      StoppedCountsNothing(Steps(s, more[..|more| - 1]), more[|more| - 1]);
    }
  }

  /** From a Stop until the next Start no death counts as a failure. */
  lemma StoppingIsNoFailure(events: seq<Event>, more: seq<Event>)
    requires Run(events).stopped && CallStart !in more
    ensures Run(events + more).exits == Run(events).exits && Run(events + more).stopped
  {
    hide Step, Run;
    RunOn(events, more);
    StoppedStays(Run(events), more);
  }

  // ----- deaths that were asked for

  /** A step that counts the death of a child as a failure that a Stop asked for. */
  predicate Miscounts(s: State, e: Event) {
    && e.SupervisorRuns? && Enabled(s, e) && s.sups[e.i].place.Tallying? && s.sups[e.i].cancelled
    && Step(s, e).exits > s.exits
  }

  ghost predicate CanMiscount(s: State) {
    exists more, e :: Patient(s, more) && Miscounts(Steps(s, more), e)
  }

  /** A supervisor that a Stop cancelled and whose child's death it has not taken note of. */
  predicate Overdue(p: Supervisor) {
    p.cancelled && p.child != NoChild
  }

  /** A cancelled supervisor has a child to take note of only while a Stop waits for it. */
  ghost predicate OnTime(s: State) {
    && (forall i :: 0 <= i < |s.sups| && Overdue(s.sups[i]) ==> s.caller == Killing && i == |s.sups| - 1)
    && (s.caller.Stopping? || s.caller.Killing? || s.caller.Returning? ==> s.stopped && s.sups != [])
    && (s.caller.Returning? ==> s.caller.byDone && Last(s).place.Ended?)
    && (s.caller.Starting? ==> s.sups != [])
  }

  lemma OverdueStays(s: State, i: nat, good: bool)
    requires Enabled(s, SupervisorRuns(i, good)) && ChildFits(s.sups[i])
    ensures var t := Supervise(s, i, good);
            (&& |t.sups| == |s.sups| && (forall k :: 0 <= k < |s.sups| && k != i ==> t.sups[k] == s.sups[k])
             && (Overdue(t.sups[i]) ==> Overdue(s.sups[i])) && t.caller == s.caller && t.stopped == s.stopped
             && (s.sups[i].place.Tallying? ==> s.sups[i].child == Dead))
    ensures s.stopped ==> Supervise(s, i, good).exits == s.exits
  {
  }

  lemma SuperviseIsOnTime(s: State, i: nat, good: bool)
    requires Fits(s) && OnTime(s) && Enabled(s, SupervisorRuns(i, good))
    ensures OnTime(Supervise(s, i, good)) && !Miscounts(s, SupervisorRuns(i, good))
  {
    hide Fits, Supervise, Overdue;
    FitsEach(s, i);
    OverdueStays(s, i, good);
    OverdueMeans(s.sups[i]);
  }

  lemma OverdueMeans(p: Supervisor)
    ensures Overdue(p) <==> p.cancelled && p.child != NoChild
  {
  }

  lemma StepIsOnTime(s: State, e: Event)
    requires Fits(s) && OnTime(s) && Step(s, e).gaveUp == s.gaveUp && (s.caller == Idle && s.running ==> s.sups != [])
    ensures OnTime(Step(s, e)) && !Miscounts(s, e)
  {
    hide Fits, Supervise;
    if Enabled(s, e) {
      match e
      case StartReturns => FailedIsQuiet(s, |s.sups| - 1);
      case StopProceeds(_) => FailedIsQuiet(s, |s.sups| - 1);
      case SupervisorRuns(i, good) => SuperviseIsOnTime(s, i, good);
      case _ =>
    }
  }

  lemma RunningIsSomething(s: State, e: Event)
    requires s.running ==> s.sups != []
    ensures Step(s, e).running ==> Step(s, e).sups != []
  {
  }

  lemma {:induction false} StepsAreOnTime(s: State, more: seq<Event>)
    requires Fits(s) && OnTime(s) && Patient(s, more) && (s.running ==> s.sups != [])
    ensures var t := Steps(s, more); Fits(t) && OnTime(t) && (t.running ==> t.sups != [])
  {
    hide Fits, OnTime, Step;
    if more != [] {
      var init, e := more[..|more| - 1], more[|more| - 1];
      StepsKeepFits(s, init);
      GaveUpGrows(Steps(s, init), e);
      StepsAreOnTime(s, init);
      StepKeepsFits(Steps(s, init), e);
      RunningIsSomething(Steps(s, init), e);
      StepIsOnTime(Steps(s, init), e);
    }
  }

  lemma StepThenMiscount(s: State, e: Event)
    requires Step(s, e).gaveUp == s.gaveUp && CanMiscount(Step(s, e))
    ensures CanMiscount(s)
  {
    hide Step, Miscounts;
    var more, f :| Patient(Step(s, e), more) && Miscounts(Steps(Step(s, e), more), f);
    OneMore(s, [], e);
    StepsJoin(s, [e], more);
    assert [] + [e] == [e];
    assert Patient(s, [e] + more);
  }

  /** The way of an overdue supervisor to its tally, once a Start has made the process count. */
  lemma {:induction false} OverdueMiscounts(s: State, i: nat)
    requires i < |s.sups| && Overdue(s.sups[i]) && ChildFits(s.sups[i]) && !s.stopped
    ensures CanMiscount(s)
    decreases Distance(s.sups[i]), if s.sups[i].child == Alive then 1 else 0
  {
    var p := s.sups[i];
    if p.place.Tallying? {
      assert Steps(s, []) == s && Patient(s, []);
      assert Miscounts(s, SupervisorRuns(i, true));
    } else {
      hide CanMiscount;
      var e := if p.child == Alive then ChildDies(i) else SupervisorRuns(i, true);
      OverdueMiscounts(Step(s, e), i);
      StepThenMiscount(s, e);
    }
  }

  /** Once nothing is running, a death that a Stop asked for can be counted as a failure, without
      another Stop giving up, if and only if a cancelled supervisor has not taken note of its
      child's death. */
  lemma MiscountExactlyWhen(events: seq<Event>)
    requires Run(events).caller == Idle && !Run(events).running
    ensures CanMiscount(Run(events)) <==> exists i :: 0 <= i < |Run(events).sups| && Overdue(Run(events).sups[i])
  {
    hide Run, Step, Steps, Patient;
    var s := Run(events);
    RunKeepsInv(events);
    if i :| 0 <= i < |s.sups| && Overdue(s.sups[i]) {
      StartCounts(s, i);
      OverdueMiscounts(Step(s, CallStart), i);
      StepThenMiscount(s, CallStart);
    } else if CanMiscount(s) {
      var more, e :| Patient(s, more) && Miscounts(Steps(s, more), e);
      StepsAreOnTime(s, more);
      CountingGivesUpNothing(Steps(s, more), e);
      StepIsOnTime(Steps(s, more), e);
      assert false;
    }
  }

  lemma StartCounts(s: State, i: nat)
    requires Fits(s) && s.caller == Idle && !s.running && i < |s.sups|
    ensures var t := Step(s, CallStart);
            i < |t.sups| && t.sups[i] == s.sups[i] && !t.stopped && t.gaveUp == s.gaveUp && ChildFits(t.sups[i])
  {
  }

  lemma CountingGivesUpNothing(s: State, e: Event)
    requires Miscounts(s, e)
    ensures Step(s, e).gaveUp == s.gaveUp
  {
  }
}
