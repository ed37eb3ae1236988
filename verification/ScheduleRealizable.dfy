// Plans that can be carried out: workers that follow a plan whose steps fit its
// declarations carry it through to a passed report.
module ScheduleRealizable {
  import opened Schedule
  import opened ScheduleInvariant
  import opened ScheduleSafety
  import opened ScheduleReach

  // ------------------------------------------------------------- runnable plans

  // The step moves a declared actor that has not completed to a place where it can arrive.
  predicate StepRuns(plan: Plan, k: nat)
    requires k < |plan.steps|
  {
    && Declares(plan, plan.steps[k].actor)
    && (plan.steps[k].checkpoint == COMPLETION
        || (plan.steps[k].checkpoint in plan.checkpoints && Identifier(plan.steps[k].checkpoint)))
    && (forall j :: 0 <= j < k && plan.steps[j].checkpoint == COMPLETION ==> plan.steps[j].actor != plan.steps[k].actor)
  }

  // All that the steps have to satisfy for the plan to be carried out.
  predicate Runnable(plan: Plan) {
    forall k :: 0 <= k < |plan.steps| ==> StepRuns(plan, k)
  }

  lemma {:induction false} AdmissibleRuns(plan: Plan)
    requires Admissible(plan)
    ensures Runnable(plan)
  {
    hide DistinctDeclarations;
    forall k | 0 <= k < |plan.steps| ensures StepRuns(plan, k) {
      if plan.steps[k].checkpoint != COMPLETION { CheckpointsAreIdentifiers(plan, k); }
    }
  }

  lemma {:induction false} CheckpointsAreIdentifiers(plan: Plan, k: nat)
    requires Admissible(plan) && k < |plan.steps| && plan.steps[k].checkpoint != COMPLETION
    ensures plan.steps[k].checkpoint in plan.checkpoints && Identifier(plan.steps[k].checkpoint)
  {
    hide DistinctDeclarations, IdentifierChar;
    var m :| 0 <= m < |plan.checkpoints| && plan.checkpoints[m] == plan.steps[k].checkpoint;
  }

  // An actor that is still to move has not completed.
  lemma {:induction false} NotYetDone(plan: Plan, k: nat)
    requires k < |plan.steps| && StepRuns(plan, k)
    ensures Before(plan, k, plan.steps[k].actor) != COMPLETION
  {
    BeforeIsLast(plan, k, plan.steps[k].actor);
  }

  // The declaration that the name finds; another one of that name is never moved.
  predicate Own(plan: Plan, i: nat)
    requires i < |plan.actors|
  {
    Position(plan.actors, plan.actors[i].actor) == i
  }

  // Where an actor that keeps to the plan rests after k steps.
  function Resting(plan: Plan, k: nat, i: nat): Actor
    requires i < |plan.actors| && k <= |plan.steps|
  {
    var c := if Own(plan, i) then Before(plan, k, plan.actors[i].actor) else START;
    if c == COMPLETION then Actor(Finished, c, Dead, true)
    else Actor(Parked, c, if c == START then Gate else Held, false)
  }

  // The world after k steps of a plan that everybody has kept to.
  function Calm(plan: Plan, k: nat, c: Control): World
    requires k <= |plan.steps|
  {
    World(plan, seq(|plan.actors|, i requires 0 <= i < |plan.actors| => Resting(plan, k, i)),
          false, Completed, false, NotStarted, [], 0,
          PlannedLog(plan, k), seq(k + 1, j requires 0 <= j => Observation(j, "")), 0,
          false, false, c, k, false, true, 0)
  }

  // ------------------------------------------------------------- one interval

  // Step k is under way: actor i has moved, everybody else rests.
  function Midway(plan: Plan, k: nat, i: nat, a: Actor, events: seq<Event>, c: Control): World
    requires k <= |plan.steps| && i < |plan.actors|
  {
    SetActor(Calm(plan, k, c), i, a).(events := events)
  }

  function Permitted(plan: Plan, k: nat): seq<Event>
    requires k < |plan.steps|
  {
    PlannedLog(plan, k) + [PermitRow(plan, k)]
  }

  lemma {:induction false} MoveWithin(reached: World -> bool, plan: Plan, k: nat, i: nat, a: Actor, l: Label, b: Actor)
    requires Closed(reached) && k < |plan.steps| && i < |plan.actors| && IsWorkerLabel(l) && l.w == i
    requires var v := Midway(plan, k, i, a, Permitted(plan, k), AwaitArrival(i));
             reached(v) && WorkerStep(v, l) == SetActor(v, i, b)
    ensures reached(Midway(plan, k, i, b, Permitted(plan, k), AwaitArrival(i)))
  {
    var v := Midway(plan, k, i, a, Permitted(plan, k), AwaitArrival(i));
    assert SetActor(v, i, b) == Midway(plan, k, i, b, Permitted(plan, k), AwaitArrival(i)) by {
      assert SetActor(v, i, b).actors == Calm(plan, k, AwaitArrival(i)).actors[i := b];
    }
    ThenWorker(reached, v, l, Midway(plan, k, i, b, Permitted(plan, k), AwaitArrival(i)));
  }

  lemma {:induction false} Enter(reached: World -> bool, plan: Plan, k: nat, i: nat)
    requires Closed(reached) && k < |plan.steps| && i < |plan.actors| && i == Position(plan.actors, plan.steps[k].actor)
    requires Before(plan, k, plan.steps[k].actor) != COMPLETION && reached(Calm(plan, k, Idle))
    ensures reached(Midway(plan, k, i, Resting(plan, k, i).(phase := Running), Permitted(plan, k), AwaitArrival(i)))
  {
    var v := Calm(plan, k, Idle);
    ThenCall(reached, v, Grant(plan.steps[k], 0),
             Midway(plan, k, i, Resting(plan, k, i).(phase := Running), Permitted(plan, k), AwaitArrival(i)));
  }

  lemma {:induction false} Land(reached: World -> bool, plan: Plan, k: nat, i: nat, a: Actor)
    requires Closed(reached) && k < |plan.steps| && i < |plan.actors| && i == Position(plan.actors, plan.steps[k].actor)
    requires a.checkpoint == plan.steps[k].checkpoint && !a.phase.Running?
    requires a.phase.Finished? <==> a.checkpoint == COMPLETION
    requires reached(Midway(plan, k, i, a, Permitted(plan, k), AwaitArrival(i)))
    ensures reached(Midway(plan, k, i, a, PlannedLog(plan, k + 1), if a.phase.Finished? then Joining(i) else Checking))
  {
    var v := Midway(plan, k, i, a, Permitted(plan, k), AwaitArrival(i));
    var v1 := v.(control := Arrived(i));
    ThenOpening(reached, v, Poll, v1);
    RecordPlanned(plan, k, i, v1);
    ThenInterval(reached, v1, Record(0),
                 Midway(plan, k, i, a, PlannedLog(plan, k + 1), if a.phase.Finished? then Joining(i) else Checking));
  }

  // Recording a planned arrival adds the arrival row.
  lemma {:induction false} RecordPlanned(plan: Plan, k: nat, i: nat, w: World)
    requires k < |plan.steps| && i < |plan.actors| && i == Position(plan.actors, plan.steps[k].actor)
    requires w.plan == plan && |w.actors| == |plan.actors| && w.next == k && w.control == Arrived(i)
    requires w.events == Permitted(plan, k) && w.evidence == 0 && !w.stopping
    requires w.actors[i].checkpoint == plan.steps[k].checkpoint
    requires w.actors[i].phase.Finished? <==> w.actors[i].checkpoint == COMPLETION
    ensures RecordStep(w, i, 0) == w.(events := PlannedLog(plan, k + 1),
                                      control := if w.actors[i].phase.Finished? then Joining(i) else Checking)
  {
    var permit, arrival := PermitRow(plan, k), ArrivalRow(plan, k);
    assert (PlannedLog(plan, k) + [permit]) + [arrival] == PlannedLog(plan, k) + [permit, arrival];
  }

  lemma {:induction false} ArriveAtCheckpoint(reached: World -> bool, plan: Plan, k: nat, i: nat)
    requires Closed(reached) && k < |plan.steps| && i < |plan.actors| && i == Position(plan.actors, plan.steps[k].actor)
    requires var c := plan.steps[k].checkpoint; c in plan.checkpoints && Identifier(c)
    requires Before(plan, k, plan.steps[k].actor) != COMPLETION
    requires reached(Midway(plan, k, i, Resting(plan, k, i).(phase := Running, place := App), Permitted(plan, k), AwaitArrival(i)))
    ensures reached(Midway(plan, k, i, Resting(plan, k + 1, i), PlannedLog(plan, k + 1), Checking))
  {
    var c := plan.steps[k].checkpoint;
    IdentifiersAreNotReserved(c);
    var a, b := Actor(Running, Before(plan, k, plan.steps[k].actor), App, false), Actor(Parked, c, Held, false);
    ParkAt(plan, k, i, a, c);
    MoveWithin(reached, plan, k, i, a, Arrive(i, c), b);
    Land(reached, plan, k, i, b);
  }

  lemma {:induction false} ParkAt(plan: Plan, k: nat, i: nat, a: Actor, c: string)
    requires k < |plan.steps| && i < |plan.actors| && c in plan.checkpoints && Identifier(c)
    requires a.phase.Running? && a.place.App? && !a.joined
    ensures var v := Midway(plan, k, i, a, Permitted(plan, k), AwaitArrival(i));
            WorkerStep(v, Arrive(i, c)) == SetActor(v, i, Actor(Parked, c, Held, false))
  {
  }

  lemma {:induction false} ArriveAtCompletion(reached: World -> bool, plan: Plan, k: nat, i: nat)
    requires Closed(reached) && k < |plan.steps| && i < |plan.actors| && i == Position(plan.actors, plan.steps[k].actor)
    requires plan.steps[k].checkpoint == COMPLETION && Before(plan, k, plan.steps[k].actor) != COMPLETION
    requires reached(Midway(plan, k, i, Resting(plan, k, i).(phase := Running, place := App), Permitted(plan, k), AwaitArrival(i)))
    ensures reached(Midway(plan, k, i, Resting(plan, k + 1, i), PlannedLog(plan, k + 1), Checking))
  {
    var a := Resting(plan, k, i).(phase := Running, place := App);
    MoveWithin(reached, plan, k, i, a, Return(i, false), a.(place := Leaving(false)));
    MoveWithin(reached, plan, k, i, a.(place := Leaving(false)), Exit(i), Actor(Finished, COMPLETION, Exited, false));
    var d := Actor(Finished, COMPLETION, Dead, false);
    MoveWithin(reached, plan, k, i, Actor(Finished, COMPLETION, Exited, false), Die(i), d);
    Land(reached, plan, k, i, d);
    JoinFinished(reached, plan, k, i);
  }

  lemma {:induction false} JoinFinished(reached: World -> bool, plan: Plan, k: nat, i: nat)
    requires Closed(reached) && k < |plan.steps| && i < |plan.actors|
    requires var d := Actor(Finished, COMPLETION, Dead, false);
             reached(Midway(plan, k, i, d, PlannedLog(plan, k + 1), Joining(i)))
    ensures reached(Midway(plan, k, i, Actor(Finished, COMPLETION, Dead, true), PlannedLog(plan, k + 1), Checking))
  {
    var d := Actor(Finished, COMPLETION, Dead, false);
    var v := Midway(plan, k, i, d, PlannedLog(plan, k + 1), Joining(i));
    assert v.actors[i := d.(joined := true)] == Calm(plan, k, Checking).actors[i := d.(joined := true)];
    ThenInterval(reached, v, Join(true),
                 Midway(plan, k, i, d.(joined := true), PlannedLog(plan, k + 1), Checking));
  }

  // Check, observe and settle lead to the calm world one step further.
  lemma {:induction false} CloseInterval(reached: World -> bool, plan: Plan, k: nat, i: nat)
    requires Closed(reached) && k < |plan.steps| && i < |plan.actors|
    requires forall j :: 0 <= j < |plan.actors| && j != i ==> Resting(plan, k + 1, j) == Resting(plan, k, j)
    requires reached(Midway(plan, k, i, Resting(plan, k + 1, i), PlannedLog(plan, k + 1), Checking))
    ensures reached(Calm(plan, k + 1, Turn(plan, k + 1)))
  {
    var v := Midway(plan, k, i, Resting(plan, k + 1, i), PlannedLog(plan, k + 1), Checking);
    CheckCalm(reached, plan, k, v);
    ObserveCalm(reached, plan, k + 1);
  }

  lemma {:induction false} CheckCalm(reached: World -> bool, plan: Plan, k: nat, v: World)
    requires Closed(reached) && k < |plan.steps| && reached(v)
    requires v == Calm(plan, k, Checking).(actors := v.actors, events := PlannedLog(plan, k + 1))
    requires |v.actors| == |plan.actors|
    requires forall j :: 0 <= j < |plan.actors| ==> v.actors[j] == Resting(plan, k + 1, j)
    ensures reached(Calm(plan, k + 1, Observing).(observations := seq(k + 1, j requires 0 <= j => Observation(j, ""))))
  {
    var v1 := v.(next := k + 1, control := Observing);
    ThenInterval(reached, v, Check, v1);
    assert v1.actors == Calm(plan, k + 1, Observing).actors;
    assert v1.observations == seq(k + 1, j requires 0 <= j => Observation(j, ""));
  }

  function Turn(plan: Plan, k: nat): Control {
    if k == |plan.steps| then Completing else Idle
  }

  lemma {:induction false} ObserveCalm(reached: World -> bool, plan: Plan, k: nat)
    requires Closed(reached) && k <= |plan.steps|
    requires reached(Calm(plan, k, Observing).(observations := seq(k, j requires 0 <= j => Observation(j, ""))))
    ensures reached(Calm(plan, k, Turn(plan, k)))
  {
    var v := Calm(plan, k, Observing).(observations := seq(k, j requires 0 <= j => Observation(j, "")));
    var v1 := Calm(plan, k, Settling);
    assert v.observations + [Observation(k, "")] == v1.observations;
    CalmIsQuiescent(plan, k, Observing);
    ThenInterval(reached, v, Observe(Observed("", true)), v1);
    SettleCalm(reached, plan, k);
  }

  lemma {:induction false} CalmIsQuiescent(plan: Plan, k: nat, c: Control)
    requires k <= |plan.steps|
    ensures var w := Calm(plan, k, c);
            !exists i :: 0 <= i < |w.actors| && (w.actors[i].phase.Running? || w.actors[i].phase.Starting?)
  {
  }

  lemma {:induction false} SettleCalm(reached: World -> bool, plan: Plan, k: nat)
    requires Closed(reached) && k <= |plan.steps| && reached(Calm(plan, k, Settling))
    ensures reached(Calm(plan, k, Turn(plan, k)))
  {
    ThenInterval(reached, Calm(plan, k, Settling), Settle, Calm(plan, k, Turn(plan, k)));
  }

  lemma {:induction false} OthersRest(plan: Plan, k: nat, i: nat)
    requires k < |plan.steps| && i == Position(plan.actors, plan.steps[k].actor) && i < |plan.actors|
    ensures forall j :: 0 <= j < |plan.actors| && j != i ==> Resting(plan, k + 1, j) == Resting(plan, k, j)
  {
    forall j | 0 <= j < |plan.actors| && j != i ensures Resting(plan, k + 1, j) == Resting(plan, k, j) {
      if Own(plan, j) { assert plan.actors[j].actor != plan.steps[k].actor; }
    }
  }

  lemma {:induction false} IntervalReaches(reached: World -> bool, plan: Plan, k: nat)
    requires Closed(reached) && Runnable(plan) && k < |plan.steps| && reached(Calm(plan, k, Idle))
    ensures reached(Calm(plan, k + 1, Turn(plan, k + 1)))
  {
    var i := Position(plan.actors, plan.steps[k].actor);
    assert StepRuns(plan, k);
    DeclaredHasPosition(plan, plan.steps[k].actor);
    NotYetDone(plan, k);
    Enter(reached, plan, k, i);
    var a := Resting(plan, k, i).(phase := Running);
    MoveWithin(reached, plan, k, i, a, Wake(i), a.(place := App));
    if plan.steps[k].checkpoint == COMPLETION { ArriveAtCompletion(reached, plan, k, i); }
    else { ArriveAtCheckpoint(reached, plan, k, i); }
    OthersRest(plan, k, i);
    CloseInterval(reached, plan, k, i);
  }

  // ------------------------------------------------------------- start-up

  function Launching(plan: Plan, spawned: nat, begun: nat, c: Control): World {
    Initial(plan, Opened).(
      control := c,
      actors := seq(|plan.actors|, i requires 0 <= i < |plan.actors| =>
                      if i < begun then Actor(Parked, START, Gate, false)
                      else Actor(Starting, START, if i < spawned then Fresh else Unspawned, false)))
  }

  lemma {:induction false} SpawnAll(reached: World -> bool, plan: Plan, k: nat)
    requires Closed(reached) && reached(Initial(plan, Opened)) && k <= |plan.actors|
    ensures reached(Launching(plan, k, 0, Spawning(k)))
  {
    if k == 0 {
      assert Initial(plan, Opened) == Launching(plan, 0, 0, Spawning(0));
    } else {
      SpawnAll(reached, plan, k - 1);
      ThenOpening(reached, Launching(plan, k - 1, 0, Spawning(k - 1)), Spawn(true), Launching(plan, k, 0, Spawning(k)));
    }
  }

  lemma {:induction false} BeginAll(reached: World -> bool, plan: Plan, k: nat)
    requires Closed(reached) && reached(Initial(plan, Opened)) && k <= |plan.actors|
    ensures reached(Launching(plan, |plan.actors|, k, AwaitStart))
  {
    var n := |plan.actors|;
    if k == 0 {
      SpawnAll(reached, plan, n);
      ThenOpening(reached, Launching(plan, n, 0, Spawning(n)), Spawn(true), Launching(plan, n, 0, AwaitStart));
    } else {
      BeginAll(reached, plan, k - 1);
      ThenWorker(reached, Launching(plan, n, k - 1, AwaitStart), Begin(k - 1), Launching(plan, n, k, AwaitStart));
    }
  }

  lemma {:induction false} StartReaches(reached: World -> bool, plan: Plan)
    requires Closed(reached) && reached(Initial(plan, Opened))
    ensures reached(Calm(plan, 0, Turn(plan, 0)))
  {
    var n := |plan.actors|;
    BeginAll(reached, plan, n);
    var v := Launching(plan, n, n, AwaitStart);
    var v1 := v.(control := Observing);
    ThenOpening(reached, v, Poll, v1);
    assert v1 == Calm(plan, 0, Observing).(observations := []) by {
      assert v1.actors == Calm(plan, 0, Observing).actors;
    }
    assert [] == seq(0, j requires 0 <= j => Observation(j, ""));
    ObserveCalm(reached, plan, 0);
  }

  // ------------------------------------------------------------- the whole plan



  lemma {:induction false} PlanReaches(reached: World -> bool, plan: Plan, k: nat)
    requires Closed(reached) && reached(Initial(plan, Opened)) && Runnable(plan) && k <= |plan.steps|
    ensures reached(Calm(plan, k, Turn(plan, k)))
  {
    hide Closed, Runnable, Calm, Initial;
    if k == 0 {
      StartReaches(reached, plan);
    } else {
      PlanReaches(reached, plan, k - 1);
      IntervalReaches(reached, plan, k - 1);
    }
  }

  // ------------------------------------------------------------- the end

  // All steps are made and the execution is being cleaned up; the first m threads are joined.
  function Ending(plan: Plan, m: nat): (w: World)
    ensures w.plan == plan && |w.actors| == |plan.actors|
  {
    Calm(plan, |plan.steps|, Cleaning).(
      scheduleCompleted := true, stopping := true,
      actors := seq(|plan.actors|, i requires 0 <= i < |plan.actors| =>
                      if i < m then Actor(Finished, COMPLETION, Dead, true) else Resting(plan, |plan.steps|, i)))
  }

  lemma {:induction false} EndingMove(reached: World -> bool, plan: Plan, m: nat, a: Actor, l: Label, b: Actor)
    requires Closed(reached) && m < |plan.actors| && IsWorkerLabel(l) && l.w == m
    requires var v := SetActor(Ending(plan, m), m, a); reached(v) && WorkerStep(v, l) == SetActor(v, m, b)
    ensures reached(SetActor(Ending(plan, m), m, b))
  {
    hide Ending, WorkerStep, Closed;
    var v := SetActor(Ending(plan, m), m, a);
    EndingForm(plan, m);
    ReplaceTwice(Ending(plan, m), m, a, b);
    ThenWorker(reached, v, l, SetActor(Ending(plan, m), m, b));
  }

  lemma {:induction false} ReplaceTwice(w: World, m: nat, a: Actor, b: Actor)
    requires m < |w.actors|
    ensures SetActor(SetActor(w, m, a), m, b) == SetActor(w, m, b)
  {
    assert w.actors[m := a][m := b] == w.actors[m := b];
  }

  lemma {:induction false} EndingForm(plan: Plan, m: nat)
    ensures var w := Ending(plan, m);
            && |w.actors| == |w.plan.actors| == |plan.actors| && w.control == Cleaning && w.stopping
            && (m < |plan.actors| ==> w.actors[m] == Resting(plan, |plan.steps|, m))
  {
    hide Resting, PlannedLog;
  }

  // A thread that is on its way out leaves, and is joined.
  lemma {:induction false} LeaveAndJoin(reached: World -> bool, plan: Plan, m: nat, a: Actor)
    requires Closed(reached) && m < |plan.actors| && a.place.Leaving? && !a.joined
    requires reached(SetActor(Ending(plan, m), m, a))
    ensures reached(Ending(plan, m + 1))
  {
    hide Closed, Ending, Resting, Calm;
    EndingForm(plan, m);
    var b := a.(phase := Finished, checkpoint := COMPLETION, place := Exited);
    EndingMove(reached, plan, m, a, Exit(m), b);
    EndingMove(reached, plan, m, b, Die(m), b.(place := Dead));
    EndingReap(reached, plan, m);
  }

  lemma {:induction false} EndingReap(reached: World -> bool, plan: Plan, m: nat)
    requires Closed(reached) && m < |plan.actors|
    requires reached(SetActor(Ending(plan, m), m, Actor(Finished, COMPLETION, Dead, false)))
    ensures reached(Ending(plan, m + 1))
  {
    hide Closed, Resting, PlannedLog;
    var d := Actor(Finished, COMPLETION, Dead, false);
    var v := SetActor(Ending(plan, m), m, d);
    var e := SetActor(v, m, d.(joined := true));
    assert e == Ending(plan, m + 1) by { assert e.actors == Ending(plan, m + 1).actors; }
    ThenCleanup(reached, v, Reap(m), e);
  }

  // Whatever the next thread is doing, it can be joined.
  lemma {:induction false} EndingStep(reached: World -> bool, plan: Plan, m: nat)
    requires Closed(reached) && m < |plan.actors| && reached(Ending(plan, m))
    ensures reached(Ending(plan, m + 1))
  {
    hide Closed, Calm, Ending;
    EndingForm(plan, m);
    var a := Resting(plan, |plan.steps|, m);
    Unreplaced(Ending(plan, m), m);
    if a.place.Dead? {
      NoChange(plan, m);
    } else if a.place.Gate? {
      EndingMove(reached, plan, m, a, Wake(m), a.(place := Leaving(false)));
      LeaveAndJoin(reached, plan, m, a.(place := Leaving(false)));
    } else {
      EndingMove(reached, plan, m, a, Wake(m), a.(place := App));
      EndingMove(reached, plan, m, a.(place := App), Return(m, false), a.(place := Leaving(false)));
      LeaveAndJoin(reached, plan, m, a.(place := Leaving(false)));
    }
  }

  lemma {:induction false} Unreplaced(w: World, m: nat)
    requires m < |w.actors|
    ensures SetActor(w, m, w.actors[m]) == w
  {
    assert w.actors[m := w.actors[m]] == w.actors;
  }

  lemma {:induction false} NoChange(plan: Plan, m: nat)
    requires m < |plan.actors| && Resting(plan, |plan.steps|, m).place.Dead?
    ensures Ending(plan, m + 1) == Ending(plan, m)
  {
    assert Ending(plan, m + 1).actors == Ending(plan, m).actors;
  }

  lemma {:induction false} EndingReaches(reached: World -> bool, plan: Plan, m: nat)
    requires Closed(reached) && m <= |plan.actors| && reached(Calm(plan, |plan.steps|, Completing))
    ensures reached(Ending(plan, m))
  {
    if m == 0 {
      var v := Calm(plan, |plan.steps|, Completing);
      var v1 := v.(scheduleCompleted := true, control := Stopping);
      ThenInterval(reached, v, Complete, v1);
      var v2 := v1.(stopping := true, control := Cleaning);
      ThenCleanup(reached, v1, Stop, v2);
      assert v2.actors == Ending(plan, 0).actors;
    } else {
      hide Closed, Calm, Ending;
      EndingReaches(reached, plan, m - 1);
      EndingStep(reached, plan, m - 1);
    }
  }

  lemma {:induction false} EndingPasses(reached: World -> bool, plan: Plan)
    requires Closed(reached) && reached(Ending(plan, |plan.actors|))
    ensures exists v :: reached(v) && Passed(v)
  {
    hide PlannedLog, Resting;
    var v2 := Ending(plan, |plan.actors|);
    var v3 := v2.(control := TearingDown);
    ThenCleanup(reached, v2, Decide, v3);
    ThenCleanup(reached, v3, TearDown(true), TearDownStep(v3, true));
    assert Passed(TearDownStep(v3, true));
  }

  // ------------------------------------------------------------- the theorem

  lemma {:induction false} RunnablePasses(plan: Plan)
    requires Runnable(plan)
    ensures exists run :: Passed(Exec(Initial(plan, Opened), run))
  {
    hide Runnable, Calm, Ending, Initial, Exec, Passed, Closed;
    var reached := v => Reachable(plan, Opened, v);
    ReachableIsClosed(plan, Opened);
    PlanReaches(reached, plan, |plan.steps|);
    EndingReaches(reached, plan, |plan.actors|);
    EndingPasses(reached, plan);
    var v :| reached(v) && Passed(v);
    assert Reachable(plan, Opened, v);
    var run: seq<Label> :| Exec(Initial(plan, Opened), run) == v;
  }

  lemma {:induction false} AdmissiblePasses(plan: Plan)
    requires Admissible(plan)
    ensures exists run :: Passed(Exec(Initial(plan, Opened), run))
  {
    AdmissibleRuns(plan);
    RunnablePasses(plan);
  }

  // After a step to a checkpoint the actor is held there.
  lemma {:induction false} HeldAtCheckpoint(plan: Plan, k: nat, i: nat)
    requires Admissible(plan) && 0 < k <= |plan.steps| && plan.steps[k - 1].checkpoint != COMPLETION
    requires i < |plan.actors| && plan.actors[i].actor == plan.steps[k - 1].actor
    ensures Resting(plan, k, i).place.Held?
  {
    PositionFound(plan, i);
    CheckpointsAreIdentifiers(plan, k - 1);
    IdentifiersAreNotReserved(plan.steps[k - 1].checkpoint);
  }
}
