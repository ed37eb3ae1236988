// What is left of mutual exclusion after the stop.  Before it no two threads
// are in application code; afterwards that depends on the plan alone: a parked
// actor runs iff the plan declares a checkpoint at all, and two actors run at
// once in some run iff the plan preempts an actor.
module ScheduleOverlap {
  import opened Schedule
  import opened ScheduleInvariant
  import opened ScheduleSafety
  import opened ScheduleReach
  import opened ScheduleRealizable
  import opened ScheduleMoves
  import opened Shapes

  // ------------------------------------------------------ how threads move

  // The worker is past its gate and not yet on its way out.
  predicate Underway(a: Actor) { a.place.App? || a.place.Held? }

  // What one section can make of an actor, as far as its thread is concerned.
  predicate MayBecome(w: World, a: Actor, b: Actor) {
    && (b.place.Held? ==>
          || (a.place.Held? && b.checkpoint == a.checkpoint)
          || (a.place.App? && Identifier(b.checkpoint) && b.checkpoint in w.plan.checkpoints))
    && (b.place.App? ==>
          || (a.place.App? && (b.phase == a.phase || b.phase.Running?))
          || a.place.Held?
          || (a.place.Gate? && a.phase.Running? && b.phase.Running? && !w.stopping))
  }

  lemma {:induction false} StepBecomes(w: World, l: Label, i: nat)
    requires i < |w.actors|
    ensures MayBecome(w, w.actors[i], Apply(w, l).actors[i])
  {
    hide Apply, Identifier;
    StepMoves(w, l, i);
  }

  // ------------------------------------------------------ plans without checkpoints

  predicate RunsOnlyGranted(w: World) {
    forall i :: 0 <= i < |w.actors| ==>
      !w.actors[i].place.Held? && (w.actors[i].place.App? ==> w.actors[i].phase.Running?)
  }

  lemma {:induction false} GrantedStep(w: World, l: Label)
    requires w.plan.checkpoints == [] && RunsOnlyGranted(w)
    ensures RunsOnlyGranted(Apply(w, l))
  {
    hide Apply;
    forall i | 0 <= i < |w.actors|
      ensures var b := Apply(w, l).actors[i]; !b.place.Held? && (b.place.App? ==> b.phase.Running?)
    {
      StepBecomes(w, l, i);
    }
  }

  lemma {:induction false} GrantedRun(plan: Plan, o: Acquisition, run: seq<Label>)
    requires Openable(plan, o) && plan.checkpoints == []
    ensures RunsOnlyGranted(Exec(Initial(plan, o), run))
  {
    hide Apply;
    if run != [] {
      var most := run[..|run| - 1];
      GrantedRun(plan, o, most);
      RunInv(plan, o, most);
      GrantedStep(Exec(Initial(plan, o), most), run[|run| - 1]);
    }
  }

  // ------------------------------------------------------ plans without preemptions

  // Step m is taken by somebody else although the actor before has not completed.
  predicate Switches(steps: seq<Step>, m: int) {
    0 < m < |steps| && steps[m].actor != steps[m - 1].actor && steps[m - 1].checkpoint != COMPLETION
  }

  // An actor that rests at a checkpoint while another one moves has been interrupted.
  lemma {:induction false} RestingWasInterrupted(plan: Plan, k: nat, name: string)
    requires k < |plan.steps| && plan.steps[k].actor != name
    requires Before(plan, k, name) != START && Before(plan, k, name) != COMPLETION
    ensures exists m :: Switches(plan.steps, m)
  {
    if plan.steps[k - 1].actor == name {
      assert Switches(plan.steps, k);
    } else {
      RestingWasInterrupted(plan, k - 1, name);
    }
  }

  // One worker past its gate at a time, and those held are at a checkpoint.
  predicate OneUnderway(w: World) {
    && (forall i, j :: 0 <= i < j < |w.actors| ==> !Underway(w.actors[i]) || !Underway(w.actors[j]))
    && (forall i :: 0 <= i < |w.actors| && w.actors[i].place.Held? ==> w.actors[i].checkpoint != START)
  }

  // Whoever leaves its gate under the plan finds everybody else outside or finished.
  lemma {:induction false} AloneAtTheGate(w: World, i: nat, j: nat)
    requires Inv(w) && Admissible(w.plan) && !w.stopping && OneUnderway(w)
    requires i < |w.actors| && j < |w.actors| && i != j && w.actors[j].place.Gate? && w.actors[j].phase.Running?
    requires forall m :: !Switches(w.plan.steps, m)
    ensures !Underway(w.actors[i])
    ensures !(w.actors[i].place.Gate? && w.actors[i].phase.Running?)
  {
    hide Switches, Before, Position, PlannedLog, Identifier;
    assert w.acquired;
    assert ActorOk(w, i) && ActorOk(w, j);
    assert LogOk(w) && AtPlanned(w, i);
    if w.actors[i].place.Held? {
      PositionFound(w.plan, i);
      RestingWasInterrupted(w.plan, w.next, w.plan.actors[i].actor);
    }
  }

  // Nobody joins a worker that is underway.
  lemma {:induction false} PairApart(w: World, l: Label, i: nat, j: nat)
    requires Inv(w) && Admissible(w.plan) && OneUnderway(w) && forall m :: !Switches(w.plan.steps, m)
    requires i < |w.actors| && j < |w.actors| && i != j
    ensures !Underway(Apply(w, l).actors[i]) || !Underway(Apply(w, l).actors[j])
  {
    hide Apply, Inv, Admissible, Switches, Identifier;
    StepBecomes(w, l, i);
    StepBecomes(w, l, j);
    var a, b := w.actors[i], w.actors[j];
    assert !Underway(a) || !Underway(b);
    if !w.stopping && a.place.Gate? && a.phase.Running? { AloneAtTheGate(w, j, i); }
    if !w.stopping && b.place.Gate? && b.phase.Running? { AloneAtTheGate(w, i, j); }
  }

  lemma {:induction false} UnderwayStep(w: World, l: Label)
    requires Inv(w) && (w.actors == [] || Admissible(w.plan)) && OneUnderway(w)
    requires forall m :: !Switches(w.plan.steps, m)
    ensures OneUnderway(Apply(w, l))
  {
    hide Apply, Inv, Admissible, Switches, Identifier;
    var v := Apply(w, l);
    forall i, j | 0 <= i < j < |v.actors| ensures !Underway(v.actors[i]) || !Underway(v.actors[j]) {
      PairApart(w, l, i, j);
    }
    forall i | 0 <= i < |v.actors| && v.actors[i].place.Held? ensures v.actors[i].checkpoint != START {
      StepBecomes(w, l, i);
      if Identifier(v.actors[i].checkpoint) { IdentifiersAreNotReserved(v.actors[i].checkpoint); }
    }
  }

  lemma {:induction false} UnderwayRun(plan: Plan, o: Acquisition, run: seq<Label>)
    requires Openable(plan, o) && forall m :: !Switches(plan.steps, m)
    ensures OneUnderway(Exec(Initial(plan, o), run))
  {
    hide Apply, Inv, Admissible, Switches;
    if run == [] {
    } else {
      var most := run[..|run| - 1];
      UnderwayRun(plan, o, most);
      RunInv(plan, o, most);
      var w := Exec(Initial(plan, o), most);
      assert w.actors == [] || Admissible(plan) by { NoActorsUnlessOpened(w); }
      UnderwayStep(w, run[|run| - 1]);
    }
  }

  lemma {:induction false} NoActorsUnlessOpened(w: World)
    requires Inv(w)
    ensures !w.acquired ==> w.actors == []
  {
  }

  // ------------------------------------------------------ counting switches

  // Step m interrupts the actor of the step before it, which moves again later.
  predicate Interrupts(s: seq<Step>, m: int) {
    0 < m < |s| && s[m - 1].actor != s[m].actor && MovesAgain(s[m..], s[m - 1].actor)
  }

  lemma {:induction false} InterruptsLater(s: seq<Step>, m: int)
    requires |s| >= 2 && m != 0
    ensures Interrupts(s, m + 1) <==> Interrupts(s[1..], m)
  {
    hide MovesAgain;
    if 0 < m < |s| - 1 { assert s[1..][m..] == s[m + 1..]; }
  }

  lemma {:induction false} PreemptionsArePlaces(s: seq<Step>)
    ensures Preemptions(s) > 0 <==> exists m :: Interrupts(s, m)
  {
    hide MovesAgain, Interrupts;
    if |s| < 2 {
      ShortIsCalm(s);
    } else {
      PreemptionsArePlaces(s[1..]);
      FirstInterrupts(s);
      if m :| Interrupts(s[1..], m) {
        if m != 0 { InterruptsLater(s, m); } else { NotAtStart(s[1..]); }
      }
      if m :| Interrupts(s, m) {
        if m == 0 { NotAtStart(s); }
        else if m != 1 { InterruptsLater(s, m - 1); }
      }
    }
  }

  lemma {:induction false} ShortIsCalm(s: seq<Step>)
    requires |s| < 2
    ensures !exists m :: Interrupts(s, m)
  {
  }

  lemma {:induction false} NotAtStart(s: seq<Step>)
    ensures !Interrupts(s, 0)
  {
  }

  lemma {:induction false} FirstInterrupts(s: seq<Step>)
    requires |s| >= 2
    ensures Interrupts(s, 1) <==> s[0].actor != s[1].actor && MovesAgain(s[1..], s[0].actor)
  {
    hide MovesAgain;
  }

  // In an admissible plan an actor moves again exactly after a step that is not `$done`.
  lemma {:induction false} MovesAgainUntilDone(plan: Plan, m: nat)
    requires StepsAdmissible(plan) && 0 < m < |plan.steps|
    ensures MovesAgain(plan.steps[m..], plan.steps[m - 1].actor) <==> plan.steps[m - 1].checkpoint != COMPLETION
  {
    var s, name := plan.steps, plan.steps[m - 1].actor;
    if s[m - 1].checkpoint != COMPLETION {
      var i :| 0 <= i < |plan.actors| && plan.actors[i].actor == name;
      var t :| 0 <= t < |s| && s[t] == Step(name, COMPLETION);
      assert s[m..][t - m].actor == name;
    }
  }

  lemma {:induction false} SwitchesArePreemptions(plan: Plan)
    requires StepsAdmissible(plan)
    ensures (exists m :: Switches(plan.steps, m)) <==> Preemptions(plan.steps) > 0
  {
    hide StepsAdmissible;
    var s := plan.steps;
    PreemptionsArePlaces(s);
    if m :| Switches(s, m) {
      MovesAgainUntilDone(plan, m);
      assert Interrupts(s, m);
    }
    if m :| Interrupts(s, m) {
      MovesAgainUntilDone(plan, m);
      assert Switches(s, m);
    }
  }

  // ------------------------------------------------------ runs that overlap

  predicate ParkedInCode(w: World) {
    exists i :: 0 <= i < |w.actors| && w.actors[i].phase.Parked? && w.actors[i].place.App?
  }

  predicate TwoInCode(w: World) {
    exists i, j :: 0 <= i < j < |w.actors| && w.actors[i].place.App? && w.actors[j].place.App?
  }

  // Some run, from some opening, leads to a parked actor in application code.
  ghost predicate ParkedMayRun(plan: Plan) {
    exists o, run :: Openable(plan, o) && ParkedInCode(Exec(Initial(plan, o), run))
  }

  // Some run, from some opening, leads to two actors in application code.
  ghost predicate TwoMayRun(plan: Plan) {
    exists o, run :: Openable(plan, o) && TwoInCode(Exec(Initial(plan, o), run))
  }

  // A cancellation seen while somebody is waited for wakes a held actor.
  lemma {:induction false} CancelAndWake(reached: World -> bool, w: World, j: nat, i: nat) returns (v: World)
    requires Closed(reached) && reached(w) && w.control == AwaitArrival(j) && !w.stopping
    requires j < |w.actors| == |w.plan.actors| && i < |w.actors| && w.actors[i].place.Held?
    ensures reached(v) && v.actors == w.actors[i := w.actors[i].(place := App)]
  {
    var w1 := w.(cancelled := true);
    ThenFlag(reached, w, Cancel, w1);
    var w2 := Fail(w1, Cancelled).(control := Settling);
    ThenOpening(reached, w1, Poll, w2);
    v := SetActor(w2, i, w2.actors[i].(place := App));
    ThenWorker(reached, w2, Wake(i), v);
  }

  // Step k begins: its actor is released and enters application code.
  lemma {:induction false} Released(reached: World -> bool, plan: Plan, k: nat, i: nat)
    requires Closed(reached) && Admissible(plan) && k < |plan.steps| && reached(Calm(plan, k, Idle))
    requires i == Position(plan.actors, plan.steps[k].actor) && i < |plan.actors|
    ensures reached(Midway(plan, k, i, Actor(Running, Before(plan, k, plan.steps[k].actor), App, false), Permitted(plan, k), AwaitArrival(i)))
  {
    NotYetComplete(plan, k);
    Enter(reached, plan, k, i);
    var a := Resting(plan, k, i).(phase := Running);
    MoveWithin(reached, plan, k, i, a, Wake(i), a.(place := App));
  }

  // The first actor arrives at a declared checkpoint, the caller cancels, and it is woken.
  lemma {:induction false} ParkedWakes(reached: World -> bool, plan: Plan)
    requires Closed(reached) && Admissible(plan) && plan.checkpoints != [] && reached(Calm(plan, 0, Turn(plan, 0)))
    ensures exists v :: reached(v) && ParkedInCode(v)
  {
    hide Closed, Calm, Before, PlannedLog, Identifier, Midway, IdentifierChar, Position;
    AdmissibleHasSteps(plan);
    var name, c := plan.steps[0].actor, plan.checkpoints[0];
    FirstStepIsOpen(plan);
    var i := Position(plan.actors, name);
    Released(reached, plan, 0, i);
    var a, b := Actor(Running, Before(plan, 0, name), App, false), Actor(Parked, c, Held, false);
    ParkAt(plan, 0, i, a, c);
    MoveWithin(reached, plan, 0, i, a, Arrive(i, c), b);
    ActorsOfMidway(plan, 0, i, b, Permitted(plan, 0), AwaitArrival(i), i);
    var v := CancelAndWake(reached, Midway(plan, 0, i, b, Permitted(plan, 0), AwaitArrival(i)), i, i);
    assert v.actors[i] == b.(place := App);
  }

  lemma {:induction false} FirstStepIsOpen(plan: Plan)
    requires Admissible(plan) && 0 < |plan.steps|
    ensures Position(plan.actors, plan.steps[0].actor) < |plan.actors|
    ensures plan.checkpoints != [] ==> Identifier(plan.checkpoints[0])
  {
    hide Identifier;
    DeclaredHasPosition(plan, plan.steps[0].actor);
  }

  lemma {:induction false} ActorsOfMidway(plan: Plan, k: nat, i: nat, a: Actor, events: seq<Event>, c: Control, j: nat)
    requires k <= |plan.steps| && i < |plan.actors| && j < |plan.actors|
    ensures var w := Midway(plan, k, i, a, events, c);
            && w.control == c && !w.stopping && |w.actors| == |w.plan.actors| == |plan.actors|
            && w.actors[j] == if j == i then a else Resting(plan, k, j)
  {
    hide Resting, PlannedLog;
  }

  // The interrupted actor and the one that interrupts it.
  lemma {:induction false} SwitchHasTwo(plan: Plan, k: nat) returns (i: nat, j: nat)
    requires Admissible(plan) && Switches(plan.steps, k)
    ensures i < |plan.actors| && j < |plan.actors| && i != j && j == Position(plan.actors, plan.steps[k].actor)
    ensures Resting(plan, k, i).place.Held?
  {
    DeclaredHasPosition(plan, plan.steps[k].actor);
    DeclaredHasPosition(plan, plan.steps[k - 1].actor);
    i, j := Position(plan.actors, plan.steps[k - 1].actor), Position(plan.actors, plan.steps[k].actor);
    HeldAtCheckpoint(plan, k, i);
  }

  // The actor that was switched away from is held when the next one enters; a
  // cancellation lets it go on.
  lemma {:induction false} BothRun(reached: World -> bool, plan: Plan, k: nat)
    requires Closed(reached) && Admissible(plan) && Switches(plan.steps, k) && reached(Calm(plan, k, Idle))
    ensures exists v :: reached(v) && TwoInCode(v)
  {
    hide Closed, Admissible, Calm, Midway, Before, PlannedLog, Resting;
    var i, j := SwitchHasTwo(plan, k);
    Released(reached, plan, k, j);
    var a := Actor(Running, Before(plan, k, plan.steps[k].actor), App, false);
    var w := Midway(plan, k, j, a, Permitted(plan, k), AwaitArrival(j));
    ActorsOfMidway(plan, k, j, a, Permitted(plan, k), AwaitArrival(j), i);
    ActorsOfMidway(plan, k, j, a, Permitted(plan, k), AwaitArrival(j), j);
    var v := CancelAndWake(reached, w, j, i);
    assert v.actors[i].place.App? && v.actors[j].place.App?;
    InEitherOrder(v, i, j);
  }

  lemma {:induction false} InEitherOrder(v: World, i: nat, j: nat)
    requires i < |v.actors| && j < |v.actors| && i != j && v.actors[i].place.App? && v.actors[j].place.App?
    ensures TwoInCode(v)
  {
    if j < i { assert 0 <= j < i < |v.actors| && v.actors[j].place.App? && v.actors[i].place.App?; }
  }

  // ------------------------------------------------------ the results

  lemma {:induction false} SomeRunParks(plan: Plan)
    requires Admissible(plan) && plan.checkpoints != []
    ensures ParkedMayRun(plan)
  {
    hide Apply, Initial, Exec, Closed, ParkedInCode;
    var reached := v => Reachable(plan, Opened, v);
    ReachableIsClosed(plan, Opened);
    PlanReaches(reached, plan, 0);
    ParkedWakes(reached, plan);
    var v :| reached(v) && ParkedInCode(v);
    assert Reachable(plan, Opened, v);
    var run: seq<Label> :| Exec(Initial(plan, Opened), run) == v;
    assert Openable(plan, Opened) && ParkedInCode(Exec(Initial(plan, Opened), run));
  }

  // Some run lets an actor execute application code while the scheduler has it
  // parked, exactly when the plan declares a checkpoint.
  lemma {:induction false} ParkedRunsIffCheckpoints(plan: Plan)
    requires Admissible(plan)
    ensures ParkedMayRun(plan) <==> plan.checkpoints != []
  {
    hide Apply, Initial, Exec, Admissible;
    if plan.checkpoints != [] {
      SomeRunParks(plan);
    } else if ParkedMayRun(plan) {
      var o, run :| Openable(plan, o) && ParkedInCode(Exec(Initial(plan, o), run));
      GrantedRun(plan, o, run);
    }
  }

  lemma {:induction false} SomeRunOverlaps(plan: Plan, k: nat)
    requires Admissible(plan) && Switches(plan.steps, k)
    ensures TwoMayRun(plan)
  {
    hide Apply, Initial, Exec, Closed, TwoInCode;
    var reached := v => Reachable(plan, Opened, v);
    ReachableIsClosed(plan, Opened);
    PlanReaches(reached, plan, k);
    BothRun(reached, plan, k);
    var v :| reached(v) && TwoInCode(v);
    assert Reachable(plan, Opened, v);
    var run: seq<Label> :| Exec(Initial(plan, Opened), run) == v;
    assert Openable(plan, Opened) && TwoInCode(Exec(Initial(plan, Opened), run));
  }

  // Some run has two actors in application code at once, exactly when the plan
  // switches away from an actor that has steps left.
  lemma {:induction false} OverlapIffPreempted(plan: Plan)
    requires Admissible(plan)
    ensures TwoMayRun(plan) <==> Preemptions(plan.steps) > 0
  {
    hide Apply, StepsAdmissible, Switches, Initial, Preemptions, Exec;
    SwitchesArePreemptions(plan);
    if k :| Switches(plan.steps, k) {
      SwitchesInside(plan.steps, k);
      SomeRunOverlaps(plan, k);
    } else if TwoMayRun(plan) {
      var o, run :| Openable(plan, o) && TwoInCode(Exec(Initial(plan, o), run));
      UnderwayRun(plan, o, run);
    }
  }

  lemma {:induction false} SwitchesInside(steps: seq<Step>, k: int)
    requires Switches(steps, k)
    ensures 0 < k < |steps|
  {
  }
}
