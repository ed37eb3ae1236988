// What every step of the checkpoint scheduler keeps.
module ScheduleInvariant {
  import opened Schedule

  // ------------------------------------------------------------ reference log

  // The checkpoint an actor rests at after the first k steps of the plan.
  function Before(plan: Plan, k: nat, name: string): string
    requires k <= |plan.steps|
  {
    if k == 0 then START
    else if plan.steps[k - 1].actor == name then plan.steps[k - 1].checkpoint
    else Before(plan, k - 1, name)
  }

  function OperationOf(plan: Plan, name: string): string {
    var i := Position(plan.actors, name);
    if i < |plan.actors| then plan.actors[i].operation else ""
  }

  function PermitRow(plan: Plan, k: nat): Event
    requires k < |plan.steps|
  {
    var s := plan.steps[k];
    Event(2 * k, Permit, k, s.actor, OperationOf(plan, s.actor), Before(plan, k, s.actor))
  }

  function ArrivalRow(plan: Plan, k: nat): Event
    requires k < |plan.steps|
  {
    var s := plan.steps[k];
    Event(2 * k + 1, Arrival, k, s.actor, OperationOf(plan, s.actor), s.checkpoint)
  }

  // The event log the plan alone determines: a permit and an arrival per step.
  function PlannedLog(plan: Plan, k: nat): (log: seq<Event>)
    requires k <= |plan.steps|
    ensures |log| == 2 * k
  {
    if k == 0 then [] else PlannedLog(plan, k - 1) + [PermitRow(plan, k - 1), ArrivalRow(plan, k - 1)]
  }

  // ---------------------------------------------------------------- invariant

  predicate Waiting(w: World, i: nat) {
    w.control == AwaitArrival(i) || w.control == Arrived(i)
  }

  predicate Granted(c: Control) { c.AwaitArrival? || c.Arrived? }

  // How many steps have a recorded arrival.
  function Arrivals(w: World): nat {
    w.next + if w.control.Joining? || w.control.Checking? then 1 else 0
  }

  predicate ActorOk(w: World, i: nat)
    requires i < |w.actors| == |w.plan.actors|
  {
    var a := w.actors[i];
    && (a.place.Unspawned? || a.place.Fresh? <==> a.phase.Starting?)
    && (a.place.Exited? || a.place.Dead? <==> a.phase.Finished?)
    && (a.checkpoint == COMPLETION <==> a.phase.Finished?)
    && (a.joined ==> a.place.Dead?)
    && (!w.stopping && (a.place.App? || a.place.Leaving?) ==> a.phase.Running?)
    && (!w.stopping && a.phase.Running? ==> w.control == AwaitArrival(i))
    && (!w.stopping && a.phase.Starting? ==> w.control.Spawning? || w.control.AwaitStart?)
    && (!w.stopping && a.phase.Finished? ==> a.joined || Waiting(w, i) || w.control == Joining(i))
  }

  ghost predicate ActorsOk(w: World)
    requires |w.actors| == |w.plan.actors|
  {
    forall i :: 0 <= i < |w.actors| ==> ActorOk(w, i)
  }

  // While nothing has failed, every resting actor is where the plan says.
  predicate AtPlanned(w: World, i: nat)
    requires i < |w.actors| == |w.plan.actors|
    requires Arrivals(w) <= |w.plan.steps|
  {
    (Waiting(w, i) && !w.actors[i].phase.Running?)
    || w.actors[i].checkpoint == Before(w.plan, Arrivals(w), w.plan.actors[i].actor)
  }

  predicate Working(c: Control) {
    c.Spawning? || c.AwaitStart? || c.AwaitArrival? || c.Arrived? || c.Joining? || c.Checking?
    || c.Observing? || c.Settling?
  }

  predicate Opening(c: Control) { c.Spawning? || c.AwaitStart? }

  ghost predicate PlacesOk(w: World)
    requires |w.actors| == |w.plan.actors| && Arrivals(w) <= |w.plan.steps|
  {
    forall i :: 0 <= i < |w.actors| ==> AtPlanned(w, i)
  }

  ghost predicate EventsOk(w: World)
    requires Arrivals(w) <= |w.plan.steps| && (Granted(w.control) ==> w.next < |w.plan.steps|)
  {
    w.events == if Granted(w.control) then PlannedLog(w.plan, w.next) + [PermitRow(w.plan, w.next)]
                else PlannedLog(w.plan, Arrivals(w))
  }

  // Where the controller is in the plan, and with whom.
  ghost predicate CursorOk(w: World) {
    && Arrivals(w) <= |w.plan.steps|
    && (Granted(w.control) ==>
          && w.next < |w.plan.steps|
          && w.control.i < |w.actors|
          && w.control.i == Position(w.plan.actors, w.plan.steps[w.next].actor))
    && (w.control.Arrived? ==> !w.actors[w.control.i].phase.Running?)
    && (w.control.Joining? ==> w.control.i < |w.actors| && w.actors[w.control.i].phase.Finished?)
    && |w.observations| + (if Opening(w.control) || w.control.Observing? then 1 else 0) == w.next + 1
    && (Opening(w.control) ==> w.next == 0)
    && (w.control.Completing? ==> w.next == |w.plan.steps|)
    && (w.control.Idle? ==> w.next < |w.plan.steps|)
  }

  ghost predicate LogOk(w: World)
    requires |w.actors| == |w.plan.actors|
  {
    CursorOk(w) && PlacesOk(w) && EventsOk(w)
  }

  // Everything the plan asked for has happened and every thread is gone.
  ghost predicate AllDone(w: World)
    requires |w.actors| == |w.plan.actors|
  {
    && w.next == |w.plan.steps|
    && w.events == PlannedLog(w.plan, w.next)
    && |w.observations| == w.next + 1
    && (forall i :: 0 <= i < |w.actors| ==> w.actors[i].place.Dead? && w.actors[i].joined)
  }

  ghost predicate OutcomeOk(w: World) {
    && (w.outcome != Completed ==> w.stopping)
    && (forall k :: 0 <= k < |w.observations| ==> w.observations[k].afterSteps == k)
    && (w.stopping && w.outcome == Completed && !w.control.Dropping? && !w.control.Dropped? ==> w.scheduleCompleted)
    && (w.scheduleCompleted ==> w.next == |w.plan.steps| && w.outcome == Completed)
    && (w.scheduleCompleted && w.control.Idle? ==> w.closed)
    && (w.control.Completing? ==> !w.stopping)
    && (Working(w.control) ==> !w.scheduleCompleted)
  }

  // Still under the plan: neither stopped nor finished.
  predicate Live(w: World) { !w.stopping && !w.scheduleCompleted }

  // From here on nothing can go wrong any more.
  predicate Done(w: World) {
    w.scheduleCompleted || w.control.Completing?
  }

  ghost predicate TeardownOk(w: World) {
    && w.teardowns <= 1
    && (w.teardowns == 1 ==> w.acquired && AllJoined(w))
    && (w.closed ==> w.stopping && (w.control.Idle? || w.control.Dropping? || w.control.Dropped?))
    && (w.closed && w.acquired ==> w.teardowns == 1)
    && (!w.closed && !w.control.Dropped? ==> w.teardowns == 0)
    && (w.control.Dropped? && w.acquired ==> w.teardowns == 1)
    && (w.control.Dropped? || w.control.TearingDown? ==> AllJoined(w))
    && (w.control.Dropping? || w.control.Dropped? || w.control.Cleaning? || w.control.TearingDown? ==> w.stopping)
    && (!w.acquired ==> w.closed && w.actors == [])
    && (w.cleanup.Confirmed? || w.cleanup.TeardownFailed? ==> w.closed)
    && (w.cleanup.Incomplete? ==> w.stopping && !w.closed && !w.scheduleCompleted)
    && (w.cleanup.Confirmed? ==> w.acquired)
  }

  ghost predicate Inv(w: World) {
    && (|w.actors| == |w.plan.actors| || (w.actors == [] && w.stopping && w.outcome != Completed))
    && OutcomeOk(w)
    && TeardownOk(w)
    && (|w.actors| == |w.plan.actors| && w.acquired ==> ActorsOk(w))
    && (Live(w) ==> |w.actors| == |w.plan.actors| && LogOk(w))
    && (w.control.Spawning? ==> |w.actors| == |w.plan.actors|)
    && (w.control.Spawning? ==> forall j :: w.control.k <= j < |w.actors| ==> w.actors[j].place.Unspawned?)
    && (Done(w) ==> |w.actors| == |w.plan.actors| && AllDone(w))
  }

  // ------------------------------------------------------- facts about plans

  lemma {:induction false} PositionFound(plan: Plan, i: nat)
    requires i < |plan.actors| && DistinctDeclarations(plan)
    ensures Position(plan.actors, plan.actors[i].actor) == i
  {
  }

  lemma {:induction false} IdentifiersAreNotReserved(s: string)
    requires Identifier(s)
    ensures s != COMPLETION && s != START
  {
    assert IdentifierChar(s[0]);
  }

  // The last step of an actor among the first k, if it is at rest at `Before`.
  lemma {:induction false} BeforeIsLast(plan: Plan, k: nat, name: string)
    requires k <= |plan.steps|
    ensures Before(plan, k, name) == COMPLETION ==>
              exists j :: 0 <= j < k && plan.steps[j] == Step(name, COMPLETION)
  {
    if k != 0 && plan.steps[k - 1].actor != name {
      BeforeIsLast(plan, k - 1, name);
    } else if k != 0 && Before(plan, k, name) == COMPLETION {
      assert plan.steps[k - 1] == Step(name, COMPLETION);
    }
  }

  lemma {:induction false} CompletionSticks(plan: Plan, j: nat, k: nat, name: string)
    requires j < k <= |plan.steps| && StepsAdmissible(plan)
    requires plan.steps[j] == Step(name, COMPLETION)
    ensures Before(plan, k, name) == COMPLETION
  {
    if k != j + 1 {
      CompletionSticks(plan, j, k - 1, name);
    }
  }

  // An actor still to be scheduled has not completed, whatever came before.
  lemma {:induction false} NotYetComplete(plan: Plan, k: nat)
    requires k < |plan.steps| && StepsAdmissible(plan)
    ensures Before(plan, k, plan.steps[k].actor) != COMPLETION
  {
    BeforeIsLast(plan, k, plan.steps[k].actor);
  }

  lemma {:induction false} AllCompleteAtEnd(plan: Plan, i: nat)
    requires i < |plan.actors| && StepsAdmissible(plan)
    ensures Before(plan, |plan.steps|, plan.actors[i].actor) == COMPLETION
  {
    var done := Step(plan.actors[i].actor, COMPLETION);
    var j :| 0 <= j < |plan.steps| && plan.steps[j] == done;
    CompletionSticks(plan, j, |plan.steps|, plan.actors[i].actor);
  }

  lemma {:induction false} AdmissibleHasSteps(plan: Plan)
    requires Admissible(plan)
    ensures 0 < |plan.steps|
  {
    assert Step(plan.actors[0].actor, COMPLETION) in plan.steps;
  }

  // ------------------------------------------------------------ preservation

  lemma {:induction false} InitialInv(plan: Plan, o: Acquisition)
    requires Openable(plan, o)
    ensures Inv(Initial(plan, o))
  {
    var w := Initial(plan, o);
    if o.Opened? {
      AdmissibleHasSteps(plan);
    }
  }

  // ------------------------------------------------- steps of the workers

  // A stop leaves nothing to say about who runs and who is waited for.
  lemma {:induction false} StoppedActors(w: World, v: World)
    requires |w.actors| == |w.plan.actors| && ActorsOk(w)
    requires v.actors == w.actors && v.plan == w.plan && v.stopping
    ensures ActorsOk(v)
  {
    forall i | 0 <= i < |v.actors| ensures ActorOk(v, i) { assert ActorOk(w, i); }
  }

  // Between two controls that nobody is waiting under, no actor notices the difference.
  lemma {:induction false} CalmActors(w: World, v: World)
    requires |w.actors| == |w.plan.actors| && ActorsOk(w)
    requires v.actors == w.actors && v.plan == w.plan && v.stopping == w.stopping
    requires !w.control.AwaitArrival? && !w.control.Arrived? && !w.control.Joining?
    requires w.control.Spawning? || w.control.AwaitStart? ==> v.control.Spawning? || v.control.AwaitStart?
    ensures ActorsOk(v)
  {
    forall i | 0 <= i < |v.actors| ensures ActorOk(v, i) { assert ActorOk(w, i); }
  }

  lemma {:induction false} DoneKept(w: World, v: World)
    requires |w.actors| == |w.plan.actors| && AllDone(w) && v.actors == w.actors && v.plan == w.plan
    requires v.next == w.next && v.events == w.events && v.observations == w.observations
    ensures AllDone(v)
  {
    hide PlannedLog;
  }

  // The log and the places are about the steps taken and who is under way, no more.
  lemma {:induction false} LogKept(w: World, v: World)
    requires |w.actors| == |w.plan.actors| && LogOk(w) && v.actors == w.actors && v.plan == w.plan
    requires !Granted(w.control) && !Granted(v.control) && Arrivals(v) == Arrivals(w) && v.events == w.events
    requires CursorOk(v)
    ensures LogOk(v)
  {
    hide Before, PlannedLog, Position;
    forall k | 0 <= k < |v.actors| ensures AtPlanned(v, k) { assert AtPlanned(w, k); }
  }

  // An execution that has failed only has to keep its threads and its teardown straight.
  lemma {:induction false} FailInv(w: World, reason: Outcome)
    requires Inv(w) && reason != Completed && w.acquired
    requires !Done(w)
    ensures Inv(Fail(w, reason))
  {
    hide ActorsOk, LogOk, AllDone;
    if |w.actors| == |w.plan.actors| { StoppedActors(w, Fail(w, reason)); }
  }

  // An actor moves without the controller noticing a change of plan.
  lemma {:induction false} MoveInv(w: World, i: nat, a: Actor)
    requires Inv(w) && w.acquired && i < |w.actors| == |w.plan.actors|
    requires !w.actors[i].place.Dead? && !w.actors[i].place.Unspawned? && !a.place.Unspawned? && a.joined == w.actors[i].joined
    requires ActorOk(SetActor(w, i, a), i)
    requires Live(w) ==> AtPlanned(SetActor(w, i, a), i)
    requires !w.stopping && w.actors[i].phase != Running ==> a.phase != Running
    requires w.actors[i].phase.Finished? ==> a.phase.Finished?
    ensures Inv(SetActor(w, i, a))
  {
    hide ActorOk, AtPlanned, LogOk;
    MoveActors(w, i, a);
    if Live(w) { MoveLog(w, i, a); }
  }

  lemma {:induction false} MoveActors(w: World, i: nat, a: Actor)
    requires i < |w.actors| == |w.plan.actors| && ActorsOk(w) && ActorOk(SetActor(w, i, a), i)
    requires !w.stopping && w.actors[i].phase != Running ==> a.phase != Running
    requires w.actors[i].phase.Finished? ==> a.phase.Finished?
    ensures ActorsOk(SetActor(w, i, a))
  {
    var v := SetActor(w, i, a);
    forall k | 0 <= k < |v.actors| ensures ActorOk(v, k) { assert ActorOk(w, k); }
  }

  lemma {:induction false} MoveLog(w: World, i: nat, a: Actor)
    requires i < |w.actors| == |w.plan.actors| && LogOk(w) && AtPlanned(SetActor(w, i, a), i)
    requires w.actors[i].phase != Running ==> a.phase != Running
    requires w.actors[i].phase.Finished? ==> a.phase.Finished?
    ensures LogOk(SetActor(w, i, a))
  {
    hide Before, Position, PlannedLog;
    var v := SetActor(w, i, a);
    forall k | 0 <= k < |v.actors| ensures AtPlanned(v, k) { assert AtPlanned(w, k); }
  }

  lemma {:induction false} LiveActorsAreNotDone(w: World, i: nat)
    requires Inv(w) && i < |w.actors| && !w.actors[i].place.Dead?
    ensures !Done(w)
  {
  }

  lemma {:induction false} BeginInv(w: World, i: nat)
    requires Inv(w) && w.acquired && i < |w.actors| == |w.plan.actors|
    ensures Inv(WorkerStep(w, Begin(i)))
  {
    hide ExitStep, ArriveStep, WakeStep, Identifier;
    var a := w.actors[i];
    assert ActorOk(w, i);
    if Live(w) { assert AtPlanned(w, i); }
    if a.place.Fresh? { MoveInv(w, i, a.(phase := Parked, place := Gate)); }
  }

  // What the place of a thread says about the phase of its actor.
  lemma {:induction false} PlaceFacts(w: World, i: nat)
    requires Inv(w) && w.acquired && i < |w.actors| == |w.plan.actors|
    ensures var a := w.actors[i];
            && (a.place.Gate? || a.place.Held? || a.place.App? || a.place.Leaving? ==> !a.phase.Starting? && !a.phase.Finished?)
            && (a.place.Exited? ==> a.phase.Finished?)
            && (!w.stopping && (a.place.App? || a.place.Leaving?) ==> a.phase.Running?)
  {
    hide LogOk, AllDone, OutcomeOk, TeardownOk;
    assert ActorOk(w, i);
  }

  // A thread that goes on to a place that fits the phase of its actor.
  lemma {:induction false} PlaceInv(w: World, i: nat, p: Place)
    requires Inv(w) && w.acquired && i < |w.actors| == |w.plan.actors|
    requires !w.actors[i].place.Dead? && !w.actors[i].place.Unspawned? && !w.actors[i].place.Fresh?
    requires !p.Unspawned? && !p.Fresh? && (p.Exited? || p.Dead? <==> w.actors[i].phase.Finished?)
    requires !w.stopping && (p.App? || p.Leaving?) ==> w.actors[i].phase.Running?
    ensures Inv(SetActor(w, i, w.actors[i].(place := p)))
  {
    hide OutcomeOk, TeardownOk, AllDone, Before, Position;
    assert ActorOk(w, i);
    if Live(w) { assert AtPlanned(w, i); }
    MoveInv(w, i, w.actors[i].(place := p));
  }

  lemma {:induction false} WakeInv(w: World, i: nat)
    requires Inv(w) && w.acquired && i < |w.actors| == |w.plan.actors|
    ensures Inv(WorkerStep(w, Wake(i)))
  {
    hide ExitStep, ArriveStep, Identifier, Inv, SetActor;
    PlaceFacts(w, i);
    var a := w.actors[i];
    if a.place.Gate? && w.stopping { PlaceInv(w, i, Leaving(false)); }
    else if (a.place.Gate? || a.place.Held?) && (w.stopping || a.phase.Running?) { PlaceInv(w, i, App); }
  }

  lemma {:induction false} ArriveInv(w: World, i: nat, checkpoint: string)
    requires Inv(w) && w.acquired && i < |w.actors| == |w.plan.actors|
    ensures Inv(WorkerStep(w, Arrive(i, checkpoint)))
  {
    hide ExitStep, WakeStep;
    var a := w.actors[i];
    assert ActorOk(w, i);
    if a.place.App? {
      LiveActorsAreNotDone(w, i);
      if !a.phase.Running? { FailInv(w, UncontrolledActor); }
      else if w.stopping {}
      else if !Identifier(checkpoint) || checkpoint !in w.plan.checkpoints {
        FailInv(w, UnexpectedCheckpoint);
      } else {
        IdentifiersAreNotReserved(checkpoint);
        MoveInv(w, i, a.(phase := Parked, checkpoint := checkpoint, place := Held));
      }
    }
  }

  lemma {:induction false} ForeignInv(w: World, i: nat)
    requires Inv(w) && w.acquired && i < |w.actors| == |w.plan.actors|
    ensures Inv(WorkerStep(w, Foreign(i)))
  {
    hide ExitStep, ArriveStep, WakeStep, Identifier;
    if w.actors[i].place.App? || w.actors[i].place.Held? {
      LiveActorsAreNotDone(w, i);
      FailInv(w, UncontrolledActor);
    }
  }

  lemma {:induction false} LeaveInv(w: World, i: nat, failed: bool)
    requires Inv(w) && w.acquired && i < |w.actors| == |w.plan.actors|
    ensures Inv(WorkerStep(w, Return(i, failed)))
  {
    hide ExitStep, ArriveStep, WakeStep, Identifier, Inv, SetActor;
    PlaceFacts(w, i);
    if w.actors[i].place.App? { PlaceInv(w, i, Leaving(failed)); }
  }

  lemma {:induction false} ExitInv(w: World, i: nat)
    requires Inv(w) && w.acquired && i < |w.actors| == |w.plan.actors|
    ensures Inv(WorkerStep(w, Exit(i)))
  {
    hide ArriveStep, WakeStep, Identifier, Inv, Fail;
    var a := w.actors[i];
    if a.place.Leaving? {
      LeavingIsLive(w, i);
      if !w.stopping && a.place.failed {
        FailInv(w, ApplicationFailed);
        FailStops(w, ApplicationFailed);
        FinishMove(Fail(w, ApplicationFailed), i);
      } else {
        FinishMove(w, i);
      }
    }
  }

  lemma {:induction false} LeavingIsLive(w: World, i: nat)
    requires Inv(w) && i < |w.actors| && w.actors[i].place.Leaving?
    ensures !Done(w)
  {
    LiveActorsAreNotDone(w, i);
  }

  lemma {:induction false} FailStops(w: World, reason: Outcome)
    ensures Fail(w, reason).stopping && Fail(w, reason).actors == w.actors
  {
  }

  // A worker on its way out finishes.
  lemma {:induction false} FinishMove(w: World, i: nat)
    requires Inv(w) && w.acquired && i < |w.actors| == |w.plan.actors| && w.actors[i].place.Leaving?
    ensures Inv(SetActor(w, i, w.actors[i].(phase := Finished, checkpoint := COMPLETION, place := Exited)))
  {
    assert ActorOk(w, i);
    MoveInv(w, i, w.actors[i].(phase := Finished, checkpoint := COMPLETION, place := Exited));
  }

  lemma {:induction false} DieInv(w: World, i: nat)
    requires Inv(w) && w.acquired && i < |w.actors| == |w.plan.actors|
    ensures Inv(WorkerStep(w, Die(i)))
  {
    hide ExitStep, ArriveStep, WakeStep, Identifier, Inv, SetActor;
    PlaceFacts(w, i);
    if w.actors[i].place.Exited? { PlaceInv(w, i, Dead); }
  }

  lemma {:induction false} WorkerStepInv(w: World, l: Label)
    requires Inv(w) && w.acquired && IsWorkerLabel(l) && l.w < |w.actors| == |w.plan.actors|
    ensures Inv(WorkerStep(w, l))
  {
    match l
    case Begin(i) => BeginInv(w, i);
    case Wake(i) => WakeInv(w, i);
    case Arrive(i, checkpoint) => ArriveInv(w, i, checkpoint);
    case Foreign(i) => ForeignInv(w, i);
    case Return(i, failed) => LeaveInv(w, i, failed);
    case Exit(i) => ExitInv(w, i);
    case Die(i) => DieInv(w, i);
  }

  // ----------------------------------------------- steps of the controller

  // Fail and hand over to the end of the call in progress.
  lemma {:induction false} AbortInv(w: World, reason: Outcome, c: Control)
    requires Inv(w) && reason != Completed && w.acquired && !w.closed && !Done(w)
    requires !w.control.Dropped? && !w.control.TearingDown? && !w.control.Dropping?
    requires c.Settling? || c.AwaitStart? || c.Stopping? || c.Checking? || c.Cleaning?
    ensures Inv(Fail(w, reason).(control := c))
  {
    hide ActorsOk, LogOk, AllDone;
    if |w.actors| == |w.plan.actors| { StoppedActors(w, Fail(w, reason).(control := c)); }
  }

  // A stopped execution moves on to a later control point.
  lemma {:induction false} StoppedInv(w: World, c: Control)
    requires Inv(w) && w.stopping && w.acquired && !w.closed && !w.control.Dropped? && !w.control.Dropping?
    requires (c.Settling? && !w.scheduleCompleted) || c.Stopping? || c.Cleaning? || (c.TearingDown? && AllJoined(w))
    ensures Inv(w.(control := c))
  {
    hide ActorsOk, LogOk, AllDone;
    var v := w.(control := c);
    if |w.actors| == |w.plan.actors| {
      StoppedActors(w, v);
      if Done(w) { DoneKept(w, v); }
    }
  }

  lemma {:induction false} SpawnInv(w: World, spawned: bool)
    requires Inv(w) && w.acquired && w.control.Spawning? && |w.actors| == |w.plan.actors|
    requires 0 < |w.plan.steps| && !w.closed
    ensures Inv(OpeningStep(w, Spawn(spawned)))
  {
    hide Inv, Fail, SetActor;
    SpawnFacts(w);
    var k := w.control.k;
    if k >= |w.actors| { SpawnEnds(w); }
    else if !spawned { AbortInv(w, ResourceFailed, AwaitStart); }
    else { SpawnGoesOn(w); }
  }

  lemma {:induction false} SpawnFacts(w: World)
    requires Inv(w) && w.control.Spawning?
    ensures !Done(w)
  {
    hide ActorsOk, LogOk, AllDone;
  }

  lemma {:induction false} SpawnEnds(w: World)
    requires Inv(w) && w.acquired && w.control.Spawning? && |w.actors| == |w.plan.actors| && !w.closed
    requires 0 < |w.plan.steps|
    ensures Inv(w.(control := AwaitStart))
  {
    hide ActorsOk, LogOk, AllDone;
    var v := w.(control := AwaitStart);
    CalmActors(w, v);
    if Live(w) { SpawnLog(w, v); }
  }

  lemma {:induction false} SpawnLog(w: World, v: World)
    requires |w.actors| == |w.plan.actors| && LogOk(w) && w.control.Spawning? && 0 < |w.plan.steps|
    requires v == w.(control := v.control) && Opening(v.control)
    ensures LogOk(v)
  {
    LogKept(w, v);
  }

  lemma {:induction false} SpawnGoesOn(w: World)
    requires Inv(w) && w.acquired && w.control.Spawning? && w.control.k < |w.actors| == |w.plan.actors| && !w.closed
    requires 0 < |w.plan.steps|
    ensures var k := w.control.k;
            Inv(SetActor(w, k, w.actors[k].(place := Fresh)).(control := Spawning(k + 1)))
  {
    hide ActorsOk, LogOk, AllDone;
    SpawnedActors(w);
    if Live(w) { SpawnedLog(w); }
  }

  lemma {:induction false} SpawnedActors(w: World)
    requires w.control.Spawning? && w.control.k < |w.actors| == |w.plan.actors| && ActorsOk(w)
    requires w.actors[w.control.k].place.Unspawned?
    ensures var k := w.control.k;
            ActorsOk(SetActor(w, k, w.actors[k].(place := Fresh)).(control := Spawning(k + 1)))
  {
    var v := SetActor(w, w.control.k, w.actors[w.control.k].(place := Fresh)).(control := Spawning(w.control.k + 1));
    forall i | 0 <= i < |v.actors| ensures ActorOk(v, i) { assert ActorOk(w, i); }
  }

  lemma {:induction false} SpawnedLog(w: World)
    requires w.control.Spawning? && w.control.k < |w.actors| == |w.plan.actors| && LogOk(w)
    ensures var k := w.control.k;
            LogOk(SetActor(w, k, w.actors[k].(place := Fresh)).(control := Spawning(k + 1)))
  {
    hide Before, PlannedLog, Position;
    var v := SetActor(w, w.control.k, w.actors[w.control.k].(place := Fresh)).(control := Spawning(w.control.k + 1));
    forall i | 0 <= i < |v.actors| ensures AtPlanned(v, i) { assert AtPlanned(w, i); }
  }

  lemma {:induction false} PollInv(w: World)
    requires Inv(w) && w.acquired && !w.closed
    ensures Inv(OpeningStep(w, Poll))
  {
    hide Inv, Fail, AllParked, Keeps;
    var c := w.control;
    if c.AwaitStart? || (c.AwaitArrival? && c.i < |w.actors|) {
      PollFacts(w);
      if w.stopping { StoppedInv(w, Settling); }
      else if w.cancelled { AbortInv(w, Cancelled, Settling); }
      else if w.expired { AbortInv(w, TimedOut, Settling); }
      else if c.AwaitStart? {
        if AllParked(w) { StartSeen(w); }
      } else if !w.actors[c.i].phase.Running? { ArrivalSeen(w); }
    }
  }

  lemma {:induction false} PollFacts(w: World)
    requires Inv(w) && (w.control.AwaitStart? || w.control.AwaitArrival?)
    ensures !Done(w) && !w.scheduleCompleted && (!w.stopping ==> |w.actors| == |w.plan.actors|)
  {
    hide ActorsOk, LogOk, AllDone;
  }

  lemma {:induction false} StartSeen(w: World)
    requires Inv(w) && w.acquired && !w.closed && w.control.AwaitStart? && !w.stopping && AllParked(w)
    ensures Inv(w.(control := Observing))
  {
    hide ActorsOk, LogOk, AllDone;
    StartActors(w);
    StartLog(w);
  }

  lemma {:induction false} StartActors(w: World)
    requires |w.actors| == |w.plan.actors| && ActorsOk(w) && w.control.AwaitStart? && AllParked(w)
    ensures ActorsOk(w.(control := Observing))
  {
    var v := w.(control := Observing);
    forall k | 0 <= k < |v.actors| ensures ActorOk(v, k) { assert ActorOk(w, k); }
  }

  lemma {:induction false} StartLog(w: World)
    requires |w.actors| == |w.plan.actors| && LogOk(w) && w.control.AwaitStart?
    ensures LogOk(w.(control := Observing))
  {
    LogKept(w, w.(control := Observing));
  }

  lemma {:induction false} ArrivalSeen(w: World)
    requires Inv(w) && w.acquired && !w.closed && w.control.AwaitArrival? && !w.stopping
    requires w.control.i < |w.actors| && !w.actors[w.control.i].phase.Running?
    ensures Inv(w.(control := Arrived(w.control.i)))
  {
    hide ActorsOk, LogOk, AllDone;
    PollFacts(w);
    ArrivalActors(w);
    ArrivalLog(w);
  }

  lemma {:induction false} ArrivalActors(w: World)
    requires |w.actors| == |w.plan.actors| && ActorsOk(w) && w.control.AwaitArrival?
    requires w.control.i < |w.actors| && !w.actors[w.control.i].phase.Running?
    ensures ActorsOk(w.(control := Arrived(w.control.i)))
  {
    var v := w.(control := Arrived(w.control.i));
    forall k | 0 <= k < |v.actors| ensures ActorOk(v, k) { assert ActorOk(w, k); }
  }

  lemma {:induction false} ArrivalLog(w: World)
    requires |w.actors| == |w.plan.actors| && LogOk(w) && w.control.AwaitArrival?
    requires w.control.i < |w.actors| && !w.actors[w.control.i].phase.Running?
    ensures LogOk(w.(control := Arrived(w.control.i)))
  {
    hide Before, PlannedLog, Position;
    var v := w.(control := Arrived(w.control.i));
    forall k | 0 <= k < |v.actors| ensures AtPlanned(v, k) { assert AtPlanned(w, k); }
  }

  lemma {:induction false} GrantInv(w: World, requested: Step, bytes: nat)
    requires Inv(w) && w.acquired && w.control.Idle? && !w.closed && w.outcome == Completed
    requires |w.actors| == |w.plan.actors|
    ensures Inv(GrantStep(w, requested, bytes))
  {
    if w.cancelled { AbortInv(w, Cancelled, Settling);
    } else if w.expired { AbortInv(w, TimedOut, Settling);
    } else if w.next >= |w.plan.steps| || w.plan.steps[w.next] != requested {
      AbortInv(w, InvalidSchedule, Settling);
    } else {
      var i := Position(w.plan.actors, requested.actor);
      if i == |w.actors| {
      } else if !w.actors[i].phase.Parked? { AbortInv(w, UnexpectedCheckpoint, Settling);
      } else { PermitInv(w, i, bytes); }
    }
  }

  // The byte count takes no part in the books.
  lemma {:induction false} EvidenceInv(w: World, evidence: nat)
    requires Inv(w) && w.acquired && |w.actors| == |w.plan.actors| && w.stopping
    ensures Inv(w.(evidence := evidence))
  {
    hide ActorsOk, LogOk, AllDone;
    var v := w.(evidence := evidence);
    StoppedActors(w, v);
    if Done(w) { DoneKept(w, v); }
  }

  // The permit the plan asks for, written out.
  function PlannedPermit(w: World, i: nat, bytes: nat): World
    requires i < |w.actors| && w.next < |w.plan.steps|
  {
    SetActor(w, i, w.actors[i].(phase := Running)).(
      evidence := w.evidence + bytes,
      events := w.events + [PermitRow(w.plan, w.next)],
      control := AwaitArrival(i))
  }

  lemma {:induction false} PermitInv(w: World, i: nat, bytes: nat)
    requires Inv(w) && w.acquired && w.control.Idle? && !w.closed && !w.stopping && w.next < |w.plan.steps|
    requires i < |w.actors| == |w.plan.actors| && w.actors[i].phase.Parked?
    requires i == Position(w.plan.actors, w.plan.steps[w.next].actor)
    requires !w.cancelled && !w.expired && !w.scheduleCompleted
    ensures Inv(GrantStep(w, w.plan.steps[w.next], bytes))
  {
    hide Inv, GrantStep, Position, ActorsOk, LogOk;
    if w.evidence + bytes <= EVIDENCE_BOUND {
      PermitFacts(w, i);
      PermitLive(w, i, bytes);
      PlannedPermitLog(w, i, bytes);
      PlannedPermitActors(w, i, bytes);
      PlannedPermitInv(w, i, bytes);
    } else {
      PermitTooLarge(w, i, bytes);
      PermitRefused(w, bytes);
    }
  }

  lemma {:induction false} PermitFacts(w: World, i: nat)
    requires Inv(w) && w.acquired && w.control.Idle? && !w.stopping && !w.scheduleCompleted && w.next < |w.plan.steps|
    requires i < |w.actors| == |w.plan.actors| && i == Position(w.plan.actors, w.plan.steps[w.next].actor)
    ensures ActorsOk(w) && LogOk(w) && |w.events| == 2 * w.next
    ensures w.actors[i].checkpoint == Before(w.plan, w.next, w.plan.steps[w.next].actor)
  {
    hide ActorsOk, Before, AllDone;
    assert LogOk(w) && AtPlanned(w, i);
  }

  lemma {:induction false} PermitRefused(w: World, bytes: nat)
    requires Inv(w) && w.acquired && w.control.Idle? && !w.closed && !w.stopping && !w.scheduleCompleted
    requires |w.actors| == |w.plan.actors|
    ensures Inv(Fail(w, ResourceFailed).(control := Settling, evidence := w.evidence + bytes))
  {
    hide Inv;
    AbortInv(w, ResourceFailed, Settling);
    var v := Fail(w, ResourceFailed).(control := Settling);
    EvidenceInv(v, w.evidence + bytes);
  }

  lemma {:induction false} PlannedPermitInv(w: World, i: nat, bytes: nat)
    requires Inv(w) && w.acquired && w.control.Idle? && !w.closed && !w.stopping && !w.scheduleCompleted
    requires i < |w.actors| == |w.plan.actors| && w.next < |w.plan.steps| && w.actors[i].phase.Parked?
    requires ActorsOk(PlannedPermit(w, i, bytes)) && LogOk(PlannedPermit(w, i, bytes))
    ensures Inv(PlannedPermit(w, i, bytes))
  {
    hide ActorsOk, LogOk;
  }

  lemma {:induction false} PermitTooLarge(w: World, i: nat, bytes: nat)
    requires i < |w.actors| == |w.plan.actors| && w.next < |w.plan.steps| && w.actors[i].phase.Parked?
    requires i == Position(w.plan.actors, w.plan.steps[w.next].actor)
    requires !w.cancelled && !w.expired && !w.stopping && w.evidence + bytes > EVIDENCE_BOUND
    ensures GrantStep(w, w.plan.steps[w.next], bytes)
         == Fail(w, ResourceFailed).(control := Settling, evidence := w.evidence + bytes)
  {
    hide Position;
  }

  lemma {:induction false} PermitLive(w: World, i: nat, bytes: nat)
    requires i < |w.actors| == |w.plan.actors| && w.next < |w.plan.steps| && w.actors[i].phase.Parked?
    requires i == Position(w.plan.actors, w.plan.steps[w.next].actor)
    requires |w.events| == 2 * w.next && !w.cancelled && !w.expired && !w.stopping
    requires w.actors[i].checkpoint == Before(w.plan, w.next, w.plan.steps[w.next].actor)
    requires w.evidence + bytes <= EVIDENCE_BOUND
    ensures GrantStep(w, w.plan.steps[w.next], bytes) == PlannedPermit(w, i, bytes)
  {
  }

  lemma {:induction false} PlannedPermitActors(w: World, i: nat, bytes: nat)
    requires |w.actors| == |w.plan.actors| && ActorsOk(w) && i < |w.actors| && w.next < |w.plan.steps|
    requires w.control.Idle? && w.actors[i].phase.Parked? && !w.stopping
    ensures ActorsOk(PlannedPermit(w, i, bytes))
  {
    var v := PlannedPermit(w, i, bytes);
    forall k | 0 <= k < |v.actors| ensures ActorOk(v, k) { assert ActorOk(w, k); }
  }

  lemma {:induction false} PlannedPermitLog(w: World, i: nat, bytes: nat)
    requires w.control.Idle? && Live(w) && w.next < |w.plan.steps|
    requires i < |w.actors| == |w.plan.actors| && w.actors[i].phase.Parked? && LogOk(w)
    requires i == Position(w.plan.actors, w.plan.steps[w.next].actor)
    ensures LogOk(PlannedPermit(w, i, bytes))
  {
    hide Before, PlannedLog, Position;
    var v := PlannedPermit(w, i, bytes);
    forall k | 0 <= k < |v.actors| ensures AtPlanned(v, k) { assert AtPlanned(w, k); }
  }

  // The arrival the plan expects, written out.
  function PlannedArrival(w: World, bytes: nat): World
    requires w.control.Arrived? && w.next < |w.plan.steps|
  {
    var finished := w.plan.steps[w.next].checkpoint == COMPLETION;
    w.(evidence := w.evidence + bytes,
       events := w.events + [ArrivalRow(w.plan, w.next)],
       control := if finished then Joining(w.control.i) else Checking)
  }

  lemma {:induction false} RecordLive(w: World, bytes: nat)
    requires w.control.Arrived? && w.control.i < |w.actors| == |w.plan.actors| && w.next < |w.plan.steps|
    requires w.control.i == Position(w.plan.actors, w.plan.steps[w.next].actor)
    requires |w.events| == 2 * w.next + 1
    requires w.actors[w.control.i].checkpoint == COMPLETION <==> w.actors[w.control.i].phase.Finished?
    requires Live(RecordStep(w, w.control.i, bytes))
    ensures RecordStep(w, w.control.i, bytes) == PlannedArrival(w, bytes)
    ensures w.actors[w.control.i].checkpoint == w.plan.steps[w.next].checkpoint
  {
  }

  lemma {:induction false} RecordInv(w: World, bytes: nat)
    requires Inv(w) && w.acquired && w.control.Arrived? && w.control.i < |w.actors| == |w.plan.actors| && !w.closed
    requires DistinctDeclarations(w.plan)
    ensures Inv(RecordStep(w, w.control.i, bytes))
  {
    var v := RecordStep(w, w.control.i, bytes);
    assert ActorOk(w, w.control.i);
    if v.stopping {
      RecordedStopped(w, bytes);
    } else {
      RecordLive(w, bytes);
      PlannedArrivalInv(w, bytes);
    }
  }

  lemma {:induction false} PlannedArrivalInv(w: World, bytes: nat)
    requires Inv(w) && w.acquired && w.control.Arrived? && |w.actors| == |w.plan.actors| && !w.closed
    requires DistinctDeclarations(w.plan) && !w.stopping
    requires w.actors[w.control.i].checkpoint == w.plan.steps[w.next].checkpoint
    ensures Inv(PlannedArrival(w, bytes))
  {
    hide ActorsOk, LogOk, AllDone;
    PlannedArrivalActors(w, bytes);
    PlannedArrivalLog(w, bytes);
  }

  lemma {:induction false} PlannedArrivalActors(w: World, bytes: nat)
    requires |w.actors| == |w.plan.actors| && ActorsOk(w) && w.control.Arrived? && LogOk(w)
    requires w.actors[w.control.i].checkpoint == w.plan.steps[w.next].checkpoint
    ensures ActorsOk(PlannedArrival(w, bytes))
  {
    hide Position;
    var v := PlannedArrival(w, bytes);
    assert ActorOk(w, w.control.i);
    forall k | 0 <= k < |v.actors| ensures ActorOk(v, k) { assert ActorOk(w, k); }
  }

  lemma {:induction false} PlannedArrivalLog(w: World, bytes: nat)
    requires |w.actors| == |w.plan.actors| && ActorsOk(w) && LogOk(w) && w.control.Arrived? && DistinctDeclarations(w.plan)
    requires w.actors[w.control.i].checkpoint == w.plan.steps[w.next].checkpoint
    ensures LogOk(PlannedArrival(w, bytes))
  {
    hide PlacesOk, EventsOk, Position, Before, PlannedLog;
    assert ActorOk(w, w.control.i);
    PlannedArrivalEvents(w, bytes);
    PlannedArrivalPlaces(w, bytes);
  }



  // What neither a failure nor a log row touches.
  predicate SameStand(w: World, v: World) {
    && v.actors == w.actors && v.plan == w.plan && v.acquired == w.acquired && v.closed == w.closed
    && v.scheduleCompleted == w.scheduleCompleted && v.cleanup == w.cleanup && v.teardowns == w.teardowns
    && v.next == w.next && v.observations == w.observations && v.remaining == w.remaining
  }

  // A failure keeps an earlier one.
  predicate FailsOnly(w: World, v: World) {
    && (w.stopping ==> v.stopping) && (w.outcome != Completed ==> v.outcome != Completed)
    && ((w.outcome != Completed ==> w.stopping) ==>
          (v.outcome != Completed ==> v.stopping) && (v.stopping && !w.stopping ==> v.outcome != Completed))
  }

  lemma {:induction false} FailForm(w: World, reason: Outcome)
    requires reason != Completed
    ensures SameStand(w, Fail(w, reason)) && FailsOnly(w, Fail(w, reason)) && Fail(w, reason).control == w.control
  {
  }

  lemma {:induction false} RetainForm(w: World, kind: Kind, i: nat, bytes: nat)
    requires i < |w.actors| == |w.plan.actors|
    ensures SameStand(w, RetainEvent(w, kind, i, bytes)) && FailsOnly(w, RetainEvent(w, kind, i, bytes))
  {
    hide Fail, Keeps;
    FailForm(w.(evidence := w.evidence + bytes), ResourceFailed);
  }

  lemma {:induction false} HandedOver(w: World, kept: World, c: Control)
    requires SameStand(w, kept) && FailsOnly(w, kept)
    ensures SameStand(w, kept.(control := c)) && FailsOnly(w, kept.(control := c))
  {
  }

  lemma {:induction false} FailedAgain(w: World, kept: World, reason: Outcome)
    requires SameStand(w, kept) && FailsOnly(w, kept) && reason != Completed
    ensures SameStand(w, Fail(kept, reason)) && FailsOnly(w, Fail(kept, reason))
  {
    hide Fail, Keeps;
    FailForm(kept, reason);
  }

  lemma {:induction false} RecordForm(w: World, bytes: nat)
    requires w.control.Arrived? && w.control.i < |w.actors| == |w.plan.actors|
    ensures var v := RecordStep(w, w.control.i, bytes);
            && SameStand(w, v) && FailsOnly(w, v)
            && v.control == if w.actors[w.control.i].phase.Finished? then Joining(w.control.i) else Checking
  {
    hide Fail, Keeps, RetainEvent, SameStand, FailsOnly;
    var i := w.control.i;
    var kept, c := RetainEvent(w, Arrival, i, bytes), if w.actors[i].phase.Finished? then Joining(i) else Checking;
    RetainForm(w, Arrival, i, bytes);
    HandedOver(w, kept, c);
    FailedAgain(w, kept, UnexpectedCheckpoint);
    HandedOver(w, Fail(kept, UnexpectedCheckpoint), c);
  }

  lemma {:induction false} RecordedStopped(w: World, bytes: nat)
    requires Inv(w) && w.acquired && w.control.Arrived? && w.control.i < |w.actors| == |w.plan.actors| && !w.closed
    requires RecordStep(w, w.control.i, bytes).stopping
    ensures Inv(RecordStep(w, w.control.i, bytes))
  {
    hide RecordStep, ActorsOk, LogOk, AllDone;
    var v := RecordStep(w, w.control.i, bytes);
    RecordForm(w, bytes);
    StoppedActors(w, v);
  }



  lemma {:induction false} PlannedArrivalEvents(w: World, bytes: nat)
    requires w.control.Arrived? && CursorOk(w) && EventsOk(w)
    ensures EventsOk(PlannedArrival(w, bytes))
  {
    var permit, arrival := PermitRow(w.plan, w.next), ArrivalRow(w.plan, w.next);
    assert (PlannedLog(w.plan, w.next) + [permit]) + [arrival] == PlannedLog(w.plan, w.next) + [permit, arrival];
  }

  lemma {:induction false} PlannedArrivalPlaces(w: World, bytes: nat)
    requires w.control.Arrived? && |w.actors| == |w.plan.actors| && DistinctDeclarations(w.plan)
    requires CursorOk(w) && PlacesOk(w)
    requires w.actors[w.control.i].checkpoint == w.plan.steps[w.next].checkpoint
    ensures PlacesOk(PlannedArrival(w, bytes))
  {
    var v := PlannedArrival(w, bytes);
    forall k | 0 <= k < |v.actors| ensures AtPlanned(v, k) {
      assert AtPlanned(w, k);
      PositionFound(w.plan, k);
    }
  }

  lemma {:induction false} JoinInv(w: World, clean: bool)
    requires Inv(w) && w.acquired && !w.closed
    ensures Inv(IntervalStep(w, Join(clean)))
  {
    hide Inv, Fail, SetActor;
    var c := w.control;
    if c.Joining? && c.i < |w.actors| && w.actors[c.i].place.Dead? {
      JoiningFacts(w);
      if clean { JoinedInv(w); }
      else {
        FailInv(w, ApplicationFailed);
        FailForm(w, ApplicationFailed);
        JoinedInv(Fail(w, ApplicationFailed));
      }
    }
  }

  lemma {:induction false} JoiningFacts(w: World)
    requires Inv(w) && w.control.Joining? && !w.closed && w.acquired && w.control.i < |w.actors|
    ensures |w.actors| == |w.plan.actors| && !Done(w)
  {
    hide ActorsOk, LogOk, AllDone;
  }

  // The thread waited for is marked as joined.
  lemma {:induction false} JoinedInv(w: World)
    requires Inv(w) && w.acquired && !w.closed && w.control.Joining?
    requires w.control.i < |w.actors| == |w.plan.actors| && w.actors[w.control.i].place.Dead?
    ensures Inv(SetActor(w, w.control.i, w.actors[w.control.i].(joined := true)).(control := Checking))
  {
    hide ActorsOk, LogOk, AllDone;
    JoinedActors(w);
    if Live(w) { JoinedLog(w); }
  }

  lemma {:induction false} JoinedActors(w: World)
    requires w.control.Joining? && w.control.i < |w.actors| == |w.plan.actors| && ActorsOk(w)
    requires w.actors[w.control.i].place.Dead?
    ensures ActorsOk(SetActor(w, w.control.i, w.actors[w.control.i].(joined := true)).(control := Checking))
  {
    var v := SetActor(w, w.control.i, w.actors[w.control.i].(joined := true)).(control := Checking);
    forall k | 0 <= k < |v.actors| ensures ActorOk(v, k) { assert ActorOk(w, k); }
  }

  lemma {:induction false} JoinedLog(w: World)
    requires w.control.Joining? && w.control.i < |w.actors| == |w.plan.actors| && LogOk(w)
    ensures LogOk(SetActor(w, w.control.i, w.actors[w.control.i].(joined := true)).(control := Checking))
  {
    hide Before, PlannedLog, Position;
    var v := SetActor(w, w.control.i, w.actors[w.control.i].(joined := true)).(control := Checking);
    forall k | 0 <= k < |v.actors| ensures AtPlanned(v, k) { assert AtPlanned(w, k); }
  }

  lemma {:induction false} CheckInv(w: World)
    requires Inv(w) && w.acquired && !w.closed && w.control.Checking?
    ensures Inv(IntervalStep(w, Check))
  {
    hide ActorsOk, LogOk, AllDone;
    if w.outcome == Completed {
      var v := w.(next := w.next + 1, control := Observing);
      CalmActors(w, v);
      CheckedLog(w);
    } else {
      StoppedInv(w, Settling);
    }
  }

  lemma {:induction false} CheckedLog(w: World)
    requires |w.actors| == |w.plan.actors| && LogOk(w) && w.control.Checking?
    ensures LogOk(w.(next := w.next + 1, control := Observing))
  {
    LogKept(w, w.(next := w.next + 1, control := Observing));
  }

  lemma {:induction false} ObserveInv(w: World, o: Observed)
    requires Inv(w) && w.acquired && !w.closed && w.control.Observing?
    ensures Inv(ObserveStep(w, o))
  {
    hide Inv, ObserveStep;
    var v := ObserveStep(w, o);
    if w.stopping {
      ObservingStops(w, o);
    } else {
      ObservingFacts(w);
      ObserveCases(w, o);
      if v.stopping { AbortInv(w, v.outcome, Settling); }
      else { ObservedInv(w, o.text); }
    }
  }

  lemma {:induction false} ObservingStops(w: World, o: Observed)
    requires Inv(w) && w.acquired && !w.closed && w.control.Observing? && w.stopping
    ensures Inv(ObserveStep(w, o))
  {
    StoppedInv(w, Settling);
    hide Inv, Fail, Keeps;
  }

  lemma {:induction false} ObservingFacts(w: World)
    requires Inv(w) && w.control.Observing? && !w.stopping
    ensures !Done(w) && w.outcome == Completed
  {
    hide ActorsOk, LogOk, AllDone;
  }

  lemma {:induction false} ObserveCases(w: World, o: Observed)
    requires !w.stopping
    ensures var v := ObserveStep(w, o);
            if v.stopping then
              v == Fail(w, v.outcome).(control := Settling) && (w.outcome == Completed ==> v.outcome != Completed)
            else
              o.Observed? && v == w.(evidence := w.evidence + |o.text|, control := Settling,
                                     observations := w.observations + [Observation(w.next, o.text)])
  {
    hide Keeps, Fail;
    FailCases(w);
  }

  lemma {:induction false} FailCases(w: World)
    ensures forall reason ::
              var v := Fail(w.(control := Settling), reason);
              && v.stopping && v == Fail(w, v.outcome).(control := Settling)
              && (w.outcome == Completed ==> v.outcome == reason)
  {
  }

  lemma {:induction false} ObservedInv(w: World, text: string)
    requires Inv(w) && w.acquired && !w.closed && w.control.Observing? && !w.stopping
    ensures Inv(w.(evidence := w.evidence + |text|, control := Settling,
                   observations := w.observations + [Observation(w.next, text)]))
  {
    hide ActorsOk, LogOk, AllDone;
    var v := w.(evidence := w.evidence + |text|, control := Settling,
                observations := w.observations + [Observation(w.next, text)]);
    ObservingFacts(w);
    CalmActors(w, v);
    ObservedLog(w, v);
    ObservedSteps(w);
  }

  lemma {:induction false} ObservedLog(w: World, v: World)
    requires |w.actors| == |w.plan.actors| && LogOk(w) && w.control.Observing?
    requires v == w.(evidence := v.evidence, control := Settling, observations := v.observations)
    requires |v.observations| == |w.observations| + 1
    ensures LogOk(v)
  {
    LogKept(w, v);
  }

  lemma {:induction false} ObservedSteps(w: World)
    requires |w.actors| == |w.plan.actors| && LogOk(w) && w.control.Observing?
    ensures |w.observations| == w.next
  {
    hide PlacesOk, EventsOk;
  }

  lemma {:induction false} SettleInv(w: World)
    requires Inv(w) && w.acquired && !w.closed && w.control.Settling? && StepsAdmissible(w.plan)
    ensures Inv(SettleStep(w))
  {
    if w.outcome != Completed { StoppedInv(w, Stopping); }
    else if w.next == |w.plan.steps| {
      EveryoneIsGone(w);
      SettledInv(w, Completing);
    } else {
      SettledInv(w, Idle);
    }
  }

  lemma {:induction false} SettledInv(w: World, c: Control)
    requires Inv(w) && w.acquired && !w.closed && w.control.Settling? && w.outcome == Completed
    requires if c.Completing? then w.next == |w.plan.steps| && AllDone(w) else c.Idle? && w.next != |w.plan.steps|
    ensures Inv(w.(control := c))
  {
    hide ActorsOk, LogOk, AllDone;
    var v := w.(control := c);
    CalmActors(w, v);
    SettledLog(w, c);
    if c.Completing? { DoneKept(w, v); }
  }

  lemma {:induction false} SettledLog(w: World, c: Control)
    requires |w.actors| == |w.plan.actors| && LogOk(w) && w.control.Settling?
    requires if c.Completing? then w.next == |w.plan.steps| else c.Idle? && w.next != |w.plan.steps|
    ensures LogOk(w.(control := c))
  {
    LogKept(w, w.(control := c));
  }

  // When the last step has been observed every actor has finished and been joined.
  lemma {:induction false} EveryoneIsGone(w: World)
    requires |w.actors| == |w.plan.actors| && Live(w) && LogOk(w) && ActorsOk(w) && StepsAdmissible(w.plan)
    requires w.control.Settling? && w.next == |w.plan.steps|
    ensures AllDone(w)
  {
    hide StepsAdmissible, Before, PlannedLog, Position;
    forall k | 0 <= k < |w.actors| ensures w.actors[k].place.Dead? && w.actors[k].joined {
      OneIsGone(w, k);
    }
  }

  lemma {:induction false} OneIsGone(w: World, k: nat)
    requires |w.actors| == |w.plan.actors| && Live(w) && StepsAdmissible(w.plan) && k < |w.actors|
    requires w.control.Settling? && w.next == |w.plan.steps| && ActorOk(w, k) && AtPlanned(w, k)
    ensures w.actors[k].place.Dead? && w.actors[k].joined
  {
    hide StepsAdmissible, Before;
    AllCompleteAtEnd(w.plan, k);
  }

  lemma {:induction false} CompleteInv(w: World)
    requires Inv(w) && w.acquired && !w.closed && w.control.Completing?
    ensures Inv(IntervalStep(w, Complete))
  {
    hide ActorsOk, LogOk, AllDone;
    var v := w.(scheduleCompleted := true, control := Stopping);
    CalmActors(w, v);
    DoneKept(w, v);
    DoneMeans(w);
  }

  lemma {:induction false} DoneMeans(w: World)
    requires |w.actors| == |w.plan.actors| && AllDone(w)
    ensures w.next == |w.plan.steps|
  {
    hide PlannedLog;
  }

  // ------------------------------------------------- cleanup, teardown, drop

  lemma {:induction false} StopInv(w: World)
    requires Inv(w) && w.acquired && !w.closed && w.control.Stopping?
    ensures Inv(CleanupStep(w, Stop))
  {
    if w.outcome == Completed && !w.scheduleCompleted { AbortInv(w, Cancelled, Cleaning); }
    else { HaltInv(w, Cleaning); }
  }

  // Setting the stop flag, with or without a failure.
  lemma {:induction false} HaltInv(w: World, c: Control)
    requires Inv(w) && w.acquired
    requires if c.Cleaning? then !w.closed && w.control.Stopping? && (w.outcome == Completed ==> w.scheduleCompleted)
             else c.Dropping? && w.control.Idle?
    ensures Inv(w.(stopping := true, control := c))
  {
    var v := w.(stopping := true, control := c);
    if |w.actors| == |w.plan.actors| {
      forall k | 0 <= k < |v.actors| ensures ActorOk(v, k) { assert ActorOk(w, k); }
    }
  }

  lemma {:induction false} ReapInv(w: World, i: nat)
    requires Inv(w) && w.acquired && (w.control.Cleaning? || w.control.Dropping?)
    requires i < |w.actors| && w.actors[i].place.Dead?
    ensures Inv(SetActor(w, i, w.actors[i].(joined := true)))
  {
    var v := SetActor(w, i, w.actors[i].(joined := true));
    forall k | 0 <= k < |v.actors| ensures ActorOk(v, k) { assert ActorOk(w, k); }
  }

  // With every thread joined by advance there is nothing left to wait for.
  lemma {:induction false} DecideInv(w: World)
    requires Inv(w) && w.acquired && !w.closed && w.control.Cleaning? && |w.actors| <= |w.plan.actors|
    ensures Inv(DecideStep(w))
    ensures w.scheduleCompleted ==> DecideStep(w).control.TearingDown?
  {
    if Unjoined(w) == [] { StoppedInv(w, TearingDown); }
    else {
      var v := DecideStep(w);
      if |w.actors| == |w.plan.actors| {
        forall k | 0 <= k < |v.actors| ensures ActorOk(v, k) { assert ActorOk(w, k); }
      }
    }
  }

  lemma {:induction false} TearDownInv(w: World, ok: bool)
    requires Inv(w) && w.acquired && !w.closed && w.control.TearingDown?
    ensures Inv(TearDownStep(w, ok))
  {
    var v := TearDownStep(w, ok);
    if |w.actors| == |w.plan.actors| {
      forall k | 0 <= k < |v.actors| ensures ActorOk(v, k) { assert ActorOk(w, k); }
    }
  }

  lemma {:induction false} DropTearDownInv(w: World)
    requires Inv(w) && w.acquired && w.control.Dropping? && AllJoined(w)
    ensures Inv(DropStep(w, DropTearDown))
  {
    var v := DropStep(w, DropTearDown);
    if |w.actors| == |w.plan.actors| {
      forall k | 0 <= k < |v.actors| ensures ActorOk(v, k) { assert ActorOk(w, k); }
    }
  }

  // -------------------------------------------------------------- every step

  lemma {:induction false} FlagInv(w: World, l: Label)
    requires Inv(w) && IsFlagLabel(l)
    ensures Inv(FlagStep(w, l))
  {
    hide ActorsOk, LogOk, AllDone;
    var v := FlagStep(w, l);
    if |w.actors| == |w.plan.actors| {
      if w.acquired { FlagActors(w, v); }
      if Live(w) { FlagLog(w, v); }
      if Done(w) { DoneKept(w, v); }
    }
  }

  lemma {:induction false} FlagActors(w: World, v: World)
    requires |w.actors| == |w.plan.actors| && ActorsOk(w) && v == w.(cancelled := v.cancelled, expired := v.expired)
    ensures ActorsOk(v)
  {
    forall k | 0 <= k < |v.actors| ensures ActorOk(v, k) { assert ActorOk(w, k); }
  }

  lemma {:induction false} FlagLog(w: World, v: World)
    requires |w.actors| == |w.plan.actors| && LogOk(w) && v == w.(cancelled := v.cancelled, expired := v.expired)
    ensures LogOk(v)
  {
    hide Before, PlannedLog, Position;
    forall k | 0 <= k < |v.actors| ensures AtPlanned(v, k) { assert AtPlanned(w, k); }
  }

  lemma {:induction false} OpeningInv(w: World, l: Label)
    requires Inv(w) && Admissible(w.plan) && IsOpeningLabel(l)
    ensures Inv(OpeningStep(w, l))
  {
    match l
    case Spawn(spawned) =>
      AdmissibleHasSteps(w.plan);
      if w.control.Spawning? { SpawnInv(w, spawned); }
    case Poll =>
      if w.control.AwaitStart? || w.control.AwaitArrival? { PollInv(w); }
  }

  lemma {:induction false} IntervalInv(w: World, l: Label)
    requires Inv(w) && Admissible(w.plan) && IsIntervalLabel(l) && |w.actors| <= |w.plan.actors|
    ensures Inv(IntervalStep(w, l))
  {
    match l
    case Record(bytes) =>
      if w.control.Arrived? && w.control.i < |w.actors| == |w.plan.actors| { RecordInv(w, bytes); }
    case Join(clean) => if w.control.Joining? { JoinInv(w, clean); }
    case Check => if w.control.Checking? { CheckInv(w); }
    case Observe(o) => if w.control.Observing? { ObserveInv(w, o); }
    case Settle => if w.control.Settling? { SettleInv(w); }
    case Complete => if w.control.Completing? { CompleteInv(w); }
  }

  lemma {:induction false} CallInv(w: World, l: Label)
    requires Inv(w) && w.acquired && IsCallLabel(l) && |w.actors| <= |w.plan.actors|
    ensures Inv(CallStep(w, l))
  {
    if w.control.Idle? && !w.closed {
      match l
      case Grant(requested, bytes) =>
        if w.outcome == Completed && |w.actors| == |w.plan.actors| { GrantInv(w, requested, bytes); }
      case Finish => RequestCleanupInv(w, w.next != |w.plan.steps|);
      case CleanUp => RequestCleanupInv(w, false);
    }
  }

  lemma {:induction false} RequestCleanupInv(w: World, early: bool)
    requires Inv(w) && w.control.Idle? && !w.closed
    ensures early ==> Inv(Fail(w, InvalidSchedule).(control := Stopping))
    ensures !early ==> Inv(w.(control := Stopping))
  {
    if early {
      hide ActorsOk, LogOk, AllDone;
      AbortInv(w, InvalidSchedule, Stopping);
    } else {
      RequestInv(w);
    }
  }

  lemma {:induction false} RequestInv(w: World)
    requires Inv(w) && w.control.Idle? && !w.closed
    ensures Inv(w.(control := Stopping))
  {
    hide ActorsOk, LogOk;
    if |w.actors| == |w.plan.actors| { RequestActors(w); }
    if Live(w) { RequestLog(w); }
  }

  lemma {:induction false} RequestActors(w: World)
    requires |w.actors| == |w.plan.actors| && ActorsOk(w) && w.control.Idle?
    ensures ActorsOk(w.(control := Stopping))
  {
    var v := w.(control := Stopping);
    forall k | 0 <= k < |v.actors| ensures ActorOk(v, k) { assert ActorOk(w, k); }
  }

  lemma {:induction false} RequestLog(w: World)
    requires |w.actors| == |w.plan.actors| && LogOk(w) && w.control.Idle?
    ensures LogOk(w.(control := Stopping))
  {
    hide Before, PlannedLog, Position;
    var v := w.(control := Stopping);
    forall k | 0 <= k < |v.actors| ensures AtPlanned(v, k) { assert AtPlanned(w, k); }
  }

  lemma {:induction false} CleanupInv(w: World, l: Label)
    requires Inv(w) && w.acquired && IsCleanupLabel(l) && |w.actors| <= |w.plan.actors|
    ensures Inv(CleanupStep(w, l))
  {
    match l
    case Stop => if w.control.Stopping? { StopInv(w); }
    case Reap(i) =>
      if w.control.Cleaning? && i < |w.actors| && w.actors[i].place.Dead? { ReapInv(w, i); }
    case Decide => if w.control.Cleaning? { DecideInv(w); }
    case TearDown(ok) => if w.control.TearingDown? { TearDownInv(w, ok); }
  }

  lemma {:induction false} DropInv(w: World, l: Label)
    requires Inv(w) && w.acquired && IsDropLabel(l)
    ensures Inv(DropStep(w, l))
  {
    match l
    case Drop => if w.control.Idle? { HaltInv(w, Dropping); }
    case DropJoin(i) =>
      if w.control.Dropping? && i < |w.actors| && w.actors[i].place.Dead? { ReapInv(w, i); }
    case DropTearDown =>
      if w.control.Dropping? && AllJoined(w) { DropTearDownInv(w); }
  }

  // An execution that never acquired its program is closed; nothing is left to do.
  lemma {:induction false} RefusedInv(w: World, l: Label)
    requires Inv(w) && !w.acquired && Apply(w, l) != w
    ensures Inv(Apply(w, l))
  {
    hide Inv, FlagStep, OpeningStep, DropStep, IntervalStep, CallStep, CleanupStep, WorkerStep, Keeps;
    RefusedFacts(w);
    if IsFlagLabel(l) { FlagInv(w, l); }
    else if IsDropLabel(l) { RefusedDrop(w, l); }
    else { RefusedElse(w, l); }
  }

  lemma {:induction false} RefusedFacts(w: World)
    requires Inv(w) && !w.acquired
    ensures w.actors == [] && w.closed && (w.control.Idle? || w.control.Dropping? || w.control.Dropped?)
  {
  }

  lemma {:induction false} RefusedDrop(w: World, l: Label)
    requires Inv(w) && !w.acquired && IsDropLabel(l)
    ensures Inv(DropStep(w, l))
  {
    hide ActorsOk, LogOk, AllDone, PlannedLog;
    if Done(w) { DoneKept(w, DropStep(w, l)); }
  }

  lemma {:induction false} RefusedElse(w: World, l: Label)
    requires w.actors == [] && w.closed && (w.control.Idle? || w.control.Dropping? || w.control.Dropped?)
    requires !IsFlagLabel(l) && !IsDropLabel(l)
    ensures Apply(w, l) == w
  {
  }

  // Every atomic step of every thread keeps the invariant.
  lemma {:induction false} ApplyInv(w: World, l: Label)
    requires Inv(w) && (w.acquired ==> Admissible(w.plan))
    ensures Inv(Apply(w, l))
  {
    if !w.acquired { if Apply(w, l) != w { RefusedInv(w, l); } }
    else if IsFlagLabel(l) { FlagInv(w, l); }
    else if IsOpeningLabel(l) { OpeningInv(w, l); }
    else if IsDropLabel(l) { DropInv(w, l); }
    else if IsIntervalLabel(l) { IntervalInv(w, l); }
    else if IsCallLabel(l) { CallInv(w, l); }
    else if IsCleanupLabel(l) { CleanupInv(w, l); }
    else if l.w < |w.actors| == |w.plan.actors| { WorkerStepInv(w, l); }
  }

  // Every world of every run from every opening satisfies the invariant.
  lemma {:induction false} RunInv(plan: Plan, o: Acquisition, run: seq<Label>)
    requires Openable(plan, o)
    ensures Inv(Exec(Initial(plan, o), run))
    ensures Exec(Initial(plan, o), run).plan == plan
    ensures Exec(Initial(plan, o), run).acquired <==> o.Opened? || o.WorkersDiffer?
  {
    if run == [] {
      InitialInv(plan, o);
    } else {
      var w := Exec(Initial(plan, o), run[..|run| - 1]);
      RunInv(plan, o, run[..|run| - 1]);
      ApplyInv(w, run[|run| - 1]);
    }
  }
}
