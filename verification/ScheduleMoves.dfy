// What one section of any thread can make of one actor.
module ScheduleMoves {
  import opened Schedule

  // A section of the actor's own thread.
  predicate OwnMove(w: World, a: Actor, b: Actor) {
    || (a.place.Fresh? && b == a.(phase := Parked, place := Gate))
    || (a.place.Gate? && w.stopping && b == a.(place := Leaving(false)))
    || (a.place.Gate? && !w.stopping && a.phase.Running? && b == a.(place := App))
    || (a.place.Held? && (w.stopping || a.phase.Running?) && b == a.(place := App))
    || (a.place.App? && a.phase.Running? && !w.stopping && Identifier(b.checkpoint) && b.checkpoint in w.plan.checkpoints
          && b == a.(phase := Parked, checkpoint := b.checkpoint, place := Held))
    || (a.place.App? && b.place.Leaving? && b == a.(place := b.place))
    || (a.place.Leaving? && b == a.(phase := Finished, checkpoint := COMPLETION, place := Exited))
    || (a.place.Exited? && b == a.(place := Dead))
  }

  // Any section: the actor's own, being spawned, granted or joined, or none of its business.
  predicate ActorStep(w: World, a: Actor, b: Actor) {
    || b == a
    || OwnMove(w, a, b)
    || (w.control.Idle? && a.phase.Parked? && b == a.(phase := Running))
    || (a.place.Dead? && b == a.(joined := true))
    || (w.control.Spawning? && w.control.k < |w.actors| && a == w.actors[w.control.k] && b == a.(place := Fresh))
  }

  // Joining a thread is no move, nor is being granted.
  lemma {:induction false} SamePlace(w: World, a: Actor)
    ensures ActorStep(w, a, a)
    ensures a.place.Dead? ==> ActorStep(w, a, a.(joined := true))
    ensures w.control.Idle? && a.phase.Parked? ==> ActorStep(w, a, a.(phase := Running))
  {
  }

  // One actor is replaced, in a world that has the same actors otherwise.
  lemma {:induction false} MoveOne(w: World, t: World, k: nat, b: Actor, i: nat)
    requires k < |w.actors| && i < |w.actors| && t.actors == w.actors && ActorStep(w, w.actors[k], b)
    ensures ActorStep(w, w.actors[i], SetActor(t, k, b).actors[i])
  {
    hide ActorStep;
    SamePlace(w, w.actors[i]);
  }

  lemma {:induction false} ArriveMoves(w: World, k: nat, c: string, i: nat)
    requires k < |w.actors| && i < |w.actors|
    ensures ActorStep(w, w.actors[i], ArriveStep(w, k, c).actors[i])
  {
    hide Identifier, SetActor;
    SamePlace(w, w.actors[i]);
    var a := w.actors[k];
    if a.place.App? && a.phase.Running? && !w.stopping && Identifier(c) && c in w.plan.checkpoints {
      MoveOne(w, w, k, a.(phase := Parked, checkpoint := c, place := Held), i);
    }
  }

  lemma {:induction false} WakeMoves(w: World, k: nat, i: nat)
    requires k < |w.actors| && i < |w.actors|
    ensures ActorStep(w, w.actors[i], WakeStep(w, k).actors[i])
  {
    hide Identifier, SetActor;
    SamePlace(w, w.actors[i]);
    var a := w.actors[k];
    if a.place.Gate? && w.stopping { MoveOne(w, w, k, a.(place := Leaving(false)), i); }
    else if (a.place.Gate? || a.place.Held?) && (w.stopping || a.phase.Running?) { MoveOne(w, w, k, a.(place := App), i); }
  }

  lemma {:induction false} ExitMoves(w: World, k: nat, i: nat)
    requires k < |w.actors| && i < |w.actors|
    ensures ActorStep(w, w.actors[i], ExitStep(w, k).actors[i])
  {
    hide Identifier, SetActor;
    SamePlace(w, w.actors[i]);
    var a := w.actors[k];
    if a.place.Leaving? {
      var told := if !w.stopping && a.place.failed then Fail(w, ApplicationFailed) else w;
      MoveOne(w, told, k, a.(phase := Finished, checkpoint := COMPLETION, place := Exited), i);
    }
  }

  lemma {:induction false} WorkerMoves(w: World, l: Label, i: nat)
    requires IsWorkerLabel(l) && l.w < |w.actors| == |w.plan.actors| && i < |w.actors|
    ensures ActorStep(w, w.actors[i], WorkerStep(w, l).actors[i])
  {
    hide SetActor, ArriveStep, WakeStep, ExitStep, ActorStep, Identifier;
    SamePlace(w, w.actors[i]);
    match l
    case Begin(k) => if w.actors[k].place.Fresh? { BeginMoves(w, k, i); }
    case Wake(k) => WakeMoves(w, k, i);
    case Arrive(k, c) => ArriveMoves(w, k, c, i);
    case Foreign(k) =>
    case Return(k, failed) => if w.actors[k].place.App? { ReturnMoves(w, k, failed, i); }
    case Exit(k) => ExitMoves(w, k, i);
    case Die(k) => if w.actors[k].place.Exited? { DieMoves(w, k, i); }
  }

  lemma {:induction false} BeginMoves(w: World, k: nat, i: nat)
    requires k < |w.actors| && i < |w.actors| && w.actors[k].place.Fresh?
    ensures ActorStep(w, w.actors[i], SetActor(w, k, w.actors[k].(phase := Parked, place := Gate)).actors[i])
  {
    hide SetActor, Identifier;
    MoveOne(w, w, k, w.actors[k].(phase := Parked, place := Gate), i);
  }

  lemma {:induction false} ReturnMoves(w: World, k: nat, failed: bool, i: nat)
    requires k < |w.actors| && i < |w.actors| && w.actors[k].place.App?
    ensures ActorStep(w, w.actors[i], SetActor(w, k, w.actors[k].(place := Leaving(failed))).actors[i])
  {
    hide SetActor, Identifier;
    MoveOne(w, w, k, w.actors[k].(place := Leaving(failed)), i);
  }

  lemma {:induction false} DieMoves(w: World, k: nat, i: nat)
    requires k < |w.actors| && i < |w.actors| && w.actors[k].place.Exited?
    ensures ActorStep(w, w.actors[i], SetActor(w, k, w.actors[k].(place := Dead)).actors[i])
  {
    hide SetActor, Identifier;
    MoveOne(w, w, k, w.actors[k].(place := Dead), i);
  }

  lemma {:induction false} GrantMoves(w: World, requested: Step, bytes: nat, i: nat)
    requires i < |w.actors| == |w.plan.actors| && w.control.Idle?
    ensures ActorStep(w, w.actors[i], GrantStep(w, requested, bytes).actors[i])
  {
    hide ActorStep, SetActor, RetainEvent, Position;
    SamePlace(w, w.actors[i]);
    var k := Position(w.plan.actors, requested.actor);
    if k < |w.actors| && w.actors[k].phase.Parked? {
      RetainKeepsActors(w, Permit, k, bytes);
      SamePlace(w, w.actors[k]);
      MoveOne(w, RetainEvent(w, Permit, k, bytes), k, w.actors[k].(phase := Running), i);
    }
  }

  lemma {:induction false} RetainKeepsActors(w: World, kind: Kind, i: nat, bytes: nat)
    requires i < |w.actors| == |w.plan.actors|
    ensures RetainEvent(w, kind, i, bytes).actors == w.actors
  {
  }

  lemma {:induction false} PollKeepsActors(w: World)
    ensures forall holds, success :: PollStep(w, holds, success).actors == w.actors
  {
  }

  lemma {:induction false} FailKeepsActors(w: World)
    ensures forall reason :: Fail(w, reason).actors == w.actors
  {
  }

  lemma {:induction false} SpawnMoves(w: World, i: nat)
    requires w.control.Spawning? && w.control.k < |w.actors| && i < |w.actors|
    ensures ActorStep(w, w.actors[i], SetActor(w, w.control.k, w.actors[w.control.k].(place := Fresh)).actors[i])
  {
    hide SetActor, OwnMove;
    MoveOne(w, w, w.control.k, w.actors[w.control.k].(place := Fresh), i);
  }

  lemma {:induction false} OpeningMoves(w: World, l: Label, i: nat)
    requires IsOpeningLabel(l) && i < |w.actors|
    ensures ActorStep(w, w.actors[i], OpeningStep(w, l).actors[i])
  {
    hide ActorStep, SetActor, AllParked, PollStep, Fail;
    PollKeepsActors(w);
    FailKeepsActors(w);
    SamePlace(w, w.actors[i]);
    if l.Spawn? && w.control.Spawning? && w.control.k < |w.actors| {
      SpawnMoves(w, i);
    }
  }

  lemma {:induction false} JoinMoves(w: World, k: nat, i: nat)
    requires k < |w.actors| && i < |w.actors| && w.actors[k].place.Dead?
    ensures forall t: World :: t.actors == w.actors ==>
              ActorStep(w, w.actors[i], SetActor(t, k, w.actors[k].(joined := true)).actors[i])
  {
    hide ActorStep, SetActor;
    SamePlace(w, w.actors[k]);
    forall t: World | t.actors == w.actors
      ensures ActorStep(w, w.actors[i], SetActor(t, k, w.actors[k].(joined := true)).actors[i])
    {
      MoveOne(w, t, k, w.actors[k].(joined := true), i);
    }
  }

  lemma {:induction false} RecordKeepsActors(w: World, i: nat, bytes: nat)
    requires i < |w.actors| == |w.plan.actors|
    ensures RecordStep(w, i, bytes).actors == w.actors
  {
    hide RetainEvent;
    RetainKeepsActors(w, Arrival, i, bytes);
  }

  lemma {:induction false} ObserveKeepsActors(w: World, o: Observed)
    ensures ObserveStep(w, o).actors == w.actors
  {
  }

  lemma {:induction false} SettleKeepsActors(w: World)
    ensures SettleStep(w).actors == w.actors
  {
  }

  lemma {:induction false} IntervalMoves(w: World, l: Label, i: nat)
    requires IsIntervalLabel(l) && i < |w.actors| <= |w.plan.actors|
    ensures ActorStep(w, w.actors[i], IntervalStep(w, l).actors[i])
  {
    hide ActorStep, SetActor, RecordStep, ObserveStep, SettleStep, Fail;
    SamePlace(w, w.actors[i]);
    FailKeepsActors(w);
    var c := w.control;
    match l
    case Record(bytes) => if c.Arrived? && c.i < |w.actors| == |w.plan.actors| { RecordKeepsActors(w, c.i, bytes); }
    case Join(clean) => if c.Joining? && c.i < |w.actors| && w.actors[c.i].place.Dead? { JoinMoves(w, c.i, i); }
    case Observe(observed) => ObserveKeepsActors(w, observed);
    case Check =>
    case Settle => SettleKeepsActors(w);
    case Complete =>
  }

  lemma {:induction false} CleanupMoves(w: World, l: Label, i: nat)
    requires IsCleanupLabel(l) && i < |w.actors| <= |w.plan.actors|
    ensures ActorStep(w, w.actors[i], CleanupStep(w, l).actors[i])
  {
    hide ActorStep, SetActor, Unjoined;
    SamePlace(w, w.actors[i]);
    if l.Reap? && l.thread < |w.actors| && w.actors[l.thread].place.Dead? { JoinMoves(w, l.thread, i); }
  }

  lemma {:induction false} DropMoves(w: World, l: Label, i: nat)
    requires IsDropLabel(l) && i < |w.actors|
    ensures ActorStep(w, w.actors[i], DropStep(w, l).actors[i])
  {
    hide ActorStep, SetActor, AllJoined;
    SamePlace(w, w.actors[i]);
    if l.DropJoin? && l.dropped < |w.actors| && w.actors[l.dropped].place.Dead? { JoinMoves(w, l.dropped, i); }
  }

  lemma {:induction false} CallMoves(w: World, l: Label, i: nat)
    requires IsCallLabel(l) && i < |w.actors| <= |w.plan.actors|
    ensures ActorStep(w, w.actors[i], CallStep(w, l).actors[i])
  {
    hide ActorStep, GrantStep;
    SamePlace(w, w.actors[i]);
    if l.Grant? && w.control.Idle? && |w.actors| == |w.plan.actors| { GrantMoves(w, l.requested, l.permitBytes, i); }
  }

  // No section moves a thread in any other way.
  lemma {:induction false} StepMoves(w: World, l: Label, i: nat)
    requires i < |w.actors|
    ensures ActorStep(w, w.actors[i], Apply(w, l).actors[i])
  {
    hide ActorStep, WorkerStep, OpeningStep, DropStep, IntervalStep, CallStep, CleanupStep;
    SamePlace(w, w.actors[i]);
    if IsFlagLabel(l) {}
    else if IsOpeningLabel(l) { OpeningMoves(w, l, i); }
    else if IsDropLabel(l) { DropMoves(w, l, i); }
    else if |w.actors| > |w.plan.actors| {}
    else if IsIntervalLabel(l) { IntervalMoves(w, l, i); }
    else if IsCallLabel(l) { CallMoves(w, l, i); }
    else if IsCleanupLabel(l) { CleanupMoves(w, l, i); }
    else if l.w < |w.actors| == |w.plan.actors| { WorkerMoves(w, l, i); }
  }
}
