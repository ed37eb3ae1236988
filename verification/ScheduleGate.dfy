// What admission is for.  Without it an execution could be carried through exactly
// when every step fits the declarations; admission lets fewer plans through, and
// nothing passes that it does not let through.
module ScheduleGate {
  import opened Schedule
  import opened ScheduleInvariant
  import opened ScheduleSafety
  import opened ScheduleReach
  import opened ScheduleMoves
  import opened ScheduleRealizable

  // A checkpoint that an actor can have arrived at.
  predicate Real(plan: Plan, c: string) { c == COMPLETION || (c in plan.checkpoints && Identifier(c)) }

  // What holds of an actor of any plan, admissible or not.
  predicate Fits(plan: Plan, a: Actor) {
    && (a.place.Unspawned? || a.place.Fresh? <==> a.phase.Starting?)
    && (a.place.Exited? || a.place.Dead? <==> a.phase.Finished?)
    && (a.checkpoint == COMPLETION <==> a.phase.Finished?)
    && (a.checkpoint == START || Real(plan, a.checkpoint))
  }

  // The first n steps fit the declarations, and whoever has completed in them is finished.
  predicate Behind(w: World, n: int)
    requires |w.actors| == |w.plan.actors|
  {
    && 0 <= n <= |w.plan.steps|
    && (forall k :: 0 <= k < n ==> StepRuns(w.plan, k))
    && (forall k :: 0 <= k < n && w.plan.steps[k].checkpoint == COMPLETION ==> Over(w, w.plan.steps[k].actor))
  }

  predicate Over(w: World, name: string)
    requires |w.actors| == |w.plan.actors|
  {
    var i := Position(w.plan.actors, name);
    i < |w.actors| && w.actors[i].phase.Finished?
  }

  // The step that is next moves actor i, who had not completed.
  predicate Moving(w: World, i: nat)
    requires |w.actors| == |w.plan.actors|
  {
    && i < |w.actors| && w.next < |w.plan.steps| && i == Position(w.plan.actors, w.plan.steps[w.next].actor)
    && (forall j :: 0 <= j < w.next && w.plan.steps[j].checkpoint == COMPLETION ==>
          w.plan.steps[j].actor != w.plan.steps[w.next].actor)
    && (w.actors[i].phase.Running? || Real(w.plan, w.actors[i].checkpoint))
  }

  // Where the controller is, for any plan.
  predicate Tracked(w: World)
    requires |w.actors| == |w.plan.actors|
  {
    && Behind(w, w.next)
    && (w.control.Spawning? ==> forall j :: w.control.k <= j < |w.actors| ==> w.actors[j].place.Unspawned?)
    && (w.control.AwaitArrival? ==> Moving(w, w.control.i))
    && (w.control.Arrived? ==> Moving(w, w.control.i) && !w.actors[w.control.i].phase.Running?)
    && ((w.control.Joining? || w.control.Checking?) && w.outcome == Completed ==> Behind(w, w.next + 1))
    && (w.control.Completing? || w.scheduleCompleted ==> w.next == |w.plan.steps|)
  }

  predicate AllFit(w: World) { forall i :: 0 <= i < |w.actors| ==> Fits(w.plan, w.actors[i]) }

  // ------------------------------------------------------------- actors

  // What a section can do to an actor that fits.
  predicate Goes(plan: Plan, a: Actor, b: Actor) {
    && Fits(plan, b)
    && (a.phase.Finished? ==> b.phase.Finished?)
    && (a.phase.Running? ==> b.phase.Running? || Real(plan, b.checkpoint))
    && (Real(plan, a.checkpoint) ==> Real(plan, b.checkpoint))
  }

  lemma {:induction false} OwnGoes(w: World, a: Actor, b: Actor)
    requires Fits(w.plan, a) && OwnMove(w, a, b)
    ensures Goes(w.plan, a, b) && (!a.phase.Running? ==> !b.phase.Running?)
  {
    hide IdentifierChar;
    if a.place.App? && b.place.Held? { IdentifiersAreNotReserved(b.checkpoint); }
  }

  lemma {:induction false} ActorGoes(w: World, l: Label, i: nat)
    requires i < |w.actors| && Fits(w.plan, w.actors[i])
    requires w.control.Spawning? && w.control.k < |w.actors| ==> w.actors[w.control.k].place.Unspawned?
    ensures Goes(w.plan, w.actors[i], Apply(w, l).actors[i])
    ensures !w.control.Idle? && !w.actors[i].phase.Running? ==> !Apply(w, l).actors[i].phase.Running?
  {
    hide Apply, OwnMove, Identifier;
    var a, b := w.actors[i], Apply(w, l).actors[i];
    StepMoves(w, l, i);
    if OwnMove(w, a, b) { OwnGoes(w, a, b); }
  }

  predicate AllGo(w: World, v: World) {
    && v.plan == w.plan && |v.actors| == |w.actors|
    && (forall i :: 0 <= i < |w.actors| ==> Goes(w.plan, w.actors[i], v.actors[i]))
    && (!w.control.Idle? ==> forall i :: 0 <= i < |w.actors| && !w.actors[i].phase.Running? ==> !v.actors[i].phase.Running?)
  }

  lemma {:induction false} AllActorsGo(w: World, l: Label)
    requires |w.actors| == |w.plan.actors| && AllFit(w) && Tracked(w)
    ensures AllGo(w, Apply(w, l)) && AllFit(Apply(w, l))
  {
    hide Apply, Fits, Goes, Behind, Moving;
    forall i | 0 <= i < |w.actors|
      ensures Goes(w.plan, w.actors[i], Apply(w, l).actors[i])
      ensures !w.control.Idle? && !w.actors[i].phase.Running? ==> !Apply(w, l).actors[i].phase.Running?
    {
      ActorGoes(w, l, i);
    }
    GoingFits(w, Apply(w, l));
  }

  lemma {:induction false} GoingFits(w: World, v: World)
    requires v.plan == w.plan && |v.actors| == |w.actors|
    requires forall i :: 0 <= i < |w.actors| ==> Goes(w.plan, w.actors[i], v.actors[i])
    ensures AllFit(v)
  {
    hide Fits;
  }

  lemma {:induction false} BehindKept(w: World, v: World, n: int)
    requires |w.actors| == |w.plan.actors| && AllGo(w, v) && Behind(w, n)
    ensures Behind(v, n)
  {
    hide StepRuns, Fits, Real;
    forall k | 0 <= k < n && v.plan.steps[k].checkpoint == COMPLETION ensures Over(v, v.plan.steps[k].actor) {
      assert Over(w, w.plan.steps[k].actor);
    }
  }

  lemma {:induction false} MovingKept(w: World, v: World, i: nat)
    requires |w.actors| == |w.plan.actors| && AllGo(w, v) && v.next == w.next && Moving(w, i)
    ensures Moving(v, i)
  {
    hide Fits, Real, Position;
    assert Goes(w.plan, w.actors[i], v.actors[i]);
  }

  // ------------------------------------------------------------- the controller

  // A section that leaves the controller where it is.
  predicate Stays(w: World, v: World) {
    && v.control == w.control && v.next == w.next && v.scheduleCompleted == w.scheduleCompleted
    && (w.outcome != Completed ==> v.outcome != Completed)
  }

  predicate Watched(c: Control) {
    c.Spawning? || c.AwaitArrival? || c.Arrived? || c.Joining? || c.Checking? || c.Completing?
  }

  // A section that takes the controller to where nobody is waited for.
  predicate Leaves(w: World, v: World) {
    !Watched(v.control) && v.next == w.next && v.scheduleCompleted == w.scheduleCompleted
  }

  lemma {:induction false} StaysTracked(w: World, v: World)
    requires |w.actors| == |w.plan.actors| && Tracked(w) && AllGo(w, v) && Stays(w, v) && !w.control.Spawning?
    ensures Tracked(v)
  {
    hide Behind, Moving, Goes;
    BehindKept(w, v, w.next);
    if w.control.AwaitArrival? || w.control.Arrived? { MovingKept(w, v, w.control.i); }
    if (w.control.Joining? || w.control.Checking?) && v.outcome == Completed { BehindKept(w, v, w.next + 1); }
    if w.control.Arrived? { ArrivedIn(w); }
  }

  lemma {:induction false} ArrivedIn(w: World)
    requires |w.actors| == |w.plan.actors| && Tracked(w) && w.control.Arrived?
    ensures w.control.i < |w.actors|
  {
  }

  lemma {:induction false} LeavesTracked(w: World, v: World)
    requires |w.actors| == |w.plan.actors| && Tracked(w) && AllGo(w, v) && Leaves(w, v)
    ensures Tracked(v)
  {
    hide Behind, Moving, Goes;
    BehindKept(w, v, w.next);
  }

  lemma {:induction false} FailStays(w: World)
    ensures forall reason: Outcome :: reason != Completed ==> Stays(w, Fail(w, reason))
  {
  }

  lemma {:induction false} SetStays(w: World)
    ensures forall i, a :: 0 <= i < |w.actors| ==> Stays(w, SetActor(w, i, a)) && SetActor(w, i, a).outcome == w.outcome
  {
  }

  lemma {:induction false} RetainStays(w: World, kind: Kind, i: nat, bytes: nat)
    requires i < |w.actors| == |w.plan.actors|
    ensures Stays(w, RetainEvent(w, kind, i, bytes))
  {
    hide Fail, Keeps;
    FailStays(w.(evidence := w.evidence + bytes));
  }

  lemma {:induction false} WorkerStays(w: World, l: Label)
    requires IsWorkerLabel(l) && l.w < |w.actors| == |w.plan.actors|
    ensures Stays(w, WorkerStep(w, l))
  {
    hide Fail, SetActor, Identifier;
    FailStays(w);
    SetStays(w);
    SetStays(Fail(w, ApplicationFailed));
  }

  // ------------------------------------------------------------- one step

  lemma {:induction false} UnspawnedStays(w: World, l: Label, j: nat)
    requires IsWorkerLabel(l) && l.w < |w.actors| == |w.plan.actors| && j < |w.actors| && w.actors[j].place.Unspawned?
    ensures WorkerStep(w, l).actors[j].place.Unspawned?
  {
    hide Fail, SetActor, Identifier, Keeps;
    FailLeaves(w, j);
    if l.w != j { SetLeaves(w, l.w, j); SetLeaves(Fail(w, ApplicationFailed), l.w, j); }
  }

  lemma {:induction false} FailLeaves(w: World, j: nat)
    requires j < |w.actors|
    ensures forall reason: Outcome :: |Fail(w, reason).actors| == |w.actors| && Fail(w, reason).actors[j] == w.actors[j]
  {
  }

  lemma {:induction false} SetLeaves(w: World, i: nat, j: nat)
    requires i < |w.actors| && j < |w.actors| && i != j
    ensures forall a :: |SetActor(w, i, a).actors| == |w.actors| && SetActor(w, i, a).actors[j] == w.actors[j]
  {
  }

  lemma {:induction false} WorkerTracked(w: World, l: Label)
    requires IsWorkerLabel(l) && l.w < |w.actors| == |w.plan.actors| && Tracked(w) && AllGo(w, WorkerStep(w, l))
    ensures Tracked(WorkerStep(w, l))
  {
    hide WorkerStep, Behind, Moving, AllGo, Goes;
    WorkerStays(w, l);
    var v := WorkerStep(w, l);
    if w.control.Spawning? {
      forall j | w.control.k <= j < |w.actors| ensures v.actors[j].place.Unspawned? { UnspawnedStays(w, l, j); }
      BehindKept(w, v, w.next);
      GoingSize(w, v);
    } else {
      StaysTracked(w, v);
    }
  }

  lemma {:induction false} GoingSize(w: World, v: World)
    requires AllGo(w, v)
    ensures v.plan == w.plan && |v.actors| == |w.actors|
  {
  }

  lemma {:induction false} FlagTracked(w: World, l: Label)
    requires IsFlagLabel(l) && |w.actors| == |w.plan.actors| && Tracked(w) && AllGo(w, FlagStep(w, l))
    ensures Tracked(FlagStep(w, l))
  {
    hide Behind, Moving, AllGo;
    var v := FlagStep(w, l);
    if w.control.Spawning? { BehindKept(w, v, w.next); } else { StaysTracked(w, v); }
  }

  lemma {:induction false} SpawnTracked(w: World, spawned: bool)
    requires w.control.Spawning? && |w.actors| == |w.plan.actors| && Tracked(w) && AllGo(w, OpeningStep(w, Spawn(spawned)))
    ensures Tracked(OpeningStep(w, Spawn(spawned)))
  {
    hide Behind, Moving, AllGo, OpeningStep;
    var v := OpeningStep(w, Spawn(spawned));
    SpawnShape(w, spawned);
    if v.control.Spawning? { BehindKept(w, v, w.next); } else { LeavesTracked(w, v); }
  }

  lemma {:induction false} SpawnShape(w: World, spawned: bool)
    requires w.control.Spawning?
    ensures var v := OpeningStep(w, Spawn(spawned)); var k := w.control.k;
            || Leaves(w, v)
            || (&& v.control == Spawning(k + 1) && v.next == w.next && v.scheduleCompleted == w.scheduleCompleted
                && |v.actors| == |w.actors| && (forall j :: k < j < |w.actors| ==> v.actors[j] == w.actors[j]))
  {
    hide Fail, SetActor;
    FailStays(w);
    if w.control.k < |w.actors| {
      SetStays(w);
      forall j | w.control.k < j < |w.actors|
        ensures forall a :: |SetActor(w, w.control.k, a).actors| == |w.actors| && SetActor(w, w.control.k, a).actors[j] == w.actors[j]
      {
        SetLeaves(w, w.control.k, j);
      }
    }
  }

  lemma {:induction false} PollTracked(w: World)
    requires |w.actors| == |w.plan.actors| && Tracked(w) && AllGo(w, OpeningStep(w, Poll))
    ensures Tracked(OpeningStep(w, Poll))
  {
    hide Behind, Moving, AllGo, OpeningStep;
    var v := OpeningStep(w, Poll);
    PollShape(w);
    if v != w {
      if v.control.Arrived? {
        BehindKept(w, v, w.next);
        MovingKept(w, v, w.control.i);
      } else {
        LeavesTracked(w, v);
      }
    }
  }

  lemma {:induction false} PollShape(w: World)
    ensures var v := OpeningStep(w, Poll);
            || v == w || Leaves(w, v)
            || (w.control.AwaitArrival? && w.control.i < |w.actors| && !w.actors[w.control.i].phase.Running?
                && v == w.(control := Arrived(w.control.i)))
  {
    hide Keeps, Fail, AllParked, PollStep;
    if w.control.AwaitStart? { OnePoll(w, AllParked(w), Observing); }
    else if w.control.AwaitArrival? && w.control.i < |w.actors| {
      OnePoll(w, !w.actors[w.control.i].phase.Running?, Arrived(w.control.i));
    }
  }

  lemma {:induction false} OnePoll(w: World, holds: bool, success: Control)
    ensures var v := PollStep(w, holds, success); v == w || Leaves(w, v) || (holds && v == w.(control := success))
  {
    hide Keeps, Fail;
    FailStays(w);
  }

  // The arrival of step `next`, judged in its favour, completes the step.
  lemma {:induction false} RecordTracked(w: World, bytes: nat)
    requires w.control.Arrived? && |w.actors| == |w.plan.actors| && Tracked(w) && AllFit(w) && w.control.i < |w.actors|
    requires AllGo(w, RecordStep(w, w.control.i, bytes))
    ensures Tracked(RecordStep(w, w.control.i, bytes))
  {
    hide Behind, Moving, AllGo, Goes, RecordStep, AllFit;
    ArrivedIn(w);
    var v := RecordStep(w, w.control.i, bytes);
    RecordShape(w, bytes);
    BehindKept(w, v, w.next);
    if v.outcome == Completed {
      StepDone(w);
      BehindKept(w, v, w.next + 1);
    }
  }

  lemma {:induction false} RecordShape(w: World, bytes: nat)
    requires w.control.Arrived? && w.control.i < |w.actors| == |w.plan.actors|
    ensures var v := RecordStep(w, w.control.i, bytes);
            && v.next == w.next && v.scheduleCompleted == w.scheduleCompleted && (v.control.Joining? || v.control.Checking?)
            && (v.outcome == Completed ==>
                  w.next < |w.plan.steps| && w.actors[w.control.i].checkpoint == w.plan.steps[w.next].checkpoint)
  {
    hide Fail, RetainEvent, Keeps;
    var kept := RetainEvent(w, Arrival, w.control.i, bytes);
    RetainStays(w, Arrival, w.control.i, bytes);
    FailedIsFailed(kept);
  }

  lemma {:induction false} FailedIsFailed(w: World)
    ensures Fail(w, UnexpectedCheckpoint).outcome != Completed && Stays(w, Fail(w, UnexpectedCheckpoint))
  {
  }

  lemma {:induction false} StepDone(w: World)
    requires w.control.Arrived? && |w.actors| == |w.plan.actors| && Tracked(w) && AllFit(w) && Moving(w, w.control.i)
    requires w.actors[w.control.i].checkpoint == w.plan.steps[w.next].checkpoint
    ensures Behind(w, w.next + 1)
  {
    hide Identifier;
    assert Fits(w.plan, w.actors[w.control.i]);
    assert Declares(w.plan, w.plan.steps[w.next].actor) by {
      assert w.plan.actors[w.control.i].actor == w.plan.steps[w.next].actor;
    }
    assert StepRuns(w.plan, w.next);
  }

  lemma {:induction false} IntervalTracked(w: World, l: Label)
    requires IsIntervalLabel(l) && |w.actors| == |w.plan.actors| && Tracked(w) && AllFit(w) && AllGo(w, IntervalStep(w, l))
    ensures Tracked(IntervalStep(w, l))
  {
    hide Tracked, AllGo, AllFit, IntervalStep, RecordStep, ObserveStep, JoinStep, SettleStep, Keeps, Fail;
    var v := IntervalStep(w, l);
    if v != w {
      IntervalForm(w, l);
      match l
      case Record(bytes) =>
        ArrivedIn(w);
        RecordTracked(w, bytes);
      case Join(clean) => JoinTracked(w, clean);
      case Check => CheckTracked(w, v);
      case Observe(o) =>
        ObserveLeaves(w, o);
        LeavesTracked(w, v);
      case Settle => SettleTracked(w, v);
      case Complete => CompleteTracked(w, v);
    }
  }

  lemma {:induction false} IntervalForm(w: World, l: Label)
    requires IsIntervalLabel(l) && |w.actors| == |w.plan.actors| && IntervalStep(w, l) != w
    ensures l.Record? ==> w.control.Arrived? && w.control.i < |w.actors| && IntervalStep(w, l) == RecordStep(w, w.control.i, l.arrivalBytes)
    ensures l.Join? ==> IntervalStep(w, l) == JoinStep(w, l.clean)
    ensures l.Check? ==>
              w.control.Checking? && IntervalStep(w, l)
              == if w.outcome == Completed then w.(next := w.next + 1, control := Observing) else w.(control := Settling)
    ensures l.Observe? ==> w.control.Observing? && IntervalStep(w, l) == ObserveStep(w, l.observed)
    ensures l.Settle? ==> w.control.Settling? && IntervalStep(w, l) == SettleStep(w)
    ensures l.Complete? ==> w.control.Completing? && IntervalStep(w, l) == w.(scheduleCompleted := true, control := Stopping)
  {
    hide RecordStep, JoinStep, ObserveStep, SettleStep, Keeps, Fail;
  }

  lemma {:induction false} CheckTracked(w: World, v: World)
    requires |w.actors| == |w.plan.actors| && Tracked(w) && w.control.Checking? && AllGo(w, v)
    requires v == if w.outcome == Completed then w.(next := w.next + 1, control := Observing) else w.(control := Settling)
    ensures Tracked(v)
  {
    hide Behind, Moving, AllGo;
    if w.outcome == Completed {
      BehindBound(w, w.next + 1);
      BehindKept(w, v, w.next + 1);
    } else {
      LeavesTracked(w, v);
    }
  }

  lemma {:induction false} SettleTracked(w: World, v: World)
    requires |w.actors| == |w.plan.actors| && Tracked(w) && w.control.Settling? && AllGo(w, v) && v == SettleStep(w)
    ensures Tracked(v)
  {
    hide Behind, Moving, AllGo, SettleStep;
    SettleShape(w);
    if v.control.Completing? { BehindKept(w, v, w.next); } else { LeavesTracked(w, v); }
  }

  lemma {:induction false} SettleShape(w: World)
    ensures var v := SettleStep(w);
            && v.next == w.next && v.scheduleCompleted == w.scheduleCompleted
            && ((v.control.Completing? && w.next == |w.plan.steps|) || !Watched(v.control))
  {
    var stop, complete, idle := w.(control := Stopping), w.(control := Completing), w.(control := Idle);
    assert SettleStep(w) == if w.outcome != Completed then stop else if w.next == |w.plan.steps| then complete else idle;
    hide SettleStep, Keeps;
  }

  lemma {:induction false} CompleteTracked(w: World, v: World)
    requires |w.actors| == |w.plan.actors| && Tracked(w) && w.control.Completing? && AllGo(w, v)
    requires v == w.(scheduleCompleted := true, control := Stopping)
    ensures Tracked(v)
  {
    hide Behind, Moving, AllGo;
    BehindKept(w, v, w.next);
  }

  lemma {:induction false} BehindBound(w: World, n: int)
    requires |w.actors| == |w.plan.actors| && Behind(w, n)
    ensures n <= |w.plan.steps|
  {
  }

  lemma {:induction false} JoinTracked(w: World, clean: bool)
    requires |w.actors| == |w.plan.actors| && Tracked(w) && AllGo(w, JoinStep(w, clean))
    ensures Tracked(JoinStep(w, clean))
  {
    hide Behind, Moving, AllGo, JoinStep;
    var v := JoinStep(w, clean);
    JoinShape(w, clean);
    if v != w {
      BehindKept(w, v, w.next);
      if v.outcome == Completed { BehindKept(w, v, w.next + 1); }
    }
  }

  lemma {:induction false} JoinShape(w: World, clean: bool)
    ensures var v := JoinStep(w, clean);
            || v == w
            || (w.control.Joining? && v.control == Checking && v.next == w.next && v.scheduleCompleted == w.scheduleCompleted
                && (v.outcome == Completed ==> w.outcome == Completed))
  {
    hide Fail, SetActor;
    var c := w.control;
    if c.Joining? && c.i < |w.actors| {
      FailStays(w);
      SetStays(w);
      SetStays(Fail(w, ApplicationFailed));
    }
  }

  lemma {:induction false} ObserveLeaves(w: World, o: Observed)
    ensures Leaves(w, ObserveStep(w, o))
  {
    hide Fail, Keeps;
    FailStays(w.(control := Settling));
  }

  // Whoever is released for a step has not completed before it.
  lemma {:induction false} GrantTracked(w: World, requested: Step, bytes: nat)
    requires w.control.Idle? && |w.actors| == |w.plan.actors| && Tracked(w) && AllGo(w, GrantStep(w, requested, bytes))
    ensures Tracked(GrantStep(w, requested, bytes))
  {
    hide Behind, Moving, AllGo, Goes, GrantStep;
    var v := GrantStep(w, requested, bytes);
    GrantShape(w, requested, bytes);
    if v != w {
      if v.control.AwaitArrival? {
        BehindKept(w, v, w.next);
        FreshMove(w, v.control.i);
        ReleasedMoves(w, v, v.control.i);
      } else {
        LeavesTracked(w, v);
      }
    }
  }

  lemma {:induction false} GrantShape(w: World, requested: Step, bytes: nat)
    requires w.control.Idle? && |w.actors| == |w.plan.actors|
    ensures var v := GrantStep(w, requested, bytes);
            || v == w || Leaves(w, v)
            || (&& v.control.AwaitArrival? && v.next == w.next < |w.plan.steps| && v.scheduleCompleted == w.scheduleCompleted
                && var i := v.control.i;
                   && i == Position(w.plan.actors, w.plan.steps[w.next].actor) && i < |w.actors| && w.actors[i].phase.Parked?
                   && |v.actors| == |w.actors| && v.plan == w.plan && v.actors[i].phase.Running?)
  {
    hide Fail, RetainEvent, Position, SetActor, Keeps;
    FailStays(w);
    var i := Position(w.plan.actors, requested.actor);
    if i < |w.actors| {
      var kept := RetainEvent(w, Permit, i, bytes);
      RetainStays(w, Permit, i, bytes);
      RetainSize(w, Permit, i, bytes);
      SetStays(kept);
      SetSets(kept, i, w.actors[i].(phase := Running));
    }
  }

  lemma {:induction false} RetainSize(w: World, kind: Kind, i: nat, bytes: nat)
    requires i < |w.actors| == |w.plan.actors|
    ensures var v := RetainEvent(w, kind, i, bytes); |v.actors| == |w.actors| && v.plan == w.plan
  {
    hide RetainEvent;
  }

  lemma {:induction false} SetSets(w: World, i: nat, a: Actor)
    requires i < |w.actors|
    ensures var v := SetActor(w, i, a); |v.actors| == |w.actors| && v.plan == w.plan && v.actors[i] == a
  {
  }

  lemma {:induction false} FreshMove(w: World, i: nat)
    requires |w.actors| == |w.plan.actors| && Behind(w, w.next) && w.next < |w.plan.steps|
    requires i == Position(w.plan.actors, w.plan.steps[w.next].actor) && i < |w.actors| && w.actors[i].phase.Parked?
    ensures forall j :: 0 <= j < w.next && w.plan.steps[j].checkpoint == COMPLETION ==>
              w.plan.steps[j].actor != w.plan.steps[w.next].actor
  {
    hide StepRuns, Position;
    forall j | 0 <= j < w.next && w.plan.steps[j].checkpoint == COMPLETION
      ensures w.plan.steps[j].actor != w.plan.steps[w.next].actor
    {
      assert Over(w, w.plan.steps[j].actor);
    }
  }

  lemma {:induction false} ReleasedMoves(w: World, v: World, i: nat)
    requires |w.actors| == |w.plan.actors| == |v.actors| && v.plan == w.plan && v.next == w.next < |w.plan.steps|
    requires i == Position(w.plan.actors, w.plan.steps[w.next].actor) && i < |w.actors| && v.actors[i].phase.Running?
    requires forall j :: 0 <= j < w.next && w.plan.steps[j].checkpoint == COMPLETION ==>
               w.plan.steps[j].actor != w.plan.steps[w.next].actor
    ensures Moving(v, i)
  {
  }

  // Calls, cleanup and Drop take the controller where nobody is waited for.
  lemma {:induction false} OtherShape(w: World, l: Label)
    requires |w.actors| <= |w.plan.actors| && (IsDropLabel(l) || IsCleanupLabel(l) || l.Finish? || l.CleanUp?)
    ensures var v := Apply(w, l); v == w || Leaves(w, v) || (Stays(w, v) && !w.control.Spawning?)
  {
    hide DropStep, CleanupStep, CallStep, Keeps;
    if IsDropLabel(l) { DropShape(w, l); }
    else if IsCleanupLabel(l) { CleanupShape(w, l); }
    else { CallShape(w, l); }
  }

  lemma {:induction false} DropShape(w: World, l: Label)
    requires IsDropLabel(l)
    ensures var v := DropStep(w, l); v == w || Leaves(w, v) || (Stays(w, v) && !w.control.Spawning?)
  {
    hide SetActor, AllJoined;
    SetStays(w);
  }

  lemma {:induction false} CleanupShape(w: World, l: Label)
    requires IsCleanupLabel(l) && |w.actors| <= |w.plan.actors|
    ensures var v := CleanupStep(w, l); v == w || Leaves(w, v) || (Stays(w, v) && !w.control.Spawning?)
  {
    hide Fail, SetActor, Unjoined, DecideStep, TearDownStep;
    FailStays(w);
    SetStays(w);
    DecideShape(w);
    TearDownShape(w);
  }

  lemma {:induction false} DecideShape(w: World)
    requires |w.actors| <= |w.plan.actors|
    ensures Leaves(w, DecideStep(w))
  {
    hide Unjoined, Keeps;
  }

  lemma {:induction false} TearDownShape(w: World)
    ensures forall ok :: Leaves(w, TearDownStep(w, ok))
  {
    hide Keeps;
  }

  lemma {:induction false} CallShape(w: World, l: Label)
    requires (l.Finish? || l.CleanUp?) && |w.actors| <= |w.plan.actors|
    ensures var v := CallStep(w, l); v == w || Leaves(w, v)
  {
    hide Fail, GrantStep;
    FailStays(w);
  }

  lemma {:induction false} TrackStep(w: World, l: Label)
    requires |w.actors| == |w.plan.actors| && AllFit(w) && Tracked(w)
    ensures var v := Apply(w, l); |v.actors| == |v.plan.actors| && AllFit(v) && Tracked(v)
  {
    hide AllFit, Tracked, AllGo, FlagStep, OpeningStep, DropStep, IntervalStep, CallStep, CleanupStep, WorkerStep;
    AllActorsGo(w, l);
    var v := Apply(w, l);
    GoingSize(w, v);
    if IsFlagLabel(l) { FlagTracked(w, l); }
    else if l.Spawn? { SpawnLabel(w, l.spawned); }
    else if l.Poll? { PollTracked(w); }
    else if IsIntervalLabel(l) { IntervalTracked(w, l); }
    else if l.Grant? { GrantLabel(w, l); }
    else if IsWorkerLabel(l) { if l.w < |w.actors| { WorkerTracked(w, l); } }
    else {
      OtherShape(w, l);
      if v != w {
        if Leaves(w, v) { LeavesTracked(w, v); } else { StaysTracked(w, v); }
      }
    }
  }

  lemma {:induction false} SpawnLabel(w: World, spawned: bool)
    requires |w.actors| == |w.plan.actors| && Tracked(w) && AllGo(w, OpeningStep(w, Spawn(spawned)))
    ensures Tracked(OpeningStep(w, Spawn(spawned)))
  {
    hide Tracked, AllGo;
    if w.control.Spawning? { SpawnTracked(w, spawned); }
  }

  lemma {:induction false} GrantLabel(w: World, l: Label)
    requires l.Grant? && |w.actors| == |w.plan.actors| && Tracked(w) && AllGo(w, CallStep(w, l))
    ensures Tracked(CallStep(w, l))
  {
    hide Tracked, AllGo, GrantStep;
    if w.control.Idle? && !w.closed && w.outcome == Completed { GrantTracked(w, l.requested, l.permitBytes); }
  }

  // ------------------------------------------------------------- the results

  lemma {:induction false} TrackRun(plan: Plan, run: seq<Label>)
    ensures var w := Exec(Initial(plan, Opened), run);
            w.plan == plan && |w.actors| == |w.plan.actors| && AllFit(w) && Tracked(w)
  {
    hide Apply;
    if run == [] {
      FreshTracked(plan);
    } else {
      TrackRun(plan, run[..|run| - 1]);
      TrackStep(Exec(Initial(plan, Opened), run[..|run| - 1]), run[|run| - 1]);
    }
  }

  lemma {:induction false} FreshTracked(plan: Plan)
    ensures var w := Initial(plan, Opened);
            w.plan == plan && |w.actors| == |w.plan.actors| && AllFit(w) && Tracked(w)
  {
  }

  // Opened without admission, a plan can end in a passed report exactly when every
  // step moves a declared actor, that has not completed, to a declared checkpoint or `$done`.
  lemma {:induction false} UngatedPassesIffRunnable(plan: Plan)
    ensures Runnable(plan) <==> exists run :: Passed(Exec(Initial(plan, Opened), run))
  {
    hide Exec, Initial, Runnable;
    if Runnable(plan) {
      RunnablePasses(plan);
    } else if run: seq<Label> :| Passed(Exec(Initial(plan, Opened), run)) {
      TrackRun(plan, run);
      TrackedToTheEnd(Exec(Initial(plan, Opened), run));
    }
  }

  lemma {:induction false} TrackedToTheEnd(w: World)
    requires |w.actors| == |w.plan.actors| && Tracked(w) && w.scheduleCompleted
    ensures Runnable(w.plan)
  {
    hide StepRuns;
  }

  // With admission in front, exactly the admissible plans can.
  lemma {:induction false} PassableIffAdmissible(plan: Plan)
    ensures Admissible(plan) <==>
            exists o, run :: Openable(plan, o) && Passed(Exec(Initial(plan, o), run))
  {
    hide Exec, Initial, Admissible;
    if Admissible(plan) {
      AdmissiblePasses(plan);
      var run: seq<Label> :| Passed(Exec(Initial(plan, Opened), run));
      assert Openable(plan, Opened);
    } else if o, run: seq<Label> :| Openable(plan, o) && Passed(Exec(Initial(plan, o), run)) {
      PassedLog(plan, o, run);
    }
  }

  // What admission asks for beyond that: somebody to schedule, names that are
  // identifiers and differ, declared checkpoints that are identifiers, and that everybody completes.
  lemma {:induction false} AdmissionIsRunnableAndTidy(plan: Plan)
    ensures Admissible(plan) <==>
            && Runnable(plan)
            && 0 < |plan.actors| && DistinctDeclarations(plan)
            && (forall i :: 0 <= i < |plan.actors| ==> Identifier(plan.actors[i].actor) && Identifier(plan.actors[i].operation))
            && (forall k :: 0 <= k < |plan.checkpoints| ==> Identifier(plan.checkpoints[k]))
            && (forall i :: 0 <= i < |plan.actors| ==> Step(plan.actors[i].actor, COMPLETION) in plan.steps)
  {
    hide IdentifierChar, Identifier, DistinctDeclarations;
    if Admissible(plan) { AdmissibleRuns(plan); }
    if Runnable(plan) {
      forall k | 0 <= k < |plan.steps|
        ensures Declares(plan, plan.steps[k].actor)
        ensures plan.steps[k].checkpoint != COMPLETION ==> plan.steps[k].checkpoint in plan.checkpoints
        ensures forall j :: 0 <= j < k && plan.steps[j].checkpoint == COMPLETION ==> plan.steps[j].actor != plan.steps[k].actor
      {
        assert StepRuns(plan, k);
      }
    }
  }
}
