// What the calls of src/schedule.rs amount to: the controller's sections of module
// Schedule strung together, with whatever the other threads do in between.
module Calls {
  import opened Schedule
  import opened ScheduleInvariant

  // What the callbacks of one call do, and how large its log rows are.
  datatype Answers = Answers(
    permitBytes: nat, arrivalBytes: nat, joinClean: bool, observed: Observed, tornDown: bool)

  predicate EnvironmentLabel(l: Label) { IsWorkerLabel(l) || IsFlagLabel(l) }

  // What threads other than the controller's cannot touch.
  predicate ControllerKept(w: World, v: World) {
    && Keeps(w, v)
    && v.control == w.control && v.next == w.next && v.closed == w.closed
    && v.scheduleCompleted == w.scheduleCompleted && v.cleanup == w.cleanup && v.teardowns == w.teardowns
    && v.events == w.events && v.observations == w.observations
  }

  lemma {:induction false} FailKept(w: World, reason: Outcome)
    ensures ControllerKept(w, Schedule.Fail(w, reason))
  {
  }

  lemma {:induction false} SetActorKept(w: World, i: nat, a: Actor)
    requires i < |w.actors|
    ensures ControllerKept(w, SetActor(w, i, a))
  {
  }

  lemma {:induction false} KeptAlong(u: World, v: World, w: World)
    requires ControllerKept(u, v) && ControllerKept(v, w)
    ensures ControllerKept(u, w)
  {
  }

  // A worker's section fails the execution or not, and sets its own actor or not.
  lemma {:induction false} WorkerForm(w: World, l: Label) returns (told: World, a: Actor)
    requires IsWorkerLabel(l) && l.w < |w.actors| == |w.plan.actors|
    ensures told == w || exists reason :: told == Schedule.Fail(w, reason)
    ensures l.w < |told.actors| && (WorkerStep(w, l) == told || WorkerStep(w, l) == SetActor(told, l.w, a))
  {
    hide SetActor, Schedule.Fail, Identifier, Keeps;
    var i := l.w;
    told, a := w, w.actors[i];
    match l {
      case Begin(_) => a := a.(phase := Parked, place := Gate);
      case Wake(_) => a := a.(place := if a.place.Gate? && w.stopping then Leaving(false) else App);
      case Arrive(_, c) =>
        if a.place.App? && !a.phase.Running? { told := Schedule.Fail(w, UncontrolledActor); }
        else if a.place.App? && !w.stopping && (!Identifier(c) || c !in w.plan.checkpoints) {
          told := Schedule.Fail(w, UnexpectedCheckpoint);
        }
        a := a.(phase := Parked, checkpoint := c, place := Held);
      case Foreign(_) =>
        if a.place.App? || a.place.Held? { told := Schedule.Fail(w, UncontrolledActor); }
      case Return(_, failed) => a := a.(place := Leaving(failed));
      case Exit(_) =>
        if a.place.Leaving? && !w.stopping && a.place.failed { told := Schedule.Fail(w, ApplicationFailed); }
        a := a.(phase := Finished, checkpoint := COMPLETION, place := Exited);
      case Die(_) => a := a.(place := Dead);
    }
    FailSize(w);
  }

  lemma {:induction false} FailSize(w: World)
    ensures forall reason :: |Schedule.Fail(w, reason).actors| == |w.actors|
  {
  }

  lemma {:induction false} WorkerKeeps(w: World, l: Label)
    requires IsWorkerLabel(l) && l.w < |w.actors| == |w.plan.actors|
    ensures ControllerKept(w, WorkerStep(w, l))
  {
    var told, a := WorkerForm(w, l);
    hide WorkerStep, SetActor;
    if told != w {
      var reason :| told == Schedule.Fail(w, reason);
      FailKept(w, reason);
    }
    SetActorKept(told, l.w, a);
    KeptAlong(w, told, SetActor(told, l.w, a));
  }

  // ------------------------------------------------ what a call amounts to

  // An execution together with what is still to come from outside: the batches of
  // other threads' sections and the rounds left before the deadline.
  datatype State = State(world: World, schedule: seq<seq<Label>>, ticks: nat)

  // A section of another thread, whichever thread it names.
  function Move(w: World, l: Label): World {
    if EnvironmentLabel(l) then Apply(w, l) else w
  }

  function Batch(w: World, labels: seq<Label>): World {
    if labels == [] then w else Move(Batch(w, labels[..|labels| - 1]), labels[|labels| - 1])
  }

  // The lock is free once.
  function Windowed(s: State): State {
    if s.schedule == [] then s else s.(world := Batch(s.world, s.schedule[0]), schedule := s.schedule[1..])
  }

  // One wait on the condition variable: the lock is free, and time may be up.
  function Paused(s: State): State {
    var t := Windowed(s);
    if s.ticks == 0 then t.(world := FlagStep(t.world, Expire)) else t
  }

  predicate Holds(w: World, starting: bool, i: nat) {
    if starting then AllParked(w) else i < |w.actors| && !w.actors[i].phase.Running?
  }

  function Polled(w: World, starting: bool, i: nat): World {
    PollStep(w, Holds(w, starting, i), if starting then Observing else Arrived(i))
  }

  // One round of wait_for.
  function Rounded(s: State, starting: bool, i: nat): State {
    var t := Paused(s);
    State(Polled(t.world, starting, i), t.schedule, if s.ticks == 0 then 0 else s.ticks - 1)
  }

  // wait_for: rounds until the controller moves on, at the latest when time is up.
  function Waited(s: State, starting: bool, i: nat): State
    decreases s.ticks
  {
    var t := Rounded(s, starting, i);
    if t.world.control != s.world.control || s.ticks == 0 then t else Waited(t, starting, i)
  }

  function CheckStep(w: World): World {
    if w.outcome == Completed then w.(next := w.next + 1, control := Observing) else w.(control := Settling)
  }

  // Check and, if nothing has failed, observe.
  function Concluded(s: State, answer: Observed): State {
    var c := s.(world := CheckStep(s.world));
    if !c.world.control.Observing? then c
    else var o := Windowed(c); o.(world := ObserveStep(o.world, answer))
  }

  // Join a thread that has finished; its destructors run first.
  function Joined(w: World, clean: bool): World {
    if w.control.Joining? && w.control.i < |w.actors| == |w.plan.actors| then
      JoinStep(if w.actors[w.control.i].place.Exited? then WorkerStep(w, Die(w.control.i)) else w, clean)
    else w
  }

  // From the arrival of the released actor to the observation after it.
  function Recorded(s: State, answers: Answers): State {
    var w := s.world;
    if !w.control.Arrived? || !(w.control.i < |w.actors| == |w.plan.actors|) then s
    else Concluded(Windowed(s.(world := Joined(RecordStep(w, w.control.i, answers.arrivalBytes), answers.joinClean))),
                   answers.observed)
  }

  // The interval of advance up to where it settles.
  function Advanced(s: State, requested: Step, answers: Answers): State {
    if s.world.outcome != Completed || |s.world.actors| != |s.world.plan.actors| then s
    else
      var g := s.(world := GrantStep(s.world, requested, answers.permitBytes));
      if !g.world.control.AwaitArrival? then g
      else Recorded(Waited(g, false, g.world.control.i), answers)
  }

  // An execution that has failed is only reported.
  lemma {:induction false} NothingAdvanced(s: State, requested: Step, answers: Answers)
    requires s.world.outcome != Completed
    ensures Windowed(Advanced(s, requested, answers)).world.outcome == s.world.outcome
  {
    BatchOutcome(s.world, if s.schedule == [] then [] else s.schedule[0]);
  }

  lemma {:induction false} BatchOutcome(w: World, labels: seq<Label>)
    requires w.outcome != Completed
    ensures Batch(w, labels).outcome == w.outcome
  {
    hide Move;
    if labels != [] {
      BatchOutcome(w, labels[..|labels| - 1]);
      MoveOutcome(Batch(w, labels[..|labels| - 1]), labels[|labels| - 1]);
    }
  }

  lemma {:induction false} MoveOutcome(w: World, l: Label)
    requires w.outcome != Completed
    ensures Move(w, l).outcome == w.outcome
  {
  }

  function SpawnedOne(s: State, k: nat): State
    requires k < |s.world.actors|
  {
    s.(world := SetActor(s.world, k, s.world.actors[k].(place := Fresh)).(control := Spawning(k + 1)))
  }

  function SpawnedFrom(s: State, k: nat, spawnable: nat): State
    decreases |s.world.actors| - k
  {
    if k < |s.world.actors| && k < spawnable then
      var t := Windowed(SpawnedOne(s, k));
      if |t.world.actors| != |s.world.actors| then s else SpawnedFrom(t, k + 1, spawnable)
    else s.(world := (if k < |s.world.actors| then Schedule.Fail(s.world, ResourceFailed) else s.world)
                       .(control := AwaitStart))
  }

  lemma {:induction false} SpawnedMore(s: State, k: nat, spawnable: nat)
    requires k < |s.world.actors| && k < spawnable
    ensures var t := Windowed(SpawnedOne(s, k));
            |t.world.actors| == |s.world.actors| ==> SpawnedFrom(s, k, spawnable) == SpawnedFrom(t, k + 1, spawnable)
  {
    hide Windowed, SpawnedOne;
  }

  lemma {:induction false} SpawnedEnd(s: State, k: nat, spawnable: nat)
    requires k >= |s.world.actors| || k >= spawnable
    ensures SpawnedFrom(s, k, spawnable)
         == s.(world := (if k < |s.world.actors| then Schedule.Fail(s.world, ResourceFailed) else s.world).(control := AwaitStart))
  {
    hide Windowed, SpawnedOne;
  }

  // start_schedule from its first thread up to where it settles.
  function Started(s: State, spawnable: nat, answer: Observed): State {
    var t := Waited(SpawnedFrom(s, 0, spawnable), true, 0);
    if t.world.control.Observing? then t.(world := ObserveStep(t.world, answer)) else t
  }

  // advance up to where it is settled, and start_schedule likewise.
  function AdvancedTo(s: State, requested: Step, answers: Answers): State {
    Windowed(Advanced(Windowed(s), requested, answers))
  }

  // run_schedule from step k on: one call after the other, until one fails.
  function Driven(s: State, steps: seq<Step>, answers: seq<Answers>, k: nat): State
    requires |answers| == |steps|
    decreases |steps| - k
  {
    if k >= |steps| || s.world.outcome != Completed then s
    else
      var t := AdvancedTo(s, steps[k], answers[k]);
      Driven(t.(world := t.world.(control := Idle)), steps, answers, k + 1)
  }

  lemma {:induction false} DrivenMore(s: State, steps: seq<Step>, answers: seq<Answers>, k: nat)
    requires |answers| == |steps| && k < |steps| && s.world.outcome == Completed
    ensures var t := AdvancedTo(s, steps[k], answers[k]);
            Driven(s, steps, answers, k) == Driven(t.(world := t.world.(control := Idle)), steps, answers, k + 1)
  {
    hide AdvancedTo;
  }

  lemma {:induction false} DrivenEnd(s: State, steps: seq<Step>, answers: seq<Answers>, k: nat)
    requires |answers| == |steps| && (k >= |steps| || s.world.outcome != Completed)
    ensures Driven(s, steps, answers, k) == s
  {
  }

  function OpenedTo(plan: Plan, spawnable: nat, schedule: seq<seq<Label>>, ticks: nat, answer: Observed): State {
    Windowed(Started(State(Initial(plan, Opened), schedule, ticks), spawnable, answer))
  }

  lemma {:induction false} MoveForm(w: World, l: Label)
    ensures Move(w, l)
         == (if IsFlagLabel(l) then FlagStep(w, l)
             else if IsWorkerLabel(l) && l.w < |w.actors| == |w.plan.actors| then WorkerStep(w, l) else w)
    ensures ControllerKept(w, w)
  {
    hide FlagStep, WorkerStep;
  }

  lemma {:induction false} NothingToJoin(w: World)
    requires !w.control.Joining?
    ensures forall clean :: Joined(w, clean) == w
  {
  }

  lemma {:induction false} PollForm(w: World, starting: bool, i: nat)
    requires w.control == if starting then AwaitStart else AwaitArrival(i)
    ensures var v := Polled(w, starting, i);
            && |v.actors| == |w.actors| && v.next == w.next && v.closed == w.closed
            && (v.control != w.control ==>
                  v.control == if v.stopping then Settling else if starting then Observing else Arrived(i))
            && (w.expired ==> v.control != w.control)
  {
    hide Holds;
  }

  lemma {:induction false} PauseForm(s: State)
    ensures Paused(s).ticks == s.ticks && (s.ticks == 0 ==> Paused(s).world.expired)
  {
    hide Windowed;
    assert Windowed(s).ticks == s.ticks by { WindowTicks(s); }
  }

  lemma {:induction false} WindowTicks(s: State)
    ensures Windowed(s).ticks == s.ticks
  {
  }

  lemma {:induction false} ObserveForm(w: World, answer: Observed)
    ensures var v := ObserveStep(w, answer);
            && v.control == Settling && v.next == w.next && v.closed == w.closed
            && v.scheduleCompleted == w.scheduleCompleted && (w.outcome != Completed ==> v.outcome == w.outcome)
  {
    hide Schedule.Fail;
    var done := w.(control := Settling);
    FailKept(done, ObservationFailed);
    FailKept(done, Cancelled);
    FailKept(done, TimedOut);
  }

  lemma {:induction false} TearDownForm(w: World, ok: bool)
    ensures TearDownStep(w, ok) ==
            World(w.plan, w.actors, w.stopping, w.outcome, w.scheduleCompleted,
                  if !w.acquired then NotStarted else if ok then Confirmed else TeardownFailed, [], w.attempts + 1, w.events,
                  w.observations, w.evidence, w.cancelled, w.expired, Idle, w.next, true, w.acquired,
                  if w.acquired then w.teardowns + 1 else w.teardowns)
  {
    hide Keeps;
  }

  // What a call has achieved so far.
  predicate SameProgress(w: World, v: World) {
    |v.actors| == |w.actors| && v.next == w.next && v.closed == w.closed && v.scheduleCompleted == w.scheduleCompleted
  }

  lemma {:induction false} FailProgress(w: World)
    ensures forall reason :: SameProgress(w, Schedule.Fail(w, reason))
  {
    hide Keeps;
  }

  lemma {:induction false} RetainProgress(w: World, kind: Kind, i: nat, bytes: nat)
    requires i < |w.actors| == |w.plan.actors|
    ensures SameProgress(w, Schedule.RetainEvent(w, kind, i, bytes))
  {
    hide Keeps, Schedule.Fail;
    FailProgress(w.(evidence := w.evidence + bytes));
  }

  lemma {:induction false} SetProgress(w: World, i: nat, a: Actor)
    requires i < |w.actors|
    ensures SameProgress(w, SetActor(w, i, a))
  {
    hide Keeps;
  }

  lemma {:induction false} GrantForm(w: World, requested: Step, bytes: nat)
    requires |w.actors| == |w.plan.actors|
    ensures SameProgress(w, GrantStep(w, requested, bytes))
  {
    hide Position, Keeps, Schedule.Fail, Schedule.RetainEvent, SetActor;
    FailProgress(w);
    var i := Position(w.plan.actors, requested.actor);
    if i < |w.actors| {
      RetainProgress(w, Permit, i, bytes);
      SetProgress(Schedule.RetainEvent(w, Permit, i, bytes), i, w.actors[i].(phase := Running));
    }
  }

  lemma {:induction false} RecordShape(w: World, i: nat, bytes: nat)
    requires i < |w.actors| == |w.plan.actors|
    ensures var v := RecordStep(w, i, bytes);
            SameProgress(w, v) && (w.outcome != Completed ==> v.outcome == w.outcome)
  {
    hide Schedule.Fail, Schedule.RetainEvent;
    FailProgress(Schedule.RetainEvent(w, Arrival, i, bytes));
    RetainProgress(w, Arrival, i, bytes);
  }

  lemma {:induction false} NothingArrived(s: State, answers: Answers)
    requires !s.world.control.Arrived?
    ensures Recorded(s, answers) == s
  {
    hide Concluded, Windowed, Joined, RecordStep;
  }

  lemma {:induction false} JoinForm(w: World, clean: bool)
    requires w.control.Joining? && w.control.i < |w.actors| && w.actors[w.control.i].place.Dead?
    ensures var v := JoinStep(w, clean);
            && v.control == Checking && v.next == w.next && v.closed == w.closed
            && v.scheduleCompleted == w.scheduleCompleted && (w.outcome != Completed ==> v.outcome == w.outcome)
  {
  }
}
