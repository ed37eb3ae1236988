// The Execution object of src/schedule.rs: the same fields, the same control
// flow, one method per critical section.  Every section is one labelled step
// of module Schedule, so each call only ever extends a run of that system and
// everything proved about its runs holds of the object at every lock release.
module Execution {
  import opened Schedule
  import opened ScheduleInvariant
  import opened ScheduleSafety
  import opened ScheduleReach
  import opened Calls
  import opened Waiting

  class Execution {
    const plan: Plan
    var actors: seq<Actor>
    var stopping: bool
    var outcome: Outcome
    var scheduleCompleted: bool
    var cleanup: Cleanup
    var remaining: seq<string>
    var attempts: nat
    var events: seq<Event>
    var observations: seq<Observation>
    var evidence: nat
    var cancelled: bool
    var expired: bool
    var next: nat
    var closed: bool
    var acquired: bool
    var teardowns: nat
    // What the other threads do whenever the lock is free, batch by batch.
    var schedule: seq<seq<Label>>
    // Waiting rounds left before the execution deadline.
    var ticks: nat
    ghost var control: Control
    ghost const origin: Acquisition

    ghost function View(): World
      reads this
    {
      World(plan, actors, stopping, outcome, scheduleCompleted, cleanup, remaining, attempts, events,
            observations, evidence, cancelled, expired, control, next, closed, acquired, teardowns)
    }

    ghost function Whole(): State
      reads this
    {
      State(View(), schedule, ticks)
    }

    // The object is in a world that some run leads to.
    ghost predicate Valid()
      reads this
    {
      Openable(plan, origin) && Reached(plan, origin, View())
    }

    // Between two calls of the client.
    ghost predicate Ready()
      reads this
    {
      Valid() && control == Idle
    }

    lemma {:induction false} Facts()
      requires Valid()
      ensures Inv(View()) && (acquired <==> origin.Opened? || origin.WorkersDiffer?)
      ensures acquired ==> Admissible(plan)
      ensures !closed ==> acquired
    {
      ReachedInv(plan, origin, View());
    }

    lemma {:induction false} PassedIsClosed()
      requires Valid()
      ensures Passed(View()) ==> closed
    {
      Facts();
    }

    lemma {:induction false} Shape()
      requires Valid()
      ensures |actors| <= |plan.actors|
      ensures !closed && control != Stopping && outcome == Completed ==> |actors| == |plan.actors|
    {
      Facts();
    }

    lemma {:induction false} NextFacts()
      requires Ready() && !closed && outcome == Completed
      ensures next < |plan.steps| && |actors| == |plan.actors|
      ensures Position(plan.actors, plan.steps[next].actor) < |actors|
    {
      Facts();
      NextIsParked(View());
    }

    // `fail`: the first failure is kept, every failure stops the execution.
    method Fail(reason: Outcome)
      modifies this`outcome, this`stopping
      ensures View() == Schedule.Fail(old(View()), reason)
    {
      if outcome == Completed { outcome := reason; }
      stopping := true;
    }

    method RetainEvent(kind: Kind, i: nat, bytes: nat)
      requires i < |actors| == |plan.actors|
      modifies this`evidence, this`events, this`outcome, this`stopping
      ensures View() == Schedule.RetainEvent(old(View()), kind, i, bytes)
    {
      var d := plan.actors[i];
      var row := Event(|events|, kind, next, d.actor, d.operation, actors[i].checkpoint);
      evidence := evidence + bytes;
      if evidence > EVIDENCE_BOUND { Fail(ResourceFailed); }
      else { events := events + [row]; }
    }

    // ------------------------------------------------------ the other threads

    // The caller's cancellation flag, or the deadline going by.
    method Raise(cancel: bool)
      requires Valid()
      modifies this
      ensures Valid() && ControllerKept(old(View()), View())
      ensures View() == FlagStep(old(View()), if cancel then Cancel else Expire)
      ensures schedule == old(schedule) && ticks == old(ticks)
    {
      ghost var before := View();
      if cancel { cancelled := true; } else { expired := true; }
      FlagReached(plan, origin, before, if cancel then Cancel else Expire, View());
    }

    // One critical section of a worker or of a lent checkpoint.
    method WorkerMove(l: Label)
      requires Valid() && IsWorkerLabel(l) && l.w < |actors| == |plan.actors|
      modifies this
      ensures Valid() && View() == WorkerStep(old(View()), l) && ControllerKept(old(View()), View())
      ensures schedule == old(schedule) && ticks == old(ticks)
    {
      ghost var before := View();
      WorkerSection(l);
      WorkerReached(plan, origin, before, l, View());
      WorkerKeeps(before, l);
    }

    // The worker closure and Checkpoint::arrive.
    method WorkerSection(l: Label)
      requires IsWorkerLabel(l) && l.w < |actors| == |plan.actors|
      modifies this
      ensures View() == WorkerStep(old(View()), l)
      ensures control == old(control) && schedule == old(schedule) && ticks == old(ticks)
    {
      hide Keeps;
      var i := l.w;
      var a := actors[i];
      match l {
        case Begin(_) =>
          if a.place.Fresh? { actors := actors[i := a.(phase := Parked, place := Gate)]; }
        case Wake(_) =>
          if a.place.Gate? && stopping { actors := actors[i := a.(place := Leaving(false))]; }
          else if (a.place.Gate? || a.place.Held?) && (stopping || a.phase.Running?) {
            actors := actors[i := a.(place := App)];
          }
        case Arrive(_, checkpoint) =>
          if a.place.App? { ArriveSection(i, checkpoint); }
        case Foreign(_) =>
          if a.place.App? || a.place.Held? { Fail(UncontrolledActor); }
        case Return(_, failed) =>
          if a.place.App? { actors := actors[i := a.(place := Leaving(failed))]; }
        case Exit(_) =>
          if a.place.Leaving? {
            if !stopping && a.place.failed { Fail(ApplicationFailed); }
            actors := actors[i := a.(phase := Finished, checkpoint := COMPLETION, place := Exited)];
          }
        case Die(_) =>
          if a.place.Exited? { actors := actors[i := a.(place := Dead)]; }
      }
    }

    method ArriveSection(i: nat, checkpoint: string)
      requires i < |actors| == |plan.actors| && actors[i].place.App?
      modifies this`actors, this`outcome, this`stopping
      ensures View() == WorkerStep(old(View()), Arrive(i, checkpoint))
    {
      hide Keeps, Identifier;
      var a := actors[i];
      if !a.phase.Running? { Fail(UncontrolledActor); }
      else if stopping { }
      else if !Identifier(checkpoint) || checkpoint !in plan.checkpoints { Fail(UnexpectedCheckpoint); }
      else { actors := actors[i := a.(phase := Parked, checkpoint := checkpoint, place := Held)]; }
    }

    // The lock is free: the next batch of other threads' sections takes place.
    method Window()
      requires Valid()
      modifies this
      ensures Valid() && ControllerKept(old(View()), View())
      ensures Whole() == Windowed(old(Whole()))
    {
      if schedule == [] { return; }
      var batch := schedule[0];
      schedule := schedule[1..];
      for n := 0 to |batch|
        invariant Valid() && ControllerKept(old(View()), View())
        invariant ticks == old(ticks) && schedule == old(schedule)[1..]
        invariant View() == Batch(old(View()), batch[..n])
      {
        Foreign(batch[n]);
        assert batch[..n + 1][..n] == batch[..n];
      }
      assert batch[..|batch|] == batch;
    }

    // One section that is not the controller's.
    method Foreign(l: Label)
      requires Valid()
      modifies this
      ensures Valid() && ControllerKept(old(View()), View())
      ensures View() == Move(old(View()), l)
      ensures schedule == old(schedule) && ticks == old(ticks)
    {
      hide Reached, Openable, WorkerStep, FlagStep, Move, ControllerKept, Inv;
      Shape();
      MoveForm(View(), l);
      if EnvironmentLabel(l) {
        if IsFlagLabel(l) { Raise(l.Cancel?); }
        else if l.w < |actors| && |actors| == |plan.actors| { WorkerMove(l); }
      }
    }

    // ------------------------------------------------------ waiting

    // The locked part of one round of wait_for.
    method PollSection(starting: bool, i: nat) returns (settled: bool)
      requires Valid() && control == if starting then AwaitStart else AwaitArrival(i)
      requires starting || i < |actors|
      modifies this
      ensures Valid() && ticks == old(ticks) && schedule == old(schedule)
      ensures View() == Polled(old(View()), starting, i)
      ensures settled <==> control != old(control)
    {
      hide Reached, Openable, Admissible, Inv, Initial, OpeningStep;
      ghost var before := View();
      var seen := false;
      settled := true;
      if stopping { }
      else if cancelled { Fail(Cancelled); }
      else if expired { Fail(TimedOut); }
      else if starting {
        seen := forall k :: 0 <= k < |actors| ==> actors[k].phase.Parked?;
        settled := seen;
      } else {
        seen := !actors[i].phase.Running?;
        settled := seen;
      }
      if settled {
        control := if !seen then Settling else if starting then Observing else Arrived(i);
      }
      PollReached(plan, origin, before, i, View());
    }

    // The condition variable's wait: others move and time goes by.
    method Pause()
      requires Valid()
      modifies this
      ensures Valid() && ControllerKept(old(View()), View()) && Whole() == Paused(old(Whole()))
    {
      Window();
      if ticks == 0 { Raise(false); }
    }

    // One round of wait_for.
    method Round(starting: bool, i: nat) returns (settled: bool)
      requires Valid() && control == if starting then AwaitStart else AwaitArrival(i)
      requires starting || i < |actors|
      modifies this
      ensures Valid() && |actors| == |old(actors)| && next == old(next) && closed == old(closed)
      ensures control == if !settled then old(control) else if stopping then Settling
                         else if starting then Observing else Arrived(i)
      ensures settled || ticks < old(ticks)
      ensures Whole() == Rounded(old(Whole()), starting, i) && (settled <==> control != old(control))
    {
      hide Reached, Openable, Admissible, Inv, Initial, Paused, Polled;
      PauseForm(Whole());
      Pause();
      PollForm(View(), starting, i);
      settled := PollSection(starting, i);
      if ticks > 0 { ticks := ticks - 1; }
    }

    // wait_for on "everybody parked" or on "actor i no longer running": true iff
    // that was seen before a stop, a cancellation or the deadline.
    method WaitFor(starting: bool, i: nat) returns (seen: bool)
      requires Valid() && control == if starting then AwaitStart else AwaitArrival(i)
      requires starting || i < |actors|
      modifies this
      ensures Valid() && |actors| == |old(actors)| && next == old(next) && closed == old(closed)
      ensures control == if !seen then Settling else if starting then Observing else Arrived(i)
      ensures seen <==> !stopping
      ensures Whole() == Waited(old(Whole()), starting, i)
      ensures WaitDone(old(Whole()), starting, i, Whole(), seen)
    {
      hide WaitDone;
      WaitIsDone(Whole(), starting, i);
      var settled := Round(starting, i);
      while !settled
        invariant Valid() && |actors| == |old(actors)| && next == old(next) && closed == old(closed)
        invariant Waited(old(Whole()), starting, i) == if settled then Whole() else Waited(Whole(), starting, i)
        invariant control == if !settled then old(control) else if stopping then Settling
                             else if starting then Observing else Arrived(i)
        decreases !settled, ticks
      {
        settled := Round(starting, i);
      }
      seen := !stopping;
    }

    // ------------------------------------------------------ observing

    method Observe(answer: Observed)
      requires Valid() && control == Observing
      modifies this
      ensures Valid() && View() == ObserveStep(old(View()), answer)
      ensures control == Settling && next == old(next) && closed == old(closed)
      ensures scheduleCompleted == old(scheduleCompleted) && (old(outcome) != Completed ==> outcome == old(outcome))
      ensures schedule == old(schedule) && ticks == old(ticks)
    {
      hide Reached, Openable, Admissible, Inv, Initial, IntervalStep;
      Shape();
      ghost var before := View();
      ObserveFields(answer);
      ObserveReached(plan, origin, before, answer, View());
      ObserveForm(before, answer);
    }

    method ObserveFields(answer: Observed)
      modifies this`control, this`outcome, this`stopping, this`evidence, this`observations
      ensures View() == ObserveStep(old(View()), answer)
    {
      control := Settling;
      if stopping {
      } else if exists i :: 0 <= i < |actors| && (actors[i].phase.Running? || actors[i].phase.Starting?) {
        Fail(ObservationFailed);
      } else if cancelled {
        Fail(Cancelled);
      } else if expired {
        Fail(TimedOut);
      } else if answer.Observed? {
        if !answer.accepted || evidence + |answer.text| > EVIDENCE_BOUND {
          Fail(ObservationFailed);
        } else {
          evidence := evidence + |answer.text|;
          observations := observations + [Observation(next, answer.text)];
        }
      } else {
        Fail(ObservationFailed);
      }
    }

    // ------------------------------------------------------ one interval

    // The first section of advance: release the requested actor, if it is next.
    // ScheduleSafety.NextActorIsParked shows that the "not parked" branch is never taken.
    method GrantSection(requested: Step, bytes: nat) returns (selected: bool, index: nat)
      requires Ready() && !closed && outcome == Completed
      modifies this
      ensures Valid() && |old(actors)| == |plan.actors|
      ensures View() == GrantStep(old(View()), requested, bytes)
      ensures selected ==> control == AwaitArrival(index) && index < |actors| && requested == plan.steps[next]
      ensures !selected ==> control == Settling && stopping
      ensures schedule == old(schedule) && ticks == old(ticks)
    {
      hide Reached, Openable, Admissible, Inv, Initial, Identifier, CallStep, Position, Keeps;
      NextFacts();
      ghost var before := View();
      selected, index := GrantFields(requested, bytes);
      GrantReached(plan, origin, before, requested, bytes, View());
    }

    method GrantFields(requested: Step, bytes: nat) returns (selected: bool, index: nat)
      requires |actors| == |plan.actors|
      requires next < |plan.steps| ==> Position(plan.actors, plan.steps[next].actor) < |actors|
      modifies this`actors, this`control, this`outcome, this`stopping, this`evidence, this`events
      ensures View() == GrantStep(old(View()), requested, bytes)
      ensures selected ==> control == AwaitArrival(index) && index < |actors| && next < |plan.steps| && requested == plan.steps[next]
      ensures !selected ==> control == Settling && stopping
    {
      hide Position, Keeps;
      selected, index := false, 0;
      if cancelled { Fail(Cancelled); }
      else if expired { Fail(TimedOut); }
      else if next >= |plan.steps| || plan.steps[next] != requested { Fail(InvalidSchedule); }
      else {
        index := Position(plan.actors, requested.actor);
        if !actors[index].phase.Parked? { Fail(UnexpectedCheckpoint); }
        else {
          RetainEvent(Permit, index, bytes);
          if !stopping {
            actors := actors[index := actors[index].(phase := Running)];
            selected := true;
          }
        }
      }
      control := if selected then AwaitArrival(index) else Settling;
    }

    // The arrival section of advance: record where the actor arrived and judge it.
    method RecordSection(index: nat, requested: Step, bytes: nat) returns (finished: bool)
      requires Valid() && control == Arrived(index) && index < |actors| == |plan.actors|
      requires next < |plan.steps| && requested == plan.steps[next]
      modifies this
      ensures Valid() && View() == RecordStep(old(View()), index, bytes)
      ensures finished <==> control == Joining(index)
      ensures !finished ==> control == Checking
      ensures finished ==> actors[index].phase.Finished?
      ensures closed == old(closed) && scheduleCompleted == old(scheduleCompleted) && |actors| == |plan.actors|
      ensures next == old(next) && (old(outcome) != Completed ==> outcome == old(outcome))
      ensures schedule == old(schedule) && ticks == old(ticks)
    {
      hide Reached, Openable, Admissible, Inv, Initial, IntervalStep;
      ghost var before := View();
      finished := RecordFields(index, requested, bytes);
      RecordShape(before, index, bytes);
      RecordReached(plan, origin, before, index, bytes, View());
    }

    method RecordFields(index: nat, requested: Step, bytes: nat) returns (finished: bool)
      requires index < |actors| == |plan.actors| && next < |plan.steps| && requested == plan.steps[next]
      modifies this`control, this`outcome, this`stopping, this`evidence, this`events
      ensures View() == RecordStep(old(View()), index, bytes)
      ensures finished == actors[index].phase.Finished? && control == if finished then Joining(index) else Checking
    {
      hide Keeps, Schedule.RetainEvent;
      RetainEvent(Arrival, index, bytes);
      if actors[index].checkpoint != requested.checkpoint { Fail(UnexpectedCheckpoint); }
      finished := actors[index].phase.Finished?;
      control := if finished then Joining(index) else Checking;
    }

    lemma {:induction false} JoinFacts(index: nat)
      requires Valid() && control == Joining(index) && index < |actors| == |plan.actors|
      requires actors[index].phase.Finished?
      ensures actors[index].place.Exited? || actors[index].place.Dead?
    {
      Facts();
      assert ActorOk(View(), index);
    }

    // The blocking join of a finished thread; its destructors may still be running.
    method JoinSection(index: nat, clean: bool)
      requires Valid() && control == Joining(index) && index < |actors| == |plan.actors|
      requires actors[index].phase.Finished?
      modifies this
      ensures Valid() && control == Checking && next == old(next) && closed == old(closed)
      ensures scheduleCompleted == old(scheduleCompleted) && (old(outcome) != Completed ==> outcome == old(outcome))
      ensures View() == Joined(old(View()), clean) && schedule == old(schedule) && ticks == old(ticks)
    {
      hide Reached, Openable, Admissible, Inv, Initial, IntervalStep, WorkerStep;
      JoinFacts(index);
      if actors[index].place.Exited? {
        OutDie(View(), index);
        WorkerMove(Die(index));
      }
      JoinDead(index, clean);
    }

    method JoinDead(index: nat, clean: bool)
      requires Valid() && control == Joining(index) && index < |actors| == |plan.actors|
      requires actors[index].place.Dead?
      modifies this
      ensures Valid() && control == Checking && next == old(next) && closed == old(closed)
      ensures scheduleCompleted == old(scheduleCompleted) && (old(outcome) != Completed ==> outcome == old(outcome))
      ensures View() == JoinStep(old(View()), clean) && schedule == old(schedule) && ticks == old(ticks)
    {
      hide Reached, Openable, Admissible, Inv, Initial, IntervalStep;
      ghost var before := View();
      JoinFields(index, clean);
      JoinReached(plan, origin, before, clean, View());
      JoinForm(before, clean);
    }

    method JoinFields(index: nat, clean: bool)
      requires control == Joining(index) && index < |actors| && actors[index].place.Dead?
      modifies this`actors, this`control, this`outcome, this`stopping
      ensures View() == JoinStep(old(View()), clean)
    {
      if !clean { Fail(ApplicationFailed); }
      actors := actors[index := actors[index].(joined := true)];
      control := Checking;
    }

    method CheckSection() returns (good: bool)
      requires Valid() && control == Checking
      modifies this
      ensures Valid() && closed == old(closed) && scheduleCompleted == old(scheduleCompleted)
      ensures (good <==> outcome == Completed) && outcome == old(outcome)
      ensures if good then control == Observing && next == old(next) + 1 else control == Settling && next == old(next)
      ensures View() == CheckStep(old(View())) && schedule == old(schedule) && ticks == old(ticks)
    {
      hide Reached, Openable, Admissible, Inv, Initial, Keeps;
      Shape();
      ghost var before := View();
      good := CheckFields();
      IntervalReached(plan, origin, before, Check, View());
    }

    method CheckFields() returns (good: bool)
      modifies this`next, this`control
      ensures good <==> outcome == Completed
      ensures View() == CheckStep(old(View()))
    {
      hide Keeps;
      good := outcome == Completed;
      if good { next := next + 1; control := Observing; } else { control := Settling; }
    }

    // The end of advance and of start_schedule; true iff cleanup has to follow.
    method SettleSection() returns (cleaning: bool)
      requires Valid() && control == Settling
      modifies this
      ensures Valid() && control == if cleaning then Stopping else Idle
      ensures outcome == old(outcome) && next == old(next) && closed == old(closed)
      ensures cleaning <==> outcome != Completed || next == |plan.steps|
      ensures scheduleCompleted == (old(scheduleCompleted) || (outcome == Completed && next == |plan.steps|))
      ensures !cleaning ==> Whole() == old(Whole()).(world := old(View()).(control := Idle))
      ensures outcome != Completed ==> Whole() == old(Whole()).(world := old(View()).(control := Stopping))
    {
      hide Reached, Openable, Admissible, Inv, Initial, Valid, Keeps;
      SettleControl();
      cleaning := true;
      if outcome != Completed {
      } else if next == |plan.steps| {
        CompleteSection();
      } else {
        cleaning := false;
      }
    }

    method SettleControl()
      requires Valid() && control == Settling
      modifies this`control
      ensures Valid() && View() == SettleStep(old(View()))
    {
      hide Reached, Openable, Admissible, Inv, Initial, IntervalStep;
      Shape();
      ghost var before := View();
      control := if outcome != Completed then Stopping else if next == |plan.steps| then Completing else Idle;
      assert View() == SettleStep(before);
      SettleReached(plan, origin, before);
    }

    method CompleteSection()
      requires Valid() && control == Completing
      modifies this`control, this`scheduleCompleted
      ensures Valid() && control == Stopping && scheduleCompleted
    {
      hide Reached, Openable, Admissible, Inv, Initial;
      Shape();
      ghost var before := View();
      scheduleCompleted := true;
      control := Stopping;
      IntervalReached(plan, origin, before, Complete, View());
    }

    // ------------------------------------------------------ cleanup

    method StopSection()
      requires Valid() && control == Stopping && !closed
      modifies this
      ensures Valid() && !closed && next == old(next) && |actors| == |old(actors)|
      ensures scheduleCompleted == old(scheduleCompleted)
      ensures View() == Stopped(old(View())) && schedule == old(schedule)
    {
      hide Reached, Openable, Admissible, Inv, Initial, CleanupStep;
      Shape();
      ghost var before := View();
      StopFields();
      StoppedStep(before);
      CleanupReached(plan, origin, before, Stop, View());
    }

    method StopFields()
      modifies this`stopping, this`outcome, this`control
      ensures View() == Stopped(old(View()))
    {
      if outcome == Completed && !scheduleCompleted { Fail(Cancelled); }
      stopping := true;
      control := Cleaning;
    }

    // Join the threads that are over and no other.
    method ReapSections()
      requires Valid() && control == Cleaning
      modifies this
      ensures Valid() && ControllerKept(old(View()), View()) && outcome == old(outcome)
      ensures forall k :: 0 <= k < |actors| ==>
                actors[k] == old(actors)[k].(joined := old(actors)[k].joined || old(actors)[k].place.Dead?)
    {
      for i := 0 to |actors|
        invariant Valid() && ControllerKept(old(View()), View()) && outcome == old(outcome)
        invariant forall k :: 0 <= k < i ==>
                    actors[k] == old(actors)[k].(joined := old(actors)[k].joined || old(actors)[k].place.Dead?)
        invariant forall k :: i <= k < |actors| ==> actors[k] == old(actors)[k]
      {
        if actors[i].place.Dead? {
          Shape();
          ghost var before := View();
          actors := actors[i := actors[i].(joined := true)];
          CleanupReached(plan, origin, before, Reap(i), View());
        }
      }
    }

    lemma {:induction false} DecideFacts()
      requires Valid() && control == Cleaning && !closed
      ensures |actors| <= |plan.actors|
      ensures scheduleCompleted || actors == [] ==> UnjoinedFrom(View(), 0) == []
    {
      hide Reached, Openable, Initial, Admissible;
      Facts();
      Shape();
      DecideInv(View());
    }

    // Whoever is left is reported; true iff nobody is.
    method DecideSection() returns (over: bool)
      requires Valid() && control == Cleaning && !closed
      modifies this
      ensures Valid() && control == (if over then TearingDown else Idle) && !closed
      ensures |old(actors)| <= |plan.actors| && (over <==> UnjoinedFrom(old(View()), 0) == [])
      ensures !over ==> cleanup == Incomplete && remaining == UnjoinedFrom(old(View()), 0) && attempts == old(attempts) + 1
      ensures scheduleCompleted == old(scheduleCompleted) && outcome == old(outcome) && next == old(next)
      ensures scheduleCompleted || old(actors) == [] ==> over
    {
      hide Reached, Openable, Admissible, Inv, Initial, CleanupStep, UnjoinedFrom, Keeps;
      ghost var before := View();
      DecideFacts();
      over := DecideFields();
      DecideReached(plan, origin, before, View());
    }

    method DecideFields() returns (over: bool)
      requires |actors| <= |plan.actors|
      modifies this`cleanup, this`remaining, this`attempts, this`control
      ensures View() == DecideStep(old(View())) && (over <==> UnjoinedFrom(old(View()), 0) == [])
    {
      hide UnjoinedFrom, Keeps;
      var left := StillRunning(0);
      over := left == [];
      if !over {
        cleanup := Incomplete;
        remaining := left;
        attempts := attempts + 1;
        control := Idle;
      } else {
        control := TearingDown;
      }
    }

    method StillRunning(from: nat) returns (names: seq<string>)
      requires from <= |actors| <= |plan.actors|
      ensures names == UnjoinedFrom(View(), from)
      decreases |actors| - from
    {
      if from == |actors| { return []; }
      names := StillRunning(from + 1);
      if Spawned(actors[from]) && !actors[from].joined { names := [plan.actors[from].actor] + names; }
    }

    lemma {:induction false} TearDownFacts()
      requires Valid() && !closed
      ensures acquired && teardowns == (if control.Dropped? then 1 else 0) && |actors| <= |plan.actors|
    {
      Facts();
    }

    method TearDownSection(tornDown: bool)
      requires Valid() && control == TearingDown && !closed
      modifies this
      ensures Valid() && control == Idle && closed && teardowns == 1 && remaining == []
      ensures cleanup == if tornDown then Confirmed else TeardownFailed
      ensures scheduleCompleted == old(scheduleCompleted) && outcome == old(outcome) && next == old(next)
      ensures events == old(events) && observations == old(observations)
    {
      hide Reached, Openable, Admissible, Inv, Initial, CleanupStep, Keeps;
      TearDownFacts();
      ghost var before := View();
      TearDownFields(tornDown);
      TearDownForm(before, tornDown);
      TearDownReached(plan, origin, before, tornDown, View());
    }

    method TearDownFields(tornDown: bool)
      modifies this`teardowns, this`closed, this`remaining, this`cleanup, this`attempts, this`control
      ensures teardowns == (if acquired then old(teardowns) + 1 else old(teardowns)) && closed && remaining == [] && control == Idle
      ensures cleanup == (if !acquired then NotStarted else if tornDown then Confirmed else TeardownFailed)
      ensures attempts == old(attempts) + 1
    {
      if acquired { teardowns := teardowns + 1; }
      closed := true;
      remaining := [];
      cleanup := if !acquired then NotStarted else if tornDown then Confirmed else TeardownFailed;
      attempts := attempts + 1;
      control := Idle;
    }

    // Wait until every thread is over, but not for longer than the given rounds.
    method AwaitThreads(rounds: nat)
      requires Valid() && control == Cleaning
      modifies this
      ensures Valid() && ControllerKept(old(View()), View())
      ensures var w := Aired(old(View()), old(schedule), rounds);
              (Gone(View()) <==> Gone(w)) && (!Gone(View()) ==> View() == w)
    {
      hide Valid, Gone, Keeps, Windowed, ControllerKept;
      SelfKept(View());
      var done := 0;
      while done < rounds && exists i :: 0 <= i < |actors| && Spawned(actors[i]) && !actors[i].place.Dead?
        invariant done <= rounds && Valid() && ControllerKept(old(View()), View())
        invariant Whole() == State(Aired(old(View()), old(schedule), done), Later(old(schedule), done), old(ticks))
      {
        AiredNext(old(View()), old(schedule), done, old(ticks));
        ghost var before := View();
        Window();
        KeptAlong(old(View()), before, View());
        done := done + 1;
      }
      if done < rounds {
        assert Gone(View()) by { AllOver(); }
        GoneStays(old(View()), old(schedule), done, rounds);
      }
    }

    lemma {:induction false} AllOver()
      requires !exists i :: 0 <= i < |actors| && Spawned(actors[i]) && !actors[i].place.Dead?
      ensures Gone(View())
    {
    }

    // Join what is over, report what is not, and tear down if nothing is left.
    method EndSections(tornDown: bool)
      requires Valid() && control == Cleaning && !closed
      modifies this
      ensures Valid() && control == Idle && next == old(next) && scheduleCompleted == old(scheduleCompleted)
      ensures outcome == old(outcome)
      ensures !closed ==> cleanup == Incomplete
      ensures scheduleCompleted || old(actors) == [] ==> closed
      ensures closed ==> teardowns == 1 && cleanup == if tornDown then Confirmed else TeardownFailed
      ensures CleanedUp(old(View()), closed, remaining)
    {
      hide Valid, Gone, Reaped, Leftover, UnjoinedFrom;
      ghost var before := View();
      JoinedAreOver();
      ReapSections();
      ReapedLater(before, View());
      UnjoinedMeans(View());
      var over := DecideSection();
      if over { TearDownSection(tornDown); }
    }

    lemma {:induction false} JoinedAreOver()
      requires Valid()
      ensures |actors| <= |plan.actors|
      ensures forall k :: 0 <= k < |actors| && actors[k].joined ==> actors[k].place.Dead?
    {
      Facts();
      forall k | 0 <= k < |actors| && actors[k].joined ensures actors[k].place.Dead? {
        assert ActorOk(View(), k);
      }
    }

    lemma {:induction false} CleaningOutcome(before: Outcome)
      requires Valid() && control == Cleaning && (before != Completed ==> outcome == before)
      requires before == Completed ==> scheduleCompleted
      ensures outcome == before
    {
      Facts();
    }

    // cleanup: stop, wait a bounded while, join what is over, tear down if all is.
    method CleanupSections(rounds: nat, tornDown: bool)
      requires Valid() && control == Stopping && !closed
      modifies this
      ensures Ready() && next == old(next) && scheduleCompleted == old(scheduleCompleted)
      ensures !closed ==> cleanup == Incomplete && !scheduleCompleted
      ensures old(actors) == [] ==> closed
      ensures closed ==> teardowns == 1 && cleanup == if tornDown then Confirmed else TeardownFailed
      ensures scheduleCompleted <==> outcome == Completed
      ensures outcome == if old(outcome) == Completed && !scheduleCompleted then Cancelled else old(outcome)
      ensures CleanedUp(Ended(old(View()), old(schedule), rounds), closed, remaining)
    {
      hide Reached, Openable, Inv, Gone, Aired, Leftover;
      StopSection();
      ghost var reason := outcome;
      AwaitThreads(rounds);
      CleaningOutcome(reason);
      EndSections(tornDown);
      CompletedTogether();
    }

    lemma {:induction false} CompletedIsClosed()
      requires Ready()
      ensures scheduleCompleted ==> closed
    {
      Facts();
      if outcome == Completed { IdleBooks(View()); }
    }

    lemma {:induction false} CompletedTogether()
      requires Ready()
      ensures scheduleCompleted ==> outcome == Completed
    {
      Facts();
    }

    // ------------------------------------------------------ the client's calls

    // Between calls, an execution without a failure is exactly where the plan says.
    lemma {:induction false} Progress()
      requires Ready() && outcome == Completed
      ensures next <= |plan.steps|
      ensures events == PlannedLog(plan, next) && |observations| == next + 1
      ensures closed <==> next == |plan.steps|
      ensures scheduleCompleted <==> closed
    {
      Facts();
      IdleBooks(View());
    }

    lemma {:induction false} Failed()
      requires Valid()
      ensures outcome != Completed ==> stopping
    {
      Facts();
    }

    // advance: `false` is the refusal of a closed execution.  Otherwise the call
    // either carries out exactly the requested next step of the plan, or ends the
    // execution with a failure; the last step also closes it.
    method Advance(requested: Step, answers: Answers, rounds: nat) returns (accepted: bool)
      requires Ready()
      modifies this
      ensures Ready() && accepted == !old(closed)
      ensures next == old(next) || next == old(next) + 1
      ensures old(closed) ==> View() == old(View())
      ensures old(outcome) != Completed ==> outcome == old(outcome) && next == old(next)
      ensures accepted && outcome == Completed ==>
                && next == old(next) + 1 <= |plan.steps|
                && requested == plan.steps[old(next)]
                && events == PlannedLog(plan, next)
                && |observations| == next + 1
                && (closed <==> next == |plan.steps|)
                && (scheduleCompleted <==> closed)
      ensures accepted && outcome != Completed ==>
                stopping && (closed || cleanup == Incomplete || Whole() == Windowed(old(Whole())))
      ensures accepted && closed ==> cleanup == if answers.tornDown then Confirmed else TeardownFailed
      ensures var s := AdvancedTo(old(Whole()), requested, answers);
              accepted ==>
                && outcome == s.world.outcome
                && (outcome == Completed && !closed ==> Whole() == s.(world := s.world.(control := Idle)))
                && (outcome != Completed && Windowed(old(Whole())).world.outcome == Completed ==>
                      CleanedUp(Ended(s.world, s.schedule, rounds), closed, remaining))
    {
      hide Inv, Reached, Openable, Ended, CleanedUp, Windowed, Advanced;
      if closed { return false; }
      accepted := true;
      Window();
      if outcome == Completed {
        AdvanceInterval(requested, answers);
        AdvanceEnd(rounds, answers.tornDown);
      } else {
        NothingAdvanced(Whole(), requested, answers);
      }
      Failed();
      if outcome == Completed { Progress(); }
    }

    method AdvanceInterval(requested: Step, answers: Answers)
      requires Ready() && !closed && outcome == Completed
      modifies this
      ensures Valid() && control == Settling && !closed && !scheduleCompleted
      ensures next == old(next) || next == old(next) + 1
      ensures outcome == Completed ==>
                old(next) < |plan.steps| && next == old(next) + 1 && requested == plan.steps[old(next)]
      ensures Whole() == Advanced(old(Whole()), requested, answers)
    {
      hide Reached, Openable, Admissible, Inv, Initial, Keeps, GrantStep, Waited, Recorded;
      NextFacts();
      GrantForm(View(), requested, answers.permitBytes);
      var selected, index := GrantSection(requested, answers.permitBytes);
      if selected {
        var seen := WaitFor(false, index);
        if seen { Interval(requested, index, answers); } else {
          Failed();
          StoppedHasFailed();
          NothingArrived(Whole(), answers);
        }
      } else { StoppedHasFailed(); }
      NotCompleted();
    }

    lemma {:induction false} StoppedHasFailed()
      requires Valid() && control == Settling && stopping
      ensures outcome != Completed
    {
      Facts();
    }

    lemma {:induction false} NotCompleted()
      requires Valid() && control == Settling
      ensures !scheduleCompleted
    {
      Facts();
    }

    method AdvanceEnd(rounds: nat, tornDown: bool)
      requires Valid() && control == Settling && !closed && !scheduleCompleted
      modifies this
      ensures Ready() && next == old(next)
      ensures cleanup == Incomplete || closed || outcome == Completed
      ensures old(outcome) != Completed ==> outcome == old(outcome)
      ensures var s := Windowed(old(Whole()));
              && outcome == s.world.outcome
              && (outcome == Completed && next < |plan.steps| ==> Whole() == s.(world := s.world.(control := Idle)))
              && (outcome != Completed ==> CleanedUp(Ended(s.world, s.schedule, rounds), closed, remaining))
      ensures closed ==> cleanup == if tornDown then Confirmed else TeardownFailed
    {
      hide Inv, Reached, Openable, Ended, CleanedUp, Windowed;
      Window();
      ghost var w := Whole();
      EndedFrom(w.world, Stopping, w.schedule, rounds);
      var cleaning := SettleSection();
      if cleaning { CleanupSections(rounds, tornDown); }
    }

    // From the arrival of the released actor to the observation after it.
    method Interval(requested: Step, index: nat, answers: Answers)
      requires Valid() && control == Arrived(index) && index < |actors| == |plan.actors| && !closed
      requires next < |plan.steps| && requested == plan.steps[next]
      modifies this
      ensures Valid() && control == Settling && !closed && scheduleCompleted == old(scheduleCompleted)
      ensures next == old(next) || next == old(next) + 1
      ensures outcome == Completed ==> next == old(next) + 1
      ensures old(outcome) != Completed ==> outcome == old(outcome)
      ensures Whole() == Recorded(old(Whole()), answers)
    {
      hide Inv, Reached, Openable, Initial, Admissible, Concluded, Windowed, Joined, RecordStep;
      var finished := RecordSection(index, requested, answers.arrivalBytes);
      if finished { JoinSection(index, answers.joinClean); } else { NothingToJoin(View()); }
      Window();
      Conclude(answers.observed);
    }

    method Conclude(answer: Observed)
      requires Valid() && control == Checking && !closed
      modifies this
      ensures Valid() && control == Settling && !closed && scheduleCompleted == old(scheduleCompleted)
      ensures next == old(next) || next == old(next) + 1
      ensures outcome == Completed ==> next == old(next) + 1
      ensures old(outcome) != Completed ==> outcome == old(outcome)
      ensures Whole() == Concluded(old(Whole()), answer)
    {
      var good := CheckSection();
      if good {
        Window();
        Observe(answer);
      }
    }

    // finish: an execution whose steps are not all taken fails, unless it has failed before.
    method Finish(rounds: nat, tornDown: bool)
      requires Ready()
      modifies this
      ensures Ready() && next == old(next)
      ensures old(outcome) != Completed ==> outcome == old(outcome)
      ensures old(closed) ==> View() == old(View())
      ensures closed || cleanup == Incomplete
      ensures outcome == Completed ==> closed && next == |plan.steps|
      ensures Passed(View()) ==> events == PlannedLog(plan, |plan.steps|)
      ensures var s := Windowed(old(Whole()));
              !old(closed) ==> CleanedBy(s.(world := Unfinished(s.world)), InvalidSchedule, rounds, tornDown, View())
    {
      hide Reached, Openable, Inv, Ended, CleanedUp, Windowed, PlannedLog;
      if !closed {
        Window();
        ghost var w := Whole();
        EndedFrom(Unfinished(w.world), Stopping, w.schedule, rounds);
        FinishSection();
        CleanupSections(rounds, tornDown);
      }
      if outcome == Completed { Progress(); }
      ClosedOrLeft();
    }

    lemma {:induction false} ClosedOrLeft()
      requires Ready() && (closed || cleanup == Incomplete)
      ensures outcome == Completed ==> closed && scheduleCompleted
    {
      Facts();
    }

    method FinishSection()
      requires Ready() && !closed
      modifies this
      ensures Valid() && control == Stopping && !closed && next == old(next) && scheduleCompleted == old(scheduleCompleted)
      ensures outcome == (if old(outcome) != Completed then old(outcome) else InvalidSchedule)
      ensures Whole() == old(Whole()).(world := Unfinished(old(View())).(control := Stopping))
    {
      hide Reached, Openable, Admissible, Inv, Initial, PlannedLog, Keeps;
      Shape();
      if outcome == Completed { Progress(); }
      ghost var before := View();
      if next != |plan.steps| { Fail(InvalidSchedule); }
      control := Stopping;
      CallReached(plan, origin, before, Schedule.Finish, View());
    }

    // cleanup: an execution that has not passed is cancelled, unless it has failed before.
    method CleanUp(rounds: nat, tornDown: bool)
      requires Ready()
      modifies this
      ensures Ready() && next == old(next)
      ensures old(outcome) != Completed ==> outcome == old(outcome)
      ensures old(closed) ==> View() == old(View())
      ensures closed || cleanup == Incomplete
      ensures outcome == Completed ==> closed && next == |plan.steps|
      ensures !old(closed) ==> CleanedBy(Windowed(old(Whole())), Cancelled, rounds, tornDown, View())
    {
      hide Reached, Openable, Inv, Ended, CleanedUp, Windowed;
      if !closed {
        Window();
        ghost var w := Whole();
        EndedFrom(w.world, Stopping, w.schedule, rounds);
        CleanUpSection();
        CleanupSections(rounds, tornDown);
      }
      if outcome == Completed { Progress(); }
      ClosedOrLeft();
    }

    method CleanUpSection()
      requires Ready() && !closed
      modifies this
      ensures Valid() && control == Stopping && !closed && (outcome == Completed ==> !scheduleCompleted)
      ensures Whole() == old(Whole()).(world := old(View()).(control := Stopping))
    {
      Shape();
      if outcome == Completed { Progress(); }
      ghost var before := View();
      control := Stopping;
      CallReached(plan, origin, before, Schedule.CleanUp, View());
    }

    // ------------------------------------------------------ opening and driving

    // start_schedule from the point where the program has, or has not, been acquired;
    // `spawnable` is how many threads the operating system grants.
    constructor (plan: Plan, origin: Acquisition, spawnable: nat, schedule: seq<seq<Label>>, ticks: nat,
                 answers: Answers, rounds: nat)
      requires Openable(plan, origin)
      ensures Ready() && this.plan == plan && this.origin == origin && next == 0
      ensures outcome == Completed ==> origin.Opened? && !closed && events == [] && |observations| == 1
      ensures outcome != Completed ==> closed || cleanup == Incomplete
      ensures origin.WorkersDiffer? ==> closed && cleanup == if answers.tornDown then Confirmed else TeardownFailed
      ensures origin.Refused? || origin.FactoryFailed? ==>
                closed && teardowns == 0 && outcome == if origin.Refused? then origin.reason else ApplicationFailed
      ensures origin.WorkersDiffer? ==> outcome == ApplicationFailed
      ensures var s := OpenedTo(plan, spawnable, schedule, ticks, answers.observed);
              origin.Opened? ==>
                && outcome == s.world.outcome
                && (outcome == Completed ==> Whole() == s.(world := s.world.(control := Idle)))
                && (outcome != Completed ==> CleanedUp(Ended(s.world, s.schedule, rounds), closed, remaining))
    {
      var w := Initial(plan, origin);
      this.plan := plan;
      this.origin := origin;
      this.schedule := schedule;
      this.ticks := ticks;
      actors, stopping, outcome, scheduleCompleted := w.actors, w.stopping, w.outcome, w.scheduleCompleted;
      cleanup, remaining, attempts := w.cleanup, w.remaining, w.attempts;
      events, observations, evidence := w.events, w.observations, w.evidence;
      cancelled, expired := w.cancelled, w.expired;
      next, closed, acquired, teardowns := w.next, w.closed, w.acquired, w.teardowns;
      control := w.control;
      new;
      hide Windowed, Started, Inv, Admissible, Keeps, Ended, CleanedUp;
      assert View() == w;
      Launch(origin, spawnable, answers, rounds);
    }

    // Past the acquisition, which came to `outset`.
    method Launch(outset: Acquisition, spawnable: nat, answers: Answers, rounds: nat)
      requires Valid() && View() == Initial(plan, origin) && outset == origin
      modifies this
      ensures Ready() && next == 0
      ensures outcome == Completed ==> origin.Opened? && !closed && events == [] && |observations| == 1
      ensures outcome != Completed ==> closed || cleanup == Incomplete
      ensures origin.WorkersDiffer? ==> closed && cleanup == if answers.tornDown then Confirmed else TeardownFailed
      ensures origin.Refused? || origin.FactoryFailed? ==>
                closed && teardowns == 0 && outcome == if origin.Refused? then origin.reason else ApplicationFailed
      ensures origin.WorkersDiffer? ==> outcome == ApplicationFailed
      ensures var s := Windowed(Started(old(Whole()), spawnable, answers.observed));
              origin.Opened? ==>
                && outcome == s.world.outcome
                && (outcome == Completed ==> Whole() == s.(world := s.world.(control := Idle)))
                && (outcome != Completed ==> CleanedUp(Ended(s.world, s.schedule, rounds), closed, remaining))
    {
      hide Windowed, Started, Reached, Inv, Admissible, Ended, CleanedUp;
      if outset.WorkersDiffer? {
        CleanupSections(rounds, answers.tornDown);
      } else if outset.Opened? {
        Start(spawnable, answers, rounds);
      }
      Facts();
    }

    method Start(spawnable: nat, answers: Answers, rounds: nat)
      requires origin.Opened? && Valid() && control == Spawning(0) && !closed && next == 0 && !scheduleCompleted
      modifies this
      ensures Ready() && next == 0
      ensures outcome == Completed ==> !closed && events == [] && |observations| == 1
      ensures outcome != Completed ==> closed || cleanup == Incomplete
      ensures var s := Windowed(Started(old(Whole()), spawnable, answers.observed));
              && outcome == s.world.outcome
              && (outcome == Completed ==> Whole() == s.(world := s.world.(control := Idle)))
              && (outcome != Completed ==> CleanedUp(Ended(s.world, s.schedule, rounds), closed, remaining))
    {
      hide Reached, Openable, Admissible, Inv, Initial, Waited, SpawnedFrom, Windowed, ObserveStep, Ended, CleanedUp, WaitDone;
      SpawnSections(spawnable);
      var seen := WaitFor(true, 0);
      if seen { Observe(answers.observed); }
      NotCompleted();
      AdvanceEnd(rounds, answers.tornDown);
      if outcome == Completed {
        Progress();
        HasSteps();
      }
    }

    lemma {:induction false} HasSteps()
      requires Valid() && outcome == Completed && !origin.WorkersDiffer? && !origin.Refused? && !origin.FactoryFailed?
      ensures 0 < |plan.steps|
    {
      AdmissibleHasSteps(plan);
    }

    method SpawnSections(spawnable: nat)
      requires Valid() && control == Spawning(0) && !closed && next == 0 && !scheduleCompleted
      modifies this
      ensures Valid() && control == AwaitStart && !closed && next == 0 && !scheduleCompleted
      ensures Whole() == SpawnedFrom(old(Whole()), 0, spawnable)
    {
      hide Valid, SpawnedFrom, Windowed, SetActor, Keeps;
      var k := 0;
      while k < |actors| && k < spawnable
        invariant Valid() && control == Spawning(k) && !closed && next == 0 && !scheduleCompleted
        invariant SpawnedFrom(Whole(), k, spawnable) == SpawnedFrom(old(Whole()), 0, spawnable)
        decreases |actors| - k
      {
        SpawnedMore(Whole(), k, spawnable);
        SpawnTurn(k);
        k := k + 1;
      }
      SpawnedEnd(Whole(), k, spawnable);
      SpawnEnd(k);
    }

    // One thread, and what the others do before the next.
    method SpawnTurn(k: nat)
      requires Valid() && control == Spawning(k) && k < |actors|
      modifies this
      ensures Valid() && control == Spawning(k + 1) && |actors| == |old(actors)|
      ensures closed == old(closed) && next == old(next) && scheduleCompleted == old(scheduleCompleted)
      ensures Whole() == Windowed(SpawnedOne(old(Whole()), k))
    {
      hide Valid, Windowed;
      SpawnOne(k);
      Window();
    }

    method SpawnOne(k: nat)
      requires Valid() && control == Spawning(k) && k < |actors|
      modifies this`actors, this`control
      ensures Valid()
      ensures View() == SetActor(old(View()), k, old(actors[k]).(place := Fresh)).(control := Spawning(k + 1))
    {
      hide Reached, Openable, Admissible, Inv, Initial;
      ghost var before := View();
      actors := actors[k := actors[k].(place := Fresh)];
      control := Spawning(k + 1);
      OpeningReached(plan, origin, before, Spawn(true), View());
    }

    method SpawnEnd(k: nat)
      requires Valid() && control == Spawning(k)
      modifies this`control, this`outcome, this`stopping
      ensures Valid()
      ensures View() == (if k < |actors| then Schedule.Fail(old(View()), ResourceFailed) else old(View())).(control := AwaitStart)
    {
      hide Reached, Openable, Admissible, Inv, Initial;
      ghost var before := View();
      if k < |actors| { Fail(ResourceFailed); }
      control := AwaitStart;
      OpeningReached(plan, origin, before, Spawn(false), View());
    }

    // run_schedule: advance through the plan until something stops it.
    method Drive(answers: seq<Answers>, rounds: nat)
      requires Ready() && |answers| == |plan.steps| && next == 0
      modifies this
      ensures Ready()
      ensures outcome == Driven(old(Whole()), plan.steps, answers, 0).world.outcome
      ensures outcome == Completed ==> scheduleCompleted && closed && next == |plan.steps| > 0
      ensures outcome == Completed ==>
                cleanup == if answers[|plan.steps| - 1].tornDown then Confirmed else TeardownFailed
      ensures Passed(View()) ==> events == PlannedLog(plan, |plan.steps|) && |observations| == |plan.steps| + 1
    {
      hide Valid, Driven, AdvancedTo, PlannedLog, Windowed, Ended, CleanedUp;
      ghost var outset := Whole();
      var k := 0;
      if outcome == Completed { Unstarted(); } else { DrivenEnd(outset, plan.steps, answers, 0); }
      while k < |plan.steps| && outcome == Completed && !closed
        invariant k <= |plan.steps| && Ready()
        invariant outcome == Completed ==> |plan.steps| > 0 && next == k && (closed <==> k == |plan.steps|)
        invariant outcome == Completed && k == |plan.steps| ==>
                    cleanup == if answers[k - 1].tornDown then Confirmed else TeardownFailed
        invariant Driven(outset, plan.steps, answers, 0).world.outcome
               == if outcome == Completed && k < |plan.steps| then Driven(Whole(), plan.steps, answers, k).world.outcome
                  else outcome
        decreases |plan.steps| - k
      {
        DrivenMore(Whole(), plan.steps, answers, k);
        ghost var t := AdvancedTo(Whole(), plan.steps[k], answers[k]);
        var _ := Advance(plan.steps[k], answers[k], rounds);
        k := k + 1;
        if outcome != Completed || k == |plan.steps| {
          DrivenEnd(t.(world := t.world.(control := Idle)), plan.steps, answers, k);
        }
      }
      if outcome == Completed { Progress(); }
    }

    lemma {:induction false} Unstarted()
      requires Ready() && outcome == Completed && next == 0
      ensures 0 < |plan.steps| && !closed
    {
      hide Reached, Openable, Inv;
      if origin.Refused? || origin.FactoryFailed? || origin.WorkersDiffer? {
        FailedFromTheStart(plan, origin, View());
        assert false;
      }
      HasSteps();
      Progress();
    }

    // ------------------------------------------------------ Drop

    // Drop blocks until every thread is gone; application code that is asked to
    // stop is taken to return.  Teardown has then happened exactly once.
    method Discard()
      requires Ready()
      modifies this
      ensures Valid() && control == Dropped && acquired == old(acquired)
      ensures teardowns == if acquired then 1 else 0
      ensures outcome == old(outcome) || old(outcome) == Completed
    {
      hide Reached, Openable, Admissible, Initial;
      DropSection();
      JoinThreads();
      DropTearDownSection();
      Facts();
    }

    method DropSection()
      requires Ready()
      modifies this
      ensures Valid() && control == Dropping && stopping && acquired == old(acquired) && outcome == old(outcome)
    {
      hide Reached, Openable, Admissible, Inv, Initial;
      ghost var before := View();
      stopping := true;
      control := Dropping;
      DropReached(plan, origin, before, Drop, View());
    }

    method DropTearDownSection()
      requires Valid() && control == Dropping && AllJoined(View())
      modifies this
      ensures Valid() && control == Dropped && acquired == old(acquired) && outcome == old(outcome)
    {
      hide Reached, Openable, Admissible, Inv, Initial;
      ghost var before := View();
      if !closed && acquired { teardowns := teardowns + 1; }
      control := Dropped;
      DropReached(plan, origin, before, DropTearDown, View());
    }

    method JoinThreads()
      requires Valid() && control == Dropping && stopping
      modifies this
      ensures Valid() && ControllerKept(old(View()), View()) && AllJoined(View())
    {
      hide Reached, Openable, Admissible, Inv, Initial;
      for i := 0 to |actors|
        invariant Valid() && ControllerKept(old(View()), View())
        invariant forall k :: 0 <= k < i && Spawned(actors[k]) ==> actors[k].joined
      {
        if !actors[i].place.Unspawned? && !actors[i].joined {
          RunOut(i);
          ghost var before := View();
          actors := actors[i := actors[i].(joined := true)];
          DropReached(plan, origin, before, DropJoin(i), View());
        }
      }
    }

    method RunOut(i: nat)
      requires Valid() && control == Dropping && stopping && i < |actors|
      requires !actors[i].place.Unspawned?
      modifies this
      ensures Valid() && ControllerKept(old(View()), View()) && actors[i].place.Dead?
      ensures forall k :: 0 <= k < |actors| && k != i ==> actors[k] == old(actors)[k]
    {
      Facts();
      while !actors[i].place.Dead?
        invariant Valid() && ControllerKept(old(View()), View()) && |actors| == |plan.actors|
        invariant !actors[i].place.Unspawned?
        invariant forall k :: 0 <= k < |actors| && k != i ==> actors[k] == old(actors)[k]
        decreases Distance(actors[i].place)
      {
        StepOut(i);
      }
    }

    method StepOut(i: nat)
      requires Valid() && stopping && i < |actors| == |plan.actors|
      requires !actors[i].place.Unspawned? && !actors[i].place.Dead?
      modifies this
      ensures Valid() && ControllerKept(old(View()), View()) && |actors| == |plan.actors|
      ensures Distance(actors[i].place) < Distance(old(actors)[i].place) && !actors[i].place.Unspawned?
      ensures forall k :: 0 <= k < |actors| && k != i ==> actors[k] == old(actors)[k]
    {
      hide Reached, Openable, Admissible, Inv, Initial, WorkerStep, Distance, WayOut, Keeps;
      ghost var a := Outward(View(), i);
      WorkerMove(WayOut(actors[i].place, i));
    }
  }

  // How many sections a stopped thread still has to go through, and the next of them.
  function Distance(p: Place): nat {
    match p
    case Unspawned => 0
    case Fresh => 6
    case Gate => 5
    case Held => 5
    case App => 4
    case Leaving(_) => 3
    case Exited => 2
    case Dead => 1
  }

  function WayOut(p: Place, i: nat): (l: Label)
    requires !p.Unspawned? && !p.Dead?
    ensures IsWorkerLabel(l) && l.w == i
  {
    match p
    case Fresh => Begin(i)
    case Gate => Wake(i)
    case Held => Wake(i)
    case App => Return(i, false)
    case Leaving(_) => Exit(i)
    case Exited => Die(i)
  }

  // The sections on the way out, one by one.
  lemma {:induction false} OutBegin(w: World, i: nat)
    requires i < |w.actors| == |w.plan.actors| && w.actors[i].place.Fresh?
    ensures WorkerStep(w, Begin(i)) == SetActor(w, i, w.actors[i].(phase := Parked, place := Gate))
  {
    hide Keeps, Identifier, ExitStep, ArriveStep, WakeStep;
  }

  lemma {:induction false} OutWake(w: World, i: nat)
    requires w.stopping && i < |w.actors| == |w.plan.actors| && (w.actors[i].place.Gate? || w.actors[i].place.Held?)
    ensures WorkerStep(w, Wake(i))
         == SetActor(w, i, w.actors[i].(place := if w.actors[i].place.Gate? then Leaving(false) else App))
  {
    hide Keeps, Identifier, ExitStep, ArriveStep;
  }

  lemma {:induction false} OutReturn(w: World, i: nat)
    requires i < |w.actors| == |w.plan.actors| && w.actors[i].place.App?
    ensures WorkerStep(w, Return(i, false)) == SetActor(w, i, w.actors[i].(place := Leaving(false)))
  {
    hide Keeps, Identifier, ExitStep, ArriveStep, WakeStep;
  }

  lemma {:induction false} OutExit(w: World, i: nat)
    requires w.stopping && i < |w.actors| == |w.plan.actors| && w.actors[i].place.Leaving?
    ensures WorkerStep(w, Exit(i))
         == SetActor(w, i, w.actors[i].(phase := Finished, checkpoint := COMPLETION, place := Exited))
  {
    hide Keeps, Identifier, WakeStep, ArriveStep;
  }

  lemma {:induction false} OutDie(w: World, i: nat)
    requires i < |w.actors| == |w.plan.actors| && w.actors[i].place.Exited?
    ensures WorkerStep(w, Die(i)) == SetActor(w, i, w.actors[i].(place := Dead))
  {
    hide Keeps, Identifier, ExitStep, ArriveStep, WakeStep;
  }

  // A stopped thread's next section changes only its own actor, which is then closer to its end.
  lemma {:induction false} Outward(w: World, i: nat) returns (a: Actor)
    requires w.stopping && i < |w.actors| == |w.plan.actors|
    requires !w.actors[i].place.Unspawned? && !w.actors[i].place.Dead?
    ensures WorkerStep(w, WayOut(w.actors[i].place, i)) == SetActor(w, i, a)
    ensures !a.place.Unspawned? && Distance(a.place) < Distance(w.actors[i].place)
  {
    hide Keeps, WorkerStep, SetActor;
    a := w.actors[i];
    match a.place {
      case Fresh =>
        OutBegin(w, i);
        a := a.(phase := Parked, place := Gate);
      case Gate =>
        OutWake(w, i);
        a := a.(place := Leaving(false));
      case Held =>
        OutWake(w, i);
        a := a.(place := App);
      case App =>
        OutReturn(w, i);
        a := a.(place := Leaving(false));
      case Leaving(_) =>
        OutExit(w, i);
        a := a.(phase := Finished, checkpoint := COMPLETION, place := Exited);
      case Exited =>
        OutDie(w, i);
        a := a.(place := Dead);
    }
  }

  lemma {:induction false} IdleBooks(w: World)
    requires Inv(w) && w.control.Idle? && w.outcome == Completed
    ensures w.next <= |w.plan.steps|
    ensures w.events == PlannedLog(w.plan, w.next) && |w.observations| == w.next + 1
    ensures w.closed <==> w.next == |w.plan.steps|
    ensures w.scheduleCompleted <==> w.closed
  {
    hide PlannedLog, ActorsOk, PlacesOk;
    if w.stopping { assert AllDone(w); } else { assert LogOk(w); }
  }

  lemma {:induction false} NextIsParked(w: World)
    requires Inv(w) && Admissible(w.plan) && w.control.Idle? && !w.closed && w.outcome == Completed
    ensures !w.stopping && w.next < |w.plan.steps| && |w.actors| == |w.plan.actors|
    ensures var i := Position(w.plan.actors, w.plan.steps[w.next].actor);
            i < |w.actors| && w.actors[i].phase.Parked?
  {
    DeclaredHasPosition(w.plan, w.plan.steps[w.next].actor);
    RestingActorIsParked(w, Position(w.plan.actors, w.plan.steps[w.next].actor));
  }
}
