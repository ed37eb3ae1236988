// What holds over whole runs of the checkpoint scheduler, whatever the
// interleaving of controller, workers, lent checkpoints, cancellation and time.
module ScheduleSafety {
  import opened Schedule
  import opened ScheduleInvariant

  // ------------------------------------------------------ mutual exclusion

  // At most one actor runs, it is the one the controller is waiting for, and
  // outside an open interval everyone is parked or finished.
  lemma {:induction false} OneActorRuns(plan: Plan, o: Acquisition, run: seq<Label>)
    requires Openable(plan, o) && !Exec(Initial(plan, o), run).stopping
    ensures var w := Exec(Initial(plan, o), run);
            && (forall i :: 0 <= i < |w.actors| && w.actors[i].phase.Running? ==> w.control == AwaitArrival(i))
            && (forall i, j :: 0 <= i < j < |w.actors| ==> !w.actors[i].phase.Running? || !w.actors[j].phase.Running?)
            && (!Opening(w.control) && !w.control.AwaitArrival? ==>
                  forall i :: 0 <= i < |w.actors| ==> w.actors[i].phase.Parked? || w.actors[i].phase.Finished?)
  {
    RunInv(plan, o, run);
    var w := Exec(Initial(plan, o), run);
    forall i | 0 <= i < |w.actors|
      ensures w.actors[i].phase.Running? ==> w.control == AwaitArrival(i)
      ensures w.actors[i].phase.Starting? ==> Opening(w.control)
    {
      assert ActorOk(w, i);
    }
  }

  // Application code of two actors never overlaps before the execution stops.
  lemma {:induction false} OneActorInApplicationCode(plan: Plan, o: Acquisition, run: seq<Label>, i: nat, j: nat)
    requires Openable(plan, o)
    requires var w := Exec(Initial(plan, o), run);
             i < |w.actors| && j < |w.actors| && !w.stopping && w.actors[i].place.App? && w.actors[j].place.App?
    ensures i == j
  {
    RunInv(plan, o, run);
    var w := Exec(Initial(plan, o), run);
    assert ActorOk(w, i) && ActorOk(w, j);
  }

  // ------------------------------------------------------ unreachable branches

  // The observer is never asked while somebody is starting or running.
  lemma {:induction false} ObservationIsQuiescent(plan: Plan, o: Acquisition, run: seq<Label>)
    requires Openable(plan, o)
    requires var w := Exec(Initial(plan, o), run); w.control.Observing? && !w.stopping
    ensures var w := Exec(Initial(plan, o), run);
            !exists i :: 0 <= i < |w.actors| && (w.actors[i].phase.Running? || w.actors[i].phase.Starting?)
  {
    OneActorRuns(plan, o, run);
  }

  // The requested actor of the plan's next step exists and is parked, so `advance`
  // reaches neither its `expect` nor its "actor is not parked" branch.
  lemma {:induction false} NextActorIsParked(plan: Plan, o: Acquisition, run: seq<Label>)
    requires Openable(plan, o)
    requires var w := Exec(Initial(plan, o), run);
             w.control.Idle? && !w.closed && w.outcome == Completed
    ensures var w := Exec(Initial(plan, o), run);
            && !w.stopping
            && w.next < |plan.steps|
            && var i := Position(plan.actors, plan.steps[w.next].actor);
               i < |w.actors| == |plan.actors| && w.actors[i].phase.Parked?
  {
    RunInv(plan, o, run);
    var w := Exec(Initial(plan, o), run);
    DeclaredHasPosition(plan, plan.steps[w.next].actor);
    RestingActorIsParked(w, Position(plan.actors, plan.steps[w.next].actor));
  }

  lemma {:induction false} DeclaredHasPosition(plan: Plan, name: string)
    requires Declares(plan, name)
    ensures Position(plan.actors, name) < |plan.actors|
  {
  }

  lemma {:induction false} RestingActorIsParked(w: World, i: nat)
    requires |w.actors| == |w.plan.actors| && ActorsOk(w) && LogOk(w) && w.control.Idle? && !w.stopping
    requires w.next < |w.plan.steps| && i < |w.actors| && StepsAdmissible(w.plan)
    requires w.plan.actors[i].actor == w.plan.steps[w.next].actor
    ensures w.actors[i].phase.Parked?
  {
    hide PlannedLog, Declares;
    assert ActorOk(w, i) && AtPlanned(w, i);
    NotYetComplete(w.plan, w.next);
  }

  // `$done` is the resting place of exactly the finished actors.
  lemma {:induction false} CompletionMeansFinished(plan: Plan, o: Acquisition, run: seq<Label>, i: nat)
    requires Openable(plan, o) && i < |Exec(Initial(plan, o), run).actors|
    ensures var a := Exec(Initial(plan, o), run).actors[i]; a.checkpoint == COMPLETION <==> a.phase.Finished?
  {
    RunInv(plan, o, run);
    assert ActorOk(Exec(Initial(plan, o), run), i);
  }

  // ------------------------------------------------------ passed executions

  // The event log of a passed execution is the one the plan determines.
  lemma {:induction false} PassedLog(plan: Plan, o: Acquisition, run: seq<Label>)
    requires Openable(plan, o) && Passed(Exec(Initial(plan, o), run))
    ensures var w := Exec(Initial(plan, o), run);
            && Admissible(plan)
            && w.events == PlannedLog(plan, |plan.steps|)
            && |w.observations| == |plan.steps| + 1
            && forall k :: 0 <= k < |w.observations| ==> w.observations[k].afterSteps == k
  {
    RunInv(plan, o, run);
  }

  // Two passed executions of one plan cannot be told apart by their event logs.
  lemma {:induction false} PassedRunsAgree(plan: Plan, o1: Acquisition, run1: seq<Label>, o2: Acquisition, run2: seq<Label>)
    requires Openable(plan, o1) && Passed(Exec(Initial(plan, o1), run1))
    requires Openable(plan, o2) && Passed(Exec(Initial(plan, o2), run2))
    ensures Exec(Initial(plan, o1), run1).events == Exec(Initial(plan, o2), run2).events
  {
    PassedLog(plan, o1, run1);
    PassedLog(plan, o2, run2);
  }

  // Row 2k of the log is the permit of step k, row 2k+1 its arrival.
  lemma {:induction false} PlannedRows(plan: Plan, n: nat, k: nat)
    requires k < n <= |plan.steps|
    ensures PlannedLog(plan, n)[2 * k] == PermitRow(plan, k)
    ensures PlannedLog(plan, n)[2 * k + 1] == ArrivalRow(plan, k)
  {
    if k + 1 < n { PlannedRows(plan, n - 1, k); }
  }

  // The checkpoint of a permit is that actor's previous arrival, or `$start`.
  lemma {:induction false} PermitRemembersArrival(plan: Plan, k: nat, name: string)
    requires k <= |plan.steps|
    ensures var c := Before(plan, k, name);
            || (c == START && forall j :: 0 <= j < k ==> plan.steps[j].actor != name)
            || (exists j :: 0 <= j < k && plan.steps[j] == Step(name, c)
                  && forall m :: j < m < k ==> plan.steps[m].actor != name)
  {
    if k == 0 {
    } else if plan.steps[k - 1].actor == name {
      assert plan.steps[k - 1] == Step(name, Before(plan, k, name));
    } else {
      PermitRemembersArrival(plan, k - 1, name);
    }
  }

  // What src/schedule_exploration.rs:236-267 demands of a receipt.
  predicate ValidSuccess(scheduleCompleted: bool, outcome: Outcome, events: seq<Event>, observations: nat, steps: seq<Step>) {
    && scheduleCompleted
    && outcome == Completed
    && |events| == 2 * |steps|
    && (forall i :: 0 <= i < |steps| ==> ValidRow(events, steps, i))
    && observations == |steps| + 1
  }

  predicate ValidRow(events: seq<Event>, steps: seq<Step>, i: nat)
    requires i < |steps| && |events| == 2 * |steps|
  {
    var permit, arrival := events[2 * i], events[2 * i + 1];
    && permit.ordinal == 2 * i && permit.step == i && permit.kind == Permit && permit.actor == steps[i].actor
    && arrival.ordinal == 2 * i + 1 && arrival.step == i && arrival.kind == Arrival && arrival.actor == steps[i].actor
    && arrival.checkpoint == steps[i].checkpoint
  }

  // The explorer's validation never rejects a passed execution of its own plan.
  lemma {:induction false} PassedValidates(plan: Plan, o: Acquisition, run: seq<Label>)
    requires Openable(plan, o) && Passed(Exec(Initial(plan, o), run))
    ensures var w := Exec(Initial(plan, o), run);
            ValidSuccess(w.scheduleCompleted, w.outcome, w.events, |w.observations|, plan.steps)
  {
    PassedLog(plan, o, run);
    var w := Exec(Initial(plan, o), run);
    forall i | 0 <= i < |plan.steps| ensures ValidRow(w.events, plan.steps, i) {
      PlannedRows(plan, |plan.steps|, i);
    }
  }

  // ------------------------------------------------------ monotone history

  function Permits(events: seq<Event>): nat {
    if events == [] then 0 else Permits(events[..|events| - 1]) + if events[|events| - 1].kind.Permit? then 1 else 0
  }

  lemma {:induction false} PermitsOfPush(events: seq<Event>, e: Event)
    ensures Permits(events + [e]) == Permits(events) + if e.kind.Permit? then 1 else 0
  {
    assert (events + [e])[..|events|] == events;
  }

  // A run so far and what a later world still agrees with.
  predicate Extends(w: World, v: World) {
    Keeps(w, v) && (w.stopping ==> Permits(v.events) == Permits(w.events))
  }

  // A permit is only recorded by an execution that is not stopping.
  lemma {:induction false} GrantIsLive(w: World, l: Label)
    requires Inv(w) && l.Grant? && w.stopping
    ensures Apply(w, l) == w
  {
  }

  lemma {:induction false} RecordAddsNoPermit(w: World, i: nat, bytes: nat)
    requires i < |w.actors| == |w.plan.actors|
    ensures Permits(RecordStep(w, i, bytes).events) == Permits(w.events)
  {
    assert RecordStep(w, i, bytes).events == RetainEvent(w, Arrival, i, bytes).events;
    var d, a := w.plan.actors[i], w.actors[i];
    PermitsOfPush(w.events, Event(|w.events|, Arrival, w.next, d.actor, d.operation, a.checkpoint));
  }

  lemma {:induction false} StepExtends(w: World, l: Label)
    requires Inv(w)
    ensures Extends(w, Apply(w, l))
  {
    if l.Grant? {
      if w.stopping { GrantIsLive(w, l); }
    } else if l.Record? && w.control.Arrived? && w.control.i < |w.actors| == |w.plan.actors| {
      RecordAddsNoPermit(w, w.control.i, l.arrivalBytes);
    }
  }

  // Stopping is for good, the first failure is the one reported, no permit
  // follows the stop, and nothing that closed reopens.
  lemma {:induction false} HistoryExtends(plan: Plan, o: Acquisition, run: seq<Label>, k: nat)
    requires Openable(plan, o) && k <= |run|
    ensures Extends(Exec(Initial(plan, o), run[..k]), Exec(Initial(plan, o), run))
  {
    if k == |run| {
      assert run[..k] == run;
    } else {
      var most := run[..|run| - 1];
      assert run[..k] == most[..k];
      HistoryExtends(plan, o, most, k);
      RunInv(plan, o, most);
      StepExtends(Exec(Initial(plan, o), most), run[|run| - 1]);
    }
  }

  // ------------------------------------------------------ teardown

  // Teardown happens at most once, after every thread is joined, and by the end
  // of Drop exactly once if the program was acquired.
  lemma {:induction false} TeardownOnce(plan: Plan, o: Acquisition, run: seq<Label>)
    requires Openable(plan, o)
    ensures var w := Exec(Initial(plan, o), run);
            && w.teardowns <= 1
            && (w.teardowns == 1 ==> forall i :: 0 <= i < |w.actors| && Spawned(w.actors[i]) ==>
                  w.actors[i].joined && w.actors[i].place.Dead?)
            && (w.control.Dropped? ==> w.teardowns == if o.Opened? || o.WorkersDiffer? then 1 else 0)
            && (w.closed ==> w.teardowns == if o.Opened? || o.WorkersDiffer? then 1 else 0)
  {
    RunInv(plan, o, run);
    var w := Exec(Initial(plan, o), run);
    if w.acquired && |w.actors| == |w.plan.actors| {
      forall i | 0 <= i < |w.actors| ensures w.actors[i].joined ==> w.actors[i].place.Dead? { assert ActorOk(w, i); }
    }
  }

  // A plan carried out to the end leaves no thread behind: cleanup cannot be incomplete.
  lemma {:induction false} CompletedIsNeverIncomplete(plan: Plan, o: Acquisition, run: seq<Label>)
    requires Openable(plan, o) && Exec(Initial(plan, o), run).scheduleCompleted
    ensures var w := Exec(Initial(plan, o), run);
            && w.outcome == Completed
            && w.cleanup != Incomplete
            && (forall i :: 0 <= i < |w.actors| ==> w.actors[i].place.Dead? && w.actors[i].joined)
            && (w.control.Cleaning? ==> Apply(w, Decide).control.TearingDown?)
  {
    hide Inv, Exec, Initial, Apply;
    RunInv(plan, o, run);
    CompletedFacts(Exec(Initial(plan, o), run));
  }

  lemma {:induction false} CompletedFacts(w: World)
    requires Inv(w) && w.scheduleCompleted
    ensures w.outcome == Completed && w.cleanup != Incomplete
    ensures forall i :: 0 <= i < |w.actors| ==> w.actors[i].place.Dead? && w.actors[i].joined
    ensures w.control.Cleaning? ==> Apply(w, Decide).control.TearingDown?
  {
    hide Apply;
    if w.control.Cleaning? {
      DecideInv(w);
      DecideApplies(w);
    }
  }

  lemma {:induction false} DecideApplies(w: World)
    requires w.control.Cleaning? && |w.actors| <= |w.plan.actors|
    ensures Apply(w, Decide) == DecideStep(w)
  {
    hide DecideStep;
  }

  // After closing, only the caller's flags and the drop of the empty shell remain.
  lemma {:induction false} ClosedIsFrozen(w: World, l: Label)
    requires Inv(w) && w.closed
    ensures var v := Apply(w, l);
            v == w.(cancelled := v.cancelled, expired := v.expired, control := v.control)
  {
    if IsWorkerLabel(l) {
      ClosedWorker(w, l);
    } else if IsDropLabel(l) {
      ClosedDrop(w, l);
    } else if !IsFlagLabel(l) {
      ClosedController(w, l);
    }
  }

  lemma {:induction false} ClosedWorker(w: World, l: Label)
    requires Inv(w) && w.closed && IsWorkerLabel(l)
    ensures Apply(w, l) == w
  {
    hide Inv, Apply, WorkerStep, Keeps;
    WorkerApplied(w, l);
    if l.w < |w.actors| == |w.plan.actors| {
      ClosedActor(w, l.w);
      NothingToDo(w, l);
    }
  }

  lemma {:induction false} WorkerApplied(w: World, l: Label)
    requires IsWorkerLabel(l)
    ensures Apply(w, l) == if l.w < |w.actors| == |w.plan.actors| then WorkerStep(w, l) else w
  {
    hide Keeps, WorkerStep, FlagStep, OpeningStep, DropStep, IntervalStep, CallStep, CleanupStep;
  }

  lemma {:induction false} NothingToDo(w: World, l: Label)
    requires IsWorkerLabel(l) && l.w < |w.actors| == |w.plan.actors|
    requires w.actors[l.w].place.Dead? || w.actors[l.w].place.Unspawned?
    ensures WorkerStep(w, l) == w
  {
    hide Keeps, Identifier, Fail, SetActor;
  }

  lemma {:induction false} ClosedDrop(w: World, l: Label)
    requires Inv(w) && w.closed && IsDropLabel(l)
    ensures var v := Apply(w, l); v == w.(control := v.control)
  {
    if l.DropJoin? && l.dropped < |w.actors| && w.actors[l.dropped].place.Dead? { ClosedActor(w, l.dropped); }
  }

  lemma {:induction false} ClosedActor(w: World, i: nat)
    requires Inv(w) && w.closed && i < |w.actors|
    ensures (w.actors[i].place.Dead? && w.actors[i].joined) || w.actors[i].place.Unspawned?
  {
    assert w.acquired && AllJoined(w);
    if |w.actors| == |w.plan.actors| { assert ActorOk(w, i); }
  }

  lemma {:induction false} ClosedController(w: World, l: Label)
    requires w.closed && (w.control.Idle? || w.control.Dropping? || w.control.Dropped?)
    requires IsOpeningLabel(l) || IsIntervalLabel(l) || IsCallLabel(l) || IsCleanupLabel(l)
    ensures Apply(w, l) == w
  {
  }
}
