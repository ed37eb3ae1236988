// From the scheduler to the campaign: what the campaign makes of the receipt of
// an actual execution.
module Receipts {
  import opened Wrappers
  import opened Schedule
  import opened ScheduleInvariant
  import opened ScheduleSafety
  import opened Calls
  import opened Values
  import opened Campaign

  // The receipt of an execution in this world; `decode` reads an observation as a state.
  function ReceiptOf(w: World, c: Candidate, id: string, decode: string -> Option<seq<Field>>): Receipt {
    Receipt(EXECUTION_SCHEMA, c, w.plan.actors, id, w.cleanup, w.remaining, Passed(w), w.scheduleCompleted, w.outcome,
            w.events, SightsOf(w.observations, decode))
  }

  function SightsOf(observations: seq<Observation>, decode: string -> Option<seq<Field>>): (s: seq<Sight>)
    ensures |s| == |observations|
  {
    seq(|observations|, i requires 0 <= i < |observations| => Sight(observations[i].afterSteps, decode(observations[i].state)))
  }

  // A cleanup that is over has nobody remaining.
  predicate NobodyRemains(w: World) { w.cleanup.Confirmed? ==> w.remaining == [] }

  predicate SameReport(w: World, v: World) { v.cleanup == w.cleanup && v.remaining == w.remaining }

  lemma {:induction false} FailReport(w: World)
    ensures forall reason :: SameReport(w, Schedule.Fail(w, reason))
  {
  }

  lemma {:induction false} SetActorReport(w: World)
    ensures forall i, a :: 0 <= i < |w.actors| ==> SameReport(w, SetActor(w, i, a))
  {
  }

  lemma {:induction false} RetainReport(w: World, kind: Kind, i: nat, bytes: nat)
    requires i < |w.actors| == |w.plan.actors|
    ensures SameReport(w, Schedule.RetainEvent(w, kind, i, bytes))
  {
  }

  lemma {:induction false} WorkerKeepsReport(w: World, l: Label)
    requires IsWorkerLabel(l) && l.w < |w.actors| == |w.plan.actors|
    ensures SameReport(w, WorkerStep(w, l))
  {
    hide WorkerStep, SetActor, Schedule.Fail;
    var told, a := WorkerForm(w, l);
    FailReport(w);
    SetActorReport(told);
  }

  lemma {:induction false} GrantKeepsReport(w: World, requested: Step, bytes: nat)
    requires |w.actors| == |w.plan.actors|
    ensures SameReport(w, GrantStep(w, requested, bytes))
  {
    hide SetActor, Schedule.Fail, Schedule.RetainEvent, Position;
    FailReport(w);
    var i := Position(w.plan.actors, requested.actor);
    if i < |w.actors| {
      RetainReport(w, Permit, i, bytes);
      SetActorReport(Schedule.RetainEvent(w, Permit, i, bytes));
    }
  }

  lemma {:induction false} RecordKeepsReport(w: World, i: nat, bytes: nat)
    requires i < |w.actors| == |w.plan.actors|
    ensures SameReport(w, RecordStep(w, i, bytes))
  {
    hide Schedule.Fail, Schedule.RetainEvent, Keeps;
    RetainReport(w, Arrival, i, bytes);
    FailReport(Schedule.RetainEvent(w, Arrival, i, bytes));
  }

  lemma {:induction false} ObserveKeepsReport(w: World, o: Observed)
    ensures SameReport(w, ObserveStep(w, o))
  {
    hide Schedule.Fail, Keeps;
    FailReport(w.(control := Settling));
  }

  lemma {:induction false} JoinKeepsReport(w: World, clean: bool)
    ensures SameReport(w, JoinStep(w, clean))
  {
    hide Schedule.Fail, SetActor;
    FailReport(w);
    SetActorReport(w);
    SetActorReport(Schedule.Fail(w, ApplicationFailed));
  }

  lemma {:induction false} IntervalKeepsReport(w: World, l: Label)
    requires IsIntervalLabel(l) && |w.actors| <= |w.plan.actors|
    ensures SameReport(w, IntervalStep(w, l))
  {
    hide RecordStep, JoinStep, ObserveStep, SettleStep, Keeps, SameReport;
    SelfReport(w);
    match l
    case Record(bytes) => if w.control.Arrived? && w.control.i < |w.actors| == |w.plan.actors| { RecordKeepsReport(w, w.control.i, bytes); }
    case Join(clean) => JoinKeepsReport(w, clean);
    case Observe(observed) => ObserveKeepsReport(w, observed);
    case Check =>
    case Settle => SettleKeepsReport(w);
    case Complete => CompleteKeepsReport(w);
  }

  lemma {:induction false} SelfReport(w: World)
    ensures forall next, control :: SameReport(w, w.(next := next, control := control))
    ensures forall control :: SameReport(w, w.(control := control))
    ensures SameReport(w, w)
  {
  }

  lemma {:induction false} SettleKeepsReport(w: World)
    ensures SameReport(w, SettleStep(w))
  {
  }

  lemma {:induction false} CompleteKeepsReport(w: World)
    ensures SameReport(w, w.(scheduleCompleted := true, control := Stopping))
  {
  }

  lemma {:induction false} CallKeepsReport(w: World, l: Label)
    requires IsCallLabel(l) && |w.actors| <= |w.plan.actors|
    ensures SameReport(w, CallStep(w, l))
  {
    hide GrantStep, Schedule.Fail, Keeps;
    FailReport(w);
    if l.Grant? && |w.actors| == |w.plan.actors| { GrantKeepsReport(w, l.requested, l.permitBytes); }
  }

  lemma {:induction false} PollReport(w: World)
    ensures forall holds, success :: SameReport(w, PollStep(w, holds, success))
  {
    hide Schedule.Fail, Keeps;
    FailReport(w);
  }

  lemma {:induction false} OpeningKeepsReport(w: World, l: Label)
    requires IsOpeningLabel(l)
    ensures SameReport(w, OpeningStep(w, l))
  {
    hide SetActor, Schedule.Fail, PollStep, AllParked, Keeps;
    FailReport(w);
    SetActorReport(w);
    PollReport(w);
  }

  lemma {:induction false} DropKeepsReport(w: World, l: Label)
    requires IsDropLabel(l)
    ensures SameReport(w, DropStep(w, l))
  {
    hide SetActor, AllJoined, Keeps;
    SetActorReport(w);
  }

  lemma {:induction false} CleanupLeavesNobody(w: World, l: Label)
    requires |w.actors| <= |w.plan.actors| && IsCleanupLabel(l) && NobodyRemains(w)
    ensures NobodyRemains(CleanupStep(w, l))
  {
    hide Keeps, DecideStep, TearDownStep, SetActor, Schedule.Fail;
    FailReport(w);
    SetActorReport(w);
    if l.Decide? { DecideLeavesNobody(w); }
    if l.TearDown? { TearDownLeavesNobody(w, l.tornDown); }
  }

  lemma {:induction false} DecideLeavesNobody(w: World)
    requires |w.actors| <= |w.plan.actors| && NobodyRemains(w)
    ensures NobodyRemains(DecideStep(w))
  {
    hide Keeps, Unjoined;
  }

  lemma {:induction false} TearDownLeavesNobody(w: World, ok: bool)
    requires NobodyRemains(w)
    ensures NobodyRemains(TearDownStep(w, ok))
  {
    hide Keeps;
  }

  lemma {:induction false} StepLeavesNobody(w: World, l: Label)
    requires NobodyRemains(w)
    ensures NobodyRemains(Apply(w, l))
  {
    hide CleanupStep, WorkerStep, OpeningStep, DropStep, IntervalStep, CallStep, Keeps;
    if IsFlagLabel(l) {}
    else if IsOpeningLabel(l) { OpeningKeepsReport(w, l); }
    else if IsDropLabel(l) { DropKeepsReport(w, l); }
    else if |w.actors| > |w.plan.actors| {}
    else if IsIntervalLabel(l) { IntervalKeepsReport(w, l); }
    else if IsCallLabel(l) { CallKeepsReport(w, l); }
    else if IsCleanupLabel(l) { CleanupLeavesNobody(w, l); }
    else if l.w < |w.actors| == |w.plan.actors| { WorkerKeepsReport(w, l); }
  }

  lemma {:induction false} RunLeavesNobody(plan: Plan, o: Acquisition, run: seq<Label>)
    ensures NobodyRemains(Exec(Initial(plan, o), run))
  {
    hide Apply;
    if run != [] {
      RunLeavesNobody(plan, o, run[..|run| - 1]);
      StepLeavesNobody(Exec(Initial(plan, o), run[..|run| - 1]), run[|run| - 1]);
    }
  }

  // The campaign judges an execution of its own candidate, reported under a new id, as
  // passed exactly when the execution has passed.
  lemma {:induction false} JudgedAsItRan(space: Space, c: Candidate, plan: Plan, o: Acquisition, run: seq<Label>, id: string,
                                         used: set<string>, decode: string -> Option<seq<Field>>)
    requires Openable(plan, o) && plan.steps == c.steps && plan.actors == space.actors
    requires ExecutionId(id) && id !in used && !space.requireComparison
    ensures var w := Exec(Initial(plan, o), run);
            Judge(space, Sample(ReceiptOf(w, c, id, decode), None), c, used) == Some(PassedRun) <==> Passed(w)
  {
    hide Apply, Inv, Exec, Initial, ExecutionId, SameActors, ValidSuccess, NobodyRemains;
    var w := Exec(Initial(plan, o), run);
    RunInv(plan, o, run);
    if Passed(w) {
      PassedLog(plan, o, run);
      PassedValidates(plan, o, run);
      RunLeavesNobody(plan, o, run);
      ConfirmedLeavesNobody(w);
      ActorsAreDeclared(plan, space);
    }
  }

  lemma {:induction false} ConfirmedLeavesNobody(w: World)
    requires NobodyRemains(w) && w.cleanup == Confirmed
    ensures w.remaining == []
  {
  }

  lemma {:induction false} ActorsAreDeclared(plan: Plan, space: Space)
    requires Admissible(plan) && plan.actors == space.actors
    ensures SameActors(plan.actors, space.actors)
  {
  }
}
