// Which failure an execution reports: the first thing that goes wrong, and for what goes
// wrong in one critical section a fixed order of precedence.
module Failures {
  import opened Schedule
  import opened ScheduleInvariant

  // wait_for looks at the flags, the condition not mattering yet.
  predicate Waits(w: World, l: Label) {
    l.Poll? && !w.stopping && (w.control.AwaitStart? || (w.control.AwaitArrival? && w.control.i < |w.actors|))
  }

  // advance is called for a step.
  predicate Requests(w: World, l: Label) {
    l.Grant? && w.control.Idle? && !w.closed && |w.actors| == |w.plan.actors|
  }

  predicate Quiet(w: World) {
    forall i :: 0 <= i < |w.actors| ==> !w.actors[i].phase.Running? && !w.actors[i].phase.Starting?
  }

  // The observer has been called.
  predicate Observes(w: World, l: Label) { l.Observe? && w.control.Observing? && !w.stopping && |w.actors| <= |w.plan.actors| }

  predicate Worker(w: World, l: Label) { IsWorkerLabel(l) && l.w < |w.actors| == |w.plan.actors| }

  predicate Planned(w: World, l: Label)
    requires l.Grant?
  {
    w.next < |w.plan.steps| && w.plan.steps[w.next] == l.requested
  }

  // The planned actor may be released.
  predicate Grants(w: World, l: Label) {
    Requests(w, l) && !w.cancelled && !w.expired && Planned(w, l) && Position(w.plan.actors, l.requested.actor) < |w.actors|
  }

  predicate ReleasesParked(w: World, l: Label) {
    Grants(w, l) && w.actors[Position(w.plan.actors, l.requested.actor)].phase.Parked?
  }

  predicate Records(w: World, l: Label) { l.Record? && w.control.Arrived? && w.control.i < |w.actors| == |w.plan.actors| }

  predicate ArrivedAsPlanned(w: World)
    requires w.control.Arrived? && w.control.i < |w.actors|
  {
    w.next < |w.plan.steps| && w.actors[w.control.i].checkpoint == w.plan.steps[w.next].checkpoint
  }

  // What makes an execution that has not failed report the given failure: in the worker
  // threads, in the waits and the opening, in a call of the client, in the rest of advance,
  // and in cleanup.
  predicate Cause(reason: Outcome, w: World, l: Label) {
    || (Worker(w, l) && WorkerCause(reason, w, l))
    || OpeningCause(reason, w, l)
    || CallCause(reason, w, l)
    || IntervalCause(reason, w, l)
    || CleanupCause(reason, w, l)
  }

  predicate WorkerCause(reason: Outcome, w: World, l: Label)
    requires Worker(w, l)
  {
    var a := w.actors[l.w];
    match reason
    case UncontrolledActor =>
      (l.Arrive? && a.place.App? && !a.phase.Running?) || (l.Foreign? && (a.place.App? || a.place.Held?))
    case UnexpectedCheckpoint =>
      && l.Arrive? && a.place.App? && a.phase.Running? && !w.stopping
      && !(Identifier(l.checkpoint) && l.checkpoint in w.plan.checkpoints)
    case ApplicationFailed => l.Exit? && a.place.Leaving? && a.place.failed && !w.stopping
    case _ => false
  }

  predicate OpeningCause(reason: Outcome, w: World, l: Label) {
    match reason
    case Cancelled => Waits(w, l) && w.cancelled
    case TimedOut => Waits(w, l) && w.expired && !w.cancelled
    case ResourceFailed => l.Spawn? && !l.spawned && w.control.Spawning? && w.control.k < |w.actors|
    case _ => false
  }

  predicate CallCause(reason: Outcome, w: World, l: Label) {
    match reason
    case Cancelled => Requests(w, l) && w.cancelled
    case TimedOut => Requests(w, l) && w.expired && !w.cancelled
    case InvalidSchedule =>
      || (Requests(w, l) && !w.cancelled && !w.expired && !Planned(w, l))
      || (l.Finish? && w.control.Idle? && !w.closed && |w.actors| <= |w.plan.actors| && w.next != |w.plan.steps|)
    case UnexpectedCheckpoint => Grants(w, l) && !ReleasesParked(w, l)
    case ResourceFailed => ReleasesParked(w, l) && w.evidence + l.permitBytes > EVIDENCE_BOUND
    case _ => false
  }

  predicate IntervalCause(reason: Outcome, w: World, l: Label) {
    match reason
    case ResourceFailed => Records(w, l) && w.evidence + l.arrivalBytes > EVIDENCE_BOUND
    case UnexpectedCheckpoint => Records(w, l) && w.evidence + l.arrivalBytes <= EVIDENCE_BOUND && !ArrivedAsPlanned(w)
    case ApplicationFailed =>
      && l.Join? && w.control.Joining? && w.control.i < |w.actors| <= |w.plan.actors|
      && w.actors[w.control.i].place.Dead? && !l.clean
    case Cancelled => Observes(w, l) && Quiet(w) && w.cancelled
    case TimedOut => Observes(w, l) && Quiet(w) && w.expired && !w.cancelled
    case ObservationFailed => Observes(w, l) && (!Quiet(w) || (!w.cancelled && !w.expired && !Admits(w, l)))
    case _ => false
  }

  // The observation is a value that is read back and fits.
  predicate Admits(w: World, l: Label)
    requires l.Observe?
  {
    l.observed.Observed? && l.observed.accepted && w.evidence + |l.observed.text| <= EVIDENCE_BOUND
  }

  predicate CleanupCause(reason: Outcome, w: World, l: Label) {
    reason == Cancelled && l.Stop? && w.control.Stopping? && |w.actors| <= |w.plan.actors| && !w.scheduleCompleted
  }

  lemma {:induction false} Kept(w: World)
    ensures forall reason :: Fail(w, reason).outcome == if w.outcome == Completed then reason else w.outcome
    ensures forall i, a :: 0 <= i < |w.actors| ==> SetActor(w, i, a).outcome == w.outcome
  {
    hide Keeps;
  }

  lemma {:induction false} RetainOutcome(w: World, kind: Kind, i: nat, bytes: nat)
    requires i < |w.actors| == |w.plan.actors| && w.outcome == Completed
    ensures var v := RetainEvent(w, kind, i, bytes);
            && v.outcome == (if w.evidence + bytes > EVIDENCE_BOUND then ResourceFailed else Completed)
            && (v.stopping <==> w.stopping || w.evidence + bytes > EVIDENCE_BOUND)
            && |v.actors| == |w.actors| && v.next == w.next && v.plan == w.plan
  {
    hide Keeps;
  }

  lemma {:induction false} WorkerFailure(w: World, l: Label, reason: Outcome)
    requires reason != Completed && w.outcome == Completed && Worker(w, l)
    ensures WorkerStep(w, l).outcome == reason <==> WorkerCause(reason, w, l)
  {
    hide Keeps, Identifier, SetActor, Fail;
    Kept(w);
    if l.Exit? { ExitFailure(w, l.w); }
  }

  lemma {:induction false} ExitFailure(w: World, i: nat)
    requires i < |w.actors| && w.outcome == Completed
    ensures var a := w.actors[i];
            ExitStep(w, i).outcome
            == if a.place.Leaving? && a.place.failed && !w.stopping then ApplicationFailed else Completed
  {
    hide Keeps;
  }

  lemma {:induction false} GrantFailure(w: World, l: Label, reason: Outcome)
    requires reason != Completed && w.outcome == Completed && Requests(w, l)
    ensures GrantStep(w, l.requested, l.permitBytes).outcome == reason <==> CallCause(reason, w, l)
  {
    hide Keeps, Position, SetActor, Fail, RetainEvent;
    Kept(w);
    if Grants(w, l) {
      var i := Position(w.plan.actors, l.requested.actor);
      RetainOutcome(w, Permit, i, l.permitBytes);
      Kept(RetainEvent(w, Permit, i, l.permitBytes));
    }
  }

  lemma {:induction false} RecordFailure(w: World, l: Label, reason: Outcome)
    requires reason != Completed && w.outcome == Completed && Records(w, l)
    ensures RecordStep(w, w.control.i, l.arrivalBytes).outcome == reason <==> IntervalCause(reason, w, l)
  {
    hide Keeps, Fail, RetainEvent;
    RetainOutcome(w, Arrival, w.control.i, l.arrivalBytes);
    Kept(RetainEvent(w, Arrival, w.control.i, l.arrivalBytes));
  }

  lemma {:induction false} ObserveFailure(w: World, l: Label, reason: Outcome)
    requires reason != Completed && w.outcome == Completed && l.Observe? && w.control.Observing? && |w.actors| <= |w.plan.actors|
    ensures ObserveStep(w, l.observed).outcome == reason <==> IntervalCause(reason, w, l)
  {
    hide Quiet, Admits, ObserveStep;
    ObserveOutcome(w, l);
  }

  lemma {:induction false} ObserveOutcome(w: World, l: Label)
    requires w.outcome == Completed && l.Observe?
    ensures ObserveStep(w, l.observed).outcome
         == if w.stopping then Completed
            else if !Quiet(w) then ObservationFailed
            else if w.cancelled then Cancelled
            else if w.expired then TimedOut
            else if Admits(w, l) then Completed else ObservationFailed
  {
    hide Keeps, Quiet;
    QuietMeans(w);
  }

  lemma {:induction false} QuietMeans(w: World)
    ensures Quiet(w) <==> !exists i :: 0 <= i < |w.actors| && (w.actors[i].phase.Running? || w.actors[i].phase.Starting?)
  {
  }

  lemma {:induction false} OpeningFailure(w: World, l: Label, reason: Outcome)
    requires reason != Completed && w.outcome == Completed && IsOpeningLabel(l)
    ensures OpeningStep(w, l).outcome == reason <==> OpeningCause(reason, w, l)
  {
    hide Keeps, AllParked, SetActor, Fail, PollStep;
    Kept(w);
    PollOutcome(w);
  }

  lemma {:induction false} PollOutcome(w: World)
    requires w.outcome == Completed
    ensures forall holds, success :: PollStep(w, holds, success).outcome
              == if w.stopping then Completed else if w.cancelled then Cancelled
                 else if w.expired then TimedOut else Completed
  {
    hide Keeps;
  }

  lemma {:induction false} IntervalFailure(w: World, l: Label, reason: Outcome)
    requires reason != Completed && w.outcome == Completed && IsIntervalLabel(l) && |w.actors| <= |w.plan.actors|
    ensures IntervalStep(w, l).outcome == reason <==> IntervalCause(reason, w, l)
  {
    hide Keeps, RecordStep, ObserveStep, JoinStep, Quiet, ArrivedAsPlanned, Admits;
    if Records(w, l) { RecordFailure(w, l, reason); }
    if l.Observe? && w.control.Observing? { ObserveFailure(w, l, reason); }
    if l.Join? { JoinOutcome(w, l.clean); }
  }

  lemma {:induction false} JoinOutcome(w: World, clean: bool)
    requires w.outcome == Completed
    ensures JoinStep(w, clean).outcome
         == if w.control.Joining? && w.control.i < |w.actors| && w.actors[w.control.i].place.Dead? && !clean
            then ApplicationFailed else Completed
  {
    hide Keeps;
  }

  lemma {:induction false} CallFailure(w: World, l: Label, reason: Outcome)
    requires reason != Completed && w.outcome == Completed && IsCallLabel(l) && |w.actors| <= |w.plan.actors|
    ensures CallStep(w, l).outcome == reason <==> CallCause(reason, w, l)
  {
    hide Keeps, GrantStep, Grants, ReleasesParked, Fail;
    Kept(w);
    if Requests(w, l) { GrantFailure(w, l, reason); }
    else { assert !Grants(w, l) && !ReleasesParked(w, l) by { NoGrant(w, l); } }
  }

  lemma {:induction false} NoGrant(w: World, l: Label)
    requires !Requests(w, l)
    ensures !Grants(w, l) && !ReleasesParked(w, l)
  {
  }

  lemma {:induction false} CleanupFailure(w: World, l: Label, reason: Outcome)
    requires reason != Completed && w.outcome == Completed && IsCleanupLabel(l) && |w.actors| <= |w.plan.actors|
    ensures CleanupStep(w, l).outcome == reason <==> CleanupCause(reason, w, l)
  {
    hide Keeps, SetActor, Fail, Unjoined;
    Kept(w);
  }

  // The sections of one group are no causes of another.
  lemma {:induction false} OpeningAlone(w: World, l: Label, reason: Outcome)
    ensures OpeningCause(reason, w, l) ==> IsOpeningLabel(l)
  {
  }

  lemma {:induction false} CallAlone(w: World, l: Label, reason: Outcome)
    ensures CallCause(reason, w, l) ==> IsCallLabel(l) && |w.actors| <= |w.plan.actors|
  {
  }

  lemma {:induction false} IntervalAlone(w: World, l: Label, reason: Outcome)
    ensures IntervalCause(reason, w, l) ==> IsIntervalLabel(l) && |w.actors| <= |w.plan.actors|
  {
    hide Quiet, Admits, ArrivedAsPlanned;
  }

  lemma {:induction false} CleanupAlone(w: World, l: Label, reason: Outcome)
    ensures CleanupCause(reason, w, l) ==> IsCleanupLabel(l) && |w.actors| <= |w.plan.actors|
  {
  }

  lemma {:induction false} CauseForm(w: World, l: Label, reason: Outcome)
    ensures IsOpeningLabel(l) ==> (Cause(reason, w, l) <==> OpeningCause(reason, w, l))
    ensures IsCallLabel(l) ==> (Cause(reason, w, l) <==> CallCause(reason, w, l))
    ensures IsIntervalLabel(l) ==> (Cause(reason, w, l) <==> IntervalCause(reason, w, l))
    ensures IsCleanupLabel(l) ==> (Cause(reason, w, l) <==> CleanupCause(reason, w, l))
    ensures IsWorkerLabel(l) ==> (Cause(reason, w, l) <==> Worker(w, l) && WorkerCause(reason, w, l))
    ensures IsFlagLabel(l) || IsDropLabel(l) ==> !Cause(reason, w, l)
    ensures Cause(reason, w, l) && !IsOpeningLabel(l) ==> |w.actors| <= |w.plan.actors|
  {
    hide WorkerCause, OpeningCause, CallCause, IntervalCause, CleanupCause;
    OpeningAlone(w, l, reason);
    CallAlone(w, l, reason);
    IntervalAlone(w, l, reason);
    CleanupAlone(w, l, reason);
  }

  // An execution that has not failed reports a failure after a critical section iff that
  // section is the failure's cause; so no section is the cause of two.
  lemma {:induction false} WhichFailure(w: World, l: Label, reason: Outcome)
    requires w.outcome == Completed && reason != Completed
    ensures Apply(w, l).outcome == reason <==> Cause(reason, w, l)
  {
    hide Keeps, WorkerStep, OpeningStep, IntervalStep, CallStep, CleanupStep, DropStep, FlagStep,
         WorkerCause, OpeningCause, CallCause, IntervalCause, CleanupCause, Cause;
    CauseForm(w, l, reason);
    OthersKeep(w, l);
    if IsOpeningLabel(l) { OpeningFailure(w, l, reason); }
    else if |w.actors| <= |w.plan.actors| && IsIntervalLabel(l) { IntervalFailure(w, l, reason); }
    else if |w.actors| <= |w.plan.actors| && IsCallLabel(l) { CallFailure(w, l, reason); }
    else if |w.actors| <= |w.plan.actors| && IsCleanupLabel(l) { CleanupFailure(w, l, reason); }
    else if Worker(w, l) { WorkerFailure(w, l, reason); }
  }

  lemma {:induction false} OthersKeep(w: World, l: Label)
    ensures IsFlagLabel(l) ==> FlagStep(w, l).outcome == w.outcome
    ensures IsDropLabel(l) ==> DropStep(w, l).outcome == w.outcome
  {
    hide Keeps, AllJoined;
  }

  // Whatever a run reports in the end has had its cause at some point, before which
  // nothing had failed.
  lemma {:induction false} FailureHasCause(plan: Plan, run: seq<Label>) returns (k: nat)
    requires Exec(Initial(plan, Opened), run).outcome != Completed
    ensures k < |run| && Exec(Initial(plan, Opened), run[..k]).outcome == Completed
    ensures Cause(Exec(Initial(plan, Opened), run).outcome, Exec(Initial(plan, Opened), run[..k]), run[k])
  {
    hide Apply, Cause, Initial;
    assert Initial(plan, Opened).outcome == Completed by { OpenedHasNotFailed(plan); }
    var front := run[..|run| - 1];
    var w := Exec(Initial(plan, Opened), front);
    var l := run[|run| - 1];
    if w.outcome == Completed {
      k := |run| - 1;
      WhichFailure(w, l, Apply(w, l).outcome);
    } else {
      StaysFailed(w, l);
      k := FailureHasCause(plan, front);
      assert run[..k] == front[..k] && run[k] == front[k];
    }
  }

  lemma {:induction false} OpenedHasNotFailed(plan: Plan)
    ensures Initial(plan, Opened).outcome == Completed
  {
  }

  lemma {:induction false} StaysFailed(w: World, l: Label)
    requires w.outcome != Completed
    ensures Apply(w, l).outcome == w.outcome
  {
    hide WorkerStep, OpeningStep, IntervalStep, CallStep, CleanupStep, DropStep, FlagStep;
  }
}
