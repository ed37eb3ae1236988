// Reachability of worlds, as the least property handed on by every step.
module ScheduleReach {
  import opened Schedule
  import opened ScheduleInvariant

  // A property of worlds that every step hands on.
  ghost predicate Closed(reached: World -> bool) {
    forall v, l {:trigger reached(Apply(v, l))} :: reached(v) ==> reached(Apply(v, l))
  }

  lemma {:induction false} Then(reached: World -> bool, v: World, l: Label, w: World)
    requires Closed(reached) && reached(v) && Apply(v, l) == w
    ensures reached(w)
  {
    assert reached(Apply(v, l));
  }

  // The same, one group of labels at a time.
  lemma {:induction false} ThenWorker(reached: World -> bool, v: World, l: Label, w: World)
    requires Closed(reached) && reached(v) && IsWorkerLabel(l) && l.w < |v.actors| == |v.plan.actors| && WorkerStep(v, l) == w
    ensures reached(w)
  {
    Then(reached, v, l, w);
  }

  lemma {:induction false} ThenFlag(reached: World -> bool, v: World, l: Label, w: World)
    requires Closed(reached) && reached(v) && IsFlagLabel(l) && FlagStep(v, l) == w
    ensures reached(w)
  {
    Then(reached, v, l, w);
  }

  lemma {:induction false} ThenOpening(reached: World -> bool, v: World, l: Label, w: World)
    requires Closed(reached) && reached(v) && IsOpeningLabel(l) && OpeningStep(v, l) == w
    ensures reached(w)
  {
    Then(reached, v, l, w);
  }

  lemma {:induction false} ThenInterval(reached: World -> bool, v: World, l: Label, w: World)
    requires Closed(reached) && reached(v) && IsIntervalLabel(l) && |v.actors| <= |v.plan.actors| && IntervalStep(v, l) == w
    ensures reached(w)
  {
    Then(reached, v, l, w);
  }

  lemma {:induction false} ThenCleanup(reached: World -> bool, v: World, l: Label, w: World)
    requires Closed(reached) && reached(v) && IsCleanupLabel(l) && |v.actors| <= |v.plan.actors| && CleanupStep(v, l) == w
    ensures reached(w)
  {
    Then(reached, v, l, w);
  }

  lemma {:induction false} ThenCall(reached: World -> bool, v: World, l: Label, w: World)
    requires Closed(reached) && reached(v) && IsCallLabel(l) && |v.actors| <= |v.plan.actors| && CallStep(v, l) == w
    ensures reached(w)
  {
    Then(reached, v, l, w);
  }

  lemma {:induction false} ThenDrop(reached: World -> bool, v: World, l: Label, w: World)
    requires Closed(reached) && reached(v) && IsDropLabel(l) && DropStep(v, l) == w
    ensures reached(w)
  {
    Then(reached, v, l, w);
  }

  // A run from the opening leads to the world.
  ghost predicate Reachable(plan: Plan, o: Acquisition, w: World) {
    exists run: seq<Label> :: Exec(Initial(plan, o), run) == w
  }

  // The world has every property that holds at the opening and survives every step.
  ghost predicate Reached(plan: Plan, o: Acquisition, w: World) {
    forall p: World -> bool :: Closed(p) && p(Initial(plan, o)) ==> p(w)
  }

  lemma {:induction false} ReachableIsClosed(plan: Plan, o: Acquisition)
    ensures Closed(v => Reachable(plan, o, v)) && Reachable(plan, o, Initial(plan, o))
  {
    var w := Initial(plan, o);
    assert Exec(w, []) == w;
    forall v, l | Reachable(plan, o, v) ensures Reachable(plan, o, Apply(v, l)) {
      var run: seq<Label> :| Exec(w, run) == v;
      assert (run + [l])[..|run|] == run;
      assert Exec(w, run + [l]) == Apply(v, l);
    }
  }

  lemma {:induction false} RunStaysInside(p: World -> bool, w: World, run: seq<Label>)
    requires Closed(p) && p(w)
    ensures p(Exec(w, run))
  {
    if run != [] {
      RunStaysInside(p, w, run[..|run| - 1]);
      assert p(Apply(Exec(w, run[..|run| - 1]), run[|run| - 1]));
    }
  }

  // The two readings of reachability agree.
  lemma {:induction false} ReachedIsReachable(plan: Plan, o: Acquisition, w: World)
    ensures Reached(plan, o, w) <==> Reachable(plan, o, w)
  {
    if Reached(plan, o, w) {
      var p := v => Reachable(plan, o, v);
      ReachableIsClosed(plan, o);
      assert p(w);
    }
    if Reachable(plan, o, w) {
      var run: seq<Label> :| Exec(Initial(plan, o), run) == w;
      forall p: World -> bool | Closed(p) && p(Initial(plan, o)) ensures p(w) {
        RunStaysInside(p, Initial(plan, o), run);
      }
    }
  }

  // An opening that has failed is never forgotten.
  lemma {:induction false} FailedFromTheStart(plan: Plan, o: Acquisition, w: World)
    requires Openable(plan, o) && Reached(plan, o, w) && !o.Opened?
    ensures w.outcome == Initial(plan, o).outcome && w.outcome != Completed
  {
    hide Apply, Openable;
    var reason := Initial(plan, o).outcome;
    assert reason != Completed by { OpeningFails(plan, o); }
    var p := (v: World) => v.outcome == reason;
    assert p(w);
  }

  lemma {:induction false} OpeningFails(plan: Plan, o: Acquisition)
    requires Openable(plan, o) && !o.Opened?
    ensures Initial(plan, o).outcome != Completed
  {
  }

  lemma {:induction false} ReachedInv(plan: Plan, o: Acquisition, w: World)
    requires Openable(plan, o) && Reached(plan, o, w)
    ensures Inv(w) && w.plan == plan && (w.acquired <==> o.Opened? || o.WorkersDiffer?)
    ensures w.acquired ==> Admissible(plan)
  {
    ReachedIsReachable(plan, o, w);
    var run: seq<Label> :| Exec(Initial(plan, o), run) == w;
    RunInv(plan, o, run);
  }

  // One more section, whichever thread it belongs to.
  lemma {:induction false} WorkerReached(plan: Plan, o: Acquisition, w: World, l: Label, v: World)
    requires Reached(plan, o, w) && IsWorkerLabel(l) && l.w < |w.actors| == |w.plan.actors| && WorkerStep(w, l) == v
    ensures Reached(plan, o, v)
  {
    forall p: World -> bool | Closed(p) && p(Initial(plan, o)) ensures p(v) { ThenWorker(p, w, l, v); }
  }

  lemma {:induction false} FlagReached(plan: Plan, o: Acquisition, w: World, l: Label, v: World)
    requires Reached(plan, o, w) && IsFlagLabel(l) && FlagStep(w, l) == v
    ensures Reached(plan, o, v)
  {
    forall p: World -> bool | Closed(p) && p(Initial(plan, o)) ensures p(v) { ThenFlag(p, w, l, v); }
  }

  lemma {:induction false} OpeningReached(plan: Plan, o: Acquisition, w: World, l: Label, v: World)
    requires Reached(plan, o, w) && IsOpeningLabel(l) && OpeningStep(w, l) == v
    ensures Reached(plan, o, v)
  {
    forall p: World -> bool | Closed(p) && p(Initial(plan, o)) ensures p(v) { ThenOpening(p, w, l, v); }
  }

  lemma {:induction false} IntervalReached(plan: Plan, o: Acquisition, w: World, l: Label, v: World)
    requires Reached(plan, o, w) && IsIntervalLabel(l) && |w.actors| <= |w.plan.actors| && IntervalStep(w, l) == v
    ensures Reached(plan, o, v)
  {
    forall p: World -> bool | Closed(p) && p(Initial(plan, o)) ensures p(v) { ThenInterval(p, w, l, v); }
  }

  lemma {:induction false} CallReached(plan: Plan, o: Acquisition, w: World, l: Label, v: World)
    requires Reached(plan, o, w) && IsCallLabel(l) && |w.actors| <= |w.plan.actors| && CallStep(w, l) == v
    ensures Reached(plan, o, v)
  {
    forall p: World -> bool | Closed(p) && p(Initial(plan, o)) ensures p(v) { ThenCall(p, w, l, v); }
  }

  lemma {:induction false} CleanupReached(plan: Plan, o: Acquisition, w: World, l: Label, v: World)
    requires Reached(plan, o, w) && IsCleanupLabel(l) && |w.actors| <= |w.plan.actors| && CleanupStep(w, l) == v
    ensures Reached(plan, o, v)
  {
    forall p: World -> bool | Closed(p) && p(Initial(plan, o)) ensures p(v) { ThenCleanup(p, w, l, v); }
  }

  // The same for single sections, from where the controller is.
  lemma {:induction false} ObserveReached(plan: Plan, o: Acquisition, w: World, answer: Observed, v: World)
    requires Reached(plan, o, w) && w.control.Observing? && |w.actors| <= |w.plan.actors| && ObserveStep(w, answer) == v
    ensures Reached(plan, o, v)
  {
    hide Reached, ObserveStep;
    IntervalReached(plan, o, w, Observe(answer), v);
  }

  lemma {:induction false} RecordReached(plan: Plan, o: Acquisition, w: World, i: nat, bytes: nat, v: World)
    requires Reached(plan, o, w) && w.control == Arrived(i) && i < |w.actors| == |w.plan.actors| && RecordStep(w, i, bytes) == v
    ensures Reached(plan, o, v)
  {
    hide Reached, RecordStep;
    IntervalReached(plan, o, w, Record(bytes), v);
  }

  lemma {:induction false} JoinReached(plan: Plan, o: Acquisition, w: World, clean: bool, v: World)
    requires Reached(plan, o, w) && |w.actors| <= |w.plan.actors| && JoinStep(w, clean) == v
    ensures Reached(plan, o, v)
  {
    hide Reached, JoinStep;
    IntervalReached(plan, o, w, Join(clean), v);
  }

  lemma {:induction false} SettleReached(plan: Plan, o: Acquisition, w: World)
    requires Reached(plan, o, w) && w.control.Settling? && |w.actors| <= |w.plan.actors|
    ensures Reached(plan, o, SettleStep(w))
  {
    hide Reached, SettleStep;
    IntervalReached(plan, o, w, Settle, SettleStep(w));
  }

  lemma {:induction false} GrantReached(plan: Plan, o: Acquisition, w: World, requested: Step, bytes: nat, v: World)
    requires Reached(plan, o, w) && w.control.Idle? && !w.closed && w.outcome == Completed && |w.actors| == |w.plan.actors|
    requires GrantStep(w, requested, bytes) == v
    ensures Reached(plan, o, v)
  {
    hide Reached, GrantStep;
    CallReached(plan, o, w, Grant(requested, bytes), v);
  }

  lemma {:induction false} DecideReached(plan: Plan, o: Acquisition, w: World, v: World)
    requires Reached(plan, o, w) && w.control.Cleaning? && |w.actors| <= |w.plan.actors| && DecideStep(w) == v
    ensures Reached(plan, o, v)
  {
    hide Reached, DecideStep;
    CleanupReached(plan, o, w, Decide, v);
  }

  lemma {:induction false} TearDownReached(plan: Plan, o: Acquisition, w: World, ok: bool, v: World)
    requires Reached(plan, o, w) && w.control.TearingDown? && |w.actors| <= |w.plan.actors| && TearDownStep(w, ok) == v
    ensures Reached(plan, o, v)
  {
    hide Reached, TearDownStep;
    CleanupReached(plan, o, w, TearDown(ok), v);
  }

  lemma {:induction false} PollReached(plan: Plan, o: Acquisition, w: World, i: nat, v: World)
    requires Reached(plan, o, w)
    requires w.control.AwaitStart? || (w.control == AwaitArrival(i) && i < |w.actors|)
    requires v == if w.control.AwaitStart? then PollStep(w, AllParked(w), Observing)
                  else PollStep(w, !w.actors[i].phase.Running?, Arrived(i))
    ensures Reached(plan, o, v)
  {
    hide Reached, PollStep;
    OpeningReached(plan, o, w, Poll, v);
  }

  lemma {:induction false} DropReached(plan: Plan, o: Acquisition, w: World, l: Label, v: World)
    requires Reached(plan, o, w) && IsDropLabel(l) && DropStep(w, l) == v
    ensures Reached(plan, o, v)
  {
    forall p: World -> bool | Closed(p) && p(Initial(plan, o)) ensures p(v) { ThenDrop(p, w, l, v); }
  }
}
