// Nothing but the environment keeps the scheduler's own methods from carrying out
// an admissible plan: with workers that follow it at whatever pace, callbacks that
// succeed and enough time, every call does its step and the last one passes.
module Cooperation {
  import opened Schedule
  import opened ScheduleInvariant
  import opened ScheduleSafety
  import opened ScheduleReach
  import opened ScheduleRealizable
  import opened Calls
  import opened Waiting
  import opened Execution

  // Callbacks that succeed and leave nothing to count.
  function Smooth(): Answers { Answers(0, 0, true, Observed("", true), true) }

  // What the worker of step k does from its release to its arrival.
  function Moves(plan: Plan, k: nat): seq<Label>
    requires k < |plan.steps|
  {
    var i := Position(plan.actors, plan.steps[k].actor);
    if plan.steps[k].checkpoint == COMPLETION then [Wake(i), Return(i, false), Exit(i)]
    else [Wake(i), Arrive(i, plan.steps[k].checkpoint)]
  }

  function Begins(n: nat): seq<Label> { if n == 0 then [] else Begins(n - 1) + [Begin(n - 1)] }

  // How the workers' sections fall on the rounds of the waits: one batch for each
  // round of the wait of start_schedule, and of the wait of every step.
  datatype Pace = Pace(begins: seq<seq<Label>>, moves: seq<seq<seq<Label>>>)

  function Flat(batches: seq<seq<Label>>): seq<Label> {
    if batches == [] then [] else Flat(batches[..|batches| - 1]) + batches[|batches| - 1]
  }

  // The labels are spread over rounds in any way, the last of them over the last round.
  predicate Spread(batches: seq<seq<Label>>, labels: seq<Label>) {
    batches != [] && batches[|batches| - 1] != [] && Flat(batches) == labels
  }

  predicate Paced(plan: Plan, pace: Pace) {
    && Spread(pace.begins, Begins(|plan.actors|))
    && |pace.moves| == |plan.steps|
    && forall k :: 0 <= k < |plan.steps| ==> Spread(pace.moves[k], Moves(plan, k))
  }

  // The rounds that the waits of step k and of those after it take.
  function Rounds(pace: Pace, k: nat): nat
    decreases |pace.moves| - k
  {
    if k >= |pace.moves| then 0 else |pace.moves[k]| + Rounds(pace, k + 1)
  }

  // advance leaves the lock free before, in every round of its wait, and three times after it.
  function Script(pace: Pace, k: nat): seq<seq<Label>>
    decreases |pace.moves| - k
  {
    if k >= |pace.moves| then [] else [[]] + (pace.moves[k] + ([[], [], []] + Script(pace, k + 1)))
  }

  function Silence(n: nat): seq<seq<Label>> { seq(n, _ => []) }

  // start_schedule leaves it free after each thread, while it waits, and at its end.
  function WholeScript(plan: Plan, pace: Pace): seq<seq<Label>> {
    Silence(|plan.actors|) + (pace.begins + ([[]] + Script(pace, 0)))
  }

  // ------------------------------------------------------ batches

  lemma {:induction false} SilentWindow(s: State, rest: seq<seq<Label>>)
    requires s.schedule == [[]] + rest
    ensures Windowed(s) == s.(schedule := rest)
  {
    assert s.schedule[1..] == rest;
  }

  lemma {:induction false} BatchPush(w: World, labels: seq<Label>, l: Label)
    ensures Batch(w, labels + [l]) == Move(Batch(w, labels), l)
  {
    assert (labels + [l])[..|labels|] == labels;
  }

  lemma {:induction false} BatchNothing(w: World)
    ensures Batch(w, []) == w
  {
  }

  lemma {:induction false} BatchAppend(w: World, a: seq<Label>, b: seq<Label>)
    ensures Batch(w, a + b) == Batch(Batch(w, a), b)
  {
    hide Move;
    if b == [] {
      assert a + b == a;
    } else {
      var front, l := b[..|b| - 1], b[|b| - 1];
      assert a + b == (a + front) + [l] && b == front + [l];
      BatchAppend(w, a, front);
      BatchPush(w, a + front, l);
      BatchPush(Batch(w, a), front, l);
    }
  }

  // After n rounds the sections of the first n batches have taken place.
  lemma {:induction false} AiredFlat(w: World, batches: seq<seq<Label>>, rest: seq<seq<Label>>, n: nat)
    requires n <= |batches|
    ensures Aired(w, batches + rest, n) == Batch(w, Flat(batches[..n]))
  {
    hide Batch;
    if n == 0 {
      BatchNothing(w);
      assert Flat(batches[..0]) == [];
    } else {
      AiredFlat(w, batches, rest, n - 1);
      assert batches[..n][..n - 1] == batches[..n - 1];
      BatchAppend(w, Flat(batches[..n - 1]), batches[n - 1]);
    }
  }

  // Up to the last batch there is always a section left.
  lemma {:induction false} FlatPrefix(batches: seq<seq<Label>>, n: nat) returns (p: nat)
    requires n <= |batches| && batches != [] && batches[|batches| - 1] != []
    ensures p <= |Flat(batches)| && Flat(batches[..n]) == Flat(batches)[..p]
    ensures p == |Flat(batches)| <==> n == |batches|
    decreases |batches| - n
  {
    if n == |batches| {
      assert batches[..n] == batches;
      p := |Flat(batches)|;
    } else {
      var q := FlatPrefix(batches, n + 1);
      assert batches[..n + 1][..n] == batches[..n];
      p := |Flat(batches[..n])|;
      assert Flat(batches[..n + 1]) == Flat(batches[..n]) + batches[n];
      assert Flat(batches)[..p] == Flat(batches)[..q][..p];
    }
  }

  // A wait whose condition comes about in round m, nothing else ending it, reports that if
  // the round is in time, and fails for the deadline otherwise.
  lemma {:induction false} WaitTakes(s: State, starting: bool, i: nat, m: nat)
    requires s.world.control == if starting then AwaitStart else AwaitArrival(i)
    requires m > 0 && forall j :: 0 <= j <= m ==> Undisturbed(Aired(s.world, s.schedule, j))
    requires forall j :: 0 < j <= m ==> (Holds(Aired(s.world, s.schedule, j), starting, i) <==> j == m)
    ensures m <= s.ticks ==>
              Waited(s, starting, i) == State(Aired(s.world, s.schedule, m).(control := if starting then Observing else Arrived(i)),
                                              Later(s.schedule, m), s.ticks - m)
    ensures m > s.ticks ==> var w := Waited(s, starting, i).world; w.outcome == TimedOut && w.control == Settling
  {
    hide Aired, Holds, Later, Waited;
    var n := if m <= s.ticks then m - 1 else s.ticks;
    forall j | 0 <= j < n ensures !Halted(Found(s, j)) && !Holds(Found(s, j), starting, i) {
      assert Undisturbed(Aired(s.world, s.schedule, j + 1));
    }
    assert Undisturbed(Aired(s.world, s.schedule, n + 1));
    assert Ends(s, starting, i, n);
    WaitedMeans(s, starting, i, n);
  }

  predicate Undisturbed(w: World) { !w.stopping && !w.cancelled && !w.expired && w.outcome == Completed }

  // ------------------------------------------------------ one interval

  // A worker's move within step k.
  lemma {:induction false} Within(plan: Plan, k: nat, i: nat, a: Actor, l: Label, b: Actor)
    requires k < |plan.steps| && i < |plan.actors| && IsWorkerLabel(l) && l.w == i
    requires var v := Midway(plan, k, i, a, Permitted(plan, k), AwaitArrival(i)); WorkerStep(v, l) == SetActor(v, i, b)
    ensures Move(Midway(plan, k, i, a, Permitted(plan, k), AwaitArrival(i)), l)
         == Midway(plan, k, i, b, Permitted(plan, k), AwaitArrival(i))
  {
    hide WorkerStep;
    var v := Midway(plan, k, i, a, Permitted(plan, k), AwaitArrival(i));
    MoveForm(v, l);
    assert SetActor(v, i, b).actors == Calm(plan, k, AwaitArrival(i)).actors[i := b];
  }

  // Where the worker of step k is when it has done its part.
  function Landed(plan: Plan, k: nat): Actor
    requires k < |plan.steps|
  {
    if plan.steps[k].checkpoint == COMPLETION then Actor(Finished, COMPLETION, Exited, false)
    else Actor(Parked, plan.steps[k].checkpoint, Held, false)
  }

  // Where it is after the first p of its sections.
  function Stage(plan: Plan, k: nat, i: nat, p: nat): Actor
    requires k < |plan.steps| && i < |plan.actors|
  {
    var a := Resting(plan, k, i).(phase := Running);
    if p == 0 then a
    else if p >= |Moves(plan, k)| then Landed(plan, k)
    else if p == 1 then a.(place := App)
    else a.(place := Leaving(false))
  }

  lemma {:induction false} StageMoves(plan: Plan, k: nat, i: nat, p: nat)
    requires Admissible(plan) && k < |plan.steps| && i == Position(plan.actors, plan.steps[k].actor) && i < |plan.actors|
    requires p < |Moves(plan, k)|
    ensures Move(Midway(plan, k, i, Stage(plan, k, i, p), Permitted(plan, k), AwaitArrival(i)), Moves(plan, k)[p])
         == Midway(plan, k, i, Stage(plan, k, i, p + 1), Permitted(plan, k), AwaitArrival(i))
  {
    hide StepsAdmissible, DistinctDeclarations, Identifier, Calm, Midway, Before, PlannedLog, Permitted, Move, WorkerStep;
    NotYetComplete(plan, k);
    var a := Resting(plan, k, i).(phase := Running);
    if p == 0 {
      WakeWithin(plan, k, i, a);
    } else if plan.steps[k].checkpoint == COMPLETION {
      LeaveWithin(plan, k, i, a.(place := App));
    } else {
      CheckpointsAreIdentifiers(plan, k);
      ParkAt(plan, k, i, a.(place := App), plan.steps[k].checkpoint);
      Within(plan, k, i, a.(place := App), Arrive(i, plan.steps[k].checkpoint), Landed(plan, k));
    }
  }

  lemma {:induction false} WakeWithin(plan: Plan, k: nat, i: nat, a: Actor)
    requires k < |plan.steps| && i < |plan.actors| && a.phase.Running? && (a.place.Gate? || a.place.Held?)
    ensures Move(Midway(plan, k, i, a, Permitted(plan, k), AwaitArrival(i)), Wake(i))
         == Midway(plan, k, i, a.(place := App), Permitted(plan, k), AwaitArrival(i))
  {
    hide Move, Permitted;
    Within(plan, k, i, a, Wake(i), a.(place := App));
  }

  lemma {:induction false} LeaveWithin(plan: Plan, k: nat, i: nat, a: Actor)
    requires k < |plan.steps| && i < |plan.actors| && a.place.App? && !a.joined
    ensures var b := a.(place := Leaving(false));
            && Move(Midway(plan, k, i, a, Permitted(plan, k), AwaitArrival(i)), Return(i, false))
               == Midway(plan, k, i, b, Permitted(plan, k), AwaitArrival(i))
            && Move(Midway(plan, k, i, b, Permitted(plan, k), AwaitArrival(i)), Exit(i))
               == Midway(plan, k, i, Actor(Finished, COMPLETION, Exited, false), Permitted(plan, k), AwaitArrival(i))
  {
    hide Move, Permitted;
    var b := a.(place := Leaving(false));
    Within(plan, k, i, a, Return(i, false), b);
    Within(plan, k, i, b, Exit(i), Actor(Finished, COMPLETION, Exited, false));
  }

  lemma {:induction false} StageAfter(plan: Plan, k: nat, i: nat, p: nat)
    requires Admissible(plan) && k < |plan.steps| && i == Position(plan.actors, plan.steps[k].actor) && i < |plan.actors|
    requires p <= |Moves(plan, k)|
    ensures Batch(Midway(plan, k, i, Stage(plan, k, i, 0), Permitted(plan, k), AwaitArrival(i)), Moves(plan, k)[..p])
         == Midway(plan, k, i, Stage(plan, k, i, p), Permitted(plan, k), AwaitArrival(i))
  {
    hide Admissible, Midway, Move, Moves, Stage, Permitted;
    var v := Midway(plan, k, i, Stage(plan, k, i, 0), Permitted(plan, k), AwaitArrival(i));
    if p == 0 {
      BatchNothing(v);
    } else {
      StageAfter(plan, k, i, p - 1);
      StageMoves(plan, k, i, p - 1);
      BatchPush(v, Moves(plan, k)[..p - 1], Moves(plan, k)[p - 1]);
      assert Moves(plan, k)[..p - 1] + [Moves(plan, k)[p - 1]] == Moves(plan, k)[..p];
    }
  }

  // Until it has done its part the worker is running, and nothing else disturbs the wait.
  lemma {:induction false} StageWaits(plan: Plan, k: nat, i: nat, p: nat)
    requires k < |plan.steps| && i < |plan.actors| && p <= |Moves(plan, k)|
    ensures var w := Midway(plan, k, i, Stage(plan, k, i, p), Permitted(plan, k), AwaitArrival(i));
            Undisturbed(w) && (Holds(w, false, i) <==> p == |Moves(plan, k)|)
  {
    hide Permitted, Before, PlannedLog;
  }

  // The wait of step k ends, if time allows, with the worker where the plan wants it.
  lemma {:induction false} WaitLands(plan: Plan, k: nat, i: nat, s: State, batches: seq<seq<Label>>, rest: seq<seq<Label>>)
    requires Admissible(plan) && k < |plan.steps| && i == Position(plan.actors, plan.steps[k].actor) && i < |plan.actors|
    requires s.world == Midway(plan, k, i, Resting(plan, k, i).(phase := Running), Permitted(plan, k), AwaitArrival(i))
    requires Spread(batches, Moves(plan, k)) && s.schedule == batches + rest
    ensures |batches| <= s.ticks ==>
              Waited(s, false, i)
              == State(Midway(plan, k, i, Landed(plan, k), Permitted(plan, k), Arrived(i)), rest, s.ticks - |batches|)
    ensures |batches| > s.ticks ==> var w := Waited(s, false, i).world; w.outcome == TimedOut && w.control == Settling
  {
    hide Admissible, Batch, Permitted, Moves, Resting, Landed, Midway, Holds, Undisturbed, Waited, Aired, Flat, Before;
    var m := |batches|;
    StageEnds(plan, k, i);
    MidwayForm(plan, k, i, Stage(plan, k, i, 0), Permitted(plan, k), AwaitArrival(i));
    forall j | 0 <= j <= m
      ensures Undisturbed(Aired(s.world, s.schedule, j))
      ensures Holds(Aired(s.world, s.schedule, j), false, i) <==> j == m
      ensures j == m ==> Aired(s.world, s.schedule, j) == Midway(plan, k, i, Landed(plan, k), Permitted(plan, k), AwaitArrival(i))
    {
      AiredFlat(s.world, batches, rest, j);
      var p := FlatPrefix(batches, j);
      StageAfter(plan, k, i, p);
      StageWaits(plan, k, i, p);
    }
    WaitTakes(s, false, i, m);
    assert Later(batches + rest, m) == rest;
    MidwayControl(plan, k, i, Landed(plan, k), AwaitArrival(i), Arrived(i));
  }

  lemma {:induction false} StageEnds(plan: Plan, k: nat, i: nat)
    requires k < |plan.steps| && i < |plan.actors|
    ensures Stage(plan, k, i, 0) == Resting(plan, k, i).(phase := Running)
    ensures Stage(plan, k, i, |Moves(plan, k)|) == Landed(plan, k)
  {
  }

  lemma {:induction false} MidwayControl(plan: Plan, k: nat, i: nat, a: Actor, c: Control, d: Control)
    requires k < |plan.steps| && i < |plan.actors|
    ensures Midway(plan, k, i, a, Permitted(plan, k), c).(control := d) == Midway(plan, k, i, a, Permitted(plan, k), d)
  {
    hide Permitted, Before, PlannedLog, Keeps;
  }

  lemma {:induction false} GrantPlanned(plan: Plan, k: nat, i: nat)
    requires Admissible(plan) && k < |plan.steps| && i == Position(plan.actors, plan.steps[k].actor) && i < |plan.actors|
    ensures GrantStep(Calm(plan, k, Idle), plan.steps[k], 0)
         == Midway(plan, k, i, Resting(plan, k, i).(phase := Running), Permitted(plan, k), AwaitArrival(i))
  {
    hide StepsAdmissible, DistinctDeclarations, Identifier, PlannedLog, RetainEvent;
    NotYetComplete(plan, k);
    RetainPermit(plan, k, i);
  }

  lemma {:induction false} RetainPermit(plan: Plan, k: nat, i: nat)
    requires Admissible(plan) && k < |plan.steps| && i == Position(plan.actors, plan.steps[k].actor) && i < |plan.actors|
    ensures RetainEvent(Calm(plan, k, Idle), Permit, i, 0) == Calm(plan, k, Idle).(events := Permitted(plan, k))
  {
    hide StepsAdmissible, DistinctDeclarations, Identifier, PlannedLog;
    NotYetComplete(plan, k);
  }

  // The arrival is recorded, and a finished worker joined.
  lemma {:induction false} RecordLands(plan: Plan, k: nat, i: nat)
    requires Admissible(plan) && k < |plan.steps| && i == Position(plan.actors, plan.steps[k].actor) && i < |plan.actors|
    ensures Joined(RecordStep(Midway(plan, k, i, Landed(plan, k), Permitted(plan, k), Arrived(i)), i, 0), true)
         == Midway(plan, k, i, Resting(plan, k + 1, i), PlannedLog(plan, k + 1), Checking)
  {
    hide Admissible, PlannedLog, RecordStep, Permitted, Keeps, Identifier;
    var v := Midway(plan, k, i, Landed(plan, k), Permitted(plan, k), Arrived(i));
    if plan.steps[k].checkpoint != COMPLETION {
      CheckpointsAreIdentifiers(plan, k);
      IdentifiersAreNotReserved(plan.steps[k].checkpoint);
    }
    RecordPlanned(plan, k, i, v);
    var d := Actor(Finished, COMPLETION, Dead, false);
    assert Midway(plan, k, i, d.(place := Exited), PlannedLog(plan, k + 1), Joining(i)).actors[i := d]
        == Calm(plan, k, Checking).actors[i := d];
    assert Midway(plan, k, i, d, PlannedLog(plan, k + 1), Joining(i)).actors[i := d.(joined := true)]
        == Calm(plan, k, Checking).actors[i := d.(joined := true)];
  }

  lemma {:induction false} ConcludeCalm(plan: Plan, k: nat, i: nat, s: State, rest: seq<seq<Label>>)
    requires Admissible(plan) && k < |plan.steps| && i == Position(plan.actors, plan.steps[k].actor) && i < |plan.actors|
    requires s.world == Midway(plan, k, i, Resting(plan, k + 1, i), PlannedLog(plan, k + 1), Checking)
    requires s.schedule == [[]] + rest
    ensures Concluded(s, Observed("", true)) == s.(world := Calm(plan, k + 1, Settling), schedule := rest)
  {
    hide Admissible, PlannedLog, ObserveStep, Windowed, Resting;
    OthersRest(plan, k, i);
    var c := s.(world := CheckStep(s.world));
    assert c.world.actors == Calm(plan, k + 1, Observing).actors;
    assert c.world.observations == seq(k + 1, j requires 0 <= j => Observation(j, ""));
    SilentWindow(c, rest);
    ObservePlanned(plan, k + 1);
  }

  lemma {:induction false} ObservePlanned(plan: Plan, k: nat)
    requires k <= |plan.steps|
    ensures ObserveStep(Calm(plan, k, Observing).(observations := seq(k, j requires 0 <= j => Observation(j, ""))), Observed("", true))
         == Calm(plan, k, Settling)
  {
    hide PlannedLog;
    CalmIsQuiescent(plan, k, Observing);
    assert seq(k, j requires 0 <= j => Observation(j, "")) + [Observation(k, "")] == Calm(plan, k, Settling).observations;
  }

  // One call of advance does one step, if its wait is in time.
  lemma {:induction false} AdvanceCalm(plan: Plan, pace: Pace, k: nat, s: State)
    requires Admissible(plan) && Paced(plan, pace) && k < |plan.steps|
    requires s.world == Calm(plan, k, Idle) && s.schedule == Script(pace, k)
    ensures |pace.moves[k]| <= s.ticks ==>
              AdvancedTo(s, plan.steps[k], Smooth())
              == State(Calm(plan, k + 1, Settling), Script(pace, k + 1), s.ticks - |pace.moves[k]|)
    ensures |pace.moves[k]| > s.ticks ==> AdvancedTo(s, plan.steps[k], Smooth()).world.outcome == TimedOut
  {
    hide Admissible, Calm, Midway, Before, PlannedLog, Permitted, GrantStep, Recorded, Waited, Windowed,
         Landed, Resting, Moves, Spread, Script;
    var i := Position(plan.actors, plan.steps[k].actor);
    StepHasActor(plan, k);
    var moves := pace.moves[k];
    var rest := [[], [], []] + Script(pace, k + 1);
    ScriptForm(pace, k);
    SilentWindow(s, moves + rest);
    GrantPlanned(plan, k, i);
    ActorsOfCalm(plan, k, Idle);
    var g := Windowed(s).(world := GrantStep(s.world, plan.steps[k], 0));
    MidwayForm(plan, k, i, Resting(plan, k, i).(phase := Running), Permitted(plan, k), AwaitArrival(i));
    WaitLands(plan, k, i, g, moves, rest);
    var t := Waited(g, false, i);
    assert Advanced(Windowed(s), plan.steps[k], Smooth()) == Recorded(t, Smooth());
    if |moves| <= s.ticks {
      RecordCalm(plan, k, i, t, Script(pace, k + 1));
    } else {
      NothingArrived(t, Smooth());
      WindowOutcome(t);
    }
  }

  lemma {:induction false} ScriptForm(pace: Pace, k: nat)
    requires k < |pace.moves|
    ensures Script(pace, k) == [[]] + (pace.moves[k] + ([[], [], []] + Script(pace, k + 1)))
  {
  }

  lemma {:induction false} WindowOutcome(s: State)
    requires s.world.outcome != Completed
    ensures Windowed(s).world.outcome == s.world.outcome
  {
    if s.schedule != [] { BatchOutcome(s.world, s.schedule[0]); }
  }

  // From the arrival to the end of the call.
  lemma {:induction false} RecordCalm(plan: Plan, k: nat, i: nat, t: State, rest: seq<seq<Label>>)
    requires Admissible(plan) && k < |plan.steps| && i == Position(plan.actors, plan.steps[k].actor) && i < |plan.actors|
    requires t.world == Midway(plan, k, i, Landed(plan, k), Permitted(plan, k), Arrived(i))
    requires t.schedule == [[], [], []] + rest
    ensures Windowed(Recorded(t, Smooth())) == State(Calm(plan, k + 1, Settling), rest, t.ticks)
  {
    hide Admissible, Calm, Midway, Before, PlannedLog, Permitted, RecordStep, Joined, Concluded, Windowed, Landed, Resting;
    MidwayForm(plan, k, i, Landed(plan, k), Permitted(plan, k), Arrived(i));
    RecordLands(plan, k, i);
    var j := t.(world := Joined(RecordStep(t.world, i, 0), true));
    assert j.schedule == [[]] + ([[]] + ([[]] + rest));
    SilentWindow(j, [[]] + ([[]] + rest));
    ConcludeCalm(plan, k, i, Windowed(j), [[]] + rest);
    SilentWindow(Concluded(Windowed(j), Observed("", true)), rest);
  }

  lemma {:induction false} StepHasActor(plan: Plan, k: nat)
    requires Admissible(plan) && k < |plan.steps|
    ensures Position(plan.actors, plan.steps[k].actor) < |plan.actors|
  {
    DeclaredHasPosition(plan, plan.steps[k].actor);
  }

  lemma {:induction false} ActorsOfCalm(plan: Plan, k: nat, c: Control)
    requires k <= |plan.steps|
    ensures var w := Calm(plan, k, c); |w.actors| == |w.plan.actors| && w.outcome == Completed && w.control == c && w.next == k
  {
  }

  lemma {:induction false} MidwayForm(plan: Plan, k: nat, i: nat, a: Actor, events: seq<Event>, c: Control)
    requires k <= |plan.steps| && i < |plan.actors|
    ensures var w := Midway(plan, k, i, a, events, c);
            w.control == c && |w.actors| == |w.plan.actors| == |plan.actors|
  {
  }

  // ------------------------------------------------------ opening

  lemma {:induction false} SpawnSilently(plan: Plan, k: nat, spawnable: nat, s: State, rest: seq<seq<Label>>)
    requires k <= |plan.actors| <= spawnable && s.world == Launching(plan, k, 0, Spawning(k))
    requires s.schedule == Silence(|plan.actors| - k) + rest
    ensures SpawnedFrom(s, k, spawnable) == s.(world := Launching(plan, |plan.actors|, 0, AwaitStart), schedule := rest)
    decreases |plan.actors| - k
  {
    var n := |plan.actors|;
    if k == n {
      assert Silence(0) + rest == rest;
    } else {
      var t := s.(world := SetActor(s.world, k, s.world.actors[k].(place := Fresh)).(control := Spawning(k + 1)));
      assert t.world == Launching(plan, k + 1, 0, Spawning(k + 1)) by {
        assert t.world.actors == Launching(plan, k + 1, 0, Spawning(k + 1)).actors;
      }
      assert Silence(n - k) + rest == [[]] + (Silence(n - k - 1) + rest);
      SilentWindow(t, Silence(n - k - 1) + rest);
      SpawnSilently(plan, k + 1, spawnable, Windowed(t), rest);
    }
  }

  lemma {:induction false} BeginsPark(plan: Plan, k: nat)
    requires k <= |plan.actors|
    ensures Batch(Launching(plan, |plan.actors|, 0, AwaitStart), Begins(k)) == Launching(plan, |plan.actors|, k, AwaitStart)
  {
    var n := |plan.actors|;
    if k > 0 {
      BeginsPark(plan, k - 1);
      BatchPush(Launching(plan, n, 0, AwaitStart), Begins(k - 1), Begin(k - 1));
      OneBegins(plan, k);
    }
  }

  lemma {:induction false} OneBegins(plan: Plan, k: nat)
    requires 0 < k <= |plan.actors|
    ensures Move(Launching(plan, |plan.actors|, k - 1, AwaitStart), Begin(k - 1)) == Launching(plan, |plan.actors|, k, AwaitStart)
  {
    var w := Launching(plan, |plan.actors|, k - 1, AwaitStart);
    MoveForm(w, Begin(k - 1));
    assert WorkerStep(w, Begin(k - 1)).actors == Launching(plan, |plan.actors|, k, AwaitStart).actors;
  }

  // With too few threads to be had the opening fails for that.
  lemma {:induction false} SpawnShort(plan: Plan, k: nat, spawnable: nat, s: State, rest: seq<seq<Label>>)
    requires k <= spawnable < |plan.actors| && s.world == Launching(plan, k, 0, Spawning(k))
    requires s.schedule == Silence(|plan.actors| - k) + rest
    ensures var w := SpawnedFrom(s, k, spawnable).world; w.outcome == ResourceFailed && w.control == AwaitStart
    decreases spawnable - k
  {
    if k < spawnable {
      var t := SpawnedOne(s, k);
      var silence := Silence(|plan.actors| - k - 1) + rest;
      assert t.world == Launching(plan, k + 1, 0, Spawning(k + 1)) by {
        assert t.world.actors == Launching(plan, k + 1, 0, Spawning(k + 1)).actors;
      }
      assert s.schedule == [[]] + silence;
      SilentWindow(t, silence);
      SpawnShort(plan, k + 1, spawnable, Windowed(t), rest);
    }
  }

  // A wait does not lose a failure.
  lemma {:induction false} WaitedOutcome(s: State)
    requires s.world.control == AwaitStart && s.world.outcome != Completed
    ensures Waited(s, true, 0).world.outcome == s.world.outcome
  {
    hide Aired, Holds, Later, Waited;
    var n := SomeRoundEnds(s, true, 0);
    AiredKept(s.world, s.schedule, n + 1);
    WaitedMeans(s, true, 0, n);
  }

  // start_schedule ends calmly if there are threads and time enough.
  lemma {:induction false} OpenCalm(plan: Plan, pace: Pace, spawnable: nat, ticks: nat)
    requires Admissible(plan) && Paced(plan, pace)
    ensures var s := OpenedTo(plan, spawnable, WholeScript(plan, pace), ticks, Observed("", true));
            && (spawnable < |plan.actors| ==> s.world.outcome == ResourceFailed)
            && (spawnable >= |plan.actors| && |pace.begins| > ticks ==> s.world.outcome == TimedOut)
            && (spawnable >= |plan.actors| && |pace.begins| <= ticks ==>
                  s == State(Calm(plan, 0, Settling), Script(pace, 0), ticks - |pace.begins|))
  {
    hide Admissible, Script, Batch, Silence, SpawnedFrom, Spread, Waited, Calm, Launching, ObserveStep, Windowed;
    var rest := [[]] + Script(pace, 0);
    var s := State(Initial(plan, Opened), WholeScript(plan, pace), ticks);
    InitialLaunch(plan);
    if spawnable < |plan.actors| {
      SpawnShort(plan, 0, spawnable, s, pace.begins + rest);
      var t := SpawnedFrom(s, 0, spawnable);
      WaitedOutcome(t);
      ObserveForm(Waited(t, true, 0).world, Observed("", true));
      WindowOutcome(Started(s, spawnable, Observed("", true)));
    } else {
      SpawnSilently(plan, 0, spawnable, s, pace.begins + rest);
      var t := SpawnedFrom(s, 0, spawnable);
      WaitBegins(plan, t, pace.begins, rest);
      ObservePlanned(plan, 0);
      if |pace.begins| <= ticks {
        CalmObserving(plan);
        SilentWindow(State(Calm(plan, 0, Settling), rest, ticks - |pace.begins|), Script(pace, 0));
      } else {
        WindowOutcome(Waited(t, true, 0));
      }
    }
  }

  lemma {:induction false} InitialLaunch(plan: Plan)
    ensures Initial(plan, Opened) == Launching(plan, 0, 0, Spawning(0))
  {
  }

  lemma {:induction false} CalmObserving(plan: Plan)
    ensures Calm(plan, 0, Observing).(observations := seq(0, j requires 0 <= j => Observation(j, ""))).control == Observing
  {
  }

  // Until all have begun somebody is still starting.
  lemma {:induction false} LaunchWaits(plan: Plan, k: nat)
    requires k <= |plan.actors|
    ensures var w := Launching(plan, |plan.actors|, k, AwaitStart);
            Undisturbed(w) && (Holds(w, true, 0) <==> k == |plan.actors|)
  {
    var w := Launching(plan, |plan.actors|, k, AwaitStart);
    if k < |plan.actors| { assert !w.actors[k].phase.Parked?; }
  }

  lemma {:induction false} WaitBegins(plan: Plan, s: State, batches: seq<seq<Label>>, rest: seq<seq<Label>>)
    requires s.world == Launching(plan, |plan.actors|, 0, AwaitStart)
    requires Spread(batches, Begins(|plan.actors|)) && s.schedule == batches + rest
    ensures |batches| <= s.ticks ==>
              Waited(s, true, 0)
              == State(Calm(plan, 0, Observing).(observations := seq(0, j requires 0 <= j => Observation(j, ""))), rest,
                       s.ticks - |batches|)
    ensures |batches| > s.ticks ==> var w := Waited(s, true, 0).world; w.outcome == TimedOut && w.control == Settling
  {
    hide Batch, Begins, Launching, Holds, Undisturbed, Waited, Aired, Flat, Calm;
    var n, m := |plan.actors|, |batches|;
    BeginsCount(n);
    LaunchingAwaits(plan);
    forall j | 0 <= j <= m
      ensures Undisturbed(Aired(s.world, s.schedule, j))
      ensures Holds(Aired(s.world, s.schedule, j), true, 0) <==> j == m
      ensures j == m ==> Aired(s.world, s.schedule, j) == Launching(plan, n, n, AwaitStart)
    {
      AiredFlat(s.world, batches, rest, j);
      var p := FlatPrefix(batches, j);
      BeginsPrefix(n, p);
      BeginsPark(plan, p);
      LaunchWaits(plan, p);
    }
    WaitTakes(s, true, 0, m);
    assert Later(batches + rest, m) == rest;
  }

  lemma {:induction false} BeginsCount(n: nat)
    ensures |Begins(n)| == n
  {
    if n > 0 { BeginsCount(n - 1); }
  }

  lemma {:induction false} BeginsPrefix(n: nat, p: nat)
    requires p <= n
    ensures |Begins(n)| == n && Begins(n)[..p] == Begins(p)
  {
    if n > p {
      BeginsPrefix(n - 1, p);
    } else {
      BeginsCount(n);
    }
  }

  lemma {:induction false} LaunchingAwaits(plan: Plan)
    ensures Launching(plan, |plan.actors|, 0, AwaitStart).control == AwaitStart
    ensures Launching(plan, |plan.actors|, |plan.actors|, AwaitStart).(control := Observing)
         == Calm(plan, 0, Observing).(observations := seq(0, j requires 0 <= j => Observation(j, "")))
  {
    var w := Launching(plan, |plan.actors|, |plan.actors|, AwaitStart);
    assert w.actors == Calm(plan, 0, Observing).actors;
  }

  // ------------------------------------------------------ the object

  // Call after call, the drive completes iff its waits are in time.
  lemma {:induction false} DriveCalm(plan: Plan, pace: Pace, k: nat, s: State, answers: seq<Answers>)
    requires Admissible(plan) && Paced(plan, pace) && k <= |plan.steps|
    requires s.world == Calm(plan, k, Idle) && s.schedule == Script(pace, k)
    requires |answers| == |plan.steps| && forall j :: 0 <= j < |answers| ==> answers[j] == Smooth()
    ensures Driven(s, plan.steps, answers, k).world.outcome == if Rounds(pace, k) <= s.ticks then Completed else TimedOut
    decreases |plan.steps| - k
  {
    hide Admissible, Calm, Script, AdvancedTo, Paced, Driven, Smooth;
    CalmForm(plan, k);
    if k == |plan.steps| {
      DrivenEnd(s, plan.steps, answers, k);
      NoRounds(plan, pace, k);
    } else {
      AdvanceCalm(plan, pace, k, s);
      DrivenMore(s, plan.steps, answers, k);
      var t := AdvancedTo(s, plan.steps[k], answers[k]);
      MoreRounds(plan, pace, k);
      if |pace.moves[k]| <= s.ticks {
        CalmForm(plan, k + 1);
        DriveCalm(plan, pace, k + 1, t.(world := t.world.(control := Idle)), answers);
      } else {
        DrivenEnd(t.(world := t.world.(control := Idle)), plan.steps, answers, k + 1);
      }
    }
  }

  lemma {:induction false} NoRounds(plan: Plan, pace: Pace, k: nat)
    requires Paced(plan, pace) && k == |plan.steps|
    ensures Rounds(pace, k) == 0
  {
  }

  lemma {:induction false} MoreRounds(plan: Plan, pace: Pace, k: nat)
    requires Paced(plan, pace) && k < |plan.steps|
    ensures k < |pace.moves| && Rounds(pace, k) == |pace.moves[k]| + Rounds(pace, k + 1)
  {
  }

  // The object's own methods carry out every admissible plan, with workers that follow it at
  // any pace: the execution passes iff there are threads for all and rounds enough for all the
  // waits together, and fails for what there is too little of otherwise.
  method CarryOut(plan: Plan, pace: Pace, spawnable: nat, ticks: nat, rounds: nat) returns (e: Execution)
    requires Admissible(plan) && Paced(plan, pace)
    ensures fresh(e) && e.Ready() && e.plan == plan
    ensures Passed(e.View()) <==> spawnable >= |plan.actors| && |pace.begins| + Rounds(pace, 0) <= ticks
    ensures Passed(e.View()) ==> e.events == PlannedLog(plan, |plan.steps|)
    ensures spawnable < |plan.actors| ==> e.outcome == ResourceFailed
    ensures spawnable >= |plan.actors| && |pace.begins| + Rounds(pace, 0) > ticks ==> e.outcome == TimedOut
  {
    hide Admissible, Calm, Script, Driven, OpenedTo, PlannedLog, Paced, Smooth, Ended, CleanedUp, WholeScript, Rounds;
    OpenCalm(plan, pace, spawnable, ticks);
    assert Openable(plan, Opened) by { OpenedWhenAdmissible(plan); }
    SmoothForm();
    e := new Execution(plan, Opened, spawnable, WholeScript(plan, pace), ticks, Smooth(), rounds);
    var answers := seq(|plan.steps|, _ => Smooth());
    CalmForm(plan, 0);
    if e.outcome == Completed {
      DriveCalm(plan, pace, 0, e.Whole(), answers);
    } else {
      DrivenEnd(e.Whole(), plan.steps, answers, 0);
    }
    e.Drive(answers, rounds);
  }

  lemma {:induction false} OpenedWhenAdmissible(plan: Plan)
    requires Admissible(plan)
    ensures Openable(plan, Opened)
  {
  }

  lemma {:induction false} SmoothForm()
    ensures Smooth().tornDown && Smooth().observed == Observed("", true)
  {
  }

  lemma {:induction false} CalmForm(plan: Plan, k: nat)
    requires k <= |plan.steps|
    ensures Calm(plan, k, Settling).outcome == Completed && Calm(plan, k, Idle).outcome == Completed
    ensures Calm(plan, k, Settling).(control := Idle) == Calm(plan, k, Idle)
    ensures Calm(plan, k, Idle).next == k && !Calm(plan, k, Idle).closed
  {
  }
}
