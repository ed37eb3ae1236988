// How a wait ends, and what a bounded cleanup finds: both follow from the world
// that the other threads have produced by the time the lock is taken again.
module Waiting {
  import opened Schedule
  import opened ScheduleInvariant
  import opened Calls

  // The world after the lock has been free n times, the controller keeping still.
  function Aired(w: World, schedule: seq<seq<Label>>, n: nat): World {
    if n == 0 then w
    else
      var v := Aired(w, schedule, n - 1);
      if n <= |schedule| then Batch(v, schedule[n - 1]) else v
  }

  function Later(schedule: seq<seq<Label>>, n: nat): seq<seq<Label>> {
    if n <= |schedule| then schedule[n..] else []
  }

  lemma {:induction false} MoveKept(w: World, l: Label)
    ensures ControllerKept(w, Move(w, l))
  {
    hide ControllerKept, WorkerStep, FlagStep, Move;
    MoveForm(w, l);
    if IsFlagLabel(l) { FlagKept(w, l); }
    else if IsWorkerLabel(l) && l.w < |w.actors| == |w.plan.actors| { WorkerKeeps(w, l); }
  }

  lemma {:induction false} SelfKept(w: World)
    ensures ControllerKept(w, w)
  {
  }

  lemma {:induction false} FlagKept(w: World, l: Label)
    requires IsFlagLabel(l)
    ensures ControllerKept(w, FlagStep(w, l))
  {
  }

  lemma {:induction false} BatchKept(w: World, labels: seq<Label>)
    ensures ControllerKept(w, Batch(w, labels))
  {
    hide ControllerKept, Move;
    if labels == [] {
      SelfKept(w);
    } else {
      var front, l := labels[..|labels| - 1], labels[|labels| - 1];
      BatchKept(w, front);
      MoveKept(Batch(w, front), l);
      KeptAlong(w, Batch(w, front), Move(Batch(w, front), l));
    }
  }

  lemma {:induction false} AiredKept(w: World, schedule: seq<seq<Label>>, n: nat)
    ensures ControllerKept(w, Aired(w, schedule, n))
  {
    hide ControllerKept, Batch;
    if n == 0 {
      SelfKept(w);
    } else {
      AiredKept(w, schedule, n - 1);
      var v := Aired(w, schedule, n - 1);
      if n <= |schedule| {
        BatchKept(v, schedule[n - 1]);
        KeptAlong(w, v, Batch(v, schedule[n - 1]));
      }
    }
  }

  // The first window, and then the others.
  lemma {:induction false} AiredShift(s: State, n: nat)
    ensures Aired(s.world, s.schedule, n + 1) == Aired(Windowed(s).world, Windowed(s).schedule, n)
    ensures Later(s.schedule, n + 1) == Later(Windowed(s).schedule, n)
  {
    hide Batch;
    if n > 0 { AiredShift(s, n - 1); }
    else { assert Aired(s.world, s.schedule, 0) == s.world; }
  }

  lemma {:induction false} AiredOnce(s: State)
    ensures Windowed(s) == State(Aired(s.world, s.schedule, 1), Later(s.schedule, 1), s.ticks)
  {
    hide Batch;
    assert Aired(s.world, s.schedule, 0) == s.world;
  }

  // One window more.
  lemma {:induction false} AiredNext(w: World, schedule: seq<seq<Label>>, n: nat, ticks: nat)
    ensures Windowed(State(Aired(w, schedule, n), Later(schedule, n), ticks))
         == State(Aired(w, schedule, n + 1), Later(schedule, n + 1), ticks)
  {
    hide Batch;
  }

  // ------------------------------------------------------ wait_for

  // What the poll of round n finds; in the last round time is up.
  function Found(s: State, n: nat): World {
    var w := Aired(s.world, s.schedule, n + 1);
    if n >= s.ticks then w.(expired := true) else w
  }

  predicate Halted(w: World) { w.stopping || w.cancelled || w.expired }

  // Round n is the first that finds a stop, a cancellation, the deadline gone by, or the condition.
  predicate Ends(s: State, starting: bool, i: nat, n: nat) {
    && n <= s.ticks
    && (Halted(Found(s, n)) || Holds(Found(s, n), starting, i))
    && forall j :: 0 <= j < n ==> !Halted(Found(s, j)) && !Holds(Found(s, j), starting, i)
  }

  // A failure on top of what has been found.
  predicate FailedWith(w: World, reason: Outcome, v: World) {
    v == w.(stopping := true, outcome := if w.outcome == Completed then reason else w.outcome, control := Settling)
  }

  // How a wait leaves the execution that ends in round n: what is found decides, a stop before a
  // cancellation, that before the deadline, and the deadline before the condition.
  predicate EndsAs(s: State, starting: bool, i: nat, n: nat, t: State) {
    var w := Found(s, n);
    && t.schedule == Later(s.schedule, n + 1)
    && t.ticks == (if n < s.ticks then s.ticks - n - 1 else 0)
    && (w.stopping ==> t.world == w.(control := Settling))
    && (!w.stopping && w.cancelled ==> FailedWith(w, Cancelled, t.world))
    && (!w.stopping && !w.cancelled && w.expired ==> FailedWith(w, TimedOut, t.world))
    && (!Halted(w) ==> t.world == w.(control := if starting then Observing else Arrived(i)))
  }

  // Every wait ends, when time is up at the latest.
  lemma {:induction false} SomeRoundEnds(s: State, starting: bool, i: nat) returns (n: nat)
    ensures Ends(s, starting, i, n)
  {
    hide Holds, Aired;
    n := 0;
    while n < s.ticks && !Halted(Found(s, n)) && !Holds(Found(s, n), starting, i)
      invariant n <= s.ticks
      invariant forall j :: 0 <= j < n ==> !Halted(Found(s, j)) && !Holds(Found(s, j), starting, i)
    {
      n := n + 1;
    }
  }

  lemma {:induction false} FirstPoll(s: State, starting: bool, i: nat)
    requires s.world.control == if starting then AwaitStart else AwaitArrival(i)
    ensures Rounded(s, starting, i)
         == State(Polled(Found(s, 0), starting, i), Later(s.schedule, 1), if s.ticks == 0 then 0 else s.ticks - 1)
    ensures Found(s, 0).control == s.world.control
  {
    hide Aired, Windowed, Polled, Keeps, Batch;
    AiredOnce(s);
    AiredKept(s.world, s.schedule, 1);
  }

  lemma {:induction false} PollDecides(w: World, starting: bool, i: nat)
    requires w.control == if starting then AwaitStart else AwaitArrival(i)
    ensures var v := Polled(w, starting, i);
            && (v.control != w.control <==> Halted(w) || Holds(w, starting, i))
            && (v.control == w.control ==> v == w)
            && (w.stopping ==> v == w.(control := Settling))
            && (!w.stopping && w.cancelled ==> FailedWith(w, Cancelled, v))
            && (!w.stopping && !w.cancelled && w.expired ==> FailedWith(w, TimedOut, v))
            && (!Halted(w) && Holds(w, starting, i) ==> v == w.(control := if starting then Observing else Arrived(i)))
  {
    hide Holds, Keeps;
  }

  lemma {:induction false} FoundLater(s: State, starting: bool, i: nat, j: nat)
    requires s.ticks > 0
    ensures var t := State(Found(s, 0), Later(s.schedule, 1), s.ticks - 1);
            Found(s, j + 1) == Found(t, j) && Later(s.schedule, j + 2) == Later(t.schedule, j + 1)
  {
    hide Batch;
    AiredOnce(s);
    AiredShift(s, j + 1);
  }

  // wait_for leaves the execution as the first round that ends it says.
  lemma {:induction false} WaitedMeans(s: State, starting: bool, i: nat, n: nat)
    requires s.world.control == if starting then AwaitStart else AwaitArrival(i)
    requires Ends(s, starting, i, n)
    ensures EndsAs(s, starting, i, n, Waited(s, starting, i))
    decreases n
  {
    hide Found, Holds, Polled, Rounded, Aired, Later;
    FirstPoll(s, starting, i);
    PollDecides(Found(s, 0), starting, i);
    if n > 0 {
      assert !Halted(Found(s, 0)) && !Holds(Found(s, 0), starting, i);
      var t := Rounded(s, starting, i);
      forall j | 0 <= j < n ensures Found(s, j + 1) == Found(t, j) { FoundLater(s, starting, i, j); }
      FoundLater(s, starting, i, n - 1);
      assert Ends(t, starting, i, n - 1) by {
        forall j | 0 <= j < n - 1 ensures !Halted(Found(t, j)) && !Holds(Found(t, j), starting, i) {
          assert !Halted(Found(s, j + 1)) && !Holds(Found(s, j + 1), starting, i);
        }
      }
      WaitedMeans(t, starting, i, n - 1);
    }
  }

  // The condition is found in time, in a round up to which there was neither a stop nor a cancellation.
  predicate InTime(s: State, starting: bool, i: nat, n: nat) {
    n < s.ticks && Holds(Found(s, n), starting, i) && forall j :: 0 <= j <= n ==> !Halted(Found(s, j))
  }

  // What a wait does to the execution, and when it reports the condition.
  ghost predicate WaitDone(s: State, starting: bool, i: nat, t: State, seen: bool) {
    && (exists n :: Ends(s, starting, i, n) && EndsAs(s, starting, i, n, t))
    && (seen <==> exists n :: InTime(s, starting, i, n))
  }

  lemma {:induction false} WaitIsDone(s: State, starting: bool, i: nat)
    requires s.world.control == if starting then AwaitStart else AwaitArrival(i)
    ensures WaitDone(s, starting, i, Waited(s, starting, i), Waited(s, starting, i).world.control != Settling)
  {
    hide Holds, Aired, Later, Waited;
    var m := SomeRoundEnds(s, starting, i);
    WaitedMeans(s, starting, i, m);
    if Waited(s, starting, i).world.control != Settling { assert InTime(s, starting, i, m); }
    if n :| InTime(s, starting, i, n) { assert m <= n; }
  }

  // ------------------------------------------------------ cleanup

  // Every thread there ever was is over.
  predicate Gone(w: World) {
    forall i :: 0 <= i < |w.actors| && Spawned(w.actors[i]) ==> w.actors[i].place.Dead?
  }

  // The first section of cleanup.
  function Stopped(w: World): World {
    w.(stopping := true, control := Cleaning,
       outcome := if w.outcome == Completed && !w.scheduleCompleted then Cancelled else w.outcome)
  }

  lemma {:induction false} StoppedStep(w: World)
    requires w.control.Stopping? && |w.actors| <= |w.plan.actors|
    ensures CleanupStep(w, Stop) == Stopped(w)
  {
    hide Keeps, DecideStep, TearDownStep, SetActor;
  }

  // No section of its own or another thread touches an actor whose thread is over or never was.
  lemma {:induction false} InertStays(w: World, l: Label, i: nat)
    requires i < |w.actors| && (w.actors[i].place.Dead? || w.actors[i].place.Unspawned?)
    ensures i < |Move(w, l).actors| && Move(w, l).actors[i] == w.actors[i]
  {
    hide Keeps, WorkerStep, FlagStep, Move;
    MoveForm(w, l);
    if IsFlagLabel(l) { FlagKeepsActors(w, l); }
    if IsWorkerLabel(l) && l.w < |w.actors| == |w.plan.actors| {
      if l.w == i { InertHimself(w, l); } else { InertForOthers(w, l, i); }
    }
  }

  lemma {:induction false} InertHimself(w: World, l: Label)
    requires IsWorkerLabel(l) && l.w < |w.actors| == |w.plan.actors|
    requires w.actors[l.w].place.Dead? || w.actors[l.w].place.Unspawned?
    ensures WorkerStep(w, l) == w
  {
    hide Keeps, Identifier;
  }

  lemma {:induction false} InertForOthers(w: World, l: Label, i: nat)
    requires IsWorkerLabel(l) && l.w < |w.actors| == |w.plan.actors| && i < |w.actors| && i != l.w
    ensures i < |WorkerStep(w, l).actors| && WorkerStep(w, l).actors[i] == w.actors[i]
  {
    hide Keeps, WorkerStep, Schedule.Fail, SetActor;
    var told, a := WorkerForm(w, l);
    FailActors(w);
    SetActorOthers(told, l.w, a, i);
  }

  lemma {:induction false} FlagKeepsActors(w: World, l: Label)
    requires IsFlagLabel(l)
    ensures FlagStep(w, l).actors == w.actors
  {
  }

  lemma {:induction false} FailActors(w: World)
    ensures forall reason :: Schedule.Fail(w, reason).actors == w.actors
  {
  }

  lemma {:induction false} SetActorOthers(w: World, k: nat, a: Actor, i: nat)
    requires k < |w.actors| && i < |w.actors| && i != k
    ensures |SetActor(w, k, a).actors| == |w.actors| && SetActor(w, k, a).actors[i] == w.actors[i]
  {
    hide Keeps;
  }

  lemma {:induction false} GoneStaysMove(w: World, l: Label)
    requires Gone(w)
    ensures Gone(Move(w, l))
  {
    hide Move;
    MoveKept(w, l);
    forall i | 0 <= i < |w.actors| ensures Move(w, l).actors[i] == w.actors[i] { InertStays(w, l, i); }
  }

  lemma {:induction false} GoneStaysBatch(w: World, labels: seq<Label>)
    requires Gone(w)
    ensures Gone(Batch(w, labels))
  {
    hide Gone, Move;
    if labels != [] {
      GoneStaysBatch(w, labels[..|labels| - 1]);
      GoneStaysMove(Batch(w, labels[..|labels| - 1]), labels[|labels| - 1]);
    }
  }

  lemma {:induction false} GoneStays(w: World, schedule: seq<seq<Label>>, m: nat, n: nat)
    requires m <= n && Gone(Aired(w, schedule, m))
    ensures Gone(Aired(w, schedule, n))
    decreases n - m
  {
    hide Gone, Batch;
    if m < n {
      if m < |schedule| { GoneStaysBatch(Aired(w, schedule, m), schedule[m]); }
      GoneStays(w, schedule, m + 1, n);
    }
  }

  // A thread that was started and is not over.
  predicate Alive(w: World, i: nat) {
    i < |w.actors| && Spawned(w.actors[i]) && !w.actors[i].place.Dead?
  }

  // The names belong, in the order of their declaration, to the actors at the given places,
  // and these are all those from the given place on whose thread is alive.
  predicate Lists(w: World, from: nat, at: seq<nat>, names: seq<string>) {
    && |at| == |names|
    && (forall k :: 0 <= k < |at| ==> from <= at[k] < |w.plan.actors| && names[k] == w.plan.actors[at[k]].actor)
    && (forall j, k :: 0 <= j < k < |at| ==> at[j] < at[k])
    && (forall k :: 0 <= k < |at| ==> Alive(w, at[k]))
    && (forall i :: from <= i < |w.actors| && Alive(w, i) ==> i in at)
  }

  ghost predicate Leftover(w: World, names: seq<string>) {
    exists at :: Lists(w, 0, at, names)
  }

  // finish finds steps missing.
  function Unfinished(w: World): World {
    if w.next != |w.plan.steps| then
      w.(stopping := true, outcome := if w.outcome == Completed then InvalidSchedule else w.outcome)
    else w
  }

  // Where cleanup leaves the threads when it may wait so many rounds.
  function Ended(w: World, schedule: seq<seq<Label>>, rounds: nat): World {
    Aired(Stopped(w), schedule, rounds)
  }

  lemma {:induction false} EndedFrom(w: World, c: Control, schedule: seq<seq<Label>>, rounds: nat)
    ensures Ended(w.(control := c), schedule, rounds) == Ended(w, schedule, rounds)
  {
    hide Aired;
    assert Stopped(w.(control := c)) == Stopped(w);
  }

  // How cleanup leaves the report: closed iff every thread is over by then, and otherwise
  // with the names of those that are not.
  ghost predicate CleanedUp(w: World, closed: bool, remaining: seq<string>) {
    (closed <==> Gone(w)) && (!closed ==> Leftover(w, remaining))
  }

  // What a cleanup that is allowed so many rounds makes of an execution: the failure it has
  // had, or else the given one; closed iff all threads come to their end in time.
  ghost predicate CleanedBy(s: State, otherwise: Outcome, rounds: nat, tornDown: bool, w: World) {
    && w.outcome == (if s.world.outcome != Completed then s.world.outcome else otherwise)
    && CleanedUp(Ended(s.world, s.schedule, rounds), w.closed, w.remaining)
    && w.cleanup == (if !w.closed then Incomplete else if tornDown then Confirmed else TeardownFailed)
  }

  // Joined are the threads that are over, and no other.
  predicate Reaped(w: World) {
    forall i :: 0 <= i < |w.actors| && Spawned(w.actors[i]) ==> (w.actors[i].joined <==> w.actors[i].place.Dead?)
  }

  lemma {:induction false} ListsMore(w: World, from: nat, at: seq<nat>, names: seq<string>)
    requires from < |w.actors| <= |w.plan.actors| && Lists(w, from + 1, at, names)
    ensures Alive(w, from) ==> Lists(w, from, [from] + at, [w.plan.actors[from].actor] + names)
    ensures !Alive(w, from) ==> Lists(w, from, at, names)
  {
    hide Alive;
    if Alive(w, from) {
      var more := [from] + at;
      forall i | from <= i < |w.actors| && Alive(w, i) ensures i in more {
        if i != from { assert i in at; }
      }
    }
  }

  lemma {:induction false} UnjoinedNamed(w: World, from: nat) returns (at: seq<nat>)
    requires from <= |w.actors| <= |w.plan.actors| && Reaped(w)
    ensures Lists(w, from, at, UnjoinedFrom(w, from))
    decreases |w.actors| - from
  {
    hide Lists;
    if from == |w.actors| {
      at := [];
      assert Lists(w, from, [], []) by { ListsNobody(w); }
    } else {
      at := UnjoinedNamed(w, from + 1);
      ListsMore(w, from, at, UnjoinedFrom(w, from + 1));
      if Alive(w, from) { at := [from] + at; }
    }
  }

  lemma {:induction false} ListsNobody(w: World)
    ensures Lists(w, |w.actors|, [], [])
  {
  }

  // With exactly the threads joined that are over, cleanup finds nobody left iff all are
  // over, and reports those that are not.
  lemma {:induction false} UnjoinedMeans(w: World)
    requires |w.actors| <= |w.plan.actors| && Reaped(w)
    ensures Unjoined(w) == [] <==> Gone(w)
    ensures Leftover(w, Unjoined(w))
  {
    hide Lists;
    var at := UnjoinedNamed(w, 0);
    assert Lists(w, 0, at, Unjoined(w));
  }

  // Joining threads that are over, as cleanup does.
  lemma {:induction false} ReapedLater(w: World, v: World)
    requires |v.actors| == |w.actors| && v.plan == w.plan
    requires forall k :: 0 <= k < |w.actors| && w.actors[k].joined ==> w.actors[k].place.Dead?
    requires forall k :: 0 <= k < |w.actors| ==> v.actors[k] == w.actors[k].(joined := w.actors[k].joined || w.actors[k].place.Dead?)
    ensures Reaped(v) && (Gone(v) <==> Gone(w))
    ensures forall names :: Leftover(v, names) <==> Leftover(w, names)
  {
    forall names ensures Leftover(v, names) <==> Leftover(w, names) {
      hide Lists;
      if at :| Lists(v, 0, at, names) { ListsSame(v, w, at, names); }
      if at :| Lists(w, 0, at, names) { ListsSame(w, v, at, names); }
    }
  }

  lemma {:induction false} ListsSame(w: World, v: World, at: seq<nat>, names: seq<string>)
    requires |v.actors| == |w.actors| && v.plan == w.plan && Lists(w, 0, at, names)
    requires forall k :: 0 <= k < |w.actors| ==> v.actors[k].place == w.actors[k].place
    ensures Lists(v, 0, at, names)
  {
    assert forall k :: 0 <= k < |at| ==> Alive(w, at[k]);
    forall i | 0 <= i < |v.actors| && Alive(v, i) ensures i in at { assert Alive(w, i); }
  }
}
