// The checkpoint scheduler of src/schedule.rs as a labelled transition system.
//
// One lock guards the shared state, so every critical section is one atomic
// step.  Labels of the controller follow the sections of `start_schedule`,
// `advance`, `finish`, `cleanup` and `Drop`; labels of the workers follow the
// sections of the worker closure and of `Checkpoint::arrive`.  Application code
// is the free choice of the next worker label.  A label whose guard does not
// hold leaves the world unchanged, so a run is just a sequence of labels.
module Schedule {

  const COMPLETION: string := "$done"
  const START: string := "$start"
  const EVIDENCE_BOUND: nat := 8 * 1_048_576

  datatype Declaration = Declaration(actor: string, operation: string)
  datatype Step = Step(actor: string, checkpoint: string)
  datatype Plan = Plan(actors: seq<Declaration>, checkpoints: seq<string>, steps: seq<Step>)

  datatype Outcome =
    | Completed | InvalidSchedule | IncompatibleIdentity | Cancelled | TimedOut
    | UnexpectedCheckpoint | UncontrolledActor | ApplicationFailed
    | ObservationFailed | ResourceFailed

  datatype Cleanup = NotStarted | Confirmed | Incomplete | TeardownFailed

  datatype Kind = Permit | Arrival
  datatype Event = Event(ordinal: nat, kind: Kind, step: nat,
                         actor: string, operation: string, checkpoint: string)
  datatype Observation = Observation(afterSteps: nat, state: string)

  datatype Phase = Starting | Parked | Running | Finished

  // Where the worker's own thread is: the scheduler cannot see it, and it may
  // differ from the phase once the execution is stopping.
  datatype Place = Unspawned | Fresh | Gate | App | Held | Leaving(failed: bool) | Exited | Dead

  datatype Actor = Actor(phase: Phase, checkpoint: string, place: Place, joined: bool)

  datatype Control =
    | Spawning(k: nat)       // start_schedule is creating thread k
    | AwaitStart             // wait_for: every actor parked
    | Observing              // about to call the observer
    | Settling               // end of start_schedule or of advance
    | Completing             // every step taken, completion not yet written
    | Idle                   // no scheduler call in progress
    | AwaitArrival(i: nat)   // wait_for: actor i no longer running
    | Arrived(i: nat)        // wait_for returned, arrival not yet recorded
    | Joining(i: nat)        // actor i finished its chain, joining its thread
    | Checking               // arrival recorded, outcome not yet inspected
    | Stopping               // first section of cleanup
    | Cleaning               // cleanup is waiting for threads and joining them
    | TearingDown            // all joined, teardown callback next
    | Dropping               // Drop is joining
    | Dropped

  datatype World = World(
    plan: Plan,
    actors: seq<Actor>,
    stopping: bool,
    outcome: Outcome,
    scheduleCompleted: bool,
    cleanup: Cleanup,
    remaining: seq<string>,
    attempts: nat,
    events: seq<Event>,
    observations: seq<Observation>,
    evidence: nat,
    cancelled: bool,
    expired: bool,
    control: Control,
    next: nat,
    closed: bool,
    acquired: bool,
    teardowns: nat)

  // What the observer callback did; `accepted` is the strict JSON re-read of the value.
  datatype Observed = Observed(text: string, accepted: bool) | ObserverError | ObserverPanic

  datatype Label =
    // anybody
    | Cancel
    | Expire
    // worker threads and threads they lend their checkpoint to
    | Begin(w: nat)
    | Wake(w: nat)
    | Arrive(w: nat, checkpoint: string)
    | Foreign(w: nat)
    | Return(w: nat, failed: bool)
    | Exit(w: nat)
    | Die(w: nat)
    // the controller
    | Spawn(spawned: bool)
    | Poll
    | Grant(requested: Step, permitBytes: nat)
    | Record(arrivalBytes: nat)
    | Join(clean: bool)
    | Check
    | Observe(observed: Observed)
    | Settle
    | Complete
    | Finish
    | CleanUp
    | Stop
    | Reap(thread: nat)
    | Decide
    | TearDown(tornDown: bool)
    | Drop
    | DropJoin(dropped: nat)
    | DropTearDown

  predicate Passed(w: World) {
    w.outcome == Completed && w.scheduleCompleted && w.cleanup == Confirmed
  }

  // ---------------------------------------------------------------- admission

  predicate IdentifierChar(c: char) {
    'a' <= c <= 'z' || 'A' <= c <= 'Z' || '0' <= c <= '9' || c in "_-./"
  }

  predicate Identifier(s: string) {
    0 < |s| <= 128 && forall k :: 0 <= k < |s| ==> IdentifierChar(s[k])
  }

  predicate DistinctDeclarations(plan: Plan) {
    forall i, j :: 0 <= i < j < |plan.actors| ==>
      plan.actors[i].actor != plan.actors[j].actor && plan.actors[i].operation != plan.actors[j].operation
  }

  predicate Declares(plan: Plan, name: string) {
    exists i :: 0 <= i < |plan.actors| && plan.actors[i].actor == name
  }

  // What the step loop of `admit` accepts, read off the positions.
  predicate StepsAdmissible(plan: Plan) {
    && (forall k :: 0 <= k < |plan.steps| ==> Declares(plan, plan.steps[k].actor))
    && (forall k :: 0 <= k < |plan.steps| && plan.steps[k].checkpoint != COMPLETION ==>
          plan.steps[k].checkpoint in plan.checkpoints)
    && (forall j, k :: 0 <= j < k < |plan.steps| && plan.steps[j].checkpoint == COMPLETION ==>
          plan.steps[k].actor != plan.steps[j].actor)
    && (forall i :: 0 <= i < |plan.actors| ==> Step(plan.actors[i].actor, COMPLETION) in plan.steps)
  }

  predicate Admissible(plan: Plan) {
    && 0 < |plan.actors|
    && DistinctDeclarations(plan)
    && (forall i :: 0 <= i < |plan.actors| ==>
          Identifier(plan.actors[i].actor) && Identifier(plan.actors[i].operation))
    && (forall k :: 0 <= k < |plan.checkpoints| ==> Identifier(plan.checkpoints[k]))
    && StepsAdmissible(plan)
  }

  // First declaration carrying the name; the length of the list when there is none.
  function Position(actors: seq<Declaration>, name: string): (i: nat)
    ensures i <= |actors|
    ensures i < |actors| ==> actors[i].actor == name
    ensures forall j :: 0 <= j < i ==> actors[j].actor != name
  {
    if actors == [] then 0
    else if actors[0].actor == name then 0
    else 1 + Position(actors[1..], name)
  }

  // ------------------------------------------------------------ opening a run

  // How start_schedule got as far as it did before any thread existed.
  datatype Acquisition =
    | Refused(reason: Outcome)   // reentry, cancellation or admit: nothing acquired
    | FactoryFailed
    | WorkersDiffer              // program acquired, worker set wrong
    | Opened

  predicate Openable(plan: Plan, o: Acquisition) {
    match o
    case Refused(reason) => reason != Completed
    case _ => Admissible(plan)
  }

  function Initial(plan: Plan, o: Acquisition): World {
    var w := World(plan, [], false, Completed, false, NotStarted, [], 0, [], [], 0,
                   false, false, Idle, 0, false, false, 0);
    match o
    case Refused(reason) => Fail(w, reason).(closed := true)
    case FactoryFailed => Fail(w, ApplicationFailed).(closed := true)
    case WorkersDiffer => Fail(w, ApplicationFailed).(acquired := true, control := Stopping)
    case Opened =>
      w.(acquired := true, control := Spawning(0),
         actors := seq(|plan.actors|, _ => Actor(Starting, START, Unspawned, false)))
  }

  // ------------------------------------------------------------- the sections

  // What no section takes back.
  predicate Keeps(w: World, v: World) {
    && v.plan == w.plan
    && v.acquired == w.acquired
    && |v.actors| == |w.actors|
    && (w.stopping ==> v.stopping)
    && (w.outcome != Completed ==> v.outcome == w.outcome)
    && (w.scheduleCompleted ==> v.scheduleCompleted)
    && (w.closed ==> v.closed)
    && w.teardowns <= v.teardowns
  }

  function Fail(w: World, reason: Outcome): (v: World)
    ensures Keeps(w, v)
    ensures v.events == w.events
  {
    w.(stopping := true, outcome := if w.outcome == Completed then reason else w.outcome)
  }

  function RetainEvent(w: World, kind: Kind, i: nat, bytes: nat): (v: World)
    requires i < |w.actors| == |w.plan.actors|
    ensures Keeps(w, v)
  {
    var d := w.plan.actors[i];
    var row := Event(|w.events|, kind, w.next, d.actor, d.operation, w.actors[i].checkpoint);
    var counted := w.(evidence := w.evidence + bytes);
    if counted.evidence > EVIDENCE_BOUND then Fail(counted, ResourceFailed)
    else counted.(events := w.events + [row])
  }

  function SetActor(w: World, i: nat, a: Actor): (v: World)
    requires i < |w.actors|
    ensures Keeps(w, v)
    ensures v.events == w.events
  {
    w.(actors := w.actors[i := a])
  }

  predicate Spawned(a: Actor) { a.place != Unspawned }

  predicate AllJoined(w: World) {
    forall i :: 0 <= i < |w.actors| && Spawned(w.actors[i]) ==> w.actors[i].joined
  }

  // Checkpoint::arrive up to where it waits (src/schedule.rs:280-307).
  function ArriveStep(w: World, i: nat, checkpoint: string): (v: World)
    requires i < |w.actors|
    ensures Keeps(w, v)
    ensures v.events == w.events
  {
    var a := w.actors[i];
    if !a.place.App? then w
    else if !a.phase.Running? then Fail(w, UncontrolledActor)
    else if w.stopping then w
    else if !Identifier(checkpoint) || checkpoint !in w.plan.checkpoints
    then Fail(w, UnexpectedCheckpoint)
    else SetActor(w, i, a.(phase := Parked, checkpoint := checkpoint, place := Held))
  }

  // Leaving the wait, at the start or at a checkpoint (src/schedule.rs:308-319, 826-834).
  function WakeStep(w: World, i: nat): (v: World)
    requires i < |w.actors|
    ensures Keeps(w, v)
    ensures v.events == w.events
  {
    var a := w.actors[i];
    if a.place.Gate? && w.stopping then SetActor(w, i, a.(place := Leaving(false)))
    else if (a.place.Gate? || a.place.Held?) && (w.stopping || a.phase.Running?)
    then SetActor(w, i, a.(place := App))
    else w
  }

  // The end of the worker closure (src/schedule.rs:835-858).
  function ExitStep(w: World, i: nat): (v: World)
    requires i < |w.actors|
    ensures Keeps(w, v)
    ensures v.events == w.events
  {
    var a := w.actors[i];
    if !a.place.Leaving? then w
    else
      var told := if !w.stopping && a.place.failed then Fail(w, ApplicationFailed) else w;
      SetActor(told, i, a.(phase := Finished, checkpoint := COMPLETION, place := Exited))
  }

  // The worker closure and lent checkpoints (src/schedule.rs:280-320, 826-858).
  function WorkerStep(w: World, l: Label): (v: World)
    requires IsWorkerLabel(l)
    requires l.w < |w.actors| == |w.plan.actors|
    ensures Keeps(w, v)
    ensures v.events == w.events
  {
    var i := l.w;
    var a := w.actors[i];
    match l
    case Begin(_) => if a.place.Fresh? then SetActor(w, i, a.(phase := Parked, place := Gate)) else w
    case Wake(_) => WakeStep(w, i)
    case Arrive(_, checkpoint) => ArriveStep(w, i, checkpoint)
    case Foreign(_) => if a.place.App? || a.place.Held? then Fail(w, UncontrolledActor) else w
    case Return(_, failed) => if a.place.App? then SetActor(w, i, a.(place := Leaving(failed))) else w
    case Exit(_) => ExitStep(w, i)
    case Die(_) => if a.place.Exited? then SetActor(w, i, a.(place := Dead)) else w
  }

  // One round of wait_for (src/schedule.rs:367-396): the world and whether it returned true.
  function PollStep(w: World, holds: bool, success: Control): (v: World)
    ensures Keeps(w, v)
    ensures v.events == w.events
  {
    if w.stopping then w.(control := Settling)
    else if w.cancelled then Fail(w, Cancelled).(control := Settling)
    else if w.expired then Fail(w, TimedOut).(control := Settling)
    else if holds then w.(control := success)
    else w
  }

  predicate AllParked(w: World) {
    forall i :: 0 <= i < |w.actors| ==> w.actors[i].phase.Parked?
  }

  // The locked part of advance that releases an actor (src/schedule.rs:465-497).
  function GrantStep(w: World, requested: Step, bytes: nat): (v: World)
    requires |w.actors| == |w.plan.actors|
    ensures Keeps(w, v)
  {
    if w.cancelled then Fail(w, Cancelled).(control := Settling)
    else if w.expired then Fail(w, TimedOut).(control := Settling)
    else if w.next >= |w.plan.steps| || w.plan.steps[w.next] != requested
    then Fail(w, InvalidSchedule).(control := Settling)
    else
      var i := Position(w.plan.actors, requested.actor);
      if i == |w.actors| then w
      else if !w.actors[i].phase.Parked? then Fail(w, UnexpectedCheckpoint).(control := Settling)
      else
        var kept := RetainEvent(w, Permit, i, bytes);
        if kept.stopping then kept.(control := Settling)
        else SetActor(kept, i, w.actors[i].(phase := Running)).(control := AwaitArrival(i))
  }

  // The arrival section of advance (src/schedule.rs:501-513).
  function RecordStep(w: World, i: nat, bytes: nat): (v: World)
    requires i < |w.actors| == |w.plan.actors|
    ensures Keeps(w, v)
  {
    var kept := RetainEvent(w, Arrival, i, bytes);
    var judged :=
      if w.next < |w.plan.steps| && w.actors[i].checkpoint == w.plan.steps[w.next].checkpoint then kept
      else Fail(kept, UnexpectedCheckpoint);
    judged.(control := if w.actors[i].phase.Finished? then Joining(i) else Checking)
  }

  // observe, called with the lock held throughout (src/schedule.rs:397-458).
  function ObserveStep(w: World, o: Observed): (v: World)
    ensures Keeps(w, v)
    ensures v.events == w.events
  {
    var done := w.(control := Settling);
    if w.stopping then done
    else if exists i :: 0 <= i < |w.actors| && (w.actors[i].phase.Running? || w.actors[i].phase.Starting?)
    then Fail(done, ObservationFailed)
    else if w.cancelled then Fail(done, Cancelled)
    else if w.expired then Fail(done, TimedOut)
    else match o
      case Observed(text, accepted) =>
        if !accepted || w.evidence + |text| > EVIDENCE_BOUND then Fail(done, ObservationFailed)
        else done.(evidence := w.evidence + |text|,
                   observations := w.observations + [Observation(w.next, text)])
      case _ => Fail(done, ObservationFailed)
  }

  function JoinStep(w: World, clean: bool): (v: World)
    ensures Keeps(w, v)
    ensures v.events == w.events
  {
    var c := w.control;
    if c.Joining? && c.i < |w.actors| && w.actors[c.i].place.Dead? then
      var told := if clean then w else Fail(w, ApplicationFailed);
      SetActor(told, c.i, w.actors[c.i].(joined := true)).(control := Checking)
    else w
  }

  function SettleStep(w: World): (v: World)
    ensures Keeps(w, v)
    ensures v.events == w.events
  {
    if w.outcome != Completed then w.(control := Stopping)
    else if w.next == |w.plan.steps| then w.(control := Completing)
    else w.(control := Idle)
  }

  function Unjoined(w: World): seq<string>
    requires |w.actors| <= |w.plan.actors|
  {
    UnjoinedFrom(w, 0)
  }

  function UnjoinedFrom(w: World, i: nat): (names: seq<string>)
    requires i <= |w.actors| <= |w.plan.actors|
    ensures names == [] <==> forall k :: i <= k < |w.actors| && Spawned(w.actors[k]) ==> w.actors[k].joined
    decreases |w.actors| - i
  {
    if i == |w.actors| then []
    else if Spawned(w.actors[i]) && !w.actors[i].joined
    then [w.plan.actors[i].actor] + UnjoinedFrom(w, i + 1)
    else UnjoinedFrom(w, i + 1)
  }

  // Bookkeeping between the joins and the teardown of cleanup (src/schedule.rs:588-603).
  function DecideStep(w: World): (v: World)
    requires |w.actors| <= |w.plan.actors|
    ensures Keeps(w, v)
    ensures v.events == w.events
  {
    var left := Unjoined(w);
    if left != [] then
      w.(cleanup := Incomplete, remaining := left, attempts := w.attempts + 1, control := Idle)
    else w.(control := TearingDown)
  }

  function TearDownStep(w: World, ok: bool): (v: World)
    ensures Keeps(w, v)
    ensures v.events == w.events
  {
    w.(closed := true, remaining := [], attempts := w.attempts + 1, control := Idle,
       teardowns := if w.acquired then w.teardowns + 1 else w.teardowns,
       cleanup := if !w.acquired then NotStarted else if ok then Confirmed else TeardownFailed)
  }

  predicate IsWorkerLabel(l: Label) {
    l.Begin? || l.Wake? || l.Arrive? || l.Foreign? || l.Return? || l.Exit? || l.Die?
  }

  predicate IsFlagLabel(l: Label) { l.Cancel? || l.Expire? }

  predicate IsOpeningLabel(l: Label) { l.Spawn? || l.Poll? }

  predicate IsIntervalLabel(l: Label) {
    l.Record? || l.Join? || l.Check? || l.Observe? || l.Settle? || l.Complete?
  }

  predicate IsCallLabel(l: Label) { l.Grant? || l.Finish? || l.CleanUp? }

  predicate IsCleanupLabel(l: Label) { l.Stop? || l.Reap? || l.Decide? || l.TearDown? }

  predicate IsDropLabel(l: Label) { l.Drop? || l.DropJoin? || l.DropTearDown? }

  function FlagStep(w: World, l: Label): (v: World)
    requires IsFlagLabel(l)
    ensures Keeps(w, v)
    ensures v.events == w.events
  {
    if l.Cancel? then w.(cancelled := true) else w.(expired := true)
  }

  // Thread creation, and the two waits (src/schedule.rs:821-872, 498).
  function OpeningStep(w: World, l: Label): (v: World)
    requires IsOpeningLabel(l)
    ensures Keeps(w, v)
    ensures v.events == w.events
  {
    var c := w.control;
    match l
    case Spawn(spawned) =>
      if !c.Spawning? then w
      else if c.k >= |w.actors| then w.(control := AwaitStart)
      else if !spawned then Fail(w, ResourceFailed).(control := AwaitStart)
      else SetActor(w, c.k, w.actors[c.k].(place := Fresh)).(control := Spawning(c.k + 1))
    case Poll =>
      if c.AwaitStart? then PollStep(w, AllParked(w), Observing)
      else if c.AwaitArrival? && c.i < |w.actors|
      then PollStep(w, !w.actors[c.i].phase.Running?, Arrived(c.i))
      else w
  }

  // What advance does between the arrival of an actor and its own return (src/schedule.rs:499-538).
  function IntervalStep(w: World, l: Label): (v: World)
    requires IsIntervalLabel(l) && |w.actors| <= |w.plan.actors|
    ensures Keeps(w, v)
    ensures !l.Record? ==> v.events == w.events
  {
    var c := w.control;
    match l
    case Record(bytes) =>
      if c.Arrived? && c.i < |w.actors| == |w.plan.actors| then RecordStep(w, c.i, bytes) else w
    case Join(clean) => JoinStep(w, clean)
    case Check =>
      if !c.Checking? then w
      else if w.outcome == Completed then w.(next := w.next + 1, control := Observing)
      else w.(control := Settling)
    case Observe(observed) => if c.Observing? then ObserveStep(w, observed) else w
    case Settle => if c.Settling? then SettleStep(w) else w
    case Complete =>
      if c.Completing? then w.(scheduleCompleted := true, control := Stopping) else w
  }

  // The calls a client can make between intervals.
  function CallStep(w: World, l: Label): (v: World)
    requires IsCallLabel(l) && |w.actors| <= |w.plan.actors|
    ensures Keeps(w, v)
    ensures !l.Grant? ==> v.events == w.events
  {
    var ready := w.control.Idle? && !w.closed;
    match l
    case Grant(requested, bytes) =>
      if ready && w.outcome == Completed && |w.actors| == |w.plan.actors|
      then GrantStep(w, requested, bytes) else w
    case Finish =>
      if !ready then w
      else if w.next != |w.plan.steps| then Fail(w, InvalidSchedule).(control := Stopping)
      else w.(control := Stopping)
    case CleanUp => if ready then w.(control := Stopping) else w
  }

  // cleanup (src/schedule.rs:554-626).
  function CleanupStep(w: World, l: Label): (v: World)
    requires IsCleanupLabel(l) && |w.actors| <= |w.plan.actors|
    ensures Keeps(w, v)
    ensures v.events == w.events
  {
    var c := w.control;
    match l
    case Stop =>
      if !c.Stopping? then w
      else if w.outcome == Completed && !w.scheduleCompleted
      then Fail(w, Cancelled).(control := Cleaning)
      else w.(stopping := true, control := Cleaning)
    case Reap(i) =>
      if c.Cleaning? && i < |w.actors| && w.actors[i].place.Dead?
      then SetActor(w, i, w.actors[i].(joined := true)) else w
    case Decide => if c.Cleaning? then DecideStep(w) else w
    case TearDown(ok) => if c.TearingDown? then TearDownStep(w, ok) else w
  }

  // Drop (src/schedule.rs:628-647).
  function DropStep(w: World, l: Label): (v: World)
    requires IsDropLabel(l)
    ensures Keeps(w, v)
    ensures v.events == w.events
  {
    var c := w.control;
    match l
    case Drop => if c.Idle? then w.(stopping := true, control := Dropping) else w
    case DropJoin(i) =>
      if c.Dropping? && i < |w.actors| && w.actors[i].place.Dead?
      then SetActor(w, i, w.actors[i].(joined := true)) else w
    case DropTearDown =>
      if c.Dropping? && AllJoined(w) then
        w.(control := Dropped,
           teardowns := if !w.closed && w.acquired then w.teardowns + 1 else w.teardowns)
      else w
  }

  function Apply(w: World, l: Label): (v: World)
    ensures Keeps(w, v)
    ensures !l.Record? && !l.Grant? ==> v.events == w.events
  {
    if IsFlagLabel(l) then FlagStep(w, l)
    else if IsOpeningLabel(l) then OpeningStep(w, l)
    else if IsDropLabel(l) then DropStep(w, l)
    else if |w.actors| > |w.plan.actors| then w
    else if IsIntervalLabel(l) then IntervalStep(w, l)
    else if IsCallLabel(l) then CallStep(w, l)
    else if IsCleanupLabel(l) then CleanupStep(w, l)
    else if l.w < |w.actors| == |w.plan.actors| then WorkerStep(w, l)
    else w
  }

  // The world after a run: every interleaving is some sequence of labels.
  function Exec(w: World, run: seq<Label>): World {
    if run == [] then w else Apply(Exec(w, run[..|run| - 1]), run[|run| - 1])
  }
}
