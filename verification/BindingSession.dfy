// The session of src/schedule_binding.rs: one schedule executed anew for every trace, with the
// receipts of all executions.
module BindingSession {
  import opened Schedule
  import opened ScheduleInvariant
  import opened ScheduleSafety
  import opened ScheduleReach
  import opened ScheduleRealizable
  import opened Calls
  import opened Waiting
  import opened Execution
  import opened Cooperation

  const RECEIPT_BOUND := 16777216
  const MAX_INITIALIZATIONS := 64
  // The text {"evidenceError":"receipt_byte_bound_exceeded","passed":false}
  const PLACEHOLDER_BYTES := 62

  // A retained record: an execution's receipt, or the note that it was too large.
  datatype Record = Receipt(passed: bool, bytes: nat) | Placeholder

  predicate RecordPassed(r: Record) { r.Receipt? && r.passed }

  function Size(r: Record): nat { if r.Receipt? then r.bytes else PLACEHOLDER_BYTES }

  // The bytes of the receipts proper.
  function Total(records: seq<Record>): nat {
    if records == [] then 0
    else Total(records[..|records| - 1]) + (if records[|records| - 1].Receipt? then records[|records| - 1].bytes else 0)
  }

  lemma {:induction false} TotalPush(records: seq<Record>, r: Record)
    ensures Total(records + [r]) == Total(records) + (if r.Receipt? then r.bytes else 0)
  {
    assert (records + [r])[..|records|] == records;
  }

  // ------------------------------------------------------ the ledger

  // The records of a session, the bytes it has counted, and whether it has them all.
  datatype Ledger = Ledger(records: seq<Record>, counted: nat, complete: bool)

  predicate Exact(l: Ledger) { l.counted == Total(l.records) }

  function Last(l: Ledger): Record
    requires l.records != []
  {
    l.records[|l.records| - 1]
  }

  // retain: a receipt that fits is counted, for one that does not a note is kept.
  function Added(l: Ledger, passed: bool, bytes: nat): Ledger {
    if l.counted + bytes > RECEIPT_BOUND then Ledger(l.records + [Placeholder], l.counted, false)
    else Ledger(l.records + [Receipt(passed, bytes)], l.counted + bytes, l.complete)
  }

  // The byte count after the last record has been replaced; the subtraction saturates.
  function Recounted(l: Ledger, bytes: nat): nat
    requires l.records != []
  {
    (if l.counted >= Size(Last(l)) then l.counted - Size(Last(l)) else 0) + bytes
  }

  predicate Fits(l: Ledger, bytes: nat)
    requires l.records != []
  {
    Recounted(l, bytes) <= RECEIPT_BOUND
  }

  // retry_cleanup: the last record is replaced by the present receipt, if that fits.
  function Renewed(l: Ledger, passed: bool, bytes: nat): Ledger
    requires l.records != []
  {
    if Fits(l, bytes)
    then Ledger(l.records[|l.records| - 1 := Receipt(passed, bytes)], Recounted(l, bytes), l.complete)
    else l.(complete := false)
  }

  // What every ledger of a session keeps: the count is within the bound and never
  // above the receipts; it is below them only behind a renewed placeholder.
  predicate Kept(l: Ledger) {
    && l.counted <= RECEIPT_BOUND
    && l.counted <= Total(l.records) <= l.counted + PLACEHOLDER_BYTES
    && (!Exact(l) ==> !l.complete && l.records != [] && Last(l).Receipt?)
    && (l.complete ==> forall k :: 0 <= k < |l.records| ==> l.records[k].Receipt?)
    && (l.records != [] && Last(l).Receipt? ==> Last(l).bytes <= l.counted)
  }

  lemma {:induction false} AddedKept(l: Ledger, passed: bool, bytes: nat)
    requires Kept(l) && Exact(l)
    ensures Kept(Added(l, passed, bytes)) && Exact(Added(l, passed, bytes))
  {
    TotalPush(l.records, Receipt(passed, bytes));
    TotalPush(l.records, Placeholder);
  }

  lemma {:induction false} AddedShape(l: Ledger, passed: bool, bytes: nat)
    ensures var a := Added(l, passed, bytes);
            && |a.records| == |l.records| + 1 && a.records[..|l.records|] == l.records
            && (Last(a).Receipt? ==> Last(a).passed == passed)
            && (forall k :: 0 <= k < |l.records| ==> a.records[k] == l.records[k])
  {
  }

  // What the last record contributes, and what replacing it does to the total.
  lemma {:induction false} TotalRenewed(records: seq<Record>, r: Record)
    requires records != []
    ensures var last := records[|records| - 1];
            Total(records[|records| - 1 := r]) + (if last.Receipt? then last.bytes else 0)
            == Total(records) + (if r.Receipt? then r.bytes else 0)
  {
    var front, last := records[..|records| - 1], records[|records| - 1];
    assert records == front + [last] && records[|records| - 1 := r] == front + [r];
    TotalPush(front, last);
    TotalPush(front, r);
  }

  lemma {:induction false} RenewedKept(l: Ledger, passed: bool, bytes: nat)
    requires Kept(l) && l.records != []
    ensures Kept(Renewed(l, passed, bytes))
  {
    hide Total;
    TotalRenewed(l.records, Receipt(passed, bytes));
  }

  // After a retry the count is the sum of the receipts exactly when nothing was
  // renewed, or it was exact and no note was renewed on top of earlier receipts.
  lemma {:induction false} RetryExactness(l: Ledger, passed: bool, bytes: nat)
    requires Kept(l) && l.records != []
    ensures Exact(Renewed(l, passed, bytes))
       <==> Exact(l) && (!Fits(l, bytes) || Last(l).Receipt? || l.counted == 0)
  {
    hide Total;
    TotalRenewed(l.records, Receipt(passed, bytes));
  }

  // Behind a renewed note the count falls short by the note that was never counted,
  // and the receipts together can be over the bound that the count respects.
  lemma {:induction false} RenewedNote(l: Ledger, passed: bool, bytes: nat)
    requires Kept(l) && l.records != [] && Last(l).Placeholder? && Fits(l, bytes)
    ensures var r := Renewed(l, passed, bytes);
            && Total(r.records) == l.counted + bytes
            && Total(r.records) - r.counted == if l.counted < PLACEHOLDER_BYTES then l.counted else PLACEHOLDER_BYTES
  {
    hide Total;
    TotalRenewed(l.records, Receipt(passed, bytes));
  }

  lemma {:induction false} LastIsReceipt(l: Ledger)
    requires Kept(l)
    ensures l.complete && l.records != [] ==> Last(l).Receipt?
  {
  }

  // The world is that of some execution of the plan.
  ghost predicate Executed(plan: Plan, w: World) {
    exists o :: Openable(plan, o) && Reached(plan, o, w)
  }

  // Each receipt says of its execution whether that has passed.
  ghost predicate OnRecord(plan: Plan, records: seq<Record>, worlds: seq<World>) {
    && |worlds| == |records|
    && forall k :: 0 <= k < |records| ==>
         Executed(plan, worlds[k]) && (records[k].Receipt? ==> (records[k].passed <==> Passed(worlds[k])))
  }

  lemma {:induction false} OnRecordPush(plan: Plan, records: seq<Record>, worlds: seq<World>, r: Record, w: World)
    requires OnRecord(plan, records, worlds) && Executed(plan, w) && (r.Receipt? ==> (r.passed <==> Passed(w)))
    ensures OnRecord(plan, records + [r], worlds + [w])
  {
    hide Executed, Passed;
  }

  lemma {:induction false} OnRecordAdded(plan: Plan, l: Ledger, worlds: seq<World>, passed: bool, bytes: nat, w: World)
    requires OnRecord(plan, l.records, worlds) && Executed(plan, w) && (passed <==> Passed(w))
    ensures OnRecord(plan, Added(l, passed, bytes).records, worlds + [w])
  {
    hide Executed, Passed, OnRecord;
    OnRecordPush(plan, l.records, worlds, Receipt(passed, bytes), w);
    OnRecordPush(plan, l.records, worlds, Placeholder, w);
  }

  lemma {:induction false} OnRecordRenewed(plan: Plan, records: seq<Record>, worlds: seq<World>, r: Record, w: World)
    requires OnRecord(plan, records, worlds) && records != [] && Executed(plan, w) && (r.Receipt? ==> (r.passed <==> Passed(w)))
    ensures |worlds| == |records|
    ensures OnRecord(plan, records[|records| - 1 := r], worlds[|records| - 1 := w])
  {
    hide Executed, Passed;
  }

  lemma {:induction false} PassedExecution(plan: Plan, w: World)
    requires Executed(plan, w) && Passed(w)
    ensures w.events == PlannedLog(plan, |plan.steps|)
  {
    hide Openable, Reached, Initial, Passed, Exec, PlannedLog;
    var o :| Openable(plan, o) && Reached(plan, o, w);
    ReachedIsReachable(plan, o, w);
    var run: seq<Label> :| Exec(Initial(plan, o), run) == w;
    PassedLog(plan, o, run);
  }

  datatype Fault = LifecycleInvalid | PreviousIncomplete | AdmissionFailed | IntervalFailed | CleanupFailed
    | ObservationUnavailable

  datatype Verdict = Fine | Failed(fault: Fault)

  // How start_schedule goes, and what the other threads do meanwhile.
  datatype Opening = Opening(origin: Acquisition, spawnable: nat, schedule: seq<seq<Label>>, ticks: nat, answers: Answers)

  // How one cleanup goes, and how large the receipt is afterwards.
  datatype Closing = Closing(rounds: nat, tornDown: bool, bytes: nat)

  class Session {
    const plan: Plan
    var execution: Execution?
    var executions: seq<Record>
    var receiptBytes: nat
    var initializations: nat
    var disposals: nat
    var disposed: bool
    var retained: bool
    var receiptComplete: bool
    var disposal: Verdict
    // Where each execution on record stood when its record was written.
    ghost var worlds: seq<World>

    // What the session has on record.
    function Account(): Ledger
      reads this`executions, this`receiptBytes, this`receiptComplete
    {
      Ledger(executions, receiptBytes, receiptComplete)
    }

    ghost predicate ExecutionPassed()
      reads this, execution
    {
      execution != null && Passed(execution.View())
    }

    // Nothing can change whether the current execution has passed.
    ghost predicate Finished()
      reads this, execution
    {
      execution != null && (execution.outcome != Completed || execution.closed)
    }

    ghost predicate Books()
      reads this
    {
      && initializations <= MAX_INITIALIZATIONS
      && disposals == (if disposed then 1 else 0)
      && (execution == null <==> initializations == 0)
      && (retained ==> execution != null)
      && |executions| == (if execution == null || retained then initializations else initializations - 1)
      && (!receiptComplete ==> retained)
      && (forall k :: 0 <= k < |executions| - (if retained then 1 else 0) ==> RecordPassed(executions[k]))
      && Kept(Account())
      && (!disposed ==> disposal.Fine?)
      && (!disposed || !retained ==> Exact(Account()))
      && OnRecord(plan, executions, worlds)
    }

    ghost predicate Core()
      reads this, execution
    {
      && Books()
      && (execution != null ==> execution.Ready() && execution.plan == plan)
      && (retained ==> Finished() && (executions[|executions| - 1].Receipt? ==>
                                        (executions[|executions| - 1].passed <==> ExecutionPassed())))
    }

    ghost predicate Valid()
      reads this, execution
    {
      Core() && (disposed && execution != null ==> retained)
    }

    // No further execution will ever be acquired.
    ghost predicate Blocked()
      reads this, execution
    {
      execution != null && (disposed || !receiptComplete || (Finished() && !ExecutionPassed()))
    }

    constructor (plan: Plan)
      ensures Valid() && this.plan == plan && initializations == 0 && !disposed && execution == null
      ensures Account() == Ledger([], 0, true)
    {
      this.plan := plan;
      execution, executions, receiptBytes := null, [], 0;
      initializations, disposals, disposed := 0, 0, false;
      retained, receiptComplete, disposal := false, true, Fine;
      worlds := [];
    }

    lemma {:induction false} NowExecuted()
      requires execution != null && execution.Ready() && execution.plan == plan
      ensures Executed(plan, execution.View())
    {
      hide Openable, Reached;
    }

    method Retain(bytes: nat)
      requires Core() && execution != null && Finished()
      modifies this`retained, this`receiptBytes, this`receiptComplete, this`executions, this`worlds
      ensures Core() && retained && old(worlds) <= worlds
      ensures Account() == if old(retained) then old(Account()) else Added(old(Account()), ExecutionPassed(), bytes)
    {
      hide Reached, Openable, Initial, Total, Kept, OnRecord, Execution.Valid, Executed, Execution.Ready, Added;
      if retained { return; }
      NowExecuted();
      var passed := execution.outcome == Completed && execution.cleanup == Confirmed && execution.scheduleCompleted;
      AddedKept(Account(), passed, bytes);
      AddedShape(Account(), passed, bytes);
      OnRecordAdded(plan, Account(), worlds, passed, bytes, execution.View());
      RetainFields(passed, bytes);
    }

    method RetainFields(passed: bool, bytes: nat)
      requires execution != null
      modifies this`retained, this`receiptBytes, this`receiptComplete, this`executions, this`worlds
      ensures retained && Account() == Added(old(Account()), passed, bytes)
      ensures worlds == old(worlds) + [execution.View()]
    {
      worlds := worlds + [execution.View()];
      if receiptBytes + bytes > RECEIPT_BOUND {
        receiptComplete := false;
        executions := executions + [Placeholder];
      } else {
        receiptBytes := receiptBytes + bytes;
        executions := executions + [Receipt(passed, bytes)];
      }
      retained := true;
    }

    // A new execution only ever follows one that has passed and is on record.
    method Initialize(opening: Opening, closing: Closing) returns (v: Verdict)
      requires Valid() && Openable(plan, opening.origin)
      modifies this, execution
      ensures Valid() && (execution == old(execution) || fresh(execution))
      ensures initializations == old(initializations) || initializations == old(initializations) + 1
      ensures v.Fine? ==> initializations == old(initializations) + 1 && execution != null && execution.outcome == Completed
      ensures initializations == old(initializations) ==> execution == old(execution) && v.Failed?
      ensures initializations == old(initializations) + 1 ==>
                && fresh(execution) && !retained && !disposed && (v.Fine? <==> execution.outcome == Completed)
                && |executions| == old(initializations)
                && (forall k :: 0 <= k < |executions| ==> RecordPassed(executions[k]))
      ensures old(Blocked()) ==> Blocked() && initializations == old(initializations)
      ensures disposed == old(disposed)
      ensures v == if old(disposed) || old(initializations) >= MAX_INITIALIZATIONS then Failed(LifecycleInvalid)
                   else if old(execution) != null
                           && !(old(ExecutionPassed() && receiptComplete)
                                && (old(retained) || old(receiptBytes) + closing.bytes <= RECEIPT_BOUND))
                   then Failed(PreviousIncomplete)
                   else if execution != null && execution.outcome != Completed then Failed(AdmissionFailed)
                   else Fine
      ensures v == Failed(LifecycleInvalid) || v == Failed(PreviousIncomplete) <==> initializations == old(initializations)
      ensures initializations == old(initializations) + 1 ==>
                && Begun(opening, v)
                && Account() == if old(execution) == null || old(retained) then old(Account())
                                else Added(old(Account()), true, closing.bytes)
    {
      hide Reached, Openable, Initial, Admissible, PlannedLog, Total, Kept, OpenedTo, Begun;
      if disposed || initializations >= MAX_INITIALIZATIONS { return Failed(LifecycleInvalid); }
      if execution != null {
        var passed := FinishPrevious(closing);
        if !passed { return Failed(PreviousIncomplete); }
      }
      v := Acquire(opening, closing.rounds);
    }

    // The second half: the next execution takes the place of the finished one.
    method Acquire(opening: Opening, rounds: nat) returns (v: Verdict)
      requires Valid() && Openable(plan, opening.origin) && !disposed && initializations < MAX_INITIALIZATIONS
      requires execution != null ==> retained && ExecutionPassed() && receiptComplete
      modifies this`execution, this`initializations, this`retained
      ensures Valid() && fresh(execution) && initializations == old(initializations) + 1 && !retained
      ensures v == if execution.outcome == Completed then Fine else Failed(AdmissionFailed)
      ensures |executions| == old(initializations) && forall k :: 0 <= k < |executions| ==> RecordPassed(executions[k])
      ensures Begun(opening, v)
    {
      hide Reached, Openable, Initial, Admissible, PlannedLog, Total, Kept, OpenedTo, OnRecord, Execution.Valid, Ended, CleanedUp, Passed;
      var started := new Execution(plan, opening.origin, opening.spawnable, opening.schedule, opening.ticks,
                                   opening.answers, rounds);
      LastIsReceipt(Account());
      execution := started;
      initializations := initializations + 1;
      retained := false;
      v := if execution.outcome != Completed then Failed(AdmissionFailed) else Fine;
    }

    // What has become of the execution just opened.
    ghost predicate Begun(opening: Opening, v: Verdict)
      reads this, execution
    {
      var s := OpenedTo(plan, opening.spawnable, opening.schedule, opening.ticks, opening.answers.observed);
      && execution != null
      && (opening.origin.WorkersDiffer? ==>
            && v.Failed? && execution.closed
            && execution.cleanup == if opening.answers.tornDown then Confirmed else TeardownFailed)
      && (opening.origin.Opened? ==>
            && execution.outcome == s.world.outcome
            && (v.Fine? ==> execution.Whole() == s.(world := s.world.(control := Idle))))
    }

    // The first half of initialize: finish and retain the previous execution.
    method FinishPrevious(closing: Closing) returns (passed: bool)
      requires Valid() && !disposed && execution != null
      modifies this, execution
      ensures Valid() && execution == old(execution) && initializations == old(initializations) && !disposed
      ensures disposals == old(disposals) && disposal == old(disposal)
      ensures retained && Finished()
      ensures passed <==> ExecutionPassed() && receiptComplete
      ensures ExecutionPassed() <==> old(ExecutionPassed())
      ensures Account() == if old(retained) then old(Account()) else Added(old(Account()), ExecutionPassed(), closing.bytes)
      ensures old(Blocked()) ==> !passed && Blocked()
    {
      hide Reached, Openable, Initial, Admissible, PlannedLog, Total;
      execution.PassedIsClosed();
      execution.Finish(closing.rounds, closing.tornDown);
      Retain(closing.bytes);
      passed := execution.outcome == Completed && execution.cleanup == Confirmed && execution.scheduleCompleted && receiptComplete;
    }

    method Advance(step: Step, answers: Answers, closing: Closing) returns (v: Verdict)
      requires Valid()
      modifies this, execution
      ensures Valid() && execution == old(execution) && initializations == old(initializations)
      ensures executions == old(executions) && disposed == old(disposed) && receiptComplete == old(receiptComplete)
      ensures v.Fine? ==>
                && execution != null && execution.outcome == Completed
                && execution.next == old(execution.next) + 1 <= |plan.steps|
                && step == plan.steps[old(execution.next)]
                && execution.events == PlannedLog(plan, execution.next)
                && (execution.closed <==> execution.next == |plan.steps|)
                && (execution.scheduleCompleted <==> execution.closed)
      ensures old(Blocked()) ==> Blocked()
      ensures Account() == old(Account()) && retained == old(retained)
      ensures old(disposed || execution == null || execution.closed) ==> v == Failed(LifecycleInvalid)
      ensures old(!disposed && execution != null && !execution.closed) ==>
                var s := AdvancedTo(old(execution.Whole()), step, answers);
                && v == (if s.world.outcome == Completed then Fine else Failed(IntervalFailed))
                && execution.outcome == s.world.outcome
                && (v.Fine? && !execution.closed ==> execution.Whole() == s.(world := s.world.(control := Idle)))
                && (v.Fine? && execution.closed ==> execution.cleanup == if answers.tornDown then Confirmed else TeardownFailed)
    {
      hide Reached, Openable, Initial, Admissible, PlannedLog, Total;
      if disposed || execution == null { return Failed(LifecycleInvalid); }
      var accepted := execution.Advance(step, answers, closing.rounds);
      if !accepted { return Failed(LifecycleInvalid); }
      if execution.outcome != Completed { return Failed(IntervalFailed); }
      return Fine;
    }

    // The state observed last, that is after as many steps as have been taken; while the execution has
    // not failed there always is one.
    method Observation() returns (v: Verdict, state: string)
      requires Valid()
      ensures v == if disposed || execution == null then Failed(LifecycleInvalid)
                   else if execution.outcome != Completed then Failed(ObservationUnavailable) else Fine
      ensures v.Fine? ==> |execution.observations| == execution.next + 1 && state == execution.observations[execution.next].state
    {
      hide Reached, Openable, Initial, Admissible, PlannedLog, Total, Kept, OnRecord;
      state := "";
      if disposed || execution == null { return Failed(LifecycleInvalid), state; }
      if execution.outcome != Completed { return Failed(ObservationUnavailable), state; }
      execution.Progress();
      var seen := execution.observations;
      if seen == [] { return Failed(ObservationUnavailable), state; }
      return Fine, seen[|seen| - 1].state;
    }

    method Dispose(closing: Closing) returns (v: Verdict)
      requires Valid()
      modifies this, execution
      ensures Valid() && disposed && disposals == 1 && v == disposal
      ensures execution == old(execution) && initializations == old(initializations)
      ensures |executions| == initializations
      ensures old(disposed) ==> v == old(disposal)
      ensures !old(disposed) ==>
                v == if execution == null || (execution.cleanup == Confirmed && receiptComplete) then Fine else Failed(CleanupFailed)
      ensures execution != null && !old(disposed) && !old(execution.closed) ==>
                CleanedBy(Windowed(old(execution.Whole())), Cancelled, closing.rounds, closing.tornDown, execution.View())
      ensures Account() == if old(disposed) || execution == null || old(retained) then old(Account())
                           else Added(old(Account()), ExecutionPassed(), closing.bytes)
      ensures execution != null && old(execution.closed) ==> execution.View() == old(execution.View())
      ensures old(Blocked()) ==> Blocked()
    {
      hide Reached, Openable, Initial, Admissible, PlannedLog, Total, Kept, Execution.View, OnRecord, Execution.Valid, Added,
           Exact, Passed, CleanedBy, Windowed;
      if disposed { return disposal; }
      disposed := true;
      disposals := disposals + 1;
      if execution != null { Conclude(closing); }
      return disposal;
    }

    // The last execution is ended and put on record.
    method Conclude(closing: Closing)
      requires Core() && execution != null && disposed && disposal.Fine?
      modifies this`disposal, this`retained, this`receiptBytes, this`receiptComplete, this`executions, this`worlds, execution
      ensures Core() && retained
      ensures disposal == if execution.cleanup == Confirmed && receiptComplete then Fine else Failed(CleanupFailed)
      ensures !old(execution.closed) ==>
                CleanedBy(Windowed(old(execution.Whole())), Cancelled, closing.rounds, closing.tornDown, execution.View())
      ensures Account() == if old(retained) then old(Account()) else Added(old(Account()), ExecutionPassed(), closing.bytes)
      ensures old(execution.closed) ==> execution.View() == old(execution.View())
      ensures old(Finished()) ==> Finished() && (ExecutionPassed() <==> old(ExecutionPassed()))
    {
      hide Reached, Openable, Initial, Admissible, PlannedLog, Total, Kept, Execution.View, OnRecord, Execution.Valid, Added,
           Exact, Passed, CleanedBy, Windowed;
      EndExecution(closing);
      if execution.cleanup != Confirmed { disposal := Failed(CleanupFailed); }
      Retain(closing.bytes);
      if !receiptComplete { disposal := Failed(CleanupFailed); }
    }

    // The execution is finished when its schedule is complete, and cleaned up otherwise.
    method EndExecution(closing: Closing)
      requires Core() && execution != null
      modifies execution
      ensures Core() && Finished()
      ensures old(Finished()) ==> (ExecutionPassed() <==> old(ExecutionPassed()))
      ensures old(execution.closed) ==> execution.View() == old(execution.View())
      ensures !old(execution.closed) ==>
                CleanedBy(Windowed(old(execution.Whole())), Cancelled, closing.rounds, closing.tornDown, execution.View())
    {
      hide Reached, Openable, Initial, Admissible, PlannedLog, Total, CleanedBy, Windowed;
      execution.CompletedIsClosed();
      if execution.scheduleCompleted { execution.Finish(closing.rounds, closing.tornDown); }
      else { execution.CleanUp(closing.rounds, closing.tornDown); }
    }

    // Cleanup may be tried again after disposal; what has failed stays failed.
    method RetryCleanup(closing: Closing) returns (v: Verdict)
      requires Valid()
      modifies this, execution
      ensures Valid() && execution == old(execution) && initializations == old(initializations)
      ensures disposed == old(disposed) && disposal == old(disposal) && disposals == old(disposals)
      ensures |executions| == |old(executions)|
      ensures v == if !disposed then Failed(LifecycleInvalid)
                   else if execution == null || execution.cleanup == Confirmed then Fine else Failed(CleanupFailed)
      ensures execution != null && old(disposed && !execution.closed) ==>
                CleanedBy(Windowed(old(execution.Whole())), Cancelled, closing.rounds, closing.tornDown, execution.View())
      ensures Account() == if v.Fine? && execution != null then Renewed(old(Account()), ExecutionPassed(), closing.bytes)
                           else old(Account())
      ensures execution != null && old(execution.closed) ==> execution.View() == old(execution.View())
      ensures v.Fine? && execution != null ==>
                (Exact(Account()) <==> old(Exact(Account())) && (!Fits(old(Account()), closing.bytes)
                                         || Last(old(Account())).Receipt? || old(receiptBytes) == 0))
      ensures FullyCompleted() ==> old(FullyCompleted())
      ensures old(Blocked()) ==> Blocked()
    {
      hide Reached, Openable, Initial, Admissible, PlannedLog, Total, Kept, OnRecord, Execution.Valid, Execution.View, Exact,
           Fits, Passed, CleanedBy, Windowed;
      if !disposed { return Failed(LifecycleInvalid); }
      if execution != null {
        CleanAgain(closing);
        if execution.cleanup != Confirmed { return Failed(CleanupFailed); }
      }
      if retained && executions != [] && execution != null {
        RetryExactness(Account(), ExecutionPassed(), closing.bytes);
        Renew(closing.bytes);
      }
      return Fine;
    }

    method CleanAgain(closing: Closing)
      requires Valid() && execution != null && disposed
      modifies execution
      ensures Valid() && (ExecutionPassed() <==> old(ExecutionPassed()))
      ensures old(execution.closed) ==> execution.View() == old(execution.View())
      ensures !old(execution.closed) ==>
                CleanedBy(Windowed(old(execution.Whole())), Cancelled, closing.rounds, closing.tornDown, execution.View())
    {
      hide Reached, Openable, Initial, Admissible, PlannedLog, Total, Kept, OnRecord, Execution.Valid, Exact, Keeps, CleanedBy, Windowed;
      execution.CleanUp(closing.rounds, closing.tornDown);
    }

    // The last record is replaced by the execution's present receipt, if that fits.
    method Renew(bytes: nat)
      requires Valid() && disposed && retained && executions != [] && execution != null
      modifies this`receiptBytes, this`executions, this`receiptComplete, this`worlds
      ensures Valid() && Account() == Renewed(old(Account()), ExecutionPassed(), bytes)
      ensures forall k :: 0 <= k < |executions| && RecordPassed(executions[k]) && receiptComplete ==> RecordPassed(old(executions[k]))
    {
      hide Reached, Openable, Initial, Total, Kept, OnRecord, Fits, Recounted;
      var passed := execution.outcome == Completed && execution.cleanup == Confirmed && execution.scheduleCompleted;
      RenewedKept(Account(), passed, bytes);
      NowExecuted();
      OnRecordRenewed(plan, executions, worlds, Receipt(passed, bytes), execution.View());
      LastIsReceipt(Account());
      RenewFields(passed, bytes);
    }

    method RenewFields(passed: bool, bytes: nat)
      requires executions != [] && |worlds| == |executions| && execution != null
      modifies this`receiptBytes, this`executions, this`receiptComplete, this`worlds
      ensures Account() == Renewed(old(Account()), passed, bytes)
      ensures worlds == if Fits(old(Account()), bytes) then old(worlds)[|old(worlds)| - 1 := execution.View()] else old(worlds)
    {
      var last := Size(executions[|executions| - 1]);
      var total := (if receiptBytes >= last then receiptBytes - last else 0) + bytes;
      if total <= RECEIPT_BOUND {
        receiptBytes := total;
        executions := executions[|executions| - 1 := Receipt(passed, bytes)];
        worlds := worlds[|worlds| - 1 := execution.View()];
      } else {
        receiptComplete := false;
      }
    }

    predicate FullyCompleted()
      reads this
    {
      && disposed && initializations > 0 && disposal.Fine? && receiptComplete && executions != []
      && forall k :: 0 <= k < |executions| ==> RecordPassed(executions[k])
    }

    // A fully completed session has on record every execution it ever opened; each of them
    // has passed, with the planned log, and every byte is counted.
    lemma {:induction false} FullyCompletedMeans()
      requires Valid() && FullyCompleted()
      ensures |worlds| == |executions| == initializations && ExecutionPassed()
      ensures forall k :: 0 <= k < |worlds| ==>
                Executed(plan, worlds[k]) && Passed(worlds[k]) && worlds[k].events == PlannedLog(plan, |plan.steps|)
      ensures receiptBytes == Total(executions) <= RECEIPT_BOUND
    {
      hide Executed, Passed, Reached, PlannedLog, Total;
      forall k | 0 <= k < |worlds| ensures worlds[k].events == PlannedLog(plan, |plan.steps|) && Passed(worlds[k]) {
        assert RecordPassed(executions[k]);
        PassedExecution(plan, worlds[k]);
      }
    }
  }

  // ------------------------------------------------------ a session that undercounts

  // Every wait is over in its first round.
  function Brisk(plan: Plan): Pace {
    Pace([Begins(|plan.actors|)], seq(|plan.steps|, k requires 0 <= k < |plan.steps| => [Moves(plan, k)]))
  }

  lemma {:induction false} BriskIsPaced(plan: Plan)
    requires Admissible(plan)
    ensures Paced(plan, Brisk(plan)) && |Brisk(plan).begins| == 1
    ensures forall k :: 0 <= k < |plan.steps| ==> |Brisk(plan).moves[k]| == 1
  {
    hide StepsAdmissible, DistinctDeclarations, Begins, Moves;
    BeginsCount(|plan.actors|);
    SpreadOnce(Begins(|plan.actors|));
    forall k | 0 <= k < |plan.steps| ensures Spread(Brisk(plan).moves[k], Moves(plan, k)) {
      SomeMoves(plan, k);
      SpreadOnce(Moves(plan, k));
    }
  }

  lemma {:induction false} SomeMoves(plan: Plan, k: nat)
    requires k < |plan.steps|
    ensures Moves(plan, k) != []
  {
  }

  lemma {:induction false} SpreadOnce(labels: seq<Label>)
    requires labels != []
    ensures Spread([labels], labels)
  {
    assert [labels][..0] == [];
  }

  // How an execution of an admissible plan is opened and advanced to its end.
  function Cooperative(plan: Plan): Opening {
    Opening(Acquisition.Opened, |plan.actors|, WholeScript(plan, Brisk(plan)), |plan.steps| + 1, Smooth())
  }

  // A session opens one more execution and takes it to its end; the execution
  // before it, if any, goes on record with the given size.
  method PassOnce(s: Session, bytes: nat)
    requires s.Valid() && Admissible(s.plan) && !s.disposed && s.initializations < MAX_INITIALIZATIONS
    requires s.execution == null || (s.ExecutionPassed() && s.receiptComplete && !s.retained && s.receiptBytes + bytes <= RECEIPT_BOUND)
    modifies s, s.execution
    ensures s.Valid() && !s.disposed && s.initializations == old(s.initializations) + 1
    ensures fresh(s.execution) && s.ExecutionPassed() && s.receiptComplete && !s.retained
    ensures s.Account() == if old(s.execution) == null then old(s.Account()) else Added(old(s.Account()), true, bytes)
  {
    hide Admissible, Calm, Script, AdvancedTo, OpenedTo, PlannedLog, Inv, Reached, Kept, Total, Brisk, Paced, WholeScript, Smooth, Added, OnRecord, Execution.Valid, Exact;
    var plan, n := s.plan, |s.plan.steps|;
    AdmissibleHasSteps(plan);
    SmoothForm();
    BriskIsPaced(plan);
    OpenCalm(plan, Brisk(plan), |plan.actors|, n + 1);
    CalmForm(plan, 0);
    assert Openable(plan, Acquisition.Opened);
    var v := s.Initialize(Cooperative(plan), Closing(0, true, bytes));
    ghost var account, count := s.Account(), s.initializations;
    for k := 0 to n
      invariant s.Valid() && !s.disposed && s.execution != null && fresh(s.execution) && !s.retained
      invariant s.Account() == account && s.initializations == count && s.plan == plan
      invariant s.execution.outcome == Completed && s.execution.next == k && (s.execution.closed <==> k == n)
      invariant k < n ==> s.execution.Whole() == State(Calm(plan, k, Idle), Script(Brisk(plan), k), n - k)
      invariant k == n ==> s.execution.cleanup == Confirmed
    {
      AdvanceCalm(plan, Brisk(plan), k, s.execution.Whole());
      CalmForm(plan, k + 1);
      v := s.Advance(plan.steps[k], Smooth(), Closing(0, true, 0));
    }
    s.execution.Progress();
  }

  // Three receipts on record, the last one renewed over a note.
  lemma {:induction false} ThreeReceipts(first: nat, second: nat, third: nat)
    requires PLACEHOLDER_BYTES <= first + second <= RECEIPT_BOUND < first + second + third <= RECEIPT_BOUND + PLACEHOLDER_BYTES
    ensures var two := Added(Added(Ledger([], 0, true), true, first), true, second);
            var l := Renewed(Added(two, false, third), false, third);
            && l.records == [Receipt(true, first), Receipt(true, second), Receipt(false, third)]
            && l.counted + PLACEHOLDER_BYTES == Total(l.records) == first + second + third
  {
    hide Total;
    var none := Ledger([], 0, true);
    var one := Added(none, true, first);
    var two := Added(one, true, second);
    assert Exact(none) by { EmptyIsExact(); }
    AddedKept(none, true, first);
    AddedKept(one, true, second);
    AddedKept(two, false, third);
    RenewedNote(Added(two, false, third), false, third);
  }

  lemma {:induction false} EmptyIsExact()
    ensures Kept(Ledger([], 0, true)) && Exact(Ledger([], 0, true))
  {
  }

  // Every admissible plan has a session whose count is below its receipts, which are
  // together over the bound: two executions pass, the receipt of the third does not
  // fit when the session is disposed of, and takes the place of the note on retry.
  method Undercount(plan: Plan, first: nat, second: nat, third: nat) returns (s: Session)
    requires Admissible(plan)
    requires PLACEHOLDER_BYTES <= first + second <= RECEIPT_BOUND < first + second + third <= RECEIPT_BOUND + PLACEHOLDER_BYTES
    ensures fresh(s) && s.Valid() && s.plan == plan
    ensures s.executions == [Receipt(true, first), Receipt(true, second), Receipt(false, third)]
    ensures s.receiptBytes + PLACEHOLDER_BYTES == Total(s.executions) == first + second + third
    ensures s.receiptBytes <= RECEIPT_BOUND < Total(s.executions)
  {
    hide Admissible, Inv, Reached, Kept, Total, Added, Renewed, Exact;
    ThreeReceipts(first, second, third);
    s := new Session(plan);
    PassOnce(s, 0);
    FitsFirst(first, second);
    PassOnce(s, first);
    RefuseThird(s, second, third);
  }

  lemma {:induction false} FitsFirst(first: nat, second: nat)
    requires first + second <= RECEIPT_BOUND
    ensures var none := Ledger([], 0, true);
            Added(none, true, first) == Ledger([Receipt(true, first)], first, true)
    ensures Added(Added(Ledger([], 0, true), true, first), true, second).complete
  {
  }

  // An execution that is refused its workers ends the session; its receipt is too
  // large at first, and renewed afterwards.
  method RefuseThird(s: Session, second: nat, third: nat)
    requires s.Valid() && Admissible(s.plan) && !s.disposed && s.initializations == 2 && s.execution != null
    requires s.ExecutionPassed() && s.receiptComplete && !s.retained && s.receiptBytes + second <= RECEIPT_BOUND
    modifies s, s.execution
    ensures s.Valid()
    ensures var two := Added(old(s.Account()), true, second);
            two.records != [] && s.Account() == Renewed(Added(two, false, third), false, third)
  {
    hide Admissible, Inv, Reached, Kept, Total, Added, Renewed, Exact;
    assert Openable(s.plan, WorkersDiffer);
    var v := s.Initialize(Opening(WorkersDiffer, 0, [], 0, Smooth()), Closing(0, true, second));
    v := s.Dispose(Closing(0, true, third));
    v := s.RetryCleanup(Closing(0, true, third));
  }
}
