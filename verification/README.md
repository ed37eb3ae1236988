# Verification of mirrorrust

A Dafny model of the parts of the client library where its promises are hardest to see: the
checkpoint scheduler and what is built on it, the wire value stack, the TLA+ import closure, and
the stepping loop inside a negotiated run. `dafny verify dfyconfig.toml` checks everything.

## What is modelled

**Scheduling.** `Schedule` is the one-lock protocol of `src/schedule.rs` as a labelled transition
system: one world, one label per critical section of the controller, of each worker thread, of a
lent checkpoint, of the caller's flags and of `Drop`. A run is any sequence of labels (a label
that does not apply changes nothing), so a statement about all runs is a statement about all
interleavings. `ScheduleInvariant` holds the invariant and its preservation, `ScheduleSafety` the
results for all runs. `ScheduleRealizable` builds passing runs, `ScheduleMoves` says what one section
can do to one worker, and `ScheduleGate` joins them: which plans can pass, with admission in front and
without. `ScheduleOverlap` is what is left of mutual exclusion after a stop, `ScheduleText` the JSON documents
that schedules are written as and read from, `Admission` is `admit` with its loops.
`Failures` says which failure a section reports, and that every failure has its cause.
`Execution` is the object of the source with its fields and methods; each method is a series of
sections of the same system, so `Valid()` says that some run leads to the object's present world,
and the calls are also tied to functions of what the environment does, which are in `Calls`.
`Waiting` says what these functions make of a wait and of a bounded cleanup: the first round that
ends a wait, and the threads that are over by the last round of a cleanup. `Cooperation` shows that
nothing but the environment keeps the calls from carrying out an admissible plan, at whatever pace
the workers move. `BindingSession` is the session over such objects.

**Exploration.** `Merges` and `Shapes` describe which step lists an enumeration should yield,
`Enumeration` is the backtracking enumerator, `MergeCounting` and `ShapeCounting` count. `Canonical`,
`CanonicalBounds`, `CanonicalMeaning` and `CanonicalOrder` treat the coverage key, `ExplorationSpace`
the checks of a declaration and the sorting of its actors. `Campaign` is the judgement on the runner's
answers and the books that are kept of them, `CampaignKeys` when two observations are one state,
`CampaignCourse` how far the loops get and why no further, read off what they are given, and
`Exploring` the run loop itself. `FiniteExploration` puts checks, enumeration and loop together in one report. `Receipts` leads from the scheduler to
the campaign: what it makes of the receipt of an actual execution.

**Values on the wire.** `JsonText` and `JsonString` are the lexical level of RFC 8259,
`JsonReader` the reader as a function, `JsonParser` the parser as the source has it (a cursor, a
counter, loops), `JsonGrammar` the grammar as derivation trees with all their white space.
`JsonSpans`, `JsonSoundness` and `JsonCompleteness` connect reader and grammar, `JsonPrinting` the
compact printer and grammar, and `JsonAcceptance` states the results. `Numbers` converts number
text to integers, `Values` and `ValueRoundTrip` are the ITF codec. `JsonEscapes` and `ItfForms` say
without the decoders' own functions what string bodies and ITF documents stand for. `OrderedMap` is `BTreeMap` with
text keys: a sequence of entries in strict key order. Text has one character per UTF-8 byte.

**Imports.** `SpecScanner` is the one-pass scanner against a two-pass reference, `SpecClosure` the
breadth-first closure over a finite file system, and `SpecPositions` says by position which characters
are blanked out, where tokens begin, and which of them are imports.

**Stepping.** `Stepping` is the loop that answers the mirror, `Negotiation` the run around it. Both
keep a log of what is done to the outside, and the results are about its order.

## What turned out different from the obvious statement

- Mutual exclusion ends at the stop, and the plan decides how: some run lets a parked actor execute
  application code iff the plan declares a checkpoint (`ParkedRunsIffCheckpoints`), and some run has
  two actors in application code at once iff the plan preempts an actor (`OverlapIffPreempted`).
- The scheduler by itself would bring more plans to a passed report than admission lets through:
  exactly those whose every step moves a declared actor that has not completed to a declared
  checkpoint or `$done` (`UngatedPassesIffRunnable`). Actors that never complete, for
  instance, are refused by admission alone (`AdmissionIsRunnableAndTidy`).
- `parse_schedule` gives back what `encode_schedule` writes (`EncodedIsRead`), but not everything that
  is read can be written: structs are also read from arrays, which are shorter, and the text then
  written can be over the bound (`LongDocumentIsNotEncoded`). Nothing else can fail (`ReadIsEncoded`).
- Records shaped like ITF markers do not survive encoding (`MarkerRecordIsLost`); `RoundTrip` says
  exactly which values do.
- `0e-5` denotes zero and is rejected (`ZeroWithLongExponentIsRejected`); `ConversionIsExact` says
  exactly which numbers are.
- A set with repetitions can be refused although the set without them is accepted
  (`RepetitionCounts`); `CanonExact` says exactly when canonicalisation succeeds.
- `receipt_bytes` is not always the sum of the receipts: after `retry_cleanup` it is iff it was before
  and no placeholder was renewed on top of earlier receipts (`RetryExactness`). It is then at most 62
  bytes too small (`RenewedNote`), and the receipts together can be over the bound that it respects;
  `Undercount` drives a session there.

## Model

| member | source | states |
|---|---|---|
| ScheduleText.EncodesExactly | src/schedule.rs:188-223 | a schedule is encoded, as its fields in declaration order, iff schema, profile, digests and steps are valid, its inputs are no deeper than 31 and no longer than 65535 bytes, and the whole, computed from the lengths of its names, is within 8 MiB; the bound on nodes is never met |
| ScheduleText.EncodedIsRead | src/schedule.rs:188-223 | what is encoded is parsed back as the same schedule |
| ScheduleText.ReadIsEncoded | src/schedule.rs:188-223 | a schedule that was parsed is encoded iff its text fits, and is then parsed back as the same |
| ScheduleText.LongDocumentIsNotEncoded | src/schedule.rs:188-223 | a schedule of 65536 steps whose structs are written as arrays is parsed and cannot be encoded |
| Admission.Admit | src/schedule.rs:648-704 | admission succeeds iff the schedule can be encoded, its identity is the adapter's, and policy bounds, timeouts, names, checkpoints and steps are in order, and tells an identity mismatch apart |
| Admission.AdmitNames | src/schedule.rs:672-682 | the loop accepts iff all names are identifiers and no actor or operation repeats |
| Admission.AdmitCheckpoints | src/schedule.rs:683-688 | the loop accepts iff all checkpoints are identifiers without repetition |
| Admission.AdmitSteps | src/schedule.rs:689-703 | the loop accepts iff the steps are admissible |
| Admission.StepsByProjection | src/schedule.rs:689-703 | steps are admissible iff each declared actor's own steps are declared checkpoints and then one `$done`, and nobody else occurs |
| ScheduleInvariant.ApplyInv | src/schedule.rs:280-647 | every section of every thread preserves the scheduler's invariant |
| ScheduleInvariant.RunInv | src/schedule.rs:705-874 | the invariant holds after every run from every outcome of opening |
| ScheduleSafety.OneActorRuns | src/schedule.rs:459-539 | before a stop at most one actor runs, the one waited for; outside an interval all are parked or finished |
| ScheduleSafety.OneActorInApplicationCode | src/schedule.rs:280-320 | before a stop no two threads are in application code |
| ScheduleSafety.ObservationIsQuiescent | src/schedule.rs:397-408 | the "actors not quiescent" branch of observe is never reached |
| ScheduleSafety.NextActorIsParked | src/schedule.rs:474-524 | between calls the next step's actor exists and is parked, so advance meets neither its expect nor its "not parked" branch |
| ScheduleSafety.CompletionMeansFinished | src/schedule.rs:835-858 | an actor rests at `$done` iff it has finished |
| ScheduleSafety.PassedLog | src/schedule.rs:132-136 | a passed execution has exactly the planned log and one observation more than steps, numbered from 0 |
| ScheduleSafety.PassedRunsAgree | src/schedule.rs:132-136 | two passed executions of one plan have the same events, whatever their interleavings |
| ScheduleSafety.PlannedRows | src/schedule.rs:258-271 | row 2k of the log is the permit of step k and row 2k+1 its arrival |
| ScheduleSafety.PermitRemembersArrival | src/schedule.rs:480-505 | a permit carries its actor's last arrival, or `$start` when there was none |
| ScheduleSafety.PassedValidates | src/schedule_exploration.rs:236-267 | validate_success accepts the receipt of every passed execution of its plan |
| ScheduleSafety.HistoryExtends | src/schedule.rs:251-257 | over every run a stop is final, the first failure is kept, closing is final, and no permit follows a stop |
| ScheduleSafety.TeardownOnce | src/schedule.rs:554-647 | teardown happens at most once, only with every spawned thread joined, and exactly once by the end of Drop iff the program was acquired |
| ScheduleSafety.CompletedIsNeverIncomplete | src/schedule.rs:588-603 | once all steps are complete every thread is joined and cleanup goes on to teardown |
| ScheduleSafety.ClosedIsFrozen | src/schedule.rs:462-466 | nothing but the caller's flags and Drop touches a closed execution |
| ScheduleReach.ReachedIsReachable | src/schedule.rs:323-335 | the worlds with every step-closed property of the opening are those some run leads to |
| ScheduleRealizable.AdmissiblePasses | src/schedule.rs:880-895 | every admissible plan has a run that ends in a passed report |
| ScheduleGate.UngatedPassesIffRunnable | src/schedule.rs:459-539 | opened without admission, a plan has a run to a passed report iff every step moves a declared actor that has not completed before to a declared checkpoint or `$done` |
| ScheduleGate.AdmissionIsRunnableAndTidy | src/schedule.rs:672-703 | admission asks for that, and beyond it for at least one actor, distinct identifiers as names and checkpoints, and that every actor completes |
| ScheduleGate.PassableIffAdmissible | src/schedule.rs:648-704 | with admission in front, a plan can pass iff it is admissible |
| ScheduleOverlap.ParkedRunsIffCheckpoints | src/schedule.rs:304-319 | for an admissible plan, some run has a parked actor in application code iff the plan declares a checkpoint |
| ScheduleOverlap.OverlapIffPreempted | src/schedule.rs:280-320 | for an admissible plan, some run has two actors in application code at once iff the plan switches away from an actor with steps left |
| Execution.Execution.Fail | src/schedule.rs:251-257 | the first failure is kept, every failure stops |
| Execution.Execution.RetainEvent | src/schedule.rs:258-271 | the row is appended, or the execution fails at the evidence bound |
| Execution.Execution.WorkerSection | src/schedule.rs:280-320 | worker start, arrivals, foreign calls and exits act on the fields as the transition system says |
| Execution.Execution.WaitFor | src/schedule.rs:367-396 | there is a first round that finds a stop, a cancellation, the deadline gone by, or the condition, at the latest when all rounds are used; what it finds decides the outcome, in that order of precedence, and exactly so many rounds are used; true iff the condition is found in time with neither of the others before or with it |
| Waiting.WaitedMeans | src/schedule.rs:367-396 | the same of the function for waits: it is the state after the least number of rounds at which one of them is seen |
| Waiting.WaitIsDone | src/schedule.rs:367-396 | every wait has such a round, and reports the condition iff that was found in time and undisturbed |
| Execution.Execution.Observe | src/schedule.rs:397-458 | one observation or one failure, and the world is that of the transition system |
| Execution.Execution.GrantSection | src/schedule.rs:466-497 | exactly the planned actor is released, with its permit on record |
| Execution.Execution.RecordSection | src/schedule.rs:499-513 | the arrival is recorded and judged against the step |
| Execution.Execution.JoinSection | src/schedule.rs:514-524 | a finished thread is joined, a bad join fails the execution, and the interval goes on |
| Execution.Execution.Advance | src/schedule.rs:459-539 | a call that keeps the outcome completed has carried out exactly the requested next step, with the planned log so far; one that fails reports the outcome that the environment leads to, and is closed iff all threads come to their end within the rounds of its cleanup; one that finds a failure does nothing; a closed one is refused unchanged |
| Execution.Execution.Finish | src/schedule.rs:540-553 | an execution that has not failed and lacks steps becomes an invalid schedule, an earlier failure is kept; closed iff all threads come to their end within the rounds; a closed one is untouched; a passed report has the planned log |
| Execution.Execution.CleanUp | src/schedule.rs:554-627 | an execution that has not failed is cancelled, an earlier failure is kept; closed iff all threads come to their end within the rounds, and otherwise the remaining ones are named, in the order of their declaration; a closed one is untouched |
| Execution.Execution.AwaitThreads | src/schedule.rs:574-582 | waits until all threads are over, but at most the given rounds |
| Waiting.UnjoinedMeans | src/schedule.rs:588-603 | the names reported are those of exactly the threads that are alive, in the order of declaration |
| Execution.Execution.DecideSection | src/schedule.rs:588-603 | teardown follows iff nobody is left; otherwise those left are named |
| Execution.Execution.TearDownSection | src/schedule.rs:604-626 | the one teardown, and its result as the cleanup state |
| Execution.Execution.Discard | src/schedule.rs:628-647 | Drop ends with exactly one teardown iff the program was acquired |
| Execution.Execution.constructor | src/schedule.rs:705-879 | a refusal, a failed factory and a wrong worker set are reported as such, the first two closed without teardown; an opened execution has its first observation or the failure that the environment leads to, and is then closed iff all threads come to their end within the rounds |
| Execution.Execution.Drive | src/schedule.rs:880-895 | the outcome is that of calling advance for one step after the other until one fails; a run that stays completed has completed the schedule, with the last teardown as its cleanup; a passed one has the planned log |
| Failures.WhichFailure | src/schedule.rs:251-539 | a section makes an execution that has not failed report a failure iff it is the cause of that failure, with cancellation before deadline, both before the request, and the evidence bound before the judgement of an arrival |
| Failures.FailureHasCause | src/schedule.rs:251-257 | whatever failure a run reports has had its cause at some point before which nothing had failed |
| Cooperation.AdvanceCalm | src/schedule.rs:459-539 | when the worker follows the plan, its sections spread over rounds in any way, and callbacks succeed, a call of advance leads from the calm world before its step to the one after it iff the rounds are left, and times out otherwise |
| Cooperation.CarryOut | src/schedule.rs:880-895 | with such workers the object's own methods carry every admissible plan to a passed report with the planned log iff there are threads for all actors and rounds enough for all waits together; with too few threads the outcome is a failed resource, with too few rounds a timeout |
| Merges.InCompletions | src/schedule_exploration.rs:187-234 | the paths below a position are exactly those that use up what is left within the preemption budget |
| Merges.NoDeadEnd | src/schedule_exploration.rs:212-234 | no visited prefix is without a completion |
| Shapes.ShapesAreMerges | src/schedule_exploration.rs:187-234 | a step list is a shape iff it is an order-preserving merge of the chains with at most the bound of preemptions |
| Shapes.ShapesAreDistinct | src/schedule_exploration.rs:187-234 | no shape occurs twice |
| ShapeCounting.ShapesAscend | src/schedule_exploration.rs:212-234 | the shapes are found in strict lexicographic order of the actors they move |
| ShapeCounting.MultinomialShapes | src/schedule_exploration.rs:187-234 | with a bound of at least the length the number of shapes is the multinomial coefficient |
| ShapeCounting.SerialShapes | src/schedule_exploration.rs:187-234 | with bound 0 and k non-empty chains there are k factorial shapes |
| Shapes.MergesAreAdmissible | src/schedule.rs:689-703 | every merge of well-formed chains passes admission |
| Enumeration.Enumerator.Visit | src/schedule_exploration.rs:187-234 | a visit appends a prefix of the completions below it, all of them iff still exhaustive, and restores positions and current |
| Enumeration.Enumerator.Enumerate | src/schedule_exploration.rs:401-416 | shapes is a prefix of the full list; the limit stops it exactly with cap kept and more to come |
| CanonicalBounds.CanonExact | src/schedule_exploration.rs:57-120 | canonicalisation succeeds iff levels, node count with repetitions, and map keys are in bounds, with a form independent of the counters |
| CanonicalMeaning.FormsDecide | src/schedule_exploration.rs:57-120 | two canonical forms, and their texts, are equal iff the values are equal up to set order, repetition and map order |
| CanonicalMeaning.StateKeysDecide | src/schedule_exploration.rs:121-133 | two states have the same key iff they have the same variables with semantically equal values |
| CanonicalOrder.PermutationIsIrrelevant | src/schedule_exploration.rs:57-120 | permuting set elements and map entries at any level of a value changes neither success nor result |
| CanonicalOrder.StatePermutationIsIrrelevant | src/schedule_exploration.rs:121-133 | permuting them inside the values of a state changes neither whether it has a key nor which |
| CanonicalMeaning.RepetitionCounts | src/schedule_exploration.rs:57-62 | a set of 65536 nulls is refused, the equal set of one null is not |
| CanonicalOrder.SetOrderIsIrrelevant | src/schedule_exploration.rs:88-95 | two lists with the same elements, as often, in any order, canonicalise as sets alike, error included |
| CanonicalOrder.MapOrderIsIrrelevant | src/schedule_exploration.rs:96-118 | the same for the entries of maps |
| OrderedMap.InsertEntry | src/schedule_exploration.rs:89-95 | inserting into a sorted map replaces the entry of the key and keeps all others |
| OrderedMap.GatherEqual | src/schedule_exploration.rs:89-118 | two lists without conflicts are stored alike iff they have the same entries |
| Exploring.Exploration.Cover | src/schedule_exploration.rs:522-575 | the observations are visited in order up to the first that is misnumbered or has no key, or that does not fit the bound; each gets the id of its canonical text, exactly the transitions between consecutive ids are added, and the bytes counted are those of the graph; the bound is exceeded iff the graph with all usable observations would cost more |
| Campaign.PassedIsGenuine | src/schedule_exploration.rs:463-511 | an answer is judged passed iff its receipt names this candidate and the declared actors, has a new id, is confirmed, valid and passed, and its comparison, if any or required, is about this execution and matched |
| Campaign.CategoryMeans | src/schedule_exploration.rs:268-311 | the exact condition of every category, and of the error: a comparison about something else or an inconsistent mismatch; cleanup before mismatch before comparison before the receipt's own outcome |
| Campaign.JudgementMeans | src/schedule_exploration.rs:463-521 | the judgement on an answer to this candidate is that category, unless a required comparison is missing, or success is claimed without the evidence |
| CampaignKeys.KeyOfIff | src/schedule_exploration.rs:533-549 | an observation has a key iff its state has exactly the declared variables and what is left without instrumentation can be canonicalised |
| CampaignKeys.KeysAgree | src/schedule_exploration.rs:533-549 | two observations with keys have the same one iff their states agree semantically on every variable that is no instrumentation |
| CampaignCourse.MakesOnce | src/schedule_exploration.rs:441-629 | the number of runs is determined by what the loops are given |
| CampaignCourse.ReasonNamed | src/schedule_exploration.rs:443-628 | a loop that is left early has exactly one reason, each with its exact condition: row bytes over the bound, coverage over the bound, unconfirmed cleanup, late after a run; then cancelled, late, or the run limit reached with candidates left |
| CampaignCourse.AllPassIff | src/schedule_exploration.rs:441-639 | every candidate runs and passes iff there are runs enough, neither flag nor clock interferes, rows and coverage are within their bounds, and every answer is genuine, with an id of its own and usable observations |
| CampaignCourse.StatesAreVisited | src/schedule_exploration.rs:549-562 | the states of the graph are exactly those named by a run judged passed |
| Exploring.Exploration.Evaluate | src/schedule_exploration.rs:463-584 | the runner is called once with the candidate; ids, cleanup verdict, category, transitions and the count of comparisons are those of the judgement on its answer; the coverage bound is reported iff it is exceeded or the runner says so, and the run passes iff it is judged passed, all its observations are usable and the bound allows for them |
| Exploring.Exploration.Attempt | src/schedule_exploration.rs:458-628 | one more row, judged by the runner's answer to its candidate; the loop goes on iff the row fits, the coverage bound holds, the cleanup is confirmed and it is not late, and otherwise is over for the first of these reasons |
| Exploring.Exploration.Limited | src/schedule_exploration.rs:441-457 | a run is prevented iff the flag is up, the time is up or the limit reached; the reason follows a second look at flag and clock |
| Exploring.Exploration.Run | src/schedule_exploration.rs:429-653 | as many runs are made as the inputs determine, in candidate order; the loop halts iff they say so, for the reason they give; complete iff the enumeration was exhaustive and everything from outside is flawless |
| Campaign.PassedRunIsGenuine | src/schedule_exploration.rs:475-575 | a passed row stands for a genuine receipt of its candidate with an id not used before, and its path is that of all its observations |
| Campaign.PassedRunsAreDistinct | src/schedule_exploration.rs:496-507 | two passed rows stand for two executions |
| Campaign.TrafficOfPassed | src/schedule_exploration.rs:548-572 | when all runs passed the transitions sum to runs times length |
| Campaign.CandidatesOnce | src/schedule_exploration.rs:441-446 | distinct shapes give each pair of shape and input once |
| ExplorationSpace.CheckSpace | src/schedule_exploration.rs:320-399 | a declaration is explored iff its limits, time budget, actors, chains, inputs and variables are in order |
| ExplorationSpace.CheckActors | src/schedule_exploration.rs:341-369 | the loop over the actors accepts iff names are distinct identifiers and every chain is identifiers and then `$done`, and collects all steps |
| ExplorationSpace.CheckInputs | src/schedule_exploration.rs:371-379 | the loop, which encodes a schedule with each input, accepts iff the digests are valid, each input is short and flat enough and no two inputs are equal |
| ExplorationSpace.CheckVariables | src/schedule_exploration.rs:380-399 | the loops over the variables accept iff all are identifiers, none repeats within or across the two lists, and both are within bounds |
| ExplorationSpace.DeclarationOrderIsIrrelevant | src/schedule_exploration.rs:339-340 | two declarations with the same actors in different order are explored in the same order |
| FiniteExploration.ExploreFinite | src/schedule_exploration.rs:312-661 | invalid iff the declaration is; the denominator is known iff every schedule was enumerated, which without interruption means that they are at most the limit; the runs are as many of the first candidates as the inputs determine, the counts by category and the first failure are theirs, and the stop reason is the one whose condition holds; complete iff all schedules are known and everything from outside is flawless; a complete report means that every merge within the bound was executed on every input exactly once and passed, each by its own execution with a valid receipt, and that states and transitions are those of their observations |
| FiniteExploration.CompleteIsExhaustive | src/schedule_exploration.rs:638-651 | books with all candidates passed prove exactly that |
| Receipts.JudgedAsItRan | src/schedule_exploration.rs:236-311 | the campaign judges the receipt of an actual execution of its candidate as passed iff the execution has passed |
| BindingSession.Session.Initialize | src/schedule_binding.rs:67-103 | the exact condition of each of its faults: disposed or 64 initializations, a previous execution that has not passed or is not on record in full, a new one that fails; otherwise it is fine; a blocked session never acquires again |
| BindingSession.Session.FinishPrevious | src/schedule_binding.rs:74-86 | the previous execution is finished, recorded, and let go iff it passed and its record is complete |
| BindingSession.Session.Retain | src/schedule_binding.rs:49-66 | one record per execution, added to the ledger as a counted receipt or, beyond 16 MiB, as a placeholder |
| BindingSession.Session.Advance | src/schedule_binding.rs:104-122 | a lifecycle fault iff disposed, not initialized or closed; otherwise an interval fault iff the environment leads the call to a failure; a successful call leaves the execution completed so far with the planned log |
| BindingSession.Session.Observation | src/schedule_binding.rs:123-140 | while the execution has not failed there always is an observation, and it is the one after the steps taken so far |
| BindingSession.Session.Dispose | src/schedule_binding.rs:141-169 | one disposal, one record per initialization, and repeated calls repeat the first answer, which is a success iff there was no execution, or its cleanup is confirmed and all records are complete |
| BindingSession.Session.RetryCleanup | src/schedule_binding.rs:172-204 | succeeds iff disposed with confirmed cleanup, then renews the last record; never turns fully_completed from false to true, unblocks nothing, and keeps the count exact iff RetryExactness says so |
| BindingSession.Session.Renew | src/schedule_binding.rs:190-202 | the new ledger has the present receipt as its last record and the saturating recount, or is incomplete when that is over the bound |
| BindingSession.Session.FullyCompletedMeans | src/schedule_binding.rs:223-230 | a fully completed session has on record every execution it opened, each of them passed with the planned log, and has counted every byte |
| BindingSession.RetryExactness | src/schedule_binding.rs:190-202 | after a retry the count is the sum of the receipts iff it was before, and the receipt did not fit, or the last record was a receipt, or nothing had been counted |
| BindingSession.RenewedNote | src/schedule_binding.rs:193-197 | over a renewed placeholder the receipts sum to the old count plus the new receipt, and the count falls short of that by the placeholder's 62 bytes, or by the whole old count if smaller |
| BindingSession.Undercount | src/schedule_binding.rs:67-204 | for every admissible plan, two passed executions, a refused one, disposal and a retry lead to a session whose receipts sum to more than 16 MiB and 62 more than counted |
| JsonText.ReadNumberSound | src/json.rs:110-155 | what is read as a number is a number of RFC 8259 section 6 |
| JsonText.ReadNumberComplete | src/json.rs:110-155 | every number is read in full, up to what may follow a value |
| JsonString.ScanComplete | src/json.rs:92-108 | a literal whose body decodes ends at its own quote |
| JsonString.DecodeEscape | src/json.rs:99-100 | decoding undoes the compact printer's escapes for every text |
| JsonEscapes.DecodeIff | src/json.rs:99-107 | the body of a literal is decoded to a text iff it is made of plain characters, two-character escapes, escaped code points and surrogate pairs that stand for it, in UTF-8 |
| JsonEscapes.Utf8Iff | src/json.rs:99-107 | a code point is written as the bytes that RFC 3629 gives it |
| JsonAcceptance.AcceptsExactly | src/json.rs:12-28 | a text is accepted as j iff it fits the bytes and derives from the grammar as j within depth, node and duplicate-key limits |
| JsonAcceptance.AcceptedIsBounded | src/json.rs:51-72 | every accepted tree is within the depth and node limits, with valid numbers and sorted distinct keys |
| JsonAcceptance.ParseWritten | src/json.rs:12-28 | a text written with object members in any order is read as the tree with its members in key order, or, iff text or tree is over the limits, refused |
| JsonAcceptance.ParsePrint | src/json.rs:12-28 | the parser returns a tree from its compact text, or refuses iff text or tree is over the limits |
| JsonAcceptance.PrintInjective | src/schedule_exploration.rs:92-111 | different trees have different compact texts |
| JsonAcceptance.ReadPrintRead | src/json.rs:12-28 | reading, printing and reading again changes nothing |
| JsonSoundness.SoundValue | src/json.rs:51-90 | every value read has a derivation at that place that denotes it and accounts for cursor, nodes and depth |
| JsonSoundness.SoundMembers | src/json.rs:188-212 | the same for the members of an object, keys distinct where asked |
| JsonCompleteness.CompleteValue | src/json.rs:51-90 | every derivation within the limits is read, with white space before it, as what it denotes |
| JsonCompleteness.CompleteMembers | src/json.rs:188-212 | the same for the members of an object |
| JsonParser.Parse | src/json.rs:12-28 | the imperative parser computes the reader's result |
| JsonParser.Parser.Value | src/json.rs:51-90 | result, cursor and node counter are the reader's |
| JsonParser.Parser.StringLiteral | src/json.rs:92-108 | result and cursor are those of the string reader |
| JsonParser.Parser.Number | src/json.rs:110-155 | result and cursor are those of the number reader |
| JsonParser.Parser.Array | src/json.rs:157-177 | result, cursor and node counter are the reader's |
| JsonParser.Parser.Object | src/json.rs:179-213 | result, cursor and node counter are the reader's, duplicates refused through the key set |
| JsonParser.Parser.SkipWs | src/json.rs:42-49 | the cursor moves to the first character that is no white space |
| JsonParser.Parser.Literal | src/json.rs:215-222 | the word is consumed iff it is there |
| Numbers.NumberToBigint | src/protocol.rs:443-481 | the buffer-editing conversion computes the conversion function, overflow included |
| Numbers.ConversionIsExact | src/protocol.rs:443-481 | for every RFC 8259 number, exactly when conversion succeeds and with which value |
| Numbers.ReturnedValue | src/protocol.rs:443-481 | a returned integer is mantissa times ten to the exponent |
| Numbers.ZeroWithLongExponentIsRejected | src/protocol.rs:461-467 | 0e-5 is rejected |
| Numbers.ParseText | src/protocol.rs:75-75 | an integer's text parses back to it |
| ItfForms.ConvertedIff | src/protocol.rs:443-481 | a number is converted to v iff it is within the digit bounds and denotes v |
| ItfForms.ParsedIff | src/protocol.rs:393-401 | a `#bigint` text is read as v iff it is an optional sign and digits with underscores, not leading, that spell v; empty texts, a second sign and the like are refused |
| ItfForms.WalkIff | src/protocol.rs:383-441 | a JSON tree is decoded to a value iff it is a form of that value: a bare number that denotes it, or the tagged, plain or nested forms that the format has |
| ItfForms.RefusedIff | src/protocol.rs:383-441 | everything that is a form of no value is refused |
| ItfForms.EncodeIsForm | src/protocol.rs:73-101 | what is encoded is a form of the value, if no record inside it is marker-shaped |
| ValueRoundTrip.RoundTrip | src/protocol.rs:73-101 | a value survives encoding and decoding iff no record inside it is marker-shaped |
| ValueRoundTrip.WalkedIsPlain | src/protocol.rs:383-441 | decoding never yields a marker-shaped record |
| ValueRoundTrip.DecodedRoundTrips | src/protocol.rs:383-441 | whatever was decoded is given back by encoding and decoding once more |
| ValueRoundTrip.EncodeInjective | src/protocol.rs:73-101 | the encoding tells surviving values apart |
| ValueRoundTrip.MarkerShape | src/protocol.rs:392-434 | an encoded record is read as something tagged iff it is marker-shaped |
| ValueRoundTrip.MarkerRecordIsLost | src/protocol.rs:393-401 | the record {"#bigint": "5"} reads back as the number 5 |
| SpecScanner.DependencyTokens | src/spec.rs:22-83 | the one-pass scanner yields the identifiers and commas of the source with comments and strings blanked out |
| SpecPositions.BlankByPosition | src/spec.rs:22-83 | a character is blanked out iff it lies in a comment or string that begins outside of any other |
| SpecPositions.LineEnds | src/spec.rs:40-46 | a line comment ends at the first line feed |
| SpecPositions.StringEnds | src/spec.rs:52-65 | a string ends at the first quote that is not escaped |
| SpecPositions.BlockEnds | src/spec.rs:28-39 | a block comment ends where as many have been closed as opened |
| SpecPositions.TokensByPosition | src/spec.rs:66-80 | the tokens are the commas and the longest words, in order, none inside another |
| SpecPositions.NamedByPosition | src/spec.rs:85-105 | the names are the tokens at import positions, in order and as often: no comma, and directly behind a clause head, or reached from an `EXTENDS` head by names and commas in turn; a keyword that is itself taken as a name is no head |
| SpecPositions.ImportedIff | src/spec.rs:85-108 | a name is imported iff it is at such a position and no builtin |
| SpecScanner.OutsideStep | src/spec.rs:40-80 | one turn outside block comments yields at most one token and leaves the rest of the tokens |
| SpecScanner.ImportNames | src/spec.rs:85-108 | the imported names are those the token list gives after EXTENDS and INSTANCE, without builtins |
| SpecScanner.Continuation | src/spec.rs:94-97 | the inner loop takes exactly the comma-separated continuation |
| SpecScanner.ContentsDoNotMatter | src/spec.rs:22-83 | replacing a comment or string by any other changes no import |
| SpecScanner.RetainedNames | src/spec.rs:106-107 | exactly the builtin names are dropped |
| SpecClosure.ResolveModule | src/spec.rs:110-144 | a name resolves to a path iff some candidate exists and all candidates are that one file |
| SpecClosure.SpecFromFiles | src/spec.rs:152-198 | fails iff something reachable is missing, ambiguous or unreadable; otherwise the sources of exactly the reachable modules, once each, root first, by least import distance; terminates |
| SpecClosure.SearchEnds | src/spec.rs:183-197 | an empty queue means that the closure is complete, ordered and unbroken |
| SpecClosure.AllFound | src/spec.rs:183-195 | whatever is k imports away has been found at distance at most k |
| Stepping.RunSteppingLoop | src/client.rs:433-488 | the states delivered and the ending are the fold over the mirror's messages; each report follows its computation and that its request, and nothing follows a terminal message, a failed computation or an undelivered report |
| Stepping.LoopEndsIff | src/client.rs:433-488 | the exact condition of every ending, with the action and parameters that a mismatch names, by position in the messages |
| Stepping.SentStates | src/client.rs:441-456 | each state sent answers its request, computed from nothing at an initial state and else from the state sent last, until requests run out or a computation or report fails |
| Stepping.AnsweredAt | src/client.rs:446-456 | the same at every single position |
| Stepping.NothingAfterTerminal | src/client.rs:459-486 | whatever follows a terminal message has no influence |
| Stepping.DoneMeans | src/client.rs:459-459 | the loop succeeds iff every request is answered and the first terminal message is all-steps-done |
| Negotiation.FoundIsUnique | src/model_interface.rs:214-232 | an adapter is found iff it alone is registered under the exact key |
| Negotiation.ResolutionMeans | src/model_interface.rs:214-271 | when a key resolves to which adapter, is ambiguous, or fails with which code |
| Negotiation.AuthorizationIsExact | src/model_interface.rs:1290-1497 | when a first reply permits a factory, registered or by fallback, and when it is refused with which code |
| Negotiation.RunNegotiated | src/model_interface.rs:1505-1578 | the result, with the exact condition of success and of every failure code; and the log of the run: exactly the events that these conditions call for, nothing twice, a factory only after a reply that permits it, check, stepping loop and disposal only with a binding, stepping only after a passed check, disposal last, the primary error reported first |
| Negotiation.SuccessMeans | src/model_interface.rs:1554-1577 | success means exact match or allowed fallback, every request answered, all-steps-done, and disposal |
| Negotiation.OneResult | src/model_interface.rs:1505-1578 | the conditions determine the result |

## Left out

- Operating-system threads, mutex poisoning and condition variables: critical sections are atomic steps, waits are rounds with a tick budget, and cancellation and deadline are steps that may come at any time.
- Inside `Execution`, other threads act at the points where the source releases its lock, from a given list of sections; all interleavings are covered by the transition system itself.
- Execution.Execution.Discard: takes application code that is asked to stop to return; `Drop` blocks for ever otherwise.
- `check_owner`, calls from inside callbacks and unusable cleanup budgets: these refusals happen before any state is touched.
- Panics of callbacks count as their error results; the size of an evidence row, receipt or campaign row is a parameter.
- Execution ids, generations and SHA-256 digests are given; ids and digests are checked for form, ids in receipts also for freshness.
- Sockets, TLS, child processes and registry discovery (`src/transport.rs`, `src/registry.rs`).
- Serde encodings of messages, receipts and configurations (that of a schedule is modelled), error messages, and the pretty printers.
- Field-by-field checks of contracts, metadata and negotiation replies: one verdict each in Negotiation.Selection and Negotiation.Authorize, and replies other than `spec_validated` are told apart only by the text they carry.
- The duplicate strict parser and number validation in `src/model_interface.rs`, which nothing reaches.
- Values.Walk: an overflow of the 64-bit exponent arithmetic counts as an error; the source panics or wraps there depending on its build.
- Numbers.ToBigint: allocation limits for very long runs of zeros.
- ScheduleText.ReadDocument: a tree read into a tree is unchanged; serde_json takes an object with its private number key for a number.
- `firstCounterexample`, the receipt accessor of the session, and the evidence document of a replay.
- SpecClosure.SpecFromFiles: the file system does not change during the search, and the root's canonical path is given.
- JsonReader.ReadValue: integers are unbounded; the source's counters are bounded by the text's length.
