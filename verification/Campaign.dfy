// A finite exploration (explore_finite, src/schedule_exploration.rs:236-653): every enumerated
// schedule is run on every input, and the verdict is drawn from the books kept on the way.
module Campaign {
  import opened Wrappers
  import opened Schedule
  import opened ScheduleSafety
  import opened Values
  import opened Canonical
  import JsonTree
  import ScheduleText

  const COVERAGE_BOUND := 8388608

  // ------------------------------------------------------ what a runner hands back

  // What a runner is asked to execute.
  datatype Candidate = Candidate(identity: ScheduleText.Identity, input: JsonTree.Json, steps: seq<Step>)

  // An execution receipt. A state that cannot be decoded is None.
  datatype Receipt = Receipt(schema: string, schedule: Candidate, actors: seq<Declaration>, id: string, cleanup: Cleanup,
                             remaining: seq<string>, passed: bool, scheduleCompleted: bool, outcome: Outcome,
                             events: seq<Event>, observations: seq<Sight>)

  datatype Sight = Sight(afterSteps: nat, state: Option<seq<Field>>)

  datatype Verdict = StepMismatch | Matched | OtherVerdict

  // The comparison document of one replay, with the executions it is about.
  datatype Comparison = Comparison(schema: string, executions: seq<Receipt>, verdict: Verdict, passed: bool,
                                   terminalMismatch: bool, clientMismatch: bool)

  datatype Answer = RunnerFailed(message: string) | RunnerPanicked | Sample(receipt: Receipt, comparison: Option<Comparison>)

  const EXECUTION_SCHEMA := "mirrors.checkpoint-execution/v1"
  const COMPARISON_SCHEMA := "mirrors.scheduled-comparison/v1"
  // The message of the byte bound, by which the run loop recognises it.
  const COVERAGE_MESSAGE := "coverage byte bound exceeded"

  datatype Category = PassedRun | ModelMismatch | ComparisonFailed | CleanupFailed | TimedOutRun | CancelledRun | ScheduleFailed
    | ExecutionFailed | ComparisonMissing | EvidenceFailed

  predicate About(c: Comparison, e: Receipt) { c.schema == COMPARISON_SCHEMA && c.executions == [e] }

  // category: None when the comparison is not about this execution or contradicts itself.
  function CategoryOf(e: Receipt, c: Option<Comparison>): Option<Category> {
    if c.Some? && !About(c.value, e) then None
    else if c.Some? && c.value.verdict.StepMismatch? && !(c.value.terminalMismatch && !c.value.passed && c.value.clientMismatch)
    then None
    else if e.cleanup != Confirmed || e.remaining != [] then Some(CleanupFailed)
    else if c.Some? && c.value.verdict.StepMismatch? then Some(ModelMismatch)
    else if c.Some? && !(c.value.verdict.Matched? && c.value.passed) then Some(ComparisonFailed)
    else if e.passed then Some(PassedRun)
    else match e.outcome
      case TimedOut => Some(TimedOutRun)
      case Cancelled => Some(CancelledRun)
      case UnexpectedCheckpoint => Some(ScheduleFailed)
      case InvalidSchedule => Some(ScheduleFailed)
      case IncompatibleIdentity => Some(ScheduleFailed)
      case _ => Some(ExecutionFailed)
  }

  // validate_success
  predicate ValidReceipt(e: Receipt, steps: seq<Step>) {
    ValidSuccess(e.scheduleCompleted, e.outcome, e.events, |e.observations|, steps)
  }

  predicate LowerHex(c: char) { '0' <= c <= '9' || 'a' <= c <= 'f' }

  predicate ExecutionId(id: string) { |id| == 32 && forall i :: 0 <= i < |id| ==> LowerHex(id[i]) }

  // ------------------------------------------------------ the judgement on one answer

  // What is declared once for all runs.
  datatype Space = Space(identity: ScheduleText.Identity, inputs: seq<JsonTree.Json>, actors: seq<Declaration>, variables: seq<string>,
                         ignored: seq<string>, requireComparison: bool)

  function CandidateOf(space: Space, steps: seq<Step>, input: nat): Candidate
    requires input < |space.inputs|
  {
    Candidate(space.identity, space.inputs[input], steps)
  }

  // The receipt declares exactly the actors of the space, each once.
  predicate SameActors(actors: seq<Declaration>, declared: seq<Declaration>) {
    && (forall i, j :: 0 <= i < j < |actors| ==> actors[i].actor != actors[j].actor)
    && (set d | d in actors) == (set d | d in declared)
  }

  // The receipt is about this candidate and nothing seen before.
  predicate Acceptable(space: Space, a: Answer, c: Candidate, used: set<string>) {
    && a.Sample?
    && a.receipt.schema == EXECUTION_SCHEMA && a.receipt.schedule == c && SameActors(a.receipt.actors, space.actors)
    && ExecutionId(a.receipt.id) && a.receipt.id !in used
  }

  // The ids in use afterwards.
  function UsedAfter(space: Space, a: Answer, c: Candidate, used: set<string>): set<string> {
    if Acceptable(space, a, c, used) then used + {a.receipt.id} else used
  }

  // The answer is known to have given back its workers.
  predicate CleanupKnown(space: Space, a: Answer, c: Candidate, used: set<string>) {
    Acceptable(space, a, c, used) && a.receipt.cleanup == Confirmed && a.receipt.remaining == []
  }

  // The category an accepted answer deserves before its observations are looked at; None is an error.
  function Assessed(space: Space, a: Answer, c: Candidate): Option<Category>
    requires a.Sample?
  {
    var k := CategoryOf(a.receipt, a.comparison);
    if k.None? then None
    else if a.comparison.None? && space.requireComparison then Some(ComparisonMissing)
    else if k.value == PassedRun && !ValidReceipt(a.receipt, c.steps) then None
    else k
  }

  function Judge(space: Space, a: Answer, c: Candidate, used: set<string>): Option<Category> {
    if !Acceptable(space, a, c, used) then None else Assessed(space, a, c)
  }

  // What a run that counts as passed has to show for it.
  predicate Genuine(space: Space, a: Answer, c: Candidate) {
    && a.Sample? && a.receipt.passed
    && a.receipt.schema == EXECUTION_SCHEMA && a.receipt.schedule == c && SameActors(a.receipt.actors, space.actors)
    && ExecutionId(a.receipt.id)
    && a.receipt.cleanup == Confirmed && a.receipt.remaining == []
    && ValidReceipt(a.receipt, c.steps)
    && (space.requireComparison ==> a.comparison.Some?)
    && (a.comparison.Some? ==>
          About(a.comparison.value, a.receipt) && a.comparison.value.verdict == Matched && a.comparison.value.passed)
  }

  // Only genuine answers are judged passed, and every genuine one with a new id is.
  lemma {:induction false} PassedIsGenuine(space: Space, a: Answer, c: Candidate, used: set<string>)
    ensures Judge(space, a, c, used) == Some(PassedRun) <==> Genuine(space, a, c) && a.receipt.id !in used
  {
    hide ValidReceipt, ExecutionId, SameActors;
  }

  // The comparison, if there is one, is about this execution; and if it reports a step mismatch,
  // the peer and the client have both seen one, and it does not count as passed.
  predicate Coherent(e: Receipt, c: Option<Comparison>) {
    c.Some? ==>
      && About(c.value, e)
      && (c.value.verdict.StepMismatch? ==> c.value.terminalMismatch && c.value.clientMismatch && !c.value.passed)
  }

  predicate Tidy(e: Receipt) { e.cleanup == Confirmed && e.remaining == [] }

  predicate Mismatched(c: Option<Comparison>) { c.Some? && c.value.verdict.StepMismatch? }

  predicate Favourable(c: Option<Comparison>) { c.Some? ==> c.value.verdict.Matched? && c.value.passed }

  // A failure that the receipt itself reports, nothing else being wrong.
  predicate FailedAlone(e: Receipt, c: Option<Comparison>) {
    Coherent(e, c) && Tidy(e) && Favourable(c) && !e.passed
  }

  // When an outcome gets which category.
  lemma {:induction false} CategoryMeans(e: Receipt, c: Option<Comparison>)
    ensures CategoryOf(e, c).None? <==> !Coherent(e, c)
    ensures CategoryOf(e, c) == Some(CleanupFailed) <==> Coherent(e, c) && !Tidy(e)
    ensures CategoryOf(e, c) == Some(ModelMismatch) <==> Coherent(e, c) && Tidy(e) && Mismatched(c)
    ensures CategoryOf(e, c) == Some(ComparisonFailed) <==> Coherent(e, c) && Tidy(e) && !Mismatched(c) && !Favourable(c)
    ensures CategoryOf(e, c) == Some(PassedRun) <==> Coherent(e, c) && Tidy(e) && Favourable(c) && e.passed
    ensures CategoryOf(e, c) == Some(TimedOutRun) <==> FailedAlone(e, c) && e.outcome == TimedOut
    ensures CategoryOf(e, c) == Some(CancelledRun) <==> FailedAlone(e, c) && e.outcome == Cancelled
    ensures CategoryOf(e, c) == Some(ScheduleFailed) <==>
              FailedAlone(e, c) && e.outcome in {UnexpectedCheckpoint, InvalidSchedule, IncompatibleIdentity}
    ensures CategoryOf(e, c) == Some(ExecutionFailed) <==>
              FailedAlone(e, c) && e.outcome !in {TimedOut, Cancelled, UnexpectedCheckpoint, InvalidSchedule, IncompatibleIdentity}
    ensures CategoryOf(e, c) != Some(ComparisonMissing) && CategoryOf(e, c) != Some(EvidenceFailed)
  {
    hide About;
  }

  // The judgement is that category, for an answer to this very candidate, unless a comparison is
  // required and missing, or the receipt claims to have passed without the evidence.
  lemma {:induction false} JudgementMeans(space: Space, a: Answer, c: Candidate, used: set<string>, k: Category)
    ensures Judge(space, a, c, used) == Some(ComparisonMissing) <==>
              Acceptable(space, a, c, used) && a.comparison.None? && space.requireComparison
    ensures k != ComparisonMissing ==>
              (Judge(space, a, c, used) == Some(k) <==>
                && Acceptable(space, a, c, used) && !(a.comparison.None? && space.requireComparison)
                && CategoryOf(a.receipt, a.comparison) == Some(k) && (k == PassedRun ==> ValidReceipt(a.receipt, c.steps)))
  {
    hide CategoryOf, ValidReceipt, ExecutionId, SameActors, Coherent;
    if a.Sample? {
      CategoryMeans(a.receipt, a.comparison);
      if a.comparison.None? { NothingToCompare(a.receipt); }
    }
  }

  lemma {:induction false} NothingToCompare(e: Receipt)
    ensures Coherent(e, None)
  {
  }

  // ------------------------------------------------------ projection of states

  predicate HasField(s: seq<Field>, name: string) { exists i :: 0 <= i < |s| && s[i].name == name }

  function RemoveField(s: seq<Field>, name: string): seq<Field> {
    if s == [] then [] else if s[0].name == name then s[1..] else [s[0]] + RemoveField(s[1..], name)
  }

  function Removed(s: seq<Field>, names: seq<string>): Option<seq<Field>>
    decreases |names|
  {
    if names == [] then Some(s)
    else if !HasField(s, names[0]) then None
    else Removed(RemoveField(s, names[0]), names[1..])
  }

  // The state without its instrumentation variables; None unless it has just the declared ones.
  function Projected(s: seq<Field>, variables: seq<string>, ignored: seq<string>): Option<seq<Field>> {
    if |s| != |variables| + |ignored| then None
    else
      var kept := Removed(s, ignored);
      if kept.None? || exists i :: 0 <= i < |variables| && !HasField(kept.value, variables[i]) then None else kept
  }

  // The coverage key of an observed state.
  function KeyOf(o: Sight, variables: seq<string>, ignored: seq<string>): Option<string> {
    if o.state.None? then None
    else
      var p := Projected(o.state.value, variables, ignored);
      if p.None? then None else CanonState(p.value)
  }

  // ------------------------------------------------------ runs and their order

  datatype Row = Row(ordinal: nat, input: nat, candidate: Candidate, category: Category, confirmed: bool, omitted: bool)

  function Tag(r: Row): (seq<Step>, nat) { (r.candidate.steps, r.input) }

  function Tags(runs: seq<Row>): (t: seq<(seq<Step>, nat)>)
    ensures |t| == |runs| && forall i :: 0 <= i < |runs| ==> t[i] == Tag(runs[i])
  {
    seq(|runs|, i requires 0 <= i < |runs| => Tag(runs[i]))
  }

  function Categories(runs: seq<Row>): multiset<Category> {
    if runs == [] then multiset{} else Categories(runs[..|runs| - 1]) + multiset{runs[|runs| - 1].category}
  }

  predicate AllPassed(runs: seq<Row>) { forall i :: 0 <= i < |runs| ==> runs[i].category == PassedRun }

  // Ordinals count the runs.
  predicate InOrder(runs: seq<Row>) { forall k :: 0 <= k < |runs| ==> runs[k].ordinal == k }

  // Every execution has given back its workers, and every row is kept in full.
  predicate Clean(runs: seq<Row>) { forall k :: 0 <= k < |runs| ==> runs[k].confirmed && !runs[k].omitted }

  // The first run that did not pass.
  predicate FirstFailure(runs: seq<Row>, first: Option<nat>) {
    match first
    case None => AllPassed(runs)
    case Some(f) => f < |runs| && runs[f].category != PassedRun && forall k :: 0 <= k < f ==> runs[k].category == PassedRun
  }

  lemma {:induction false} Pushed(runs: seq<Row>, r: Row, first: Option<nat>)
    requires InOrder(runs) && r.ordinal == |runs| && FirstFailure(runs, first)
    ensures InOrder(runs + [r]) && (runs + [r])[..|runs + [r]| - 1] == runs
    ensures r.confirmed && !r.omitted && Clean(runs) ==> Clean(runs + [r])
    ensures FirstFailure(runs + [r], if r.category != PassedRun && first.None? then Some(|runs|) else first)
    ensures Categories(runs + [r]) == Categories(runs) + multiset{r.category}
    ensures Tags(runs + [r]) == Tags(runs) + [Tag(r)]
    ensures AllPassed(runs + [r]) <==> AllPassed(runs) && r.category == PassedRun
  {
    assert (runs + [r])[..|runs|] == runs;
  }

  lemma {:induction false} CategoryCounts(runs: seq<Row>)
    ensures |Categories(runs)| == |runs| && Categories(runs)[PassedRun] <= |runs|
    ensures AllPassed(runs) <==> Categories(runs)[PassedRun] == |runs|
  {
    if runs != [] {
      CategoryCounts(runs[..|runs| - 1]);
      assert runs == runs[..|runs| - 1] + [runs[|runs| - 1]];
    }
  }

  // The candidates: each shape with each input, in order.
  function WithInputs(shape: seq<Step>, n: nat): (r: seq<(seq<Step>, nat)>)
    ensures |r| == n && forall i :: 0 <= i < n ==> r[i] == (shape, i)
  {
    seq(n, i => (shape, i))
  }

  function Candidates(shapes: seq<seq<Step>>, n: nat): (r: seq<(seq<Step>, nat)>)
    ensures |r| == |shapes| * n
  {
    if shapes == [] then [] else Candidates(shapes[..|shapes| - 1], n) + WithInputs(shapes[|shapes| - 1], n)
  }

  lemma {:induction false} InCandidates(shapes: seq<seq<Step>>, n: nat, c: (seq<Step>, nat))
    ensures c in Candidates(shapes, n) <==> c.0 in shapes && c.1 < n
  {
    if shapes != [] {
      var front, last := shapes[..|shapes| - 1], shapes[|shapes| - 1];
      InCandidates(front, n, c);
      assert shapes == front + [last];
      if c.0 == last && c.1 < n { assert WithInputs(last, n)[c.1] == c; }
    }
  }

  predicate NoDuplicates<T(==)>(s: seq<T>) { forall i, j :: 0 <= i < j < |s| ==> s[i] != s[j] }

  lemma {:induction false} CandidatesOnce(shapes: seq<seq<Step>>, n: nat)
    requires NoDuplicates(shapes)
    ensures NoDuplicates(Candidates(shapes, n))
  {
    if shapes != [] {
      var front, last := shapes[..|shapes| - 1], shapes[|shapes| - 1];
      CandidatesOnce(front, n);
      var a: seq<(seq<Step>, nat)>, b: seq<(seq<Step>, nat)> := Candidates(front, n), WithInputs(last, n);
      forall i, j | 0 <= i < j < |a + b| ensures (a + b)[i] != (a + b)[j] {
        if i < |a| <= j {
          InCandidates(front, n, a[i]);
          assert a[i] in a;
          assert last !in front;
        }
      }
    }
  }

  lemma {:induction false} CandidatesGrow(shapes: seq<seq<Step>>, k: nat, n: nat)
    requires k < |shapes|
    ensures Candidates(shapes[..k + 1], n) == Candidates(shapes[..k], n) + WithInputs(shapes[k], n)
    ensures Candidates(shapes[..k], n) + WithInputs(shapes[k], n) <= Candidates(shapes, n)
    decreases |shapes| - k
  {
    assert shapes[..k + 1][..k] == shapes[..k];
    if k + 1 < |shapes| {
      CandidatesGrow(shapes, k + 1, n);
    } else {
      assert shapes[..k + 1] == shapes;
    }
  }

  // ------------------------------------------------------ transitions

  // The transitions between states visited in this order, each as often as it is made.
  function Transitions(ids: seq<nat>): (t: multiset<(nat, nat)>)
    ensures |t| == (if ids == [] then 0 else |ids| - 1)
  {
    if |ids| < 2 then multiset{} else Transitions(ids[..|ids| - 1]) + multiset{(ids[|ids| - 2], ids[|ids| - 1])}
  }

  lemma {:induction false} TransitionsPush(ids: seq<nat>, id: nat)
    ensures Transitions(ids + [id]) == if ids == [] then multiset{} else Transitions(ids) + multiset{(ids[|ids| - 1], id)}
  {
    assert (ids + [id])[..|ids|] == ids;
  }

  // The transition from the state before, if both are there.
  function Hop(from: Option<nat>, to: Option<nat>): multiset<(nat, nat)> {
    if from.Some? && to.Some? then multiset{(from.value, to.value)} else multiset{}
  }

  // The observations made so far are the states with these ids, in this order.
  ghost predicate Covered(observations: seq<Sight>, ids: seq<nat>, rows: seq<string>, variables: seq<string>,
                          ignored: seq<string>) {
    |ids| <= |observations| && forall j :: 0 <= j < |ids| ==>
      && ids[j] < |rows| && observations[j].afterSteps == j && KeyOf(observations[j], variables, ignored) == Some(rows[ids[j]])
  }

  lemma {:induction false} CoveredNone(observations: seq<Sight>, rows: seq<string>, variables: seq<string>, ignored: seq<string>)
    ensures Covered(observations, [], rows, variables, ignored) && Transitions([]) == multiset{}
  {
  }

  lemma {:induction false} CoveredPush(observations: seq<Sight>, ids: seq<nat>, rows: seq<string>, more: seq<string>,
                                       variables: seq<string>, ignored: seq<string>, id: nat)
    requires Covered(observations, ids, rows, variables, ignored) && rows <= more && |ids| < |observations| && id < |more|
    requires observations[|ids|].afterSteps == |ids|
    requires KeyOf(observations[|ids|], variables, ignored) == Some(more[id])
    ensures Covered(observations, ids + [id], more, variables, ignored)
  {
    hide KeyOf;
  }

  lemma {:induction false} CoveredMore(observations: seq<Sight>, ids: seq<nat>, rows: seq<string>, more: seq<string>,
                                       variables: seq<string>, ignored: seq<string>)
    requires Covered(observations, ids, rows, variables, ignored) && rows <= more
    ensures Covered(observations, ids, more, variables, ignored)
  {
    hide KeyOf;
  }

  // The transitions of all runs together.
  function Traffic(paths: seq<seq<nat>>): multiset<(nat, nat)> {
    if paths == [] then multiset{} else Traffic(paths[..|paths| - 1]) + Transitions(paths[|paths| - 1])
  }

  // ------------------------------------------------------ rows and answers

  // The world outside: what the runner answers to each call, how large its row is, and from which
  // look at it on the caller's flag is up, and the deadline gone by.
  datatype Oracle = Oracle(answers: (nat, Candidate) -> Answer, rowBytes: nat -> nat, cancelAt: Option<nat>, lateAt: Option<nat>)

  predicate FlagUp(o: Oracle, look: nat) { o.cancelAt.Some? && o.cancelAt.value <= look }

  predicate TimeUp(o: Oracle, look: nat) { o.lateAt.Some? && o.lateAt.value <= look }

  function AnswerTo(oracle: Oracle, r: Row): Answer { oracle.answers(r.ordinal, r.candidate) }

  function Sights(a: Answer): seq<Sight> { if a.Sample? then a.receipt.observations else [] }

  // The category of a run whose observations got the ids of this path, as far as they went.
  function CategoryAfter(judged: Option<Category>, a: Answer, path: seq<nat>): Category {
    if judged.None? then EvidenceFailed
    else if judged == Some(PassedRun) && |path| != |Sights(a)| then EvidenceFailed
    else judged.value
  }

  // The ids in use after these runs.
  function Used(space: Space, oracle: Oracle, runs: seq<Row>): set<string> {
    if runs == [] then {}
    else
      var front, last := runs[..|runs| - 1], runs[|runs| - 1];
      UsedAfter(space, AnswerTo(oracle, last), last.candidate, Used(space, oracle, front))
  }

  // A row says about the runner's answer to its candidate what the judgement says, and only the
  // observations of an answer that is judged passed have left a path.
  ghost predicate RowJudged(space: Space, oracle: Oracle, r: Row, used: set<string>, path: seq<nat>, states: seq<string>) {
    var a := AnswerTo(oracle, r);
    var judged := Judge(space, a, r.candidate, used);
    && r.input < |space.inputs| && r.candidate == CandidateOf(space, r.candidate.steps, r.input)
    && r.confirmed == CleanupKnown(space, a, r.candidate, used)
    && r.category == CategoryAfter(judged, a, path)
    && (if judged == Some(PassedRun) then Covered(Sights(a), path, states, space.variables, space.ignored) else path == [])
  }

  ghost predicate Judged(space: Space, oracle: Oracle, runs: seq<Row>, paths: seq<seq<nat>>, states: seq<string>) {
    && |paths| == |runs|
    && (runs != [] ==>
          var k := |runs| - 1;
          && Judged(space, oracle, runs[..k], paths[..k], states)
          && RowJudged(space, oracle, runs[k], Used(space, oracle, runs[..k]), paths[k], states))
  }

  // Rows, paths, transitions and ids belong together.
  ghost predicate Recorded(space: Space, oracle: Oracle, runs: seq<Row>, paths: seq<seq<nat>>, states: seq<string>,
                           edges: multiset<(nat, nat)>, used: set<string>) {
    && Judged(space, oracle, runs, paths, states) && edges == Traffic(paths) && used == Used(space, oracle, runs)
  }

  // The same with a run whose row is still to be written.
  ghost predicate Pending(space: Space, oracle: Oracle, runs: seq<Row>, r: Row, paths: seq<seq<nat>>, path: seq<nat>,
                          states: seq<string>, edges: multiset<(nat, nat)>, used: set<string>) {
    && Judged(space, oracle, runs, paths, states)
    && RowJudged(space, oracle, r, Used(space, oracle, runs), path, states)
    && edges == Traffic(paths) + Transitions(path)
    && used == UsedAfter(space, AnswerTo(oracle, r), r.candidate, Used(space, oracle, runs))
  }

  lemma {:induction false} JudgedMore(space: Space, oracle: Oracle, runs: seq<Row>, paths: seq<seq<nat>>,
                                      states: seq<string>, more: seq<string>)
    requires Judged(space, oracle, runs, paths, states) && states <= more
    ensures Judged(space, oracle, runs, paths, more)
  {
    hide Judge, Covered, Used, CleanupKnown, CategoryAfter, CandidateOf;
    if runs != [] {
      var k := |runs| - 1;
      JudgedMore(space, oracle, runs[..k], paths[..k], states, more);
      var a := AnswerTo(oracle, runs[k]);
      if Judge(space, a, runs[k].candidate, Used(space, oracle, runs[..k])) == Some(PassedRun) {
        CoveredMore(Sights(a), paths[k], states, more, space.variables, space.ignored);
      }
    }
  }

  lemma {:induction false} RecordedPending(space: Space, oracle: Oracle, runs: seq<Row>, r: Row, paths: seq<seq<nat>>, path: seq<nat>,
                                           states: seq<string>, more: seq<string>, edges: multiset<(nat, nat)>, used: set<string>)
    requires Recorded(space, oracle, runs, paths, states, edges, used) && states <= more
    requires RowJudged(space, oracle, r, used, path, more)
    ensures Pending(space, oracle, runs, r, paths, path, more, edges + Transitions(path),
                    UsedAfter(space, AnswerTo(oracle, r), r.candidate, used))
  {
    hide RowJudged, Transitions, UsedAfter, Used, Traffic;
    JudgedMore(space, oracle, runs, paths, states, more);
  }

  lemma {:induction false} PendingRecorded(space: Space, oracle: Oracle, runs: seq<Row>, r: Row, paths: seq<seq<nat>>,
                                           path: seq<nat>, states: seq<string>, edges: multiset<(nat, nat)>, used: set<string>)
    requires Pending(space, oracle, runs, r, paths, path, states, edges, used)
    ensures Recorded(space, oracle, runs + [r], paths + [path], states, edges, used)
  {
    hide RowJudged, Transitions, UsedAfter;
    assert (runs + [r])[..|runs|] == runs && (paths + [path])[..|paths|] == paths;
  }

  // Leaving out the evidence does not change what the row says.
  lemma {:induction false} PendingOmitted(space: Space, oracle: Oracle, runs: seq<Row>, r: Row, paths: seq<seq<nat>>,
                                          path: seq<nat>, states: seq<string>, edges: multiset<(nat, nat)>, used: set<string>)
    requires Pending(space, oracle, runs, r, paths, path, states, edges, used)
    ensures Pending(space, oracle, runs, r.(omitted := true), paths, path, states, edges, used)
  {
    hide Judge, Judged, Covered, Used, UsedAfter, CleanupKnown, CategoryAfter, CandidateOf, Traffic, Transitions;
  }

  // One row among many.
  lemma {:induction false} JudgedAt(space: Space, oracle: Oracle, runs: seq<Row>, paths: seq<seq<nat>>, states: seq<string>, k: nat)
    requires Judged(space, oracle, runs, paths, states) && k < |runs|
    ensures |paths| == |runs| && RowJudged(space, oracle, runs[k], Used(space, oracle, runs[..k]), paths[k], states)
  {
    hide RowJudged, Used;
    var n := |runs| - 1;
    if k < n {
      JudgedAt(space, oracle, runs[..n], paths[..n], states, k);
      assert runs[..n][..k] == runs[..k];
    }
  }

  lemma {:induction false} UsedGrows(space: Space, oracle: Oracle, runs: seq<Row>, k: nat)
    requires k <= |runs|
    ensures Used(space, oracle, runs[..k]) <= Used(space, oracle, runs)
  {
    if k == |runs| {
      assert runs[..k] == runs;
    } else {
      var n := |runs| - 1;
      assert runs[..n][..k] == runs[..k];
      UsedGrows(space, oracle, runs[..n], k);
    }
  }

  // A run that counts as passed is genuine, with an id that no earlier run had, and its path is
  // that of all its observations.
  lemma {:induction false} PassedRunIsGenuine(space: Space, oracle: Oracle, runs: seq<Row>, paths: seq<seq<nat>>,
                                              states: seq<string>, k: nat)
    requires Judged(space, oracle, runs, paths, states) && k < |runs| && runs[k].category == PassedRun
    ensures |paths| == |runs|
    ensures var a := AnswerTo(oracle, runs[k]);
            && Genuine(space, a, runs[k].candidate)
            && a.receipt.id !in Used(space, oracle, runs[..k])
            && a.receipt.id in Used(space, oracle, runs[..k + 1])
            && |paths[k]| == |a.receipt.observations|
            && Covered(a.receipt.observations, paths[k], states, space.variables, space.ignored)
    ensures runs[k].input < |space.inputs| && runs[k].candidate == CandidateOf(space, runs[k].candidate.steps, runs[k].input)
  {
    hide Genuine, Covered, CandidateOf, CleanupKnown, Judged, ExecutionId, SameActors, ValidReceipt, CategoryOf;
    var r := runs[k];
    var a, used := AnswerTo(oracle, r), Used(space, oracle, runs[..k]);
    JudgedAt(space, oracle, runs, paths, states, k);
    PassedIsGenuine(space, a, r.candidate, used);
    assert runs[..k + 1][..k] == runs[..k] && runs[..k + 1][k] == r;
  }

  // Two passed runs are two executions.
  lemma {:induction false} PassedRunsAreDistinct(space: Space, oracle: Oracle, runs: seq<Row>, paths: seq<seq<nat>>,
                                                 states: seq<string>, i: nat, j: nat)
    requires Judged(space, oracle, runs, paths, states) && i < j < |runs|
    requires runs[i].category == PassedRun && runs[j].category == PassedRun
    ensures var a, b := AnswerTo(oracle, runs[i]), AnswerTo(oracle, runs[j]);
            a.Sample? && b.Sample? && a.receipt.id != b.receipt.id
  {
    hide Judged, Covered, CandidateOf, Used;
    PassedRunIsGenuine(space, oracle, runs, paths, states, i);
    PassedRunIsGenuine(space, oracle, runs, paths, states, j);
    assert runs[..j][..i + 1] == runs[..i + 1];
    UsedGrows(space, oracle, runs[..j], i + 1);
  }

  // When every run has passed, the transitions number one for each step of each run.
  lemma {:induction false} TrafficOfPassed(space: Space, oracle: Oracle, runs: seq<Row>, paths: seq<seq<nat>>,
                                           states: seq<string>, length: nat)
    requires Judged(space, oracle, runs, paths, states) && AllPassed(runs)
    requires forall k :: 0 <= k < |runs| ==> |runs[k].candidate.steps| == length
    ensures |Traffic(paths)| == |runs| * length
  {
    hide Genuine, Covered, CandidateOf, Used, RowJudged, Transitions;
    if runs != [] {
      var k := |runs| - 1;
      TrafficOfPassed(space, oracle, runs[..k], paths[..k], states, length);
      PassedRunIsGenuine(space, oracle, runs, paths, states, k);
      GenuineLength(space, AnswerTo(oracle, runs[k]), runs[k].candidate);
      Multiply(k, length);
    }
  }

  lemma {:induction false} GenuineLength(space: Space, a: Answer, c: Candidate)
    requires Genuine(space, a, c)
    ensures |a.receipt.observations| == |c.steps| + 1
  {
  }

  // ------------------------------------------------------ the campaign

  datatype Reason = NotSet | EnumerationStopped | CancelRequested | TimeBudget | RunLimit | CoverageLimit | EvidenceLimit
    | UnconfirmedCleanup | Complete | NonPassRuns

  datatype Limits = Limits(maxRuns: nat, maxEvidence: nat)

  lemma {:induction false} Multiply(n: nat, length: nat)
    ensures n * length + length == (n + 1) * length
  {
  }

  lemma {:induction false} NextCandidate<T>(a: seq<T>, b: seq<T>, i: nat, all: seq<T>)
    requires i < |b| && a + b <= all
    ensures (a + b[..i]) + [b[i]] == a + b[..i + 1] && (a + b[..i]) + [b[i]] <= all
  {
    assert a + b[..i + 1] <= a + b;
  }
}
