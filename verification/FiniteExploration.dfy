// The whole of explore_finite: enumerate, run, and what a complete verdict says about the program.
module FiniteExploration {
  import opened Wrappers
  import opened Schedule
  import opened Merges
  import opened Shapes
  import E = Enumeration
  import opened Campaign
  import opened CampaignCourse
  import opened Exploring
  import opened ExplorationSpace

  // ------------------------------------------------------ lengths

  lemma {:induction false} FitsLength(rem: seq<nat>, p: Path)
    requires Fits(rem, p)
    ensures |p| == Sum(rem)
    decreases |p|
  {
    if p != [] {
      SumOfSpend(rem, p[0]);
      FitsLength(Spend(rem, p[0]), p[1..]);
    }
  }

  // Every enumerated schedule makes every step of every chain.
  lemma {:induction false} ShapeLength(chains: seq<Chain>, bound: nat, k: nat)
    requires k < |AllShapes(chains, bound)|
    ensures |AllShapes(chains, bound)[k]| == Sum(Left(chains, Origin(chains)))
  {
    var rem := Left(chains, Origin(chains));
    var paths := Completions(rem, None, bound);
    InCompletions(rem, None, bound, paths[k]);
    FitsLength(rem, paths[k]);
  }

  lemma {:induction false} AllShapesOnce(chains: seq<Chain>, bound: nat)
    requires DistinctActors(chains)
    ensures NoDuplicates(AllShapes(chains, bound))
  {
    hide AllShapes;
    var all := AllShapes(chains, bound);
    forall j, k | 0 <= j < k < |all| ensures all[j] != all[k] { ShapesAreDistinct(chains, bound, j, k); }
  }

  // ------------------------------------------------------ what a report says

  datatype Report =
    | InvalidDeclaration
    | Explored(complete: bool, exhausted: bool, denominatorKnown: bool, enumerated: nat, eligible: nat, attempted: nat, completed: nat,
               categories: multiset<Category>, firstFailure: Option<nat>, stopReason: Reason, runs: seq<Row>,
               states: seq<string>, transitions: multiset<(nat, nat)>)

  // The space as the judgement on a run sees it.
  function RunSpace(space: FiniteSpace): Space {
    Space(space.identity, space.inputs, Declarations(space.chains, []).actors, space.variables, space.ignored, space.requireComparison)
  }

  // All schedules of a space, in the order in which they are run.
  function Schedules(space: FiniteSpace): seq<seq<Step>> { AllShapes(Ordered(space.chains), space.maxPreemptions) }

  // The runs of a report are the beginning of the enumerated schedules on all inputs.
  ghost predicate Tallied(shapes: seq<seq<Step>>, inputs: nat, maxRuns: nat, r: Report)
    requires r.Explored?
  {
    && r.enumerated == |shapes| && r.eligible == |shapes| * inputs
    && r.attempted == |r.runs| && r.attempted <= maxRuns
    && Tags(r.runs) <= Candidates(shapes, inputs)
    && r.categories == Categories(r.runs) && r.completed == r.categories[PassedRun]
    && FirstFailure(r.runs, r.firstFailure)
    && (forall k :: 0 <= k < |r.runs| - 1 ==> r.runs[k].confirmed)
  }

  // The numbers of a report; `quiet` says that neither clock nor caller interrupted the enumeration.
  ghost predicate Counted(space: FiniteSpace, bounds: Bounds, quiet: bool, r: Report)
    requires r.Explored?
  {
    && r.enumerated <= |Schedules(space)| && r.enumerated <= bounds.maxShapes
    && Tallied(Schedules(space)[..r.enumerated], |space.inputs|, bounds.runs.maxRuns, r)
    && (r.denominatorKnown <==> r.enumerated == |Schedules(space)|)
    && (quiet ==> (r.denominatorKnown <==> |Schedules(space)| <= bounds.maxShapes))
  }

  // What the loops are given when these schedules have been found.
  function TaskOf(space: FiniteSpace, shapes: seq<seq<Step>>, limits: Limits, oracle: Oracle): Task {
    Task(Candidates(shapes, |space.inputs|), RunSpace(space), limits, oracle)
  }

  // The report is complete iff all schedules are known and the outside is flawless.
  ghost predicate CompleteWhen(space: FiniteSpace, bounds: Bounds, oracle: Oracle, r: Report)
    requires r.Explored?
  {
    var t := TaskOf(space, Schedules(space), bounds.runs, oracle);
    Proper(t) && (r.complete <==> r.denominatorKnown && Flawless(t))
  }

  // How many runs there are, why there are no more, and whether the report is complete: all this
  // is determined by what the loops are given.
  ghost predicate Determined(t: Task, r: Report)
    requires r.Explored?
  {
    && RatedAs(t, r.runs, Graph(r.states, r.transitions)) && Makes(t, |r.runs|)
    && (if Halts(t, |r.runs|) then StopsFor(t, |r.runs|, r.stopReason)
        else r.stopReason == if !r.denominatorKnown then EnumerationStopped else if r.complete then Reason.Complete else NonPassRuns)
    && (r.complete <==> r.denominatorKnown && Flawless(t))
  }

  // The verdicts of a report, and what stopped an exploration that is not complete.
  ghost predicate Concluded(r: Report)
    requires r.Explored?
  {
    && (r.exhausted <==> r.denominatorKnown && r.attempted == r.eligible)
    && (r.complete <==> r.stopReason == Reason.Complete)
    && (r.complete ==> r.exhausted && r.completed == r.eligible)
    && (r.stopReason == NonPassRuns ==> r.exhausted && r.completed < r.eligible)
    && (r.stopReason == EnumerationStopped ==> !r.denominatorKnown && r.attempted == r.eligible)
    && r.stopReason != NotSet
  }

  // Every merge within the bound has run on every input, once, and nothing else has.
  ghost predicate EachOnce(chains: seq<Chain>, bound: nat, inputs: nat, runs: seq<Row>) {
    && (forall s, k: nat :: IsMerge(chains, s) && Preemptions(s) <= bound && k < inputs ==> (s, k) in Tags(runs))
    && (forall j :: 0 <= j < |runs| ==>
          IsMerge(chains, runs[j].candidate.steps) && Preemptions(runs[j].candidate.steps) <= bound && runs[j].input < inputs)
    && NoDuplicates(Tags(runs))
  }

  // Every run is an execution of its own candidate that passed, no two are the same execution, and
  // its observations are the states along its path.
  ghost predicate AllGenuine(space: Space, oracle: Oracle, runs: seq<Row>, paths: seq<seq<nat>>, states: seq<string>) {
    && |paths| == |runs|
    && (forall k :: 0 <= k < |runs| ==> GenuineRun(space, oracle, k, runs[k], paths[k], states))
    && (forall i, j :: 0 <= i < j < |runs| ==> AnswerId(oracle, runs[i]) != AnswerId(oracle, runs[j]))
  }

  function AnswerId(oracle: Oracle, r: Row): string {
    var a := AnswerTo(oracle, r);
    if a.Sample? then a.receipt.id else ""
  }

  ghost predicate GenuineRun(space: Space, oracle: Oracle, k: nat, r: Row, path: seq<nat>, states: seq<string>) {
    var a := oracle.answers(k, r.candidate);
    && r.input < |space.inputs| && r.candidate == CandidateOf(space, r.candidate.steps, r.input)
    && Genuine(space, a, r.candidate)
    && |path| == |a.receipt.observations| && Covered(a.receipt.observations, path, states, space.variables, space.ignored)
  }

  // What a complete exploration has shown, with the state graph it reports.
  ghost predicate Exhaustive(chains: seq<Chain>, bound: nat, space: Space, oracle: Oracle, runs: seq<Row>,
                             paths: seq<seq<nat>>, states: seq<string>, transitions: multiset<(nat, nat)>) {
    && EachOnce(chains, bound, |space.inputs|, runs)
    && AllGenuine(space, oracle, runs, paths, states)
    && NoDuplicates(states)
    && transitions == Traffic(paths)
  }

  lemma {:induction false} CompleteIsEachOnce(chains: seq<Chain>, bound: nat, inputs: nat, runs: seq<Row>)
    requires DistinctActors(chains) && Tags(runs) == Candidates(AllShapes(chains, bound), inputs)
    ensures EachOnce(chains, bound, inputs, runs)
  {
    hide AllShapes, IsMerge, Preemptions, Candidates;
    var all := AllShapes(chains, bound);
    forall s, k: nat | IsMerge(chains, s) && Preemptions(s) <= bound && k < inputs ensures (s, k) in Tags(runs) {
      ShapesAreMerges(chains, bound, s);
      InCandidates(all, inputs, (s, k));
    }
    forall j | 0 <= j < |runs|
      ensures IsMerge(chains, runs[j].candidate.steps) && Preemptions(runs[j].candidate.steps) <= bound && runs[j].input < inputs
    {
      assert Tags(runs)[j] in Tags(runs);
      InCandidates(all, inputs, Tag(runs[j]));
      ShapesAreMerges(chains, bound, runs[j].candidate.steps);
    }
    AllShapesOnce(chains, bound);
    CandidatesOnce(all, inputs);
  }

  // Rows that are all passed stand for as many genuine executions.
  lemma {:induction false} PassedIsAllGenuine(space: Space, oracle: Oracle, runs: seq<Row>, paths: seq<seq<nat>>,
                                              states: seq<string>)
    requires Judged(space, oracle, runs, paths, states) && AllPassed(runs) && InOrder(runs)
    ensures AllGenuine(space, oracle, runs, paths, states)
  {
    hide Genuine, Covered, CandidateOf, RowJudged, Used;
    forall k | 0 <= k < |runs| ensures GenuineRun(space, oracle, k, runs[k], paths[k], states) {
      PassedRunIsGenuine(space, oracle, runs, paths, states, k);
    }
    forall i, j | 0 <= i < j < |runs| ensures AnswerId(oracle, runs[i]) != AnswerId(oracle, runs[j]) {
      PassedRunsAreDistinct(space, oracle, runs, paths, states, i, j);
    }
  }

  // The books of a complete exploration prove its verdict.
  lemma {:induction false} CompleteIsExhaustive(chains: seq<Chain>, bound: nat, space: Space, oracle: Oracle, runs: seq<Row>,
                                                paths: seq<seq<nat>>, states: seq<string>, edges: multiset<(nat, nat)>,
                                                used: set<string>)
    requires DistinctActors(chains) && NoDuplicates(states)
    requires Tags(runs) == Candidates(AllShapes(chains, bound), |space.inputs|) && AllPassed(runs) && InOrder(runs)
    requires Recorded(space, oracle, runs, paths, states, edges, used)
    ensures Exhaustive(chains, bound, space, oracle, runs, paths, states, edges)
    ensures |edges| == |runs| * Sum(Left(chains, Origin(chains)))
  {
    hide AllShapes, Candidates, Judged, Traffic, IsMerge, Preemptions, Sum, DistinctActors;
    CompleteIsEachOnce(chains, bound, |space.inputs|, runs);
    PassedIsAllGenuine(space, oracle, runs, paths, states);
    var length := Sum(Left(chains, Origin(chains)));
    forall k | 0 <= k < |runs| ensures |runs[k].candidate.steps| == length {
      assert Tags(runs)[k] in Tags(runs);
      InCandidates(AllShapes(chains, bound), |space.inputs|, Tag(runs[k]));
      var j :| 0 <= j < |AllShapes(chains, bound)| && AllShapes(chains, bound)[j] == runs[k].candidate.steps;
      ShapeLength(chains, bound, j);
    }
    TrafficOfPassed(space, oracle, runs, paths, states, length);
  }

  lemma {:induction false} EachOnceReordered(a: seq<Chain>, b: seq<Chain>, bound: nat, inputs: nat, runs: seq<Row>)
    requires multiset(a) == multiset(b) && EachOnce(a, bound, inputs, runs)
    ensures EachOnce(b, bound, inputs, runs)
  {
    hide IsMerge, Preemptions;
    forall s, k: nat | IsMerge(b, s) && Preemptions(s) <= bound && k < inputs ensures (s, k) in Tags(runs) {
      OrderKeepsMerges(b, a, s);
    }
    forall j | 0 <= j < |runs| ensures IsMerge(b, runs[j].candidate.steps) {
      OrderKeepsMerges(a, b, runs[j].candidate.steps);
    }
  }

  // The enumeration, as the campaign uses it.
  method EnumerateShapes(chains: seq<Chain>, bound: nat, cap: nat, signals: seq<E.Signal>)
    returns (shapes: seq<seq<Step>>, exhausted: bool)
    requires DistinctActors(chains)
    ensures NoDuplicates(shapes) && |shapes| <= cap
    ensures shapes <= AllShapes(chains, bound) && (exhausted <==> |shapes| == |AllShapes(chains, bound)|)
    ensures signals == [] ==> (exhausted <==> |AllShapes(chains, bound)| <= cap)
  {
    hide AllShapes;
    var enumerator := new E.Enumerator(chains, bound, cap, signals);
    ghost var kept := enumerator.Enumerate();
    shapes, exhausted := enumerator.shapes, enumerator.exhausted;
    AllShapesOnce(chains, bound);
  }

  // explore_finite.  A complete report means that every merge of the chains with at most `maxPreemptions`
  // preemptions has been executed on every input exactly once and passed, each by an execution of
  // its own with a valid receipt, and that the reported graph is that of their observations.
  method ExploreFinite(space: FiniteSpace, bounds: Bounds, signals: seq<E.Signal>, oracle: Oracle)
    returns (report: Report, ghost paths: seq<seq<nat>>)
    requires Trees(space.inputs)
    ensures report.InvalidDeclaration? <==> !SpaceOk(space, bounds)
    ensures report.Explored? ==> Counted(space, bounds, signals == [], report) && Concluded(report)
    ensures report.Explored? ==> Determined(TaskOf(space, Schedules(space)[..report.enumerated], bounds.runs, oracle), report)
    ensures report.Explored? ==> CompleteWhen(space, bounds, oracle, report)
    ensures report.Explored? ==>
              && Judged(RunSpace(space), oracle, report.runs, paths, report.states)
              && report.transitions == Traffic(paths) && NoDuplicates(report.states)
    ensures report.Explored? && report.complete ==>
              && Exhaustive(space.chains, space.maxPreemptions, RunSpace(space), oracle, report.runs, paths, report.states,
                            report.transitions)
              && |report.transitions| == |report.runs| * |AllSteps(space.chains)|
  {
    hide Counted, Concluded, Determined, CompleteWhen, Judged, Traffic, NoDuplicates, Exhaustive, AllSteps, Schedules, RunSpace, SpaceOk,
         WellFormed;
    var ok := CheckSpace(space, bounds);
    if !ok { return InvalidDeclaration, []; }
    SpaceIsWellFormed(space, bounds);
    report, paths := Explore(space, bounds, signals, oracle);
  }

  lemma {:induction false} SpaceIsWellFormed(space: FiniteSpace, bounds: Bounds)
    requires SpaceOk(space, bounds)
    ensures WellFormed(space.chains)
  {
    hide WellFormed;
  }

  // Past the checks.
  method Explore(space: FiniteSpace, bounds: Bounds, signals: seq<E.Signal>, oracle: Oracle)
    returns (report: Report, ghost paths: seq<seq<nat>>)
    requires WellFormed(space.chains)
    ensures report.Explored? && Counted(space, bounds, signals == [], report) && Concluded(report)
    ensures Determined(TaskOf(space, Schedules(space)[..report.enumerated], bounds.runs, oracle), report)
    ensures CompleteWhen(space, bounds, oracle, report)
    ensures Judged(RunSpace(space), oracle, report.runs, paths, report.states)
    ensures report.transitions == Traffic(paths) && NoDuplicates(report.states)
    ensures report.complete ==>
              && Exhaustive(space.chains, space.maxPreemptions, RunSpace(space), oracle, report.runs, paths, report.states,
                            report.transitions)
              && |report.transitions| == |report.runs| * |AllSteps(space.chains)|
  {
    hide AllShapes, Candidates, WellFormed, Exhaustive, DistinctActors, NoDuplicates, AllPassed, InOrder, Judged, Recorded, Traffic,
         Ordered, AllSteps, Categories, Tallied, Determined, CompleteWhen;
    var chains := Ordered(space.chains);
    OrderedIsDistinct(space.chains);
    var shapes, all := EnumerateShapes(chains, space.maxPreemptions, bounds.maxShapes, signals);
    assert shapes == Schedules(space)[..|shapes|];
    ghost var used;
    report, paths, used := RunAll(space, shapes, all, bounds.runs, oracle);
    RecordedParts(space, oracle, report, paths, used);
    KnownTask(space, bounds, oracle, report, shapes);
    if report.complete {
      assert shapes == Schedules(space);
      CompleteReport(space, oracle, report, paths, used);
    }
  }

  lemma {:induction false} KnownTask(space: FiniteSpace, bounds: Bounds, oracle: Oracle, r: Report, shapes: seq<seq<Step>>)
    requires r.Explored? && Determined(TaskOf(space, shapes, bounds.runs, oracle), r)
    requires shapes <= Schedules(space) && (r.denominatorKnown <==> |shapes| == |Schedules(space)|)
    ensures CompleteWhen(space, bounds, oracle, r)
  {
    hide Schedules, Flawless, Makes, Halts, StopsFor, Candidates, RunSpace, RatedAs;
    CandidatesAreProper(Schedules(space), |space.inputs|);
    RunSpaceInputs(space);
    if |shapes| == |Schedules(space)| { assert shapes == Schedules(space); }
  }

  lemma {:induction false} RunSpaceInputs(space: FiniteSpace)
    ensures RunSpace(space).inputs == space.inputs
  {
  }

  // The runs of the schedules found, in a report.
  method RunAll(space: FiniteSpace, shapes: seq<seq<Step>>, all: bool, limits: Limits, oracle: Oracle)
    returns (report: Report, ghost paths: seq<seq<nat>>, ghost used: set<string>)
    requires NoDuplicates(shapes)
    ensures report.Explored? && report.denominatorKnown == all && report.enumerated == |shapes|
    ensures Tallied(shapes, |space.inputs|, limits.maxRuns, report) && Concluded(report)
    ensures Determined(TaskOf(space, shapes, limits, oracle), report)
    ensures Recorded(RunSpace(space), oracle, report.runs, paths, report.states, report.transitions, used)
    ensures NoDuplicates(report.states)
    ensures report.complete ==>
              Tags(report.runs) == Candidates(shapes, |space.inputs|) && AllPassed(report.runs) && InOrder(report.runs)
  {
    hide Candidates, NoDuplicates, AllPassed, InOrder, Recorded, Categories, RunSpace, Tags, FirstFailure, Exploration.Books,
         Exploration.Going, Flawless, StopsFor, Makes, Halts, Proper, Clean, RatedAs;
    RunSpaceInputs(space);
    var exploration := new Exploration(shapes, RunSpace(space), limits, oracle, if all then NotSet else EnumerationStopped);
    var exhausted, complete := exploration.Run(all);
    exploration.BooksSay();
    report := Explored(complete, exhausted, all, |shapes|, |shapes| * |space.inputs|, exploration.attempted, exploration.completed,
                       exploration.categories, exploration.firstFailure, exploration.stopReason, exploration.runs,
                       exploration.stateRows, exploration.edges);
    paths, used := exploration.paths, exploration.executionIds;
    assert exploration.Given() == TaskOf(space, shapes, limits, oracle);
    HaltedIsNamed(exploration.Given(), |report.runs|, report.stopReason);
    CategoryCounts(report.runs);
  }

  lemma {:induction false} HaltedIsNamed(t: Task, n: nat, stopReason: Reason)
    requires Proper(t) && n <= |t.candidates| && Makes(t, n)
    ensures Halts(t, n) && StopsFor(t, n, stopReason) ==>
              stopReason != NotSet && stopReason != EnumerationStopped && stopReason != Reason.Complete && stopReason != NonPassRuns
  {
    hide StopsFor, Makes, Halts, Proper;
    if Halts(t, n) && StopsFor(t, n, stopReason) { ReasonNamed(t, n, stopReason); }
  }

  lemma {:induction false} RecordedParts(space: FiniteSpace, oracle: Oracle, r: Report, paths: seq<seq<nat>>, used: set<string>)
    requires r.Explored? && Recorded(RunSpace(space), oracle, r.runs, paths, r.states, r.transitions, used)
    ensures Judged(RunSpace(space), oracle, r.runs, paths, r.states) && r.transitions == Traffic(paths)
  {
    hide Judged, Traffic;
  }

  lemma {:induction false} WellFormedIsDistinct(chains: seq<Chain>)
    requires WellFormed(chains)
    ensures DistinctActors(chains)
  {
    var plan := Declarations(chains, []);
    forall i, j | 0 <= i < j < |chains| ensures chains[i].actor.actor != chains[j].actor.actor {
      assert plan.actors[i] == chains[i].actor && plan.actors[j] == chains[j].actor;
    }
  }

  lemma {:induction false} OrderedIsDistinct(chains: seq<Chain>)
    requires WellFormed(chains)
    ensures DistinctActors(Ordered(chains))
  {
    WellFormedIsDistinct(chains);
    OrderKeepsDistinct(chains, Ordered(chains));
  }

  lemma {:induction false} CompleteReport(space: FiniteSpace, oracle: Oracle, r: Report, paths: seq<seq<nat>>, used: set<string>)
    requires r.Explored? && DistinctActors(Ordered(space.chains)) && NoDuplicates(r.states)
    requires Tags(r.runs) == Candidates(Schedules(space), |space.inputs|) && AllPassed(r.runs) && InOrder(r.runs)
    requires Recorded(RunSpace(space), oracle, r.runs, paths, r.states, r.transitions, used)
    ensures Exhaustive(space.chains, space.maxPreemptions, RunSpace(space), oracle, r.runs, paths, r.states, r.transitions)
    ensures |r.transitions| == |r.runs| * |AllSteps(space.chains)|
  {
    hide AllShapes, Candidates, Recorded, Judged, Traffic, IsMerge, Preemptions, Sum, DistinctActors, EachOnce, AllGenuine, Ordered;
    var chains := Ordered(space.chains);
    CompleteIsExhaustive(chains, space.maxPreemptions, RunSpace(space), oracle, r.runs, paths, r.states, r.transitions, used);
    EachOnceReordered(chains, space.chains, space.maxPreemptions, |space.inputs|, r.runs);
    OrderedLength(space.chains);
    AllStepsLength(chains);
  }
}
