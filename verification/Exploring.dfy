// The run loop of explore_finite with the books it keeps (src/schedule_exploration.rs:429-653).
module Exploring {
  import opened Wrappers
  import opened Schedule
  import opened Canonical
  import opened Campaign
  import opened CampaignCourse

  datatype Evaluation = Evaluated(category: Category) | Rejected | CoverageExceeded

  function WrittenUp(ordinal: nat, input: nat, candidate: Candidate, v: Evaluation, confirmed: bool): Row {
    Row(ordinal, input, candidate, if v.Evaluated? then v.category else EvidenceFailed, confirmed, false)
  }

  class Exploration {
    const shapes: seq<seq<Step>>
    const space: Space
    const limits: Limits
    const oracle: Oracle

    var attempted: nat
    var completed: nat
    var evidenceBytes: nat
    var coverageBytes: nat
    var comparisonRuns: nat
    var stopReason: Reason
    var halt: bool
    var states: map<string, nat>
    var stateRows: seq<string>
    var edges: multiset<(nat, nat)>
    var executionIds: set<string>
    var runs: seq<Row>
    var categories: multiset<Category>
    var firstFailure: Option<nat>
    var looks: nat
    // How often the runner has been called, and the ids that each run's observations got.
    ghost var calls: nat
    ghost var paths: seq<seq<nat>>

    // State ids are 0, 1, .. in order of discovery, one per canonical text.
    predicate Numbered()
      reads this`states, this`stateRows, this`edges
    {
      && |states| == |stateRows|
      && (forall k :: k in states ==> states[k] < |stateRows| && stateRows[states[k]] == k)
      && (forall i :: 0 <= i < |stateRows| ==> stateRows[i] in states && states[stateRows[i]] == i)
      && (forall e :: e in edges ==> e.0 < |stateRows| && e.1 < |stateRows|)
    }

    lemma {:induction false} StatesOnce()
      requires Numbered()
      ensures NoDuplicates(stateRows)
    {
    }

    // The state graph found so far.
    ghost function Found(): Graph
      reads this`stateRows, this`edges
    {
      Graph(stateRows, edges)
    }

    // The coverage bytes are those of the graph, and within the bound.
    ghost predicate Costed()
      reads this`coverageBytes, this`stateRows, this`edges
    {
      coverageBytes == Cost(Found()) <= COVERAGE_BOUND
    }

    // All that the loops are given.
    ghost function Given(): Task { Task(Candidates(shapes, |space.inputs|), space, limits, oracle) }

    // After n runs the books are what the inputs say, and nothing has stopped the loops.
    ghost predicate Accounted(n: nat)
      reads this`evidenceBytes, this`coverageBytes, this`stateRows, this`edges, this`executionIds
    {
      && Proper(Given()) && Unstopped(Given(), n)
      && evidenceBytes == Bytes(oracle, n) && executionIds == IdsBefore(Given(), n)
      && Found() == GraphBefore(Given(), n) && Costed()
    }

    // The rows say passed of those runs that pass, and the graph is theirs, unless the last has exceeded the bound.
    ghost predicate Rated()
      reads this`runs, this`stateRows, this`edges
    {
      RatedAs(Given(), runs, Found())
    }

    // The loops are over, for the reason given.
    ghost predicate Over()
      reads this`runs, this`stopReason, this`halt
    {
      var n := |runs|;
      halt && Proper(Given()) && n <= |Given().candidates| && Makes(Given(), n) && Halts(Given(), n) && StopsFor(Given(), n, stopReason)
    }

    // The books agree with the runs on record.
    ghost predicate Books()
      reads this`runs, this`attempted, this`calls, this`categories, this`completed, this`states, this`stateRows, this`edges,
            this`executionIds, this`paths, this`firstFailure
    {
      && Numbered()
      && attempted == |runs| == calls && attempted <= limits.maxRuns
      && categories == Categories(runs) && completed == categories[PassedRun]
      && Tags(runs) <= Candidates(shapes, |space.inputs|)
      && Recorded(space, oracle, runs, paths, stateRows, edges, executionIds)
      && InOrder(runs) && (runs != [] ==> Clean(runs[..|runs| - 1]))
      && FirstFailure(runs, firstFailure)
    }

    // The loop may go on: the last run, too, is known to be cleaned up.
    ghost predicate Going()
      reads this`runs, this`attempted, this`calls, this`categories, this`completed, this`states, this`stateRows, this`edges,
            this`executionIds, this`paths, this`firstFailure, this`evidenceBytes, this`coverageBytes, this`halt
    {
      Books() && !halt && Clean(runs) && Rated() && Accounted(|runs|)
    }

    constructor (shapes: seq<seq<Step>>, space: Space, limits: Limits, oracle: Oracle, enumeration: Reason)
      ensures this.shapes == shapes && this.space == space && this.limits == limits && this.oracle == oracle
      ensures Going() && runs == [] && stopReason == enumeration && looks == 0 && !halt
    {
      this.shapes, this.space, this.limits, this.oracle := shapes, space, limits, oracle;
      attempted, completed, evidenceBytes, coverageBytes, comparisonRuns := 0, 0, 0, 0, 0;
      stopReason, halt := enumeration, false;
      states, stateRows, edges, executionIds := map[], [], multiset{}, {};
      runs, categories, firstFailure, looks, calls, paths := [], multiset{}, None, 0, 0, [];
      new;
      NoBooks();
    }

    lemma {:induction false} NoBooks()
      requires attempted == completed == evidenceBytes == coverageBytes == calls == 0 && !halt
      requires states == map[] && stateRows == [] && edges == multiset{} && executionIds == {}
      requires runs == [] && categories == multiset{} && firstFailure.None? && paths == []
      ensures Going()
    {
      hide Candidates, Cost, Last, Prevented, Passes;
      CandidatesAreProper(shapes, |space.inputs|);
      NothingYet(Given());
    }

    method IsLate() returns (late: bool)
      modifies this`looks
      ensures late == TimeUp(oracle, old(looks)) && looks == old(looks) + 1
    {
      late := TimeUp(oracle, looks);
      looks := looks + 1;
    }

    method IsCancelled() returns (cancelled: bool)
      modifies this`looks
      ensures cancelled == FlagUp(oracle, old(looks)) && looks == old(looks) + 1
    {
      cancelled := FlagUp(oracle, looks);
      looks := looks + 1;
    }

    lemma {:induction false} KnownId(key: string)
      requires Numbered()
      ensures key in states <==> IdIn(stateRows, key) < |stateRows|
      ensures key in states ==> states[key] == IdIn(stateRows, key)
    {
      if key in states { IdInAt(stateRows, states[key]); }
    }

    // The id of a coverage key, new ones being the next number; None beyond the byte bound.
    method StateId(key: string) returns (id: Option<nat>)
      requires Numbered()
      modifies this`coverageBytes, this`states, this`stateRows
      ensures Numbered() && old(stateRows) <= stateRows
      ensures var known := IdIn(old(stateRows), key) < |old(stateRows)|;
              var bytes := old(coverageBytes) + if known then 0 else |key| + 128;
              && (id.Some? <==> known || bytes <= COVERAGE_BOUND)
              && (id.Some? ==> id.value == IdIn(old(stateRows), key) < |stateRows|
                               && stateRows == With(old(stateRows), key) && coverageBytes == bytes)
              && (id.None? ==> stateRows == old(stateRows))
    {
      KnownId(key);
      if key in states { return Some(states[key]); }
      coverageBytes := coverageBytes + |key| + 128;
      if coverageBytes > COVERAGE_BOUND { return None; }
      var fresh_ := |states|;
      stateRows := stateRows + [key];
      states := states[key := fresh_];
      return Some(fresh_);
    }

    // A transition between states that are known.
    method Link(from: nat, to: nat) returns (ok: bool)
      requires Numbered() && from < |stateRows| && to < |stateRows|
      modifies this`coverageBytes, this`edges
      ensures Numbered() && edges == if ok then old(edges) + multiset{(from, to)} else old(edges)
      ensures var bytes := old(coverageBytes) + if (from, to) in old(edges) then 0 else 128;
              (ok <==> (from, to) in old(edges) || bytes <= COVERAGE_BOUND) && (ok ==> coverageBytes == bytes)
    {
      if (from, to) !in edges {
        coverageBytes := coverageBytes + 128;
        if coverageBytes > COVERAGE_BOUND { return false; }
      }
      edges := edges + multiset{(from, to)};
      return true;
    }

    // The observations with these ids have been visited, in order, since the graph was as given.
    ghost predicate Traced(observations: seq<Sight>, outset: Graph, prior: Option<nat>, ids: seq<nat>)
      reads this
    {
      var n, keys := |ids|, Keys(space, observations, 0);
      && Numbered() && outset.rows <= stateRows && n <= |observations| && n <= |keys|
      && edges == outset.edges + Transitions(ids) && Covered(observations, ids, stateRows, space.variables, space.ignored)
      && Found() == Walked(outset, keys[..n]) && Costed()
      && prior == (if n == 0 then None else Some(IdIn(stateRows, keys[n - 1])))
      && (n > 0 ==> ids[n - 1] == prior.value < |stateRows|)
    }

    // So far and no further: the last observation has been visited, or the next cannot be.
    ghost predicate CoverEnds(observations: seq<Sight>, outset: Graph, v: Evaluation, ids: seq<nat>)
      reads this
    {
      var keys := Keys(space, observations, 0);
      var g := Walked(outset, keys);
      && Numbered() && outset.rows <= stateRows
      && edges == outset.edges + Transitions(ids) && Covered(observations, ids, stateRows, space.variables, space.ignored)
      && (if v.Evaluated? then v.category == PassedRun && |ids| == |observations| else |ids| < |observations|)
      && (v.CoverageExceeded? <==> Cost(g) > COVERAGE_BOUND)
      && (v.Evaluated? <==> Cost(g) <= COVERAGE_BOUND && |keys| == |observations|)
      && (!v.CoverageExceeded? ==> Found() == g && Costed())
    }

    // The observations of a passed run become states and transitions: as many as can be used,
    // unless the bound does not allow for them.
    method Cover(observations: seq<Sight>) returns (v: Evaluation, ghost ids: seq<nat>)
      requires Numbered() && Costed()
      modifies this`coverageBytes, this`states, this`stateRows, this`edges
      ensures CoverEnds(observations, old(Found()), v, ids)
    {
      hide Traced, CoverEnds, Numbered, Costed, Found;
      ghost var outset := Found();
      var prior: Option<nat> := None;
      ids := [];
      TracedNowhere(observations);
      for i := 0 to |observations|
        invariant |ids| == i && Traced(observations, outset, prior, ids)
      {
        v, prior, ids := CoverNext(observations, i, prior, outset, ids);
        if !v.Evaluated? { return; }
      }
      TracedToTheEnd(observations, outset, prior, ids);
      v := Evaluated(PassedRun);
    }

    lemma {:induction false} TracedNowhere(observations: seq<Sight>)
      requires Numbered() && Costed()
      ensures Traced(observations, Found(), None, [])
    {
      hide Numbered, Costed, Covered, Walked, Keys;
      CoveredNone(observations, stateRows, space.variables, space.ignored);
      NoWalk(Found(), Keys(space, observations, 0));
    }

    lemma {:induction false} TracedToTheEnd(observations: seq<Sight>, outset: Graph, prior: Option<nat>, ids: seq<nat>)
      requires Traced(observations, outset, prior, ids) && |ids| == |observations|
      ensures CoverEnds(observations, outset, Evaluated(PassedRun), ids)
    {
      hide Numbered, Cost, Covered, Walked, Keys, Transitions;
      WalkedAll(outset, Keys(space, observations, 0), |observations|);
    }

    lemma {:induction false} TracedToAFault(observations: seq<Sight>, outset: Graph, prior: Option<nat>, ids: seq<nat>)
      requires Traced(observations, outset, prior, ids) && |ids| < |observations| && Unusable(space, observations, |ids|)
      ensures CoverEnds(observations, outset, Rejected, ids)
    {
      hide Numbered, Cost, Covered, Walked, Keys, Transitions, Unusable;
      KeysAre(space, observations, 0, |ids|);
      WalkedAll(outset, Keys(space, observations, 0), |ids|);
    }

    // One turn of the loop: the next observation has to be numbered and projected.
    method CoverNext(observations: seq<Sight>, i: nat, prior: Option<nat>, ghost outset: Graph, ghost ids: seq<nat>)
      returns (v: Evaluation, to: Option<nat>, ghost path: seq<nat>)
      requires Traced(observations, outset, prior, ids) && |ids| == i < |observations|
      modifies this`coverageBytes, this`states, this`stateRows, this`edges
      ensures v.Evaluated? ==> |path| == i + 1 && Traced(observations, outset, to, path)
      ensures !v.Evaluated? ==> CoverEnds(observations, outset, v, path)
    {
      hide KeyOf, Transitions, Covered, Numbered, Cost, Walked, Keys, IdIn, Entered, CoverEnds;
      if observations[i].afterSteps != i { TracedToAFault(observations, outset, prior, ids); return Rejected, None, ids; }
      var key := KeyOf(observations[i], space.variables, space.ignored);
      if key.None? { TracedToAFault(observations, outset, prior, ids); return Rejected, None, ids; }
      ghost var keys := Keys(space, observations, 0);
      KeysAre(space, observations, 0, i);
      WalkedPush(outset, keys, i);
      assert KeyOf(observations[i], space.variables, space.ignored) == Some(keys[i]);
      to, path := Visit(observations, key.value, prior, ids);
      if to.None? {
        OverTheBound(observations, outset, ids);
        return CoverageExceeded, None, path;
      }
      TracedMore(observations, outset, prior, ids, to.value);
      v := Evaluated(PassedRun);
    }

    lemma {:induction false} TracedMore(observations: seq<Sight>, outset: Graph, prior: Option<nat>, ids: seq<nat>, id: nat)
      requires Numbered() && outset.rows <= stateRows && |ids| < |observations| && Costed()
      requires var n, keys := |ids|, Keys(space, observations, 0);
               && n < |keys| && id == IdIn(stateRows, keys[n]) < |stateRows|
               && Found() == Walked(outset, keys[..n + 1])
      requires edges == outset.edges + Transitions(ids) + Hop(prior, Some(id))
      requires prior == if ids == [] then None else Some(ids[|ids| - 1])
      requires Covered(observations, ids + [id], stateRows, space.variables, space.ignored)
      ensures Traced(observations, outset, Some(id), ids + [id])
    {
      hide Numbered, Costed, Covered, Walked, Keys, Transitions, Found, IdIn;
      TransitionsPush(ids, id);
    }

    lemma {:induction false} OverTheBound(observations: seq<Sight>, outset: Graph, ids: seq<nat>)
      requires Numbered() && outset.rows <= stateRows && |ids| < |observations|
      requires edges == outset.edges + Transitions(ids) && Covered(observations, ids, stateRows, space.variables, space.ignored)
      requires var keys := Keys(space, observations, 0);
               |ids| < |keys| && Cost(Walked(outset, keys[..|ids| + 1])) > COVERAGE_BOUND
      ensures CoverEnds(observations, outset, CoverageExceeded, ids)
    {
      hide Numbered, Cost, Covered, Walked, Keys, Transitions;
      WalkedCost(outset, Keys(space, observations, 0), |ids| + 1);
    }

    // One observation: its state, and the transition to it from the one before.
    method Visit(observations: seq<Sight>, key: string, prior: Option<nat>, ghost ids: seq<nat>)
      returns (to: Option<nat>, ghost path: seq<nat>)
      requires Numbered() && |ids| < |observations| && Covered(observations, ids, stateRows, space.variables, space.ignored)
      requires prior == (if ids == [] then None else Some(ids[|ids| - 1])) && (prior.Some? ==> prior.value < |stateRows|)
      requires observations[|ids|].afterSteps == |ids|
      requires KeyOf(observations[|ids|], space.variables, space.ignored) == Some(key)
      requires Costed()
      modifies this`coverageBytes, this`states, this`stateRows, this`edges
      ensures Numbered() && old(stateRows) <= stateRows && Covered(observations, path, stateRows, space.variables, space.ignored)
      ensures edges == old(edges) + Hop(prior, to)
      ensures if to.Some? then to.value < |stateRows| && path == ids + [to.value] else path == ids
      ensures to.Some? <==> Cost(Entered(old(Found()), prior, key)) <= COVERAGE_BOUND
      ensures to.Some? ==> Found() == Entered(old(Found()), prior, key) && Costed() && to.value == IdIn(stateRows, key)
    {
      hide KeyOf, Transitions, Covered, Numbered, Cost, With, IdIn;
      path := ids;
      ghost var rows := stateRows;
      EnteredCost(Found(), prior, key);
      IdInWith(rows, key);
      to := StateId(key);
      CoveredMore(observations, ids, rows, stateRows, space.variables, space.ignored);
      if to.None? { return; }
      CoveredPush(observations, ids, rows, stateRows, space.variables, space.ignored, to.value);
      if prior.Some? {
        var ok := Link(prior.value, to.value);
        if !ok { return None, ids; }
      }
      path := ids + [to.value];
    }

    // What an answer so judged has done to the coverage, and to its own run.
    ghost predicate Weighed(before: Graph, a: Answer, judged: Option<Category>, v: Evaluation, after: Graph, bytes: nat) {
      && (v.CoverageExceeded? <==> Overflowing(space, a, judged, before))
      && (v == Evaluated(PassedRun) <==> Passing(space, a, judged, before))
      && (!v.CoverageExceeded? ==> after == GraphAfter(space, a, judged, before) && bytes == Cost(after) <= COVERAGE_BOUND)
    }

    // The protected part of one run: the runner is called with the candidate and its answer judged.
    method Evaluate(candidate: Candidate) returns (v: Evaluation, confirmed: bool, ghost path: seq<nat>)
      requires Numbered() && Costed()
      modifies this`coverageBytes, this`states, this`stateRows, this`edges, this`executionIds, this`comparisonRuns, this`completed,
               this`calls
      ensures Numbered() && old(stateRows) <= stateRows && calls == old(calls) + 1
      ensures completed == old(completed) + (if v == Evaluated(PassedRun) then 1 else 0)
      ensures var a := oracle.answers(attempted, candidate);
              var judged := Judge(space, a, candidate, old(executionIds));
              && executionIds == UsedAfter(space, a, candidate, old(executionIds))
              && confirmed == CleanupKnown(space, a, candidate, old(executionIds))
              && (if v.Evaluated? then v.category else EvidenceFailed) == CategoryAfter(judged, a, path)
              && (v.CoverageExceeded? ==> a == RunnerFailed(COVERAGE_MESSAGE) || judged == Some(PassedRun))
              && (if judged == Some(PassedRun) then Covered(Sights(a), path, stateRows, space.variables, space.ignored) else path == [])
      ensures edges == old(edges) + Transitions(path)
      ensures var a := oracle.answers(attempted, candidate);
              var judged := Judge(space, a, candidate, old(executionIds));
              && Weighed(old(Found()), a, judged, v, Found(), coverageBytes)
              && comparisonRuns == old(comparisonRuns)
                 + if Acceptable(space, a, candidate, old(executionIds)) && Compared(a) then 1 else 0
    {
      hide KeyOf, Assessed, ExecutionId, SameActors, Numbered, Covered, Transitions, CandidateOf, Cost, Walked, Keys, CategoryOf;
      confirmed, path := false, [];
      var answer := oracle.answers(attempted, candidate);
      calls := calls + 1;
      if answer.RunnerFailed? && answer.message == COVERAGE_MESSAGE { return CoverageExceeded, false, []; }
      if !answer.Sample? { return Rejected, false, []; }
      var e := answer.receipt;
      if e.schema != EXECUTION_SCHEMA || e.schedule != candidate || !SameActors(e.actors, space.actors) { return Rejected, false, []; }
      if !ExecutionId(e.id) || e.id in executionIds { return Rejected, false, []; }
      executionIds := executionIds + {e.id};
      confirmed := e.cleanup == Confirmed && e.remaining == [];
      v, path := Assess(answer, candidate);
    }

    // The rest, for a receipt that is about this candidate.
    method Assess(answer: Answer, candidate: Candidate) returns (v: Evaluation, ghost path: seq<nat>)
      requires Numbered() && Costed() && answer.Sample?
      modifies this`coverageBytes, this`states, this`stateRows, this`edges, this`comparisonRuns, this`completed
      ensures Numbered() && old(stateRows) <= stateRows
      ensures completed == old(completed) + (if v == Evaluated(PassedRun) then 1 else 0)
      ensures var judged := Assessed(space, answer, candidate);
              && (if v.Evaluated? then v.category else EvidenceFailed) == CategoryAfter(judged, answer, path)
              && (v.CoverageExceeded? ==> judged == Some(PassedRun))
              && (if judged == Some(PassedRun) then Covered(Sights(answer), path, stateRows, space.variables, space.ignored)
                  else path == [])
      ensures edges == old(edges) + Transitions(path)
      ensures Weighed(old(Found()), answer, Assessed(space, answer, candidate), v, Found(), coverageBytes)
      ensures comparisonRuns == old(comparisonRuns) + if Compared(answer) then 1 else 0
    {
      hide KeyOf, CategoryOf, ValidReceipt, Numbered, Covered, Transitions, Cost, Walked, Keys;
      path := [];
      var e := answer.receipt;
      var category := CategoryOf(e, answer.comparison);
      if category.None? { return Rejected, []; }
      if answer.comparison.Some? {
        comparisonRuns := comparisonRuns + 1;
      } else if space.requireComparison {
        return Evaluated(ComparisonMissing), [];
      }
      if category.value != PassedRun { return Evaluated(category.value), []; }
      if !ValidReceipt(e, candidate.steps) { return Rejected, []; }
      v, path := Cover(e.observations);
      if v.Evaluated? { completed := completed + 1; }
    }

    // One run, and the look at the clock after it; false when the loops have to end.
    method Attempt(steps: seq<Step>, input: nat) returns (go: bool)
      requires Going() && input < |space.inputs|
      requires Tags(runs) + [(steps, input)] <= Candidates(shapes, |space.inputs|)
      requires !Prevented(Given(), |runs|) && looks == 3 * |runs| + 2
      modifies this
      ensures Books() && Rated() && Tags(runs) == old(Tags(runs)) + [(steps, input)]
      ensures if go then Going() && !halt && stopReason == old(stopReason) && looks == 3 * |runs| else halt && Over()
    {
      hide Candidates, Tags, Clean, Rated, Accounted, Over, Overflows, GivenBack, TooLarge, Prevented, FlagUp, TimeUp, Books,
           Unstopped, Booked;
      ghost var n := |runs|;
      GoingBytes();
      NotPrevented();
      go := RunCandidate(steps, input);
      if go {
        var late := IsLate();
        if late {
          stopReason := TimeBudget;
          halt := true;
          go := false;
          EndsAfter(n);
        } else {
          GoesOn(n);
        }
      } else {
        EndsAfter(n);
      }
    }

    // The run just made ends the loops.
    lemma {:induction false} EndsAfter(n: nat)
      requires Proper(Given()) && |runs| == n + 1 <= |Given().candidates| && halt
      requires Unstopped(Given(), n) && !Prevented(Given(), n)
      requires Last(Given(), n)
      requires stopReason == if TooLarge(Given(), n) then EvidenceLimit else if Overflows(Given(), n) then CoverageLimit
                             else if !GivenBack(Given(), n) then UnconfirmedCleanup else TimeBudget
      ensures Over()
    {
      hide Overflows, GivenBack, TooLarge, Prevented, FlagUp, TimeUp, Given;
    }

    lemma {:induction false} GoesOn(n: nat)
      requires Booked(n) && !TimeUp(oracle, 3 * n + 2) && !Prevented(Given(), n)
      requires Proper(Given()) && n < |Given().candidates| && Unstopped(Given(), n)
      requires !TooLarge(Given(), n) && !Overflows(Given(), n) && GivenBack(Given(), n)
      ensures Accounted(n + 1)
    {
      hide Overflows, GivenBack, TooLarge, Prevented, FlagUp, TimeUp, Cost, Bytes, IdsBefore, GraphBefore;
    }

    // The books after the first n + 1 runs.
    ghost predicate Booked(n: nat)
      reads this`evidenceBytes, this`coverageBytes, this`stateRows, this`edges, this`executionIds
    {
      && Proper(Given()) && n < |Given().candidates|
      && evidenceBytes == Bytes(oracle, n + 1) && executionIds == IdsBefore(Given(), n + 1)
      && Found() == GraphBefore(Given(), n + 1) && Costed()
    }

    // The candidate at hand is the next of all.
    lemma {:induction false} AskedNext(steps: seq<Step>, input: nat)
      requires Tags(runs) + [(steps, input)] <= Candidates(shapes, |space.inputs|) && input < |space.inputs|
      ensures Proper(Given()) && |runs| < |Given().candidates|
      ensures Asked(Given(), |runs|) == CandidateOf(space, steps, input)
    {
      hide Candidates, CandidateOf;
      CandidatesAreProper(shapes, |space.inputs|);
      assert (Tags(runs) + [(steps, input)])[|runs|] == (steps, input);
    }

    // The run of a candidate that is the next is written up in this row.
    ghost predicate Writing(row: Row, path: seq<nat>)
      reads this`runs, this`attempted, this`calls, this`categories, this`completed, this`states, this`stateRows, this`edges,
            this`executionIds, this`paths, this`firstFailure
    {
      && attempted == |runs| + 1 == calls && attempted <= limits.maxRuns && Numbered() && row.ordinal == |runs|
      && categories == Categories(runs) && completed == categories[PassedRun] + (if row.category == PassedRun then 1 else 0)
      && Tags(runs) + [Tag(row)] <= Candidates(shapes, |space.inputs|)
      && InOrder(runs) && Clean(runs) && FirstFailure(runs, firstFailure)
      && Pending(space, oracle, runs, row, paths, path, stateRows, edges, executionIds)
    }

    lemma {:induction false} WritingOmitted(row: Row, path: seq<nat>)
      requires Writing(row, path)
      ensures Writing(row.(omitted := true), path)
    {
      hide Candidates, Categories, Numbered, Tags, InOrder, Clean, FirstFailure, Pending;
      PendingOmitted(space, oracle, runs, row, paths, path, stateRows, edges, executionIds);
    }

    // What the evaluation of the next candidate says about its run.
    lemma {:induction false} WeighedMeans(n: nat, used: set<string>, before: Graph, v: Evaluation)
      requires Proper(Given()) && n < |Given().candidates|
      requires used == IdsBefore(Given(), n) && before == GraphBefore(Given(), n)
      requires var a := Answered(Given(), n);
               && Weighed(before, a, Judge(space, a, Asked(Given(), n), used), v, Found(), coverageBytes)
               && executionIds == UsedAfter(space, a, Asked(Given(), n), used)
      ensures v.CoverageExceeded? <==> Overflows(Given(), n)
      ensures v == Evaluated(PassedRun) <==> Passes(Given(), n)
      ensures !v.CoverageExceeded? ==> Found() == GraphBefore(Given(), n + 1) && Costed()
      ensures executionIds == IdsBefore(Given(), n + 1)
    {
      hide Overflowing, Passing, GraphAfter, Asked, Judge, UsedAfter, Cost;
    }

    // From the candidate to what its row will say.
    method MakeRun(steps: seq<Step>, input: nat) returns (row: Row, ghost path: seq<nat>)
      requires Going() && attempted < limits.maxRuns && input < |space.inputs|
      requires Tags(runs) + [(steps, input)] <= Candidates(shapes, |space.inputs|)
      modifies this`coverageBytes, this`states, this`stateRows, this`edges, this`executionIds, this`comparisonRuns, this`completed,
               this`calls, this`attempted, this`halt, this`stopReason
      ensures Writing(row, path) && !row.omitted && Tag(row) == (steps, input)
      ensures var t, n := Given(), |runs|;
              && Proper(t) && n < |t.candidates|
              && (halt <==> Overflows(t, n)) && stopReason == (if halt then CoverageLimit else old(stopReason))
              && (row.category == PassedRun <==> Passes(t, n)) && (row.confirmed <==> GivenBack(t, n))
              && executionIds == IdsBefore(t, n + 1)
              && (!halt ==> Found() == GraphBefore(t, n + 1) && Costed())
    {
      hide KeyOf, CategoryOf, Candidates, WithInputs, Categories, CanonState, ValidReceipt, ExecutionId, Numbered, Tags, AllPassed,
           InOrder, Clean, FirstFailure, Recorded, Pending, Judge, Covered, UsedAfter, CleanupKnown, CategoryAfter, Found,
           Transitions, SameActors, Acceptable, Sights, Weighed, Unstopped, Cost, Given, Rated, GraphBefore, IdsBefore, Overflows, Passes;
      var candidate := CandidateOf(space, steps, input);
      ghost var rows, links, used, graph, n := stateRows, edges, executionIds, Found(), |runs|;
      AskedNext(steps, input);
      var v, confirmed;
      v, confirmed, path := Evaluate(candidate);
      AnsweredNext(n, candidate, confirmed, used);
      WeighedMeans(n, used, graph, v);
      row := WriteUp(input, candidate, v, confirmed, path, rows, links, used);
    }

    // The evaluated run is counted and written up.
    method WriteUp(input: nat, candidate: Candidate, v: Evaluation, confirmed: bool, ghost path: seq<nat>,
                   ghost rows: seq<string>, ghost links: multiset<(nat, nat)>, ghost used: set<string>) returns (row: Row)
      requires attempted == |runs| == calls - 1 && attempted < limits.maxRuns && Numbered() && !halt
      requires categories == Categories(runs) && completed == categories[PassedRun] + (if v == Evaluated(PassedRun) then 1 else 0)
      requires Tags(runs) + [(candidate.steps, input)] <= Candidates(shapes, |space.inputs|)
      requires InOrder(runs) && Clean(runs) && FirstFailure(runs, firstFailure)
      requires Recorded(space, oracle, runs, paths, rows, links, used) && rows <= stateRows
      requires edges == links + Transitions(path) && executionIds == UsedAfter(space, oracle.answers(attempted, candidate), candidate, used)
      requires RowJudged(space, oracle, WrittenUp(attempted, input, candidate, v, confirmed), used, path, stateRows)
      modifies this`attempted, this`halt, this`stopReason
      ensures Writing(row, path) && row == WrittenUp(old(attempted), input, candidate, v, confirmed)
      ensures (halt <==> v.CoverageExceeded?) && stopReason == (if halt then CoverageLimit else old(stopReason))
    {
      hide Candidates, Categories, Numbered, Tags, InOrder, Clean, FirstFailure, Recorded, Pending, RowJudged, UsedAfter, Transitions;
      attempted := attempted + 1;
      if v.CoverageExceeded? {
        halt := true;
        stopReason := CoverageLimit;
      }
      row := Row(attempted - 1, input, candidate, if v.Evaluated? then v.category else EvidenceFailed, confirmed, false);
      RecordedPending(space, oracle, runs, row, paths, path, rows, stateRows, links, used);
    }

    lemma {:induction false} AnsweredNext(n: nat, candidate: Candidate, confirmed: bool, used: set<string>)
      requires Proper(Given()) && n < |Given().candidates| && Asked(Given(), n) == candidate && used == IdsBefore(Given(), n)
      requires confirmed == CleanupKnown(space, oracle.answers(n, candidate), candidate, used)
      ensures Answered(Given(), n) == oracle.answers(n, candidate)
      ensures confirmed <==> GivenBack(Given(), n)
    {
      hide CleanupKnown, Asked, IdsBefore;
    }

    // One run and its row.
    method RunCandidate(steps: seq<Step>, input: nat) returns (go: bool)
      requires Going() && attempted < limits.maxRuns && input < |space.inputs|
      requires Tags(runs) + [(steps, input)] <= Candidates(shapes, |space.inputs|)
      modifies this
      ensures Books() && Rated() && Tags(runs) == old(Tags(runs)) + [(steps, input)] && looks == old(looks)
      ensures |runs| == |old(runs)| + 1 <= |Given().candidates|
      ensures var t, n := Given(), |old(runs)|;
              && (go <==> !TooLarge(t, n) && !Overflows(t, n) && GivenBack(t, n))
              && (go ==> !halt && Clean(runs) && stopReason == old(stopReason) && Booked(n))
              && (!go ==> halt && stopReason == if TooLarge(t, n) then EvidenceLimit else if Overflows(t, n) then CoverageLimit
                                                else UnconfirmedCleanup)
    {
      hide Candidates, Tags, Clean, Found, Cost, GraphBefore, IdsBefore, Overflows, Passes, Writing, Books, Unstopped,
           Costed, Recorded, GivenBack, Going;
      ghost var n := |runs|;
      ghost var rated := runs;
      GoingBytes();
      var row, path := MakeRun(steps, input);
      go := RecordRun(row, path);
      RatedNext(rated);
    }

    lemma {:induction false} GoingBytes()
      requires Going()
      ensures evidenceBytes == Bytes(oracle, |runs|) && Rated() && !halt && Books()
      ensures forall k :: 0 <= k < |runs| ==> (runs[k].category == PassedRun <==> Passes(Given(), k))
      ensures attempted == |runs| <= limits.maxRuns && Proper(Given()) && Unstopped(Given(), |runs|)
    {
      hide Clean, Passes, Overflows, GraphBefore, Candidates, Categories, Numbered, Tags, InOrder, Clean, FirstFailure, Recorded, Costed, Found, Unstopped;
    }

    lemma {:induction false} RatedNext(before: seq<Row>)
      requires Proper(Given()) && |before| < |Given().candidates|
      requires forall k :: 0 <= k < |before| ==> (before[k].category == PassedRun <==> Passes(Given(), k))
      requires |runs| == |before| + 1 && runs[..|before|] == before
      requires runs[|before|].category == PassedRun <==> Passes(Given(), |before|)
      requires !Overflows(Given(), |before|) ==> Found() == GraphBefore(Given(), |before| + 1)
      ensures Rated()
    {
      hide Passes, Given, Overflows, GraphBefore, Found;
      forall k | 0 <= k < |before| ensures runs[k].category == PassedRun <==> Passes(Given(), k) {
        assert runs[..|before|][k] == runs[k];
      }
    }

    // The row of the run just made goes on record.
    method PushRow(row: Row, ghost path: seq<nat>)
      requires Writing(row, path)
      modifies this`categories, this`firstFailure, this`runs, this`paths
      ensures Books() && Tags(runs) == old(Tags(runs)) + [Tag(row)]
      ensures row.confirmed && !row.omitted ==> Clean(runs)
      ensures runs == old(runs) + [row]
    {
      hide KeyOf, CategoryOf, Candidates, WithInputs, Categories, CanonState, ValidReceipt, ExecutionId, Numbered, Tags, AllPassed,
           InOrder, Clean, FirstFailure, Pending, Recorded;
      Pushed(runs, row, firstFailure);
      PendingRecorded(space, oracle, runs, row, paths, path, stateRows, edges, executionIds);
      if row.category != PassedRun && firstFailure.None? { firstFailure := Some(row.ordinal); }
      categories := categories + multiset{row.category};
      runs := runs + [row];
      paths := paths + [path];
    }

    // The evidence of the run, and whether the loops go on after it.
    method RecordRun(row: Row, ghost path: seq<nat>) returns (go: bool)
      requires Writing(row, path) && !row.omitted && (halt ==> stopReason == CoverageLimit)
      modifies this`categories, this`firstFailure, this`evidenceBytes, this`runs, this`paths, this`stopReason, this`halt
      ensures Books() && Tags(runs) == old(Tags(runs)) + [Tag(row)]
      ensures var large := old(evidenceBytes) + oracle.rowBytes(|old(runs)|) > limits.maxEvidence;
              && runs == old(runs) + [row.(omitted := large)]
              && (go <==> !large && !old(halt) && row.confirmed)
              && (go ==> !halt && Clean(runs) && stopReason == old(stopReason)
                         && evidenceBytes == old(evidenceBytes) + oracle.rowBytes(|old(runs)|))
              && (!go ==> halt && stopReason == if large then EvidenceLimit else if old(halt) then CoverageLimit
                                                else UnconfirmedCleanup)
    {
      hide Writing, Books, Clean, Tags;
      WritingOmitted(row, path);
      NumberOf(row, path);
      var bytes := oracle.rowBytes(attempted - 1);
      var omitted := evidenceBytes + bytes > limits.maxEvidence;
      if !omitted { evidenceBytes := evidenceBytes + bytes; }
      PushRow(if omitted then row.(omitted := true) else row, path);
      go := !halt && !omitted && row.confirmed;
      if omitted { stopReason := EvidenceLimit; }
      else if !halt && !row.confirmed { stopReason := UnconfirmedCleanup; }
      if !go { halt := true; }
    }

    lemma {:induction false} NumberOf(row: Row, path: seq<nat>)
      requires Writing(row, path)
      ensures attempted == |runs| + 1
    {
      hide Candidates, Categories, Numbered, Tags, InOrder, Clean, FirstFailure, Pending;
    }

    // The check in front of every run; when it fails, flag and clock are looked at again for the reason.
    method Limited() returns (stop: bool)
      requires Going() && looks == 3 * |runs| && |runs| < |Given().candidates|
      modifies this`stopReason, this`halt, this`looks
      ensures stop ==> Books() && Rated() && halt && Over()
      ensures !stop ==> Going() && !halt && !Prevented(Given(), |runs|) && looks == 3 * |runs| + 2 && stopReason == old(stopReason)
    {
      hide Going, Books, Rated, Over, FlagUp, TimeUp, Unstopped;
      ghost var n := |runs|;
      GoingBytes();
      FlagStaysUp(n);
      var cancelled := IsCancelled();
      var late := false;
      if !cancelled { late := IsLate(); }
      if !cancelled && !late && attempted < limits.maxRuns { return false; }
      GiveReason();
      return true;
    }

    // The second look.
    method GiveReason()
      requires Proper(Given()) && |runs| < |Given().candidates| && |runs| <= limits.maxRuns
      requires Unstopped(Given(), |runs|) && Prevented(Given(), |runs|)
      requires looks == 3 * |runs| + 2 || (looks == 3 * |runs| + 1 && FlagUp(oracle, 3 * |runs|))
      modifies this`stopReason, this`halt, this`looks
      ensures halt && Over()
    {
      hide Over, FlagUp, TimeUp, Unstopped;
      FlagStaysUp(|runs|);
      var cancelled := IsCancelled();
      var late := false;
      if !cancelled { late := IsLate(); }
      stopReason := if cancelled then CancelRequested else if late then TimeBudget else RunLimit;
      halt := true;
      EndsBefore(|runs|);
    }

    lemma {:induction false} FlagStaysUp(n: nat)
      ensures FlagUp(oracle, 3 * n) ==> FlagUp(oracle, 3 * n + 1) && FlagUp(oracle, 3 * n + 2)
      ensures TimeUp(oracle, 3 * n + 1) ==> TimeUp(oracle, 3 * n + 3)
    {
    }

    // The next run is prevented.
    lemma {:induction false} EndsBefore(n: nat)
      requires Proper(Given()) && |runs| == n < |Given().candidates| && halt && n <= limits.maxRuns
      requires Unstopped(Given(), n) && Prevented(Given(), n)
      requires stopReason == if FlagUp(oracle, 3 * n + 2) then CancelRequested
                             else if TimeUp(oracle, 3 * n + 3) then TimeBudget else RunLimit
      ensures Over()
    {
      hide Overflows, GivenBack, TooLarge;
      if n > 0 { assert !Last(Given(), n - 1); }
    }

    // All runs, and the verdict: complete iff the enumeration was and the outside is flawless.
    method Run(enumerationExhausted: bool) returns (exhausted: bool, complete: bool)
      requires Going() && runs == [] && NoDuplicates(shapes) && looks == 0 && !halt
      requires stopReason == (if enumerationExhausted then NotSet else EnumerationStopped)
      modifies this
      ensures Books()
      ensures exhausted <==> enumerationExhausted && attempted == |shapes| * |space.inputs|
      ensures complete <==> exhausted && completed == |shapes| * |space.inputs| && !halt
      ensures RatedAs(Given(), runs, Found())
      ensures Proper(Given()) && Makes(Given(), |runs|) && (halt <==> Halts(Given(), |runs|))
      ensures if Halts(Given(), |runs|) then StopsFor(Given(), |runs|, stopReason)
              else attempted == |shapes| * |space.inputs| && stopReason == Conclusion(enumerationExhausted, complete)
      ensures complete <==> enumerationExhausted && Flawless(Given())
      ensures complete ==> Tags(runs) == Candidates(shapes, |space.inputs|) && AllPassed(runs)
    {
      hide Candidates, WithInputs, Tags, Going, Books, RatedAs, Over, Flawless, StopsFor, Makes, Halts, Prevented, AllPassed;
      var inputs := |space.inputs|;
      label outer: for s := 0 to |shapes|
        invariant Going() && Tags(runs) == Candidates(shapes[..s], inputs) && looks == 3 * |runs| && !halt
        invariant stopReason == (if enumerationExhausted then NotSet else EnumerationStopped)
      {
        CandidatesGrow(shapes, s, inputs);
        for i := 0 to inputs
          invariant Going() && Tags(runs) == Candidates(shapes[..s], inputs) + WithInputs(shapes[s], inputs)[..i]
          invariant stopReason == (if enumerationExhausted then NotSet else EnumerationStopped) && looks == 3 * |runs| && !halt
        {
          NextCandidate(Candidates(shapes[..s], inputs), WithInputs(shapes[s], inputs), i, Candidates(shapes, inputs));
          AskedNext(shapes[s], i);
          var stop := Limited();
          if stop { break outer; }
          var go := Attempt(shapes[s], i);
          if !go { break outer; }
        }
        assert WithInputs(shapes[s], inputs)[..inputs] == WithInputs(shapes[s], inputs);
      }
      assert shapes[..|shapes|] == shapes;
      if halt { OverMeans(); } else { FinishedMeans(); }
      Counted();
      exhausted := enumerationExhausted && attempted == |shapes| * inputs;
      complete := exhausted && completed == |shapes| * inputs && !halt;
      if stopReason == NotSet { stopReason := if complete then Reason.Complete else NonPassRuns; }
    }

    // What the books say, item by item.
    lemma {:induction false} BooksSay()
      requires Books()
      ensures attempted == |runs| <= limits.maxRuns && Tags(runs) <= Candidates(shapes, |space.inputs|)
      ensures categories == Categories(runs) && completed == categories[PassedRun] && FirstFailure(runs, firstFailure)
      ensures Recorded(space, oracle, runs, paths, stateRows, edges, executionIds) && InOrder(runs)
      ensures NoDuplicates(stateRows) && forall k :: 0 <= k < |runs| - 1 ==> runs[k].confirmed
    {
      hide Candidates, Categories, Tags, InOrder, FirstFailure, Recorded, NoDuplicates;
      StatesOnce();
      forall k | 0 <= k < |runs| - 1 ensures runs[k].confirmed { assert runs[..|runs| - 1][k] == runs[k]; }
    }

    lemma {:induction false} Counted()
      requires Books()
      ensures attempted == |runs| && completed <= attempted && (completed == attempted <==> AllPassed(runs))
    {
      hide Candidates, Categories, Numbered, Tags, InOrder, Clean, FirstFailure, Recorded, AllPassed;
      CategoryCounts(runs);
    }

    lemma {:induction false} NotPrevented()
      requires Books() && Proper(Given()) && !Prevented(Given(), |runs|)
      ensures attempted < limits.maxRuns
    {
    }

    lemma {:induction false} OverMeans()
      requires Over()
      ensures Proper(Given()) && Makes(Given(), |runs|) && Halts(Given(), |runs|) && StopsFor(Given(), |runs|, stopReason)
      ensures !Flawless(Given())
      ensures stopReason != NotSet
    {
      hide Flawless, Prevented, Last, Given, Passes, StopsFor;
      AllPassIff(Given());
      ReasonNamed(Given(), |runs|, stopReason);
    }

    lemma {:induction false} FinishedMeans()
      requires Going() && Tags(runs) == Candidates(shapes, |space.inputs|)
      ensures Proper(Given()) && |runs| == |Given().candidates| && Makes(Given(), |runs|) && !Halts(Given(), |runs|)
      ensures AllPassed(runs) <==> Flawless(Given())
      ensures Books() && Rated()
    {
      hide Flawless, GraphBefore, Overflows, Prevented, Last, Passes, Books, Costed, Candidates;
      AllPassIff(Given());
    }
  }

  // What is said about loops that were not left early.
  function Conclusion(enumerationExhausted: bool, complete: bool): Reason {
    if !enumerationExhausted then EnumerationStopped else if complete then Reason.Complete else NonPassRuns
  }
}
