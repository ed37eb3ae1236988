// How far an exploration gets, read off its inputs: what each run adds to the books, and
// which run the loops of explore_finite do not go beyond (src/schedule_exploration.rs:429-653).
module CampaignCourse {
  import opened Wrappers
  import opened Schedule
  import opened Canonical
  import opened Campaign

  // ------------------------------------------------------ the state graph

  // The states in the order of their discovery, and the transitions between them.
  datatype Graph = Graph(rows: seq<string>, edges: multiset<(nat, nat)>)

  // Where a state stands; the length of the list when it is new.
  function IdIn(rows: seq<string>, key: string): (id: nat)
    ensures id <= |rows| && (id < |rows| ==> rows[id] == key)
    ensures forall j :: 0 <= j < id ==> rows[j] != key
  {
    if rows == [] then 0 else if rows[0] == key then 0 else 1 + IdIn(rows[1..], key)
  }

  function With(rows: seq<string>, key: string): seq<string> {
    if IdIn(rows, key) < |rows| then rows else rows + [key]
  }

  // One more observation on the way.
  function Entered(g: Graph, prior: Option<nat>, key: string): Graph {
    Graph(With(g.rows, key), g.edges + Hop(prior, Some(IdIn(g.rows, key))))
  }

  // The observations of one run, in order.
  function Walked(g: Graph, keys: seq<string>): Graph {
    if keys == [] then g
    else
      var front := keys[..|keys| - 1];
      var h := Walked(g, front);
      Entered(h, if front == [] then None else Some(IdIn(h.rows, front[|front| - 1])), keys[|keys| - 1])
  }

  function RowCost(rows: seq<string>): nat {
    if rows == [] then 0 else RowCost(rows[..|rows| - 1]) + |rows[|rows| - 1]| + 128
  }

  function Pairs(edges: multiset<(nat, nat)>): set<(nat, nat)> { set e | e in edges }

  // What a graph counts against the coverage bound: its texts, and 128 for each state and each
  // pair of states with a transition.
  function Cost(g: Graph): nat { RowCost(g.rows) + 128 * |Pairs(g.edges)| }

  lemma {:induction false} RowCostWith(rows: seq<string>, key: string)
    ensures RowCost(With(rows, key)) == RowCost(rows) + if IdIn(rows, key) < |rows| then 0 else |key| + 128
  {
    assert (rows + [key])[..|rows|] == rows;
  }

  lemma {:induction false} PairsWith(edges: multiset<(nat, nat)>, e: (nat, nat))
    ensures |Pairs(edges + multiset{e})| == |Pairs(edges)| + if e in edges then 0 else 1
  {
    assert Pairs(edges + multiset{e}) == Pairs(edges) + {e};
    if e in edges { assert Pairs(edges) + {e} == Pairs(edges); }
  }

  lemma {:induction false} EnteredCost(g: Graph, prior: Option<nat>, key: string)
    ensures var id := IdIn(g.rows, key);
            Cost(Entered(g, prior, key))
            == Cost(g) + (if id < |g.rows| then 0 else |key| + 128)
             + (if prior.None? || (prior.value, id) in g.edges then 0 else 128)
  {
    RowCostWith(g.rows, key);
    var id := IdIn(g.rows, key);
    if prior.Some? {
      PairsWith(g.edges, (prior.value, id));
    } else {
      assert g.edges + multiset{} == g.edges;
    }
  }

  // What is on record stays, and costs no less.
  lemma {:induction false} WalkedCost(g: Graph, keys: seq<string>, n: nat)
    requires n <= |keys|
    ensures Cost(Walked(g, keys[..n])) <= Cost(Walked(g, keys))
    decreases |keys|
  {
    hide Cost, Entered;
    if n < |keys| {
      var front := keys[..|keys| - 1];
      WalkedCost(g, front, n);
      assert front[..n] == keys[..n];
      var h := Walked(g, front);
      EnteredCost(h, if front == [] then None else Some(IdIn(h.rows, front[|front| - 1])), keys[|keys| - 1]);
    } else {
      assert keys[..n] == keys;
    }
  }

  // The keys of the observations, as far as these are numbered and can be projected.
  function Keys(space: Space, observations: seq<Sight>, i: nat): (keys: seq<string>)
    requires i <= |observations|
    ensures i + |keys| <= |observations|
    decreases |observations| - i
  {
    if i == |observations| || Unusable(space, observations, i) then []
    else [KeyOf(observations[i], space.variables, space.ignored).value] + Keys(space, observations, i + 1)
  }

  lemma {:induction false} KeysAre(space: Space, observations: seq<Sight>, i: nat, j: nat)
    requires i <= j < |observations| && j <= i + |Keys(space, observations, i)|
    ensures j == i + |Keys(space, observations, i)| <==> Unusable(space, observations, j)
    ensures j < i + |Keys(space, observations, i)| ==>
              Some(Keys(space, observations, i)[j - i]) == KeyOf(observations[j], space.variables, space.ignored)
    decreases j - i
  {
    hide KeyOf;
    if i < j { KeysAre(space, observations, i + 1, j); }
  }

  predicate Unusable(space: Space, observations: seq<Sight>, i: nat)
    requires i < |observations|
  {
    observations[i].afterSteps != i || KeyOf(observations[i], space.variables, space.ignored).None?
  }

  // What the observations of an answer add to the graph: nothing, unless it is judged passed.
  function GraphAfter(space: Space, a: Answer, judged: Option<Category>, g: Graph): Graph {
    if judged == Some(PassedRun) then Walked(g, Keys(space, Sights(a), 0)) else g
  }

  // The coverage bound is exceeded, or the runner says so of itself.
  predicate Overflowing(space: Space, a: Answer, judged: Option<Category>, g: Graph) {
    a == RunnerFailed(COVERAGE_MESSAGE) || Cost(GraphAfter(space, a, judged, g)) > COVERAGE_BOUND
  }

  // The run counts as passed: all its observations could be used, and within the bound.
  predicate Passing(space: Space, a: Answer, judged: Option<Category>, g: Graph) {
    judged == Some(PassedRun) && |Keys(space, Sights(a), 0)| == |Sights(a)| && !Overflowing(space, a, judged, g)
  }

  lemma {:induction false} IdInWith(rows: seq<string>, key: string)
    ensures IdIn(With(rows, key), key) == IdIn(rows, key) < |With(rows, key)|
  {
    if IdIn(rows, key) == |rows| {
      var i := IdIn(With(rows, key), key);
      assert With(rows, key)[|rows|] == key;
    }
  }

  // Without repetitions a state has one place.
  lemma {:induction false} IdInAt(rows: seq<string>, id: nat)
    requires id < |rows| && NoDuplicates(rows)
    ensures IdIn(rows, rows[id]) == id
  {
    var i := IdIn(rows, rows[id]);
  }

  lemma {:induction false} WalkedPush(g: Graph, keys: seq<string>, i: nat)
    requires i < |keys|
    ensures var h := Walked(g, keys[..i]);
            && Walked(g, keys[..i + 1])
               == Entered(h, if i == 0 then None else Some(IdIn(h.rows, keys[i - 1])), keys[i])
            && IdIn(Walked(g, keys[..i + 1]).rows, keys[i]) == IdIn(h.rows, keys[i])
  {
    hide With, Entered;
    assert keys[..i + 1][..i] == keys[..i];
    EnteredRows(Walked(g, keys[..i]), if i == 0 then None else Some(IdIn(Walked(g, keys[..i]).rows, keys[i - 1])), keys[i]);
  }

  lemma {:induction false} EnteredRows(g: Graph, prior: Option<nat>, key: string)
    ensures Entered(g, prior, key).rows == With(g.rows, key)
    ensures IdIn(Entered(g, prior, key).rows, key) == IdIn(g.rows, key)
  {
    IdInWith(g.rows, key);
  }

  // The answer brings a comparison that is about it.
  predicate Compared(a: Answer) { a.Sample? && a.comparison.Some? && CategoryOf(a.receipt, a.comparison).Some? }

  // ------------------------------------------------------ the runs

  // All that the loops are given.
  datatype Task = Task(candidates: seq<(seq<Step>, nat)>, space: Space, limits: Limits, oracle: Oracle)

  predicate Proper(t: Task) { forall k :: 0 <= k < |t.candidates| ==> t.candidates[k].1 < |t.space.inputs| }

  function Asked(t: Task, k: nat): Candidate
    requires Proper(t) && k < |t.candidates|
  {
    CandidateOf(t.space, t.candidates[k].0, t.candidates[k].1)
  }

  function Answered(t: Task, k: nat): Answer
    requires Proper(t) && k < |t.candidates|
  {
    t.oracle.answers(k, Asked(t, k))
  }

  // The ids in use when run k is made.
  function IdsBefore(t: Task, k: nat): set<string>
    requires Proper(t) && k <= |t.candidates|
  {
    if k == 0 then {} else UsedAfter(t.space, Answered(t, k - 1), Asked(t, k - 1), IdsBefore(t, k - 1))
  }

  function JudgedAs(t: Task, k: nat): Option<Category>
    requires Proper(t) && k < |t.candidates|
  {
    Judge(t.space, Answered(t, k), Asked(t, k), IdsBefore(t, k))
  }

  // The states that the observations of run k name.
  function Visits(t: Task, k: nat): seq<string>
    requires Proper(t) && k < |t.candidates|
  {
    Keys(t.space, Sights(Answered(t, k)), 0)
  }

  function GraphBefore(t: Task, k: nat): Graph
    requires Proper(t) && k <= |t.candidates|
  {
    if k == 0 then Graph([], multiset{})
    else GraphAfter(t.space, Answered(t, k - 1), JudgedAs(t, k - 1), GraphBefore(t, k - 1))
  }

  predicate Overflows(t: Task, k: nat)
    requires Proper(t) && k < |t.candidates|
  {
    Overflowing(t.space, Answered(t, k), JudgedAs(t, k), GraphBefore(t, k))
  }

  predicate GivenBack(t: Task, k: nat)
    requires Proper(t) && k < |t.candidates|
  {
    CleanupKnown(t.space, Answered(t, k), Asked(t, k), IdsBefore(t, k))
  }

  predicate Passes(t: Task, k: nat)
    requires Proper(t) && k < |t.candidates|
  {
    Passing(t.space, Answered(t, k), JudgedAs(t, k), GraphBefore(t, k))
  }

  // The rows of the first k runs together.
  function Bytes(o: Oracle, k: nat): nat { if k == 0 then 0 else Bytes(o, k - 1) + o.rowBytes(k - 1) }

  // Each run takes three looks: at the caller's flag and at the clock before it, at the clock after it.
  predicate Prevented(t: Task, k: nat) {
    FlagUp(t.oracle, 3 * k) || TimeUp(t.oracle, 3 * k + 1) || k >= t.limits.maxRuns
  }

  predicate TooLarge(t: Task, k: nat) { Bytes(t.oracle, k + 1) > t.limits.maxEvidence }

  // Run k is the last.
  predicate Last(t: Task, k: nat)
    requires Proper(t) && k < |t.candidates|
  {
    TooLarge(t, k) || Overflows(t, k) || !GivenBack(t, k) || TimeUp(t.oracle, 3 * k + 2)
  }

  // After n runs the loops have got as far as this, and nothing has stopped them.
  predicate Unstopped(t: Task, n: nat)
    requires Proper(t)
  {
    n <= |t.candidates| && forall k :: 0 <= k < n ==> !Prevented(t, k) && !Last(t, k)
  }

  // What rows and graph say about the first runs: passed is said of those that pass, and the graph
  // is theirs, unless the last of them has exceeded the bound.
  predicate RatedAs(t: Task, runs: seq<Row>, g: Graph) {
    var n := |runs|;
    && Proper(t) && n <= |t.candidates|
    && (forall k :: 0 <= k < n ==> (runs[k].category == PassedRun <==> Passes(t, k)))
    && (n == 0 || !Overflows(t, n - 1) ==> g == GraphBefore(t, n))
  }

  // The number of runs that the loops make.
  predicate Makes(t: Task, n: nat)
    requires Proper(t)
  {
    && n <= |t.candidates|
    && (forall k :: 0 <= k < n ==> !Prevented(t, k) && (k + 1 < n ==> !Last(t, k)))
    && (n == |t.candidates| || Prevented(t, n) || (n > 0 && Last(t, n - 1)))
  }

  // It is determined.
  lemma {:induction false} MakesOnce(t: Task, m: nat, n: nat)
    requires Proper(t) && Makes(t, m) && Makes(t, n)
    ensures m == n
  {
    hide Prevented, Last;
  }

  // What the report names as having stopped the loops after n runs, each reason with its condition;
  // what ends a run comes before what prevents the next, and when that is prevented flag and
  // clock are looked at once more.
  predicate StopsFor(t: Task, n: nat, stopReason: Reason)
    requires Proper(t) && n <= |t.candidates|
  {
    var ended := n > 0 && Last(t, n - 1);
    var prevented := !ended && n < |t.candidates| && Prevented(t, n);
    && (stopReason == EvidenceLimit <==> n > 0 && TooLarge(t, n - 1))
    && (stopReason == CoverageLimit <==> n > 0 && !TooLarge(t, n - 1) && Overflows(t, n - 1))
    && (stopReason == UnconfirmedCleanup <==>
          n > 0 && !TooLarge(t, n - 1) && !Overflows(t, n - 1) && !GivenBack(t, n - 1))
    && (stopReason == CancelRequested <==> prevented && FlagUp(t.oracle, 3 * n + 2))
    && (stopReason == TimeBudget <==>
          || (ended && !TooLarge(t, n - 1) && !Overflows(t, n - 1) && GivenBack(t, n - 1))
          || (prevented && !FlagUp(t.oracle, 3 * n + 2) && TimeUp(t.oracle, 3 * n + 3)))
    && (stopReason == RunLimit <==>
          prevented && n == t.limits.maxRuns && !FlagUp(t.oracle, 3 * n + 2) && !TimeUp(t.oracle, 3 * n + 3))
  }

  // The loops were left early.
  predicate Halts(t: Task, n: nat)
    requires Proper(t) && n <= |t.candidates|
  {
    (n > 0 && Last(t, n - 1)) || (n < |t.candidates| && Prevented(t, n))
  }

  // One reason is given, and only when the loops were left early.
  lemma {:induction false} ReasonNamed(t: Task, n: nat, stopReason: Reason)
    requires Proper(t) && n <= |t.candidates| && Makes(t, n) && Halts(t, n) && StopsFor(t, n, stopReason)
    ensures stopReason == EvidenceLimit || stopReason == CoverageLimit || stopReason == UnconfirmedCleanup
            || stopReason == CancelRequested || stopReason == TimeBudget || stopReason == RunLimit
  {
    hide TooLarge, Overflows, GivenBack;
    if n > 0 { assert !Prevented(t, n - 1); }
  }

  lemma {:induction false} WalkedRows(g: Graph, keys: seq<string>, row: string)
    ensures row in Walked(g, keys).rows <==> row in g.rows || row in keys
  {
    hide Hop;
    if keys != [] {
      var front := keys[..|keys| - 1];
      WalkedRows(g, front, row);
      assert keys == front + [keys[|keys| - 1]];
      var i := IdIn(Walked(g, front).rows, keys[|keys| - 1]);
    }
  }

  // The states of the graph are those that some run judged passed has named.
  lemma {:induction false} StatesAreVisited(t: Task, k: nat, row: string)
    requires Proper(t) && k <= |t.candidates|
    ensures row in GraphBefore(t, k).rows
       <==> exists j :: 0 <= j < k && JudgedAs(t, j) == Some(PassedRun) && row in Visits(t, j)
  {
    hide JudgedAs, Visits, Walked;
    if k > 0 {
      StatesAreVisited(t, k - 1, row);
      RowsAfter(t, k - 1, row);
    }
  }

  lemma {:induction false} RowsAfter(t: Task, k: nat, row: string)
    requires Proper(t) && k < |t.candidates|
    ensures row in GraphBefore(t, k + 1).rows
       <==> row in GraphBefore(t, k).rows || (JudgedAs(t, k) == Some(PassedRun) && row in Visits(t, k))
  {
    hide JudgedAs, Walked, Keys;
    WalkedRows(GraphBefore(t, k), Visits(t, k), row);
  }

  // ------------------------------------------------------ when everything passes

  lemma {:induction false} BytesGrow(o: Oracle, j: nat, k: nat)
    requires j <= k
    ensures Bytes(o, j) <= Bytes(o, k)
  {
    if j < k { BytesGrow(o, j, k - 1); }
  }

  lemma {:induction false} CostGrows(t: Task, j: nat, k: nat)
    requires Proper(t) && j <= k <= |t.candidates|
    ensures Cost(GraphBefore(t, j)) <= Cost(GraphBefore(t, k))
    decreases k - j
  {
    hide Cost, GraphAfter, JudgedAs;
    if j < k {
      CostGrows(t, j, k - 1);
      AfterCost(t.space, Answered(t, k - 1), JudgedAs(t, k - 1), GraphBefore(t, k - 1));
    }
  }

  lemma {:induction false} AfterCost(space: Space, a: Answer, judged: Option<Category>, g: Graph)
    ensures Cost(g) <= Cost(GraphAfter(space, a, judged, g))
  {
    hide Cost, Walked, Keys;
    var keys := Keys(space, Sights(a), 0);
    WalkedCost(g, keys, 0);
    assert keys[..0] == [] && Walked(g, []) == g by { WalkedNowhere(g); }
  }

  lemma {:induction false} OverflowForm(t: Task, k: nat)
    requires Proper(t) && k < |t.candidates|
    ensures Overflows(t, k) <==> Answered(t, k) == RunnerFailed(COVERAGE_MESSAGE) || Cost(GraphBefore(t, k + 1)) > COVERAGE_BOUND
  {
    hide Cost, GraphAfter, JudgedAs, Answered;
  }

  lemma {:induction false} PassesForm(t: Task, k: nat)
    requires Proper(t) && k < |t.candidates|
    ensures Passes(t, k)
       <==> JudgedAs(t, k) == Some(PassedRun) && |Visits(t, k)| == |Sights(Answered(t, k))| && !Overflows(t, k)
  {
    hide GraphBefore, JudgedAs, Answered, Overflowing;
  }

  lemma {:induction false} NoWalk(g: Graph, keys: seq<string>)
    ensures Walked(g, keys[..0]) == g
  {
    assert keys[..0] == [];
  }

  lemma {:induction false} WalkedAll(g: Graph, keys: seq<string>, n: nat)
    requires n <= |keys|
    ensures n == |keys| ==> Walked(g, keys[..n]) == Walked(g, keys)
  {
    hide Walked;
    if n == |keys| { assert keys[..n] == keys; }
  }

  lemma {:induction false} WalkedNowhere(g: Graph)
    ensures Walked(g, []) == g
  {
  }

  // Everything a complete exploration needs from outside: as many runs as there are candidates,
  // neither flag nor clock in the way, rows and coverage within their bounds, and for every
  // candidate a genuine answer of its own, all of whose observations can be used.
  predicate Flawless(t: Task)
    requires Proper(t)
  {
    var n := |t.candidates|;
    && n <= t.limits.maxRuns
    && (n > 0 ==> !FlagUp(t.oracle, 3 * n - 3) && !TimeUp(t.oracle, 3 * n - 1))
    && Bytes(t.oracle, n) <= t.limits.maxEvidence
    && Cost(GraphBefore(t, n)) <= COVERAGE_BOUND
    && (forall k :: 0 <= k < n ==> Genuine(t.space, Answered(t, k), Asked(t, k)) && Usable(t, k))
    && (forall j, k :: 0 <= j < k < n && Answered(t, j).Sample? && Answered(t, k).Sample? ==>
          Answered(t, j).receipt.id != Answered(t, k).receipt.id)
  }

  predicate Usable(t: Task, k: nat)
    requires Proper(t) && k < |t.candidates|
  {
    var observations := Sights(Answered(t, k));
    forall i :: 0 <= i < |observations| ==> !Unusable(t.space, observations, i)
  }

  lemma {:induction false} UsableVisits(t: Task, k: nat)
    requires Proper(t) && k < |t.candidates|
    ensures Usable(t, k) <==> |Visits(t, k)| == |Sights(Answered(t, k))|
  {
    hide KeyOf, Asked, Unusable, Keys;
    var observations := Sights(Answered(t, k));
    var n := |Visits(t, k)|;
    forall i | 0 <= i < n ensures !Unusable(t.space, observations, i) { KeysAre(t.space, observations, 0, i); }
    if n < |observations| { KeysAre(t.space, observations, 0, n); }
  }

  // With genuine answers the ids in use are those of the runs before.
  lemma {:induction false} IdsOfGenuine(t: Task, k: nat)
    requires Proper(t) && k <= |t.candidates|
    requires forall j :: 0 <= j < k ==> JudgedAs(t, j) == Some(PassedRun)
    ensures forall j :: 0 <= j < k ==> Answered(t, j).Sample? && Answered(t, j).receipt.id in IdsBefore(t, k)
    ensures forall id :: id in IdsBefore(t, k) ==> exists j :: 0 <= j < k && Answered(t, j).Sample? && Answered(t, j).receipt.id == id
  {
    hide Genuine, Asked, JudgedAs, Acceptable, Answered;
    if k > 0 {
      IdsOfGenuine(t, k - 1);
      JudgedIsAcceptable(t, k - 1);
      assert IdsBefore(t, k) == IdsBefore(t, k - 1) + {Answered(t, k - 1).receipt.id};
    }
  }

  lemma {:induction false} JudgedIsAcceptable(t: Task, k: nat)
    requires Proper(t) && k < |t.candidates| && JudgedAs(t, k) == Some(PassedRun)
    ensures Answered(t, k).Sample? && Acceptable(t.space, Answered(t, k), Asked(t, k), IdsBefore(t, k))
  {
    hide Acceptable, Assessed, IdsBefore;
    AcceptableIsSample(t.space, Answered(t, k), Asked(t, k), IdsBefore(t, k));
  }

  lemma {:induction false} AcceptableIsSample(space: Space, a: Answer, c: Candidate, used: set<string>)
    requires Acceptable(space, a, c, used)
    ensures a.Sample?
  {
  }

  // A run whose answer is genuine and new has given back its workers.
  lemma {:induction false} GenuineIsGivenBack(t: Task, k: nat)
    requires Proper(t) && k < |t.candidates| && JudgedAs(t, k) == Some(PassedRun)
    ensures GivenBack(t, k) && Genuine(t.space, Answered(t, k), Asked(t, k)) && Answered(t, k).receipt.id !in IdsBefore(t, k)
  {
    hide ValidReceipt, ExecutionId, SameActors, CategoryOf, Judge, IdsBefore, Assessed;
    PassedIsGenuine(t.space, Answered(t, k), Asked(t, k), IdsBefore(t, k));
    JudgedIsAcceptable(t, k);
  }

  // All runs pass and nothing stops the loops exactly when the outside is flawless.
  lemma {:induction false} AllPassIff(t: Task)
    requires Proper(t)
    ensures Unstopped(t, |t.candidates|) && (forall k :: 0 <= k < |t.candidates| ==> Passes(t, k)) <==> Flawless(t)
  {
    hide Passes, Usable, Genuine, Prevented, Last, Cost, GraphBefore, Bytes, Answered;
    var n := |t.candidates|;
    if Unstopped(t, n) && forall k :: 0 <= k < n ==> Passes(t, k) { PassingIsFlawless(t); }
    if Flawless(t) { FlawlessPasses(t); }
  }

  lemma {:induction false} PassingIsFlawless(t: Task)
    requires Proper(t) && Unstopped(t, |t.candidates|) && forall k :: 0 <= k < |t.candidates| ==> Passes(t, k)
    ensures Flawless(t)
  {
    hide Genuine, Cost, GraphBefore, Bytes, Answered, JudgedAs, Visits, IdsBefore, GivenBack, Usable, Passes, Overflows;
    var n := |t.candidates|;
    forall k | 0 <= k < n
      ensures JudgedAs(t, k) == Some(PassedRun) && Usable(t, k) && Genuine(t.space, Answered(t, k), Asked(t, k))
      ensures Answered(t, k).Sample? && Answered(t, k).receipt.id !in IdsBefore(t, k)
    {
      assert Passes(t, k);
      PassesForm(t, k);
      UsableVisits(t, k);
      JudgedIsAcceptable(t, k);
      GenuineIsGivenBack(t, k);
    }
    forall j, k | 0 <= j < k < n ensures Answered(t, j).receipt.id != Answered(t, k).receipt.id {
      IdsOfGenuine(t, k);
    }
    if n > 0 {
      assert !Prevented(t, n - 1) && !Last(t, n - 1);
      OverflowForm(t, n - 1);
    } else { NothingYet(t); }
  }

  lemma {:induction false} CandidatesAreProper(shapes: seq<seq<Step>>, n: nat)
    ensures forall k :: 0 <= k < |Candidates(shapes, n)| ==> Candidates(shapes, n)[k].1 < n
  {
    hide Candidates;
    forall k | 0 <= k < |Candidates(shapes, n)| ensures Candidates(shapes, n)[k].1 < n {
      InCandidates(shapes, n, Candidates(shapes, n)[k]);
    }
  }

  lemma {:induction false} NothingYet(t: Task)
    requires Proper(t)
    ensures Cost(GraphBefore(t, 0)) == 0 && Bytes(t.oracle, 0) == 0
  {
    assert Pairs(multiset{}) == {};
  }

  lemma {:induction false} FlawlessJudged(t: Task, k: nat)
    requires Proper(t) && Flawless(t) && k < |t.candidates|
    ensures forall j :: 0 <= j <= k ==> JudgedAs(t, j) == Some(PassedRun)
  {
    hide Genuine, Cost, GraphBefore, Bytes, Usable, IdsBefore, Asked, Answered;
    if k > 0 { FlawlessJudged(t, k - 1); }
    IdsOfGenuine(t, k);
    assert Genuine(t.space, Answered(t, k), Asked(t, k));
    GenuineSample(t.space, Answered(t, k), Asked(t, k));
    PassedIsGenuine(t.space, Answered(t, k), Asked(t, k), IdsBefore(t, k));
  }

  lemma {:induction false} GenuineSample(space: Space, a: Answer, c: Candidate)
    requires Genuine(space, a, c)
    ensures a.Sample?
  {
  }

  lemma {:induction false} FlawlessPasses(t: Task)
    requires Proper(t) && Flawless(t)
    ensures Unstopped(t, |t.candidates|) && forall k :: 0 <= k < |t.candidates| ==> Passes(t, k)
  {
    hide Genuine, Cost, GraphBefore, Bytes, Usable, IdsBefore, Asked, Answered, JudgedAs, Visits, GivenBack, Passes, Overflows;
    var n := |t.candidates|;
    forall k | 0 <= k < n ensures Passes(t, k) && !Prevented(t, k) && !Last(t, k) {
      FlawlessJudged(t, k);
      JudgedIsAcceptable(t, k);
      GenuineIsGivenBack(t, k);
      UsableVisits(t, k);
      CostGrows(t, k + 1, n);
      OverflowForm(t, k);
      PassesForm(t, k);
      BytesGrow(t.oracle, k + 1, n);
    }
  }
}
