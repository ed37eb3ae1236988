// The declaration of a finite exploration and the checks in front of it
// (src/schedule_exploration.rs:218-234 and 312-398).
module ExplorationSpace {
  import opened Schedule
  import opened Merges
  import opened Shapes
  import Admission
  import opened Campaign
  import opened OrderedMap
  import opened JsonTree
  import opened JsonPrinting
  import opened JsonAcceptance
  import opened ScheduleText

  // Inputs are JSON trees of the program.
  datatype FiniteSpace = FiniteSpace(identity: Identity, inputs: seq<Json>, chains: seq<Chain>, variables: seq<string>,
                                     ignored: seq<string>, maxPreemptions: nat, requireComparison: bool)

  // The time budget is in nanoseconds.
  datatype Bounds = Bounds(maxShapes: nat, runs: Campaign.Limits, timeBudget: nat)

  // ------------------------------------------------------ the order of the actors

  predicate AtMost(a: string, b: string) { !Less(b, a) }

  lemma {:induction false} AtMostIsTotal(a: string, b: string)
    ensures AtMost(a, b) || AtMost(b, a)
    ensures AtMost(a, b) && AtMost(b, a) ==> a == b
  {
    LessTotal(a, b);
    if Less(a, b) && Less(b, a) {
      LessTransitive(a, b, a);
      LessIrreflexive(a);
    }
  }

  lemma {:induction false} AtMostIsTransitive(a: string, b: string, c: string)
    requires AtMost(a, b) && AtMost(b, c)
    ensures AtMost(a, c)
  {
    LessTotal(a, b);
    if a != b && Less(c, a) { LessTransitive(c, a, b); }
  }

  function Insert(c: Chain, chains: seq<Chain>): (r: seq<Chain>)
    ensures multiset(r) == multiset([c] + chains) && |r| == |chains| + 1
  {
    if chains == [] || AtMost(c.actor.actor, chains[0].actor.actor) then [c] + chains
    else
      assert chains == [chains[0]] + chains[1..];
      [chains[0]] + Insert(c, chains[1..])
  }

  // The chains by the names of their actors, equal names in the order given.
  function Ordered(chains: seq<Chain>): (r: seq<Chain>)
    ensures multiset(r) == multiset(chains) && |r| == |chains|
  {
    if chains == [] then []
    else
      assert chains == [chains[0]] + chains[1..];
      Insert(chains[0], Ordered(chains[1..]))
  }

  predicate Ascending(chains: seq<Chain>) {
    forall i, j :: 0 <= i < j < |chains| ==> AtMost(chains[i].actor.actor, chains[j].actor.actor)
  }

  // No name of the chains comes before this one.
  predicate Leads(name: string, chains: seq<Chain>) {
    forall i :: 0 <= i < |chains| ==> AtMost(name, chains[i].actor.actor)
  }

  lemma {:induction false} ConsAscends(c: Chain, chains: seq<Chain>)
    requires Ascending(chains) && Leads(c.actor.actor, chains)
    ensures Ascending([c] + chains)
  {
    hide AtMost;
  }

  lemma {:induction false} InsertLeads(name: string, c: Chain, chains: seq<Chain>)
    requires AtMost(name, c.actor.actor) && Leads(name, chains)
    ensures Leads(name, Insert(c, chains))
  {
    hide AtMost;
    if chains != [] { InsertLeads(name, c, chains[1..]); }
  }

  lemma {:induction false} HeadLeads(c: Chain, chains: seq<Chain>)
    requires Ascending(chains) && chains != [] && AtMost(c.actor.actor, chains[0].actor.actor)
    ensures Leads(c.actor.actor, chains)
  {
    hide AtMost;
    forall i | 0 <= i < |chains| ensures AtMost(c.actor.actor, chains[i].actor.actor) {
      if i > 0 { AtMostIsTransitive(c.actor.actor, chains[0].actor.actor, chains[i].actor.actor); }
    }
  }

  lemma {:induction false} InsertAscends(c: Chain, chains: seq<Chain>)
    requires Ascending(chains)
    ensures Ascending(Insert(c, chains))
  {
    hide AtMost;
    if chains == [] {
    } else if AtMost(c.actor.actor, chains[0].actor.actor) {
      HeadLeads(c, chains);
      ConsAscends(c, chains);
    } else {
      InsertAscends(c, chains[1..]);
      AtMostIsTotal(c.actor.actor, chains[0].actor.actor);
      assert Leads(chains[0].actor.actor, chains[1..]);
      InsertLeads(chains[0].actor.actor, c, chains[1..]);
      ConsAscends(chains[0], Insert(c, chains[1..]));
    }
  }

  lemma {:induction false} OrderedAscends(chains: seq<Chain>)
    ensures Ascending(Ordered(chains))
  {
    if chains != [] {
      OrderedAscends(chains[1..]);
      InsertAscends(chains[0], Ordered(chains[1..]));
    }
  }

  lemma {:induction false} SameHead(a: seq<Chain>, b: seq<Chain>)
    requires multiset(a) == multiset(b) && DistinctActors(a) && Ascending(a) && Ascending(b)
    requires a != [] && b != []
    ensures a[0] == b[0]
  {
    assert a[0] in multiset(b) && b[0] in multiset(a);
    var i :| 0 <= i < |b| && b[i] == a[0];
    var j :| 0 <= j < |a| && a[j] == b[0];
    AtMostIsTotal(a[0].actor.actor, b[0].actor.actor);
  }

  lemma {:induction false} SameTails<T>(a: seq<T>, b: seq<T>)
    requires multiset(a) == multiset(b) && a != [] && b != [] && a[0] == b[0]
    ensures multiset(a[1..]) == multiset(b[1..])
  {
    assert a == [a[0]] + a[1..] && b == [b[0]] + b[1..];
    assert multiset(a[1..]) == multiset(a) - multiset{a[0]} == multiset(b[1..]);
  }

  lemma {:induction false} SameLength<T>(a: seq<T>, b: seq<T>)
    requires multiset(a) == multiset(b)
    ensures |a| == |b|
  {
    assert |multiset(a)| == |a| && |multiset(b)| == |b|;
  }

  lemma {:induction false} AscendingIsUnique(a: seq<Chain>, b: seq<Chain>)
    requires multiset(a) == multiset(b) && DistinctActors(a) && Ascending(a) && Ascending(b)
    ensures a == b
  {
    hide AtMost;
    SameLength(a, b);
    if a != [] {
      SameHead(a, b);
      SameTails(a, b);
      AscendingIsUnique(a[1..], b[1..]);
      assert a == [a[0]] + a[1..] && b == [b[0]] + b[1..];
    }
  }

  // ------------------------------------------------------ what the order leaves alone

  lemma {:induction false} Twice<T>(s: seq<T>, i: nat, j: nat)
    requires i < j < |s| && s[i] == s[j]
    ensures multiset(s)[s[i]] >= 2
  {
    assert s == s[..i] + [s[i]] + s[i + 1..];
    assert s[i + 1..][j - i - 1] == s[j];
    assert s[i] in multiset(s[i + 1..]);
  }

  lemma {:induction false} TwoPlaces<T>(s: seq<T>, x: T) returns (i: nat, j: nat)
    requires multiset(s)[x] >= 2
    ensures i < j < |s| && s[i] == s[j] == x
  {
    assert x in multiset(s);
    i :| 0 <= i < |s| && s[i] == x;
    assert s == s[..i] + [x] + s[i + 1..];
    assert multiset(s) == multiset(s[..i] + s[i + 1..]) + multiset{x};
    assert x in multiset(s[..i] + s[i + 1..]);
    var k :| 0 <= k < |s| - 1 && (s[..i] + s[i + 1..])[k] == x;
    j := if k < i then k else k + 1;
    if j < i { i, j := j, i; }
  }

  // Two places of one list have their elements at two places of any reordering.
  lemma {:induction false} SamePairs<T>(a: seq<T>, b: seq<T>, i: nat, j: nat) returns (k: nat, l: nat)
    requires multiset(a) == multiset(b) && i < j < |a|
    ensures k < l < |b| && ((b[k] == a[i] && b[l] == a[j]) || (b[k] == a[j] && b[l] == a[i]))
  {
    if a[i] == a[j] {
      Twice(a, i, j);
      k, l := TwoPlaces(b, a[i]);
    } else {
      assert a[i] in multiset(b) && a[j] in multiset(b);
      k :| 0 <= k < |b| && b[k] == a[i];
      l :| 0 <= l < |b| && b[l] == a[j];
      if l < k { k, l := l, k; }
    }
  }

  lemma {:induction false} OrderKeepsDistinct(a: seq<Chain>, b: seq<Chain>)
    requires multiset(a) == multiset(b)
    ensures DistinctActors(a) ==> DistinctActors(b)
    ensures DistinctDeclarations(Declarations(a, [])) ==> DistinctDeclarations(Declarations(b, []))
  {
    var da, db := Declarations(a, []).actors, Declarations(b, []).actors;
    forall i, j | 0 <= i < j < |b|
      ensures DistinctActors(a) ==> b[i].actor.actor != b[j].actor.actor
      ensures DistinctDeclarations(Declarations(a, [])) ==>
                db[i].actor != db[j].actor && db[i].operation != db[j].operation
    {
      var k, l := SamePairs(b, a, i, j);
      assert da[k] == a[k].actor && da[l] == a[l].actor && db[i] == b[i].actor && db[j] == b[j].actor;
    }
  }

  lemma {:induction false} OrderKeepsWellFormed(a: seq<Chain>, b: seq<Chain>)
    requires multiset(a) == multiset(b)
    ensures WellFormed(a) ==> WellFormed(b)
  {
    OrderKeepsDistinct(a, b);
    if WellFormed(a) {
      assert a[0] in multiset(b);
      forall i | 0 <= i < |b| ensures WellFormedChain(b[i]) { assert b[i] in multiset(a); }
    }
  }

  // A merge is a merge whatever the order of the chains.
  lemma {:induction false} OrderKeepsMerges(a: seq<Chain>, b: seq<Chain>, s: seq<Step>)
    requires multiset(a) == multiset(b) && IsMerge(a, s)
    ensures IsMerge(b, s)
  {
    forall k | 0 <= k < |s| ensures Declared(b, s[k].actor) {
      var i :| 0 <= i < |a| && a[i].actor.actor == s[k].actor;
      assert a[i] in multiset(b);
    }
    forall i | 0 <= i < |b| ensures Admission.Projection(s, b[i].actor.actor) == b[i].checkpoints {
      assert b[i] in multiset(a);
    }
  }

  // The exploration does not depend on the order in which its actors are declared.
  lemma {:induction false} DeclarationOrderIsIrrelevant(a: seq<Chain>, b: seq<Chain>)
    requires multiset(a) == multiset(b) && DistinctActors(a)
    ensures Ordered(a) == Ordered(b)
  {
    OrderedAscends(a);
    OrderedAscends(b);
    OrderKeepsDistinct(a, Ordered(a));
    AscendingIsUnique(Ordered(a), Ordered(b));
  }

  // ------------------------------------------------------ the steps of all chains

  function StepsOf(c: Chain): (s: seq<Step>)
    ensures |s| == |c.checkpoints|
  {
    seq(|c.checkpoints|, k requires 0 <= k < |c.checkpoints| => Step(c.actor.actor, c.checkpoints[k]))
  }

  // Every chain on its own, one after the other.
  function AllSteps(chains: seq<Chain>): seq<Step> {
    if chains == [] then [] else StepsOf(chains[0]) + AllSteps(chains[1..])
  }

  lemma {:induction false} AllStepsBack(chains: seq<Chain>, c: Chain)
    ensures AllSteps(chains + [c]) == AllSteps(chains) + StepsOf(c)
  {
    hide StepsOf;
    var all := chains + [c];
    if chains == [] {
      assert all == [c] && all[1..] == [];
    } else {
      assert all[1..] == chains[1..] + [c];
      AllStepsBack(chains[1..], c);
    }
  }

  // The number of steps of every schedule, seen from the chains.
  lemma {:induction false} AllStepsLength(chains: seq<Chain>)
    ensures |AllSteps(chains)| == Sum(Left(chains, Origin(chains)))
  {
    if chains != [] {
      AllStepsLength(chains[1..]);
      assert Left(chains, Origin(chains))[1..] == Left(chains[1..], Origin(chains[1..]));
    }
  }

  lemma {:induction false} InsertLength(c: Chain, chains: seq<Chain>)
    ensures |AllSteps(Insert(c, chains))| == |c.checkpoints| + |AllSteps(chains)|
  {
    hide AtMost;
    if chains == [] || AtMost(c.actor.actor, chains[0].actor.actor) {
      assert ([c] + chains)[1..] == chains;
    } else {
      var rest := Insert(c, chains[1..]);
      InsertLength(c, chains[1..]);
      assert ([chains[0]] + rest)[1..] == rest;
    }
  }

  lemma {:induction false} OrderedLength(chains: seq<Chain>)
    ensures |AllSteps(Ordered(chains))| == |AllSteps(chains)|
  {
    if chains != [] {
      OrderedLength(chains[1..]);
      InsertLength(chains[0], Ordered(chains[1..]));
    }
  }

  // ------------------------------------------------------ the checks

  predicate VariablesOk(variables: seq<string>, ignored: seq<string>) {
    && 0 < |variables| <= 1024 && |ignored| <= 1024
    && (forall i :: 0 <= i < |variables| ==> Identifier(variables[i]))
    && (forall i :: 0 <= i < |ignored| ==> Identifier(ignored[i]))
    && NoDuplicates(variables + ignored)
  }

  predicate BoundsOk(space: FiniteSpace, bounds: Bounds) {
    && space.maxPreemptions <= 64 && 0 < bounds.maxShapes <= 4096 && bounds.runs.maxRuns <= 65_536
    && Admission.BudgetUsable(bounds.timeBudget) && 0 < bounds.runs.maxEvidence <= 64 * 1_048_576
  }

  // A declaration that is explored.
  predicate SpaceOk(space: FiniteSpace, bounds: Bounds) {
    && WellFormed(space.chains) && |space.chains| <= 8 && |AllSteps(space.chains)| <= 64
    && 0 < |space.inputs| <= 64 && InputsOk(space.identity, space.inputs)
    && VariablesOk(space.variables, space.ignored) && BoundsOk(space, bounds)
  }

  // Each input goes into a schedule, and none is there twice.
  predicate InputsOk(identity: Identity, inputs: seq<Json>) {
    && IdentityValid(identity)
    && (forall i :: 0 <= i < |inputs| ==> InputsFit(inputs[i]))
    && NoDuplicates(inputs)
  }

  ghost predicate Trees(inputs: seq<Json>) { forall i :: 0 <= i < |inputs| ==> Printable(inputs[i]) }

  // The schedule that an input is encoded with.
  function Probe(identity: Identity, input: Json, steps: seq<Step>): Document {
    Document(SCHEMA, PROFILE, identity, input, steps)
  }

  lemma {:induction false} StepsOfWellFormed(c: Chain)
    requires WellFormedChain(c)
    ensures forall k :: 0 <= k < |StepsOf(c)| ==> StepEncodable(StepsOf(c)[k])
  {
    hide Identifier;
  }

  lemma {:induction false} AllStepsEncodable(chains: seq<Chain>)
    requires forall i :: 0 <= i < |chains| ==> WellFormedChain(chains[i])
    ensures forall k :: 0 <= k < |AllSteps(chains)| ==> StepEncodable(AllSteps(chains)[k])
  {
    hide WellFormedChain, StepEncodable, StepsOf;
    if chains != [] {
      StepsOfWellFormed(chains[0]);
      AllStepsEncodable(chains[1..]);
    }
  }

  lemma {:induction false} StepsAreShort(steps: seq<Step>)
    requires forall k :: 0 <= k < |steps| ==> StepEncodable(steps[k])
    ensures StepsLength(steps) <= 285 * |steps|
  {
    if steps != [] {
      assert StepEncodable(steps[0]);
      StepsAreShort(steps[1..]);
    }
  }

  // So few steps never make the text too long.
  lemma {:induction false} ProbeIsEncodable(identity: Identity, input: Json, steps: seq<Step>)
    requires |steps| <= 64 && forall k :: 0 <= k < |steps| ==> StepEncodable(steps[k])
    ensures Encodable(Probe(identity, input, steps)) <==> IdentityValid(identity) && InputsFit(input)
  {
    hide StepEncodable, Print, Depth, StepsLength;
    StepsAreShort(steps);
  }

  predicate CheckpointsOk(c: Chain) {
    && c.checkpoints != [] && c.checkpoints[|c.checkpoints| - 1] == COMPLETION
    && forall k :: 0 <= k < |c.checkpoints| - 1 ==> Identifier(c.checkpoints[k])
  }

  method CheckCheckpoints(c: Chain) returns (ok: bool)
    ensures ok <==> CheckpointsOk(c)
  {
    hide Identifier;
    var n := |c.checkpoints|;
    if n == 0 || c.checkpoints[n - 1] != COMPLETION { return false; }
    for i := 0 to n
      invariant forall k :: 0 <= k < i && k < n - 1 ==> Identifier(c.checkpoints[k])
    {
      if i + 1 == n {
        if c.checkpoints[i] != COMPLETION { return false; }
      } else if !Identifier(c.checkpoints[i]) {
        return false;
      }
    }
    ok := true;
  }

  method CheckActor(c: Chain, actors: set<string>, operations: set<string>) returns (ok: bool)
    ensures ok <==> WellFormedChain(c) && c.actor.actor !in actors && c.actor.operation !in operations
  {
    hide Identifier;
    if !Identifier(c.actor.actor) || !Identifier(c.actor.operation) || c.actor.actor in actors || c.actor.operation in operations {
      return false;
    }
    ok := CheckCheckpoints(c);
  }

  predicate Apart(chains: seq<Chain>) {
    forall i, j :: 0 <= i < j < |chains| ==>
      chains[i].actor.actor != chains[j].actor.actor && chains[i].actor.operation != chains[j].actor.operation
  }

  lemma {:induction false} ApartIsDistinct(chains: seq<Chain>)
    ensures Apart(chains) <==> DistinctDeclarations(Declarations(chains, []))
  {
    var plan := Declarations(chains, []);
    assert forall i :: 0 <= i < |chains| ==> plan.actors[i] == chains[i].actor;
  }

  // Well-formed but for being empty.
  predicate Good(chains: seq<Chain>) { (forall i :: 0 <= i < |chains| ==> WellFormedChain(chains[i])) && Apart(chains) }

  predicate Taken(chains: seq<Chain>, actors: set<string>, operations: set<string>) {
    && actors == (set i | 0 <= i < |chains| :: chains[i].actor.actor)
    && operations == (set i | 0 <= i < |chains| :: chains[i].actor.operation)
  }

  lemma {:induction false} GoodPush(chains: seq<Chain>, c: Chain, actors: set<string>, operations: set<string>)
    requires Good(chains) && Taken(chains, actors, operations)
    ensures Good(chains + [c]) <==> WellFormedChain(c) && c.actor.actor !in actors && c.actor.operation !in operations
  {
    hide WellFormedChain;
    var all := chains + [c];
    assert all[|chains|] == c;
    assert forall i :: 0 <= i < |chains| ==> all[i] == chains[i];
    if c.actor.actor in actors {
      var i :| 0 <= i < |chains| && chains[i].actor.actor == c.actor.actor;
      assert all[i].actor.actor == all[|chains|].actor.actor;
    }
    if c.actor.operation in operations {
      var i :| 0 <= i < |chains| && chains[i].actor.operation == c.actor.operation;
      assert all[i].actor.operation == all[|chains|].actor.operation;
    }
  }

  lemma {:induction false} TakenPush(chains: seq<Chain>, c: Chain, actors: set<string>, operations: set<string>)
    requires Taken(chains, actors, operations)
    ensures Taken(chains + [c], actors + {c.actor.actor}, operations + {c.actor.operation})
  {
    var all := chains + [c];
    assert all[|chains|] == c && forall i :: 0 <= i < |chains| ==> all[i] == chains[i];
    assert forall i :: 0 <= i < |all| ==> all[i] == if i < |chains| then chains[i] else c;
  }

  lemma {:induction false} GoodFront(chains: seq<Chain>, n: nat)
    requires n <= |chains| && WellFormed(chains)
    ensures Good(chains[..n])
  {
    hide WellFormedChain, DistinctDeclarations;
    ApartIsDistinct(chains);
  }

  lemma {:induction false} GoodIsWellFormed(chains: seq<Chain>)
    requires chains != [] && Good(chains)
    ensures WellFormed(chains)
  {
    hide WellFormedChain, DistinctDeclarations;
    ApartIsDistinct(chains);
  }

  // The loop over the sorted actors, which also collects their steps.
  method CheckActors(chains: seq<Chain>) returns (ok: bool, steps: seq<Step>)
    requires chains != []
    ensures ok <==> WellFormed(chains)
    ensures ok ==> steps == AllSteps(chains)
  {
    var actors: set<string>, operations: set<string> := {}, {};
    steps := [];
    assert chains[..0] == [] && AllSteps([]) == [] && Good([]) && Taken([], actors, operations);
    hide Good, Taken, WellFormed, WellFormedChain, StepsOf, AllSteps;
    for n := 0 to |chains|
      invariant Good(chains[..n]) && Taken(chains[..n], actors, operations)
      invariant steps == AllSteps(chains[..n])
    {
      var c := chains[n];
      assert chains[..n + 1] == chains[..n] + [c];
      GoodPush(chains[..n], c, actors, operations);
      ok := CheckActor(c, actors, operations);
      if !ok {
        if WellFormed(chains) { GoodFront(chains, n + 1); }
        return false, [];
      }
      TakenPush(chains[..n], c, actors, operations);
      AllStepsBack(chains[..n], c);
      actors, operations := actors + {c.actor.actor}, operations + {c.actor.operation};
      steps := steps + StepsOf(c);
    }
    assert chains[..|chains|] == chains;
    GoodIsWellFormed(chains);
    ok := true;
  }

  method CheckInputs(identity: Identity, inputs: seq<Json>, steps: seq<Step>) returns (ok: bool)
    requires inputs != [] && Trees(inputs) && |steps| <= 64 && forall k :: 0 <= k < |steps| ==> StepEncodable(steps[k])
    ensures ok <==> InputsOk(identity, inputs)
  {
    hide Print, Printable, InputsFit, IdentityValid, EncodeSchedule, Probe, Encodable, StepEncodable;
    var keys: set<string> := {};
    for n := 0 to |inputs|
      invariant keys == set i | 0 <= i < n :: Print(inputs[i])
      invariant forall i, j :: 0 <= i < j < n ==> inputs[i] != inputs[j]
      invariant n > 0 ==> IdentityValid(identity)
      invariant forall i :: 0 <= i < n ==> InputsFit(inputs[i])
    {
      var input := inputs[n];
      ProbeIsEncodable(identity, input, steps);
      EncodesExactly(Probe(identity, input, steps)) by { ProbeInputs(identity, input, steps); }
      ProbeInputs(identity, input, steps);
      if EncodeSchedule(Probe(identity, input, steps)).None? { return false; }
      if Print(input) in keys {
        var i :| 0 <= i < n && Print(inputs[i]) == Print(input);
        PrintInjective(inputs[i], input);
        return false;
      }
      keys := keys + {Print(input)};
    }
    ok := true;
  }

  lemma {:induction false} ProbeInputs(identity: Identity, input: Json, steps: seq<Step>)
    ensures Probe(identity, input, steps).inputs == input
  {
  }

  // One of the two loops over names: identifiers, none repeated and none taken before.
  method CheckNames(names: seq<string>, taken: set<string>) returns (ok: bool, all: set<string>)
    ensures ok <==> (forall i :: 0 <= i < |names| ==> Identifier(names[i]) && names[i] !in taken) && NoDuplicates(names)
    ensures ok ==> all == set i | 0 <= i < |names| :: names[i]
  {
    hide Identifier;
    all := {};
    for n := 0 to |names|
      invariant all == set i | 0 <= i < n :: names[i]
      invariant forall i :: 0 <= i < n ==> Identifier(names[i]) && names[i] !in taken
      invariant forall i, j :: 0 <= i < j < n ==> names[i] != names[j]
    {
      if !Identifier(names[n]) || names[n] in taken || names[n] in all { return false, {}; }
      all := all + {names[n]};
    }
    ok := true;
  }

  method CheckVariables(variables: seq<string>, ignored: seq<string>) returns (ok: bool)
    ensures ok <==> VariablesOk(variables, ignored)
  {
    hide Identifier;
    if variables == [] || |variables| > 1024 || |ignored| > 1024 { return false; }
    var base, names := CheckNames(variables, {});
    TwoLists(variables, ignored);
    if !base { return false; }
    ok, names := CheckNames(ignored, names);
  }

  lemma {:induction false} TwoLists<T>(a: seq<T>, b: seq<T>)
    ensures NoDuplicates(a + b) <==>
            NoDuplicates(a) && NoDuplicates(b) && forall i, j :: 0 <= i < |a| && 0 <= j < |b| ==> a[i] != b[j]
  {
    var s := a + b;
    if NoDuplicates(s) {
      forall i, j | 0 <= i < j < |b| ensures b[i] != b[j] { assert s[|a| + i] == b[i] && s[|a| + j] == b[j]; }
      forall i, j | 0 <= i < |a| && 0 <= j < |b| ensures a[i] != b[j] { assert s[i] == a[i] && s[|a| + j] == b[j]; }
      forall i, j | 0 <= i < j < |a| ensures a[i] != a[j] { assert s[i] == a[i] && s[j] == a[j]; }
    }
  }

  // Everything in front of the enumeration, in the order of the source.
  method CheckSpace(space: FiniteSpace, bounds: Bounds) returns (ok: bool)
    requires Trees(space.inputs)
    ensures ok <==> SpaceOk(space, bounds)
  {
    if space.chains == [] || |space.chains| > 8 || space.inputs == [] || |space.inputs| > 64 { return false; }
    hide WellFormed, AllSteps, Ordered, VariablesOk, InputsOk, StepEncodable;
    if !BoundsOk(space, bounds) { return false; }
    var chains := Ordered(space.chains);
    OrderKeepsWellFormed(space.chains, chains);
    OrderKeepsWellFormed(chains, space.chains);
    OrderedLength(space.chains);
    var usable, steps := CheckActors(chains);
    if !usable || |steps| > 64 { return false; }
    StepsAreEncodable(chains);
    ok := CheckInputs(space.identity, space.inputs, steps);
    if !ok { return false; }
    ok := CheckVariables(space.variables, space.ignored);
  }

  lemma {:induction false} StepsAreEncodable(chains: seq<Chain>)
    requires WellFormed(chains)
    ensures forall k :: 0 <= k < |AllSteps(chains)| ==> StepEncodable(AllSteps(chains)[k])
  {
    AllStepsEncodable(chains);
  }
}
