// From paths to schedules: the shapes the enumerator keeps are exactly the
// order-preserving merges of the actor chains within the preemption bound.
module Shapes {
  import opened Wrappers
  import opened Schedule
  import opened Admission
  import opened Merges

  datatype Chain = Chain(actor: Declaration, checkpoints: seq<string>)

  predicate DistinctActors(chains: seq<Chain>) {
    forall i, j :: 0 <= i < j < |chains| ==> chains[i].actor.actor != chains[j].actor.actor
  }

  predicate Within(chains: seq<Chain>, pos: seq<nat>) {
    |pos| == |chains| && forall i :: 0 <= i < |chains| ==> pos[i] <= |chains[i].checkpoints|
  }

  // What each actor has left at the given positions.
  function Left(chains: seq<Chain>, pos: seq<nat>): (rem: seq<nat>)
    requires Within(chains, pos)
    ensures |rem| == |chains|
  {
    seq(|chains|, i requires 0 <= i < |chains| => |chains[i].checkpoints| - pos[i])
  }

  function Origin(chains: seq<Chain>): (pos: seq<nat>)
    ensures Within(chains, pos)
  {
    seq(|chains|, _ => 0)
  }

  function Move(chains: seq<Chain>, pos: seq<nat>, i: nat): Step
    requires Within(chains, pos) && i < |chains| && pos[i] < |chains[i].checkpoints|
  {
    Step(chains[i].actor.actor, chains[i].checkpoints[pos[i]])
  }

  lemma {:induction false} LeftAfterMove(chains: seq<Chain>, pos: seq<nat>, i: nat)
    requires Within(chains, pos) && i < |chains| && pos[i] < |chains[i].checkpoints|
    ensures Within(chains, pos[i := pos[i] + 1])
    ensures Left(chains, pos[i := pos[i] + 1]) == Spend(Left(chains, pos), i)
  {
  }

  // The schedule a path stands for, from the given positions on.
  function StepsAlong(chains: seq<Chain>, pos: seq<nat>, p: Path): (s: seq<Step>)
    requires Within(chains, pos) && Fits(Left(chains, pos), p)
    ensures |s| == |p|
    decreases |p|
  {
    if p == [] then []
    else
      LeftAfterMove(chains, pos, p[0]);
      [Move(chains, pos, p[0])] + StepsAlong(chains, pos[p[0] := pos[p[0]] + 1], p[1..])
  }

  // ------------------------------------------------------ reference notions

  predicate Declared(chains: seq<Chain>, name: string) {
    exists i :: 0 <= i < |chains| && chains[i].actor.actor == name
  }

  // Every step belongs to an actor, and each actor's own steps are its chain in order.
  predicate IsMerge(chains: seq<Chain>, s: seq<Step>) {
    && (forall k :: 0 <= k < |s| ==> Declared(chains, s[k].actor))
    && (forall i :: 0 <= i < |chains| ==> Projection(s, chains[i].actor.actor) == chains[i].checkpoints)
  }

  predicate MovesAgain(s: seq<Step>, name: string) {
    exists k :: 0 <= k < |s| && s[k].actor == name
  }

  // Switches away from an actor that still has steps to make.
  function Preemptions(s: seq<Step>): nat {
    if |s| < 2 then 0
    else (if s[0].actor != s[1].actor && MovesAgain(s[1..], s[0].actor) then 1 else 0) + Preemptions(s[1..])
  }

  // ------------------------------------------------------ projections

  lemma {:induction false} ProjectionOfCons(x: Step, s: seq<Step>, name: string)
    ensures Projection([x] + s, name) == (if x.actor == name then [x.checkpoint] else []) + Projection(s, name)
  {
    if s == [] {
      assert [x] + s == [x];
      assert [x][..0] == [];
    } else {
      var most, last := s[..|s| - 1], s[|s| - 1];
      ProjectionOfCons(x, most, name);
      assert ([x] + s)[..|s|] == [x] + most;
      assert ([x] + s)[|s|] == last;
    }
  }

  // Merges seen from the middle: the rest of each chain.
  predicate IsRest(chains: seq<Chain>, pos: seq<nat>, s: seq<Step>)
    requires Within(chains, pos)
  {
    && (forall k :: 0 <= k < |s| ==> Declared(chains, s[k].actor))
    && (forall i :: 0 <= i < |chains| ==> Projection(s, chains[i].actor.actor) == chains[i].checkpoints[pos[i]..])
  }

  lemma {:induction false} PathGivesRest(chains: seq<Chain>, pos: seq<nat>, p: Path)
    requires DistinctActors(chains) && Within(chains, pos) && Fits(Left(chains, pos), p)
    ensures IsRest(chains, pos, StepsAlong(chains, pos, p))
    decreases |p|
  {
    if p == [] {
      SumZero(Left(chains, pos));
      forall i | 0 <= i < |chains| ensures chains[i].checkpoints[pos[i]..] == [] {
        assert Left(chains, pos)[i] == 0;
      }
    } else {
      var next := pos[p[0] := pos[p[0]] + 1];
      LeftAfterMove(chains, pos, p[0]);
      PathGivesRest(chains, next, p[1..]);
      PutMoveBack(chains, pos, p[0], StepsAlong(chains, next, p[1..]));
    }
  }

  lemma {:induction false} PutMoveBack(chains: seq<Chain>, pos: seq<nat>, i: nat, rest: seq<Step>)
    requires DistinctActors(chains) && Within(chains, pos) && i < |chains| && pos[i] < |chains[i].checkpoints|
    requires Within(chains, pos[i := pos[i] + 1]) && IsRest(chains, pos[i := pos[i] + 1], rest)
    ensures IsRest(chains, pos, [Move(chains, pos, i)] + rest)
  {
    var x := Move(chains, pos, i);
    assert Declared(chains, x.actor) by { assert chains[i].actor.actor == x.actor; }
    forall j | 0 <= j < |chains|
      ensures Projection([x] + rest, chains[j].actor.actor) == chains[j].checkpoints[pos[j]..]
    {
      if j == i { ProjectionOfCons(x, rest, x.actor); } else { OtherProjection(x, rest, chains[j].actor.actor); }
    }
  }

  lemma {:induction false} RestGivesPath(chains: seq<Chain>, pos: seq<nat>, s: seq<Step>) returns (p: Path)
    requires DistinctActors(chains) && Within(chains, pos) && IsRest(chains, pos, s)
    ensures Fits(Left(chains, pos), p) && StepsAlong(chains, pos, p) == s
    decreases |s|
  {
    if s == [] {
      p := [];
      SumZero(Left(chains, pos));
      forall i | 0 <= i < |chains| ensures Left(chains, pos)[i] == 0 {
        assert chains[i].checkpoints[pos[i]..] == [];
      }
    } else {
      var i := FirstMove(chains, pos, s);
      LeftAfterMove(chains, pos, i);
      var q := RestGivesPath(chains, pos[i := pos[i] + 1], s[1..]);
      p := [i] + q;
      assert p[1..] == q;
    }
  }

  // The first step of a merge is the next move of its actor, and a merge is left.
  lemma {:induction false} FirstMove(chains: seq<Chain>, pos: seq<nat>, s: seq<Step>) returns (i: nat)
    requires DistinctActors(chains) && Within(chains, pos) && IsRest(chains, pos, s) && s != []
    ensures i < |chains| && pos[i] < |chains[i].checkpoints| && s[0] == Move(chains, pos, i)
    ensures Within(chains, pos[i := pos[i] + 1]) && IsRest(chains, pos[i := pos[i] + 1], s[1..])
  {
    var x, rest := s[0], s[1..];
    assert s == [x] + rest;
    i :| 0 <= i < |chains| && chains[i].actor.actor == x.actor;
    ProjectionOfCons(x, rest, x.actor);
    HeadOfChain(chains[i].checkpoints, pos[i], x.checkpoint, Projection(rest, x.actor));
    var next := pos[i := pos[i] + 1];
    forall j | 0 <= j < |chains| ensures Projection(rest, chains[j].actor.actor) == chains[j].checkpoints[next[j]..] {
      if j != i { OtherProjection(x, rest, chains[j].actor.actor); }
    }
    forall k | 0 <= k < |rest| ensures Declared(chains, rest[k].actor) { assert rest[k] == s[k + 1]; }
  }

  lemma {:induction false} OtherProjection(x: Step, rest: seq<Step>, name: string)
    requires x.actor != name
    ensures Projection([x] + rest, name) == Projection(rest, name)
  {
    ProjectionOfCons(x, rest, name);
    assert [] + Projection(rest, name) == Projection(rest, name);
  }

  lemma {:induction false} HeadOfChain(chain: seq<string>, at: nat, c: string, rest: seq<string>)
    requires at <= |chain| && chain[at..] == [c] + rest
    ensures at < |chain| && chain[at] == c && chain[at + 1..] == rest
  {
    assert |chain[at..]| == |[c] + rest|;
    assert chain[at..][0] == c;
    assert chain[at..][1..] == chain[at + 1..];
    assert ([c] + rest)[1..] == rest;
  }

  // ------------------------------------------------------ preemptions

  lemma {:induction false} FitsOccurs(rem: seq<nat>, p: Path, a: nat)
    requires Fits(rem, p) && a < |rem|
    ensures rem[a] > 0 <==> a in p
    decreases |p|
  {
    if p == [] {
      SumZero(rem);
    } else {
      FitsOccurs(Spend(rem, p[0]), p[1..], a);
      assert a in p <==> a == p[0] || a in p[1..];
    }
  }

  lemma {:induction false} OccursAlong(chains: seq<Chain>, pos: seq<nat>, p: Path, a: nat)
    requires DistinctActors(chains) && Within(chains, pos) && Fits(Left(chains, pos), p) && a < |chains|
    ensures a in p <==> MovesAgain(StepsAlong(chains, pos, p), chains[a].actor.actor)
    decreases |p|
  {
    if p != [] {
      var next := pos[p[0] := pos[p[0]] + 1];
      LeftAfterMove(chains, pos, p[0]);
      OccursAlong(chains, next, p[1..], a);
      var s, rest := StepsAlong(chains, pos, p), StepsAlong(chains, next, p[1..]);
      assert forall k :: 0 <= k < |rest| ==> s[k + 1] == rest[k];
      assert a in p <==> a == p[0] || a in p[1..];
      assert s[0].actor == chains[p[0]].actor.actor;
      if MovesAgain(rest, chains[a].actor.actor) {
        var k :| 0 <= k < |rest| && rest[k].actor == chains[a].actor.actor;
        assert s[k + 1].actor == chains[a].actor.actor;
      }
    }
  }

  // The enumerator's running count is the number of preemptions of the schedule.
  lemma {:induction false} CostIsPreemptions(chains: seq<Chain>, pos: seq<nat>, p: Path)
    requires DistinctActors(chains) && Within(chains, pos) && Fits(Left(chains, pos), p)
    ensures Cost(Left(chains, pos), None, p) == Preemptions(StepsAlong(chains, pos, p))
    decreases |p|
  {
    if p != [] {
      var rem, next := Left(chains, pos), pos[p[0] := pos[p[0]] + 1];
      LeftAfterMove(chains, pos, p[0]);
      CostIsPreemptions(chains, next, p[1..]);
      var s, rest := StepsAlong(chains, pos, p), StepsAlong(chains, next, p[1..]);
      assert s[1..] == rest;
      if |p| > 1 {
        var a, b := p[0], p[1];
        assert rest[0].actor == chains[b].actor.actor;
        FitsOccurs(Spend(rem, a), p[1..], a);
        OccursAlong(chains, next, p[1..], a);
      }
    }
  }

  // ------------------------------------------------------ the characterisation

  // The shapes of a complete enumeration, in the order they are found.
  function AllShapes(chains: seq<Chain>, bound: nat): (shapes: seq<seq<Step>>)
  {
    ShapesFrom(chains, Origin(chains), Completions(Left(chains, Origin(chains)), None, bound))
  }

  function Shape(chains: seq<Chain>, pos: seq<nat>, p: Path): seq<Step>
    requires Within(chains, pos)
  {
    if Fits(Left(chains, pos), p) then StepsAlong(chains, pos, p) else []
  }

  function ShapesFrom(chains: seq<Chain>, pos: seq<nat>, paths: seq<Path>): (shapes: seq<seq<Step>>)
    requires Within(chains, pos)
    ensures |shapes| == |paths|
    ensures forall k :: 0 <= k < |paths| ==> shapes[k] == Shape(chains, pos, paths[k])
  {
    seq(|paths|, k requires 0 <= k < |paths| => Shape(chains, pos, paths[k]))
  }

  // Sound and complete.
  lemma {:induction false} ShapesAreMerges(chains: seq<Chain>, bound: nat, s: seq<Step>)
    requires DistinctActors(chains)
    ensures s in AllShapes(chains, bound) <==> IsMerge(chains, s) && Preemptions(s) <= bound
  {
    if s in AllShapes(chains, bound) { ShapeIsMerge(chains, bound, s); }
    if IsMerge(chains, s) && Preemptions(s) <= bound { MergeIsShape(chains, bound, s); }
  }

  lemma {:induction false} MergeIsRest(chains: seq<Chain>, s: seq<Step>)
    ensures IsMerge(chains, s) <==> IsRest(chains, Origin(chains), s)
  {
    forall i | 0 <= i < |chains| ensures chains[i].checkpoints[Origin(chains)[i]..] == chains[i].checkpoints {}
  }

  lemma {:induction false} ShapeIsMerge(chains: seq<Chain>, bound: nat, s: seq<Step>)
    requires DistinctActors(chains) && s in AllShapes(chains, bound)
    ensures IsMerge(chains, s) && Preemptions(s) <= bound
  {
    var pos := Origin(chains);
    var paths := Completions(Left(chains, pos), None, bound);
    var k :| 0 <= k < |paths| && AllShapes(chains, bound)[k] == s;
    InCompletions(Left(chains, pos), None, bound, paths[k]);
    PathGivesRest(chains, pos, paths[k]);
    CostIsPreemptions(chains, pos, paths[k]);
    MergeIsRest(chains, s);
  }

  lemma {:induction false} MergeIsShape(chains: seq<Chain>, bound: nat, s: seq<Step>)
    requires DistinctActors(chains) && IsMerge(chains, s) && Preemptions(s) <= bound
    ensures s in AllShapes(chains, bound)
  {
    var pos := Origin(chains);
    MergeIsRest(chains, s);
    var p := RestGivesPath(chains, pos, s);
    CostIsPreemptions(chains, pos, p);
    InCompletions(Left(chains, pos), None, bound, p);
    var paths := Completions(Left(chains, pos), None, bound);
    var k :| 0 <= k < |paths| && paths[k] == p;
    assert AllShapes(chains, bound)[k] == s;
  }

  // Different paths are different schedules.
  lemma {:induction false} StepsAlongInjective(chains: seq<Chain>, pos: seq<nat>, p: Path, q: Path)
    requires DistinctActors(chains) && Within(chains, pos)
    requires Fits(Left(chains, pos), p) && Fits(Left(chains, pos), q)
    requires StepsAlong(chains, pos, p) == StepsAlong(chains, pos, q)
    ensures p == q
    decreases |p|
  {
    if p != [] {
      var s, t := StepsAlong(chains, pos, p), StepsAlong(chains, pos, q);
      assert |p| == |q|;
      assert s[0].actor == chains[p[0]].actor.actor && t[0].actor == chains[q[0]].actor.actor;
      assert p[0] == q[0];
      LeftAfterMove(chains, pos, p[0]);
      var next := pos[p[0] := pos[p[0]] + 1];
      assert s[1..] == StepsAlong(chains, next, p[1..]) && t[1..] == StepsAlong(chains, next, q[1..]);
      StepsAlongInjective(chains, next, p[1..], q[1..]);
      assert p == [p[0]] + p[1..] && q == [q[0]] + q[1..];
    }
  }

  // Each once.
  lemma {:induction false} ShapesAreDistinct(chains: seq<Chain>, bound: nat, j: nat, k: nat)
    requires DistinctActors(chains) && j < k < |AllShapes(chains, bound)|
    ensures AllShapes(chains, bound)[j] != AllShapes(chains, bound)[k]
  {
    var pos := Origin(chains);
    var rem := Left(chains, pos);
    var paths := Completions(rem, None, bound);
    CompletionsAreDistinct(rem, None, bound, j, k);
    InCompletions(rem, None, bound, paths[j]);
    InCompletions(rem, None, bound, paths[k]);
    if AllShapes(chains, bound)[j] == AllShapes(chains, bound)[k] {
      StepsAlongInjective(chains, pos, paths[j], paths[k]);
    }
  }

  // ------------------------------------------------------ shapes are admissible

  // What explore_finite checks of its declaration before enumerating.
  predicate WellFormed(chains: seq<Chain>) {
    && chains != []
    && DistinctDeclarations(Declarations(chains, []))
    && (forall i :: 0 <= i < |chains| ==> WellFormedChain(chains[i]))
  }

  predicate WellFormedChain(c: Chain) {
    && Identifier(c.actor.actor) && Identifier(c.actor.operation)
    && c.checkpoints != [] && c.checkpoints[|c.checkpoints| - 1] == COMPLETION
    && forall k :: 0 <= k < |c.checkpoints| - 1 ==> Identifier(c.checkpoints[k])
  }

  function Declarations(chains: seq<Chain>, steps: seq<Step>): Plan {
    Plan(seq(|chains|, i requires 0 <= i < |chains| => chains[i].actor), AllCheckpoints(chains), steps)
  }

  // The checkpoints an adapter has to declare for the chains.
  function AllCheckpoints(chains: seq<Chain>): seq<string> {
    if chains == [] then []
    else
      var last := chains[|chains| - 1].checkpoints;
      AllCheckpoints(chains[..|chains| - 1]) + if last == [] then [] else last[..|last| - 1]
  }

  lemma {:induction false} CheckpointsAreListed(chains: seq<Chain>)
    requires forall i :: 0 <= i < |chains| ==> WellFormedChain(chains[i])
    ensures forall i, k :: 0 <= i < |chains| && 0 <= k < |chains[i].checkpoints| - 1 ==>
              chains[i].checkpoints[k] in AllCheckpoints(chains)
    ensures forall k :: 0 <= k < |AllCheckpoints(chains)| ==> Identifier(AllCheckpoints(chains)[k])
  {
    if chains != [] {
      var n := |chains| - 1;
      CheckpointsAreListed(chains[..n]);
      var last := chains[n].checkpoints;
      forall i, k | 0 <= i < |chains| && 0 <= k < |chains[i].checkpoints| - 1
        ensures chains[i].checkpoints[k] in AllCheckpoints(chains)
      {
        if i < n { assert chains[..n][i] == chains[i]; }
        else { assert last[..|last| - 1][k] == last[k]; }
      }
    }
  }

  lemma {:induction false} ReservedNames()
    ensures forall s :: Identifier(s) ==> s != COMPLETION
  {
    forall s | Identifier(s) ensures s != COMPLETION { assert IdentifierChar(s[0]); }
  }

  // Every schedule the explorer runs passes the scheduler's own admission.
  lemma {:induction false} MergesAreAdmissible(chains: seq<Chain>, s: seq<Step>)
    requires WellFormed(chains) && IsMerge(chains, s)
    ensures Admissible(Declarations(chains, s))
  {
    var plan := Declarations(chains, s);
    CheckpointsAreListed(chains);
    ReservedNames();
    forall i | 0 <= i < |plan.actors|
      ensures CompleteChain(Projection(plan.steps, plan.actors[i].actor), plan.checkpoints)
    {
      var c := chains[i].checkpoints;
      assert WellFormedChain(chains[i]);
      assert forall k :: 0 <= k < |c[..|c| - 1]| ==> c[..|c| - 1][k] == c[k];
    }
    forall k | 0 <= k < |s| ensures Declares(plan, s[k].actor) {
      var i :| 0 <= i < |chains| && chains[i].actor.actor == s[k].actor;
      assert plan.actors[i].actor == s[k].actor;
    }
    StepsByProjection(plan);
    forall i | 0 <= i < |plan.actors|
      ensures Identifier(plan.actors[i].actor) && Identifier(plan.actors[i].operation)
    {
      assert WellFormedChain(chains[i]);
    }
  }
}
