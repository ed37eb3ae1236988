// The schedules of a complete enumeration: their order and their number.
module ShapeCounting {
  import opened Wrappers
  import opened Schedule
  import opened Merges
  import opened MergeCounting
  import opened Shapes

  // The place of an actor among the chains.
  function Rank(chains: seq<Chain>, name: string): nat {
    Position(Declarations(chains, []).actors, name)
  }

  // At the first difference the one schedule moves an actor of a lower rank.
  ghost predicate Precedes(chains: seq<Chain>, s: seq<Step>, t: seq<Step>) {
    exists m :: DiffersAt(chains, s, t, m)
  }

  predicate DiffersAt(chains: seq<Chain>, s: seq<Step>, t: seq<Step>, m: int) {
    0 <= m < |s| && m < |t| && s[..m] == t[..m] && Rank(chains, s[m].actor) < Rank(chains, t[m].actor)
  }

  lemma {:induction false} RankOfChain(chains: seq<Chain>, i: nat)
    requires DistinctActors(chains) && i < |chains|
    ensures Rank(chains, chains[i].actor.actor) == i
  {
    var actors := Declarations(chains, []).actors;
    assert actors[i].actor == chains[i].actor.actor;
    FirstHas(actors, i);
    var r := Rank(chains, chains[i].actor.actor);
    assert actors[r].actor == chains[r].actor.actor;
  }

  lemma {:induction false} FirstHas(actors: seq<Declaration>, i: nat)
    requires i < |actors|
    ensures Position(actors, actors[i].actor) <= i
  {
  }

  // A smaller path is an earlier schedule.
  lemma {:induction false} BeforeIsEarlier(chains: seq<Chain>, pos: seq<nat>, p: Path, q: Path)
    requires DistinctActors(chains) && Shapes.Within(chains, pos) && Before(p, q)
    requires Fits(Left(chains, pos), p) && Fits(Left(chains, pos), q)
    ensures Precedes(chains, StepsAlong(chains, pos, p), StepsAlong(chains, pos, q))
    decreases |p|
  {
    hide Rank, Sum;
    SumZero(Left(chains, pos));
    if p != [] {
      var s, t := StepsAlong(chains, pos, p), StepsAlong(chains, pos, q);
      RankOfChain(chains, p[0]);
      RankOfChain(chains, q[0]);
      if p[0] < q[0] {
        assert DiffersAt(chains, s, t, 0);
      } else {
        var next := pos[p[0] := pos[p[0]] + 1];
        LeftAfterMove(chains, pos, p[0]);
        BeforeIsEarlier(chains, next, p[1..], q[1..]);
        var u, v := StepsAlong(chains, next, p[1..]), StepsAlong(chains, next, q[1..]);
        assert s == [s[0]] + u && t == [s[0]] + v;
        LaterDifference(chains, s[0], u, v);
      }
    }
  }

  lemma {:induction false} LaterDifference(chains: seq<Chain>, x: Step, u: seq<Step>, v: seq<Step>)
    requires Precedes(chains, u, v)
    ensures Precedes(chains, [x] + u, [x] + v)
  {
    hide Rank;
    var m :| DiffersAt(chains, u, v, m);
    assert ([x] + u)[..m + 1] == [x] + u[..m] && ([x] + v)[..m + 1] == [x] + v[..m];
    assert DiffersAt(chains, [x] + u, [x] + v, m + 1);
  }

  // The schedules are found in strictly ascending order of the actors they move.
  lemma {:induction false} ShapesAscend(chains: seq<Chain>, bound: nat, j: nat, k: nat)
    requires DistinctActors(chains) && j < k < |AllShapes(chains, bound)|
    ensures Precedes(chains, AllShapes(chains, bound)[j], AllShapes(chains, bound)[k])
  {
    var rem := Left(chains, Origin(chains));
    var paths := Completions(rem, None, bound);
    CompletionsAscend(rem, None, bound);
    InCompletions(rem, None, bound, paths[j]);
    InCompletions(rem, None, bound, paths[k]);
    BeforeIsEarlier(chains, Origin(chains), paths[j], paths[k]);
  }

  // How many steps each chain has.
  function Lengths(chains: seq<Chain>): (r: seq<nat>)
    ensures |r| == |chains| && forall i :: 0 <= i < |chains| ==> r[i] == |chains[i].checkpoints|
  {
    seq(|chains|, i requires 0 <= i < |chains| => |chains[i].checkpoints|)
  }

  lemma {:induction false} NothingMoved(chains: seq<Chain>)
    ensures Left(chains, Origin(chains)) == Lengths(chains)
  {
  }

  // With room for every switch there are as many schedules as ways to interleave the chains.
  lemma {:induction false} MultinomialShapes(chains: seq<Chain>, bound: nat)
    requires Sum(Lengths(chains)) <= bound
    ensures |AllShapes(chains, bound)| * Factorials(Lengths(chains)) == Factorial(Sum(Lengths(chains)))
  {
    NothingMoved(chains);
    Multinomial(Lengths(chains), None, bound);
  }

  // Without preemptions there is one schedule for each order of the actors.
  lemma {:induction false} SerialShapes(chains: seq<Chain>)
    requires forall i :: 0 <= i < |chains| ==> chains[i].checkpoints != []
    ensures |AllShapes(chains, 0)| == Factorial(|chains|)
  {
    NothingMoved(chains);
    SerialOrders(Lengths(chains));
  }
}
