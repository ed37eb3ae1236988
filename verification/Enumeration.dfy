// The backtracking enumerator of src/schedule_exploration.rs:170-235.
module Enumeration {
  import opened Wrappers
  import opened Schedule
  import opened Merges
  import opened Shapes

  datatype Reason = NoReason | CancelRequested | TimeBudget | EnumerationLimit

  // What the two clocks say when a visit looks at them.
  datatype Signal = Quiet | CancelNow | OutOfTime

  // Why an enumeration is not exhaustive: its limit, unless a clock interfered.
  predicate Explained(quiet: bool, was: Reason, exhausted: bool, reason: Reason, full: bool) {
    if exhausted then reason == was
    else (reason == EnumerationLimit ==> full) && (quiet ==> reason == EnumerationLimit)
  }

  // The schedules that continue `current` along the given paths.
  function Continued(chains: seq<Chain>, pos: seq<nat>, current: seq<Step>, paths: seq<Path>): (r: seq<seq<Step>>)
    requires Within(chains, pos)
    ensures |r| == |paths|
    ensures forall k :: 0 <= k < |paths| ==> r[k] == current + Shape(chains, pos, paths[k])
  {
    seq(|paths|, k requires 0 <= k < |paths| => current + Shape(chains, pos, paths[k]))
  }

  lemma {:induction false} ContinuedAppend(chains: seq<Chain>, pos: seq<nat>, current: seq<Step>, a: seq<Path>, b: seq<Path>)
    requires Within(chains, pos)
    ensures Continued(chains, pos, current, a + b)
         == Continued(chains, pos, current, a) + Continued(chains, pos, current, b)
  {
    var both := Continued(chains, pos, current, a) + Continued(chains, pos, current, b);
    forall k | 0 <= k < |a + b| ensures Continued(chains, pos, current, a + b)[k] == both[k] {}
  }

  // Going one step down and continuing is continuing with that step in front.
  lemma {:induction false} ContinuedBelow(chains: seq<Chain>, pos: seq<nat>, current: seq<Step>, i: nat, below: seq<Path>)
    requires Within(chains, pos) && i < |chains| && pos[i] < |chains[i].checkpoints|
    requires Within(chains, pos[i := pos[i] + 1])
    requires forall k :: 0 <= k < |below| ==> Fits(Left(chains, pos[i := pos[i] + 1]), below[k])
    ensures Continued(chains, pos[i := pos[i] + 1], current + [Move(chains, pos, i)], below)
         == Continued(chains, pos, current, Prepend(i, below))
  {
    var next, x := pos[i := pos[i] + 1], Move(chains, pos, i);
    LeftAfterMove(chains, pos, i);
    forall k | 0 <= k < |below|
      ensures Continued(chains, next, current + [x], below)[k]
           == Continued(chains, pos, current, Prepend(i, below))[k]
    {
      var p := [i] + below[k];
      assert p[1..] == below[k];
      assert Fits(Left(chains, pos), p);
      assert (current + [x]) + StepsAlong(chains, next, below[k])
          == current + ([x] + StepsAlong(chains, next, below[k]));
    }
  }

  // Everything Descend needs to know about the position one step down.
  lemma {:induction false} MoveDown(chains: seq<Chain>, pos: seq<nat>, current: seq<Step>, i: nat, budget: nat)
    requires Within(chains, pos) && i < |chains| && pos[i] < |chains[i].checkpoints|
    ensures var next := pos[i := pos[i] + 1];
            && Within(chains, next)
            && Sum(Left(chains, next)) == Sum(Left(chains, pos)) - 1
            && Continued(chains, next, current + [Move(chains, pos, i)], Completions(Left(chains, next), Some(i), budget))
            == Continued(chains, pos, current, Prepend(i, Completions(Spend(Left(chains, pos), i), Some(i), budget)))
  {
    SumOfSpend(Left(chains, pos), i);
    LeftAfterMove(chains, pos, i);
    BelowFits(Left(chains, pos[i := pos[i] + 1]), Some(i), budget);
    ContinuedBelow(chains, pos, current, i, Completions(Spend(Left(chains, pos), i), Some(i), budget));
  }

  lemma {:induction false} BelowFits(rem: seq<nat>, prior: Option<nat>, budget: nat)
    ensures forall k :: 0 <= k < |Completions(rem, prior, budget)| ==> Fits(rem, Completions(rem, prior, budget)[k])
  {
    var paths := Completions(rem, prior, budget);
    forall k | 0 <= k < |paths| ensures Fits(rem, paths[k]) { InCompletions(rem, prior, budget, paths[k]); }
  }

  // What actor i contributes at a position, and what all of them do.
  ghost function Share(chains: seq<Chain>, pos: seq<nat>, current: seq<Step>, prior: Option<nat>, budget: nat, i: nat)
    : seq<seq<Step>>
    requires Within(chains, pos) && i < |chains|
  {
    Continued(chains, pos, current, ActorShare(Left(chains, pos), prior, budget, i))
  }

  ghost function Shares(chains: seq<Chain>, pos: seq<nat>, current: seq<Step>, prior: Option<nat>, budget: nat)
    : (shares: seq<seq<seq<Step>>>)
    requires Within(chains, pos)
    ensures |shares| == |chains|
    ensures forall i :: 0 <= i < |chains| ==> shares[i] == Share(chains, pos, current, prior, budget, i)
  {
    seq(|chains|, i requires 0 <= i < |chains| => Share(chains, pos, current, prior, budget, i))
  }

  function FlatTo<T>(lists: seq<seq<T>>, n: nat): seq<T>
    requires n <= |lists|
  {
    if n == 0 then [] else FlatTo(lists, n - 1) + lists[n - 1]
  }

  function FlatFrom<T>(lists: seq<seq<T>>, n: nat): seq<T>
    requires n <= |lists|
    decreases |lists| - n
  {
    if n == |lists| then [] else lists[n] + FlatFrom(lists, n + 1)
  }

  lemma {:induction false} Halves<T>(lists: seq<seq<T>>, n: nat)
    requires n <= |lists|
    ensures FlatTo(lists, n) + FlatFrom(lists, n) == FlatFrom(lists, 0)
  {
    if n > 0 {
      Halves(lists, n - 1);
      assert FlatTo(lists, n - 1) + (lists[n - 1] + FlatFrom(lists, n))
          == (FlatTo(lists, n - 1) + lists[n - 1]) + FlatFrom(lists, n);
    }
  }

  lemma {:induction false} FlatStep<T>(lists: seq<seq<T>>, n: nat)
    requires n < |lists|
    ensures FlatTo(lists, n + 1) == FlatTo(lists, n) + lists[n] && FlatFrom(lists, n) == lists[n] + FlatFrom(lists, n + 1)
  {
  }

  lemma {:induction false} SharesFrom(chains: seq<Chain>, pos: seq<nat>, current: seq<Step>, prior: Option<nat>, budget: nat, i: nat)
    requires Within(chains, pos) && i <= |chains|
    ensures Continued(chains, pos, current, CompletionsFrom(Left(chains, pos), prior, budget, i))
         == FlatFrom(Shares(chains, pos, current, prior, budget), i)
    decreases |chains| - i
  {
    if i < |chains| {
      var rem := Left(chains, pos);
      SharesFrom(chains, pos, current, prior, budget, i + 1);
      ContinuedAppend(chains, pos, current, ActorShare(rem, prior, budget, i), CompletionsFrom(rem, prior, budget, i + 1));
    }
  }

  lemma {:induction false} SharesAreBelow(chains: seq<Chain>, pos: seq<nat>, current: seq<Step>, prior: Option<nat>, budget: nat)
    requires Within(chains, pos) && Sum(Left(chains, pos)) > 0
    ensures Continued(chains, pos, current, Completions(Left(chains, pos), prior, budget))
         == FlatFrom(Shares(chains, pos, current, prior, budget), 0)
  {
    SharesFrom(chains, pos, current, prior, budget, 0);
  }

  lemma {:induction false} Regroup<T>(a: seq<T>, b: seq<T>, c: seq<T>, n: nat)
    requires n <= |b|
    ensures a + (b + c) == (a + b) + c
    ensures (a + (b + c))[..|a| + n] == a + b[..n]
    ensures b[..|b|] == b
  {
  }

  class Enumerator {
    const chains: seq<Chain>
    const bound: nat
    const cap: nat
    var positions: seq<nat>
    var current: seq<Step>
    var shapes: seq<seq<Step>>
    var exhausted: bool
    var reason: Reason
    var signals: seq<Signal>

    predicate Valid()
      reads this
    {
      && Within(chains, positions)
      && |current| + Sum(Left(chains, positions)) == Sum(Left(chains, Origin(chains)))
      && |shapes| <= cap
    }

    // The schedules below the present position, in order.
    ghost function Below(prior: Option<nat>, preemptions: nat): seq<seq<Step>>
      reads this
      requires Within(chains, positions) && preemptions <= bound
    {
      Continued(chains, positions, current, Completions(Left(chains, positions), prior, bound - preemptions))
    }

    constructor (chains: seq<Chain>, bound: nat, cap: nat, signals: seq<Signal>)
      ensures Valid() && this.chains == chains && this.bound == bound && this.cap == cap && this.signals == signals
      ensures positions == Origin(chains) && current == [] && shapes == [] && exhausted && reason == NoReason
    {
      this.chains, this.bound, this.cap, this.signals := chains, bound, cap, signals;
      positions, current, shapes, exhausted, reason := Origin(chains), [], [], true, NoReason;
    }

    method Poll() returns (signal: Signal)
      modifies this`signals
      ensures old(signals) == [] ==> signal == Quiet && signals == []
    {
      if signals == [] { return Quiet; }
      signal := signals[0];
      signals := signals[1..];
    }

    // Keeps the first `kept` schedules below the present position: all of them
    // exactly when the enumeration is still exhaustive afterwards.
    method Visit(prior: Option<nat>, preemptions: nat) returns (ghost kept: nat)
      requires Valid() && preemptions <= bound
      modifies this
      ensures Valid() && positions == old(positions) && current == old(current)
      ensures !old(exhausted) ==> kept == 0 && !exhausted && reason == old(reason)
      ensures kept <= |old(Below(prior, preemptions))|
      ensures shapes == old(shapes) + old(Below(prior, preemptions))[..kept]
      ensures old(exhausted) ==> (exhausted <==> kept == |old(Below(prior, preemptions))|)
      ensures old(exhausted) ==> Explained(old(signals) == [], old(reason), exhausted, reason, |shapes| == cap)
      ensures old(signals) == [] ==> signals == []
      decreases Sum(Left(chains, positions))
    {
      ghost var all := Below(prior, preemptions);
      kept := 0;
      if !exhausted { return; }
      NoDeadEnd(Left(chains, positions), prior, bound - preemptions);
      var signal := Poll();
      if signal != Quiet {
        exhausted := false;
        reason := if signal == CancelNow then CancelRequested else TimeBudget;
        return;
      }
      if |current| == Sum(Left(chains, Origin(chains))) {
        assert current + [] == current;
        assert all == [current];
        if |shapes| == cap {
          exhausted := false;
          reason := EnumerationLimit;
        } else {
          shapes := shapes + [current];
          kept := 1;
        }
        return;
      }
      kept := Branch(prior, preemptions);
    }

    // One actor moves, everything below is visited, and the move is taken back.
    method Descend(i: nat, preemptions: nat, ghost share: seq<seq<Step>>) returns (ghost kept: nat)
      requires Valid() && preemptions <= bound && exhausted
      requires i < |chains| && positions[i] < |chains[i].checkpoints|
      requires share == Continued(chains, positions, current,
                                  Prepend(i, Completions(Spend(Left(chains, positions), i), Some(i), bound - preemptions)))
      modifies this
      ensures Valid() && positions == old(positions) && current == old(current)
      ensures kept <= |share| && shapes == old(shapes) + share[..kept]
      ensures exhausted <==> kept == |share|
      ensures Explained(old(signals) == [], old(reason), exhausted, reason, |shapes| == cap)
      ensures old(signals) == [] ==> signals == []
      decreases Sum(Left(chains, positions)), 0
    {
      hide Continued, Completions, Prepend, Spend, StepsAlong, Shape, Fits;
      ghost var pos, before := positions, current;
      MoveDown(chains, pos, before, i, bound - preemptions);
      var at := positions[i];
      current := current + [Step(chains[i].actor.actor, chains[i].checkpoints[at])];
      positions := positions[i := at + 1];
      kept := Visit(Some(i), preemptions);
      current := current[..|current| - 1];
      positions := positions[i := positions[i] - 1];
      assert positions == pos && current == before;
    }

    // The body of the loop: actor i is skipped, or visited and its share of the list found.
    method TryActor(prior: Option<nat>, preemptions: nat, i: nat, ghost shares: seq<seq<seq<Step>>>)
      returns (ghost kept: nat)
      requires Valid() && preemptions <= bound && exhausted && i < |chains|
      requires shares == Shares(chains, positions, current, prior, bound - preemptions)
      modifies this
      ensures Valid() && positions == old(positions) && current == old(current)
      ensures kept <= |shares[i]| && shapes == old(shapes) + shares[i][..kept]
      ensures exhausted <==> kept == |shares[i]|
      ensures Explained(old(signals) == [], old(reason), exhausted, reason, |shapes| == cap)
      ensures old(signals) == [] ==> signals == []
      decreases Sum(Left(chains, positions)), 1
    {
      kept := 0;
      if positions[i] == |chains[i].checkpoints| { return; }
      var extra := if prior.Some? && prior.value < |chains| && prior.value != i
                      && positions[prior.value] < |chains[prior.value].checkpoints| then 1 else 0;
      if preemptions + extra > bound { return; }
      kept := Descend(i, preemptions + extra, shares[i]);
    }

    // The loop of visit over the actors.
    method Branch(prior: Option<nat>, preemptions: nat) returns (ghost kept: nat)
      requires Valid() && preemptions <= bound && exhausted && Sum(Left(chains, positions)) > 0
      modifies this
      ensures Valid() && positions == old(positions) && current == old(current)
      ensures kept <= |old(Below(prior, preemptions))|
      ensures shapes == old(shapes) + old(Below(prior, preemptions))[..kept]
      ensures exhausted <==> kept == |old(Below(prior, preemptions))|
      ensures Explained(old(signals) == [], old(reason), exhausted, reason, |shapes| == cap)
      ensures old(signals) == [] ==> signals == []
      decreases Sum(Left(chains, positions)), 4
    {
      ghost var shares := Shares(chains, positions, current, prior, bound - preemptions);
      SharesAreBelow(chains, positions, current, prior, bound - preemptions);
      kept := TryAll(prior, preemptions, shares);
    }

    // One turn of the loop, seen from the beginning of the list.
    method Turn(prior: Option<nat>, preemptions: nat, i: nat, ghost shares: seq<seq<seq<Step>>>, ghost start: seq<seq<Step>>)
      returns (ghost kept: nat)
      requires Valid() && preemptions <= bound && exhausted && i < |chains|
      requires shares == Shares(chains, positions, current, prior, bound - preemptions)
      requires shapes == start + FlatTo(shares, i)
      modifies this
      ensures Valid() && positions == old(positions) && current == old(current)
      ensures exhausted ==> shapes == start + FlatTo(shares, i + 1)
      ensures !exhausted ==> kept < |FlatFrom(shares, 0)| && shapes == start + FlatFrom(shares, 0)[..kept]
      ensures Explained(old(signals) == [], old(reason), exhausted, reason, |shapes| == cap)
      ensures old(signals) == [] ==> signals == []
      decreases Sum(Left(chains, positions)), 2
    {
      hide Shares, Continued, Completions, FlatTo, FlatFrom;
      Halves(shares, i);
      FlatStep(shares, i);
      ghost var here := TryActor(prior, preemptions, i, shares);
      Regroup(FlatTo(shares, i), shares[i], FlatFrom(shares, i + 1), here);
      kept := |FlatTo(shares, i)| + here;
    }

    method TryAll(prior: Option<nat>, preemptions: nat, ghost shares: seq<seq<seq<Step>>>) returns (ghost kept: nat)
      requires Valid() && preemptions <= bound && exhausted
      requires shares == Shares(chains, positions, current, prior, bound - preemptions)
      modifies this
      ensures Valid() && positions == old(positions) && current == old(current)
      ensures kept <= |FlatFrom(shares, 0)| && shapes == old(shapes) + FlatFrom(shares, 0)[..kept]
      ensures exhausted <==> kept == |FlatFrom(shares, 0)|
      ensures Explained(old(signals) == [], old(reason), exhausted, reason, |shapes| == cap)
      ensures old(signals) == [] ==> signals == []
      decreases Sum(Left(chains, positions)), 3
    {
      hide Shares, Continued, Completions;
      for i := 0 to |chains|
        invariant Valid() && positions == old(positions) && current == old(current)
        invariant exhausted && reason == old(reason)
        invariant shapes == old(shapes) + FlatTo(shares, i)
        invariant old(signals) == [] ==> signals == []
      {
        kept := Turn(prior, preemptions, i, shares, old(shapes));
        if !exhausted { return; }
      }
      Halves(shares, |chains|);
      kept := |FlatFrom(shares, 0)|;
    }

    // The whole enumeration.
    method Enumerate() returns (ghost kept: nat)
      requires Valid() && positions == Origin(chains) && current == [] && shapes == [] && exhausted && reason == NoReason
      modifies this
      ensures kept <= |AllShapes(chains, bound)| && shapes == AllShapes(chains, bound)[..kept] && |shapes| <= cap
      ensures exhausted <==> kept == |AllShapes(chains, bound)|
      ensures exhausted ==> reason == NoReason
      ensures reason == EnumerationLimit && !exhausted ==> |shapes| == cap < |AllShapes(chains, bound)|
      ensures old(signals) == [] ==> (exhausted <==> |AllShapes(chains, bound)| <= cap)
      ensures positions == old(positions) && current == old(current)
    {
      ghost var all := Below(None, 0);
      assert all == AllShapes(chains, bound) by {
        forall k | 0 <= k < |all| ensures all[k] == AllShapes(chains, bound)[k] {}
      }
      kept := Visit(None, 0);
    }
  }
}
