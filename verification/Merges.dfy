// Merges of actor chains with a bounded number of preemptions, as paths: which
// actor moves at each step.  `Completions` is the list in which the enumerator of
// src/schedule_exploration.rs:187-234 meets them; everything else characterises it.
module Merges {
  import opened Wrappers

  type Path = seq<nat>

  function Sum(rem: seq<nat>): nat {
    if rem == [] then 0 else rem[0] + Sum(rem[1..])
  }

  function Spend(rem: seq<nat>, i: nat): seq<nat>
    requires i < |rem| && rem[i] > 0
  {
    rem[i := rem[i] - 1]
  }

  lemma {:induction false} SumOfSpend(rem: seq<nat>, i: nat)
    requires i < |rem| && rem[i] > 0
    ensures Sum(Spend(rem, i)) == Sum(rem) - 1
  {
    if i > 0 {
      SumOfSpend(rem[1..], i - 1);
      assert Spend(rem, i)[1..] == Spend(rem[1..], i - 1);
    } else {
      assert Spend(rem, i)[1..] == rem[1..];
    }
  }

  lemma {:induction false} SumZero(rem: seq<nat>)
    ensures Sum(rem) == 0 <==> forall i :: 0 <= i < |rem| ==> rem[i] == 0
  {
    if rem != [] {
      SumZero(rem[1..]);
      assert forall i :: 0 < i < |rem| ==> rem[i] == rem[1..][i - 1];
    }
  }

  // A switch away from an actor that still has steps to make.
  function Extra(rem: seq<nat>, prior: Option<nat>, i: nat): nat {
    if prior.Some? && prior.value != i && prior.value < |rem| && rem[prior.value] > 0 then 1 else 0
  }

  function Prepend(i: nat, paths: seq<Path>): (r: seq<Path>)
    ensures |r| == |paths|
    ensures forall k :: 0 <= k < |paths| ==> r[k] == [i] + paths[k]
  {
    seq(|paths|, k requires 0 <= k < |paths| => [i] + paths[k])
  }

  // All ways to spend `rem` with at most `budget` preemptions, smaller actors first.
  function Completions(rem: seq<nat>, prior: Option<nat>, budget: nat): seq<Path>
    decreases Sum(rem), |rem| + 2
  {
    if Sum(rem) == 0 then [[]] else CompletionsFrom(rem, prior, budget, 0)
  }

  // The completions that begin with actor i.
  function ActorShare(rem: seq<nat>, prior: Option<nat>, budget: nat, i: nat): seq<Path>
    requires i < |rem|
    decreases Sum(rem), 0
  {
    if rem[i] == 0 || Extra(rem, prior, i) > budget then []
    else
      SumOfSpend(rem, i);
      Prepend(i, Completions(Spend(rem, i), Some(i), budget - Extra(rem, prior, i)))
  }

  function CompletionsFrom(rem: seq<nat>, prior: Option<nat>, budget: nat, i: nat): seq<Path>
    requires i <= |rem|
    decreases Sum(rem), |rem| - i + 1
  {
    if i == |rem| then [] else ActorShare(rem, prior, budget, i) + CompletionsFrom(rem, prior, budget, i + 1)
  }

  // ------------------------------------------------------ what is in the list

  // The path spends exactly what remains.
  predicate Fits(rem: seq<nat>, p: Path)
    decreases |p|
  {
    if p == [] then Sum(rem) == 0
    else p[0] < |rem| && rem[p[0]] > 0 && Fits(Spend(rem, p[0]), p[1..])
  }

  // Preemptions along a path, counted as the enumerator goes.
  function Cost(rem: seq<nat>, prior: Option<nat>, p: Path): nat
    requires Fits(rem, p)
    decreases |p|
  {
    if p == [] then 0 else Extra(rem, prior, p[0]) + Cost(Spend(rem, p[0]), Some(p[0]), p[1..])
  }

  lemma {:induction false} InCompletions(rem: seq<nat>, prior: Option<nat>, budget: nat, p: Path)
    ensures p in Completions(rem, prior, budget) <==> Fits(rem, p) && Cost(rem, prior, p) <= budget
    decreases Sum(rem), |rem| + 1
  {
    if Sum(rem) == 0 {
      SumZero(rem);
    } else {
      InCompletionsFrom(rem, prior, budget, 0, p);
    }
  }

  lemma {:induction false} InCompletionsFrom(rem: seq<nat>, prior: Option<nat>, budget: nat, i: nat, p: Path)
    requires i <= |rem| && Sum(rem) > 0
    ensures p in CompletionsFrom(rem, prior, budget, i) <==>
            p != [] && i <= p[0] && Fits(rem, p) && Cost(rem, prior, p) <= budget
    decreases Sum(rem), |rem| - i
  {
    if i < |rem| {
      InCompletionsFrom(rem, prior, budget, i + 1, p);
      if rem[i] > 0 && Extra(rem, prior, i) <= budget {
        SumOfSpend(rem, i);
        var below := Completions(Spend(rem, i), Some(i), budget - Extra(rem, prior, i));
        InPrepend(i, below, p);
        if p != [] { InCompletions(Spend(rem, i), Some(i), budget - Extra(rem, prior, i), p[1..]); }
      }
    }
  }

  lemma {:induction false} InPrepend(i: nat, paths: seq<Path>, p: Path)
    ensures p in Prepend(i, paths) <==> p != [] && p[0] == i && p[1..] in paths
  {
    if p in Prepend(i, paths) {
      var k :| 0 <= k < |paths| && Prepend(i, paths)[k] == p;
      assert p[1..] == paths[k];
    }
    if p != [] && p[0] == i && p[1..] in paths {
      var k :| 0 <= k < |paths| && paths[k] == p[1..];
      assert p == [i] + p[1..];
      assert Prepend(i, paths)[k] == p;
    }
  }

  // ------------------------------------------------------ order

  predicate Before(p: Path, q: Path) {
    q != [] && (p == [] || p[0] < q[0] || (p[0] == q[0] && Before(p[1..], q[1..])))
  }

  predicate Ascending(paths: seq<Path>) {
    forall j, k :: 0 <= j < k < |paths| ==> Before(paths[j], paths[k])
  }

  lemma {:induction false} CompletionsAscend(rem: seq<nat>, prior: Option<nat>, budget: nat)
    ensures Ascending(Completions(rem, prior, budget))
    decreases Sum(rem), |rem| + 1
  {
    if Sum(rem) > 0 { FromAscends(rem, prior, budget, 0); }
  }

  lemma {:induction false} FromAscends(rem: seq<nat>, prior: Option<nat>, budget: nat, i: nat)
    requires i <= |rem| && Sum(rem) > 0
    ensures Ascending(CompletionsFrom(rem, prior, budget, i))
    decreases Sum(rem), |rem| - i
  {
    if i < |rem| {
      FromAscends(rem, prior, budget, i + 1);
      if rem[i] > 0 && Extra(rem, prior, i) <= budget {
        SumOfSpend(rem, i);
        var below := Completions(Spend(rem, i), Some(i), budget - Extra(rem, prior, i));
        CompletionsAscend(Spend(rem, i), Some(i), budget - Extra(rem, prior, i));
        var here, rest := Prepend(i, below), CompletionsFrom(rem, prior, budget, i + 1);
        forall j, k | 0 <= j < k < |here + rest| ensures Before((here + rest)[j], (here + rest)[k]) {
          if k < |here| {
            assert here[j][1..] == below[j] && here[k][1..] == below[k];
          } else if j < |here| {
            InCompletionsFrom(rem, prior, budget, i + 1, rest[k - |here|]);
          }
        }
      }
    }
  }

  lemma {:induction false} BeforeIsStrict(p: Path)
    ensures !Before(p, p)
  {
    if p != [] { BeforeIsStrict(p[1..]); }
  }

  lemma {:induction false} CompletionsAreDistinct(rem: seq<nat>, prior: Option<nat>, budget: nat, j: nat, k: nat)
    requires j < k < |Completions(rem, prior, budget)|
    ensures Completions(rem, prior, budget)[j] != Completions(rem, prior, budget)[k]
  {
    CompletionsAscend(rem, prior, budget);
    BeforeIsStrict(Completions(rem, prior, budget)[j]);
  }

  // ------------------------------------------------------ no dead ends

  // Whatever has been spent, the actor that moved last can go on for free, or,
  // when it is finished, anybody can.
  lemma {:induction false} NoDeadEnd(rem: seq<nat>, prior: Option<nat>, budget: nat)
    ensures Completions(rem, prior, budget) != []
    decreases Sum(rem)
  {
    if Sum(rem) > 0 {
      SumZero(rem);
      var any :| 0 <= any < |rem| && rem[any] > 0;
      var i := if prior.Some? && prior.value < |rem| && rem[prior.value] > 0 then prior.value else any;
      SumOfSpend(rem, i);
      NoDeadEnd(Spend(rem, i), Some(i), budget);
      var p := Completions(Spend(rem, i), Some(i), budget)[0];
      InCompletions(Spend(rem, i), Some(i), budget, p);
      var q := [i] + p;
      assert q[1..] == p;
      InCompletions(rem, prior, budget, q);
    }
  }
}
