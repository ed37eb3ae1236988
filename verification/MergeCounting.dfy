// How many schedules there are: k! without preemptions, the multinomial
// coefficient when the bound does not bind.
module MergeCounting {
  import opened Wrappers
  import opened Merges

  function Factorial(n: nat): (f: nat)
    ensures f > 0
  {
    if n == 0 then 1 else n * Factorial(n - 1)
  }

  // The product of the factorials of the chain lengths.
  function Factorials(rem: seq<nat>): (f: nat)
    ensures f > 0
  {
    if rem == [] then 1 else Factorial(rem[0]) * Factorials(rem[1..])
  }

  lemma {:induction false} FactorialsOfSpend(rem: seq<nat>, i: nat)
    requires i < |rem| && rem[i] > 0
    ensures Factorials(rem) == rem[i] * Factorials(Spend(rem, i))
  {
    var f := Factorials(rem[1..]);
    if i == 0 {
      assert Spend(rem, 0)[1..] == rem[1..];
      Associate(rem[0], Factorial(rem[0] - 1), f);
    } else {
      FactorialsOfSpend(rem[1..], i - 1);
      var g := Factorials(Spend(rem[1..], i - 1));
      assert Spend(rem, i)[1..] == Spend(rem[1..], i - 1);
      calc {
        Factorials(rem);
        Factorial(rem[0]) * (rem[i] * g);
        { Swap(Factorial(rem[0]), rem[i], g); }
        rem[i] * (Factorial(rem[0]) * g);
      }
    }
  }

  lemma {:induction false} Associate(a: nat, b: nat, c: nat)
    ensures (a * b) * c == a * (b * c)
  {
  }

  lemma {:induction false} Swap(a: nat, b: nat, c: nat)
    ensures a * (b * c) == b * (a * c)
  {
  }

  lemma {:induction false} Distribute(a: nat, b: nat, c: nat)
    ensures (a + b) * c == a * c + b * c
  {
  }

  // With room for every switch, the count times the product of the factorials
  // of the chain lengths is the factorial of the total.
  lemma {:induction false} Multinomial(rem: seq<nat>, prior: Option<nat>, budget: nat)
    requires Sum(rem) <= budget
    ensures |Completions(rem, prior, budget)| * Factorials(rem) == Factorial(Sum(rem))
    decreases Sum(rem), |rem| + 2
  {
    if Sum(rem) == 0 {
      AllSpent(rem);
    } else {
      MultinomialFrom(rem, prior, budget, 0);
      assert rem[0..] == rem;
    }
  }

  lemma {:induction false} AllSpent(rem: seq<nat>)
    requires Sum(rem) == 0
    ensures Factorials(rem) == 1
  {
    if rem != [] { AllSpent(rem[1..]); }
  }

  lemma {:induction false} MultinomialFrom(rem: seq<nat>, prior: Option<nat>, budget: nat, i: nat)
    requires i <= |rem| && 0 < Sum(rem) <= budget
    ensures |CompletionsFrom(rem, prior, budget, i)| * Factorials(rem) == Sum(rem[i..]) * Factorial(Sum(rem) - 1)
    decreases Sum(rem), |rem| - i + 1
  {
    if i < |rem| {
      MultinomialFrom(rem, prior, budget, i + 1);
      assert rem[i..][1..] == rem[i + 1..];
      var here, rest := |ActorShare(rem, prior, budget, i)|, |CompletionsFrom(rem, prior, budget, i + 1)|;
      ShareCount(rem, prior, budget, i);
      Distribute(here, rest, Factorials(rem));
      Distribute(rem[i], Sum(rem[i + 1..]), Factorial(Sum(rem) - 1));
    }
  }

  lemma {:induction false} ShareCount(rem: seq<nat>, prior: Option<nat>, budget: nat, i: nat)
    requires i < |rem| && 0 < Sum(rem) <= budget
    ensures |ActorShare(rem, prior, budget, i)| * Factorials(rem) == rem[i] * Factorial(Sum(rem) - 1)
    decreases Sum(rem), 0
  {
    if rem[i] > 0 {
      SumOfSpend(rem, i);
      var left := budget - Extra(rem, prior, i);
      Multinomial(Spend(rem, i), Some(i), left);
      FactorialsOfSpend(rem, i);
      var n, f := |Completions(Spend(rem, i), Some(i), left)|, Factorials(Spend(rem, i));
      Swap(n, rem[i], f);
    }
  }

  // ------------------------------------------------------ no preemption

  // Actors from i on that still have steps to make.
  function Unfinished(rem: seq<nat>, i: nat): nat
    requires i <= |rem|
    decreases |rem| - i
  {
    if i == |rem| then 0 else (if rem[i] > 0 then 1 else 0) + Unfinished(rem, i + 1)
  }

  lemma {:induction false} UnfinishedAfterSpend(rem: seq<nat>, i: nat, j: nat)
    requires i < |rem| && rem[i] > 0 && j <= |rem|
    ensures Unfinished(Spend(rem, i), j) == Unfinished(rem, j) - if j <= i && rem[i] == 1 then 1 else 0
    decreases |rem| - j
  {
    if j < |rem| { UnfinishedAfterSpend(rem, i, j + 1); }
  }

  lemma {:induction false} UnfinishedIsPositive(rem: seq<nat>, i: nat, j: nat)
    requires j <= i < |rem| && rem[i] > 0
    ensures Unfinished(rem, j) > 0
    decreases i - j
  {
    if j < i { UnfinishedIsPositive(rem, i, j + 1); }
  }

  predicate Busy(rem: seq<nat>, prior: Option<nat>) {
    prior.Some? && prior.value < |rem| && rem[prior.value] > 0
  }

  lemma {:induction false} NothingUnfinished(rem: seq<nat>, j: nat)
    requires j <= |rem| && forall i :: 0 <= i < |rem| ==> rem[i] == 0
    ensures Unfinished(rem, j) == 0
    decreases |rem| - j
  {
    if j < |rem| { NothingUnfinished(rem, j + 1); }
  }

  // Without preemptions a schedule is an order of the actors; one that has begun
  // has to be finished first.
  lemma {:induction false} Orders(rem: seq<nat>, prior: Option<nat>)
    ensures Busy(rem, prior) ==> Unfinished(rem, 0) > 0
    ensures |Completions(rem, prior, 0)| == Factorial(Unfinished(rem, 0) - if Busy(rem, prior) then 1 else 0)
    decreases Sum(rem), |rem| + 2
  {
    SumZero(rem);
    if Sum(rem) == 0 {
      NothingUnfinished(rem, 0);
    } else {
      if Busy(rem, prior) { UnfinishedIsPositive(rem, prior.value, 0); }
      OrdersFrom(rem, prior, 0);
    }
  }

  lemma {:induction false} OrdersFrom(rem: seq<nat>, prior: Option<nat>, i: nat)
    requires i <= |rem| && 0 < Sum(rem)
    ensures 0 < Unfinished(rem, 0)
    ensures |CompletionsFrom(rem, prior, 0, i)| ==
            (if Busy(rem, prior) then (if i <= prior.value then 1 else 0) else Unfinished(rem, i))
            * Factorial(Unfinished(rem, 0) - 1)
    decreases Sum(rem), |rem| - i + 1
  {
    SumZero(rem);
    var k :| 0 <= k < |rem| && rem[k] > 0;
    UnfinishedIsPositive(rem, k, 0);
    if i < |rem| {
      OrdersFrom(rem, prior, i + 1);
      OrdersOf(rem, prior, i);
      var f := Factorial(Unfinished(rem, 0) - 1);
      if !Busy(rem, prior) { Distribute(if rem[i] > 0 then 1 else 0, Unfinished(rem, i + 1), f); }
    }
  }

  lemma {:induction false} OrdersOf(rem: seq<nat>, prior: Option<nat>, i: nat)
    requires i < |rem| && 0 < Sum(rem) && 0 < Unfinished(rem, 0)
    ensures |ActorShare(rem, prior, 0, i)| ==
            if rem[i] > 0 && (Busy(rem, prior) ==> prior.value == i) then Factorial(Unfinished(rem, 0) - 1) else 0
    decreases Sum(rem), 0
  {
    if rem[i] > 0 && (Busy(rem, prior) ==> prior.value == i) {
      SumOfSpend(rem, i);
      Orders(Spend(rem, i), Some(i));
      UnfinishedAfterSpend(rem, i, 0);
    }
  }

  lemma {:induction false} EveryoneUnfinished(rem: seq<nat>, j: nat)
    requires j <= |rem| && forall i :: 0 <= i < |rem| ==> rem[i] > 0
    ensures Unfinished(rem, j) == |rem| - j
    decreases |rem| - j
  {
    if j < |rem| { EveryoneUnfinished(rem, j + 1); }
  }

  // k non-empty chains and no preemption: k! schedules.
  lemma {:induction false} SerialOrders(rem: seq<nat>)
    requires forall i :: 0 <= i < |rem| ==> rem[i] > 0
    ensures |Completions(rem, None, 0)| == Factorial(|rem|)
  {
    Orders(rem, None);
    EveryoneUnfinished(rem, 0);
  }
}
