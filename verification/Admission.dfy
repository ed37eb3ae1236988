// Admission of a schedule before anything is acquired (src/schedule.rs:648-704).
module Admission {
  import opened Schedule
  import opened ScheduleText
  import JsonTree

  // Timeouts are in nanoseconds.
  datatype Policy = Policy(maxActors: nat, maxSteps: nat, executionTimeout: nat, cleanupTimeout: nat)

  // What an adapter declares.
  datatype Adapter = Adapter(identity: Identity, actors: seq<Declaration>, checkpoints: seq<string>)

  datatype Verdict = Admitted | Rejected(reason: Outcome)

  const DAY := 86_400 * 1_000_000_000

  predicate BudgetUsable(timeout: nat) { 0 < timeout <= DAY }

  predicate PolicyUsable(p: Policy) {
    0 < p.maxActors <= 64 && 0 < p.maxSteps <= 65_536 && BudgetUsable(p.executionTimeout) && BudgetUsable(p.cleanupTimeout)
  }

  // What is carried out of a schedule on an adapter.
  function PlanOf(d: Document, adapter: Adapter): Plan { Plan(adapter.actors, adapter.checkpoints, d.steps) }

  predicate NamesUsable(plan: Plan) {
    forall i :: 0 <= i < |plan.actors| ==> Identifier(plan.actors[i].actor) && Identifier(plan.actors[i].operation)
  }

  predicate CheckpointsUsable(plan: Plan) {
    && (forall k :: 0 <= k < |plan.checkpoints| ==> Identifier(plan.checkpoints[k]))
    && (forall j, k :: 0 <= j < k < |plan.checkpoints| ==> plan.checkpoints[j] != plan.checkpoints[k])
  }

  // The whole of `admit`. Inputs are JSON trees of the program: their members are in key order.
  method Admit(d: Document, adapter: Adapter, policy: Policy) returns (v: Verdict)
    requires JsonTree.Printable(d.inputs)
    ensures v.Admitted? <==>
            && Encodable(d) && d.identity == adapter.identity
            && PolicyUsable(policy)
            && |adapter.actors| <= policy.maxActors && |d.steps| <= policy.maxSteps
            && CheckpointsUsable(PlanOf(d, adapter))
            && Admissible(PlanOf(d, adapter))
    ensures v == Rejected(IncompatibleIdentity) <==> Encodable(d) && d.identity != adapter.identity
    ensures v.Rejected? ==> v.reason == IncompatibleIdentity || v.reason == InvalidSchedule
  {
    hide EncodeSchedule, InputsFit, TextLength, DistinctDeclarations, StepsAdmissible, Identifier, IdentityValid;
    EncodesExactly(d);
    var text := EncodeSchedule(d);
    if text.None? { return Rejected(InvalidSchedule); }
    if d.identity != adapter.identity || !IdentityValid(adapter.identity) { return Rejected(IncompatibleIdentity); }
    if !PolicyUsable(policy) { return Rejected(InvalidSchedule); }
    if adapter.actors == [] || |adapter.actors| > policy.maxActors || |d.steps| > policy.maxSteps {
      return Rejected(InvalidSchedule);
    }
    var plan := PlanOf(d, adapter);
    var declared := AdmitNames(plan);
    if !declared { return Rejected(InvalidSchedule); }
    var listed := AdmitCheckpoints(plan);
    if !listed { return Rejected(InvalidSchedule); }
    var runnable := AdmitSteps(plan);
    if !runnable { return Rejected(InvalidSchedule); }
    v := Admitted;
  }

  method AdmitNames(plan: Plan) returns (ok: bool)
    ensures ok <==> NamesUsable(plan) && DistinctDeclarations(plan)
  {
    var actors: set<string>, operations: set<string> := {}, {};
    for n := 0 to |plan.actors|
      invariant actors == set i | 0 <= i < n :: plan.actors[i].actor
      invariant operations == set i | 0 <= i < n :: plan.actors[i].operation
      invariant forall i :: 0 <= i < n ==> Identifier(plan.actors[i].actor) && Identifier(plan.actors[i].operation)
      invariant forall i, j :: 0 <= i < j < n ==>
                  plan.actors[i].actor != plan.actors[j].actor && plan.actors[i].operation != plan.actors[j].operation
    {
      var a := plan.actors[n];
      if !Identifier(a.actor) || !Identifier(a.operation) || a.actor in actors || a.operation in operations {
        return false;
      }
      actors, operations := actors + {a.actor}, operations + {a.operation};
    }
    ok := true;
  }

  method AdmitCheckpoints(plan: Plan) returns (ok: bool)
    ensures ok <==> CheckpointsUsable(plan)
  {
    var checkpoints: set<string> := {};
    for n := 0 to |plan.checkpoints|
      invariant checkpoints == set i | 0 <= i < n :: plan.checkpoints[i]
      invariant forall i :: 0 <= i < n ==> Identifier(plan.checkpoints[i])
      invariant forall i, j :: 0 <= i < j < n ==> plan.checkpoints[i] != plan.checkpoints[j]
    {
      var c := plan.checkpoints[n];
      if !Identifier(c) || c in checkpoints { return false; }
      checkpoints := checkpoints + {c};
    }
    ok := true;
  }

  // The loop over the steps, with the set of actors that have completed.
  method AdmitSteps(plan: Plan) returns (ok: bool)
    ensures ok <==> StepsAdmissible(plan)
  {
    var actors := set i | 0 <= i < |plan.actors| :: plan.actors[i].actor;
    var done: set<string> := {};
    for n := 0 to |plan.steps|
      invariant done <= actors
      invariant done == set k | 0 <= k < n && plan.steps[k].checkpoint == COMPLETION :: plan.steps[k].actor
      invariant forall k :: 0 <= k < n ==> Declares(plan, plan.steps[k].actor)
      invariant forall k :: 0 <= k < n && plan.steps[k].checkpoint != COMPLETION ==>
                  plan.steps[k].checkpoint in plan.checkpoints
      invariant forall j, k :: 0 <= j < k < n && plan.steps[j].checkpoint == COMPLETION ==>
                  plan.steps[k].actor != plan.steps[j].actor
    {
      var step := plan.steps[n];
      if step.actor !in actors || step.actor in done { return false; }
      if step.checkpoint == COMPLETION { done := done + {step.actor}; }
      else if step.checkpoint !in plan.checkpoints { return false; }
    }
    ok := done == actors;
    if ok {
      forall i | 0 <= i < |plan.actors| ensures Step(plan.actors[i].actor, COMPLETION) in plan.steps {
        assert plan.actors[i].actor in done;
      }
    } else {
      var name :| name in actors && name !in done;
      var i :| 0 <= i < |plan.actors| && plan.actors[i].actor == name;
      assert Step(name, COMPLETION) !in plan.steps;
    }
  }

  // --------------------------------------------- the same, actor by actor

  // The checkpoints of one actor's steps, in order.
  function Projection(steps: seq<Step>, name: string): seq<string> {
    if steps == [] then []
    else
      var last := steps[|steps| - 1];
      Projection(steps[..|steps| - 1], name) + if last.actor == name then [last.checkpoint] else []
  }

  predicate Underway(chain: seq<string>, checkpoints: seq<string>) {
    forall k :: 0 <= k < |chain| ==> chain[k] != COMPLETION && chain[k] in checkpoints
  }

  // Declared checkpoints followed by one final completion.
  predicate CompleteChain(chain: seq<string>, checkpoints: seq<string>) {
    && chain != []
    && chain[|chain| - 1] == COMPLETION
    && Underway(chain[..|chain| - 1], checkpoints)
  }

  predicate Started(steps: seq<Step>, name: string, checkpoints: seq<string>) {
    forall k :: 0 <= k < |steps| && steps[k].actor == name ==>
      steps[k].checkpoint != COMPLETION && steps[k].checkpoint in checkpoints
  }

  predicate ActorAdmissible(steps: seq<Step>, name: string, checkpoints: seq<string>) {
    && (forall k :: 0 <= k < |steps| && steps[k].actor == name && steps[k].checkpoint != COMPLETION ==>
          steps[k].checkpoint in checkpoints)
    && (forall j, k :: 0 <= j < k < |steps| && steps[j] == Step(name, COMPLETION) ==> steps[k].actor != name)
    && Step(name, COMPLETION) in steps
  }

  lemma {:induction false} StartedByProjection(steps: seq<Step>, name: string, checkpoints: seq<string>)
    ensures Started(steps, name, checkpoints) <==> Underway(Projection(steps, name), checkpoints)
  {
    if steps != [] {
      var most, last := steps[..|steps| - 1], steps[|steps| - 1];
      StartedByProjection(most, name, checkpoints);
      assert steps == most + [last];
      var before, all := Projection(most, name), Projection(steps, name);
      if last.actor == name {
        assert all == before + [last.checkpoint];
        assert Underway(all, checkpoints) <==>
               Underway(before, checkpoints) && last.checkpoint != COMPLETION && last.checkpoint in checkpoints by {
          assert forall k :: 0 <= k < |before| ==> all[k] == before[k];
          assert all[|before|] == last.checkpoint;
        }
      } else {
        assert all == before;
      }
      assert forall k :: 0 <= k < |most| ==> steps[k] == most[k];
      assert steps[|most|] == last;
    }
  }

  lemma {:induction false} AdmissibleByProjection(steps: seq<Step>, name: string, checkpoints: seq<string>)
    ensures ActorAdmissible(steps, name, checkpoints) <==> CompleteChain(Projection(steps, name), checkpoints)
  {
    if steps != [] {
      var most, last := steps[..|steps| - 1], steps[|steps| - 1];
      assert steps == most + [last];
      if last.actor == name {
        StartedByProjection(most, name, checkpoints);
        assert Projection(steps, name)[..|Projection(most, name)|] == Projection(most, name);
        LastOfActor(most, last, checkpoints);
      } else {
        AdmissibleByProjection(most, name, checkpoints);
        LastOfAnother(most, last, name, checkpoints);
        assert Projection(steps, name) == Projection(most, name);
      }
    }
  }

  lemma {:induction false} LastOfAnother(most: seq<Step>, last: Step, name: string, checkpoints: seq<string>)
    requires last.actor != name
    ensures ActorAdmissible(most + [last], name, checkpoints) <==> ActorAdmissible(most, name, checkpoints)
  {
    var steps := most + [last];
    assert steps[|most|] == last;
    assert forall k :: 0 <= k < |most| ==> steps[k] == most[k];
    assert Step(name, COMPLETION) in steps <==> Step(name, COMPLETION) in most;
    if ActorAdmissible(steps, name, checkpoints) {
      forall j, k | 0 <= j < k < |most| && most[j] == Step(name, COMPLETION) ensures most[k].actor != name {
        assert steps[j] == most[j];
      }
    }
  }

  // When the last step is the actor's own, it has to be its completion.
  lemma {:induction false} LastOfActor(most: seq<Step>, last: Step, checkpoints: seq<string>)
    ensures ActorAdmissible(most + [last], last.actor, checkpoints) <==>
            Started(most, last.actor, checkpoints) && last.checkpoint == COMPLETION
  {
    var steps := most + [last];
    assert steps[|most|] == last;
    if ActorAdmissible(steps, last.actor, checkpoints) {
      var done :| 0 <= done < |steps| && steps[done] == Step(last.actor, COMPLETION);
      assert done == |most|;
      forall k | 0 <= k < |most| && most[k].actor == last.actor
        ensures most[k].checkpoint != COMPLETION && most[k].checkpoint in checkpoints
      {
        assert steps[k] == most[k];
      }
    }
    assert forall k :: 0 <= k < |most| ==> steps[k] == most[k];
  }

  // `admit` takes the steps exactly when every declared actor's own steps are
  // declared checkpoints followed by one completion, and nobody else appears.
  lemma {:induction false} StepsByProjection(plan: Plan)
    ensures StepsAdmissible(plan) <==>
            && (forall k :: 0 <= k < |plan.steps| ==> Declares(plan, plan.steps[k].actor))
            && (forall i :: 0 <= i < |plan.actors| ==>
                  CompleteChain(Projection(plan.steps, plan.actors[i].actor), plan.checkpoints))
  {
    forall i | 0 <= i < |plan.actors|
      ensures ActorAdmissible(plan.steps, plan.actors[i].actor, plan.checkpoints)
         <==> CompleteChain(Projection(plan.steps, plan.actors[i].actor), plan.checkpoints)
    {
      AdmissibleByProjection(plan.steps, plan.actors[i].actor, plan.checkpoints);
    }
    if forall k :: 0 <= k < |plan.steps| ==> Declares(plan, plan.steps[k].actor) {
      StepsActorByActor(plan);
    }
  }

  lemma {:induction false} StepsActorByActor(plan: Plan)
    requires forall k :: 0 <= k < |plan.steps| ==> Declares(plan, plan.steps[k].actor)
    ensures StepsAdmissible(plan) <==>
            forall i :: 0 <= i < |plan.actors| ==>
              ActorAdmissible(plan.steps, plan.actors[i].actor, plan.checkpoints)
  {
    if forall i :: 0 <= i < |plan.actors| ==> ActorAdmissible(plan.steps, plan.actors[i].actor, plan.checkpoints) {
      forall k | 0 <= k < |plan.steps|
        ensures ActorAdmissible(plan.steps, plan.steps[k].actor, plan.checkpoints)
      {
        assert Declares(plan, plan.steps[k].actor);
      }
      forall j, k | 0 <= j < k < |plan.steps| && plan.steps[j].checkpoint == COMPLETION
        ensures plan.steps[k].actor != plan.steps[j].actor
      {
        assert plan.steps[j] == Step(plan.steps[j].actor, COMPLETION);
      }
    }
  }
}
