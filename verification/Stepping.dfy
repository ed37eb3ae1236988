// The client's stepping loop (src/client.rs:433-488): one computed state for every initial state
// and step that the mirror sends, until a terminal message.
module Stepping {
  import opened Wrappers
  import opened Values

  type State = seq<Field>

  datatype Message =
    | InitialState(action: string, state: State)
    | NextStep(action: string, parameters: State)
    | StepOk
    | AllStepsDone
    | StepMismatch(reported: Option<string>)
    | ProtocolError
    | RegisterError
    | Unexpected

  // What the transport delivers: a message, or an error (closed, unreadable, undecodable).
  datatype Incoming = Line(m: Message) | Broken

  datatype Computed = Reply(s: State) | ComputeFailed | ComputePanicked

  datatype Ending = Done | Mismatch(action: string, parameters: State) | Protocol | Registration | UnexpectedMessage
    | TransportFailed | ComputerFailed | Panicked

  // The adapter's answers, call by call, and whether each report reaches the transport.
  datatype World = World(compute: (nat, string, State, State) -> Computed, sends: nat -> bool)

  // ------------------------------------------------------ the fold

  // The states sent and the ending, from a point where `k` states have been sent, `state` last.
  function Fold(world: World, script: seq<Incoming>, k: nat, state: State, lastParam: State, lastAction: string)
    : (r: (seq<State>, Ending))
    decreases |script|, 1
  {
    if script == [] || script[0].Broken? then ([], TransportFailed)
    else match script[0].m
      case InitialState(action, s) => Answer(world, script, k, world.compute(k, action, s, []), lastParam, action)
      case NextStep(action, p) => Answer(world, script, k, world.compute(k, action, p, state), p, action)
      case StepOk => Fold(world, script[1..], k, state, lastParam, lastAction)
      case AllStepsDone => ([], Done)
      case StepMismatch(reported) => ([], Mismatch(if reported.Some? then reported.value else lastAction, lastParam))
      case ProtocolError => ([], Protocol)
      case RegisterError => ([], Registration)
      case Unexpected => ([], UnexpectedMessage)
  }

  function Answer(world: World, script: seq<Incoming>, k: nat, c: Computed, lastParam: State, lastAction: string)
    : (seq<State>, Ending)
    requires script != []
    decreases |script|, 0
  {
    match c
    case ComputeFailed => ([], ComputerFailed)
    case ComputePanicked => ([], Panicked)
    case Reply(s) =>
      if !world.sends(k) then ([], TransportFailed)
      else
        var rest := Fold(world, script[1..], k + 1, s, lastParam, lastAction);
        ([s] + rest.0, rest.1)
  }

  // ------------------------------------------------------ the wire, and what happens on it

  // What the loop does to the outside, in the order in which it does it.
  datatype Exchange = Heard(line: Incoming) | Asked(answer: Computed) | Reported(state: State, delivered: bool)

  // Nothing follows the end of the talk, a state is reported as soon as it is computed, and it is
  // computed as soon as it is requested.
  predicate Orderly(talk: seq<Exchange>) {
    && (forall k :: 0 <= k < |talk| && talk[k].Reported? ==> k > 0 && talk[k - 1] == Asked(Reply(talk[k].state)))
    && (forall k :: 0 <= k < |talk| && talk[k].Asked? ==> k > 0 && talk[k - 1].Heard? && Asks(talk[k - 1].line))
    && (forall k :: 0 <= k < |talk| - 1 ==> !Ends(talk[k]))
  }

  // A terminal message or transport error, a failed computation, a report that is not delivered.
  predicate Ends(x: Exchange) {
    match x
    case Heard(line) => !Goes(line)
    case Asked(answer) => !answer.Reply?
    case Reported(_, delivered) => !delivered
  }

  function Delivered(talk: seq<Exchange>): seq<State> {
    if talk == [] then []
    else
      var last := talk[|talk| - 1];
      Delivered(talk[..|talk| - 1]) + (if last.Reported? && last.delivered then [last.state] else [])
  }

  function HeardLines(talk: seq<Exchange>): seq<Incoming> {
    if talk == [] then []
    else
      var last := talk[|talk| - 1];
      HeardLines(talk[..|talk| - 1]) + (if last.Heard? then [last.line] else [])
  }

  lemma {:induction false} TalkPush(talk: seq<Exchange>, x: Exchange)
    ensures Delivered(talk + [x]) == Delivered(talk) + (if x.Reported? && x.delivered then [x.state] else [])
    ensures HeardLines(talk + [x]) == HeardLines(talk) + (if x.Heard? then [x.line] else [])
  {
    assert (talk + [x])[..|talk|] == talk;
  }

  // The loop may go on: nothing has ended, and what the talk calls for has been done.
  predicate Settled(talk: seq<Exchange>) {
    Orderly(talk) && (talk != [] ==> !Ends(talk[|talk| - 1]))
  }

  // What may come next in a talk.
  predicate Follows(talk: seq<Exchange>, x: Exchange) {
    && (x.Reported? ==> talk != [] && talk[|talk| - 1] == Asked(Reply(x.state)))
    && (x.Asked? ==> talk != [] && talk[|talk| - 1].Heard? && Asks(talk[|talk| - 1].line))
  }

  lemma {:induction false} SettledPush(talk: seq<Exchange>, x: Exchange)
    requires Settled(talk) && Follows(talk, x)
    ensures Orderly(talk + [x]) && (!Ends(x) ==> Settled(talk + [x]))
  {
  }

  class Wire {
    const world: World
    const script: seq<Incoming>
    var at: nat
    var reports: nat
    var talk: seq<Exchange>

    predicate Valid()
      reads this
    {
      at <= |script| && Settled(talk) && HeardLines(talk) == script[..at] && reports == |Delivered(talk)|
    }

    constructor (world: World, script: seq<Incoming>)
      ensures Valid() && this.world == world && this.script == script && talk == [] && at == 0
    {
      this.world, this.script := world, script;
      at, reports, talk := 0, 0, [];
    }

    // The next message; an error when there is none.
    method Receive() returns (i: Incoming)
      requires Valid()
      modifies this`at, this`talk
      ensures i == if old(at) < |script| then script[old(at)] else Broken
      ensures talk == old(talk) + [Heard(i)] && Delivered(talk) == Delivered(old(talk)) && Orderly(talk)
      ensures Goes(i) ==> Valid() && at == old(at) + 1
      ensures HeardLines(talk) == if old(at) < |script| then script[..old(at) + 1] else script + [Broken]
    {
      hide Orderly, Settled, Delivered, HeardLines;
      i := if at < |script| then script[at] else Broken;
      TalkPush(talk, Heard(i));
      SettledPush(talk, Heard(i));
      assert script[..|script|] == script;
      if at < |script| {
        assert script[..at] + [script[at]] == script[..at + 1];
        at := at + 1;
      }
      talk := talk + [Heard(i)];
    }

    // The adapter's callback.
    method Compute(action: string, input: State, last: State) returns (c: Computed)
      requires Valid() && talk != [] && talk[|talk| - 1].Heard? && Asks(talk[|talk| - 1].line)
      modifies this`talk
      ensures c == world.compute(reports, action, input, last)
      ensures talk == old(talk) + [Asked(c)] && Delivered(talk) == Delivered(old(talk)) && Orderly(talk)
      ensures HeardLines(talk) == HeardLines(old(talk))
      ensures c.Reply? ==> Valid()
    {
      hide Orderly, Settled, Delivered, HeardLines;
      c := world.compute(reports, action, input, last);
      TalkPush(talk, Asked(c));
      SettledPush(talk, Asked(c));
      talk := talk + [Asked(c)];
    }

    // The report of a state to the mirror.
    method Report(s: State) returns (ok: bool)
      requires Valid() && talk != [] && talk[|talk| - 1] == Asked(Reply(s))
      modifies this`talk, this`reports
      ensures ok == world.sends(old(reports))
      ensures talk == old(talk) + [Reported(s, ok)] && Orderly(talk) && HeardLines(talk) == HeardLines(old(talk))
      ensures Delivered(talk) == Delivered(old(talk)) + (if ok then [s] else [])
      ensures ok ==> Valid() && reports == old(reports) + 1
    {
      hide Orderly, Settled, Delivered, HeardLines;
      ok := world.sends(reports);
      TalkPush(talk, Reported(s, ok));
      SettledPush(talk, Reported(s, ok));
      if ok { reports := reports + 1; }
      talk := talk + [Reported(s, ok)];
    }
  }

  // A request is computed and the state reported.
  method Respond(wire: Wire, action: string, input: State, last: State) returns (c: Computed, ok: bool)
    requires wire.Valid() && wire.talk != [] && wire.talk[|wire.talk| - 1].Heard? && Asks(wire.talk[|wire.talk| - 1].line)
    modifies wire`talk, wire`reports
    ensures c == wire.world.compute(old(wire.reports), action, input, last)
    ensures ok <==> c.Reply? && wire.world.sends(old(wire.reports))
    ensures Delivered(wire.talk) == Delivered(old(wire.talk)) + (if ok then [c.s] else [])
    ensures Orderly(wire.talk) && HeardLines(wire.talk) == HeardLines(old(wire.talk))
    ensures if ok then wire.Valid() && wire.reports == old(wire.reports) + 1
            else wire.talk != [] && Ends(wire.talk[|wire.talk| - 1])
  {
    hide Orderly, Settled, Delivered, HeardLines;
    c := wire.Compute(action, input, last);
    if !c.Reply? { return c, false; }
    ok := wire.Report(c.s);
  }

  // run_stepping_loop
  method RunSteppingLoop(wire: Wire) returns (ending: Ending)
    requires wire.Valid() && wire.talk == [] && wire.at == 0
    modifies wire
    ensures (Delivered(wire.talk), ending) == Fold(wire.world, wire.script, 0, [], [], "")
    ensures Orderly(wire.talk) && wire.talk != [] && Ends(wire.talk[|wire.talk| - 1])
    ensures HeardLines(wire.talk) <= wire.script || HeardLines(wire.talk) == wire.script + [Broken]
  {
    hide Orderly, Settled, Delivered, HeardLines;
    var world, script := wire.world, wire.script;
    var state: State, lastParam: State, lastAction := [], [], "";
    NothingSaid();
    assert script[0..] == script;
    ghost var whole := Fold(world, script, 0, [], [], "");
    assert [] + whole.0 == whole.0;
    while true
      invariant wire.Valid() && wire.world == world && wire.script == script
      invariant whole == Prefixed(Delivered(wire.talk), Fold(world, script[wire.at..], wire.reports, state, lastParam, lastAction))
      decreases |script| - wire.at
    {
      ghost var rest, sent := script[wire.at..], Delivered(wire.talk);
      assert sent + [] == sent;
      var i := wire.Receive();
      if i.Broken? { return TransportFailed; }
      assert rest[0] == i;
      match i.m {
        case InitialState(action, fromMirror) =>
          assert rest[1..] == script[wire.at..];
          lastAction := action;
          PushReply(sent, world, script[wire.at..], wire.reports, world.compute(wire.reports, action, fromMirror, []),
                    lastParam, action);
          var c, ok := Respond(wire, action, fromMirror, []);
          if !c.Reply? { return if c.ComputeFailed? then ComputerFailed else Panicked; }
          state := c.s;
          if !ok { return TransportFailed; }
        case NextStep(action, parameters) =>
          assert rest[1..] == script[wire.at..];
          lastAction := action;
          PushReply(sent, world, script[wire.at..], wire.reports, world.compute(wire.reports, action, parameters, state),
                    parameters, action);
          var c, ok := Respond(wire, action, parameters, state);
          if !c.Reply? { return if c.ComputeFailed? then ComputerFailed else Panicked; }
          lastParam := parameters;
          state := c.s;
          if !ok { return TransportFailed; }
        case StepOk =>
          assert rest[1..] == script[wire.at..];
        case AllStepsDone => return Done;
        case StepMismatch(reported) => return Mismatch(if reported.Some? then reported.value else lastAction, lastParam);
        case ProtocolError => return Protocol;
        case RegisterError => return Registration;
        case Unexpected => return UnexpectedMessage;
      }
    }
  }

  lemma {:induction false} NothingSaid()
    ensures Delivered([]) == [] && HeardLines([]) == []
  {
  }

  function Prefixed(sent: seq<State>, r: (seq<State>, Ending)): (seq<State>, Ending) { (sent + r.0, r.1) }

  lemma {:induction false} PrefixedPush(sent: seq<State>, s: State, r: (seq<State>, Ending))
    ensures Prefixed(sent, ([s] + r.0, r.1)) == Prefixed(sent + [s], r)
  {
    assert sent + ([s] + r.0) == (sent + [s]) + r.0;
  }

  // What an answer adds to the states sent.
  lemma {:induction false} PushReply(sent: seq<State>, world: World, script: seq<Incoming>, k: nat, c: Computed, lastParam: State,
                                     lastAction: string)
    ensures c.Reply? ==>
              var rest := Fold(world, script, k + 1, c.s, lastParam, lastAction);
              Prefixed(sent, ([c.s] + rest.0, rest.1)) == Prefixed(sent + [c.s], rest)
  {
    hide Fold;
    if c.Reply? { PrefixedPush(sent, c.s, Fold(world, script, k + 1, c.s, lastParam, lastAction)); }
  }

  // ------------------------------------------------------ what is sent, said without the fold

  predicate Asks(i: Incoming) { i.Line? && (i.m.InitialState? || i.m.NextStep?) }

  predicate Goes(i: Incoming) { i.Line? && (i.m.InitialState? || i.m.NextStep? || i.m.StepOk?) }

  // The requests for a state in front of the first terminal message or transport error.
  function Requests(script: seq<Incoming>): (r: seq<Message>)
    ensures forall j :: 0 <= j < |r| ==> r[j].InitialState? || r[j].NextStep?
  {
    if script == [] || !Goes(script[0]) then []
    else (if Asks(script[0]) then [script[0].m] else []) + Requests(script[1..])
  }

  // The answer to a request, given the state sent last: an initial state starts from nothing.
  function AnswerTo(world: World, k: nat, m: Message, last: State): Computed
    requires m.InitialState? || m.NextStep?
  {
    if m.InitialState? then world.compute(k, m.action, m.state, []) else world.compute(k, m.action, m.parameters, last)
  }

  // Each state sent is the answer to its request, computed from the state sent just before; the
  // run is over when all requests are answered, or a computation or a report fails.
  predicate Answered(world: World, requests: seq<Message>, k: nat, from: State, sent: seq<State>, ending: Ending)
    requires forall j :: 0 <= j < |requests| ==> requests[j].InitialState? || requests[j].NextStep?
    decreases |sent|
  {
    if requests == [] then sent == []
    else if sent == [] then Stuck(world, k, requests[0], from, ending)
    else
      && AnswerTo(world, k, requests[0], from) == Reply(sent[0]) && world.sends(k)
      && Answered(world, requests[1..], k + 1, sent[0], sent[1..], ending)
  }

  // The same at one position: the j-th state is computed from the one before it, or from nothing.
  lemma {:induction false} AnsweredAt(world: World, requests: seq<Message>, k: nat, from: State, sent: seq<State>, ending: Ending,
                                      j: nat)
    requires forall i :: 0 <= i < |requests| ==> requests[i].InitialState? || requests[i].NextStep?
    requires Answered(world, requests, k, from, sent, ending) && j < |sent|
    ensures j < |requests| && world.sends(k + j)
    ensures AnswerTo(world, k + j, requests[j], if j == 0 then from else sent[j - 1]) == Reply(sent[j])
    decreases j
  {
    hide AnswerTo, Stuck;
    if j > 0 { AnsweredAt(world, requests[1..], k + 1, sent[0], sent[1..], ending, j - 1); }
  }

  predicate Stuck(world: World, k: nat, m: Message, last: State, ending: Ending)
    requires m.InitialState? || m.NextStep?
  {
    match AnswerTo(world, k, m, last)
    case ComputeFailed => ending == ComputerFailed
    case ComputePanicked => ending == Panicked
    case Reply(_) => !world.sends(k) && ending == TransportFailed
  }

  lemma {:induction false} SentStates(world: World, script: seq<Incoming>, k: nat, state: State, lastParam: State, lastAction: string)
    ensures var r := Fold(world, script, k, state, lastParam, lastAction);
            Answered(world, Requests(script), k, state, r.0, r.1)
    decreases |script|
  {
    hide Answered, Stuck, AnswerTo;
    var r := Fold(world, script, k, state, lastParam, lastAction);
    if script == [] || !Goes(script[0]) {
      NothingAsked(world, k, state, r.0, r.1);
    } else if script[0].m.StepOk? {
      SentStates(world, script[1..], k, state, lastParam, lastAction);
      assert [] + Requests(script[1..]) == Requests(script[1..]);
      assert r == Fold(world, script[1..], k, state, lastParam, lastAction);
    } else {
      var m := script[0].m;
      var p := if m.NextStep? then m.parameters else lastParam;
      var c := AnswerTo(world, k, m, state);
      FoldAsks(world, script, k, state, lastParam, lastAction);
      if c.Reply? && world.sends(k) {
        SentStates(world, script[1..], k + 1, c.s, p, m.action);
        var tail := Fold(world, script[1..], k + 1, c.s, p, m.action);
        AnsweredCons(world, m, Requests(script[1..]), k, state, c.s, tail.0, tail.1);
      } else {
        FoldStuck(world, script, k, state, lastParam, lastAction);
        AnsweredStuck(world, m, Requests(script[1..]), k, state, r.1);
      }
    }
  }

  // One turn of the fold at a request.
  lemma {:induction false} FoldAsks(world: World, script: seq<Incoming>, k: nat, state: State, lastParam: State, lastAction: string)
    requires script != [] && Asks(script[0])
    ensures var m, c := script[0].m, AnswerTo(world, k, script[0].m, state);
            var p := if m.NextStep? then m.parameters else lastParam;
            Fold(world, script, k, state, lastParam, lastAction) == Answer(world, script, k, c, p, m.action)
  {
  }

  lemma {:induction false} FoldStuck(world: World, script: seq<Incoming>, k: nat, state: State, lastParam: State, lastAction: string)
    requires script != [] && Asks(script[0])
    requires !AnswerTo(world, k, script[0].m, state).Reply? || !world.sends(k)
    ensures var r := Fold(world, script, k, state, lastParam, lastAction);
            r.0 == [] && Stuck(world, k, script[0].m, state, r.1)
  {
  }

  lemma {:induction false} NothingAsked(world: World, k: nat, from: State, sent: seq<State>, ending: Ending)
    requires sent == []
    ensures Answered(world, [], k, from, sent, ending)
  {
  }

  lemma {:induction false} AnsweredStuck(world: World, m: Message, rest: seq<Message>, k: nat, from: State, ending: Ending)
    requires m.InitialState? || m.NextStep?
    requires forall j :: 0 <= j < |rest| ==> rest[j].InitialState? || rest[j].NextStep?
    requires Stuck(world, k, m, from, ending)
    ensures Answered(world, [m] + rest, k, from, [], ending)
  {
    hide AnswerTo, Stuck;
  }

  lemma {:induction false} AnsweredCons(world: World, m: Message, rest: seq<Message>, k: nat, from: State, s: State,
                                        sent: seq<State>, ending: Ending)
    requires m.InitialState? || m.NextStep?
    requires forall j :: 0 <= j < |rest| ==> rest[j].InitialState? || rest[j].NextStep?
    requires Answered(world, rest, k + 1, s, sent, ending)
    requires AnswerTo(world, k, m, from) == Reply(s) && world.sends(k)
    ensures Answered(world, [m] + rest, k, from, [s] + sent, ending)
  {
    hide AnswerTo, Stuck;
    assert ([m] + rest)[1..] == rest && ([s] + sent)[1..] == sent;
  }

  // ------------------------------------------------------ after a terminal message

  predicate Terminal(i: Incoming) { i.Broken? || !Goes(i) }

  // Whatever the mirror says after a terminal message is neither read nor answered.
  lemma {:induction false} NothingAfterTerminal(world: World, front: seq<Incoming>, t: Incoming, a: seq<Incoming>, b: seq<Incoming>,
                                                k: nat, state: State, lastParam: State, lastAction: string)
    requires Terminal(t)
    ensures Fold(world, front + [t] + a, k, state, lastParam, lastAction)
         == Fold(world, front + [t] + b, k, state, lastParam, lastAction)
    decreases |front|
  {
    var x, y := front + [t] + a, front + [t] + b;
    if front == [] {
      assert x[0] == t && y[0] == t;
    } else {
      assert x[0] == front[0] && y[0] == front[0];
      assert x[1..] == front[1..] + [t] + a && y[1..] == front[1..] + [t] + b;
      if Goes(front[0]) {
        var m := front[0].m;
        if m.StepOk? {
          NothingAfterTerminal(world, front[1..], t, a, b, k, state, lastParam, lastAction);
        } else {
          var c := AnswerTo(world, k, m, state);
          if c.Reply? {
            NothingAfterTerminal(world, front[1..], t, a, b, k + 1, c.s, if m.NextStep? then m.parameters else lastParam, m.action);
          }
        }
      }
    }
  }

  // The loop ends well iff every request has been answered and the terminal message says so.
  function Rest(script: seq<Incoming>): seq<Incoming> {
    if script == [] || !Goes(script[0]) then script else Rest(script[1..])
  }

  lemma {:induction false} DoneMeans(world: World, script: seq<Incoming>, k: nat, state: State, lastParam: State, lastAction: string)
    ensures var r := Fold(world, script, k, state, lastParam, lastAction);
            r.1 == Done <==> |r.0| == |Requests(script)| && Rest(script) != [] && Rest(script)[0] == Line(AllStepsDone)
    decreases |script|
  {
    if script != [] && Goes(script[0]) {
      var m := script[0].m;
      if m.StepOk? {
        DoneMeans(world, script[1..], k, state, lastParam, lastAction);
      } else {
        var c := AnswerTo(world, k, m, state);
        if c.Reply? {
          DoneMeans(world, script[1..], k + 1, c.s, if m.NextStep? then m.parameters else lastParam, m.action);
        }
      }
    }
  }

  // ------------------------------------------------------ how the loop ends

  // The action of the last request.
  function LastAction(requests: seq<Message>, before: string): string
    requires forall j :: 0 <= j < |requests| ==> requests[j].InitialState? || requests[j].NextStep?
  {
    if requests == [] then before else requests[|requests| - 1].action
  }

  // The parameters of the last request that has any.
  function LastParameters(requests: seq<Message>, before: State): State {
    if requests == [] then before
    else
      var last := requests[|requests| - 1];
      if last.NextStep? then last.parameters else LastParameters(requests[..|requests| - 1], before)
  }

  // What the mirror's last word makes of a loop that has answered everything.
  predicate LastWord(rest: seq<Incoming>, action: string, parameters: State, ending: Ending) {
    if rest == [] || rest[0].Broken? then ending == TransportFailed
    else match rest[0].m
      case AllStepsDone => ending == Done
      case StepMismatch(None) => ending == Mismatch(action, parameters)
      case StepMismatch(Some(reported)) => ending == Mismatch(reported, parameters)
      case ProtocolError => ending == Protocol
      case RegisterError => ending == Registration
      case Unexpected => ending == UnexpectedMessage
      case _ => false
  }

  // The whole of a loop from the outside: the states sent answer the requests, and when none is left
  // unanswered the ending is what the mirror's last word says.
  predicate LoopEnds(world: World, script: seq<Incoming>, sent: seq<State>, ending: Ending) {
    var requests := Requests(script);
    && Answered(world, requests, 0, [], sent, ending)
    && (|sent| >= |requests| ==> LastWord(Rest(script), LastAction(requests, ""), LastParameters(requests, []), ending))
  }

  lemma {:induction false} LastCons(m: Message, rest: seq<Message>, action: string, parameters: State)
    requires m.InitialState? || m.NextStep?
    requires forall j :: 0 <= j < |rest| ==> rest[j].InitialState? || rest[j].NextStep?
    ensures LastAction([m] + rest, action) == LastAction(rest, m.action)
    ensures LastParameters([m] + rest, parameters) == LastParameters(rest, if m.NextStep? then m.parameters else parameters)
  {
    var all := [m] + rest;
    if rest == [] {
      assert all == [m] && all[..0] == [];
    } else {
      assert all[..|all| - 1] == [m] + rest[..|rest| - 1];
      LastCons(m, rest[..|rest| - 1], action, parameters);
    }
  }

  lemma {:induction false} LastWordFrom(world: World, script: seq<Incoming>, k: nat, state: State, lastParam: State, lastAction: string)
    ensures var r, requests := Fold(world, script, k, state, lastParam, lastAction), Requests(script);
            |r.0| >= |requests| ==>
              LastWord(Rest(script), LastAction(requests, lastAction), LastParameters(requests, lastParam), r.1)
    decreases |script|
  {
    hide LastAction, LastParameters;
    if script == [] || !Goes(script[0]) {
      LastOfNone(lastAction, lastParam);
    } else if script[0].m.StepOk? {
      LastWordFrom(world, script[1..], k, state, lastParam, lastAction);
      assert [] + Requests(script[1..]) == Requests(script[1..]);
    } else {
      hide AnswerTo, LastWord;
      var m := script[0].m;
      var p := if m.NextStep? then m.parameters else lastParam;
      var c := AnswerTo(world, k, m, state);
      FoldAsks(world, script, k, state, lastParam, lastAction);
      if c.Reply? { LastWordFrom(world, script[1..], k + 1, c.s, p, m.action); }
      LastCons(m, Requests(script[1..]), lastAction, lastParam);
    }
  }

  lemma {:induction false} LastOfNone(action: string, parameters: State)
    ensures LastAction([], action) == action && LastParameters([], parameters) == parameters
  {
  }

  // Answers are determined, and so is the ending of a loop that leaves a request unanswered.
  lemma {:induction false} AnsweredOnce(world: World, requests: seq<Message>, k: nat, from: State, a: seq<State>, x: Ending,
                                        b: seq<State>, y: Ending)
    requires forall j :: 0 <= j < |requests| ==> requests[j].InitialState? || requests[j].NextStep?
    requires Answered(world, requests, k, from, a, x) && Answered(world, requests, k, from, b, y)
    ensures a == b && (|a| < |requests| ==> x == y)
    decreases |requests|
  {
    hide AnswerTo;
    if requests != [] && a != [] && b != [] {
      AnsweredOnce(world, requests[1..], k + 1, a[0], a[1..], x, b[1..], y);
      assert a == [a[0]] + a[1..] && b == [b[0]] + b[1..];
    }
  }

  // States sent and ending of the loop are exactly these.
  lemma {:induction false} LoopEndsIff(world: World, script: seq<Incoming>, sent: seq<State>, ending: Ending)
    ensures Fold(world, script, 0, [], [], "") == (sent, ending) <==> LoopEnds(world, script, sent, ending)
  {
    hide Fold, Answered, LastWord, LastAction, LastParameters, Requests, Rest;
    var r := Fold(world, script, 0, [], [], "");
    SentStates(world, script, 0, [], [], "");
    LastWordFrom(world, script, 0, [], [], "");
    if LoopEnds(world, script, sent, ending) {
      AnsweredOnce(world, Requests(script), 0, [], sent, ending, r.0, r.1);
      if |sent| >= |Requests(script)| {
        OneLastWord(Rest(script), LastAction(Requests(script), ""), LastParameters(Requests(script), []), ending, r.1);
      }
    }
  }

  lemma {:induction false} OneLastWord(rest: seq<Incoming>, action: string, parameters: State, x: Ending, y: Ending)
    requires LastWord(rest, action, parameters, x) && LastWord(rest, action, parameters, y)
    ensures x == y
  {
  }
}
