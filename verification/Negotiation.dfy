// A negotiated run (src/model_interface.rs:214-271, 1290-1497 and 1499-1578): registration, the
// mirror's authorization, one adapter binding, the stepping loop, and disposal.
module Negotiation {
  import opened Wrappers
  import opened Stepping

  datatype Code =
    | RequestInvalid | ContractMismatch | AdapterAmbiguous | ProfileMismatch | NotRegistered | EncodingFailed | SendFailed | Closed
    | Unauthorized(refusal: Refusal) | FactoryFailed | BindingDigestMismatch | BindingConfigMismatch | DisposeFailed
    | Loop(ending: Ending)

  datatype Result = Succeeded | Failed(code: Code)

  // Why a reply to the registration is refused; `Said` stands for what other replies than
  // spec_validated say, and for malformed ones.
  datatype Refusal = NegotiationMissing | FallbackUnavailable | StatusUnexpected | DigestMismatch | Said(reply: string)

  // ------------------------------------------------------ the registry

  datatype Key = Key(digest: string, adapter: string, profile: string, contract: string)

  function Matching(registered: seq<Key>, key: Key): (r: seq<nat>)
    ensures forall i :: 0 <= i < |r| ==> r[i] < |registered| && registered[r[i]] == key
  {
    if registered == [] then []
    else
      var front := Matching(registered[..|registered| - 1], key);
      if registered[|registered| - 1] == key then front + [|registered| - 1] else front
  }

  datatype Resolution = Found(index: nat) | Unresolved(code: Code)

  // CompiledAdapterRegistry::resolve_index
  function ResolveIndex(registered: seq<Key>, key: Key): Resolution {
    var matches := Matching(registered, key);
    if |matches| > 1 then Unresolved(AdapterAmbiguous)
    else if |matches| == 1 then Found(matches[0])
    else if (exists i :: 0 <= i < |registered| && SameAdapter(registered[i], key))
         && (forall i :: 0 <= i < |registered| && SameAdapter(registered[i], key) ==> registered[i].profile != key.profile)
    then Unresolved(ProfileMismatch)
    else if exists i :: 0 <= i < |registered| && SameAdapter(registered[i], key) && registered[i].profile == key.profile
    then Unresolved(ContractMismatch)
    else Unresolved(NotRegistered)
  }

  predicate SameAdapter(a: Key, b: Key) { a.digest == b.digest && a.adapter == b.adapter }

  lemma {:induction false} MatchingAll(registered: seq<Key>, key: Key, i: nat)
    requires i < |registered|
    ensures registered[i] == key <==> i in Matching(registered, key)
    decreases |registered|
  {
    if i < |registered| - 1 {
      MatchingAll(registered[..|registered| - 1], key, i);
      assert registered[..|registered| - 1][i] == registered[i];
    }
    var front := registered[..|registered| - 1];
    assert i == |registered| - 1 ==> i !in Matching(front, key);
  }

  lemma {:induction false} MatchingOnce(registered: seq<Key>, key: Key)
    ensures forall i, j :: 0 <= i < j < |Matching(registered, key)| ==> Matching(registered, key)[i] < Matching(registered, key)[j]
  {
    if registered != [] { MatchingOnce(registered[..|registered| - 1], key); }
  }

  // What is registered: the exact key, at one place or more, and the adapter under other profiles or contracts.
  predicate ExactAt(registered: seq<Key>, key: Key, i: nat) { i < |registered| && registered[i] == key }

  ghost predicate Exact(registered: seq<Key>, key: Key) { exists i: nat :: ExactAt(registered, key, i) }

  ghost predicate Twice(registered: seq<Key>, key: Key) {
    exists i: nat, j: nat :: i < j && ExactAt(registered, key, i) && ExactAt(registered, key, j)
  }

  predicate Known(registered: seq<Key>, key: Key) { exists i :: 0 <= i < |registered| && SameAdapter(registered[i], key) }

  predicate KnownProfile(registered: seq<Key>, key: Key) {
    exists i :: 0 <= i < |registered| && SameAdapter(registered[i], key) && registered[i].profile == key.profile
  }

  lemma {:induction false} MatchingCounts(registered: seq<Key>, key: Key)
    ensures |Matching(registered, key)| > 0 <==> Exact(registered, key)
    ensures |Matching(registered, key)| > 1 <==> Twice(registered, key)
  {
    var matches := Matching(registered, key);
    MatchingOnce(registered, key);
    forall i | 0 <= i < |registered| ensures registered[i] == key <==> i in matches { MatchingAll(registered, key, i); }
    if |matches| > 0 { assert ExactAt(registered, key, matches[0]); }
    if |matches| > 1 { assert ExactAt(registered, key, matches[1]); }
    if Exact(registered, key) {
      var i: nat :| ExactAt(registered, key, i);
      assert i in matches;
    }
    if Twice(registered, key) {
      var i: nat, j: nat :| i < j && ExactAt(registered, key, i) && ExactAt(registered, key, j);
      assert i in matches && j in matches;
    }
  }

  // Each verdict of the registry, by what is registered.
  lemma {:induction false} ResolutionMeans(registered: seq<Key>, key: Key)
    ensures var r := ResolveIndex(registered, key);
      && (r.Found? <==> Exact(registered, key) && !Twice(registered, key))
      && (r == Unresolved(AdapterAmbiguous) <==> Twice(registered, key))
      && (r == Unresolved(ProfileMismatch) <==> Known(registered, key) && !KnownProfile(registered, key))
      && (r == Unresolved(ContractMismatch) <==> KnownProfile(registered, key) && !Exact(registered, key))
      && (r == Unresolved(NotRegistered) <==> !Known(registered, key))
      && (r.Found? || r.code in {AdapterAmbiguous, ProfileMismatch, ContractMismatch, NotRegistered})
  {
    hide Matching;
    MatchingCounts(registered, key);
    if Exact(registered, key) {
      var i: nat :| ExactAt(registered, key, i);
      assert SameAdapter(registered[i], key) && registered[i].profile == key.profile;
    }
  }

  // An adapter is found iff it is the only one registered under the exact key.
  lemma {:induction false} FoundIsUnique(registered: seq<Key>, key: Key, i: nat)
    ensures ResolveIndex(registered, key) == Found(i) <==>
            i < |registered| && registered[i] == key && forall j :: 0 <= j < |registered| && j != i ==> registered[j] != key
  {
    var matches := Matching(registered, key);
    MatchingOnce(registered, key);
    forall j | 0 <= j < |registered| ensures registered[j] == key <==> j in matches { MatchingAll(registered, key, j); }
    assert |matches| > 1 ==> matches[0] < matches[1];
    if i < |registered| && registered[i] == key && forall j :: 0 <= j < |registered| && j != i ==> registered[j] != key {
      assert forall k :: 0 <= k < |matches| ==> matches[k] in matches && matches[k] == i;
      assert |matches| > 0;
    }
    if |matches| == 1 { assert forall j :: j in matches ==> j == matches[0]; }
  }

  // ------------------------------------------------------ authorization

  datatype Policy = Require | Prefer

  datatype Status = Match | Resolved | NotModified | Differs | Unsupported | Unavailable | TooLarge

  // The model-interface part of a reply to the registration; `wellFormed` is the verdict of the
  // field-by-field checks.
  datatype Extension = Extension(wellFormed: bool, status: Status, descriptorSchema: Option<bool>, digest: Option<string>,
                                 provenance: bool, descriptor: bool, descriptorBytes: bool)

  // The mirror's first message; `descriptorSchema` above says whether a schema given is the expected one.
  datatype FirstReply = SpecValid(extension: Option<Extension>) | OtherReply(said: string)

  datatype Authorization = Matched(digest: string) | Fallback

  datatype Authority = Granted(authorization: Authorization) | Refused(refusal: Refusal)

  // decode_authorization
  function Authorize(reply: FirstReply, expected: string, policy: Policy, fallback: bool): Authority {
    match reply
    case OtherReply(said) => Refused(Said(said))
    case SpecValid(None) =>
      if policy == Prefer && fallback then Granted(Fallback)
      else Refused(if policy == Prefer then FallbackUnavailable else NegotiationMissing)
    case SpecValid(Some(e)) =>
      if !e.wellFormed then Refused(StatusUnexpected)
      else match e.status
        case Match =>
          if e.descriptorSchema.None? || e.digest.None? then Refused(StatusUnexpected)
          else if !e.descriptorSchema.value || e.digest.value != expected || e.descriptor || e.descriptorBytes
          then Refused(DigestMismatch)
          else Granted(Matched(e.digest.value))
        case Unsupported => Unresolvable(e, policy, fallback)
        case Unavailable => Unresolvable(e, policy, fallback)
        case Differs => Refused(if e.descriptor || e.descriptorBytes then StatusUnexpected else DigestMismatch)
        case _ => Refused(StatusUnexpected)
  }

  function Unresolvable(e: Extension, policy: Policy, fallback: bool): Authority {
    if e.descriptorSchema.Some? || e.digest.Some? || e.provenance || e.descriptorBytes || e.descriptor
    then Refused(StatusUnexpected)
    else if policy == Prefer && fallback then Granted(Fallback)
    else Refused(StatusUnexpected)
  }

  // The mirror has nothing to say about interfaces, and says nothing else.
  predicate Declines(reply: FirstReply) {
    && reply.SpecValid?
    && (reply.extension.Some? ==>
          var e := reply.extension.value;
          && e.wellFormed && (e.status == Unsupported || e.status == Unavailable)
          && e.descriptorSchema.None? && e.digest.None? && !e.provenance && !e.descriptor && !e.descriptorBytes)
  }

  // The mirror works on some other interface, or claims this one with something that is not asked for.
  predicate Contradicts(reply: FirstReply, expected: string) {
    && reply.SpecValid? && reply.extension.Some?
    && var e := reply.extension.value;
    && e.wellFormed
    && ((e.status == Match && e.descriptorSchema.Some? && e.digest.Some? && !Confirms(reply, expected))
        || (e.status == Differs && !e.descriptor && !e.descriptorBytes))
  }

  // A match is granted for the exact digest requested and nothing else; a fallback has to be
  // preferred and available, with a mirror that declines; and each refusal has its own reason.
  lemma {:induction false} AuthorizationIsExact(reply: FirstReply, expected: string, policy: Policy, fallback: bool)
    ensures var a := Authorize(reply, expected, policy, fallback);
      && (forall digest :: a == Granted(Matched(digest)) <==> digest == expected && Confirms(reply, expected))
      && (a == Granted(Fallback) <==> policy == Prefer && fallback && Declines(reply))
      && (a == Refused(NegotiationMissing) <==> reply == SpecValid(None) && policy == Require)
      && (a == Refused(FallbackUnavailable) <==> reply == SpecValid(None) && policy == Prefer && !fallback)
      && (a == Refused(DigestMismatch) <==> Contradicts(reply, expected))
      && (forall said :: a == Refused(Said(said)) <==> reply == OtherReply(said))
  {
  }

  // The reply says that the mirror works on exactly this interface.
  predicate Confirms(reply: FirstReply, expected: string) {
    && reply.SpecValid? && reply.extension.Some?
    && var e := reply.extension.value;
    && e.wellFormed && e.status == Match && e.descriptorSchema == Some(true) && e.digest == Some(expected)
    && !e.descriptor && !e.descriptorBytes
  }

  // ------------------------------------------------------ the run

  datatype Compatibility = Compatible | Incompatible | CheckPanicked

  // What the callbacks do: the factory's binding, its check, the states it computes, its disposal.
  datatype Callbacks = Callbacks(created: bool, bindingDigest: string, compatibility: Compatibility, world: World, disposed: bool)

  // What is selected; `requestOk` says whether the metadata makes a verification request.
  datatype Selection = Selection(requestOk: bool, key: Key, contractOk: bool, registered: seq<Key>, policy: Policy, fallback: bool)

  datatype Factory = Registered(index: nat) | Legacy

  // The peer: whether the registration can be sent, its first reply if any, and the script after it.
  datatype Peer = Peer(encodes: bool, sends: bool, first: Option<FirstReply>, script: seq<Incoming>)

  // What the run does to the outside.
  datatype Event =
    | Request(sent: bool)
    | Answer(first: Option<FirstReply>)
    | Creation(factory: Factory, created: bool)
    | Check(compatibility: Compatibility)
    | Steps(talk: seq<Exchange>)
    | Disposal(disposed: bool)

  // One run's connection, registries and binding, with the log of what has been done to them.
  class Journal {
    const peer: Peer
    const callbacks: Callbacks
    var log: seq<Event>

    constructor (peer: Peer, callbacks: Callbacks)
      ensures this.peer == peer && this.callbacks == callbacks && log == []
    {
      this.peer, this.callbacks, log := peer, callbacks, [];
    }

    method Register() returns (sent: bool)
      modifies this`log
      ensures sent == peer.sends && log == old(log) + [Request(sent)]
    {
      sent := peer.sends;
      log := log + [Request(sent)];
    }

    method Listen() returns (first: Option<FirstReply>)
      modifies this`log
      ensures first == peer.first && log == old(log) + [Answer(first)]
    {
      first := peer.first;
      log := log + [Answer(first)];
    }

    method Create(factory: Factory) returns (created: bool)
      modifies this`log
      ensures created == callbacks.created && log == old(log) + [Creation(factory, created)]
    {
      created := callbacks.created;
      log := log + [Creation(factory, created)];
    }

    method CheckConfig() returns (c: Compatibility)
      modifies this`log
      ensures c == callbacks.compatibility && log == old(log) + [Check(c)]
    {
      c := callbacks.compatibility;
      log := log + [Check(c)];
    }

    method Step() returns (ending: Ending)
      modifies this`log
      ensures |log| == |old(log)| + 1 && log == old(log) + [log[|old(log)|]] && log[|old(log)|].Steps?
      ensures Spoken(callbacks.world, peer.script, log[|old(log)|].talk, ending)
    {
      hide Orderly, Delivered, HeardLines;
      var wire := new Wire(callbacks.world, peer.script);
      ending := RunSteppingLoop(wire);
      log := log + [Steps(wire.talk)];
    }

    method Dispose() returns (disposed: bool)
      modifies this`log
      ensures disposed == callbacks.disposed && log == old(log) + [Disposal(disposed)]
    {
      disposed := callbacks.disposed;
      log := log + [Disposal(disposed)];
    }
  }

  // What the stepping loop says to this peer and how it ends.
  predicate Spoken(world: World, script: seq<Incoming>, talk: seq<Exchange>, ending: Ending) {
    && (Delivered(talk), ending) == Fold(world, script, 0, [], [], "")
    && Orderly(talk) && talk != [] && Ends(talk[|talk| - 1])
  }

  // ------------------------------------------------------ what a log has to look like

  predicate Earlier(log: seq<Event>, k: nat, e: Event)
    requires k <= |log|
  {
    exists j :: 0 <= j < k && log[j] == e
  }

  // The reply permits this factory: the registered one for the exact digest, the other as fallback.
  predicate Permits(s: Selection, reply: FirstReply, f: Factory) {
    match f
    case Registered(index) => Confirms(reply, s.key.digest) && ResolveIndex(s.registered, s.key) == Found(index)
    case Legacy => s.policy == Prefer && s.fallback && Declines(reply) && ResolveIndex(s.registered, s.key).Found?
  }

  // Nothing happens twice.
  predicate AtMostOnce(log: seq<Event>) {
    forall i, j :: 0 <= i < j < |log| ==> !SameKind(log[i], log[j])
  }

  predicate SameKind(a: Event, b: Event) {
    || (a.Request? && b.Request?) || (a.Answer? && b.Answer?) || (a.Creation? && b.Creation?)
    || (a.Check? && b.Check?) || (a.Steps? && b.Steps?) || (a.Disposal? && b.Disposal?)
  }

  // A binding is created only after a reply to the registration that permits its factory.
  predicate Permitted(s: Selection, peer: Peer, log: seq<Event>) {
    forall k :: 0 <= k < |log| && log[k].Creation? ==>
      && Earlier(log, k, Request(true)) && Earlier(log, k, Answer(peer.first))
      && peer.first.Some? && Permits(s, peer.first.value, log[k].factory)
      && s.contractOk && s.requestOk
  }

  predicate Creates(e: Event) { e.Creation? && e.created }

  predicate HasBinding(log: seq<Event>) { exists k :: 0 <= k < |log| && Creates(log[k]) }

  // The binding is used only once it exists and has passed its checks, and the peer is spoken to in order.
  predicate Used(s: Selection, c: Callbacks, log: seq<Event>) {
    && (forall k :: 0 <= k < |log| && (log[k].Check? || log[k].Steps? || log[k].Disposal?) ==> HasBinding(log[..k]))
    && (forall k :: 0 <= k < |log| && log[k].Check? ==> c.bindingDigest == s.key.digest)
    && (forall k :: 0 <= k < |log| && log[k].Steps? ==> Earlier(log, k, Check(Compatible)) && Orderly(log[k].talk))
  }

  // Disposal is the last thing to happen, and happens exactly when there is a binding.
  predicate DisposedLast(log: seq<Event>) {
    && (forall k :: 0 <= k < |log| && log[k].Disposal? ==> k == |log| - 1)
    && (HasBinding(log) <==> log != [] && log[|log| - 1].Disposal?)
  }

  // ------------------------------------------------------ the run

  // What the binding makes of the run: its own checks, then the stepping loop.
  function Primary(s: Selection, c: Callbacks, script: seq<Incoming>): (seq<State>, Result) {
    if c.bindingDigest != s.key.digest then ([], Failed(BindingDigestMismatch))
    else match c.compatibility
      case CheckPanicked => ([], Failed(Loop(Panicked)))
      case Incompatible => ([], Failed(BindingConfigMismatch))
      case Compatible =>
        var r := Fold(c.world, script, 0, [], [], "");
        (r.0, if r.1 == Done then Succeeded else Failed(Loop(r.1)))
  }

  // The states that have reached the mirror.
  function SentIn(log: seq<Event>): seq<State> {
    if log == [] then []
    else SentIn(log[..|log| - 1]) + (if log[|log| - 1].Steps? then Delivered(log[|log| - 1].talk) else [])
  }

  predicate Lifecycle(s: Selection, peer: Peer, c: Callbacks, log: seq<Event>, result: Result) {
    && AtMostOnce(log) && Permitted(s, peer, log) && Used(s, c, log) && DisposedLast(log)
    // the first failure is the one reported
    && (if HasBinding(log) then
          && SentIn(log) == Primary(s, c, peer.script).0
          && result == (if Primary(s, c, peer.script).1.Failed? then Primary(s, c, peer.script).1
                        else if !c.disposed then Failed(DisposeFailed) else Succeeded)
        else result.Failed? && result.code != DisposeFailed && SentIn(log) == [])
  }

  // ------------------------------------------------------ how far a run gets, and how it ends

  // There is something to ask the mirror for: the adapter is the only one registered.
  ghost predicate Selectable(s: Selection) {
    s.requestOk && s.contractOk && Exact(s.registered, s.key) && !Twice(s.registered, s.key)
  }

  // The registration has been sent, and answered.
  ghost predicate Heard(s: Selection, peer: Peer) { Selectable(s) && peer.encodes && peer.sends && peer.first.Some? }

  // The answer permits a factory.
  ghost predicate Allowed(s: Selection, peer: Peer) {
    Heard(s, peer) && (Confirms(peer.first.value, s.key.digest) || (Declines(peer.first.value) && s.policy == Prefer && s.fallback))
  }

  // The factory has made a binding.
  ghost predicate Bound(s: Selection, peer: Peer, c: Callbacks) { Allowed(s, peer) && c.created }

  // The binding may answer the mirror.
  ghost predicate Fitting(s: Selection, peer: Peer, c: Callbacks) {
    Bound(s, peer, c) && c.bindingDigest == s.key.digest && c.compatibility == Compatible
  }

  ghost predicate LoopEndsAs(c: Callbacks, script: seq<Incoming>, ending: Ending) {
    exists sent :: LoopEnds(c.world, script, sent, ending)
  }

  // The one result of a run, by the first obstacle it meets.
  ghost predicate Explains(s: Selection, peer: Peer, c: Callbacks, result: Result) {
    match result
    case Succeeded => Fitting(s, peer, c) && LoopEndsAs(c, peer.script, Done) && c.disposed
    case Failed(RequestInvalid) => !s.requestOk
    case Failed(ContractMismatch) =>
      s.requestOk && (!s.contractOk || (KnownProfile(s.registered, s.key) && !Exact(s.registered, s.key)))
    case Failed(AdapterAmbiguous) => s.requestOk && s.contractOk && Twice(s.registered, s.key)
    case Failed(ProfileMismatch) =>
      s.requestOk && s.contractOk && Known(s.registered, s.key) && !KnownProfile(s.registered, s.key)
    case Failed(NotRegistered) => s.requestOk && s.contractOk && !Known(s.registered, s.key)
    case Failed(EncodingFailed) => Selectable(s) && !peer.encodes
    case Failed(SendFailed) => Selectable(s) && peer.encodes && !peer.sends
    case Failed(Closed) => Selectable(s) && peer.encodes && peer.sends && peer.first.None?
    case Failed(Unauthorized(refusal)) => Heard(s, peer) && !Allowed(s, peer) && Refuses(s, peer.first.value, refusal)
    case Failed(FactoryFailed) => Allowed(s, peer) && !c.created
    case Failed(BindingDigestMismatch) => Bound(s, peer, c) && c.bindingDigest != s.key.digest
    case Failed(BindingConfigMismatch) =>
      Bound(s, peer, c) && c.bindingDigest == s.key.digest && c.compatibility == Incompatible
    case Failed(Loop(ending)) =>
      || (Bound(s, peer, c) && c.bindingDigest == s.key.digest && c.compatibility == CheckPanicked && ending == Panicked)
      || (Fitting(s, peer, c) && ending != Done && LoopEndsAs(c, peer.script, ending))
    case Failed(DisposeFailed) => Fitting(s, peer, c) && LoopEndsAs(c, peer.script, Done) && !c.disposed
  }

  // Why a reply that permits nothing is refused.
  predicate Refuses(s: Selection, reply: FirstReply, refusal: Refusal) {
    match refusal
    case NegotiationMissing => reply == SpecValid(None) && s.policy == Require
    case FallbackUnavailable => reply == SpecValid(None) && s.policy == Prefer
    case DigestMismatch => Contradicts(reply, s.key.digest)
    case Said(said) => reply == OtherReply(said)
    case StatusUnexpected => reply.SpecValid? && reply.extension.Some? && !Contradicts(reply, s.key.digest)
  }

  predicate Has(log: seq<Event>, e: Event) { exists k :: 0 <= k < |log| && log[k] == e }

  // Whether an event is part of the run; of the stepping loop only that there is one.
  ghost predicate Expected(s: Selection, peer: Peer, c: Callbacks, e: Event) {
    match e
    case Request(sent) => Selectable(s) && peer.encodes && sent == peer.sends
    case Answer(first) => Selectable(s) && peer.encodes && peer.sends && first == peer.first
    case Creation(f, created) => Allowed(s, peer) && created == c.created && Chosen(s, peer, f)
    case Check(x) => Bound(s, peer, c) && c.bindingDigest == s.key.digest && x == c.compatibility
    case Steps(_) => Fitting(s, peer, c)
    case Disposal(disposed) => Bound(s, peer, c) && disposed == c.disposed
  }

  // The log holds exactly the events expected.
  ghost predicate Course(s: Selection, peer: Peer, c: Callbacks, log: seq<Event>) {
    && (forall e: Event :: !e.Steps? ==> (Has(log, e) <==> Expected(s, peer, c, e)))
    && ((exists talk :: Has(log, Steps(talk))) <==> Fitting(s, peer, c))
  }

  // The registered factory on a match, the other one as fallback.
  predicate Chosen(s: Selection, peer: Peer, f: Factory)
    requires peer.first.Some?
  {
    match f
    case Registered(index) => Confirms(peer.first.value, s.key.digest) && ExactAt(s.registered, s.key, index)
    case Legacy => !Confirms(peer.first.value, s.key.digest)
  }

  // ------------------------------------------------------ the run

  // run_negotiated_open
  method RunNegotiated(s: Selection, j: Journal) returns (result: Result)
    requires j.log == []
    modifies j
    ensures Lifecycle(s, j.peer, j.callbacks, j.log, result)
    ensures Explains(s, j.peer, j.callbacks, result) && Course(s, j.peer, j.callbacks, j.log)
  {
    hide Lifecycle, Explains, Course, ResolveIndex, Authorize, Fold, Orderly, Delivered;
    var peer, c := j.peer, j.callbacks;
    if !s.requestOk {
      Unsent(s, peer, c, Failed(RequestInvalid));
      return Failed(RequestInvalid);
    }
    if !s.contractOk {
      Unsent(s, peer, c, Failed(ContractMismatch));
      return Failed(ContractMismatch);
    }
    var found := ResolveIndex(s.registered, s.key);
    if found.Unresolved? {
      Unsent(s, peer, c, Failed(found.code));
      return Failed(found.code);
    }
    if !peer.encodes {
      Unsent(s, peer, c, Failed(EncodingFailed));
      return Failed(EncodingFailed);
    }
    FoundIsSelectable(s);
    var sent := j.Register();
    if !sent {
      Unanswered(s, peer, c, j.log, Failed(SendFailed));
      return Failed(SendFailed);
    }
    var first := j.Listen();
    if first.None? {
      Unanswered(s, peer, c, j.log, Failed(Closed));
      return Failed(Closed);
    }
    var authority := Authorize(first.value, s.key.digest, s.policy, s.fallback);
    if authority.Refused? {
      Unpermitted(s, peer, c, authority.refusal);
      assert j.log == [Request(true), Answer(peer.first)];
      return Failed(Unauthorized(authority.refusal));
    }
    var factory := if authority.authorization.Matched? then Registered(found.index) else Legacy;
    AuthorizedPermits(s, peer, factory);
    var created := j.Create(factory);
    if !created {
      Uncreated(s, peer, c, factory);
      assert j.log == [Request(true), Answer(peer.first), Creation(factory, false)];
      return Failed(FactoryFailed);
    }
    result := UseAndDispose(s, j, factory);
  }

  // The run from the moment it has a binding.
  method UseAndDispose(s: Selection, j: Journal, ghost factory: Factory) returns (result: Result)
    requires s.contractOk && s.requestOk && j.peer.first.Some? && Permits(s, j.peer.first.value, factory)
    requires Bound(s, j.peer, j.callbacks) && Chosen(s, j.peer, factory)
    requires j.log == [Request(true), Answer(j.peer.first), Creation(factory, true)]
    modifies j
    ensures Lifecycle(s, j.peer, j.callbacks, j.log, result)
    ensures Explains(s, j.peer, j.callbacks, result) && Course(s, j.peer, j.callbacks, j.log)
  {
    hide Lifecycle, Explains, Course, Permits, UsedAs, Bound, Chosen;
    ghost var before := j.log;
    var primary := UseBinding(s, j);
    ghost var events := j.log[|before|..];
    PrefixSplit(before, j.log);
    var disposed := j.Dispose();
    result := if primary.Failed? then primary else if !disposed then Failed(DisposeFailed) else Succeeded;
    BoundLog(s, j.peer, j.callbacks, factory, events, primary, j.log, result);
    BoundResult(s, j.peer, j.callbacks, events, primary, result);
    BoundCourse(s, j.peer, j.callbacks, factory, events, primary, j.log);
  }

  lemma {:induction false} PrefixSplit(front: seq<Event>, log: seq<Event>)
    requires front <= log
    ensures log == front + log[|front|..]
  {
  }

  // The protected part: the binding's own checks, then the stepping loop.
  method UseBinding(s: Selection, j: Journal) returns (primary: Result)
    modifies j`log
    ensures old(j.log) <= j.log && UsedAs(s, j.callbacks, j.peer.script, j.log[|old(j.log)|..], primary)
  {
    hide Fold, Orderly, Delivered;
    if j.callbacks.bindingDigest != s.key.digest { return Failed(BindingDigestMismatch); }
    var compatibility := j.CheckConfig();
    match compatibility
    case CheckPanicked => return Failed(Loop(Panicked));
    case Incompatible => return Failed(BindingConfigMismatch);
    case Compatible =>
      var ending := j.Step();
      ghost var events := j.log[|old(j.log)|..];
      assert events == [Check(Compatible), j.log[|old(j.log)| + 1]];
      assert Spoken(j.callbacks.world, j.peer.script, events[1].talk, ending);
      return if ending == Done then Succeeded else Failed(Loop(ending));
  }

  // The events of a binding's use, and what comes of it.
  ghost predicate UsedAs(s: Selection, c: Callbacks, script: seq<Incoming>, events: seq<Event>, primary: Result) {
    if c.bindingDigest != s.key.digest then events == [] && primary == Failed(BindingDigestMismatch)
    else if c.compatibility == CheckPanicked then events == [Check(CheckPanicked)] && primary == Failed(Loop(Panicked))
    else if c.compatibility == Incompatible then events == [Check(Incompatible)] && primary == Failed(BindingConfigMismatch)
    else
      && |events| == 2 && events[0] == Check(Compatible) && events[1].Steps?
      && exists ending :: Spoken(c.world, script, events[1].talk, ending)
           && primary == if ending == Done then Succeeded else Failed(Loop(ending))
  }

  // ------------------------------------------------------ the logs, from short to long

  lemma {:induction false} EmptyLog(s: Selection, peer: Peer, c: Callbacks, result: Result)
    requires result.Failed? && result.code != DisposeFailed
    ensures Lifecycle(s, peer, c, [], result)
  {
  }

  lemma {:induction false} RegisteredLog(s: Selection, peer: Peer, c: Callbacks, log: seq<Event>, result: Result)
    requires result.Failed? && result.code != DisposeFailed
    requires log == [Request(false)] || log == [Request(true), Answer(peer.first)]
    ensures Lifecycle(s, peer, c, log, result)
  {
    NothingSent(log);
  }

  lemma {:induction false} NothingSent(log: seq<Event>)
    requires forall k :: 0 <= k < |log| ==> !log[k].Steps?
    ensures SentIn(log) == []
  {
    if log != [] { NothingSent(log[..|log| - 1]); }
  }

  lemma {:induction false} SentPush(log: seq<Event>, e: Event)
    ensures SentIn(log + [e]) == SentIn(log) + (if e.Steps? then Delivered(e.talk) else [])
  {
    assert (log + [e])[..|log|] == log;
  }

  // A factory that is authorized is permitted, and the one to choose.
  lemma {:induction false} AuthorizedPermits(s: Selection, peer: Peer, f: Factory)
    requires Heard(s, peer) && ResolveIndex(s.registered, s.key).Found?
    requires var a := Authorize(peer.first.value, s.key.digest, s.policy, s.fallback);
             a.Granted? && f == if a.authorization.Matched? then Registered(ResolveIndex(s.registered, s.key).index) else Legacy
    ensures Permits(s, peer.first.value, f) && Allowed(s, peer) && Chosen(s, peer, f)
  {
    hide ResolveIndex, Authorize, Exact, Twice;
    var reply := peer.first.value;
    var a := Authorize(reply, s.key.digest, s.policy, s.fallback);
    AuthorizationIsExact(reply, s.key.digest, s.policy, s.fallback);
    if a.authorization.Matched? {
      assert a == Granted(Matched(a.authorization.digest));
      FoundIsUnique(s.registered, s.key, f.index);
    }
  }

  lemma {:induction false} FoundIsSelectable(s: Selection)
    requires s.requestOk && s.contractOk
    ensures ResolveIndex(s.registered, s.key).Found? <==> Selectable(s)
  {
    ResolutionMeans(s.registered, s.key);
  }

  lemma {:induction false} CreatedLog(s: Selection, peer: Peer, c: Callbacks, f: Factory, result: Result)
    requires result.Failed? && result.code != DisposeFailed && s.contractOk && s.requestOk
    requires peer.first.Some? && Permits(s, peer.first.value, f)
    ensures Lifecycle(s, peer, c, [Request(true), Answer(peer.first), Creation(f, false)], result)
  {
    hide Permits;
    var log := [Request(true), Answer(peer.first), Creation(f, false)];
    NothingSent(log);
    assert Earlier(log, 2, Request(true)) && Earlier(log, 2, Answer(peer.first)) by {
      assert log[0] == Request(true) && log[1] == Answer(peer.first);
    }
  }

  // The log of a run that has got a binding.
  lemma {:induction false} BoundLog(s: Selection, peer: Peer, c: Callbacks, f: Factory, events: seq<Event>, primary: Result,
                                    log: seq<Event>, result: Result)
    requires s.contractOk && s.requestOk && peer.first.Some? && Permits(s, peer.first.value, f)
    requires UsedAs(s, c, peer.script, events, primary)
    requires log == [Request(true), Answer(peer.first), Creation(f, true)] + events + [Disposal(c.disposed)]
    requires result == if primary.Failed? then primary else if !c.disposed then Failed(DisposeFailed) else Succeeded
    ensures Lifecycle(s, peer, c, log, result)
  {
    hide Permits, Fold, Orderly, Delivered, Primary, SentIn, Confirms, ResolveIndex;
    assert log[0] == Request(true) && log[1] == Answer(peer.first) && log[2] == Creation(f, true);
    assert Earlier(log, 2, Request(true)) && Earlier(log, 2, Answer(peer.first));
    forall k | 2 < k <= |log| ensures HasBinding(log[..k]) { assert Creates(log[..k][2]); }
    assert log[..|log|] == log;
    UsedSends(s, c, peer.script, events, primary, log);
    if |events| > 0 { assert log[3] == events[0]; }
    if |events| > 1 {
      assert log[4] == events[1];
      assert Earlier(log, 4, Check(Compatible));
    }
  }

  lemma {:induction false} UsedSends(s: Selection, c: Callbacks, script: seq<Incoming>, events: seq<Event>, primary: Result,
                                     log: seq<Event>)
    requires UsedAs(s, c, script, events, primary) && |log| == |events| + 4
    requires log[3..|log| - 1] == events && forall k :: 0 <= k < 3 ==> !log[k].Steps?
    requires !log[|log| - 1].Steps?
    ensures SentIn(log) == Primary(s, c, script).0 && primary == Primary(s, c, script).1
  {
    hide Fold, Orderly, Delivered;
    if |events| < 2 {
      forall k | 0 <= k < |log| ensures !log[k].Steps? {
        if 3 <= k < |log| - 1 { assert log[k] == events[k - 3]; }
      }
      NothingSent(log);
    } else {
      assert log[4] == events[1] && log[3] == events[0];
      NothingSent(log[..4]);
      SentPush(log[..4], log[4]);
      assert log[..4] + [log[4]] == log[..5] && log[..5] + [log[5]] == log;
      SentPush(log[..5], log[5]);
    }
  }

  // ------------------------------------------------------ results and courses, from short to long

  lemma {:induction false} HasPush(log: seq<Event>, x: Event, e: Event)
    ensures Has(log + [x], e) <==> Has(log, e) || e == x
  {
    var all := log + [x];
    assert all[|log|] == x && forall k :: 0 <= k < |log| ==> all[k] == log[k];
  }

  lemma {:induction false} HasNothing(e: Event)
    ensures !Has([], e)
  {
  }

  lemma {:induction false} HasAfter(a: seq<Event>, b: seq<Event>, e: Event)
    ensures Has(a + b, e) <==> Has(a, e) || Has(b, e)
    decreases |b|
  {
    if b == [] {
      assert a + b == a;
      HasNothing(e);
    } else {
      var front, last := b[..|b| - 1], b[|b| - 1];
      HasAfter(a, front, e);
      assert a + b == a + front + [last] && b == front + [last];
      HasPush(a + front, last, e);
      HasPush(front, last, e);
    }
  }

  // Runs that never speak to the mirror.
  lemma {:induction false} Unsent(s: Selection, peer: Peer, c: Callbacks, result: Result)
    requires
      || (!s.requestOk && result == Failed(RequestInvalid))
      || (s.requestOk && !s.contractOk && result == Failed(ContractMismatch))
      || (s.requestOk && s.contractOk && ResolveIndex(s.registered, s.key).Unresolved?
          && result == Failed(ResolveIndex(s.registered, s.key).code))
      || (s.requestOk && s.contractOk && ResolveIndex(s.registered, s.key).Found? && !peer.encodes
          && result == Failed(EncodingFailed))
    ensures Lifecycle(s, peer, c, [], result) && Explains(s, peer, c, result) && Course(s, peer, c, [])
  {
    ResolutionMeans(s.registered, s.key);
    hide ResolveIndex, Exact, Twice, Known, KnownProfile, Confirms, Declines, Lifecycle;
    EmptyLog(s, peer, c, result);
    assert !Selectable(s) || !peer.encodes;
    forall e ensures !Has([], e) { HasNothing(e); }
  }

  // Runs whose registration is not answered.
  lemma {:induction false} Unanswered(s: Selection, peer: Peer, c: Callbacks, log: seq<Event>, result: Result)
    requires Selectable(s) && peer.encodes
    requires
      || (!peer.sends && log == [Request(false)] && result == Failed(SendFailed))
      || (peer.sends && peer.first.None? && log == [Request(true), Answer(peer.first)] && result == Failed(Closed))
    ensures Lifecycle(s, peer, c, log, result) && Explains(s, peer, c, result) && Course(s, peer, c, log)
  {
    hide Selectable, Confirms, Declines, Lifecycle, Has;
    RegisteredLog(s, peer, c, log, result);
    forall e ensures Has(log, e) <==> e == Request(peer.sends) || (peer.sends && e == Answer(peer.first)) {
      HasTwo(Request(peer.sends), Answer(peer.first), e);
    }
  }

  lemma {:induction false} HasTwo(x: Event, y: Event, e: Event)
    ensures Has([x], e) <==> e == x
    ensures Has([x, y], e) <==> e == x || e == y
  {
    HasNothing(e);
    HasPush([], x, e);
    HasPush([x], y, e);
    assert [] + [x] == [x] && [x] + [y] == [x, y];
  }

  lemma {:induction false} HasThree(x: Event, y: Event, z: Event, e: Event)
    ensures Has([x, y, z], e) <==> e == x || e == y || e == z
  {
    HasTwo(x, y, e);
    HasPush([x, y], z, e);
    assert [x, y] + [z] == [x, y, z];
  }

  // Runs that are refused.
  lemma {:induction false} Unpermitted(s: Selection, peer: Peer, c: Callbacks, refusal: Refusal)
    requires Heard(s, peer) && Authorize(peer.first.value, s.key.digest, s.policy, s.fallback) == Refused(refusal)
    ensures var log, result := [Request(true), Answer(peer.first)], Failed(Unauthorized(refusal));
            Lifecycle(s, peer, c, log, result) && Explains(s, peer, c, result) && Course(s, peer, c, log)
  {
    var log, result := [Request(true), Answer(peer.first)], Failed(Unauthorized(refusal));
    RegisteredLog(s, peer, c, log, result);
    RefusedMeans(s, peer.first.value, refusal);
    hide Selectable, Confirms, Declines, Authorize, Refuses, Lifecycle, Has;
    forall e ensures Has(log, e) <==> e == Request(true) || e == Answer(peer.first) {
      HasTwo(Request(true), Answer(peer.first), e);
    }
  }

  lemma {:induction false} RefusedMeans(s: Selection, reply: FirstReply, refusal: Refusal)
    requires Authorize(reply, s.key.digest, s.policy, s.fallback) == Refused(refusal)
    ensures Refuses(s, reply, refusal)
    ensures !(Confirms(reply, s.key.digest) || (Declines(reply) && s.policy == Prefer && s.fallback))
  {
  }

  // Runs whose factory makes no binding.
  lemma {:induction false} Uncreated(s: Selection, peer: Peer, c: Callbacks, f: Factory)
    requires Allowed(s, peer) && Chosen(s, peer, f) && Permits(s, peer.first.value, f) && !c.created
    ensures var log, result := [Request(true), Answer(peer.first), Creation(f, false)], Failed(FactoryFailed);
            Lifecycle(s, peer, c, log, result) && Explains(s, peer, c, result) && Course(s, peer, c, log)
  {
    hide Lifecycle, Course, Permits, Chosen, Confirms, Declines, Exact, Twice, Refuses, LoopEndsAs;
    CreatedLog(s, peer, c, f, Failed(FactoryFailed));
    UncreatedCourse(s, peer, c, f);
  }

  lemma {:induction false} UncreatedCourse(s: Selection, peer: Peer, c: Callbacks, f: Factory)
    requires Allowed(s, peer) && Chosen(s, peer, f) && !c.created
    ensures Course(s, peer, c, [Request(true), Answer(peer.first), Creation(f, false)])
  {
    hide Confirms, Declines, Chosen, Has;
    var log := [Request(true), Answer(peer.first), Creation(f, false)];
    OneChosen(s, peer, f);
    forall e ensures Has(log, e) <==> e == Request(true) || e == Answer(peer.first) || e == Creation(f, false) {
      HasThree(Request(true), Answer(peer.first), Creation(f, false), e);
    }
  }

  lemma {:induction false} OneChosen(s: Selection, peer: Peer, f: Factory)
    requires Selectable(s) && peer.first.Some? && Chosen(s, peer, f)
    ensures forall g :: Chosen(s, peer, g) ==> g == f
  {
    hide Confirms;
    assert forall g :: Chosen(s, peer, g) ==> g == f;
  }

  // Runs that have got a binding.
  lemma {:induction false} BoundResult(s: Selection, peer: Peer, c: Callbacks, events: seq<Event>, primary: Result, result: Result)
    requires Bound(s, peer, c) && UsedAs(s, c, peer.script, events, primary)
    requires result == if primary.Failed? then primary else if !c.disposed then Failed(DisposeFailed) else Succeeded
    ensures Explains(s, peer, c, result)
  {
    hide Allowed, Fold, Orderly, Delivered, LoopEnds;
    if c.bindingDigest == s.key.digest && c.compatibility == Compatible {
      var ending :| Spoken(c.world, peer.script, events[1].talk, ending)
                    && primary == if ending == Done then Succeeded else Failed(Loop(ending));
      LoopEndsIff(c.world, peer.script, Delivered(events[1].talk), ending);
      assert LoopEndsAs(c, peer.script, ending);
    }
  }

  lemma {:induction false} BoundCourse(s: Selection, peer: Peer, c: Callbacks, f: Factory, events: seq<Event>, primary: Result,
                                       log: seq<Event>)
    requires Bound(s, peer, c) && Chosen(s, peer, f) && UsedAs(s, c, peer.script, events, primary)
    requires log == [Request(true), Answer(peer.first), Creation(f, true)] + events + [Disposal(c.disposed)]
    ensures Course(s, peer, c, log)
  {
    OneChosen(s, peer, f);
    BoundEvents(peer, f, events, c.disposed);
    EventsOfUse(s, c, peer.script, events, primary);
    hide Chosen, Confirms, Declines, Spoken, Has, UsedAs, Exact, Twice;
  }

  lemma {:induction false} BoundEvents(peer: Peer, f: Factory, events: seq<Event>, disposed: bool)
    ensures var log := [Request(true), Answer(peer.first), Creation(f, true)] + events + [Disposal(disposed)];
            forall e :: Has(log, e) <==>
              e == Request(true) || e == Answer(peer.first) || e == Creation(f, true) || Has(events, e) || e == Disposal(disposed)
  {
    hide Has;
    var front := [Request(true), Answer(peer.first), Creation(f, true)];
    forall e
      ensures Has(front + events + [Disposal(disposed)], e) <==>
              e == Request(true) || e == Answer(peer.first) || e == Creation(f, true) || Has(events, e) || e == Disposal(disposed)
    {
      HasThree(Request(true), Answer(peer.first), Creation(f, true), e);
      HasAfter(front, events, e);
      HasPush(front + events, Disposal(disposed), e);
    }
  }

  lemma {:induction false} EventsOfUse(s: Selection, c: Callbacks, script: seq<Incoming>, events: seq<Event>, primary: Result)
    requires UsedAs(s, c, script, events, primary)
    ensures forall e :: Has(events, e) ==> e.Check? || e.Steps?
    ensures forall x :: Has(events, Check(x)) <==> c.bindingDigest == s.key.digest && x == c.compatibility
    ensures (exists talk :: Has(events, Steps(talk))) <==> c.bindingDigest == s.key.digest && c.compatibility == Compatible
  {
    hide Spoken, Has;
    if c.bindingDigest != s.key.digest {
      forall e ensures !Has(events, e) { HasNothing(e); }
    } else if c.compatibility != Compatible {
      forall e ensures Has(events, e) <==> e == Check(c.compatibility) {
        HasTwo(Check(c.compatibility), Check(c.compatibility), e);
      }
    } else {
      assert events == [events[0], events[1]];
      forall e ensures Has(events, e) <==> e == Check(Compatible) || e == events[1] { HasTwo(events[0], events[1], e); }
      assert Has(events, Steps(events[1].talk));
    }
  }

  // No run has two results, so each has the one that its own conditions give.
  lemma {:induction false} OneResult(s: Selection, peer: Peer, c: Callbacks, a: Result, b: Result)
    requires Explains(s, peer, c, a) && Explains(s, peer, c, b)
    ensures a == b
  {
    RegistryVerdicts(s.registered, s.key);
    hide Exact, Twice, Known, KnownProfile, LoopEnds, Confirms, Declines;
    if Fitting(s, peer, c) {
      forall x, y | LoopEndsAs(c, peer.script, x) && LoopEndsAs(c, peer.script, y) ensures x == y {
        OneEnding(c, peer.script, x, y);
      }
    }
  }

  lemma {:induction false} RegistryVerdicts(registered: seq<Key>, key: Key)
    ensures Twice(registered, key) ==> Exact(registered, key)
    ensures Exact(registered, key) ==> KnownProfile(registered, key)
    ensures KnownProfile(registered, key) ==> Known(registered, key)
  {
    if Exact(registered, key) {
      var i: nat :| ExactAt(registered, key, i);
      assert SameAdapter(registered[i], key) && registered[i].profile == key.profile;
    }
  }

  lemma {:induction false} OneEnding(c: Callbacks, script: seq<Incoming>, x: Ending, y: Ending)
    requires LoopEndsAs(c, script, x) && LoopEndsAs(c, script, y)
    ensures x == y
  {
    hide LoopEnds, Fold;
    var a :| LoopEnds(c.world, script, a, x);
    var b :| LoopEnds(c.world, script, b, y);
    LoopEndsIff(c.world, script, a, x);
    LoopEndsIff(c.world, script, b, y);
  }

  // ------------------------------------------------------ what success means

  // A run succeeds only on an exact match or an allowed fallback, with every request answered, the
  // mirror's last word that all steps are done, and the binding disposed of.
  lemma {:induction false} SuccessMeans(s: Selection, peer: Peer, c: Callbacks, log: seq<Event>, result: Result)
    requires Lifecycle(s, peer, c, log, result) && result.Succeeded?
    ensures HasBinding(log) && c.disposed && c.bindingDigest == s.key.digest && c.compatibility == Compatible
    ensures |SentIn(log)| == |Requests(peer.script)| && Stepping.Answered(c.world, Requests(peer.script), 0, [], SentIn(log), Done)
    ensures Rest(peer.script) != [] && Rest(peer.script)[0] == Line(AllStepsDone)
    ensures peer.first.Some?
    ensures Confirms(peer.first.value, s.key.digest) || (s.policy == Prefer && s.fallback)
    ensures exists k :: 0 <= k < |log| && Creates(log[k]) && Permits(s, peer.first.value, log[k].factory)
  {
    hide Fold, Orderly, ResolveIndex, Stepping.Answered, Requests, Rest;
    SentStates(c.world, peer.script, 0, [], [], "");
    DoneMeans(c.world, peer.script, 0, [], [], "");
    var k :| 0 <= k < |log| && Creates(log[k]);
  }
}
