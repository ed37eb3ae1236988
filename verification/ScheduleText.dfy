// Schedules as JSON documents: encode_schedule and parse_schedule (src/schedule.rs:32-71 and 161-223).
module ScheduleText {
  import opened Wrappers
  import opened Schedule
  import opened OrderedMap
  import opened JsonString
  import opened JsonTree
  import JsonGrammar
  import JsonSpans
  import opened JsonPrinting
  import opened JsonAcceptance
  import JsonReader

  const SCHEMA := "mirrors.checkpoint-schedule/v1"
  const PROFILE := "mirrorrust.cooperative-checkpoints/v1"
  const MAX_STEPS := 65_536
  const MAX_INPUTS := 65_535
  const LIMITS := Limits(8 * 1_048_576, 32, 600_000, true)

  datatype Identity = Identity(model: string, mapping: string, implementation: string)

  // What a Schedule of the source holds; `Step` is shared with the scheduler.
  datatype Document = Document(schema: string, profile: string, identity: Identity, inputs: Json, steps: seq<Step>)

  // ------------------------------------------------------ the checks of parse_schedule

  predicate Digest(s: string) {
    |s| == 64 && forall k :: 0 <= k < |s| ==> '0' <= s[k] <= '9' || 'a' <= s[k] <= 'f'
  }

  predicate IdentityValid(i: Identity) { Digest(i.model) && Digest(i.mapping) && Digest(i.implementation) }

  predicate StepEncodable(s: Step) {
    Identifier(s.actor) && (s.checkpoint == COMPLETION || Identifier(s.checkpoint))
  }

  predicate StepsEncodable(steps: seq<Step>) {
    |steps| <= MAX_STEPS && forall k :: 0 <= k < |steps| ==> StepEncodable(steps[k])
  }

  predicate ValidDocument(d: Document) {
    d.schema == SCHEMA && d.profile == PROFILE && IdentityValid(d.identity) && StepsEncodable(d.steps)
  }

  // ------------------------------------------------------ the tree of a document

  // Structs are written field by field in the order of their declaration.
  function IdentityMembers(i: Identity): Entries<Json> {
    [("modelSemanticDigest", String(i.model)), ("mappingSha256", String(i.mapping)), ("implementationSha256", String(i.implementation))]
  }

  function StepTree(s: Step): Json {
    Object([("actor", String(s.actor)), ("checkpoint", String(s.checkpoint))])
  }

  function StepTrees(steps: seq<Step>): (r: seq<Json>)
    ensures |r| == |steps|
  {
    if steps == [] then [] else [StepTree(steps[0])] + StepTrees(steps[1..])
  }

  function DocumentMembers(d: Document): Entries<Json> {
    [("schema", String(d.schema)), ("profile", String(d.profile)), ("identity", Object(IdentityMembers(d.identity))),
     ("inputs", d.inputs), ("steps", Array(StepTrees(d.steps)))]
  }

  function DocumentTree(d: Document): Json { Object(DocumentMembers(d)) }

  // ------------------------------------------------------ reading a tree

  function Lookup(ms: Entries<Json>, k: string): Option<Json> {
    if ms == [] then None else if ms[0].0 == k then Some(ms[0].1) else Lookup(ms[1..], k)
  }

  function Lookups(ms: Entries<Json>, names: seq<string>): (r: Option<seq<Json>>)
    ensures r.Some? ==> |r.value| == |names|
  {
    if names == [] then Some([])
    else
      var first, rest := Lookup(ms, names[0]), Lookups(ms, names[1..]);
      if first.None? || rest.None? then None else Some([first.value] + rest.value)
  }

  // The fields of a struct in the order of their declaration. None may be missing and none
  // unknown; a struct is also read from an array of its fields.
  function Fields(j: Json, names: seq<string>): (r: Option<seq<Json>>)
    ensures r.Some? ==> |r.value| == |names|
  {
    match j
    case Object(ms) => if |ms| == |names| then Lookups(ms, names) else None
    case Array(items) => if |items| == |names| then Some(items) else None
    case _ => None
  }

  function ReadIdentity(j: Json): Option<Identity> {
    var f := Fields(j, ["modelSemanticDigest", "mappingSha256", "implementationSha256"]);
    if f.None? || !f.value[0].String? || !f.value[1].String? || !f.value[2].String? then None
    else Some(Identity(f.value[0].s, f.value[1].s, f.value[2].s))
  }

  function ReadStep(j: Json): Option<Step> {
    var f := Fields(j, ["actor", "checkpoint"]);
    if f.None? || !f.value[0].String? || !f.value[1].String? then None else Some(Step(f.value[0].s, f.value[1].s))
  }

  function ReadSteps(items: seq<Json>): Option<seq<Step>> {
    if items == [] then Some([])
    else
      var first, rest := ReadStep(items[0]), ReadSteps(items[1..]);
      if first.None? || rest.None? then None else Some([first.value] + rest.value)
  }

  function ReadDocument(j: Json): Option<Document> {
    var f := Fields(j, ["schema", "profile", "identity", "inputs", "steps"]);
    if f.None? || !f.value[0].String? || !f.value[1].String? || !f.value[4].Array? then None
    else
      var identity, steps := ReadIdentity(f.value[2]), ReadSteps(f.value[4].items);
      if identity.None? || steps.None? then None
      else Some(Document(f.value[0].s, f.value[1].s, identity.value, f.value[3], steps.value))
  }

  // parse_schedule
  function ParseSchedule(text: string): Option<Document> {
    var j := JsonReader.Parse(text, LIMITS);
    if j.None? then None
    else
      var d := ReadDocument(j.value);
      if d.None? || !ValidDocument(d.value) || |Print(d.value.inputs)| > MAX_INPUTS then None else d
  }

  // encode_schedule
  function EncodeSchedule(d: Document): Option<string> {
    var text := Print(DocumentTree(d));
    if ParseSchedule(text).None? then None else Some(text)
  }

  // ------------------------------------------------------ structs are read back

  lemma {:induction false} LookupEntry(ms: Entries<Json>, i: nat)
    requires i < |ms| && Sorted(ms)
    ensures Lookup(ms, ms[i].0) == Some(ms[i].1)
  {
    hide Less;
    if i > 0 {
      LessIrreflexive(ms[i].0);
      LookupEntry(ms[1..], i - 1);
    }
  }

  // The values of the members, in the order written.
  function Values(ms: Entries<Json>): (r: seq<Json>)
    ensures |r| == |ms|
  {
    if ms == [] then [] else [ms[0].1] + Values(ms[1..])
  }

  lemma {:induction false} LookupsStored(m: Entries<Json>, ms: Entries<Json>)
    requires Sorted(m) && forall e :: e in ms ==> e in m
    ensures Lookups(m, Names(ms)) == Some(Values(ms))
    decreases |ms|
  {
    hide Less, Lookup, Sorted;
    if ms != [] {
      assert ms[0] in m;
      var i :| 0 <= i < |m| && m[i] == ms[0];
      LookupEntry(m, i);
      LookupsStored(m, ms[1..]);
    }
  }

  lemma {:induction false} InsertGrows(m: Entries<Json>, k: string, v: Json)
    requires !Has(m, k)
    ensures |Insert(m, k, v)| == |m| + 1
  {
    if m != [] && !Less(k, m[0].0) {
      HasCons(m[0], m[1..], k);
      assert m == [m[0]] + m[1..];
      InsertGrows(m[1..], k, v);
    }
  }

  lemma {:induction false} GatherGrows(m: Entries<Json>, ms: Entries<Json>)
    requires Distinct(Names(ms)) && OrderedMap.Fresh(m, Names(ms))
    ensures |Gather(m, ms)| == |m| + |ms|
    decreases |ms|
  {
    hide Insert, Has;
    if ms != [] {
      FreshStep(m, ms[0].0, ms[0].1, Names(ms[1..]));
      InsertGrows(m, ms[0].0, ms[0].1);
      GatherGrows(Insert(m, ms[0].0, ms[0].1), ms[1..]);
    }
  }

  lemma {:induction false} DistinctIsFunctional(ms: Entries<Json>)
    requires Distinct(Names(ms))
    ensures Functional(ms)
  {
    hide Names;
    forall i, j | 0 <= i < |ms| && 0 <= j < |ms| && ms[i].0 == ms[j].0 ensures ms[i] == ms[j] {
      NamesAre(ms, i);
      NamesAre(ms, j);
    }
  }

  // A struct stored with its fields in key order is read in declaration order.
  lemma {:induction false} FieldsStored(ms: Entries<Json>)
    requires Distinct(Names(ms))
    ensures Fields(Object(Gather([], ms)), Names(ms)) == Some(Values(ms))
  {
    hide Gather, Names, Values, Lookups, Functional;
    var m := Gather([], ms);
    GatherGrows([], ms);
    DistinctIsFunctional(ms);
    assert [] + ms == ms;
    GatherSorted<Json>([], ms);
    forall e | e in ms ensures e in m { GatherEntry([], ms, e); }
    LookupsStored(m, ms);
  }

  // ------------------------------------------------------ a document is read back

  lemma {:induction false} KeysCons(k: string, x: Json, ms: Entries<Json>)
    ensures Names([(k, x)] + ms) == [k] + Names(ms) && Values([(k, x)] + ms) == [x] + Values(ms)
    ensures NormalMembers([(k, x)] + ms) == [(k, Normal(x))] + NormalMembers(ms)
  {
    hide Normal;
    assert ([(k, x)] + ms)[1..] == ms;
  }

  // Two, three and five fields.
  lemma {:induction false} Keys2(a: string, b: string, x: Json, y: Json)
    ensures Names([(a, x), (b, y)]) == [a, b] && Values([(a, x), (b, y)]) == [x, y]
    ensures NormalMembers([(a, x), (b, y)]) == [(a, Normal(x)), (b, Normal(y))]
  {
    KeysCons(b, y, []);
    KeysCons(a, x, [(b, y)]);
    hide Normal;
    assert [(a, x)] + [(b, y)] == [(a, x), (b, y)] && [(b, y)] + [] == [(b, y)];
  }

  lemma {:induction false} Keys3(a: string, b: string, c: string, x: Json, y: Json, z: Json)
    ensures var ms := [(a, x), (b, y), (c, z)];
            Names(ms) == [a, b, c] && Values(ms) == [x, y, z] && NormalMembers(ms) == [(a, Normal(x)), (b, Normal(y)), (c, Normal(z))]
  {
    hide Names, Values, NormalMembers, Normal;
    Keys2(b, c, y, z);
    KeysCons(a, x, [(b, y), (c, z)]);
    assert [(a, x)] + [(b, y), (c, z)] == [(a, x), (b, y), (c, z)];
  }

  lemma {:induction false} Keys5(k: seq<string>, v: seq<Json>)
    requires |k| == 5 && |v| == 5
    ensures var ms := [(k[0], v[0]), (k[1], v[1]), (k[2], v[2]), (k[3], v[3]), (k[4], v[4])];
            Names(ms) == k && Values(ms) == v
            && NormalMembers(ms)
               == [(k[0], Normal(v[0])), (k[1], Normal(v[1])), (k[2], Normal(v[2])), (k[3], Normal(v[3])), (k[4], Normal(v[4]))]
  {
    hide Names, Values, NormalMembers, Normal;
    var last := [(k[2], v[2]), (k[3], v[3]), (k[4], v[4])];
    Keys3(k[2], k[3], k[4], v[2], v[3], v[4]);
    KeysCons(k[1], v[1], last);
    KeysCons(k[0], v[0], [(k[1], v[1])] + last);
    assert [(k[0], v[0])] + ([(k[1], v[1])] + last) == [(k[0], v[0]), (k[1], v[1]), (k[2], v[2]), (k[3], v[3]), (k[4], v[4])];
  }

  lemma {:induction false} StepReadBack(s: Step)
    ensures Writable(StepTree(s)) && ReadStep(Normal(StepTree(s))) == Some(s)
  {
    hide Fields, Gather;
    var x, y := String(s.actor), String(s.checkpoint);
    var ms := [("actor", x), ("checkpoint", y)];
    Keys2("actor", "checkpoint", x, y);
    assert |"actor"| != |"checkpoint"|;
    assert Normal(x) == x && Normal(y) == y;
    FieldsStored(ms);
  }

  lemma {:induction false} StepsReadBack(steps: seq<Step>)
    ensures Writable(Array(StepTrees(steps))) && ReadSteps(NormalItems(StepTrees(steps))) == Some(steps)
  {
    hide ReadStep, Normal, StepTree;
    if steps != [] {
      StepReadBack(steps[0]);
      StepsReadBack(steps[1..]);
      assert steps == [steps[0]] + steps[1..];
    }
  }

  lemma {:induction false} IdentityReadBack(i: Identity)
    ensures Writable(Object(IdentityMembers(i))) && ReadIdentity(Normal(Object(IdentityMembers(i)))) == Some(i)
  {
    hide Fields, Gather, Names, Values, NormalMembers;
    var x, y, z := String(i.model), String(i.mapping), String(i.implementation);
    Keys3("modelSemanticDigest", "mappingSha256", "implementationSha256", x, y, z);
    assert |"modelSemanticDigest"| == 19 && |"mappingSha256"| == 13 && |"implementationSha256"| == 20;
    assert Normal(x) == x && Normal(y) == y && Normal(z) == z;
    FieldsStored(IdentityMembers(i));
  }

  function DocumentKeys(): seq<string> { ["schema", "profile", "identity", "inputs", "steps"] }

  lemma {:induction false} KeysAreDistinct()
    ensures Distinct(DocumentKeys())
  {
    assert |"schema"| == 6 && |"profile"| == 7 && |"identity"| == 8 && |"inputs"| == 6 && |"steps"| == 5;
    assert "schema"[0] != "inputs"[0];
  }

  // What a document's tree is stored as.
  function StoredMembers(d: Document): Entries<Json> {
    [("schema", String(d.schema)), ("profile", String(d.profile)), ("identity", Normal(Object(IdentityMembers(d.identity)))),
     ("inputs", d.inputs), ("steps", Array(NormalItems(StepTrees(d.steps))))]
  }

  lemma {:induction false} DocumentWritable(d: Document)
    requires Printable(d.inputs)
    ensures Writable(DocumentTree(d))
  {
    hide Names, Distinct, IdentityMembers, StepTrees;
    var ms := DocumentMembers(d);
    Keys5(DocumentKeys(), [ms[0].1, ms[1].1, ms[2].1, ms[3].1, ms[4].1]);
    KeysAreDistinct();
    IdentityReadBack(d.identity);
    StepsReadBack(d.steps);
    PrintableIsNormal(d.inputs);
  }

  lemma {:induction false} DocumentStored(d: Document)
    requires Printable(d.inputs)
    ensures Normal(DocumentTree(d)) == Object(Gather([], StoredMembers(d)))
    ensures Names(StoredMembers(d)) == DocumentKeys()
    ensures Values(StoredMembers(d)) == [String(d.schema), String(d.profile), Normal(Object(IdentityMembers(d.identity))), d.inputs,
                                         Array(NormalItems(StepTrees(d.steps)))]
  {
    hide Gather, Names, Values, NormalMembers, NormalItems, IdentityMembers, StepTrees;
    var ms, st := DocumentMembers(d), StoredMembers(d);
    Keys5(DocumentKeys(), [ms[0].1, ms[1].1, ms[2].1, ms[3].1, ms[4].1]);
    Keys5(DocumentKeys(), [st[0].1, st[1].1, st[2].1, st[3].1, st[4].1]);
    PrintableIsNormal(d.inputs);
    assert Normal(ms[0].1) == st[0].1 && Normal(ms[1].1) == st[1].1 && Normal(ms[4].1) == st[4].1;
    assert NormalMembers(ms) == st;
  }

  lemma {:induction false} DocumentReadBack(d: Document)
    requires Printable(d.inputs)
    ensures ReadDocument(Normal(DocumentTree(d))) == Some(d)
  {
    hide Gather, Names, Values, Normal, Fields, NormalItems, IdentityMembers, StepTrees, DocumentTree, StoredMembers;
    DocumentStored(d);
    KeysAreDistinct();
    FieldsStored(StoredMembers(d));
    IdentityReadBack(d.identity);
    StepsReadBack(d.steps);
  }

  // ------------------------------------------------------ how large a document is

  // Text that the printer leaves as it is.
  predicate Unescaped(s: string) {
    forall k :: 0 <= k < |s| ==> s[k] != QUOTE && s[k] != ESCAPE && !JsonString.Control(s[k])
  }

  lemma {:induction false} EscapeUnescaped(s: string)
    requires Unescaped(s)
    ensures Escape(s) == s
  {
    if s != [] {
      EscapeUnescaped(s[1..]);
      assert EscapeChar(s[0]) == [s[0]] by { assert s[0] != QUOTE; }
      assert s == [s[0]] + s[1..];
    }
  }

  lemma {:induction false} StringLength(s: string)
    requires Unescaped(s)
    ensures |PrintString(s)| == |s| + 2
  {
    EscapeUnescaped(s);
  }

  lemma {:induction false} NamesAreUnescaped(s: string)
    requires Identifier(s) || s == COMPLETION || Digest(s)
    ensures Unescaped(s)
  {
    if Identifier(s) {
      forall k | 0 <= k < |s| ensures s[k] != QUOTE && s[k] != ESCAPE && !JsonString.Control(s[k]) { assert IdentifierChar(s[k]); }
    }
  }

  function MembersLength(ms: Entries<Json>): nat {
    if ms == [] then 0 else |ms[0].0| + 4 + |Print(ms[0].1)| + MembersLength(ms[1..])
  }

  lemma {:induction false} MembersPrint(ms: Entries<Json>)
    requires ms != [] && forall i :: 0 <= i < |ms| ==> Unescaped(ms[i].0)
    ensures |PrintMembers(ms)| == MembersLength(ms)
  {
    hide Print, Unescaped, PrintString;
    StringLength(ms[0].0);
    assert |PrintMember(ms[0])| == |ms[0].0| + 3 + |Print(ms[0].1)|;
    if |ms| > 1 { MembersPrint(ms[1..]); }
  }

  // The bytes of the steps with the comma or bracket after each.
  function StepsLength(steps: seq<Step>): nat {
    if steps == [] then 0 else 29 + |steps[0].actor| + |steps[0].checkpoint| + StepsLength(steps[1..])
  }

  lemma {:induction false} StepPrint(s: Step)
    requires StepEncodable(s)
    ensures |Print(StepTree(s))| == 28 + |s.actor| + |s.checkpoint|
  {
    hide Unescaped, PrintMembers, Identifier;
    var x, y := String(s.actor), String(s.checkpoint);
    var ms := [("actor", x), ("checkpoint", y)];
    NamesAreUnescaped(s.actor);
    NamesAreUnescaped(s.checkpoint);
    StringLength(s.actor);
    StringLength(s.checkpoint);
    StepKeys();
    MembersPrint(ms);
    assert ms[1..] == [("checkpoint", y)];
    assert MembersLength([("checkpoint", y)]) == 10 + 4 + |Print(y)|;
    assert MembersLength(ms) == (5 + 4 + |Print(x)|) + (10 + 4 + |Print(y)|);
  }

  lemma {:induction false} StepKeys()
    ensures Unescaped("actor") && Unescaped("checkpoint")
  {
  }

  lemma {:induction false} StepsPrint(steps: seq<Step>)
    requires steps != [] && forall k :: 0 <= k < |steps| ==> StepEncodable(steps[k])
    ensures |PrintItems(StepTrees(steps))| == StepsLength(steps)
  {
    hide Print, StepTree, StepEncodable;
    StepPrint(steps[0]);
    if |steps| > 1 {
      StepsPrint(steps[1..]);
      assert StepTrees(steps)[1..] == StepTrees(steps[1..]);
    } else {
      assert StepTrees(steps)[1..] == [];
    }
  }

  lemma {:induction false} IdentityKeys()
    ensures Unescaped("modelSemanticDigest") && Unescaped("mappingSha256") && Unescaped("implementationSha256")
  {
  }

  lemma {:induction false} DocumentNames()
    ensures Unescaped("schema") && Unescaped("profile") && Unescaped("identity") && Unescaped("inputs") && Unescaped("steps")
  {
  }

  lemma {:induction false} UnescapedParts(a: string, b: string)
    requires Unescaped(a) && Unescaped(b)
    ensures Unescaped(a + b)
  {
  }

  lemma {:induction false} SchemaIsUnescaped()
    ensures Unescaped(SCHEMA) && |SCHEMA| == 30
  {
    assert SCHEMA == "mirrors.checkpo" + "int-schedule/v1";
    assert Unescaped("mirrors.checkpo") && Unescaped("int-schedule/v1");
    UnescapedParts("mirrors.checkpo", "int-schedule/v1");
  }

  lemma {:induction false} ProfileIsUnescaped()
    ensures Unescaped(PROFILE) && |PROFILE| == 37
  {
    assert PROFILE == "mirrorrust.cooperat" + "ive-checkpoints/v1";
    assert Unescaped("mirrorrust.cooperat") && Unescaped("ive-checkpoints/v1");
    UnescapedParts("mirrorrust.cooperat", "ive-checkpoints/v1");
  }

  lemma {:induction false} IdentityPrint(i: Identity)
    requires IdentityValid(i)
    ensures |Print(Object(IdentityMembers(i)))| == 263
  {
    hide Unescaped, PrintMembers, PrintString, Identifier;
    var ms := IdentityMembers(i);
    NamesAreUnescaped(i.model);
    NamesAreUnescaped(i.mapping);
    NamesAreUnescaped(i.implementation);
    StringLength(i.model);
    StringLength(i.mapping);
    StringLength(i.implementation);
    IdentityKeys();
    MembersPrint(ms);
    Length3(ms);
  }

  lemma {:induction false} Length3(ms: Entries<Json>)
    requires |ms| == 3
    ensures MembersLength(ms) == |ms[0].0| + |ms[1].0| + |ms[2].0| + 12 + |Print(ms[0].1)| + |Print(ms[1].1)| + |Print(ms[2].1)|
  {
    hide Print;
    assert MembersLength(ms[1..][1..][1..]) == 0;
    assert MembersLength(ms[1..][1..]) == |ms[2].0| + 4 + |Print(ms[2].1)|;
    assert MembersLength(ms[1..]) == |ms[1].0| + 4 + |Print(ms[1].1)| + MembersLength(ms[1..][1..]);
  }

  // The bytes of a valid document.
  function TextLength(d: Document): nat {
    388 + |Print(d.inputs)| + (if d.steps == [] then 1 else StepsLength(d.steps))
  }

  lemma {:induction false} DocumentPrint(d: Document)
    requires ValidDocument(d)
    ensures |Print(DocumentTree(d))| == TextLength(d)
  {
    hide Unescaped, PrintMembers, PrintString, Identifier, Digest, IdentityMembers, StepEncodable, PrintItems;
    var ms := DocumentMembers(d);
    SchemaIsUnescaped();
    ProfileIsUnescaped();
    StringLength(SCHEMA);
    StringLength(PROFILE);
    IdentityPrint(d.identity);
    ArrayLength(d.steps);
    DocumentNames();
    MembersPrint(ms);
    Length3(ms[2..]);
    assert ms[1..][1..] == ms[2..];
    assert MembersLength(ms[1..]) == 7 + 4 + |Print(ms[1].1)| + MembersLength(ms[2..]);
  }

  lemma {:induction false} ArrayLength(steps: seq<Step>)
    requires StepsEncodable(steps)
    ensures |Print(Array(StepTrees(steps)))| == 1 + (if steps == [] then 1 else StepsLength(steps))
  {
    hide StepEncodable, StepTree;
    if steps != [] { StepsPrint(steps); }
  }

  lemma {:induction false} StepsMeasures(steps: seq<Step>)
    ensures SizeItems(StepTrees(steps)) == 3 * |steps|
    ensures DepthItems(StepTrees(steps)) == if steps == [] then 0 else 1
  {
    if steps != [] {
      StepMeasures(steps[0]);
      StepsMeasures(steps[1..]);
      hide StepTree, Size, Depth;
      assert StepTrees(steps)[1..] == StepTrees(steps[1..]);
    }
  }

  lemma {:induction false} StepMeasures(s: Step)
    ensures Size(StepTree(s)) == 3 && Depth(StepTree(s)) == 1
  {
    var ms := [("actor", String(s.actor)), ("checkpoint", String(s.checkpoint))];
    MeasuresCons(ms);
    MeasuresCons(ms[1..]);
    assert ms[1..][1..] == [];
  }

  lemma {:induction false} MeasuresCons(ms: Entries<Json>)
    requires ms != []
    ensures SizeMembers(ms) == Size(ms[0].1) + SizeMembers(ms[1..])
    ensures DepthMembers(ms) == JsonGrammar.Max(Depth(ms[0].1), DepthMembers(ms[1..]))
  {
    hide Size, Depth;
    assert SizeMember(ms[0]) == Size(ms[0].1) && DepthMember(ms[0]) == Depth(ms[0].1);
  }

  lemma {:induction false} Measures3(ms: Entries<Json>)
    requires |ms| == 3
    ensures SizeMembers(ms) == Size(ms[0].1) + Size(ms[1].1) + Size(ms[2].1)
    ensures DepthMembers(ms) == JsonGrammar.Max(Depth(ms[0].1), JsonGrammar.Max(Depth(ms[1].1), Depth(ms[2].1)))
  {
    hide Size, Depth;
    MeasuresCons(ms);
    MeasuresCons(ms[1..]);
    MeasuresCons(ms[1..][1..]);
    assert ms[1..][1..][1..] == [];
  }

  lemma {:induction false} DocumentMeasures(d: Document)
    ensures Size(DocumentTree(d)) == 8 + Size(d.inputs) + 3 * |d.steps|
    ensures Depth(DocumentTree(d)) == 1 + JsonGrammar.Max(Depth(d.inputs), if d.steps == [] then 1 else 2)
  {
    hide SizeItems, DepthItems, SizeMembers, DepthMembers, StepTrees, IdentityMembers;
    var ms := DocumentMembers(d);
    StepsMeasures(d.steps);
    IdentityMeasures(d.identity);
    MeasuresCons(ms);
    MeasuresCons(ms[1..]);
    assert ms[1..][1..] == ms[2..];
    Measures3(ms[2..]);
  }

  lemma {:induction false} IdentityMeasures(i: Identity)
    ensures Size(Object(IdentityMembers(i))) == 4 && Depth(Object(IdentityMembers(i))) == 1
  {
    Measures3(IdentityMembers(i));
  }

  // Every value takes a byte at least.
  lemma {:induction false} SizeIsShort(j: Json)
    requires Printable(j)
    ensures Size(j) <= |Print(j)|
    decreases j, 2
  {
    match j
    case Number(text) =>
      var n :| JsonText.NumeralOk(n) && JsonText.Write(n) == text;
    case Array(items) => ItemsAreShort(items);
    case Object(members) => MembersAreShort(members);
    case _ =>
  }

  lemma {:induction false} ItemsAreShort(items: seq<Json>)
    requires forall i :: 0 <= i < |items| ==> Printable(items[i])
    ensures SizeItems(items) <= |PrintItems(items)|
    decreases items, 1
  {
    hide Printable, Size, Print;
    if items != [] {
      SizeIsShort(items[0]);
      ItemsAreShort(items[1..]);
    }
  }

  lemma {:induction false} MembersAreShort(members: Entries<Json>)
    requires forall i :: 0 <= i < |members| ==> Printable(members[i].1)
    ensures SizeMembers(members) <= |PrintMembers(members)|
    decreases members, 1
  {
    hide Printable, Size, Print;
    if members != [] {
      MemberIsShort(members[0]);
      MembersAreShort(members[1..]);
    }
  }

  lemma {:induction false} MemberIsShort(m: (string, Json))
    requires Printable(m.1)
    ensures SizeMember(m) <= |PrintMember(m)|
    decreases m, 0
  {
    hide Printable, Size, Print;
    SizeIsShort(m.1);
  }

  // ------------------------------------------------------ when a document is encoded

  predicate InputsFit(inputs: Json) { Depth(inputs) <= 31 && |Print(inputs)| <= MAX_INPUTS }

  predicate Encodable(d: Document) { ValidDocument(d) && InputsFit(d.inputs) && TextLength(d) <= LIMITS.maxBytes }

  // The bounds of the JSON reader on a valid document: that on nodes is never met.
  lemma {:induction false} DocumentFits(d: Document)
    requires Printable(d.inputs) && ValidDocument(d) && |Print(d.inputs)| <= MAX_INPUTS
    ensures Fits(DocumentTree(d), LIMITS) <==> Depth(d.inputs) <= 31 && TextLength(d) <= LIMITS.maxBytes
  {
    hide Print, Size, Depth, Printable, DocumentTree, TextLength, IdentityValid, StepEncodable;
    DocumentPrint(d);
    DocumentMeasures(d);
    SizeIsShort(d.inputs);
  }

  // A document is encoded iff it is valid, its inputs are short and not too deep, and its text fits.
  lemma {:induction false} EncodesExactly(d: Document)
    requires Printable(d.inputs)
    ensures EncodeSchedule(d) == if Encodable(d) then Some(Print(DocumentTree(d))) else None
  {
    hide Print, Depth, Printable, Writable, DocumentTree, TextLength, ValidDocument, ReadDocument, Fits, JsonReader.Parse, Normal;
    DocumentWritable(d);
    ParseWritten(DocumentTree(d), LIMITS);
    DocumentReadBack(d);
    if ValidDocument(d) && |Print(d.inputs)| <= MAX_INPUTS { DocumentFits(d); }
  }

  // Whatever is encoded is read back as it was.
  lemma {:induction false} EncodedIsRead(d: Document)
    requires Printable(d.inputs) && EncodeSchedule(d).Some?
    ensures ParseSchedule(EncodeSchedule(d).value) == Some(d)
  {
    hide Print, Depth, Printable, Writable, DocumentTree, ValidDocument, ReadDocument, Fits, JsonReader.Parse, Normal;
    DocumentWritable(d);
    ParseWritten(DocumentTree(d), LIMITS);
    DocumentReadBack(d);
  }

  // ------------------------------------------------------ when a document that was read is encoded

  lemma {:induction false} LookupWithin(ms: Entries<Json>, k: string)
    requires Lookup(ms, k).Some? && forall i :: 0 <= i < |ms| ==> Printable(ms[i].1)
    ensures Printable(Lookup(ms, k).value) && Depth(Lookup(ms, k).value) <= DepthMembers(ms)
  {
    hide Printable, Depth;
    MeasuresCons(ms);
    if ms[0].0 != k { LookupWithin(ms[1..], k); }
  }

  lemma {:induction false} LookupsWithin(ms: Entries<Json>, names: seq<string>, i: nat)
    requires Lookups(ms, names).Some? && i < |names| && forall i :: 0 <= i < |ms| ==> Printable(ms[i].1)
    ensures var v := Lookups(ms, names).value[i]; Printable(v) && Depth(v) <= DepthMembers(ms)
    decreases |names|
  {
    hide Printable, Depth, DepthMembers, Lookup;
    if i == 0 { LookupWithin(ms, names[0]); } else { LookupsWithin(ms, names[1..], i - 1); }
  }

  lemma {:induction false} ItemWithin(items: seq<Json>, i: nat)
    requires i < |items|
    ensures Depth(items[i]) <= DepthItems(items)
  {
    hide Depth;
    if i > 0 { ItemWithin(items[1..], i - 1); }
  }

  // A field is stored as it is, and one level down at least.
  lemma {:induction false} FieldWithin(j: Json, names: seq<string>, i: nat)
    requires Printable(j) && Fields(j, names).Some? && i < |names|
    ensures var v := Fields(j, names).value[i]; Printable(v) && Depth(v) < Depth(j)
  {
    hide Lookups;
    match j
    case Object(ms) => LookupsWithin(ms, names, i);
    case Array(items) => ItemWithin(items, i);
    case _ =>
  }

  lemma {:induction false} ReadInputs(t: string)
    requires ParseSchedule(t).Some?
    ensures var d := ParseSchedule(t).value; ValidDocument(d) && Printable(d.inputs) && InputsFit(d.inputs)
  {
    hide Printable, Depth, Fields, Print, JsonReader.Parse, ValidDocument;
    AcceptedIsBounded(t, LIMITS);
    FieldWithin(JsonReader.Parse(t, LIMITS).value, DocumentKeys(), 3);
  }

  // A document that was read is encoded iff its text fits, and is read again as it was.
  lemma {:induction false} ReadIsEncoded(t: string)
    requires ParseSchedule(t).Some?
    ensures var d := ParseSchedule(t).value;
            && (EncodeSchedule(d).Some? <==> TextLength(d) <= LIMITS.maxBytes)
            && (EncodeSchedule(d).Some? ==> ParseSchedule(EncodeSchedule(d).value) == Some(d))
  {
    hide ParseSchedule, EncodeSchedule, TextLength, Printable, ValidDocument, InputsFit;
    ReadInputs(t);
    var d := ParseSchedule(t).value;
    EncodesExactly(d);
    if EncodeSchedule(d).Some? { EncodedIsRead(d); }
  }

  // ------------------------------------------------------ structs written as arrays

  function StepRow(s: Step): Json { Array([String(s.actor), String(s.checkpoint)]) }

  function StepRows(steps: seq<Step>): (r: seq<Json>)
    ensures |r| == |steps|
  {
    if steps == [] then [] else [StepRow(steps[0])] + StepRows(steps[1..])
  }

  function IdentityRow(i: Identity): Json { Array([String(i.model), String(i.mapping), String(i.implementation)]) }

  // The same document with every struct as an array.
  function DocumentRow(d: Document): Json {
    Array([String(d.schema), String(d.profile), IdentityRow(d.identity), d.inputs, Array(StepRows(d.steps))])
  }

  lemma {:induction false} RowIsRead(s: Step)
    ensures ReadStep(StepRow(s)) == Some(s)
  {
  }

  lemma {:induction false} RowsAreRead(steps: seq<Step>)
    ensures ReadSteps(StepRows(steps)) == Some(steps)
  {
    hide ReadStep, StepRow;
    if steps != [] {
      RowIsRead(steps[0]);
      RowsAreRead(steps[1..]);
      assert steps == [steps[0]] + steps[1..];
    }
  }

  lemma {:induction false} RowsMeasures(steps: seq<Step>)
    ensures forall i :: 0 <= i < |steps| ==> Printable(StepRows(steps)[i])
    ensures SizeItems(StepRows(steps)) == 3 * |steps| && DepthItems(StepRows(steps)) <= 1
  {
    if steps != [] {
      RowsMeasures(steps[1..]);
      RowMeasures(steps[0]);
      hide Printable, Size, Depth, StepRow;
      assert StepRows(steps)[1..] == StepRows(steps[1..]);
    }
  }

  function ItemsLength(items: seq<Json>): nat {
    if items == [] then 0 else |Print(items[0])| + 1 + ItemsLength(items[1..])
  }

  lemma {:induction false} ItemsPrint(items: seq<Json>)
    requires items != []
    ensures |PrintItems(items)| == ItemsLength(items)
  {
    hide Print;
    if |items| > 1 { ItemsPrint(items[1..]); }
  }

  // Two and three items: their sizes, depths and texts together.
  lemma {:induction false} Items2(items: seq<Json>)
    requires |items| == 2
    ensures SizeItems(items) == Size(items[0]) + Size(items[1])
    ensures DepthItems(items) == JsonGrammar.Max(Depth(items[0]), Depth(items[1]))
    ensures ItemsLength(items) == |Print(items[0])| + |Print(items[1])| + 2
  {
    hide Size, Depth, Print;
    assert items[1..] == [items[1]] && [items[1]][1..] == [];
    assert SizeItems([items[1]]) == Size(items[1]) && DepthItems([items[1]]) == Depth(items[1]);
    assert ItemsLength([items[1]]) == |Print(items[1])| + 1;
  }

  lemma {:induction false} Items3(items: seq<Json>)
    requires |items| == 3
    ensures SizeItems(items) == Size(items[0]) + Size(items[1]) + Size(items[2])
    ensures DepthItems(items) == JsonGrammar.Max(Depth(items[0]), JsonGrammar.Max(Depth(items[1]), Depth(items[2])))
    ensures ItemsLength(items) == |Print(items[0])| + |Print(items[1])| + |Print(items[2])| + 3
  {
    hide Size, Depth, Print;
    Items2(items[1..]);
  }

  lemma {:induction false} RowMeasures(s: Step)
    ensures Printable(StepRow(s)) && Size(StepRow(s)) == 3 && Depth(StepRow(s)) == 1
  {
    Items2([String(s.actor), String(s.checkpoint)]);
  }

  // The bytes of the rows with the comma or bracket after each.
  function RowsLength(steps: seq<Step>): nat {
    if steps == [] then 0 else 8 + |steps[0].actor| + |steps[0].checkpoint| + RowsLength(steps[1..])
  }

  lemma {:induction false} RowPrint(s: Step)
    requires StepEncodable(s)
    ensures |Print(StepRow(s))| == 7 + |s.actor| + |s.checkpoint|
  {
    hide Unescaped, PrintString, Identifier;
    NamesAreUnescaped(s.actor);
    NamesAreUnescaped(s.checkpoint);
    StringLength(s.actor);
    StringLength(s.checkpoint);
    Items2([String(s.actor), String(s.checkpoint)]);
    ItemsPrint([String(s.actor), String(s.checkpoint)]);
  }

  lemma {:induction false} RowsPrint(steps: seq<Step>)
    requires steps != [] && forall k :: 0 <= k < |steps| ==> StepEncodable(steps[k])
    ensures |PrintItems(StepRows(steps))| == RowsLength(steps)
  {
    hide Print, StepRow, StepEncodable;
    RowPrint(steps[0]);
    if |steps| > 1 {
      RowsPrint(steps[1..]);
      assert StepRows(steps)[1..] == StepRows(steps[1..]);
    } else {
      assert StepRows(steps)[1..] == [];
    }
  }

  lemma {:induction false} IdentityRowFacts(i: Identity)
    requires IdentityValid(i)
    ensures var j := IdentityRow(i);
            Printable(j) && ReadIdentity(j) == Some(i) && Size(j) == 4 && Depth(j) == 1 && |Print(j)| == 202
  {
    hide Unescaped, PrintString, Digest;
    NamesAreUnescaped(i.model);
    NamesAreUnescaped(i.mapping);
    NamesAreUnescaped(i.implementation);
    StringLength(i.model);
    StringLength(i.mapping);
    StringLength(i.implementation);
    assert |i.model| == |i.mapping| == |i.implementation| == 64 by { DigestLengths(i); }
    Items3([String(i.model), String(i.mapping), String(i.implementation)]);
    ItemsPrint([String(i.model), String(i.mapping), String(i.implementation)]);
  }

  lemma {:induction false} DigestLengths(i: Identity)
    requires IdentityValid(i)
    ensures |i.model| == |i.mapping| == |i.implementation| == 64
  {
  }

  // The bytes of a document of rows.
  function RowsText(d: Document): nat {
    281 + |Print(d.inputs)| + (if d.steps == [] then 1 else RowsLength(d.steps))
  }

  lemma {:induction false} RowsArray(steps: seq<Step>)
    requires StepsEncodable(steps)
    ensures |Print(Array(StepRows(steps)))| == 1 + (if steps == [] then 1 else RowsLength(steps))
  {
    hide StepEncodable, StepRow;
    if steps != [] { RowsPrint(steps); }
  }

  lemma {:induction false} DepthsWithin(items: seq<Json>, n: nat)
    requires forall i :: 0 <= i < |items| ==> Depth(items[i]) <= n
    ensures DepthItems(items) <= n
  {
    hide Depth;
    if items != [] { DepthsWithin(items[1..], n); }
  }

  lemma {:induction false} Items5(items: seq<Json>)
    requires |items| == 5
    ensures SizeItems(items) == Size(items[0]) + Size(items[1]) + Size(items[2]) + Size(items[3]) + Size(items[4])
    ensures |PrintItems(items)| == |Print(items[0])| + |Print(items[1])| + |Print(items[2])| + |Print(items[3])| + |Print(items[4])| + 5
  {
    hide Size, Print, PrintItems;
    ItemsPrint(items);
    var more := items[1..];
    Items3(more[1..]);
    assert more[1..][0] == items[2] && more[1..][1] == items[3] && more[1..][2] == items[4];
    assert SizeItems(more) == Size(items[1]) + SizeItems(more[1..]);
    assert ItemsLength(more) == |Print(items[1])| + 1 + ItemsLength(more[1..]);
  }

  // A document written as rows is read like the one written as objects, in fewer bytes.
  lemma {:induction false} RowsAreDocuments(d: Document)
    requires Printable(d.inputs) && ValidDocument(d) && InputsFit(d.inputs) && RowsText(d) <= LIMITS.maxBytes
    ensures ParseSchedule(Print(DocumentRow(d))) == Some(d)
  {
    DocumentRowFits(d);
    hide Print, Depth, Size, Printable, ValidDocument, RowsText, JsonReader.Parse, Fits, StepRows, IdentityRow;
    ParsePrint(DocumentRow(d), LIMITS);
    IdentityRowFacts(d.identity);
    RowsAreRead(d.steps);
  }

  lemma {:induction false} DocumentRowFits(d: Document)
    requires Printable(d.inputs) && ValidDocument(d) && InputsFit(d.inputs) && RowsText(d) <= LIMITS.maxBytes
    ensures Printable(DocumentRow(d)) && Fits(DocumentRow(d), LIMITS)
  {
    hide PrintString, PrintItems, StepRows, IdentityRow, IdentityValid, StepEncodable, SizeItems, DepthItems, Unescaped;
    SchemaIsUnescaped();
    ProfileIsUnescaped();
    StringLength(SCHEMA);
    StringLength(PROFILE);
    IdentityRowFacts(d.identity);
    RowsMeasures(d.steps);
    RowsArray(d.steps);
    SizeIsShort(d.inputs);
    var items := [String(d.schema), String(d.profile), IdentityRow(d.identity), d.inputs, Array(StepRows(d.steps))];
    Items5(items);
    DepthsWithin(items, 31);
  }

  function Repeated(n: nat, s: Step): seq<Step> { seq(n, _ => s) }

  lemma {:induction false} RepeatedLengths(n: nat, s: Step)
    ensures StepsLength(Repeated(n, s)) == n * (29 + |s.actor| + |s.checkpoint|)
    ensures RowsLength(Repeated(n, s)) == n * (8 + |s.actor| + |s.checkpoint|)
  {
    if n > 0 {
      RepeatedLengths(n - 1, s);
      assert Repeated(n, s)[1..] == Repeated(n - 1, s);
    }
  }

  // The longest schedule there may be, with names of 59 characters and no inputs.
  function LongDocument(): Document {
    var digest, name := seq(64, _ => '0'), seq(59, _ => 'a');
    Document(SCHEMA, PROFILE, Identity(digest, digest, digest), Null, Repeated(MAX_STEPS, Step(name, name)))
  }

  lemma {:induction false} LongDocumentFacts()
    ensures var d := LongDocument();
            Printable(d.inputs) && ValidDocument(d) && InputsFit(d.inputs) && RowsText(d) <= LIMITS.maxBytes < TextLength(d)
  {
    var name := seq(59, _ => 'a');
    assert Identifier(name) by { assert IdentifierChar('a'); }
    RepeatedLengths(MAX_STEPS, Step(name, name));
    hide StepsLength, RowsLength, Identifier;
    assert |Print(Null)| == 4;
  }

  // Written as arrays it is read, but it cannot be encoded.
  lemma {:induction false} LongDocumentIsNotEncoded()
    ensures ParseSchedule(Print(DocumentRow(LongDocument()))) == Some(LongDocument()) && EncodeSchedule(LongDocument()).None?
  {
    LongDocumentFacts();
    hide LongDocument, ParseSchedule, EncodeSchedule, DocumentRow, ValidDocument, InputsFit, RowsText, TextLength, Print;
    RowsAreDocuments(LongDocument());
    EncodesExactly(LongDocument());
  }
}
