// The canonical form of values and states, used as a coverage key
// (src/schedule_exploration.rs:57-133).
module Canonical {
  import opened Wrappers
  import opened JsonTree
  import opened Numbers
  import opened OrderedMap
  import opened Values

  const MAX_DEPTH := 32
  const MAX_NODES := 65536
  const MAX_BYTES := 1048576

  function Tagged(tag: string, j: Json): Json { Array([String(tag), j]) }

  datatype Kind = Ints | Texts

  function KindOf(key: Value): Option<Kind> {
    match key
    case Int(_) => Some(Ints)
    case Str(_) => Some(Texts)
    case _ => None
  }

  // canonical_value: the form and the node counter after it; None is an error.
  function Canon(v: Value, depth: nat, nodes: nat): Option<(Json, nat)>
    decreases v, 1
  {
    var n := nodes + 1;
    if depth > MAX_DEPTH || n > MAX_NODES then None
    else match v
      case Nothing => Some((Array([String("null")]), n))
      case Int(i) => Some((Tagged("integer", String(IntText(i))), n))
      case Boolean(b) => Some((Tagged("boolean", Bool(b)), n))
      case Str(s) => Some((Tagged("string", String(s)), n))
      case Unserializable(s) => Some((Tagged("unserializable", String(s)), n))
      case Variant(tag, value) =>
        var c := Canon(value, depth + 1, n);
        if c.None? then None else Some((Array([String("variant"), String(tag), c.value.0]), c.value.1))
      case Record(fields) =>
        var c := CanonFields(fields, depth + 1, n);
        if c.None? then None else Some((Tagged("record", Array(c.value.0)), c.value.1))
      case Seq(items) =>
        var c := CanonAll(items, depth + 1, n);
        if c.None? then None else Some((Tagged("sequence", Array(c.value.0)), c.value.1))
      case Tuple(items) =>
        var c := CanonAll(items, depth + 1, n);
        if c.None? then None else Some((Tagged("tuple", Array(c.value.0)), c.value.1))
      case Set(items) =>
        var c := CanonSet(items, [], depth + 1, n);
        if c.None? then None else Some((Tagged("set", Array(Stored(c.value.0))), c.value.1))
      case Map(entries) =>
        var c := CanonMap(entries, None, [], depth + 1, n);
        if c.None? then None else Some((Tagged("map", Array(Stored(c.value.0))), c.value.1))
  }

  // BTreeMap::into_values
  function Stored(m: Entries<Json>): (r: seq<Json>)
    ensures |r| == |m| && forall i :: 0 <= i < |m| ==> r[i] == m[i].1
  {
    seq(|m|, i requires 0 <= i < |m| => m[i].1)
  }

  function CanonAll(items: seq<Value>, depth: nat, nodes: nat): Option<(seq<Json>, nat)>
    decreases items, 0
  {
    if items == [] then Some(([], nodes))
    else
      var c := Canon(items[0], depth, nodes);
      if c.None? then None
      else
        var rest := CanonAll(items[1..], depth, c.value.1);
        if rest.None? then None else Some(([c.value.0] + rest.value.0, rest.value.1))
  }

  function CanonField(f: Field, depth: nat, nodes: nat): Option<(Json, nat)>
    decreases f, 0
  {
    var c := Canon(f.value, depth, nodes);
    if c.None? then None else Some((Array([String(f.name), c.value.0]), c.value.1))
  }

  function CanonFields(fields: seq<Field>, depth: nat, nodes: nat): Option<(seq<Json>, nat)>
    decreases fields, 0
  {
    if fields == [] then Some(([], nodes))
    else
      var c := CanonField(fields[0], depth, nodes);
      if c.None? then None
      else
        var rest := CanonFields(fields[1..], depth, c.value.1);
        if rest.None? then None else Some(([c.value.0] + rest.value.0, rest.value.1))
  }

  // The elements of a set, stored under their texts.
  function CanonSet(items: seq<Value>, unique: Entries<Json>, depth: nat, nodes: nat): Option<(Entries<Json>, nat)>
    decreases items, 0
  {
    if items == [] then Some((unique, nodes))
    else
      var c := Canon(items[0], depth, nodes);
      if c.None? then None
      else CanonSet(items[1..], Insert(unique, Print(c.value.0), c.value.0), depth, c.value.1)
  }

  // Key and value of one map entry.
  function CanonPair(p: Pair, depth: nat, nodes: nat): Option<(Json, Json, nat)>
    decreases p, 0
  {
    var k := Canon(p.key, depth, nodes);
    if k.None? then None
    else
      var v := Canon(p.value, depth, k.value.1);
      if v.None? then None else Some((k.value.0, v.value.0, v.value.1))
  }

  // The entries of a map, stored under the texts of their keys.
  function CanonMap(entries: seq<Pair>, kind: Option<Kind>, stored: Entries<Json>, depth: nat, nodes: nat)
    : Option<(Entries<Json>, nat)>
    decreases entries, 0
  {
    if entries == [] then Some((stored, nodes))
    else
      var actual := KindOf(entries[0].key);
      if actual.None? || (kind.Some? && kind != actual) then None
      else
        var c := CanonPair(entries[0], depth, nodes);
        if c.None? || Has(stored, Print(c.value.0)) then None
        else CanonMap(entries[1..], actual,
                      Insert(stored, Print(c.value.0), Array([c.value.0, c.value.1])), depth, c.value.2)
  }

  // canonical_state
  function CanonState(state: seq<Field>): Option<string> {
    var c := CanonFields(state, 0, 0);
    if c.None? then None
    else
      var text := Print(Array([String("mirrors.canonical-state/v1"), Array(c.value.0)]));
      if |text| > MAX_BYTES then None else Some(text)
  }

  // ------------------------------------------------------ the form without the bounds

  function Form(v: Value): Json
    decreases v, 1
  {
    match v
    case Nothing => Array([String("null")])
    case Int(i) => Tagged("integer", String(IntText(i)))
    case Boolean(b) => Tagged("boolean", Bool(b))
    case Str(s) => Tagged("string", String(s))
    case Unserializable(s) => Tagged("unserializable", String(s))
    case Variant(tag, value) => Array([String("variant"), String(tag), Form(value)])
    case Record(fields) => Tagged("record", Array(FormFields(fields)))
    case Seq(items) => Tagged("sequence", Array(FormAll(items)))
    case Tuple(items) => Tagged("tuple", Array(FormAll(items)))
    case Set(items) => Tagged("set", Array(Stored(Gather([], SetPairs(items)))))
    case Map(entries) => Tagged("map", Array(Stored(Gather([], MapPairs(entries)))))
  }

  function FormAll(items: seq<Value>): seq<Json>
    decreases items, 0
  {
    if items == [] then [] else [Form(items[0])] + FormAll(items[1..])
  }

  function FormField(f: Field): Json
    decreases f, 0
  {
    Array([String(f.name), Form(f.value)])
  }

  function FormFields(fields: seq<Field>): seq<Json>
    decreases fields, 0
  {
    if fields == [] then [] else [FormField(fields[0])] + FormFields(fields[1..])
  }

  function SetPairs(items: seq<Value>): Entries<Json>
    decreases items, 0
  {
    if items == [] then [] else [(Print(Form(items[0])), Form(items[0]))] + SetPairs(items[1..])
  }

  function MapPair(p: Pair): (string, Json)
    decreases p, 0
  {
    (Print(Form(p.key)), Array([Form(p.key), Form(p.value)]))
  }

  function MapPairs(entries: seq<Pair>): Entries<Json>
    decreases entries, 0
  {
    if entries == [] then [] else [MapPair(entries[0])] + MapPairs(entries[1..])
  }

  // ------------------------------------------------------ what makes it fail

  // How many values there are inside, duplicates included, and in how many levels.
  function Count(v: Value): nat
    decreases v, 1
  {
    match v
    case Variant(_, value) => 1 + Count(value)
    case Record(fields) => 1 + CountFields(fields)
    case Seq(items) => 1 + CountAll(items)
    case Tuple(items) => 1 + CountAll(items)
    case Set(items) => 1 + CountAll(items)
    case Map(entries) => 1 + CountPairs(entries)
    case _ => 1
  }

  function CountAll(items: seq<Value>): nat
    decreases items, 0
  {
    if items == [] then 0 else Count(items[0]) + CountAll(items[1..])
  }

  function CountField(f: Field): nat
    decreases f, 0
  {
    Count(f.value)
  }

  function CountFields(fields: seq<Field>): nat
    decreases fields, 0
  {
    if fields == [] then 0 else CountField(fields[0]) + CountFields(fields[1..])
  }

  function CountPair(p: Pair): nat
    decreases p, 0
  {
    Count(p.key) + Count(p.value)
  }

  function CountPairs(entries: seq<Pair>): nat
    decreases entries, 0
  {
    if entries == [] then 0 else CountPair(entries[0]) + CountPairs(entries[1..])
  }

  function Max(a: nat, b: nat): nat { if a < b then b else a }

  function Levels(v: Value): nat
    decreases v, 1
  {
    match v
    case Variant(_, value) => 1 + Levels(value)
    case Record(fields) => 1 + LevelsFields(fields)
    case Seq(items) => 1 + LevelsAll(items)
    case Tuple(items) => 1 + LevelsAll(items)
    case Set(items) => 1 + LevelsAll(items)
    case Map(entries) => 1 + LevelsPairs(entries)
    case _ => 1
  }

  function LevelsAll(items: seq<Value>): nat
    decreases items, 0
  {
    if items == [] then 0 else Max(Levels(items[0]), LevelsAll(items[1..]))
  }

  function LevelsField(f: Field): nat
    decreases f, 0
  {
    Levels(f.value)
  }

  function LevelsFields(fields: seq<Field>): nat
    decreases fields, 0
  {
    if fields == [] then 0 else Max(LevelsField(fields[0]), LevelsFields(fields[1..]))
  }

  function LevelsPair(p: Pair): nat
    decreases p, 0
  {
    Max(Levels(p.key), Levels(p.value))
  }

  function LevelsPairs(entries: seq<Pair>): nat
    decreases entries, 0
  {
    if entries == [] then 0 else Max(LevelsPair(entries[0]), LevelsPairs(entries[1..]))
  }

  // The keys of a map are all integers or all strings, and different.
  predicate KeysOk(entries: seq<Pair>) {
    && ((forall i :: 0 <= i < |entries| ==> entries[i].key.Int?) || (forall i :: 0 <= i < |entries| ==> entries[i].key.Str?))
    && forall i, j :: 0 <= i < j < |entries| ==> entries[i].key != entries[j].key
  }

  // Every map inside has such keys.
  predicate Keyed(v: Value)
    decreases v
  {
    match v
    case Variant(_, value) => Keyed(value)
    case Record(fields) => forall i :: 0 <= i < |fields| ==> KeyedField(fields[i])
    case Seq(items) => forall i :: 0 <= i < |items| ==> Keyed(items[i])
    case Tuple(items) => forall i :: 0 <= i < |items| ==> Keyed(items[i])
    case Set(items) => forall i :: 0 <= i < |items| ==> Keyed(items[i])
    case Map(entries) => KeysOk(entries) && forall i :: 0 <= i < |entries| ==> KeyedPair(entries[i])
    case _ => true
  }

  predicate KeyedField(f: Field)
    decreases f
  {
    Keyed(f.value)
  }

  predicate KeyedPair(p: Pair)
    decreases p
  {
    Keyed(p.key) && Keyed(p.value)
  }

  // ------------------------------------------------------ semantic equality

  // Equality up to the order and repetition of set elements and the order of map entries.
  predicate Same(v: Value, w: Value)
    decreases v, 3
  {
    match (v, w)
    case (Variant(a, x), Variant(b, y)) => a == b && Same(x, y)
    case (Record(a), Record(b)) => |a| == |b| && forall i :: 0 <= i < |a| ==> SameField(a[i], b[i])
    case (Seq(a), Seq(b)) => |a| == |b| && forall i :: 0 <= i < |a| ==> Same(a[i], b[i])
    case (Tuple(a), Tuple(b)) => |a| == |b| && forall i :: 0 <= i < |a| ==> Same(a[i], b[i])
    case (Set(a), Set(b)) => SetSame(a, b)
    case (Map(a), Map(b)) => MapSame(a, b)
    case _ => v == w
  }

  predicate SameField(f: Field, g: Field)
    decreases f, 0
  {
    f.name == g.name && Same(f.value, g.value)
  }

  predicate SamePair(p: Pair, q: Pair)
    decreases p, 0
  {
    Same(p.key, q.key) && Same(p.value, q.value)
  }

  // Each element of either set has an equal one in the other.
  predicate SetSame(a: seq<Value>, b: seq<Value>)
    decreases a, 2
  {
    (forall i :: 0 <= i < |a| ==> Among(a[i], b)) && (forall j :: 0 <= j < |b| ==> AmongBack(a, b[j]))
  }

  predicate Among(v: Value, b: seq<Value>)
    decreases v, 4
  {
    exists j :: 0 <= j < |b| && Same(v, b[j])
  }

  predicate AmongBack(a: seq<Value>, w: Value)
    decreases a, 1
  {
    exists i :: 0 <= i < |a| && Same(a[i], w)
  }

  predicate MapSame(a: seq<Pair>, b: seq<Pair>)
    decreases a, 2
  {
    (forall i :: 0 <= i < |a| ==> PairAmong(a[i], b)) && (forall j :: 0 <= j < |b| ==> PairAmongBack(a, b[j]))
  }

  predicate PairAmong(p: Pair, b: seq<Pair>)
    decreases p, 4
  {
    exists j :: 0 <= j < |b| && SamePair(p, b[j])
  }

  predicate PairAmongBack(a: seq<Pair>, q: Pair)
    decreases a, 1
  {
    exists i :: 0 <= i < |a| && SamePair(a[i], q)
  }
}
