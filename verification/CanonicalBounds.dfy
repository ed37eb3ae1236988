// When canonicalisation succeeds: exactly within the bounds, with the form that does not depend
// on them.
module CanonicalBounds {
  import opened Wrappers
  import opened JsonText
  import opened JsonString
  import opened JsonTree
  import opened JsonAcceptance
  import opened Numbers
  import opened OrderedMap
  import opened Values
  import opened Canonical

  // Depth and node bound for values counted and nested this much.
  predicate Within(levels: nat, count: nat, depth: nat, nodes: nat) {
    depth + levels <= MAX_DEPTH + 1 && nodes + count <= MAX_NODES
  }

  lemma {:induction false} Positive(v: Value)
    ensures Count(v) >= 1 && Levels(v) >= 1
  {
  }

  // canonical_value succeeds iff the value is not nested too deep, its node count, duplicates
  // included, fits, and every map inside has keys of one kind without repetition.
  lemma {:induction false} CanonExact(v: Value, depth: nat, nodes: nat)
    ensures Canon(v, depth, nodes)
         == if Within(Levels(v), Count(v), depth, nodes) && Keyed(v) then Some((Form(v), nodes + Count(v))) else None
    decreases v, 1
  {
    hide CanonAll, CanonSet, CanonMap, CanonFields, FormAll, FormFields, Gather, Stored, KeysOk, Print;
    if depth <= MAX_DEPTH && nodes + 1 <= MAX_NODES {
      match v
      case Variant(tag, value) => CanonExact(value, depth + 1, nodes + 1);
      case Record(fields) => RecordExact(fields, depth, nodes);
      case Seq(items) => SeqExact(items, depth, nodes);
      case Tuple(items) => TupleExact(items, depth, nodes);
      case Set(items) => SetExact(items, depth, nodes);
      case Map(entries) => MapExact(entries, depth, nodes);
      case _ => {}
    } else {
      Positive(v);
    }
  }

  // What CanonExact says of one value.
  ghost predicate Exactly(v: Value, depth: nat, nodes: nat) {
    Canon(v, depth, nodes)
    == if Within(Levels(v), Count(v), depth, nodes) && Keyed(v) then Some((Form(v), nodes + Count(v))) else None
  }

  lemma {:induction false} RecordExact(fields: seq<Field>, depth: nat, nodes: nat)
    requires depth <= MAX_DEPTH && nodes + 1 <= MAX_NODES
    ensures Exactly(Record(fields), depth, nodes)
    decreases fields, 1
  {
    hide CanonFields, FormFields, CountFields, LevelsFields;
    CanonFieldsExact(fields, depth + 1, nodes + 1);
  }

  lemma {:induction false} SeqExact(items: seq<Value>, depth: nat, nodes: nat)
    requires depth <= MAX_DEPTH && nodes + 1 <= MAX_NODES
    ensures Exactly(Seq(items), depth, nodes)
    decreases items, 1
  {
    hide CanonAll, FormAll, CountAll, LevelsAll;
    CanonAllExact(items, depth + 1, nodes + 1);
  }

  lemma {:induction false} TupleExact(items: seq<Value>, depth: nat, nodes: nat)
    requires depth <= MAX_DEPTH && nodes + 1 <= MAX_NODES
    ensures Exactly(Tuple(items), depth, nodes)
    decreases items, 1
  {
    hide CanonAll, FormAll, CountAll, LevelsAll;
    CanonAllExact(items, depth + 1, nodes + 1);
  }

  lemma {:induction false} SetExact(items: seq<Value>, depth: nat, nodes: nat)
    requires depth <= MAX_DEPTH && nodes + 1 <= MAX_NODES
    ensures Exactly(Set(items), depth, nodes)
    decreases items, 1
  {
    hide Gather, Stored, Print, SetPairs, CanonSet, CountAll, LevelsAll;
    CanonSetExact(items, [], depth + 1, nodes + 1);
  }

  lemma {:induction false} MapExact(entries: seq<Pair>, depth: nat, nodes: nat)
    requires depth <= MAX_DEPTH && nodes + 1 <= MAX_NODES
    ensures Exactly(Map(entries), depth, nodes)
    decreases entries, 2
  {
    hide Gather, Stored, KeysOk, MapPairs, CanonMap, CountPairs, LevelsPairs;
    CanonMapWhole(entries, depth + 1, nodes + 1);
  }

  predicate AllKeyed(items: seq<Value>) { forall i :: 0 <= i < |items| ==> Keyed(items[i]) }

  lemma {:induction false} CanonAllExact(items: seq<Value>, depth: nat, nodes: nat)
    requires depth <= MAX_DEPTH + 1 && nodes <= MAX_NODES
    ensures CanonAll(items, depth, nodes)
         == if Within(LevelsAll(items), CountAll(items), depth, nodes) && AllKeyed(items)
            then Some((FormAll(items), nodes + CountAll(items))) else None
    decreases items, 0
  {
    hide Canon, Form, Count, Levels, Keyed;
    if items != [] {
      CanonExact(items[0], depth, nodes);
      if Canon(items[0], depth, nodes).Some? { CanonAllExact(items[1..], depth, nodes + Count(items[0])); }
      assert AllKeyed(items) <==> Keyed(items[0]) && AllKeyed(items[1..]);
    }
  }

  lemma {:induction false} CanonSetExact(items: seq<Value>, unique: Entries<Json>, depth: nat, nodes: nat)
    requires depth <= MAX_DEPTH + 1 && nodes <= MAX_NODES
    ensures CanonSet(items, unique, depth, nodes)
         == if Within(LevelsAll(items), CountAll(items), depth, nodes) && AllKeyed(items)
            then Some((Gather(unique, SetPairs(items)), nodes + CountAll(items))) else None
    decreases items, 0
  {
    hide Canon, Form, Count, Levels, Keyed, Insert, Print;
    if items != [] {
      CanonExact(items[0], depth, nodes);
      if Canon(items[0], depth, nodes).Some? {
        CanonSetExact(items[1..], Insert(unique, Print(Form(items[0])), Form(items[0])), depth, nodes + Count(items[0]));
      }
      assert AllKeyed(items) <==> Keyed(items[0]) && AllKeyed(items[1..]);
      assert SetPairs(items)[1..] == SetPairs(items[1..]);
    }
  }

  predicate AllKeyedFields(fields: seq<Field>) { forall i :: 0 <= i < |fields| ==> KeyedField(fields[i]) }

  lemma {:induction false} CanonFieldExact(f: Field, depth: nat, nodes: nat)
    ensures CanonField(f, depth, nodes)
         == if Within(LevelsField(f), CountField(f), depth, nodes) && KeyedField(f)
            then Some((FormField(f), nodes + CountField(f))) else None
    decreases f, 0
  {
    CanonExact(f.value, depth, nodes);
  }

  lemma {:induction false} CanonFieldsExact(fields: seq<Field>, depth: nat, nodes: nat)
    requires depth <= MAX_DEPTH + 1 && nodes <= MAX_NODES
    ensures CanonFields(fields, depth, nodes)
         == if Within(LevelsFields(fields), CountFields(fields), depth, nodes) && AllKeyedFields(fields)
            then Some((FormFields(fields), nodes + CountFields(fields))) else None
    decreases fields, 0
  {
    hide CanonField, FormField, CountField, LevelsField, KeyedField;
    if fields != [] {
      CanonFieldExact(fields[0], depth, nodes);
      if CanonField(fields[0], depth, nodes).Some? {
        CanonFieldsExact(fields[1..], depth, nodes + CountField(fields[0]));
      }
      assert AllKeyedFields(fields) <==> KeyedField(fields[0]) && AllKeyedFields(fields[1..]);
    }
  }

  // ------------------------------------------------------ maps

  predicate AllKeyedPairs(entries: seq<Pair>) { forall i :: 0 <= i < |entries| ==> KeyedPair(entries[i]) }

  predicate AllOf(entries: seq<Pair>, kind: Kind) {
    forall i :: 0 <= i < |entries| ==> KindOf(entries[i].key) == Some(kind)
  }

  // Every key is of the kind seen before, if any was, and of one kind anyway.
  predicate OneKind(entries: seq<Pair>, kind: Option<Kind>) {
    entries == [] || (AllOf(entries, Ints) && kind != Some(Texts)) || (AllOf(entries, Texts) && kind != Some(Ints))
  }

  lemma {:induction false} OneKindStep(entries: seq<Pair>, kind: Option<Kind>)
    requires entries != []
    ensures var actual := KindOf(entries[0].key);
      OneKind(entries, kind) <==> actual.Some? && (kind.None? || kind == actual) && OneKind(entries[1..], actual)
  {
    AllOfStep(entries, Ints);
    AllOfStep(entries, Texts);
    hide AllOf;
    assert kind.Some? ==> kind.value == Ints || kind.value == Texts;
    match KindOf(entries[0].key)
    case None => {}
    case Some(Ints) => {}
    case Some(Texts) => {}
  }

  lemma {:induction false} AllOfStep(entries: seq<Pair>, kind: Kind)
    requires entries != []
    ensures AllOf(entries, kind) <==> KindOf(entries[0].key) == Some(kind) && AllOf(entries[1..], kind)
    ensures AllOf([], kind)
  {
    assert forall i :: 0 < i < |entries| ==> entries[i] == entries[1..][i - 1];
  }

  function KeyTexts(entries: seq<Pair>): (r: seq<string>)
    ensures |r| == |entries| && forall i :: 0 <= i < |entries| ==> r[i] == Print(Form(entries[i].key))
  {
    if entries == [] then [] else [Print(Form(entries[0].key))] + KeyTexts(entries[1..])
  }

  lemma {:induction false} CanonPairExact(p: Pair, depth: nat, nodes: nat)
    ensures CanonPair(p, depth, nodes)
         == if Within(LevelsPair(p), CountPair(p), depth, nodes) && KeyedPair(p)
            then Some((Form(p.key), Form(p.value), nodes + CountPair(p))) else None
    decreases p, 0
  {
    hide Canon, Form, Count, Levels, Keyed;
    CanonExact(p.key, depth, nodes);
    if Canon(p.key, depth, nodes).Some? { CanonExact(p.value, depth, nodes + Count(p.key)); }
  }

  lemma {:induction false} CanonMapExact(entries: seq<Pair>, kind: Option<Kind>, stored: Entries<Json>, depth: nat, nodes: nat)
    requires depth <= MAX_DEPTH + 1 && nodes <= MAX_NODES
    ensures CanonMap(entries, kind, stored, depth, nodes)
         == if Within(LevelsPairs(entries), CountPairs(entries), depth, nodes) && AllKeyedPairs(entries)
               && OneKind(entries, kind) && Distinct(KeyTexts(entries)) && Fresh(stored, KeyTexts(entries))
            then Some((Gather(stored, MapPairs(entries)), nodes + CountPairs(entries))) else None
    decreases entries, 0
  {
    hide CanonPair, Form, CountPair, LevelsPair, KeyedPair, Insert, Print, OneKind, KindOf, Fresh, Distinct, Has;
    if entries != [] {
      var p, rest := entries[0], entries[1..];
      var key, item := Print(Form(p.key)), Array([Form(p.key), Form(p.value)]);
      CanonPairExact(p, depth, nodes);
      OneKindStep(entries, kind);
      FreshStep(stored, key, item, KeyTexts(rest));
      assert KeyTexts(entries) == [key] + KeyTexts(rest);
      assert AllKeyedPairs(entries) <==> KeyedPair(p) && AllKeyedPairs(rest);
      assert MapPairs(entries)[1..] == MapPairs(rest) && MapPairs(entries)[0] == (key, item);
      if CanonPair(p, depth, nodes).Some? {
        CanonMapExact(rest, KindOf(p.key), Insert(stored, key, item), depth, nodes + CountPair(p));
      }
    } else {
      EmptyKeys(stored, kind);
    }
  }

  lemma {:induction false} EmptyKeys(stored: Entries<Json>, kind: Option<Kind>)
    ensures OneKind([], kind) && Distinct(KeyTexts([])) && Fresh(stored, KeyTexts([]))
  {
  }

  // Different keys of one kind have different texts.
  lemma {:induction false} KeyTextsDiffer(a: Value, b: Value)
    requires (a.Int? && b.Int?) || (a.Str? && b.Str?)
    ensures Print(Form(a)) == Print(Form(b)) <==> a == b
  {
    hide Print;
    if Print(Form(a)) == Print(Form(b)) {
      LeafPrintable(a);
      LeafPrintable(b);
      PrintInjective(Form(a), Form(b));
      var ja, jb := Form(a).items[1], Form(b).items[1];
      assert ja == jb;
      if a.Int? {
        ParseText(a.n);
        ParseText(b.n);
      }
    }
  }

  lemma {:induction false} LeafPrintable(v: Value)
    requires v.Int? || v.Str?
    ensures Printable(Form(v))
  {
  }

  lemma {:induction false} KeysAreDistinct(entries: seq<Pair>)
    ensures KeysOk(entries) <==> OneKind(entries, None) && Distinct(KeyTexts(entries))
  {
    hide Print, Form;
    assert AllOf(entries, Ints) <==> forall i :: 0 <= i < |entries| ==> entries[i].key.Int?;
    assert AllOf(entries, Texts) <==> forall i :: 0 <= i < |entries| ==> entries[i].key.Str?;
    if OneKind(entries, None) {
      forall i, j | 0 <= i < j < |entries|
        ensures KeyTexts(entries)[i] == KeyTexts(entries)[j] <==> entries[i].key == entries[j].key
      {
        KeyTextsDiffer(entries[i].key, entries[j].key);
      }
    }
  }

  lemma {:induction false} CanonMapWhole(entries: seq<Pair>, depth: nat, nodes: nat)
    requires depth <= MAX_DEPTH + 1 && nodes <= MAX_NODES
    ensures CanonMap(entries, None, [], depth, nodes)
         == if Within(LevelsPairs(entries), CountPairs(entries), depth, nodes) && AllKeyedPairs(entries) && KeysOk(entries)
            then Some((Gather([], MapPairs(entries)), nodes + CountPairs(entries))) else None
    decreases entries, 1
  {
    hide OneKind, Distinct, KeysOk;
    CanonMapExact(entries, None, [], depth, nodes);
    KeysAreDistinct(entries);
    var none: Entries<Json> := [];
    assert Fresh(none, KeyTexts(entries));
  }
}
