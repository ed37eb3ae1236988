// What canonical keys mean: they are equal exactly for semantically equal values.
module CanonicalMeaning {
  import opened Wrappers
  import opened JsonText
  import opened JsonString
  import opened JsonTree
  import opened JsonAcceptance
  import opened Numbers
  import opened OrderedMap
  import opened Values
  import opened Canonical
  import opened CanonicalBounds

  // ------------------------------------------------------ tags

  function Tag(v: Value): string {
    match v
    case Nothing => "null"
    case Int(_) => "integer"
    case Boolean(_) => "boolean"
    case Str(_) => "string"
    case Unserializable(_) => "unserializable"
    case Variant(_, _) => "variant"
    case Record(_) => "record"
    case Seq(_) => "sequence"
    case Tuple(_) => "tuple"
    case Set(_) => "set"
    case Map(_) => "map"
  }

  predicate SameCase(v: Value, w: Value) {
    match v
    case Nothing => w.Nothing?
    case Int(_) => w.Int?
    case Boolean(_) => w.Boolean?
    case Str(_) => w.Str?
    case Unserializable(_) => w.Unserializable?
    case Variant(_, _) => w.Variant?
    case Record(_) => w.Record?
    case Seq(_) => w.Seq?
    case Tuple(_) => w.Tuple?
    case Set(_) => w.Set?
    case Map(_) => w.Map?
  }

  lemma {:induction false} TagDecides(v: Value, w: Value)
    ensures Tag(v) == Tag(w) <==> SameCase(v, w)
  {
    assert "integer"[0] == 'i' && "boolean"[0] == 'b' && "variant"[0] == 'v';
    assert "string"[0] == 's' && "record"[0] == 'r' && "set"[0] == 's' && "map"[0] == 'm';
  }

  lemma {:induction false} FormTag(v: Value)
    ensures Form(v).Array? && |Form(v).items| > 0 && Form(v).items[0] == String(Tag(v))
  {
  }

  lemma {:induction false} OtherCases(v: Value, w: Value)
    requires !SameCase(v, w)
    ensures Form(v) != Form(w) && !Same(v, w)
  {
    TagDecides(v, w);
    FormTag(v);
    FormTag(w);
    hide Form, Tag;
  }

  // ------------------------------------------------------ forms are printable

  lemma {:induction false} FormPrintable(v: Value)
    ensures Printable(Form(v))
    decreases v, 1
  {
    match v
    case Variant(_, value) => FormPrintable(value);
    case Record(fields) => FieldsPrintable(fields);
    case Seq(items) => AllPrintable(items);
    case Tuple(items) => AllPrintable(items);
    case Set(items) =>
      SetPrintable(items);
      StoredPrintable(SetPairs(items));
    case Map(entries) =>
      MapPrintable(entries);
      StoredPrintable(MapPairs(entries));
    case _ => {}
  }

  lemma {:induction false} AllPrintable(items: seq<Value>)
    ensures |FormAll(items)| == |items| && forall i :: 0 <= i < |items| ==> FormAll(items)[i] == Form(items[i])
    ensures forall i :: 0 <= i < |items| ==> Printable(FormAll(items)[i])
    decreases items, 0
  {
    hide Form, Printable;
    if items != [] {
      FormPrintable(items[0]);
      AllPrintable(items[1..]);
    }
  }

  lemma {:induction false} FieldPrintable(f: Field)
    ensures Printable(FormField(f))
    decreases f, 0
  {
    FormPrintable(f.value);
  }

  lemma {:induction false} FieldsPrintable(fields: seq<Field>)
    ensures |FormFields(fields)| == |fields| && forall i :: 0 <= i < |fields| ==> FormFields(fields)[i] == FormField(fields[i])
    ensures forall i :: 0 <= i < |fields| ==> Printable(FormFields(fields)[i])
    decreases fields, 0
  {
    hide FormField, Printable;
    if fields != [] {
      FieldPrintable(fields[0]);
      FieldsPrintable(fields[1..]);
    }
  }

  lemma {:induction false} SetPrintable(items: seq<Value>)
    ensures var ps := SetPairs(items);
      && |ps| == |items|
      && forall i :: 0 <= i < |items| ==> ps[i] == (Print(Form(items[i])), Form(items[i])) && Printable(ps[i].1)
    decreases items, 0
  {
    hide Form, Printable, Print;
    if items != [] {
      FormPrintable(items[0]);
      SetPrintable(items[1..]);
    }
  }

  lemma {:induction false} PairPrintable(p: Pair)
    ensures Printable(MapPair(p).1) && Printable(Form(p.key)) && Printable(Form(p.value))
    decreases p, 0
  {
    FormPrintable(p.key);
    FormPrintable(p.value);
  }

  lemma {:induction false} MapPrintable(entries: seq<Pair>)
    ensures var ps := MapPairs(entries);
      && |ps| == |entries| && forall i :: 0 <= i < |entries| ==> ps[i] == MapPair(entries[i]) && Printable(ps[i].1)
    decreases entries, 0
  {
    hide MapPair, Printable;
    if entries != [] {
      PairPrintable(entries[0]);
      MapPrintable(entries[1..]);
    }
  }

  // Everything that Gather stores was in the list.
  lemma {:induction false} GatherFrom(m: Entries<Json>, pairs: Entries<Json>, e: (string, Json))
    requires Sorted(m) && e in Gather(m, pairs)
    ensures e in m || e in pairs
    decreases |pairs|
  {
    hide Sorted, Insert;
    if pairs != [] {
      var p := pairs[0];
      InsertSorted(m, p.0, p.1);
      GatherFrom(Insert(m, p.0, p.1), pairs[1..], e);
      InsertEntry(m, p.0, p.1, e);
      assert p in pairs && p == (p.0, p.1);
    }
  }

  lemma {:induction false} StoredPrintable(pairs: Entries<Json>)
    requires forall i :: 0 <= i < |pairs| ==> Printable(pairs[i].1)
    ensures forall i :: 0 <= i < |Stored(Gather([], pairs))| ==> Printable(Stored(Gather([], pairs))[i])
  {
    hide Printable, Gather;
    var m := Gather([], pairs);
    forall i | 0 <= i < |m| ensures Printable(m[i].1) {
      assert m[i] in m;
      GatherFrom([], pairs, m[i]);
    }
  }

  // ------------------------------------------------------ sets and maps

  // Every key is determined by its value.
  ghost predicate KeyedBy(m: Entries<Json>, key: Json -> string) {
    forall i :: 0 <= i < |m| ==> m[i].0 == key(m[i].1)
  }

  // Then the values alone tell the maps apart.
  lemma {:induction false} StoredDecides(m: Entries<Json>, n: Entries<Json>, key: Json -> string)
    requires KeyedBy(m, key) && KeyedBy(n, key)
    ensures Stored(m) == Stored(n) <==> m == n
  {
    if Stored(m) == Stored(n) {
      assert |m| == |n|;
      forall i | 0 <= i < |m| ensures m[i] == n[i] { assert Stored(m)[i] == Stored(n)[i]; }
    }
  }

  lemma {:induction false} GatherKeyed(pairs: Entries<Json>, key: Json -> string)
    requires KeyedBy(pairs, key)
    ensures KeyedBy(Gather([], pairs), key)
  {
    hide Gather;
    var m := Gather([], pairs);
    forall i | 0 <= i < |m| ensures m[i].0 == key(m[i].1) {
      assert m[i] in m;
      GatherFrom([], pairs, m[i]);
    }
  }

  // Every entry of the one list occurs in the other.
  ghost predicate Covers(a: Entries<Json>, b: Entries<Json>) {
    forall i :: 0 <= i < |a| ==> a[i] in b
  }

  // Two lists of such entries are stored as the same values iff they have the same entries.
  lemma {:induction false} StoredEqual(a: Entries<Json>, b: Entries<Json>, key: Json -> string)
    requires Functional(a) && Functional(b) && KeyedBy(a, key) && KeyedBy(b, key)
    ensures Stored(Gather([], a)) == Stored(Gather([], b)) <==> Covers(a, b) && Covers(b, a)
  {
    hide Gather, Functional, Stored, KeyedBy, Covers;
    GatherKeyed(a, key);
    GatherKeyed(b, key);
    StoredDecides(Gather([], a), Gather([], b), key);
    GatherEqual(a, b);
    SameEntries(a, b);
  }

  lemma {:induction false} SameEntries(a: Entries<Json>, b: Entries<Json>)
    ensures (forall e :: e in a <==> e in b) <==> Covers(a, b) && Covers(b, a)
  {
    if forall e :: e in a <==> e in b {
      assert forall i :: 0 <= i < |a| ==> a[i] in a;
      assert forall i :: 0 <= i < |b| ==> b[i] in b;
    }
  }

  lemma {:induction false} SetFunctional(items: seq<Value>)
    ensures Functional(SetPairs(items))
    ensures KeyedBy(SetPairs(items), Print)
  {
    hide Print, Form, Printable;
    SetPrintable(items);
    var ps := SetPairs(items);
    forall i | 0 <= i < |ps| ensures ps[i].0 == Print(ps[i].1) && Printable(ps[i].1) {
      assert ps[i] == (Print(Form(items[i])), Form(items[i]));
    }
    forall i, j | 0 <= i < |ps| && 0 <= j < |ps| && ps[i].0 == ps[j].0 ensures ps[i] == ps[j] {
      PrintInjective(ps[i].1, ps[j].1);
      assert ps[i] == (ps[i].0, ps[i].1) && ps[j] == (ps[j].0, ps[j].1);
    }
  }

  function EntryKey(j: Json): string {
    if j.Array? && |j.items| == 2 then Print(j.items[0]) else ""
  }

  lemma {:induction false} MapFunctional(entries: seq<Pair>)
    requires KeysOk(entries)
    ensures Functional(MapPairs(entries))
    ensures KeyedBy(MapPairs(entries), EntryKey)
  {
    hide Print, Form, Printable, KeysOk;
    MapPrintable(entries);
    KeysAreDistinct(entries);
    var ps := MapPairs(entries);
    forall i | 0 <= i < |ps| ensures ps[i].0 == KeyTexts(entries)[i] && ps[i].0 == EntryKey(ps[i].1) {
      assert ps[i] == MapPair(entries[i]);
    }
  }

  // ------------------------------------------------------ forms decide semantic equality

  lemma {:induction false} FormSame(v: Value, w: Value)
    requires Keyed(v) && Keyed(w)
    ensures Form(v) == Form(w) <==> Same(v, w)
    decreases v, 1
  {
    hide Gather, Stored, SetPairs, MapPairs, FormAll, FormFields, Print, IntText, SetSame, MapSame;
    if !SameCase(v, w) {
      OtherCases(v, w);
    } else {
      match v
      case Int(n) =>
        ParseText(n);
        ParseText(w.n);
      case Variant(_, value) => FormSame(value, w.value);
      case Record(fields) => FieldsSame(fields, w.fields);
      case Seq(items) => ItemsSame(items, w.items);
      case Tuple(items) => ItemsSame(items, w.items);
      case Set(items) => SetsSame(items, w.items);
      case Map(entries) => MapsSame(entries, w.entries);
      case _ => {}
    }
  }

  lemma {:induction false} ItemsSame(a: seq<Value>, b: seq<Value>)
    requires AllKeyed(a) && AllKeyed(b)
    ensures FormAll(a) == FormAll(b) <==> |a| == |b| && forall i :: 0 <= i < |a| ==> Same(a[i], b[i])
    decreases a, 0
  {
    hide Form, Same, FormAll, Printable, Keyed;
    AllPrintable(a);
    AllPrintable(b);
    if |a| == |b| {
      forall i | 0 <= i < |a| ensures FormAll(a)[i] == FormAll(b)[i] <==> Same(a[i], b[i]) { FormSame(a[i], b[i]); }
    }
  }

  lemma {:induction false} FieldSame(f: Field, g: Field)
    requires KeyedField(f) && KeyedField(g)
    ensures FormField(f) == FormField(g) <==> SameField(f, g)
    decreases f, 0
  {
    FormSame(f.value, g.value);
  }

  lemma {:induction false} FieldsSame(a: seq<Field>, b: seq<Field>)
    requires AllKeyedFields(a) && AllKeyedFields(b)
    ensures FormFields(a) == FormFields(b) <==> |a| == |b| && forall i :: 0 <= i < |a| ==> SameField(a[i], b[i])
    decreases a, 0
  {
    hide FormField, SameField, FormFields, Printable, KeyedField;
    FieldsPrintable(a);
    FieldsPrintable(b);
    if |a| == |b| {
      forall i | 0 <= i < |a| ensures FormFields(a)[i] == FormFields(b)[i] <==> SameField(a[i], b[i]) {
        FieldSame(a[i], b[i]);
      }
    }
  }

  lemma {:induction false} SetsSame(a: seq<Value>, b: seq<Value>)
    requires AllKeyed(a) && AllKeyed(b)
    ensures Stored(Gather([], SetPairs(a))) == Stored(Gather([], SetPairs(b))) <==> SetSame(a, b)
    decreases a, 0
  {
    hide Form, Same, Print, Printable, Keyed, Gather, Functional, Stored, KeyedBy, SetPairs, Among, AmongBack;
    SetFunctional(a);
    SetFunctional(b);
    SetPrintable(a);
    SetPrintable(b);
    StoredEqual(SetPairs(a), SetPairs(b), Print);
    forall i, j | 0 <= i < |a| && 0 <= j < |b| ensures Form(a[i]) == Form(b[j]) <==> Same(a[i], b[j]) {
      FormSame(a[i], b[j]);
    }
    forall i | 0 <= i < |a| ensures SetPairs(a)[i] in SetPairs(b) <==> Among(a[i], b) { FoundAmong(a[i], b); }
    forall j | 0 <= j < |b| ensures SetPairs(b)[j] in SetPairs(a) <==> AmongBack(a, b[j]) { FoundBack(a, b[j]); }
  }

  lemma {:induction false} FoundAmong(v: Value, b: seq<Value>)
    requires forall j :: 0 <= j < |b| ==> (Form(v) == Form(b[j]) <==> Same(v, b[j]))
    ensures (Print(Form(v)), Form(v)) in SetPairs(b) <==> Among(v, b)
  {
    hide Form, Same, Print, Printable, SetPairs;
    SetPrintable(b);
    var q := SetPairs(b);
    assert forall j :: 0 <= j < |b| ==> q[j] == (Print(Form(b[j])), Form(b[j]));
    if Among(v, b) {
      var j :| 0 <= j < |b| && Same(v, b[j]);
      assert q[j] in q;
    }
  }

  lemma {:induction false} FoundBack(a: seq<Value>, w: Value)
    requires forall i :: 0 <= i < |a| ==> (Form(a[i]) == Form(w) <==> Same(a[i], w))
    ensures (Print(Form(w)), Form(w)) in SetPairs(a) <==> AmongBack(a, w)
  {
    hide Form, Same, Print, Printable, SetPairs;
    SetPrintable(a);
    var p := SetPairs(a);
    assert forall i :: 0 <= i < |a| ==> p[i] == (Print(Form(a[i])), Form(a[i]));
    if AmongBack(a, w) {
      var i :| 0 <= i < |a| && Same(a[i], w);
      assert p[i] in p;
    }
  }

  lemma {:induction false} EntrySame(p: Pair, q: Pair)
    requires KeyedPair(p) && KeyedPair(q)
    ensures MapPair(p) == MapPair(q) <==> SamePair(p, q)
    decreases p, 0
  {
    hide Form, Same, Keyed, Print;
    FormSame(p.key, q.key);
    FormSame(p.value, q.value);
  }

  lemma {:induction false} MapsSame(a: seq<Pair>, b: seq<Pair>)
    requires KeysOk(a) && KeysOk(b) && AllKeyedPairs(a) && AllKeyedPairs(b)
    ensures Stored(Gather([], MapPairs(a))) == Stored(Gather([], MapPairs(b))) <==> MapSame(a, b)
    decreases a, 0
  {
    hide MapPair, SamePair, Printable, KeyedPair, Gather, Functional, Stored, KeysOk, EntryKey, KeyedBy, MapPairs, PairAmong,
         PairAmongBack;
    MapFunctional(a);
    MapFunctional(b);
    MapPrintable(a);
    MapPrintable(b);
    StoredEqual(MapPairs(a), MapPairs(b), EntryKey);
    forall i, j | 0 <= i < |a| && 0 <= j < |b| ensures MapPair(a[i]) == MapPair(b[j]) <==> SamePair(a[i], b[j]) {
      EntrySame(a[i], b[j]);
    }
    forall i | 0 <= i < |a| ensures MapPairs(a)[i] in MapPairs(b) <==> PairAmong(a[i], b) { PairFoundAmong(a[i], b); }
    forall j | 0 <= j < |b| ensures MapPairs(b)[j] in MapPairs(a) <==> PairAmongBack(a, b[j]) { PairFoundBack(a, b[j]); }
  }

  lemma {:induction false} PairFoundAmong(p: Pair, b: seq<Pair>)
    requires forall j :: 0 <= j < |b| ==> (MapPair(p) == MapPair(b[j]) <==> SamePair(p, b[j]))
    ensures MapPair(p) in MapPairs(b) <==> PairAmong(p, b)
  {
    hide MapPair, SamePair, Printable, MapPairs;
    MapPrintable(b);
    var q := MapPairs(b);
    assert forall j :: 0 <= j < |b| ==> q[j] == MapPair(b[j]);
    if PairAmong(p, b) {
      var j :| 0 <= j < |b| && SamePair(p, b[j]);
      assert q[j] in q;
    }
  }

  lemma {:induction false} PairFoundBack(a: seq<Pair>, q: Pair)
    requires forall i :: 0 <= i < |a| ==> (MapPair(a[i]) == MapPair(q) <==> SamePair(a[i], q))
    ensures MapPair(q) in MapPairs(a) <==> PairAmongBack(a, q)
  {
    hide MapPair, SamePair, Printable, MapPairs;
    MapPrintable(a);
    var p := MapPairs(a);
    assert forall i :: 0 <= i < |a| ==> p[i] == MapPair(a[i]);
    if PairAmongBack(a, q) {
      var i :| 0 <= i < |a| && SamePair(a[i], q);
      assert p[i] in p;
    }
  }

  // ------------------------------------------------------ main results

  // Two values that have canonical forms have the same one, and the same text of it, iff they
  // are equal up to set order and repetition and map order; depth and node counters play no part.
  lemma {:induction false} FormsDecide(v: Value, w: Value, depth: nat, nodes: nat, depth2: nat, nodes2: nat)
    requires Canon(v, depth, nodes).Some? && Canon(w, depth2, nodes2).Some?
    ensures var a, b := Canon(v, depth, nodes).value.0, Canon(w, depth2, nodes2).value.0;
      (a == b <==> Same(v, w)) && (Print(a) == Print(b) <==> Same(v, w))
  {
    hide Canon, Form, Same, Print, Printable, Keyed;
    CanonExact(v, depth, nodes);
    CanonExact(w, depth2, nodes2);
    FormSame(v, w);
    FormPrintable(v);
    FormPrintable(w);
    if Print(Form(v)) == Print(Form(w)) { PrintInjective(Form(v), Form(w)); }
  }

  // canonical_state is a coverage key: equal keys are equal states.
  lemma {:induction false} StateKeysDecide(s: seq<Field>, t: seq<Field>)
    requires CanonState(s).Some? && CanonState(t).Some?
    ensures CanonState(s) == CanonState(t) <==> |s| == |t| && forall i :: 0 <= i < |s| ==> SameField(s[i], t[i])
  {
    hide CanonFields, FormFields, SameField, Print, Printable, KeyedField, LevelsFields, CountFields;
    CanonFieldsExact(s, 0, 0);
    CanonFieldsExact(t, 0, 0);
    FieldsSame(s, t);
    StatePrintable(s);
    StatePrintable(t);
    var a, b := StateForm(s), StateForm(t);
    if Print(a) == Print(b) {
      PrintInjective(a, b);
      assert a.items[1].items == b.items[1].items;
    }
  }

  function StateForm(s: seq<Field>): Json { Array([String("mirrors.canonical-state/v1"), Array(FormFields(s))]) }

  lemma {:induction false} StatePrintable(s: seq<Field>)
    ensures Printable(StateForm(s))
  {
    FieldsPrintable(s);
    hide FormFields;
  }

  // ------------------------------------------------------ repetition

  lemma {:induction false} SetMeasures(a: seq<Value>)
    ensures Count(Set(a)) == 1 + CountAll(a) && Levels(Set(a)) == 1 + LevelsAll(a) && (Keyed(Set(a)) <==> AllKeyed(a))
    ensures Form(Set(a)) == Tagged("set", Array(Stored(Gather([], SetPairs(a)))))
  {
  }

  lemma {:induction false} CountCopies(n: nat)
    ensures CountAll(seq(n, _ => Nothing)) == n
    decreases n
  {
    if n > 0 {
      CountCopies(n - 1);
      assert seq(n, _ => Nothing)[1..] == seq(n - 1, _ => Nothing);
    }
  }

  lemma {:induction false} CopiesAreOne(n: nat)
    requires n > 0
    ensures Same(Set(seq(n, _ => Nothing)), Set([Nothing]))
  {
    var items, one := seq(n, _ => Nothing), [Nothing];
    forall i | 0 <= i < |items| ensures Among(items[i], one) { assert Same(items[i], one[0]); }
    assert Same(items[0], one[0]);
    assert AmongBack(items, one[0]);
  }

  // Repeated elements count: a set of 65536 nulls or more is refused although it equals the
  // set of one.
  lemma {:induction false} RepetitionCounts(n: nat)
    requires n >= MAX_NODES
    ensures Same(Set(seq(n, _ => Nothing)), Set([Nothing]))
    ensures Canon(Set(seq(n, _ => Nothing)), 0, 0).None? && Canon(Set([Nothing]), 0, 0).Some?
  {
    hide Canon, Form, Gather, Same;
    var items, one := seq(n, _ => Nothing), [Nothing];
    CopiesAreOne(n);
    CountCopies(n);
    SetMeasures(items);
    CanonExact(Set(items), 0, 0);
    assert one[1..] == [];
    CanonExact(Set(one), 0, 0);
  }
}
