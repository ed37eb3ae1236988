// Canonical forms do not depend on the order of set elements and map entries,
// at any level of a value: permuting them changes neither success nor result.
module CanonicalOrder {
  import opened Wrappers
  import opened JsonTree
  import opened OrderedMap
  import opened Values
  import opened Canonical
  import opened CanonicalBounds
  import opened CanonicalMeaning

  function Without<T>(s: seq<T>, j: nat): seq<T>
    requires j < |s|
  {
    s[..j] + s[j + 1..]
  }

  // The same value but for the order of set elements and map entries inside it.
  predicate Permuted(v: Value, w: Value)
    decreases v, 2
  {
    match (v, w)
    case (Variant(a, x), Variant(b, y)) => a == b && Permuted(x, y)
    case (Record(a), Record(b)) => FieldsPermuted(a, b)
    case (Seq(a), Seq(b)) => ItemsPermuted(a, b)
    case (Tuple(a), Tuple(b)) => ItemsPermuted(a, b)
    case (Set(a), Set(b)) => SetPermuted(a, b)
    case (Map(a), Map(b)) => MapPermuted(a, b)
    case _ => v == w
  }

  predicate ItemsPermuted(a: seq<Value>, b: seq<Value>)
    decreases a, 1
  {
    if a == [] then b == [] else b != [] && Permuted(a[0], b[0]) && ItemsPermuted(a[1..], b[1..])
  }

  predicate FieldPermuted(f: Field, g: Field)
    decreases f, 0
  {
    f.name == g.name && Permuted(f.value, g.value)
  }

  predicate FieldsPermuted(a: seq<Field>, b: seq<Field>)
    decreases a, 1
  {
    if a == [] then b == [] else b != [] && FieldPermuted(a[0], b[0]) && FieldsPermuted(a[1..], b[1..])
  }

  // Each element goes to some place of its own.
  predicate SetPermuted(a: seq<Value>, b: seq<Value>)
    decreases a, 1
  {
    if a == [] then b == []
    else exists j :: 0 <= j < |b| && Permuted(a[0], b[j]) && SetPermuted(a[1..], Without(b, j))
  }

  predicate PairPermuted(p: Pair, q: Pair)
    decreases p, 0
  {
    Permuted(p.key, q.key) && Permuted(p.value, q.value)
  }

  predicate MapPermuted(a: seq<Pair>, b: seq<Pair>)
    decreases a, 1
  {
    if a == [] then b == []
    else exists j :: 0 <= j < |b| && PairPermuted(a[0], b[j]) && MapPermuted(a[1..], Without(b, j))
  }

  // ------------------------------------------------------ measures

  lemma {:induction false} PickItem(b: seq<Value>, j: nat)
    requires j < |b|
    ensures CountAll(b) == Count(b[j]) + CountAll(Without(b, j))
    ensures LevelsAll(b) == Max(Levels(b[j]), LevelsAll(Without(b, j)))
    decreases |b|
  {
    hide Count, Levels;
    if j > 0 {
      PickItem(b[1..], j - 1);
      assert Without(b, j) == [b[0]] + Without(b[1..], j - 1);
    } else {
      assert Without(b, 0) == b[1..];
    }
  }

  lemma {:induction false} PickPair(b: seq<Pair>, j: nat)
    requires j < |b|
    ensures CountPairs(b) == CountPair(b[j]) + CountPairs(Without(b, j))
    ensures LevelsPairs(b) == Max(LevelsPair(b[j]), LevelsPairs(Without(b, j)))
    decreases |b|
  {
    hide CountPair, LevelsPair;
    if j > 0 {
      PickPair(b[1..], j - 1);
      assert Without(b, j) == [b[0]] + Without(b[1..], j - 1);
    } else {
      assert Without(b, 0) == b[1..];
    }
  }

  lemma {:induction false} KeyedPick(b: seq<Value>, j: nat)
    requires j < |b|
    ensures AllKeyed(b) <==> Keyed(b[j]) && AllKeyed(Without(b, j))
  {
    hide Keyed;
    var rest := Without(b, j);
    assert forall i :: 0 <= i < |rest| ==> rest[i] == if i < j then b[i] else b[i + 1];
    assert forall i :: 0 <= i < |b| && i != j ==> b[i] == rest[if i < j then i else i - 1];
  }

  lemma {:induction false} KeyedPickPair(b: seq<Pair>, j: nat)
    requires j < |b|
    ensures AllKeyedPairs(b) <==> KeyedPair(b[j]) && AllKeyedPairs(Without(b, j))
  {
    hide KeyedPair;
    var rest := Without(b, j);
    assert forall i :: 0 <= i < |rest| ==> rest[i] == if i < j then b[i] else b[i + 1];
    assert forall i :: 0 <= i < |b| && i != j ==> b[i] == rest[if i < j then i else i - 1];
  }

  lemma {:induction false} AmongMore(v: Value, b: seq<Value>, j: nat)
    requires j < |b| && Among(v, Without(b, j))
    ensures Among(v, b)
  {
    hide Same;
    var rest := Without(b, j);
    var m :| 0 <= m < |rest| && Same(v, rest[m]);
    assert rest[m] == b[if m < j then m else m + 1];
  }

  lemma {:induction false} AmongBackMore(a: seq<Value>, w: Value)
    requires a != [] && AmongBack(a[1..], w)
    ensures AmongBack(a, w)
  {
    hide Same;
    var i :| 0 <= i < |a[1..]| && Same(a[1..][i], w);
    assert a[1..][i] == a[i + 1];
  }

  lemma {:induction false} SameCons(a: seq<Value>, b: seq<Value>, j: nat)
    requires a != [] && j < |b| && Same(a[0], b[j]) && SetSame(a[1..], Without(b, j))
    ensures SetSame(a, b)
  {
    hide Same, Among, AmongBack;
    var rest := Without(b, j);
    HeadAmong(a, b, j);
    forall i | 0 <= i < |a| ensures Among(a[i], b) {
      if i > 0 {
        assert a[1..][i - 1] == a[i];
        AmongMore(a[i], b, j);
      }
    }
    forall k | 0 <= k < |b| ensures AmongBack(a, b[k]) {
      if k != j {
        assert rest[if k < j then k else k - 1] == b[k];
        AmongBackMore(a, b[k]);
      }
    }
  }

  lemma {:induction false} HeadAmong(a: seq<Value>, b: seq<Value>, j: nat)
    requires a != [] && j < |b| && Same(a[0], b[j])
    ensures Among(a[0], b) && AmongBack(a, b[j])
  {
    hide Same;
  }

  lemma {:induction false} PairAmongMore(p: Pair, b: seq<Pair>, j: nat)
    requires j < |b| && PairAmong(p, Without(b, j))
    ensures PairAmong(p, b)
  {
    hide SamePair;
    var rest := Without(b, j);
    var m :| 0 <= m < |rest| && SamePair(p, rest[m]);
    assert rest[m] == b[if m < j then m else m + 1];
  }

  lemma {:induction false} PairAmongBackMore(a: seq<Pair>, q: Pair)
    requires a != [] && PairAmongBack(a[1..], q)
    ensures PairAmongBack(a, q)
  {
    hide SamePair;
    var i :| 0 <= i < |a[1..]| && SamePair(a[1..][i], q);
    assert a[1..][i] == a[i + 1];
  }

  lemma {:induction false} PairSameCons(a: seq<Pair>, b: seq<Pair>, j: nat)
    requires a != [] && j < |b| && SamePair(a[0], b[j]) && MapSame(a[1..], Without(b, j))
    ensures MapSame(a, b)
  {
    hide SamePair, PairAmong, PairAmongBack;
    var rest := Without(b, j);
    HeadPairAmong(a, b, j);
    forall i | 0 <= i < |a| ensures PairAmong(a[i], b) {
      if i > 0 {
        assert a[1..][i - 1] == a[i];
        PairAmongMore(a[i], b, j);
      }
    }
    forall k | 0 <= k < |b| ensures PairAmongBack(a, b[k]) {
      if k != j {
        assert rest[if k < j then k else k - 1] == b[k];
        PairAmongBackMore(a, b[k]);
      }
    }
  }

  lemma {:induction false} HeadPairAmong(a: seq<Pair>, b: seq<Pair>, j: nat)
    requires a != [] && j < |b| && SamePair(a[0], b[j])
    ensures PairAmong(a[0], b) && PairAmongBack(a, b[j])
  {
    hide SamePair;
  }

  // ------------------------------------------------------ keys

  // A key, if it is of a kind that a key may have.
  function KeyImage(v: Value): Option<Value> { if v.Int? || v.Str? then Some(v) else None }

  function KeyImages(entries: seq<Pair>): (r: seq<Option<Value>>)
    ensures |r| == |entries|
  {
    seq(|entries|, i requires 0 <= i < |entries| => KeyImage(entries[i].key))
  }

  predicate ImagesOk(m: multiset<Option<Value>>) {
    && (forall x :: x in m ==> x.Some? && m[x] == 1)
    && ((forall x :: x in m && x.Some? ==> x.value.Int?) || (forall x :: x in m && x.Some? ==> x.value.Str?))
  }

  lemma {:induction false} TwiceIn<T>(s: seq<T>, i: nat, j: nat)
    requires i < j < |s| && s[i] == s[j]
    ensures multiset(s)[s[i]] >= 2
  {
    assert s == s[..i] + [s[i]] + s[i + 1..j] + [s[j]] + s[j + 1..];
  }

  lemma {:induction false} OnceIn<T>(s: seq<T>, k: nat)
    requires k < |s| && forall i :: 0 <= i < |s| && i != k ==> s[i] != s[k]
    ensures multiset(s)[s[k]] == 1
  {
    assert s == s[..k] + [s[k]] + s[k + 1..];
    assert s[k] !in s[..k] && s[k] !in s[k + 1..];
  }

  // Keys of one kind, none of them twice: a property of the multiset of keys.
  lemma {:induction false} KeysOkImages(entries: seq<Pair>)
    ensures KeysOk(entries) <==> ImagesOk(multiset(KeyImages(entries)))
  {
    hide KeysOk, ImagesOk;
    if KeysOk(entries) { ImagesOfKeys(entries); }
    if ImagesOk(multiset(KeyImages(entries))) { KeysOfImages(entries); }
  }

  lemma {:induction false} ImagesOfKeys(entries: seq<Pair>)
    requires KeysOk(entries)
    ensures ImagesOk(multiset(KeyImages(entries)))
  {
    var r := KeyImages(entries);
    forall x: Option<Value> | x in multiset(r) ensures x.Some? && multiset(r)[x] == 1 && exists i :: 0 <= i < |r| && x == KeyImage(entries[i].key) {
      var k :| 0 <= k < |r| && r[k] == x;
      OnceIn(r, k);
    }
  }

  lemma {:induction false} KeysOfImages(entries: seq<Pair>)
    requires ImagesOk(multiset(KeyImages(entries)))
    ensures KeysOk(entries)
  {
    var r := KeyImages(entries);
    assert forall i :: 0 <= i < |entries| ==> r[i] in multiset(r) && r[i] == KeyImage(entries[i].key);
    forall i, j | 0 <= i < j < |entries| ensures entries[i].key != entries[j].key {
      if r[i] == r[j] { TwiceIn(r, i, j); }
    }
  }

  lemma {:induction false} ImagesPick(b: seq<Pair>, j: nat)
    requires j < |b|
    ensures multiset(KeyImages(b)) == multiset(KeyImages(Without(b, j))) + multiset{KeyImage(b[j].key)}
  {
    var r := KeyImages(b);
    assert KeyImages(Without(b, j)) == Without(r, j);
    assert r == r[..j] + [r[j]] + r[j + 1..];
  }

  // ------------------------------------------------------ what a permutation keeps

  ghost predicate Kept(v: Value, w: Value) {
    Count(v) == Count(w) && Levels(v) == Levels(w) && (Keyed(v) <==> Keyed(w)) && Same(v, w) && KeyImage(v) == KeyImage(w)
  }

  lemma {:induction false} PermutedKept(v: Value, w: Value)
    requires Permuted(v, w)
    ensures Kept(v, w)
    decreases v, 1
  {
    hide ItemsPermuted, FieldsPermuted, SetPermuted, MapPermuted, KeysOk, SetSame, MapSame, CountAll, CountFields, CountPairs,
         LevelsAll, LevelsFields, LevelsPairs;
    match v
    case Variant(_, value) => PermutedKept(value, w.value);
    case Record(fields) => FieldsKept(fields, w.fields);
    case Seq(items) => ItemsKept(items, w.items);
    case Tuple(items) => ItemsKept(items, w.items);
    case Set(items) => SetKept(items, w.items);
    case Map(entries) => MapKept(entries, w.entries);
    case _ => {}
  }

  lemma {:induction false} ItemsKept(a: seq<Value>, b: seq<Value>)
    requires ItemsPermuted(a, b)
    ensures |a| == |b| && forall i :: 0 <= i < |a| ==> Same(a[i], b[i])
    ensures CountAll(a) == CountAll(b) && LevelsAll(a) == LevelsAll(b) && (AllKeyed(a) <==> AllKeyed(b))
    decreases a, 0
  {
    hide Permuted, Same, Count, Levels, Keyed;
    if a != [] {
      PermutedKept(a[0], b[0]);
      ItemsKept(a[1..], b[1..]);
      KeyedPick(a, 0);
      KeyedPick(b, 0);
      assert Without(a, 0) == a[1..] && Without(b, 0) == b[1..];
    }
  }

  lemma {:induction false} FieldKept(f: Field, g: Field)
    requires FieldPermuted(f, g)
    ensures SameField(f, g) && CountField(f) == CountField(g) && LevelsField(f) == LevelsField(g)
    ensures KeyedField(f) <==> KeyedField(g)
    decreases f, 0
  {
    PermutedKept(f.value, g.value);
  }

  lemma {:induction false} FieldsKept(a: seq<Field>, b: seq<Field>)
    requires FieldsPermuted(a, b)
    ensures |a| == |b| && forall i :: 0 <= i < |a| ==> SameField(a[i], b[i])
    ensures CountFields(a) == CountFields(b) && LevelsFields(a) == LevelsFields(b)
    ensures AllKeyedFields(a) <==> AllKeyedFields(b)
    decreases a, 0
  {
    hide FieldPermuted, SameField, CountField, LevelsField, KeyedField;
    if a != [] {
      FieldKept(a[0], b[0]);
      FieldsKept(a[1..], b[1..]);
      assert AllKeyedFields(a) <==> KeyedField(a[0]) && AllKeyedFields(a[1..]);
      assert AllKeyedFields(b) <==> KeyedField(b[0]) && AllKeyedFields(b[1..]);
    }
  }

  lemma {:induction false} SetKept(a: seq<Value>, b: seq<Value>)
    requires SetPermuted(a, b)
    ensures CountAll(a) == CountAll(b) && LevelsAll(a) == LevelsAll(b) && (AllKeyed(a) <==> AllKeyed(b)) && SetSame(a, b)
    decreases a, 0
  {
    hide Permuted, Same, Count, Levels, Keyed, SetSame, AllKeyed, CountAll, LevelsAll;
    if a == [] {
      EmptySets();
    } else {
      var j :| 0 <= j < |b| && Permuted(a[0], b[j]) && SetPermuted(a[1..], Without(b, j));
      PermutedKept(a[0], b[j]);
      SetKept(a[1..], Without(b, j));
      PickItem(b, j);
      PickItem(a, 0);
      KeyedPick(b, j);
      KeyedPick(a, 0);
      assert Without(a, 0) == a[1..];
      SameCons(a, b, j);
    }
  }

  lemma {:induction false} EmptySets()
    ensures SetSame([], []) && MapSame([], [])
  {
  }

  lemma {:induction false} PairKept(p: Pair, q: Pair)
    requires PairPermuted(p, q)
    ensures SamePair(p, q) && CountPair(p) == CountPair(q) && LevelsPair(p) == LevelsPair(q)
    ensures (KeyedPair(p) <==> KeyedPair(q)) && KeyImage(p.key) == KeyImage(q.key)
    decreases p, 0
  {
    hide KeyImage;
    PermutedKept(p.key, q.key);
    PermutedKept(p.value, q.value);
  }

  lemma {:induction false} MapKept(a: seq<Pair>, b: seq<Pair>)
    requires MapPermuted(a, b)
    ensures CountPairs(a) == CountPairs(b) && LevelsPairs(a) == LevelsPairs(b) && MapSame(a, b)
    ensures (AllKeyedPairs(a) <==> AllKeyedPairs(b)) && (KeysOk(a) <==> KeysOk(b))
    decreases a, 1
  {
    hide PairPermuted, SamePair, CountPair, LevelsPair, KeyedPair, KeysOk, MapSame, ImagesOk;
    EntriesKept(a, b);
    KeysOkImages(a);
    KeysOkImages(b);
  }

  lemma {:induction false} EntriesKept(a: seq<Pair>, b: seq<Pair>)
    requires MapPermuted(a, b)
    ensures CountPairs(a) == CountPairs(b) && LevelsPairs(a) == LevelsPairs(b) && MapSame(a, b)
    ensures (AllKeyedPairs(a) <==> AllKeyedPairs(b)) && multiset(KeyImages(a)) == multiset(KeyImages(b))
    decreases a, 0
  {
    hide PairPermuted, SamePair, CountPair, LevelsPair, KeyedPair, KeyImage, KeyImages, MapSame, AllKeyedPairs, CountPairs, LevelsPairs;
    if a == [] {
      EmptySets();
    } else {
      var j :| 0 <= j < |b| && PairPermuted(a[0], b[j]) && MapPermuted(a[1..], Without(b, j));
      PairKept(a[0], b[j]);
      EntriesKept(a[1..], Without(b, j));
      PickPair(b, j);
      PickPair(a, 0);
      KeyedPickPair(b, j);
      KeyedPickPair(a, 0);
      ImagesPick(b, j);
      ImagesPick(a, 0);
      assert Without(a, 0) == a[1..];
      PairSameCons(a, b, j);
    }
  }

  // ------------------------------------------------------ main results

  // Permuting set elements and map entries, at any level, changes neither whether a
  // value has a canonical form nor which.
  lemma {:induction false} PermutationIsIrrelevant(v: Value, w: Value, depth: nat, nodes: nat)
    requires Permuted(v, w)
    ensures Canon(v, depth, nodes) == Canon(w, depth, nodes)
  {
    hide Canon, Form, Same, Keyed, Permuted, Count, Levels;
    PermutedKept(v, w);
    CanonExact(v, depth, nodes);
    CanonExact(w, depth, nodes);
    if Keyed(v) { FormSame(v, w); }
  }

  // Nor whether a state has a coverage key, nor which.
  lemma {:induction false} StatePermutationIsIrrelevant(s: seq<Field>, t: seq<Field>)
    requires FieldsPermuted(s, t)
    ensures CanonState(s) == CanonState(t)
  {
    hide CanonFields, FormFields, SameField, Print, Printable, KeyedField, LevelsFields, CountFields, FieldsPermuted;
    FieldsKept(s, t);
    CanonFieldsExact(s, 0, 0);
    CanonFieldsExact(t, 0, 0);
    if AllKeyedFields(s) { FieldsSame(s, t); }
  }

  // ------------------------------------------------------ rearranged collections

  lemma {:induction false} WithoutOne<T>(b: seq<T>, j: nat)
    requires j < |b|
    ensures multiset(b) == multiset(Without(b, j)) + multiset{b[j]}
  {
    assert b == b[..j] + [b[j]] + b[j + 1..];
  }

  lemma {:induction false} PickFrom<T>(a: seq<T>, b: seq<T>) returns (j: nat)
    requires a != [] && multiset(a) == multiset(b)
    ensures j < |b| && b[j] == a[0] && multiset(a[1..]) == multiset(Without(b, j))
  {
    assert a[0] in multiset(b);
    j :| 0 <= j < |b| && b[j] == a[0];
    WithoutOne(a, 0);
    WithoutOne(b, j);
    assert Without(a, 0) == a[1..];
    hide Without;
    assert multiset(a[1..]) == multiset(a) - multiset{a[0]} == multiset(Without(b, j));
  }

  lemma {:induction false} PermutedSelf(v: Value)
    ensures Permuted(v, v)
    decreases v, 1
  {
    match v
    case Variant(_, value) => PermutedSelf(value);
    case Record(fields) => FieldsSelf(fields);
    case Seq(items) => ItemsSelf(items);
    case Tuple(items) => ItemsSelf(items);
    case Set(items) => Rearranged(items, items);
    case Map(entries) => RearrangedEntries(entries, entries);
    case _ => {}
  }

  lemma {:induction false} ItemsSelf(items: seq<Value>)
    ensures ItemsPermuted(items, items)
    decreases items, 0
  {
    if items != [] {
      PermutedSelf(items[0]);
      ItemsSelf(items[1..]);
    }
  }

  lemma {:induction false} FieldSelf(f: Field)
    ensures FieldPermuted(f, f)
    decreases f, 0
  {
    PermutedSelf(f.value);
  }

  lemma {:induction false} FieldsSelf(fields: seq<Field>)
    ensures FieldsPermuted(fields, fields)
    decreases fields, 0
  {
    if fields != [] {
      FieldSelf(fields[0]);
      FieldsSelf(fields[1..]);
    }
  }

  lemma {:induction false} PairSelf(p: Pair)
    ensures PairPermuted(p, p)
    decreases p, 0
  {
    PermutedSelf(p.key);
    PermutedSelf(p.value);
  }

  // The same elements in any other order are a permutation.
  lemma {:induction false} Rearranged(a: seq<Value>, b: seq<Value>)
    requires multiset(a) == multiset(b)
    ensures SetPermuted(a, b)
    decreases a, 0
  {
    hide Permuted;
    if a == [] {
      assert |multiset(b)| == |b|;
    } else {
      var j := PickFrom(a, b);
      PermutedSelf(a[0]);
      Rearranged(a[1..], Without(b, j));
    }
  }

  lemma {:induction false} RearrangedEntries(a: seq<Pair>, b: seq<Pair>)
    requires multiset(a) == multiset(b)
    ensures MapPermuted(a, b)
    decreases a, 0
  {
    hide PairPermuted;
    if a == [] {
      assert |multiset(b)| == |b|;
    } else {
      var j := PickFrom(a, b);
      PairSelf(a[0]);
      RearrangedEntries(a[1..], Without(b, j));
    }
  }

  // Reordering the elements of one set changes nothing, neither success nor the result.
  lemma {:induction false} SetOrderIsIrrelevant(a: seq<Value>, b: seq<Value>, depth: nat, nodes: nat)
    requires multiset(a) == multiset(b)
    ensures Canon(Set(a), depth, nodes) == Canon(Set(b), depth, nodes)
  {
    Rearranged(a, b);
    PermutationIsIrrelevant(Set(a), Set(b), depth, nodes);
  }

  // Nor does reordering the entries of one map.
  lemma {:induction false} MapOrderIsIrrelevant(a: seq<Pair>, b: seq<Pair>, depth: nat, nodes: nat)
    requires multiset(a) == multiset(b)
    ensures Canon(Map(a), depth, nodes) == Canon(Map(b), depth, nodes)
  {
    RearrangedEntries(a, b);
    PermutationIsIrrelevant(Map(a), Map(b), depth, nodes);
  }
}
