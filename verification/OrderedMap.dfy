// Maps with text keys kept in key order: the entries of a BTreeMap, in sequence.
// Text is a string with one character per byte.
module OrderedMap {

  // Byte-wise lexicographic order.
  predicate Less(a: string, b: string) {
    b != [] && (a == [] || a[0] < b[0] || (a[0] == b[0] && Less(a[1..], b[1..])))
  }

  lemma {:induction false} LessIrreflexive(a: string)
    ensures !Less(a, a)
  {
    if a != [] { LessIrreflexive(a[1..]); }
  }

  lemma {:induction false} LessTransitive(a: string, b: string, c: string)
    requires Less(a, b) && Less(b, c)
    ensures Less(a, c)
  {
    if a != [] && a[0] == b[0] && b[0] == c[0] { LessTransitive(a[1..], b[1..], c[1..]); }
  }

  lemma {:induction false} LessTotal(a: string, b: string)
    ensures Less(a, b) || a == b || Less(b, a)
  {
    if a != [] && b != [] && a[0] == b[0] {
      LessTotal(a[1..], b[1..]);
      assert a == [a[0]] + a[1..] && b == [b[0]] + b[1..];
    }
  }

  type Entries<V> = seq<(string, V)>

  predicate Sorted<V>(m: Entries<V>) {
    forall i, j :: 0 <= i < j < |m| ==> Less(m[i].0, m[j].0)
  }

  predicate Has<V>(m: Entries<V>, k: string) {
    exists i :: 0 <= i < |m| && m[i].0 == k
  }

  // BTreeMap::insert: the entry goes to its place, replacing one with the same key.
  function Insert<V>(m: Entries<V>, k: string, v: V): (r: Entries<V>)
  {
    if m == [] || Less(k, m[0].0) then [(k, v)] + m
    else if k == m[0].0 then [(k, v)] + m[1..]
    else [m[0]] + Insert(m[1..], k, v)
  }

  lemma {:induction false} HasCons<V>(e: (string, V), m: Entries<V>, x: string)
    ensures Has([e] + m, x) <==> x == e.0 || Has(m, x)
  {
    var r := [e] + m;
    assert r[0] == e;
    assert forall i :: 0 <= i < |m| ==> r[i + 1] == m[i];
    assert forall i :: 0 < i < |r| ==> r[i] == m[i - 1];
  }

  lemma {:induction false} InsertHas<V>(m: Entries<V>, k: string, v: V, x: string)
    ensures Has(Insert(m, k, v), x) <==> x == k || Has(m, x)
  {
    var r := Insert(m, k, v);
    if m == [] || Less(k, m[0].0) {
      assert r[0].0 == k;
      assert forall i :: 0 <= i < |m| ==> r[i + 1] == m[i];
    } else if k == m[0].0 {
      assert r[0].0 == k;
      assert forall i :: 0 < i < |m| ==> r[i] == m[i];
    } else {
      InsertHas(m[1..], k, v, x);
      HasCons(m[0], m[1..], x);
      HasCons(m[0], Insert(m[1..], k, v), x);
      assert m == [m[0]] + m[1..];
    }
  }

  lemma {:induction false} InsertSorted<V>(m: Entries<V>, k: string, v: V)
    requires Sorted(m)
    ensures Sorted(Insert(m, k, v))
  {
    var r := Insert(m, k, v);
    if m == [] {
    } else if Less(k, m[0].0) {
      forall j | 0 < j < |m| ensures Less(k, m[j].0) { LessTransitive(k, m[0].0, m[j].0); }
    } else if k == m[0].0 {
    } else {
      LessTotal(k, m[0].0);
      var rest := Insert(m[1..], k, v);
      InsertSorted(m[1..], k, v);
      forall j | 0 <= j < |rest| ensures Less(m[0].0, rest[j].0) {
        InsertHas(m[1..], k, v, rest[j].0);
        assert Has(rest, rest[j].0);
        if rest[j].0 != k {
          var i :| 0 <= i < |m[1..]| && m[1..][i].0 == rest[j].0;
          assert m[i + 1] == m[1..][i];
        }
      }
    }
  }

  // What is stored after an insertion.
  lemma {:induction false} InsertEntry<V>(m: Entries<V>, k: string, v: V, e: (string, V))
    requires Sorted(m)
    ensures e in Insert(m, k, v) <==> e == (k, v) || (e in m && e.0 != k)
  {
    var r := Insert(m, k, v);
    if m == [] || Less(k, m[0].0) {
      assert e in r <==> e == (k, v) || e in m;
      if e in m && e.0 == k {
        var i :| 0 <= i < |m| && m[i] == e;
        LessIrreflexive(k);
        if i > 0 { LessTransitive(k, m[0].0, m[i].0); }
      }
    } else if k == m[0].0 {
      assert e in m <==> e == m[0] || e in m[1..];
      LessIrreflexive(k);
      assert forall i :: 0 < i < |m| ==> m[i].0 != k;
    } else {
      InsertEntry(m[1..], k, v, e);
      assert e in m <==> e == m[0] || e in m[1..];
      assert e in r <==> e == m[0] || e in Insert(m[1..], k, v);
    }
  }

  // Sorted maps with the same entries are the same sequence.
  lemma {:induction false} Extensional<V>(m: Entries<V>, n: Entries<V>)
    requires Sorted(m) && Sorted(n)
    requires forall e :: e in m <==> e in n
    ensures m == n
  {
    assert n != [] ==> n[0] in n;
    assert m != [] ==> m[0] in m;
    if m != [] {
      SameHead(m, n);
      assert m[0] == n[0];
      forall e ensures e in m[1..] <==> e in n[1..] {
        assert e in m <==> e == m[0] || e in m[1..];
        assert e in n <==> e == n[0] || e in n[1..];
        HeadOnce(m, e);
        HeadOnce(n, e);
      }
      Extensional(m[1..], n[1..]);
      assert m == [m[0]] + m[1..] && n == [n[0]] + n[1..];
    }
  }

  lemma {:induction false} SameHead<V>(m: Entries<V>, n: Entries<V>)
    requires Sorted(m) && Sorted(n) && m != [] && n != []
    requires m[0] in n && n[0] in m
    ensures m[0] == n[0]
  {
    var i :| 0 <= i < |n| && n[i] == m[0];
    var j :| 0 <= j < |m| && m[j] == n[0];
    if i > 0 && j > 0 {
      LessTransitive(n[0].0, m[0].0, m[j].0);
      LessIrreflexive(n[0].0);
    }
  }

  lemma {:induction false} HeadOnce<V>(m: Entries<V>, e: (string, V))
    requires Sorted(m) && m != []
    ensures e == m[0] ==> e !in m[1..]
  {
    if e == m[0] && e in m[1..] {
      var i :| 0 <= i < |m[1..]| && m[1..][i] == e;
      assert m[i + 1] == e;
      LessIrreflexive(e.0);
    }
  }

  // A key larger than all present ones goes to the end.
  lemma {:induction false} InsertLast<V>(m: Entries<V>, k: string, v: V)
    requires forall i :: 0 <= i < |m| ==> Less(m[i].0, k)
    ensures Insert(m, k, v) == m + [(k, v)]
  {
    if m != [] {
      if Less(k, m[0].0) { LessTransitive(k, m[0].0, k); }
      LessIrreflexive(k);
      InsertLast(m[1..], k, v);
      assert m + [(k, v)] == [m[0]] + (m[1..] + [(k, v)]);
    }
  }

  predicate Distinct(keys: seq<string>) {
    forall i, j :: 0 <= i < j < |keys| ==> keys[i] != keys[j]
  }

  predicate Fresh<V>(m: Entries<V>, keys: seq<string>) {
    forall i :: 0 <= i < |keys| ==> !Has(m, keys[i])
  }

  // Inserting keys one by one meets no stored key iff all of them are new and distinct.
  lemma {:induction false} FreshStep<V>(m: Entries<V>, k: string, v: V, rest: seq<string>)
    ensures Distinct([k] + rest) && Fresh(m, [k] + rest)
       <==> !Has(m, k) && Distinct(rest) && Fresh(Insert(m, k, v), rest)
  {
    var keys := [k] + rest;
    assert keys[0] == k && forall i :: 0 <= i < |rest| ==> keys[i + 1] == rest[i];
    forall i | 0 <= i < |rest| ensures Has(Insert(m, k, v), rest[i]) <==> rest[i] == k || Has(m, rest[i]) {
      InsertHas(m, k, v, rest[i]);
    }
    assert forall i :: 0 < i < |keys| ==> keys[i] == rest[i - 1];
    assert Distinct(keys) ==> Distinct(rest) by {
      if Distinct(keys) {
        forall i, j | 0 <= i < j < |rest| ensures rest[i] != rest[j] { assert keys[i + 1] != keys[j + 1]; }
      }
    }
  }

  // ------------------------------------------------------ storing a list of entries

  function Gather<V>(m: Entries<V>, pairs: Entries<V>): Entries<V>
    decreases |pairs|
  {
    if pairs == [] then m else Gather(Insert(m, pairs[0].0, pairs[0].1), pairs[1..])
  }

  // Equal keys come with equal values.
  predicate Functional<V(==)>(pairs: Entries<V>) {
    forall i, j :: 0 <= i < |pairs| && 0 <= j < |pairs| && pairs[i].0 == pairs[j].0 ==> pairs[i] == pairs[j]
  }

  lemma {:induction false} GatherSorted<V>(m: Entries<V>, pairs: Entries<V>)
    requires Sorted(m)
    ensures Sorted(Gather(m, pairs))
    decreases |pairs|
  {
    if pairs != [] {
      InsertSorted(m, pairs[0].0, pairs[0].1);
      GatherSorted(Insert(m, pairs[0].0, pairs[0].1), pairs[1..]);
    }
  }

  lemma {:induction false} InsertIn<V>(m: Entries<V>, p: (string, V), pairs: Entries<V>, x: (string, V))
    requires Sorted(m) && Functional(m + pairs) && pairs != [] && p == pairs[0]
    ensures x in Insert(m, p.0, p.1) <==> x == p || x in m
    ensures x in pairs <==> x == p || x in pairs[1..]
  {
    hide Sorted, Insert;
    InsertEntry(m, p.0, p.1, x);
    assert (m + pairs)[|m|] == p && p == (p.0, p.1);
    if x in m {
      var i :| 0 <= i < |m| && m[i] == x;
      assert (m + pairs)[i] == x;
    }
    assert pairs == [p] + pairs[1..];
  }

  lemma {:induction false} GatherEntry<V>(m: Entries<V>, pairs: Entries<V>, e: (string, V))
    requires Sorted(m) && Functional(m + pairs)
    ensures e in Gather(m, pairs) <==> e in m || e in pairs
    decreases |pairs|
  {
    hide Sorted, Insert;
    if pairs != [] {
      var p, rest := pairs[0], pairs[1..];
      InsertSorted(m, p.0, p.1);
      var n := Insert(m, p.0, p.1);
      assert pairs == [p] + rest;
      forall x | x in n + rest ensures x in m + pairs {
        InsertIn(m, p, pairs, x);
        assert x in n || x in rest;
        assert x in m + pairs <==> x in m || x in pairs;
      }
      InsertIn(m, p, pairs, e);
      FunctionalWithin(m + pairs, n + rest);
      GatherEntry(n, rest, e);
      assert e in pairs <==> e == p || e in rest;
    }
  }

  lemma {:induction false} FunctionalWithin<V>(a: Entries<V>, b: Entries<V>)
    requires Functional(a) && forall x :: x in b ==> x in a
    ensures Functional(b)
  {
    forall i, j | 0 <= i < |b| && 0 <= j < |b| && b[i].0 == b[j].0 ensures b[i] == b[j] {
      assert b[i] in a && b[j] in a;
      var k :| 0 <= k < |a| && a[k] == b[i];
      var l :| 0 <= l < |a| && a[l] == b[j];
    }
  }

  // Two lists are stored alike iff they have the same entries.
  lemma {:induction false} GatherEqual<V>(a: Entries<V>, b: Entries<V>)
    requires Functional(a) && Functional(b)
    ensures Gather([], a) == Gather([], b) <==> (forall e :: e in a <==> e in b)
  {
    hide Functional, Gather;
    assert [] + a == a && [] + b == b;
    forall e ensures (e in Gather([], a) <==> e in a) && (e in Gather([], b) <==> e in b) {
      GatherEntry([], a, e);
      GatherEntry([], b, e);
    }
    GatherSorted([], a);
    GatherSorted([], b);
    if forall e :: e in a <==> e in b { Extensional(Gather([], a), Gather([], b)); }
  }
}
