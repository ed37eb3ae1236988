// When two observations are the same state to an exploration: the coverage key leaves out the
// instrumentation variables and nothing else (src/schedule_exploration.rs:522-545).
module CampaignKeys {
  import opened Wrappers
  import opened Values
  import opened OrderedMap
  import opened Canonical
  import opened CanonicalMeaning
  import opened Campaign

  // A decoded state has its fields in the strict order of their names.
  predicate Decoded(s: seq<Field>) { forall i, j :: 0 <= i < j < |s| ==> Less(s[i].name, s[j].name) }

  // It has exactly the declared variables.
  predicate Declared(s: seq<Field>, variables: seq<string>, ignored: seq<string>) {
    && (forall f :: f in s ==> f.name in variables || f.name in ignored)
    && (forall v :: v in variables ==> HasField(s, v))
    && (forall v :: v in ignored ==> HasField(s, v))
  }

  // The fields of a state that are no instrumentation.
  ghost predicate Remains(s: seq<Field>, ignored: seq<string>, r: seq<Field>) {
    Decoded(r) && forall f :: f in r <==> f in s && f.name !in ignored
  }

  lemma {:induction false} NamedOnce(s: seq<Field>, i: nat, j: nat)
    requires Decoded(s) && i < |s| && j < |s| && s[i].name == s[j].name
    ensures i == j
  {
    if i != j { LessIrreflexive(s[i].name); }
  }

  lemma {:induction false} RemoveIs(s: seq<Field>, name: string)
    requires Decoded(s) && HasField(s, name)
    ensures var r := RemoveField(s, name);
            && Decoded(r) && |r| == |s| - 1
            && (forall f :: f in r <==> f in s && f.name != name)
            && (forall v :: v != name ==> (HasField(r, v) <==> HasField(s, v)))
  {
    var r := RemoveField(s, name);
    if s[0].name == name {
      forall f ensures f in r <==> f in s && f.name != name {
        if f in s && f.name != name { assert f in s[1..]; }
        if f in s[1..] {
          var k :| 0 <= k < |s[1..]| && s[1..][k] == f;
          if f.name == name { NamedOnce(s, 0, k + 1); }
        }
      }
      forall v | v != name ensures HasField(r, v) <==> HasField(s, v) {
        if HasField(s, v) {
          var i :| 0 <= i < |s| && s[i].name == v;
          assert r[i - 1].name == v;
        }
      }
    } else {
      var i :| 0 <= i < |s| && s[i].name == name;
      assert s[1..][i - 1].name == name;
      RemoveIs(s[1..], name);
      RemoveBehind(s, name);
    }
  }

  lemma {:induction false} RemoveBehind(s: seq<Field>, name: string)
    requires Decoded(s) && s != [] && s[0].name != name
    requires var q := RemoveField(s[1..], name);
             && Decoded(q) && (forall f :: f in q <==> f in s[1..] && f.name != name)
             && (forall v :: v != name ==> (HasField(q, v) <==> HasField(s[1..], v)))
    ensures var r := [s[0]] + RemoveField(s[1..], name);
            && Decoded(r)
            && (forall f :: f in r <==> f in s && f.name != name)
            && (forall v :: v != name ==> (HasField(r, v) <==> HasField(s, v)))
  {
    hide RemoveField;
    var q := RemoveField(s[1..], name);
    var r := [s[0]] + q;
    forall j | 0 < j < |r| ensures Less(r[0].name, r[j].name) {
      assert q[j - 1] in s[1..];
      var k :| 0 <= k < |s[1..]| && s[1..][k] == q[j - 1];
      assert Less(s[0].name, s[k + 1].name);
    }
    forall f ensures f in r <==> f in s && f.name != name {
      assert f in s <==> f == s[0] || f in s[1..];
    }
    forall v | v != name ensures HasField(r, v) <==> HasField(s, v) {
      HasFieldCons(s[0], s[1..], v);
      HasFieldCons(s[0], q, v);
      assert [s[0]] + s[1..] == s;
    }
  }

  lemma {:induction false} HasFieldCons(f: Field, s: seq<Field>, v: string)
    ensures HasField([f] + s, v) <==> f.name == v || HasField(s, v)
  {
    var t := [f] + s;
    if HasField(s, v) {
      var i :| 0 <= i < |s| && s[i].name == v;
      assert t[i + 1].name == v;
    }
    if f.name == v { assert t[0].name == v; }
  }

  lemma {:induction false} RemovedIs(s: seq<Field>, names: seq<string>)
    requires Decoded(s) && NoDuplicates(names)
    ensures Removed(s, names).Some? <==> forall v :: v in names ==> HasField(s, v)
    ensures Removed(s, names).Some? ==> Remains(s, names, Removed(s, names).value)
    ensures Removed(s, names).Some? ==> forall v :: v !in names ==> (HasField(Removed(s, names).value, v) <==> HasField(s, v))
    decreases |names|
  {
    hide HasField, RemoveField;
    if names != [] {
      var rest := names[1..];
      assert names == [names[0]] + rest;
      if HasField(s, names[0]) {
        RemoveIs(s, names[0]);
        RemovedIs(RemoveField(s, names[0]), rest);
        assert forall v :: v in rest ==> v != names[0];
      }
    }
  }

  function Names(s: seq<Field>): (r: seq<string>)
    ensures |r| == |s| && forall i :: 0 <= i < |s| ==> r[i] == s[i].name
  {
    seq(|s|, i requires 0 <= i < |s| => s[i].name)
  }

  lemma {:induction false} SizeOfSet(names: seq<string>)
    requires NoDuplicates(names)
    ensures |set v | v in names| == |names|
  {
    if names != [] {
      var front, last := names[..|names| - 1], names[|names| - 1];
      SizeOfSet(front);
      assert (set v | v in names) == (set v | v in front) + {last};
    }
  }

  lemma {:induction false} SubsetOfSize(a: set<string>, b: set<string>)
    requires a <= b && |a| == |b|
    ensures a == b
  {
    assert b == a + (b - a);
  }

  // A state has as many fields as there are variables, and every variable, iff it has exactly the declared ones.
  lemma {:induction false} DeclaredBySize(s: seq<Field>, variables: seq<string>, ignored: seq<string>)
    requires Decoded(s) && NoDuplicates(variables + ignored)
    requires forall v :: v in variables + ignored ==> HasField(s, v)
    ensures |s| == |variables| + |ignored| <==> Declared(s, variables, ignored)
  {
    var all, names := variables + ignored, Names(s);
    forall i, j | 0 <= i < j < |names| ensures names[i] != names[j] { LessIrreflexive(names[i]); }
    SizeOfSet(all);
    SizeOfSet(names);
    var a, b := set v | v in all, set v | v in names;
    forall v | v in a ensures v in b {
      var i :| 0 <= i < |s| && s[i].name == v;
      assert names[i] == v;
    }
    if |s| == |all| {
      SubsetOfSize(a, b);
      forall f | f in s ensures f.name in all {
        var i :| 0 <= i < |s| && s[i] == f;
        assert names[i] in b;
      }
    }
    if Declared(s, variables, ignored) {
      forall v | v in b ensures v in a {
        var i :| 0 <= i < |names| && names[i] == v;
        assert s[i] in s;
      }
      assert a == b;
    }
  }

  // An observation has a key iff its state has exactly the declared variables, and what is left
  // of it without instrumentation can be brought into canonical form.
  lemma {:induction false} KeyOfIff(o: Sight, variables: seq<string>, ignored: seq<string>)
    requires NoDuplicates(variables + ignored) && (o.state.Some? ==> Decoded(o.state.value))
    ensures KeyOf(o, variables, ignored).Some?
       <==> && o.state.Some? && Declared(o.state.value, variables, ignored)
            && exists kept :: Remains(o.state.value, ignored, kept) && CanonState(kept).Some?
    ensures KeyOf(o, variables, ignored).Some? ==>
              exists kept :: Remains(o.state.value, ignored, kept) && KeyOf(o, variables, ignored) == CanonState(kept)
  {
    hide CanonState, HasField, Removed, Declared, Remains;
    if o.state.Some? {
      var s := o.state.value;
      ProjectedIff(s, variables, ignored);
      if Declared(s, variables, ignored) {
        var p := Projected(s, variables, ignored).value;
        forall kept | Remains(s, ignored, kept) ensures kept == p { RemainsOnce(s, ignored, kept, p); }
      }
    }
  }

  lemma {:induction false} ProjectedIff(s: seq<Field>, variables: seq<string>, ignored: seq<string>)
    requires NoDuplicates(variables + ignored) && Decoded(s)
    ensures Projected(s, variables, ignored).Some? <==> Declared(s, variables, ignored)
    ensures Projected(s, variables, ignored).Some? ==> Remains(s, ignored, Projected(s, variables, ignored).value)
  {
    hide HasField, Removed, Remains;
    DistinctParts(variables, ignored);
    RemovedIs(s, ignored);
    if forall v :: v in variables + ignored ==> HasField(s, v) { DeclaredBySize(s, variables, ignored); }
    assert (forall i :: 0 <= i < |variables| ==> HasField(s, variables[i])) <==> forall v :: v in variables ==> HasField(s, v);
  }

  lemma {:induction false} DistinctParts(variables: seq<string>, ignored: seq<string>)
    requires NoDuplicates(variables + ignored)
    ensures NoDuplicates(ignored) && forall v :: v in variables ==> v !in ignored
  {
    var all := variables + ignored;
    forall i, j | 0 <= i < j < |ignored| ensures ignored[i] != ignored[j] {
      assert all[|variables| + i] != all[|variables| + j];
    }
    forall v | v in variables ensures v !in ignored {
      var i :| 0 <= i < |variables| && variables[i] == v;
      forall j | 0 <= j < |ignored| ensures ignored[j] != v { assert all[i] != all[|variables| + j]; }
    }
  }

  // Strictly ordered fields are determined by what they contain.
  lemma {:induction false} RemainsOnce(s: seq<Field>, ignored: seq<string>, r: seq<Field>, q: seq<Field>)
    requires Remains(s, ignored, r) && Remains(s, ignored, q)
    ensures r == q
  {
    var a, b := AsEntries(r), AsEntries(q);
    StoredFields(r);
    StoredFields(q);
    forall e ensures e in a <==> e in b {
      if e in a { assert Field(e.0, e.1) in r; }
      if e in b { assert Field(e.0, e.1) in q; }
    }
    Extensional(a, b);
    forall i | 0 <= i < |r| ensures r[i] == q[i] { assert a[i] == b[i]; }
  }

  // The fields as the entries of a map.
  function AsEntries(s: seq<Field>): (m: Entries<Value>)
    ensures |m| == |s| && forall i :: 0 <= i < |s| ==> m[i] == (s[i].name, s[i].value)
  {
    seq(|s|, i requires 0 <= i < |s| => (s[i].name, s[i].value))
  }

  lemma {:induction false} StoredFields(s: seq<Field>)
    requires Decoded(s)
    ensures Sorted(AsEntries(s)) && forall e :: e in AsEntries(s) <==> Field(e.0, e.1) in s
  {
    var m := AsEntries(s);
    forall e ensures e in m <==> Field(e.0, e.1) in s {
      if Field(e.0, e.1) in s {
        var i :| 0 <= i < |s| && s[i] == Field(e.0, e.1);
        assert m[i] == e;
      }
    }
  }

  // The two states agree on every variable that is no instrumentation.
  ghost predicate Agree(s: seq<Field>, t: seq<Field>, ignored: seq<string>) {
    forall f, g :: f in s && g in t && f.name == g.name && f.name !in ignored ==> Same(f.value, g.value)
  }

  // Two observations are one state of the graph iff they agree outside the instrumentation, up to
  // the order and repetition of set elements and the order of map entries.
  lemma {:induction false} KeysAgree(o: Sight, p: Sight, variables: seq<string>, ignored: seq<string>)
    requires NoDuplicates(variables + ignored)
    requires o.state.Some? && p.state.Some? && Decoded(o.state.value) && Decoded(p.state.value)
    requires KeyOf(o, variables, ignored).Some? && KeyOf(p, variables, ignored).Some?
    ensures KeyOf(o, variables, ignored) == KeyOf(p, variables, ignored) <==> Agree(o.state.value, p.state.value, ignored)
  {
    hide CanonState, HasField, Removed, Remains, Declared, Same, Agree, Projected;
    var s, t := o.state.value, p.state.value;
    ProjectedIff(s, variables, ignored);
    ProjectedIff(t, variables, ignored);
    var a, b := Projected(s, variables, ignored).value, Projected(t, variables, ignored).value;
    StateKeysDecide(a, b);
    DistinctParts(variables, ignored);
    SameNames(s, t, variables, ignored, a, b);
    AgreeByPosition(s, t, ignored, a, b);
  }

  lemma {:induction false} RemainingName(s: seq<Field>, variables: seq<string>, ignored: seq<string>, a: seq<Field>, v: string)
    requires Decoded(s) && Declared(s, variables, ignored) && Remains(s, ignored, a)
    requires forall v :: v in variables ==> v !in ignored
    ensures v in variables <==> exists f :: f in a && f.name == v
  {
    if v in variables {
      assert HasField(s, v);
      var i :| 0 <= i < |s| && s[i].name == v;
      assert s[i] in a;
    }
  }

  // What remains of two states has the same names in the same places.
  lemma {:induction false} SameNames(s: seq<Field>, t: seq<Field>, variables: seq<string>, ignored: seq<string>, a: seq<Field>, b: seq<Field>)
    requires Decoded(s) && Declared(s, variables, ignored) && Remains(s, ignored, a)
    requires Decoded(t) && Declared(t, variables, ignored) && Remains(t, ignored, b)
    requires forall v :: v in variables ==> v !in ignored
    ensures |a| == |b| && forall i :: 0 <= i < |a| ==> a[i].name == b[i].name
  {
    hide Declared, HasField;
    var m: Entries<bool>, n: Entries<bool> := Bare(a), Bare(b);
    forall e ensures e in m <==> e in n {
      RemainingName(s, variables, ignored, a, e.0);
      RemainingName(t, variables, ignored, b, e.0);
      BareNames(a, e.0);
      BareNames(b, e.0);
      assert e.1 ==> e == (e.0, true);
    }
    Extensional(m, n);
    forall i | 0 <= i < |a| ensures a[i].name == b[i].name { assert m[i] == n[i]; }
  }

  function Bare(s: seq<Field>): (m: Entries<bool>)
    ensures |m| == |s| && forall i :: 0 <= i < |s| ==> m[i] == (s[i].name, true)
  {
    seq(|s|, i requires 0 <= i < |s| => (s[i].name, true))
  }

  lemma {:induction false} BareNames(s: seq<Field>, v: string)
    ensures (v, true) in Bare(s) <==> exists f :: f in s && f.name == v
  {
    if f :| f in s && f.name == v {
      var i :| 0 <= i < |s| && s[i] == f;
      assert Bare(s)[i] == (v, true);
    }
    if (v, true) in Bare(s) {
      var i :| 0 <= i < |s| && Bare(s)[i] == (v, true);
      assert s[i] in s;
    }
  }

  lemma {:induction false} AgreeByPosition(s: seq<Field>, t: seq<Field>, ignored: seq<string>, a: seq<Field>, b: seq<Field>)
    requires Remains(s, ignored, a) && Remains(t, ignored, b)
    requires |a| == |b| && forall i :: 0 <= i < |a| ==> a[i].name == b[i].name
    ensures Agree(s, t, ignored) <==> forall i :: 0 <= i < |a| ==> SameField(a[i], b[i])
  {
    hide Same, SameField, Agree, Remains;
    if Agree(s, t, ignored) {
      forall i | 0 <= i < |a| ensures SameField(a[i], b[i]) { AgreeAt(s, t, ignored, a, b, i); }
    }
    if forall i :: 0 <= i < |a| ==> SameField(a[i], b[i]) { AgreeEverywhere(s, t, ignored, a, b); }
  }

  lemma {:induction false} AgreeAt(s: seq<Field>, t: seq<Field>, ignored: seq<string>, a: seq<Field>, b: seq<Field>, i: nat)
    requires Remains(s, ignored, a) && Remains(t, ignored, b) && Agree(s, t, ignored)
    requires i < |a| && i < |b| && a[i].name == b[i].name
    ensures SameField(a[i], b[i])
  {
    hide Same;
    assert a[i] in a && b[i] in b;
  }

  lemma {:induction false} AgreeEverywhere(s: seq<Field>, t: seq<Field>, ignored: seq<string>, a: seq<Field>, b: seq<Field>)
    requires Remains(s, ignored, a) && Remains(t, ignored, b)
    requires |a| == |b| && forall i :: 0 <= i < |a| ==> a[i].name == b[i].name
    requires forall i :: 0 <= i < |a| ==> SameField(a[i], b[i])
    ensures Agree(s, t, ignored)
  {
    hide Same, SameField, Decoded;
    forall f, g | f in s && g in t && f.name == g.name && f.name !in ignored ensures Same(f.value, g.value) {
      assert f in a && g in b;
      var i :| 0 <= i < |a| && a[i] == f;
      SameAt(a, b, i, g);
    }
  }

  lemma {:induction false} SameAt(a: seq<Field>, b: seq<Field>, i: nat, g: Field)
    requires Decoded(a) && g in b && |a| == |b| && i < |a| && a[i].name == g.name
    requires forall k :: 0 <= k < |a| ==> a[k].name == b[k].name
    requires SameField(a[i], b[i])
    ensures Same(a[i].value, g.value)
  {
    hide Same, Decoded;
    var j :| 0 <= j < |b| && b[j] == g;
    NamedOnce(a, i, j);
  }
}
