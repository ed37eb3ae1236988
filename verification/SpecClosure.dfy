// The import closure of a TLA+ root module (src/spec.rs:110-197): a breadth-first search over a
// finite file system.
module SpecClosure {
  import opened Wrappers
  import opened SpecScanner

  // `places` says which module files exist in which directories, and their canonical paths
  // (None where canonicalisation fails); `sources` holds the readable ones.
  datatype Files = Files(places: map<(string, string), Option<string>>, sources: map<string, string>,
                         folders: map<string, string>)

  function Parent(fs: Files, path: string): string { if path in fs.folders then fs.folders[path] else "." }

  function Dirs(fs: Files, path: string, search: seq<string>): seq<string> { [Parent(fs, path)] + search }

  // The candidates of the name exist, and are all the one file `path`.
  ghost predicate ResolvesTo(fs: Files, dirs: seq<string>, name: string, path: string) {
    && (exists i :: 0 <= i < |dirs| && (dirs[i], name) in fs.places)
    && (forall i :: 0 <= i < |dirs| && (dirs[i], name) in fs.places ==> fs.places[(dirs[i], name)] == Some(path))
  }

  lemma {:induction false} ResolvesToOne(fs: Files, dirs: seq<string>, name: string, p: string, q: string)
    requires ResolvesTo(fs, dirs, name, p) && ResolvesTo(fs, dirs, name, q)
    ensures p == q
  {
    var i :| 0 <= i < |dirs| && (dirs[i], name) in fs.places;
  }

  // resolve_module: missing, ambiguous and broken names are refused.
  method ResolveModule(fs: Files, importDir: string, name: string, search: seq<string>) returns (r: Option<string>)
    ensures r.Some? ==> ResolvesTo(fs, [importDir] + search, name, r.value)
    ensures r.None? ==> forall p :: !ResolvesTo(fs, [importDir] + search, name, p)
  {
    var dirs := [importDir] + search;
    var candidates: seq<string> := [];
    for i := 0 to |dirs|
      invariant candidates == [] <==> forall k :: 0 <= k < i ==> (dirs[k], name) !in fs.places
      invariant forall k :: 0 <= k < i && (dirs[k], name) in fs.places ==>
        fs.places[(dirs[k], name)].Some? && fs.places[(dirs[k], name)].value in candidates
      invariant forall c :: 0 <= c < |candidates| ==>
        exists k :: 0 <= k < i && (dirs[k], name) in fs.places && fs.places[(dirs[k], name)] == Some(candidates[c])
      invariant forall c, d :: 0 <= c < d < |candidates| ==> candidates[c] != candidates[d]
    {
      if (dirs[i], name) in fs.places {
        var canonical := fs.places[(dirs[i], name)];
        if canonical.None? { return None; }
        if canonical.value !in candidates {
          ghost var before := candidates;
          candidates := candidates + [canonical.value];
          assert forall x :: x in candidates <==> x in before || x == canonical.value;
        }
      }
    }
    if |candidates| == 1 {
      r := Some(candidates[0]);
      assert forall x :: x in candidates <==> x == candidates[0];
    } else {
      r := None;
      if |candidates| > 1 {
        var k :| 0 <= k < |dirs| && (dirs[k], name) in fs.places && fs.places[(dirs[k], name)] == Some(candidates[0]);
        var l :| 0 <= l < |dirs| && (dirs[l], name) in fs.places && fs.places[(dirs[l], name)] == Some(candidates[1]);
      }
    }
  }

  // ------------------------------------------------------ reachability

  ghost predicate Names(fs: Files, path: string, name: string) {
    path in fs.sources && name in Imports(fs.sources[path])
  }

  ghost predicate Step(fs: Files, search: seq<string>, from: string, to: string) {
    exists name :: Names(fs, from, name) && ResolvesTo(fs, Dirs(fs, from, search), name, to)
  }

  // `path` is `k` imports away from the root.
  ghost predicate Walk(fs: Files, search: seq<string>, root: string, path: string, k: nat)
    decreases k
  {
    if k == 0 then path == root
    else exists from :: Walk(fs, search, root, from, k - 1) && Step(fs, search, from, path)
  }

  ghost predicate Reachable(fs: Files, search: seq<string>, root: string, path: string) {
    exists k: nat :: Walk(fs, search, root, path, k)
  }

  // An import of the module at `from` leads nowhere or to an unreadable file.
  ghost predicate BrokenImport(fs: Files, search: seq<string>, from: string, name: string) {
    && Names(fs, from, name)
    && forall to :: ResolvesTo(fs, Dirs(fs, from, search), name, to) ==> to !in fs.sources
  }

  // Something reachable cannot be resolved or read.
  ghost predicate Broken(fs: Files, search: seq<string>, root: Option<string>) {
    || root.None?
    || root.value !in fs.sources
    || exists from, name :: Reachable(fs, search, root.value, from) && BrokenImport(fs, search, from, name)
  }

  // ------------------------------------------------------ the search

  // Modules found so far in order, with their import distances; imports still to follow, with
  // the distance that their targets would get.
  ghost predicate Cursor(order: seq<string>, levels: seq<nat>, queue: seq<(string, string)>, pending: seq<nat>) {
    && |order| == |levels| > 0 && |queue| == |pending| && levels[0] == 0
    && (forall i, j :: 0 <= i < j < |levels| ==> levels[i] <= levels[j])
    && (forall i, j :: 0 <= i < j < |pending| ==> pending[i] <= pending[j])
    && (forall i, k :: 0 <= i < |levels| && 0 <= k < |pending| ==> levels[i] <= pending[k])
    && (forall k :: 0 <= k < |pending| ==> pending[k] <= levels[|levels| - 1] + 1)
    && (forall i, j :: 0 <= i < j < |order| ==> order[i] != order[j])
  }

  ghost predicate Found(fs: Files, search: seq<string>, root: string, order: seq<string>, levels: seq<nat>)
    requires |order| == |levels|
  {
    forall i :: 0 <= i < |order| ==> order[i] in fs.sources && Walk(fs, search, root, order[i], levels[i])
  }

  ghost predicate Justified(fs: Files, order: seq<string>, levels: seq<nat>, entry: (string, string), level: nat)
    requires |order| == |levels|
  {
    exists i :: 0 <= i < |order| && entry.0 == Parent(fs, order[i]) && Names(fs, order[i], entry.1) && level == levels[i] + 1
  }

  // The import has been followed to a module at most one further away, or waits to be.
  ghost predicate Followed(fs: Files, search: seq<string>, order: seq<string>, levels: seq<nat>, from: string, name: string,
                           level: nat)
    requires |order| == |levels|
  {
    exists j :: 0 <= j < |order| && ResolvesTo(fs, Dirs(fs, from, search), name, order[j]) && levels[j] <= level
  }

  ghost predicate Waits(fs: Files, queue: seq<(string, string)>, pending: seq<nat>, from: string, name: string, level: nat)
    requires |queue| == |pending|
  {
    exists k :: 0 <= k < |queue| && queue[k] == (Parent(fs, from), name) && pending[k] <= level
  }

  ghost predicate Covered(fs: Files, search: seq<string>, order: seq<string>, levels: seq<nat>,
                          queue: seq<(string, string)>, pending: seq<nat>)
    requires |order| == |levels| && |queue| == |pending|
  {
    forall i, name :: 0 <= i < |order| && Names(fs, order[i], name) ==>
      Followed(fs, search, order, levels, order[i], name, levels[i] + 1) || Waits(fs, queue, pending, order[i], name, levels[i] + 1)
  }

  ghost predicate Search(fs: Files, search: seq<string>, root: string, order: seq<string>, levels: seq<nat>,
                         queue: seq<(string, string)>, pending: seq<nat>) {
    && Cursor(order, levels, queue, pending) && order[0] == root
    && Found(fs, search, root, order, levels)
    && (forall k :: 0 <= k < |queue| ==> Justified(fs, order, levels, queue[k], pending[k]))
    && Covered(fs, search, order, levels, queue, pending)
  }

  function Entries(dir: string, names: seq<string>): (r: seq<(string, string)>)
    ensures |r| == |names| && forall i :: 0 <= i < |names| ==> r[i] == (dir, names[i])
  {
    seq(|names|, i requires 0 <= i < |names| => (dir, names[i]))
  }

  function Same(n: nat, level: nat): (r: seq<nat>)
    ensures |r| == n && forall i :: 0 <= i < n ==> r[i] == level
  {
    seq(n, _ => level)
  }

  lemma {:induction false} Begin(fs: Files, search: seq<string>, root: string)
    requires root in fs.sources
    ensures var names := Imports(fs.sources[root]);
      Search(fs, search, root, [root], [0], Entries(Parent(fs, root), names), Same(|names|, 1))
  {
    hide Imports;
    var names := Imports(fs.sources[root]);
    var queue, pending := Entries(Parent(fs, root), names), Same(|names|, 1);
    assert Walk(fs, search, root, root, 0);
    forall k | 0 <= k < |queue| ensures Justified(fs, [root], [0], queue[k], pending[k]) {
      assert [root][0] == root && names[k] in names;
    }
    forall name | name in names ensures Waits(fs, queue, pending, root, name, 1) {
      var k :| 0 <= k < |names| && names[k] == name;
      assert queue[k] == (Parent(fs, root), name) && pending[k] == 1;
    }
  }

  // The front import leads to a module that is known already.
  lemma {:induction false} PopKnown(fs: Files, search: seq<string>, root: string, order: seq<string>, levels: seq<nat>,
                                    queue: seq<(string, string)>, pending: seq<nat>, j: nat)
    requires Search(fs, search, root, order, levels, queue, pending) && queue != [] && j < |order|
    requires ResolvesTo(fs, [queue[0].0] + search, queue[0].1, order[j])
    ensures Search(fs, search, root, order, levels, queue[1..], pending[1..])
  {
    hide ResolvesTo, Names, Walk, Followed, Waits, Justified;
    forall i, name | 0 <= i < |order| && Names(fs, order[i], name)
      ensures Followed(fs, search, order, levels, order[i], name, levels[i] + 1)
           || Waits(fs, queue[1..], pending[1..], order[i], name, levels[i] + 1)
    {
      if !Followed(fs, search, order, levels, order[i], name, levels[i] + 1) {
        Served(fs, search, order, levels, queue, pending, order[i], name, levels[i] + 1, j);
      }
    }
    assert forall k :: 0 <= k < |queue[1..]| ==> queue[1..][k] == queue[k + 1] && pending[1..][k] == pending[k + 1];
  }

  // Taking the front entry out leaves an import waiting, or it was that import.
  lemma {:induction false} Served(fs: Files, search: seq<string>, order: seq<string>, levels: seq<nat>,
                                  queue: seq<(string, string)>, pending: seq<nat>, from: string, name: string, level: nat, j: nat)
    requires |order| == |levels| && |queue| == |pending| && queue != [] && j < |order| && levels[j] <= pending[0]
    requires Waits(fs, queue, pending, from, name, level)
    requires ResolvesTo(fs, [queue[0].0] + search, queue[0].1, order[j])
    ensures Followed(fs, search, order, levels, from, name, level) || Waits(fs, queue[1..], pending[1..], from, name, level)
  {
    hide ResolvesTo;
    var k :| 0 <= k < |queue| && queue[k] == (Parent(fs, from), name) && pending[k] <= level;
    if k > 0 {
      assert queue[1..][k - 1] == queue[k] && pending[1..][k - 1] == pending[k];
    } else {
      assert ResolvesTo(fs, Dirs(fs, from, search), name, order[j]) && levels[j] <= level;
    }
  }

  // The front import leads to a new module `x`: it is appended, and its imports wait.
  lemma {:induction false} PopNew(fs: Files, search: seq<string>, root: string, order: seq<string>, levels: seq<nat>,
                                  queue: seq<(string, string)>, pending: seq<nat>, x: string)
    requires Search(fs, search, root, order, levels, queue, pending) && queue != []
    requires ResolvesTo(fs, [queue[0].0] + search, queue[0].1, x) && x !in order && x in fs.sources
    ensures var names := Imports(fs.sources[x]);
      Search(fs, search, root, order + [x], levels + [pending[0]], queue[1..] + Entries(Parent(fs, x), names),
             pending[1..] + Same(|names|, pending[0] + 1))
  {
    hide ResolvesTo, Imports, Walk, Followed, Waits, Justified;
    var names := Imports(fs.sources[x]);
    var order2, levels2 := order + [x], levels + [pending[0]];
    var queue2, pending2 := queue[1..] + Entries(Parent(fs, x), names), pending[1..] + Same(|names|, pending[0] + 1);
    CursorGrows(order, levels, queue, pending, x, Entries(Parent(fs, x), names), |names|);
    NewIsFound(fs, search, root, order, levels, queue[0], pending[0], x);
    forall i | 0 <= i < |order2| ensures order2[i] in fs.sources && Walk(fs, search, root, order2[i], levels2[i]) {
      if i < |order| { assert order2[i] == order[i] && levels2[i] == levels[i]; }
    }
    forall k | 0 <= k < |queue2| ensures Justified(fs, order2, levels2, queue2[k], pending2[k]) {
      if k < |queue| - 1 {
        assert queue2[k] == queue[k + 1] && pending2[k] == pending[k + 1];
        StillJustified(fs, order, levels, queue[k + 1], pending[k + 1], x, pending[0]);
      } else {
        assert queue2[k] == (Parent(fs, x), names[k - (|queue| - 1)]) && pending2[k] == pending[0] + 1;
        NewJustified(fs, order, levels, x, pending[0], queue2[k].1);
      }
    }
    forall i, name | 0 <= i < |order2| && Names(fs, order2[i], name)
      ensures Followed(fs, search, order2, levels2, order2[i], name, levels2[i] + 1)
           || Waits(fs, queue2, pending2, order2[i], name, levels2[i] + 1)
    {
      if i < |order| {
        StillCovered(fs, search, order, levels, queue, pending, x, Entries(Parent(fs, x), names), |names|, order[i], name, levels[i] + 1);
      } else {
        NewWaits(fs, queue[1..], pending[1..], x, names, name, pending[0] + 1);
      }
    }
  }

  lemma {:induction false} CursorGrows(order: seq<string>, levels: seq<nat>, queue: seq<(string, string)>, pending: seq<nat>,
                                       x: string, more: seq<(string, string)>, n: nat)
    requires Cursor(order, levels, queue, pending) && queue != [] && x !in order && |more| == n
    ensures Cursor(order + [x], levels + [pending[0]], queue[1..] + more, pending[1..] + Same(n, pending[0] + 1))
  {
    var levels2, pending2 := levels + [pending[0]], pending[1..] + Same(n, pending[0] + 1);
    assert forall i :: 0 <= i < |levels| ==> levels2[i] == levels[i] <= pending[0];
    assert forall k :: 0 <= k < |pending| - 1 ==> pending2[k] == pending[k + 1] && pending[0] <= pending[k + 1];
    assert forall k :: |pending| - 1 <= k < |pending2| ==> pending2[k] == pending[0] + 1;
    assert levels[|levels| - 1] <= pending[0];
  }

  lemma {:induction false} NewIsFound(fs: Files, search: seq<string>, root: string, order: seq<string>, levels: seq<nat>,
                                      entry: (string, string), level: nat, x: string)
    requires |order| == |levels| && Found(fs, search, root, order, levels) && Justified(fs, order, levels, entry, level)
    requires ResolvesTo(fs, [entry.0] + search, entry.1, x)
    ensures Walk(fs, search, root, x, level)
  {
    hide ResolvesTo, Names;
    var i :| 0 <= i < |order| && entry.0 == Parent(fs, order[i]) && Names(fs, order[i], entry.1) && level == levels[i] + 1;
    assert Step(fs, search, order[i], x);
  }

  lemma {:induction false} NewJustified(fs: Files, order: seq<string>, levels: seq<nat>, x: string, l: nat, name: string)
    requires |order| == |levels| && Names(fs, x, name)
    ensures Justified(fs, order + [x], levels + [l], (Parent(fs, x), name), l + 1)
  {
    hide Names;
    assert (order + [x])[|order|] == x && (levels + [l])[|order|] == l;
  }

  lemma {:induction false} NewWaits(fs: Files, queue: seq<(string, string)>, pending: seq<nat>, x: string, names: seq<string>,
                                    name: string, level: nat)
    requires |queue| == |pending| && name in names
    ensures Waits(fs, queue + Entries(Parent(fs, x), names), pending + Same(|names|, level), x, name, level)
  {
    var k :| 0 <= k < |names| && names[k] == name;
    assert (queue + Entries(Parent(fs, x), names))[|queue| + k] == (Parent(fs, x), name);
    assert (pending + Same(|names|, level))[|pending| + k] == level;
  }

  lemma {:induction false} StillJustified(fs: Files, order: seq<string>, levels: seq<nat>, entry: (string, string), level: nat,
                                          x: string, l: nat)
    requires |order| == |levels| && Justified(fs, order, levels, entry, level)
    ensures Justified(fs, order + [x], levels + [l], entry, level)
  {
    hide Names;
    var i :| 0 <= i < |order| && entry.0 == Parent(fs, order[i]) && Names(fs, order[i], entry.1) && level == levels[i] + 1;
    assert (order + [x])[i] == order[i] && (levels + [l])[i] == levels[i];
  }

  lemma {:induction false} StillCovered(fs: Files, search: seq<string>, order: seq<string>, levels: seq<nat>,
                                        queue: seq<(string, string)>, pending: seq<nat>, x: string, more: seq<(string, string)>,
                                        n: nat, from: string, name: string, level: nat)
    requires |order| == |levels| && |queue| == |pending| && queue != [] && |more| == n
    requires ResolvesTo(fs, [queue[0].0] + search, queue[0].1, x)
    requires Followed(fs, search, order, levels, from, name, level) || Waits(fs, queue, pending, from, name, level)
    ensures Followed(fs, search, order + [x], levels + [pending[0]], from, name, level)
         || Waits(fs, queue[1..] + more, pending[1..] + Same(n, pending[0] + 1), from, name, level)
  {
    hide ResolvesTo;
    var order2, levels2 := order + [x], levels + [pending[0]];
    if Followed(fs, search, order, levels, from, name, level) {
      var j :| 0 <= j < |order| && ResolvesTo(fs, Dirs(fs, from, search), name, order[j]) && levels[j] <= level;
      assert order2[j] == order[j] && levels2[j] == levels[j];
    } else {
      var k :| 0 <= k < |queue| && queue[k] == (Parent(fs, from), name) && pending[k] <= level;
      if k > 0 {
        assert (queue[1..] + more)[k - 1] == queue[k] && (pending[1..] + Same(n, pending[0] + 1))[k - 1] == pending[k];
      } else {
        assert order2[|order|] == x && levels2[|order|] == pending[0];
        assert ResolvesTo(fs, Dirs(fs, from, search), name, order2[|order|]);
      }
    }
  }

  // ------------------------------------------------------ what the end of the search means

  // With nothing waiting, whatever is k imports away has been found, at distance k or less.
  lemma {:induction false} AllFound(fs: Files, search: seq<string>, root: string, order: seq<string>, levels: seq<nat>,
                                    path: string, k: nat)
    requires Search(fs, search, root, order, levels, [], []) && Walk(fs, search, root, path, k)
    ensures exists j :: 0 <= j < |order| && order[j] == path && levels[j] <= k
    decreases k
  {
    hide ResolvesTo, Names;
    if k == 0 {
      assert order[0] == path;
    } else {
      var from :| Walk(fs, search, root, from, k - 1) && Step(fs, search, from, path);
      AllFound(fs, search, root, order, levels, from, k - 1);
      var i :| 0 <= i < |order| && order[i] == from && levels[i] <= k - 1;
      var name :| Names(fs, from, name) && ResolvesTo(fs, Dirs(fs, from, search), name, path);
      assert Followed(fs, search, order, levels, order[i], name, levels[i] + 1);
      var j :| 0 <= j < |order| && ResolvesTo(fs, Dirs(fs, from, search), name, order[j]) && levels[j] <= levels[i] + 1;
      ResolvesToOne(fs, Dirs(fs, from, search), name, path, order[j]);
    }
  }

  // The closure in breadth-first order: exactly what is reachable, each once, root first, by
  // non-decreasing least import distance.
  ghost predicate Closure(fs: Files, search: seq<string>, root: string, order: seq<string>, levels: seq<nat>) {
    && |order| == |levels| > 0 && order[0] == root
    && (forall path :: path in order <==> Reachable(fs, search, root, path))
    && (forall i, j :: 0 <= i < j < |order| ==> order[i] != order[j])
    && (forall i :: 0 <= i < |order| ==> Least(fs, search, root, order[i], levels[i]))
    && (forall i, j :: 0 <= i < j < |levels| ==> levels[i] <= levels[j])
  }

  ghost predicate Least(fs: Files, search: seq<string>, root: string, path: string, level: nat) {
    Walk(fs, search, root, path, level) && forall k: nat :: Walk(fs, search, root, path, k) ==> level <= k
  }

  lemma {:induction false} SearchEnds(fs: Files, search: seq<string>, root: string, order: seq<string>, levels: seq<nat>)
    requires Search(fs, search, root, order, levels, [], [])
    ensures Closure(fs, search, root, order, levels) && !Broken(fs, search, Some(root))
    ensures forall i :: 0 <= i < |order| ==> order[i] in fs.sources
  {
    hide ResolvesTo, Names, Walk, Covered, BrokenImport;
    forall path ensures path in order <==> Reachable(fs, search, root, path) {
      if path in order {
        var i :| 0 <= i < |order| && order[i] == path;
        assert Walk(fs, search, root, path, levels[i]);
      }
      if k: nat :| Walk(fs, search, root, path, k) { AllFound(fs, search, root, order, levels, path, k); }
    }
    forall i | 0 <= i < |order| ensures Least(fs, search, root, order[i], levels[i]) {
      forall k: nat | Walk(fs, search, root, order[i], k) ensures levels[i] <= k {
        AllFound(fs, search, root, order, levels, order[i], k);
      }
    }
    forall from, name | Reachable(fs, search, root, from) ensures !BrokenImport(fs, search, from, name) {
      assert from in order;
      var i :| 0 <= i < |order| && order[i] == from;
      NothingBroken(fs, search, root, order, levels, i, name);
    }
  }

  lemma {:induction false} NothingBroken(fs: Files, search: seq<string>, root: string, order: seq<string>, levels: seq<nat>,
                                         i: nat, name: string)
    requires Search(fs, search, root, order, levels, [], []) && i < |order|
    ensures !BrokenImport(fs, search, order[i], name)
  {
    hide ResolvesTo, Walk;
    if Names(fs, order[i], name) {
      assert Followed(fs, search, order, levels, order[i], name, levels[i] + 1);
      var j :| 0 <= j < |order| && ResolvesTo(fs, Dirs(fs, order[i], search), name, order[j]) && levels[j] <= levels[i] + 1;
      assert order[j] in fs.sources;
    }
  }

  // A front import that cannot be followed makes the closure broken.
  lemma {:induction false} FrontBroken(fs: Files, search: seq<string>, root: string, order: seq<string>, levels: seq<nat>,
                                       queue: seq<(string, string)>, pending: seq<nat>)
    requires Search(fs, search, root, order, levels, queue, pending) && queue != []
    requires forall x :: ResolvesTo(fs, [queue[0].0] + search, queue[0].1, x) ==> x !in fs.sources
    ensures Broken(fs, search, Some(root))
  {
    hide ResolvesTo, Walk, Covered;
    assert Justified(fs, order, levels, queue[0], pending[0]);
    var i :| 0 <= i < |order| && queue[0].0 == Parent(fs, order[i]) && Names(fs, order[i], queue[0].1)
             && pending[0] == levels[i] + 1;
    assert Reachable(fs, search, root, order[i]) by { assert Walk(fs, search, root, order[i], levels[i]); }
    assert BrokenImport(fs, search, order[i], queue[0].1);
  }

  // ------------------------------------------------------ spec_from_files

  // Every path that resolution can return.
  ghost function Targets(fs: Files): set<string> {
    set d | d in fs.places && fs.places[d].Some? :: fs.places[d].value
  }

  lemma {:induction false} InTargets(fs: Files, dirs: seq<string>, name: string, path: string)
    requires ResolvesTo(fs, dirs, name, path)
    ensures path in Targets(fs)
  {
    var i :| 0 <= i < |dirs| && (dirs[i], name) in fs.places;
  }

  ghost function SourcesOf(fs: Files, order: seq<string>): seq<string>
    requires forall i :: 0 <= i < |order| ==> order[i] in fs.sources
  {
    seq(|order|, i requires 0 <= i < |order| => fs.sources[order[i]])
  }

  lemma {:induction false} SourcesGrow(fs: Files, order: seq<string>, path: string)
    requires (forall i :: 0 <= i < |order| ==> order[i] in fs.sources) && path in fs.sources
    ensures SourcesOf(fs, order + [path]) == SourcesOf(fs, order) + [fs.sources[path]] && SourcesOf(fs, []) == []
  {
  }

  method Enqueue(queue: seq<(string, string)>, dir: string, names: seq<string>) returns (longer: seq<(string, string)>)
    ensures longer == queue + Entries(dir, names)
  {
    longer := queue;
    for i := 0 to |names|
      invariant longer == queue + Entries(dir, names)[..i]
    {
      longer := longer + [(dir, names[i])];
    }
  }

  // spec_from_files, from the canonical path of the root: it fails iff something reachable is
  // missing, ambiguous or unreadable; otherwise it returns the sources of the closure in order.
  method SpecFromFiles(fs: Files, search: seq<string>, root: Option<string>)
    returns (sources: Option<seq<string>>, ghost order: seq<string>, ghost levels: seq<nat>)
    ensures sources.None? <==> Broken(fs, search, root)
    ensures sources.Some? ==>
      && root.Some? && Closure(fs, search, root.value, order, levels)
      && (forall i :: 0 <= i < |order| ==> order[i] in fs.sources)
      && sources.value == SourcesOf(fs, order)
  {
    order, levels := [], [];
    if root.None? || root.value !in fs.sources { return None, order, levels; }
    hide Imports, ResolvesTo, Search, Broken, Closure, Targets, SourcesOf, Entries, Same, Parent;
    var path := root.value;
    var source := fs.sources[path];
    var read := [source];
    var visited := {path};
    order, levels := [path], [0];
    var names := ImportNames(source);
    var queue := Enqueue([], Parent(fs, path), names);
    ghost var pending := Same(|names|, 1);
    assert queue == Entries(Parent(fs, path), names);
    Begin(fs, search, path);
    SourcesGrow(fs, [], path);
    assert [] + [path] == order && SourcesOf(fs, []) + [source] == read;
    while queue != []
      invariant Search(fs, search, root.value, order, levels, queue, pending)
      invariant |queue| == |pending|
      invariant forall p :: p in visited <==> p in order
      invariant forall i :: 0 <= i < |order| ==> order[i] in fs.sources
      invariant read == SourcesOf(fs, order)
      decreases Targets(fs) - visited, |queue|
    {
      var next := ResolveModule(fs, queue[0].0, queue[0].1, search);
      if next.None? {
        FrontBroken(fs, search, root.value, order, levels, queue, pending);
        return None, order, levels;
      }
      path := next.value;
      if path in visited {
        ghost var j :| 0 <= j < |order| && order[j] == path;
        PopKnown(fs, search, root.value, order, levels, queue, pending, j);
        queue, pending := queue[1..], pending[1..];
      } else {
        if path !in fs.sources {
          OnlyUnreadable(fs, [queue[0].0] + search, queue[0].1, path);
          FrontBroken(fs, search, root.value, order, levels, queue, pending);
          return None, order, levels;
        }
        PopNew(fs, search, root.value, order, levels, queue, pending, path);
        SourcesGrow(fs, order, path);
        InTargets(fs, [queue[0].0] + search, queue[0].1, path);
        visited := visited + {path};
        source := fs.sources[path];
        names := ImportNames(source);
        queue := Enqueue(queue[1..], Parent(fs, path), names);
        order, levels, pending := order + [path], levels + [pending[0]], pending[1..] + Same(|names|, pending[0] + 1);
        read := read + [source];
      }
    }
    assert pending == [];
    SearchEnds(fs, search, root.value, order, levels);
    sources := Some(read);
  }

  lemma {:induction false} OnlyUnreadable(fs: Files, dirs: seq<string>, name: string, path: string)
    requires ResolvesTo(fs, dirs, name, path) && path !in fs.sources
    ensures forall x :: ResolvesTo(fs, dirs, name, x) ==> x !in fs.sources
  {
    hide ResolvesTo;
    forall x | ResolvesTo(fs, dirs, name, x) ensures x !in fs.sources { ResolvesToOne(fs, dirs, name, path, x); }
  }
}
