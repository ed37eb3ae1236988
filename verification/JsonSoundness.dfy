// What the parser reads is derivable: every accepted text has a derivation within the limits,
// and the value returned is what the derivation denotes.
module JsonSoundness {
  import opened Wrappers
  import opened JsonText
  import opened JsonString
  import opened JsonTree
  import opened JsonReader
  import opened JsonGrammar
  import opened JsonSpans
  import opened OrderedMap

  lemma {:induction false} SpaceAt(t: string, at: nat) returns (space: string)
    requires at <= |t|
    ensures Blank(space) && At(t, at, space) && SkipSpace(t, at) == at + |space|
  {
    SkippedIsBlank(t, at);
    space := t[at..SkipSpace(t, at)];
  }

  lemma {:induction false} SoundWord(t: string, at: nat, nodes: nat, word: string, j: Json)
    requires at <= |t| && word != [] && ReadWord(t, at, nodes, word, j).Got?
    ensures At(t, at, word) && ReadWord(t, at, nodes, word, j) == Got(j, at + |word|, nodes)
  {
  }

  lemma {:induction false} SoundScalar(t: string, at: nat, nodes: nat) returns (k: Token)
    requires at < |t| && ReadScalar(t, at, nodes).Got?
    ensures TokenOk(k) && At(t, at, Spell(k))
    ensures ReadScalar(t, at, nodes) == Got(Denote(k), at + |Spell(k)|, nodes)
  {
    hide Decode, Write, ReadNumber, NumeralOk;
    var c := t[at];
    if c == QUOTE {
      var body := ReadStringSound(t, at);
      k := Text(body);
    } else if c == 't' {
      SoundWord(t, at, nodes, "true", Bool(true));
      k := Word(Bool(true));
    } else if c == 'f' {
      SoundWord(t, at, nodes, "false", Bool(false));
      k := Word(Bool(false));
    } else if c == 'n' {
      SoundWord(t, at, nodes, "null", Null);
      k := Word(Null);
    } else {
      var n := ReadNumberSound(t, at);
      k := Numeric(n);
      assert t[at..ReadNumber(t, at).value] == Write(n);
    }
  }

  lemma {:induction false} SoundLeaf(t: string, at: nat, m: nat, depth: nat, lim: Limits) returns (x: Tree)
    requires at < |t| && m + 1 <= lim.maxNodes && depth <= lim.maxDepth && ReadScalar(t, at, m + 1).Got?
    ensures var r := ReadScalar(t, at, m + 1);
      ValueSpan(t, at, x, r.at, m, r.nodes, depth, lim) && r.json == Value(x)
  {
    var k := SoundScalar(t, at, m + 1);
    LeafSpan(t, at, k, ReadScalar(t, at, m + 1).at, m, depth, lim);
    x := Leaf(k);
  }

  lemma {:induction false} SoundValue(t: string, at: nat, m: nat, depth: nat, lim: Limits, r: Read)
    returns (before: string, x: Tree)
    requires at <= |t| && depth <= lim.maxDepth && r == ReadValue(t, at, m, depth, lim) && r.Got?
    ensures Blank(before) && At(t, at, before)
    ensures ValueSpan(t, at + |before|, x, r.at, m, r.nodes, depth, lim) && r.json == Value(x)
    decreases |t| - at, 2
  {
    hide ReadItems, ReadMembers, ReadArray, ReadObject, ReadScalar;
    before := SpaceAt(t, at);
    var s := at + |before|;
    if t[s] == '{' {
      x := SoundObject(t, s, m, depth, lim, r);
    } else if t[s] == '[' {
      x := SoundArray(t, s, m, depth, lim, r);
    } else {
      x := SoundLeaf(t, s, m, depth, lim);
    }
  }

  lemma {:induction false} SoundArray(t: string, at: nat, m: nat, depth: nat, lim: Limits, r: Read) returns (x: Tree)
    requires at < |t| && t[at] == '[' && m + 1 <= lim.maxNodes && depth + 1 <= lim.maxDepth
    requires r == ReadArray(t, at + 1, m + 1, depth + 1, lim) && r.Got?
    ensures ValueSpan(t, at, x, r.at, m, r.nodes, depth, lim) && r.json == Value(x)
    decreases |t| - at, 1
  {
    hide ReadValue, ReadItems, ReadMembers, ReadArray, ReadObject, ReadScalar, ReadKey;
    var empty := ArrayTurn(t, at + 1, m + 1, depth + 1, lim, r);
    if empty {
      var space := SpaceAt(t, at + 1);
      CharAt(t, at + 1 + |space|, "]");
      EmptyList(t, at, space, m, depth, lim);
      x := List(space, []);
    } else {
      var items := SoundItems(t, at + 1, m + 1, depth + 1, [], lim, r);
      ListSpan(t, at, items, r.at, m, r.nodes, depth, lim);
      x := List("", items);
      assert [] + Values(items) == Values(items);
    }
  }

  // `items` is what the array loop has still to read when `acc` is read, and `r` its result.
  ghost predicate ItemsRead(t: string, at: nat, m: nat, depth: nat, acc: seq<Json>, lim: Limits, r: Read, items: seq<Item>) {
    r.Got? && ItemsSpan(t, at, items, r.at, m, r.nodes, depth, lim) && r.json == Array(acc + Values(items))
  }

  lemma {:induction false} MoreItems(t: string, at: nat, m: nat, depth: nat, acc: seq<Json>, lim: Limits, r: Read,
                  before: string, x: Tree, v: Read, after: string, rest: seq<Item>)
    requires Blank(before) && At(t, at, before) && v.Got?
    requires ValueSpan(t, at + |before|, x, v.at, m, v.nodes, depth, lim) && v.json == Value(x)
    requires Blank(after) && At(t, v.at, after) && At(t, v.at + |after|, ",")
    requires ItemsRead(t, v.at + |after| + 1, v.nodes, depth, acc + [v.json], lim, r, rest)
    ensures ItemsRead(t, at, m, depth, acc, lim, r, [Item(before, x, after)] + rest)
  {
    ConsItem(t, at, before, x, v.at, after, rest, r.at, m, v.nodes, r.nodes, depth, lim);
    assert acc + [v.json] + Values(rest) == acc + ([v.json] + Values(rest));
  }

  lemma {:induction false} SoundItem(t: string, at: nat, m: nat, depth: nat, lim: Limits, v: Read)
    returns (before: string, x: Tree, after: string)
    requires at <= |t| && depth <= lim.maxDepth && v == ReadValue(t, at, m, depth, lim) && v.Got?
    ensures Blank(before) && At(t, at, before)
    ensures ValueSpan(t, at + |before|, x, v.at, m, v.nodes, depth, lim) && v.json == Value(x)
    ensures Blank(after) && At(t, v.at, after) && SkipSpace(t, v.at) == v.at + |after|
    decreases |t| - at, 3
  {
    before, x := SoundValue(t, at, m, depth, lim, v);
    after := SpaceAt(t, v.at);
  }

  lemma {:induction false} LastItemRead(t: string, at: nat, m: nat, depth: nat, acc: seq<Json>, lim: Limits, r: Read,
                  before: string, x: Tree, v: Read, after: string)
    requires Blank(before) && At(t, at, before) && v.Got?
    requires ValueSpan(t, at + |before|, x, v.at, m, v.nodes, depth, lim) && v.json == Value(x)
    requires Blank(after) && At(t, v.at, after) && At(t, v.at + |after|, "]")
    requires r == Got(Array(acc + [v.json]), v.at + |after| + 1, v.nodes)
    ensures ItemsRead(t, at, m, depth, acc, lim, r, [Item(before, x, after)])
  {
    hide At, Blank, ValueSpan;
    LastItem(t, at, before, x, v.at, after, m, v.nodes, depth, lim);
    assert Values([Item(before, x, after)]) == [Value(x)];
  }

  lemma {:induction false} SoundItems(t: string, at: nat, m: nat, depth: nat, acc: seq<Json>, lim: Limits, r: Read)
    returns (items: seq<Item>)
    requires at <= |t| && depth <= lim.maxDepth && r == ReadItems(t, at, m, depth, acc, lim) && r.Got?
    ensures ItemsRead(t, at, m, depth, acc, lim, r, items)
    decreases |t| - at, 4
  {
    hide ReadValue, ReadItems, ReadMembers, ReadArray, ReadObject, ReadScalar, ReadKey, At, ItemsRead, ItemsSpan, Blank;
    var v, e := ItemsTurn(t, at, m, depth, acc, lim, r);
    var before, x, after := SoundItem(t, at, m, depth, lim, v);
    if t[e] == ',' {
      CharAt(t, e, ",");
      var rest := SoundItems(t, e + 1, v.nodes, depth, acc + [v.json], lim, r);
      MoreItems(t, at, m, depth, acc, lim, r, before, x, v, after, rest);
      items := [Item(before, x, after)] + rest;
    } else {
      CharAt(t, e, "]");
      LastItemRead(t, at, m, depth, acc, lim, r, before, x, v, after);
      items := [Item(before, x, after)];
    }
  }

  // ------------------------------------------------------ objects

  lemma {:induction false} SoundKey(t: string, at: nat) returns (before: string, body: string, between: string)
    requires at <= |t| && ReadKey(t, at).Some?
    ensures Decode(body) == Some(ReadKey(t, at).value.0)
    ensures KeySpan(t, at, before, body, between, ReadKey(t, at).value.1)
  {
    hide At, Scan, Decode;
    before := SpaceAt(t, at);
    var s := at + |before|;
    body := ReadStringSound(t, s);
    var c := s + |Quoted(body)|;
    between := SpaceAt(t, c);
    CharAt(t, c + |between|, ":");
    JoinKey(t, at, before, body, between);
  }

  lemma {:induction false} JoinKey(t: string, at: nat, before: string, body: string, between: string)
    requires At(t, at, before) && At(t, at + |before|, Quoted(body))
    requires At(t, at + |before| + |Quoted(body)|, between) && At(t, at + |before| + |Quoted(body)| + |between|, ":")
    ensures At(t, at, before + (Quoted(body) + (between + ":")))
  {
    hide At, Quoted;
    var s := at + |before|;
    JoinAt(t, s + |Quoted(body)|, between, ":");
    JoinAt(t, s, Quoted(body), between + ":");
    JoinAt(t, at, before, Quoted(body) + (between + ":"));
  }

  lemma {:induction false} CollectCons(acc: Entries<Json>, first: Member, rest: seq<Member>)
    requires MemberOk(first) && MembersOk(rest)
    ensures MembersOk([first] + rest) && ItemOk(first.item)
    ensures Collect(acc, [first] + rest) == Collect(Insert(acc, Key(first), Value(first.item.tree)), rest)
    ensures Keys([first] + rest) == [Key(first)] + Keys(rest)
  {
    assert ([first] + rest)[1..] == rest;
  }

  lemma {:induction false} SoundObject(t: string, at: nat, m: nat, depth: nat, lim: Limits, r: Read) returns (x: Tree)
    requires at < |t| && t[at] == '{' && m + 1 <= lim.maxNodes && depth + 1 <= lim.maxDepth
    requires r == ReadObject(t, at + 1, m + 1, depth + 1, lim) && r.Got?
    ensures ValueSpan(t, at, x, r.at, m, r.nodes, depth, lim) && r.json == Value(x)
    decreases |t| - at, 1
  {
    hide ReadValue, ReadItems, ReadMembers, ReadArray, ReadObject, ReadScalar, ReadKey, RenderMembers, MembersOk, SkipSpace;
    var empty := ObjectTurn(t, at + 1, m + 1, depth + 1, lim, r);
    if empty {
      var space := SpaceAt(t, at + 1);
      CharAt(t, at + 1 + |space|, "}");
      EmptyDict(t, at, space, m, depth, lim);
      x := Dict(space, []);
    } else {
      var ms := SoundMembers(t, at + 1, m + 1, depth + 1, [], lim, r);
      DictSpan(t, at, ms, r.at, m, r.nodes, depth, lim);
      x := Dict("", ms);
    }
  }

  // `ms` is what the object loop has still to read when `acc` is stored, and `r` its result.
  ghost predicate MembersRead(t: string, at: nat, m: nat, depth: nat, acc: Entries<Json>, lim: Limits, r: Read,
                              ms: seq<Member>) {
    && r.Got? && MembersSpan(t, at, ms, r.at, m, r.nodes, depth, lim) && r.json == Object(Collect(acc, ms))
    && (lim.rejectDuplicateKeys ==> Distinct(Keys(ms)) && Fresh(acc, Keys(ms)))
  }

  // `y` is the member read at `at`, with its key ending at `k` and its value read as `v`.
  ghost predicate MemberRead(t: string, at: nat, m: nat, depth: nat, lim: Limits, y: Member, k: nat, v: Read) {
    && MemberOk(y) && ItemOk(y.item) && KeySpan(t, at, y.before, y.body, y.between, k) && At(t, k, y.item.before)
    && v.Got? && ValueSpan(t, k + |y.item.before|, y.item.tree, v.at, m, v.nodes, depth, lim)
    && v.json == Value(y.item.tree) && At(t, v.at, y.item.after)
  }

  lemma {:induction false} MoreMembers(t: string, at: nat, m: nat, depth: nat, acc: Entries<Json>, lim: Limits, r: Read,
                    y: Member, k: nat, v: Read, rest: seq<Member>)
    requires MemberRead(t, at, m, depth, lim, y, k, v) && At(t, v.at + |y.item.after|, ",")
    requires lim.rejectDuplicateKeys ==> !Has(acc, Key(y))
    requires MembersRead(t, v.at + |y.item.after| + 1, v.nodes, depth, Insert(acc, Key(y), v.json), lim, r, rest)
    ensures MembersRead(t, at, m, depth, acc, lim, r, [y] + rest)
  {
    ConsMember(t, at, y, k, v.at, rest, r.at, m, v.nodes, r.nodes, depth, lim);
    CollectCons(acc, y, rest);
    FreshStep(acc, Key(y), v.json, Keys(rest));
  }

  lemma {:induction false} NoMoreMembers(t: string, at: nat, m: nat, depth: nat, acc: Entries<Json>, lim: Limits, y: Member, k: nat, v: Read)
    requires MemberRead(t, at, m, depth, lim, y, k, v) && At(t, v.at + |y.item.after|, "}")
    requires lim.rejectDuplicateKeys ==> !Has(acc, Key(y))
    ensures MembersRead(t, at, m, depth, acc, lim,
                        Got(Object(Insert(acc, Key(y), v.json)), v.at + |y.item.after| + 1, v.nodes), [y])
  {
    LastMember(t, at, y, k, v.at, m, v.nodes, depth, lim);
    assert [y] + [] == [y];
    CollectCons(acc, y, []);
    FreshStep(acc, Key(y), v.json, []);
  }

  lemma {:induction false} SoundMember(t: string, at: nat, m: nat, depth: nat, lim: Limits, k: (string, nat), v: Read)
    returns (y: Member)
    requires at <= |t| && depth <= lim.maxDepth && ReadKey(t, at) == Some(k)
    requires v == ReadValue(t, k.1, m, depth, lim) && v.Got?
    ensures MemberRead(t, at, m, depth, lim, y, k.1, v) && Key(y) == k.0
    ensures SkipSpace(t, v.at) == v.at + |y.item.after|
    decreases |t| - at, 3
  {
    hide ReadItems, ReadMembers, ReadArray, ReadObject, ReadScalar, ReadKey, ReadValue, NoRepeats, Render;
    var before, body, between := SoundKey(t, at);
    var space, x := SoundValue(t, k.1, m, depth, lim, v);
    var after := SpaceAt(t, v.at);
    y := Member(before, body, between, Item(space, x, after));
    assert ItemOk(y.item) && MemberOk(y);
  }

  lemma {:induction false} SoundMembers(t: string, at: nat, m: nat, depth: nat, acc: Entries<Json>, lim: Limits, r: Read)
    returns (ms: seq<Member>)
    requires at <= |t| && depth <= lim.maxDepth && r == ReadMembers(t, at, m, depth, acc, lim) && r.Got?
    ensures MembersRead(t, at, m, depth, acc, lim, r, ms)
    decreases |t| - at, 4
  {
    hide ReadValue, ReadItems, ReadMembers, ReadArray, ReadObject, ReadScalar, ReadKey, At;
    var k, v, e := MembersTurn(t, at, m, depth, acc, lim, r);
    var y := SoundMember(t, at, m, depth, lim, k, v);
    if t[e] == ',' {
      CharAt(t, e, ",");
      var rest := SoundMembers(t, e + 1, v.nodes, depth, Insert(acc, k.0, v.json), lim, r);
      MoreMembers(t, at, m, depth, acc, lim, r, y, k.1, v, rest);
      ms := [y] + rest;
    } else {
      CharAt(t, e, "}");
      NoMoreMembers(t, at, m, depth, acc, lim, y, k.1, v);
      ms := [y];
    }
  }
}
