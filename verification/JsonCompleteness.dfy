// Every derivation within the limits is read, and read as what it denotes.
module JsonCompleteness {
  import opened Wrappers
  import opened JsonText
  import opened JsonString
  import opened JsonTree
  import opened JsonReader
  import opened JsonGrammar
  import opened JsonSpans
  import opened OrderedMap

  lemma {:induction false} StartsAt(t: string, at: nat, word: string)
    requires At(t, at, word)
    ensures Starts(t, at, word)
  {
    assert t[at..][..|word|] == t[at..at + |word|];
  }

  lemma {:induction false} WordRead(t: string, at: nat, nodes: nat, j: Json)
    requires (j.Null? || j.Bool?) && At(t, at, Spell(Word(j)))
    ensures at < |t| && ReadScalar(t, at, nodes) == Got(j, at + |Spell(Word(j))|, nodes)
  {
    StartsAt(t, at, Spell(Word(j)));
    AtChar(t, at, Spell(Word(j)), 0);
  }

  lemma {:induction false} NumberRead(t: string, at: nat, nodes: nat, n: Numeral)
    requires NumeralOk(n) && At(t, at, Write(n)) && Stops(t, at + |Write(n)|)
    ensures at < |t| && (t[at] == '-' || IsDigit(t[at]))
    ensures ReadScalar(t, at, nodes) == Got(Number(Write(n)), at + |Write(n)|, nodes)
  {
    hide ReadNumber;
    AtChar(t, at, Write(n), 0);
    ReadNumberComplete(t, at, n);
  }

  lemma {:induction false} TextRead(t: string, at: nat, nodes: nat, body: string)
    requires Decode(body).Some? && At(t, at, Quoted(body))
    ensures at < |t| && t[at] == QUOTE
    ensures ReadScalar(t, at, nodes) == Got(String(Decode(body).value), at + |Quoted(body)|, nodes)
  {
    ReadStringComplete(t, at, body);
  }

  lemma {:induction false} CompleteScalar(t: string, at: nat, nodes: nat, k: Token)
    requires TokenOk(k) && At(t, at, Spell(k)) && Stops(t, at + |Spell(k)|)
    ensures at < |t| && !IsSpace(t[at]) && t[at] != '[' && t[at] != '{'
    ensures ReadScalar(t, at, nodes) == Got(Denote(k), at + |Spell(k)|, nodes)
  {
    match k
    case Word(j) =>
      AtChar(t, at, Spell(k), 0);
      WordRead(t, at, nodes, j);
    case Numeric(n) => NumberRead(t, at, nodes, n);
    case Text(body) => TextRead(t, at, nodes, body);
  }

  // A value is read from its first character, whatever white space is before it.
  lemma {:induction false} ReadAfterSpace(t: string, at: nat, before: string, m: nat, depth: nat, lim: Limits)
    requires Blank(before) && At(t, at, before)
    requires at + |before| < |t| && !IsSpace(t[at + |before|]) && m + 1 <= lim.maxNodes
    ensures var s := at + |before|;
      ReadValue(t, at, m, depth, lim)
      == (if t[s] == '{' then if depth >= lim.maxDepth then Bad else ReadObject(t, s + 1, m + 1, depth + 1, lim)
          else if t[s] == '[' then if depth >= lim.maxDepth then Bad else ReadArray(t, s + 1, m + 1, depth + 1, lim)
          else ReadScalar(t, s, m + 1))
  {
    SkipBlank(t, at, before);
  }

  lemma {:induction false} CompleteValue(t: string, at: nat, before: string, x: Tree, end: nat, m: nat, n: nat, depth: nat,
                                         lim: Limits)
    requires Blank(before) && At(t, at, before) && ValueSpan(t, at + |before|, x, end, m, n, depth, lim) && Stops(t, end)
    ensures at <= |t| && ReadValue(t, at, m, depth, lim) == Got(Value(x), end, n)
    decreases x, 2
  {
    hide ReadValue, ReadItems, ReadMembers, ReadArray, ReadObject, ReadScalar, ReadKey;
    var s := at + |before|;
    match x {
      case Leaf(k) =>
        CompleteScalar(t, s, m + 1, k);
      case List(_, _) =>
        AtSplit(t, s, "[", Render(x)[1..]);
        AtChar(t, s, Render(x), 0);
        CompleteArray(t, s, x, end, m, n, depth, lim);
      case Dict(_, _) =>
        AtChar(t, s, Render(x), 0);
        CompleteObject(t, s, x, end, m, n, depth, lim);
    }
    ReadAfterSpace(t, at, before, m, depth, lim);
  }

  lemma {:induction false} EmptyArrayRead(t: string, at: nat, space: string, m: nat, depth: nat, lim: Limits)
    requires Blank(space) && At(t, at, space + "]")
    ensures at <= |t| && ReadArray(t, at, m, depth, lim) == Got(Array([]), at + |space| + 1, m)
  {
    AtSplit(t, at, space, "]");
    AtChar(t, at + |space|, "]", 0);
    SkipBlank(t, at, space);
  }

  lemma {:induction false} EmptyListSpan(x: Tree)
    requires x.List? && x.items == [] && WF(x)
    ensures Render(x) == "[" + (x.space + "]") && Count(x) == 1 && Value(x) == Array([])
  {
    assert CountItems(x.items) == 0 && Values(x.items) == [];
  }

  lemma {:induction false} EmptyDictSpan(x: Tree)
    requires x.Dict? && x.members == [] && WF(x)
    ensures Render(x) == "{" + (x.space + "}") && Count(x) == 1 && Value(x) == Object([])
  {
    assert CountMembers(x.members) == 0 && Collect([], x.members) == [];
  }

  lemma {:induction false} CompleteArray(t: string, at: nat, x: Tree, end: nat, m: nat, n: nat, depth: nat, lim: Limits)
    requires x.List? && ValueSpan(t, at, x, end, m, n, depth, lim)
    ensures at + 1 <= |t| && ReadArray(t, at + 1, m + 1, depth + 1, lim) == Got(Value(x), end, n)
    decreases x, 1
  {
    hide ReadValue, ReadItems, ReadMembers, ReadArray, ReadObject, ReadScalar, ReadKey, At;
    if x.items == [] {
      AtSplit(t, at, "[", x.space + "]");
      EmptyArrayRead(t, at + 1, x.space, m + 1, depth + 1, lim);
      EmptyListSpan(x);
    } else {
      AtSplit(t, at, "[", RenderItems(x.items));
      CompleteItems(t, at + 1, x.items, end, m + 1, n, depth + 1, [], lim);
      ArrayNotEmpty(t, at + 1, x.items, end, m + 1, n, depth + 1, lim);
      assert [] + Values(x.items) == Values(x.items);
    }
  }

  // The first character of a value.
  lemma {:induction false} FirstOfToken(k: Token)
    requires TokenOk(k)
    ensures Spell(k) != [] && !IsSpace(Spell(k)[0]) && Spell(k)[0] !in ",]}"
  {
    hide Decode;
  }

  lemma {:induction false} FirstOfRender(x: Tree)
    requires WF(x)
    ensures Render(x) != [] && !IsSpace(Render(x)[0]) && Render(x)[0] !in ",]}"
  {
    hide TokenOk, Spell, Blank, ItemOk, MemberOk;
    if x.Leaf? { FirstOfToken(x.token); }
  }

  lemma {:induction false} FirstChar(t: string, at: nat, x: Tree)
    requires WF(x) && At(t, at, Render(x))
    ensures at < |t| && !IsSpace(t[at]) && t[at] !in ",]}"
  {
    hide WF, Render;
    FirstOfRender(x);
    AtChar(t, at, Render(x), 0);
  }

  lemma {:induction false} ArrayNotEmpty(t: string, at: nat, items: seq<Item>, end: nat, m: nat, n: nat, depth: nat, lim: Limits)
    requires ItemsSpan(t, at, items, end, m, n, depth, lim) && at <= |t|
    ensures ReadArray(t, at, m, depth, lim) == ReadItems(t, at, m, depth, [], lim)
  {
    hide ReadValue, ReadItems, ReadMembers, ReadArray, ReadObject, ReadScalar, ReadKey, At, RenderItems, Render, WF, ItemsOk;
    var v, e := UnconsItem(t, at, items, end, m, n, depth, lim);
    FirstChar(t, at + |items[0].before|, items[0].tree);
    SkipBlank(t, at, items[0].before);
    var empty := ArrayTurn(t, at, m, depth, lim, ReadArray(t, at, m, depth, lim));
  }

  lemma {:induction false} CompleteItems(t: string, at: nat, items: seq<Item>, end: nat, m: nat, n: nat, depth: nat,
                                         acc: seq<Json>, lim: Limits)
    requires ItemsSpan(t, at, items, end, m, n, depth, lim)
    ensures at <= |t| && ReadItems(t, at, m, depth, acc, lim) == Got(Array(acc + Values(items)), end, n)
    decreases items, 0
  {
    hide ReadValue, ReadItems, ReadMembers, ReadArray, ReadObject, ReadScalar, ReadKey, At, Stops;
    var i, k := items[0], m + Count(items[0].tree);
    var v, e := UnconsItem(t, at, items, end, m, n, depth, lim);
    ClosedStops(t, v, i.after, e, if |items| == 1 then ']' else ',');
    CompleteValue(t, at, i.before, i.tree, v, m, k, depth, lim);
    ItemsStep(t, at, m, depth, acc, lim, Got(Value(i.tree), v, k), e);
    if |items| == 1 {
      assert Values(items) == [Value(i.tree)];
    } else {
      CompleteItems(t, e + 1, items[1..], end, k, n, depth, acc + [Value(i.tree)], lim);
      assert acc + [Value(i.tree)] + Values(items[1..]) == acc + Values(items);
    }
  }

  lemma {:induction false} EmptyObjectRead(t: string, at: nat, space: string, m: nat, depth: nat, lim: Limits)
    requires Blank(space) && At(t, at, space + "}")
    ensures at <= |t| && ReadObject(t, at, m, depth, lim) == Got(Object([]), at + |space| + 1, m)
  {
    AtSplit(t, at, space, "}");
    AtChar(t, at + |space|, "}", 0);
    SkipBlank(t, at, space);
  }

  lemma {:induction false} CompleteObject(t: string, at: nat, x: Tree, end: nat, m: nat, n: nat, depth: nat, lim: Limits)
    requires x.Dict? && ValueSpan(t, at, x, end, m, n, depth, lim)
    ensures at + 1 <= |t| && ReadObject(t, at + 1, m + 1, depth + 1, lim) == Got(Value(x), end, n)
    decreases x, 1
  {
    hide ReadValue, ReadItems, ReadMembers, ReadArray, ReadObject, ReadScalar, ReadKey, At;
    if x.members == [] {
      AtSplit(t, at, "{", x.space + "}");
      EmptyObjectRead(t, at + 1, x.space, m + 1, depth + 1, lim);
      EmptyDictSpan(x);
    } else {
      AtSplit(t, at, "{", RenderMembers(x.members));
      CompleteMembers(t, at + 1, x.members, end, m + 1, n, depth + 1, [], lim);
      ObjectNotEmpty(t, at + 1, x.members, end, m + 1, n, depth + 1, lim);
    }
  }

  lemma {:induction false} KeyRead(t: string, at: nat, y: Member, k: nat)
    requires MemberOk(y) && KeySpan(t, at, y.before, y.body, y.between, k)
    ensures at <= |t| && ReadKey(t, at) == Some((Key(y), k))
    ensures SkipSpace(t, at) < |t| && t[SkipSpace(t, at)] == QUOTE
  {
    hide Decode, Scan, ReadString, At;
    var s := at + |y.before|;
    var c := s + |Quoted(y.body)|;
    AtSplit(t, at, y.before, Quoted(y.body) + (y.between + ":"));
    AtSplit(t, s, Quoted(y.body), y.between + ":");
    AtSplit(t, c, y.between, ":");
    AtChar(t, c + |y.between|, ":", 0);
    ReadStringComplete(t, s, y.body);
    SkipBlank(t, at, y.before);
    SkipBlank(t, c, y.between);
  }

  lemma {:induction false} ObjectNotEmpty(t: string, at: nat, ms: seq<Member>, end: nat, m: nat, n: nat, depth: nat, lim: Limits)
    requires MembersSpan(t, at, ms, end, m, n, depth, lim) && at <= |t|
    ensures ReadObject(t, at, m, depth, lim) == ReadMembers(t, at, m, depth, [], lim)
  {
    hide ReadValue, ReadItems, ReadMembers, ReadArray, ReadObject, ReadScalar, ReadKey, At;
    var k, v, e := UnconsMember(t, at, ms, end, m, n, depth, lim);
    KeyRead(t, at, ms[0], k);
    var empty := ObjectTurn(t, at, m, depth, lim, ReadObject(t, at, m, depth, lim));
  }

  lemma {:induction false} CompleteMembers(t: string, at: nat, ms: seq<Member>, end: nat, m: nat, n: nat, depth: nat,
                                           acc: Entries<Json>, lim: Limits)
    requires MembersSpan(t, at, ms, end, m, n, depth, lim)
    requires lim.rejectDuplicateKeys ==> Distinct(Keys(ms)) && Fresh(acc, Keys(ms))
    ensures at <= |t| && ReadMembers(t, at, m, depth, acc, lim) == Got(Object(Collect(acc, ms)), end, n)
    decreases ms, 0
  {
    hide ReadValue, ReadItems, ReadMembers, ReadArray, ReadObject, ReadScalar, ReadKey, At, Stops, KeySpan;
    var y, i, o := ms[0], ms[0].item, m + Count(ms[0].item.tree);
    var k, v, e := UnconsMember(t, at, ms, end, m, n, depth, lim);
    ClosedStops(t, v, i.after, e, if |ms| == 1 then '}' else ',');
    KeyRead(t, at, y, k);
    CompleteValue(t, k, i.before, i.tree, v, m, o, depth, lim);
    FreshStep(acc, Key(y), Value(i.tree), Keys(ms[1..]));
    MembersStep(t, at, m, depth, acc, lim, (Key(y), k), Got(Value(i.tree), v, o), e);
    if |ms| > 1 {
      CompleteMembers(t, e + 1, ms[1..], end, o, n, depth, Insert(acc, Key(y), Value(i.tree)), lim);
    }
  }
}
