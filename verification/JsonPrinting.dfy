// The compact text of a JSON tree as a derivation without white space.
module JsonPrinting {
  import opened Wrappers
  import opened JsonText
  import opened JsonString
  import opened JsonTree
  import opened JsonGrammar
  import opened OrderedMap

  // The number of values in a tree and its nesting.
  function Size(j: Json): nat
    decreases j, 1
  {
    match j
    case Array(items) => 1 + SizeItems(items)
    case Object(members) => 1 + SizeMembers(members)
    case _ => 1
  }

  function SizeItems(items: seq<Json>): nat
    decreases items, 0
  {
    if items == [] then 0 else Size(items[0]) + SizeItems(items[1..])
  }

  function SizeMember(m: (string, Json)): nat
    decreases m, 0
  {
    Size(m.1)
  }

  function SizeMembers(members: seq<(string, Json)>): nat
    decreases members, 0
  {
    if members == [] then 0 else SizeMember(members[0]) + SizeMembers(members[1..])
  }

  function Depth(j: Json): nat
    decreases j, 1
  {
    match j
    case Array(items) => 1 + DepthItems(items)
    case Object(members) => 1 + DepthMembers(members)
    case _ => 0
  }

  function DepthItems(items: seq<Json>): nat
    decreases items, 0
  {
    if items == [] then 0 else Max(Depth(items[0]), DepthItems(items[1..]))
  }

  function DepthMember(m: (string, Json)): nat
    decreases m, 0
  {
    Depth(m.1)
  }

  function DepthMembers(members: seq<(string, Json)>): nat
    decreases members, 0
  {
    if members == [] then 0 else Max(DepthMember(members[0]), DepthMembers(members[1..]))
  }

  // ------------------------------------------------------ trees as they are written

  // Every number is one of RFC 8259 and every object has distinct keys, in any order.
  ghost predicate Writable(j: Json)
    decreases j
  {
    match j
    case Number(text) => IsNumber(text)
    case Array(items) => forall i :: 0 <= i < |items| ==> Writable(items[i])
    case Object(members) => Distinct(Names(members)) && forall i :: 0 <= i < |members| ==> Writable(members[i].1)
    case _ => true
  }

  function Names(ms: seq<(string, Json)>): (r: seq<string>)
    ensures |r| == |ms|
  {
    if ms == [] then [] else [ms[0].0] + Names(ms[1..])
  }

  // The tree that is stored for one that is written: all members in key order.
  function Normal(j: Json): Json
    decreases j, 1
  {
    match j
    case Array(items) => Array(NormalItems(items))
    case Object(members) => Object(Gather([], NormalMembers(members)))
    case _ => j
  }

  function NormalItems(items: seq<Json>): (r: seq<Json>)
    ensures |r| == |items|
    decreases items, 0
  {
    if items == [] then [] else [Normal(items[0])] + NormalItems(items[1..])
  }

  function NormalMember(m: (string, Json)): (string, Json)
    decreases m, 0
  {
    (m.0, Normal(m.1))
  }

  function NormalMembers(members: seq<(string, Json)>): (r: seq<(string, Json)>)
    ensures |r| == |members|
    decreases members, 0
  {
    if members == [] then [] else [NormalMember(members[0])] + NormalMembers(members[1..])
  }

  // ------------------------------------------------------ the derivation of a printed text

  ghost predicate Prints(j: Json, x: Tree) {
    && WF(x) && Render(x) == Print(j) && Value(x) == Normal(j) && NoRepeats(x) && Count(x) == Size(j)
    && Height(x) == Depth(j)
  }

  ghost predicate PrintsItems(js: seq<Json>, items: seq<Item>) {
    && |items| == |js| && ItemsOk(items) && (js != [] ==> RenderItems(items) == PrintItems(js)) && Values(items) == NormalItems(js)
    && NoRepeatsIn(items) && CountItems(items) == SizeItems(js) && HeightItems(items) == DepthItems(js)
  }

  ghost predicate PrintsMembers(ms: seq<(string, Json)>, members: seq<Member>) {
    && |members| == |ms| && MembersOk(members) && (ms != [] ==> RenderMembers(members) == PrintMembers(ms))
    && NoRepeatsUnder(members) && CountMembers(members) == SizeMembers(ms) && HeightMembers(members) == DepthMembers(ms)
    && (forall i :: 0 <= i < |ms| ==> MemberOf(ms[i], members[i]))
  }

  ghost predicate MemberOf(e: (string, Json), y: Member) {
    MemberOk(y) && ItemOk(y.item) && Key(y) == e.0 && Value(y.item.tree) == Normal(e.1)
  }

  lemma {:induction false} PrintsLeaf(j: Json) returns (x: Tree)
    requires Writable(j) && !j.Array? && !j.Object?
    ensures Prints(j, x)
  {
    match j
    case Null => x := Leaf(Word(j));
    case Bool(_) => x := Leaf(Word(j));
    case Number(text) =>
      var n :| NumeralOk(n) && Write(n) == text;
      x := Leaf(Numeric(n));
    case String(s) =>
      DecodeEscape(s);
      x := Leaf(Text(Escape(s)));
  }

  lemma {:induction false} ConsPrintsItems(j: Json, x: Tree, js: seq<Json>, items: seq<Item>)
    requires Prints(j, x) && PrintsItems(js, items)
    ensures PrintsItems([j] + js, [Item("", x, "")] + items)
  {
    hide Prints, Render, Print, WF, Value, NoRepeats, Count, Size, Height, Depth, Blank, Normal;
    var first := Item("", x, "");
    var all, more := [j] + js, [first] + items;
    PrintsParts(j, x);
    EmptyIsBlank();
    assert all[1..] == js && more[1..] == items;
    assert ItemOk(first);
    assert "" + Render(x) == Render(x);
    var tail := if js == [] then "]" else "," + RenderItems(items);
    assert "" + tail == tail && RenderItem(first) == Render(x);
    assert RenderItems(more) == Render(x) + tail;
    assert PrintItems(all) == Print(j) + tail;
  }

  lemma {:induction false} PrintsParts(j: Json, x: Tree)
    requires Prints(j, x)
    ensures WF(x) && Render(x) == Print(j) && Value(x) == Normal(j) && NoRepeats(x) && Count(x) == Size(j) && Height(x) == Depth(j)
  {
  }

  lemma {:induction false} EmptyIsBlank()
    ensures Blank("")
  {
  }

  // A member printed without white space, and what its derivation says.
  function Plain(k: string, x: Tree): Member { Member("", Escape(k), "", Item("", x, "")) }

  lemma {:induction false} PlainMember(k: string, j: Json, x: Tree)
    requires Prints(j, x)
    ensures MemberOf((k, j), Plain(k, x)) && Key(Plain(k, x)) == k && RenderItem(Plain(k, x).item) == Print(j)
    ensures RenderKey(Plain(k, x)) == Quoted(Escape(k)) + ":"
  {
    hide Prints, Render, Print, WF, Value, Decode, Escape, Quoted;
    var y := Plain(k, x);
    PrintsParts(j, x);
    DecodeEscape(k);
    assert Blank("") && ItemOk(y.item);
    assert "" + Render(x) == Render(x) && "" + ":" == ":";
    assert "" + (Quoted(Escape(k)) + ":") == Quoted(Escape(k)) + ":";
  }

  lemma {:induction false} RenderCons(y: Member, members: seq<Member>)
    requires MemberOk(y) && ItemOk(y.item) && MembersOk(members)
    ensures MembersOk([y] + members)
    ensures RenderMembers([y] + members)
         == RenderKey(y) + (RenderItem(y.item) + (y.item.after + (if members == [] then "}" else "," + RenderMembers(members))))
  {
    hide MemberOk, ItemOk, RenderKey, RenderItem;
    assert ([y] + members)[1..] == members;
  }

  lemma {:induction false} PrintCons(k: string, j: Json, ms: seq<(string, Json)>)
    ensures PrintMembers([(k, j)] + ms)
         == (Quoted(Escape(k)) + (":" + Print(j))) + (if ms == [] then "}" else "," + PrintMembers(ms))
  {
    hide Quoted, Escape;
    assert ([(k, j)] + ms)[1..] == ms;
  }

  lemma {:induction false} PlainText(k: string, j: Json, y: Member, ms: seq<(string, Json)>, members: seq<Member>)
    requires MemberOk(y) && ItemOk(y.item) && y.item.after == "" && PrintsMembers(ms, members)
    requires RenderItem(y.item) == Print(j) && RenderKey(y) == Quoted(Escape(k)) + ":"
    ensures MembersOk([y] + members) && RenderMembers([y] + members) == PrintMembers([(k, j)] + ms)
  {
    hide MemberOk, ItemOk, RenderKey, RenderItem, Print, PrintMembers, RenderMembers, Quoted, Escape, CountMembers,
         HeightMembers, NoRepeatsUnder, MemberOf, SizeMembers, DepthMembers;
    RenderCons(y, members);
    PrintCons(k, j, ms);
    var tail := if ms == [] then "}" else "," + RenderMembers(members);
    assert "" + tail == tail;
    Regroup(Quoted(Escape(k)), Print(j), tail);
  }

  lemma {:induction false} Regroup(key: string, value: string, tail: string)
    ensures (key + ":") + (value + tail) == (key + (":" + value)) + tail
  {
  }

  lemma {:induction false} PlainMeasures(k: string, j: Json, x: Tree, ms: seq<(string, Json)>, members: seq<Member>)
    requires Prints(j, x) && PrintsMembers(ms, members) && MemberOf((k, j), Plain(k, x))
    ensures var more := [Plain(k, x)] + members;
      && MembersOk(more) && NoRepeatsUnder(more) && CountMembers(more) == SizeMembers([(k, j)] + ms)
      && HeightMembers(more) == DepthMembers([(k, j)] + ms)
      && forall i :: 0 <= i < |more| ==> MemberOf(([(k, j)] + ms)[i], more[i])
  {
    hide Prints, Render, Print, Value, Decode, Escape, Blank, NoRepeats, Count, Height, Size, Depth, Normal;
    var all, more := [(k, j)] + ms, [Plain(k, x)] + members;
    PrintsParts(j, x);
    assert all[1..] == ms && more[1..] == members;
    assert SizeMember(all[0]) == Size(j) && DepthMember(all[0]) == Depth(j);
    assert forall i :: 0 < i < |all| ==> all[i] == ms[i - 1] && more[i] == members[i - 1];
  }

  lemma {:induction false} ConsPrintsMembers(k: string, j: Json, x: Tree, ms: seq<(string, Json)>, members: seq<Member>)
    requires Prints(j, x) && PrintsMembers(ms, members)
    ensures PrintsMembers([(k, j)] + ms, [Plain(k, x)] + members)
  {
    hide Prints, Render, Print, Value, Decode, Escape, Blank, NoRepeats, Count, Height, Size, Depth;
    PlainMember(k, j, x);
    PlainText(k, j, Plain(k, x), ms, members);
    PlainMeasures(k, j, x, ms, members);
  }

  lemma {:induction false} PrintsTree(j: Json) returns (x: Tree)
    requires Writable(j)
    ensures Prints(j, x)
    decreases j, 2
  {
    hide Render, NoRepeats, WF, Value, Count, Height, Size, Depth, Print, Prints, Normal;
    match j {
      case Array(js) =>
        var items := PrintsArray(js);
        x := List("", items);
        ArrayPrints(js, items);
      case Object(ms) =>
        var members := PrintsObject(ms);
        x := Dict("", members);
        ObjectPrints(ms, members);
      case _ =>
        x := PrintsLeaf(j);
    }
  }

  lemma {:induction false} ArrayPrints(js: seq<Json>, items: seq<Item>)
    requires PrintsItems(js, items)
    ensures Prints(Array(js), List("", items))
  {
    hide Decode, RenderItem, ItemOk, Spell, Denote, CountItems, HeightItems, SizeItems, DepthItems, NoRepeatsIn;
    if js == [] { EmptyPrints(); }
  }

  lemma {:induction false} EmptyPrints()
    ensures PrintItems([]) == "" + "]"
  {
  }

  lemma {:induction false} PrintsArray(js: seq<Json>) returns (items: seq<Item>)
    requires forall i :: 0 <= i < |js| ==> Writable(js[i])
    ensures PrintsItems(js, items)
    decreases js, 1
  {
    if js == [] {
      items := [];
    } else {
      hide Prints, PrintsItems;
      var x := PrintsTree(js[0]);
      var rest := PrintsArray(js[1..]);
      ConsPrintsItems(js[0], x, js[1..], rest);
      items := [Item("", x, "")] + rest;
      assert js == [js[0]] + js[1..];
    }
  }

  lemma {:induction false} ObjectText(ms: seq<(string, Json)>, members: seq<Member>)
    requires |members| == |ms| && MembersOk(members) && (ms != [] ==> RenderMembers(members) == PrintMembers(ms))
    ensures WF(Dict("", members)) && Render(Dict("", members)) == Print(Object(ms))
  {
    hide Decode, RenderItem, RenderKey, MemberOk, ItemOk;
    if ms == [] { assert "{" + ("" + "}") == "{" + PrintMembers([]); }
  }

  lemma {:induction false} ObjectPrints(ms: seq<(string, Json)>, members: seq<Member>)
    requires PrintsMembers(ms, members) && Distinct(Names(ms))
    ensures Prints(Object(ms), Dict("", members))
  {
    hide Decode, Print, Render, RenderMembers, PrintMembers, RenderItem, RenderKey, MemberOk, ItemOk, Collect, Less, MemberOf,
         Gather, Blank;
    ObjectText(ms, members);
    CollectPrints([], ms, members);
    KeysPrints(ms, members);
  }

  lemma {:induction false} KeysPrints(ms: seq<(string, Json)>, members: seq<Member>)
    requires |members| == |ms| && MembersOk(members)
    requires forall i :: 0 <= i < |ms| ==> MemberOf(ms[i], members[i])
    ensures Keys(members) == Names(ms)
    decreases |ms|
  {
    hide Decode, Value, Normal;
    if ms != [] {
      assert MemberOf(ms[0], members[0]);
      KeysPrints(ms[1..], members[1..]);
    }
  }

  lemma {:induction false} CollectPrints(acc: Entries<Json>, ms: seq<(string, Json)>, members: seq<Member>)
    requires |members| == |ms| && MembersOk(members)
    requires forall i :: 0 <= i < |ms| ==> MemberOf(ms[i], members[i])
    ensures Collect(acc, members) == Gather(acc, NormalMembers(ms))
    decreases |ms|
  {
    hide Decode, WF, Less, Insert, Normal;
    if ms != [] {
      assert MemberOf(ms[0], members[0]);
      var n := NormalMembers(ms);
      assert n[0] == (ms[0].0, Normal(ms[0].1)) && n[1..] == NormalMembers(ms[1..]);
      CollectPrints(Insert(acc, n[0].0, n[0].1), ms[1..], members[1..]);
    }
  }

  lemma {:induction false} PrintsObject(ms: seq<(string, Json)>) returns (members: seq<Member>)
    requires forall i :: 0 <= i < |ms| ==> Writable(ms[i].1)
    ensures PrintsMembers(ms, members)
    decreases ms, 1
  {
    if ms == [] {
      members := [];
    } else {
      hide Prints, PrintsMembers;
      var x := PrintsMember(ms[0]);
      var rest := PrintsObject(ms[1..]);
      ConsPrintsMembers(ms[0].0, ms[0].1, x, ms[1..], rest);
      members := [Plain(ms[0].0, x)] + rest;
      assert ms == [(ms[0].0, ms[0].1)] + ms[1..];
    }
  }

  lemma {:induction false} PrintsMember(e: (string, Json)) returns (x: Tree)
    requires Writable(e.1)
    ensures Prints(e.1, x)
    decreases e, 0
  {
    x := PrintsTree(e.1);
  }

  // ------------------------------------------------------ what is stored

  // What is stored already is stored as it is.
  lemma {:induction false} PrintableIsNormal(j: Json)
    requires Printable(j)
    ensures Writable(j) && Normal(j) == j
    decreases j, 2
  {
    hide Less;
    match j
    case Array(items) => PrintableItems(items);
    case Object(members) =>
      PrintableMembers(members);
      DistinctNames(members);
      GatherInOrder([], members);
      assert [] + members == members;
    case _ =>
  }

  lemma {:induction false} PrintableItems(items: seq<Json>)
    requires forall i :: 0 <= i < |items| ==> Printable(items[i])
    ensures (forall i :: 0 <= i < |items| ==> Writable(items[i])) && NormalItems(items) == items
    decreases items, 1
  {
    hide Printable, Writable, Normal;
    if items != [] {
      PrintableIsNormal(items[0]);
      PrintableItems(items[1..]);
      assert items == [items[0]] + items[1..];
    }
  }

  lemma {:induction false} PrintableMembers(members: seq<(string, Json)>)
    requires forall i :: 0 <= i < |members| ==> Printable(members[i].1)
    ensures (forall i :: 0 <= i < |members| ==> Writable(members[i].1)) && NormalMembers(members) == members
    decreases members, 1
  {
    hide Printable, Writable, Normal;
    if members != [] {
      PrintableMember(members[0]);
      PrintableMembers(members[1..]);
      assert members == [members[0]] + members[1..];
    }
  }

  lemma {:induction false} PrintableMember(m: (string, Json))
    requires Printable(m.1)
    ensures Writable(m.1) && NormalMember(m) == m
    decreases m, 0
  {
    hide Printable, Writable, Normal;
    PrintableIsNormal(m.1);
  }

  lemma {:induction false} NamesAre(ms: seq<(string, Json)>, i: nat)
    requires i < |ms|
    ensures Names(ms)[i] == ms[i].0
  {
    if i > 0 { NamesAre(ms[1..], i - 1); }
  }

  lemma {:induction false} DistinctNames(ms: seq<(string, Json)>)
    requires Sorted(ms)
    ensures Distinct(Names(ms))
  {
    hide Less, Names;
    forall i, j | 0 <= i < j < |ms| ensures Names(ms)[i] != Names(ms)[j] {
      NamesAre(ms, i);
      NamesAre(ms, j);
      LessIrreflexive(ms[i].0);
    }
  }

  lemma {:induction false} GatherInOrder(acc: Entries<Json>, ms: Entries<Json>)
    requires Sorted(acc + ms)
    ensures Gather(acc, ms) == acc + ms
    decreases |ms|
  {
    hide Less, Insert;
    if ms == [] {
      assert acc + ms == acc;
    } else {
      assert acc + [ms[0]] + ms[1..] == acc + ms;
      forall i | 0 <= i < |acc| ensures Less(acc[i].0, ms[0].0) {
        assert (acc + ms)[i] == acc[i] && (acc + ms)[|acc|] == ms[0];
      }
      InsertLast(acc, ms[0].0, ms[0].1);
      GatherInOrder(acc + [ms[0]], ms[1..]);
    }
  }

  // Storing loses nothing of a tree with distinct keys.
  lemma {:induction false} NormalMeasures(j: Json)
    requires Writable(j)
    ensures Size(Normal(j)) == Size(j) && Depth(Normal(j)) == Depth(j)
    decreases j, 2
  {
    match j
    case Array(items) => NormalItemsMeasures(items);
    case Object(members) =>
      NormalMembersMeasures(members);
      NormalNames(members);
      GatherMeasures([], NormalMembers(members));
    case _ =>
  }

  lemma {:induction false} NormalItemsMeasures(items: seq<Json>)
    requires forall i :: 0 <= i < |items| ==> Writable(items[i])
    ensures SizeItems(NormalItems(items)) == SizeItems(items) && DepthItems(NormalItems(items)) == DepthItems(items)
    decreases items, 1
  {
    hide Writable, Normal, Size, Depth;
    if items != [] {
      NormalMeasures(items[0]);
      NormalItemsMeasures(items[1..]);
    }
  }

  lemma {:induction false} NormalMembersMeasures(members: seq<(string, Json)>)
    requires forall i :: 0 <= i < |members| ==> Writable(members[i].1)
    ensures SizeMembers(NormalMembers(members)) == SizeMembers(members)
    ensures DepthMembers(NormalMembers(members)) == DepthMembers(members)
    decreases members, 1
  {
    hide Writable, Normal, Size, Depth;
    if members != [] {
      NormalMemberMeasures(members[0]);
      NormalMembersMeasures(members[1..]);
    }
  }

  lemma {:induction false} NormalMemberMeasures(m: (string, Json))
    requires Writable(m.1)
    ensures SizeMember(NormalMember(m)) == SizeMember(m) && DepthMember(NormalMember(m)) == DepthMember(m)
    decreases m, 0
  {
    hide Writable, Normal, Size, Depth;
    NormalMeasures(m.1);
  }

  lemma {:induction false} NormalNames(ms: seq<(string, Json)>)
    ensures Names(NormalMembers(ms)) == Names(ms)
  {
    hide Normal;
    if ms != [] { NormalNames(ms[1..]); }
  }

  lemma {:induction false} InsertNew(acc: Entries<Json>, k: string, j: Json)
    requires !Has(acc, k)
    ensures SizeMembers(Insert(acc, k, j)) == SizeMembers(acc) + Size(j)
    ensures DepthMembers(Insert(acc, k, j)) == Max(DepthMembers(acc), Depth(j))
  {
    hide Size, Depth;
    var r := Insert(acc, k, j);
    assert SizeMember((k, j)) == Size(j) && DepthMember((k, j)) == Depth(j);
    if acc == [] || Less(k, acc[0].0) {
      assert r[1..] == acc;
    } else {
      HasCons(acc[0], acc[1..], k);
      assert acc == [acc[0]] + acc[1..];
      InsertNew(acc[1..], k, j);
      assert r[1..] == Insert(acc[1..], k, j);
    }
  }

  lemma {:induction false} GatherMeasures(acc: Entries<Json>, ms: Entries<Json>)
    requires Distinct(Names(ms)) && Fresh(acc, Names(ms))
    ensures SizeMembers(Gather(acc, ms)) == SizeMembers(acc) + SizeMembers(ms)
    ensures DepthMembers(Gather(acc, ms)) == Max(DepthMembers(acc), DepthMembers(ms))
    decreases |ms|
  {
    hide Size, Depth, Insert, Has;
    if ms != [] {
      var more := Insert(acc, ms[0].0, ms[0].1);
      FreshStep(acc, ms[0].0, ms[0].1, Names(ms[1..]));
      InsertNew(acc, ms[0].0, ms[0].1);
      GatherMeasures(more, ms[1..]);
    }
  }

  // ------------------------------------------------------ bounds of what a derivation denotes

  lemma {:induction false} InsertMeasures(acc: Entries<Json>, k: string, j: Json)
    ensures SizeMembers(Insert(acc, k, j)) <= SizeMembers(acc) + Size(j)
    ensures DepthMembers(Insert(acc, k, j)) <= Max(DepthMembers(acc), Depth(j))
  {
    hide Size, Depth;
    var r := Insert(acc, k, j);
    assert SizeMember((k, j)) == Size(j) && DepthMember((k, j)) == Depth(j);
    if acc == [] || Less(k, acc[0].0) {
      assert r[1..] == acc;
    } else if k == acc[0].0 {
      assert r[1..] == acc[1..];
    } else {
      InsertMeasures(acc[1..], k, j);
      assert r[1..] == Insert(acc[1..], k, j);
    }
  }

  ghost predicate Stored(acc: Entries<Json>) {
    Sorted(acc) && forall i :: 0 <= i < |acc| ==> Printable(acc[i].1)
  }

  lemma {:induction false} InsertStored(acc: Entries<Json>, k: string, j: Json)
    requires Stored(acc) && Printable(j)
    ensures Stored(Insert(acc, k, j))
  {
    hide Printable, Insert;
    InsertSorted(acc, k, j);
    var r := Insert(acc, k, j);
    forall i | 0 <= i < |r| ensures Printable(r[i].1) {
      InsertEntry(acc, k, j, r[i]);
      assert r[i] in r;
    }
  }

  // A derivation denotes a printable tree, no larger and no deeper than itself.
  ghost predicate Bounds(x: Tree)
    requires WF(x)
  {
    Printable(Value(x)) && Size(Value(x)) <= Count(x) && Depth(Value(x)) <= Height(x)
  }

  lemma {:induction false} Bounded(x: Tree)
    requires WF(x)
    ensures Bounds(x)
    decreases x, 1
  {
    match x
    case Leaf(k) => {}
    case List(_, items) => BoundedItems(items);
    case Dict(_, members) => BoundedMembers([], members);
  }

  lemma {:induction false} BoundedItems(items: seq<Item>)
    requires ItemsOk(items)
    ensures forall i :: 0 <= i < |Values(items)| ==> Printable(Values(items)[i])
    ensures SizeItems(Values(items)) <= CountItems(items) && DepthItems(Values(items)) <= HeightItems(items)
    decreases items, 0
  {
    hide Printable, Size, Depth, Count, Height, Value, Blank;
    if items != [] {
      assert ItemOk(items[0]);
      BoundsParts(items[0].tree) by { Bounded(items[0].tree); }
      BoundedItems(items[1..]);
      assert Values(items)[1..] == Values(items[1..]);
    }
  }

  lemma {:induction false} BoundsParts(x: Tree)
    requires WF(x) && Bounds(x)
    ensures Printable(Value(x)) && Size(Value(x)) <= Count(x) && Depth(Value(x)) <= Height(x)
  {
  }

  lemma {:induction false} BoundedMembers(acc: Entries<Json>, members: seq<Member>)
    requires MembersOk(members) && Stored(acc)
    ensures Stored(Collect(acc, members))
    ensures SizeMembers(Collect(acc, members)) <= SizeMembers(acc) + CountMembers(members)
    ensures DepthMembers(Collect(acc, members)) <= Max(DepthMembers(acc), HeightMembers(members))
    decreases members, 0
  {
    hide Printable, Size, Depth, Count, Height, Value, Blank, Decode, Insert, Stored;
    if members != [] {
      var y := members[0];
      assert MemberOk(y) && ItemOk(y.item);
      BoundsParts(y.item.tree) by { Bounded(y.item.tree); }
      InsertMeasures(acc, Key(y), Value(y.item.tree));
      InsertStored(acc, Key(y), Value(y.item.tree));
      BoundedMembers(Insert(acc, Key(y), Value(y.item.tree)), members[1..]);
    }
  }
}
