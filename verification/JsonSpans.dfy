// Where the parts of a derivation lie in a text, and how derivations are put together.
module JsonSpans {
  import opened Wrappers
  import opened JsonText
  import opened JsonString
  import opened JsonTree
  import opened JsonGrammar
  import opened OrderedMap

  // `x` derives the text from `at` to `end`; counting its values takes the count from `m` to `n`;
  // opened under `depth` containers it keeps the limits.
  ghost predicate ValueSpan(t: string, at: nat, x: Tree, end: nat, m: nat, n: nat, depth: nat, lim: Limits) {
    && WF(x) && At(t, at, Render(x)) && end == at + |Render(x)|
    && n == m + Count(x) && n <= lim.maxNodes && depth + Height(x) <= lim.maxDepth
    && (lim.rejectDuplicateKeys ==> NoRepeats(x))
  }

  // The same for the items of an array, up to and including its closing bracket.
  ghost predicate ItemsSpan(t: string, at: nat, items: seq<Item>, end: nat, m: nat, n: nat, depth: nat, lim: Limits) {
    && items != [] && ItemsOk(items) && At(t, at, RenderItems(items)) && end == at + |RenderItems(items)|
    && n == m + CountItems(items) && n <= lim.maxNodes && depth + HeightItems(items) <= lim.maxDepth
    && (lim.rejectDuplicateKeys ==> NoRepeatsIn(items))
  }

  ghost predicate MembersSpan(t: string, at: nat, ms: seq<Member>, end: nat, m: nat, n: nat, depth: nat, lim: Limits) {
    && ms != [] && MembersOk(ms) && At(t, at, RenderMembers(ms)) && end == at + |RenderMembers(ms)|
    && n == m + CountMembers(ms) && n <= lim.maxNodes && depth + HeightMembers(ms) <= lim.maxDepth
    && (lim.rejectDuplicateKeys ==> NoRepeatsUnder(ms))
  }

  lemma {:induction false} JoinAt(t: string, a: nat, s: string, u: string)
    requires At(t, a, s) && At(t, a + |s|, u)
    ensures At(t, a, s + u)
  {
    AtSplit(t, a, s, u);
  }

  lemma {:induction false} CharAt(t: string, at: nat, s: string)
    requires |s| == 1 && at < |t| && t[at] == s[0]
    ensures At(t, at, s)
  {
    AtOne(t, at, s[0]);
    assert s == [s[0]];
  }

  // ------------------------------------------------------ leaves and brackets

  lemma {:induction false} LeafSpan(t: string, at: nat, k: Token, end: nat, m: nat, depth: nat, lim: Limits)
    requires TokenOk(k) && At(t, at, Spell(k)) && end == at + |Spell(k)|
    requires m + 1 <= lim.maxNodes && depth <= lim.maxDepth
    ensures ValueSpan(t, at, Leaf(k), end, m, m + 1, depth, lim) && Value(Leaf(k)) == Denote(k)
  {
  }

  lemma {:induction false} EmptyList(t: string, at: nat, space: string, m: nat, depth: nat, lim: Limits)
    requires at < |t| && t[at] == '[' && Blank(space) && At(t, at + 1, space) && At(t, at + 1 + |space|, "]")
    requires m + 1 <= lim.maxNodes && depth + 1 <= lim.maxDepth
    ensures ValueSpan(t, at, List(space, []), at + 2 + |space|, m, m + 1, depth, lim)
    ensures Value(List(space, [])) == Array([])
  {
    CharAt(t, at, "[");
    JoinAt(t, at + 1, space, "]");
    JoinAt(t, at, "[", space + "]");
  }

  lemma {:induction false} EmptyDict(t: string, at: nat, space: string, m: nat, depth: nat, lim: Limits)
    requires at < |t| && t[at] == '{' && Blank(space) && At(t, at + 1, space) && At(t, at + 1 + |space|, "}")
    requires m + 1 <= lim.maxNodes && depth + 1 <= lim.maxDepth
    ensures ValueSpan(t, at, Dict(space, []), at + 2 + |space|, m, m + 1, depth, lim)
    ensures Value(Dict(space, [])) == Object([])
  {
    CharAt(t, at, "{");
    JoinAt(t, at + 1, space, "}");
    JoinAt(t, at, "{", space + "}");
  }

  lemma {:induction false} ListSpan(t: string, at: nat, items: seq<Item>, end: nat, m: nat, n: nat, depth: nat, lim: Limits)
    requires at < |t| && t[at] == '[' && ItemsSpan(t, at + 1, items, end, m + 1, n, depth + 1, lim)
    ensures ValueSpan(t, at, List("", items), end, m, n, depth, lim)
    ensures Value(List("", items)) == Array(Values(items))
  {
    CharAt(t, at, "[");
    JoinAt(t, at, "[", RenderItems(items));
  }

  lemma {:induction false} DictSpan(t: string, at: nat, ms: seq<Member>, end: nat, m: nat, n: nat, depth: nat, lim: Limits)
    requires at < |t| && t[at] == '{' && MembersSpan(t, at + 1, ms, end, m + 1, n, depth + 1, lim)
    requires lim.rejectDuplicateKeys ==> Distinct(Keys(ms))
    ensures ValueSpan(t, at, Dict("", ms), end, m, n, depth, lim)
    ensures Value(Dict("", ms)) == Object(Collect([], ms))
  {
    CharAt(t, at, "{");
    JoinAt(t, at, "{", RenderMembers(ms));
  }

  // ------------------------------------------------------ items

  lemma {:induction false} ItemSpan(t: string, at: nat, before: string, x: Tree, after: string, tail: string)
    requires Blank(before) && WF(x) && Blank(after)
    requires At(t, at, before) && At(t, at + |before|, Render(x))
    requires At(t, at + |before| + |Render(x)|, after) && At(t, at + |before| + |Render(x)| + |after|, tail)
    ensures ItemOk(Item(before, x, after)) && At(t, at, RenderItem(Item(before, x, after)) + (after + tail))
    ensures |RenderItem(Item(before, x, after)) + (after + tail)| == |before| + |Render(x)| + |after| + |tail|
  {
    JoinAt(t, at, before, Render(x));
    JoinAt(t, at + |before| + |Render(x)|, after, tail);
    JoinAt(t, at, before + Render(x), after + tail);
  }

  lemma {:induction false} LastItem(t: string, at: nat, before: string, x: Tree, v: nat, after: string, m: nat, n: nat, depth: nat, lim: Limits)
    requires Blank(before) && At(t, at, before) && ValueSpan(t, at + |before|, x, v, m, n, depth, lim)
    requires Blank(after) && At(t, v, after) && At(t, v + |after|, "]")
    ensures ItemsSpan(t, at, [Item(before, x, after)], v + |after| + 1, m, n, depth, lim)
    ensures Values([Item(before, x, after)]) == [Value(x)]
  {
    ItemSpan(t, at, before, x, after, "]");
    var items := [Item(before, x, after)];
    assert items[1..] == [];
  }

  lemma {:induction false} ConsItem(t: string, at: nat, before: string, x: Tree, v: nat, after: string, rest: seq<Item>, end: nat,
                 m: nat, n: nat, o: nat, depth: nat, lim: Limits)
    requires Blank(before) && At(t, at, before) && ValueSpan(t, at + |before|, x, v, m, n, depth, lim)
    requires Blank(after) && At(t, v, after) && At(t, v + |after|, ",")
    requires ItemsSpan(t, v + |after| + 1, rest, end, n, o, depth, lim)
    ensures ItemsSpan(t, at, [Item(before, x, after)] + rest, end, m, o, depth, lim)
    ensures Values([Item(before, x, after)] + rest) == [Value(x)] + Values(rest)
  {
    hide At, Blank, RenderItem;
    JoinAt(t, v + |after|, ",", RenderItems(rest));
    ItemSpan(t, at, before, x, after, "," + RenderItems(rest));
    var items := [Item(before, x, after)] + rest;
    assert items[1..] == rest;
  }

  // ------------------------------------------------------ members

  ghost predicate KeySpan(t: string, at: nat, before: string, body: string, between: string, end: nat) {
    && Blank(before) && Decode(body).Some? && Blank(between)
    && At(t, at, before + (Quoted(body) + (between + ":"))) && end == at + |before + (Quoted(body) + (between + ":"))|
  }

  lemma {:induction false} MemberSpan(t: string, at: nat, before: string, body: string, between: string, k: nat, i: Item, tail: string)
    requires KeySpan(t, at, before, body, between, k) && ItemOk(i) && At(t, k, RenderItem(i) + (i.after + tail))
    ensures var y := Member(before, body, between, i);
      && MemberOk(y) && At(t, at, RenderKey(y) + (RenderItem(i) + (i.after + tail)))
      && |RenderKey(y)| == k - at
  {
    JoinAt(t, at, RenderKey(Member(before, body, between, i)), RenderItem(i) + (i.after + tail));
  }

  lemma {:induction false} LastMember(t: string, at: nat, y: Member, k: nat, v: nat, m: nat, n: nat, depth: nat, lim: Limits)
    requires KeySpan(t, at, y.before, y.body, y.between, k)
    requires Blank(y.item.before) && At(t, k, y.item.before)
    requires ValueSpan(t, k + |y.item.before|, y.item.tree, v, m, n, depth, lim)
    requires Blank(y.item.after) && At(t, v, y.item.after) && At(t, v + |y.item.after|, "}")
    ensures MembersSpan(t, at, [y], v + |y.item.after| + 1, m, n, depth, lim)
  {
    ItemSpan(t, k, y.item.before, y.item.tree, y.item.after, "}");
    MemberSpan(t, at, y.before, y.body, y.between, k, y.item, "}");
    var ms := [y];
    assert ms[1..] == [];
  }

  lemma {:induction false} ConsMember(t: string, at: nat, y: Member, k: nat, v: nat, rest: seq<Member>, end: nat,
                   m: nat, n: nat, o: nat, depth: nat, lim: Limits)
    requires KeySpan(t, at, y.before, y.body, y.between, k)
    requires Blank(y.item.before) && At(t, k, y.item.before)
    requires ValueSpan(t, k + |y.item.before|, y.item.tree, v, m, n, depth, lim)
    requires Blank(y.item.after) && At(t, v, y.item.after) && At(t, v + |y.item.after|, ",")
    requires MembersSpan(t, v + |y.item.after| + 1, rest, end, n, o, depth, lim)
    ensures MembersSpan(t, at, [y] + rest, end, m, o, depth, lim)
  {
    hide At, Blank, Decode, RenderItem;
    JoinAt(t, v + |y.item.after|, ",", RenderMembers(rest));
    ItemSpan(t, k, y.item.before, y.item.tree, y.item.after, "," + RenderMembers(rest));
    MemberSpan(t, at, y.before, y.body, y.between, k, y.item, "," + RenderMembers(rest));
    var ms := [y] + rest;
    assert ms[1..] == rest;
  }

  // ------------------------------------------------------ taking derivations apart

  // What follows a value in a container: white space, then a comma or the closing bracket.
  ghost predicate Closed(t: string, v: nat, after: string, e: nat, c: char) {
    Blank(after) && At(t, v, after) && e == v + |after| && e < |t| && t[e] == c
  }

  lemma {:induction false} ClosedStops(t: string, v: nat, after: string, e: nat, c: char)
    requires Closed(t, v, after, e, c) && c in ",]}"
    ensures Stops(t, v) && SkipSpace(t, v) == e
  {
    if after != [] { AtChar(t, v, after, 0); }
    SkipBlank(t, v, after);
  }

  lemma {:induction false} SplitItem(t: string, at: nat, i: Item, tail: string) returns (v: nat, e: nat)
    requires ItemOk(i) && At(t, at, RenderItem(i) + (i.after + tail)) && tail != []
    ensures Blank(i.before) && At(t, at, i.before) && WF(i.tree) && At(t, at + |i.before|, Render(i.tree))
    ensures v == at + |i.before| + |Render(i.tree)| && Closed(t, v, i.after, e, tail[0]) && At(t, e, tail)
    ensures e + |tail| == at + |RenderItem(i) + (i.after + tail)|
  {
    hide Render, WF, Blank;
    v := at + |RenderItem(i)|;
    e := v + |i.after|;
    AtSplit(t, at, RenderItem(i), i.after + tail);
    AtSplit(t, at, i.before, Render(i.tree));
    AtSplit(t, v, i.after, tail);
    AtChar(t, e, tail, 0);
  }

  function ItemsTail(items: seq<Item>): string
    requires items != [] && ItemsOk(items)
  {
    if |items| == 1 then "]" else "," + RenderItems(items[1..])
  }

  lemma {:induction false} ItemsHead(items: seq<Item>)
    requires items != [] && ItemsOk(items)
    ensures ItemOk(items[0]) && WF(items[0].tree) && ItemsOk(items[1..])
    ensures RenderItems(items) == RenderItem(items[0]) + (items[0].after + ItemsTail(items))
    ensures CountItems(items) == Count(items[0].tree) + CountItems(items[1..]) && CountItems([]) == 0
    ensures HeightItems(items) == Max(Height(items[0].tree), HeightItems(items[1..]))
    ensures NoRepeatsIn(items) <==> NoRepeats(items[0].tree) && NoRepeatsIn(items[1..])
  {
    hide Decode, Blank;
    assert ItemOk(items[0]);
  }

  lemma {:induction false} SplitItems(t: string, at: nat, items: seq<Item>) returns (v: nat, e: nat)
    requires items != [] && ItemsOk(items) && At(t, at, RenderItems(items))
    ensures var i := items[0];
      && ItemOk(i) && Blank(i.before) && At(t, at, i.before) && WF(i.tree) && At(t, at + |i.before|, Render(i.tree))
      && v == at + |i.before| + |Render(i.tree)| && Closed(t, v, i.after, e, if |items| == 1 then ']' else ',')
    ensures |items| > 1 ==> ItemsOk(items[1..]) && At(t, e + 1, RenderItems(items[1..]))
    ensures at + |RenderItems(items)| == e + 1 + (if |items| > 1 then |RenderItems(items[1..])| else 0)
  {
    hide At, Blank, Render, RenderItem, RenderItems, Closed, WF, ItemOk, ItemsOk, NoRepeats, NoRepeatsIn, Count, Height,
         CountItems, HeightItems;
    ItemsHead(items);
    v, e := SplitItem(t, at, items[0], ItemsTail(items));
    if |items| > 1 { AtSplit(t, e, ",", RenderItems(items[1..])); }
  }

  lemma {:induction false} UnconsItem(t: string, at: nat, items: seq<Item>, end: nat, m: nat, n: nat, depth: nat, lim: Limits)
    returns (v: nat, e: nat)
    requires ItemsSpan(t, at, items, end, m, n, depth, lim)
    ensures var i, k := items[0], m + Count(items[0].tree);
      && Blank(i.before) && At(t, at, i.before) && ValueSpan(t, at + |i.before|, i.tree, v, m, k, depth, lim)
      && Closed(t, v, i.after, e, if |items| == 1 then ']' else ',')
      && (|items| == 1 ==> end == e + 1 && n == k)
      && (|items| > 1 ==> ItemsSpan(t, e + 1, items[1..], end, k, n, depth, lim))
  {
    hide At, Blank, Render, RenderItem, RenderItems, Closed, WF, ItemOk, ItemsOk, ItemsTail, NoRepeats, NoRepeatsIn, Count,
         Height, CountItems, HeightItems;
    ItemsHead(items);
    assert |items| == 1 ==> items[1..] == [];
    v, e := SplitItems(t, at, items);
  }

  lemma {:induction false} SplitKey(t: string, at: nat, y: Member, tail: string) returns (k: nat)
    requires MemberOk(y) && At(t, at, RenderKey(y) + tail)
    ensures KeySpan(t, at, y.before, y.body, y.between, k) && At(t, k, tail)
    ensures k + |tail| == at + |RenderKey(y) + tail|
  {
    k := at + |RenderKey(y)|;
    AtSplit(t, at, RenderKey(y), tail);
  }

  lemma {:induction false} MembersHead(ms: seq<Member>)
    requires ms != [] && MembersOk(ms)
    ensures MemberOk(ms[0]) && ItemOk(ms[0].item) && WF(ms[0].item.tree) && MembersOk(ms[1..])
    ensures RenderMembers(ms) == RenderKey(ms[0]) + (RenderItem(ms[0].item) + (ms[0].item.after + MembersTail(ms)))
    ensures CountMembers(ms) == Count(ms[0].item.tree) + CountMembers(ms[1..]) && CountMembers([]) == 0
    ensures HeightMembers(ms) == Max(Height(ms[0].item.tree), HeightMembers(ms[1..]))
    ensures NoRepeatsUnder(ms) <==> NoRepeats(ms[0].item.tree) && NoRepeatsUnder(ms[1..])
  {
    hide Decode, Blank;
    assert MemberOk(ms[0]) && ItemOk(ms[0].item);
  }

  function MembersTail(ms: seq<Member>): string
    requires ms != [] && MembersOk(ms)
  {
    if |ms| == 1 then "}" else "," + RenderMembers(ms[1..])
  }

  lemma {:induction false} SplitMembers(t: string, at: nat, ms: seq<Member>) returns (k: nat, v: nat, e: nat)
    requires ms != [] && MembersOk(ms) && At(t, at, RenderMembers(ms))
    ensures var y, i := ms[0], ms[0].item;
      && MemberOk(y) && ItemOk(i) && KeySpan(t, at, y.before, y.body, y.between, k)
      && At(t, k, i.before) && WF(i.tree) && At(t, k + |i.before|, Render(i.tree)) && v == k + |i.before| + |Render(i.tree)|
      && Closed(t, v, i.after, e, if |ms| == 1 then '}' else ',')
    ensures |ms| > 1 ==> MembersOk(ms[1..]) && At(t, e + 1, RenderMembers(ms[1..]))
    ensures at + |RenderMembers(ms)| == e + 1 + (if |ms| > 1 then |RenderMembers(ms[1..])| else 0)
  {
    hide At, Blank, Decode, Render, RenderItem, RenderItems, RenderKey, RenderMembers, Closed, KeySpan, WF, MemberOk,
         ItemOk, MembersOk, NoRepeats, NoRepeatsUnder, Count, Height, CountMembers, HeightMembers;
    MembersHead(ms);
    var y := ms[0];
    k := SplitKey(t, at, y, RenderItem(y.item) + (y.item.after + MembersTail(ms)));
    v, e := SplitItem(t, k, y.item, MembersTail(ms));
    if |ms| > 1 { AtSplit(t, e, ",", RenderMembers(ms[1..])); }
  }

  lemma {:induction false} UnconsMember(t: string, at: nat, ms: seq<Member>, end: nat, m: nat, n: nat, depth: nat, lim: Limits)
    returns (k: nat, v: nat, e: nat)
    requires MembersSpan(t, at, ms, end, m, n, depth, lim)
    ensures var y, i, o := ms[0], ms[0].item, m + Count(ms[0].item.tree);
      && MemberOk(y) && ItemOk(i) && KeySpan(t, at, y.before, y.body, y.between, k)
      && At(t, k, i.before) && ValueSpan(t, k + |i.before|, i.tree, v, m, o, depth, lim)
      && Closed(t, v, i.after, e, if |ms| == 1 then '}' else ',')
      && (|ms| == 1 ==> end == e + 1 && n == o)
      && (|ms| > 1 ==> MembersSpan(t, e + 1, ms[1..], end, o, n, depth, lim))
  {
    hide At, Blank, Decode, Render, RenderItem, RenderItems, RenderKey, RenderMembers, Closed, KeySpan, WF, MemberOk,
         ItemOk, MembersOk, MembersTail, NoRepeats, NoRepeatsUnder, Count, Height, CountMembers, HeightMembers;
    MembersHead(ms);
    assert |ms| == 1 ==> ms[1..] == [];
    k, v, e := SplitMembers(t, at, ms);
  }
}
