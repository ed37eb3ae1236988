// The grammar of RFC 8259 sections 2 to 7 as derivation trees with all their white space, and
// what the parser makes of it: it accepts exactly the derivable texts within its limits.
module JsonGrammar {
  import opened Wrappers
  import opened JsonText
  import opened JsonString
  import opened JsonTree
  import opened OrderedMap

  datatype Token = Word(j: Json) | Numeric(n: Numeral) | Text(body: string)

  datatype Tree = Leaf(token: Token) | List(space: string, items: seq<Item>) | Dict(space: string, members: seq<Member>)

  datatype Item = Item(before: string, tree: Tree, after: string)

  datatype Member = Member(before: string, body: string, between: string, item: Item)

  // ------------------------------------------------------ the text of a derivation

  predicate TokenOk(k: Token) {
    match k
    case Word(j) => j.Null? || j.Bool?
    case Numeric(n) => NumeralOk(n)
    case Text(body) => Decode(body).Some?
  }

  function Spell(k: Token): string
    requires TokenOk(k)
  {
    match k
    case Word(j) => (if j == Null then "null" else if j == Bool(true) then "true" else "false")
    case Numeric(n) => Write(n)
    case Text(body) => Quoted(body)
  }

  predicate WF(x: Tree)
    decreases x
  {
    match x
    case Leaf(k) => TokenOk(k)
    case List(space, items) => Blank(space) && forall i :: 0 <= i < |items| ==> ItemOk(items[i])
    case Dict(space, members) => Blank(space) && forall i :: 0 <= i < |members| ==> MemberOk(members[i])
  }

  predicate ItemOk(i: Item)
    decreases i
  {
    Blank(i.before) && WF(i.tree) && Blank(i.after)
  }

  predicate MemberOk(m: Member)
    decreases m
  {
    Blank(m.before) && Decode(m.body).Some? && Blank(m.between) && ItemOk(m.item)
  }

  predicate ItemsOk(items: seq<Item>) { forall i :: 0 <= i < |items| ==> ItemOk(items[i]) }

  predicate MembersOk(members: seq<Member>) { forall i :: 0 <= i < |members| ==> MemberOk(members[i]) }

  function Render(x: Tree): string
    requires WF(x)
    decreases x, 1
  {
    match x
    case Leaf(k) => Spell(k)
    case List(space, items) => "[" + (if items == [] then space + "]" else RenderItems(items))
    case Dict(space, members) => "{" + (if members == [] then space + "}" else RenderMembers(members))
  }

  function RenderItem(i: Item): string
    requires ItemOk(i)
    decreases i, 0
  {
    i.before + Render(i.tree)
  }

  function RenderItems(items: seq<Item>): string
    requires items != [] && ItemsOk(items)
    decreases items, 0
  {
    RenderItem(items[0]) + (items[0].after + (if |items| == 1 then "]" else "," + RenderItems(items[1..])))
  }

  function RenderKey(m: Member): string {
    m.before + (Quoted(m.body) + (m.between + ":"))
  }

  function RenderMembers(members: seq<Member>): string
    requires members != [] && MembersOk(members)
    decreases members, 0
  {
    var m := members[0];
    RenderKey(m)
    + (RenderItem(m.item) + (m.item.after + (if |members| == 1 then "}" else "," + RenderMembers(members[1..]))))
  }

  // ------------------------------------------------------ what a derivation denotes

  function Denote(k: Token): Json
    requires TokenOk(k)
  {
    match k
    case Word(j) => j
    case Numeric(n) => Number(Write(n))
    case Text(body) => String(Decode(body).value)
  }

  function Value(x: Tree): Json
    requires WF(x)
    decreases x, 1
  {
    match x
    case Leaf(k) => Denote(k)
    case List(_, items) => Array(Values(items))
    case Dict(_, members) => Object(Collect([], members))
  }

  function Values(items: seq<Item>): seq<Json>
    requires ItemsOk(items)
    decreases items, 0
  {
    if items == [] then [] else [Value(items[0].tree)] + Values(items[1..])
  }

  function Key(m: Member): string
    requires MemberOk(m)
  {
    Decode(m.body).value
  }

  // The members in key order; of equal keys the last counts.
  function Collect(acc: Entries<Json>, members: seq<Member>): Entries<Json>
    requires MembersOk(members)
    decreases members, 0
  {
    if members == [] then acc
    else
      assert ItemOk(members[0].item);
      Collect(Insert(acc, Key(members[0]), Value(members[0].item.tree)), members[1..])
  }

  // The number of values in a derivation.
  function Count(x: Tree): nat
    decreases x, 1
  {
    match x
    case Leaf(_) => 1
    case List(_, items) => 1 + CountItems(items)
    case Dict(_, members) => 1 + CountMembers(members)
  }

  function CountItems(items: seq<Item>): nat
    decreases items, 0
  {
    if items == [] then 0 else Count(items[0].tree) + CountItems(items[1..])
  }

  function CountMembers(members: seq<Member>): nat
    decreases members, 0
  {
    if members == [] then 0 else Count(members[0].item.tree) + CountMembers(members[1..])
  }

  function Max(a: nat, b: nat): nat { if a < b then b else a }

  // How deep arrays and objects are nested.
  function Height(x: Tree): nat
    decreases x, 1
  {
    match x
    case Leaf(_) => 0
    case List(_, items) => 1 + HeightItems(items)
    case Dict(_, members) => 1 + HeightMembers(members)
  }

  function HeightItems(items: seq<Item>): nat
    decreases items, 0
  {
    if items == [] then 0 else Max(Height(items[0].tree), HeightItems(items[1..]))
  }

  function HeightMembers(members: seq<Member>): nat
    decreases members, 0
  {
    if members == [] then 0 else Max(Height(members[0].item.tree), HeightMembers(members[1..]))
  }

  function Keys(members: seq<Member>): seq<string>
    requires MembersOk(members)
  {
    if members == [] then [] else [Key(members[0])] + Keys(members[1..])
  }

  // No object of the derivation has two members with the same decoded key.
  predicate NoRepeats(x: Tree)
    requires WF(x)
    decreases x, 1
  {
    match x
    case Leaf(_) => true
    case List(_, items) => NoRepeatsIn(items)
    case Dict(_, members) => Distinct(Keys(members)) && NoRepeatsUnder(members)
  }

  predicate NoRepeatsIn(items: seq<Item>)
    requires ItemsOk(items)
    decreases items, 0
  {
    items == [] || (NoRepeats(items[0].tree) && NoRepeatsIn(items[1..]))
  }

  predicate NoRepeatsUnder(members: seq<Member>)
    requires MembersOk(members)
    decreases members, 0
  {
    members == []
    || (assert ItemOk(members[0].item); NoRepeats(members[0].item.tree) && NoRepeatsUnder(members[1..]))
  }

  // A whole text: one value with white space around it.
  ghost predicate Derives(t: string, before: string, x: Tree, after: string) {
    Blank(before) && WF(x) && Blank(after) && t == before + Render(x) + after
  }

  ghost predicate Within(x: Tree, lim: Limits)
    requires WF(x)
  {
    Height(x) <= lim.maxDepth && Count(x) <= lim.maxNodes && (lim.rejectDuplicateKeys ==> NoRepeats(x))
  }
}
