// The values that the JSON parser (src/json.rs:12-223) computes, as a function of the text, the
// cursor and the number of nodes counted so far. Text has one character per byte.
module JsonReader {
  import opened Wrappers
  import opened JsonText
  import opened JsonString
  import opened JsonTree
  import opened OrderedMap

  datatype Read = Bad | Got(json: Json, at: nat, nodes: nat)

  predicate Starts(t: string, at: nat, word: string) { word <= t[if at <= |t| then at else |t|..] }

  function ReadWord(t: string, at: nat, nodes: nat, word: string, j: Json): (r: Read)
    requires at <= |t| && word != []
    ensures r.Got? ==> at < r.at <= |t|
  {
    if Starts(t, at, word) then Got(j, at + |word|, nodes) else Bad
  }

  function ReadScalar(t: string, at: nat, nodes: nat): (r: Read)
    requires at < |t|
    ensures r.Got? ==> at < r.at <= |t|
  {
    var c := t[at];
    if c == QUOTE then
      var s := ReadString(t, at);
      if s.None? then Bad else Got(String(s.value.0), s.value.1, nodes)
    else if c == 't' then ReadWord(t, at, nodes, "true", Bool(true))
    else if c == 'f' then ReadWord(t, at, nodes, "false", Bool(false))
    else if c == 'n' then ReadWord(t, at, nodes, "null", Null)
    else if c == '-' || IsDigit(c) then
      var e := ReadNumber(t, at);
      if e.None? then Bad else Got(Number(t[at..e.value]), e.value, nodes)
    else Bad
  }

  function ReadValue(t: string, at: nat, nodes: nat, depth: nat, lim: Limits): (r: Read)
    requires at <= |t|
    ensures r.Got? ==> at < r.at <= |t|
    decreases |t| - at, 2
  {
    var s := SkipSpace(t, at);
    if nodes + 1 > lim.maxNodes || s == |t| then Bad
    else if t[s] == '{' then (if depth >= lim.maxDepth then Bad else ReadObject(t, s + 1, nodes + 1, depth + 1, lim))
    else if t[s] == '[' then (if depth >= lim.maxDepth then Bad else ReadArray(t, s + 1, nodes + 1, depth + 1, lim))
    else ReadScalar(t, s, nodes + 1)
  }

  function ReadArray(t: string, at: nat, nodes: nat, depth: nat, lim: Limits): (r: Read)
    requires at <= |t|
    ensures r.Got? ==> at < r.at <= |t|
    decreases |t| - at, 4
  {
    var s := SkipSpace(t, at);
    if s < |t| && t[s] == ']' then Got(Array([]), s + 1, nodes) else ReadItems(t, s, nodes, depth, [], lim)
  }

  // The loop of Parser::array from the top, with `acc` read so far.
  function ReadItems(t: string, at: nat, nodes: nat, depth: nat, acc: seq<Json>, lim: Limits): (r: Read)
    requires at <= |t|
    ensures r.Got? ==> at < r.at <= |t|
    decreases |t| - at, 3
  {
    var v := ReadValue(t, at, nodes, depth, lim);
    if v.Bad? then Bad
    else
      var e := SkipSpace(t, v.at);
      if e == |t| then Bad
      else if t[e] == ',' then ReadItems(t, e + 1, v.nodes, depth, acc + [v.json], lim)
      else if t[e] == ']' then Got(Array(acc + [v.json]), e + 1, v.nodes)
      else Bad
  }

  function ReadObject(t: string, at: nat, nodes: nat, depth: nat, lim: Limits): (r: Read)
    requires at <= |t|
    ensures r.Got? ==> at < r.at <= |t|
    decreases |t| - at, 4
  {
    var s := SkipSpace(t, at);
    if s < |t| && t[s] == '}' then Got(Object([]), s + 1, nodes) else ReadMembers(t, s, nodes, depth, [], lim)
  }

  // A key, the colon after it, and the position behind the colon.
  function ReadKey(t: string, at: nat): (r: Option<(string, nat)>)
    requires at <= |t|
    ensures r.Some? ==> at < r.value.1 <= |t|
  {
    var s := SkipSpace(t, at);
    if s == |t| || t[s] != QUOTE then None
    else
      var key := ReadString(t, s);
      if key.None? then None
      else
        var c := SkipSpace(t, key.value.1);
        if c == |t| || t[c] != ':' then None else Some((key.value.0, c + 1))
  }

  // The loop of Parser::object from the top, with `acc` read so far.
  function ReadMembers(t: string, at: nat, nodes: nat, depth: nat, acc: Entries<Json>, lim: Limits): (r: Read)
    requires at <= |t|
    ensures r.Got? ==> at < r.at <= |t|
    decreases |t| - at, 3
  {
    var key := ReadKey(t, at);
    if key.None? || (lim.rejectDuplicateKeys && Has(acc, key.value.0)) then Bad
    else
      var v := ReadValue(t, key.value.1, nodes, depth, lim);
      if v.Bad? then Bad
      else
        var e := SkipSpace(t, v.at);
        if e == |t| then Bad
        else if t[e] == ',' then ReadMembers(t, e + 1, v.nodes, depth, Insert(acc, key.value.0, v.json), lim)
        else if t[e] == '}' then Got(Object(Insert(acc, key.value.0, v.json)), e + 1, v.nodes)
        else Bad
  }

  lemma {:induction false} SkipTwice(t: string, at: nat)
    requires at <= |t|
    ensures SkipSpace(t, SkipSpace(t, at)) == SkipSpace(t, at)
  {
  }

  lemma {:induction false} ReadSkipsSpace(t: string, at: nat, nodes: nat, depth: nat, lim: Limits)
    requires at <= |t|
    ensures ReadValue(t, SkipSpace(t, at), nodes, depth, lim) == ReadValue(t, at, nodes, depth, lim)
    ensures ReadKey(t, SkipSpace(t, at)) == ReadKey(t, at)
  {
    SkipTwice(t, at);
  }

  lemma {:induction false} ReadItemsSkipsSpace(t: string, at: nat, nodes: nat, depth: nat, acc: seq<Json>, lim: Limits)
    requires at <= |t|
    ensures ReadItems(t, SkipSpace(t, at), nodes, depth, acc, lim) == ReadItems(t, at, nodes, depth, acc, lim)
  {
    hide ReadValue, SkipSpace, ReadMembers, ReadArray, ReadObject, ReadString, ReadScalar, ReadKey;
    ReadSkipsSpace(t, at, nodes, depth, lim);
  }

  lemma {:induction false} ReadMembersSkipsSpace(t: string, at: nat, nodes: nat, depth: nat, acc: Entries<Json>, lim: Limits)
    requires at <= |t|
    ensures ReadMembers(t, SkipSpace(t, at), nodes, depth, acc, lim) == ReadMembers(t, at, nodes, depth, acc, lim)
  {
    hide ReadValue, ReadKey, SkipSpace, Insert;
    ReadSkipsSpace(t, at, nodes, depth, lim);
  }

  lemma {:induction false} ArrayTurn(t: string, at: nat, nodes: nat, depth: nat, lim: Limits, r: Read) returns (empty: bool)
    requires at <= |t| && r == ReadArray(t, at, nodes, depth, lim)
    ensures var s := SkipSpace(t, at);
      empty ==> s < |t| && t[s] == ']' && r == Got(Array([]), s + 1, nodes)
    ensures !empty ==> r == ReadItems(t, at, nodes, depth, [], lim)
  {
    var s := SkipSpace(t, at);
    empty := s < |t| && t[s] == ']';
    ReadItemsSkipsSpace(t, at, nodes, depth, [], lim);
  }

  lemma {:induction false} ObjectTurn(t: string, at: nat, nodes: nat, depth: nat, lim: Limits, r: Read) returns (empty: bool)
    requires at <= |t| && r == ReadObject(t, at, nodes, depth, lim)
    ensures var s := SkipSpace(t, at);
      empty ==> s < |t| && t[s] == '}' && r == Got(Object([]), s + 1, nodes)
    ensures !empty ==> r == ReadMembers(t, at, nodes, depth, [], lim)
  {
    var s := SkipSpace(t, at);
    empty := s < |t| && t[s] == '}';
    ReadMembersSkipsSpace(t, at, nodes, depth, [], lim);
  }

  // The turns of the two loops: on after a comma, done at the closing bracket.
  lemma {:induction false} ItemsTurn(t: string, at: nat, nodes: nat, depth: nat, acc: seq<Json>, lim: Limits, r: Read)
    returns (v: Read, e: nat)
    requires at <= |t| && r == ReadItems(t, at, nodes, depth, acc, lim) && r.Got?
    ensures v == ReadValue(t, at, nodes, depth, lim) && v.Got?
    ensures e < |t| && e == SkipSpace(t, v.at) && (t[e] == ',' || t[e] == ']')
    ensures t[e] == ',' ==> r == ReadItems(t, e + 1, v.nodes, depth, acc + [v.json], lim)
    ensures t[e] == ']' ==> r == Got(Array(acc + [v.json]), e + 1, v.nodes)
  {
    hide ReadValue, SkipSpace;
    v := ReadValue(t, at, nodes, depth, lim);
    e := SkipSpace(t, v.at);
  }

  lemma {:induction false} MembersTurn(t: string, at: nat, nodes: nat, depth: nat, acc: Entries<Json>, lim: Limits, r: Read)
    returns (k: (string, nat), v: Read, e: nat)
    requires at <= |t| && r == ReadMembers(t, at, nodes, depth, acc, lim) && r.Got?
    ensures ReadKey(t, at) == Some(k) && (lim.rejectDuplicateKeys ==> !Has(acc, k.0))
    ensures v == ReadValue(t, k.1, nodes, depth, lim) && v.Got?
    ensures e < |t| && e == SkipSpace(t, v.at) && (t[e] == ',' || t[e] == '}')
    ensures t[e] == ',' ==> r == ReadMembers(t, e + 1, v.nodes, depth, Insert(acc, k.0, v.json), lim)
    ensures t[e] == '}' ==> r == Got(Object(Insert(acc, k.0, v.json)), e + 1, v.nodes)
  {
    hide ReadValue, ReadKey, SkipSpace, Insert;
    k := ReadKey(t, at).value;
    v := ReadValue(t, k.1, nodes, depth, lim);
    e := SkipSpace(t, v.at);
  }

  lemma {:induction false} ItemsStep(t: string, at: nat, nodes: nat, depth: nat, acc: seq<Json>, lim: Limits, v: Read, e: nat)
    requires at <= |t| && v == ReadValue(t, at, nodes, depth, lim) && v.Got? && e == SkipSpace(t, v.at) < |t|
    ensures t[e] == ',' ==>
      ReadItems(t, at, nodes, depth, acc, lim) == ReadItems(t, e + 1, v.nodes, depth, acc + [v.json], lim)
    ensures t[e] == ']' ==> ReadItems(t, at, nodes, depth, acc, lim) == Got(Array(acc + [v.json]), e + 1, v.nodes)
  {
    hide ReadValue, SkipSpace;
  }

  lemma {:induction false} MembersStep(t: string, at: nat, nodes: nat, depth: nat, acc: Entries<Json>, lim: Limits, k: (string, nat), v: Read,
                    e: nat)
    requires at <= |t| && ReadKey(t, at) == Some(k) && (lim.rejectDuplicateKeys ==> !Has(acc, k.0))
    requires v == ReadValue(t, k.1, nodes, depth, lim) && v.Got? && e == SkipSpace(t, v.at) < |t|
    ensures t[e] == ',' ==>
      ReadMembers(t, at, nodes, depth, acc, lim) == ReadMembers(t, e + 1, v.nodes, depth, Insert(acc, k.0, v.json), lim)
    ensures t[e] == '}' ==>
      ReadMembers(t, at, nodes, depth, acc, lim) == Got(Object(Insert(acc, k.0, v.json)), e + 1, v.nodes)
  {
    hide ReadValue, ReadKey, SkipSpace, Insert;
  }

  // json::parse
  function Parse(t: string, lim: Limits): Option<Json> {
    if |t| > lim.maxBytes then None
    else
      var v := ReadValue(t, 0, 0, 0, lim);
      if v.Bad? || SkipSpace(t, v.at) != |t| then None else Some(v.json)
  }
}
