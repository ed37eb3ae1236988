// The parser of src/json.rs: a cursor, a node counter, and one method per grammar rule.
module JsonParser {
  import opened Wrappers
  import opened JsonText
  import opened JsonString
  import opened JsonTree
  import opened JsonReader
  import opened OrderedMap

  // A method's result and the parser's new state are those of the reader; after an error the
  // state no longer matters.
  predicate Agrees(spec: Read, r: Option<Json>, at: nat, nodes: nat) {
    if spec.Bad? then r.None? else r == Some(spec.json) && at == spec.at && nodes == spec.nodes
  }

  lemma {:induction false} NoKeys()
    ensures var none: Entries<Json> := []; forall k :: !Has(none, k)
  {
  }

  class Parser {
    const text: string
    const limits: Limits
    var at: nat
    var nodes: nat

    constructor (text: string, limits: Limits)
      ensures this.text == text && this.limits == limits && at == 0 && nodes == 0
    {
      this.text, this.limits, at, nodes := text, limits, 0, 0;
    }

    // The byte at the cursor, if the text goes on, is the given one.
    predicate Sees(c: char)
      reads this
    {
      at < |text| && text[at] == c
    }

    method SkipWs()
      requires at <= |text|
      modifies this`at
      ensures at == SkipSpace(text, old(at)) && old(at) <= at <= |text|
    {
      while at < |text| && IsSpace(text[at])
        invariant old(at) <= at <= |text| && SkipSpace(text, at) == SkipSpace(text, old(at))
        decreases |text| - at
      {
        at := at + 1;
      }
    }

    method Digits()
      requires at <= |text|
      modifies this`at
      ensures at == DigitRun(text, old(at)) && old(at) <= at <= |text|
    {
      while at < |text| && IsDigit(text[at])
        invariant old(at) <= at <= |text| && DigitRun(text, at) == DigitRun(text, old(at))
        decreases |text| - at
      {
        at := at + 1;
      }
    }

    method StringLiteral() returns (r: Option<string>)
      requires Sees(QUOTE)
      modifies this`at
      ensures at <= |text|
      ensures match ReadString(text, old(at))
              case None => r.None?
              case Some(s) => r == Some(s.0) && at == s.1
    {
      hide Decode;
      var start := at;
      at := at + 1;
      while at < |text|
        invariant start < at <= |text| && Scan(text, at) == Scan(text, start + 1)
        decreases |text| - at
      {
        var byte := text[at];
        if byte == QUOTE {
          at := at + 1;
          return Decode(text[start + 1..at - 1]);
        } else if byte == ESCAPE {
          at := if at + 2 <= |text| then at + 2 else |text|;
        } else if Control(byte) {
          return None;
        } else {
          at := at + 1;
        }
      }
      return None;
    }

    method Number() returns (r: Option<Json>)
      requires at < |text|
      modifies this`at
      ensures at <= |text|
      ensures match ReadNumber(text, old(at))
              case None => r.None?
              case Some(e) => r == Some(JsonTree.Number(text[old(at)..e])) && at == e
    {
      var start := at;
      if Sees('-') { at := at + 1; }
      assert at == ReadSign(text, start);
      if Sees('0') {
        at := at + 1;
        if at < |text| && IsDigit(text[at]) { return None; }
      } else if at < |text| && IsDigit(text[at]) {
        Digits();
      } else {
        return None;
      }
      assert ReadWhole(text, ReadSign(text, start)) == Some(at);
      var ok := Fraction();
      if !ok { return None; }
      ok := ExponentPart();
      if !ok { return None; }
      return Some(JsonTree.Number(text[start..at]));
    }

    method Fraction() returns (ok: bool)
      requires at <= |text|
      modifies this`at
      ensures at <= |text| && ReadFraction(text, old(at)) == if ok then Some(at) else None
    {
      if Sees('.') {
        at := at + 1;
        if at == |text| || !IsDigit(text[at]) { return false; }
        Digits();
      }
      return true;
    }

    method ExponentPart() returns (ok: bool)
      requires at <= |text|
      modifies this`at
      ensures at <= |text| && ReadExponent(text, old(at)) == if ok then Some(at) else None
    {
      if Sees('e') || Sees('E') {
        at := at + 1;
        if Sees('+') || Sees('-') { at := at + 1; }
        if at == |text| || !IsDigit(text[at]) { return false; }
        Digits();
      }
      return true;
    }

    method Literal(word: string) returns (ok: bool)
      requires at <= |text|
      modifies this`at
      ensures ok == Starts(text, old(at), word) && at == (if ok then old(at) + |word| else old(at)) <= |text|
    {
      ok := word <= text[at..];
      if ok { at := at + |word|; }
    }

    method Scalar() returns (r: Option<Json>)
      requires at < |text|
      modifies this`at
      ensures at <= |text| && Agrees(ReadScalar(text, old(at), nodes), r, at, nodes)
    {
      var c := text[at];
      if c == QUOTE {
        var s := StringLiteral();
        return if s.None? then None else Some(JsonTree.String(s.value));
      }
      if c == 't' {
        var ok := Literal("true");
        return if ok then Some(Bool(true)) else None;
      }
      if c == 'f' {
        var ok := Literal("false");
        return if ok then Some(Bool(false)) else None;
      }
      if c == 'n' {
        var ok := Literal("null");
        return if ok then Some(Null) else None;
      }
      if c == '-' || IsDigit(c) { r := Number(); } else { r := None; }
    }

    method Value(depth: nat) returns (r: Option<Json>)
      requires at <= |text|
      modifies this`at, this`nodes
      ensures at <= |text| && Agrees(ReadValue(text, old(at), old(nodes), depth, limits), r, at, nodes)
      decreases |text| - at, 2
    {
      hide ReadScalar, ReadArray, ReadObject, SkipSpace;
      SkipWs();
      nodes := nodes + 1;
      if nodes > limits.maxNodes || at == |text| { return None; }
      if text[at] == '{' {
        if depth >= limits.maxDepth { return None; }
        r := Object(depth + 1);
      } else if text[at] == '[' {
        if depth >= limits.maxDepth { return None; }
        r := Array(depth + 1);
      } else {
        r := Scalar();
      }
    }

    method Array(depth: nat) returns (r: Option<Json>)
      requires Sees('[')
      modifies this`at, this`nodes
      ensures at <= |text| && Agrees(ReadArray(text, old(at) + 1, old(nodes), depth, limits), r, at, nodes)
      decreases |text| - at, 1
    {
      hide ReadValue, SkipSpace;
      at := at + 1;
      SkipWs();
      var values := [];
      if Sees(']') {
        at := at + 1;
        return Some(JsonTree.Array(values));
      }
      ghost var begin, count := at, nodes;
      while true
        invariant old(at) < at <= |text|
        invariant ReadItems(text, at, nodes, depth, values, limits) == ReadItems(text, begin, count, depth, [], limits)
        decreases |text| - at
      {
        var v := Value(depth);
        if v.None? { return None; }
        values := values + [v.value];
        SkipWs();
        if Sees(',') { at := at + 1; }
        else if Sees(']') {
          at := at + 1;
          return Some(JsonTree.Array(values));
        } else {
          return None;
        }
      }
    }

    method Object(depth: nat) returns (r: Option<Json>)
      requires Sees('{')
      modifies this`at, this`nodes
      ensures at <= |text| && Agrees(ReadObject(text, old(at) + 1, old(nodes), depth, limits), r, at, nodes)
      decreases |text| - at, 1
    {
      hide SkipSpace, ReadMembers;
      at := at + 1;
      SkipWs();
      if Sees('}') {
        at := at + 1;
        return Some(JsonTree.Object([]));
      }
      r := Members(depth);
    }

    // A key that is not among `keys` if those are not to be repeated, and the colon after it.
    method MemberKey(keys: set<string>) returns (key: Option<string>)
      requires at <= |text|
      modifies this`at
      ensures at <= |text|
      ensures var read := ReadKey(text, old(at));
              if read.None? || (limits.rejectDuplicateKeys && read.value.0 in keys) then key.None?
              else key == Some(read.value.0) && at == read.value.1
    {
      hide SkipSpace, ReadString;
      SkipWs();
      if !Sees(QUOTE) { return None; }
      key := StringLiteral();
      if key.None? { return None; }
      if limits.rejectDuplicateKeys && key.value in keys { return None; }
      SkipWs();
      if !Sees(':') { return None; }
      at := at + 1;
    }

    // The loop of object.
    method Members(depth: nat) returns (r: Option<Json>)
      requires at <= |text|
      modifies this`at, this`nodes
      ensures at <= |text| && Agrees(ReadMembers(text, old(at), old(nodes), depth, [], limits), r, at, nodes)
      decreases |text| - at, 3
    {
      hide ReadValue, SkipSpace, Insert, ReadKey, Has;
      var values: Entries<Json> := [];
      var keys: set<string> := {};
      ghost var begin, count := at, nodes;
      NoKeys();
      while true
        invariant old(at) <= at <= |text|
        invariant limits.rejectDuplicateKeys ==> forall k :: k in keys <==> Has(values, k)
        invariant ReadMembers(text, at, nodes, depth, values, limits) == ReadMembers(text, begin, count, depth, [], limits)
        decreases |text| - at
      {
        var key := MemberKey(keys);
        if key.None? { return None; }
        if limits.rejectDuplicateKeys { keys := keys + {key.value}; }
        var v := Value(depth);
        if v.None? { return None; }
        forall k ensures Has(Insert(values, key.value, v.value), k) <==> k == key.value || Has(values, k) {
          InsertHas(values, key.value, v.value, k);
        }
        values := Insert(values, key.value, v.value);
        SkipWs();
        if Sees(',') { at := at + 1; }
        else if Sees('}') {
          at := at + 1;
          return Some(JsonTree.Object(values));
        } else {
          return None;
        }
      }
    }
  }

  // json::parse, proved against the reader, and so against the grammar.
  method Parse(text: string, limits: Limits) returns (r: Option<Json>)
    ensures r == JsonReader.Parse(text, limits)
  {
    if |text| > limits.maxBytes { return None; }
    var parser := new Parser(text, limits);
    var value := parser.Value(0);
    if value.None? { return None; }
    parser.SkipWs();
    if parser.at != |text| { return None; }
    return value;
  }
}
