// Tagged values and their ITF form in JSON (src/protocol.rs:9-110 and 378-441).
module Values {
  import opened Wrappers
  import opened JsonTree
  import opened Numbers

  // A Record is a BTreeMap: its fields come in key order.
  datatype Value =
    | Int(n: int)
    | Boolean(b: bool)
    | Str(s: string)
    | Set(items: seq<Value>)
    | Seq(items: seq<Value>)
    | Tuple(items: seq<Value>)
    | Map(entries: seq<Pair>)
    | Record(fields: seq<Field>)
    | Variant(tag: string, value: Value)
    | Unserializable(s: string)
    | Nothing

  datatype Pair = Pair(key: Value, value: Value)
  datatype Field = Field(name: string, value: Value)

  // ------------------------------------------------------ encode_value

  function Single(key: string, j: Json): Json { Object([(key, j)]) }

  function Encode(v: Value): Json
    decreases v, 1
  {
    match v
    case Int(n) => Single("#bigint", String(IntText(n)))
    case Boolean(b) => Bool(b)
    case Str(s) => String(s)
    case Set(items) => Single("#set", Array(EncodeAll(items)))
    case Seq(items) => Array(EncodeAll(items))
    case Tuple(items) => Single("#tup", Array(EncodeAll(items)))
    case Map(entries) => Single("#map", Array(EncodePairs(entries)))
    case Record(fields) => Object(EncodeFields(fields))
    case Variant(tag, value) => Object([("tag", String(tag)), ("value", Encode(value))])
    case Unserializable(s) => Single("#unserializable", String(s))
    case Nothing => Null
  }

  function EncodeAll(items: seq<Value>): (r: seq<Json>)
    ensures |r| == |items|
    decreases items, 0
  {
    if items == [] then [] else [Encode(items[0])] + EncodeAll(items[1..])
  }

  function EncodePair(p: Pair): Json
    decreases p, 0
  {
    Array([Encode(p.key), Encode(p.value)])
  }

  function EncodePairs(entries: seq<Pair>): seq<Json>
    decreases entries, 0
  {
    if entries == [] then [] else [EncodePair(entries[0])] + EncodePairs(entries[1..])
  }

  function EncodeField(f: Field): (string, Json)
    decreases f, 0
  {
    (f.name, Encode(f.value))
  }

  function EncodeFields(fields: seq<Field>): (r: seq<(string, Json)>)
    ensures |r| == |fields|
    ensures |r| > 0 ==> r[0] == EncodeField(fields[0])
    ensures |r| > 1 ==> r[1] == EncodeField(fields[1])
    decreases fields, 0
  {
    if fields == [] then [] else [EncodeField(fields[0])] + EncodeFields(fields[1..])
  }

  // ------------------------------------------------------ walk

  // What an object's shape says about it, before anything inside is looked at.
  datatype Shape = BigintShape(raw: string) | TupleShape(items: seq<Json>) | SetShape(items: seq<Json>)
    | MapShape(items: seq<Json>) | RawShape(raw: string) | VariantShape(tag: Json, value: Json) | PlainShape

  function ShapeOf(ms: seq<(string, Json)>): Shape {
    if |ms| == 1 && ms[0].0 == "#bigint" && ms[0].1.String? then BigintShape(ms[0].1.s)
    else if |ms| == 1 && ms[0].0 == "#tup" && ms[0].1.Array? then TupleShape(ms[0].1.items)
    else if |ms| == 1 && ms[0].0 == "#set" && ms[0].1.Array? then SetShape(ms[0].1.items)
    else if |ms| == 1 && ms[0].0 == "#map" && ms[0].1.Array? then MapShape(ms[0].1.items)
    else if |ms| == 1 && ms[0].0 == "#unserializable" && ms[0].1.String? then RawShape(ms[0].1.s)
    // members are in key order
    else if |ms| == 2 && ms[0].0 == "tag" && ms[1].0 == "value" then VariantShape(ms[0].1, ms[1].1)
    else PlainShape
  }

  // None is an error; an overflow of the exponent arithmetic counts as one.
  function Walk(j: Json): Option<Value>
    decreases j, 3
  {
    match j
    case Null => Some(Nothing)
    case Bool(b) => Some(Boolean(b))
    case String(s) => Some(Str(s))
    case Number(text) => var n := ToBigint(text); if n.Integer? then Some(Int(n.n)) else None
    case Array(items) => var vs := WalkAll(items); if vs.None? then None else Some(Seq(vs.value))
    case Object(ms) => WalkObject(ms)
  }

  function WalkObject(ms: seq<(string, Json)>): Option<Value>
    decreases ms, 2
  {
    match ShapeOf(ms)
    case BigintShape(raw) =>
      if raw == "" then Some(Nothing)
      else var n := ParseBigint(raw); if n.None? then None else Some(Int(n.value))
    case TupleShape(items) =>
      assert ms[0].1 == Array(items);
      var vs := WalkInside(ms[0]); if vs.None? then None else Some(Tuple(vs.value))
    case SetShape(items) =>
      assert ms[0].1 == Array(items);
      var vs := WalkInside(ms[0]); if vs.None? then None else Some(Set(vs.value))
    case MapShape(items) =>
      assert ms[0].1 == Array(items);
      var ps := WalkPairsInside(ms[0]); if ps.None? then None else Some(Map(ps.value))
    case RawShape(raw) => Some(Unserializable(raw))
    case VariantShape(tag, value) =>
      if !tag.String? then None
      else
        assert ms[1].1 == value;
        var v := WalkMember(ms[1]); if v.None? then None else Some(Variant(tag.s, v.value))
    case PlainShape => var fs := WalkFields(ms); if fs.None? then None else Some(Record(fs.value))
  }

  function WalkInside(m: (string, Json)): Option<seq<Value>>
    requires m.1.Array?
    decreases m, 4
  {
    WalkAll(m.1.items)
  }

  function WalkPairsInside(m: (string, Json)): Option<seq<Pair>>
    requires m.1.Array?
    decreases m, 4
  {
    WalkPairs(m.1.items)
  }

  function WalkMember(m: (string, Json)): Option<Value>
    decreases m, 4
  {
    Walk(m.1)
  }

  function WalkAll(items: seq<Json>): Option<seq<Value>>
    decreases items, 0
  {
    if items == [] then Some([])
    else
      var v := Walk(items[0]);
      if v.None? then None
      else
        var rest := WalkAll(items[1..]);
        if rest.None? then None else Some([v.value] + rest.value)
  }

  function WalkPair(j: Json): Option<Pair>
    decreases j, 2
  {
    if !j.Array? || |j.items| != 2 then None
    else
      var k := Walk(j.items[0]);
      if k.None? then None
      else
        var v := Walk(j.items[1]);
        if v.None? then None else Some(Pair(k.value, v.value))
  }

  function WalkPairs(items: seq<Json>): Option<seq<Pair>>
    decreases items, 0
  {
    if items == [] then Some([])
    else
      var p := WalkPair(items[0]);
      if p.None? then None
      else
        var rest := WalkPairs(items[1..]);
        if rest.None? then None else Some([p.value] + rest.value)
  }

  function WalkFields(ms: seq<(string, Json)>): (r: Option<seq<Field>>)
    decreases ms, 0
  {
    if ms == [] then Some([])
    else
      var v := WalkMember(ms[0]);
      if v.None? then None
      else
        var rest := WalkFields(ms[1..]);
        if rest.None? then None else Some([Field(ms[0].0, v.value)] + rest.value)
  }

  // ------------------------------------------------------ marker shapes

  // A record whose ITF form reads as something else.
  predicate Marker(fields: seq<Field>) {
    || (|fields| == 1 && fields[0].name in {"#bigint", "#unserializable"} && fields[0].value.Str?)
    || (|fields| == 1 && fields[0].name in {"#tup", "#set", "#map"} && fields[0].value.Seq?)
    || (|fields| == 2 && fields[0].name == "tag" && fields[1].name == "value")
  }

  predicate Plain(v: Value)
    decreases v
  {
    match v
    case Set(items) => forall i :: 0 <= i < |items| ==> Plain(items[i])
    case Seq(items) => forall i :: 0 <= i < |items| ==> Plain(items[i])
    case Tuple(items) => forall i :: 0 <= i < |items| ==> Plain(items[i])
    case Map(entries) => forall i :: 0 <= i < |entries| ==> PlainPair(entries[i])
    case Record(fields) => !Marker(fields) && forall i :: 0 <= i < |fields| ==> PlainField(fields[i])
    case Variant(_, value) => Plain(value)
    case _ => true
  }

  predicate PlainPair(p: Pair)
    decreases p
  {
    Plain(p.key) && Plain(p.value)
  }

  predicate PlainField(f: Field)
    decreases f
  {
    Plain(f.value)
  }
}
