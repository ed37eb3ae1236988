// Which JSON forms stand for which values: the decoder of src/protocol.rs:378-441 against a relation
// that is read off the value, so that every form it accepts, and every one it refuses, is accounted for.
module ItfForms {
  import opened Wrappers
  import opened JsonText
  import opened JsonTree
  import opened Numbers
  import opened Values
  import opened ValueRoundTrip

  // ------------------------------------------------------ numbers

  function DigitsOf(n: Numeral): string { n.whole + n.fraction }

  // The power of ten that the digits of a number are multiplied with.
  function Scaled(n: Numeral): int
    requires NumeralOk(n)
  {
    ExponentValue(n.exponent) - |n.fraction|
  }

  // The numerals that are converted, provided that they are integers: the exponent fits, and a zero
  // is written with as many digits as it asks for.
  predicate Convertible(n: Numeral)
    requires NumeralOk(n)
  {
    && InI64(ExponentValue(n.exponent)) && I64_MIN < Scaled(n) <= I64_MAX
    && (Spelled(DigitsOf(n)) == 0 ==> -Scaled(n) <= |DigitsOf(n)|)
  }

  // v times the denominator is the numerator of the decimal value.
  predicate Equals(n: Numeral, v: int)
    requires NumeralOk(n)
  {
    v * Pow10(if Scaled(n) < 0 then -Scaled(n) else 0)
    == Signed(n.negative, Spelled(DigitsOf(n))) * Pow10(if Scaled(n) > 0 then Scaled(n) else 0)
  }

  lemma {:induction false} ConvertedIff(n: Numeral, v: int)
    requires NumeralOk(n)
    ensures ToBigint(Write(n)) == Integer(v) <==> Convertible(n) && Equals(n, v)
  {
    hide ToBigint, Write, Spelled, Exact;
    ConversionIsExact(n);
    var m := Spelled(DigitsOf(n));
    if InI64(ExponentValue(n.exponent)) { ExactIff(n.negative, m, |DigitsOf(n)|, Scaled(n), v); }
  }

  lemma {:induction false} ExactIff(negative: bool, m: nat, width: nat, scale: int, v: int)
    ensures Exact(negative, m, width, scale) == Integer(v) <==>
            && I64_MIN < scale <= I64_MAX && (m == 0 ==> -scale <= width)
            && v * Pow10(if scale < 0 then -scale else 0) == Signed(negative, m) * Pow10(if scale > 0 then scale else 0)
  {
    hide Pow10;
    assert Pow10(0) == 1 by { PowZero(); }
    if I64_MIN < scale <= I64_MAX {
      if scale >= 0 {
        SignedTimes(negative, m, Pow10(scale));
      } else {
        DividedIff(negative, m, Pow10(-scale), v);
      }
    }
  }

  lemma {:induction false} PowZero()
    ensures Pow10(0) == 1
  {
  }

  lemma {:induction false} SignedTimes(negative: bool, m: nat, p: nat)
    ensures Signed(negative, m * p) == Signed(negative, m) * p
  {
    var k: int := m;
    assert (-k) * p == -(k * p);
  }

  // A quotient that is an integer, whatever the signs.
  lemma {:induction false} DividedIff(negative: bool, m: nat, p: nat, v: int)
    requires p > 0
    ensures v * p == Signed(negative, m) <==> m % p == 0 && v == Signed(negative, m / p)
  {
    assert m == (m / p) * p + m % p;
    SignedTimes(negative, m / p, p);
    var u := Signed(negative, v);
    assert u * p == Signed(negative, v * p) by { assert (-v) * p == -(v * p); }
    if v * p == Signed(negative, m) {
      assert u * p == m;
      if u < 0 { SmallMultiple(u, p); }
      Unique(m, p, u, 0);
    }
  }

  // ------------------------------------------------------ the texts of integers

  predicate Grouped(s: string) { forall k :: 0 <= k < |s| ==> IsDigit(s[k]) || s[k] == '_' }

  // The number that digits spell with underscores between them.
  function GroupedValue(s: string): nat
    requires Grouped(s)
  {
    if s == [] then 0
    else
      var front := GroupedValue(s[..|s| - 1]);
      var last := s[|s| - 1];
      if last == '_' then front else front * 10 + (last as nat - '0' as nat)
  }

  predicate Body(s: string) { Grouped(s) && s != [] && s[0] != '_' }

  // What #bigint may hold: one sign at most, then digits with underscores anywhere but in front.
  predicate IntegerText(raw: string, v: int) {
    || (Body(raw) && v == GroupedValue(raw))
    || (raw != [] && raw[0] == '+' && Body(raw[1..]) && v == GroupedValue(raw[1..]))
    || (raw != [] && raw[0] == '-' && Body(raw[1..]) && v == 0 - GroupedValue(raw[1..]))
  }

  lemma {:induction false} WithoutAppend(a: string, b: string)
    ensures WithoutUnderscores(a + b) == WithoutUnderscores(a) + WithoutUnderscores(b)
  {
    if a == [] {
      assert a + b == b;
    } else {
      assert (a + b)[1..] == a[1..] + b;
      WithoutAppend(a[1..], b);
    }
  }

  lemma {:induction false} WithoutOne(c: char)
    ensures WithoutUnderscores([c]) == if c == '_' then [] else [c]
  {
    assert [c][1..] == [];
  }

  lemma {:induction false} DigitsPush(s: string, c: char)
    ensures Digits(s + [c]) <==> Digits(s) && IsDigit(c)
    ensures Digits(s + [c]) ==> Spelled(s + [c]) == Spelled(s) * 10 + (c as nat - '0' as nat)
  {
    var t := s + [c];
    assert t[..|s|] == s && t[|s|] == c;
    assert forall k :: 0 <= k < |s| ==> t[k] == s[k];
  }

  lemma {:induction false} GroupedPush(s: string, c: char)
    ensures Grouped(s + [c]) <==> Grouped(s) && (IsDigit(c) || c == '_')
    ensures Grouped(s + [c]) ==>
              GroupedValue(s + [c]) == if c == '_' then GroupedValue(s) else GroupedValue(s) * 10 + (c as nat - '0' as nat)
  {
    var t := s + [c];
    assert t[..|s|] == s && t[|s|] == c;
    assert forall k :: 0 <= k < |s| ==> t[k] == s[k];
  }

  lemma {:induction false} GroupedDigits(s: string)
    ensures Digits(WithoutUnderscores(s)) <==> Grouped(s)
    ensures Grouped(s) ==> Spelled(WithoutUnderscores(s)) == GroupedValue(s)
  {
    if s == [] {
      WithoutNothing();
    } else {
      hide WithoutUnderscores, Spelled, GroupedValue, Digits, Grouped;
      var front, last := s[..|s| - 1], s[|s| - 1];
      assert s == front + [last];
      GroupedDigits(front);
      WithoutAppend(front, [last]);
      WithoutOne(last);
      DigitsPush(WithoutUnderscores(front), last);
      GroupedPush(front, last);
      assert WithoutUnderscores(front) + [] == WithoutUnderscores(front);
    }
  }

  lemma {:induction false} WithoutNothing()
    ensures WithoutUnderscores([]) == []
  {
  }

  lemma {:induction false} ParsedIff(raw: string, v: int)
    ensures ParseBigint(raw) == Some(v) <==> IntegerText(raw, v)
  {
    hide WithoutUnderscores, Spelled, GroupedValue;
    GroupedDigits(raw);
    if raw != [] { GroupedDigits(raw[1..]); }
  }

  // ------------------------------------------------------ the forms of a value

  predicate Only(j: Json, key: string) { j.Object? && |j.members| == 1 && j.members[0].0 == key }

  predicate OnlyArray(j: Json, key: string) { Only(j, key) && j.members[0].1.Array? }

  predicate OnlyText(j: Json, key: string, s: string) { Only(j, key) && j.members[0].1 == String(s) }

  // Objects that are never records.
  predicate Reserved(j: Json) {
    && j.Object?
    && (|| (|j.members| == 1 && j.members[0].0 in {"#bigint", "#unserializable"} && j.members[0].1.String?)
        || (|j.members| == 1 && j.members[0].0 in {"#tup", "#set", "#map"} && j.members[0].1.Array?)
        || (|j.members| == 2 && j.members[0].0 == "tag" && j.members[1].0 == "value"))
  }

  ghost predicate BareInteger(text: string, v: int) {
    exists n: Numeral :: NumeralOk(n) && Write(n) == text && Convertible(n) && Equals(n, v)
  }

  // `j` is an ITF form of `v`.
  ghost predicate Form(j: Json, v: Value)
    decreases v
  {
    match v
    case Nothing => j == Null || OnlyText(j, "#bigint", "")
    case Boolean(b) => j == Bool(b)
    case Str(s) => j == String(s)
    case Int(n) =>
      || (j.Number? && BareInteger(j.text, n))
      || (Only(j, "#bigint") && j.members[0].1.String? && IntegerText(j.members[0].1.s, n))
    case Unserializable(s) => OnlyText(j, "#unserializable", s)
    case Seq(items) => j.Array? && Forms(j.items, items)
    case Tuple(items) => OnlyArray(j, "#tup") && Forms(j.members[0].1.items, items)
    case Set(items) => OnlyArray(j, "#set") && Forms(j.members[0].1.items, items)
    case Map(entries) => OnlyArray(j, "#map") && PairForms(j.members[0].1.items, entries)
    case Variant(tag, value) =>
      && j.Object? && |j.members| == 2 && j.members[0].0 == "tag" && j.members[0].1 == String(tag) && j.members[1].0 == "value"
      && Form(j.members[1].1, value)
    case Record(fields) =>
      j.Object? && !Reserved(j) && FieldForms(j.members, fields)
  }

  // One form for each value, in order.
  ghost predicate Forms(js: seq<Json>, vs: seq<Value>)
    decreases vs
  {
    |js| == |vs| && (vs != [] ==> Form(js[0], vs[0]) && Forms(js[1..], vs[1..]))
  }

  ghost predicate PairForms(js: seq<Json>, ps: seq<Pair>)
    decreases ps
  {
    |js| == |ps| && (ps != [] ==> PairForm(js[0], ps[0]) && PairForms(js[1..], ps[1..]))
  }

  ghost predicate FieldForms(ms: seq<(string, Json)>, fs: seq<Field>)
    decreases fs
  {
    |ms| == |fs| && (fs != [] ==> FieldForm(ms[0], fs[0]) && FieldForms(ms[1..], fs[1..]))
  }

  ghost predicate PairForm(j: Json, p: Pair)
    decreases p
  {
    j.Array? && |j.items| == 2 && Form(j.items[0], p.key) && Form(j.items[1], p.value)
  }

  ghost predicate FieldForm(m: (string, Json), f: Field)
    decreases f
  {
    m.0 == f.name && Form(m.1, f.value)
  }

  // ------------------------------------------------------ the decoder decides the relation

  lemma {:induction false} BareIff(text: string, v: int)
    requires IsNumber(text)
    ensures ToBigint(text) == Integer(v) <==> BareInteger(text, v)
  {
    hide ToBigint, Write, Equals, Convertible;
    var n :| NumeralOk(n) && Write(n) == text;
    ConvertedIff(n, v);
    if BareInteger(text, v) {
      var m: Numeral :| NumeralOk(m) && Write(m) == text && Convertible(m) && Equals(m, v);
      ConvertedIff(m, v);
    }
  }

  // Decoding gives a value iff the JSON tree is one of its forms.
  lemma {:induction false} WalkIff(j: Json, v: Value)
    requires Printable(j)
    ensures Walk(j) == Some(v) <==> Form(j, v)
    decreases j, 3
  {
    hide ToBigint, BareInteger, IntegerText, WalkAll, WalkObject, Forms, PairForms, FieldForms, Reserved;
    match j
    case Number(text) => NumberIff(text, v);
    case Array(items) => if v.Seq? { AllIff(items, v.items); }
    case Object(ms) => ObjectIff(ms, v);
    case _ =>
  }

  lemma {:induction false} NumberIff(text: string, v: Value)
    requires IsNumber(text)
    ensures Walk(Number(text)) == Some(v) <==> v.Int? && BareInteger(text, v.n)
  {
    hide ToBigint, BareInteger, IsNumber;
    if ToBigint(text).Integer? { BareIff(text, ToBigint(text).n); }
    if v.Int? { BareIff(text, v.n); }
  }

  lemma {:induction false} AllIff(items: seq<Json>, vs: seq<Value>)
    requires forall i :: 0 <= i < |items| ==> Printable(items[i])
    ensures WalkAll(items) == Some(vs) <==> Forms(items, vs)
    decreases items, 0
  {
    hide Walk, Form, Printable;
    if items != [] && vs != [] {
      WalkIff(items[0], vs[0]);
      AllIff(items[1..], vs[1..]);
      assert vs == [vs[0]] + vs[1..];
    }
  }

  lemma {:induction false} PairIff(j: Json, p: Pair)
    requires Printable(j)
    ensures WalkPair(j) == Some(p) <==> PairForm(j, p)
    decreases j, 2
  {
    hide Walk, Form;
    if j.Array? && |j.items| == 2 {
      WalkIff(j.items[0], p.key);
      WalkIff(j.items[1], p.value);
    }
  }

  lemma {:induction false} PairsIff(items: seq<Json>, ps: seq<Pair>)
    requires forall i :: 0 <= i < |items| ==> Printable(items[i])
    ensures WalkPairs(items) == Some(ps) <==> PairForms(items, ps)
    decreases items, 0
  {
    hide WalkPair, PairForm, Printable;
    if items != [] && ps != [] {
      PairIff(items[0], ps[0]);
      PairsIff(items[1..], ps[1..]);
      assert ps == [ps[0]] + ps[1..];
    }
  }

  lemma {:induction false} MemberIff(m: (string, Json), v: Value)
    requires Printable(m.1)
    ensures WalkMember(m) == Some(v) <==> Form(m.1, v)
    decreases m, 4
  {
    hide Walk, Form;
    WalkIff(m.1, v);
  }

  lemma {:induction false} FieldsIff(ms: seq<(string, Json)>, fs: seq<Field>)
    requires forall i :: 0 <= i < |ms| ==> Printable(ms[i].1)
    ensures WalkFields(ms) == Some(fs) <==> FieldForms(ms, fs)
    decreases ms, 0
  {
    hide WalkMember, Form, Printable;
    if ms != [] && fs != [] {
      MemberIff(ms[0], fs[0].value);
      FieldsIff(ms[1..], fs[1..]);
      assert fs == [fs[0]] + fs[1..];
    }
  }

  lemma {:induction false} InsideIff(m: (string, Json), vs: seq<Value>)
    requires m.1.Array? && Printable(m.1)
    ensures WalkInside(m) == Some(vs) <==> Forms(m.1.items, vs)
    decreases m, 4
  {
    hide WalkAll, Forms;
    AllIff(m.1.items, vs);
  }

  lemma {:induction false} PairsInsideIff(m: (string, Json), ps: seq<Pair>)
    requires m.1.Array? && Printable(m.1)
    ensures WalkPairsInside(m) == Some(ps) <==> PairForms(m.1.items, ps)
    decreases m, 4
  {
    hide WalkPairs, PairForms;
    PairsIff(m.1.items, ps);
  }

  lemma {:induction false} ObjectIff(ms: seq<(string, Json)>, v: Value)
    requires forall i :: 0 <= i < |ms| ==> Printable(ms[i].1)
    ensures WalkObject(ms) == Some(v) <==> Form(Object(ms), v)
    decreases ms, 2
  {
    hide ParseBigint, WalkAll, WalkPairs, WalkFields, Walk, WalkInside, WalkPairsInside, WalkMember, Forms, PairForms, FieldForms,
         IntegerText, Printable, BareInteger;
    EmptyIsNoInteger();
    match ShapeOf(ms)
    case BigintShape(raw) => if v.Int? { ParsedIff(raw, v.n); }
    case TupleShape(_) => if v.Tuple? { InsideIff(ms[0], v.items); }
    case SetShape(_) => if v.Set? { InsideIff(ms[0], v.items); }
    case MapShape(_) => if v.Map? { PairsInsideIff(ms[0], v.entries); }
    case RawShape(_) =>
    case VariantShape(_, _) => if v.Variant? { MemberIff(ms[1], v.value); }
    case PlainShape => if v.Record? { FieldsIff(ms, v.fields); }
  }

  lemma {:induction false} EmptyIsNoInteger()
    ensures forall v :: !IntegerText("", v)
  {
  }

  // What is refused is no form of anything.
  lemma {:induction false} RefusedIff(j: Json)
    requires Printable(j)
    ensures Walk(j).None? <==> forall v :: !Form(j, v)
  {
    hide Walk, Form, Printable;
    forall v ensures Walk(j) == Some(v) <==> Form(j, v) { WalkIff(j, v); }
    if Walk(j).Some? { assert Form(j, Walk(j).value); }
  }

  // ------------------------------------------------------ the encoder

  // What is encoded is a form of the value, if no record inside it is marker-shaped.
  lemma {:induction false} EncodeIsForm(v: Value)
    requires Plain(v)
    ensures Form(Encode(v), v)
    decreases v, 1
  {
    hide BareInteger, IntegerText;
    match v
    case Int(n) =>
      ParseText(n);
      ParsedIff(IntText(n), n);
    case Set(items) => EncodeAllForms(items);
    case Seq(items) => EncodeAllForms(items);
    case Tuple(items) => EncodeAllForms(items);
    case Map(entries) => EncodePairsForms(entries);
    case Record(fields) =>
      EncodeFieldsForms(fields);
      NotReserved(fields);
    case Variant(_, value) => EncodeIsForm(value);
    case _ =>
  }

  lemma {:induction false} EncodeAllForms(items: seq<Value>)
    requires forall i :: 0 <= i < |items| ==> Plain(items[i])
    ensures Forms(EncodeAll(items), items)
    decreases items, 0
  {
    hide Form, Encode, Plain;
    if items != [] {
      EncodeIsForm(items[0]);
      EncodeAllForms(items[1..]);
    }
  }

  lemma {:induction false} EncodePairForm(p: Pair)
    requires PlainPair(p)
    ensures PairForm(EncodePair(p), p)
    decreases p, 0
  {
    hide Form, Encode, Plain;
    EncodeIsForm(p.key);
    EncodeIsForm(p.value);
  }

  lemma {:induction false} EncodePairsForms(entries: seq<Pair>)
    requires forall i :: 0 <= i < |entries| ==> PlainPair(entries[i])
    ensures PairForms(EncodePairs(entries), entries)
    decreases entries, 0
  {
    hide PairForm, EncodePair, PlainPair;
    if entries != [] {
      EncodePairForm(entries[0]);
      EncodePairsForms(entries[1..]);
    }
  }

  lemma {:induction false} EncodeFieldForm(f: Field)
    requires PlainField(f)
    ensures FieldForm(EncodeField(f), f)
    decreases f, 0
  {
    hide Form, Encode, Plain;
    EncodeIsForm(f.value);
  }

  lemma {:induction false} EncodeFieldsForms(fields: seq<Field>)
    requires forall i :: 0 <= i < |fields| ==> PlainField(fields[i])
    ensures FieldForms(EncodeFields(fields), fields)
    decreases fields, 0
  {
    hide FieldForm, EncodeField, PlainField;
    if fields != [] {
      EncodeFieldForm(fields[0]);
      EncodeFieldsForms(fields[1..]);
    }
  }

  lemma {:induction false} NotReserved(fields: seq<Field>)
    requires !Marker(fields)
    ensures !Reserved(Object(EncodeFields(fields)))
  {
    hide Encode;
    if |fields| == 1 { Faces(fields[0].value); }
  }
}
