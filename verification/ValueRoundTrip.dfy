// Encoding and decoding of values: which of them survive, and that decoded ones always do.
module ValueRoundTrip {
  import opened Wrappers
  import opened JsonTree
  import opened Numbers
  import opened Values

  // An encoded record has a tagged shape iff the record is marker-shaped.
  lemma {:induction false} MarkerShape(fields: seq<Field>)
    ensures Marker(fields) <==> !ShapeOf(EncodeFields(fields)).PlainShape?
  {
    hide Encode, EncodeFields;
    var ms := EncodeFields(fields);
    if |fields| == 1 { Faces(fields[0].value); }
  }

  lemma {:induction false} Faces(v: Value)
    ensures Encode(v).String? <==> v.Str?
    ensures Encode(v).Array? <==> v.Seq?
  {
  }

  // A value comes back from its ITF form iff no record inside it is marker-shaped.
  lemma {:induction false} RoundTrip(v: Value)
    ensures Walk(Encode(v)) == Some(v) <==> Plain(v)
    decreases v, 3
  {
    match v
    case Set(items) =>
      RoundTripAll(items);
      SingleArray("#set", EncodeAll(items));
    case Seq(items) => RoundTripAll(items);
    case Tuple(items) =>
      RoundTripAll(items);
      SingleArray("#tup", EncodeAll(items));
    case Map(entries) =>
      RoundTripPairs(entries);
      SingleArray("#map", EncodePairs(entries));
    case Record(fields) => RoundTripRecord(fields);
    case Variant(tag, value) =>
      RoundTrip(value);
      VariantWalks(tag, Encode(value));
    case Int(n) => ParseText(n);
    case _ => {}
  }

  lemma {:induction false} SingleArray(key: string, items: seq<Json>)
    ensures key == "#set" ==>
      Walk(Single(key, Array(items))) == (if WalkAll(items).None? then None else Some(Set(WalkAll(items).value)))
    ensures key == "#tup" ==>
      Walk(Single(key, Array(items))) == (if WalkAll(items).None? then None else Some(Tuple(WalkAll(items).value)))
    ensures key == "#map" ==>
      Walk(Single(key, Array(items))) == (if WalkPairs(items).None? then None else Some(Map(WalkPairs(items).value)))
  {
    var ms := [(key, Array(items))];
    assert "#tup"[1] == 't' && "#set"[1] == 's' && "#map"[1] == 'm';
    assert WalkInside(ms[0]) == WalkAll(items) && WalkPairsInside(ms[0]) == WalkPairs(items);
    assert Walk(Single(key, Array(items))) == WalkObject(ms);
  }

  lemma {:induction false} VariantWalks(tag: string, j: Json)
    ensures Walk(Object([("tag", String(tag)), ("value", j)]))
         == (if Walk(j).None? then None else Some(Variant(tag, Walk(j).value)))
  {
    var ms := [("tag", String(tag)), ("value", j)];
    assert WalkMember(ms[1]) == Walk(j);
    assert Walk(Object(ms)) == WalkObject(ms);
  }

  lemma {:induction false} RoundTripAll(items: seq<Value>)
    ensures WalkAll(EncodeAll(items)) == Some(items) <==> forall i :: 0 <= i < |items| ==> Plain(items[i])
    decreases items, 0
  {
    hide Walk, Plain;
    if items != [] {
      RoundTrip(items[0]);
      RoundTripAll(items[1..]);
      assert EncodeAll(items)[1..] == EncodeAll(items[1..]);
      assert items == [items[0]] + items[1..];
      assert (forall i :: 0 <= i < |items| ==> Plain(items[i]))
        <==> Plain(items[0]) && forall i :: 0 <= i < |items[1..]| ==> Plain(items[1..][i]);
    }
  }

  lemma {:induction false} RoundTripPair(p: Pair)
    ensures WalkPair(EncodePair(p)) == Some(p) <==> PlainPair(p)
    decreases p, 4
  {
    hide Walk;
    RoundTrip(p.key);
    RoundTrip(p.value);
  }

  lemma {:induction false} RoundTripPairs(entries: seq<Pair>)
    ensures WalkPairs(EncodePairs(entries)) == Some(entries) <==> forall i :: 0 <= i < |entries| ==> PlainPair(entries[i])
    decreases entries, 0
  {
    hide WalkPair, PlainPair, EncodePair;
    if entries != [] {
      RoundTripPair(entries[0]);
      RoundTripPairs(entries[1..]);
      assert EncodePairs(entries)[1..] == EncodePairs(entries[1..]);
      assert entries == [entries[0]] + entries[1..];
      assert (forall i :: 0 <= i < |entries| ==> PlainPair(entries[i]))
        <==> PlainPair(entries[0]) && forall i :: 0 <= i < |entries[1..]| ==> PlainPair(entries[1..][i]);
    }
  }

  lemma {:induction false} RoundTripRecord(fields: seq<Field>)
    ensures Walk(Encode(Record(fields))) == Some(Record(fields)) <==> Plain(Record(fields))
    decreases fields, 1
  {
    hide WalkFields, EncodeFields, ShapeOf, PlainField;
    MarkerShape(fields);
    RoundTripFields(fields);
    assert Walk(Object(EncodeFields(fields))) == WalkObject(EncodeFields(fields));
  }

  lemma {:induction false} RoundTripField(f: Field)
    ensures WalkMember(EncodeField(f)) == Some(f.value) <==> PlainField(f)
    decreases f, 4
  {
    RoundTrip(f.value);
  }

  lemma {:induction false} RoundTripFields(fields: seq<Field>)
    ensures WalkFields(EncodeFields(fields)) == Some(fields) <==> forall i :: 0 <= i < |fields| ==> PlainField(fields[i])
    decreases fields, 0
  {
    hide WalkMember, PlainField;
    if fields != [] {
      RoundTripField(fields[0]);
      RoundTripFields(fields[1..]);
      assert EncodeFields(fields)[1..] == EncodeFields(fields[1..]);
      assert fields == [fields[0]] + fields[1..];
      assert (forall i :: 0 <= i < |fields| ==> PlainField(fields[i]))
        <==> PlainField(fields[0]) && forall i :: 0 <= i < |fields[1..]| ==> PlainField(fields[1..][i]);
    }
  }

  // ------------------------------------------------------ what walk returns

  lemma {:induction false} WalkedFaces(j: Json)
    requires Walk(j).Some?
    ensures Walk(j).value.Str? <==> j.String?
    ensures Walk(j).value.Seq? <==> j.Array?
  {
    hide WalkAll, WalkPairs, WalkFields, WalkMember, ShapeOf, ToBigint, ParseBigint;
  }

  lemma {:induction false} WalkedNames(ms: seq<(string, Json)>)
    requires WalkFields(ms).Some?
    ensures |WalkFields(ms).value| == |ms|
    ensures forall i :: 0 <= i < |ms| ==> WalkFields(ms).value[i].name == ms[i].0
    ensures forall i :: 0 <= i < |ms| ==> Walk(ms[i].1) == Some(WalkFields(ms).value[i].value)
    decreases |ms|
  {
    hide Walk;
    if ms != [] {
      WalkedNames(ms[1..]);
      assert forall i :: 0 < i < |ms| ==> ms[i] == ms[1..][i - 1];
      assert WalkMember(ms[0]) == Walk(ms[0].1);
    }
  }

  lemma {:induction false} PlainShapeIsNoMarker(ms: seq<(string, Json)>)
    requires ShapeOf(ms).PlainShape? && WalkFields(ms).Some?
    ensures !Marker(WalkFields(ms).value)
  {
    hide Walk, WalkFields;
    WalkedNames(ms);
    if |ms| == 1 { WalkedFaces(ms[0].1); }
  }

  // Decoding never produces a marker-shaped record.
  lemma {:induction false} WalkedIsPlain(j: Json)
    requires Walk(j).Some?
    ensures Plain(Walk(j).value)
    decreases j, 3
  {
    hide ToBigint;
    match j
    case Array(items) => WalkedAllPlain(items);
    case Object(ms) => WalkedObjectPlain(ms);
    case _ => {}
  }

  lemma {:induction false} WalkedObjectPlain(ms: seq<(string, Json)>)
    requires WalkObject(ms).Some?
    ensures Plain(WalkObject(ms).value)
    decreases ms, 2
  {
    hide ParseBigint, WalkAll, WalkPairs, WalkFields, Walk, Marker;
    match ShapeOf(ms)
    case TupleShape(_) => WalkedInsidePlain(ms[0]);
    case SetShape(_) => WalkedInsidePlain(ms[0]);
    case MapShape(_) => WalkedPairsInsidePlain(ms[0]);
    case VariantShape(_, _) => WalkedMemberPlain(ms[1]);
    case PlainShape =>
      WalkedFieldsPlain(ms);
      PlainShapeIsNoMarker(ms);
    case _ => {}
  }

  lemma {:induction false} WalkedMemberPlain(m: (string, Json))
    requires WalkMember(m).Some?
    ensures Plain(WalkMember(m).value)
    decreases m, 4
  {
    WalkedIsPlain(m.1);
  }

  lemma {:induction false} WalkedInsidePlain(m: (string, Json))
    requires m.1.Array? && WalkInside(m).Some?
    ensures var vs := WalkInside(m).value; forall i :: 0 <= i < |vs| ==> Plain(vs[i])
    decreases m, 4
  {
    WalkedAllPlain(m.1.items);
  }

  lemma {:induction false} WalkedPairsInsidePlain(m: (string, Json))
    requires m.1.Array? && WalkPairsInside(m).Some?
    ensures var ps := WalkPairsInside(m).value; forall i :: 0 <= i < |ps| ==> PlainPair(ps[i])
    decreases m, 4
  {
    WalkedPairsPlain(m.1.items);
  }

  lemma {:induction false} WalkedAllPlain(items: seq<Json>)
    requires WalkAll(items).Some?
    ensures var vs := WalkAll(items).value; forall i :: 0 <= i < |vs| ==> Plain(vs[i])
    decreases items, 0
  {
    hide Walk, Plain;
    if items != [] {
      WalkedIsPlain(items[0]);
      WalkedAllPlain(items[1..]);
    }
  }

  lemma {:induction false} WalkedPairPlain(j: Json)
    requires WalkPair(j).Some?
    ensures PlainPair(WalkPair(j).value)
    decreases j, 2
  {
    hide Walk;
    WalkedIsPlain(j.items[0]);
    WalkedIsPlain(j.items[1]);
  }

  lemma {:induction false} WalkedPairsPlain(items: seq<Json>)
    requires WalkPairs(items).Some?
    ensures var ps := WalkPairs(items).value; forall i :: 0 <= i < |ps| ==> PlainPair(ps[i])
    decreases items, 0
  {
    hide WalkPair, PlainPair;
    if items != [] {
      WalkedPairPlain(items[0]);
      WalkedPairsPlain(items[1..]);
    }
  }

  lemma {:induction false} WalkedFieldsPlain(ms: seq<(string, Json)>)
    requires WalkFields(ms).Some?
    ensures var fs := WalkFields(ms).value; forall i :: 0 <= i < |fs| ==> PlainField(fs[i])
    decreases ms, 0
  {
    hide WalkMember, Plain;
    if ms != [] {
      WalkedMemberPlain(ms[0]);
      WalkedFieldsPlain(ms[1..]);
    }
  }

  // Whatever was decoded is given back by encoding and decoding once more.
  lemma {:induction false} DecodedRoundTrips(j: Json)
    requires Walk(j).Some?
    ensures Walk(Encode(Walk(j).value)) == Walk(j)
  {
    hide Walk, Encode, Plain;
    WalkedIsPlain(j);
    RoundTrip(Walk(j).value);
  }

  // On the values that survive, the encoding tells different values apart.
  lemma {:induction false} EncodeInjective(v: Value, w: Value)
    requires Plain(v) && Plain(w) && Encode(v) == Encode(w)
    ensures v == w
  {
    hide Walk, Encode, Plain;
    RoundTrip(v);
    RoundTrip(w);
  }

  // The record {"#bigint": "5"} reads back as the number 5.
  lemma {:induction false} MarkerRecordIsLost()
    ensures Walk(Encode(Record([Field("#bigint", Str("5"))]))) == Some(Int(5))
  {
    assert IntText(5) == "5";
    ParseText(5);
    var fields := [Field("#bigint", Str("5"))];
    var ms := EncodeFields(fields);
    assert ms == [("#bigint", String("5"))];
    assert Walk(Object(ms)) == WalkObject(ms);
  }
}
