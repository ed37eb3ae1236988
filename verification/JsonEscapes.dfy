// The body of a string literal read off RFC 8259 section 7 and RFC 3629 section 3, piece by
// piece, and what the decoder makes of it: exactly that.
module JsonEscapes {
  import opened Wrappers
  import opened JsonText
  import opened JsonString

  // ------------------------------------------------------ UTF-8

  predicate Tail(c: char) { 0x80 <= c as nat < 0xC0 }

  // The bytes are the encoding of the code point: as few as its size allows, the leading byte
  // telling how many, and each further byte carrying six bits.
  predicate Encodes(n: nat, b: string) {
    && n < 0x110000
    && (forall i :: 0 < i < |b| ==> Tail(b[i]))
    && (n < 0x80 ==> |b| == 1 && b[0] as nat == n)
    && (0x80 <= n < 0x800 ==>
          |b| == 2 && 0xC0 <= b[0] as nat < 0xE0 && (b[0] as int - 0xC0) * 0x40 + (b[1] as int - 0x80) == n)
    && (0x800 <= n < 0x10000 ==>
          && |b| == 3 && 0xE0 <= b[0] as nat < 0xF0
          && (b[0] as int - 0xE0) * 0x1000 + (b[1] as int - 0x80) * 0x40 + (b[2] as int - 0x80) == n)
    && (0x10000 <= n ==>
          && |b| == 4 && 0xF0 <= b[0] as nat < 0xF8
          && (b[0] as int - 0xF0) * 0x40000 + (b[1] as int - 0x80) * 0x1000 + (b[2] as int - 0x80) * 0x40 + (b[3] as int - 0x80) == n)
  }

  lemma {:induction false} Utf8Encodes(n: nat)
    requires n < 0x110000
    ensures Encodes(n, Utf8(n))
  {
    if n < 0x80 { }
    else if n < 0x800 { TwoBytes(n); }
    else if n < 0x10000 { ThreeBytes(n); }
    else { FourBytes(n); }
  }

  lemma {:induction false} TwoBytes(n: nat)
    requires 0x80 <= n < 0x800
    ensures Encodes(n, Utf8(n))
  {
    ContinuationForm(n);
    Sixes(n);
  }

  lemma {:induction false} ThreeBytes(n: nat)
    requires 0x800 <= n < 0x10000
    ensures Encodes(n, Utf8(n))
  {
    hide Continuation;
    ContinuationForm(n);
    Sixes(n);
    Sixes(n / 64);
    assert n / 4096 == n / 64 / 64;
    var b := Utf8(n);
    assert b == [Byte(0xE0 + n / 4096), Byte(0x80 + n / 64 % 64), Byte(0x80 + n % 64)];
  }

  lemma {:induction false} FourBytes(n: nat)
    requires 0x10000 <= n < 0x110000
    ensures Encodes(n, Utf8(n))
  {
    hide Continuation;
    ContinuationForm(n);
    Sixes(n);
    Sixes(n / 64);
    Sixes(n / 64 / 64);
    assert n / 262144 == n / 64 / 64 / 64;
    var b := Utf8(n);
    assert b == [Byte(0xF0 + n / 262144), Byte(0x80 + n / 64 / 64 % 64), Byte(0x80 + n / 64 % 64), Byte(0x80 + n % 64)];
  }

  lemma {:induction false} Sixes(n: nat)
    ensures n == n / 64 * 64 + n % 64 && n % 64 < 64
  {
  }

  lemma {:induction false} ContinuationForm(n: nat)
    ensures Continuation(n, 1) == [Byte(0x80 + n % 64)]
    ensures Continuation(n, 2) == [Byte(0x80 + n / 64 % 64), Byte(0x80 + n % 64)]
    ensures Continuation(n, 3) == [Byte(0x80 + n / 64 / 64 % 64), Byte(0x80 + n / 64 % 64), Byte(0x80 + n % 64)]
  {
    assert Continuation(n, 0) == Continuation(n / 64, 0) == Continuation(n / 64 / 64, 0) == Continuation(n / 64 / 64 / 64, 0) == [];
    assert Continuation(n / 64, 1) == [Byte(0x80 + n / 64 % 64)];
    assert Continuation(n / 64 / 64, 1) == [Byte(0x80 + n / 64 / 64 % 64)];
    assert Continuation(n / 64, 2) == [Byte(0x80 + n / 64 / 64 % 64), Byte(0x80 + n / 64 % 64)];
  }

  // A code point has one encoding.
  lemma {:induction false} EncodesOnce(n: nat, a: string, b: string)
    requires Encodes(n, a) && Encodes(n, b)
    ensures a == b
  {
    if n < 0x80 {
      assert a[0] == b[0];
    } else if n < 0x800 {
      SixBits(a[0] as int - 0xC0, a[1], b[0] as int - 0xC0, b[1]);
    } else if n < 0x10000 {
      SixBits((a[0] as int - 0xE0) * 0x40 + (a[1] as int - 0x80), a[2], (b[0] as int - 0xE0) * 0x40 + (b[1] as int - 0x80), b[2]);
      SixBits(a[0] as int - 0xE0, a[1], b[0] as int - 0xE0, b[1]);
    } else {
      var x, y := (a[0] as int - 0xF0) * 0x40 + (a[1] as int - 0x80), (b[0] as int - 0xF0) * 0x40 + (b[1] as int - 0x80);
      SixBits(x * 0x40 + (a[2] as int - 0x80), a[3], y * 0x40 + (b[2] as int - 0x80), b[3]);
      SixBits(x, a[2], y, b[2]);
      SixBits(a[0] as int - 0xF0, a[1], b[0] as int - 0xF0, b[1]);
    }
  }

  lemma {:induction false} SixBits(x: int, c: char, y: int, d: char)
    requires Tail(c) && Tail(d) && x * 0x40 + (c as int - 0x80) == y * 0x40 + (d as int - 0x80)
    ensures x == y && c == d
  {
  }

  lemma {:induction false} Utf8Iff(n: nat, b: string)
    requires n < 0x110000
    ensures b == Utf8(n) <==> Encodes(n, b)
  {
    hide Utf8, Encodes;
    Utf8Encodes(n);
    if Encodes(n, b) { EncodesOnce(n, b, Utf8(n)); }
  }

  // ------------------------------------------------------ hexadecimal digits

  const LOWER := "0123456789abcdef"
  const UPPER := "0123456789ABCDEF"

  predicate Digit(c: char, v: nat) { v < 16 && (c == LOWER[v] || c == UPPER[v]) }

  // Four digits, the most significant first.
  ghost predicate Spells(d: string, n: nat) {
    |d| == 4 && exists a: nat, b: nat, c: nat, e: nat ::
      Digit(d[0], a) && Digit(d[1], b) && Digit(d[2], c) && Digit(d[3], e) && n == a * 0x1000 + b * 0x100 + c * 0x10 + e
  }

  lemma {:induction false} HexValueIff(c: char, v: nat)
    ensures HexValue(c) == Some(v) <==> Digit(c, v)
  {
    if v < 10 {
      assert LOWER[v] == UPPER[v] == ('0' as nat + v) as char;
    } else if v < 16 {
      assert LOWER[v] == ('a' as nat + (v - 10)) as char;
      assert UPPER[v] == ('A' as nat + (v - 10)) as char;
    }
  }

  lemma {:induction false} HexForm(s: string)
    requires |s| >= 4
    ensures Hex4(s).Some? <==> forall i :: 0 <= i < 4 ==> HexValue(s[i]).Some?
    ensures Hex4(s).Some? ==>
              Hex4(s).value == HexValue(s[0]).value * 0x1000 + HexValue(s[1]).value * 0x100 + HexValue(s[2]).value * 0x10
                               + HexValue(s[3]).value
  {
    hide HexValue;
    assert Hex(s, 0) == Some(0);
    assert Hex(s, 1) == if HexValue(s[0]).None? then None else Some(HexValue(s[0]).value);
    assert Hex(s, 2) == if Hex(s, 1).None? || HexValue(s[1]).None? then None else Some(Hex(s, 1).value * 16 + HexValue(s[1]).value);
    assert Hex(s, 3) == if Hex(s, 2).None? || HexValue(s[2]).None? then None else Some(Hex(s, 2).value * 16 + HexValue(s[2]).value);
    assert Hex(s, 4) == if Hex(s, 3).None? || HexValue(s[3]).None? then None else Some(Hex(s, 3).value * 16 + HexValue(s[3]).value);
  }

  lemma {:induction false} Hex4Iff(s: string, n: nat)
    ensures Hex4(s) == Some(n) <==> |s| >= 4 && Spells(s[..4], n)
  {
    hide Hex4, Spells;
    if |s| < 4 { HexShort(s); }
    else {
      if Hex4(s) == Some(n) { Hex4Spells(s, n); }
      if Spells(s[..4], n) { SpellsHex4(s, n); }
    }
  }

  lemma {:induction false} Hex4Spells(s: string, n: nat)
    requires |s| >= 4 && Hex4(s) == Some(n)
    ensures Spells(s[..4], n)
  {
    hide Hex4, HexValue, Digit;
    HexForm(s);
    var a, b, c, e := HexValue(s[0]).value, HexValue(s[1]).value, HexValue(s[2]).value, HexValue(s[3]).value;
    HexValueIff(s[0], a);
    HexValueIff(s[1], b);
    HexValueIff(s[2], c);
    HexValueIff(s[3], e);
    var d := s[..4];
    assert Digit(d[0], a) && Digit(d[1], b) && Digit(d[2], c) && Digit(d[3], e);
  }

  lemma {:induction false} SpellsHex4(s: string, n: nat)
    requires |s| >= 4 && Spells(s[..4], n)
    ensures Hex4(s) == Some(n)
  {
    hide Hex4, HexValue, Digit;
    HexForm(s);
    var d := s[..4];
    var a: nat, b: nat, c: nat, e: nat :|
      Digit(d[0], a) && Digit(d[1], b) && Digit(d[2], c) && Digit(d[3], e) && n == a * 0x1000 + b * 0x100 + c * 0x10 + e;
    HexValueIff(s[0], a);
    HexValueIff(s[1], b);
    HexValueIff(s[2], c);
    HexValueIff(s[3], e);
    assert forall i :: 0 <= i < 4 ==> HexValue(s[i]).Some?;
  }

  lemma {:induction false} HexShort(s: string)
    requires |s| < 4
    ensures Hex4(s).None?
  {
  }

  // ------------------------------------------------------ the pieces of a body

  // A character that stands for itself, a two-character escape, an escaped code point of the
  // basic plane, and an escaped surrogate pair.
  datatype Piece =
    | Plain(c: char)
    | Short(letter: char, c: char)
    | Code(n: nat, digits: string)
    | Surrogates(high: nat, low: nat, first: string, second: string)

  // The two-character escapes.
  const SHORT: seq<(char, char)> :=
    [('\"', '\"'), ('\\', '\\'), ('/', '/'), ('b', 8 as char), ('f', 12 as char), ('n', 10 as char), ('r', 13 as char), ('t', 9 as char)]

  ghost predicate PieceOk(p: Piece) {
    match p
    case Plain(c) => c >= ' ' && c != '\"' && c != '\\'
    case Short(letter, c) => (letter, c) in SHORT
    case Code(n, d) => Spells(d, n) && !(0xD800 <= n < 0xE000)
    case Surrogates(high, low, d, e) => Spells(d, high) && Spells(e, low) && 0xD800 <= high < 0xDC00 && 0xDC00 <= low < 0xE000
  }

  function Written(p: Piece): string {
    match p
    case Plain(c) => [c]
    case Short(letter, _) => ['\\', letter]
    case Code(_, d) => "\\u" + d
    case Surrogates(_, _, d, e) => ("\\u" + d) + ("\\u" + e)
  }

  // The text that the piece stands for.
  ghost predicate StandsFor(p: Piece, text: string) {
    match p
    case Plain(c) => text == [c]
    case Short(_, c) => text == [c]
    case Code(n, _) => Encodes(n, text)
    case Surrogates(high, low, _, _) => high >= 0xD800 && low >= 0xDC00 && Encodes(0x10000 + (high - 0xD800) * 0x400 + (low - 0xDC00), text)
  }

  lemma {:induction false} SimpleIff(letter: char, c: char)
    ensures Simple(letter) == Some(c) <==> (letter, c) in SHORT
  {
    if Simple(letter) == Some(c) {
      var i := if letter == '\"' then 0 else if letter == '\\' then 1 else if letter == '/' then 2 else if letter == 'b' then 3
               else if letter == 'f' then 4 else if letter == 'n' then 5 else if letter == 'r' then 6 else 7;
      assert SHORT[i] == (letter, c);
    }
  }

  // What the decoder takes off the head of a body is a piece of it.
  lemma {:induction false} UnitIsPiece(s: string) returns (p: Piece)
    requires s != [] && Unit(s).Some?
    ensures PieceOk(p) && Written(p) == s[..Unit(s).value.1] && StandsFor(p, Unit(s).value.0)
  {
    hide Utf8, Encodes, Simple, Hex4, Spells;
    if s[0] != '\\' {
      p := Plain(s[0]);
    } else if s[1] == 'u' {
      var n := Hex4(s[2..]).value;
      Hex4Iff(s[2..], n);
      assert s[2..][..4] == s[2..6];
      if Leading(n) {
        var m := Hex4(s[8..]).value;
        Hex4Iff(s[8..], m);
        assert s[8..][..4] == s[8..12];
        p := Surrogates(n, m, s[2..6], s[8..12]);
        Utf8Encodes(0x10000 + (n - 0xD800) * 1024 + (m - 0xDC00));
        assert s[..12] == s[..6] + s[6..12];
        assert s[..6] == "\\u" + s[2..6] && s[6..12] == "\\u" + s[8..12];
      } else {
        p := Code(n, s[2..6]);
        Utf8Encodes(n);
        assert s[..6] == "\\u" + s[2..6];
      }
    } else {
      SimpleIff(s[1], Simple(s[1]).value);
      p := Short(s[1], Simple(s[1]).value);
    }
  }

  // Every piece is taken off in full.
  lemma {:induction false} PieceIsUnit(p: Piece, rest: string, text: string)
    requires PieceOk(p) && StandsFor(p, text)
    ensures Unit(Written(p) + rest) == Some((text, |Written(p)|))
  {
    hide Utf8, Encodes, Simple, Hex4, Spells;
    var s := Written(p) + rest;
    match p {
      case Plain(c) =>
      case Short(letter, c) =>
        SimpleIff(letter, c);
        LettersAreNotU(letter, c);
      case Code(n, d) =>
        SpellsSize(d, n);
        assert s[2..][..4] == d;
        Hex4Iff(s[2..], n);
        Utf8Iff(n, text);
      case Surrogates(high, low, d, e) =>
        SpellsSize(d, high);
        SpellsSize(e, low);
        assert s[2..][..4] == d && s[6] == '\\' && s[7] == 'u' && s[8..][..4] == e;
        Hex4Iff(s[2..], high);
        Hex4Iff(s[8..], low);
        Utf8Iff(0x10000 + (high - 0xD800) * 0x400 + (low - 0xDC00), text);
    }
  }

  lemma {:induction false} LettersAreNotU(letter: char, c: char)
    requires (letter, c) in SHORT
    ensures letter != 'u'
  {
  }

  lemma {:induction false} SpellsSize(d: string, n: nat)
    requires Spells(d, n)
    ensures |d| == 4 && n < 0x10000
  {
  }

  // The body is these pieces one after the other, and they stand for this text.
  ghost predicate Denotes(pieces: seq<Piece>, body: string, text: string)
    decreases |pieces|
  {
    if pieces == [] then body == [] && text == []
    else exists b, t, u ::
      PieceOk(pieces[0]) && body == Written(pieces[0]) + b && StandsFor(pieces[0], t) && text == t + u && Denotes(pieces[1..], b, u)
  }

  // A body is decoded to a text iff it is made of pieces that stand for it; everything else is refused.
  lemma {:induction false} DecodeIff(body: string, text: string)
    ensures Decode(body) == Some(text) <==> exists pieces :: Denotes(pieces, body, text)
  {
    hide Decode, Denotes;
    if Decode(body) == Some(text) { var pieces := DecodedPieces(body); }
    if pieces :| Denotes(pieces, body, text) { PiecesDecoded(pieces, body, text); }
  }

  lemma {:induction false} DecodedPieces(body: string) returns (pieces: seq<Piece>)
    requires Decode(body).Some?
    ensures Denotes(pieces, body, Decode(body).value)
    decreases |body|
  {
    hide Unit, PieceOk, StandsFor;
    if body == [] {
      pieces := [];
    } else {
      var u := Unit(body).value;
      var p := UnitIsPiece(body);
      var rest := DecodedPieces(body[u.1..]);
      pieces := [p] + rest;
      assert pieces[1..] == rest && body == Written(p) + body[u.1..];
    }
  }

  lemma {:induction false} PiecesDecoded(pieces: seq<Piece>, body: string, text: string)
    requires Denotes(pieces, body, text)
    ensures Decode(body) == Some(text)
    decreases |pieces|
  {
    hide Unit, PieceOk, StandsFor;
    if pieces != [] {
      var p := pieces[0];
      var b, t, u :| PieceOk(p) && body == Written(p) + b && StandsFor(p, t) && text == t + u && Denotes(pieces[1..], b, u);
      PieceIsUnit(p, b, t);
      PiecesDecoded(pieces[1..], b, u);
      assert body[|Written(p)|..] == b;
    }
  }
}
