// String literals (RFC 8259 section 7): the scan of Parser::string (src/json.rs:92-108), the
// decoding of the body between the quotes, and the escapes that the compact printer writes.
module JsonString {
  import opened Wrappers
  import opened JsonText

  const QUOTE := '\"'
  const ESCAPE := '\\'

  predicate Control(c: char) { c < ' ' }

  // The closing quote found from `at` on.
  function Scan(t: string, at: nat): (r: Option<nat>)
    requires at <= |t|
    ensures r.Some? ==> at <= r.value < |t| && t[r.value] == QUOTE
    decreases |t| - at
  {
    if at == |t| then None
    else if t[at] == QUOTE then Some(at)
    else if t[at] == ESCAPE then (if at + 2 <= |t| then Scan(t, at + 2) else Scan(t, |t|))
    else if Control(t[at]) then None
    else Scan(t, at + 1)
  }

  // ------------------------------------------------------ decoding

  function HexValue(c: char): (r: Option<nat>)
    ensures r.Some? ==> r.value < 16 && !Control(c) && c != QUOTE && c != ESCAPE
  {
    if '0' <= c <= '9' then Some(c as nat - '0' as nat)
    else if 'a' <= c <= 'f' then Some(c as nat - 'a' as nat + 10)
    else if 'A' <= c <= 'F' then Some(c as nat - 'A' as nat + 10)
    else None
  }

  // The number that the first `k` digits of \uXXXX spell.
  function Hex(s: string, k: nat): (r: Option<nat>)
    requires k <= |s|
    ensures r.Some? ==> r.value < Pow16(k)
  {
    if k == 0 then Some(0)
    else
      var prior, digit := Hex(s, k - 1), HexValue(s[k - 1]);
      if prior.None? || digit.None? then None else Some(prior.value * 16 + digit.value)
  }

  function Pow16(k: nat): nat { if k == 0 then 1 else 16 * Pow16(k - 1) }

  function Hex4(s: string): (r: Option<nat>)
    ensures r.Some? ==> |s| >= 4 && r.value < 0x10000
  {
    if |s| < 4 then None
    else
      assert Pow16(4) == 0x10000;
      Hex(s, 4)
  }

  function Byte(n: nat): char requires n < 256 { n as char }

  // The `k` continuation bytes of a code point.
  function Continuation(n: nat, k: nat): string {
    if k == 0 then [] else Continuation(n / 64, k - 1) + [Byte(0x80 + n % 64)]
  }

  function Utf8(n: nat): string
    requires n < 0x110000
  {
    if n < 0x80 then [Byte(n)]
    else if n < 0x800 then [Byte(0xC0 + n / 64)] + Continuation(n, 1)
    else if n < 0x10000 then [Byte(0xE0 + n / 4096)] + Continuation(n, 2)
    else [Byte(0xF0 + n / 262144)] + Continuation(n, 3)
  }

  predicate Leading(n: nat) { 0xD800 <= n < 0xDC00 }

  predicate Trailing(n: nat) { 0xDC00 <= n < 0xE000 }

  function Simple(c: char): Option<char> {
    if c == QUOTE || c == ESCAPE || c == '/' then Some(c)
    else if c == 'b' then Some(8 as char)
    else if c == 'f' then Some(12 as char)
    else if c == 'n' then Some(10 as char)
    else if c == 'r' then Some(13 as char)
    else if c == 't' then Some(9 as char)
    else None
  }

  // One unit at the head of a body: the text it stands for and its length.
  function Unit(s: string): (r: Option<(string, nat)>)
    requires s != []
    ensures r.Some? ==> 0 < r.value.1 <= |s|
  {
    if s[0] == QUOTE || Control(s[0]) then None
    else if s[0] != ESCAPE then Some(([s[0]], 1))
    else if |s| == 1 then None
    else if s[1] == 'u' then
      var n := Hex4(s[2..]);
      if n.None? || Trailing(n.value) then None
      else if Leading(n.value) then
        if |s| < 12 || s[6] != ESCAPE || s[7] != 'u' then None
        else
          var m := Hex4(s[8..]);
          if m.None? || !Trailing(m.value) then None
          else Some((Utf8(0x10000 + (n.value - 0xD800) * 1024 + (m.value - 0xDC00)), 12))
      else Some((Utf8(n.value), 6))
    else
      var c := Simple(s[1]);
      if c.None? then None else Some(([c.value], 2))
  }

  // The text of a literal's body; lone surrogates and unknown escapes have none.
  function Decode(s: string): Option<string>
    decreases |s|
  {
    if s == [] then Some([])
    else
      var u := Unit(s);
      if u.None? then None
      else
        var rest := Decode(s[u.value.1..]);
        if rest.None? then None else Some(u.value.0 + rest.value)
  }

  // Parser::string: the decoded text and the position after the closing quote.
  function ReadString(t: string, at: nat): (r: Option<(string, nat)>)
    requires at < |t|
    ensures r.Some? ==> at + 1 < r.value.1 <= |t|
  {
    var close := Scan(t, at + 1);
    if close.None? then None
    else
      var text := Decode(t[at + 1..close.value]);
      if text.None? then None else Some((text.value, close.value + 1))
  }

  function Quoted(body: string): string { [QUOTE] + (body + [QUOTE]) }

  // The bodies that a scan passes over: every quote and control character is escaped.
  predicate Lexical(s: string)
    decreases |s|
  {
    s == []
    || (s[0] == ESCAPE && |s| > 1 && Lexical(s[2..]))
    || (s[0] != ESCAPE && s[0] != QUOTE && !Control(s[0]) && Lexical(s[1..]))
  }

  lemma {:induction false} ScanLexical(t: string, at: nat, body: string)
    requires Lexical(body) && At(t, at, body)
    requires at + |body| < |t| && t[at + |body|] == QUOTE
    ensures Scan(t, at) == Some(at + |body|)
    decreases |body|
  {
    if body != [] {
      AtChar(t, at, body, 0);
      var k := if body[0] == ESCAPE then 2 else 1;
      assert body == body[..k] + body[k..];
      AtSplit(t, at, body[..k], body[k..]);
      ScanLexical(t, at + k, body[k..]);
    }
  }

  lemma {:induction false} LexicalHex(s: string, k: nat)
    requires k <= |s| && Hex(s, k).Some? && Lexical(s[k..])
    ensures Lexical(s)
  {
    if k > 0 {
      assert s[k - 1..][1..] == s[k..];
      LexicalHex(s, k - 1);
    } else {
      assert s[0..] == s;
    }
  }

  lemma {:induction false} LexicalUnit(s: string)
    requires s != [] && Unit(s).Some? && Lexical(s[Unit(s).value.1..])
    ensures Lexical(s)
  {
    if s[0] == ESCAPE && s[1] == 'u' {
      if Unit(s).value.1 == 12 {
        assert s[8..][4..] == s[12..];
        LexicalHex(s[8..], 4);
        assert s[6..][2..] == s[8..];
        assert Lexical(s[6..]);
      }
      assert s[2..][4..] == s[6..];
      LexicalHex(s[2..], 4);
    }
  }

  lemma {:induction false} DecodableIsLexical(s: string)
    requires Decode(s).Some?
    ensures Lexical(s)
    decreases |s|
  {
    if s != [] {
      DecodableIsLexical(s[Unit(s).value.1..]);
      LexicalUnit(s);
    }
  }

  // A literal whose body decodes ends at its own closing quote and nowhere before.
  lemma {:induction false} ScanComplete(t: string, at: nat, body: string)
    requires Decode(body).Some? && At(t, at, body)
    requires at + |body| < |t| && t[at + |body|] == QUOTE
    ensures Scan(t, at) == Some(at + |body|)
  {
    DecodableIsLexical(body);
    ScanLexical(t, at, body);
  }

  lemma {:induction false} LiteralAt(t: string, at: nat, body: string)
    requires At(t, at, Quoted(body))
    ensures at + 1 + |body| < |t| && t[at] == QUOTE && At(t, at + 1, body) && t[at + 1 + |body|] == QUOTE
  {
    AtSplit(t, at, [QUOTE], body + [QUOTE]);
    AtChar(t, at, [QUOTE], 0);
    AtSplit(t, at + 1, body, [QUOTE]);
    AtChar(t, at + 1 + |body|, [QUOTE], 0);
  }

  lemma {:induction false} ReadStringBy(t: string, at: nat, close: nat)
    requires at + 1 <= close < |t| && Scan(t, at + 1) == Some(close) && Decode(t[at + 1..close]).Some?
    ensures ReadString(t, at) == Some((Decode(t[at + 1..close]).value, close + 1))
  {
    hide Scan, Decode;
  }

  lemma {:induction false} ReadStringComplete(t: string, at: nat, body: string)
    requires Decode(body).Some? && At(t, at, Quoted(body))
    ensures at < |t| && t[at] == QUOTE
    ensures ReadString(t, at) == Some((Decode(body).value, at + |Quoted(body)|))
  {
    hide ReadString, Decode, Scan;
    LiteralAt(t, at, body);
    ScanComplete(t, at + 1, body);
    ReadStringBy(t, at, at + 1 + |body|);
  }

  lemma {:induction false} ReadStringSound(t: string, at: nat) returns (body: string)
    requires at < |t| && t[at] == QUOTE && ReadString(t, at).Some?
    ensures Decode(body) == Some(ReadString(t, at).value.0)
    ensures At(t, at, Quoted(body)) && at + |Quoted(body)| == ReadString(t, at).value.1
  {
    hide Scan, Decode;
    var close := Scan(t, at + 1).value;
    body := t[at + 1..close];
    assert t[at..close + 1] == [t[at]] + (t[at + 1..close] + [t[close]]);
  }

  // ------------------------------------------------------ printing

  function HexDigit(n: nat): (c: char)
    requires n < 16
    ensures HexValue(c) == Some(n)
  {
    if n < 10 then ('0' as nat + n) as char else ('a' as nat + (n - 10)) as char
  }

  function EscapeChar(c: char): string {
    if c == QUOTE then [ESCAPE, QUOTE]
    else if c == ESCAPE then [ESCAPE, ESCAPE]
    else if c as nat == 8 then [ESCAPE, 'b']
    else if c as nat == 9 then [ESCAPE, 't']
    else if c as nat == 10 then [ESCAPE, 'n']
    else if c as nat == 12 then [ESCAPE, 'f']
    else if c as nat == 13 then [ESCAPE, 'r']
    else if Control(c) then [ESCAPE, 'u', '0', '0', HexDigit(c as nat / 16), HexDigit(c as nat % 16)]
    else [c]
  }

  function Escape(s: string): string {
    if s == [] then [] else EscapeChar(s[0]) + Escape(s[1..])
  }

  lemma {:induction false} UnitOfEscape(c: char, rest: string)
    ensures Unit(EscapeChar(c) + rest) == Some(([c], |EscapeChar(c)|))
  {
    var s := EscapeChar(c) + rest;
    if |EscapeChar(c)| == 6 {
      var h := s[2..];
      assert h[0] == '0' && h[1] == '0' && h[2] == HexDigit(c as nat / 16) && h[3] == HexDigit(c as nat % 16);
      assert Hex(h, 1) == Some(0) && Hex(h, 2) == Some(0) && Hex(h, 3) == Some(c as nat / 16);
      assert Hex4(h) == Some(c as nat);
    }
  }

  // Decoding undoes escaping, whatever the text.
  lemma {:induction false} DecodeEscape(s: string)
    ensures Decode(Escape(s)) == Some(s)
  {
    if s != [] {
      UnitOfEscape(s[0], Escape(s[1..]));
      assert Escape(s)[|EscapeChar(s[0])|..] == Escape(s[1..]);
      DecodeEscape(s[1..]);
      assert s == [s[0]] + s[1..];
    }
  }
}
