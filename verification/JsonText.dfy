// The lexical level of JSON: white space, numbers (RFC 8259 section 6) and
// strings (RFC 8259 section 7), with the scanning loops of src/json.rs as functions.
// Text has one character per UTF-8 byte.
module JsonText {
  import opened Wrappers

  // ------------------------------------------------------ positions in a text

  // The text reads `s` from position `at` on.
  predicate At(t: string, at: nat, s: string) {
    at + |s| <= |t| && t[at..at + |s|] == s
  }

  lemma {:induction false} AtSplit(t: string, at: nat, a: string, b: string)
    ensures At(t, at, a + b) <==> At(t, at, a) && At(t, at + |a|, b)
  {
    if At(t, at, a + b) {
      assert t[at..at + |a|] == t[at..at + |a + b|][..|a|];
      assert t[at + |a|..at + |a| + |b|] == t[at..at + |a + b|][|a|..];
    }
    if At(t, at, a) && At(t, at + |a|, b) {
      assert t[at..at + |a + b|] == t[at..at + |a|] + t[at + |a|..at + |a| + |b|];
    }
  }

  lemma {:induction false} AtChar(t: string, at: nat, s: string, k: nat)
    requires At(t, at, s) && k < |s|
    ensures at + k < |t| && t[at + k] == s[k]
  {
    assert t[at..at + |s|][k] == s[k];
  }

  lemma {:induction false} AtOne(t: string, at: nat, c: char)
    ensures At(t, at, [c]) <==> at < |t| && t[at] == c
  {
    if at < |t| && t[at] == c { assert t[at..at + 1] == [c]; }
    if At(t, at, [c]) { AtChar(t, at, [c], 0); }
  }

  // ------------------------------------------------------ white space

  predicate IsSpace(c: char) { c == ' ' || c == '\t' || c == '\r' || c == '\n' }

  predicate Blank(s: string) { forall k :: 0 <= k < |s| ==> IsSpace(s[k]) }

  function SkipSpace(t: string, at: nat): (r: nat)
    requires at <= |t|
    ensures at <= r <= |t| && (r == |t| || !IsSpace(t[r]))
    decreases |t| - at
  {
    if at < |t| && IsSpace(t[at]) then SkipSpace(t, at + 1) else at
  }

  lemma {:induction false} SkippedIsBlank(t: string, at: nat)
    requires at <= |t|
    ensures Blank(t[at..SkipSpace(t, at)])
    decreases |t| - at
  {
    if at < |t| && IsSpace(t[at]) {
      SkippedIsBlank(t, at + 1);
      assert t[at..SkipSpace(t, at)] == [t[at]] + t[at + 1..SkipSpace(t, at)];
    }
  }

  // White space is skipped as a whole.
  lemma {:induction false} SkipBlank(t: string, at: nat, s: string)
    requires At(t, at, s) && Blank(s)
    requires at + |s| == |t| || !IsSpace(t[at + |s|])
    ensures SkipSpace(t, at) == at + |s|
    decreases |s|
  {
    if s != [] {
      assert t[at] == s[0] by { AtChar(t, at, s, 0); }
      assert At(t, at + 1, s[1..]) by {
        AtSplit(t, at, [s[0]], s[1..]);
        assert s == [s[0]] + s[1..];
      }
      assert forall k :: 0 <= k < |s[1..]| ==> s[1..][k] == s[k + 1];
      SkipBlank(t, at + 1, s[1..]);
    }
  }

  // ------------------------------------------------------ numbers

  predicate IsDigit(c: char) { '0' <= c <= '9' }

  predicate Digits(s: string) { forall k :: 0 <= k < |s| ==> IsDigit(s[k]) }

  // A number of RFC 8259 section 6; an empty fraction or exponent is an absent one.
  datatype Numeral = Numeral(negative: bool, whole: string, fraction: string, exponent: Exponent)
  datatype Exponent = NoExponent | Exponent(mark: char, sign: string, digits: string)

  predicate WholeOk(s: string) {
    s != [] && Digits(s) && (s[0] == '0' ==> |s| == 1)
  }

  predicate ExponentOk(e: Exponent) {
    e.Exponent? ==> (e.mark == 'e' || e.mark == 'E') && (e.sign == "" || e.sign == "+" || e.sign == "-")
                    && e.digits != [] && Digits(e.digits)
  }

  predicate NumeralOk(n: Numeral) {
    WholeOk(n.whole) && Digits(n.fraction) && ExponentOk(n.exponent)
  }

  function WriteSign(negative: bool): string { if negative then "-" else "" }

  function WriteFraction(fraction: string): string { if fraction == [] then [] else "." + fraction }

  function WriteExponent(e: Exponent): string {
    if e.NoExponent? then [] else [e.mark] + e.sign + e.digits
  }

  function Write(n: Numeral): string {
    WriteSign(n.negative) + (n.whole + (WriteFraction(n.fraction) + WriteExponent(n.exponent)))
  }

  ghost predicate IsNumber(s: string) {
    exists n: Numeral :: NumeralOk(n) && Write(n) == s
  }

  function DigitRun(t: string, at: nat): (r: nat)
    requires at <= |t|
    ensures at <= r <= |t| && (r == |t| || !IsDigit(t[r]))
    decreases |t| - at
  {
    if at < |t| && IsDigit(t[at]) then DigitRun(t, at + 1) else at
  }

  lemma {:induction false} RunIsDigits(t: string, at: nat)
    requires at <= |t|
    ensures Digits(t[at..DigitRun(t, at)])
    ensures at < |t| && IsDigit(t[at]) ==> t[at] == t[at..DigitRun(t, at)][0]
    decreases |t| - at
  {
    if at < |t| && IsDigit(t[at]) {
      RunIsDigits(t, at + 1);
      assert t[at..DigitRun(t, at)] == [t[at]] + t[at + 1..DigitRun(t, at)];
    }
  }

  lemma {:induction false} DigitRunOf(t: string, at: nat, s: string)
    requires At(t, at, s) && Digits(s)
    requires at + |s| == |t| || !IsDigit(t[at + |s|])
    ensures DigitRun(t, at) == at + |s|
    decreases |s|
  {
    if s != [] {
      assert t[at] == s[0] by { AtChar(t, at, s, 0); }
      assert At(t, at + 1, s[1..]) by {
        AtSplit(t, at, [s[0]], s[1..]);
        assert s == [s[0]] + s[1..];
      }
      assert forall k :: 0 <= k < |s[1..]| ==> s[1..][k] == s[k + 1];
      DigitRunOf(t, at + 1, s[1..]);
    }
  }

  // The four stages of Parser::number (src/json.rs:110-155); None is an error.
  function ReadSign(t: string, at: nat): (r: nat)
    requires at <= |t|
    ensures at <= r <= |t|
  {
    if at < |t| && t[at] == '-' then at + 1 else at
  }

  function ReadWhole(t: string, at: nat): (r: Option<nat>)
    requires at <= |t|
    ensures r.Some? ==> at < r.value <= |t|
  {
    if at == |t| || !IsDigit(t[at]) then None
    else if t[at] == '0' then
      if at + 1 < |t| && IsDigit(t[at + 1]) then None else Some(at + 1)
    else Some(DigitRun(t, at))
  }

  function ReadFraction(t: string, at: nat): (r: Option<nat>)
    requires at <= |t|
    ensures r.Some? ==> at <= r.value <= |t|
  {
    if at == |t| || t[at] != '.' then Some(at)
    else if at + 1 == |t| || !IsDigit(t[at + 1]) then None
    else Some(DigitRun(t, at + 1))
  }

  function ReadExponent(t: string, at: nat): (r: Option<nat>)
    requires at <= |t|
    ensures r.Some? ==> at <= r.value <= |t|
  {
    if at == |t| || (t[at] != 'e' && t[at] != 'E') then Some(at)
    else
      var signed := if at + 1 < |t| && (t[at + 1] == '+' || t[at + 1] == '-') then at + 2 else at + 1;
      if signed == |t| || !IsDigit(t[signed]) then None else Some(DigitRun(t, signed))
  }

  function ReadNumber(t: string, at: nat): (r: Option<nat>)
    requires at <= |t|
    ensures r.Some? ==> at < r.value <= |t|
  {
    var whole := ReadWhole(t, ReadSign(t, at));
    if whole.None? then None
    else
      var fraction := ReadFraction(t, whole.value);
      if fraction.None? then None else ReadExponent(t, fraction.value)
  }

  lemma {:induction false} ReadWholeSound(t: string, at: nat)
    requires at <= |t| && ReadWhole(t, at).Some?
    ensures WholeOk(t[at..ReadWhole(t, at).value])
  {
    RunIsDigits(t, at);
  }

  lemma {:induction false} ReadFractionSound(t: string, at: nat) returns (fraction: string)
    requires at <= |t| && ReadFraction(t, at).Some?
    ensures Digits(fraction) && t[at..ReadFraction(t, at).value] == WriteFraction(fraction)
  {
    var end := ReadFraction(t, at).value;
    fraction := if end == at then [] else t[at + 1..end];
    if end > at {
      RunIsDigits(t, at + 1);
      assert t[at..end] == "." + fraction;
    }
  }

  lemma {:induction false} ReadExponentSound(t: string, at: nat) returns (e: Exponent)
    requires at <= |t| && ReadExponent(t, at).Some?
    ensures ExponentOk(e) && t[at..ReadExponent(t, at).value] == WriteExponent(e)
  {
    var end := ReadExponent(t, at).value;
    if end == at {
      e := NoExponent;
    } else {
      var signed := if t[at + 1] == '+' || t[at + 1] == '-' then at + 2 else at + 1;
      e := Exponent(t[at], t[at + 1..signed], t[signed..end]);
      RunIsDigits(t, signed);
      assert t[at..end] == [t[at]] + t[at + 1..signed] + t[signed..end];
    }
  }

  lemma {:induction false} Joined(t: string, a: nat, b: nat, c: nat, d: nat, e: nat, p: string, q: string, r: string, s: string)
    requires a <= b <= c <= d <= e <= |t|
    requires t[a..b] == p && t[b..c] == q && t[c..d] == r && t[d..e] == s
    ensures At(t, a, p + (q + (r + s))) && a + |p + (q + (r + s))| == e
  {
    assert t[a..e] == t[a..b] + (t[b..c] + (t[c..d] + t[d..e]));
  }

  // A number that is read is a number.
  lemma {:induction false} ReadNumberSound(t: string, at: nat) returns (n: Numeral)
    requires at <= |t| && ReadNumber(t, at).Some?
    ensures NumeralOk(n) && At(t, at, Write(n)) && at + |Write(n)| == ReadNumber(t, at).value
  {
    var a := ReadSign(t, at);
    var b := ReadWhole(t, a).value;
    var c := ReadFraction(t, b).value;
    var d := ReadExponent(t, c).value;
    ReadWholeSound(t, a);
    var fraction := ReadFractionSound(t, b);
    var exponent := ReadExponentSound(t, c);
    n := Numeral(a > at, t[a..b], fraction, exponent);
    Joined(t, at, a, b, c, d, WriteSign(n.negative), n.whole, WriteFraction(fraction), WriteExponent(exponent));
  }

  // What may follow a value: the end, white space, or a delimiter.
  predicate Stops(t: string, at: nat) {
    at == |t| || (at < |t| && (IsSpace(t[at]) || t[at] == ',' || t[at] == ']' || t[at] == '}'))
  }

  lemma {:induction false} Pieces(t: string, at: nat, n: Numeral) returns (a: nat, b: nat, c: nat)
    requires At(t, at, Write(n))
    ensures a == at + |WriteSign(n.negative)| && At(t, at, WriteSign(n.negative))
    ensures b == a + |n.whole| && At(t, a, n.whole)
    ensures c == b + |WriteFraction(n.fraction)| && At(t, b, WriteFraction(n.fraction))
    ensures at + |Write(n)| == c + |WriteExponent(n.exponent)| && At(t, c, WriteExponent(n.exponent))
  {
    var p, q, r, s := WriteSign(n.negative), n.whole, WriteFraction(n.fraction), WriteExponent(n.exponent);
    AtSplit(t, at, p, q + (r + s));
    AtSplit(t, at + |p|, q, r + s);
    AtSplit(t, at + |p| + |q|, r, s);
    a, b, c := at + |p|, at + |p| + |q|, at + |p| + |q| + |r|;
  }

  lemma {:induction false} ReadSignComplete(t: string, at: nat, negative: bool)
    requires At(t, at, WriteSign(negative))
    requires !negative ==> at < |t| && t[at] != '-'
    ensures ReadSign(t, at) == at + |WriteSign(negative)|
  {
    if negative { AtChar(t, at, WriteSign(negative), 0); }
  }

  lemma {:induction false} ReadNumberBy(t: string, at: nat, a: nat, b: nat, c: nat, d: nat)
    requires at <= |t| && a <= |t| && b <= |t| && c <= |t|
    requires ReadSign(t, at) == a && ReadWhole(t, a) == Some(b)
    requires ReadFraction(t, b) == Some(c) && ReadExponent(t, c) == Some(d)
    ensures ReadNumber(t, at) == Some(d)
  {
  }

  lemma {:induction false} ReadFractionAndExponent(t: string, b: nat, c: nat, d: nat, fraction: string, e: Exponent)
    requires Digits(fraction) && At(t, b, WriteFraction(fraction)) && c == b + |WriteFraction(fraction)|
    requires ExponentOk(e) && At(t, c, WriteExponent(e)) && d == c + |WriteExponent(e)| && Stops(t, d)
    ensures b <= c <= |t| && ReadFraction(t, b) == Some(c) && ReadExponent(t, c) == Some(d)
    ensures b == |t| || !IsDigit(t[b])
  {
    ReadExponentComplete(t, c, e);
    ReadFractionComplete(t, b, fraction);
  }

  lemma {:induction false} ReadSignAndWhole(t: string, at: nat, a: nat, b: nat, negative: bool, whole: string)
    requires At(t, at, WriteSign(negative)) && a == at + |WriteSign(negative)|
    requires WholeOk(whole) && At(t, a, whole) && b == a + |whole|
    requires b == |t| || !IsDigit(t[b])
    ensures at <= a <= b <= |t| && ReadSign(t, at) == a && ReadWhole(t, a) == Some(b)
  {
    AtChar(t, a, whole, 0);
    ReadSignComplete(t, at, negative);
    ReadWholeComplete(t, a, whole);
  }

  lemma {:induction false} ReadNumberParts(t: string, at: nat, a: nat, b: nat, c: nat, d: nat, n: Numeral)
    requires NumeralOk(n) && Stops(t, d)
    requires At(t, at, WriteSign(n.negative)) && a == at + |WriteSign(n.negative)|
    requires At(t, a, n.whole) && b == a + |n.whole|
    requires At(t, b, WriteFraction(n.fraction)) && c == b + |WriteFraction(n.fraction)|
    requires At(t, c, WriteExponent(n.exponent)) && d == c + |WriteExponent(n.exponent)|
    ensures ReadNumber(t, at) == Some(d)
  {
    hide ReadNumber, ReadSign, ReadWhole, ReadFraction, ReadExponent;
    ReadFractionAndExponent(t, b, c, d, n.fraction, n.exponent);
    ReadSignAndWhole(t, at, a, b, n.negative, n.whole);
    ReadNumberBy(t, at, a, b, c, d);
  }

  // Every number is read in full, up to what may follow a value.
  lemma {:induction false} ReadNumberComplete(t: string, at: nat, n: Numeral)
    requires NumeralOk(n) && At(t, at, Write(n)) && Stops(t, at + |Write(n)|)
    ensures ReadNumber(t, at) == Some(at + |Write(n)|)
  {
    hide ReadNumber;
    var a, b, c := Pieces(t, at, n);
    ReadNumberParts(t, at, a, b, c, at + |Write(n)|, n);
  }

  lemma {:induction false} ReadWholeComplete(t: string, at: nat, s: string)
    requires WholeOk(s) && At(t, at, s) && (at + |s| == |t| || !IsDigit(t[at + |s|]))
    ensures ReadWhole(t, at) == Some(at + |s|)
  {
    AtChar(t, at, s, 0);
    DigitRunOf(t, at, s);
  }

  lemma {:induction false} ReadFractionComplete(t: string, at: nat, fraction: string)
    requires Digits(fraction) && At(t, at, WriteFraction(fraction))
    requires var e := at + |WriteFraction(fraction)|; e == |t| || !(IsDigit(t[e]) || t[e] == '.')
    ensures ReadFraction(t, at) == Some(at + |WriteFraction(fraction)|)
    ensures at == |t| || !IsDigit(t[at])
  {
    if fraction != [] {
      AtSplit(t, at, ".", fraction);
      AtChar(t, at, ".", 0);
      AtChar(t, at + 1, fraction, 0);
      DigitRunOf(t, at + 1, fraction);
    }
  }

  lemma {:induction false} ReadExponentComplete(t: string, at: nat, e: Exponent)
    requires ExponentOk(e) && At(t, at, WriteExponent(e)) && Stops(t, at + |WriteExponent(e)|)
    ensures ReadExponent(t, at) == Some(at + |WriteExponent(e)|)
    ensures at == |t| || !(IsDigit(t[at]) || t[at] == '.')
  {
    hide At, DigitRun;
    if e.Exponent? {
      var head := [e.mark] + e.sign;
      ExponentParts(t, at, e);
      DigitRunOf(t, at + |head|, e.digits);
    }
  }

  // Mark, sign and first digit of an exponent in the text.
  lemma {:induction false} ExponentParts(t: string, at: nat, e: Exponent)
    requires ExponentOk(e) && e.Exponent? && At(t, at, WriteExponent(e))
    ensures var signed := at + 1 + |e.sign|;
            && signed < |t| && t[at] == e.mark && (e.sign != "" ==> t[at + 1] == e.sign[0])
            && At(t, signed, e.digits) && t[signed] == e.digits[0] && IsDigit(t[signed])
  {
    hide At, DigitRun;
    var head := [e.mark] + e.sign;
    AtSplit(t, at, head, e.digits);
    AtChar(t, at, head, 0);
    if e.sign != "" { AtChar(t, at, head, 1); }
    AtChar(t, at + |head|, e.digits, 0);
  }
}
