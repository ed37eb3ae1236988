// Decimal text and integers: the conversion of a JSON number to an exact integer
// (number_to_bigint, src/protocol.rs:443-481) and the text of an integer.
module Numbers {
  import opened Wrappers
  import opened JsonText

  const I64_MIN: int := -0x8000_0000_0000_0000
  const I64_MAX: int := 0x7fff_ffff_ffff_ffff

  predicate InI64(n: int) { I64_MIN <= n <= I64_MAX }

  // The number that a run of digits spells.
  function Spelled(s: string): nat
    requires Digits(s)
  {
    if s == [] then 0 else Spelled(s[..|s| - 1]) * 10 + (s[|s| - 1] as nat - '0' as nat)
  }

  function Pow10(k: nat): (p: nat)
    ensures p > 0
  {
    if k == 0 then 1 else 10 * Pow10(k - 1)
  }

  function Zeros(k: nat): (s: string)
    ensures |s| == k && forall i :: 0 <= i < k ==> s[i] == '0'
  {
    seq(k, _ => '0')
  }

  predicate AllZero(s: string) { forall i :: 0 <= i < |s| ==> s[i] == '0' }

  function Signed(negative: bool, n: int): int { if negative then -n else n }

  // ------------------------------------------------------ splitting

  // Where the first of the two characters is; the length of the text when there is none.
  function Find(s: string, a: char, b: char): (k: nat)
    ensures k <= |s| && (k < |s| ==> s[k] == a || s[k] == b)
    ensures forall i :: 0 <= i < k ==> s[i] != a && s[i] != b
  {
    if s == [] || s[0] == a || s[0] == b then 0 else 1 + Find(s[1..], a, b)
  }

  lemma {:induction false} FindIn(s: string, k: nat, a: char, b: char)
    requires k <= |s| && (forall i :: 0 <= i < k ==> s[i] != a && s[i] != b)
    requires k == |s| || s[k] == a || s[k] == b
    ensures Find(s, a, b) == k
  {
  }

  // str::parse::<i64>
  function ParseI64(s: string): Option<int> {
    var digits := if s != [] && (s[0] == '+' || s[0] == '-') then s[1..] else s;
    if digits == [] || !Digits(digits) then None
    else
      var n := Signed(s[0] == '-', Spelled(digits));
      if InI64(n) then Some(n) else None
  }

  // ------------------------------------------------------ conversion

  datatype Conversion = Integer(n: int) | Rejected | Overflowed

  function ToBigint(text: string): Conversion {
    var negative := text != [] && text[0] == '-';
    var unsigned := if negative then text[1..] else text;
    var k := Find(unsigned, 'e', 'E');
    var exponent := if k == |unsigned| then Some(0) else ParseI64(unsigned[k + 1..]);
    if exponent.None? then Rejected
    else
      var mantissa := unsigned[..k];
      var d := Find(mantissa, '.', '.');
      var fraction := if d == |mantissa| then [] else mantissa[d + 1..];
      Scale(negative, mantissa[..d] + fraction, exponent.value - |fraction|)
  }

  // Move the decimal point by `scale`, on text.
  function Scale(negative: bool, digits: string, scale: int): Conversion {
    if !InI64(scale) || scale == I64_MIN then Overflowed
    else if scale >= 0 then Parsed(negative, digits + Zeros(scale))
    else
      var remove := -scale;
      if remove > |digits| || !AllZero(digits[|digits| - remove..]) then Rejected
      else
        var kept := digits[..|digits| - remove];
        Parsed(negative, if kept == [] then "0" else kept)
  }

  function Parsed(negative: bool, digits: string): Conversion {
    if digits == [] || !Digits(digits) then Rejected else Integer(Signed(negative, Spelled(digits)))
  }

  // number_to_bigint, with its digit buffer.
  method NumberToBigint(text: string) returns (r: Conversion)
    ensures r == ToBigint(text)
  {
    hide ToBigint, Find, ParseI64, Digits, Spelled, Parsed, AllZero, InI64;
    var negative := text != [] && text[0] == '-';
    var unsigned := if negative then text[1..] else text;
    var k := Find(unsigned, 'e', 'E');
    var exponent := 0;
    var parsed := Some(0);
    if k < |unsigned| { parsed := ParseI64(unsigned[k + 1..]); }
    var mantissa := unsigned[..k];
    var d := Find(mantissa, '.', '.');
    var fraction := if d == |mantissa| then [] else mantissa[d + 1..];
    Unfolded(text, unsigned, negative, mantissa, parsed, mantissa[..d], fraction);
    if parsed.None? { return Rejected; }
    exponent := parsed.value;
    var digits := mantissa[..d] + fraction;
    var scale := exponent - |fraction|;
    if !InI64(scale) { return Overflowed; }
    if scale >= 0 {
      digits := digits + Zeros(scale);
    } else {
      if scale == I64_MIN { return Overflowed; }
      var remove := -scale;
      if remove > |digits| || !AllZero(digits[|digits| - remove..]) { return Rejected; }
      digits := digits[..|digits| - remove];
      if digits == [] { digits := "0"; }
    }
    return Parsed(negative, digits);
  }

  // ------------------------------------------------------ arithmetic of digits

  lemma {:induction false} SpelledAppend(a: string, b: string)
    requires Digits(a) && Digits(b)
    ensures Digits(a + b) && Spelled(a + b) == Spelled(a) * Pow10(|b|) + Spelled(b)
    decreases |b|
  {
    if b == [] {
      assert a + b == a;
    } else {
      var c, last := b[..|b| - 1], b[|b| - 1];
      SpelledAppend(a, c);
      assert (a + b)[..|a + b| - 1] == a + c && (a + b)[|a + b| - 1] == last;
      assert Spelled(a + b) == (Spelled(a) * Pow10(|c|) + Spelled(c)) * 10 + (last as nat - '0' as nat);
      Distribute(Spelled(a), Pow10(|c|));
    }
  }

  lemma {:induction false} Distribute(x: nat, p: nat)
    ensures x * p * 10 == x * (10 * p)
  {
  }

  lemma {:induction false} SpelledZeros(s: string)
    requires Digits(s)
    ensures Spelled(s) == 0 <==> AllZero(s)
    decreases |s|
  {
    if s != [] {
      var c := s[..|s| - 1];
      SpelledZeros(c);
      if AllZero(s) { assert AllZero(c); }
      if AllZero(c) && s[|s| - 1] == '0' {
        forall i | 0 <= i < |s| ensures s[i] == '0' { assert i < |c| ==> s[i] == c[i]; }
      }
    }
  }

  lemma {:induction false} SpelledBound(s: string)
    requires Digits(s)
    ensures Spelled(s) < Pow10(|s|)
    decreases |s|
  {
    if s != [] { SpelledBound(s[..|s| - 1]); }
  }

  lemma {:induction false} Multiple(a: nat, p: nat, b: nat)
    requires 0 < p && b < p
    ensures (a * p + b) % p == 0 <==> b == 0
    ensures b == 0 ==> (a * p + b) / p == a
  {
    Remainder(a, p, b);
  }

  lemma {:induction false} Remainder(a: nat, p: nat, b: nat)
    requires 0 < p && b < p
    ensures (a * p + b) % p == b && (a * p + b) / p == a
    decreases a
  {
    if a > 0 {
      Remainder(a - 1, p, b);
      var m := (a - 1) * p + b;
      assert a * p + b == m + p;
      assert (m + p) / p == m / p + 1 && (m + p) % p == m % p by { AddOnce(m, p); }
    }
  }

  lemma {:induction false} AddOnce(m: nat, p: nat)
    requires 0 < p
    ensures (m + p) / p == m / p + 1 && (m + p) % p == m % p
  {
    var q, r := m / p, m % p;
    assert m + p == (q + 1) * p + r by { assert (q + 1) * p == q * p + p; }
    Unique(m + p, p, q + 1, r);
  }

  lemma {:induction false} SmallMultiple(d: int, p: int)
    requires p >= 0
    ensures d >= 1 ==> d * p >= p
    ensures d <= -1 ==> d * p <= -p
  {
    assert d * p - p == (d - 1) * p && -p - d * p == (-1 - d) * p;
    assert d >= 1 ==> (d - 1) * p >= 0;
    assert d <= -1 ==> (-1 - d) * p >= 0;
  }

  lemma {:induction false} Unique(n: nat, p: nat, q: nat, r: nat)
    requires 0 < p && r < p && n == q * p + r
    ensures n / p == q && n % p == r
  {
    var d := n / p - q;
    assert d * p == r - n % p by {
      assert n == (n / p) * p + n % p;
      assert (n / p) * p - q * p == d * p;
    }
    SmallMultiple(d, p);
  }

  // ------------------------------------------------------ exactness

  function ExponentValue(e: Exponent): int
    requires ExponentOk(e)
  {
    if e.NoExponent? then 0 else Signed(e.sign == "-", Spelled(e.digits))
  }

  // The decimal point moved by `scale`, on numbers: the value m * 10^scale when that is an integer.
  function Exact(negative: bool, m: nat, width: nat, scale: int): Conversion {
    if !InI64(scale) || scale == I64_MIN then Overflowed
    else if scale >= 0 then Integer(Signed(negative, m * Pow10(scale)))
    else if m == 0 then if -scale <= width then Integer(0) else Rejected
    else if m % Pow10(-scale) == 0 then Integer(Signed(negative, m / Pow10(-scale)))
    else Rejected
  }

  lemma {:induction false} ScaleIsExact(negative: bool, digits: string, scale: int)
    requires digits != [] && Digits(digits)
    ensures Scale(negative, digits, scale) == Exact(negative, Spelled(digits), |digits|, scale)
  {
    if InI64(scale) && scale != I64_MIN {
      if scale >= 0 {
        var zeros := Zeros(scale);
        SpelledZeros(zeros);
        SpelledAppend(digits, zeros);
      } else {
        ScaleDown(negative, digits, scale);
      }
    }
  }

  lemma {:induction false} ScaleDown(negative: bool, digits: string, scale: int)
    requires digits != [] && Digits(digits) && I64_MIN < scale < 0
    ensures Scale(negative, digits, scale) == Exact(negative, Spelled(digits), |digits|, scale)
  {
    var remove := -scale;
    if remove > |digits| {
      SpelledBound(digits);
      PowGrows(|digits|, remove);
      if Spelled(digits) > 0 { Unique(Spelled(digits), Pow10(remove), 0, Spelled(digits)); }
    } else {
      var kept, gone := digits[..|digits| - remove], digits[|digits| - remove..];
      assert digits == kept + gone;
      SpelledAppend(kept, gone);
      SpelledBound(gone);
      SpelledZeros(gone);
      SpelledZeros(digits);
      Multiple(Spelled(kept), Pow10(remove), Spelled(gone));
      assert Spelled("0") == 0 by { SpelledZeros("0"); }
    }
  }

  lemma {:induction false} PowGrows(a: nat, b: nat)
    requires a <= b
    ensures Pow10(a) <= Pow10(b)
  {
    if a < b { PowGrows(a, b - 1); }
  }

  lemma {:induction false} Front(a: string, b: string)
    ensures (a + b)[..|a|] == a && (a + b)[|a|..] == b
  {
  }

  lemma {:induction false} ExponentParses(e: Exponent)
    requires ExponentOk(e) && e.Exponent?
    ensures ParseI64(e.sign + e.digits) == if InI64(ExponentValue(e)) then Some(ExponentValue(e)) else None
  {
    Front(e.sign, e.digits);
    if e.sign == "" { assert e.sign + e.digits == e.digits; }
  }

  // The parts of a number's text: mantissa and exponent, and whole and fraction.
  lemma {:induction false} SplitExponent(m: string, e: Exponent)
    requires ExponentOk(e) && (forall i :: 0 <= i < |m| ==> m[i] != 'e' && m[i] != 'E')
    ensures var u := m + WriteExponent(e);
      && Find(u, 'e', 'E') == |m| && u[..|m|] == m
      && (if e.NoExponent? then |m| == |u| else |m| < |u| && u[|m| + 1..] == e.sign + e.digits)
  {
    var x := WriteExponent(e);
    var u := m + x;
    Front(m, x);
    if e.Exponent? {
      assert x == [e.mark] + (e.sign + e.digits);
      assert u == (m + [e.mark]) + (e.sign + e.digits);
      Front(m + [e.mark], e.sign + e.digits);
    }
    assert e.Exponent? ==> u[|m|] == e.mark;
    FindIn(u, |m|, 'e', 'E');
  }

  lemma {:induction false} SplitFraction(n: Numeral)
    requires NumeralOk(n)
    ensures var m := n.whole + WriteFraction(n.fraction);
      && (forall i :: 0 <= i < |m| ==> m[i] != 'e' && m[i] != 'E') && |m| > 0 && m[0] != '-'
      && Find(m, '.', '.') == |n.whole| && m[..|n.whole|] == n.whole
      && (if n.fraction == [] then |m| == |n.whole| else |n.whole| < |m| && m[|n.whole| + 1..] == n.fraction)
  {
    var m := n.whole + WriteFraction(n.fraction);
    Front(n.whole, WriteFraction(n.fraction));
    FindIn(m, |n.whole|, '.', '.');
  }

  lemma {:induction false} WriteParts(n: Numeral)
    requires n.whole != [] && n.whole[0] != '-'
    ensures var u := (n.whole + WriteFraction(n.fraction)) + WriteExponent(n.exponent);
      && Write(n) == (if n.negative then "-" + u else u) && u != [] && u[0] != '-'
      && (n.negative <==> Write(n)[0] == '-') && (n.negative ==> Write(n)[1..] == u)
  {
    var f, x := WriteFraction(n.fraction), WriteExponent(n.exponent);
    assert n.whole + (f + x) == (n.whole + f) + x;
    assert WriteSign(n.negative) + (n.whole + (f + x)) == if n.negative then "-" + ((n.whole + f) + x) else (n.whole + f) + x;
  }

  lemma {:induction false} Unfolded(text: string, u: string, negative: bool, m: string, e: Option<int>, whole: string,
                                    fraction: string)
    requires (negative <==> text != [] && text[0] == '-') && u == (if negative then text[1..] else text)
    requires var k := Find(u, 'e', 'E'); u[..k] == m && e == (if k == |u| then Some(0) else ParseI64(u[k + 1..]))
    requires var d := Find(m, '.', '.'); m[..d] == whole && fraction == (if d == |m| then [] else m[d + 1..])
    ensures ToBigint(text) == if e.None? then Rejected else Scale(negative, whole + fraction, e.value - |fraction|)
  {
    hide Find, ParseI64, Scale;
  }

  // A number of RFC 8259 is converted exactly, or not at all: it is rejected just when its
  // exponent is no 64-bit integer, or its value is no integer, or it is a zero written with
  // fewer digits than its negative exponent asks for.
  lemma {:induction false} ConversionIsExact(n: Numeral)
    requires NumeralOk(n)
    ensures ToBigint(Write(n)) ==
      if !InI64(ExponentValue(n.exponent)) then Rejected
      else Exact(n.negative, Spelled(n.whole + n.fraction), |n.whole + n.fraction|, ExponentValue(n.exponent) - |n.fraction|)
  {
    hide Find, ParseI64, Scale, Exact, ToBigint, Write, Spelled, InI64, ExponentOk;
    var m := n.whole + WriteFraction(n.fraction);
    SplitFraction(n);
    assert IsDigit(n.whole[0]);
    WriteParts(n);
    SplitExponent(m, n.exponent);
    var e := if n.exponent.NoExponent? then Some(0) else ParseI64(n.exponent.sign + n.exponent.digits);
    Unfolded(Write(n), m + WriteExponent(n.exponent), n.negative, m, e, n.whole, n.fraction);
    if n.exponent.Exponent? { ExponentParses(n.exponent); } else { ZeroFits(); }
    ScaleIsExact(n.negative, n.whole + n.fraction, ExponentValue(n.exponent) - |n.fraction|);
  }

  lemma {:induction false} ZeroFits()
    ensures InI64(0)
  {
  }

  lemma {:induction false} ExactValue(negative: bool, m: int, width: nat, scale: int)
    requires m >= 0 && Exact(negative, m, width, scale).Integer?
    ensures var v := Exact(negative, m, width, scale).n;
            if scale >= 0 then v == Signed(negative, m) * Pow10(scale) else v * Pow10(-scale) == Signed(negative, m)
  {
    hide InI64, Pow10;
    if scale >= 0 {
      assert (-m) * Pow10(scale) == -(m * Pow10(scale));
    } else {
      var p := Pow10(-scale);
      assert m == (m / p) * p + m % p;
      assert (-(m / p)) * p == -((m / p) * p);
    }
  }

  // What is returned is mantissa times ten to the power of the exponent, on the nose.
  lemma {:induction false} ReturnedValue(n: Numeral)
    requires NumeralOk(n) && ToBigint(Write(n)).Integer?
    ensures var v, m := ToBigint(Write(n)).n, Signed(n.negative, Spelled(n.whole + n.fraction));
            var s := ExponentValue(n.exponent) - |n.fraction|;
            if s >= 0 then v == m * Pow10(s) else v * Pow10(-s) == m
  {
    hide ToBigint, Exact, Write, Spelled, Pow10, InI64, Signed;
    ConversionIsExact(n);
    ExactValue(n.negative, Spelled(n.whole + n.fraction), |n.whole + n.fraction|, ExponentValue(n.exponent) - |n.fraction|);
  }

  // 0e-5 denotes zero and is rejected all the same.
  lemma {:induction false} ZeroWithLongExponentIsRejected()
    ensures var n := Numeral(false, "0", [], Exponent('e', "-", "5"));
            NumeralOk(n) && Spelled(n.whole) == 0 && ToBigint(Write(n)) == Rejected
  {
    hide ToBigint, Write;
    var n := Numeral(false, "0", [], Exponent('e', "-", "5"));
    assert Digits("5") && Digits("0");
    assert Spelled("0") == 0 && Spelled("5") == 5 by {
      assert "0"[..0] == [] && "5"[..0] == [];
    }
    assert "0" + [] == "0";
    ConversionIsExact(n);
  }

  // ------------------------------------------------------ integers as text

  function Decimal(n: nat): (s: string)
    ensures s != [] && Digits(s)
  {
    if n < 10 then [Digit(n)] else Decimal(n / 10) + [Digit(n % 10)]
  }

  function Digit(n: nat): (c: char)
    requires n < 10
    ensures IsDigit(c) && c as nat - '0' as nat == n
  {
    ('0' as nat + n) as char
  }

  // BigInt::to_string
  function IntText(n: int): string { if n < 0 then "-" + Decimal(-n) else Decimal(n) }

  lemma {:induction false} SpelledDecimal(n: nat)
    ensures Spelled(Decimal(n)) == n
  {
    if n >= 10 {
      SpelledDecimal(n / 10);
      assert Decimal(n)[..|Decimal(n)| - 1] == Decimal(n / 10);
    } else {
      assert Decimal(n)[..0] == [];
    }
  }

  // BigInt::from_str: one sign, then digits with underscores anywhere but in front.
  function ParseBigint(s: string): Option<int> {
    var negative := s != [] && s[0] == '-';
    var tail := if negative && !(|s| > 1 && s[1] == '+') then s[1..] else s;
    var body := if tail != [] && tail[0] == '+' && !(|tail| > 1 && tail[1] == '+') then tail[1..] else tail;
    if body == [] || body[0] == '_' || !Digits(WithoutUnderscores(body)) then None
    else Some(Signed(negative, Spelled(WithoutUnderscores(body))))
  }

  function WithoutUnderscores(s: string): string {
    if s == [] then [] else (if s[0] == '_' then [] else [s[0]]) + WithoutUnderscores(s[1..])
  }

  lemma {:induction false} NoUnderscores(s: string)
    requires Digits(s)
    ensures WithoutUnderscores(s) == s
  {
    if s != [] {
      NoUnderscores(s[1..]);
      assert s == [s[0]] + s[1..];
    }
  }

  lemma {:induction false} ParseText(n: int)
    ensures ParseBigint(IntText(n)) == Some(n) && IntText(n) != ""
  {
    hide Decimal, Spelled, WithoutUnderscores;
    var m := if n < 0 then -n else n;
    var d := Decimal(m);
    SpelledDecimal(m);
    NoUnderscores(d);
    assert IsDigit(d[0]);
    if n < 0 { assert ("-" + d)[1..] == d; }
  }
}
