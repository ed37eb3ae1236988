// The dependency scanner of src/spec.rs:6-108: tokens outside comments and strings, and the
// modules that a TLA+ source imports. Text has one character per byte.
module SpecScanner {

  const BUILTINS: set<string> := {
    "Naturals", "Integers", "Reals", "Sequences", "FiniteSets", "TLC", "Bags", "Apalache"}

  // ------------------------------------------------------ the reference: blank, then split

  function Drop(s: string, k: nat): string { if k <= |s| then s[k..] else [] }

  predicate Opens(s: string) { |s| >= 2 && s[0] == '(' && s[1] == '*' }

  predicate Closes(s: string) { |s| >= 2 && s[0] == '*' && s[1] == ')' }

  predicate LineOpens(s: string) { |s| >= 2 && s[0] == '\\' && s[1] == '*' }

  // How far block comments nested `depth` deep go on; to the end of the text when unclosed.
  function Block(s: string, depth: nat): (k: nat)
    ensures k <= |s|
    decreases |s|
  {
    if depth == 0 || s == [] then 0
    else if Opens(s) then 2 + Block(s[2..], depth + 1)
    else if Closes(s) then 2 + Block(s[2..], depth - 1)
    else 1 + Block(s[1..], depth)
  }

  function Line(s: string): (k: nat)
    ensures k <= |s|
  {
    if s == [] || s[0] == '\n' then 0 else 1 + Line(s[1..])
  }

  // How far a string goes on after its opening quote.
  function Quoted(s: string): (k: nat)
    ensures k <= |s|
  {
    if s == [] then 0
    else if s[0] == '\\' && |s| > 1 then 2 + Quoted(s[2..])
    else if s[0] == '\"' then 1
    else 1 + Quoted(s[1..])
  }

  // The length of the comment or string that starts here; 0 when none does.
  function Region(s: string): (k: nat)
    ensures k <= |s|
  {
    if LineOpens(s) then 2 + Line(s[2..])
    else if Opens(s) then 2 + Block(s[2..], 1)
    else if s != [] && s[0] == '\"' then 1 + Quoted(s[1..])
    else 0
  }

  function Spaces(k: nat): (s: string)
    ensures |s| == k && forall i :: 0 <= i < k ==> s[i] == ' '
  {
    seq(k, _ => ' ')
  }

  // The source with every comment and string blanked out.
  function Blank(s: string): (r: string)
    ensures |r| == |s|
    decreases |s|
  {
    if s == [] then []
    else
      var k := Region(s);
      if k > 0 then Spaces(k) + Blank(s[k..]) else [s[0]] + Blank(s[1..])
  }

  predicate WordStart(c: char) { 'a' <= c <= 'z' || 'A' <= c <= 'Z' || c == '_' }

  predicate WordChar(c: char) { WordStart(c) || '0' <= c <= '9' }

  function Word(s: string): (k: nat)
    ensures k <= |s|
    ensures forall i :: 0 <= i < k ==> WordChar(s[i])
    ensures k == |s| || !WordChar(s[k])
  {
    if s == [] || !WordChar(s[0]) then 0 else 1 + Word(s[1..])
  }

  // The identifiers and commas of a text without comments and strings.
  function Split(s: string): seq<string>
    decreases |s|
  {
    if s == [] then []
    else if s[0] == ',' then [","] + Split(s[1..])
    else if WordStart(s[0]) then [s[..Word(s)]] + Split(s[Word(s)..])
    else Split(s[1..])
  }

  function Tokens(source: string): seq<string> { Split(Blank(source)) }

  // ------------------------------------------------------ how the two passes go together

  lemma {:induction false} SplitSpaces(k: nat, s: string)
    ensures Split(Spaces(k) + s) == Split(s)
    decreases k
  {
    var t := Spaces(k) + s;
    if k > 0 {
      assert t[1..] == Spaces(k - 1) + s;
      SplitSpaces(k - 1, s);
    } else {
      assert t == s;
    }
  }

  lemma {:induction false} AtRegion(s: string)
    requires s != [] && Region(s) > 0
    ensures Tokens(s) == Tokens(s[Region(s)..])
  {
    SplitSpaces(Region(s), Blank(s[Region(s)..]));
  }

  lemma {:induction false} AtComma(s: string)
    requires s != [] && s[0] == ','
    ensures Tokens(s) == [","] + Tokens(s[1..])
  {
    assert Blank(s)[1..] == Blank(s[1..]);
  }

  lemma {:induction false} AtOther(s: string)
    requires s != [] && Region(s) == 0 && s[0] != ',' && !WordStart(s[0])
    ensures Tokens(s) == Tokens(s[1..])
  {
    assert Blank(s)[1..] == Blank(s[1..]);
  }

  lemma {:induction false} WordIsNoRegion(s: string)
    requires s != [] && WordChar(s[0])
    ensures Region(s) == 0
  {
  }

  lemma {:induction false} BlankWord(s: string)
    ensures Blank(s) == s[..Word(s)] + Blank(s[Word(s)..])
    decreases |s|
  {
    hide Region, Blank;
    if s != [] && WordChar(s[0]) {
      WordIsNoRegion(s);
      BlankWord(s[1..]);
      var k := Word(s[1..]);
      BlankPlain(s);
      Reassociate([s[0]], s[1..][..k], Blank(s[1..][k..]));
      assert s[1..][k..] == s[k + 1..] && s[..k + 1] == [s[0]] + s[1..][..k];
    } else {
      assert s[0..] == s;
    }
  }

  // No word goes on into what follows it.
  lemma {:induction false} BlankStops(s: string)
    requires s == [] || !WordChar(s[0])
    ensures Blank(s) == [] || !WordChar(Blank(s)[0])
  {
  }

  lemma {:induction false} WordOf(w: string, t: string)
    requires (forall i :: 0 <= i < |w| ==> WordChar(w[i])) && (t == [] || !WordChar(t[0]))
    ensures Word(w + t) == |w|
    decreases |w|
  {
    if w != [] {
      assert (w + t)[1..] == w[1..] + t;
      WordOf(w[1..], t);
    } else {
      assert w + t == t;
    }
  }

  lemma {:induction false} AtWord(s: string)
    requires s != [] && WordStart(s[0])
    ensures Word(s) > 0 && Tokens(s) == [s[..Word(s)]] + Tokens(s[Word(s)..])
  {
    var w, rest := s[..Word(s)], s[Word(s)..];
    BlankWord(s);
    BlankStops(rest);
    WordOf(w, Blank(rest));
    assert Blank(s)[..|w|] == w && Blank(s)[|w|..] == Blank(rest);
    assert Blank(s)[0] == s[0];
  }

  // ------------------------------------------------------ dependency_tokens

  // The rest of the tokens, from inside block comments nested `depth` deep.
  function Left(s: string, depth: nat): seq<string> { Tokens(s[Block(s, depth)..]) }

  lemma {:induction false} LeftOutside(s: string)
    ensures Left(s, 0) == Tokens(s)
  {
    assert s[0..] == s;
  }

  lemma {:induction false} LeftInside(s: string, depth: nat)
    requires depth > 0 && s != []
    ensures Left(s, depth) ==
      if Opens(s) then Left(s[2..], depth + 1) else if Closes(s) then Left(s[2..], depth - 1) else Left(s[1..], depth)
  {
    if Opens(s) {
      assert s[2..][Block(s[2..], depth + 1)..] == s[Block(s, depth)..];
    } else if Closes(s) {
      assert s[2..][Block(s[2..], depth - 1)..] == s[Block(s, depth)..];
    } else {
      assert s[1..][Block(s[1..], depth)..] == s[Block(s, depth)..];
    }
  }

  lemma {:induction false} EnterBlock(s: string)
    requires Opens(s)
    ensures Tokens(s) == Left(s[2..], 1)
  {
    AtRegion(s);
    assert s[2..][Block(s[2..], 1)..] == s[Region(s)..];
  }

  lemma {:induction false} NothingLeft(depth: nat)
    ensures Left([], depth) == []
  {
  }

  // Slices of a source from a moving index.
  lemma {:induction false} Onward(source: string, i: nat, k: nat)
    requires i + k <= |source|
    ensures source[i..][k..] == source[i + k..]
  {
  }

  // The one-pass scanner finds exactly the tokens of the blanked source.
  method DependencyTokens(source: string) returns (tokens: seq<string>)
    ensures tokens == Tokens(source)
  {
    hide Tokens, Left, Region, Blank, Split, Block, Word;
    tokens := [];
    var i, blockDepth := 0, 0;
    assert source[0..] == source;
    LeftOutside(source);
    while i < |source|
      invariant i <= |source|
      invariant tokens + Left(source[i..], blockDepth) == Tokens(source)
      decreases |source| - i
    {
      ghost var s := source[i..];
      if blockDepth > 0 {
        LeftInside(s, blockDepth);
        if i + 2 <= |source| && source[i] == '(' && source[i + 1] == '*' {
          blockDepth := blockDepth + 1;
          Onward(source, i, 2);
          i := i + 2;
        } else if i + 2 <= |source| && source[i] == '*' && source[i + 1] == ')' {
          blockDepth := blockDepth - 1;
          Onward(source, i, 2);
          i := i + 2;
        } else {
          Onward(source, i, 1);
          i := i + 1;
        }
      } else {
        LeftOutside(s);
        var token: string;
        i, token, blockDepth := OutsideStep(source, i);
        if token != "" {
          ghost var rest := Left(source[i..], blockDepth);
          assert tokens + ([token] + rest) == tokens + [token] + rest;
          tokens := tokens + [token];
        }
      }
    }
    NothingLeft(blockDepth);
    assert source[i..] == [] && tokens + [] == tokens;
  }

  // One turn of the loop outside block comments; no token is the empty text.
  method OutsideStep(source: string, from: nat) returns (i: nat, token: string, blockDepth: nat)
    requires from < |source|
    ensures from < i <= |source|
    ensures Tokens(source[from..])
         == (if token == "" then Left(source[i..], blockDepth) else [token] + Left(source[i..], blockDepth))
  {
    hide Tokens, Left, Blank, Split, Block, Line, Quoted, Word;
    i, token, blockDepth := from, "", 0;
    ghost var s := source[from..];
    if i + 2 <= |source| && source[i] == '\\' && source[i + 1] == '*' {
      i := i + 2;
      Onward(source, from, 2);
      i := SkipLine(source, i);
      assert i == from + Region(s);
      AtRegion(s);
      Onward(source, from, Region(s));
      LeftOutside(source[i..]);
    } else if i + 2 <= |source| && source[i] == '(' && source[i + 1] == '*' {
      blockDepth := 1;
      i := i + 2;
      EnterBlock(s);
      Onward(source, from, 2);
    } else if source[i] == '\"' {
      i := i + 1;
      Onward(source, from, 1);
      i := SkipString(source, i);
      assert i == from + Region(s);
      AtRegion(s);
      Onward(source, from, Region(s));
      LeftOutside(source[i..]);
    } else if source[i] == ',' {
      token := ",";
      i := i + 1;
      AtComma(s);
      Onward(source, from, 1);
      LeftOutside(source[i..]);
    } else if WordStart(source[i]) {
      i := SkipWord(source, i + 1);
      token := source[from..i];
      Onward(source, from, 1);
      assert i == from + Word(s) && s[..Word(s)] == token;
      AtWord(s);
      Onward(source, from, Word(s));
      LeftOutside(source[i..]);
    } else {
      i := i + 1;
      AtOther(s);
      Onward(source, from, 1);
      LeftOutside(source[i..]);
    }
  }

  method SkipLine(source: string, from: nat) returns (i: nat)
    requires from <= |source|
    ensures i == from + Line(source[from..])
  {
    i := from;
    while i < |source| && source[i] != '\n'
      invariant from <= i <= |source| && i + Line(source[i..]) == from + Line(source[from..])
    {
      Onward(source, i, 1);
      i := i + 1;
    }
  }

  method SkipString(source: string, from: nat) returns (i: nat)
    requires from <= |source|
    ensures i == from + Quoted(source[from..])
  {
    i := from;
    while i < |source|
      invariant from <= i <= |source| && i + Quoted(source[i..]) == from + Quoted(source[from..])
      decreases |source| - i
    {
      if source[i] == '\\' && i + 1 < |source| {
        Onward(source, i, 2);
        i := i + 2;
      } else if source[i] == '\"' {
        i := i + 1;
        return;
      } else {
        Onward(source, i, 1);
        i := i + 1;
      }
    }
  }

  method SkipWord(source: string, from: nat) returns (i: nat)
    requires from <= |source|
    ensures i == from + Word(source[from..])
  {
    i := from;
    while i < |source| && WordChar(source[i])
      invariant from <= i <= |source| && i + Word(source[i..]) == from + Word(source[from..])
    {
      Onward(source, i, 1);
      i := i + 1;
    }
  }

  // ------------------------------------------------------ import_names

  // The names that the token list imports: after INSTANCE, and after EXTENDS with its
  // comma-separated continuation.
  function Named(tokens: seq<string>): seq<string>
    decreases |tokens|, 1
  {
    if |tokens| < 2 then []
    else if tokens[0] == "EXTENDS" && tokens[1] != "," then [tokens[1]] + Continued(tokens[2..])
    else if tokens[0] == "INSTANCE" && tokens[1] != "," then [tokens[1]] + Named(tokens[2..])
    else Named(tokens[1..])
  }

  function Continued(tokens: seq<string>): seq<string>
    decreases |tokens|, 2
  {
    if |tokens| >= 2 && tokens[0] == "," && tokens[1] != "," then [tokens[1]] + Continued(tokens[2..]) else Named(tokens)
  }

  function Retained(names: seq<string>): seq<string> {
    if names == [] then []
    else (if names[0] in BUILTINS then [] else [names[0]]) + Retained(names[1..])
  }

  function Imports(source: string): seq<string> { Retained(Named(Tokens(source))) }

  method ImportNames(source: string) returns (names: seq<string>)
    ensures names == Imports(source)
  {
    var tokens := DependencyTokens(source);
    hide Tokens, Retained, Continued;
    var found := [];
    var i := 0;
    assert tokens[0..] == tokens;
    while i < |tokens|
      invariant i <= |tokens| && found + Named(tokens[i..]) == Named(tokens)
      decreases |tokens| - i
    {
      if tokens[i] == "EXTENDS" && i + 1 < |tokens| && tokens[i + 1] != "," {
        assert tokens[i..][2..] == tokens[i + 2..];
        found := found + [tokens[i + 1]];
        i := i + 2;
        var more: seq<string>;
        i, more := Continuation(tokens, i);
        found := found + more;
      } else if tokens[i] == "INSTANCE" && i + 1 < |tokens| && tokens[i + 1] != "," {
        assert tokens[i..][2..] == tokens[i + 2..];
        found := found + [tokens[i + 1]];
        i := i + 2;
      } else {
        assert tokens[i..][1..] == tokens[i + 1..];
        i := i + 1;
      }
    }
    assert tokens[i..] == [] && found + [] == found;
    names := Retained(found);
  }

  // The inner loop: the names after EXTENDS A that commas attach to it.
  method Continuation(tokens: seq<string>, from: nat) returns (i: nat, names: seq<string>)
    requires from <= |tokens|
    ensures from <= i <= |tokens| && names + Named(tokens[i..]) == Continued(tokens[from..])
  {
    i, names := from, [];
    while i + 1 < |tokens| && tokens[i] == "," && tokens[i + 1] != ","
      invariant from <= i <= |tokens| && names + Continued(tokens[i..]) == Continued(tokens[from..])
      decreases |tokens| - i
    {
      assert tokens[i..][2..] == tokens[i + 2..];
      names := names + [tokens[i + 1]];
      i := i + 2;
    }
  }

  // ------------------------------------------------------ comments and strings do not matter

  // Every comment and string of the text is closed in it.
  predicate Whole(p: string)
    decreases |p|
  {
    p == [] || (if Region(p) == 0 then Whole(p[1..]) else Settled(p) && Whole(p[Region(p)..]))
  }

  // The region at the head of the text ends whatever is appended.
  predicate Settled(p: string) {
    if LineOpens(p) then Region(p) < |p|
    else if Opens(p) then BlockClosed(p[2..], 1)
    else p != [] && p[0] == '\"' && StringClosed(p[1..])
  }

  predicate BlockClosed(s: string, depth: nat)
    decreases |s|
  {
    depth == 0
    || (s != []
        && if Opens(s) then BlockClosed(s[2..], depth + 1)
           else if Closes(s) then BlockClosed(s[2..], depth - 1)
           else BlockClosed(s[1..], depth))
  }

  predicate StringClosed(s: string)
    decreases |s|
  {
    s != [] && (s[0] == '\"' || (if s[0] == '\\' && |s| > 1 then StringClosed(s[2..]) else StringClosed(s[1..])))
  }

  lemma {:induction false} Tail(s: string, x: string, k: nat)
    requires k <= |s|
    ensures (s + x)[k..] == s[k..] + x
  {
  }

  // What is appended starts with no star and, after a lone backslash, matters to strings only.
  lemma {:induction false} BlockSettled(s: string, depth: nat, x: string)
    requires BlockClosed(s, depth) && (x == [] || (x[0] != '*' && x[0] != ')'))
    ensures Block(s + x, depth) == Block(s, depth)
    decreases |s|
  {
    if depth > 0 {
      assert Opens(s + x) <==> Opens(s);
      assert Closes(s + x) <==> Closes(s);
      if Opens(s) {
        Tail(s, x, 2);
        BlockSettled(s[2..], depth + 1, x);
      } else if Closes(s) {
        Tail(s, x, 2);
        BlockSettled(s[2..], depth - 1, x);
      } else {
        Tail(s, x, 1);
        BlockSettled(s[1..], depth, x);
      }
    }
  }

  lemma {:induction false} LineSettled(s: string, x: string)
    requires Line(s) < |s|
    ensures Line(s + x) == Line(s)
    decreases |s|
  {
    if s[0] != '\n' {
      Tail(s, x, 1);
      LineSettled(s[1..], x);
    }
  }

  lemma {:induction false} StringSettled(s: string, x: string)
    requires StringClosed(s)
    ensures Quoted(s + x) == Quoted(s)
    decreases |s|
  {
    if s[0] != '\"' {
      assert (s + x)[0] == s[0];
      if s[0] == '\\' && |s| > 1 {
        Tail(s, x, 2);
        StringSettled(s[2..], x);
      } else {
        Tail(s, x, 1);
        StringSettled(s[1..], x);
      }
    }
  }

  lemma {:induction false} RegionSettled(p: string, x: string)
    requires p != [] && Region(p) > 0 && Settled(p) && (x == [] || (x[0] != '*' && x[0] != ')'))
    ensures Region(p + x) == Region(p)
  {
    if LineOpens(p) {
      Tail(p, x, 2);
      LineSettled(p[2..], x);
    } else if Opens(p) {
      Tail(p, x, 2);
      BlockSettled(p[2..], 1, x);
    } else {
      Tail(p, x, 1);
      StringSettled(p[1..], x);
    }
  }

  lemma {:induction false} NoRegion(p: string, x: string)
    requires p != [] && Region(p) == 0 && (x == [] || (x[0] != '*' && x[0] != ')'))
    ensures Region(p + x) == 0
  {
  }

  lemma {:induction false} Reassociate(a: string, b: string, c: string)
    ensures a + (b + c) == (a + b) + c
  {
  }

  lemma {:induction false} EmptyBlank()
    ensures Blank([]) == []
  {
  }

  lemma {:induction false} BlankRegion(s: string, k: nat)
    requires s != [] && Region(s) == k && k > 0
    ensures k <= |s| && Blank(s) == Spaces(k) + Blank(s[k..])
  {
    hide Spaces;
  }

  lemma {:induction false} BlankPlain(s: string)
    requires s != [] && Region(s) == 0
    ensures Blank(s) == [s[0]] + Blank(s[1..])
  {
    hide Region;
  }

  lemma {:induction false} BlankAppend(p: string, x: string)
    requires Whole(p) && (x == [] || (x[0] != '*' && x[0] != ')'))
    ensures Blank(p + x) == Blank(p) + Blank(x)
    decreases |p|
  {
    hide Region, Settled, Spaces, Blank;
    if p == [] {
      assert p + x == x;
      assert Blank(p) == [] by { EmptyBlank(); }
    } else {
      var k := Region(p);
      if k > 0 {
        RegionSettled(p, x);
        Tail(p, x, k);
        BlankAppend(p[k..], x);
        BlankRegion(p + x, k);
        BlankRegion(p, k);
        Reassociate(Spaces(k), Blank(p[k..]), Blank(x));
      } else {
        NoRegion(p, x);
        Tail(p, x, 1);
        BlankAppend(p[1..], x);
        BlankPlain(p + x);
        BlankPlain(p);
        Reassociate([p[0]], Blank(p[1..]), Blank(x));
      }
    }
  }

  // White space between two texts keeps their tokens apart.
  lemma {:induction false} SplitApart(u: string, k: nat, w: string)
    requires k > 0
    ensures Split(u + (Spaces(k) + w)) == Split(u) + Split(w)
    decreases |u|
  {
    hide Word, Spaces;
    var t := Spaces(k) + w;
    if u == [] {
      assert u + t == t;
      SplitSpaces(k, w);
    } else if u[0] == ',' || !WordStart(u[0]) {
      Tail(u, t, 1);
      SplitApart(u[1..], k, w);
    } else {
      var n := Word(u);
      assert t[0] == ' ';
      WordAppend(u, t);
      Tail(u, t, n);
      assert (u + t)[..n] == u[..n];
      SplitApart(u[n..], k, w);
    }
  }

  lemma {:induction false} WordAppend(u: string, t: string)
    requires t == [] || !WordChar(t[0])
    ensures Word(u + t) == Word(u)
    decreases |u|
  {
    if u != [] && WordChar(u[0]) {
      Tail(u, t, 1);
      WordAppend(u[1..], t);
    } else if u == [] {
      assert u + t == t;
    }
  }

  // `c` is one comment or string in front of `q`.
  predicate IsRegion(c: string, q: string) { c != [] && Region(c + q) == |c| }

  lemma {:induction false} AroundRegion(p: string, c: string, q: string)
    requires Whole(p) && IsRegion(c, q)
    ensures Tokens(p + (c + q)) == Tokens(p) + Tokens(q)
  {
    BlankAppend(p, c + q);
    assert (c + q)[|c|..] == q;
    assert Blank(c + q) == Spaces(|c|) + Blank(q);
    SplitApart(Blank(p), |c|, Blank(q));
  }

  // What a comment or string says, and which of them it is, has no influence on the imports.
  lemma {:induction false} ContentsDoNotMatter(p: string, c: string, d: string, q: string)
    requires Whole(p) && IsRegion(c, q) && IsRegion(d, q)
    ensures Imports(p + (c + q)) == Imports(p + (d + q))
  {
    AroundRegion(p, c, q);
    AroundRegion(p, d, q);
  }

  // Builtin modules are never imported.
  lemma {:induction false} RetainedNames(names: seq<string>, n: string)
    ensures n in Retained(names) <==> n in names && n !in BUILTINS
  {
    if names != [] {
      RetainedNames(names[1..], n);
      assert names == [names[0]] + names[1..];
    }
  }
}
