// What the scanner of src/spec.rs finds, told by position: which places of a source are blanked,
// where its tokens are, and which of them are imported. None of it follows the scanner's recursion.
module SpecPositions {
  import opened SpecScanner

  // ------------------------------------------------------ imported tokens

  predicate Keyword(t: string) { t == "EXTENDS" || t == "INSTANCE" }

  // From the keyword at h to the name at p: directly, or after EXTENDS over comma-separated names.
  predicate Reaches(tokens: seq<string>, h: nat, p: nat)
    requires h < |tokens| && p < |tokens|
  {
    && h < p && (p - h) % 2 == 1
    && (forall q :: h < q <= p ==> ((q - h) % 2 == 1 <==> tokens[q] != ","))
    && (tokens[h] == "INSTANCE" ==> p == h + 1)
  }

  // A keyword that is no imported name itself.
  predicate Head(tokens: seq<string>, h: nat)
    requires h < |tokens|
    decreases h, 1
  {
    Keyword(tokens[h]) && !Imported(tokens, h)
  }

  // A name that some keyword reaches.
  predicate Imported(tokens: seq<string>, p: nat)
    requires p < |tokens|
    decreases p, 0
  {
    exists h: nat :: h < p && Head(tokens, h) && Reaches(tokens, h, p)
  }

  // The imported tokens from position k on, in order.
  function Selected(tokens: seq<string>, k: nat): seq<string>
    requires k <= |tokens|
    decreases |tokens| - k
  {
    if k == |tokens| then []
    else (if Imported(tokens, k) then [tokens[k]] else []) + Selected(tokens, k + 1)
  }

  // No keyword before k reaches k or beyond, but possibly the one at h.
  ghost predicate Clear(tokens: seq<string>, h: int, k: nat) {
    forall g: nat, p: nat :: g < k <= p < |tokens| && g != h && Head(tokens, g) ==> !Reaches(tokens, g, p)
  }

  lemma {:induction false} NamedIsSelected(tokens: seq<string>, k: nat)
    requires k <= |tokens| && Clear(tokens, -1, k)
    ensures Named(tokens[k..]) == Selected(tokens, k)
    decreases |tokens| - k, 1
  {
    hide Reaches, Clear;
    if k < |tokens| {
      NotReached(tokens, -1, k);
      if k + 1 < |tokens| && tokens[k + 1] != "," && Keyword(tokens[k]) {
        ReachesNext(tokens, k);
        OneHead(tokens, k);
        assert tokens[k..][2..] == tokens[k + 2..];
        if tokens[k] == "EXTENDS" {
          ContinuedIsSelected(tokens, k, k + 2);
        } else {
          InstanceEnds(tokens, k);
          NamedIsSelected(tokens, k + 2);
        }
      } else {
        Silent(tokens, k);
        assert tokens[k..][1..] == tokens[k + 1..];
        NamedIsSelected(tokens, k + 1);
      }
    }
  }

  lemma {:induction false} ContinuedIsSelected(tokens: seq<string>, h: nat, k: nat)
    requires h + 2 <= k <= |tokens| && tokens[h] == "EXTENDS" && Head(tokens, h) && Reaches(tokens, h, k - 1) && Clear(tokens, h, k)
    ensures Continued(tokens[k..]) == Selected(tokens, k)
    decreases |tokens| - k, 2
  {
    hide Clear, Named;
    if k + 1 < |tokens| && tokens[k] == "," && tokens[k + 1] != "," {
      assert Reaches(tokens, h, k + 1);
      NotReachedComma(tokens, k);
      assert Imported(tokens, k + 1);
      TwoFurther(tokens, h, k);
      assert tokens[k..][2..] == tokens[k + 2..];
      ContinuedIsSelected(tokens, h, k + 2);
    } else {
      Ends(tokens, h, k);
      NamedIsSelected(tokens, k);
    }
  }

  lemma {:induction false} NotReached(tokens: seq<string>, h: int, k: nat)
    requires k < |tokens| && Clear(tokens, h, k) && h < 0
    ensures !Imported(tokens, k)
  {
    hide Reaches;
  }

  lemma {:induction false} NotReachedComma(tokens: seq<string>, k: nat)
    requires k < |tokens| && tokens[k] == ","
    ensures !Imported(tokens, k)
  {
  }

  lemma {:induction false} ReachesNext(tokens: seq<string>, k: nat)
    requires k + 1 < |tokens| && tokens[k + 1] != "," && Head(tokens, k)
    ensures Reaches(tokens, k, k + 1) && Imported(tokens, k + 1)
  {
  }

  // Two tokens on from a keyword, that keyword is the only one that may reach further.
  lemma {:induction false} OneHead(tokens: seq<string>, k: nat)
    requires k + 1 < |tokens| && Clear(tokens, -1, k) && Imported(tokens, k + 1)
    ensures Clear(tokens, k, k + 2)
  {
    hide Reaches;
  }

  lemma {:induction false} TwoFurther(tokens: seq<string>, h: nat, k: nat)
    requires h < k && k + 1 < |tokens| && Clear(tokens, h, k) && tokens[k] == "," && Imported(tokens, k + 1)
    ensures Clear(tokens, h, k + 2)
  {
    hide Reaches;
  }

  lemma {:induction false} InstanceEnds(tokens: seq<string>, h: nat)
    requires h + 2 <= |tokens| && tokens[h] == "INSTANCE" && Clear(tokens, h, h + 2)
    ensures Clear(tokens, -1, h + 2)
  {
  }

  // Where the alternation of commas and names breaks off, nothing further is reached.
  lemma {:induction false} Ends(tokens: seq<string>, h: nat, k: nat)
    requires h + 2 <= k <= |tokens| && Reaches(tokens, h, k - 1) && Clear(tokens, h, k)
    requires !(k + 1 < |tokens| && tokens[k] == "," && tokens[k + 1] != ",")
    ensures Clear(tokens, -1, k)
  {
    assert forall p: nat :: k <= p < |tokens| ==> !Reaches(tokens, h, p);
    hide Reaches;
  }

  // A token that is no keyword with a name behind it reaches nothing.
  lemma {:induction false} Silent(tokens: seq<string>, k: nat)
    requires k < |tokens| && Clear(tokens, -1, k)
    requires !(k + 1 < |tokens| && tokens[k + 1] != "," && Keyword(tokens[k]))
    ensures Clear(tokens, -1, k + 1)
  {
    assert forall p: nat :: k < p < |tokens| && Head(tokens, k) ==> !Reaches(tokens, k, p);
    hide Reaches;
  }

  // The names that a token list imports are its imported tokens, each once and in order.
  lemma {:induction false} NamedByPosition(tokens: seq<string>)
    ensures Named(tokens) == Selected(tokens, 0)
  {
    assert tokens[0..] == tokens;
    NamedIsSelected(tokens, 0);
  }

  lemma {:induction false} SelectedHas(tokens: seq<string>, k: nat, name: string)
    requires k <= |tokens|
    ensures name in Selected(tokens, k) <==> exists p: nat :: k <= p < |tokens| && Imported(tokens, p) && tokens[p] == name
    decreases |tokens| - k
  {
    hide Imported;
    if k < |tokens| {
      SelectedHas(tokens, k + 1, name);
      if Imported(tokens, k) && tokens[k] == name { assert name in [tokens[k]]; }
    }
  }

  // A module is imported iff it is no builtin and one of the imported tokens of its source.
  lemma {:induction false} ImportedIff(source: string, name: string)
    ensures name in Imports(source) <==>
            name !in BUILTINS && exists p: nat :: p < |Tokens(source)| && Imported(Tokens(source), p) && Tokens(source)[p] == name
  {
    hide Tokens, Named, Retained, Imported;
    NamedByPosition(Tokens(source));
    SelectedHas(Tokens(source), 0, name);
    RetainedNames(Named(Tokens(source)), name);
  }

  // ------------------------------------------------------ where tokens are

  // An identifier begins here: a letter or underscore that no identifier before it takes in.
  predicate WordAt(s: string, p: nat)
    requires p < |s|
    decreases p, 1
  {
    WordStart(s[p]) && !InWord(s, p)
  }

  predicate InWord(s: string, p: nat)
    requires p < |s|
    decreases p, 0
  {
    exists q: nat :: q < p && WordAt(s, q) && forall r :: q <= r <= p ==> WordChar(s[r])
  }

  // Commas and whole identifiers, from position k on.
  function TokensFrom(s: string, k: nat): seq<string>
    requires k <= |s|
    decreases |s| - k
  {
    if k == |s| then []
    else (if s[k] == ',' then [","] else if WordAt(s, k) then [s[k..k + Word(s[k..])]] else []) + TokensFrom(s, k + 1)
  }

  // No token begins inside an identifier.
  lemma {:induction false} NoneInside(s: string, k: nat)
    requires k < |s| && InWord(s, k)
    ensures TokensFrom(s, k) == TokensFrom(s, k + 1)
  {
    assert WordChar(s[k]);
    hide InWord, Word;
  }

  lemma {:induction false} OneBegins(s: string, k: nat)
    requires k < |s| && !InWord(s, k)
    ensures TokensFrom(s, k)
         == (if s[k] == ',' then [","] else if WordStart(s[k]) then [s[k..k + Word(s[k..])]] else []) + TokensFrom(s, k + 1)
  {
    hide InWord, Word, WordStart;
  }

  lemma {:induction false} WithinWord(s: string, k: nat, e: nat)
    requires k < e <= |s| && WordAt(s, k) && forall r :: k <= r < e ==> WordChar(s[r])
    ensures TokensFrom(s, k + 1) == TokensFrom(s, e)
    decreases e
  {
    hide TokensFrom, WordAt, InWord, WordChar;
    if k + 1 < e {
      WithinWord(s, k, e - 1);
      TakesIn(s, k, e - 1);
      NoneInside(s, e - 1);
    }
  }

  lemma {:induction false} TakesIn(s: string, k: nat, p: nat)
    requires k < p < |s| && WordAt(s, k) && forall r :: k <= r <= p ==> WordChar(s[r])
    ensures InWord(s, p)
  {
    hide WordAt, WordChar;
  }

  lemma {:induction false} SplitWord(s: string, k: nat)
    requires k < |s| && WordStart(s[k])
    ensures var e := k + Word(s[k..]);
            && k < e <= |s| && (forall r :: k <= r < e ==> WordChar(s[r])) && (e < |s| ==> !WordChar(s[e]))
            && Split(s[k..]) == [s[k..e]] + Split(s[e..])
  {
    var t := s[k..];
    var e := k + Word(t);
    WordRun(s, k);
    assert t[Word(t)..] == s[e..] && t[..Word(t)] == s[k..e];
    hide Word, WordChar;
  }

  lemma {:induction false} WordRun(s: string, k: nat)
    requires k < |s| && WordStart(s[k])
    ensures var e := k + Word(s[k..]);
            k < e <= |s| && (forall r :: k <= r < e ==> WordChar(s[r])) && (e < |s| ==> !WordChar(s[e]))
  {
    var t := s[k..];
    var e := k + Word(t);
    assert forall r :: k <= r < e ==> s[r] == t[r - k];
    assert e < |s| ==> s[e] == t[e - k];
  }

  lemma {:induction false} SplitOther(s: string, k: nat)
    requires k < |s| && !WordStart(s[k])
    ensures Split(s[k..]) == (if s[k] == ',' then [","] else []) + Split(s[k + 1..])
  {
    assert s[k..][1..] == s[k + 1..];
  }

  lemma {:induction false} WordCase(s: string, k: nat, e: nat)
    requires k < |s| && !InWord(s, k) && WordStart(s[k]) && e == k + Word(s[k..]) && Split(s[e..]) == TokensFrom(s, e)
    ensures Split(s[k..]) == TokensFrom(s, k)
  {
    SplitWord(s, k);
    OneBegins(s, k);
    WithinWord(s, k, e);
    hide Split, Word, InWord, TokensFrom, WordChar, WordStart;
  }

  lemma {:induction false} OtherCase(s: string, k: nat)
    requires k < |s| && !InWord(s, k) && !WordStart(s[k]) && Split(s[k + 1..]) == TokensFrom(s, k + 1)
    ensures Split(s[k..]) == TokensFrom(s, k)
  {
    SplitOther(s, k);
    OneBegins(s, k);
    hide Split, Word, InWord, TokensFrom, WordChar, WordStart;
  }

  lemma {:induction false} SplitIsTokens(s: string, k: nat)
    requires k <= |s| && (k < |s| ==> !InWord(s, k))
    ensures Split(s[k..]) == TokensFrom(s, k)
    decreases |s| - k
  {
    if k == |s| {
      assert Split(s[k..]) == [] by { SplitNothing(); }
    } else {
      hide Split, Word, InWord, TokensFrom, WordChar;
      if WordStart(s[k]) {
        SplitWord(s, k);
        var e := k + Word(s[k..]);
        PastWord(s, e);
        SplitIsTokens(s, e);
        WordCase(s, k, e);
      } else {
        NotTakenIn(s, k);
        SplitIsTokens(s, k + 1);
        OtherCase(s, k);
      }
    }
  }

  lemma {:induction false} SplitNothing()
    ensures Split([]) == []
  {
  }

  lemma {:induction false} PastWord(s: string, e: nat)
    requires e < |s| ==> !WordChar(s[e])
    ensures e < |s| ==> !InWord(s, e)
  {
  }

  lemma {:induction false} NotTakenIn(s: string, k: nat)
    requires k < |s| && !InWord(s, k) && !WordStart(s[k])
    ensures k + 1 < |s| ==> !InWord(s, k + 1)
  {
  }

  // The tokens of a source are the commas and identifiers of its blanked text, in order.
  lemma {:induction false} TokensByPosition(source: string)
    ensures Tokens(source) == TokensFrom(Blank(source), 0)
  {
    var s := Blank(source);
    assert s[0..] == s;
    SplitIsTokens(s, 0);
  }

  // ------------------------------------------------------ what is blanked

  // A comment or string begins here: none that begins before takes this place in.
  predicate RegionAt(s: string, p: nat)
    requires p < |s|
    decreases p, 1
  {
    Region(s[p..]) > 0 && !InRegion(s, p)
  }

  predicate InRegion(s: string, p: nat)
    requires p < |s|
    decreases p, 0
  {
    exists q: nat :: q < p && RegionAt(s, q) && p < q + Region(s[q..])
  }

  lemma {:induction false} BlankFrom(s: string, k: nat, p: nat)
    requires k <= p < |s| && !InRegion(s, k)
    ensures Blank(s[k..])[p - k] == if RegionAt(s, p) || InRegion(s, p) then ' ' else s[p]
    decreases |s| - k
  {
    hide Region, Blank, InRegion;
    var t := s[k..];
    var n := Region(t);
    if n > 0 {
      BlankRegion(t, n);
      if p < k + n {
        if p > k { TakenIn(s, k, p); }
      } else {
        assert t[n..] == s[k + n..];
        PastRegion(s, k);
        BlankFrom(s, k + n, p);
      }
    } else {
      BlankPlain(t);
      if p > k {
        assert t[1..] == s[k + 1..];
        PastPlain(s, k);
        BlankFrom(s, k + 1, p);
      }
    }
  }

  lemma {:induction false} TakenIn(s: string, k: nat, p: nat)
    requires k < p < |s| && RegionAt(s, k) && p < k + Region(s[k..])
    ensures InRegion(s, p)
  {
    hide Region;
  }

  lemma {:induction false} PastPlain(s: string, k: nat)
    requires k + 1 < |s| && !InRegion(s, k) && Region(s[k..]) == 0
    ensures !InRegion(s, k + 1)
  {
    hide Region;
    forall q: nat | q < k + 1 && RegionAt(s, q) ensures k + 1 >= q + Region(s[q..]) { assert q < k; }
  }

  lemma {:induction false} PastRegion(s: string, k: nat)
    requires k < |s| && RegionAt(s, k) && k + Region(s[k..]) < |s|
    ensures !InRegion(s, k + Region(s[k..]))
  {
    hide Region;
    var e := k + Region(s[k..]);
    forall q: nat | q < e ensures RegionAt(s, q) ==> e >= q + Region(s[q..]) {
      if q < k { assert RegionAt(s, q) ==> k >= q + Region(s[q..]); }
      else if q > k { TakenIn(s, k, q); }
    }
  }

  // Exactly the places of comments and strings are blanked.
  lemma {:induction false} BlankByPosition(s: string, p: nat)
    requires p < |s|
    ensures Blank(s)[p] == if RegionAt(s, p) || InRegion(s, p) then ' ' else s[p]
  {
    assert s[0..] == s;
    BlankFrom(s, 0, p);
  }

  // ------------------------------------------------------ where comments and strings end

  // A line comment goes up to its line feed.
  lemma {:induction false} LineEnds(s: string)
    ensures (forall i :: 0 <= i < Line(s) ==> s[i] != '\n') && (Line(s) < |s| ==> s[Line(s)] == '\n')
  {
    if s != [] && s[0] != '\n' {
      LineEnds(s[1..]);
      assert forall i :: 0 < i < |s| ==> s[i] == s[1..][i - 1];
    }
  }

  // Whether the character at i is taken together with a backslash before it.
  predicate Escaped(s: string, i: nat)
    requires i <= |s|
  {
    i > 0 && s[i - 1] == '\\' && !Escaped(s, i - 1)
  }

  // A string goes up to its first quote that is not escaped.
  lemma {:induction false} StringEnds(s: string)
    ensures var k := Quoted(s);
            && (k < |s| ==> k > 0)
            && (forall i :: 0 <= i < k - 1 ==> s[i] != '\"' || Escaped(s, i))
            && (k == |s| || (s[k - 1] == '\"' && !Escaped(s, k - 1)))
  {
    assert s[0..] == s;
    QuotedFrom(s, 0);
  }

  lemma {:induction false} EscapesOn(s: string, a: nat)
    requires a < |s| && !Escaped(s, a)
    ensures if s[a] == '\\' then Escaped(s, a + 1) && (a + 2 <= |s| ==> !Escaped(s, a + 2)) else !Escaped(s, a + 1)
  {
  }

  lemma {:induction false} QuotedStep(s: string, a: nat)
    requires a < |s|
    ensures Quoted(s[a..]) ==
      if s[a] == '\\' && a + 1 < |s| then 2 + Quoted(s[a + 2..]) else if s[a] == '\"' then 1 else 1 + Quoted(s[a + 1..])
  {
    var t := s[a..];
    assert t[1..] == s[a + 1..];
    if |t| > 1 { assert t[2..] == s[a + 2..]; }
  }

  lemma {:induction false} QuotedFrom(s: string, a: nat)
    requires a <= |s| && !Escaped(s, a)
    ensures var k := a + Quoted(s[a..]);
            && k <= |s| && (k < |s| ==> k > a)
            && (forall i :: a <= i < k - 1 ==> s[i] != '\"' || Escaped(s, i))
            && (k == |s| || (s[k - 1] == '\"' && !Escaped(s, k - 1)))
    decreases |s| - a
  {
    hide Escaped, Quoted;
    if a < |s| {
      QuotedStep(s, a);
      EscapesOn(s, a);
      if s[a] == '\\' && a + 1 < |s| { QuotedFrom(s, a + 2); } else if s[a] != '\"' && a + 1 < |s| { QuotedFrom(s, a + 1); }
    }
  }

  // The two characters at i open or close a block comment; they share none with the bracket before.
  predicate Bracket(s: string, i: nat)
    requires i <= |s|
  {
    (Opens(s[i..]) || Closes(s[i..])) && !(i > 0 && Bracket(s, i - 1))
  }

  // How many block comments are open after the first i characters.
  function Level(s: string, i: nat): int
    requires i <= |s|
  {
    if i < 2 then 0
    else Level(s, i - 1) + (if Bracket(s, i - 2) then (if Opens(s[i - 2..]) then 1 else -1) else 0)
  }

  // A block comment goes up to where as many brackets have closed as have opened.
  lemma {:induction false} BlockEnds(s: string)
    requires Opens(s)
    ensures var k := Region(s);
            && 2 <= k <= |s| && (forall i :: 2 <= i < k ==> Level(s, i) > 0)
            && (k == |s| || Level(s, k) == 0)
  {
    assert s[0..] == s;
    assert Bracket(s, 0) && !Bracket(s, 1);
    assert Level(s, 2) == 1 by { assert Level(s, 1) == 0; }
    BlockFrom(s, 2);
  }

  lemma {:induction false} BlockFrom(s: string, a: nat)
    requires 2 <= a <= |s| && Level(s, a) >= 0 && !Bracket(s, a - 1)
    ensures var k := a + Block(s[a..], Level(s, a));
            && k <= |s| && (forall i :: a <= i < k ==> Level(s, i) > 0)
            && (k == |s| || Level(s, k) == 0)
    decreases |s| - a
  {
    hide Level, Bracket;
    var t := s[a..];
    if Level(s, a) > 0 && a < |s| {
      if Opens(t) || Closes(t) {
        assert t[2..] == s[a + 2..];
        OverBracket(s, a);
        BlockFrom(s, a + 2);
      } else {
        assert t[1..] == s[a + 1..];
        OverPlain(s, a);
        BlockFrom(s, a + 1);
      }
    }
  }

  lemma {:induction false} OverBracket(s: string, a: nat)
    requires 2 <= a <= |s| && !Bracket(s, a - 1) && (Opens(s[a..]) || Closes(s[a..]))
    ensures a + 2 <= |s| && !Bracket(s, a + 1) && Level(s, a + 1) == Level(s, a)
    ensures Level(s, a + 2) == Level(s, a) + (if Opens(s[a..]) then 1 else -1)
  {
    assert Bracket(s, a);
  }

  lemma {:induction false} OverPlain(s: string, a: nat)
    requires 2 <= a < |s| && !Bracket(s, a - 1) && !Opens(s[a..]) && !Closes(s[a..])
    ensures !Bracket(s, a) && Level(s, a + 1) == Level(s, a)
  {
  }
}
