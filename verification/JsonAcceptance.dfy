// The parser and the grammar, the parser and the printer: the main results about src/json.rs.
module JsonAcceptance {
  import opened Wrappers
  import opened JsonText
  import opened JsonTree
  import opened JsonReader
  import opened JsonGrammar
  import opened JsonSpans
  import opened JsonSoundness
  import opened JsonCompleteness
  import opened JsonPrinting

  // `x` with white space around it derives `t`, keeps the limits and denotes `j`.
  ghost predicate Accepts(t: string, lim: Limits, before: string, x: Tree, after: string, j: Json) {
    |t| <= lim.maxBytes && Derives(t, before, x, after) && Within(x, lim) && Value(x) == j
  }

  lemma {:induction false} ParseSound(t: string, lim: Limits) returns (before: string, x: Tree, after: string)
    requires Parse(t, lim).Some?
    ensures Accepts(t, lim, before, x, after, Parse(t, lim).value)
  {
    hide ReadValue, Render, WF, Value, NoRepeats, Count, Height;
    var r := ReadValue(t, 0, 0, 0, lim);
    before, x := SoundValue(t, 0, 0, 0, lim, r);
    after := SpaceAt(t, r.at);
    JoinAt(t, 0, before, Render(x));
    JoinAt(t, 0, before + Render(x), after);
    assert t[0..|t|] == t;
  }

  lemma {:induction false} ParseComplete(t: string, lim: Limits, before: string, x: Tree, after: string, j: Json)
    requires Accepts(t, lim, before, x, after, j)
    ensures Parse(t, lim) == Some(j)
  {
    hide ReadValue, Render, WF, Value, NoRepeats, Count, Height;
    var end := |before| + |Render(x)|;
    assert At(t, 0, before + Render(x) + after) by { assert t[0..|t|] == t; }
    AtSplit(t, 0, before + Render(x), after);
    AtSplit(t, 0, before, Render(x));
    SkipBlank(t, end, after);
    if after != [] { AtChar(t, end, after, 0); }
    CompleteValue(t, 0, before, x, end, 0, Count(x), 0, lim);
  }

  // A text is accepted, and read as `j`, iff the grammar derives it as `j` within the limits.
  lemma {:induction false} AcceptsExactly(t: string, lim: Limits, j: Json)
    ensures Parse(t, lim) == Some(j) <==> exists before, x, after :: Accepts(t, lim, before, x, after, j)
  {
    if Parse(t, lim) == Some(j) {
      var before, x, after := ParseSound(t, lim);
      assert Accepts(t, lim, before, x, after, j);
    }
    if before, x, after :| Accepts(t, lim, before, x, after, j) {
      ParseComplete(t, lim, before, x, after, j);
    }
  }

  // Every accepted tree is printable and within the limits, also where duplicate keys are dropped.
  lemma {:induction false} AcceptedIsBounded(t: string, lim: Limits)
    requires Parse(t, lim).Some?
    ensures var j := Parse(t, lim).value;
      Printable(j) && Depth(j) <= lim.maxDepth && Size(j) <= lim.maxNodes && |t| <= lim.maxBytes
  {
    var before, x, after := ParseSound(t, lim);
    Bounded(x);
  }

  // Wider limits accept what narrower ones do, as the same tree.
  lemma {:induction false} ParseMore(t: string, lim: Limits, more: Limits)
    requires Parse(t, lim).Some?
    requires lim.maxBytes <= more.maxBytes && lim.maxDepth <= more.maxDepth && lim.maxNodes <= more.maxNodes
    requires lim.rejectDuplicateKeys == more.rejectDuplicateKeys
    ensures Parse(t, more) == Parse(t, lim)
  {
    hide Parse, Derives, Value, NoRepeats, Count, Height, WF;
    var before, x, after := ParseSound(t, lim);
    ParseComplete(t, more, before, x, after, Parse(t, lim).value);
  }

  predicate Fits(j: Json, lim: Limits) {
    |Print(j)| <= lim.maxBytes && Depth(j) <= lim.maxDepth && Size(j) <= lim.maxNodes
  }

  lemma {:induction false} FittingIsRead(j: Json, lim: Limits)
    requires Writable(j) && Fits(j, lim)
    ensures Parse(Print(j), lim) == Some(Normal(j))
  {
    hide Print, Parse, Normal, Writable;
    var x := PrintsTree(j);
    assert "" + Render(x) + "" == Print(j);
    ParseComplete(Print(j), lim, "", x, "", Normal(j));
  }

  // What is written is read back with its members in key order if it is within the limits,
  // and refused otherwise.
  lemma {:induction false} ParseWritten(j: Json, lim: Limits)
    requires Writable(j)
    ensures Parse(Print(j), lim) == if Fits(j, lim) then Some(Normal(j)) else None
  {
    hide Print, Parse, Normal, Writable;
    if Fits(j, lim) {
      FittingIsRead(j, lim);
    } else if Parse(Print(j), lim).Some? {
      var more := Limits(lim.maxBytes + |Print(j)|, lim.maxDepth + Depth(j), lim.maxNodes + Size(j), lim.rejectDuplicateKeys);
      FittingIsRead(j, more);
      ParseMore(Print(j), lim, more);
      AcceptedIsBounded(Print(j), lim);
      NormalMeasures(j);
    }
  }

  // The parser is the inverse of the compact printer, for exactly the trees within the limits.
  lemma {:induction false} ParsePrint(j: Json, lim: Limits)
    requires Printable(j)
    ensures Parse(Print(j), lim) == if Fits(j, lim) then Some(j) else None
  {
    hide Print, Parse, Normal, Writable;
    PrintableIsNormal(j);
    ParseWritten(j, lim);
  }

  // Different trees have different compact texts.
  lemma {:induction false} PrintInjective(a: Json, b: Json)
    requires Printable(a) && Printable(b) && Print(a) == Print(b)
    ensures a == b
  {
    hide Print, Parse;
    var lim := Limits(|Print(a)|, Max(Depth(a), Depth(b)), Max(Size(a), Size(b)), true);
    ParsePrint(a, lim);
    ParsePrint(b, lim);
  }

  // Printing what was read and reading it again changes nothing.
  lemma {:induction false} ReadPrintRead(t: string, lim: Limits, again: Limits)
    requires Parse(t, lim).Some?
    requires var j := Parse(t, lim).value; again == lim.(maxBytes := |Print(j)|)
    ensures Parse(Print(Parse(t, lim).value), again) == Parse(t, lim)
  {
    AcceptedIsBounded(t, lim);
    ParsePrint(Parse(t, lim).value, again);
  }
}
