/** Touchpad text on one line: ge_text_to_ascii_one_line.

    Tokens are looked up and joined; a marker makes the next token blink.  The
    specification works on maximal runs of blinking tokens, each wrapped once in
    angle brackets, with one trailing space moved outside. */
module TokenText {
  import opened Bytes

  const BLINK: byte := 0xFE

  /** The lookup table; None is an entry left null. */
  type Table = byte -> Option<string>

  datatype Glyph = Glyph(blink: bool, code: byte)

  /** The tokens of a byte string, each with whether a marker precedes it; None if
      the string ends in a marker. */
  function Glyphs(bytes: seq<byte>): Option<seq<Glyph>>
    decreases |bytes|
  {
    if bytes == [] then Some([])
    else
      var blink := bytes[0] == BLINK;
      if blink && |bytes| == 1 then None
      else
        var n := if blink then 2 else 1;
        match Glyphs(bytes[n..])
        case None => None
        case Some(rest) => Some([Glyph(blink, bytes[n - 1])] + rest)
  }

  predicate EndsInSpace(s: string) {
    s != "" && IsSpace(s[|s| - 1])
  }

  /** In the tokens at hand the table's texts are not backspaces, and are empty only
      where a marker is itself marked. */
  predicate PlainTexts(table: Table, glyphs: seq<Glyph>) {
    forall x :: x in glyphs && table(x.code).Some? ==>
      var s := table(x.code).value;
      if s == "" then x.blink else s[0] != 8 as char
  }

  /** ... and contain no angle brackets of their own. */
  predicate NoBracketTexts(table: Table, glyphs: seq<Glyph>) {
    forall x :: x in glyphs && table(x.code).Some? ==> Unbracketed(table(x.code).value)
  }

  predicate Unbracketed(s: string) {
    forall i :: 0 <= i < |s| ==> s[i] != '<' && s[i] != '>'
  }

  predicate IsNewline(table: Table, code: byte) {
    table(code).Some? && table(code).value != "" && table(code).value[0] == '\n'
  }

  /** A line break at the very start has nothing to look back at. */
  predicate StartsWell(table: Table, glyphs: seq<Glyph>) {
    |glyphs| <= 1 || glyphs[0].blink || !IsNewline(table, glyphs[0].code)
  }

  // -------------------------------------------------------------- specification

  /** The output with one more token's text.  A line break becomes a bar, except at
      the end of the line. */
  function AppendText(table: Table, out: string, code: byte, last: bool): string {
    if IsNewline(table, code) then
      if last then out else out + (if EndsInSpace(out) then "| " else " | ")
    else match table(code)
      case None => out + "?"
      case Some(s) => out + s
  }

  /** A run of tokens; `end` says whether the line ends with it. */
  function AppendRun(table: Table, out: string, glyphs: seq<Glyph>, end: bool): string
    decreases |glyphs|
  {
    if glyphs == [] then out
    else AppendRun(table, AppendText(table, out, glyphs[0].code, end && |glyphs| == 1), glyphs[1..], end)
  }

  /** Closes a bracket, moving one trailing space outside. */
  function Close(out: string): string {
    if EndsInSpace(out) then out[..|out| - 1] + "> " else out + ">"
  }

  /** Length of the first maximal run of tokens that all blink or all do not. */
  function RunLength(glyphs: seq<Glyph>): (n: nat)
    requires glyphs != []
    ensures 1 <= n <= |glyphs|
    ensures forall i :: 0 <= i < n ==> glyphs[i].blink == glyphs[0].blink
    ensures n < |glyphs| ==> glyphs[n].blink != glyphs[0].blink
  {
    if |glyphs| == 1 || glyphs[1].blink != glyphs[0].blink then 1 else 1 + RunLength(glyphs[1..])
  }

  function Runs(table: Table, out: string, glyphs: seq<Glyph>): string
    decreases |glyphs|
  {
    if glyphs == [] then out
    else
      var n := RunLength(glyphs);
      var end := n == |glyphs|;
      var next := if glyphs[0].blink then Close(AppendRun(table, out + "<", glyphs[..n], end))
                  else AppendRun(table, out, glyphs[..n], end);
      Runs(table, next, glyphs[n..])
  }

  function Trim(s: string): string {
    if EndsInSpace(s) then Trim(s[..|s| - 1]) else s
  }

  function OneLine(table: Table, glyphs: seq<Glyph>): string {
    Trim(Runs(table, "", glyphs))
  }

  // -------------------------------------------------------------- the loop

  /** The rest of the loop, from an output and the blinking state. */
  function Flow(table: Table, out: string, blinking: bool, glyphs: seq<Glyph>): string
    decreases |glyphs|
  {
    if glyphs == [] then (if blinking then Close(out) else out)
    else
      var x := glyphs[0];
      var opened' := if x.blink then (if blinking then out else out + "<")
                     else (if blinking then Close(out) else out);
      Flow(table, AppendText(table, opened', x.code, |glyphs| == 1), x.blink, glyphs[1..])
  }

  /** Inside a run the flow appends its tokens. */
  lemma {:induction false} FlowRun(table: Table, out: string, glyphs: seq<Glyph>, n: nat)
    requires 0 < n <= |glyphs|
    requires forall i :: 0 <= i < n ==> glyphs[i].blink == glyphs[0].blink
    ensures Flow(table, out, glyphs[0].blink, glyphs)
         == Flow(table, AppendRun(table, out, glyphs[..n], n == |glyphs|), glyphs[0].blink, glyphs[n..])
    decreases n
  {
    hide AppendText;
    var x := glyphs[0];
    var out' := AppendText(table, out, x.code, |glyphs| == 1);
    assert glyphs[..n][1..] == glyphs[1..][..n - 1];
    if n == 1 {
      assert glyphs[..1][1..] == [];
    } else {
      assert glyphs[1..][0] == glyphs[1];
      FlowRun(table, out', glyphs[1..], n - 1);
      assert glyphs[1..][n - 1..] == glyphs[n..];
    }
  }

  /** Token by token or run by run, the line is the same. */
  lemma {:induction false} FlowIsRuns(table: Table, out: string, glyphs: seq<Glyph>)
    ensures Flow(table, out, false, glyphs) == Runs(table, out, glyphs)
    decreases |glyphs|
  {
    if glyphs != [] {
      hide AppendText, AppendRun, Close;
      var n := RunLength(glyphs);
      var end := n == |glyphs|;
      if glyphs[0].blink {
        assert Flow(table, out, false, glyphs) == Flow(table, out + "<", true, glyphs);
        FlowRun(table, out + "<", glyphs, n);
        var ran := AppendRun(table, out + "<", glyphs[..n], end);
        assert Flow(table, ran, true, glyphs[n..]) == Flow(table, Close(ran), false, glyphs[n..]) by {
          if !end { assert glyphs[n..][0] == glyphs[n]; }
        }
        FlowIsRuns(table, Close(ran), glyphs[n..]);
      } else {
        FlowRun(table, out, glyphs, n);
        FlowIsRuns(table, AppendRun(table, out, glyphs[..n], end), glyphs[n..]);
      }
    }
  }

  lemma GlyphsShrink(bytes: seq<byte>)
    requires bytes != [] && Glyphs(bytes).Some?
    ensures var n := if bytes[0] == BLINK then 2 else 1;
            && n <= |bytes| && Glyphs(bytes[n..]).Some?
            && Glyphs(bytes).value == [Glyph(bytes[0] == BLINK, bytes[n - 1])] + Glyphs(bytes[n..]).value
            && (bytes[n..] == [] <==> Glyphs(bytes[n..]).value == [])
  {
  }

  /** ge_text_to_ascii_one_line, for texts shorter than 256 characters. */
  method TextToAsciiOneLine(table: Table, bytes: seq<byte>) returns (ret: string)
    requires Glyphs(bytes).Some?
    requires PlainTexts(table, Glyphs(bytes).value) && StartsWell(table, Glyphs(bytes).value)
    requires |Runs(table, "", Glyphs(bytes).value)| < 256
    ensures ret == OneLine(table, Glyphs(bytes).value)
  {
    hide AppendText, Close, Trim, Runs, PlainTexts, StartsWell;
    ghost var glyphs := Glyphs(bytes).value;
    FlowIsRuns(table, "", glyphs);
    ret := "";
    var blinkNext, i := false, 0;
    assert bytes[0..] == bytes;
    while i < |bytes|
      invariant 0 <= i <= |bytes| && Glyphs(bytes[i..]).Some?
      invariant Flow(table, ret, blinkNext, Glyphs(bytes[i..]).value) == Runs(table, "", glyphs)
      decreases |bytes| - i
    {
      GlyphsShrink(bytes[i..]);
      ghost var left := Glyphs(bytes[i..]).value;
      var code := bytes[i];
      i := i + 1;
      if code == BLINK {
        if !blinkNext {
          ret := ret + "<";
        }
        blinkNext := true;
        code := bytes[i];
        i := i + 1;
      } else {
        if blinkNext {
          ret := Close(ret);
        }
        blinkNext := false;
      }
      ret := AppendText(table, ret, code, i == |bytes|);
      assert Glyphs(bytes[i..]).value == left[1..];
    }
    if blinkNext {
      ret := Close(ret);
    }
    ret := TrimEnd(ret);
  }

  /** The last loop. */
  method TrimEnd(s: string) returns (ret: string)
    requires |s| < 256
    ensures ret == Trim(s)
  {
    ret := s;
    var len := |ret|;
    while len > 0 && IsSpace(ret[len - 1])
      invariant len == |ret| <= |s| && Trim(ret) == Trim(s)
    {
      ret := ret[..len - 1];
      len := len - 1;
    }
  }

  // ----------------------------------------------------------------- brackets

  /** The angle brackets of a text. */
  function AngleBrackets(s: string): string {
    if s == "" then ""
    else AngleBrackets(s[..|s| - 1]) + if s[|s| - 1] == '<' || s[|s| - 1] == '>' then [s[|s| - 1]] else ""
  }

  /** How many maximal runs blink. */
  function BlinkingRuns(glyphs: seq<Glyph>): nat
    decreases |glyphs|
  {
    if glyphs == [] then 0 else (if glyphs[0].blink then 1 else 0) + BlinkingRuns(glyphs[RunLength(glyphs)..])
  }

  function Pairs(n: nat): string {
    if n == 0 then "" else "<>" + Pairs(n - 1)
  }

  lemma {:induction false} BracketsConcat(a: string, b: string)
    ensures AngleBrackets(a + b) == AngleBrackets(a) + AngleBrackets(b)
  {
    if b == "" {
      assert a + b == a;
    } else {
      assert (a + b)[..|a + b| - 1] == a + b[..|b| - 1];
      BracketsConcat(a, b[..|b| - 1]);
    }
  }

  lemma {:induction false} NoBrackets(s: string)
    requires Unbracketed(s)
    ensures AngleBrackets(s) == ""
  {
    if s != "" {
      NoBrackets(s[..|s| - 1]);
    }
  }

  lemma {:induction false} BracketsOfRun(table: Table, out: string, glyphs: seq<Glyph>, end: bool)
    requires NoBracketTexts(table, glyphs)
    ensures AngleBrackets(AppendRun(table, out, glyphs, end)) == AngleBrackets(out)
    decreases |glyphs|
  {
    if glyphs != [] {
      hide AngleBrackets;
      var x := glyphs[0];
      assert x in glyphs;
      var added := if IsNewline(table, x.code) then
                     if end && |glyphs| == 1 then "" else if EndsInSpace(out) then "| " else " | "
                   else match table(x.code) case None => "?" case Some(s) => s;
      var out' := AppendText(table, out, x.code, end && |glyphs| == 1);
      assert out' == out + added;
      NoBrackets(added);
      BracketsConcat(out, added);
      BracketsOfRun(table, out', glyphs[1..], end);
    }
  }

  lemma OneCloser()
    ensures AngleBrackets(">") == ">" && AngleBrackets("> ") == ">"
    ensures forall c: char :: IsSpace(c) ==> AngleBrackets([c]) == ""
  {
    assert ">"[..0] == "" && "> "[..1] == ">";
    forall c: char | IsSpace(c) ensures AngleBrackets([c]) == "" {
      assert [c][..0] == "";
    }
  }

  lemma BracketsOfClose(out: string)
    ensures AngleBrackets(Close(out)) == AngleBrackets(out) + ">"
  {
    OneCloser();
    hide AngleBrackets;
    if EndsInSpace(out) {
      var last := [out[|out| - 1]];
      assert out == out[..|out| - 1] + last;
      BracketsConcat(out[..|out| - 1], last);
      BracketsConcat(out[..|out| - 1], "> ");
    } else {
      BracketsConcat(out, ">");
    }
  }

  lemma {:induction false} BracketsOfRuns(table: Table, out: string, glyphs: seq<Glyph>)
    requires NoBracketTexts(table, glyphs)
    ensures AngleBrackets(Runs(table, out, glyphs)) == AngleBrackets(out) + Pairs(BlinkingRuns(glyphs))
    decreases |glyphs|
  {
    if glyphs != [] {
      var n := RunLength(glyphs);
      var end := n == |glyphs|;
      assert NoBracketTexts(table, glyphs[..n]) && NoBracketTexts(table, glyphs[n..]);
      hide AngleBrackets, AppendRun, Close, NoBracketTexts;
      if glyphs[0].blink {
        var ran := AppendRun(table, out + "<", glyphs[..n], end);
        BracketsConcat(out, "<");
        assert AngleBrackets("<") == "<" by { OneBracket(); }
        BracketsOfRun(table, out + "<", glyphs[..n], end);
        BracketsOfClose(ran);
        BracketsOfRuns(table, Close(ran), glyphs[n..]);
        OneMorePair(AngleBrackets(out), BlinkingRuns(glyphs[n..]));
      } else {
        BracketsOfRun(table, out, glyphs[..n], end);
        BracketsOfRuns(table, AppendRun(table, out, glyphs[..n], end), glyphs[n..]);
      }
    }
  }

  lemma OneMorePair(s: string, n: nat)
    ensures s + "<" + ">" + Pairs(n) == s + Pairs(n + 1)
  {
    assert "<" + ">" == "<>";
  }

  lemma OneBracket()
    ensures AngleBrackets("<") == "<"
  {
    assert "<"[..0] == "";
  }

  lemma {:induction false} BracketsOfTrim(s: string)
    ensures AngleBrackets(Trim(s)) == AngleBrackets(s)
  {
    if EndsInSpace(s) {
      BracketsOfTrim(s[..|s| - 1]);
    }
  }

  /** AngleBrackets come in pairs, one for each maximal blinking run: they alternate and
      never nest. */
  lemma BracketsAlternate(table: Table, glyphs: seq<Glyph>)
    requires NoBracketTexts(table, glyphs)
    ensures AngleBrackets(OneLine(table, glyphs)) == Pairs(BlinkingRuns(glyphs))
  {
    BracketsOfRuns(table, "", glyphs);
    BracketsOfTrim(Runs(table, "", glyphs));
  }

  // ------------------------------------------------------------------- letters

  predicate IsLetter(c: char) {
    c != '<' && c != '>' && c as int !in {9, 10, 11, 12, 13, 32}
  }

  /** A text without angle brackets and white space. */
  function Letters(s: string): string {
    if s == "" then "" else Letters(Init(s)) + if IsLetter(Last(s)) then [Last(s)] else ""
  }

  /** The letters of the tokens one after another: '?' for a token without text, and a bar
      for a line break that is not the last token. */
  function Spelled(table: Table, glyphs: seq<Glyph>): string {
    if glyphs == [] then ""
    else
      (match table(glyphs[0].code)
       case None => "?"
       case Some(s) =>
         if s != "" && s[0] as int == 10 then if |glyphs| == 1 then "" else "|" else Letters(s))
      + Spelled(table, glyphs[1..])
  }

  lemma {:induction false} LettersConcat(a: string, b: string)
    ensures Letters(a + b) == Letters(a) + Letters(b)
  {
    if b == "" {
      assert a + b == a;
    } else {
      assert Init(a + b) == a + Init(b);
      LettersConcat(a, Init(b));
    }
  }

  lemma NoLetters()
    ensures Letters("<") == Letters(">") == Letters("> ") == "" && Letters("| ") == Letters(" | ") == "|"
    ensures Letters("?") == "?"
    ensures forall c :: IsSpace(c) ==> Letters([c]) == ""
  {
    LettersConcat(">", " ");
    LettersConcat("|", " ");
    LettersConcat(" ", "| ");
    assert "> " == ">" + " " && "| " == "|" + " " && " | " == " " + "| ";
    forall c: char ensures Letters([c]) == if IsLetter(c) then [c] else "" {
      assert Init([c]) == "";
    }
  }

  lemma LettersOfClose(out: string)
    ensures Letters(Close(out)) == Letters(out)
  {
    NoLetters();
    hide Letters;
    if EndsInSpace(out) {
      var before, last := out[..|out| - 1], [out[|out| - 1]];
      assert out == before + last;
      LettersConcat(before, last);
      LettersConcat(before, "> ");
    } else {
      LettersConcat(out, ">");
    }
  }

  lemma LettersOfText(table: Table, out: string, glyphs: seq<Glyph>)
    requires glyphs != []
    ensures Letters(AppendText(table, out, glyphs[0].code, |glyphs| == 1)) + Spelled(table, glyphs[1..])
         == Letters(out) + Spelled(table, glyphs)
  {
    NoLetters();
    LettersConcat(out, "?");
    LettersConcat(out, "| ");
    LettersConcat(out, " | ");
    hide Letters, EndsInSpace;
    var rest := Spelled(table, glyphs[1..]);
    SameText(Letters(out), "?", rest);
    SameText(Letters(out), "|", rest);
    match table(glyphs[0].code)
    case None =>
    case Some(s) =>
      LettersConcat(out, s);
      SameText(Letters(out), Letters(s), rest);
  }

  lemma {:induction false} LettersOfFlow(table: Table, out: string, blinking: bool, glyphs: seq<Glyph>)
    ensures Letters(Flow(table, out, blinking, glyphs)) == Letters(out) + Spelled(table, glyphs)
    decreases |glyphs|
  {
    LettersOfClose(out);
    if glyphs != [] {
      NoLetters();
      LettersConcat(out, "<");
      var x := glyphs[0];
      var begun := if x.blink then (if blinking then out else out + "<")
                   else (if blinking then Close(out) else out);
      var next := AppendText(table, begun, x.code, |glyphs| == 1);
      hide Letters, Close, AppendText, Spelled;
      assert Letters(begun) == Letters(out);
      LettersOfText(table, begun, glyphs);
      LettersOfFlow(table, next, x.blink, glyphs[1..]);
    }
  }

  lemma {:induction false} LettersOfTrim(s: string)
    ensures Letters(Trim(s)) == Letters(s)
  {
    if EndsInSpace(s) {
      LettersOfTrim(Init(s));
      NoLetters();
      assert !IsLetter(Last(s));
    }
  }

  /** Every token is written, in its place: the letters of the line are those of the
      tokens. */
  lemma LineSpellsTokens(table: Table, glyphs: seq<Glyph>)
    ensures Letters(OneLine(table, glyphs)) == Spelled(table, glyphs)
  {
    FlowIsRuns(table, "", glyphs);
    LettersOfFlow(table, "", false, glyphs);
    LettersOfTrim(Runs(table, "", glyphs));
  }

  /** Nothing blinks and no line breaks: the line is the texts and nothing else. */
  function Joined(table: Table, glyphs: seq<Glyph>): string {
    if glyphs == [] then ""
    else (match table(glyphs[0].code) case None => "?" case Some(s) => s) + Joined(table, glyphs[1..])
  }

  lemma SameText(a: string, b: string, c: string)
    ensures a + b + c == a + (b + c)
  {
  }

  lemma {:induction false} PlainFlow(table: Table, out: string, glyphs: seq<Glyph>)
    requires forall x :: x in glyphs ==> !x.blink && !IsNewline(table, x.code)
    ensures Flow(table, out, false, glyphs) == out + Joined(table, glyphs)
    decreases |glyphs|
  {
    if glyphs != [] {
      var x := glyphs[0];
      assert x in glyphs;
      var text := match table(x.code) case None => "?" case Some(s) => s;
      assert AppendText(table, out, x.code, |glyphs| == 1) == out + text;
      hide AppendText, Close, IsNewline;
      PlainFlow(table, out + text, glyphs[1..]);
      SameText(out, text, Joined(table, glyphs[1..]));
    }
  }

  lemma PlainLine(table: Table, glyphs: seq<Glyph>)
    requires forall x :: x in glyphs ==> !x.blink && !IsNewline(table, x.code)
    ensures OneLine(table, glyphs) == Trim(Joined(table, glyphs))
  {
    FlowIsRuns(table, "", glyphs);
    PlainFlow(table, "", glyphs);
    assert "" + Joined(table, glyphs) == Joined(table, glyphs);
  }

  /** The text ends in white space. */
  predicate Blank(s: string) {
    s != "" && Last(s) as int in {9, 10, 11, 12, 13, 32}
  }

  lemma FlowOne(table: Table, out: string, x: Glyph, rest: seq<Glyph>)
    requires !x.blink
    ensures Flow(table, out, false, [x] + rest) == Flow(table, AppendText(table, out, x.code, rest == []), false, rest)
  {
    assert ([x] + rest)[1..] == rest;
    hide AppendText;
  }

  /** A line break between two tokens: a bar with a space on either side. */
  lemma BreakLine(table: Table, a: byte, n: byte, b: byte)
    requires table(a).Some? && !IsNewline(table, a) && IsNewline(table, n) && table(b).Some? && !IsNewline(table, b)
    ensures var before, after := table(a).value, table(b).value;
            OneLine(table, [Glyph(false, a), Glyph(false, n), Glyph(false, b)])
            == Trim(before + (if Blank(before) then "| " else " | ") + after)
  {
    var x, y, z := Glyph(false, a), Glyph(false, n), Glyph(false, b);
    var before := table(a).value;
    FlowIsRuns(table, "", [x, y, z]);
    assert [x, y, z] == [x] + [y, z] && [y, z] == [y] + [z] && [z] == [z] + [];
    FlowOne(table, "", x, [y, z]);
    assert "" + before == before;
    FlowOne(table, before, y, [z]);
    FlowOne(table, before + (if Blank(before) then "| " else " | "), z, []);
    hide Trim, Runs;
  }

  /** A blinking token before a steady one: in angle brackets, a space at its end moved
      behind them. */
  lemma BlinkLine(table: Table, a: byte, b: byte)
    requires table(a).Some? && !IsNewline(table, a) && table(b).Some? && !IsNewline(table, b)
    ensures var before, after := table(a).value, table(b).value;
            OneLine(table, [Glyph(true, a), Glyph(false, b)])
            == Trim((if Blank(before) then "<" + Init(before) + "> " else "<" + before + ">") + after)
  {
    var x, y := Glyph(true, a), Glyph(false, b);
    var before := table(a).value;
    var out := "<" + before;
    FlowIsRuns(table, "", [x, y]);
    assert [x, y][1..] == [y] && "" + "<" == "<";
    assert Flow(table, "", false, [x, y]) == Flow(table, out, true, [y]);
    assert [y] == [y] + [] && [y][1..] == [];
    FlowOne(table, Close(out), y, []);
    if Blank(before) {
      assert out[..|out| - 1] == "<" + Init(before);
    }
    hide Trim, Runs;
  }
}
