/** The tokenizer of the configuration file, which compacts each token in the
    buffer it reads.

    `NextArg` is the tokenizer on values; method GetNextArg works in place with a
    read and a write cursor and is proved to refine it without disturbing the
    text still to be read.  Quoting is its inverse. */
module ConfigArgs {
  import opened Bytes

  const NUL := '\0'

  predicate NulFree(s: seq<char>) {
    forall i :: 0 <= i < |s| ==> s[i] != NUL
  }

  predicate IsQuote(c: char) { c == '"' || c == '\'' }

  function Spaces(s: seq<char>): (n: nat)
    ensures n <= |s| && (n < |s| ==> !IsSpace(s[n]))
    ensures forall i :: 0 <= i < n ==> IsSpace(s[i])
  {
    if s == [] || !IsSpace(s[0]) then 0 else 1 + Spaces(s[1..])
  }

  /** The rest of a token and the text after it; `quote` is NUL outside quotes. */
  function Scan(s: seq<char>, quote: char): (res: (seq<char>, seq<char>))
    ensures |res.0| + |res.1| <= |s|
    decreases |s|
  {
    if s == [] then ([], [])
    else if quote != NUL && s[0] == quote then Scan(s[1..], NUL)
    else if quote == NUL && IsQuote(s[0]) then Scan(s[1..], s[0])
    else if quote == NUL && IsSpace(s[0]) then ([], s[1..])
    else
      var j := if s[0] == '\\' && |s| > 1 then 1 else 0;
      var (token, rest) := Scan(s[j + 1..], quote);
      ([s[j]] + token, rest)
  }

  /** The next token, if any, and the text left. */
  function NextArg(s: seq<char>): (res: (Option<seq<char>>, seq<char>))
    ensures res.0.Some? ==> |res.1| < |s|
  {
    var t := s[Spaces(s)..];
    if t == [] || t[0] == '#' then (None, t)
    else
      ScanShrinks(t);
      (Some(Scan(t, NUL).0), Scan(t, NUL).1)
  }

  lemma ScanShrinks(s: seq<char>)
    requires s != [] && !IsSpace(s[0])
    ensures |Scan(s, NUL).1| < |s|
  {
  }

  /** All the tokens of a line. */
  function Args(s: seq<char>): seq<seq<char>>
    decreases |s|
  {
    var (arg, rest) := NextArg(s);
    match arg
    case None => []
    case Some(token) => [token] + Args(rest)
  }

  // ------------------------------------------------------------------ in place

  /** The text from `start` up to the first NUL, at `end`. */
  ghost predicate TextAt(buf: array<char>, start: nat, end: nat)
    reads buf
  {
    start <= end < buf.Length && buf[end] == NUL && forall i :: start <= i < end ==> buf[i] != NUL
  }

  method SkipSpaces(buf: array<char>, start: nat, ghost end: nat) returns (b: nat)
    requires TextAt(buf, start, end)
    ensures b == start + Spaces(buf[start..end]) <= end
  {
    b := start;
    while buf[b] != NUL && IsSpace(buf[b])
      invariant start <= b <= end
      invariant b + Spaces(buf[b..end]) == start + Spaces(buf[start..end])
      decreases end - b
    {
      assert buf[b..end][1..] == buf[b + 1..end];
      b := b + 1;
    }
    assert b < end ==> buf[b..end][0] == buf[b];
  }

  /** What one call of get_next_arg does to a buffer.  The token found is a C string
      that lies before `rest`; the text from `rest` on and everything before the
      token are as they were. */
  ghost predicate GotArg(before: seq<char>, after: seq<char>, start: nat, end: nat, ret: Option<nat>, rest: nat) {
    && start <= rest <= end < |before| == |after|
    && after[rest..] == before[rest..]
    && var (arg, tail) := NextArg(before[start..end]);
       && before[rest..end] == tail
       && match arg
          case None => ret == None && after == before
          case Some(token) =>
            && ret.Some? && start <= ret.value && ret.value + |token| <= rest
            && ReadsAs(after, ret.value, token) && after[..ret.value] == before[..ret.value]
  }

  /** A C string at an index of a buffer. */
  predicate ReadsAs(buf: seq<char>, at: nat, token: seq<char>) {
    at + |token| < |buf| && buf[at..at + |token|] == token && buf[at + |token|] == NUL && NulFree(token)
  }

  /** get_next_arg. */
  method GetNextArg(buf: array<char>, start: nat, ghost end: nat) returns (ret: Option<nat>, rest: nat)
    requires TextAt(buf, start, end)
    modifies buf
    ensures GotArg(old(buf[..]), buf[..], start, end, ret, rest) && TextAt(buf, rest, end)
  {
    hide NextArg, GotArg;
    var b := SkipSpaces(buf, start, end);
    if buf[b] == NUL || buf[b] == '#' {
      NoArg(buf[..], start, end, b);
      return None, b;
    }
    ret := Some(b);
    rest := CopyToken(buf, b, end);
    TokenFound(old(buf[..]), buf[..], start, end, b, rest);
  }

  lemma NoArg(text: seq<char>, start: nat, end: nat, b: nat)
    requires start <= b <= end < |text| && b == start + Spaces(text[start..end])
    requires b < end ==> text[b] == '#'
    ensures GotArg(text, text, start, end, None, b)
  {
    assert text[start..end][Spaces(text[start..end])..] == text[b..end];
    hide Spaces;
  }

  lemma TokenFound(before: seq<char>, after: seq<char>, start: nat, end: nat, b: nat, rest: nat)
    requires start <= b < end < |before| == |after| && b == start + Spaces(before[start..end]) && before[b] != '#'
    requires var (token, r) := ScanAt(before, b, end, NUL);
             && rest == r && b + |token| <= rest <= end && after[b + |token|] == NUL
             && forall i :: 0 <= i < |token| ==> after[b + i] == token[i] != NUL
    requires forall i :: 0 <= i < |after| && (i < b || rest <= i) ==> after[i] == before[i]
    ensures GotArg(before, after, start, end, Some(b), rest)
  {
    hide Scan, ScanAt;
    ScanAtIsScan(before, b, end, NUL);
    assert before[start..end][Spaces(before[start..end])..] == before[b..end];
    hide Spaces;
    var token := ScanAt(before, b, end, NUL).0;
    assert after[b..b + |token|] == token;
    assert after[rest..] == before[rest..];
    assert after[..b] == before[..b];
  }

  /** Copies the character at b, or the one it escapes, and steps past it. */
  method CopyChar(buf: array<char>, b: nat, write: nat) returns (next: nat)
    requires write <= b && b + 1 < buf.Length
    modifies buf
    ensures next == (if old(buf[b]) == '\\' && old(buf[b + 1]) != NUL then b + 2 else b + 1)
    ensures buf[write] == old(buf[next - 1])
    ensures forall i :: 0 <= i < buf.Length && i != write ==> buf[i] == old(buf[i])
  {
    next := b;
    if buf[next] == '\\' && buf[next + 1] != NUL {
      next := next + 1;
    }
    buf[write] := buf[next];
    next := next + 1;
  }

  /** The scan by position: the token, and where the text after it starts. */
  function ScanAt(text: seq<char>, b: nat, end: nat, quote: char): (res: (seq<char>, nat))
    requires b <= end <= |text|
    ensures b + |res.0| <= res.1 <= end
    decreases end - b
  {
    if b == end then ([], b)
    else if quote != NUL && text[b] == quote then ScanAt(text, b + 1, end, NUL)
    else if quote == NUL && IsQuote(text[b]) then ScanAt(text, b + 1, end, text[b])
    else if quote == NUL && IsSpace(text[b]) then ([], b + 1)
    else
      var c := if text[b] == '\\' && b + 1 < end then b + 1 else b;
      var (token, rest) := ScanAt(text, c + 1, end, quote);
      ([text[c]] + token, rest)
  }

  lemma {:induction false} ScanAtIsScan(text: seq<char>, b: nat, end: nat, quote: char)
    requires b <= end <= |text|
    ensures var (token, rest) := ScanAt(text, b, end, quote);
            Scan(text[b..end], quote) == (token, text[rest..end])
    decreases end - b
  {
    hide IsQuote, IsSpace;
    if b < end {
      assert text[b..end][1..] == text[b + 1..end];
      if quote != NUL && text[b] == quote {
        ScanAtIsScan(text, b + 1, end, NUL);
      } else if quote == NUL && IsQuote(text[b]) {
        ScanAtIsScan(text, b + 1, end, text[b]);
      } else if quote == NUL && IsSpace(text[b]) {
      } else if text[b] == '\\' && b + 1 < end {
        assert text[b..end][2..] == text[b + 2..end];
        ScanAtIsScan(text, b + 2, end, quote);
      } else {
        ScanAtIsScan(text, b + 1, end, quote);
      }
    }
  }

  /** `part` is what is left of `all` after n characters. */
  predicate Remains(all: seq<char>, n: nat, part: seq<char>) {
    n + |part| == |all| && all[n..] == part
  }

  lemma RemainsStep(all: seq<char>, n: nat, c: char, part: seq<char>)
    requires Remains(all, n, [c] + part)
    ensures n < |all| && all[n] == c && Remains(all, n + 1, part)
  {
    assert all[n] == all[n..][0];
    assert all[n + 1..] == all[n..][1..] == part;
  }

  lemma RemainsAll(all: seq<char>)
    ensures Remains(all, 0, all)
  {
  }

  lemma RemainsLength(all: seq<char>, n: nat, part: seq<char>)
    requires Remains(all, n, part)
    ensures n + |part| == |all|
  {
  }

  lemma ScanAtStep(text: seq<char>, b: nat, end: nat, quote: char)
    requires b <= end <= |text|
    ensures ScanAt(text, b, end, quote) ==
            if b == end then ([], b)
            else if quote != NUL && text[b] == quote then ScanAt(text, b + 1, end, NUL)
            else if quote == NUL && IsQuote(text[b]) then ScanAt(text, b + 1, end, text[b])
            else if quote == NUL && IsSpace(text[b]) then ([], b + 1)
            else
              var c := if text[b] == '\\' && b + 1 < end then b + 1 else b;
              ([text[c]] + ScanAt(text, c + 1, end, quote).0, ScanAt(text, c + 1, end, quote).1)
  {
  }

  /** The second loop: the token at `first` is compacted as it is read. */
  method CopyToken(buf: array<char>, first: nat, ghost end: nat) returns (b: nat)
    requires TextAt(buf, first, end) && first < end
    modifies buf
    ensures var (token, rest) := ScanAt(old(buf[..]), first, end, NUL);
            && b == rest && first + |token| <= b <= end && buf[first + |token|] == NUL
            && forall i :: 0 <= i < |token| ==> buf[first + i] == token[i] != NUL
    ensures forall i :: 0 <= i < buf.Length && (i < first || b <= i) ==> buf[i] == old(buf[i])
  {
    hide IsQuote, IsSpace, ScanAt, Remains;
    ghost var text := buf[..];
    ghost var (token, rest) := ScanAt(text, first, end, NUL);
    b := first;
    var write, quote := first, NUL;
    ghost var ended := false;
    RemainsAll(token);
    while buf[b] != NUL
      invariant !ended && first <= write <= b <= end && write <= first + |token|
      invariant forall i :: 0 <= i < buf.Length && (i < first || b <= i) ==> buf[i] == text[i]
      invariant forall i :: 0 <= i < write - first ==> buf[first + i] == token[i] != NUL
      invariant rest == ScanAt(text, b, end, quote).1
      invariant Remains(token, write - first, ScanAt(text, b, end, quote).0)
      decreases end - b
    {
      ScanAtStep(text, b, end, quote);
      if quote != NUL && buf[b] == quote {
        quote := NUL;
        b := b + 1;
      } else if quote == NUL && IsQuote(buf[b]) {
        quote := buf[b];
        b := b + 1;
      } else if quote == NUL && IsSpace(buf[b]) {
        b := b + 1;
        ended := true;
        RemainsLength(token, write - first, []);
        break;
      } else {
        ghost var c := if text[b] == '\\' && b + 1 < end then b + 1 else b;
        RemainsStep(token, write - first, text[c], ScanAt(text, c + 1, end, quote).0);
        b := CopyChar(buf, b, write);
        write := write + 1;
      }
    }
    if !ended {
      ScanAtStep(text, b, end, quote);
      RemainsLength(token, write - first, []);
    }
    buf[write] := NUL;
  }

  /** The two calls read_config makes for each line: the value is read without
      disturbing the key. */
  method ParseLine(buf: array<char>, ghost end: nat) returns (key: Option<nat>, value: Option<nat>)
    requires TextAt(buf, 0, end)
    modifies buf
    ensures var (k, rest) := NextArg(old(buf[..end]));
            var v := NextArg(rest).0;
            && (if k.Some? then key.Some? && ReadsAs(buf[..], key.value, k.value) else key == None)
            && (if v.Some? then value.Some? && ReadsAs(buf[..], value.value, v.value) else value == None)
  {
    var rest;
    key, rest := GetNextArg(buf, 0, end);
    ghost var between := buf[..];
    ghost var next := rest;
    value, rest := GetNextArg(buf, rest, end);
    KeyStands(old(buf[..]), between, buf[..], end, key, next, value, rest);
  }

  lemma KeyStands(before: seq<char>, between: seq<char>, after: seq<char>, end: nat,
                  key: Option<nat>, next: nat, value: Option<nat>, rest: nat)
    requires GotArg(before, between, 0, end, key, next) && GotArg(between, after, next, end, value, rest)
    requires forall i :: 0 <= i < end ==> before[i] != NUL
    ensures var (k, tail) := NextArg(before[..end]);
            var v := NextArg(tail).0;
            && (if k.Some? then key.Some? && ReadsAs(after, key.value, k.value) else key == None)
            && (if v.Some? then value.Some? && ReadsAs(after, value.value, v.value) else value == None)
  {
    hide NextArg;
    assert before[0..end] == before[..end];
    var (k, tail) := NextArg(before[..end]);
    assert between[next..end] == between[next..][..end - next]
        == before[next..][..end - next] == before[next..end] == tail;
    if k.Some? && value.Some? {
      NothingLeft();
      assert next < end;
      assert between[next] == between[next..][0] == before[next..][0] == before[next];
      StringStands(between, after, key.value, k.value, value.value);
    }
  }

  lemma NothingLeft()
    ensures NextArg([]) == (None, [])
  {
  }

  /** A C string stands if nothing up to and including its NUL changes. */
  lemma StringStands(before: seq<char>, after: seq<char>, at: nat, token: seq<char>, n: nat)
    requires ReadsAs(before, at, token) && |after| == |before| && n <= |before| && after[..n] == before[..n]
    requires at + |token| < n || after == before
    ensures ReadsAs(after, at, token)
  {
    if at + |token| < n {
      assert after[at..at + |token|] == after[..n][at..at + |token|] == before[..n][at..at + |token|];
      assert after[at + |token|] == after[..n][at + |token|] == before[..n][at + |token|];
    }
  }

  // --------------------------------------------------------------- repeated calls

  function NonEmpty(tokens: seq<seq<char>>): seq<seq<char>> {
    if tokens == [] then [] else (if tokens[0] == [] then [] else [tokens[0]]) + NonEmpty(tokens[1..])
  }

  /** The strings found so far, all of them clear of the text still to be read. */
  ghost predicate Held(buf: seq<char>, args: seq<nat>, tokens: seq<seq<char>>, rest: nat, end: nat) {
    && |args| == |tokens| && rest <= end < |buf|
    && forall i :: 0 <= i < |args| ==>
         ReadsAs(buf, args[i], tokens[i]) && (args[i] + |tokens[i]| < rest || rest == end)
  }

  lemma HeldStep(before: seq<char>, after: seq<char>, args: seq<nat>, tokens: seq<seq<char>>,
                 start: nat, end: nat, ret: Option<nat>, rest: nat)
    requires Held(before, args, tokens, start, end) && GotArg(before, after, start, end, ret, rest)
    requires rest < end ==> after[rest] != NUL
    ensures Held(after, args, tokens, rest, end)
    ensures ret.Some? ==>
            var token := NextArg(before[start..end]).0;
            token.Some? && Held(after, args + [ret.value], tokens + [token.value], rest, end)
  {
    hide NextArg;
    forall i | 0 <= i < |args|
      ensures ReadsAs(after, args[i], tokens[i]) && (args[i] + |tokens[i]| < rest || rest == end)
    {
      if ret.Some? {
        NothingLeft();
        assert before[start..start] == [];
        StringStands(before, after, args[i], tokens[i], ret.value);
      }
    }
    if ret.Some? && rest < end {
      var token := NextArg(before[start..end]).0.value;
      assert after[ret.value + |token|] == NUL;
    }
  }

  lemma ArgsStep(s: seq<char>)
    ensures var (arg, rest) := NextArg(s);
            Args(s) == match arg case None => [] case Some(token) => [token] + Args(rest)
  {
  }

  lemma NonEmptyStep(token: seq<char>, tokens: seq<seq<char>>)
    ensures NonEmpty([token] + tokens) == (if token == [] then [] else [token]) + NonEmpty(tokens)
  {
    assert ([token] + tokens)[1..] == tokens;
  }

  /** The strings found so far are the first of `all`; the rest of `all` is still to be read. */
  ghost predicate SplitSoFar(all: seq<seq<char>>, buf: seq<char>, args: seq<nat>, rest: nat, end: nat, more: bool) {
    && |args| <= |all| && Held(buf, args, all[..|args|], rest, end)
    && all[|args|..] == if more then NonEmpty(Args(buf[rest..end])) else []
  }

  lemma SplitStep(all: seq<seq<char>>, before: seq<char>, after: seq<char>, args: seq<nat>,
                  start: nat, end: nat, ret: Option<nat>, rest: nat)
    requires SplitSoFar(all, before, args, start, end, true) && GotArg(before, after, start, end, ret, rest)
    requires rest < end ==> after[rest] != NUL
    ensures ret.None? ==> SplitSoFar(all, after, args, rest, end, false)
    ensures ret.Some? ==>
            && start < rest && ret.value < |after|
            && SplitSoFar(all, after, if after[ret.value] != NUL then args + [ret.value] else args, rest, end, true)
  {
    hide NextArg, Args, NonEmpty, ReadsAs, GotArg, Held;
    assert Held(before, args, all[..|args|], start, end);
    HeldStep(before, after, args, all[..|args|], start, end, ret, rest);
    HeldLength(before, args, all[..|args|], start, end);
    HeldLength(after, args, all[..|args|], rest, end);
    GotArgFacts(before, after, start, end, ret, rest);
    ArgsStep(before[start..end]);
    match ret {
      case None =>
        NonEmptyOfNothing();
      case Some(at) =>
        var token := NextArg(before[start..end]).0.value;
        NonEmptyStep(token, Args(after[rest..end]));
        if token != [] {
          assert all[|args|..][0] == token;
          assert all[|args| + 1..] == all[|args|..][1..] == NonEmpty(Args(after[rest..end]));
          assert all[..|args| + 1] == all[..|args|] + [token];
        }
    }
  }

  lemma HeldLength(buf: seq<char>, args: seq<nat>, tokens: seq<seq<char>>, rest: nat, end: nat)
    requires Held(buf, args, tokens, rest, end)
    ensures rest <= end < |buf|
  {
  }

  /** A line split by repeated calls, as the command shell does it: every non-empty
      token of the line, each still intact at the end. */
  method SplitLine(buf: array<char>, end: nat) returns (args: seq<nat>)
    requires TextAt(buf, 0, end)
    modifies buf
    ensures var tokens := NonEmpty(Args(old(buf[0..end])));
            |args| == |tokens| && forall i :: 0 <= i < |args| ==> ReadsAs(buf[..], args[i], tokens[i])
  {
    ghost var all := NonEmpty(Args(buf[0..end]));
    var rest: nat, more := 0, true;
    args := [];
    SplitStart(buf[..], end);
    while more
      invariant rest <= end && TextAt(buf, rest, end)
      invariant SplitSoFar(all, buf[..], args, rest, end, more)
      decreases more, end - rest
    {
      hide NextArg, Args, NonEmpty, ReadsAs, GotArg, SplitSoFar, Held;
      ghost var before := buf[..];
      var start := rest;
      var arg;
      arg, rest := GetNextArg(buf, start, end);
      SplitStep(all, before, buf[..], args, start, end, arg, rest);
      match arg {
        case None => more := false;
        case Some(at) => if buf[at] != NUL { args := args + [at]; }
      }
    }
    assert all[..|args|] == all;
  }

  lemma SplitStart(buf: seq<char>, end: nat)
    requires end < |buf|
    ensures SplitSoFar(NonEmpty(Args(buf[0..end])), buf, [], 0, end, true)
  {
  }

  lemma NonEmptyOfNothing()
    ensures NonEmpty([]) == []
  {
  }

  lemma GotArgFacts(before: seq<char>, after: seq<char>, start: nat, end: nat, ret: Option<nat>, rest: nat)
    requires GotArg(before, after, start, end, ret, rest)
    ensures var (arg, tail) := NextArg(before[start..end]);
            && after[rest..end] == tail && (ret.None? <==> arg.None?)
            && (arg.Some? ==> start < rest && ret.value < |after| && (after[ret.value] != NUL <==> arg.value != []))
  {
    assert after[rest..end] == after[rest..][..end - rest] == before[rest..][..end - rest] == before[rest..end];
    if ret.Some? {
      var token := NextArg(before[start..end]).0.value;
      hide NextArg;
      if token != [] {
        assert after[ret.value] == after[ret.value..ret.value + |token|][0] == token[0];
      }
    }
  }

  // ------------------------------------------------------------------- quoting

  /** What a backslash is put before: itself, and the closing quote, or outside quotes
      whatever would end or begin something. */
  predicate IsSpecial(c: char, quote: char) {
    || c == '\\' || c == quote
    || (quote == NUL && (c == '"' || c == '\'' || c == '#' || c as int in {9, 10, 11, 12, 13, 32}))
  }

  function EscapeChar(c: char, quote: char): (e: seq<char>)
    ensures e != []
  {
    if IsSpecial(c, quote) then ['\\', c] else [c]
  }

  function Escape(t: seq<char>, quote: char): seq<char> {
    if t == [] then [] else EscapeChar(t[0], quote) + Escape(t[1..], quote)
  }

  /** A token as it may be written: with white space before it, in quotes of either kind,
      or with NUL for `quote`, in none. */
  datatype Word = Word(gap: seq<char>, quote: char, text: seq<char>)

  predicate Writable(w: Word) {
    && (forall c :: c in w.gap ==> c as int in {9, 10, 11, 12, 13, 32})
    && NulFree(w.text)
    && (w.quote == '"' || w.quote == '\'' || (w.quote == NUL && w.text != []))
  }

  function Closing(quote: char): seq<char> {
    if quote == NUL then [] else [quote]
  }

  function Quoted(w: Word): seq<char> {
    Closing(w.quote) + Escape(w.text, w.quote) + Closing(w.quote)
  }

  /** Where a token ends: at the end of the text or at white space. */
  predicate Ends(tail: seq<char>) {
    tail == [] || tail[0] as int in {9, 10, 11, 12, 13, 32}
  }

  predicate IsMark(quote: char) {
    quote == '"' || quote == '\'' || quote == NUL
  }

  /** An escaped character is read as itself. */
  lemma ScanEscapedChar(c: char, quote: char, rest: seq<char>)
    requires c != NUL && IsMark(quote)
    ensures Scan(EscapeChar(c, quote) + rest, quote) == ([c] + Scan(rest, quote).0, Scan(rest, quote).1)
  {
    var s := EscapeChar(c, quote) + rest;
    if IsSpecial(c, quote) {
      assert s[0] == '\\' && s[1] == c && s[2..] == rest;
      ScanPair(s, quote);
    } else {
      assert s[0] == c && s[1..] == rest;
      ScanPlain(s, quote);
    }
  }

  lemma ScanPair(s: seq<char>, quote: char)
    requires |s| > 1 && s[0] == '\\' && IsMark(quote)
    ensures Scan(s, quote) == ([s[1]] + Scan(s[2..], quote).0, Scan(s[2..], quote).1)
  {
  }

  lemma ScanPlain(s: seq<char>, quote: char)
    requires s != [] && s[0] != NUL && !IsSpecial(s[0], quote) && IsMark(quote)
    ensures Scan(s, quote) == ([s[0]] + Scan(s[1..], quote).0, Scan(s[1..], quote).1)
  {
  }

  lemma ScanClosing(quote: char, tail: seq<char>)
    requires Ends(tail) && IsMark(quote)
    ensures Scan(Closing(quote) + tail, quote) == ([], if tail == [] then [] else tail[1..])
  {
    if quote == NUL {
      assert Closing(quote) + tail == tail;
    } else {
      assert (Closing(quote) + tail)[1..] == tail;
    }
  }

  lemma {:induction false} ScanEscaped(t: seq<char>, quote: char, tail: seq<char>)
    requires NulFree(t) && Ends(tail) && IsMark(quote)
    ensures Scan(Escape(t, quote) + (Closing(quote) + tail), quote) == (t, if tail == [] then [] else tail[1..])
  {
    hide Scan, Ends, EscapeChar, Closing;
    var close := Closing(quote) + tail;
    if t == [] {
      ScanClosing(quote, tail);
      assert Escape(t, quote) + close == close;
    } else {
      ScanEscaped(t[1..], quote, tail);
      var rest := Escape(t[1..], quote) + close;
      assert t == [t[0]] + t[1..];
      assert Escape(t, quote) + close == EscapeChar(t[0], quote) + rest;
      ScanEscapedChar(t[0], quote, rest);
    }
  }

  lemma {:induction false} SpacesOf(gap: seq<char>, s: seq<char>)
    requires (forall c :: c in gap ==> c as int in {9, 10, 11, 12, 13, 32}) && (s == [] || !IsSpace(s[0]))
    ensures Spaces(gap + s) == |gap|
  {
    if gap == [] {
      assert gap + s == s;
    } else {
      assert (gap + s)[0] == gap[0] && gap[0] in gap && (gap + s)[1..] == gap[1..] + s;
      assert forall c :: c in gap[1..] ==> c in gap;
      SpacesOf(gap[1..], s);
    }
  }

  /** What a written token begins with. */
  lemma Begins(w: Word, tail: seq<char>)
    requires Writable(w)
    ensures var s := Quoted(w) + tail;
            && s != [] && !IsSpace(s[0]) && s[0] != '#'
            && Scan(s, NUL) == Scan(Escape(w.text, w.quote) + (Closing(w.quote) + tail), w.quote)
  {
    var s, inside := Quoted(w) + tail, Escape(w.text, w.quote) + (Closing(w.quote) + tail);
    if w.quote == NUL {
      assert s == inside && s[0] == EscapeChar(w.text[0], NUL)[0];
    } else {
      assert s[1..] == inside;
    }
  }

  /** Any text without NUL, however written, is read back as itself. */
  lemma WordReadsBack(w: Word, tail: seq<char>)
    requires Writable(w) && Ends(tail)
    ensures NextArg(w.gap + Quoted(w) + tail) == (Some(w.text), if tail == [] then [] else tail[1..])
  {
    var s, t := w.gap + Quoted(w) + tail, Quoted(w) + tail;
    Begins(w, tail);
    ScanEscaped(w.text, w.quote, tail);
    assert s == w.gap + t && s[|w.gap|..] == t;
    SpacesOf(w.gap, t);
    hide Scan, Quoted, Ends, Spaces;
  }

  /** Tokens written one after another; the line may end in a comment. */
  function Line(words: seq<Word>, comment: seq<char>): seq<char>
    decreases |words|, 0
  {
    if words == [] then comment
    else words[0].gap + Quoted(words[0]) + Rest(words[1..], comment)
  }

  function Rest(words: seq<Word>, comment: seq<char>): seq<char>
    decreases |words|, 1
  {
    if words == [] && comment == [] then [] else [' '] + Line(words, comment)
  }

  function Texts(words: seq<Word>): seq<seq<char>> {
    if words == [] then [] else [words[0].text] + Texts(words[1..])
  }

  /** A line so written is read back token by token, and no more. */
  lemma {:induction false} LineReadsBack(words: seq<Word>, comment: seq<char>)
    requires forall w :: w in words ==> Writable(w)
    requires comment == [] || comment[0] == '#'
    ensures Args(Line(words, comment)) == Texts(words)
  {
    if words == [] {
      NothingOnLine(comment);
    } else {
      assert words[0] in words;
      var tail := Rest(words[1..], comment);
      WordReadsBack(words[0], tail);
      LineReadsBack(words[1..], comment);
      hide NextArg, Quoted;
      if tail == [] {
        NothingOnLine(tail);
      } else {
        assert tail[1..] == Line(words[1..], comment);
      }
    }
  }

  lemma NothingOnLine(comment: seq<char>)
    requires comment == [] || comment[0] == '#'
    ensures Args(comment) == []
  {
  }
}
