/** Key strings: concordd_press_keys turns text such as "#1234[2F]" into a
    keypress message.

    `Compile` reads the text token by token, with strtol as the C library
    defines it; method CompileKeys is the loop over a message buffer.  For text
    made of key characters and two-digit brackets the outcome is then given in
    closed form. */
module Keys {
  import opened Bytes
  import opened Framing

  const KEYPRESS: byte := 0x40
  /** Code meaning that a token adds nothing. */
  const NO_CODE: byte := 255
  /** Bit 6, the flag that '!' sets on the key before it. */
  const FLAG := 64

  // ------------------------------------------------------------------- strtol

  predicate IsHexDigit(c: byte) {
    '0' as int <= c <= '9' as int || 'A' as int <= c <= 'F' as int || 'a' as int <= c <= 'f' as int
  }

  function SpaceRun(s: seq<byte>): (n: nat)
    ensures n <= |s|
  {
    if s == [] || !IsSpace(s[0] as char) then 0 else 1 + SpaceRun(s[1..])
  }

  function HexRun(s: seq<byte>): (n: nat)
    ensures n <= |s|
  {
    if s == [] || !IsHexDigit(s[0]) then 0 else 1 + HexRun(s[1..])
  }

  function HexNumber(digits: seq<byte>): nat {
    if digits == [] then 0
    else 16 * HexNumber(digits[..|digits| - 1]) + DigitValue(digits[|digits| - 1])
  }

  /** A long is 64 bits wide and strtol stops at its ends. */
  function ClampLong(v: int): int {
    if v > 0x7FFF_FFFF_FFFF_FFFF then 0x7FFF_FFFF_FFFF_FFFF
    else if v < -0x8000_0000_0000_0000 then -0x8000_0000_0000_0000
    else v
  }

  /** strtol in base 16: the value, and how many characters it took. */
  function Strtol16(s: seq<byte>): (res: (int, nat))
    ensures res.1 <= |s|
  {
    var j := SpaceRun(s);
    var signed := j < |s| && (s[j] == '+' as int || s[j] == '-' as int);
    var k := if signed then j + 1 else j;
    var prefixed := |s| > k + 2 && s[k] == '0' as int && (s[k + 1] == 'x' as int || s[k + 1] == 'X' as int)
                    && IsHexDigit(s[k + 2]);
    var d := if prefixed then k + 2 else k;
    var n := HexRun(s[d..]);
    if n == 0 then (0, 0)
    else
      var v: int := HexNumber(s[d..d + n]);
      (ClampLong(if signed && s[j] == '-' as int then -v else v), d + n)
  }

  // ------------------------------------------------------------------- tokens

  predicate IsKey(c: byte) {
    || '0' as int <= c <= '9' as int || c == '*' as int || c == '#' as int
    || 'A' as int <= c <= 'F' as int || 'a' as int <= c <= 'f' as int
  }

  function KeyCode(c: byte): byte
    requires IsKey(c)
  {
    if '0' as int <= c <= '9' as int then c - '0' as int
    else if c == '*' as int then 0x0A
    else if c == '#' as int then 0x0B
    else match DigitValue(c)
      case 10 => 0x2C
      case 11 => 0x30
      case 12 => 0x2D
      case 13 => 0x33
      case 14 => 0x2E
      case _ => 0x36
  }

  /** One token: its code, whether it flags the key before it, its length. */
  datatype Token = Token(code: byte, flags: bool, length: nat)

  /** The token a text starts with; None if it is malformed. */
  function Lex(s: seq<byte>): (token: Option<Token>)
    requires s != []
    ensures token.Some? ==> 1 <= token.value.length <= |s|
  {
    var c := s[0];
    if IsKey(c) then Some(Token(KeyCode(c), false, 1))
    else if c == '[' as int || c == '!' as int then
      if |s| == 1 then Some(Token(NO_CODE, c == '!' as int, 1))
      else
        var (value, n) := Strtol16(s[1..]);
        if 1 + n < |s| && s[1 + n] == ']' as int then Some(Token(value % 256, c == '!' as int, n + 2)) else None
    else None
  }

  function SetFlag(code: byte): byte {
    if (code / FLAG) % 2 == 1 then code else code + FLAG
  }

  /** The message so far with one more token. */
  function Put(msg: seq<byte>, token: Token): (r: seq<byte>)
    requires msg != []
    ensures |msg| <= |r| <= |msg| + 1
  {
    var n := |msg| - 1;
    var flagged := if token.flags then msg[n := SetFlag(msg[n])] else msg;
    if token.code == NO_CODE then flagged else flagged + [token.code]
  }

  function Header(partition: byte): seq<byte> {
    [KEYPRESS, partition, 0]
  }

  /** The rest of the message, or None if a malformed token is reached before the
      message is full. */
  function Compile(msg: seq<byte>, s: seq<byte>): (r: Option<seq<byte>>)
    requires 1 <= |msg| <= MAX_MESSAGE_SIZE
    ensures r.Some? ==> |msg| <= |r.value| <= MAX_MESSAGE_SIZE
    decreases |s|
  {
    if s == [] || |msg| == MAX_MESSAGE_SIZE then Some(msg)
    else match Lex(s)
      case None => None
      case Some(token) => Compile(Put(msg, token), s[token.length..])
  }

  /** A character adds at most one code. */
  lemma {:induction false} CompileIsShort(msg: seq<byte>, s: seq<byte>)
    requires 1 <= |msg| <= MAX_MESSAGE_SIZE
    ensures Compile(msg, s).Some? ==> |Compile(msg, s).value| <= |msg| + |s|
    decreases |s|
  {
    hide Lex, Put;
    if s != [] && |msg| < MAX_MESSAGE_SIZE && Lex(s).Some? {
      var token := Lex(s).value;
      CompileIsShort(Put(msg, token), s[token.length..]);
    }
  }

  /** The loop of concordd_press_keys; `keys` is the text before the NUL. */
  method CompileKeys(partition: byte, keys: seq<byte>) returns (r: Option<seq<byte>>)
    ensures r == Compile(Header(partition), keys)
  {
    hide Lex, Strtol16, SetFlag;
    var msg := new byte[MAX_MESSAGE_SIZE](_ => 0);
    msg[0], msg[1] := KEYPRESS, partition;
    var len, i := 3, 0;
    assert msg[..len] == Header(partition);
    while i < |keys| && len < MAX_MESSAGE_SIZE
      invariant 3 <= len <= MAX_MESSAGE_SIZE && i <= |keys|
      invariant Compile(msg[..len], keys[i..]) == Compile(Header(partition), keys)
      decreases |keys| - i
    {
      ghost var before := msg[..len];
      var token := Lex(keys[i..]);
      if token == None {
        return None;
      }
      if token.value.flags {
        msg[len - 1] := SetFlag(msg[len - 1]);
      }
      if token.value.code != NO_CODE {
        msg[len] := token.value.code;
        len := len + 1;
      }
      assert msg[..len] == Put(before, token.value);
      assert keys[i..][token.value.length..] == keys[i + token.value.length..];
      i := i + token.value.length;
    }
    r := Some(msg[..len]);
  }

  // ----------------------------------------------------------------- the grammar

  /** A well-formed token without flags: a key character, or two hex digits in
      brackets. */
  datatype Item = Plain(c: byte) | Bracketed(hi: byte, lo: byte)

  predicate GoodItem(x: Item) {
    match x
    case Plain(c) => IsKey(c)
    case Bracketed(hi, lo) => IsHexDigit(hi) && IsHexDigit(lo)
  }

  function Text(x: Item): (s: seq<byte>)
    ensures s != []
  {
    match x
    case Plain(c) => [c]
    case Bracketed(hi, lo) => ['[' as int, hi, lo, ']' as int]
  }

  function CodeOf(x: Item): byte
    requires GoodItem(x)
  {
    match x
    case Plain(c) => KeyCode(c)
    case Bracketed(hi, lo) => PairValue(hi, lo)
  }

  function Print(items: seq<Item>): seq<byte> {
    if items == [] then [] else Text(items[0]) + Print(items[1..])
  }

  /** The codes of the items; [FF] adds none. */
  function CodesOf(items: seq<Item>): seq<byte>
    requires forall x :: x in items ==> GoodItem(x)
  {
    if items == [] then []
    else (if CodeOf(items[0]) == NO_CODE then [] else [CodeOf(items[0])]) + CodesOf(items[1..])
  }

  predicate Malformed(s: seq<byte>) {
    s != [] && Lex(s) == None
  }

  function Shorter(a: nat, b: nat): nat {
    if a < b then a else b
  }

  lemma LexItem(x: Item, rest: seq<byte>)
    requires GoodItem(x)
    ensures Lex(Text(x) + rest) == Some(Token(CodeOf(x), false, |Text(x)|))
  {
    hide Strtol16, PairValue;
    if x.Bracketed? {
      var s := (Text(x) + rest)[1..];
      assert s == [x.hi, x.lo] + ([']' as int] + rest);
      TwoDigits(x.hi, x.lo, rest);
    }
  }

  lemma TwoDigits(hi: byte, lo: byte, rest: seq<byte>)
    requires IsHexDigit(hi) && IsHexDigit(lo)
    ensures Strtol16([hi, lo] + ([']' as int] + rest)) == (PairValue(hi, lo), 2)
  {
    var s := [hi, lo] + ([']' as int] + rest);
    assert s[0] == hi && s[1] == lo && s[2] == ']' as int;
    assert HexRun(s[2..]) == 0;
    assert s[1..][1..] == s[2..];
    assert HexRun(s[1..]) == 1;
    assert s[0..] == s && HexRun(s) == 2;
    assert s[0..2] == [hi, lo];
    assert [hi, lo][..1] == [hi] && [hi][..0] == [];
    assert HexNumber([hi]) == DigitValue(hi);
  }

  /** The message with as many of the codes as fit. */
  function Filled(msg: seq<byte>, codes: seq<byte>): seq<byte>
    requires |msg| <= MAX_MESSAGE_SIZE
  {
    msg + codes[..Shorter(|codes|, MAX_MESSAGE_SIZE - |msg|)]
  }

  lemma FilledStep(msg: seq<byte>, code: byte, codes: seq<byte>)
    requires |msg| < MAX_MESSAGE_SIZE
    ensures Filled(msg + [code], codes) == Filled(msg, [code] + codes)
  {
  }

  lemma CodesOfSplit(items: seq<Item>)
    requires items != [] && forall x :: x in items ==> GoodItem(x)
    ensures var rest := CodesOf(items[1..]);
            CodesOf(items) == if CodeOf(items[0]) == NO_CODE then rest else [CodeOf(items[0])] + rest
  {
  }

  /** Reading well-formed items and then `tail`: the message is cut off at 56
      bytes, and the tail counts only if there is room left. */
  lemma {:induction false} CompileItems(msg: seq<byte>, items: seq<Item>, tail: seq<byte>)
    requires 1 <= |msg| <= MAX_MESSAGE_SIZE
    requires forall x :: x in items ==> GoodItem(x)
    requires tail == [] || Malformed(tail)
    ensures Compile(msg, Print(items) + tail)
         == if |msg| + |CodesOf(items)| < MAX_MESSAGE_SIZE && tail != [] then None
            else Some(Filled(msg, CodesOf(items)))
    decreases items
  {
    hide Lex, CodeOf, Text;
    if items == [] {
      assert Print(items) + tail == tail && Filled(msg, []) == msg;
    } else if |msg| < MAX_MESSAGE_SIZE {
      hide CodesOf, Filled, Malformed;
      var x, rest := items[0], Print(items[1..]) + tail;
      var s := Print(items) + tail;
      assert s == Text(x) + rest;
      LexItem(x, rest);
      assert s[|Text(x)|..] == rest;
      var msg' := Put(msg, Token(CodeOf(x), false, |Text(x)|));
      assert Compile(msg, s) == Compile(msg', rest);
      CompileItems(msg', items[1..], tail);
      CodesOfSplit(items);
      FilledStep(msg, CodeOf(x), CodesOf(items[1..]));
    } else {
      assert Filled(msg, CodesOf(items)) == msg;
    }
  }

  /** At most 53 codes fit; pressing fails exactly when a malformed token comes
      before that many. */
  lemma PressKeysGrammar(partition: byte, items: seq<Item>, tail: seq<byte>)
    requires forall x :: x in items ==> GoodItem(x)
    requires tail == [] || Malformed(tail)
    ensures var codes := CodesOf(items);
            var r := Compile(Header(partition), Print(items) + tail);
            && (r == None <==> tail != [] && |codes| < 53)
            && (r.Some? ==> r.value == Header(partition) + codes[..Shorter(|codes|, 53)])
  {
    CompileItems(Header(partition), items, tail);
  }

  /** Bracketed text for a list of codes. */
  function Brackets(codes: seq<byte>): (items: seq<Item>)
    ensures |items| == |codes|
    ensures forall i :: 0 <= i < |codes| ==>
            items[i] == Bracketed(HexDigit(codes[i] / 16), HexDigit(codes[i] % 16))
  {
    seq(|codes|, i requires 0 <= i < |codes| => Bracketed(HexDigit(codes[i] / 16), HexDigit(codes[i] % 16)))
  }

  lemma {:induction false} BracketsMean(codes: seq<byte>)
    requires NO_CODE !in codes
    ensures forall x :: x in Brackets(codes) ==> GoodItem(x)
    ensures CodesOf(Brackets(codes)) == codes
  {
    forall x | x in Brackets(codes) ensures GoodItem(x) {
    }
    if codes != [] {
      BracketsMean(codes[1..]);
      assert codes[0] in codes;
      DigitPair(codes[0]);
      assert Brackets(codes)[1..] == Brackets(codes[1..]);
      assert codes == [codes[0]] + codes[1..];
    }
  }

  /** Printing codes in brackets and pressing the text gives back the codes. */
  lemma PrintedCodesRoundTrip(partition: byte, codes: seq<byte>)
    requires |codes| <= 53 && NO_CODE !in codes
    ensures Compile(Header(partition), Print(Brackets(codes))) == Some(Header(partition) + codes)
  {
    BracketsMean(codes);
    PressKeysGrammar(partition, Brackets(codes), []);
    assert Print(Brackets(codes)) + [] == Print(Brackets(codes));
    assert codes[..|codes|] == codes;
  }

  // ------------------------------------------------------- numbers in brackets

  predicate AllHex(digits: seq<byte>) {
    forall c :: c in digits ==> IsHexDigit(c)
  }

  lemma {:induction false} HexRunOf(digits: seq<byte>, rest: seq<byte>)
    requires AllHex(digits) && rest != [] && rest[0] == ']' as int
    ensures HexRun(digits + rest) == |digits|
  {
    if digits == [] {
      assert digits + rest == rest;
    } else {
      assert (digits + rest)[0] == digits[0] && (digits + rest)[1..] == digits[1..] + rest;
      assert digits[0] in digits && forall c :: c in digits[1..] ==> c in digits;
      HexRunOf(digits[1..], rest);
    }
  }

  lemma {:induction false} SpaceRunOf(gap: seq<byte>, rest: seq<byte>)
    requires (forall c :: c in gap ==> c in {9, 10, 11, 12, 13, 32}) && rest != [] && !IsSpace(rest[0] as char)
    ensures SpaceRun(gap + rest) == |gap|
  {
    if gap == [] {
      assert gap + rest == rest;
    } else {
      assert (gap + rest)[0] == gap[0] && (gap + rest)[1..] == gap[1..] + rest;
      assert gap[0] in gap && forall c :: c in gap[1..] ==> c in gap;
      SpaceRunOf(gap[1..], rest);
    }
  }

  /** A sign, and the prefix of hexadecimal numbers. */
  function Sign(sign: int): seq<byte> {
    if sign > 0 then ['+' as int] else if sign < 0 then ['-' as int] else []
  }

  function Prefix(prefixed: bool): seq<byte> {
    if prefixed then ['0' as int, 'x' as int] else []
  }

  function Signed(sign: int, digits: seq<byte>): int {
    var value: int := HexNumber(digits);
    if sign < 0 then -value else value
  }

  lemma StrtolAt(s: seq<byte>, j: nat, sign: int, prefixed: bool, n: nat)
    requires SpaceRun(s) == j && n > 0
    requires var k := j + |Sign(sign)|;
             var d := k + |Prefix(prefixed)|;
             && d + n < |s| && HexRun(s[d..]) == n
             && (if sign != 0 then s[j] == Sign(sign)[0] else s[j] != '+' as int && s[j] != '-' as int)
             && (if prefixed then s[k] == '0' as int && s[k + 1] == 'x' as int && IsHexDigit(s[k + 2])
                 else s[k + 1] != 'x' as int && s[k + 1] != 'X' as int)
    ensures var d := j + |Sign(sign)| + |Prefix(prefixed)|;
            Strtol16(s) == (ClampLong(Signed(sign, s[d..d + n])), d + n)
  {
    hide HexRun, SpaceRun, HexNumber, ClampLong, IsHexDigit;
    var k := j + |Sign(sign)|;
    var d := k + |Prefix(prefixed)|;
    assert (s[j] == '+' as int || s[j] == '-' as int) <==> sign != 0;
    assert s[j] == '-' as int <==> sign < 0;
    assert |Sign(sign)| == (if sign != 0 then 1 else 0) && |Prefix(prefixed)| == (if prefixed then 2 else 0);
    hide Sign, Prefix;
    assert Strtol16(s).1 == d + n;
  }

  /** A number as strtol takes it: the parts one after another. */
  lemma NumberRead(gap: seq<byte>, sign: int, prefixed: bool, digits: seq<byte>, rest: seq<byte>)
    requires forall c :: c in gap ==> c in {9, 10, 11, 12, 13, 32}
    requires digits != [] && AllHex(digits) && rest != [] && rest[0] == ']' as int
    ensures var before := gap + Sign(sign) + Prefix(prefixed);
            Strtol16(before + digits + rest) == (ClampLong(Signed(sign, digits)), |before| + |digits|)
  {
    hide Strtol16, HexRun, SpaceRun, HexNumber, ClampLong, Signed;
    var before := gap + Sign(sign) + Prefix(prefixed);
    var s := before + digits + rest;
    var j, d := |gap|, |before|;
    var k := j + |Sign(sign)|;
    HexRunOf(digits, rest);
    assert s[d..] == digits + rest && s[d..d + |digits|] == digits;
    assert digits[0] in digits && s[d] == digits[0];
    Spaced(gap, sign, prefixed, digits, rest);
    if sign != 0 {
      assert s[j] == Sign(sign)[0];
    }
    if prefixed {
      assert s[k] == '0' as int && s[k + 1] == 'x' as int;
    } else {
      assert k == d && s[k + 1] == if |digits| > 1 then digits[1] else rest[0];
      assert |digits| > 1 ==> digits[1] in digits;
    }
    StrtolAt(s, j, sign, prefixed, |digits|);
  }

  lemma Spaced(gap: seq<byte>, sign: int, prefixed: bool, digits: seq<byte>, rest: seq<byte>)
    requires forall c :: c in gap ==> c in {9, 10, 11, 12, 13, 32}
    requires digits != [] && AllHex(digits)
    ensures SpaceRun(gap + Sign(sign) + Prefix(prefixed) + digits + rest) == |gap|
  {
    var number := Sign(sign) + Prefix(prefixed) + digits + rest;
    assert digits[0] in digits;
    SpaceRunOf(gap, number);
    assert gap + number == gap + Sign(sign) + Prefix(prefixed) + digits + rest;
  }

  /** What stands in brackets is a hexadecimal number of any length, with white space, a
      sign and a prefix if need be; its low byte is the code. */
  lemma BracketReads(gap: seq<byte>, sign: int, prefixed: bool, digits: seq<byte>, rest: seq<byte>)
    requires forall c :: c in gap ==> c in {9, 10, 11, 12, 13, 32}
    requires digits != [] && AllHex(digits)
    ensures var inside := gap + Sign(sign) + Prefix(prefixed) + digits;
            Lex(['[' as int] + (inside + ([']' as int] + rest)))
            == Some(Token(ClampLong(Signed(sign, digits)) % 256, false, |inside| + 2))
  {
    hide *;
    var tail := [']' as int] + rest;
    var inside := gap + Sign(sign) + Prefix(prefixed) + digits;
    NumberRead(gap, sign, prefixed, digits, tail);
    InsideBracket(inside, rest);
    LexBracket(['[' as int] + (inside + tail), ClampLong(Signed(sign, digits)), |inside|);
  }

  lemma InsideBracket(inside: seq<byte>, rest: seq<byte>)
    ensures var tail := [']' as int] + rest;
            var s := ['[' as int] + (inside + tail);
            s[0] == '[' as int && s[1..] == inside + tail && s[1 + |inside|] == ']' as int
  {
  }

  lemma LexBracket(s: seq<byte>, value: int, n: nat)
    requires 1 + n < |s| && s[0] == '[' as int && Strtol16(s[1..]) == (value, n) && s[1 + n] == ']' as int
    ensures Lex(s) == Some(Token(value % 256, false, n + 2))
  {
    hide Strtol16;
  }

  /** Empty brackets are code 0. */
  lemma EmptyBracket(rest: seq<byte>)
    ensures Lex(['[' as int, ']' as int] + rest) == Some(Token(0, false, 2))
  {
    var s := ['[' as int, ']' as int] + rest;
    assert s[1..] == [']' as int] + rest && s[1..][0..] == s[1..];
    assert SpaceRun(s[1..]) == 0 && HexRun(s[1..]) == 0;
  }

  // ------------------------------------------------------------------ by number

  const KEYS := "0123456789*#ABCDEFabcdef"
  const CODES: seq<byte> :=
    [0, 1, 2, 3, 4, 5, 6, 7, 8, 9, 0x0A, 0x0B, 0x2C, 0x30, 0x2D, 0x33, 0x2E, 0x36, 0x2C, 0x30, 0x2D, 0x33, 0x2E, 0x36]

  lemma KeysByNumber(k: nat)
    requires k < 24
    ensures KEYS[k] as int < 256 && IsKey(KEYS[k] as int) && KeyCode(KEYS[k] as int) == CODES[k] < 64
  {
  }

  lemma OnlyKeys(c: byte)
    ensures IsKey(c) <==> c as char in KEYS
  {
    if IsKey(c) {
      var k := if c < 42 then 11 else if c == 42 then 10 else if c < 65 then c - 48
               else if c < 97 then c - 53 else c - 79;
      assert KEYS[k] == c as char;
    }
  }

  /** Each key, pressed alone or with the flag behind it, at the end of the text or before
      a code in brackets that lost its first. */
  lemma KeyTable(partition: byte, k: nat, code: byte)
    requires k < 24 && code != 255
    ensures KEYS[k] as int < 256
    ensures var c: byte := KEYS[k] as int;
            && Compile(Header(partition), [c]) == Some([0x40, partition, 0, CODES[k]])
            && Compile(Header(partition), [c, '!' as int]) == Some([0x40, partition, 0, CODES[k] + 64])
            && Compile(Header(partition), [c, '!' as int, HexDigit(code / 16), HexDigit(code % 16), ']' as int])
               == Some([0x40, partition, 0, CODES[k] + 64, code])
  {
    KeysByNumber(k);
    hide *;
    KeyPressed(partition, KEYS[k] as int);
    KeyFlagged(partition, KEYS[k] as int, code);
  }

  lemma KeyPressed(partition: byte, c: byte)
    requires IsKey(c) && KeyCode(c) < 64
    ensures Compile(Header(partition), [c]) == Some([0x40, partition, 0, KeyCode(c)])
    ensures Compile(Header(partition), [c, '!' as int]) == Some([0x40, partition, 0, KeyCode(c) + 64])
  {
    hide Compile, KeyCode, IsKey;
    var msg, shift := [0x40, partition, 0, KeyCode(c)], ['!' as int];
    KeyThen(partition, c, []);
    KeyThen(partition, c, shift);
    assert [c] + [] == [c] && [c] + shift == [c, '!' as int];
    FlagEnds(msg);
    assert msg[3 := KeyCode(c) + 64] == [0x40, partition, 0, KeyCode(c) + 64];
  }

  lemma KeyFlagged(partition: byte, c: byte, code: byte)
    requires IsKey(c) && KeyCode(c) < 64 && code != 255
    ensures Compile(Header(partition), [c, '!' as int, HexDigit(code / 16), HexDigit(code % 16), ']' as int])
         == Some([0x40, partition, 0, KeyCode(c) + 64, code])
  {
    hide Compile, KeyCode, IsKey, HexDigit;
    var msg := [0x40, partition, 0, KeyCode(c)];
    var rest := ['!' as int, HexDigit(code / 16), HexDigit(code % 16), ']' as int];
    KeyThen(partition, c, rest);
    assert [c] + rest == [c, '!' as int, HexDigit(code / 16), HexDigit(code % 16), ']' as int];
    FlagThen(msg, code);
    assert msg[3 := KeyCode(c) + 64] + [code] == [0x40, partition, 0, KeyCode(c) + 64, code];
  }

  lemma KeyThen(partition: byte, c: byte, rest: seq<byte>)
    requires IsKey(c) && KeyCode(c) != NO_CODE
    ensures Compile(Header(partition), [c] + rest) == Compile([0x40, partition, 0, KeyCode(c)], rest)
  {
    var s := [c] + rest;
    assert s[0] == c && s[1..] == rest;
    assert Lex(s) == Some(Token(KeyCode(c), false, 1)) by { hide Strtol16, KeyCode; }
    hide Lex, KeyCode;
    assert Put(Header(partition), Token(KeyCode(c), false, 1)) == [0x40, partition, 0, KeyCode(c)];
  }

  lemma FlagEnds(msg: seq<byte>)
    requires |msg| == 4 && msg[3] < 64
    ensures Compile(msg, []) == Some(msg)
    ensures Compile(msg, ['!' as int]) == Some(msg[3 := msg[3] + 64])
  {
    assert ['!' as int][1..] == [];
  }

  lemma FlagThen(msg: seq<byte>, code: byte)
    requires |msg| == 4 && msg[3] < 64 && code != 255
    ensures Compile(msg, ['!' as int, HexDigit(code / 16), HexDigit(code % 16), ']' as int])
         == Some(msg[3 := msg[3] + 64] + [code])
  {
    var hi, lo := HexDigit(code / 16), HexDigit(code % 16);
    var s := ['!' as int, hi, lo, ']' as int];
    TwoDigits(hi, lo, []);
    DigitPair(code);
    assert s[1..] == [hi, lo] + ([']' as int] + []);
    assert s[4..] == [];
    hide Strtol16, HexDigit, PairValue, SetFlag;
    assert Lex(s) == Some(Token(code, true, 4));
    FlagIsBitSix(msg[3]);
    assert Put(msg, Token(code, true, 4)) == msg[3 := msg[3] + 64] + [code];
  }

  lemma FlagIsBitSix(code: byte)
    requires code < 64
    ensures SetFlag(code) == code + 64 && SetFlag(code + 64) == code + 64
  {
  }
}
