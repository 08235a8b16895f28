/** The wire format and the receiver, as values.

    A frame is LF, then the hex digits of a length byte, the payload and a
    checksum.  The receiver is specified by the characters it has seen since
    the last LF and by a judgement on that whole text; the byte-at-a-time
    implementation with its nibble buffer, running sum and length sentinel is
    proved against this specification in module Link. */
module Framing {
  import opened Bytes

  type nibble = n: int | 0 <= n < 16

  function HexDigit(n: nibble): byte {
    if n < 10 then '0' as int + n else 'A' as int + (n - 10)
  }

  /** The value of a hex digit of either case; anything else reads as zero. */
  function DigitValue(c: byte): nibble {
    if '0' as int <= c <= '9' as int then c - '0' as int
    else if 'A' as int <= c <= 'F' as int then c - 'A' as int + 10
    else if 'a' as int <= c <= 'f' as int then c - 'a' as int + 10
    else 0
  }

  function PairValue(hi: byte, lo: byte): byte {
    DigitValue(hi) * 16 + DigitValue(lo)
  }

  /** The text of a byte string: two upper-case digits a byte. */
  function Hex(values: seq<byte>): (text: seq<byte>)
    ensures |text| == 2 * |values|
  {
    seq(2 * |values|, i requires 0 <= i < 2 * |values| =>
      HexDigit(if i % 2 == 0 then values[i / 2] / 16 else values[i / 2] % 16))
  }

  /** The bytes spelled by the complete digit pairs of a text. */
  function Values(text: seq<byte>): (values: seq<byte>)
    ensures |values| == |text| / 2
  {
    seq(|text| / 2, i requires 0 <= i < |text| / 2 => PairValue(text[2 * i], text[2 * i + 1]))
  }

  function Sum(values: seq<byte>): nat {
    if values == [] then 0 else Sum(values[..|values| - 1]) + values[|values| - 1]
  }

  function Checksum(values: seq<byte>): byte {
    Sum(values) % 256
  }

  /** Everything the checksum covers: the length byte and the payload. */
  function Covered(payload: seq<byte>): seq<byte>
    requires |payload| < 255
  {
    [|payload| + 1] + payload
  }

  function FrameValues(payload: seq<byte>): (values: seq<byte>)
    requires |payload| < 255
    ensures |values| == |payload| + 2
  {
    Covered(payload) + [Checksum(Covered(payload))]
  }

  function Encode(payload: seq<byte>): (wire: seq<byte>)
    requires |payload| < 255
    ensures |wire| == 5 + 2 * |payload|
  {
    [START_OF_MESSAGE] + Hex(FrameValues(payload))
  }

  /** The lengths that the receiver lets through. */
  predicate LegalPayload(payload: seq<byte>) {
    1 <= |payload| < MAX_MESSAGE_SIZE
  }

  // ---------------------------------------------------------------- receiver

  datatype Outcome =
    | Quiet                         // nothing to report yet
    | Junk                          // a byte outside any frame
    | TooBig
    | TooSmall
    | Accepted(payload: seq<byte>)  // answered ACK and delivered
    | Refused                       // wrong checksum, answered NAK

  datatype Receiver = Idle | InFrame(text: seq<byte>)

  /** The verdict on the text of one frame; Quiet while it is unfinished. */
  function Judge(text: seq<byte>): (o: Outcome)
    ensures o.Accepted? ==> LegalPayload(o.payload)
  {
    var v := Values(text);
    if |v| == 0 then Quiet
    else if v[0] > MAX_MESSAGE_SIZE then TooBig
    else if v[0] < 2 then TooSmall
    else if |v| <= v[0] then Quiet
    else if Checksum(v[..v[0]]) == v[v[0]] then Accepted(v[1..v[0]])
    else Refused
  }

  /** One received byte.  A NUL where a first digit is expected leaves no trace. */
  function Receive(r: Receiver, b: byte): (res: (Receiver, Outcome))
    ensures res.1.Accepted? ==> LegalPayload(res.1.payload)
  {
    if b == START_OF_MESSAGE then (InFrame([]), Quiet)
    else if r.Idle? then (Idle, Junk)
    else if b == 0 && |r.text| % 2 == 0 then (r, Quiet)
    else
      var verdict := Judge(r.text + [b]);
      if verdict == Quiet then (InFrame(r.text + [b]), Quiet) else (Idle, verdict)
  }

  function Feed(r: Receiver, bytes: seq<byte>): (res: (Receiver, seq<Outcome>))
    ensures |res.1| == |bytes|
    decreases bytes
  {
    if bytes == [] then (r, [])
    else
      var (r1, outcome) := Receive(r, bytes[0]);
      var (r2, outcomes) := Feed(r1, bytes[1..]);
      (r2, [outcome] + outcomes)
  }

  /** What one outcome hands to the application, and what it writes back. */
  function PayloadOf(o: Outcome): seq<seq<byte>> {
    if o.Accepted? then [o.payload] else []
  }

  function AnswerOf(o: Outcome): seq<byte> {
    if o.Accepted? then [ACK] else if o.Refused? then [NAK] else []
  }

  function Delivered(outcomes: seq<Outcome>): seq<seq<byte>> {
    if outcomes == [] then [] else PayloadOf(outcomes[0]) + Delivered(outcomes[1..])
  }

  function Answers(outcomes: seq<Outcome>): seq<byte> {
    if outcomes == [] then [] else AnswerOf(outcomes[0]) + Answers(outcomes[1..])
  }

  // ------------------------------------------------------------ basic lemmas

  lemma SumAppend(values: seq<byte>, x: byte)
    ensures Sum(values + [x]) == Sum(values) + x
  {
    assert (values + [x])[..|values|] == values;
  }

  lemma DigitPair(b: byte)
    ensures PairValue(HexDigit(b / 16), HexDigit(b % 16)) == b
  {
  }

  lemma ValuesOfHex(values: seq<byte>)
    ensures Values(Hex(values)) == values
  {
    var text := Hex(values);
    forall i | 0 <= i < |values|
      ensures Values(text)[i] == values[i]
    {
      assert text[2 * i] == HexDigit(values[i] / 16);
      assert text[2 * i + 1] == HexDigit(values[i] % 16);
      DigitPair(values[i]);
    }
  }

  lemma ChecksumAppend(values: seq<byte>, x: byte)
    ensures Checksum(values + [x]) == (Checksum(values) + x) % 256
    ensures Checksum([x]) == x
  {
    SumAppend(values, x);
    SumAppend([], x);
  }

  lemma ValuesAppend(text: seq<byte>, b: byte)
    ensures |text| % 2 == 0 ==> Values(text + [b]) == Values(text)
    ensures |text| % 2 == 1 ==> Values(text + [b]) == Values(text) + [PairValue(text[|text| - 1], b)]
  {
  }

  lemma FeedOne(r: Receiver, b: byte)
    ensures Feed(r, [b]) == (Receive(r, b).0, [Receive(r, b).1])
    ensures Delivered([Receive(r, b).1]) == PayloadOf(Receive(r, b).1)
    ensures Answers([Receive(r, b).1]) == AnswerOf(Receive(r, b).1)
  {
    hide Receive;
    var (r', o) := Receive(r, b);
    assert [b][1..] == [] && Feed(r', []) == (r', []);
    assert [o] + [] == [o];
    assert PayloadOf(o) + [] == PayloadOf(o) && AnswerOf(o) + [] == AnswerOf(o);
  }

  lemma {:induction false} FeedConcat(r: Receiver, a: seq<byte>, b: seq<byte>)
    ensures Feed(r, a + b) == (Feed(Feed(r, a).0, b).0, Feed(r, a).1 + Feed(Feed(r, a).0, b).1)
    decreases a
  {
    if a == [] {
      assert a + b == b && [] + Feed(r, b).1 == Feed(r, b).1;
    } else {
      assert (a + b)[1..] == a[1..] + b;
      var (r1, o) := Receive(r, a[0]);
      FeedConcat(r1, a[1..], b);
      var (r2, os) := Feed(r1, a[1..]);
      assert [o] + (os + Feed(r2, b).1) == ([o] + os) + Feed(r2, b).1;
    }
  }

  lemma {:induction false} DeliveredConcat(a: seq<Outcome>, b: seq<Outcome>)
    ensures Delivered(a + b) == Delivered(a) + Delivered(b)
    ensures Answers(a + b) == Answers(a) + Answers(b)
  {
    hide PayloadOf, AnswerOf;
    if a == [] {
      assert a + b == b;
    } else {
      assert (a + b)[1..] == a[1..] + b;
      DeliveredConcat(a[1..], b);
      var p, q := PayloadOf(a[0]), AnswerOf(a[0]);
      assert p + (Delivered(a[1..]) + Delivered(b)) == (p + Delivered(a[1..])) + Delivered(b);
      assert q + (Answers(a[1..]) + Answers(b)) == (q + Answers(a[1..])) + Answers(b);
    }
  }

  lemma {:induction false} NothingDelivered(outcomes: seq<Outcome>)
    requires forall o :: o in outcomes ==> !o.Accepted? && !o.Refused?
    ensures Delivered(outcomes) == [] && Answers(outcomes) == []
  {
    if outcomes != [] {
      NothingDelivered(outcomes[1..]);
    }
  }

  /** Outside a frame everything but LF is junk. */
  lemma {:induction false} FeedJunk(bytes: seq<byte>)
    requires START_OF_MESSAGE !in bytes
    ensures Feed(Idle, bytes) == (Idle, Repeat(Junk, |bytes|))
  {
    if bytes != [] {
      FeedJunk(bytes[1..]);
      assert Repeat(Junk, |bytes|) == [Junk] + Repeat(Junk, |bytes| - 1);
    }
  }

  // -------------------------------------------------- the batch parser
  //
  // The same language read the simple way: cut the stream at LF, look at the
  // length byte of each piece, and judge the piece once.

  /** How many characters of a piece belong to its frame; None if it is cut short. */
  function FrameEnd(text: seq<byte>): (end: Option<nat>)
    ensures end.Some? ==> 2 <= end.value <= |text|
  {
    if |text| < 2 then None
    else
      var n := PairValue(text[0], text[1]);
      if n > MAX_MESSAGE_SIZE || n < 2 then Some(2)
      else if |text| < 2 * (n + 1) then None
      else Some(2 * (n + 1))
  }

  function PieceOutcomes(text: seq<byte>): seq<Outcome> {
    match FrameEnd(text)
    case None => Repeat(Quiet, |text|)
    case Some(k) => Repeat(Quiet, k - 1) + [Judge(text[..k])] + Repeat(Junk, |text| - k)
  }

  /** Index of the first LF, or the length. */
  function NextStart(bytes: seq<byte>): (k: nat)
    ensures k <= |bytes| && START_OF_MESSAGE !in bytes[..k]
    ensures k < |bytes| ==> bytes[k] == START_OF_MESSAGE
  {
    if bytes == [] || bytes[0] == START_OF_MESSAGE then 0 else 1 + NextStart(bytes[1..])
  }

  function BatchFrames(bytes: seq<byte>): seq<Outcome>
    requires bytes != [] ==> bytes[0] == START_OF_MESSAGE
    decreases |bytes|
  {
    if bytes == [] then []
    else
      var rest := bytes[1..];
      var k := NextStart(rest);
      [Quiet] + PieceOutcomes(rest[..k]) + BatchFrames(rest[k..])
  }

  function BatchParse(bytes: seq<byte>): seq<Outcome> {
    var k := NextStart(bytes);
    Repeat(Junk, k) + BatchFrames(bytes[k..])
  }

  /** A text is judged at FrameEnd and not before. */
  lemma JudgedAtFrameEnd(text: seq<byte>, j: nat)
    requires j <= |text|
    requires FrameEnd(text).Some? ==> j <= FrameEnd(text).value
    ensures Judge(text[..j]) != Quiet <==> FrameEnd(text) == Some(j)
  {
    var v := Values(text[..j]);
    if j >= 2 {
      assert v[0] == PairValue(text[0], text[1]);
    }
  }

  lemma {:induction false} FeedUnfinished(text: seq<byte>, j: nat, m: nat)
    requires j <= m <= |text|
    requires START_OF_MESSAGE !in text && 0 !in text
    requires FrameEnd(text).Some? ==> m < FrameEnd(text).value
    ensures Feed(InFrame(text[..j]), text[j..m]) == (InFrame(text[..m]), Repeat(Quiet, m - j))
    decreases m - j
  {
    hide Judge, FrameEnd;
    if j < m {
      assert text[j] in text;
      assert text[..j] + [text[j]] == text[..j + 1];
      JudgedAtFrameEnd(text, j + 1);
      assert text[j..m][1..] == text[j + 1..m];
      FeedUnfinished(text, j + 1, m);
      assert Repeat(Quiet, m - j) == [Quiet] + Repeat(Quiet, m - j - 1);
    }
  }

  lemma FeedVerdict(text: seq<byte>, k: nat)
    requires START_OF_MESSAGE !in text && 0 !in text
    requires FrameEnd(text) == Some(k)
    ensures Feed(InFrame(text[..k - 1]), text[k - 1..])
         == (Idle, [Judge(text[..k])] + Repeat(Junk, |text| - k))
  {
    assert text[k - 1] in text && text[..k - 1] + [text[k - 1]] == text[..k];
    JudgedAtFrameEnd(text, k);
    assert text[k - 1..][1..] == text[k..];
    FeedJunk(text[k..]);
  }

  /** From the start of a frame to the end of its piece. */
  lemma FeedText(text: seq<byte>)
    requires START_OF_MESSAGE !in text && 0 !in text
    ensures Feed(InFrame([]), text).1 == PieceOutcomes(text)
    ensures Feed(InFrame([]), text).0 == if FrameEnd(text).Some? then Idle else InFrame(text)
  {
    hide Feed, FrameEnd, Judge;
    assert text[..0] == [];
    match FrameEnd(text)
    case None =>
      FeedUnfinished(text, 0, |text|);
      assert text[0..|text|] == text;
    case Some(k) =>
      assert text == text[0..k - 1] + text[k - 1..];
      FeedUnfinished(text, 0, k - 1);
      FeedVerdict(text, k);
      FeedConcat(InFrame([]), text[0..k - 1], text[k - 1..]);
      assert PieceOutcomes(text) == Repeat(Quiet, k - 1) + ([Judge(text[..k])] + Repeat(Junk, |text| - k));
  }

  lemma FeedPiece(r: Receiver, text: seq<byte>)
    requires START_OF_MESSAGE !in text && 0 !in text
    ensures Feed(r, [START_OF_MESSAGE] + text).1 == [Quiet] + PieceOutcomes(text)
    ensures FrameEnd(text).Some? ==> Feed(r, [START_OF_MESSAGE] + text).0 == Idle
  {
    assert ([START_OF_MESSAGE] + text)[1..] == text;
    FeedText(text);
  }

  lemma FeedWholePiece(r: Receiver, text: seq<byte>)
    requires START_OF_MESSAGE !in text && 0 !in text
    requires FrameEnd(text) == Some(|text|)
    ensures Feed(r, [START_OF_MESSAGE] + text) == (Idle, Repeat(Quiet, |text|) + [Judge(text)])
  {
    FeedPiece(r, text);
    assert text[..|text|] == text;
    assert Feed(r, [START_OF_MESSAGE] + text).1 == Repeat(Quiet, |text|) + [Judge(text)];
  }

  lemma {:induction false} FeedFrames(r: Receiver, bytes: seq<byte>)
    requires 0 !in bytes
    requires bytes != [] ==> bytes[0] == START_OF_MESSAGE
    ensures Feed(r, bytes).1 == BatchFrames(bytes)
    decreases |bytes|
  {
    if bytes != [] {
      var rest := bytes[1..];
      var k := NextStart(rest);
      var piece := [START_OF_MESSAGE] + rest[..k];
      assert bytes == piece + rest[k..];
      FeedPiece(r, rest[..k]);
      FeedFrames(Feed(r, piece).0, rest[k..]);
      FeedConcat(r, piece, rest[k..]);
    }
  }

  /** The incremental receiver reports, byte for byte, what the batch parser reports. */
  lemma ReceiverRefinesBatch(bytes: seq<byte>)
    requires 0 !in bytes
    ensures Feed(Idle, bytes).1 == BatchParse(bytes)
  {
    var k := NextStart(bytes);
    assert bytes == bytes[..k] + bytes[k..];
    FeedJunk(bytes[..k]);
    FeedFrames(Idle, bytes[k..]);
    FeedConcat(Idle, bytes[..k], bytes[k..]);
  }

  // ------------------------------------------------------------- round trips

  lemma HexIsClean(values: seq<byte>, c: byte)
    requires c in Hex(values)
    ensures c != START_OF_MESSAGE && c != ACK && c != NAK && c != 0
  {
  }

  lemma JudgeFrame(payload: seq<byte>)
    requires LegalPayload(payload)
    ensures Judge(Hex(FrameValues(payload))) == Accepted(payload)
    ensures FrameEnd(Hex(FrameValues(payload))) == Some(|Hex(FrameValues(payload))|)
  {
    var v := FrameValues(payload);
    ValuesOfHex(v);
    assert v[..v[0]] == Covered(payload);
    assert v[1..v[0]] == payload;
    assert Values(Hex(v))[0] == PairValue(Hex(v)[0], Hex(v)[1]);
  }

  /** Whatever came before, a sent frame is delivered exactly once, at its last byte. */
  lemma RoundTrip(r: Receiver, payload: seq<byte>)
    requires LegalPayload(payload)
    ensures Feed(r, Encode(payload))
         == (Idle, Repeat(Quiet, |Encode(payload)| - 1) + [Accepted(payload)])
  {
    hide Judge, Values, FrameEnd, Hex, FrameValues, Feed;
    var text := Hex(FrameValues(payload));
    forall c | c in text ensures c != START_OF_MESSAGE && c != 0 { HexIsClean(FrameValues(payload), c); }
    JudgeFrame(payload);
    FeedWholePiece(r, text);
  }

  /** The lengths 1 to 55 are exactly those that get through: the sender accepts
      56 as well, but the receiver refuses its length byte. */
  lemma RoundTripExactly(r: Receiver, payload: seq<byte>)
    requires |payload| < 255
    ensures Delivered(Feed(r, Encode(payload)).1) == [payload] <==> LegalPayload(payload)
  {
    if LegalPayload(payload) {
      RoundTrip(r, payload);
      LastIsDelivered(|Encode(payload)| - 1, payload);
    } else {
      WrongLengthIsSilent(r, payload);
      NothingDelivered(Feed(r, Encode(payload)).1);
    }
  }

  lemma WrongLength(payload: seq<byte>)
    requires |payload| < 255 && !LegalPayload(payload)
    ensures forall o :: o in PieceOutcomes(Hex(FrameValues(payload))) ==> !o.Accepted? && !o.Refused?
  {
    var text := Hex(FrameValues(payload));
    ValuesOfHex(FrameValues(payload));
    assert Values(text)[0] == PairValue(text[0], text[1]) == |payload| + 1;
    BadLengthByte(text);
  }

  lemma BadLengthByte(text: seq<byte>)
    requires |text| >= 2 && !(2 <= PairValue(text[0], text[1]) <= MAX_MESSAGE_SIZE)
    ensures forall o :: o in PieceOutcomes(text) ==> !o.Accepted? && !o.Refused?
  {
    hide PairValue;
    assert Values(text[..2]) == [PairValue(text[0], text[1])];
    assert Judge(text[..2]) == TooBig || Judge(text[..2]) == TooSmall;
    hide Values, Judge;
    assert PieceOutcomes(text) == Repeat(Quiet, 1) + [Judge(text[..2])] + Repeat(Junk, |text| - 2);
  }

  /** Resynchronisation: after any garbage the next frame gets through, and is acknowledged. */
  lemma Resynchronises(r: Receiver, garbage: seq<byte>, payload: seq<byte>)
    requires LegalPayload(payload)
    ensures var before := Feed(r, garbage).1;
            var all := Feed(r, garbage + Encode(payload));
            && all.0 == Idle
            && Delivered(all.1) == Delivered(before) + [payload]
            && Answers(all.1) == Answers(before) + [ACK]
  {
    hide Encode, Feed;
    var mid := Feed(r, garbage);
    FeedConcat(r, garbage, Encode(payload));
    RoundTrip(mid.0, payload);
    DeliveredConcat(mid.1, Feed(mid.0, Encode(payload)).1);
    LastIsDelivered(|Encode(payload)| - 1, payload);
  }

  lemma LastIsDelivered(n: nat, payload: seq<byte>)
    ensures Delivered(Repeat(Quiet, n) + [Accepted(payload)]) == [payload]
    ensures Answers(Repeat(Quiet, n) + [Accepted(payload)]) == [ACK]
  {
    var quiet, last := Repeat(Quiet, n), [Accepted(payload)];
    NothingDelivered(quiet);
    DeliveredConcat(quiet, last);
    assert Delivered(last) == [payload] && Answers(last) == [ACK];
  }

  /** A frame too long for the receiver is neither delivered nor answered. */
  lemma WrongLengthIsSilent(r: Receiver, payload: seq<byte>)
    requires |payload| < 255 && !LegalPayload(payload)
    ensures forall o :: o in Feed(r, Encode(payload)).1 ==> !o.Accepted? && !o.Refused?
  {
    var text := Hex(FrameValues(payload));
    forall c | c in text ensures c != START_OF_MESSAGE && c != 0 { HexIsClean(FrameValues(payload), c); }
    WrongLength(payload);
    FeedPiece(r, text);
  }

  /** A frame cut short is neither delivered nor answered. */
  lemma TruncatedFrameIsSilent(r: Receiver, payload: seq<byte>, k: nat)
    requires |payload| < 255 && k < |Encode(payload)|
    ensures Delivered(Feed(r, Encode(payload)[..k]).1) == []
    ensures Answers(Feed(r, Encode(payload)[..k]).1) == []
  {
    var wire := Encode(payload);
    if LegalPayload(payload) {
      RoundTrip(r, payload);
    } else {
      WrongLengthIsSilent(r, payload);
    }
    hide Encode, Feed;
    assert wire == wire[..k] + wire[k..];
    FeedConcat(r, wire[..k], wire[k..]);
    var head := Feed(r, wire[..k]).1;
    assert forall i :: 0 <= i < k ==> head[i] == Feed(r, wire).1[i];
    NothingDelivered(head);
  }

  // -------------------------------------------------------------- corruption

  /** Changing one term of a sum changes the sum by the same amount. */
  lemma {:induction false} SumUpdate(values: seq<byte>, j: nat, x: byte)
    requires j < |values|
    ensures Sum(values[j := x]) == Sum(values) - values[j] + x
  {
    var n := |values| - 1;
    if j == n {
      assert values[j := x][..n] == values[..n];
    } else {
      assert values[j := x][..n] == values[..n][j := x];
      SumUpdate(values[..n], j, x);
    }
  }

  /** The line garbled `text`, the text of a frame for `payload`, into `heard`:
      one payload or checksum byte now reads differently. */
  predicate OneByteGarbled(payload: seq<byte>, heard: seq<byte>)
    requires |payload| < 255
  {
    && START_OF_MESSAGE !in heard && 0 !in heard && ACK !in heard && NAK !in heard
    && |heard| == |Hex(FrameValues(payload))|
    && exists j :: 1 <= j < |Values(heard)| && Values(heard)[j] != FrameValues(payload)[j]
                && Values(heard) == FrameValues(payload)[j := Values(heard)[j]]
  }

  lemma GarbledIsRefused(payload: seq<byte>, j: nat, x: byte)
    requires LegalPayload(payload) && 1 <= j < |FrameValues(payload)| && x != FrameValues(payload)[j]
    ensures var v := FrameValues(payload)[j := x];
            v[0] == |payload| + 1 && Checksum(v[..v[0]]) != v[v[0]]
  {
    var v := FrameValues(payload);
    var n := v[0];
    var v' := v[j := x];
    assert v[..n] == Covered(payload);
    if j == n {
      assert v'[..n] == v[..n];
    } else {
      assert v'[..n] == v[..n][j := x];
      SumUpdate(v[..n], j, x);
    }
  }

  lemma GarbledFrameIsRefused(r: Receiver, payload: seq<byte>, heard: seq<byte>)
    requires LegalPayload(payload) && OneByteGarbled(payload, heard)
    ensures Feed(r, [START_OF_MESSAGE] + heard)
         == (Idle, Repeat(Quiet, |heard|) + [Refused])
  {
    var v := FrameValues(payload);
    var v' := Values(heard);
    var j :| 1 <= j < |v'| && v'[j] != v[j] && v' == v[j := v'[j]];
    var x := v'[j];
    GarbledIsRefused(payload, j, x);
    assert Judge(heard) == Refused;
    assert PairValue(heard[0], heard[1]) == Values(heard)[0];
    FeedWholePiece(r, heard);
  }

  // ------------------------------------------------------------------ by number

  function DigitOf(n: nat): byte
    requires n < 16
  {
    "0123456789ABCDEF"[n] as int
  }

  /** A frame on the wire: 10, then two digits each for the length, the bytes of the
      payload, and their sum. */
  lemma WireByNumber(payload: seq<byte>, k: nat)
    requires |payload| < 255 && k < |payload| + 2
    ensures var wire := Encode(payload);
            var length: nat := |payload| + 1;
            var v := if k == 0 then length
                     else if k <= |payload| then payload[k - 1] as nat
                     else (length + Sum(payload)) % 256;
            && |wire| == 2 * |payload| + 5 && wire[0] == 10
            && wire[2 * k + 1] == DigitOf(v / 16) && wire[2 * k + 2] == DigitOf(v % 16)
  {
    CoveredByNumber(payload, k);
    HexByNumber(FrameValues(payload), k);
    hide Sum, Hex, FrameValues, DigitOf;
    assert Encode(payload)[1..] == Hex(FrameValues(payload));
    assert Encode(payload)[1..][2 * k] == Encode(payload)[2 * k + 1];
    assert Encode(payload)[1..][2 * k + 1] == Encode(payload)[2 * k + 2];
  }

  lemma HexByNumber(values: seq<byte>, k: nat)
    requires k < |values|
    ensures Hex(values)[2 * k] == DigitOf(values[k] / 16)
    ensures Hex(values)[2 * k + 1] == DigitOf(values[k] % 16)
  {
    assert Hex(values)[2 * k] == HexDigit(values[k] / 16) && Hex(values)[2 * k + 1] == HexDigit(values[k] % 16);
    DigitByNumber(values[k] / 16);
    DigitByNumber(values[k] % 16);
  }

  lemma DigitByNumber(n: nibble)
    ensures HexDigit(n) == DigitOf(n)
  {
  }

  lemma CoveredByNumber(payload: seq<byte>, k: nat)
    requires |payload| < 255 && k < |payload| + 2
    ensures var length: nat := |payload| + 1;
            FrameValues(payload)[k] as nat == if k == 0 then length
                                              else if k <= |payload| then payload[k - 1]
                                              else (length + Sum(payload)) % 256
  {
    SumOfCovered([|payload| + 1], payload);
    assert [|payload| + 1][..0] == [];
    assert Sum([|payload| + 1]) == |payload| + 1;
    hide Sum;
  }

  lemma {:induction false} SumOfCovered(a: seq<byte>, b: seq<byte>)
    ensures Sum(a + b) == Sum(a) + Sum(b)
  {
    if b == [] {
      assert a + b == a;
    } else {
      assert (a + b)[..|a + b| - 1] == a + b[..|b| - 1];
      SumOfCovered(a, b[..|b| - 1]);
    }
  }

  /** A whole frame: the request for the equipment list. */
  lemma RequestOnWire()
    ensures Encode([2]) == [10, '0' as int, '2' as int, '0' as int, '2' as int, '0' as int, '4' as int]
  {
    assert [2][..0] == [];
    assert Sum([2]) == 2;
    hide *;
    WireByNumber([2], 0);
    WireByNumber([2], 1);
    WireByNumber([2], 2);
    assert DigitOf(0) == '0' as int && DigitOf(2) == '2' as int && DigitOf(4) == '4' as int by { SomeDigits(); }
  }

  lemma SomeDigits()
    ensures DigitOf(0) == '0' as int && DigitOf(2) == '2' as int && DigitOf(4) == '4' as int
  {
  }

  lemma SumOfTwo(a: byte, b: byte)
    ensures Sum([a, b]) == a as nat + b as nat
  {
    SumOfCovered([a], [b]);
    assert [a] + [b] == [a, b] && [a][..0] == [] && [b][..0] == [];
    assert Sum([a]) == a as nat && Sum([b]) == b as nat;
  }

  /** What the far end is answered: 6 for a frame that arrives whole, 21 for one with a
      wrong byte. */
  lemma AnswersByNumber(r: Receiver, payload: seq<byte>, heard: seq<byte>)
    requires LegalPayload(payload) && OneByteGarbled(payload, heard)
    ensures Answers(Feed(r, Encode(payload)).1) == [6]
    ensures Answers(Feed(r, [10] + heard).1) == [21]
  {
    hide Feed, OneByteGarbled;
    RoundTrip(r, payload);
    LastIsDelivered(|Encode(payload)| - 1, payload);
    GarbledFrameIsRefused(r, payload, heard);
    NothingDelivered(Repeat(Quiet, |heard|));
    DeliveredConcat(Repeat(Quiet, |heard|), [Refused]);
    assert Answers([Refused]) == [21];
  }
}
