/** The serial link: acknowledgement bytes share the stream with frames.

    `Hear` adds them to the receiver of module Framing.  Class SerialLink is
    the link object itself, with its nibble buffer, running sum and length
    sentinel, proved to behave as `Hear` and `Encode` say. */
module Link {
  import opened Bytes
  import opened Framing

  /** What one received byte gives rise to. */
  datatype Signal =
    | Answered(positive: bool)
    | Line(outcome: Outcome)

  predicate IsAnswer(b: byte) {
    b == ACK || b == NAK
  }

  /** The payload that a signal delivers. */
  function PayloadIn(s: Signal): Option<seq<byte>> {
    if s.Line? && s.outcome.Accepted? then Some(s.outcome.payload) else None
  }

  /** ACK and NAK answer the last transmission while one is unanswered, and are
      ordinary bytes otherwise. */
  function Hear(r: Receiver, awaiting: bool, b: byte): (res: (Receiver, bool, Signal))
    ensures res.2.Answered? ==> IsAnswer(b)
    ensures PayloadIn(res.2).Some? ==> LegalPayload(PayloadIn(res.2).value)
  {
    if awaiting && IsAnswer(b) then (r, false, Answered(b == ACK))
    else (Receive(r, b).0, awaiting, Line(Receive(r, b).1))
  }

  function HearAll(r: Receiver, awaiting: bool, bytes: seq<byte>): (res: (Receiver, bool, seq<Signal>))
    ensures |res.2| == |bytes|
    decreases bytes
  {
    if bytes == [] then (r, awaiting, [])
    else
      var (r1, a1, signal) := Hear(r, awaiting, bytes[0]);
      var (r2, a2, signals) := HearAll(r1, a1, bytes[1..]);
      (r2, a2, [signal] + signals)
  }

  function Lines(outcomes: seq<Outcome>): seq<Signal> {
    seq(|outcomes|, i requires 0 <= i < |outcomes| => Line(outcomes[i]))
  }

  /** With no answer due, or none in the stream, the link is just the receiver. */
  lemma {:induction false} HearIsFeed(r: Receiver, awaiting: bool, bytes: seq<byte>)
    requires !awaiting || (ACK !in bytes && NAK !in bytes)
    ensures HearAll(r, awaiting, bytes) == (Feed(r, bytes).0, awaiting, Lines(Feed(r, bytes).1))
    decreases bytes
  {
    if bytes == [] {
      assert Lines([]) == [];
    } else {
      assert bytes[0] in bytes;
      var (r1, o) := Receive(r, bytes[0]);
      HearIsFeed(r1, awaiting, bytes[1..]);
      var (r2, os) := Feed(r1, bytes[1..]);
      assert Lines([o] + os) == [Line(o)] + Lines(os);
    }
  }

  lemma {:induction false} HearConcat(r: Receiver, awaiting: bool, a: seq<byte>, b: seq<byte>)
    ensures var (r1, w1, s1) := HearAll(r, awaiting, a);
            var (r2, w2, s2) := HearAll(r1, w1, b);
            HearAll(r, awaiting, a + b) == (r2, w2, s1 + s2)
    decreases a
  {
    if a == [] {
      assert a + b == b;
      assert [] + HearAll(r, awaiting, b).2 == HearAll(r, awaiting, b).2;
    } else {
      assert (a + b)[1..] == a[1..] + b;
      var (r1, w1, s) := Hear(r, awaiting, a[0]);
      HearConcat(r1, w1, a[1..], b);
      var (r2, w2, ss) := HearAll(r1, w1, a[1..]);
      assert [s] + (ss + HearAll(r2, w2, b).2) == ([s] + ss) + HearAll(r2, w2, b).2;
    }
  }

  lemma AnswerIsHeard(r: Receiver, answer: byte, after: seq<byte>)
    requires IsAnswer(answer)
    ensures var (r', awaiting, signals) := HearAll(r, false, after);
            HearAll(r, true, [answer] + after) == (r', awaiting, [Answered(answer == ACK)] + signals)
  {
    assert ([answer] + after)[1..] == after;
  }

  /** An answer byte may fall anywhere in the stream: it settles the pending
      transmission, and the frames around and under it are read as if it were
      not there.  Bytes after it are unrestricted. */
  lemma AnswerFallsAnywhere(r: Receiver, before: seq<byte>, answer: byte, after: seq<byte>)
    requires IsAnswer(answer) && ACK !in before && NAK !in before
    ensures HearAll(r, true, before + [answer] + after)
         == (var (r', outcomes) := Feed(r, before + after);
             (r', false, Lines(outcomes[..|before|]) + [Answered(answer == ACK)] + Lines(outcomes[|before|..])))
  {
    var (r1, os1) := Feed(r, before);
    var (r2, os2) := Feed(r1, after);
    FeedConcat(r, before, after);
    HearIsFeed(r, true, before);
    HearIsFeed(r1, false, after);
    AnswerIsHeard(r1, answer, after);
    hide Feed, HearAll, Lines;
    HearConcat(r, true, before, [answer] + after);
    assert before + [answer] + after == before + ([answer] + after);
    assert (os1 + os2)[..|before|] == os1 && (os1 + os2)[|before|..] == os2;
    assert Lines(os1) + ([Answered(answer == ACK)] + Lines(os2))
        == Lines(os1) + [Answered(answer == ACK)] + Lines(os2);
  }

  /** In particular inside a frame: the frame is still delivered, at its last byte. */
  lemma AnswerInsideFrame(r: Receiver, payload: seq<byte>, i: nat, answer: byte)
    requires LegalPayload(payload) && i <= |Encode(payload)| && IsAnswer(answer)
    ensures HearAll(r, true, Encode(payload)[..i] + [answer] + Encode(payload)[i..])
         == (var plain := Lines(Repeat(Quiet, |Encode(payload)| - 1) + [Accepted(payload)]);
             (Idle, false, plain[..i] + [Answered(answer == ACK)] + plain[i..]))
  {
    var wire := Encode(payload);
    forall c | c in wire[..i] ensures c != ACK && c != NAK {
      if c in Hex(FrameValues(payload)) { HexIsClean(FrameValues(payload), c); }
    }
    assert wire[..i] + wire[i..] == wire;
    RoundTrip(r, payload);
    AnswerFallsAnywhere(r, wire[..i], answer, wire[i..]);
    var os := Feed(r, wire).1;
    assert Lines(os)[..i] == Lines(os[..i]) && Lines(os)[i..] == Lines(os[i..]);
  }

  /** The status code of ge_rs232_receive_byte; a delivered frame returns the handler's. */
  function ReceiveStatus(s: Signal): int {
    match s
    case Line(Junk) => STATUS_JUNK
    case Line(TooBig) => STATUS_MESSAGE_TOO_BIG
    case Line(TooSmall) => STATUS_MESSAGE_TOO_SMALL
    case Line(Refused) => STATUS_BAD_CHECKSUM
    case _ => STATUS_OK
  }

  /** The receive buffer after a byte: the second digit of every byte after the length
      byte stores it at its place; nothing is ever cleared. */
  function Stored(r: Receiver, buffer: seq<byte>, b: byte): (after: seq<byte>)
    ensures |after| == |buffer|
  {
    if r.Idle? || b == START_OF_MESSAGE || |r.text| % 2 == 0 then buffer
    else
      var n := |Values(r.text)|;
      if 1 <= n <= |buffer| then buffer[n - 1 := PairValue(r.text[|r.text| - 1], b)] else buffer
  }

  function Kept(r: Receiver, awaiting: bool, buffer: seq<byte>, b: byte): (after: seq<byte>)
    ensures |after| == |buffer|
  {
    if awaiting && IsAnswer(b) then buffer else Stored(r, buffer, b)
  }

  /** What an unfinished frame has stored lies at the start of the buffer. */
  predicate Holds(r: Receiver, buffer: seq<byte>) {
    r.InFrame? ==>
      var v := Values(r.text);
      && Judge(r.text) == Quiet
      && (v != [] ==> |v| - 1 <= |buffer| && buffer[..|v| - 1] == v[1..])
  }

  /** So a payload is handed over where it was read, at the start of the buffer. */
  lemma HandedOver(r: Receiver, awaiting: bool, buffer: seq<byte>, b: byte)
    requires |buffer| == MAX_MESSAGE_SIZE && Holds(r, buffer)
    ensures var (r', _, signal) := Hear(r, awaiting, b);
            var buffer' := Kept(r, awaiting, buffer, b);
            && Holds(r', buffer')
            && (PayloadIn(signal).Some? ==> PayloadIn(signal).value <= buffer')
  {
    if r.InFrame? && b != START_OF_MESSAGE && !(awaiting && IsAnswer(b)) {
      DigitHeld(r.text, buffer, b);
      hide Judge, Values, PairValue;
    }
  }

  lemma DigitHeld(text: seq<byte>, buffer: seq<byte>, b: byte)
    requires |buffer| == MAX_MESSAGE_SIZE && Holds(InFrame(text), buffer) && b != START_OF_MESSAGE
    ensures var after := Stored(InFrame(text), buffer, b);
            && (Judge(text + [b]) == Quiet ==> Holds(InFrame(text + [b]), after))
            && (Judge(text + [b]).Accepted? ==> Judge(text + [b]).payload <= after)
            && (|text| % 2 == 0 ==> Holds(InFrame(text), after))
  {
    var v := Values(text);
    ValuesAppend(text, b);
    hide PairValue, Values, Checksum;
    if |text| % 2 == 1 && v != [] {
      var value := PairValue(text[|text| - 1], b);
      assert buffer[|v| - 1 := value][..|v|] == buffer[..|v| - 1] + [value];
      assert (v + [value])[1..] == v[1..] + [value];
      if |v| == v[0] {
        assert (v + [value])[1..v[0]] == v[1..];
      }
    }
  }

  /** The staging array of a transmission has this many cells. */
  const STAGING_SIZE := MAX_MESSAGE_SIZE + 7

  /** Lengths a transmission can be asked for: the frame must fit the staging
      array unless the length is refused outright. */
  predicate Sendable(len: nat) {
    len <= MAX_MESSAGE_SIZE ==> 5 + 2 * len <= STAGING_SIZE
  }

  /** The fields of a receiver in the middle of a frame are determined by its text:
      the odd digit, the length or the sentinel 255, the count and the sum of
      what is stored.  The count stays below the length and the length within
      the buffer, so the sentinel is never taken for a length. */
  ghost predicate Tracks(text: seq<byte>, nibble: byte, len: byte, count: byte, sum: byte, stored: seq<byte>) {
    var v := Values(text);
    && |stored| == MAX_MESSAGE_SIZE
    && Judge(text) == Quiet
    && nibble == (if |text| % 2 == 0 then 0 else text[|text| - 1])
    && (|text| % 2 == 1 ==> nibble != 0)
    && if v == [] then len == 255 && count == 0 && sum == 0
       else
         && len == v[0] && 2 <= len <= MAX_MESSAGE_SIZE
         && count as int == |v| - 1 && count < len
         && sum == Checksum(v)
         && stored[..count] == v[1..]
  }

  lemma TracksStart(stored: seq<byte>)
    requires |stored| == MAX_MESSAGE_SIZE
    ensures Tracks([], 0, 255, 0, 0, stored)
  {
  }

  lemma TracksBounds(text: seq<byte>, nibble: byte, len: byte, count: byte, sum: byte, stored: seq<byte>)
    requires Tracks(text, nibble, len, count, sum, stored)
    ensures nibble == 0 <==> |text| % 2 == 0
    ensures len != 255 ==> count < len <= MAX_MESSAGE_SIZE
    ensures len == 255 ==> sum == 0
    ensures len == 255 <==> Values(text) == []
    ensures len != 255 ==> count as int == |Values(text)| - 1
    ensures nibble != 0 ==> |text| % 2 == 1 && nibble == text[|text| - 1]
  {
  }

  lemma TracksFirstDigit(text: seq<byte>, b: byte, len: byte, count: byte, sum: byte, stored: seq<byte>)
    requires Tracks(text, 0, len, count, sum, stored) && b != 0
    ensures Tracks(text + [b], b, len, count, sum, stored) && Judge(text + [b]) == Quiet
  {
    ValuesAppend(text, b);
  }

  lemma TracksLength(text: seq<byte>, nibble: byte, b: byte, count: byte, sum: byte, stored: seq<byte>)
    requires Tracks(text, nibble, 255, count, sum, stored) && nibble != 0
    ensures Judge(text + [b]) == (var value := PairValue(nibble, b);
              if value > MAX_MESSAGE_SIZE then TooBig else if value < 2 then TooSmall else Quiet)
    ensures Judge(text + [b]) == Quiet ==>
            Tracks(text + [b], 0, PairValue(nibble, b), 0, PairValue(nibble, b), stored)
  {
    hide PairValue, Checksum;
    ValuesAppend(text, b);
    hide Values;
    ChecksumAppend([], PairValue(nibble, b));
    assert [] + [PairValue(nibble, b)] == [PairValue(nibble, b)];
  }

  lemma TracksStore(text: seq<byte>, nibble: byte, b: byte, len: byte, count: byte, sum: byte, stored: seq<byte>)
    requires Tracks(text, nibble, len, count, sum, stored) && nibble != 0 && count + 1 < len != 255
    ensures var value := PairValue(nibble, b);
            && Judge(text + [b]) == Quiet
            && Tracks(text + [b], 0, len, count + 1, (sum + value) % 256, stored[count := value])
  {
    hide PairValue, Checksum;
    var value := PairValue(nibble, b);
    var v := Values(text);
    ValuesAppend(text, b);
    hide Values;
    ChecksumAppend(v, value);
    assert stored[count := value][..count + 1] == stored[..count] + [value];
    assert (v + [value])[1..] == v[1..] + [value];
  }

  lemma TracksLast(text: seq<byte>, nibble: byte, b: byte, len: byte, count: byte, sum: byte, stored: seq<byte>)
    requires Tracks(text, nibble, len, count, sum, stored) && nibble != 0 && count + 1 >= len != 255
    ensures var value := PairValue(nibble, b);
            Judge(text + [b]) == if sum == value then Accepted(stored[count := value][..len - 1]) else Refused
  {
    hide PairValue;
    var value := PairValue(nibble, b);
    var v := Values(text);
    ValuesAppend(text, b);
    hide Values;
    assert (v + [value])[..len] == v;
    assert stored[count := value][..len - 1] == stored[..count];
    assert (v + [value])[1..len] == v[1..];
  }

  /** The object ge_rs232_s.  Callbacks are the last thing its operations do, so
      they are returned as a Signal for the caller to run. */
  class SerialLink {
    // receiving
    var readingMessage: bool
    var currentByte: byte
    var messageLen: byte
    var nibbleBuffer: byte
    var bufferSum: byte
    const buffer: array<byte>
    // sending
    var lastResponse: byte
    var lastSent: int
    const outputBuffer: array<byte>
    var outputBufferLen: byte
    var outputAttemptCount: byte
    /** Whether got_response is installed. */
    var gotResponse: bool
    /** What has been received since the last LF. */
    ghost var text: seq<byte>

    ghost predicate Valid()
      reads this, buffer
    {
      && buffer.Length == MAX_MESSAGE_SIZE && outputBuffer.Length == MAX_MESSAGE_SIZE && buffer != outputBuffer
      && outputBufferLen <= MAX_MESSAGE_SIZE
      && (readingMessage ==> Tracks(text, nibbleBuffer, messageLen, currentByte, bufferSum, buffer[..]))
    }

    ghost function State(): Receiver
      reads this
    {
      if readingMessage then InFrame(text) else Idle
    }

    /** The message of the last transmission. */
    ghost function Output(): seq<byte>
      reads this, outputBuffer
      requires outputBufferLen as int <= outputBuffer.Length
    {
      outputBuffer[..outputBufferLen]
    }

    constructor ()
      ensures Valid() && fresh(buffer) && fresh(outputBuffer)
      ensures buffer[..] == Repeat(0, MAX_MESSAGE_SIZE)
      ensures State() == Idle && lastResponse == ACK && lastSent == 0 && !gotResponse && Output() == []
    {
      readingMessage, currentByte, messageLen, nibbleBuffer, bufferSum := false, 0, 0, 0, 0;
      lastResponse, lastSent, outputBufferLen, outputAttemptCount, gotResponse := ACK, 0, 0, 0, false;
      buffer := new byte[MAX_MESSAGE_SIZE](_ => 0);
      outputBuffer := new byte[MAX_MESSAGE_SIZE](_ => 0);
      text := [];
    }

    /** The branch of ReceiveByte for a character of a frame. */
    method ReceiveDigit(b: byte) returns (status: int, signal: Signal)
      requires Valid() && readingMessage && b != START_OF_MESSAGE
      modifies this`readingMessage, this`currentByte, this`messageLen, this`nibbleBuffer, this`bufferSum
      modifies this`text, buffer
      ensures Valid()
      ensures b == 0 && |old(text)| % 2 == 0 ==>
              readingMessage && text == old(text) && signal == Line(Quiet)
      ensures !(b == 0 && |old(text)| % 2 == 0) ==>
              && signal == Line(Judge(old(text) + [b]))
              && readingMessage == (signal == Line(Quiet)) && (readingMessage ==> text == old(text) + [b])
      ensures status == ReceiveStatus(signal)
      ensures buffer[..] == Stored(InFrame(old(text)), old(buffer[..]), b)
    {
      hide Judge, Values, PairValue, Tracks;
      TracksBounds(text, nibbleBuffer, messageLen, currentByte, bufferSum, buffer[..]);
      status, signal := STATUS_OK, Line(Quiet);
      if nibbleBuffer == 0 {
        if b != 0 {
          TracksFirstDigit(text, b, messageLen, currentByte, bufferSum, buffer[..]);
          text := text + [b];
        }
        nibbleBuffer := b;
        return;
      }
      var value := PairValue(nibbleBuffer, b);
      ghost var nibble, seen := nibbleBuffer, text;
      text := text + [b];
      nibbleBuffer := 0;
      if messageLen == 255 {
        TracksLength(seen, nibble, b, currentByte, bufferSum, buffer[..]);
        if value > MAX_MESSAGE_SIZE {
          status, signal := STATUS_MESSAGE_TOO_BIG, Line(TooBig);
          readingMessage := false;
          return;
        }
        if value < 2 {
          status, signal := STATUS_MESSAGE_TOO_SMALL, Line(TooSmall);
          readingMessage := false;
          return;
        }
        messageLen := value;
        currentByte := 0;
      } else {
        if currentByte + 1 < messageLen {
          TracksStore(seen, nibble, b, messageLen, currentByte, bufferSum, buffer[..]);
        } else {
          TracksLast(seen, nibble, b, messageLen, currentByte, bufferSum, buffer[..]);
        }
        buffer[currentByte] := value;
        currentByte := currentByte + 1;
      }
      if currentByte >= messageLen {
        readingMessage := false;
        if bufferSum == value {
          signal := Line(Accepted(buffer[..messageLen - 1]));
        } else {
          status, signal := STATUS_BAD_CHECKSUM, Line(Refused);
        }
      } else {
        bufferSum := (bufferSum + value) % 256;
      }
    }

    method ReceiveByte(b: byte) returns (status: int, signal: Signal)
      requires Valid()
      modifies this`readingMessage, this`currentByte, this`messageLen, this`nibbleBuffer, this`bufferSum
      modifies this`lastResponse, this`text, buffer
      ensures Valid()
      ensures (State(), lastResponse == 0, signal) == Hear(old(State()), old(lastResponse) == 0, b)
      ensures lastResponse == if signal.Answered? then b else old(lastResponse)
      ensures status == ReceiveStatus(signal)
      ensures buffer[..] == Kept(old(State()), old(lastResponse) == 0, old(buffer[..]), b)
    {
      hide Judge, Tracks;
      status, signal := STATUS_OK, Line(Quiet);
      if b == START_OF_MESSAGE {
        readingMessage := true;
        currentByte := 0;
        messageLen := 255;
        nibbleBuffer := 0;
        bufferSum := 0;
        text := [];
        TracksStart(buffer[..]);
      } else if b == ACK && lastResponse == 0 {
        lastResponse := ACK;
        signal := Answered(true);
      } else if b == NAK && lastResponse == 0 {
        lastResponse := NAK;
        signal := Answered(false);
      } else if readingMessage {
        status, signal := ReceiveDigit(b);
      } else {
        status, signal := STATUS_JUNK, Line(Junk);
      }
    }

    function ReadyToSend(now: int): (status: int)
      reads this
    {
      if lastResponse == ACK then STATUS_OK
      else if lastResponse == NAK then STATUS_NAK
      else if now - lastSent > 1 then STATUS_TIMEOUT
      else STATUS_WAIT
    }

    /** `written` is the status of send_bytes, zero for success. */
    method SendMessage(data: seq<byte>, now: int, written: int) returns (status: int, wire: seq<byte>)
      requires Valid() && |data| < 256 && Sendable(|data|)
      modifies this`lastResponse, this`lastSent, this`outputBufferLen, this`outputAttemptCount, outputBuffer
      ensures Valid()
      ensures 1 <= |data| <= MAX_MESSAGE_SIZE ==>
              && status == written && wire == Encode(data) && Output() == data
              && lastResponse == 0 && lastSent == if written == 0 then now else old(lastSent)
      ensures !(1 <= |data| <= MAX_MESSAGE_SIZE) ==>
              && status == (if data == [] then STATUS_ERROR else STATUS_MESSAGE_TOO_BIG) && wire == []
              && Output() == old(Output()) && lastResponse == old(lastResponse) && lastSent == old(lastSent)
    {
      hide Encode, Tracks;
      var len: byte := |data|;
      wire := [];
      if len > MAX_MESSAGE_SIZE {
        return STATUS_MESSAGE_TOO_BIG, wire;
      }
      if len == 0 {
        return STATUS_ERROR, wire;
      }
      wire := Stage(data);
      forall i | 0 <= i < |data| {
        outputBuffer[i] := data[i];
      }
      assert buffer[..] == old(buffer[..]);
      outputBufferLen := len;
      outputAttemptCount := 1;
      lastResponse := 0;
      status := written;
      if status == 0 {
        lastSent := now;
      }
    }
  }

  lemma HexAppend(values: seq<byte>, x: byte)
    ensures Hex(values + [x]) == Hex(values) + [HexDigit(x / 16), HexDigit(x % 16)]
  {
    var text := Hex(values + [x]);
    forall i | 0 <= i < 2 * |values| ensures text[i] == Hex(values)[i] {
      assert (values + [x])[i / 2] == values[i / 2];
    }
  }

  method PutByte(staging: array<byte>, at: nat, b: byte)
    requires at + 2 <= staging.Length
    modifies staging
    ensures staging[..at + 2] == old(staging[..at]) + [HexDigit(b / 16), HexDigit(b % 16)]
  {
    staging[at] := HexDigit(b / 16);
    staging[at + 1] := HexDigit(b % 16);
  }

  /** Writes a frame into the staging array. */
  method Stage(data: seq<byte>) returns (wire: seq<byte>)
    requires 1 <= |data| <= MAX_MESSAGE_SIZE && Sendable(|data|)
    ensures wire == Encode(data)
  {
    hide Hex, Checksum, HexDigit;
    var checksum: byte := |data| + 1;
    var staging := new byte[STAGING_SIZE];
    ghost var all := FrameValues(data);
    staging[0] := START_OF_MESSAGE;
    PutByte(staging, 1, checksum);
    ChecksumAppend([], checksum);
    HexAppend([], checksum);
    assert all[..1] == [checksum] == [] + [checksum] && Hex([]) == [];
    var k := 0;
    while k < |data|
      invariant 0 <= k <= |data|
      invariant checksum == Checksum(all[..k + 1])
      invariant staging[..3 + 2 * k] == [START_OF_MESSAGE] + Hex(all[..k + 1])
    {
      ChecksumAppend(all[..k + 1], data[k]);
      HexAppend(all[..k + 1], data[k]);
      assert all[..k + 2] == all[..k + 1] + [data[k]];
      checksum := (checksum + data[k]) % 256;
      PutByte(staging, 3 + 2 * k, data[k]);
      k := k + 1;
    }
    assert all[..k + 1] == Covered(data);
    HexAppend(Covered(data), checksum);
    PutByte(staging, 3 + 2 * k, checksum);
    wire := staging[..5 + 2 * k];
  }
}
