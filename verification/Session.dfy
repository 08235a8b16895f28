/** The daemon byte by byte.

    A session is any interleaving of bytes from the line, calls and ticks, with the
    refresh at start-up.  The main theorem refines it to a run of turns of module
    Replies, whose frames are exactly those that the receiver delivers from the
    bytes read, and whose mirror is the one that module History describes; what is
    written back and what subscribers are told are functions of the same bytes and
    the same history. */
module Session {
  import opened Bytes
  import opened Framing
  import opened Link
  import opened Outbox
  import opened Panel
  import opened History
  import opened EventLog
  import opened Replies
  import Protocol
  import Commands

  datatype Side = Side(receiver: Receiver, buffer: seq<byte>, server: Server)

  datatype Happening =
    | Byte(b: byte, now: int, written: int)
    | Asked(c: Call, now: int, written: int)
    | Passed(now: int, written: int)
    | Started(now: int, written: int)   // the refresh that no client asked for

  const AT_START := Side(Idle, Repeat(0, MAX_MESSAGE_SIZE), POWER_UP)

  predicate Whole(l: Side) {
    |l.buffer| == MAX_MESSAGE_SIZE && Shape(l.server.mirror) && WellFormed(l.server.world.station)
  }

  /** What the frame handlers are given when a payload is delivered. */
  function FrameOf(signal: Signal, buffer: seq<byte>): (f: Option<Frame>)
    requires |buffer| == MAX_MESSAGE_SIZE
    requires PayloadIn(signal).Some? ==> LegalPayload(PayloadIn(signal).value)
    ensures f.Some? <==> PayloadIn(signal).Some?
    ensures f.Some? ==> f.value.data == buffer && f.value.length == |PayloadIn(signal).value|
  {
    match PayloadIn(signal)
    case None => None
    case Some(payload) => Some(Packet(buffer, |payload|))
  }

  predicate Awaiting(l: Side) {
    l.server.world.station.response == 0
  }

  function Heard(l: Side, b: byte): (signal: Signal)
    ensures signal.Answered? ==> IsAnswer(b)
    ensures PayloadIn(signal).Some? ==> LegalPayload(PayloadIn(signal).value)
  {
    Hear(l.receiver, Awaiting(l), b).2
  }

  /** The bytes a happening puts before the receiver proper: NUL is dropped when it is
      read, and an answer that is due is taken out of the stream. */
  function Read(l: Side, x: Happening): seq<byte> {
    if x.Byte? && x.b != 0 && !(Awaiting(l) && IsAnswer(x.b)) then [x.b] else []
  }

  /** The turn a happening amounts to, if any.  The queue is left alone while a frame
      is being read. */
  function TurnOf(l: Side, x: Happening, listener: bool): (t: Option<Turn>)
    requires Whole(l)
  {
    match x
    case Asked(c, now, written) => Some(Called(c, now, written))
    case Passed(now, written) => if l.receiver.InFrame? then None else Some(Other(Protocol.Tick(now, written)))
    case Started(now, written) => Some(Inward(RefreshRequested(now), listener, written))
    case Byte(b, now, written) =>
      if b == 0 then None
      else if Heard(l, b).Answered? then Some(Other(Protocol.AnswerByte(b == ACK, now)))
      else
        match FrameOf(Heard(l, b), Kept(l.receiver, Awaiting(l), l.buffer, b))
        case None => None
        case Some(f) => Some(Inward(Received(f, now), listener, written))
  }

  /** The state after one happening; None beyond the limits. */
  function Next(l: Side, x: Happening, listener: bool): (l': Option<Side>)
    requires Whole(l)
    ensures l'.Some? ==> Whole(l'.value)
  {
    var read := x.Byte? && x.b != 0;
    var receiver := if read then Hear(l.receiver, Awaiting(l), x.b).0 else l.receiver;
    var buffer := if read then Kept(l.receiver, Awaiting(l), l.buffer, x.b) else l.buffer;
    match TurnOf(l, x, listener)
    case None => Some(Side(receiver, buffer, l.server))
    case Some(t) =>
      if LegalTurn(l.server, t) && AllowedTurn(l.server, t)
      then Some(Side(receiver, buffer, Take(l.server, t))) else None
  }

  /** What a happening writes back to the line. */
  function AnswersTo(l: Side, x: Happening): seq<byte> {
    if !x.Byte? || x.b == 0 then []
    else match Heard(l, x.b)
      case Line(outcome) => AnswerOf(outcome)
      case Answered(_) => []
  }

  /** What subscribers are told. */
  function NewsOf(l: Side, x: Happening, listener: bool): seq<Note>
    requires Whole(l) && Next(l, x, listener).Some?
  {
    match TurnOf(l, x, listener)
    case Some(Inward(input, _, _)) => React(l.server.mirror, input, listener).notes
    case _ => []
  }

  function Live(xs: seq<Happening>, listener: bool): (l: Option<Side>)
    ensures l.Some? ==> Whole(l.value)
  {
    if xs == [] then Some(AT_START)
    else
      var before := Live(xs[..|xs| - 1], listener);
      if before.None? then None else Next(before.value, xs[|xs| - 1], listener)
  }

  /** A read of several bytes at once. */
  function Reading(l: Side, bytes: seq<byte>, now: int, written: int, listener: bool): (l': Option<Side>)
    requires Whole(l)
    ensures l'.Some? ==> Whole(l'.value)
    decreases bytes
  {
    if bytes == [] then Some(l)
    else
      match Next(l, Byte(bytes[0], now, written), listener)
      case None => None
      case Some(l1) => Reading(l1, bytes[1..], now, written, listener)
  }

  /** All that is written back, and all that subscribers are told, over one read. */
  function ReadingSays(l: Side, bytes: seq<byte>, now: int, written: int, listener: bool): (seq<byte>, seq<Note>)
    requires Whole(l) && Reading(l, bytes, now, written, listener).Some?
    decreases bytes
  {
    if bytes == [] then ([], [])
    else
      var x := Byte(bytes[0], now, written);
      var (answers, notes) := ReadingSays(Next(l, x, listener).value, bytes[1..], now, written, listener);
      (AnswersTo(l, x) + answers, NewsOf(l, x, listener) + notes)
  }

  lemma ReadingStep(l: Side, bytes: seq<byte>, now: int, written: int, listener: bool)
    requires Whole(l) && bytes != [] && Reading(l, bytes, now, written, listener).Some?
    ensures var x := Byte(bytes[0], now, written);
            && Next(l, x, listener).Some?
            && Reading(l, bytes, now, written, listener)
               == Reading(Next(l, x, listener).value, bytes[1..], now, written, listener)
            && var (answers, notes) := ReadingSays(Next(l, x, listener).value, bytes[1..], now, written, listener);
               ReadingSays(l, bytes, now, written, listener)
               == (AnswersTo(l, x) + answers, NewsOf(l, x, listener) + notes)
  {
    hide Next, AnswersTo, NewsOf;
  }

  lemma ReadingNothing(l: Side, now: int, written: int, listener: bool)
    requires Whole(l)
    ensures Reading(l, [], now, written, listener) == Some(l)
    ensures ReadingSays(l, [], now, written, listener) == ([], [])
  {
  }

  function Each(bytes: seq<byte>, now: int, written: int): seq<Happening> {
    seq(|bytes|, i requires 0 <= i < |bytes| => Byte(bytes[i], now, written))
  }

  /** ... is the session going on with each of them. */
  lemma {:induction false} ReadingGoesOn(xs: seq<Happening>, bytes: seq<byte>, now: int, written: int, listener: bool)
    requires Live(xs, listener).Some?
    ensures Live(xs + Each(bytes, now, written), listener)
         == Reading(Live(xs, listener).value, bytes, now, written, listener)
    decreases bytes
  {
    hide Next;
    if bytes == [] {
      assert xs + Each(bytes, now, written) == xs;
    } else {
      var x := Byte(bytes[0], now, written);
      var rest := Each(bytes[1..], now, written);
      assert (xs + [x])[..|xs|] == xs;
      assert xs + Each(bytes, now, written) == xs + [x] + rest;
      LiveBefore(xs + [x], rest, listener);
      if Live(xs + [x], listener).Some? {
        ReadingGoesOn(xs + [x], bytes[1..], now, written, listener);
      }
    }
  }

  /** A session within its limits has been so from the start. */
  lemma {:induction false} LiveBefore(xs: seq<Happening>, more: seq<Happening>, listener: bool)
    ensures Live(xs + more, listener).Some? ==> Live(xs, listener).Some?
  {
    hide Next;
    if more == [] {
      assert xs + more == xs;
    } else {
      assert (xs + more)[..|xs + more| - 1] == xs + more[..|more| - 1];
      LiveBefore(xs, more[..|more| - 1], listener);
    }
  }

  function TurnsIn(xs: seq<Happening>, listener: bool): seq<Turn>
    requires Live(xs, listener).Some?
  {
    if xs == [] then []
    else
      var n := |xs| - 1;
      TurnsIn(xs[..n], listener) +
      match TurnOf(Live(xs[..n], listener).value, xs[n], listener) case None => [] case Some(t) => [t]
  }

  function BytesRead(xs: seq<Happening>, listener: bool): seq<byte>
    requires Live(xs, listener).Some?
  {
    if xs == [] then []
    else
      var n := |xs| - 1;
      BytesRead(xs[..n], listener) + Read(Live(xs[..n], listener).value, xs[n])
  }

  function Written(xs: seq<Happening>, listener: bool): seq<byte>
    requires Live(xs, listener).Some?
  {
    if xs == [] then []
    else
      var n := |xs| - 1;
      Written(xs[..n], listener) + AnswersTo(Live(xs[..n], listener).value, xs[n])
  }

  function Told(xs: seq<Happening>, listener: bool): seq<Note>
    requires Live(xs, listener).Some?
  {
    if xs == [] then []
    else
      var n := |xs| - 1;
      Told(xs[..n], listener) + NewsOf(Live(xs[..n], listener).value, xs[n], listener)
  }

  lemma OneMoreSaid(xs: seq<Happening>, x: Happening, listener: bool)
    requires Live(xs, listener).Some? && Live(xs + [x], listener).Some?
    ensures var l := Live(xs, listener).value;
            && Next(l, x, listener) == Live(xs + [x], listener)
            && Written(xs + [x], listener) == Written(xs, listener) + AnswersTo(l, x)
            && Told(xs + [x], listener) == Told(xs, listener) + NewsOf(l, x, listener)
  {
    hide Next, AnswersTo, NewsOf;
    assert (xs + [x])[..|xs|] == xs;
  }

  /** What is said over one read is added to what was said before. */
  lemma {:induction false} ReadingSaysMore(xs: seq<Happening>, bytes: seq<byte>, now: int, written: int, listener: bool)
    requires Live(xs, listener).Some? && Live(xs + Each(bytes, now, written), listener).Some?
    ensures Reading(Live(xs, listener).value, bytes, now, written, listener).Some?
    ensures var (answers, notes) := ReadingSays(Live(xs, listener).value, bytes, now, written, listener);
            && Written(xs + Each(bytes, now, written), listener) == Written(xs, listener) + answers
            && Told(xs + Each(bytes, now, written), listener) == Told(xs, listener) + notes
    decreases bytes
  {
    hide Next, AnswersTo, NewsOf, Written, Told, Live;
    ReadingGoesOn(xs, bytes, now, written, listener);
    if bytes == [] {
      assert xs + Each(bytes, now, written) == xs;
    } else {
      var x := Byte(bytes[0], now, written);
      assert xs + Each(bytes, now, written) == xs + [x] + Each(bytes[1..], now, written);
      LiveBefore(xs + [x], Each(bytes[1..], now, written), listener);
      OneMoreSaid(xs, x, listener);
      ReadingSaysMore(xs + [x], bytes[1..], now, written, listener);
    }
  }

  // ------------------------------------------------------------- turns and history

  /** What a turn tells the tables. */
  function InputOf(t: Turn): seq<Input> {
    match t
    case Inward(x, _, _) => [x]
    case Called(RefreshAll, now, _) => [RefreshRequested(now)]
    case _ => []
  }

  function Inputs(t: Option<Turn>): seq<Input> {
    match t case None => [] case Some(t) => InputOf(t)
  }

  function InputsIn(turns: seq<Turn>): seq<Input> {
    if turns == [] then [] else InputsIn(turns[..|turns| - 1]) + InputOf(turns[|turns| - 1])
  }

  predicate HeardWith(turns: seq<Turn>, listener: bool) {
    forall t :: t in turns && t.Inward? ==> t.listener == listener
  }

  lemma OneMoreInput(h: seq<Input>, x: Input, listener: bool)
    requires Bounded(h, listener) && InBounds(After(h, listener), x)
    ensures Bounded(h + [x], listener)
    ensures After(h + [x], listener) == React(After(h, listener), x, listener).panel
  {
    hide InBounds, React;
    assert (h + [x])[..|h|] == h;
  }

  lemma TurnTellsMirror(s: Server, t: Turn)
    requires Shape(s.mirror) && WellFormed(s.world.station) && LegalTurn(s, t)
    ensures var m := Take(s, t).mirror;
            match t
            case Inward(x, listener, _) => m == React(s.mirror, x, listener).panel
            case Called(RefreshAll, now, _) => m == Refreshed(s.mirror)
            case _ => m == s.mirror
  {
    hide React, Refreshed, Shape, InBounds, Commands.Submission, Protocol.Step, CallBack;
  }

  /** The mirror of a run is the one its frames and refreshes make. */
  lemma {:induction false} MirrorIsHistory(turns: seq<Turn>, listener: bool)
    requires Day(turns).Some? && HeardWith(turns, listener)
    ensures var h := InputsIn(turns);
            Bounded(h, listener) && Day(turns).value.mirror == After(h, listener)
  {
    if turns != [] {
      hide After, Bounded, React, Take, Shape, AllowedTurn, InBounds;
      var n := |turns| - 1;
      var h, t := InputsIn(turns[..n]), turns[n];
      MirrorIsHistory(turns[..n], listener);
      var s := Day(turns[..n]).value;
      TurnTellsMirror(s, t);
      match t
      case Inward(x, _, _) => OneMoreInput(h, x, listener);
      case Called(RefreshAll, now, _) =>
        NoFrame(s.mirror, now);
        OneMoreInput(h, RefreshRequested(now), listener);
      case _ => assert h + [] == h;
    } else {
      NoHistory(listener);
    }
  }

  lemma NoHistory(listener: bool)
    ensures Bounded([], listener) && After([], listener) == BLANK
  {
  }

  lemma NoFrame(m: Mirror, now: int)
    requires Shape(m)
    ensures InBounds(m, RefreshRequested(now))
    ensures forall listener :: React(m, RefreshRequested(now), listener).panel == Refreshed(m)
    ensures forall listener :: React(m, RefreshRequested(now), listener).notes == []
  {
  }

  // ---------------------------------------------------------------- the refinement

  lemma NextTakesTurn(l: Side, x: Happening, listener: bool)
    requires Whole(l) && Next(l, x, listener).Some?
    ensures var server := Next(l, x, listener).value.server;
            match TurnOf(l, x, listener)
            case None => server == l.server
            case Some(t) => LegalTurn(l.server, t) && AllowedTurn(l.server, t) && server == Take(l.server, t)
    ensures var t := TurnOf(l, x, listener);
            t.Some? && t.value.Inward? ==> t.value.listener == listener
  {
    hide Take, Hear, Kept, LegalTurn, AllowedTurn, FrameOf, Heard;
  }

  lemma {:induction false} SessionIsDay(xs: seq<Happening>, listener: bool)
    requires Live(xs, listener).Some?
    ensures Day(TurnsIn(xs, listener)) == Some(Live(xs, listener).value.server)
    ensures HeardWith(TurnsIn(xs, listener), listener)
  {
    if xs != [] {
      hide Take, LegalTurn, AllowedTurn, Next, TurnOf, Shape;
      var n := |xs| - 1;
      SessionIsDay(xs[..n], listener);
      var l := Live(xs[..n], listener).value;
      NextTakesTurn(l, xs[n], listener);
      match TurnOf(l, xs[n], listener)
      case None => assert TurnsIn(xs, listener) == TurnsIn(xs[..n], listener);
      case Some(t) => assert TurnsIn(xs, listener)[..|TurnsIn(xs, listener)| - 1] == TurnsIn(xs[..n], listener);
    }
  }

  /** The payloads of the frames in a history. */
  function Payloads(h: seq<Input>): seq<seq<byte>> {
    if h == [] then []
    else
      var x := Last(h);
      Payloads(Init(h)) + if x.Received? then [x.frame.data[..x.frame.length]] else []
  }

  lemma {:induction false} PayloadsConcat(a: seq<Input>, b: seq<Input>)
    ensures Payloads(a + b) == Payloads(a) + Payloads(b)
  {
    if b == [] {
      assert a + b == a;
    } else {
      assert Init(a + b) == a + Init(b);
      PayloadsConcat(a, Init(b));
    }
  }

  /** What one happening adds to the history, as the receiver delivers it. */
  lemma NextDelivers(l: Side, x: Happening, listener: bool)
    requires Whole(l) && Holds(l.receiver, l.buffer) && Next(l, x, listener).Some?
    ensures var l' := Next(l, x, listener).value;
            var (r, outcomes) := Feed(l.receiver, Read(l, x));
            && Holds(l'.receiver, l'.buffer) && l'.receiver == r
            && Payloads(Inputs(TurnOf(l, x, listener))) == Delivered(outcomes)
            && AnswersTo(l, x) == Answers(outcomes)
  {
    hide Take, Judge, Holds, Kept, LegalTurn, AllowedTurn, Receive, Feed, Delivered, Payloads;
    NothingRead(l.receiver);
    if x.Byte? && x.b != 0 {
      HandedOver(l.receiver, Awaiting(l), l.buffer, x.b);
      if Read(l, x) == [x.b] {
        FeedOne(l.receiver, x.b);
        PayloadOfFrame(FrameOf(Heard(l, x.b), Kept(l.receiver, Awaiting(l), l.buffer, x.b)), x.now);
        assert Delivered(Feed(l.receiver, Read(l, x)).1) == PayloadOf(Receive(l.receiver, x.b).1);
        if PayloadIn(Heard(l, x.b)).Some? {
          var buffer := Kept(l.receiver, Awaiting(l), l.buffer, x.b);
          var payload := PayloadIn(Heard(l, x.b)).value;
          assert payload <= buffer && buffer[..|payload|] == payload;
          assert Inputs(TurnOf(l, x, listener)) == [Received(Packet(buffer, |payload|), x.now)];
        }
      }
    } else {
      NotHeard(TurnOf(l, x, listener));
    }
  }

  lemma NotHeard(t: Option<Turn>)
    requires t.Some? && t.value.Inward? ==> !t.value.x.Received?
    ensures Payloads(Inputs(t)) == []
  {
  }

  lemma PayloadOfFrame(f: Option<Frame>, now: int)
    ensures f.Some? ==> Payloads([Received(f.value, now)]) == [f.value.data[..f.value.length]]
    ensures forall at :: Payloads([RefreshRequested(at)]) == []
  {
  }

  lemma MoreDelivered(turns: seq<Turn>, t: Option<Turn>, before: seq<byte>, read: seq<byte>)
    requires Payloads(InputsIn(turns)) == Delivered(Feed(Idle, before).1)
    requires Payloads(Inputs(t)) == Delivered(Feed(Feed(Idle, before).0, read).1)
    ensures var all := match t case None => turns + [] case Some(t) => turns + [t];
            && Payloads(InputsIn(all)) == Delivered(Feed(Idle, before + read).1)
            && Feed(Idle, before + read).0 == Feed(Feed(Idle, before).0, read).0
  {
    hide Feed, Delivered, InputOf;
    var (r, outcomes) := Feed(Idle, before);
    FeedConcat(Idle, before, read);
    DeliveredConcat(outcomes, Feed(r, read).1);
    PayloadsConcat(InputsIn(turns), Inputs(t));
    match t
    case None =>
      assert turns + [] == turns && InputsIn(turns) + [] == InputsIn(turns);
    case Some(t) =>
      assert (turns + [t])[..|turns|] == turns;
  }

  lemma MoreWritten(before: seq<byte>, read: seq<byte>)
    ensures var (r, outcomes) := Feed(Idle, before);
            Answers(Feed(Idle, before + read).1) == Answers(outcomes) + Answers(Feed(r, read).1)
  {
    hide Feed, Answers;
    FeedConcat(Idle, before, read);
    DeliveredConcat(Feed(Idle, before).1, Feed(Feed(Idle, before).0, read).1);
  }

  /** Subscribers are told what the history has to say. */
  lemma {:induction false} ToldIsHistory(xs: seq<Happening>, listener: bool)
    requires Live(xs, listener).Some?
    ensures var h := InputsIn(TurnsIn(xs, listener));
            Bounded(h, listener) && Told(xs, listener) == Notes(h, listener)
  {
    SessionIsDay(xs, listener);
    MirrorIsHistory(TurnsIn(xs, listener), listener);
    if xs != [] {
      var n := |xs| - 1;
      ToldIsHistory(xs[..n], listener);
      SessionIsDay(xs[..n], listener);
      MirrorIsHistory(TurnsIn(xs[..n], listener), listener);
      NextTells(Live(xs[..n], listener).value, xs[n], TurnsIn(xs[..n], listener), listener);
    } else {
      NoNotes(listener);
    }
  }

  lemma NoNotes(listener: bool)
    ensures Bounded([], listener) && Notes([], listener) == []
  {
  }

  lemma NotesOfOneMore(h: seq<Input>, x: Input, listener: bool)
    requires Bounded(h, listener)
    ensures Bounded(h + [x], listener) ==>
            && InBounds(After(h, listener), x)
            && Notes(h + [x], listener) == Notes(h, listener) + React(After(h, listener), x, listener).notes
  {
    hide React, InBounds, After;
    assert Init(h + [x]) == h && (h + [x])[..|h|] == h;
  }

  /** One happening more. */
  lemma NextTells(l: Side, x: Happening, turns: seq<Turn>, listener: bool)
    requires Whole(l) && Next(l, x, listener).Some?
    requires var h := InputsIn(turns);
             Bounded(h, listener) && l.server.mirror == After(h, listener)
    ensures var h' := InputsIn(turns + match TurnOf(l, x, listener) case None => [] case Some(t) => [t]);
            Bounded(h', listener) ==>
              Notes(h', listener) == Notes(InputsIn(turns), listener) + NewsOf(l, x, listener)
  {
    hide React, Bounded, After, Shape, InBounds, Next, Notes;
    var h := InputsIn(turns);
    NextTakesTurn(l, x, listener);
    match TurnOf(l, x, listener)
    case None =>
      assert turns + [] == turns && Notes(h, listener) + [] == Notes(h, listener);
    case Some(t) =>
      assert (turns + [t])[..|turns|] == turns;
      match t {
        case Inward(input, _, _) => NotesOfOneMore(h, input, listener);
        case Called(RefreshAll, now, _) =>
          NotesOfOneMore(h, RefreshRequested(now), listener);
          NoFrame(l.server.mirror, now);
        case _ => assert h + [] == h;
      }
  }

  lemma {:induction false} ReceiverReads(xs: seq<Happening>, listener: bool)
    requires Live(xs, listener).Some?
    ensures var l := Live(xs, listener).value;
            var (r, outcomes) := Feed(Idle, BytesRead(xs, listener));
            && Holds(l.receiver, l.buffer) && l.receiver == r
            && Payloads(InputsIn(TurnsIn(xs, listener))) == Delivered(outcomes)
            && Written(xs, listener) == Answers(outcomes)
  {
    if xs != [] {
      hide Next, TurnOf, Read, Feed, Holds, Delivered, Answers, Inputs, InputsIn, Payloads, Shape, AnswersTo;
      var n := |xs| - 1;
      ReceiverReads(xs[..n], listener);
      var l := Live(xs[..n], listener).value;
      NextDelivers(l, xs[n], listener);
      MoreDelivered(TurnsIn(xs[..n], listener), TurnOf(l, xs[n], listener),
                    BytesRead(xs[..n], listener), Read(l, xs[n]));
      MoreWritten(BytesRead(xs[..n], listener), Read(l, xs[n]));
    } else {
      NothingRead(Idle);
    }
  }

  lemma NothingRead(r: Receiver)
    ensures Feed(r, []) == (r, []) && Delivered([]) == [] && Answers([]) == [] && Payloads([]) == []
    ensures forall buffer :: Holds(Idle, buffer)
  {
  }

  /** After any session the tables are what History says of its frames and refreshes,
      and the payloads of those frames, in order, are what the batch of all bytes
      read delivers.  The answers written are those of that batch, subscribers have
      been told what the history says, and so of every event but output reports. */
  lemma SessionTheorem(xs: seq<Happening>, listener: bool)
    requires Live(xs, listener).Some?
    ensures var l, turns, bytes := Live(xs, listener).value, TurnsIn(xs, listener), BytesRead(xs, listener);
            && Day(turns) == Some(l.server)
            && Bounded(InputsIn(turns), listener) && l.server.mirror == After(InputsIn(turns), listener)
            && Payloads(InputsIn(turns)) == Delivered(BatchParse(bytes))
            && Written(xs, listener) == Answers(BatchParse(bytes))
            && Told(xs, listener) == Notes(InputsIn(turns), listener)
            && PassedOn(Told(xs, listener)) == Reportable(Events(InputsIn(turns)))
  {
    SessionIsDay(xs, listener);
    MirrorIsHistory(TurnsIn(xs, listener), listener);
    ReceiverReads(xs, listener);
    NoNulRead(xs, listener);
    ReceiverRefinesBatch(BytesRead(xs, listener));
    ToldIsHistory(xs, listener);
    EventsArePassedOn(InputsIn(TurnsIn(xs, listener)), listener);
  }

  lemma {:induction false} NoNulRead(xs: seq<Happening>, listener: bool)
    requires Live(xs, listener).Some?
    ensures 0 !in BytesRead(xs, listener)
  {
    if xs != [] {
      NoNulRead(xs[..|xs| - 1], listener);
    }
  }

  /** In the middle of a frame time passes without effect; between frames it is a tick of
      the queue. */
  lemma TickWaits(xs: seq<Happening>, now: int, written: int, listener: bool)
    requires Live(xs, listener).Some?
    ensures var before, after := Live(xs, listener).value, Live(xs + [Passed(now, written)], listener);
            if Feed(Idle, BytesRead(xs, listener)).0 != Idle then after == Some(before)
            else after.Some? ==>
              && after.value.server.world == Protocol.Step(before.server.world, Protocol.Tick(now, written))
              && after.value.server.mirror == before.server.mirror
  {
    ReceiverReads(xs, listener);
    hide Feed, BytesRead, Protocol.Step, AllowedTurn, Shape, Next, Holds, Work;
    assert (xs + [Passed(now, written)])[..|xs|] == xs;
    PassedTicks(Live(xs, listener).value, now, written, listener);
  }

  lemma PassedTicks(l: Side, now: int, written: int, listener: bool)
    requires Whole(l)
    ensures var after := Next(l, Passed(now, written), listener);
            if l.receiver != Idle then after == Some(l)
            else after.Some? ==>
              && after.value.server.world == Protocol.Step(l.server.world, Protocol.Tick(now, written))
              && after.value.server.mirror == l.server.mirror
  {
    hide Protocol.Step, AllowedTurn, Shape, CallBack, ActsOf, Fresh;
  }
}
