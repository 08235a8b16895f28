/** The outgoing queue: eight slots, one transmission at a time, three attempts a
    message.

    `Station` is the state shared by the ring and the sending half of the link;
    its operations are functions here and methods of class MessageQueue below.
    The effects of an operation, in order, are a list of `Act`. */
module Outbox {
  import opened Bytes
  import opened Framing
  import opened Link

  const SLOTS := 8
  const MAX_ATTEMPTS := 3

  /** ge_message_s.  `finished` is the callback's context; None is a null callback. */
  datatype Slot = Slot(msg: seq<byte>, attempts: byte, finished: Option<nat>)

  datatype Act =
    | Transmitted(wire: seq<byte>)
    | Completed(finished: Option<nat>, status: int)

  /** `armed` says whether ge_queue_got_response is installed on the link. */
  datatype Station = Station(
    slots: seq<Slot>, head: nat, tail: nat,
    response: byte, lastSent: int, output: seq<byte>, armed: bool)

  predicate WellFormed(s: Station) {
    && |s.slots| == SLOTS && s.head < SLOTS && s.tail < SLOTS
    && forall i :: 0 <= i < SLOTS ==> |s.slots[i].msg| <= MAX_MESSAGE_SIZE
  }

  const START := Station(Repeat(Slot([], 0, None), SLOTS), 0, 0, ACK, 0, [], false)

  /** The cell after k, round the ring. */
  function NextCell(k: nat): (n: nat)
    requires k < SLOTS
    ensures n < SLOTS
  {
    if k == SLOTS - 1 then 0 else k + 1
  }

  /** One attempt more, in eight bits. */
  function NextCount(attempts: byte): byte {
    if attempts == 255 then 0 else attempts + 1
  }

  lemma RingArithmetic(head: nat, tail: nat)
    requires head < SLOTS && tail < SLOTS
    ensures NextCell(head) == (head + 1) % SLOTS
    ensures (tail - head) % SLOTS == if head <= tail then tail - head else tail + SLOTS - head
  {
  }

  /** ge_rs232_ready_to_send. */
  function Ready(s: Station, now: int): int {
    if s.response == ACK then STATUS_OK
    else if s.response == NAK then STATUS_NAK
    else if now - s.lastSent > 1 then STATUS_TIMEOUT
    else STATUS_WAIT
  }

  /** ge_queue_got_response: the head leaves the ring if it was acknowledged or
      has used up its attempts. */
  function Settle(s: Station, now: int): (res: (Station, seq<Act>))
    requires WellFormed(s)
    ensures WellFormed(res.0)
  {
    var status := Ready(s, now);
    var m := s.slots[s.head];
    if status == STATUS_OK || m.attempts >= MAX_ATTEMPTS then
      (s.(head := NextCell(s.head), armed := false), [Completed(m.finished, status)])
    else
      (s.(armed := false), [])
  }

  /** The second half of ge_queue_update, with ge_rs232_send_message. */
  function Transmit(s: Station, now: int, written: int): (res: (Station, seq<Act>, int))
    requires WellFormed(s)
    ensures WellFormed(res.0)
  {
    var m := s.slots[s.head];
    var tried := s.(slots := s.slots[s.head := m.(attempts := NextCount(m.attempts))], armed := true);
    if m.msg == [] then (tried, [], STATUS_ERROR)
    else
      (tried.(response := 0, output := m.msg, lastSent := if written == 0 then now else s.lastSent),
       [Transmitted(Encode(m.msg))], written)
  }

  /** ge_queue_update. */
  function Advance(s: Station, now: int, written: int): (res: (Station, seq<Act>, int))
    requires WellFormed(s)
    ensures WellFormed(res.0)
  {
    if s.head == s.tail || Ready(s, now) == STATUS_WAIT then (s, [], STATUS_OK)
    else
      var (settled, done) := if Ready(s, now) == STATUS_TIMEOUT && s.armed then Settle(s, now) else (s, []);
      var (sent, wires, status) := Transmit(settled, now, written);
      (sent, done + wires, status)
  }

  /** Messages between head and tail: tail - head, round the ring. */
  function Occupancy(s: Station): (n: nat)
    requires WellFormed(s)
    ensures n < SLOTS
  {
    if s.head <= s.tail then s.tail - s.head else s.tail + SLOTS - s.head
  }

  /** ge_queue_message.  A full ring is reported, but the message is stored and the
      tail moves on all the same. */
  function Enqueue(s: Station, msg: seq<byte>, finished: Option<nat>, now: int, written: int)
    : (res: (Station, seq<Act>, int))
    requires WellFormed(s) && |msg| <= MAX_MESSAGE_SIZE
    ensures WellFormed(res.0)
  {
    var stored := s.(slots := s.slots[s.tail := Slot(msg, 0, finished)], tail := NextCell(s.tail));
    var (updated, acts, _) := Advance(stored, now, written);
    (updated, acts, if Occupancy(s) == SLOTS - 1 then STATUS_QUEUE_FULL else STATUS_OK)
  }

  /** An ACK or NAK byte; nothing happens unless an answer is due. */
  function Answer(s: Station, b: byte, now: int): (res: (Station, seq<Act>))
    requires WellFormed(s) && IsAnswer(b)
    ensures WellFormed(res.0)
  {
    if s.response != 0 then (s, [])
    else
      var heard := s.(response := b);
      if s.armed then Settle(heard, now) else (heard, [])
  }

  /** ge_queue_s, with the link it owns. */
  class MessageQueue {
    const link: SerialLink
    const queue: array<Slot>
    var head: byte
    var tail: byte

    ghost predicate Valid()
      reads this, link, link.buffer, link.outputBuffer, queue
    {
      && link.Valid()
      && queue.Length == SLOTS && head < SLOTS && tail < SLOTS
      && forall i :: 0 <= i < SLOTS ==> |queue[i].msg| <= MAX_MESSAGE_SIZE && Sendable(|queue[i].msg|)
    }

    ghost function State(): (s: Station)
      reads this, link, link.buffer, link.outputBuffer, queue
      requires Valid()
      ensures WellFormed(s)
    {
      Station(queue[..], head, tail, link.lastResponse, link.lastSent, link.Output(), link.gotResponse)
    }

    constructor ()
      ensures Valid() && fresh(queue) && fresh(link) && fresh(link.buffer) && fresh(link.outputBuffer)
      ensures State() == START && link.State() == Idle && link.buffer[..] == Repeat(0, MAX_MESSAGE_SIZE)
    {
      link := new SerialLink();
      queue := new Slot[SLOTS](_ => Slot([], 0, None));
      head, tail := 0, 0;
      new;
      assert queue[..] == START.slots;
    }

    method GotResponse(now: int) returns (acts: seq<Act>)
      requires Valid()
      modifies this`head, link`gotResponse
      ensures Valid() && link.State() == old(link.State())
      ensures (State(), acts) == Settle(old(State()), now)
    {
      RingArithmetic(head, tail);
      acts := [];
      var status := link.ReadyToSend(now);
      var message := queue[head];
      if status == STATUS_OK || message.attempts >= MAX_ATTEMPTS {
        acts := [Completed(message.finished, status)];
        head := (head + 1) % SLOTS;
      }
      link.gotResponse := false;
    }

    /** The tail of Update, from the choice of the message on. */
    method TransmitHead(now: int, written: int) returns (status: int, acts: seq<Act>)
      requires Valid()
      modifies queue, link, link.outputBuffer
      ensures Valid() && link.State() == old(link.State())
      ensures (State(), acts, status) == Transmit(old(State()), now, written)
    {
      hide Tracks, Encode;
      var message := queue[head];
      queue[head] := message.(attempts := (message.attempts + 1) % 256);
      assert queue[..] == old(queue[..])[head := queue[head]];
      link.gotResponse := true;
      var wire;
      status, wire := link.SendMessage(message.msg, now, written);
      acts := if wire == [] then [] else [Transmitted(wire)];
    }

    method Update(now: int, written: int) returns (status: int, acts: seq<Act>)
      requires Valid()
      modifies this`head, queue, link, link.outputBuffer
      ensures Valid() && link.State() == old(link.State())
      ensures (State(), acts, status) == Advance(old(State()), now, written)
    {
      hide Transmit, Settle, Tracks;
      status, acts := STATUS_OK, [];
      if head == tail {
        return;
      }
      if link.ReadyToSend(now) == STATUS_WAIT {
        return;
      }
      if link.ReadyToSend(now) == STATUS_TIMEOUT && link.gotResponse {
        acts := GotResponse(now);
      }
      var sent;
      status, sent := TransmitHead(now, written);
      acts := acts + sent;
    }

    method QueueMessage(data: seq<byte>, finished: Option<nat>, now: int, written: int)
      returns (status: int, acts: seq<Act>)
      requires Valid() && |data| <= MAX_MESSAGE_SIZE && Sendable(|data|)
      modifies this, queue, link, link.outputBuffer
      ensures Valid() && link.State() == old(link.State())
      ensures (State(), acts, status) == Enqueue(old(State()), data, finished, now, written)
    {
      hide Advance, Tracks;
      RingArithmetic(head, tail);
      RingArithmetic(tail, head);
      status := STATUS_OK;
      if (tail - head) % SLOTS == SLOTS - 1 {
        status := STATUS_QUEUE_FULL;
      }
      queue[tail] := Slot(data, 0, finished);
      assert queue[..] == old(queue[..])[tail := queue[tail]];
      tail := (tail + 1) % SLOTS;
      var updateStatus;
      updateStatus, acts := Update(now, written);
    }

    /** One byte from the line, with the got_response callback if it is called. */
    method ReceiveByte(b: byte, now: int) returns (signal: Signal, acts: seq<Act>)
      requires Valid()
      modifies this`head, link, link.buffer
      ensures Valid()
      ensures (link.State(), State().response == 0, signal) == Hear(old(link.State()), old(State()).response == 0, b)
      ensures if signal.Answered? then (State(), acts) == Answer(old(State()), b, now)
              else State() == old(State()) && acts == []
      ensures link.buffer[..] == Kept(old(link.State()), old(State()).response == 0, old(link.buffer[..]), b)
    {
      acts := [];
      var status;
      status, signal := link.ReceiveByte(b);
      if signal.Answered? && link.gotResponse {
        acts := GotResponse(now);
      }
    }
  }
}
