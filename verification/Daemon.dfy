/** The daemon's objects put together: the tables, the queue, the commands that
    join them, and the D-Bus desk that owns the callback helpers. */
module Daemon {
  import opened Bytes
  import opened Framing
  import opened Link
  import opened Outbox
  import opened Keys
  import opened Panel
  import opened Commands
  import opened Replies
  import opened Session
  import Protocol
  import I = Instance

  /** A verdict carried out on the queue. */
  function Carried(s: Station, v: Verdict, finished: Option<nat>, now: int, written: int)
    : (res: (Station, seq<Act>, int))
    requires WellFormed(s) && (v.Queued? ==> |v.msg| <= MAX_MESSAGE_SIZE)
    ensures WellFormed(res.0)
  {
    match v
    case Rejected(status) => (s, [], status)
    case Queued(msg) => Enqueue(s, msg, finished, now, written)
  }

  /** What handling a frame does to the tables and the queue: a refresh or a request
      for dynamic data is queued without a callback. */
  predicate FrameHandled(m: Mirror, s: Station, f: Frame, listener: bool, now: int, written: int,
                         m': Mirror, s': Station, notes: seq<Note>, acts: seq<Act>)
    requires Shape(m) && WellFormed(s) && FrameInBounds(m, f)
  {
    var e := Handle(m, f, listener, now);
    && m' == e.panel && notes == e.notes
    && if e.queued == [] then s' == s && acts == []
       else |e.queued[0]| == 1 && (s', acts) == (var r := Enqueue(s, e.queued[0], None, now, written); (r.0, r.1))
  }

  class Daemon {
    const tables: I.Instance
    const queue: MessageQueue
    ghost const QueueRepr: set<object> := {queue, queue.queue, queue.link, queue.link.buffer, queue.link.outputBuffer}

    ghost predicate Valid()
      reads tables, tables.Repr, QueueRepr
    {
      tables.Valid() && queue.Valid() && tables.Repr !! QueueRepr
    }

    constructor (listener: bool)
      ensures Valid() && fresh(tables) && fresh(tables.Repr) && fresh(QueueRepr) && tables.listener == listener
      ensures tables.View() == BLANK && queue.State() == START
      ensures queue.link.State() == Idle && queue.link.buffer[..] == Repeat(0, MAX_MESSAGE_SIZE)
    {
      tables := new I.Instance(listener);
      queue := new MessageQueue();
      new;
      hide Shape, Tracks, BLANK;
    }

    /** concordd_press_keys. */
    method PressKeys(partition: byte, keys: seq<byte>, finished: Option<nat>, now: int, written: int)
      returns (status: int, acts: seq<Act>)
      requires Valid() && Fits(Pressed(partition, keys))
      modifies queue, queue.queue, queue.link, queue.link.outputBuffer
      ensures Valid() && tables.View() == old(tables.View()) && queue.link.State() == old(queue.link.State())
      ensures (queue.State(), acts, status)
           == Carried(old(queue.State()), Pressed(partition, keys), finished, now, written)
    {
      hide Compile, Enqueue;
      var msg := CompileKeys(partition, keys);
      if msg == None {
        return STATUS_ERROR, [];
      }
      status, acts := queue.QueueMessage(msg.value, finished, now, written);
    }

    /** concordd_set_arm_level. */
    method SetArmLevel(i: int, level: int, finished: Option<nat>, now: int, written: int)
      returns (status: int, acts: seq<Act>)
      requires Valid()
      modifies queue, queue.queue, queue.link, queue.link.outputBuffer
      ensures Valid() && tables.View() == old(tables.View()) && queue.link.State() == old(queue.link.State())
      ensures (queue.State(), acts, status)
           == Carried(old(queue.State()), Submission(tables.View(), Request.SetArmLevel(i, level)),
                      finished, now, written)
    {
      CommandsFit(tables.View(), Request.SetArmLevel(i, level));
      hide Pressed, Enqueue, NamesShape;
      acts := [];
      if !(0 <= i < PARTITIONS) || !tables.partitions[i].active {
        return STATUS_INVALID_ARGUMENT, acts;
      }
      var partition := tables.partitions[i];
      var sirenIsOn := partition.sirenRepeat == 0 && partition.sirenStartedAt != 0;
      if sirenIsOn && level != ARM_OFF {
        return STATUS_FORBIDDEN, acts;
      }
      if partition.armLevel != level || sirenIsOn || (partition.entryDelay && level == ARM_OFF) {
        if partition.programming {
          return STATUS_ERROR, acts;
        }
        if level == ARM_OFF {
          status, acts := PressKeys(i, Bracket('2', '0'), finished, now, written);
        } else if level == ARM_STAY {
          status, acts := PressKeys(i, Bracket('2', '8'), finished, now, written);
        } else if level == ARM_AWAY {
          status, acts := PressKeys(i, Bracket('2', '7'), finished, now, written);
        } else {
          status := STATUS_INVALID_ARGUMENT;
        }
      } else {
        status := STATUS_ALREADY;
      }
    }

    /** concordd_set_light. */
    method SetLight(i: int, light: int, on: bool, finished: Option<nat>, now: int, written: int)
      returns (status: int, acts: seq<Act>)
      requires Valid()
      modifies queue, queue.queue, queue.link, queue.link.outputBuffer
      ensures Valid() && tables.View() == old(tables.View()) && queue.link.State() == old(queue.link.State())
      ensures (queue.State(), acts, status)
           == Carried(old(queue.State()), Submission(tables.View(), Request.SetLight(i, light, on)),
                      finished, now, written)
    {
      CommandsFit(tables.View(), Request.SetLight(i, light, on));
      hide Pressed, Enqueue, NamesShape;
      acts := [];
      if tables.refreshPending {
        return STATUS_WAIT, acts;
      }
      if !(0 <= i < PARTITIONS) || !tables.partitions[i].active {
        return STATUS_INVALID_ARGUMENT, acts;
      }
      if tables.partitions[i].programming {
        return STATUS_ERROR, acts;
      }
      if light < 0 || light > 9 {
        return STATUS_INVALID_ARGUMENT, acts;
      }
      status, acts := PressKeys(i, Bracket('1', if on then '0' else '1') + [Digit(light)], finished, now, written);
    }

    /** concordd_set_zone_bypass. */
    method SetZoneBypass(z: int, bypass: bool, user: int, finished: Option<nat>, now: int, written: int)
      returns (status: int, acts: seq<Act>)
      requires Valid()
      modifies queue, queue.queue, queue.link, queue.link.outputBuffer
      ensures Valid() && tables.View() == old(tables.View()) && queue.link.State() == old(queue.link.State())
      ensures (queue.State(), acts, status)
           == Carried(old(queue.State()), Submission(tables.View(), SetBypass(z, bypass, user)), finished, now, written)
    {
      CommandsFit(tables.View(), SetBypass(z, bypass, user));
      hide Pressed, Enqueue, Bit, NamesShape;
      acts := [];
      if tables.refreshPending {
        return STATUS_WAIT, acts;
      }
      if !(0 <= z < ZONES) || !tables.zones[z].active {
        return STATUS_INVALID_ARGUMENT, acts;
      }
      var u := if user == -1 then SYSTEM_USER else user;
      var i := tables.zones[z].partitionId;
      if i >= PARTITIONS || !tables.partitions[i].active {
        return STATUS_INVALID_ARGUMENT, acts;
      }
      if tables.partitions[i].programming {
        return STATUS_ERROR, acts;
      }
      if Bit(tables.zones[z].state, BYPASSED) == bypass {
        return STATUS_ALREADY, acts;
      }
      if !(0 <= u < USERS) || !tables.users[u].active {
        return STATUS_INVALID_ARGUMENT, acts;
      }
      if tables.users[u].code == [] {
        return STATUS_ERROR, acts;
      }
      var cmd := ['#' as int] + tables.users[u].code + [Digit(z / 10), Digit(z % 10)];
      status, acts := PressKeys(i, cmd, finished, now, written);
    }

    /** concordd_refresh. */
    method Refresh(finished: Option<nat>, now: int, written: int) returns (status: int, acts: seq<Act>)
      requires Valid()
      modifies tables.Repr, queue, queue.queue, queue.link, queue.link.outputBuffer
      ensures Valid() && tables.View() == Refreshed(old(tables.View()))
      ensures queue.link.State() == old(queue.link.State())
      ensures (queue.State(), acts, status) == Enqueue(old(queue.State()), [EQUIP_LIST_REQUEST], finished, now, written)
    {
      hide Enqueue;
      var queued := tables.EquipmentRefresh();
      status, acts := queue.QueueMessage(queued[0], finished, now, written);
    }

    /** concordd_handle_frame: the tables are updated, and a refresh or a request for
        dynamic data is queued without a callback. */
    method HandleFrame(f: Frame, now: int, written: int) returns (notes: seq<Note>, acts: seq<Act>)
      requires Valid() && FrameInBounds(tables.View(), f)
      modifies tables.Repr, queue, queue.queue, queue.link, queue.link.outputBuffer
      ensures Valid() && queue.link.State() == old(queue.link.State())
      ensures FrameHandled(old(tables.View()), old(queue.State()), f, tables.listener, now, written,
                           tables.View(), queue.State(), notes, acts)
    {
      hide Enqueue, Handle;
      QueuedByFrames(tables.View(), Received(f, now), tables.listener);
      var queued;
      notes, queued := tables.HandleFrame(f, now);
      acts := [];
      if queued != [] {
        var status;
        status, acts := queue.QueueMessage(queued[0], None, now, written);
      }
    }

    /** One byte from the line.  An accepted frame is acknowledged, then handled
        where it lies in the receive buffer. */
    method ReceiveByte(b: byte, now: int, written: int)
      returns (signal: Signal, answer: seq<byte>, notes: seq<Note>, acts: seq<Act>)
      requires Valid()
      requires Arriving(b).Some? ==> FrameInBounds(tables.View(), Arriving(b).value)
      modifies tables.Repr, queue, queue.queue, queue.link, queue.link.buffer, queue.link.outputBuffer
      ensures Valid()
      ensures var heard := Hear(old(queue.link.State()), old(queue.State()).response == 0, b);
              queue.link.State() == heard.0 && signal == heard.2
      ensures queue.link.buffer[..]
           == Kept(old(queue.link.State()), old(queue.State()).response == 0, old(queue.link.buffer[..]), b)
      ensures answer == if signal.Line? then AnswerOf(signal.outcome) else []
      ensures match old(Arriving(b))
              case Some(f) =>
                FrameHandled(old(tables.View()), old(queue.State()), f, tables.listener, now, written,
                             tables.View(), queue.State(), notes, acts)
              case None =>
                && tables.View() == old(tables.View()) && notes == []
                && (if signal.Answered? then (queue.State(), acts) == Answer(old(queue.State()), b, now)
                    else queue.State() == old(queue.State()) && acts == [])
    {
      hide Handle, Enqueue, Tracks, Answer, Hear, Kept, FrameInBounds;
      answer, notes := [], [];
      signal, acts := queue.ReceiveByte(b, now);
      if signal.Line? {
        answer := AnswerOf(signal.outcome);
        if signal.outcome.Accepted? {
          notes, acts := HandleFrame(Packet(queue.link.buffer[..], |signal.outcome.payload|), now, written);
        }
      }
    }

    /** The frame that byte b completes, as the handlers will see it. */
    ghost function Arriving(b: byte): Option<Frame>
      reads this, tables, tables.Repr, QueueRepr
      requires Valid()
    {
      var awaiting := queue.State().response == 0;
      FrameOf(Hear(queue.link.State(), awaiting, b).2, Kept(queue.link.State(), awaiting, queue.link.buffer[..], b))
    }

    /** concordd_process: the queue is left alone while a frame is being read. */
    method Process(now: int, written: int) returns (acts: seq<Act>)
      requires Valid()
      modifies queue, queue.queue, queue.link, queue.link.outputBuffer
      ensures Valid() && tables.View() == old(tables.View()) && queue.link.State() == old(queue.link.State())
      ensures (queue.State(), acts)
           == if old(queue.link.State()).InFrame? then (old(queue.State()), [])
              else (Advance(old(queue.State()), now, written).0, Advance(old(queue.State()), now, written).1)
    {
      hide Advance, Tracks;
      acts := [];
      if !queue.link.readingMessage {
        var status;
        status, acts := queue.Update(now, written);
      }
    }
  }

  /** What a session remembers except the record. */
  datatype Sight = Sight(receiver: Receiver, buffer: seq<byte>, station: Station, mirror: Mirror, desk: Desk)

  function SightOf(l: Side): Sight {
    Sight(l.receiver, l.buffer, l.server.world.station, l.server.mirror, l.server.desk)
  }

  /** The D-Bus handlers that change something, and the helpers they allocate. */
  class DbusServer {
    const daemon: Daemon
    var replies: seq<Reply>
    var live: set<nat>
    var next: nat

    ghost predicate Valid()
      reads this, daemon, daemon.tables, daemon.tables.Repr, daemon.QueueRepr
    {
      daemon.Valid() && this !in daemon.tables.Repr && (this as object) !in daemon.QueueRepr
    }

    function State(): Desk
      reads this
    {
      Desk(replies, live, next)
    }

    constructor (daemon: Daemon)
      requires daemon.Valid()
      ensures Valid() && this.daemon == daemon && State() == POWER_UP.desk
      ensures Sees() == Sight(daemon.queue.link.State(), daemon.queue.link.buffer[..], daemon.queue.State(),
                              daemon.tables.View(), POWER_UP.desk)
    {
      this.daemon := daemon;
      replies, live, next := [], {}, 0;
    }

    /** Everything a session remembers except the record. */
    ghost function Sees(): Sight
      reads this, daemon, daemon.tables, daemon.tables.Repr, daemon.QueueRepr
      requires Valid()
    {
      Sight(daemon.queue.link.State(), daemon.queue.link.buffer[..], daemon.queue.State(),
            daemon.tables.View(), State())
    }

    /** A byte read from the line: the objects go where the session `l` goes. */
    method HearByte(b: byte, now: int, written: int, ghost l: Side) returns (answer: seq<byte>, notes: seq<Note>)
      requires Valid() && Whole(l) && Sees() == SightOf(l)
      requires Next(l, Byte(b, now, written), daemon.tables.listener).Some?
      modifies this`replies, this`live, daemon.tables.Repr, daemon.QueueRepr
      ensures Valid()
      ensures Sees() == SightOf(Next(l, Byte(b, now, written), daemon.tables.listener).value)
      ensures answer == AnswersTo(l, Byte(b, now, written))
      ensures notes == NewsOf(l, Byte(b, now, written), daemon.tables.listener)
    {
      hide FrameHandled, Hear, Kept, Answer, CallBack, Next, FrameInBounds, NewsOf;
      answer, notes := [], [];
      NextByte(l, b, now, written, daemon.tables.listener);
      NoCallBack(l.server.desk);
      if b != 0 {
        var signal, acts;
        signal, answer, notes, acts := daemon.ReceiveByte(b, now, written);
        RunCallbacks(acts);
      }
    }

    /** The loop over the bytes of one read. */
    method ReadBytes(bytes: seq<byte>, now: int, written: int, ghost l: Side)
      returns (answers: seq<byte>, notes: seq<Note>)
      requires Valid() && Whole(l) && Sees() == SightOf(l)
      requires Reading(l, bytes, now, written, daemon.tables.listener).Some?
      modifies this`replies, this`live, daemon.tables.Repr, daemon.QueueRepr
      ensures Valid()
      ensures Sees() == SightOf(Reading(l, bytes, now, written, daemon.tables.listener).value)
      ensures (answers, notes) == ReadingSays(l, bytes, now, written, daemon.tables.listener)
    {
      hide Next, SightOf, AnswersTo, NewsOf, Reading, ReadingSays;
      answers, notes := [], [];
      ghost var all := ReadingSays(l, bytes, now, written, daemon.tables.listener);
      assert [] + all.0 == all.0 && [] + all.1 == all.1;
      ghost var at := l;
      var i := 0;
      assert bytes[0..] == bytes;
      while i < |bytes|
        invariant 0 <= i <= |bytes| && Valid() && Whole(at) && Sees() == SightOf(at)
        invariant Reading(at, bytes[i..], now, written, daemon.tables.listener)
               == Reading(l, bytes, now, written, daemon.tables.listener)
        invariant var rest := ReadingSays(at, bytes[i..], now, written, daemon.tables.listener);
                  all == (answers + rest.0, notes + rest.1)
      {
        ReadingStep(at, bytes[i..], now, written, daemon.tables.listener);
        assert bytes[i..][1..] == bytes[i + 1..];
        var answer, news := HearByte(bytes[i], now, written, at);
        ghost var next := Next(at, Byte(bytes[i], now, written), daemon.tables.listener).value;
        ghost var rest := ReadingSays(next, bytes[i + 1..], now, written, daemon.tables.listener);
        Regroup(answers, answer, rest.0);
        Regroup(notes, news, rest.1);
        answers, notes := answers + answer, notes + news;
        at := next;
        i := i + 1;
      }
      assert bytes[i..] == [];
      ReadingNothing(at, now, written, daemon.tables.listener);
      assert answers + [] == answers && notes + [] == notes;
    }

    /** Time passing, likewise. */
    method Process(now: int, written: int, ghost l: Side)
      requires Valid() && Whole(l) && Sees() == SightOf(l)
      requires Next(l, Passed(now, written), daemon.tables.listener).Some?
      modifies this`replies, this`live, daemon.QueueRepr
      ensures Valid()
      ensures Sees() == SightOf(Next(l, Passed(now, written), daemon.tables.listener).value)
    {
      hide Advance, CallBack, Next;
      NextTick(l, now, written, daemon.tables.listener);
      var acts := daemon.Process(now, written);
      RunCallbacks(acts);
    }

    method HelperNew() returns (helper: nat)
      modifies this`live, this`next
      ensures State() == Open(old(State())) && helper == old(next)
    {
      helper := next;
      live := live + {helper};
      next := next + 1;
    }

    /** concordd_dbus_callback_helper. */
    method CallbackHelper(helper: nat, status: int)
      modifies this`replies, this`live
      ensures State() == Respond(old(State()), helper, status)
    {
      replies := replies + [Reply(helper, status)];
      live := live - {helper};
    }

    /** The callbacks the queue has made. */
    method RunCallbacks(acts: seq<Act>)
      modifies this`replies, this`live
      ensures State() == CallBack(old(State()), acts)
    {
      var i := 0;
      while i < |acts|
        invariant 0 <= i <= |acts| && State() == CallBack(old(State()), acts[..i])
      {
        assert acts[..i + 1][..i] == acts[..i];
        if acts[i].Completed? && acts[i].finished.Some? {
          CallbackHelper(acts[i].finished.value, acts[i].status);
        }
        i := i + 1;
      }
      assert acts[..i] == acts;
    }

    /** The end of every handler. */
    method Conclude(c: Call, helper: nat, status: int, acts: seq<Act>)
      modifies this`replies, this`live
      ensures State() == (var d := CallBack(old(State()), acts);
                          if status < 0 then Respond(d, helper, Shown(c, status)) else d)
    {
      RunCallbacks(acts);
      if status < 0 {
        CallbackHelper(helper, if status == STATUS_ALREADY && c.Command? && !c.r.PressKeys? then STATUS_OK else status);
      }
    }

    method HandleSetArmLevel(i: int, level: int, now: int, written: int)
      requires Valid()
      modifies this, daemon.QueueRepr
      ensures Valid() && daemon.tables.View() == old(daemon.tables.View())
      ensures daemon.queue.link.State() == old(daemon.queue.link.State())
      ensures daemon.queue.link.buffer[..] == old(daemon.queue.link.buffer[..])
      ensures (daemon.queue.State(), State())
           == ServeDesk(old(State()), old(daemon.queue.State()), old(daemon.tables.View()),
                        Command(Request.SetArmLevel(i, level)), now, written)
    {
      hide Submission, Enqueue, CallBack;
      var helper := HelperNew();
      var status, acts := daemon.SetArmLevel(i, level, Some(helper), now, written);
      Conclude(Command(Request.SetArmLevel(i, level)), helper, status, acts);
      ConcludeIsServe(old(State()), old(daemon.queue.State()), old(daemon.tables.View()),
                      Command(Request.SetArmLevel(i, level)), now, written);
    }

    method HandleLightSetValue(i: int, light: int, on: bool, now: int, written: int)
      requires Valid()
      modifies this, daemon.QueueRepr
      ensures Valid() && daemon.tables.View() == old(daemon.tables.View())
      ensures daemon.queue.link.State() == old(daemon.queue.link.State())
      ensures daemon.queue.link.buffer[..] == old(daemon.queue.link.buffer[..])
      ensures (daemon.queue.State(), State())
           == ServeDesk(old(State()), old(daemon.queue.State()), old(daemon.tables.View()),
                        Command(Request.SetLight(i, light, on)), now, written)
    {
      hide Submission, Enqueue, CallBack;
      var helper := HelperNew();
      var status, acts := daemon.SetLight(i, light, on, Some(helper), now, written);
      Conclude(Command(Request.SetLight(i, light, on)), helper, status, acts);
      ConcludeIsServe(old(State()), old(daemon.queue.State()), old(daemon.tables.View()),
                      Command(Request.SetLight(i, light, on)), now, written);
    }

    method HandleZoneSetBypassed(z: int, bypass: bool, user: int, now: int, written: int)
      requires Valid()
      modifies this, daemon.QueueRepr
      ensures Valid() && daemon.tables.View() == old(daemon.tables.View())
      ensures daemon.queue.link.State() == old(daemon.queue.link.State())
      ensures daemon.queue.link.buffer[..] == old(daemon.queue.link.buffer[..])
      ensures (daemon.queue.State(), State())
           == ServeDesk(old(State()), old(daemon.queue.State()), old(daemon.tables.View()),
                        Command(SetBypass(z, bypass, user)), now, written)
    {
      hide Submission, Enqueue, CallBack;
      var helper := HelperNew();
      var status, acts := daemon.SetZoneBypass(z, bypass, user, Some(helper), now, written);
      Conclude(Command(SetBypass(z, bypass, user)), helper, status, acts);
      ConcludeIsServe(old(State()), old(daemon.queue.State()), old(daemon.tables.View()),
                      Command(SetBypass(z, bypass, user)), now, written);
    }

    method HandlePressKeys(i: int, keys: seq<byte>, now: int, written: int)
      requires Valid() && Fits(CallVerdict(daemon.tables.View(), Command(Request.PressKeys(i, keys))))
      modifies this, daemon.QueueRepr
      ensures Valid() && daemon.tables.View() == old(daemon.tables.View())
      ensures daemon.queue.link.State() == old(daemon.queue.link.State())
      ensures daemon.queue.link.buffer[..] == old(daemon.queue.link.buffer[..])
      ensures (daemon.queue.State(), State())
           == ServeDesk(old(State()), old(daemon.queue.State()), old(daemon.tables.View()),
                        Command(Request.PressKeys(i, keys)), now, written)
    {
      PressVerdict(daemon.tables.View(), i, keys);
      hide Enqueue, CallBack, Pressed, Tracks, CallVerdict, Carried;
      var helper := HelperNew();
      var status, acts := daemon.PressKeys(i % 256, keys, Some(helper), now, written);
      Conclude(Command(Request.PressKeys(i, keys)), helper, status, acts);
      ConcludeIsServe(old(State()), old(daemon.queue.State()), old(daemon.tables.View()),
                      Command(Request.PressKeys(i, keys)), now, written);
    }

    method HandleRefresh(now: int, written: int)
      requires Valid()
      modifies this, daemon.QueueRepr, daemon.tables.Repr
      ensures Valid() && daemon.tables.View() == Refreshed(old(daemon.tables.View()))
      ensures daemon.queue.link.State() == old(daemon.queue.link.State())
      ensures daemon.queue.link.buffer[..] == old(daemon.queue.link.buffer[..])
      ensures (daemon.queue.State(), State())
           == ServeDesk(old(State()), old(daemon.queue.State()), old(daemon.tables.View()), RefreshAll, now, written)
    {
      hide Enqueue, CallBack, Refreshed;
      var helper := HelperNew();
      var status, acts := daemon.Refresh(Some(helper), now, written);
      Conclude(RefreshAll, helper, status, acts);
      ConcludeIsServe(old(State()), old(daemon.queue.State()), old(daemon.tables.View()), RefreshAll, now, written);
    }

    /** The dispatcher: any of the five calls takes the objects where the session goes. */
    method HandleCall(c: Call, now: int, written: int, ghost l: Side)
      requires Valid() && Whole(l) && Sees() == SightOf(l)
      requires Next(l, Asked(c, now, written), daemon.tables.listener).Some?
      modifies this, daemon.QueueRepr, daemon.tables.Repr
      ensures Valid()
      ensures Sees() == SightOf(Next(l, Asked(c, now, written), daemon.tables.listener).value)
    {
      hide Next, ServeDesk, Refreshed, Submission, Tracks, Shape;
      NextCall(l, c, now, written, daemon.tables.listener);
      match c {
        case RefreshAll => HandleRefresh(now, written);
        case Command(SetArmLevel(i, level)) => HandleSetArmLevel(i, level, now, written);
        case Command(SetLight(i, light, on)) => HandleLightSetValue(i, light, on, now, written);
        case Command(SetBypass(z, bypass, user)) => HandleZoneSetBypassed(z, bypass, user, now, written);
        case Command(PressKeys(i, keys)) => HandlePressKeys(i, keys, now, written);
      }
    }

    /** The refresh at start-up, that no client asked for. */
    method StartUp(now: int, written: int, ghost l: Side)
      requires Valid() && Whole(l) && Sees() == SightOf(l)
      requires Next(l, Started(now, written), daemon.tables.listener).Some?
      modifies this`replies, this`live, daemon.QueueRepr, daemon.tables.Repr
      ensures Valid()
      ensures Sees() == SightOf(Next(l, Started(now, written), daemon.tables.listener).value)
    {
      hide Next, Enqueue, CallBack, Refreshed, Tracks, Shape;
      NextRefresh(l, now, written, daemon.tables.listener);
      var status, acts := daemon.Refresh(None, now, written);
      RunCallbacks(acts);
    }
  }

  /** Setting up: the objects of a new daemon are where a session starts, and go on to
      its first refresh. */
  method PowerOn(listener: bool, now: int, written: int) returns (server: DbusServer)
    ensures fresh(server) && fresh(server.daemon.tables.Repr) && fresh(server.daemon.QueueRepr)
    ensures server.Valid() && server.daemon.tables.listener == listener
    ensures Live([Started(now, written)], listener).Some?
    ensures server.Sees() == SightOf(Live([Started(now, written)], listener).value)
  {
    hide Next, Tracks, Shape, BLANK;
    var daemon := new Daemon(listener);
    server := new DbusServer(daemon);
    FirstRefresh(now, written, listener);
    server.StartUp(now, written, AT_START);
  }


  /** What a byte does to a session, part by part. */
  lemma NextByte(l: Side, b: byte, now: int, written: int, listener: bool)
    requires Whole(l) && Next(l, Byte(b, now, written), listener).Some?
    ensures var l' := Next(l, Byte(b, now, written), listener).value;
            var (station, mirror, desk) := (l.server.world.station, l.server.mirror, l.server.desk);
            var (station', mirror', desk') := (l'.server.world.station, l'.server.mirror, l'.server.desk);
            var heard := Hear(l.receiver, Awaiting(l), b);
            if b == 0 then SightOf(l') == SightOf(l) && NewsOf(l, Byte(b, now, written), listener) == []
            else
              && l'.receiver == heard.0 && l'.buffer == Kept(l.receiver, Awaiting(l), l.buffer, b)
              && match FrameOf(heard.2, l'.buffer)
                 case Some(f) =>
                   FrameInBounds(mirror, f) &&
                   forall m, s, notes, acts |
                       FrameHandled(mirror, station, f, listener, now, written, m, s, notes, acts) ::
                     && m == mirror' && s == station' && CallBack(desk, acts) == desk'
                     && notes == NewsOf(l, Byte(b, now, written), listener)
                 case None =>
                   && mirror' == mirror && NewsOf(l, Byte(b, now, written), listener) == []
                   && if heard.2.Answered? then
                        && station' == Answer(station, b, now).0
                        && desk' == CallBack(desk, Answer(station, b, now).1)
                      else station' == station && desk' == desk
  {
    hide Hear, Kept, React, CallBack, Shape, Answer, Enqueue, Fresh, ActsOf, FrameInBounds;
    if b != 0 {
      NextTakesTurn(l, Byte(b, now, written), listener);
      match TurnOf(l, Byte(b, now, written), listener)
      case None =>
      case Some(Inward(x, _, _)) => InwardDesk(l.server, x, listener, written);
      case Some(Other(e)) =>
        assert e.AnswerByte? && Protocol.AnswerCode(e.positive) == b;
        FreshActs(l.server.world, e);
    }
  }

  lemma InwardDesk(s: Server, x: Input, listener: bool, written: int)
    requires Shape(s.mirror) && WellFormed(s.world.station) && InBounds(s.mirror, x) && x.Received?
    ensures FrameInBounds(s.mirror, x.frame)
    ensures var s' := Take(s, Inward(x, listener, written));
            forall m, st, notes, acts |
                FrameHandled(s.mirror, s.world.station, x.frame, listener, x.now, written, m, st, notes, acts) ::
              && m == s'.mirror && st == s'.world.station && CallBack(s.desk, acts) == s'.desk
              && notes == React(s.mirror, x, listener).notes
  {
    hide Handle, CallBack, Shape, Enqueue, Fresh, ActsOf, FrameInBounds;
    QueuedByFrames(s.mirror, x, listener);
    var e := React(s.mirror, x, listener);
    if e.queued == [] {
      assert CallBack(s.desk, []) == s.desk by { NoCallBack(s.desk); }
    } else {
      FreshActs(s.world, Protocol.Submit(Protocol.Job(e.queued[0], None), x.now, written));
    }
  }

  lemma NoCallBack(d: Desk)
    ensures CallBack(d, []) == d
  {
  }

  lemma NextTick(l: Side, now: int, written: int, listener: bool)
    requires Whole(l) && Next(l, Passed(now, written), listener).Some?
    ensures var l' := Next(l, Passed(now, written), listener).value;
            var (station, acts, _) := Advance(l.server.world.station, now, written);
            SightOf(l') == if l.receiver.InFrame? then SightOf(l)
                           else SightOf(l).(station := station, desk := CallBack(l.server.desk, acts))
    ensures CallBack(l.server.desk, []) == l.server.desk
  {
    hide Advance, Fresh, ActsOf, Shape;
    FreshActs(l.server.world, Protocol.Tick(now, written));
  }

  lemma NextRefresh(l: Side, now: int, written: int, listener: bool)
    requires Whole(l) && Next(l, Started(now, written), listener).Some?
    ensures var l' := Next(l, Started(now, written), listener).value;
            var (station, acts, _) := Enqueue(l.server.world.station, [EQUIP_LIST_REQUEST], None, now, written);
            SightOf(l') == SightOf(l).(station := station, desk := CallBack(l.server.desk, acts),
                                       mirror := Refreshed(l.server.mirror))
  {
    hide Enqueue, Fresh, ActsOf, Shape, Refreshed;
    FreshActs(l.server.world, Protocol.Submit(Protocol.Job([EQUIP_LIST_REQUEST], None), now, written));
  }

  /** The first refresh is always within the limits. */
  lemma FirstRefresh(now: int, written: int, listener: bool)
    ensures Whole(AT_START)
    ensures Live([Started(now, written)], listener) == Next(AT_START, Started(now, written), listener)
    ensures Next(AT_START, Started(now, written), listener).Some?
  {
    BlankIsShaped();
    hide BLANK, Shape, Take, Refreshed;
    assert [Started(now, written)][..0] == [];
  }

  /** What a call does to a session is what the handlers do. */
  lemma NextCall(l: Side, c: Call, now: int, written: int, listener: bool)
    requires Whole(l) && Next(l, Asked(c, now, written), listener).Some?
    ensures Fits(CallVerdict(l.server.mirror, c))
    ensures var l' := Next(l, Asked(c, now, written), listener).value;
            var (station, desk) := ServeDesk(l.server.desk, l.server.world.station, l.server.mirror, c, now, written);
            SightOf(l') == SightOf(l).(station := station, desk := desk,
                                       mirror := if c.RefreshAll? then Refreshed(l.server.mirror) else l.server.mirror)
  {
    hide ServeDesk, Serve, Refreshed, Shape, Submission;
    ServeIsServeDesk(l.server, c, now, written);
    TurnTellsMirror(l.server, Called(c, now, written));
  }

  /** Opening, carrying out and concluding a call is serving it. */
  lemma ConcludeIsServe(d: Desk, st: Station, m: Mirror, c: Call, now: int, written: int)
    requires Shape(m) && WellFormed(st)
    ensures var (st', acts, status) := Carried(st, CallVerdict(m, c), Some(d.next), now, written);
            var answered := CallBack(Open(d), acts);
            ServeDesk(d, st, m, c, now, written)
            == (st', if status < 0 then Respond(answered, d.next, Shown(c, status)) else answered)
  {
    hide Enqueue, Submission, Compile, Shape;
    if CallVerdict(m, c).Queued? {
      EnqueueStatus(st, CallVerdict(m, c).msg, Some(d.next), now, written);
    }
  }

  lemma PressVerdict(m: Mirror, i: int, keys: seq<byte>)
    requires Shape(m)
    ensures CallVerdict(m, Command(Request.PressKeys(i, keys))) == Pressed(i % 256, keys)
  {
    hide Pressed;
  }

  /** Which key texts fit: 26 codes do, unless a malformed token comes before the cut-off. */
  lemma PressedFits(partition: byte, items: seq<Item>, tail: seq<byte>)
    requires forall x :: x in items ==> GoodItem(x)
    requires tail == [] || Malformed(tail)
    ensures var n := |CodesOf(items)|;
            Fits(Pressed(partition, Print(items) + tail)) <==> n <= 26 || (tail != [] && n < 53)
  {
    hide Compile, CodesOf, Print, Malformed;
    PressKeysGrammar(partition, items, tail);
  }

  /** So a text of 27 digits, which every guard lets through, does not. */
  lemma LongKeysDoNotFit(partition: byte)
    ensures !Fits(Pressed(partition, Repeat('0' as int, 27)))
  {
    hide Compile;
    DigitItems(27);
    PressedFits(partition, Repeat(Plain('0' as int), 27), []);
    assert Repeat('0' as int, 27) + [] == Repeat('0' as int, 27);
  }

  lemma {:induction false} DigitItems(n: nat)
    ensures var items := Repeat(Plain('0' as int), n);
            && (forall x :: x in items ==> GoodItem(x))
            && Print(items) == Repeat('0' as int, n) && |CodesOf(items)| == n
  {
    if n > 0 {
      var items := Repeat(Plain('0' as int), n);
      DigitItems(n - 1);
      assert items[1..] == Repeat(Plain('0' as int), n - 1);
      assert ['0' as int] + Repeat('0' as int, n - 1) == Repeat('0' as int, n);
    }
  }
}
