/** From a request to a message on the wire.

    A request is checked against the mirror and turned into key strokes; these
    compile to a keypress message, which is queued and framed.  The theorems say
    which requests queue a message after any history, which message it is, and
    that the far end reads back exactly that message. */
module Commands {
  import opened Bytes
  import opened Framing
  import opened Keys
  import opened Panel
  import opened History

  const SYSTEM_USER := 246
  const ARM_OFF := 1
  const ARM_STAY := 2
  const ARM_AWAY := 3
  /** Bit number of the bypassed flag in a zone's state. */
  const BYPASSED := 4

  datatype Request =
    | SetArmLevel(partition: int, level: int)
    | SetLight(partition: int, light: int, on: bool)
    | SetBypass(zone: int, bypass: bool, user: int)
    | PressKeys(partition: int, keys: seq<byte>)

  /** The outcome of the guards: a status, or keys to press. */
  datatype Decision = Refuse(status: int) | Press(partition: byte, keys: seq<byte>)

  /** The text "[ab]". */
  function Bracket(a: char, b: char): seq<byte>
    requires a as int < 256 && b as int < 256
  {
    ['[' as int, a as int, b as int, ']' as int]
  }

  function Digit(d: nat): byte
    requires d < 10
  {
    '0' as int + d
  }

  /** concordd_set_arm_level. */
  function DecideArm(m: Mirror, i: int, level: int): Decision
    requires Shape(m)
  {
    if !(0 <= i < PARTITIONS) || !m.partitions[i].active then Refuse(STATUS_INVALID_ARGUMENT)
    else
      var q := m.partitions[i];
      var sirenIsOn := q.sirenRepeat == 0 && q.sirenStartedAt != 0;
      if sirenIsOn && level != ARM_OFF then Refuse(STATUS_FORBIDDEN)
      else if q.armLevel != level || sirenIsOn || (q.entryDelay && level == ARM_OFF) then
        if q.programming then Refuse(STATUS_ERROR)
        else if level == ARM_OFF then Press(i, Bracket('2', '0'))
        else if level == ARM_STAY then Press(i, Bracket('2', '8'))
        else if level == ARM_AWAY then Press(i, Bracket('2', '7'))
        else Refuse(STATUS_INVALID_ARGUMENT)
      else Refuse(STATUS_ALREADY)
  }

  /** concordd_set_light. */
  function DecideLight(m: Mirror, i: int, light: int, on: bool): Decision
    requires Shape(m)
  {
    if m.refreshPending then Refuse(STATUS_WAIT)
    else if !(0 <= i < PARTITIONS) || !m.partitions[i].active then Refuse(STATUS_INVALID_ARGUMENT)
    else if m.partitions[i].programming then Refuse(STATUS_ERROR)
    else if !(0 <= light <= 9) then Refuse(STATUS_INVALID_ARGUMENT)
    else Press(i, Bracket('1', if on then '0' else '1') + [Digit(light)])
  }

  /** concordd_set_zone_bypass. */
  function DecideBypass(m: Mirror, z: int, bypass: bool, user: int): Decision
    requires Shape(m)
  {
    if m.refreshPending then Refuse(STATUS_WAIT)
    else if !(0 <= z < ZONES) || !m.zones[z].active then Refuse(STATUS_INVALID_ARGUMENT)
    else
      var u := if user == -1 then SYSTEM_USER else user;
      var i := m.zones[z].partitionId;
      if i >= PARTITIONS || !m.partitions[i].active then Refuse(STATUS_INVALID_ARGUMENT)
      else if m.partitions[i].programming then Refuse(STATUS_ERROR)
      else if Bit(m.zones[z].state, BYPASSED) == bypass then Refuse(STATUS_ALREADY)
      else if !(0 <= u < USERS) || !m.users[u].active then Refuse(STATUS_INVALID_ARGUMENT)
      else if m.users[u].code == [] then Refuse(STATUS_ERROR)
      else Press(i, ['#' as int] + m.users[u].code + [Digit(z / 10), Digit(z % 10)])
  }

  function Decide(m: Mirror, r: Request): Decision
    requires Shape(m)
  {
    match r
    case SetArmLevel(i, level) => DecideArm(m, i, level)
    case SetLight(i, light, on) => DecideLight(m, i, light, on)
    case SetBypass(z, bypass, user) => DecideBypass(m, z, bypass, user)
    case PressKeys(i, keys) => Press(i % 256, keys)
  }

  /** What a request leads to: an error status, or a message for the queue. */
  datatype Verdict = Rejected(status: int) | Queued(msg: seq<byte>)

  /** What pressing keys comes to. */
  function Pressed(partition: byte, keys: seq<byte>): (v: Verdict)
    ensures v.Rejected? ==> v.status < 0
    ensures v.Queued? ==> 3 <= |v.msg| <= MAX_MESSAGE_SIZE
  {
    match Compile(Header(partition), keys)
    case None => Rejected(STATUS_ERROR)
    case Some(msg) => Queued(msg)
  }

  function Submission(m: Mirror, r: Request): (v: Verdict)
    requires Shape(m)
    ensures v.Rejected? ==> v.status < 0
    ensures v.Queued? ==> 3 <= |v.msg| <= MAX_MESSAGE_SIZE
  {
    match Decide(m, r)
    case Refuse(status) => Rejected(status)
    case Press(i, keys) => Pressed(i, keys)
  }

  // ------------------------------------------------- what the key strings compile to

  lemma CompilesTo(partition: byte, items: seq<Item>, codes: seq<byte>)
    requires forall x :: x in items ==> GoodItem(x)
    requires CodesOf(items) == codes && |codes| <= 53
    ensures Compile(Header(partition), Print(items)) == Some(Header(partition) + codes)
  {
    PressKeysGrammar(partition, items, []);
    assert Print(items) + [] == Print(items) && codes[..|codes|] == codes;
  }

  function ArmCode(level: int): byte
    requires level == ARM_OFF || level == ARM_STAY || level == ARM_AWAY
  {
    if level == ARM_OFF then 0x20 else if level == ARM_STAY then 0x28 else 0x27
  }

  function ArmText(level: int): seq<byte>
    requires level == ARM_OFF || level == ARM_STAY || level == ARM_AWAY
  {
    Bracket('2', if level == ARM_OFF then '0' else if level == ARM_STAY then '8' else '7')
  }

  lemma ArmKeys(partition: byte, level: int)
    requires level == ARM_OFF || level == ARM_STAY || level == ARM_AWAY
    ensures Compile(Header(partition), ArmText(level)) == Some([KEYPRESS, partition, 0, ArmCode(level)])
  {
    hide Compile, Lex, Strtol16;
    var x := Bracketed('2' as int, ArmText(level)[2]);
    assert CodeOf(x) == ArmCode(level);
    OneItem(x);
    CompilesTo(partition, [x], [ArmCode(level)]);
    assert Text(x) == ArmText(level);
    assert Header(partition) + [ArmCode(level)] == [KEYPRESS, partition, 0, ArmCode(level)];
  }

  lemma LightKeys(partition: byte, light: nat, on: bool)
    requires light < 10
    ensures Compile(Header(partition), Bracket('1', if on then '0' else '1') + [Digit(light)])
         == Some([KEYPRESS, partition, 0, if on then 0x10 else 0x11, light])
  {
    hide Compile, Lex, Strtol16;
    var b := Bracketed('1' as int, if on then '0' as int else '1' as int);
    var d := Plain(Digit(light));
    assert CodeOf(b) == (if on then 0x10 else 0x11) && CodeOf(d) == light;
    TwoItems(b, d);
    CompilesTo(partition, [b, d], [CodeOf(b), CodeOf(d)]);
    assert Header(partition) + [CodeOf(b), CodeOf(d)] == [KEYPRESS, partition, 0, CodeOf(b), CodeOf(d)];
  }

  lemma OneItem(x: Item)
    requires GoodItem(x) && CodeOf(x) != NO_CODE
    ensures Print([x]) == Text(x) && CodesOf([x]) == [CodeOf(x)]
  {
    assert [x][1..] == [];
  }

  lemma TwoItems(a: Item, b: Item)
    requires GoodItem(a) && GoodItem(b) && CodeOf(a) != NO_CODE && CodeOf(b) != NO_CODE
    ensures Print([a, b]) == Text(a) + Text(b) && CodesOf([a, b]) == [CodeOf(a), CodeOf(b)]
  {
    hide CodeOf, Text;
    assert [a, b][1..] == [b];
    OneItem(b);
  }

  /** Nibbles written as PinChar writes them. */
  function NibbleText(ns: seq<nibble>): (s: seq<byte>)
    ensures |s| == |ns|
    ensures forall i :: 0 <= i < |ns| ==> s[i] == PinChar(ns[i])
  {
    seq(|ns|, i requires 0 <= i < |ns| => PinChar(ns[i]))
  }

  predicate Decimal(ns: seq<nibble>) {
    forall i :: 0 <= i < |ns| ==> ns[i] <= 9
  }

  lemma LexNibble(s: seq<byte>, n: nibble)
    requires s != [] && s[0] == PinChar(n)
    ensures Lex(s) == if n <= 9 then Some(Token(n, false, 1)) else None
  {
  }

  /** Nibbles up to nine are keys; one above nine stops the whole text. */
  lemma {:induction false} NibblesCompile(msg: seq<byte>, ns: seq<nibble>)
    requires 1 <= |msg| && |msg| + |ns| <= MAX_MESSAGE_SIZE
    ensures Compile(msg, NibbleText(ns)) == if Decimal(ns) then Some(msg + ns) else None
    decreases |ns|
  {
    if ns == [] {
      assert msg + ns == msg;
    } else {
      var s := NibbleText(ns);
      assert s[1..] == NibbleText(ns[1..]);
      LexNibble(s, ns[0]);
      hide Lex, NibbleText, PinChar;
      if ns[0] <= 9 {
        NibblesCompile(msg + [ns[0]], ns[1..]);
        assert Put(msg, Token(ns[0], false, 1)) == msg + [ns[0]];
        assert msg + [ns[0]] + ns[1..] == msg + ns;
        assert Decimal(ns) <==> Decimal(ns[1..]);
      }
    }
  }

  /** The nibbles of a PIN and a zone number. */
  function BypassNibbles(hi: byte, lo: byte, z: nat): seq<nibble>
    requires z < 100
  {
    [hi / 16, hi % 16, lo / 16, lo % 16, z / 10, z % 10]
  }

  lemma BypassKeys(partition: byte, hi: byte, lo: byte, z: nat)
    requires z < 100 && PinText(hi, lo) != []
    ensures Compile(Header(partition), ['#' as int] + PinText(hi, lo) + [Digit(z / 10), Digit(z % 10)])
         == (var ns := BypassNibbles(hi, lo, z);
             if Decimal(ns) then Some([KEYPRESS, partition, 0, 0x0B] + ns) else None)
  {
    var ns := BypassNibbles(hi, lo, z);
    var s := ['#' as int] + PinText(hi, lo) + [Digit(z / 10), Digit(z % 10)];
    assert s[0] == '#' as int && s[1..] == NibbleText(ns);
    var msg := Header(partition) + [0x0B];
    assert Put(Header(partition), Token(0x0B, false, 1)) == msg;
    NibblesCompile(msg, ns);
    assert msg + ns == [KEYPRESS, partition, 0, 0x0B] + ns;
  }

  lemma PinTextEmpty(hi: byte, lo: byte)
    ensures PinText(hi, lo) == [] <==> hi == 0 && lo == 0
  {
    var text := [PinChar(hi / 16), PinChar(hi % 16), PinChar(lo / 16), PinChar(lo % 16)];
    if text == Repeat('0' as int, 4) {
      assert text[0] == text[1] == text[2] == text[3] == '0' as int;
    }
    if hi == 0 && lo == 0 {
      assert text == Repeat('0' as int, 4);
    }
  }

  // --------------------------------------------------------------- after a history

  /** Off, stay and away. */
  predicate ArmLevelKnown(level: int) {
    level == 1 || level == 2 || level == 3
  }

  /** Partition i exists and has been named. */
  predicate PartitionNamed(h: seq<Input>, i: int) {
    0 <= i < 8 && NamedSince(h, i)
  }

  /** The partition is at that level, and nothing is pending that the request would end. */
  predicate AlreadyArmed(h: seq<Input>, i: nat, level: int) {
    ArmLevel(h, i) == level && !SirenOn(h, i) && !(EntryDelay(h, i) && level == 1)
  }

  /** When an arm request is passed on. */
  predicate ArmPasses(h: seq<Input>, i: int, level: int) {
    && PartitionNamed(h, i) && !InProgramming(h, i) && ArmLevelKnown(level)
    && (SirenOn(h, i) ==> level == 1) && !AlreadyArmed(h, i, level)
  }

  /** Arm requests: exactly these queue a message, and this is the message.  Nothing
      is queued for an inactive or programming partition, and only 20 while the
      siren is on. */
  lemma ArmAfter(h: seq<Input>, listener: bool, i: int, level: int)
    requires Bounded(h, listener)
    ensures var v := Submission(After(h, listener), SetArmLevel(i, level));
            && (v.Queued? <==> ArmPasses(h, i, level))
            && (v.Queued? ==> v.msg == [0x40, i, 0, ArmCode(level)])
  {
    hide After, NamedSince, InProgramming, SirenOn, ArmLevel, EntryDelay, Compile, RowsTell;
    AfterHistory(h, listener);
    if 0 <= i < PARTITIONS {
      assert FactsOf(After(h, listener).partitions[i]) == FactsIn(h, i);
      if ArmLevelKnown(level) {
        ArmKeys(i, level);
      }
    }
  }

  predicate LightPasses(h: seq<Input>, i: int, light: int) {
    !RefreshDue(h) && PartitionNamed(h, i) && !InProgramming(h, i) && 0 <= light <= 9
  }

  lemma LightAfter(h: seq<Input>, listener: bool, i: int, light: int, on: bool)
    requires Bounded(h, listener)
    ensures var v := Submission(After(h, listener), SetLight(i, light, on));
            && (v.Queued? <==> LightPasses(h, i, light))
            && (v.Queued? ==> v.msg == [0x40, i, 0, if on then 0x10 else 0x11, light])
  {
    hide After, NamedSince, InProgramming, SirenOn, ArmLevel, EntryDelay, Compile, RefreshDue;
    AfterHistory(h, listener);
    if 0 <= i < PARTITIONS {
      assert FactsOf(After(h, listener).partitions[i]) == FactsIn(h, i);
      if 0 <= light <= 9 {
        LightKeys(i, light, on);
      }
    }
  }

  /** Zone z exists and has been named, and so has its partition. */
  predicate ZoneNamed(h: seq<Input>, z: int) {
    0 <= z < 96 && ZoneNamedSince(h, z) && PartitionNamed(h, ZonePartition(h, z))
  }

  /** Flag 4 of the zone's last state. */
  predicate Bypassed(h: seq<Input>, z: nat) {
    (ZoneState(h, z) / 16) % 2 == 1
  }

  function UserIndex(user: int): int {
    if user == -1 then 246 else user
  }

  /** The PIN in the last USER_DATA frame for the user. */
  function PinFor(h: seq<Input>, user: int): Option<(byte, byte)> {
    if 0 <= UserIndex(user) < 252 then PinOf(h, UserIndex(user)) else None
  }

  /** All its nibbles are decimal and not all of them zero. */
  predicate PinUsable(pin: (byte, byte)) {
    pin != (0, 0) && pin.0 / 16 <= 9 && pin.0 % 16 <= 9 && pin.1 / 16 <= 9 && pin.1 % 16 <= 9
  }

  /** When a bypass request is passed on. */
  predicate BypassPasses(h: seq<Input>, z: int, bypass: bool, user: int) {
    && !RefreshDue(h) && ZoneNamed(h, z) && !InProgramming(h, ZonePartition(h, z))
    && Bypassed(h, z) != bypass
    && PinFor(h, user).Some? && PinUsable(PinFor(h, user).value)
  }

  /** The keypress for a bypass: '#', the user's PIN and the zone's number. */
  function BypassMessage(h: seq<Input>, z: int, user: int): seq<byte> {
    if !(0 <= z < 96) then []
    else match PinFor(h, user)
      case Some((hi, lo)) =>
        [0x40, ZonePartition(h, z), 0, 0x0B, hi / 16, hi % 16, lo / 16, lo % 16, z / 10, z % 10]
      case None => []
  }

  lemma BypassFlag(state: byte)
    ensures Bit(state, BYPASSED) == ((state / 16) % 2 == 1)
  {
  }

  lemma UsablePin(hi: byte, lo: byte, z: nat)
    requires z < 96
    ensures PinUsable((hi, lo)) <==> (hi != 0 || lo != 0) && Decimal(BypassNibbles(hi, lo, z))
    ensures BypassNibbles(hi, lo, z) == [hi / 16, hi % 16, lo / 16, lo % 16, z / 10, z % 10]
  {
    var ns := BypassNibbles(hi, lo, z);
    assert Decimal(ns) <==> ns[0] <= 9 && ns[1] <= 9 && ns[2] <= 9 && ns[3] <= 9 && ns[4] <= 9 && ns[5] <= 9;
  }

  lemma BypassAfter(h: seq<Input>, listener: bool, z: int, bypass: bool, user: int)
    requires Bounded(h, listener)
    ensures var m := After(h, listener);
            var v := Submission(m, SetBypass(z, bypass, user));
            && (v.Queued? <==> BypassPasses(h, z, bypass, user))
            && (v.Queued? ==> v.msg == BypassMessage(h, z, user))
  {
    hide After, NamedSince, InProgramming, SirenOn, ArmLevel, EntryDelay, Compile, RefreshDue, PinOf, Bit;
    hide ZonePartition, ZoneState, Decimal, PinText, ZoneNamedSince, KeySeen, PinUsable, BypassNibbles;
    AfterHistory(h, listener);
    if 0 <= z < ZONES {
      ZonesAfter(h, listener, z);
      BypassFlag(ZoneState(h, z));
    }
    var m := After(h, listener);
    if 0 <= z < ZONES && m.zones[z].partitionId < PARTITIONS {
      var i := m.zones[z].partitionId;
      assert FactsOf(m.partitions[i]) == FactsIn(h, i);
      var u := UserIndex(user);
      if 0 <= u < USERS && PinOf(h, u).Some? {
        assert m.users[u] == UserFor(PinOf(h, u));
        var (hi, lo) := PinOf(h, u).value;
        PinTextEmpty(hi, lo);
        UsablePin(hi, lo, z);
        if PinText(hi, lo) != [] {
          BypassKeys(i, hi, lo, z);
        }
      }
    }
  }

  /** Whatever the three commands queue, its frame reads back as that message. */
  lemma CommandsReachTheWire(h: seq<Input>, listener: bool, r: Request, receiver: Receiver)
    requires !r.PressKeys? && Bounded(h, listener)
    ensures var v := Submission(After(h, listener), r);
            v.Queued? ==>
              && |v.msg| < 255
              && Feed(receiver, Encode(v.msg)).0 == Idle
              && Delivered(Feed(receiver, Encode(v.msg)).1) == [v.msg]
  {
    hide Compile, Decide, Feed, Encode, After;
    match r {
      case SetArmLevel(i, level) => ArmAfter(h, listener, i, level);
      case SetLight(i, light, on) => LightAfter(h, listener, i, light, on);
      case SetBypass(z, bypass, user) => BypassAfter(h, listener, z, bypass, user);
    }
    var v := Submission(After(h, listener), r);
    if v.Queued? {
      RoundTrip(receiver, v.msg);
      LastIsDelivered(|Encode(v.msg)| - 1, v.msg);
    }
  }
}
