/** The rest of the mirror as a function of everything received so far, in the
    panel's own numbers.

    For every field that module History does not follow, the last input that bears
    on it is named by the bytes of its frame. */
module Chronicle {
  import opened Bytes
  import opened Panel
  import opened History
  import opened EventLog

  // ------------------------------------------------------- what inputs say

  /** What the last input to say anything says. */
  function LastSaid<T>(h: seq<Input>, says: Input -> Option<T>, first: T): T {
    if h == [] then first
    else match says(Last(h))
      case Some(v) => v
      case None => LastSaid(Init(h), says, first)
  }

  function Or<T>(said: Option<T>, before: T): T {
    match said
    case Some(v) => v
    case None => before
  }

  /** A frame of this type, with this number in byte k. */
  predicate Of(x: Input, kind: byte, k: nat, n: nat)
    requires k < MAX_MESSAGE_SIZE
  {
    x.Received? && x.frame.data[0] == kind && x.frame.data[k] as int == n
  }

  /** A subcommand of partition i. */
  predicate Sub(x: Input, sub: byte, i: nat) {
    Of(x, 0x22, 1, sub) && x.frame.data[2] as int == i
  }

  /** A number of several bytes, the highest first. */
  function Number(bytes: seq<byte>): nat {
    if bytes == [] then 0
    else
      var last: nat := Last(bytes);
      Number(Init(bytes)) * 256 + last
  }

  lemma NumbersOf(f: Frame, k: nat)
    requires k + 4 <= MAX_MESSAGE_SIZE
    ensures Number(f.data[k..k + 2]) == Word(f.data[k], f.data[k + 1])
    ensures Number(f.data[k..k + 3]) == Long(0, f.data[k], f.data[k + 1], f.data[k + 2])
    ensures Number(f.data[k..k + 4]) == Long(f.data[k], f.data[k + 1], f.data[k + 2], f.data[k + 3])
  {
    assert f.data[k..k] == [];
    NumberStep(f.data, k, k + 1);
    NumberStep(f.data, k, k + 2);
    NumberStep(f.data, k, k + 3);
    NumberStep(f.data, k, k + 4);
    assert Number([]) == 0;
    hide Number;
  }

  lemma NumberStep(data: seq<byte>, i: nat, j: nat)
    requires i < j <= |data|
    ensures Number(data[i..j]) == Number(data[i..j - 1]) * 256 + data[j - 1] as nat
  {
    assert Init(data[i..j]) == data[i..j - 1] && Last(data[i..j]) == data[j - 1];
  }

  function TextSaid(x: Input, i: nat): Option<seq<byte>> {
    if Sub(x, 0x09, i) && 5 <= x.frame.length then Some(x.frame.data[5..x.frame.length]) else None
  }

  function FeaturesSaid(x: Input, i: nat): Option<byte> {
    if Sub(x, 0x0C, i) then Some(x.frame.data[4]) else None
  }

  /** Repeat count and time of a siren setup. */
  function SirenSaid(x: Input, i: nat): Option<(byte, int)> {
    if Sub(x, 0x04, i) then Some((x.frame.data[4], x.now)) else None
  }

  function CadenceSaid(x: Input, i: nat): Option<nat> {
    if Sub(x, 0x04, i) then Some(Number(x.frame.data[5..9]))
    else if Sub(x, 0x0B, i) then Some(0) else None
  }

  /** Who set the arm level, and when. */
  function ArmedBySaid(x: Input, i: nat): Option<(int, int)> {
    if Sub(x, 0x01, i) then Some((Number(x.frame.data[4..6]), x.now)) else None
  }

  /** A delay frame whose bit 6 is set is about the exit delay; bit 7 ends it. */
  function ExitDelaySaid(x: Input, i: nat): Option<bool> {
    if x.RefreshRequested? || x.frame.data[0] == 0x20 then Some(false)
    else if Sub(x, 0x03, i) && (x.frame.data[4] / 64) % 2 == 1 then Some(x.frame.data[4] < 128)
    else None
  }

  // ------------------------------------------------------------------- partitions

  datatype Story = Story(
    text: seq<byte>, features: byte, siren: (byte, int), cadence: nat, armedBy: (int, int), exitDelay: bool)

  function StoryOf(q: Partition): Story {
    Story(q.touchpadText, q.features, (q.sirenRepeat, q.sirenStartedAt), q.sirenCadence,
          (q.armLevelUser, q.armLevelAt), q.exitDelay)
  }

  /** The same, told by the history. */
  function StoryIn(h: seq<Input>, i: nat): Story {
    Story(LastSaid(h, x => TextSaid(x, i), []),
          LastSaid(h, x => FeaturesSaid(x, i), 0),
          LastSaid(h, x => SirenSaid(x, i), (0, 0)),
          LastSaid(h, x => CadenceSaid(x, i), 0),
          LastSaid(h, x => ArmedBySaid(x, i), (0, 0)),
          LastSaid(h, x => ExitDelaySaid(x, i), false))
  }

  /** How one input changes the story. */
  function Tells(s: Story, x: Input, i: nat): Story {
    Story(Or(TextSaid(x, i), s.text), Or(FeaturesSaid(x, i), s.features), Or(SirenSaid(x, i), s.siren),
          Or(CadenceSaid(x, i), s.cadence), Or(ArmedBySaid(x, i), s.armedBy), Or(ExitDelaySaid(x, i), s.exitDelay))
  }

  lemma StoryStep(h: seq<Input>, i: nat)
    requires h != []
    ensures StoryIn(h, i) == Tells(StoryIn(Init(h), i), Last(h), i)
  {
    hide TextSaid, FeaturesSaid, SirenSaid, CadenceSaid, ArmedBySaid, ExitDelaySaid;
  }

  // Which part of a partition's row an input can change at all.

  predicate SameBut(q: Partition, q': Partition) {
    StoryOf(q) == StoryOf(q')
  }

  lemma EventKeepsStory(m: Mirror, f: Frame, now: int, i: nat)
    requires Shape(m) && i < PARTITIONS
    ensures var q' := HandleAlarm(m, f, now).panel.partitions[i];
            SameBut(m.partitions[i], q') && q'.lights == m.partitions[i].lights
  {
    var e := EventOf(f, now);
    TabledKeepsStory(Logged(m, e), e, SourceOf(f), now, i);
    hide Tabled;
  }

  lemma TabledKeepsStory(m: Mirror, e: Event, source: int, now: int, i: nat)
    requires Shape(m) && i < PARTITIONS
    ensures var q' := Tabled(m, e, source, now).0.partitions[i];
            SameBut(m.partitions[i], q') && q'.lights == m.partitions[i].lights
  {
    if IsSystemTrouble(e.general) || IsOutputReport(e) {
      assert Tabled(m, e, source, now).0.partitions == m.partitions;
    } else {
      TableKeepsStory(m, e, source, now, i);
    }
  }

  lemma TableKeepsStory(m: Mirror, e: Event, source: int, now: int, i: nat)
    requires Shape(m) && i < PARTITIONS && !IsSystemTrouble(e.general) && !IsOutputReport(e)
    ensures var q' := Tabled(m, e, source, now).0.partitions[i];
            SameBut(m.partitions[i], q') && q'.lights == m.partitions[i].lights
  {
    assert |m.partitions| == PARTITIONS;
    hide IsOutputReport, Shape;
  }

  lemma RowTells(q: Partition, f: Frame, now: int)
    requires f.data[0] == SUBCMD && f.data[1] != ALARM_TROUBLE && f.data[2] < PARTITIONS && TouchpadInBounds(f)
    ensures StoryOf(SubcmdRow(q, f, now)) == Tells(StoryOf(q), Received(f, now), f.data[2])
    ensures SubcmdRow(q, f, now).lights == q.lights
  {
    if f.data[1] == ENTRY_EXIT_DELAY {
      DelayBits(f.data[4]);
    } else if f.data[1] == LEVEL {
      NumbersOf(f, 4);
    } else if f.data[1] == SIREN_SETUP {
      NumbersOf(f, 5);
    }
    hide Bit, Number, Long, Word, PartitionShape;
  }

  lemma DelayBits(x: byte)
    ensures Bit(x, 6) == ((x / 64) % 2 == 1) && Bit(x, 7) == (x >= 128)
  {
  }

  lemma NotToldOfOthers(s: Story, f: Frame, now: int, i: nat)
    requires f.data[0] != CLEAR_IMAGE && (f.data[0] == SUBCMD ==> f.data[1] == ALARM_TROUBLE || f.data[2] != i)
    ensures Tells(s, Received(f, now), i) == s
  {
  }

  lemma SubcmdTells(m: Mirror, f: Frame, now: int, i: nat)
    requires Shape(m) && i < PARTITIONS && f.data[0] == SUBCMD && TouchpadInBounds(f)
    ensures var q' := HandleSubcmd(m, f, now).panel.partitions[i];
            StoryOf(q') == Tells(StoryOf(m.partitions[i]), Received(f, now), i) && q'.lights == m.partitions[i].lights
  {
    hide StoryOf, Tells, SubcmdNotes, HandleAlarm;
    if f.data[1] == ALARM_TROUBLE {
      EventKeepsStory(m, f, now, i);
      NotToldOfOthers(StoryOf(m.partitions[i]), f, now, i);
    } else {
      if f.data[2] == i {
        RowTells(m.partitions[i], f, now);
        hide SubcmdRow;
      } else {
        NotToldOfOthers(StoryOf(m.partitions[i]), f, now, i);
      }
      if f.data[2] < PARTITIONS {
        PlainSubcmd(m.partitions[f.data[2]], f, now);
      }
    }
  }

  lemma Subcmd2KeepsStory(m: Mirror, f: Frame, listener: bool, now: int, i: nat)
    requires Shape(m) && i < PARTITIONS
    ensures SameBut(m.partitions[i], HandleSubcmd2(m, f, listener, now).panel.partitions[i])
  {
    hide SetLights, Bit, Word, NamesShape;
  }

  lemma ListKeepsStory(m: Mirror, f: Frame, listener: bool, now: int, i: nat)
    requires Shape(m) && i < PARTITIONS && f.data[0] != SUBCMD && f.data[0] != SUBCMD2 && f.data[0] != CLEAR_IMAGE
    requires FrameInBounds(m, f)
    ensures SameBut(m.partitions[i], Handle(m, f, listener, now).panel.partitions[i])
  {
    if f.data[0] == PARTITION_DATA || f.data[0] == LIGHT_TO_SENSOR_DATA {
      hide HandleUserData, HandleOutputData, HandleZoneStatus, HandleZoneData, HandleSubcmd, HandleSubcmd2, Bit;
    } else if IsList(f) {
      ListsElsewhere(m, f, listener, now);
      hide Handle;
    } else {
      hide HandleUserData, HandleOutputData, HandleZoneStatus, HandleZoneData, HandleSubcmd, HandleSubcmd2;
      RowsOfPartitions(m, f, now);
      assert Handle(m, f, listener, now).panel.partitions == m.partitions;
    }
  }

  lemma InputTells(m: Mirror, x: Input, listener: bool, i: nat)
    requires Shape(m) && i < PARTITIONS && InBounds(m, x)
    ensures StoryOf(React(m, x, listener).panel.partitions[i]) == Tells(StoryOf(m.partitions[i]), x, i)
  {
    if Refreshes(x) {
      RefreshTells(m, x, i);
    } else {
      hide HandleSubcmd, HandleSubcmd2, HandleAlarm, StoryOf, Tells;
      if x.frame.data[0] == SUBCMD {
        SubcmdTells(m, x.frame, x.now, i);
      } else {
        NotToldOfOthers(StoryOf(m.partitions[i]), x.frame, x.now, i);
        if x.frame.data[0] == SUBCMD2 {
          Subcmd2KeepsStory(m, x.frame, listener, x.now, i);
        } else {
          ListKeepsStory(m, x.frame, listener, x.now, i);
        }
      }
    }
  }

  lemma RefreshTells(m: Mirror, x: Input, i: nat)
    requires Shape(m) && i < PARTITIONS && Refreshes(x)
    ensures StoryOf(Refreshed(m).partitions[i]) == Tells(StoryOf(m.partitions[i]), x, i)
  {
  }

  /** Touchpad text, features, siren, who armed and the exit delay of a partition. */
  lemma {:induction false} StoryAfter(h: seq<Input>, listener: bool, i: nat)
    requires i < 8 && Bounded(h, listener)
    ensures StoryOf(After(h, listener).partitions[i]) == StoryIn(h, i)
  {
    if h != [] {
      hide React, StoryOf, StoryIn, Tells;
      StoryAfter(Init(h), listener, i);
      InputTells(After(Init(h), listener), Last(h), listener, i);
      StoryStep(h, i);
    }
  }

  // ------------------------------------------------------------------------ zones

  predicate StatusFrame(x: Input, z: nat) {
    x.Received? && x.frame.data[0] == 0x21 && Number(x.frame.data[3..5]) == z
  }

  predicate DataFrame(x: Input, z: nat) {
    x.Received? && x.frame.data[0] == 0x03 && Number(x.frame.data[4..6]) == z
  }

  function GroupSaid(x: Input, z: nat): Option<byte> {
    if DataFrame(x, z) then Some(x.frame.data[3]) else None
  }

  function KindSaid(x: Input, z: nat): Option<byte> {
    if DataFrame(x, z) then Some(x.frame.data[6]) else None
  }

  function NameSaid(x: Input, z: nat): Option<seq<byte>> {
    if DataFrame(x, z) && 8 <= x.frame.length then Some(x.frame.data[8..x.frame.length]) else None
  }

  /** Tripped: flag 0 comes on in a status frame. */
  predicate Trips(state: byte, x: Input, z: nat) {
    StatusFrame(x, z) && x.frame.data[5] % 2 == 1 && state % 2 == 0
  }

  /** When the zone was last tripped. */
  function TrippedAt(h: seq<Input>, z: nat): int {
    if h == [] then 0
    else if Trips(ZoneState(Init(h), z), Last(h), z) then Last(h).now
    else TrippedAt(Init(h), z)
  }

  /** A status that differs, of an active zone, or a new key of its key fob. */
  predicate Changes(active: bool, state: byte, key: (byte, int), x: Input, z: nat) {
    || (StatusFrame(x, z) && active && x.frame.data[5] != state)
    || IsNewKey(key, x, z)
  }

  function ChangedAt(h: seq<Input>, z: nat): int {
    if h == [] then 0
    else if Changes(ZoneNamedSince(Init(h), z), ZoneState(Init(h), z), KeySeen(Init(h), z), Last(h), z)
    then Last(h).now
    else ChangedAt(Init(h), z)
  }

  datatype ZoneStory = ZoneStory(group: byte, kind: byte, name: seq<byte>, trippedAt: int, changedAt: int)

  function ZoneStoryOf(q: Zone): ZoneStory {
    ZoneStory(q.group, q.kind, q.name, q.trippedAt, q.changedAt)
  }

  function ZoneStoryIn(h: seq<Input>, z: nat): ZoneStory {
    ZoneStory(LastSaid(h, x => GroupSaid(x, z), 0), LastSaid(h, x => KindSaid(x, z), 0),
              LastSaid(h, x => NameSaid(x, z), []), TrippedAt(h, z), ChangedAt(h, z))
  }

  /** How one input changes the story of a zone. */
  function ZoneTells(q: Zone, x: Input, z: nat): ZoneStory {
    ZoneStory(Or(GroupSaid(x, z), q.group), Or(KindSaid(x, z), q.kind), Or(NameSaid(x, z), q.name),
              if Trips(q.state, x, z) then x.now else q.trippedAt,
              if Changes(q.active, q.state, (q.lastKc, q.lastKcAt), x, z) then x.now else q.changedAt)
  }

  lemma StatusTells(m: Mirror, f: Frame, now: int, z: nat)
    requires Shape(m) && z < ZONES && f.data[0] == ZONE_STATUS
    ensures ZoneStoryOf(HandleZoneStatus(m, f, now).panel.zones[z]) == ZoneTells(m.zones[z], Received(f, now), z)
  {
    NumbersOf(f, 3);
    assert forall x: byte :: Bit(x, 0) == (x % 2 == 1);
    hide Number, Word, Differing, Bit, NamesShape;
  }

  lemma DataTells(m: Mirror, f: Frame, now: int, z: nat)
    requires Shape(m) && z < ZONES && f.data[0] == ZONE_DATA && ZoneNameInBounds(f)
    ensures ZoneStoryOf(HandleZoneData(m, f).panel.zones[z]) == ZoneTells(m.zones[z], Received(f, now), z)
  {
    NumbersOf(f, 4);
    hide Number, Word, Differing, Bit, NamesShape;
  }

  lemma KeyfobTells(m: Mirror, f: Frame, listener: bool, now: int, z: nat)
    requires Shape(m) && z < ZONES && f.data[0] == SUBCMD2
    ensures ZoneStoryOf(HandleSubcmd2(m, f, listener, now).panel.zones[z]) == ZoneTells(m.zones[z], Received(f, now), z)
  {
    hide SetLights, Bit, Word, NamesShape, Number;
  }

  lemma ZoneNotTold(q: Zone, x: Input, z: nat)
    requires x.Received? ==> x.frame.data[0] !in {ZONE_STATUS, ZONE_DATA, SUBCMD2}
    ensures ZoneTells(q, x, z) == ZoneStoryOf(q)
  {
  }

  lemma InputTellsZone(m: Mirror, x: Input, listener: bool, z: nat)
    requires Shape(m) && z < ZONES && InBounds(m, x)
    ensures ZoneStoryOf(React(m, x, listener).panel.zones[z]) == ZoneTells(m.zones[z], x, z)
  {
    hide HandleSubcmd, HandleSubcmd2, HandleZoneStatus, HandleZoneData, ZoneStoryOf, ZoneTells;
    if IsFrame(x, ZONE_STATUS) {
      StatusTells(m, x.frame, x.now, z);
    } else if IsFrame(x, ZONE_DATA) {
      DataTells(m, x.frame, x.now, z);
    } else if IsFrame(x, SUBCMD2) {
      KeyfobTells(m, x.frame, listener, x.now, z);
    } else {
      ZoneNotTold(m.zones[z], x, z);
      if Refreshes(x) {
        RefreshKeepsZoneStory(m, z);
        hide Refreshed;
      } else if IsFrame(x, SUBCMD) {
        SubcmdKeepsRows(m, x.frame, x.now);
      } else if IsList(x.frame) {
        ListsElsewhere(m, x.frame, listener, x.now);
        hide Handle;
      } else {
        ZonesElsewhere(m, x.frame, listener, x.now);
        hide Handle;
      }
    }
  }

  lemma RefreshKeepsZoneStory(m: Mirror, z: nat)
    requires Shape(m) && z < ZONES
    ensures ZoneStoryOf(Refreshed(m).zones[z]) == ZoneStoryOf(m.zones[z])
  {
  }

  lemma ZoneStoryStep(h: seq<Input>, z: nat, q: Zone)
    requires h != []
    requires ZoneStoryOf(q) == ZoneStoryIn(Init(h), z)
    requires q.active == ZoneNamedSince(Init(h), z) && q.state == ZoneState(Init(h), z)
    requires (q.lastKc, q.lastKcAt) == KeySeen(Init(h), z)
    ensures ZoneStoryIn(h, z) == ZoneTells(q, Last(h), z)
  {
    hide GroupSaid, KindSaid, NameSaid, Trips, Changes;
  }

  /** Group, type and name of a zone, and when it was tripped and last changed. */
  lemma {:induction false} ZoneStoryAfter(h: seq<Input>, listener: bool, z: nat)
    requires z < 96 && Bounded(h, listener)
    ensures ZoneStoryOf(After(h, listener).zones[z]) == ZoneStoryIn(h, z)
  {
    if h != [] {
      hide React, ZoneStoryOf, ZoneStoryIn, ZoneTells;
      ZoneStoryAfter(Init(h), listener, z);
      ZonesAfter(Init(h), listener, z);
      AfterHistory(Init(h), listener);
      InputTellsZone(After(Init(h), listener), Last(h), listener, z);
      ZoneStoryStep(h, z, After(Init(h), listener).zones[z]);
    }
  }

  // ---------------------------------------------------------------------- outputs

  /** Panels set bit 6 of an output's number. */
  predicate OutputFrame(x: Input, k: nat) {
    x.Received? && x.frame.data[0] == 0x07
    && (if (x.frame.data[2] / 64) % 2 == 1 then x.frame.data[2] - 64 else x.frame.data[2]) as int == k
  }

  /** An event that says that output k went on or off. */
  predicate OutputEvent(x: Input, k: nat) {
    && x.Received? && x.frame.data[0] == 0x22 && x.frame.data[1] == 0x02
    && x.frame.data[8] == 18 && (x.frame.data[9] == 5 || x.frame.data[9] == 6)
    && Number(x.frame.data[10..12]) == k
  }

  /** The last state sent for output k. */
  function OutputSaid(x: Input, k: nat): Option<byte> {
    if OutputFrame(x, k) then Some(x.frame.data[3] % 2)
    else if OutputEvent(x, k) then Some(if x.frame.data[9] == 5 then 1 else 0)
    else None
  }

  function OutputState(h: seq<Input>, k: nat): byte {
    LastSaid(h, x => OutputSaid(x, k), 0)
  }

  /** Pulse, id and name. */
  function OutputDataSaid(x: Input, k: nat): Option<(bool, seq<byte>, seq<byte>)> {
    if OutputFrame(x, k) && 9 <= x.frame.length
    then Some(((x.frame.data[3] / 2) % 2 == 1, x.frame.data[4..9], x.frame.data[9..x.frame.length]))
    else None
  }

  /** An event that changes the state of output k. */
  predicate Switches(state: byte, x: Input, k: nat) {
    OutputEvent(x, k) && OutputSaid(x, k) != Some(state)
  }

  /** Partition, source and time of the last event that changed output k. */
  function SwitchedBy(h: seq<Input>, k: nat): (byte, int, int) {
    if h == [] then (0, 0, 0)
    else if Switches(OutputState(Init(h), k), Last(h), k)
    then (Last(h).frame.data[2], Number(Last(h).frame.data[5..8]), Last(h).now)
    else SwitchedBy(Init(h), k)
  }

  /** Sent or switched since the last equipment refresh. */
  predicate OutputNamed(h: seq<Input>, k: nat) {
    && h != [] && Last(h).Received? && Last(h).frame.data[0] != 0x20
    && (OutputFrame(Last(h), k) || Switches(OutputState(Init(h), k), Last(h), k) || OutputNamed(Init(h), k))
  }

  datatype OutputStory = OutputStory(
    active: bool, state: byte, data: (bool, seq<byte>, seq<byte>), switchedBy: (byte, int, int))

  function OutputStoryOf(o: Output): OutputStory {
    OutputStory(o.active, o.state, (o.pulse, o.idBytes, o.name), (o.partitionId, o.changedBy, o.changedAt))
  }

  function OutputStoryIn(h: seq<Input>, k: nat): OutputStory {
    OutputStory(OutputNamed(h, k), OutputState(h, k),
                LastSaid(h, x => OutputDataSaid(x, k), (false, [0, 0, 0, 0, 0], [])), SwitchedBy(h, k))
  }

  function OutputTells(s: OutputStory, x: Input, k: nat): OutputStory {
    OutputStory(x.Received? && x.frame.data[0] != 0x20 && (OutputFrame(x, k) || Switches(s.state, x, k) || s.active),
                Or(OutputSaid(x, k), s.state), Or(OutputDataSaid(x, k), s.data),
                if Switches(s.state, x, k) then (x.frame.data[2], Number(x.frame.data[5..8]), x.now) else s.switchedBy)
  }

  lemma OutputStoryStep(h: seq<Input>, k: nat)
    requires h != []
    ensures OutputStoryIn(h, k) == OutputTells(OutputStoryIn(Init(h), k), Last(h), k)
  {
    hide OutputSaid, OutputDataSaid, Switches, OutputFrame, Number;
  }

  lemma OutputFrameTells(m: Mirror, f: Frame, now: int, k: nat)
    requires Shape(m) && k < OUTPUTS && f.data[0] == OUTPUT_DATA && OutputNameInBounds(f)
    ensures OutputStoryOf(HandleOutputData(m, f).panel.outputs[k])
         == OutputTells(OutputStoryOf(m.outputs[k]), Received(f, now), k)
  {
    assert forall x: byte :: Bit(x, 6) == ((x / 64) % 2 == 1) && Bit(x, 1) == ((x / 2) % 2 == 1);
    hide Bit, Number, NamesShape;
  }

  lemma EventTellsOutput(m: Mirror, f: Frame, now: int, k: nat)
    requires Shape(m) && k < OUTPUTS && f.data[0] == SUBCMD && f.data[1] == ALARM_TROUBLE
    ensures OutputStoryOf(HandleAlarm(m, f, now).panel.outputs[k])
         == OutputTells(OutputStoryOf(m.outputs[k]), Received(f, now), k)
  {
    NumbersOf(f, 10);
    NumbersOf(f, 5);
    var e := EventOf(f, now);
    TabledTellsOutput(Logged(m, e), e, SourceOf(f), now, k);
    hide Number, Word, Long, Tabled;
  }

  lemma TabledTellsOutput(m: Mirror, e: Event, source: int, now: int, k: nat)
    requires Shape(m) && k < OUTPUTS
    ensures var on := if e.specific == 5 then 1 else 0;
            Tabled(m, e, source, now).0.outputs[k]
            == if IsOutputReport(e) && e.extra == k && m.outputs[k].state != on
               then m.outputs[k].(active := true, state := on, partitionId := e.partitionId,
                                  changedAt := now, changedBy := source)
               else m.outputs[k]
  {
  }

  lemma OutputNotTold(s: OutputStory, f: Frame, now: int, k: nat)
    requires f.data[0] != OUTPUT_DATA && f.data[0] != CLEAR_IMAGE
    requires f.data[0] != SUBCMD || f.data[1] != ALARM_TROUBLE
    ensures OutputTells(s, Received(f, now), k) == s
  {
  }

  lemma OutputsElsewhere(m: Mirror, f: Frame, listener: bool, now: int)
    requires Shape(m) && FrameInBounds(m, f) && f.data[0] != OUTPUT_DATA && f.data[0] != CLEAR_IMAGE
    requires f.data[0] != SUBCMD || f.data[1] != ALARM_TROUBLE
    ensures Handle(m, f, listener, now).panel.outputs == m.outputs
  {
    hide Bit, Word, PinText, Shape, SetLights, SubcmdRow, SubcmdNotes, HandleOutputData, HandleAlarm, Long, Differing;
  }

  lemma InputTellsOutput(m: Mirror, x: Input, listener: bool, k: nat)
    requires Shape(m) && k < OUTPUTS && InBounds(m, x)
    ensures OutputStoryOf(React(m, x, listener).panel.outputs[k]) == OutputTells(OutputStoryOf(m.outputs[k]), x, k)
  {
    if Refreshes(x) {
      RefreshTellsOutput(m, x, k);
    } else {
      hide HandleSubcmd2, HandleAlarm, HandleOutputData, OutputStoryOf, OutputTells;
      if x.frame.data[0] == OUTPUT_DATA {
        OutputFrameTells(m, x.frame, x.now, k);
      } else if IsEvent(x) {
        EventTellsOutput(m, x.frame, x.now, k);
      } else {
        OutputsElsewhere(m, x.frame, listener, x.now);
        OutputNotTold(OutputStoryOf(m.outputs[k]), x.frame, x.now, k);
        hide Handle;
      }
    }
  }

  lemma RefreshTellsOutput(m: Mirror, x: Input, k: nat)
    requires Shape(m) && k < OUTPUTS && Refreshes(x)
    ensures OutputStoryOf(Refreshed(m).outputs[k]) == OutputTells(OutputStoryOf(m.outputs[k]), x, k)
  {
  }

  /** Outputs: active, state, pulse, id and name, and what last switched them. */
  lemma {:induction false} OutputsAfter(h: seq<Input>, listener: bool, k: nat)
    requires k < 71 && Bounded(h, listener)
    ensures OutputStoryOf(After(h, listener).outputs[k]) == OutputStoryIn(h, k)
  {
    if h != [] {
      hide React, OutputStoryOf, OutputStoryIn, OutputTells;
      OutputsAfter(Init(h), listener, k);
      InputTellsOutput(After(Init(h), listener), Last(h), listener, k);
      OutputStoryStep(h, k);
    } else {
      assert BLANK_OUTPUT.idBytes == [0, 0, 0, 0, 0];
    }
  }

  // ------------------------------------------------- panel model, siren go, AC time

  /** Kind, hardware, software and serial number. */
  function ModelSaid(x: Input): Option<Model> {
    if x.Received? && x.frame.data[0] == 0x01
    then Some(Model(x.frame.data[1], Number(x.frame.data[2..4]), Number(x.frame.data[4..6]),
                    Number(x.frame.data[6..10])))
    else None
  }

  /** The partition of the last siren setup, which a siren go is about. */
  function SirenGoSaid(x: Input): Option<byte> {
    if x.Received? && x.frame.data[0] == 0x22 && x.frame.data[1] == 0x04 && x.frame.data[2] < 8
    then Some(x.frame.data[2]) else None
  }

  /** When mains last failed or came back. */
  function AcSaid(x: Input): Option<int> {
    if x.Received? && x.frame.data[0] == 0x22 && x.frame.data[1] == 0x02
         && (x.frame.data[8] == 15 || x.frame.data[8] == 16) && x.frame.data[9] == 5
    then Some(x.now) else None
  }

  /** What PanelAfter follows. */
  function PanelOf(m: Mirror): (Model, byte, int) {
    (m.model, m.sirenGo, m.acFailureAt)
  }

  function PanelTells(before: (Model, byte, int), x: Input): (Model, byte, int) {
    (Or(ModelSaid(x), before.0), Or(SirenGoSaid(x), before.1), Or(AcSaid(x), before.2))
  }

  lemma TabledTellsPanel(m: Mirror, e: Event, source: int, now: int)
    requires Shape(m)
    ensures PanelOf(Tabled(m, e, source, now).0)
         == (m.model, m.sirenGo, if IsSystemTrouble(e.general) && e.specific == 5 then now else m.acFailureAt)
  {
  }

  lemma EventTellsPanel(m: Mirror, f: Frame, now: int)
    requires Shape(m) && f.data[0] == SUBCMD && f.data[1] == ALARM_TROUBLE
    ensures PanelOf(HandleAlarm(m, f, now).panel) == PanelTells(PanelOf(m), Received(f, now))
  {
    var e := EventOf(f, now);
    TabledTellsPanel(Logged(m, e), e, SourceOf(f), now);
    hide Number, Word, Long, Tabled;
  }

  lemma SubcmdTellsPanel(m: Mirror, f: Frame, now: int)
    requires Shape(m) && f.data[0] == SUBCMD && f.data[1] != ALARM_TROUBLE && TouchpadInBounds(f)
    ensures PanelOf(HandleSubcmd(m, f, now).panel) == PanelTells(PanelOf(m), Received(f, now))
  {
    hide SubcmdRow, SubcmdNotes, HandleAlarm, Number;
  }

  lemma ModelTellsPanel(m: Mirror, f: Frame, now: int)
    requires Shape(m) && f.data[0] == PANEL_TYPE
    ensures PanelOf(HandlePanelType(m, f).panel) == PanelTells(PanelOf(m), Received(f, now))
  {
    NumbersOf(f, 2);
    NumbersOf(f, 4);
    NumbersOf(f, 6);
    hide Number, Word, Long;
  }

  lemma PanelNotTold(before: (Model, byte, int), x: Input)
    requires x.Received? ==> x.frame.data[0] != SUBCMD && x.frame.data[0] != PANEL_TYPE
    ensures PanelTells(before, x) == before
  {
  }

  lemma OthersKeepPanel(m: Mirror, f: Frame, listener: bool, now: int)
    requires Shape(m) && FrameInBounds(m, f) && f.data[0] != SUBCMD && f.data[0] != PANEL_TYPE
    ensures PanelOf(Handle(m, f, listener, now).panel) == PanelOf(m)
  {
    hide HandleSubcmd, HandlePanelType, SetLights, Bit, Word, Long, Differing, PinText, Shape;
  }

  lemma InputTellsPanel(m: Mirror, x: Input, listener: bool)
    requires Shape(m) && InBounds(m, x)
    ensures PanelOf(React(m, x, listener).panel) == PanelTells(PanelOf(m), x)
  {
    hide HandleSubcmd, HandlePanelType, HandleAlarm, PanelTells;
    if IsEvent(x) {
      EventTellsPanel(m, x.frame, x.now);
      assert React(m, x, listener) == HandleAlarm(m, x.frame, x.now) by { EventIsAlarm(m, x.frame, x.now); }
    } else if IsFrame(x, SUBCMD) {
      SubcmdTellsPanel(m, x.frame, x.now);
    } else if IsFrame(x, PANEL_TYPE) {
      ModelTellsPanel(m, x.frame, x.now);
    } else {
      PanelNotTold(PanelOf(m), x);
      if x.Received? {
        OthersKeepPanel(m, x.frame, listener, x.now);
        hide Handle;
      }
    }
  }

  lemma EventIsAlarm(m: Mirror, f: Frame, now: int)
    requires Shape(m) && TouchpadInBounds(f) && f.data[1] == ALARM_TROUBLE
    ensures HandleSubcmd(m, f, now) == HandleAlarm(m, f, now)
  {
    hide HandleAlarm;
  }

  /** Panel model, the partition a siren go is about, and when mains last failed or
      came back. */
  lemma {:induction false} PanelAfter(h: seq<Input>, listener: bool)
    requires Bounded(h, listener)
    ensures var m := After(h, listener);
            && m.model == LastSaid(h, ModelSaid, Model(0, 0, 0, 0)) && m.sirenGo == LastSaid(h, SirenGoSaid, 0)
            && m.acFailureAt == LastSaid(h, AcSaid, 0)
  {
    if h != [] {
      hide React, ModelSaid, SirenGoSaid, AcSaid;
      PanelAfter(Init(h), listener);
      InputTellsPanel(After(Init(h), listener), Last(h), listener);
    }
  }

  // --------------------------------------------------------------- capabilities

  /** Slot k of the device list is the first with that number. */
  predicate FirstListed(listed: seq<(nat, byte)>, id: nat, k: nat) {
    && k < |listed| && listed[k].0 == id
    && forall j :: 0 <= j < k ==> listed[j].0 != id
  }

  predicate CapabilityFrame(listed: seq<(nat, byte)>, x: Input, k: nat) {
    x.Received? && x.frame.data[0] == 0x06 && FirstListed(listed, Number(x.frame.data[1..4]), k)
  }

  /** The capabilities reported for slot k, and the last counts of inputs and outputs;
      they outlast a refresh. */
  function Capabilities(h: seq<Input>, k: nat): (Mask, byte, byte) {
    if h == [] then ({}, 0, 0)
    else if CapabilityFrame(Listed(Init(h)), Last(h), k)
    then More(Capabilities(Init(h), k), Last(h).frame.data[4], Last(h).frame.data[5])
    else Capabilities(Init(h), k)
  }

  function More(caps: (Mask, byte, byte), cap: byte, count: byte): (Mask, byte, byte) {
    (caps.0 + {cap as nat}, if cap == 8 then count else caps.1, if cap == 11 then count else caps.2)
  }

  function CapabilitiesOf(d: Device): (Mask, byte, byte) {
    (d.caps, d.inputs, d.outputs)
  }

  lemma FindListed(m: Mirror, listed: seq<(nat, byte)>, id: nat)
    requires Shape(m) && DevicesTell(m, listed)
    ensures var found := FindDevice(m.devices, m.deviceCount, id, 0);
            forall k: nat :: FirstListed(listed, id, k) <==> found == Some(k)
  {
    hide Shape;
    var found := FindDevice(m.devices, m.deviceCount, id, 0);
    if found.Some? {
      FirstFound(m.devices, m.deviceCount, id, 0);
    }
    forall k: nat ensures FirstListed(listed, id, k) <==> found == Some(k) {
      if found.Some? && k < |listed| {
        assert (m.devices[k].id, m.devices[k].status) == listed[k];
      }
    }
  }

  lemma {:induction false} FirstFound(devices: seq<Device>, count: nat, id: nat, i: nat)
    requires i <= count <= |devices| && FindDevice(devices, count, id, i).Some?
    ensures var k := FindDevice(devices, count, id, i).value;
            forall j :: i <= j < k ==> !(devices[j].active && devices[j].id == id)
    decreases count - i
  {
    if !(devices[i].active && devices[i].id == id) {
      FirstFound(devices, count, id, i + 1);
    }
  }

  lemma CapabilityTells(m: Mirror, f: Frame, now: int, listed: seq<(nat, byte)>, k: nat)
    requires Shape(m) && k < DEVICES && f.data[0] == BUS_CAPABILITY_DATA && CapabilityInBounds(m, f)
    requires DevicesTell(m, listed)
    ensures CapabilitiesOf(HandleCapabilityData(m, f).panel.devices[k])
         == if CapabilityFrame(listed, Received(f, now), k)
            then More(CapabilitiesOf(m.devices[k]), f.data[4], f.data[5]) else CapabilitiesOf(m.devices[k])
  {
    NumbersOf(f, 1);
    FindListed(m, listed, Number(f.data[1..4]));
    hide Number, Long, FindDevice, FirstListed, DevicesTell, NamesShape;
  }

  lemma InputTellsCapabilities(m: Mirror, x: Input, listener: bool, listed: seq<(nat, byte)>, k: nat)
    requires Shape(m) && k < DEVICES && InBounds(m, x) && DevicesTell(m, listed)
    ensures CapabilitiesOf(React(m, x, listener).panel.devices[k])
         == if CapabilityFrame(listed, x, k)
            then More(CapabilitiesOf(m.devices[k]), x.frame.data[4], x.frame.data[5]) else CapabilitiesOf(m.devices[k])
  {
    hide HandleSubcmd, HandleSubcmd2, HandleCapabilityData, FirstListed, Number, More, Long, DevicesTell;
    if IsFrame(x, BUS_CAPABILITY_DATA) {
      CapabilityTells(m, x.frame, x.now, listed, k);
    } else if IsFrame(x, SUBCMD) {
      SubcmdKeepsRows(m, x.frame, x.now);
    } else if IsFrame(x, SUBCMD2) {
      Subcmd2KeepsRows(m, x.frame, listener, x.now);
    } else if !Refreshes(x) && !IsFrame(x, BUS_DEVICE_DATA) {
      DevicesElsewhere(m, x.frame, listener, x.now);
      hide Handle;
    } else {
      hide NamesShape;
    }
  }

  /** The capabilities of the slots of the device list. */
  lemma {:induction false} CapabilitiesAfter(h: seq<Input>, listener: bool, k: nat)
    requires k < 32 && Bounded(h, listener)
    ensures CapabilitiesOf(After(h, listener).devices[k]) == Capabilities(h, k)
  {
    if h != [] {
      hide React, CapabilityFrame, More, DevicesTell, CapabilitiesOf;
      CapabilitiesAfter(Init(h), listener, k);
      DevicesAfter(Init(h), listener);
      InputTellsCapabilities(After(Init(h), listener), Last(h), listener, Listed(Init(h)), k);
    }
  }
}
