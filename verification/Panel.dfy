/** The daemon's mirror of the alarm panel, as a value, and what each kind of
    frame does to it.  Class Instance carries these out in place; module History
    and the modules after it say what they add up to over a run. */
module Panel {
  import opened Bytes

  // ------------------------------------------------------------------ bits

  function Pow2(k: nat): (p: nat)
    requires k < 16
    ensures p > 0
  {
    [1, 2, 4, 8, 16, 32, 64, 128, 256, 512, 1024, 2048, 4096, 8192, 16384, 32768][k]
  }

  predicate Bit(x: nat, k: nat)
    requires k < 16
  {
    (x / Pow2(k)) % 2 == 1
  }

  function Word(hi: byte, lo: byte): nat {
    var h: nat := hi;
    h * 0x100 + lo
  }

  function Long(b3: byte, b2: byte, b1: byte, b0: byte): nat {
    Word(b3, b2) * 0x1_0000 + Word(b1, b0)
  }

  /** A change mask, as the set of its bit numbers. */
  type Mask = set<nat>

  const PARTITION_ID_CHANGED := 0
  const LAST_CHANGED_BY_CHANGED := 2
  const LAST_CHANGED_AT_CHANGED := 3
  const STATE_CHANGED := 4
  const ZONE_TYPE_CHANGED := 16
  const ZONE_GROUP_CHANGED := 17
  const LAST_KC_CHANGED := 19
  const LAST_KC_CHANGED_AT_CHANGED := 20
  const ARM_LEVEL_CHANGED := 16
  const TOUCHPAD_TEXT_CHANGED := 17
  const SIREN_REPEAT_CHANGED := 18
  const SIREN_CADENCE_CHANGED := 19
  const SIREN_STARTED_AT_CHANGED := 23
  const PROGRAMMING_MODE_CHANGED := 24
  const AC_POWER_FAILURE_CHANGED := 12

  /** The bits that differ, shifted left by eight. */
  function Differing(a: byte, b: byte): Mask {
    set k | 0 <= k < 8 && Bit(a, k) != Bit(b, k) :: k + 8
  }

  // ---------------------------------------------------------------- entities

  datatype Light = Light(on: bool, zoneId: byte, changedAt: int)

  datatype EventStatus = Unspecified | Ongoing | Canceled | Restored

  datatype Event = Event(
    status: EventStatus, partitionId: byte, sourceType: byte, zoneId: int, deviceId: int,
    general: byte, specific: byte, extra: int, timestamp: int)

  datatype Partition = Partition(
    active: bool, armLevel: byte, armLevelUser: int, armLevelAt: int,
    lights: seq<Light>, features: byte, programming: bool,
    entryDelay: bool, exitDelay: bool,
    alarms: seq<Option<Event>>, troubles: seq<Option<Event>>,
    sirenRepeat: byte, sirenCadence: nat, sirenStartedAt: int,
    touchpadText: seq<byte>)

  datatype Zone = Zone(
    active: bool, partitionId: byte, kind: byte, group: byte, state: byte,
    lastKc: byte, lastKcAt: int, trippedAt: int, changedAt: int, name: seq<byte>)

  datatype Output = Output(
    active: bool, partitionId: byte, state: byte, pulse: bool, changedBy: int, changedAt: int,
    idBytes: seq<byte>, name: seq<byte>)

  /** A bus device.  Its capabilities are the numbers of the bits set in `caps`. */
  datatype Device = Device(active: bool, id: nat, status: byte, caps: Mask, inputs: byte, outputs: byte)

  datatype Model = Model(kind: byte, hardware: nat, software: nat, serial: nat)

  /** `code` is the text of code_str up to its NUL. */
  datatype User = User(active: bool, code: seq<byte>)

  datatype Mirror = Mirror(
    partitions: seq<Partition>, zones: seq<Zone>, outputs: seq<Output>, users: seq<User>,
    refreshPending: bool, acFailure: bool, acFailureAt: int, sirenGo: byte,
    troubles: seq<Option<Event>>, log: seq<Option<Event>>, logLast: byte,
    devices: seq<Device>, deviceCount: byte, model: Model)

  const PARTITIONS := 8
  const ZONES := 96
  const OUTPUTS := 71
  const USERS := 252
  const LIGHTS := 10
  const ALARM_TYPES := 40
  const TROUBLE_TYPES := 20
  const SYSTEM_TROUBLE_TYPES := 52
  const EVENT_LOG := 256
  const DEVICES := 32
  const NAME_SIZE := 16
  const TEXT_SIZE := 32
  const ID_SIZE := 5
  const CODE_SIZE := 7

  /** The tables have their sizes, and the texts copied out of frames their room. */
  predicate PartitionShape(q: Partition) {
    |q.lights| == LIGHTS && |q.alarms| == ALARM_TYPES && |q.troubles| == TROUBLE_TYPES && |q.touchpadText| <= TEXT_SIZE
  }

  predicate NamesShape(zones: seq<Zone>, outputs: seq<Output>, users: seq<User>) {
    && (forall u :: u in users ==> |u.code| < CODE_SIZE)
    && (forall z :: z in zones ==> |z.name| <= NAME_SIZE)
    && (forall o :: o in outputs ==> |o.name| <= NAME_SIZE && |o.idBytes| == ID_SIZE)
  }

  predicate Shape(p: Mirror) {
    && |p.partitions| == PARTITIONS && |p.zones| == ZONES && |p.outputs| == OUTPUTS && |p.users| == USERS
    && |p.troubles| == SYSTEM_TROUBLE_TYPES && |p.log| == EVENT_LOG
    && |p.devices| == DEVICES && p.deviceCount <= DEVICES
    && NamesShape(p.zones, p.outputs, p.users)
    && forall i :: 0 <= i < PARTITIONS ==> PartitionShape(p.partitions[i])
  }

  const BLANK_PARTITION := Partition(
    false, 0, 0, 0, Repeat(Light(false, 0, 0), LIGHTS), 0, false, false, false,
    Repeat(None, ALARM_TYPES), Repeat(None, TROUBLE_TYPES), 0, 0, 0, [])

  const BLANK_ZONE := Zone(false, 0, 0, 0, 0, 0, 0, 0, 0, [])
  const BLANK_OUTPUT := Output(false, 0, 0, false, 0, 0, Repeat(0, ID_SIZE), [])
  const BLANK_DEVICE := Device(false, 0, 0, {}, 0, 0)

  /** After concordd_init: everything zero. */
  const BLANK := Mirror(
    Repeat(BLANK_PARTITION, PARTITIONS), Repeat(BLANK_ZONE, ZONES),
    Repeat(BLANK_OUTPUT, OUTPUTS), Repeat(User(false, []), USERS),
    false, false, 0, 0, Repeat(None, SYSTEM_TROUBLE_TYPES), Repeat(None, EVENT_LOG), 0,
    Repeat(BLANK_DEVICE, DEVICES), 0, Model(0, 0, 0, 0))

  lemma BlankIsShaped()
    ensures Shape(BLANK)
  {
  }

  /** The calls to subscribers. */
  datatype Note =
    | ZoneChanged(zone: nat, mask: Mask)
    | PartitionChanged(partition: nat, mask: Mask)
    | InstanceChanged(mask: Mask)
    | LightChanged(partition: nat, light: nat)
    | OutputChanged(output: nat, mask: Mask)
    | SirenSync
    | Dispatched(event: Event)

  /** What handling a frame does: the new mirror, the calls to subscribers in
      order, and the messages submitted to the queue (without a callback). */
  datatype Effect = Effect(panel: Mirror, notes: seq<Note>, queued: seq<seq<byte>>)

  /** A received frame as a handler sees it: the whole receive buffer, and how many
      of its first bytes are the payload. */
  datatype Packet = Packet(data: seq<byte>, length: nat)

  type Frame = f: Packet | |f.data| == MAX_MESSAGE_SIZE && 1 <= f.length < MAX_MESSAGE_SIZE
    witness Packet(Repeat(0, MAX_MESSAGE_SIZE), 1)

  // Frame types and subtypes.
  const PANEL_TYPE: byte := 0x01
  const ZONE_DATA: byte := 0x03
  const PARTITION_DATA: byte := 0x04
  const BUS_DEVICE_DATA: byte := 0x05
  const BUS_CAPABILITY_DATA: byte := 0x06
  const OUTPUT_DATA: byte := 0x07
  const LIST_COMPLETE: byte := 0x08
  const USER_DATA: byte := 0x09
  const LIGHT_TO_SENSOR_DATA: byte := 0x0C
  const CLEAR_IMAGE: byte := 0x20
  const ZONE_STATUS: byte := 0x21
  const SUBCMD: byte := 0x22
  const SUBCMD2: byte := 0x23

  const LEVEL: byte := 0x01
  const ALARM_TROUBLE: byte := 0x02
  const ENTRY_EXIT_DELAY: byte := 0x03
  const SIREN_SETUP: byte := 0x04
  const SIREN_SYNC: byte := 0x05
  const SIREN_GO: byte := 0x06
  const TOUCHPAD_DISPLAY: byte := 0x09
  const SIREN_STOP: byte := 0x0B
  const FEATURE_STATE: byte := 0x0C
  const TIME_AND_DATE: byte := 0x0E

  const LIGHTS_STATE: byte := 0x01
  const USER_LIGHTS: byte := 0x02
  const KEYFOB: byte := 0x03

  const EQUIP_LIST_REQUEST: byte := 0x02
  const DYNAMIC_DATA_REFRESH: byte := 0x20

  // Event types.
  const ALARM: byte := 1
  const ALARM_CANCEL: byte := 2
  const ALARM_RESTORAL: byte := 3
  const FIRE_TROUBLE: byte := 4
  const FIRE_TROUBLE_RESTORAL: byte := 5
  const NONFIRE_TROUBLE: byte := 6
  const NONFIRE_TROUBLE_RESTORAL: byte := 7
  const SYSTEM_TROUBLE: byte := 15
  const SYSTEM_TROUBLE_RESTORAL: byte := 16
  const SYSTEM_CONFIG_CHANGE: byte := 17
  const SYSTEM_EVENT: byte := 18
  const MAIN_AC_FAIL: byte := 5
  const OUTPUT_ON: byte := 5
  const OUTPUT_OFF: byte := 6
  const BUS_DEVICE: byte := 0

  // Capabilities of bus devices that come with a count.
  const INPUT_ZONES: byte := 0x08
  const RELAY_OUTPUTS: byte := 0x0B

  // ------------------------------------------------------- what handlers rely on
  //
  // The end of some frames is copied into the tables, and no handler looks at the
  // length before it does so.

  predicate TouchpadInBounds(f: Frame) {
    f.data[1] == TOUCHPAD_DISPLAY && f.data[2] < PARTITIONS ==> 5 <= f.length <= 5 + TEXT_SIZE
  }

  predicate ZoneNameInBounds(f: Frame) {
    Word(f.data[4], f.data[5]) < ZONES ==> 8 <= f.length <= 8 + NAME_SIZE
  }

  /** Panels set bit 6 of an output's number for no known reason. */
  function OutputIndex(f: Frame): nat {
    if Bit(f.data[2], 6) then f.data[2] - 64 else f.data[2]
  }

  predicate OutputNameInBounds(f: Frame) {
    OutputIndex(f) < OUTPUTS ==> 9 <= f.length <= 9 + NAME_SIZE
  }

  /** A device list has one entry for each device listed since the last refresh. */
  predicate DeviceInBounds(p: Mirror) {
    p.deviceCount < DEVICES
  }

  /** The first active device of a number, from index i on. */
  function FindDevice(devices: seq<Device>, count: nat, id: nat, i: nat): (k: Option<nat>)
    requires i <= count <= |devices|
    ensures k.Some? ==> i <= k.value < count && devices[k.value].active && devices[k.value].id == id
    ensures k.None? ==> forall j :: i <= j < count ==> !(devices[j].active && devices[j].id == id)
    decreases count - i
  {
    if i == count then None
    else if devices[i].active && devices[i].id == id then Some(i)
    else FindDevice(devices, count, id, i + 1)
  }

  function CapableDevice(p: Mirror, f: Frame): (k: Option<nat>)
    requires Shape(p)
    ensures k.Some? ==> k.value < DEVICES
  {
    FindDevice(p.devices, p.deviceCount, Long(0, f.data[1], f.data[2], f.data[3]), 0)
  }

  /** Capabilities are bits of a 32-bit word. */
  predicate CapabilityInBounds(p: Mirror, f: Frame)
    requires Shape(p)
  {
    CapableDevice(p, f).Some? ==> f.data[4] < 32
  }

  predicate FrameInBounds(p: Mirror, f: Frame)
    requires Shape(p)
  {
    && (f.data[0] == SUBCMD ==> TouchpadInBounds(f))
    && (f.data[0] == ZONE_DATA ==> ZoneNameInBounds(f))
    && (f.data[0] == OUTPUT_DATA ==> OutputNameInBounds(f))
    && (f.data[0] == BUS_DEVICE_DATA ==> DeviceInBounds(p))
    && (f.data[0] == BUS_CAPABILITY_DATA ==> CapabilityInBounds(p, f))
  }

  // ---------------------------------------------------------------- refresh

  /** The part of concordd_equipment_refresh before the request is queued. */
  function Refreshed(p: Mirror): Mirror {
    p.(refreshPending := true, deviceCount := 0,
       zones := seq(|p.zones|, i requires 0 <= i < |p.zones| => p.zones[i].(active := false)),
       partitions := seq(|p.partitions|, i requires 0 <= i < |p.partitions| =>
         p.partitions[i].(active := false, entryDelay := false, exitDelay := false)),
       outputs := seq(|p.outputs|, i requires 0 <= i < |p.outputs| => p.outputs[i].(active := false)),
       devices := seq(|p.devices|, i requires 0 <= i < |p.devices| => p.devices[i].(active := false)))
  }

  lemma RefreshedIsShaped(p: Mirror)
    requires Shape(p)
    ensures Shape(Refreshed(p))
  {
  }

  function Refresh(p: Mirror): Effect {
    Effect(Refreshed(p), [], [[EQUIP_LIST_REQUEST]])
  }

  // ----------------------------------------------------------------- events

  function StatusOf(general: byte): EventStatus {
    if general == ALARM || general == FIRE_TROUBLE || general == NONFIRE_TROUBLE
         || general == SYSTEM_TROUBLE then Ongoing
    else if general == ALARM_RESTORAL || general == FIRE_TROUBLE_RESTORAL || general == NONFIRE_TROUBLE_RESTORAL
         || general == SYSTEM_TROUBLE_RESTORAL then Restored
    else if general == ALARM_CANCEL then Canceled
    else Unspecified
  }

  function SourceOf(f: Frame): int {
    Long(0, f.data[5], f.data[6], f.data[7])
  }

  /** The event an ALARM_TROUBLE frame describes. */
  function EventOf(f: Frame, now: int): Event {
    var source := SourceOf(f);
    Event(StatusOf(f.data[8]), f.data[2], f.data[4],
          if f.data[4] == BUS_DEVICE then 0xFFFF else source % 0x10000,
          if f.data[4] == BUS_DEVICE then source else 0xFFFF_FFFF,
          f.data[8], f.data[9], Word(f.data[10], f.data[11]), now)
  }

  function Logged(p: Mirror, e: Event): Mirror
    requires Shape(p)
  {
    var last := (p.logLast + 1) % EVENT_LOG;
    p.(logLast := last, log := p.log[last := Some(e)])
  }

  function SetPartition(p: Mirror, i: nat, q: Partition): Mirror
    requires i < |p.partitions|
  {
    p.(partitions := p.partitions[i := q])
  }

  predicate IsAlarm(general: byte) { general == ALARM || general == ALARM_RESTORAL || general == ALARM_CANCEL }

  predicate IsTrouble(general: byte) {
    || general == FIRE_TROUBLE || general == NONFIRE_TROUBLE
    || general == FIRE_TROUBLE_RESTORAL || general == NONFIRE_TROUBLE_RESTORAL
  }

  predicate IsSystemTrouble(general: byte) {
    general == SYSTEM_TROUBLE || general == SYSTEM_TROUBLE_RESTORAL
  }

  /** A report that an output went on or off: it is not passed on. */
  predicate IsOutputReport(e: Event) {
    e.general == SYSTEM_EVENT && (e.specific == OUTPUT_ON || e.specific == OUTPUT_OFF)
  }

  /** Tables and flags, once the event is in the log. */
  function Tabled(p: Mirror, e: Event, source: int, now: int): (res: (Mirror, seq<Note>))
    requires Shape(p)
    ensures Shape(res.0)
  {
    var i := e.partitionId;
    var known := i < PARTITIONS;
    if IsSystemTrouble(e.general) then
      var p1 := if e.specific < SYSTEM_TROUBLE_TYPES then p.(troubles := p.troubles[e.specific := Some(e)]) else p;
      if e.specific == MAIN_AC_FAIL then
        (p1.(acFailure := e.general == SYSTEM_TROUBLE, acFailureAt := now),
         [InstanceChanged({AC_POWER_FAILURE_CHANGED})])
      else (p1, [])
    else if IsAlarm(e.general) then
      if known && e.specific < ALARM_TYPES then
        var q := p.partitions[i];
        (SetPartition(p, i, q.(alarms := q.alarms[e.specific := Some(e)])), [])
      else (p, [])
    else if IsTrouble(e.general) then
      if known && e.specific < TROUBLE_TYPES then
        var q := p.partitions[i];
        (SetPartition(p, i, q.(troubles := q.troubles[e.specific := Some(e)])), [])
      else (p, [])
    else if e.general == SYSTEM_CONFIG_CHANGE then
      if known && e.specific <= 2 then
        (SetPartition(p, i, p.partitions[i].(programming := e.specific == 0)),
         [InstanceChanged({PROGRAMMING_MODE_CHANGED})])
      else (p, [])
    else if IsOutputReport(e) then
      var on: byte := if e.specific == OUTPUT_ON then 1 else 0;
      if e.extra < OUTPUTS && 0 <= e.extra && p.outputs[e.extra].state != on then
        (p.(outputs := p.outputs[e.extra := p.outputs[e.extra].(
             active := true, state := on, partitionId := i, changedAt := now, changedBy := source)]),
         [OutputChanged(e.extra, {STATE_CHANGED, LAST_CHANGED_AT_CHANGED, LAST_CHANGED_BY_CHANGED})])
      else (p, [])
    else (p, [])
  }

  function HandleAlarm(p: Mirror, f: Frame, now: int): (r: Effect)
    requires Shape(p)
    ensures Shape(r.panel)
  {
    var e := EventOf(f, now);
    var (p1, notes) := Tabled(Logged(p, e), e, SourceOf(f), now);
    Effect(p1, notes + (if IsOutputReport(e) then [] else [Dispatched(e)]), [])
  }

  // ------------------------------------------------------------------ lights

  /** The loop over the lights of a LIGHTS_STATE frame from index i on.  A light
      that differs is flipped; if a subscriber is told, the loop stops there.
      The second result is the light it stopped at. */
  function SetLights(lights: seq<Light>, bitmap: nat, i: nat, silent: bool, now: int): (res: (seq<Light>, Option<nat>))
    requires |lights| == LIGHTS && i <= LIGHTS
    ensures |res.0| == LIGHTS
    ensures res.1.Some? ==> i <= res.1.value < LIGHTS
    decreases LIGHTS - i
  {
    if i == LIGHTS then (lights, None)
    else if lights[i].on == Bit(bitmap, i) then SetLights(lights, bitmap, i + 1, silent, now)
    else
      var flipped := lights[i := lights[i].(on := !lights[i].on, changedAt := now)];
      if !silent && lights[i].changedAt != 0 then (flipped, Some(i))
      else SetLights(flipped, bitmap, i + 1, silent, now)
  }

  // ------------------------------------------------------------ frame handlers

  function OnPartition(p: Mirror, i: nat, q: Partition, notes: seq<Note>): Effect
    requires i < |p.partitions|
  {
    Effect(SetPartition(p, i, q), notes, [])
  }

  /** What a subcommand frame does to the row of the partition it names ... */
  function SubcmdRow(q: Partition, f: Frame, now: int): (r: Partition)
    requires f.data[2] < PARTITIONS && TouchpadInBounds(f)
    ensures PartitionShape(q) ==> PartitionShape(r)
  {
    if f.data[1] == SIREN_SETUP then
      q.(active := true, sirenRepeat := f.data[4], sirenStartedAt := now,
          sirenCadence := Long(f.data[5], f.data[6], f.data[7], f.data[8]))
    else if f.data[1] == SIREN_STOP then q.(sirenCadence := 0)
    else if f.data[1] == TOUCHPAD_DISPLAY then q.(active := true, touchpadText := f.data[5..f.length])
    else if f.data[1] == LEVEL then
      q.(active := true, armLevel := f.data[6], armLevelUser := Word(f.data[4], f.data[5]),
          armLevelAt := now, entryDelay := false)
    else if f.data[1] == ENTRY_EXIT_DELAY then
      if Bit(f.data[4], 6) then q.(exitDelay := !Bit(f.data[4], 7)) else q.(entryDelay := !Bit(f.data[4], 7))
    else if f.data[1] == FEATURE_STATE then q.(features := f.data[4], active := true)
    else q
  }

  const SIREN_MASK: Mask := {SIREN_REPEAT_CHANGED, SIREN_CADENCE_CHANGED, SIREN_STARTED_AT_CHANGED}

  /** ... and what subscribers are told about it. */
  function SubcmdNotes(q: Partition, f: Frame): seq<Note>
    requires f.data[2] < PARTITIONS && TouchpadInBounds(f)
  {
    if f.data[1] == TOUCHPAD_DISPLAY && q.touchpadText != f.data[5..f.length] then
      [PartitionChanged(f.data[2], {TOUCHPAD_TEXT_CHANGED})]
    else if f.data[1] == SIREN_SETUP && f.data[4] == 0 then [PartitionChanged(f.data[2], SIREN_MASK)]
    else if f.data[1] == SIREN_STOP then [PartitionChanged(f.data[2], {SIREN_CADENCE_CHANGED})]
    else if f.data[1] == LEVEL then [PartitionChanged(f.data[2], {ARM_LEVEL_CHANGED})]
    else if f.data[1] == FEATURE_STATE && q.features != f.data[4] then
      [PartitionChanged(f.data[2], Differing(q.features, f.data[4]))]
    else []
  }

  function HandleSubcmd(p: Mirror, f: Frame, now: int): (r: Effect)
    requires Shape(p) && TouchpadInBounds(f)
    ensures Shape(r.panel)
  {
    var i := f.data[2];
    if f.data[1] == ALARM_TROUBLE then HandleAlarm(p, f, now)
    else if f.data[1] == TIME_AND_DATE then Effect(p.(refreshPending := false), [], [])
    else if f.data[1] == SIREN_GO then
      Effect(p, if p.sirenGo >= PARTITIONS || p.partitions[p.sirenGo].sirenCadence == 0 then []
                else [PartitionChanged(p.sirenGo, SIREN_MASK)], [])
    else if f.data[1] == SIREN_SYNC then Effect(p, [SirenSync], [])
    else if i >= PARTITIONS then Effect(p, [], [])
    else
      OnPartition(p.(sirenGo := if f.data[1] == SIREN_SETUP then i else p.sirenGo), i,
                  SubcmdRow(p.partitions[i], f, now), SubcmdNotes(p.partitions[i], f))
  }

  /** `listener` says whether a light subscriber is installed. */
  function HandleSubcmd2(p: Mirror, f: Frame, listener: bool, now: int): (r: Effect)
    requires Shape(p)
    ensures Shape(r.panel)
  {
    var i := f.data[2];
    var none := Effect(p, [], []);
    if f.data[1] == LIGHTS_STATE then
      if i >= PARTITIONS then none
      else
        var silent := p.refreshPending || !listener;
        var (lights, told) := SetLights(p.partitions[i].lights, Word(f.data[5], f.data[4]), 0, silent, now);
        OnPartition(p, i, p.partitions[i].(lights := lights), if told.Some? then [LightChanged(i, told.value)] else [])
    else if f.data[1] == USER_LIGHTS then
      if i >= PARTITIONS || f.data[8] >= LIGHTS then none
      else
        var q := p.partitions[i];
        var light := q.lights[f.data[8]].(on := f.data[9] != 0, changedAt := now);
        OnPartition(p, i, q.(lights := q.lights[f.data[8] := light]),
          if listener then [LightChanged(i, f.data[8])] else [])
    else if f.data[1] == KEYFOB then
      if f.data[5] >= ZONES then none
      else
        var z := p.zones[f.data[5]];
        if z.lastKc != f.data[6] || f.data[6] <= 3 || now != z.lastKcAt then
          Effect(p.(zones := p.zones[f.data[5] := z.(
                      lastKc := f.data[6], lastKcAt := now, changedAt := now, active := true)]),
                 [ZoneChanged(f.data[5], {LAST_KC_CHANGED, LAST_KC_CHANGED_AT_CHANGED})], [])
        else none
    else none
  }

  function HandleZoneStatus(p: Mirror, f: Frame, now: int): (r: Effect)
    requires Shape(p)
    ensures Shape(r.panel)
  {
    var i := Word(f.data[3], f.data[4]);
    if i >= ZONES then Effect(p, [], [])
    else
      var z := p.zones[i];
      var tell := z.state != f.data[5] && z.active;
      Effect(p.(zones := p.zones[i := z.(
               state := f.data[5], active := true,
               trippedAt := if Bit(f.data[5], 0) && !Bit(z.state, 0) then now else z.trippedAt,
               changedAt := if tell then now else z.changedAt)]),
             if tell then [ZoneChanged(i, Differing(z.state, f.data[5]))] else [], [])
  }

  function HandlePartitionData(p: Mirror, f: Frame): (r: Effect)
    requires Shape(p)
    ensures Shape(r.panel)
  {
    if f.data[1] >= PARTITIONS then Effect(p, [], [])
    else OnPartition(p, f.data[1], p.partitions[f.data[1]].(active := true, armLevel := f.data[3]),
                     if p.partitions[f.data[1]].armLevel == f.data[3] then []
                     else [PartitionChanged(f.data[1], {ARM_LEVEL_CHANGED})])
  }

  function HandleZoneData(p: Mirror, f: Frame): (r: Effect)
    requires Shape(p) && ZoneNameInBounds(f)
    ensures Shape(r.panel)
  {
    var i := Word(f.data[4], f.data[5]);
    if i >= ZONES then Effect(p, [], [])
    else
      var z := p.zones[i];
      var changes := (if z.partitionId != f.data[1] then {PARTITION_ID_CHANGED} else {})
                   + (if z.group != f.data[3] then {ZONE_GROUP_CHANGED} else {})
                   + (if z.kind != f.data[6] then {ZONE_TYPE_CHANGED} else {})
                   + Differing(z.state, f.data[7]);
      Effect(p.(zones := p.zones[i := z.(
               partitionId := f.data[1], group := f.data[3], kind := f.data[6], state := f.data[7],
               active := true, name := f.data[8..f.length])]),
             if changes != {} && z.active then [ZoneChanged(i, changes)] else [], [])
  }

  /** A digit character for a nibble; above nine it runs past the digits. */
  function PinChar(n: nat): byte
    requires n < 16
  {
    '0' as int + n
  }

  function PinText(hi: byte, lo: byte): (text: seq<byte>)
    ensures |text| <= 4
  {
    var text := [PinChar(hi / 16), PinChar(hi % 16), PinChar(lo / 16), PinChar(lo % 16)];
    if text == Repeat('0' as int, 4) then [] else text
  }

  function HandleUserData(p: Mirror, f: Frame): (r: Effect)
    requires Shape(p)
    ensures Shape(r.panel)
  {
    var i := Word(f.data[1], f.data[2]);
    if i >= USERS then Effect(p, [], [])
    else Effect(p.(users := p.users[i := User(true, PinText(f.data[4], f.data[5]))]), [], [])
  }

  function HandleOutputData(p: Mirror, f: Frame): (r: Effect)
    requires Shape(p) && OutputNameInBounds(f)
    ensures Shape(r.panel)
  {
    var i := OutputIndex(f);
    if i >= OUTPUTS then Effect(p, [], [])
    else Effect(p.(outputs := p.outputs[i := p.outputs[i].(
                  active := true, state := f.data[3] % 2, pulse := Bit(f.data[3], 1),
                  idBytes := f.data[4..9], name := f.data[9..f.length])]), [], [])
  }

  /** The next device of the list.  What is known of the slot's capabilities stays. */
  function HandleDeviceData(p: Mirror, f: Frame): (r: Effect)
    requires Shape(p) && DeviceInBounds(p)
    ensures Shape(r.panel)
  {
    var k := p.deviceCount;
    Effect(p.(deviceCount := k + 1,
              devices := p.devices[k := p.devices[k].(
                active := true, id := Long(0, f.data[3], f.data[4], f.data[5]), status := f.data[6])]), [], [])
  }

  function WithCapability(d: Device, cap: byte, data: byte): Device {
    d.(caps := d.caps + {cap},
       inputs := if cap == INPUT_ZONES then data else d.inputs,
       outputs := if cap == RELAY_OUTPUTS then data else d.outputs)
  }

  function HandleCapabilityData(p: Mirror, f: Frame): (r: Effect)
    requires Shape(p) && CapabilityInBounds(p, f)
    ensures Shape(r.panel)
  {
    match CapableDevice(p, f)
    case None => Effect(p, [], [])
    case Some(k) =>
      Effect(p.(devices := p.devices[k := WithCapability(p.devices[k], f.data[4], f.data[5])]), [], [])
  }

  function HandlePanelType(p: Mirror, f: Frame): (r: Effect)
    requires Shape(p)
    ensures Shape(r.panel)
  {
    Effect(p.(model := Model(f.data[1], Word(f.data[2], f.data[3]), Word(f.data[4], f.data[5]),
                             Long(f.data[6], f.data[7], f.data[8], f.data[9]))), [], [])
  }

  function HandleLightToSensorData(p: Mirror, f: Frame): (r: Effect)
    requires Shape(p)
    ensures Shape(r.panel)
  {
    if f.data[1] >= PARTITIONS then Effect(p, [], [])
    else
      var q := p.partitions[f.data[1]];
      OnPartition(p, f.data[1],
        q.(active := true,
           lights := seq(LIGHTS, k requires 0 <= k < LIGHTS =>
             if k == 0 then q.lights[0] else q.lights[k].(zoneId := f.data[2 + k]))), [])
  }

  /** concordd_handle_frame. */
  function Handle(p: Mirror, f: Frame, listener: bool, now: int): (r: Effect)
    requires Shape(p) && FrameInBounds(p, f)
    ensures Shape(r.panel)
  {
    if f.data[0] == SUBCMD then HandleSubcmd(p, f, now)
    else if f.data[0] == SUBCMD2 then HandleSubcmd2(p, f, listener, now)
    else if f.data[0] == CLEAR_IMAGE then Refresh(p)
    else if f.data[0] == LIST_COMPLETE then Effect(p, [], [[DYNAMIC_DATA_REFRESH]])
    else if f.data[0] == ZONE_STATUS then HandleZoneStatus(p, f, now)
    else if f.data[0] == PARTITION_DATA then HandlePartitionData(p, f)
    else if f.data[0] == ZONE_DATA then HandleZoneData(p, f)
    else if f.data[0] == USER_DATA then HandleUserData(p, f)
    else if f.data[0] == OUTPUT_DATA then HandleOutputData(p, f)
    else if f.data[0] == LIGHT_TO_SENSOR_DATA then HandleLightToSensorData(p, f)
    else if f.data[0] == BUS_DEVICE_DATA then HandleDeviceData(p, f)
    else if f.data[0] == BUS_CAPABILITY_DATA then HandleCapabilityData(p, f)
    else if f.data[0] == PANEL_TYPE then HandlePanelType(p, f)
    else Effect(p, [], [])
  }

  /** Frames that only fill the lists of outputs and devices. */
  predicate IsList(f: Frame) {
    || f.data[0] == OUTPUT_DATA || f.data[0] == BUS_DEVICE_DATA || f.data[0] == BUS_CAPABILITY_DATA
    || f.data[0] == PANEL_TYPE
  }

  lemma ListsElsewhere(p: Mirror, f: Frame, listener: bool, now: int)
    requires Shape(p) && FrameInBounds(p, f) && IsList(f)
    ensures var r := Handle(p, f, listener, now);
            && r.panel == p.(outputs := r.panel.outputs, devices := r.panel.devices,
                             deviceCount := r.panel.deviceCount, model := r.panel.model)
            && r.notes == [] && r.queued == []
  {
    hide Bit, Long, Word, Shape;
  }

  // -------------------------------------------------------------------- runs

  datatype Input =
    | Received(frame: Frame, now: int)
    | RefreshRequested(now: int)    // an equipment refresh asked for by a client

  /** What a frame copies has room in the tables. */
  predicate InBounds(p: Mirror, x: Input)
    requires Shape(p)
  {
    x.Received? ==> FrameInBounds(p, x.frame)
  }

  function React(p: Mirror, x: Input, listener: bool): (r: Effect)
    requires Shape(p) && InBounds(p, x)
    ensures Shape(r.panel)
  {
    match x
    case Received(f, now) => Handle(p, f, listener, now)
    case RefreshRequested(_) => Refresh(p)
  }

  /** Every input of the history is within bounds where it comes. */
  predicate Bounded(h: seq<Input>, listener: bool)
    decreases |h|, 0
  {
    h == [] || (var before := h[..|h| - 1];
                Bounded(before, listener) && InBounds(After(before, listener), h[|h| - 1]))
  }

  /** The mirror after a history of inputs. */
  function After(h: seq<Input>, listener: bool): (p: Mirror)
    requires Bounded(h, listener)
    ensures Shape(p)
    decreases |h|, 1
  {
    if h == [] then BLANK else React(After(h[..|h| - 1], listener), h[|h| - 1], listener).panel
  }
}
