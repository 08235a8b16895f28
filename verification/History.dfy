/** The mirror as a function of everything received so far.

    Each fact the command guards look at is described by scanning the history
    backwards for the last input that bears on it; the theorem AfterHistory says
    that the tables hold exactly these facts. */
module History {
  import opened Bytes
  import opened Panel

  // ------------------------------------------------------- reading inputs

  predicate IsFrame(x: Input, kind: byte) {
    x.Received? && x.frame.data[0] == kind
  }

  predicate IsSubcmd(x: Input, sub: byte) {
    IsFrame(x, SUBCMD) && x.frame.data[1] == sub
  }

  /** An equipment refresh, asked for by a client or by the panel. */
  predicate Refreshes(x: Input) {
    x.RefreshRequested? || IsFrame(x, CLEAR_IMAGE)
  }

  /** The six kinds of frame that say partition i exists. */
  predicate Names(x: Input, i: nat) {
    || (x.Received? && x.frame.data[0] == SUBCMD && x.frame.data[2] == i
        && (|| x.frame.data[1] == SIREN_SETUP || x.frame.data[1] == TOUCHPAD_DISPLAY
            || x.frame.data[1] == LEVEL || x.frame.data[1] == FEATURE_STATE))
    || (IsFrame(x, PARTITION_DATA) && x.frame.data[1] == i)
    || (IsFrame(x, LIGHT_TO_SENSOR_DATA) && x.frame.data[1] == i)
  }

  predicate ConfigEvent(x: Input, i: nat) {
    && IsSubcmd(x, ALARM_TROUBLE) && x.frame.data[2] == i
    && x.frame.data[8] == SYSTEM_CONFIG_CHANGE && x.frame.data[9] <= 2
  }

  // ------------------------------------------------------- scanning histories

  /** Named since the last equipment refresh. */
  predicate NamedSince(h: seq<Input>, i: nat) {
    h != [] && !Refreshes(Last(h)) && (Names(Last(h), i) || NamedSince(Init(h), i))
  }

  /** The last begin or end of programming was a begin. */
  predicate InProgramming(h: seq<Input>, i: nat) {
    h != [] && if ConfigEvent(Last(h), i) then Last(h).frame.data[9] == 0 else InProgramming(Init(h), i)
  }

  /** The last siren setup had repeat count zero (and the clock was not at its epoch). */
  predicate SirenOn(h: seq<Input>, i: nat) {
    h != [] && if IsSubcmd(Last(h), SIREN_SETUP) && Last(h).frame.data[2] == i
               then Last(h).frame.data[4] == 0 && Last(h).now != 0
               else SirenOn(Init(h), i)
  }

  /** The last arm level reported. */
  function ArmLevel(h: seq<Input>, i: nat): byte {
    if h == [] then 0
    else if IsSubcmd(Last(h), LEVEL) && Last(h).frame.data[2] == i then Last(h).frame.data[6]
    else if IsFrame(Last(h), PARTITION_DATA) && Last(h).frame.data[1] == i then Last(h).frame.data[3]
    else ArmLevel(Init(h), i)
  }

  /** An entry delay has begun and neither ended, nor been cut short by a change of
      level or a refresh. */
  predicate EntryDelay(h: seq<Input>, i: nat) {
    && h != [] && !Refreshes(Last(h))
    && if IsSubcmd(Last(h), LEVEL) && Last(h).frame.data[2] == i then false
       else if IsSubcmd(Last(h), ENTRY_EXIT_DELAY) && Last(h).frame.data[2] == i && !Bit(Last(h).frame.data[4], 6)
       then !Bit(Last(h).frame.data[4], 7)
       else EntryDelay(Init(h), i)
  }

  /** A refresh was asked for and the panel has not sent its clock since. */
  predicate RefreshDue(h: seq<Input>) {
    h != [] && (Refreshes(Last(h)) || (!IsSubcmd(Last(h), TIME_AND_DATE) && RefreshDue(Init(h))))
  }

  /** The last bytes of the PIN sent for user u. */
  function PinOf(h: seq<Input>, u: nat): Option<(byte, byte)> {
    if h == [] then None
    else if IsFrame(Last(h), USER_DATA) && Word(Last(h).frame.data[1], Last(h).frame.data[2]) == u
    then Some((Last(h).frame.data[4], Last(h).frame.data[5]))
    else PinOf(Init(h), u)
  }

  /** The last state byte sent for zone z. */
  function ZoneState(h: seq<Input>, z: nat): byte {
    if h == [] then 0
    else if IsFrame(Last(h), ZONE_STATUS) && Word(Last(h).frame.data[3], Last(h).frame.data[4]) == z
    then Last(h).frame.data[5]
    else if IsFrame(Last(h), ZONE_DATA) && Word(Last(h).frame.data[4], Last(h).frame.data[5]) == z
    then Last(h).frame.data[7]
    else ZoneState(Init(h), z)
  }

  /** The partition last given for zone z. */
  function ZonePartition(h: seq<Input>, z: nat): byte {
    if h == [] then 0
    else if IsFrame(Last(h), ZONE_DATA) && Word(Last(h).frame.data[4], Last(h).frame.data[5]) == z
    then Last(h).frame.data[1]
    else ZonePartition(Init(h), z)
  }

  // -------------------------------------------------------------- the theorem

  /** What the command guards ask about a partition. */
  datatype Facts = Facts(active: bool, programming: bool, sirenOn: bool, armLevel: byte, entryDelay: bool)

  function FactsOf(q: Partition): Facts {
    Facts(q.active, q.programming, q.sirenRepeat == 0 && q.sirenStartedAt != 0, q.armLevel, q.entryDelay)
  }

  /** The same, told by the history. */
  function FactsIn(h: seq<Input>, i: nat): Facts {
    Facts(NamedSince(h, i), InProgramming(h, i), SirenOn(h, i), ArmLevel(h, i), EntryDelay(h, i))
  }

  /** How one input changes the facts. */
  function Learn(k: Facts, x: Input, i: nat): Facts {
    Facts(
      !Refreshes(x) && (Names(x, i) || k.active),
      if ConfigEvent(x, i) then x.frame.data[9] == 0 else k.programming,
      if IsSubcmd(x, SIREN_SETUP) && x.frame.data[2] == i then x.frame.data[4] == 0 && x.now != 0 else k.sirenOn,
      if IsSubcmd(x, LEVEL) && x.frame.data[2] == i then x.frame.data[6]
      else if IsFrame(x, PARTITION_DATA) && x.frame.data[1] == i then x.frame.data[3] else k.armLevel,
      !Refreshes(x) && !(IsSubcmd(x, LEVEL) && x.frame.data[2] == i)
      && if IsSubcmd(x, ENTRY_EXIT_DELAY) && x.frame.data[2] == i && !Bit(x.frame.data[4], 6)
         then !Bit(x.frame.data[4], 7) else k.entryDelay)
  }

  lemma FactsStep(h: seq<Input>, i: nat)
    requires h != []
    ensures FactsIn(h, i) == Learn(FactsIn(Init(h), i), Last(h), i)
  {
    hide Bit;
  }

  lemma AlarmLearns(m: Mirror, f: Frame, now: int, i: nat)
    requires Shape(m) && i < PARTITIONS && f.data[0] == SUBCMD && f.data[1] == ALARM_TROUBLE
    ensures FactsOf(HandleAlarm(m, f, now).panel.partitions[i])
         == Learn(FactsOf(m.partitions[i]), Received(f, now), i)
  {
    hide Bit;
    var e := EventOf(f, now);
    TabledLearns(Logged(m, e), e, SourceOf(f), now, i);
  }

  /** An event touches only the programming flag among the facts. */
  lemma TabledLearns(m: Mirror, e: Event, source: int, now: int, i: nat)
    requires Shape(m) && i < PARTITIONS
    ensures FactsOf(Tabled(m, e, source, now).0.partitions[i])
         == if e.partitionId == i && e.general == SYSTEM_CONFIG_CHANGE && e.specific <= 2
            then FactsOf(m.partitions[i]).(programming := e.specific == 0) else FactsOf(m.partitions[i])
  {
    if IsSystemTrouble(e.general) || IsOutputReport(e) {
      assert Tabled(m, e, source, now).0.partitions == m.partitions;
    } else {
      TableLearns(m, e, source, now, i);
    }
  }

  lemma TableLearns(m: Mirror, e: Event, source: int, now: int, i: nat)
    requires Shape(m) && i < PARTITIONS && !IsSystemTrouble(e.general) && !IsOutputReport(e)
    ensures FactsOf(Tabled(m, e, source, now).0.partitions[i])
         == if e.partitionId == i && e.general == SYSTEM_CONFIG_CHANGE && e.specific <= 2
            then FactsOf(m.partitions[i]).(programming := e.specific == 0) else FactsOf(m.partitions[i])
  {
    assert |m.partitions| == PARTITIONS;
    hide IsOutputReport, Shape;
  }

  lemma RowLearns(q: Partition, f: Frame, now: int)
    requires f.data[0] == SUBCMD && f.data[1] != ALARM_TROUBLE && f.data[2] < PARTITIONS && TouchpadInBounds(f)
    ensures FactsOf(SubcmdRow(q, f, now)) == Learn(FactsOf(q), Received(f, now), f.data[2])
  {
    hide Bit, Long, Word;
  }

  /** A subcommand other than an event is no news of partitions it does not name. */
  lemma NoNews(k: Facts, f: Frame, now: int, i: nat)
    requires f.data[0] == SUBCMD && f.data[2] != i
    ensures Learn(k, Received(f, now), i) == k
  {
  }

  lemma SubcmdLearns(m: Mirror, f: Frame, now: int, i: nat)
    requires Shape(m) && i < PARTITIONS && f.data[0] == SUBCMD && f.data[1] != ALARM_TROUBLE && TouchpadInBounds(f)
    ensures FactsOf(HandleSubcmd(m, f, now).panel.partitions[i])
         == Learn(FactsOf(m.partitions[i]), Received(f, now), i)
  {
    hide FactsOf, Learn, SubcmdNotes;
    if f.data[2] == i {
      RowLearns(m.partitions[i], f, now);
      hide SubcmdRow;
    } else {
      NoNews(FactsOf(m.partitions[i]), f, now, i);
    }
    if f.data[2] < PARTITIONS {
      PlainSubcmd(m.partitions[i], f, now);
    }
  }

  lemma PlainSubcmd(q: Partition, f: Frame, now: int)
    requires f.data[2] < PARTITIONS && TouchpadInBounds(f)
    ensures f.data[1] == TIME_AND_DATE || f.data[1] == SIREN_GO || f.data[1] == SIREN_SYNC ==> SubcmdRow(q, f, now) == q
  {
  }

  lemma Subcmd2Learns(m: Mirror, f: Frame, listener: bool, now: int, i: nat)
    requires Shape(m) && i < PARTITIONS && f.data[0] == SUBCMD2
    ensures FactsOf(HandleSubcmd2(m, f, listener, now).panel.partitions[i]) == FactsOf(m.partitions[i])
  {
    hide SetLights, Bit;
    hide Word;
  }

  lemma OtherLearns(m: Mirror, f: Frame, listener: bool, now: int, i: nat)
    requires Shape(m) && i < PARTITIONS && f.data[0] != SUBCMD && f.data[0] != SUBCMD2 && FrameInBounds(m, f)
    ensures FactsOf(Handle(m, f, listener, now).panel.partitions[i])
         == Learn(FactsOf(m.partitions[i]), Received(f, now), i)
  {
    if f.data[0] == PARTITION_DATA || f.data[0] == LIGHT_TO_SENSOR_DATA {
      ListLearns(m, f, listener, now, i);
    } else if IsList(f) {
      ListsElsewhere(m, f, listener, now);
      hide Handle;
    } else if f.data[0] != CLEAR_IMAGE {
      hide HandleUserData, HandleOutputData, HandleZoneStatus, HandleZoneData, HandleSubcmd, HandleSubcmd2;
      RowsOfPartitions(m, f, now);
      assert Handle(m, f, listener, now).panel.partitions == m.partitions;
    }
  }

  lemma ListLearns(m: Mirror, f: Frame, listener: bool, now: int, i: nat)
    requires Shape(m) && i < PARTITIONS && FrameInBounds(m, f)
    requires f.data[0] == PARTITION_DATA || f.data[0] == LIGHT_TO_SENSOR_DATA
    ensures FactsOf(Handle(m, f, listener, now).panel.partitions[i])
         == Learn(FactsOf(m.partitions[i]), Received(f, now), i)
  {
    hide HandleUserData, HandleOutputData, HandleZoneStatus, HandleZoneData, HandleSubcmd, HandleSubcmd2, Bit;
  }

  /** Zones, outputs and users are no business of partitions. */
  lemma RowsOfPartitions(m: Mirror, f: Frame, now: int)
    requires Shape(m)
    ensures HandleUserData(m, f).panel.partitions == m.partitions
    ensures OutputNameInBounds(f) ==> HandleOutputData(m, f).panel.partitions == m.partitions
    ensures HandleZoneStatus(m, f, now).panel.partitions == m.partitions
    ensures ZoneNameInBounds(f) ==> HandleZoneData(m, f).panel.partitions == m.partitions
    ensures DeviceInBounds(m) ==> HandleDeviceData(m, f).panel.partitions == m.partitions
    ensures CapabilityInBounds(m, f) ==> HandleCapabilityData(m, f).panel.partitions == m.partitions
  {
    hide Bit, Differing, PinText, Word;
  }

  lemma Subcmd2IsNoNews(k: Facts, x: Input, i: nat)
    requires IsFrame(x, SUBCMD2)
    ensures Learn(k, x, i) == k
  {
  }

  lemma StepLearns(m: Mirror, x: Input, listener: bool, i: nat)
    requires Shape(m) && i < PARTITIONS && InBounds(m, x)
    ensures FactsOf(React(m, x, listener).panel.partitions[i]) == Learn(FactsOf(m.partitions[i]), x, i)
  {
    if x.Received? {
      hide HandleSubcmd2, HandleAlarm, FactsOf, Learn;
      if x.frame.data[0] == SUBCMD2 {
        Subcmd2Learns(m, x.frame, listener, x.now, i);
        Subcmd2IsNoNews(FactsOf(m.partitions[i]), x, i);
      } else if x.frame.data[0] != SUBCMD {
        OtherLearns(m, x.frame, listener, x.now, i);
      } else if x.frame.data[1] == ALARM_TROUBLE {
        AlarmLearns(m, x.frame, x.now, i);
      } else {
        SubcmdLearns(m, x.frame, x.now, i);
      }
    }
  }

  /** What a history leaves in the rows of users and zones. */
  predicate RowsTell(m: Mirror, h: seq<Input>)
    requires Shape(m)
  {
    && m.refreshPending == RefreshDue(h)
    && (forall u :: 0 <= u < USERS ==> m.users[u] == UserFor(PinOf(h, u)))
    && (forall z :: 0 <= z < ZONES ==>
          m.zones[z].state == ZoneState(h, z) && m.zones[z].partitionId == ZonePartition(h, z))
  }

  function UserFor(pin: Option<(byte, byte)>): User {
    match pin
    case None => User(false, [])
    case Some((hi, lo)) => User(true, PinText(hi, lo))
  }

  lemma SubcmdKeepsRows(m: Mirror, f: Frame, now: int)
    requires Shape(m) && TouchpadInBounds(f)
    ensures var r := HandleSubcmd(m, f, now).panel;
            && r.users == m.users && r.zones == m.zones && r.devices == m.devices && r.deviceCount == m.deviceCount
            && r.refreshPending == (m.refreshPending && f.data[1] != TIME_AND_DATE)
  {
    hide Bit, Differing, EventOf, SubcmdRow, SubcmdNotes;
  }

  lemma Subcmd2KeepsRows(m: Mirror, f: Frame, listener: bool, now: int)
    requires Shape(m)
    ensures var r := HandleSubcmd2(m, f, listener, now).panel;
            && r.users == m.users && r.refreshPending == m.refreshPending
            && r.devices == m.devices && r.deviceCount == m.deviceCount
            && forall z :: 0 <= z < ZONES ==>
                 r.zones[z].state == m.zones[z].state && r.zones[z].partitionId == m.zones[z].partitionId
  {
    hide SetLights, Bit, Word;
  }

  /** One input in terms of the users and the pending refresh. */
  lemma UsersLearn(m: Mirror, x: Input, listener: bool)
    requires Shape(m) && InBounds(m, x)
    ensures var r := React(m, x, listener).panel;
            && r.refreshPending == (Refreshes(x) || (!IsSubcmd(x, TIME_AND_DATE) && m.refreshPending))
            && (forall u :: 0 <= u < USERS ==>
                  r.users[u] == if IsFrame(x, USER_DATA) && Word(x.frame.data[1], x.frame.data[2]) == u
                                then User(true, PinText(x.frame.data[4], x.frame.data[5])) else m.users[u])
  {
    hide Bit, Differing, HandleSubcmd, HandleSubcmd2, PinText, Word;
    if IsFrame(x, SUBCMD) {
      SubcmdKeepsRows(m, x.frame, x.now);
    } else if IsFrame(x, SUBCMD2) {
      Subcmd2KeepsRows(m, x.frame, listener, x.now);
    } else if x.Received? && IsList(x.frame) {
      ListsElsewhere(m, x.frame, listener, x.now);
      hide Handle;
    } else {
      hide HandleOutputData, HandleDeviceData, HandleCapabilityData, HandlePanelType, NamesShape;
    }
  }

  /** Frames of other kinds leave the zones alone, but for a refresh and key fobs. */
  lemma ZonesElsewhere(m: Mirror, f: Frame, listener: bool, now: int)
    requires Shape(m) && FrameInBounds(m, f) && f.data[0] != ZONE_STATUS && f.data[0] != ZONE_DATA
    requires f.data[0] != SUBCMD && f.data[0] != SUBCMD2 && f.data[0] != CLEAR_IMAGE && !IsList(f)
    ensures Handle(m, f, listener, now).panel.zones == m.zones
  {
    hide Bit, Word, PinText, Shape, HandleSubcmd, HandleSubcmd2, HandleZoneStatus, HandleZoneData;
    hide HandleOutputData, HandleDeviceData, HandleCapabilityData, HandlePanelType, FrameInBounds;
  }

  lemma ZoneFramesLearn(m: Mirror, f: Frame, now: int)
    requires Shape(m)
    ensures var r := HandleZoneStatus(m, f, now).panel;
            forall z :: 0 <= z < ZONES ==>
              && r.zones[z].state == (if Word(f.data[3], f.data[4]) == z then f.data[5] else m.zones[z].state)
              && r.zones[z].partitionId == m.zones[z].partitionId
    ensures ZoneNameInBounds(f) ==>
            var r := HandleZoneData(m, f).panel;
            forall z :: 0 <= z < ZONES ==>
              && r.zones[z].state == (if Word(f.data[4], f.data[5]) == z then f.data[7] else m.zones[z].state)
              && r.zones[z].partitionId
                 == if Word(f.data[4], f.data[5]) == z then f.data[1] else m.zones[z].partitionId
  {
    hide Bit, Word, Differing, NamesShape;
  }

  lemma RefreshKeepsZones(m: Mirror)
    requires Shape(m)
    ensures var r := Refreshed(m);
            && r.refreshPending && |r.zones| == ZONES
            && forall z :: 0 <= z < ZONES ==>
                 r.zones[z].state == m.zones[z].state && r.zones[z].partitionId == m.zones[z].partitionId
  {
  }

  /** One input in terms of the zones. */
  lemma ZoneRowsLearn(m: Mirror, x: Input, listener: bool)
    requires Shape(m) && InBounds(m, x)
    ensures var r := React(m, x, listener).panel;
            && (forall z :: 0 <= z < ZONES ==>
                  r.zones[z].state
                  == if IsFrame(x, ZONE_STATUS) && Word(x.frame.data[3], x.frame.data[4]) == z then x.frame.data[5]
                     else if IsFrame(x, ZONE_DATA) && Word(x.frame.data[4], x.frame.data[5]) == z then x.frame.data[7]
                     else m.zones[z].state)
            && (forall z :: 0 <= z < ZONES ==>
                  r.zones[z].partitionId
                  == if IsFrame(x, ZONE_DATA) && Word(x.frame.data[4], x.frame.data[5]) == z then x.frame.data[1]
                     else m.zones[z].partitionId)
  {
    hide Bit, Differing, HandleSubcmd, HandleSubcmd2, PinText, Word;
    if IsFrame(x, SUBCMD) {
      SubcmdKeepsRows(m, x.frame, x.now);
    } else if IsFrame(x, SUBCMD2) {
      Subcmd2KeepsRows(m, x.frame, listener, x.now);
    } else if x.Received? && IsList(x.frame) {
      ListsElsewhere(m, x.frame, listener, x.now);
      hide Handle;
    } else if IsFrame(x, ZONE_STATUS) || IsFrame(x, ZONE_DATA) {
      ZoneFramesLearn(m, x.frame, x.now);
      hide HandleZoneStatus, HandleZoneData, NamesShape;
    } else if Refreshes(x) {
      RefreshKeepsZones(m);
      hide Refreshed, NamesShape;
    } else {
      ZonesElsewhere(m, x.frame, listener, x.now);
      hide Handle;
    }
  }

  lemma RowsStep(m: Mirror, h: seq<Input>, listener: bool)
    requires Shape(m) && h != [] && RowsTell(m, Init(h)) && InBounds(m, Last(h))
    ensures RowsTell(React(m, Last(h), listener).panel, h)
  {
    UsersLearn(m, Last(h), listener);
    ZoneRowsLearn(m, Last(h), listener);
    hide React, PinText, Word;
  }

  /** After any history of frames and refreshes the tables hold exactly what the
      history says. */
  lemma {:induction false} AfterHistory(h: seq<Input>, listener: bool)
    requires Bounded(h, listener)
    ensures forall i :: 0 <= i < PARTITIONS ==> FactsOf(After(h, listener).partitions[i]) == FactsIn(h, i)
    ensures RowsTell(After(h, listener), h)
  {
    if h != [] {
      hide React, FactsOf, FactsIn, RowsTell;
      var m := After(Init(h), listener);
      AfterHistory(Init(h), listener);
      forall i | 0 <= i < PARTITIONS ensures FactsOf(After(h, listener).partitions[i]) == FactsIn(h, i) {
        StepLearns(m, Last(h), listener, i);
        FactsStep(h, i);
      }
      RowsStep(m, h, listener);
    }
  }

  // ------------------------------------------------------------------ bus devices

  /** The devices listed since the last equipment refresh: number and status. */
  function Listed(h: seq<Input>): seq<(nat, byte)> {
    if h == [] || Refreshes(Last(h)) then []
    else if IsFrame(Last(h), BUS_DEVICE_DATA) then Listed(Init(h)) + [Entry(Last(h).frame)]
    else Listed(Init(h))
  }

  function Entry(f: Frame): (nat, byte) {
    (Long(0, f.data[3], f.data[4], f.data[5]), f.data[6])
  }

  /** The device table is the list: so many active rows, and no others. */
  predicate DevicesTell(m: Mirror, listed: seq<(nat, byte)>) {
    && |m.devices| == DEVICES && m.deviceCount as int == |listed| <= DEVICES
    && forall k :: 0 <= k < DEVICES ==>
         if k < |listed| then m.devices[k].active && (m.devices[k].id, m.devices[k].status) == listed[k]
         else !m.devices[k].active
  }

  lemma DevicesElsewhere(m: Mirror, f: Frame, listener: bool, now: int)
    requires Shape(m) && FrameInBounds(m, f)
    requires f.data[0] != SUBCMD && f.data[0] != SUBCMD2 && f.data[0] != CLEAR_IMAGE
    requires f.data[0] != BUS_DEVICE_DATA && f.data[0] != BUS_CAPABILITY_DATA
    ensures var r := Handle(m, f, listener, now).panel;
            r.devices == m.devices && r.deviceCount == m.deviceCount
  {
    hide Bit, Word, Differing, PinText, Shape, HandleSubcmd, HandleSubcmd2, HandleDeviceData, HandleCapabilityData;
  }

  lemma DevicesLearn(m: Mirror, x: Input, listener: bool, listed: seq<(nat, byte)>)
    requires Shape(m) && InBounds(m, x) && DevicesTell(m, listed)
    ensures DevicesTell(React(m, x, listener).panel,
                        if Refreshes(x) then []
                        else if IsFrame(x, BUS_DEVICE_DATA) then listed + [Entry(x.frame)] else listed)
  {
    hide HandleSubcmd, HandleSubcmd2, Long, Shape;
    hide HandleUserData, HandleOutputData, HandleZoneStatus, HandleZoneData, HandlePanelType;
    hide HandlePartitionData, HandleLightToSensorData;
    if IsFrame(x, SUBCMD) {
      SubcmdKeepsRows(m, x.frame, x.now);
    } else if IsFrame(x, SUBCMD2) {
      Subcmd2KeepsRows(m, x.frame, listener, x.now);
    } else if !Refreshes(x) && !IsFrame(x, BUS_DEVICE_DATA) && !IsFrame(x, BUS_CAPABILITY_DATA) {
      DevicesElsewhere(m, x.frame, listener, x.now);
      hide Handle;
    }
  }

  lemma {:induction false} DevicesAfter(h: seq<Input>, listener: bool)
    requires Bounded(h, listener)
    ensures DevicesTell(After(h, listener), Listed(h))
  {
    if h != [] {
      hide React, DevicesTell, Refreshes, InBounds, Entry;
      DevicesAfter(Init(h), listener);
      DevicesLearn(After(Init(h), listener), Last(h), listener, Listed(Init(h)));
    }
  }

  // ---------------------------------------------------------------- active zones

  predicate IsKeyfob(x: Input, z: nat) {
    IsFrame(x, SUBCMD2) && x.frame.data[1] == KEYFOB && x.frame.data[5] == z
  }

  /** The last key fob code for zone z and when it came. */
  function KeySeen(h: seq<Input>, z: nat): (byte, int) {
    if h == [] then (0, 0)
    else if IsKeyfob(Last(h), z) then (Last(h).frame.data[6], Last(h).now)
    else KeySeen(Init(h), z)
  }

  /** A key fob frame that does not repeat the last one within its second. */
  predicate IsNewKey(seen: (byte, int), x: Input, z: nat) {
    IsKeyfob(x, z) && (seen != (x.frame.data[6], x.now) || x.frame.data[6] <= 3)
  }

  /** The two kinds of frame that say zone z exists. */
  predicate NamesZone(x: Input, z: nat) {
    || (IsFrame(x, ZONE_STATUS) && Word(x.frame.data[3], x.frame.data[4]) == z)
    || (IsFrame(x, ZONE_DATA) && Word(x.frame.data[4], x.frame.data[5]) == z)
  }

  /** Named, or its key fob used, since the last equipment refresh. */
  predicate ZoneNamedSince(h: seq<Input>, z: nat) {
    && h != [] && !Refreshes(Last(h))
    && (NamesZone(Last(h), z) || IsNewKey(KeySeen(Init(h), z), Last(h), z) || ZoneNamedSince(Init(h), z))
  }

  lemma KeyfobLearns(m: Mirror, f: Frame, listener: bool, now: int, z: nat)
    requires Shape(m) && z < ZONES && f.data[0] == SUBCMD2
    ensures var q, q' := m.zones[z], HandleSubcmd2(m, f, listener, now).panel.zones[z];
            var x := Received(f, now);
            && q'.active == (IsNewKey((q.lastKc, q.lastKcAt), x, z) || q.active)
            && (q'.lastKc, q'.lastKcAt) == (if IsKeyfob(x, z) then (f.data[6], now) else (q.lastKc, q.lastKcAt))
  {
    hide SetLights, Bit, Word, NamesShape;
  }

  lemma ZoneLearns(m: Mirror, x: Input, listener: bool, z: nat)
    requires Shape(m) && z < ZONES && InBounds(m, x)
    ensures var q, q' := m.zones[z], React(m, x, listener).panel.zones[z];
            && q'.active == (!Refreshes(x) && (NamesZone(x, z) || IsNewKey((q.lastKc, q.lastKcAt), x, z) || q.active))
            && (q'.lastKc, q'.lastKcAt) == (if IsKeyfob(x, z) then (x.frame.data[6], x.now) else (q.lastKc, q.lastKcAt))
  {
    hide Bit, Differing, HandleSubcmd, HandleSubcmd2, PinText, Word;
    if IsFrame(x, SUBCMD) {
      SubcmdKeepsRows(m, x.frame, x.now);
    } else if IsFrame(x, SUBCMD2) {
      KeyfobLearns(m, x.frame, listener, x.now, z);
    } else if x.Received? && IsList(x.frame) {
      ListsElsewhere(m, x.frame, listener, x.now);
      hide Handle;
    } else if IsFrame(x, ZONE_STATUS) || IsFrame(x, ZONE_DATA) || Refreshes(x) {
      hide HandleOutputData, HandleDeviceData, HandleCapabilityData, HandlePanelType, HandleUserData, NamesShape;
      hide HandlePartitionData, HandleLightToSensorData;
    } else {
      ZonesElsewhere(m, x.frame, listener, x.now);
      hide Handle;
    }
  }

  /** Which zones are active after any history. */
  lemma {:induction false} ZonesAfter(h: seq<Input>, listener: bool, z: nat)
    requires z < ZONES && Bounded(h, listener)
    ensures var q := After(h, listener).zones[z];
            q.active == ZoneNamedSince(h, z) && (q.lastKc, q.lastKcAt) == KeySeen(h, z)
  {
    if h != [] {
      hide React, NamesZone, IsKeyfob, Refreshes;
      ZonesAfter(Init(h), listener, z);
      ZoneLearns(After(Init(h), listener), Last(h), listener, z);
    }
  }
}
