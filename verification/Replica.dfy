/** A subscriber's copy of the zones and partitions.

    A change notification becomes a dictionary holding the flagged fields and
    nothing else; the subscriber overwrites those fields of its copy.  Partition
    copies then stay equal to the mirror over every history.  Zone copies stay
    equal as long as the zone is active when it changes, and only then: a zone
    deactivated by a refresh changes silently. */
module Replica {
  import opened Bytes
  import opened Panel
  import opened History
  import opened Signals

  /** The fields a subscriber follows. */
  const ZONE_FOLLOWED: set<Field> := {PartitionId, Kind, Group, Flag(0), Flag(1), Flag(2), Flag(3), Flag(4)}

  const PARTITION_FOLLOWED: set<Field> :=
    {ArmLevelField, ArmLevelUser, TouchpadText,
     Feature(0), Feature(1), Feature(2), Feature(3), Feature(4), Feature(5)}

  /** A true copy. */
  function ZoneCopy(z: Zone): Dict {
    map f | f in ZONE_FOLLOWED :: ZoneValue(z, f)
  }

  function PartitionCopy(q: Partition): Dict {
    map f | f in PARTITION_FOLLOWED :: PartitionValue(q, f)
  }

  /** Some entries of a signal. */
  function Only(d: Dict, fields: set<Field>): Dict {
    map f | f in d && f in fields :: d[f]
  }

  lemma SignalFollowed(mask: Mask)
    ensures forall z :: Only(ZoneSignal(z, mask), ZONE_FOLLOWED) == Announced(ZoneCopy(z), ZoneBit, mask)
    ensures forall q ::
              Only(PartitionSignal(q, mask), PARTITION_FOLLOWED) == Announced(PartitionCopy(q), PartitionBit, mask)
  {
    hide *;
    forall z ensures Only(ZoneSignal(z, mask), ZONE_FOLLOWED) == Announced(ZoneCopy(z), ZoneBit, mask) {
      ZoneSignalFollowed(z, mask);
    }
    forall q
      ensures Only(PartitionSignal(q, mask), PARTITION_FOLLOWED) == Announced(PartitionCopy(q), PartitionBit, mask)
    {
      PartitionSignalFollowed(q, mask);
    }
  }

  lemma ZoneSignalFollowed(z: Zone, mask: Mask)
    ensures Only(ZoneSignal(z, mask), ZONE_FOLLOWED) == Announced(ZoneCopy(z), ZoneBit, mask)
  {
    hide Bit, ZoneValue, ZoneBit;
    assert ZONE_FOLLOWED <= ZONE_FIELDS;
    hide ZONE_FOLLOWED, ZONE_FIELDS;
    assert Only(ZoneSignal(z, mask), ZONE_FOLLOWED).Keys == Announced(ZoneCopy(z), ZoneBit, mask).Keys;
  }

  lemma PartitionSignalFollowed(q: Partition, mask: Mask)
    ensures Only(PartitionSignal(q, mask), PARTITION_FOLLOWED) == Announced(PartitionCopy(q), PartitionBit, mask)
  {
    hide Bit, PartitionValue, PartitionBit;
    assert PARTITION_FOLLOWED <= PARTITION_FIELDS;
    hide PARTITION_FOLLOWED, PARTITION_FIELDS;
    assert Only(PartitionSignal(q, mask), PARTITION_FOLLOWED).Keys
        == Announced(PartitionCopy(q), PartitionBit, mask).Keys;
  }

  // ------------------------------------------------------------- following

  /** The copies a subscriber keeps. */
  datatype Copies = Copies(zones: seq<Dict>, partitions: seq<Dict>)

  predicate CopiesShape(c: Copies) {
    |c.zones| == ZONES && |c.partitions| == PARTITIONS
  }

  /** Receiving one notification: of its entries, the followed ones are overwritten.
      Signals carry values read from the tables, and a notification is sent after the
      tables have been updated. */
  function CopyNote(c: Copies, note: Note, m: Mirror): (r: Copies)
    requires CopiesShape(c) && Shape(m)
    ensures CopiesShape(r)
    ensures r == match note
                 case ZoneChanged(i, mask) =>
                   if i < ZONES
                   then c.(zones := c.zones[i := c.zones[i] + Announced(ZoneCopy(m.zones[i]), ZoneBit, mask)]) else c
                 case PartitionChanged(i, mask) =>
                   if i < PARTITIONS
                   then c.(partitions := c.partitions[i :=
                             c.partitions[i] + Announced(PartitionCopy(m.partitions[i]), PartitionBit, mask)]) else c
                 case _ => c
  {
    match note
    case ZoneChanged(i, mask) =>
      SignalFollowed(mask);
      if i < ZONES then
        c.(zones := c.zones[i := c.zones[i] + Only(ZoneSignal(m.zones[i], mask), ZONE_FOLLOWED)])
      else c
    case PartitionChanged(i, mask) =>
      SignalFollowed(mask);
      if i < PARTITIONS then
        c.(partitions := c.partitions[i :=
             c.partitions[i] + Only(PartitionSignal(m.partitions[i], mask), PARTITION_FOLLOWED)])
      else c
    case _ => c
  }

  function CopyAll(c: Copies, notes: seq<Note>, m: Mirror): (r: Copies)
    requires CopiesShape(c) && Shape(m)
    ensures CopiesShape(r)
    decreases notes
  {
    if notes == [] then c else CopyAll(CopyNote(c, notes[0], m), notes[1..], m)
  }

  predicate ZoneCopied(c: Copies, m: Mirror, i: nat)
    requires CopiesShape(c) && Shape(m) && i < ZONES
  {
    c.zones[i] == ZoneCopy(m.zones[i])
  }

  predicate PartitionCopied(c: Copies, m: Mirror, i: nat)
    requires CopiesShape(c) && Shape(m) && i < PARTITIONS
  {
    c.partitions[i] == PartitionCopy(m.partitions[i])
  }

  /** A mask covers a change if it announces every field that differs. */
  predicate Covers(mask: Mask, bit: Field -> nat, before: Dict, after: Dict) {
    before.Keys == after.Keys && forall f :: f in after && before[f] != after[f] ==> bit(f) in mask
  }

  lemma CoveredChangeIsCopied(before: Dict, after: Dict, bit: Field -> nat, mask: Mask)
    requires Covers(mask, bit, before, after)
    ensures before + Announced(after, bit, mask) == after
  {
    var r := before + Announced(after, bit, mask);
    assert r.Keys == after.Keys;
  }

  lemma DifferingAnnounces(a: byte, b: byte, k: nat)
    requires k < 8 && Bit(a, k) != Bit(b, k)
    ensures 8 + k in Differing(a, b)
  {
    hide Bit;
  }

  lemma OneNote(c: Copies, note: Note, m: Mirror)
    requires CopiesShape(c) && Shape(m)
    ensures CopyAll(c, [note], m) == CopyNote(c, note, m)
    ensures CopyAll(c, [], m) == c
  {
    hide CopyNote;
    assert [note][1..] == [];
  }

  /** Hearing anything leaves a true copy true. */
  lemma {:induction false} TrueCopiesStay(c: Copies, notes: seq<Note>, m: Mirror, i: nat)
    requires CopiesShape(c) && Shape(m)
    ensures i < PARTITIONS && PartitionCopied(c, m, i) ==> PartitionCopied(CopyAll(c, notes, m), m, i)
    ensures i < ZONES && ZoneCopied(c, m, i) ==> ZoneCopied(CopyAll(c, notes, m), m, i)
    decreases notes
  {
    if notes != [] {
      hide PartitionCopy, ZoneCopy, Announced;
      match notes[0] {
        case ZoneChanged(z, mask) =>
          if z < ZONES { SignalAddsNothing(ZoneCopy(m.zones[z]), ZoneBit, mask); }
        case PartitionChanged(p, mask) =>
          if p < PARTITIONS { SignalAddsNothing(PartitionCopy(m.partitions[p]), PartitionBit, mask); }
        case _ =>
      }
      TrueCopiesStay(CopyNote(c, notes[0], m), notes[1..], m, i);
    }
  }

  lemma SignalAddsNothing(info: Dict, bit: Field -> nat, mask: Mask)
    ensures info + Announced(info, bit, mask) == info
  {
    assert (info + Announced(info, bit, mask)).Keys == info.Keys;
  }

  // ------------------------------------------------------------------ partitions

  predicate SameArming(a: Partition, b: Partition) {
    a.armLevel == b.armLevel && a.armLevelUser == b.armLevelUser
  }

  /** Alike in what is followed. */
  predicate SameTold(a: Partition, b: Partition) {
    SameArming(a, b) && a.features == b.features && a.touchpadText == b.touchpadText
  }

  /** The followed fields of partition i change only in these ways. */
  predicate PartitionNews(before: Partition, after: Partition, notes: seq<Note>, i: nat) {
    var armed, featured, texted :=
      SameArming(before, after), before.features == after.features, before.touchpadText == after.touchpadText;
    || (armed && featured && texted)
    || (featured && texted && notes == [PartitionChanged(i, {ARM_LEVEL_CHANGED})])
    || (armed && texted && notes == [PartitionChanged(i, Differing(before.features, after.features))])
    || (armed && featured && notes == [PartitionChanged(i, {TOUCHPAD_TEXT_CHANGED})])
  }

  lemma RowNews(q: Partition, f: Frame, now: int)
    requires f.data[2] < PARTITIONS && TouchpadInBounds(f)
    ensures PartitionNews(q, SubcmdRow(q, f, now), SubcmdNotes(q, f), f.data[2])
  {
    hide Bit, Differing, Long, Word;
  }

  lemma EventIsNoNews(m: Mirror, e: Event, source: int, now: int, i: nat)
    requires Shape(m) && i < PARTITIONS
    ensures var r := Tabled(m, e, source, now).0;
            SameTold(m.partitions[i], r.partitions[i]) && r.zones == m.zones
  {
  }

  lemma SubcmdNews(m: Mirror, f: Frame, now: int, i: nat)
    requires Shape(m) && i < PARTITIONS && TouchpadInBounds(f)
    ensures var r := HandleSubcmd(m, f, now);
            && PartitionNews(m.partitions[i], r.panel.partitions[i], r.notes, i)
            && r.panel.zones == m.zones
  {
    if f.data[1] == ALARM_TROUBLE {
      var e := EventOf(f, now);
      EventIsNoNews(Logged(m, e), e, SourceOf(f), now, i);
      hide Tabled;
    } else if f.data[2] < PARTITIONS {
      RowNews(m.partitions[f.data[2]], f, now);
      hide SubcmdRow, SubcmdNotes, HandleAlarm, Differing;
    }
  }

  lemma LightsAreNoNews(m: Mirror, f: Frame, listener: bool, now: int, i: nat)
    requires Shape(m) && i < PARTITIONS
    ensures var r := HandleSubcmd2(m, f, listener, now).panel;
            SameTold(m.partitions[i], r.partitions[i])
  {
    hide Bit, SetLights, Word, NamesShape;
  }

  lemma PartitionDataNews(m: Mirror, f: Frame, i: nat)
    requires Shape(m) && i < PARTITIONS
    ensures var r := HandlePartitionData(m, f);
            PartitionNews(m.partitions[i], r.panel.partitions[i], r.notes, i)
    ensures var r := HandleLightToSensorData(m, f);
            PartitionNews(m.partitions[i], r.panel.partitions[i], r.notes, i)
    ensures var r := Refreshed(m);
            SameTold(m.partitions[i], r.partitions[i])
  {
    hide Differing, NamesShape;
  }

  lemma OtherNews(m: Mirror, f: Frame, listener: bool, now: int, i: nat)
    requires Shape(m) && i < PARTITIONS && f.data[0] != SUBCMD && FrameInBounds(m, f)
    ensures var r := Handle(m, f, listener, now);
            PartitionNews(m.partitions[i], r.panel.partitions[i], r.notes, i)
  {
    hide HandleSubcmd, HandleSubcmd2, HandlePartitionData, HandleLightToSensorData, Refreshed;
    hide HandleUserData, HandleOutputData, HandleZoneStatus, HandleZoneData, HandleDeviceData, HandleCapabilityData;
    hide Shape, Differing;
    LightsAreNoNews(m, f, listener, now, i);
    PartitionDataNews(m, f, i);
    RowsOfPartitions(m, f, now);
  }

  lemma InputNews(m: Mirror, x: Input, listener: bool, i: nat)
    requires Shape(m) && i < PARTITIONS && InBounds(m, x)
    ensures var r := React(m, x, listener);
            PartitionNews(m.partitions[i], r.panel.partitions[i], r.notes, i)
  {
    hide HandleSubcmd, HandleSubcmd2;
    if x.Received? {
      if x.frame.data[0] == SUBCMD {
        SubcmdNews(m, x.frame, x.now, i);
      } else {
        OtherNews(m, x.frame, listener, x.now, i);
      }
    }
  }

  lemma NewsIsCovered(before: Partition, after: Partition)
    requires before.features == after.features && before.touchpadText == after.touchpadText
    ensures Covers({ARM_LEVEL_CHANGED}, PartitionBit, PartitionCopy(before), PartitionCopy(after))
  {
    hide Bit, Differing, Cadence;
  }

  lemma TextNewsIsCovered(before: Partition, after: Partition)
    requires before.features == after.features && SameArming(before, after)
    ensures Covers({TOUCHPAD_TEXT_CHANGED}, PartitionBit, PartitionCopy(before), PartitionCopy(after))
  {
    hide Bit, Differing, Cadence;
  }

  lemma FeatureNewsIsCovered(before: Partition, after: Partition)
    requires SameArming(before, after) && before.touchpadText == after.touchpadText
    ensures Covers(Differing(before.features, after.features), PartitionBit,
                   PartitionCopy(before), PartitionCopy(after))
  {
    var mask := Differing(before.features, after.features);
    forall k | 0 <= k < 8 && Bit(before.features, k) != Bit(after.features, k) ensures 8 + k in mask {
      DifferingAnnounces(before.features, after.features, k);
    }
    hide Bit, Differing, Cadence;
  }

  lemma SamePartitionCopy(before: Partition, after: Partition)
    requires SameTold(before, after)
    ensures PartitionCopy(before) == PartitionCopy(after)
  {
    hide Bit, Cadence;
  }

  /** A partition's copy stays true whatever comes in. */
  lemma PartitionFollows(c: Copies, m: Mirror, x: Input, listener: bool, i: nat)
    requires CopiesShape(c) && Shape(m) && i < PARTITIONS && PartitionCopied(c, m, i) && InBounds(m, x)
    ensures var r := React(m, x, listener);
            PartitionCopied(CopyAll(c, r.notes, r.panel), r.panel, i)
  {
    hide React, Differing, Bit, PartitionCopy, PartitionNews, Announced;
    var r := React(m, x, listener);
    var before, after := m.partitions[i], r.panel.partitions[i];
    InputNews(m, x, listener, i);
    if SameTold(before, after) {
      SamePartitionCopy(before, after);
      TrueCopiesStay(c, r.notes, r.panel, i);
    } else {
      OneNoteFollows(c, r.notes, before, after, r.panel, i);
    }
  }

  lemma OneNoteFollows(c: Copies, notes: seq<Note>, before: Partition, after: Partition, m: Mirror, i: nat)
    requires CopiesShape(c) && Shape(m) && i < PARTITIONS && m.partitions[i] == after
    requires c.partitions[i] == PartitionCopy(before)
    requires PartitionNews(before, after, notes, i)
    requires !SameTold(before, after)
    ensures PartitionCopied(CopyAll(c, notes, m), m, i)
  {
    if before.features != after.features {
      FeatureNewsIsCovered(before, after);
    } else if before.touchpadText == after.touchpadText {
      NewsIsCovered(before, after);
    } else {
      TextNewsIsCovered(before, after);
    }
    hide PartitionCopy, Differing, Announced, Covers;
    var mask := notes[0].mask;
    CoveredChangeIsCopied(PartitionCopy(before), PartitionCopy(after), PartitionBit, mask);
    OneNote(c, notes[0], m);
    assert notes == [notes[0]];
  }

  // ----------------------------------------------------------------------- zones

  /** What a frame says about zone i, as the zone would become. */
  function ZoneRow(z: Zone, x: Input, i: nat): Zone {
    if IsFrame(x, ZONE_STATUS) && Word(x.frame.data[3], x.frame.data[4]) == i then z.(state := x.frame.data[5])
    else if IsFrame(x, ZONE_DATA) && Word(x.frame.data[4], x.frame.data[5]) == i then
      z.(partitionId := x.frame.data[1], group := x.frame.data[3], kind := x.frame.data[6], state := x.frame.data[7])
    else z
  }

  /** The mask of a change from z to row. */
  function ZoneMask(z: Zone, row: Zone): Mask {
    (if z.partitionId != row.partitionId then {PARTITION_ID_CHANGED} else {})
    + (if z.group != row.group then {ZONE_GROUP_CHANGED} else {})
    + (if z.kind != row.kind then {ZONE_TYPE_CHANGED} else {})
    + Differing(z.state, row.state)
  }

  predicate SameFollowed(a: Zone, b: Zone) {
    a.partitionId == b.partitionId && a.group == b.group && a.kind == b.kind && a.state == b.state
  }

  /** A change of zone z to `after` is announced exactly if z was active. */
  predicate ZoneNews(z: Zone, after: Zone, row: Zone, notes: seq<Note>, i: nat) {
    && SameFollowed(after, row)
    && (!SameFollowed(z, row) ==> if z.active then notes == [ZoneChanged(i, ZoneMask(z, row))] else notes == [])
  }

  lemma MaskOfState(z: Zone, row: Zone)
    ensures row == z.(state := row.state) ==> ZoneMask(z, row) == Differing(z.state, row.state)
    ensures !SameFollowed(z, row) ==> ZoneMask(z, row) != {}
  {
    if z.state != row.state {
      BytesDiffer(z.state, row.state);
    }
  }

  lemma SameHalves(x: nat, y: nat)
    requires x / 2 == y / 2 && x % 2 == y % 2
    ensures x == y
  {
  }

  lemma NextShift(a: byte, k: nat)
    requires k < 8
    ensures a / Pow2(k) / 2 == a / Pow2(k + 1)
  {
    if k == 0 {
    } else if k == 1 {
    } else if k == 2 {
    } else if k == 3 {
    } else if k == 4 {
    } else if k == 5 {
    } else if k == 6 {
    } else {
    }
  }

  /** Bytes that agree from bit k up agree when shifted by k. */
  lemma {:induction false} BitsDetermine(a: byte, b: byte, k: nat)
    requires k <= 8 && forall j :: k <= j < 8 ==> Bit(a, j) == Bit(b, j)
    ensures a / Pow2(k) == b / Pow2(k)
    decreases 8 - k
  {
    if k < 8 {
      BitsDetermine(a, b, k + 1);
      NextShift(a, k);
      NextShift(b, k);
      assert Bit(a, k) == Bit(b, k);
      hide Pow2;
      SameHalves(a / Pow2(k), b / Pow2(k));
    }
  }

  /** Different bytes differ in some bit. */
  lemma BytesDiffer(a: byte, b: byte)
    requires a != b
    ensures Differing(a, b) != {}
  {
    hide Bit;
    if forall k :: 0 <= k < 8 ==> Bit(a, k) == Bit(b, k) {
      BitsDetermine(a, b, 0);
    }
    var k :| 0 <= k < 8 && Bit(a, k) != Bit(b, k);
    DifferingAnnounces(a, b, k);
  }

  lemma StatusNews(m: Mirror, f: Frame, now: int, i: nat)
    requires Shape(m) && i < ZONES && f.data[0] == ZONE_STATUS
    ensures var r := HandleZoneStatus(m, f, now);
            && ZoneNews(m.zones[i], r.panel.zones[i], ZoneRow(m.zones[i], Received(f, now), i), r.notes, i)
            && (m.zones[i].active ==> r.panel.zones[i].active)
  {
    MaskOfState(m.zones[i], ZoneRow(m.zones[i], Received(f, now), i));
    hide Bit, Differing, ZoneMask, Word;
  }

  lemma DataNews(m: Mirror, f: Frame, now: int, i: nat)
    requires Shape(m) && i < ZONES && f.data[0] == ZONE_DATA && ZoneNameInBounds(f)
    ensures var r := HandleZoneData(m, f);
            && ZoneNews(m.zones[i], r.panel.zones[i], ZoneRow(m.zones[i], Received(f, now), i), r.notes, i)
            && (m.zones[i].active ==> r.panel.zones[i].active)
  {
    MaskOfState(m.zones[i], ZoneRow(m.zones[i], Received(f, now), i));
    hide Bit, Differing, Word;
  }

  lemma OtherZoneNews(m: Mirror, x: Input, listener: bool, i: nat)
    requires Shape(m) && i < ZONES && !IsFrame(x, ZONE_STATUS) && !IsFrame(x, ZONE_DATA) && InBounds(m, x)
    ensures var r := React(m, x, listener);
            && SameFollowed(r.panel.zones[i], m.zones[i])
            && (m.zones[i].active && !Refreshes(x) ==> r.panel.zones[i].active)
  {
    if IsFrame(x, SUBCMD) {
      SubcmdNews(m, x.frame, x.now, 0);
      hide HandleSubcmd;
    } else {
      hide SetLights, Bit, Differing, PinText, Word, HandleSubcmd, HandleZoneStatus, HandleZoneData;
    }
  }

  lemma InputZoneNews(m: Mirror, x: Input, listener: bool, i: nat)
    requires Shape(m) && i < ZONES && InBounds(m, x)
    ensures var r := React(m, x, listener);
            && ZoneNews(m.zones[i], r.panel.zones[i], ZoneRow(m.zones[i], x, i), r.notes, i)
            && (m.zones[i].active && !Refreshes(x) ==> r.panel.zones[i].active)
  {
    hide HandleSubcmd, HandleSubcmd2, HandleZoneStatus, HandleZoneData, ZoneMask;
    if IsFrame(x, ZONE_STATUS) {
      StatusNews(m, x.frame, x.now, i);
    } else if IsFrame(x, ZONE_DATA) {
      DataNews(m, x.frame, x.now, i);
    } else {
      OtherZoneNews(m, x, listener, i);
    }
  }

  lemma ZoneMaskCovers(z: Zone, row: Zone)
    ensures Covers(ZoneMask(z, row), ZoneBit, ZoneCopy(z), ZoneCopy(row))
  {
    forall k | 0 <= k < 8 && Bit(z.state, k) != Bit(row.state, k) ensures 8 + k in ZoneMask(z, row) {
      DifferingAnnounces(z.state, row.state, k);
    }
    hide Bit, Differing;
  }

  /** A frame brings news of zone i that an inactive zone keeps to itself. */
  predicate SilentChange(z: Zone, x: Input, i: nat) {
    !z.active && ZoneCopy(ZoneRow(z, x, i)) != ZoneCopy(z)
  }

  lemma SameInfo(a: Zone, b: Zone)
    requires SameFollowed(a, b)
    ensures ZoneCopy(a) == ZoneCopy(b)
  {
  }

  /** A true copy of a zone stays true exactly if the input is not a silent change. */
  lemma ZoneFollowsExactly(c: Copies, m: Mirror, x: Input, listener: bool, i: nat)
    requires CopiesShape(c) && Shape(m) && i < ZONES && ZoneCopied(c, m, i) && InBounds(m, x)
    ensures var r := React(m, x, listener);
            ZoneCopied(CopyAll(c, r.notes, r.panel), r.panel, i) <==> !SilentChange(m.zones[i], x, i)
  {
    hide React, ZoneRow, ZoneMask, ZoneCopy;
    var r := React(m, x, listener);
    var z, row, after := m.zones[i], ZoneRow(m.zones[i], x, i), r.panel.zones[i];
    InputZoneNews(m, x, listener, i);
    SameInfo(after, row);
    if SameFollowed(z, row) {
      SameInfo(z, row);
      TrueCopiesStay(c, r.notes, r.panel, i);
    } else if z.active {
      hide SameFollowed, Announced, Covers;
      ZoneMaskCovers(z, row);
      CoveredChangeIsCopied(ZoneCopy(z), ZoneCopy(row), ZoneBit, ZoneMask(z, row));
      OneNote(c, ZoneChanged(i, ZoneMask(z, row)), r.panel);
    } else {
      OneNote(c, SirenSync, r.panel);
    }
  }

  // ------------------------------------------------------------------------ runs

  /** Every input of the history is within bounds where it comes, from mirror m on. */
  predicate BoundedFrom(m: Mirror, c: Copies, h: seq<Input>, listener: bool)
    requires Shape(m) && CopiesShape(c)
    decreases |h|, 0
  {
    h == [] || (BoundedFrom(m, c, Init(h), listener) && InBounds(Follow(m, c, Init(h), listener).0, Last(h)))
  }

  /** Table and copies after more history. */
  function Follow(m: Mirror, c: Copies, h: seq<Input>, listener: bool): (r: (Mirror, Copies))
    requires Shape(m) && CopiesShape(c) && BoundedFrom(m, c, h, listener)
    ensures Shape(r.0) && CopiesShape(r.1)
    decreases |h|, 1
  {
    if h == [] then (m, c)
    else
      var (m1, c1) := Follow(m, c, Init(h), listener);
      var e := React(m1, Last(h), listener);
      (e.panel, CopyAll(c1, e.notes, e.panel))
  }

  /** Arm level and user, touchpad text and the six feature bits: true copies stay true over any history. */
  lemma {:induction false} PartitionCopiesStayTrue(m: Mirror, c: Copies, h: seq<Input>, listener: bool, i: nat)
    requires Shape(m) && CopiesShape(c) && i < PARTITIONS && PartitionCopied(c, m, i) && BoundedFrom(m, c, h, listener)
    ensures var (m', c') := Follow(m, c, h, listener);
            PartitionCopied(c', m', i)
  {
    if h != [] {
      hide React, CopyAll, PartitionCopy;
      PartitionCopiesStayTrue(m, c, Init(h), listener, i);
      var (m1, c1) := Follow(m, c, Init(h), listener);
      PartitionFollows(c1, m1, Last(h), listener, i);
    }
  }

  /** Partition id, group, type and the five flags of an active zone: true copies
      stay true, and the zone active, over any history without a refresh. */
  lemma {:induction false} ZoneCopiesStayTrue(m: Mirror, c: Copies, h: seq<Input>, listener: bool, i: nat)
    requires Shape(m) && CopiesShape(c) && i < ZONES && ZoneCopied(c, m, i) && m.zones[i].active
    requires BoundedFrom(m, c, h, listener)
    requires forall x :: x in h ==> !Refreshes(x)
    ensures var (m', c') := Follow(m, c, h, listener);
            ZoneCopied(c', m', i) && m'.zones[i].active
  {
    if h != [] {
      hide React, CopyAll, ZoneCopy, ZoneRow, Refreshes, ZoneMask;
      ZoneCopiesStayTrue(m, c, Init(h), listener, i);
      var (m1, c1) := Follow(m, c, Init(h), listener);
      ZoneFollowsExactly(c1, m1, Last(h), listener, i);
      InputZoneNews(m1, Last(h), listener, i);
    }
  }

  /** With a refresh this fails: after one, a status frame that changes a flag of a
      copied zone leaves the copy false. */
  lemma RefreshMakesCopiesStale(m: Mirror, c: Copies, f: Frame, now: int, listener: bool, i: nat)
    requires Shape(m) && CopiesShape(c) && i < ZONES && ZoneCopied(c, m, i)
    requires f.data[0] == ZONE_STATUS && Word(f.data[3], f.data[4]) == i
    requires Bit(f.data[5], 0) != Bit(m.zones[i].state, 0)
    ensures var h := [RefreshRequested(now), Received(f, now)];
            && BoundedFrom(m, c, h, listener)
            && !ZoneCopied(Follow(m, c, h, listener).1, Follow(m, c, h, listener).0, i)
  {
    hide Bit, NamesShape, Handle, ZoneMask, PartitionCopy;
    var ask, x := RefreshRequested(now), Received(f, now);
    assert Init([ask, x]) == [ask] && Init([ask]) == [];
    assert BoundedFrom(m, c, [], listener) && BoundedFrom(m, c, [ask], listener);
    var m1 := Refreshed(m);
    RefreshedIsShaped(m);
    hide Shape;
    OneNote(c, SirenSync, m1);
    assert Follow(m, c, [ask], listener) == (m1, c);
    assert m1.zones[i] == m.zones[i].(active := false);
    assert SilentChange(m1.zones[i], x, i) by {
      assert ZoneCopy(ZoneRow(m1.zones[i], x, i))[Flag(0)] != ZoneCopy(m1.zones[i])[Flag(0)];
    }
    hide React, ZoneRow;
    ZoneFollowsExactly(c, m1, x, listener, i);
  }

  // ------------------------------------------------------------ what is never said

  /** Says nothing of a zone's name or trip time, nor of a partition's programming mode. */
  predicate Silent(note: Note) {
    match note
    case ZoneChanged(_, mask) => NAME_CHANGED !in mask && LAST_TRIPPED_AT_CHANGED !in mask
    case PartitionChanged(_, mask) => PROGRAMMING_MODE_CHANGED !in mask
    case _ => true
  }

  predicate AllSilent(notes: seq<Note>) {
    forall note :: note in notes ==> Silent(note)
  }

  lemma DifferingIsFlags(a: byte, b: byte)
    ensures forall k :: k in Differing(a, b) ==> 8 <= k < 16
  {
    hide Bit;
  }

  lemma SubcmdIsSilent(m: Mirror, f: Frame, now: int)
    requires Shape(m) && TouchpadInBounds(f)
    ensures AllSilent(HandleSubcmd(m, f, now).notes)
  {
    if f.data[2] < PARTITIONS {
      RowIsSilent(m.partitions[f.data[2]], f);
    }
    hide SubcmdRow, SubcmdNotes, NamesShape, EventOf;
  }

  lemma RowIsSilent(q: Partition, f: Frame)
    requires f.data[2] < PARTITIONS && TouchpadInBounds(f)
    ensures AllSilent(SubcmdNotes(q, f))
  {
    DifferingIsFlags(q.features, f.data[4]);
    hide Differing;
  }

  lemma LightsAreSilent(m: Mirror, f: Frame, listener: bool, now: int)
    requires Shape(m)
    ensures AllSilent(HandleSubcmd2(m, f, listener, now).notes)
  {
    hide SetLights, Bit, Word, NamesShape;
  }

  lemma ZonesAreSilent(m: Mirror, f: Frame, now: int)
    requires Shape(m)
    ensures AllSilent(HandleZoneStatus(m, f, now).notes)
    ensures ZoneNameInBounds(f) ==> AllSilent(HandleZoneData(m, f).notes)
  {
    hide NamesShape, Word, Bit;
    var status, data := Word(f.data[3], f.data[4]), Word(f.data[4], f.data[5]);
    if status < ZONES {
      DifferingIsFlags(m.zones[status].state, f.data[5]);
    }
    if data < ZONES {
      DifferingIsFlags(m.zones[data].state, f.data[7]);
    }
    hide Differing;
  }

  /** No notification ever flags those: their entries in the signals are never sent. */
  lemma NeverAnnounced(m: Mirror, x: Input, listener: bool)
    requires Shape(m) && InBounds(m, x)
    ensures AllSilent(React(m, x, listener).notes)
  {
    if x.Received? {
      if x.frame.data[0] == SUBCMD {
        SubcmdIsSilent(m, x.frame, x.now);
      } else if IsList(x.frame) {
        ListsElsewhere(m, x.frame, listener, x.now);
      }
      LightsAreSilent(m, x.frame, listener, x.now);
      ZonesAreSilent(m, x.frame, x.now);
      hide HandleSubcmd, HandleSubcmd2, HandleZoneStatus, HandleZoneData, HandleOutputData, HandleDeviceData;
      hide HandleCapabilityData, HandlePanelType, NamesShape;
    }
  }
}
