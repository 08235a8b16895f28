/** What subscribers are told, as a function of everything received.

    For each input, given the history before it, the notifications are listed with
    the numbers of the flags they carry. */
module News {
  import opened Bytes
  import opened Framing
  import opened Panel
  import opened History
  import opened EventLog
  import opened Chronicle
  import opened Reports
  import opened Lamps
  import opened Replica
  import Lights

  function SubcommandNews(h: seq<Input>, f: Frame, i: nat): seq<Note>
    requires f.data[2] < 8
  {
    if f.data[1] == 0x01 then [PartitionChanged(i, {16})]
    else if f.data[1] == 0x04 && f.data[4] == 0 then [PartitionChanged(i, {18, 19, 23})]
    else if f.data[1] == 0x09 && TextSaid(Received(f, 0), i) != Some(StoryIn(h, i).text) then
      [PartitionChanged(i, {17})]
    else if f.data[1] == 0x0B then [PartitionChanged(i, {19})]
    else if f.data[1] == 0x0C && f.data[4] != StoryIn(h, i).features then
      [PartitionChanged(i, Differing(StoryIn(h, i).features, f.data[4]))]
    else []
  }

  /** A siren go is about the partition of the last siren setup, if its siren has a cadence. */
  function SirenGoNews(h: seq<Input>): seq<Note> {
    var i := LastSaid(h, SirenGoSaid, 0);
    if i < 8 && StoryIn(h, i).cadence != 0 then [PartitionChanged(i, {18, 19, 23})] else []
  }

  predicate OutputReport(f: Frame) {
    f.data[8] == 18 && (f.data[9] == 5 || f.data[9] == 6)
  }

  function EventNews(h: seq<Input>, f: Frame, now: int): seq<Note> {
    FlagNews(h, f) + if OutputReport(f) then [] else [Dispatched(EventIn(f, now))]
  }

  function FlagNews(h: seq<Input>, f: Frame): seq<Note> {
    var k := Number(f.data[10..12]);
    if (f.data[8] == 15 || f.data[8] == 16) && f.data[9] == 5 then [InstanceChanged({12})]
    else if f.data[8] == 17 && f.data[2] < 8 && f.data[9] <= 2 then [InstanceChanged({24})]
    else if OutputReport(f) && k < 71 && OutputState(h, k) != (if f.data[9] == 5 then 1 else 0) then
      [OutputChanged(k, {2, 3, 4})]
    else []
  }

  /** The first light from k on that stops the loop. */
  function LightNews(h: seq<Input>, x: Input, i: nat, k: nat): seq<Note>
    requires k <= 10 && AllLights(x, i)
    decreases 10 - k
  {
    if k == 10 then []
    else if Stops(h, x, true, i, k) then [LightChanged(i, k)]
    else LightNews(h, x, i, k + 1)
  }

  function KeyNews(h: seq<Input>, x: Input): seq<Note>
    requires x.Received?
  {
    var z := x.frame.data[5];
    if z < 96 && IsNewKey(KeySeen(h, z), x, z) then [ZoneChanged(z, {19, 20})] else []
  }

  /** A zone tells of a change only if it has been named since the last refresh. */
  function ZoneNews(h: seq<Input>, z: nat, mask: Mask): seq<Note> {
    if z < 96 && ZoneNamedSince(h, z) && mask != {} then [ZoneChanged(z, mask)] else []
  }

  /** What the data frame of a zone changes. */
  function DataMask(h: seq<Input>, f: Frame, z: nat): Mask {
    (if ZonePartition(h, z) != f.data[1] then {0} else {})
    + (if ZoneStoryIn(h, z).kind != f.data[6] then {16} else {})
    + (if ZoneStoryIn(h, z).group != f.data[3] then {17} else {})
    + Differing(ZoneState(h, z), f.data[7])
  }

  /** All that is told of one input. */
  function NewsIn(h: seq<Input>, x: Input, listener: bool): seq<Note> {
    if x.RefreshRequested? then []
    else
      var f, d := x.frame, x.frame.data;
      if d[0] == 0x22 then
        if d[1] == 0x02 then EventNews(h, f, x.now)
        else if d[1] == 0x05 then [SirenSync]
        else if d[1] == 0x06 then SirenGoNews(h)
        else if d[2] < 8 then SubcommandNews(h, f, d[2])
        else []
      else if d[0] == 0x23 then
        if d[1] == 0x01 && d[2] < 8 && listener && !RefreshDue(h) then LightNews(h, x, d[2], 0)
        else if d[1] == 0x02 && d[2] < 8 && d[8] < 10 && listener then [LightChanged(d[2], d[8])]
        else if d[1] == 0x03 then KeyNews(h, x)
        else []
      else if d[0] == 0x21 then
        var z := Number(d[3..5]);
        ZoneNews(h, z, Differing(ZoneState(h, z), d[5]))
      else if d[0] == 0x03 then
        var z := Number(d[4..6]);
        ZoneNews(h, z, DataMask(h, f, z))
      else if d[0] == 0x04 then
        if d[1] < 8 && ArmLevel(h, d[1]) != d[3] then [PartitionChanged(d[1], {16})] else []
      else []
  }

  /** ... and of a history. */
  function AllNews(h: seq<Input>, listener: bool): seq<Note> {
    if h == [] then [] else AllNews(Init(h), listener) + NewsIn(Init(h), Last(h), listener)
  }

  // ------------------------------------------------------------------ frame by frame

  /** The mirror is what the history says. */
  ghost predicate Stands(m: Mirror, h: seq<Input>, listener: bool) {
    Bounded(h, listener) && m == After(h, listener)
  }

  lemma SubcommandTells(m: Mirror, h: seq<Input>, listener: bool, f: Frame, now: int)
    requires Stands(m, h, listener) && TouchpadInBounds(f) && f.data[0] == SUBCMD && f.data[1] != ALARM_TROUBLE
    ensures HandleSubcmd(m, f, now).notes == NewsIn(h, Received(f, now), listener)
  {
    var x := Received(f, now);
    if f.data[1] == SIREN_GO {
      SirenGoTells(m, h, listener, f, now);
      hide HandleSubcmd, SirenGoNews, Stands;
    } else if f.data[1] == TIME_AND_DATE {
      if f.data[2] < 8 {
        NoNewsOfClock(h, f);
      }
      hide SubcommandNews, Stands;
    } else {
      if f.data[2] < 8 {
        StoryAfter(h, listener, f.data[2]);
        RowTellsNews(m.partitions[f.data[2]], h, f);
      }
      hide SubcmdNotes, SubcommandNews, SubcmdRow, After, Bounded, Shape, HandleAlarm, EventNews, SirenGoNews;
    }
  }

  lemma SirenGoTells(m: Mirror, h: seq<Input>, listener: bool, f: Frame, now: int)
    requires Stands(m, h, listener) && TouchpadInBounds(f) && f.data[1] == SIREN_GO
    ensures HandleSubcmd(m, f, now).notes == SirenGoNews(h)
  {
    PanelAfter(h, listener);
    if m.sirenGo < 8 {
      StoryAfter(h, listener, m.sirenGo);
    }
    assert SIREN_MASK == {18, 19, 23};
    hide After, Bounded, StoryIn, LastSaid, Shape;
  }

  lemma NoNewsOfClock(h: seq<Input>, f: Frame)
    requires f.data[1] == TIME_AND_DATE && f.data[2] < 8
    ensures SubcommandNews(h, f, f.data[2]) == []
  {
  }

  lemma RowTellsNews(q: Partition, h: seq<Input>, f: Frame)
    requires f.data[0] == SUBCMD && f.data[2] < 8 && TouchpadInBounds(f) && StoryOf(q) == StoryIn(h, f.data[2])
    ensures SubcmdNotes(q, f) == SubcommandNews(h, f, f.data[2])
  {
    hide StoryIn, Differing;
  }

  lemma EventTells(m: Mirror, h: seq<Input>, listener: bool, f: Frame, now: int)
    requires Stands(m, h, listener)
    ensures HandleAlarm(m, f, now).notes == EventNews(h, f, now)
  {
    EventIsIn(f, now);
    var e := EventOf(f, now);
    FlagsTell(m, h, listener, f, now);
    hide Stands, FlagNews, Tabled, Number, EventOf;
    assert IsOutputReport(e) <==> OutputReport(f);
    hide EventIn, IsOutputReport, OutputReport;
  }

  lemma FlagsTell(m: Mirror, h: seq<Input>, listener: bool, f: Frame, now: int)
    requires Stands(m, h, listener)
    ensures var e := EventOf(f, now);
            Tabled(Logged(m, e), e, SourceOf(f), now).1 == FlagNews(h, f)
  {
    var k := Number(f.data[10..12]);
    EventIsIn(f, now);
    if k < 71 {
      OutputsAfter(h, listener, k);
      assert m.outputs[k].state == OutputState(h, k);
    }
    var e := EventOf(f, now);
    assert e.general == f.data[8] && e.specific == f.data[9] && e.partitionId == f.data[2] && e.extra == k;
    var logged := Logged(m, e);
    assert logged.outputs == m.outputs;
    TabledNotes(logged, e, SourceOf(f), now);
    hide After, Bounded, OutputStoryIn, OutputState, Number, Shape, Tabled, EventOf, EventIn, Logged, SourceOf;
  }

  lemma TabledNotes(m: Mirror, e: Event, source: int, now: int)
    requires Shape(m)
    ensures Tabled(m, e, source, now).1
         == if IsSystemTrouble(e.general) then if e.specific == 5 then [InstanceChanged({12})] else []
            else if e.general == 17 && e.partitionId < 8 && e.specific <= 2 then [InstanceChanged({24})]
            else if IsOutputReport(e) && 0 <= e.extra < 71
                      && m.outputs[e.extra].state != (if e.specific == 5 then 1 else 0)
            then [OutputChanged(e.extra, {2, 3, 4})] else []
  {
    assert {STATE_CHANGED, LAST_CHANGED_AT_CHANGED, LAST_CHANGED_BY_CHANGED} == {2, 3, 4};
    hide Shape;
  }

  lemma {:induction false} FirstStop(h: seq<Input>, x: Input, i: nat, k: nat, told: Option<nat>)
    requires k <= LIGHTS && AllLights(x, i)
    requires told.Some? ==> k <= told.value < LIGHTS && Stops(h, x, true, i, told.value)
    requires forall j :: k <= j < LIGHTS && (told.None? || j < told.value) ==> !Stops(h, x, true, i, j)
    ensures LightNews(h, x, i, k) == if told.Some? then [LightChanged(i, told.value)] else []
    decreases LIGHTS - k
  {
    if k < LIGHTS && told != Some(k) {
      FirstStop(h, x, i, k + 1, told);
    }
  }

  lemma LightsTell(m: Mirror, h: seq<Input>, f: Frame, now: int)
    requires Stands(m, h, true) && f.data[0] == SUBCMD2 && f.data[1] == LIGHTS_STATE && f.data[2] < PARTITIONS
    requires !m.refreshPending
    ensures HandleSubcmd2(m, f, true, now).notes == LightNews(h, Received(f, now), f.data[2], 0)
  {
    var i, x, lights := f.data[2], Received(f, now), m.partitions[f.data[2]].lights;
    LampsAfter(h, true, i);
    var bitmap := Lights.Bitmap(f);
    Lights.LoopFrom(lights, bitmap, 0, false, now);
    hide After, Bounded, SetLights, Bit, SaysOn, LampIn, Lights.Bitmap;
    forall k | 0 <= k < LIGHTS ensures Stops(h, x, true, i, k) == Lights.Reportable(lights, bitmap, k) {
      SaysOnIsBit(f, k);
    }
    hide Stops, Lights.Reportable;
    FirstStop(h, x, i, 0, SetLights(lights, bitmap, 0, false, now).1);
    assert bitmap == Word(f.data[5], f.data[4]) by { BitmapIs(f); }
  }

  lemma BitmapIs(f: Frame)
    ensures Lights.Bitmap(f) == Word(f.data[5], f.data[4])
  {
  }

  lemma KeyTells(m: Mirror, h: seq<Input>, listener: bool, f: Frame, now: int)
    requires Stands(m, h, listener) && f.data[0] == SUBCMD2 && f.data[1] == KEYFOB
    ensures HandleSubcmd2(m, f, listener, now).notes == KeyNews(h, Received(f, now))
  {
    if f.data[5] < ZONES {
      ZonesAfter(h, listener, f.data[5]);
    }
    hide After, Bounded, KeySeen;
  }

  lemma Subcmd2Tells(m: Mirror, h: seq<Input>, listener: bool, f: Frame, now: int)
    requires Stands(m, h, listener) && f.data[0] == SUBCMD2
    ensures HandleSubcmd2(m, f, listener, now).notes == NewsIn(h, Received(f, now), listener)
  {
    AfterHistory(h, listener);
    if f.data[1] == KEYFOB {
      KeyTells(m, h, listener, f, now);
      hide HandleSubcmd2;
    } else if f.data[1] == LIGHTS_STATE && f.data[2] < PARTITIONS {
      if listener && !m.refreshPending {
        LightsTell(m, h, f, now);
        hide HandleSubcmd2;
      } else {
        Lights.LoopFrom(m.partitions[f.data[2]].lights, Word(f.data[5], f.data[4]), 0, true, now);
        hide SetLights, Bit;
      }
    }
    hide After, Bounded, RefreshDue, FactsIn, KeyNews, LightNews;
  }

  lemma StatusTellsNews(m: Mirror, h: seq<Input>, listener: bool, f: Frame, now: int)
    requires Stands(m, h, listener) && f.data[0] == ZONE_STATUS
    ensures HandleZoneStatus(m, f, now).notes == NewsIn(h, Received(f, now), listener)
  {
    NumbersOf(f, 3);
    NamedStatusTells(m, h, listener, f, now, Word(f.data[3], f.data[4]));
    hide HandleZoneStatus, ZoneNews, DataMask, Number, Word, Stands, EventNews, KeyNews, LightNews, SubcommandNews;
  }

  lemma NamedStatusTells(m: Mirror, h: seq<Input>, listener: bool, f: Frame, now: int, z: nat)
    requires Stands(m, h, listener) && z == Word(f.data[3], f.data[4])
    ensures HandleZoneStatus(m, f, now).notes == ZoneNews(h, z, Differing(ZoneState(h, z), f.data[5]))
  {
    if z < ZONES {
      AfterHistory(h, listener);
      ZonesAfter(h, listener, z);
      SameOrDiffers(m.zones[z].state, f.data[5]);
    }
    hide After, Bounded, Differing, Word, Bit, ZoneState, ZoneNamedSince, RefreshDue, FactsIn, PinOf, Shape, KeySeen;
  }

  lemma SameOrDiffers(a: byte, b: byte)
    ensures Differing(a, b) == {} <==> a == b
  {
    if a != b {
      BytesDiffer(a, b);
    }
  }

  lemma DataTellsNews(m: Mirror, h: seq<Input>, listener: bool, f: Frame, now: int)
    requires Stands(m, h, listener) && f.data[0] == ZONE_DATA && ZoneNameInBounds(f)
    ensures HandleZoneData(m, f).notes == NewsIn(h, Received(f, now), listener)
  {
    NumbersOf(f, 4);
    NamedDataTells(m, h, listener, f, Word(f.data[4], f.data[5]));
    hide HandleZoneData, ZoneNews, DataMask, Number, Word, Stands, EventNews, KeyNews, LightNews, SubcommandNews;
  }

  lemma NamedDataTells(m: Mirror, h: seq<Input>, listener: bool, f: Frame, z: nat)
    requires Stands(m, h, listener) && ZoneNameInBounds(f) && z == Word(f.data[4], f.data[5])
    ensures HandleZoneData(m, f).notes == ZoneNews(h, z, DataMask(h, f, z))
  {
    if z < ZONES {
      ZonesAfter(h, listener, z);
      MaskOfData(m, h, listener, f, z);
      DataNotes(m, f);
      hide HandleZoneData;
    }
    hide After, Bounded, DataMask, Differing, Word, Shape, KeySeen;
  }

  lemma DataNotes(m: Mirror, f: Frame)
    requires Shape(m) && ZoneNameInBounds(f) && Word(f.data[4], f.data[5]) < ZONES
    ensures var z := m.zones[Word(f.data[4], f.data[5])];
            var mask := (if z.partitionId != f.data[1] then {PARTITION_ID_CHANGED} else {})
                      + (if z.group != f.data[3] then {ZONE_GROUP_CHANGED} else {})
                      + (if z.kind != f.data[6] then {ZONE_TYPE_CHANGED} else {})
                      + Differing(z.state, f.data[7]);
            HandleZoneData(m, f).notes
            == if z.active && mask != {} then [ZoneChanged(Word(f.data[4], f.data[5]), mask)] else []
  {
    hide Word, Shape, Differing;
  }

  lemma MaskOfData(m: Mirror, h: seq<Input>, listener: bool, f: Frame, z: nat)
    requires Stands(m, h, listener) && z < ZONES
    ensures DataMask(h, f, z)
         == (if m.zones[z].partitionId != f.data[1] then {PARTITION_ID_CHANGED} else {})
            + (if m.zones[z].group != f.data[3] then {ZONE_GROUP_CHANGED} else {})
            + (if m.zones[z].kind != f.data[6] then {ZONE_TYPE_CHANGED} else {})
            + Differing(m.zones[z].state, f.data[7])
  {
    AfterHistory(h, listener);
    ZoneStoryAfter(h, listener, z);
    hide After, Bounded, ZoneState, ZonePartition, FactsIn, FactsOf, PinOf, RefreshDue;
    hide Differing, ZoneStoryIn;
  }

  lemma PartitionTellsNews(m: Mirror, h: seq<Input>, listener: bool, f: Frame, now: int)
    requires Stands(m, h, listener) && f.data[0] == PARTITION_DATA
    ensures HandlePartitionData(m, f).notes == NewsIn(h, Received(f, now), listener)
  {
    AfterHistory(h, listener);
    if f.data[1] < PARTITIONS {
      assert FactsOf(m.partitions[f.data[1]]) == FactsIn(h, f.data[1]);
    }
    hide After, Bounded, RowsTell, ArmLevel;
  }

  lemma NothingTold(m: Mirror, h: seq<Input>, listener: bool, x: Input)
    requires Shape(m) && InBounds(m, x)
    requires x.Received? ==> x.frame.data[0] !in {SUBCMD, SUBCMD2, ZONE_STATUS, ZONE_DATA, PARTITION_DATA}
    ensures React(m, x, listener).notes == [] == NewsIn(h, x, listener)
  {
    hide Shape;
  }

  lemma InputTellsNews(m: Mirror, h: seq<Input>, listener: bool, x: Input)
    requires Stands(m, h, listener) && InBounds(m, x)
    ensures React(m, x, listener).notes == NewsIn(h, x, listener)
  {
    hide After, Bounded, NewsIn, HandleSubcmd, HandleSubcmd2, HandleZoneStatus, HandleZoneData, HandlePartitionData;
    if IsEvent(x) {
      EventTells(m, h, listener, x.frame, x.now);
      EventIsAlarm(m, x.frame, x.now);
      NewsOfEvent(h, x, listener);
    } else if IsFrame(x, SUBCMD) {
      SubcommandTells(m, h, listener, x.frame, x.now);
    } else if IsFrame(x, SUBCMD2) {
      Subcmd2Tells(m, h, listener, x.frame, x.now);
    } else if IsFrame(x, ZONE_STATUS) {
      StatusTellsNews(m, h, listener, x.frame, x.now);
    } else if IsFrame(x, ZONE_DATA) {
      DataTellsNews(m, h, listener, x.frame, x.now);
    } else if IsFrame(x, PARTITION_DATA) {
      PartitionTellsNews(m, h, listener, x.frame, x.now);
    } else {
      NothingTold(m, h, listener, x);
    }
  }

  lemma NewsOfEvent(h: seq<Input>, x: Input, listener: bool)
    requires IsEvent(x)
    ensures NewsIn(h, x, listener) == EventNews(h, x.frame, x.now)
  {
    hide EventNews;
  }

  /** After any history subscribers have been told exactly its news, in order. */
  lemma {:induction false} NotesAreNews(h: seq<Input>, listener: bool)
    requires Bounded(h, listener)
    ensures Notes(h, listener) == AllNews(h, listener)
  {
    if h != [] {
      hide React, NewsIn;
      NotesAreNews(Init(h), listener);
      InputTellsNews(After(Init(h), listener), Init(h), listener, Last(h));
    }
  }
}
