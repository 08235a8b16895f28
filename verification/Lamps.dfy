/** The lights of a partition as functions of everything received so far.

    A LIGHTS_STATE frame counts for a light only if the loop reaches it: a listener
    is told of one light a frame, and those behind it stay as they are. */
module Lamps {
  import opened Bytes
  import opened Panel
  import opened History
  import opened EventLog
  import opened Chronicle
  import opened Lights

  /** A frame with the lights of partition i, and what it says of light k. */
  predicate AllLights(x: Input, i: nat) {
    x.Received? && x.frame.data[0] == 0x23 && x.frame.data[1] == 0x01 && x.frame.data[2] as int == i
  }

  predicate SaysOn(f: Frame, k: nat)
    requires k < 10
  {
    Bit(Number([f.data[5], f.data[4]]), k)
  }

  /** A frame for light k of partition i alone. */
  predicate OneLight(x: Input, i: nat, k: nat) {
    && x.Received? && x.frame.data[0] == 0x23 && x.frame.data[1] == 0x02
    && x.frame.data[2] as int == i && x.frame.data[8] as int == k
  }

  datatype Lamp = Lamp(on: bool, changedAt: int)

  /** Light k of partition i, and when it changed. */
  function LampIn(h: seq<Input>, listener: bool, i: nat, k: nat): Lamp
    requires k < 10
    decreases |h|, 0
  {
    if h == [] then Lamp(false, 0)
    else
      var x := Last(h);
      if OneLight(x, i, k) then Lamp(x.frame.data[9] != 0, x.now)
      else if AllLights(x, i) && Reaches(Init(h), x, listener, i, k)
                && SaysOn(x.frame, k) != LampIn(Init(h), listener, i, k).on
      then Lamp(SaysOn(x.frame, k), x.now)
      else LampIn(Init(h), listener, i, k)
  }

  /** A light before k that differs and has changed before stops the loop. */
  predicate Reaches(h: seq<Input>, x: Input, listener: bool, i: nat, k: nat)
    requires k < 10 && AllLights(x, i)
    decreases |h|, 2
  {
    !listener || RefreshDue(h) || forall j :: 0 <= j < k ==> !Stops(h, x, listener, i, j)
  }

  predicate Stops(h: seq<Input>, x: Input, listener: bool, i: nat, j: nat)
    requires j < 10 && AllLights(x, i)
    decreases |h|, 1
  {
    SaysOn(x.frame, j) != LampIn(h, listener, i, j).on && LampIn(h, listener, i, j).changedAt != 0
  }

  /** The zone of a light; light 0 has none. */
  function WiredSaid(x: Input, i: nat, k: nat): Option<byte>
    requires k < 10
  {
    if 1 <= k && x.Received? && x.frame.data[0] == 0x0C && x.frame.data[1] as int == i
    then Some(x.frame.data[2 + k]) else None
  }

  function LightIn(h: seq<Input>, listener: bool, i: nat, k: nat): Light
    requires k < 10
  {
    var lamp := LampIn(h, listener, i, k);
    Light(lamp.on, LastSaid(h, x => WiredSaid(x, i, k), 0), lamp.changedAt)
  }

  lemma SaysOnIsBit(f: Frame, k: nat)
    requires k < 10
    ensures SaysOn(f, k) == Bit(Bitmap(f), k)
  {
    assert Init([f.data[5], f.data[4]]) == [f.data[5]] && Init([f.data[5]]) == [];
    assert Number([f.data[5]]) == f.data[5] as nat;
    assert Number([f.data[5], f.data[4]]) == Word(f.data[5], f.data[4]);
    hide Bit, Number, Word;
  }

  // ------------------------------------------------------------------- one input

  /** Lights that are lit and changed as the history says. */
  predicate LitAs(lights: seq<Light>, h: seq<Input>, listener: bool, i: nat)
    requires |lights| == LIGHTS
  {
    forall k :: 0 <= k < LIGHTS ==> Lamp(lights[k].on, lights[k].changedAt) == LampIn(h, listener, i, k)
  }

  lemma BitmapTells(m: Mirror, h: seq<Input>, listener: bool, i: nat)
    requires h != [] && Shape(m) && i < PARTITIONS && AllLights(Last(h), i)
    requires LitAs(m.partitions[i].lights, Init(h), listener, i) && m.refreshPending == RefreshDue(Init(h))
    ensures var silent := m.refreshPending || !listener;
            LitAs(SetLights(m.partitions[i].lights, Bitmap(Last(h).frame), 0, silent, Last(h).now).0, h, listener, i)
  {
    var x, lights := Last(h), m.partitions[i].lights;
    var bitmap, silent := Bitmap(x.frame), m.refreshPending || !listener;
    var (after, told) := SetLights(lights, bitmap, 0, silent, x.now);
    LoopFrom(lights, bitmap, 0, silent, x.now);
    forall k | 0 <= k < LIGHTS ensures Stops(Init(h), x, listener, i, k) == Lights.Reportable(lights, bitmap, k) {
      SaysOnIsBit(x.frame, k);
    }
    hide SetLights, Bit, SaysOn, Stops, Lights.Reportable, RefreshDue, Bitmap;
    forall k | 0 <= k < LIGHTS ensures Lamp(after[k].on, after[k].changedAt) == LampIn(h, listener, i, k) {
      SaysOnIsBit(x.frame, k);
      assert Reaches(Init(h), x, listener, i, k) <==> told.None? || k <= told.value;
    }
  }

  /** Nothing said of the lights of partition i. */
  predicate NoLights(x: Input, i: nat) {
    !AllLights(x, i) && forall k :: 0 <= k < LIGHTS ==> !OneLight(x, i, k)
  }

  lemma LampsStay(lights: seq<Light>, h: seq<Input>, listener: bool, i: nat)
    requires h != [] && |lights| == LIGHTS && LitAs(lights, Init(h), listener, i) && NoLights(Last(h), i)
    ensures LitAs(lights, h, listener, i)
  {
    hide OneLight, AllLights, Reaches;
  }

  lemma Subcmd2Lights(m: Mirror, f: Frame, listener: bool, now: int, i: nat)
    requires Shape(m) && i < PARTITIONS
    ensures var lights := m.partitions[i].lights;
            HandleSubcmd2(m, f, listener, now).panel.partitions[i].lights
            == if f.data[2] != i then lights
               else if f.data[1] == 0x01 then SetLights(lights, Bitmap(f), 0, m.refreshPending || !listener, now).0
               else if f.data[1] == 0x02 && f.data[8] < LIGHTS
               then lights[f.data[8] := lights[f.data[8]].(on := f.data[9] != 0, changedAt := now)]
               else lights
  {
    hide SetLights, Bit, Word, NamesShape;
  }

  lemma Subcmd2TellsLights(m: Mirror, h: seq<Input>, listener: bool, i: nat)
    requires h != [] && Shape(m) && i < PARTITIONS && IsFrame(Last(h), SUBCMD2)
    requires LitAs(m.partitions[i].lights, Init(h), listener, i) && m.refreshPending == RefreshDue(Init(h))
    ensures LitAs(HandleSubcmd2(m, Last(h).frame, listener, Last(h).now).panel.partitions[i].lights, h, listener, i)
  {
    var x := Last(h);
    Subcmd2Lights(m, x.frame, listener, x.now, i);
    hide LampIn, SetLights, Bitmap, Shape, RefreshDue, LitAs, HandleSubcmd2;
    if AllLights(x, i) {
      BitmapTells(m, h, listener, i);
    } else if x.frame.data[1] == 0x02 && x.frame.data[2] == i && x.frame.data[8] < LIGHTS {
      OneLightTells(m.partitions[i].lights, h, listener, i);
    } else {
      LampsStay(m.partitions[i].lights, h, listener, i);
    }
  }

  lemma OneLightTells(lights: seq<Light>, h: seq<Input>, listener: bool, i: nat)
    requires h != [] && |lights| == LIGHTS && LitAs(lights, Init(h), listener, i)
    requires IsFrame(Last(h), SUBCMD2) && Last(h).frame.data[8] < LIGHTS && OneLight(Last(h), i, Last(h).frame.data[8])
    ensures var x := Last(h);
            var light := lights[x.frame.data[8]].(on := x.frame.data[9] != 0, changedAt := x.now);
            LitAs(lights[x.frame.data[8] := light], h, listener, i)
  {
    hide Reaches, SaysOn;
  }

  /** Frames of other kinds leave the lights as they are, but for their zones. */
  lemma LightsElsewhere(m: Mirror, x: Input, listener: bool, i: nat, k: nat)
    requires Shape(m) && i < PARTITIONS && k < LIGHTS && InBounds(m, x) && !IsFrame(x, SUBCMD2)
    ensures React(m, x, listener).panel.partitions[i].lights[k]
         == m.partitions[i].lights[k].(zoneId := Or(WiredSaid(x, i, k), m.partitions[i].lights[k].zoneId))
  {
    if x.RefreshRequested? {
    } else if x.frame.data[0] == SUBCMD {
      SubcmdTells(m, x.frame, x.now, i);
      hide HandleSubcmd;
    } else if IsList(x.frame) {
      ListsElsewhere(m, x.frame, listener, x.now);
      hide Handle;
    } else if x.frame.data[0] == PARTITION_DATA || x.frame.data[0] == LIGHT_TO_SENSOR_DATA {
      RowsWire(m, x, i, k);
      hide HandlePartitionData, HandleLightToSensorData, HandleSubcmd, HandleSubcmd2, WiredSaid;
    } else {
      hide HandleUserData, HandleOutputData, HandleZoneStatus, HandleZoneData, HandleSubcmd, HandleSubcmd2, NamesShape;
      RowsOfPartitions(m, x.frame, x.now);
      assert IsFrame(x, CLEAR_IMAGE) || React(m, x, listener).panel.partitions == m.partitions;
    }
  }

  lemma RowsWire(m: Mirror, x: Input, i: nat, k: nat)
    requires Shape(m) && i < PARTITIONS && k < LIGHTS && x.Received?
    requires x.frame.data[0] == PARTITION_DATA || x.frame.data[0] == LIGHT_TO_SENSOR_DATA
    ensures var r := if x.frame.data[0] == PARTITION_DATA then HandlePartitionData(m, x.frame)
                     else HandleLightToSensorData(m, x.frame);
            r.panel.partitions[i].lights[k]
            == m.partitions[i].lights[k].(zoneId := Or(WiredSaid(x, i, k), m.partitions[i].lights[k].zoneId))
  {
    hide NamesShape;
  }

  lemma WiresStay(m: Mirror, x: Input, listener: bool, i: nat, k: nat)
    requires Shape(m) && i < PARTITIONS && k < LIGHTS && InBounds(m, x)
    ensures React(m, x, listener).panel.partitions[i].lights[k].zoneId
         == Or(WiredSaid(x, i, k), m.partitions[i].lights[k].zoneId)
  {
    if IsFrame(x, SUBCMD2) {
      Subcmd2Wires(m, x.frame, listener, x.now, i, k);
    } else {
      LightsElsewhere(m, x, listener, i, k);
      hide React;
    }
  }

  lemma Subcmd2Wires(m: Mirror, f: Frame, listener: bool, now: int, i: nat, k: nat)
    requires Shape(m) && i < PARTITIONS && k < LIGHTS
    ensures HandleSubcmd2(m, f, listener, now).panel.partitions[i].lights[k].zoneId
         == m.partitions[i].lights[k].zoneId
  {
    Subcmd2Lights(m, f, listener, now, i);
    hide HandleSubcmd2;
    LoopFrom(m.partitions[i].lights, Bitmap(f), 0, m.refreshPending || !listener, now);
    hide SetLights, Bit, Bitmap, Shape, Lights.Reportable;
  }

  lemma InputTellsLights(m: Mirror, h: seq<Input>, listener: bool, i: nat)
    requires h != [] && Shape(m) && i < PARTITIONS && InBounds(m, Last(h))
    requires LitAs(m.partitions[i].lights, Init(h), listener, i) && m.refreshPending == RefreshDue(Init(h))
    ensures LitAs(React(m, Last(h), listener).panel.partitions[i].lights, h, listener, i)
  {
    hide LampIn, RefreshDue, SaysOn, HandleSubcmd2;
    var x := Last(h);
    if IsFrame(x, SUBCMD2) {
      Subcmd2TellsLights(m, h, listener, i);
    } else {
      var lights, lights' := m.partitions[i].lights, React(m, x, listener).panel.partitions[i].lights;
      forall k | 0 <= k < LIGHTS
        ensures Lamp(lights'[k].on, lights'[k].changedAt) == Lamp(lights[k].on, lights[k].changedAt)
      {
        LightsElsewhere(m, x, listener, i, k);
      }
      hide React;
      LampsStay(lights', h, listener, i);
    }
  }

  /** The lights after any history. */
  lemma {:induction false} LampsAfter(h: seq<Input>, listener: bool, i: nat)
    requires i < 8 && Bounded(h, listener)
    ensures LitAs(After(h, listener).partitions[i].lights, h, listener, i)
  {
    if h != [] {
      hide React, LitAs;
      LampsAfter(Init(h), listener, i);
      AfterHistory(Init(h), listener);
      InputTellsLights(After(Init(h), listener), h, listener, i);
    }
  }

  lemma {:induction false} LightsAfter(h: seq<Input>, listener: bool, i: nat, k: nat)
    requires i < 8 && k < 10 && Bounded(h, listener)
    ensures PartitionShape(After(h, listener).partitions[i])
    ensures After(h, listener).partitions[i].lights[k] == LightIn(h, listener, i, k)
  {
    LampsAfter(h, listener, i);
    if h != [] {
      hide React, LampIn;
      LightsAfter(Init(h), listener, i, k);
      WiresStay(After(Init(h), listener), Last(h), listener, i, k);
    }
  }
}
