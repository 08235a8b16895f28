/** The mirror as the daemon keeps it: tables updated in place, subscribers
    called as changes are found.  Every method is proved to do what module Panel
    says; calls to subscribers and submissions to the queue are returned in
    order. */
module Instance {
  import opened Bytes
  import opened Panel

  class Instance {
    const partitions: array<Partition>
    const zones: array<Zone>
    const outputs: array<Output>
    const users: array<User>
    const troubles: array<Option<Event>>
    const log: array<Option<Event>>
    const devices: array<Device>
    var refreshPending: bool
    var acFailure: bool
    var acFailureAt: int
    var sirenGo: byte
    var logLast: byte
    var deviceCount: byte
    var model: Model
    /** Whether light_info_changed_func is installed. */
    const listener: bool

    ghost const Repr: set<object> := {this, partitions, zones, outputs, users, troubles, log, devices}

    ghost predicate Valid()
      reads this, Repr
    {
      && troubles != log
      && Shape(View())
    }

    ghost function View(): Mirror
      reads this, Repr
    {
      Mirror(partitions[..], zones[..], outputs[..], users[..],
        refreshPending, acFailure, acFailureAt, sirenGo, troubles[..], log[..], logLast,
        devices[..], deviceCount, model)
    }

    constructor (listener: bool)
      ensures Valid() && fresh(Repr) && View() == BLANK && this.listener == listener
    {
      partitions := new Partition[PARTITIONS](_ => BLANK_PARTITION);
      zones := new Zone[ZONES](_ => BLANK_ZONE);
      outputs := new Output[OUTPUTS](_ => BLANK_OUTPUT);
      users := new User[USERS](_ => User(false, []));
      troubles := new Option<Event>[SYSTEM_TROUBLE_TYPES](_ => None);
      log := new Option<Event>[EVENT_LOG](_ => None);
      devices := new Device[DEVICES](_ => BLANK_DEVICE);
      refreshPending, acFailure, acFailureAt, sirenGo, logLast := false, false, 0, 0, 0;
      deviceCount, model := 0, Model(0, 0, 0, 0);
      this.listener := listener;
      hide Shape, NamesShape, PartitionShape;
      new;
      BlankIsShaped();
      assert partitions[..] == BLANK.partitions;
      assert zones[..] == BLANK.zones;
      assert outputs[..] == BLANK.outputs;
      assert users[..] == BLANK.users;
      assert troubles[..] == BLANK.troubles;
      assert log[..] == BLANK.log;
      assert devices[..] == BLANK.devices;
    }

    /** Assigns fields of one partition. */
    method Put(i: byte, q: Partition)
      requires Valid() && i < PARTITIONS && PartitionShape(q)
      modifies partitions
      ensures Valid() && View() == SetPartition(old(View()), i, q)
    {
      partitions[i] := q;
      assert partitions[..] == old(partitions[..])[i := q];
    }

    /** concordd_equipment_refresh, up to the request. */
    method EquipmentRefresh() returns (queued: seq<seq<byte>>)
      requires Valid()
      modifies this`refreshPending, this`deviceCount, zones, partitions, outputs, devices
      ensures Valid() && Effect(View(), [], queued) == Refresh(old(View()))
    {
      refreshPending := true;
      deviceCount := 0;
      DeactivateZones();
      DeactivatePartitions();
      DeactivateOutputs();
      DeactivateDevices();
      queued := [[EQUIP_LIST_REQUEST]];
      ghost var after := Refreshed(old(View()));
      RefreshedIsShaped(old(View()));
      hide Shape;
      assert zones[..] == after.zones && partitions[..] == after.partitions && outputs[..] == after.outputs;
      assert devices[..] == after.devices;
    }

    method DeactivateZones()
      modifies zones
      ensures forall k :: 0 <= k < zones.Length ==> zones[k] == old(zones[k]).(active := false)
    {
      var i := 0;
      while i < zones.Length
        invariant 0 <= i <= zones.Length
        invariant forall k :: 0 <= k < zones.Length ==>
                  zones[k] == if k < i then old(zones[k]).(active := false) else old(zones[k])
      {
        zones[i] := zones[i].(active := false);
        i := i + 1;
      }
    }

    method DeactivatePartitions()
      modifies partitions
      ensures forall k :: 0 <= k < partitions.Length ==>
                partitions[k] == old(partitions[k]).(active := false, entryDelay := false, exitDelay := false)
    {
      var i := 0;
      while i < partitions.Length
        invariant 0 <= i <= partitions.Length
        invariant forall k :: 0 <= k < partitions.Length ==>
                  partitions[k] == if k < i
                                   then old(partitions[k]).(active := false, entryDelay := false, exitDelay := false)
                                   else old(partitions[k])
      {
        partitions[i] := partitions[i].(active := false);
        partitions[i] := partitions[i].(entryDelay := false);
        partitions[i] := partitions[i].(exitDelay := false);
        i := i + 1;
      }
    }

    method DeactivateOutputs()
      modifies outputs
      ensures forall k :: 0 <= k < outputs.Length ==> outputs[k] == old(outputs[k]).(active := false)
    {
      var i := 0;
      while i < outputs.Length
        invariant 0 <= i <= outputs.Length
        invariant forall k :: 0 <= k < outputs.Length ==>
                  outputs[k] == if k < i then old(outputs[k]).(active := false) else old(outputs[k])
      {
        outputs[i] := outputs[i].(active := false);
        i := i + 1;
      }
    }

    method DeactivateDevices()
      modifies devices
      ensures forall k :: 0 <= k < devices.Length ==> devices[k] == old(devices[k]).(active := false)
    {
      var i := 0;
      while i < devices.Length
        invariant 0 <= i <= devices.Length
        invariant forall k :: 0 <= k < devices.Length ==>
                  devices[k] == if k < i then old(devices[k]).(active := false) else old(devices[k])
      {
        devices[i] := devices[i].(active := false);
        i := i + 1;
      }
    }

    /** concordd_handle_alarm, from the event record on. */
    method HandleAlarm(f: Frame, now: int) returns (notes: seq<Note>)
      requires Valid()
      modifies this`logLast, this`acFailure, this`acFailureAt, log, troubles, partitions, outputs
      ensures Valid() && Effect(View(), notes, []) == Panel.HandleAlarm(old(View()), f, now)
    {
      var event := EventOf(f, now);
      var i := event.partitionId;
      logLast := (logLast + 1) % EVENT_LOG;
      log[logLast] := Some(event);
      assert log[..] == old(log[..])[logLast := Some(event)];
      ghost var logged := View();
      assert logged == Logged(old(View()), event);
      notes := Tabulate(event, SourceOf(f), now);
      if !IsOutputReport(event) {
        notes := notes + [Dispatched(event)];
      } else {
        assert notes + [] == notes;
      }
    }

    method Tabulate(e: Event, source: int, now: int) returns (notes: seq<Note>)
      requires Valid()
      modifies this`acFailure, this`acFailureAt, troubles, partitions, outputs
      ensures Valid() && (View(), notes) == Tabled(old(View()), e, source, now)
    {
      notes := [];
      var i := e.partitionId;
      if IsSystemTrouble(e.general) {
        if e.specific < SYSTEM_TROUBLE_TYPES {
          troubles[e.specific] := Some(e);
          assert troubles[..] == old(troubles[..])[e.specific := Some(e)];
        }
        if e.specific == MAIN_AC_FAIL {
          acFailure := e.general == SYSTEM_TROUBLE;
          acFailureAt := now;
          notes := [InstanceChanged({AC_POWER_FAILURE_CHANGED})];
        }
      } else if IsAlarm(e.general) {
        if i < PARTITIONS && e.specific < ALARM_TYPES {
          Put(i, partitions[i].(alarms := partitions[i].alarms[e.specific := Some(e)]));
        }
      } else if IsTrouble(e.general) {
        if i < PARTITIONS && e.specific < TROUBLE_TYPES {
          Put(i, partitions[i].(troubles := partitions[i].troubles[e.specific := Some(e)]));
        }
      } else if e.general == SYSTEM_CONFIG_CHANGE {
        if i < PARTITIONS && e.specific <= 2 {
          Put(i, partitions[i].(programming := e.specific == 0));
          notes := [InstanceChanged({PROGRAMMING_MODE_CHANGED})];
        }
      } else if IsOutputReport(e) {
        var on: byte := if e.specific == OUTPUT_ON then 1 else 0;
        var o := e.extra;
        if 0 <= o < OUTPUTS && outputs[o].state != on {
          outputs[o] := outputs[o].(active := true, state := on, partitionId := i);
          outputs[o] := outputs[o].(changedAt := now, changedBy := source);
          notes := [OutputChanged(o, {STATE_CHANGED, LAST_CHANGED_AT_CHANGED, LAST_CHANGED_BY_CHANGED})];
          assert outputs[..] == old(outputs[..])[o := outputs[o]];
        }
      }
    }

    method HandleSirenSetup(f: Frame, now: int) returns (notes: seq<Note>)
      requires Valid() && f.data[1] == SIREN_SETUP && TouchpadInBounds(f)
      modifies this`sirenGo, partitions
      ensures Valid() && Effect(View(), notes, []) == Panel.HandleSubcmd(old(View()), f, now)
    {
      hide NamesShape, Long;
      notes := [];
      var i := f.data[2];
      if i < PARTITIONS {
        Put(i, partitions[i].(active := true));
        sirenGo := i;
        Put(i, partitions[i].(sirenRepeat := f.data[4]));
        Put(i, partitions[i].(sirenCadence := Long(f.data[5], f.data[6], f.data[7], f.data[8])));
        Put(i, partitions[i].(sirenStartedAt := now));
        if partitions[i].sirenRepeat == 0 {
          notes := [PartitionChanged(i, SIREN_MASK)];
        }
      }
    }

    method HandleTouchpadDisplay(f: Frame, now: int) returns (notes: seq<Note>)
      requires Valid() && f.data[1] == TOUCHPAD_DISPLAY && TouchpadInBounds(f)
      modifies partitions
      ensures Valid() && Effect(View(), notes, []) == Panel.HandleSubcmd(old(View()), f, now)
    {
      hide NamesShape;
      notes := [];
      var i := f.data[2];
      if i < PARTITIONS {
        var text := f.data[5..f.length];
        var textChanged := |partitions[i].touchpadText| != |text| || partitions[i].touchpadText != text;
        Put(i, partitions[i].(active := true));
        Put(i, partitions[i].(touchpadText := text));
        if textChanged {
          notes := [PartitionChanged(i, {TOUCHPAD_TEXT_CHANGED})];
        }
      }
    }

    method HandleFeatureState(f: Frame, now: int) returns (notes: seq<Note>)
      requires Valid() && f.data[1] == FEATURE_STATE && TouchpadInBounds(f)
      modifies partitions
      ensures Valid() && Effect(View(), notes, []) == Panel.HandleSubcmd(old(View()), f, now)
    {
      hide NamesShape, Differing;
      notes := [];
      var i := f.data[2];
      if i < PARTITIONS {
        var was := partitions[i].features;
        Put(i, partitions[i].(features := f.data[4]));
        Put(i, partitions[i].(active := true));
        if was != f.data[4] {
          notes := [PartitionChanged(i, Differing(was, f.data[4]))];
        }
      }
    }

    method HandleSubcmd(f: Frame, now: int) returns (notes: seq<Note>)
      requires Valid() && TouchpadInBounds(f)
      modifies this`logLast, this`acFailure, this`acFailureAt, this`sirenGo, this`refreshPending
      modifies log, troubles, partitions, outputs
      ensures Valid() && Effect(View(), notes, []) == Panel.HandleSubcmd(old(View()), f, now)
    {
      hide EventOf, Tabled, Logged, NamesShape, Bit, Long, Word, Differing;
      notes := [];
      var i := f.data[2];
      if f.data[1] == SIREN_SETUP {
        notes := HandleSirenSetup(f, now);
      } else if f.data[1] == SIREN_STOP {
        if i < PARTITIONS {
          Put(i, partitions[i].(sirenCadence := 0));
          notes := [PartitionChanged(i, {SIREN_CADENCE_CHANGED})];
        }
      } else if f.data[1] == SIREN_GO {
        if sirenGo < PARTITIONS && partitions[sirenGo].sirenCadence != 0 {
          notes := [PartitionChanged(sirenGo, SIREN_MASK)];
        }
      } else if f.data[1] == SIREN_SYNC {
        notes := [SirenSync];
      } else if f.data[1] == TOUCHPAD_DISPLAY {
        notes := HandleTouchpadDisplay(f, now);
      } else if f.data[1] == LEVEL {
        if i < PARTITIONS {
          Put(i, partitions[i].(active := true, armLevel := f.data[6], armLevelUser := Word(f.data[4], f.data[5]),
                                armLevelAt := now, entryDelay := false));
          notes := [PartitionChanged(i, {ARM_LEVEL_CHANGED})];
        }
      } else if f.data[1] == ALARM_TROUBLE {
        notes := HandleAlarm(f, now);
        return;
      } else if f.data[1] == ENTRY_EXIT_DELAY {
        if i < PARTITIONS {
          var newValue := !Bit(f.data[4], 7);
          if Bit(f.data[4], 6) {
            Put(i, partitions[i].(exitDelay := newValue));
          } else {
            Put(i, partitions[i].(entryDelay := newValue));
          }
        }
      } else if f.data[1] == FEATURE_STATE {
        notes := HandleFeatureState(f, now);
      } else if f.data[1] == TIME_AND_DATE {
        refreshPending := false;
      } else if i < PARTITIONS {
        assert partitions[..] == old(partitions[..])[i := partitions[i]];
      }
    }

    /** The LIGHTS_STATE branch.  When the subscriber is called the lights have
        their final values, so they are stored once. */
    method StoreLights(i: byte, bitmap: nat, now: int) returns (notes: seq<Note>)
      requires Valid() && i < PARTITIONS
      modifies partitions
      ensures Valid()
      ensures var (lights, told) := SetLights(old(View()).partitions[i].lights, bitmap, 0,
                                              refreshPending || !listener, now);
              && View() == SetPartition(old(View()), i, old(View()).partitions[i].(lights := lights))
              && notes == if told.Some? then [LightChanged(i, told.value)] else []
    {
      var lights, told := LoopOverLights(partitions[i].lights, bitmap, refreshPending, listener, now);
      Put(i, partitions[i].(lights := lights));
      notes := if told.Some? then [LightChanged(i, told.value)] else [];
    }

    method HandleSubcmd2(f: Frame, now: int) returns (notes: seq<Note>)
      requires Valid()
      modifies partitions, zones
      ensures Valid() && Effect(View(), notes, []) == Panel.HandleSubcmd2(old(View()), f, listener, now)
    {
      hide Panel.SetLights;
      notes := [];
      var i := f.data[2];
      if f.data[1] == LIGHTS_STATE {
        if i < PARTITIONS {
          notes := StoreLights(i, Word(f.data[5], f.data[4]), now);
        }
      } else if f.data[1] == USER_LIGHTS {
        if i < PARTITIONS && f.data[8] < LIGHTS {
          var light := partitions[i].lights[f.data[8]];
          light := light.(on := f.data[9] != 0, changedAt := now);
          Put(i, partitions[i].(lights := partitions[i].lights[f.data[8] := light]));
          if listener {
            notes := [LightChanged(i, f.data[8])];
          }
        }
      } else if f.data[1] == KEYFOB {
        var z := f.data[5];
        if z < ZONES && (zones[z].lastKc != f.data[6] || f.data[6] <= 3 || now != zones[z].lastKcAt) {
          zones[z] := zones[z].(lastKc := f.data[6]);
          zones[z] := zones[z].(lastKcAt := now, changedAt := now);
          zones[z] := zones[z].(active := true);
          notes := [ZoneChanged(z, {LAST_KC_CHANGED, LAST_KC_CHANGED_AT_CHANGED})];
          assert zones[..] == old(zones[..])[z := zones[z]];
        }
      }
    }

    method HandleZoneStatus(f: Frame, now: int) returns (notes: seq<Note>)
      requires Valid()
      modifies zones
      ensures Valid() && Effect(View(), notes, []) == Panel.HandleZoneStatus(old(View()), f, now)
    {
      notes := [];
      var i := Word(f.data[3], f.data[4]);
      if i < ZONES {
        var was := zones[i].state;
        zones[i] := zones[i].(state := f.data[5]);
        if Bit(f.data[5], 0) && !Bit(was, 0) {
          zones[i] := zones[i].(trippedAt := now);
        }
        if was != f.data[5] && zones[i].active {
          zones[i] := zones[i].(changedAt := now);
          notes := [ZoneChanged(i, Differing(was, f.data[5]))];
        }
        zones[i] := zones[i].(active := true);
        assert zones[..] == old(zones[..])[i := zones[i]];
      }
    }

    method HandleZoneData(f: Frame) returns (notes: seq<Note>)
      requires Valid() && ZoneNameInBounds(f)
      modifies zones
      ensures Valid() && Effect(View(), notes, []) == Panel.HandleZoneData(old(View()), f)
    {
      notes := [];
      var i := Word(f.data[4], f.data[5]);
      if i < ZONES {
        hide Bit, Differing;
        var z, changes := UpdatedZone(zones[i], f);
        if changes != {} && z.active {
          notes := [ZoneChanged(i, changes)];
        }
        zones[i] := z.(active := true);
        assert zones[..] == old(zones[..])[i := zones[i]];
      }
    }

    method HandlePartitionData(f: Frame) returns (notes: seq<Note>)
      requires Valid()
      modifies partitions
      ensures Valid() && Effect(View(), notes, []) == Panel.HandlePartitionData(old(View()), f)
    {
      notes := [];
      var i := f.data[1];
      if i < PARTITIONS {
        var was := partitions[i].armLevel;
        Put(i, partitions[i].(active := true, armLevel := f.data[3]));
        if was != f.data[3] {
          notes := [PartitionChanged(i, {ARM_LEVEL_CHANGED})];
        }
      }
    }

    method HandleUserData(f: Frame)
      requires Valid()
      modifies users
      ensures Valid() && Effect(View(), [], []) == Panel.HandleUserData(old(View()), f)
    {
      var i := Word(f.data[1], f.data[2]);
      if i < USERS {
        users[i] := User(true, PinText(f.data[4], f.data[5]));
        assert users[..] == old(users[..])[i := users[i]];
      }
    }

    method HandleOutputData(f: Frame)
      requires Valid() && OutputNameInBounds(f)
      modifies outputs
      ensures Valid() && Effect(View(), [], []) == Panel.HandleOutputData(old(View()), f)
    {
      var i := OutputIndex(f);
      if i < OUTPUTS {
        outputs[i] := outputs[i].(active := true, state := f.data[3] % 2, pulse := Bit(f.data[3], 1));
        outputs[i] := outputs[i].(idBytes := f.data[4..9]);
        outputs[i] := outputs[i].(name := f.data[9..f.length]);
        assert outputs[..] == old(outputs[..])[i := outputs[i]];
      }
    }

    method HandleDeviceData(f: Frame)
      requires Valid() && deviceCount < DEVICES
      modifies this`deviceCount, devices
      ensures Valid() && Effect(View(), [], []) == Panel.HandleDeviceData(old(View()), f)
    {
      var k := deviceCount;
      deviceCount := deviceCount + 1;
      devices[k] := devices[k].(active := true, id := Long(0, f.data[3], f.data[4], f.data[5]), status := f.data[6]);
      assert devices[..] == old(devices[..])[k := devices[k]];
    }

    /** concordd_get_device. */
    method GetDevice(id: nat) returns (k: Option<nat>)
      requires Valid()
      ensures k == FindDevice(devices[..], deviceCount, id, 0)
    {
      var i := 0;
      while i < deviceCount
        invariant 0 <= i <= deviceCount
        invariant FindDevice(devices[..], deviceCount, id, i) == FindDevice(devices[..], deviceCount, id, 0)
      {
        if devices[i].active && devices[i].id == id {
          return Some(i);
        }
        i := i + 1;
      }
      k := None;
    }

    method HandleCapabilityData(f: Frame)
      requires Valid() && CapabilityInBounds(View(), f)
      modifies devices
      ensures Valid() && Effect(View(), [], []) == Panel.HandleCapabilityData(old(View()), f)
    {
      var k := GetDevice(Long(0, f.data[1], f.data[2], f.data[3]));
      if k.Some? {
        var cap, data := f.data[4], f.data[5];
        devices[k.value] := devices[k.value].(caps := devices[k.value].caps + {cap});
        if cap == INPUT_ZONES {
          devices[k.value] := devices[k.value].(inputs := data);
        } else if cap == RELAY_OUTPUTS {
          devices[k.value] := devices[k.value].(outputs := data);
        }
        assert devices[..] == old(devices[..])[k.value := devices[k.value]];
      }
    }

    method HandlePanelType(f: Frame)
      requires Valid()
      modifies this`model
      ensures Valid() && Effect(View(), [], []) == Panel.HandlePanelType(old(View()), f)
    {
      model := Model(f.data[1], Word(f.data[2], f.data[3]), Word(f.data[4], f.data[5]),
                     Long(f.data[6], f.data[7], f.data[8], f.data[9]));
    }

    method HandleLightToSensorData(f: Frame)
      requires Valid()
      modifies partitions
      ensures Valid() && Effect(View(), [], []) == Panel.HandleLightToSensorData(old(View()), f)
    {
      var i := f.data[1];
      if i < PARTITIONS {
        ghost var before := View();
        ghost var was := partitions[i];
        Put(i, partitions[i].(active := true));
        var lights := partitions[i].lights;
        var k := 1;
        while k < LIGHTS
          modifies partitions
          invariant 1 <= k <= LIGHTS && |lights| == LIGHTS
          invariant forall j :: 0 <= j < LIGHTS ==>
                    lights[j] == if 1 <= j < k then was.lights[j].(zoneId := f.data[2 + j]) else was.lights[j]
          invariant Valid() && View() == SetPartition(before, i, was.(active := true, lights := lights))
        {
          lights := lights[k := lights[k].(zoneId := f.data[2 + k])];
          Put(i, partitions[i].(lights := lights));
          k := k + 1;
        }
        assert lights == Panel.HandleLightToSensorData(before, f).panel.partitions[i].lights;
      }
    }

    /** concordd_handle_frame. */
    method HandleFrame(f: Frame, now: int) returns (notes: seq<Note>, queued: seq<seq<byte>>)
      requires Valid() && FrameInBounds(View(), f)
      modifies Repr
      ensures Valid() && Effect(View(), notes, queued) == Handle(old(View()), f, listener, now)
    {
      hide Panel.HandleSubcmd, Panel.HandleSubcmd2, Panel.HandleZoneStatus, Panel.HandleZoneData, Refresh;
      hide Panel.HandlePartitionData, Panel.HandleUserData, Panel.HandleOutputData, Shape;
      hide Panel.HandleLightToSensorData;
      notes, queued := [], [];
      if f.data[0] == SUBCMD {
        notes := HandleSubcmd(f, now);
      } else if f.data[0] == SUBCMD2 {
        notes := HandleSubcmd2(f, now);
      } else if f.data[0] == CLEAR_IMAGE {
        queued := EquipmentRefresh();
      } else if f.data[0] == LIST_COMPLETE {
        queued := [[DYNAMIC_DATA_REFRESH]];
      } else if f.data[0] == ZONE_STATUS {
        notes := HandleZoneStatus(f, now);
      } else if f.data[0] == ZONE_DATA {
        notes := HandleZoneData(f);
      } else if f.data[0] == PARTITION_DATA {
        notes := HandlePartitionData(f);
      } else if f.data[0] == USER_DATA {
        HandleUserData(f);
      } else if f.data[0] == OUTPUT_DATA {
        HandleOutputData(f);
      } else if f.data[0] == LIGHT_TO_SENSOR_DATA {
        HandleLightToSensorData(f);
      } else if f.data[0] == BUS_DEVICE_DATA {
        HandleDeviceData(f);
      } else if f.data[0] == BUS_CAPABILITY_DATA {
        HandleCapabilityData(f);
      } else if f.data[0] == PANEL_TYPE {
        HandlePanelType(f);
      }
    }
  }

  /** The loop over the lights of a LIGHTS_STATE frame. */
  method LoopOverLights(given: seq<Light>, bitmap: nat, refreshPending: bool, listener: bool, now: int)
    returns (lights: seq<Light>, told: Option<nat>)
    requires |given| == LIGHTS
    ensures (lights, told) == SetLights(given, bitmap, 0, refreshPending || !listener, now)
  {
    hide Bit;
    lights, told := given, None;
    var i := 0;
    while i < LIGHTS
      invariant 0 <= i <= LIGHTS && |lights| == LIGHTS && told == None
      invariant SetLights(lights, bitmap, i, refreshPending || !listener, now)
             == SetLights(given, bitmap, 0, refreshPending || !listener, now)
    {
      var light := lights[i];
      if light.on != Bit(bitmap, i) {
        lights := lights[i := light.(on := !light.on, changedAt := now)];
        if !refreshPending && light.changedAt != 0 && listener {
          told := Some(i);
          return;
        }
      }
      i := i + 1;
    }
  }

  /** Field by field, what a zone data frame says of zone z, and the mask of what is new. */
  method UpdatedZone(was: Zone, f: Frame) returns (z: Zone, changes: Mask)
    requires 8 <= f.length
    ensures z == was.(partitionId := f.data[1], group := f.data[3], kind := f.data[6], state := f.data[7],
                      name := f.data[8..f.length])
    ensures changes == (if was.partitionId != f.data[1] then {PARTITION_ID_CHANGED} else {})
                     + (if was.group != f.data[3] then {ZONE_GROUP_CHANGED} else {})
                     + (if was.kind != f.data[6] then {ZONE_TYPE_CHANGED} else {})
                     + Differing(was.state, f.data[7])
  {
    z, changes := was, {};
    if z.partitionId != f.data[1] {
      changes := changes + {PARTITION_ID_CHANGED};
      z := z.(partitionId := f.data[1]);
    }
    if z.group != f.data[3] {
      changes := changes + {ZONE_GROUP_CHANGED};
      z := z.(group := f.data[3]);
    }
    if z.kind != f.data[6] {
      changes := changes + {ZONE_TYPE_CHANGED};
      z := z.(kind := f.data[6]);
    }
    SameDiffersNowhere(f.data[7]);
    hide Differing;
    if z.state != f.data[7] {
      changes := changes + Differing(z.state, f.data[7]);
      z := z.(state := f.data[7]);
    }
    z := z.(name := f.data[8..f.length]);
  }

  lemma SameDiffersNowhere(a: byte)
    ensures Differing(a, a) == {}
  {
  }
}
