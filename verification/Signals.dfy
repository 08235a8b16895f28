/** Change notifications as dictionaries.

    A subscriber is sent the flagged fields of a zone or partition and nothing else.
    The dictionary is put together entry by entry, as the flags are looked at. */
module Signals {
  import opened Bytes
  import opened Panel

  datatype Field =
    | PartitionId | Kind | Group | Flag(k: nat) | TrippedAt | Name | LastKc | LastKcAt
    | ArmLevelField | ArmLevelUser | Feature(k: nat) | TouchpadText
    | SirenRepeat | SirenCadence | SirenStartedAt | Programming

  /** Texts stand for their rendering, and users for their names. */
  datatype Value = Number(n: int) | Truth(b: bool) | Text(t: seq<byte>) | UserName(u: int) | Bits(bits: seq<bool>)

  type Dict = map<Field, Value>

  const ZONE_FIELDS: set<Field> :=
    {TrippedAt, Name, PartitionId, Kind, Group, Flag(0), LastKc, LastKcAt, Flag(1), Flag(2), Flag(3), Flag(4)}

  const PARTITION_FIELDS: set<Field> :=
    {TouchpadText, SirenRepeat, Programming, SirenCadence, SirenStartedAt, ArmLevelField, ArmLevelUser,
     Feature(0), Feature(1), Feature(2), Feature(3), Feature(4), Feature(5)}

  const NAME_CHANGED := 1
  const LAST_TRIPPED_AT_CHANGED := 18

  const POWERS: seq<nat> :=
    [1, 2, 4, 8, 16, 32, 64, 128, 256, 512, 1024, 2048, 4096, 8192, 16384, 32768,
     65536, 131072, 262144, 524288, 1048576, 2097152, 4194304, 8388608,
     16777216, 33554432, 67108864, 134217728, 268435456, 536870912, 1073741824, 2147483648]

  /** Bit k of a 32-bit word. */
  predicate LongBit(x: nat, k: nat)
    requires k < 32
  {
    (x / POWERS[k]) % 2 == 1
  }

  /** A cadence, most significant bit first. */
  function Cadence(x: nat): (bits: seq<bool>)
    ensures |bits| == 32
  {
    seq(32, i requires 0 <= i < 32 => LongBit(x, 31 - i))
  }

  function ZoneValue(z: Zone, f: Field): Value {
    match f
    case PartitionId => Number(z.partitionId)
    case Kind => Number(z.kind)
    case Group => Number(z.group)
    case Flag(k) => if k < 8 then Truth(Bit(z.state, k)) else Number(0)
    case TrippedAt => Number(z.trippedAt)
    case Name => Text(z.name)
    case LastKc => Number(z.lastKc)
    case LastKcAt => Number(z.lastKcAt)
    case _ => Number(0)
  }

  function PartitionValue(q: Partition, f: Field): Value {
    match f
    case ArmLevelField => Number(q.armLevel)
    case ArmLevelUser => UserName(q.armLevelUser)
    case Feature(k) => if k < 8 then Truth(Bit(q.features, k)) else Number(0)
    case TouchpadText => Text(q.touchpadText)
    case SirenRepeat => Number(q.sirenRepeat)
    case SirenCadence => Bits(Cadence(q.sirenCadence))
    case SirenStartedAt => Number(q.sirenStartedAt)
    case Programming => Truth(q.programming)
    case _ => Number(0)
  }

  function ZoneInfo(z: Zone): Dict {
    map f | f in ZONE_FIELDS :: ZoneValue(z, f)
  }

  function PartitionInfo(q: Partition): Dict {
    map f | f in PARTITION_FIELDS :: PartitionValue(q, f)
  }

  /** Which mask bit announces a field. */
  function ZoneBit(f: Field): nat {
    match f
    case PartitionId => PARTITION_ID_CHANGED
    case Kind => ZONE_TYPE_CHANGED
    case Group => ZONE_GROUP_CHANGED
    case Flag(k) => 8 + k
    case TrippedAt => LAST_TRIPPED_AT_CHANGED
    case Name => NAME_CHANGED
    case LastKc => LAST_KC_CHANGED
    case LastKcAt => LAST_KC_CHANGED_AT_CHANGED
    case _ => 0
  }

  function PartitionBit(f: Field): nat {
    match f
    case ArmLevelField => ARM_LEVEL_CHANGED
    case ArmLevelUser => ARM_LEVEL_CHANGED
    case Feature(k) => 8 + k
    case TouchpadText => TOUCHPAD_TEXT_CHANGED
    case SirenRepeat => SIREN_REPEAT_CHANGED
    case SirenCadence => SIREN_CADENCE_CHANGED
    case SirenStartedAt => SIREN_STARTED_AT_CHANGED
    case Programming => PROGRAMMING_MODE_CHANGED
    case _ => 0
  }

  /** The fields of a dictionary that a mask announces. */
  function Announced(info: Dict, bit: Field -> nat, mask: Mask): Dict {
    map f | f in info && bit(f) in mask :: info[f]
  }

  function ZoneSignal(z: Zone, mask: Mask): Dict {
    Announced(ZoneInfo(z), ZoneBit, mask)
  }

  function PartitionSignal(q: Partition, mask: Mask): Dict {
    Announced(PartitionInfo(q), PartitionBit, mask)
  }

  // ----------------------------------------------------------- entry by entry

  /** A field is in a dictionary exactly if it is announced, and with this value. */
  predicate HasEntry(d: Dict, f: Field, announced: bool, value: Value) {
    (f in d <==> announced) && (f in d ==> d[f] == value)
  }

  /** The signal of a zone, with the numbers of the flags. */
  predicate SaysZone(d: Dict, z: Zone, changed: Mask) {
    && d.Keys <= {PartitionId, Name, Flag(0), Flag(1), Flag(2), Flag(3), Flag(4),
                  Kind, Group, TrippedAt, LastKc, LastKcAt}
    && HasEntry(d, PartitionId, 0 in changed, Number(z.partitionId))
    && HasEntry(d, Name, 1 in changed, Text(z.name))
    && HasEntry(d, Flag(0), 8 in changed, Truth(z.state % 2 == 1))
    && HasEntry(d, Flag(1), 9 in changed, Truth((z.state / 2) % 2 == 1))
    && HasEntry(d, Flag(2), 10 in changed, Truth((z.state / 4) % 2 == 1))
    && HasEntry(d, Flag(3), 11 in changed, Truth((z.state / 8) % 2 == 1))
    && HasEntry(d, Flag(4), 12 in changed, Truth((z.state / 16) % 2 == 1))
    && HasEntry(d, Kind, 16 in changed, Number(z.kind))
    && HasEntry(d, Group, 17 in changed, Number(z.group))
    && HasEntry(d, TrippedAt, 18 in changed, Number(z.trippedAt))
    && HasEntry(d, LastKc, 19 in changed, Number(z.lastKc))
    && HasEntry(d, LastKcAt, 20 in changed, Number(z.lastKcAt))
  }

  lemma ZoneSignalSays(z: Zone, changed: Mask)
    ensures SaysZone(ZoneSignal(z, changed), z, changed)
  {
    ZoneEntries(z);
    FlagBits(z.state);
    hide ZoneInfo, Bit;
  }

  lemma FlagBits(x: byte)
    ensures Bit(x, 0) == (x % 2 == 1) && Bit(x, 1) == ((x / 2) % 2 == 1) && Bit(x, 2) == ((x / 4) % 2 == 1)
    ensures Bit(x, 3) == ((x / 8) % 2 == 1) && Bit(x, 4) == ((x / 16) % 2 == 1) && Bit(x, 5) == ((x / 32) % 2 == 1)
  {
  }

  /** A word in 32 bits, the highest first. */
  predicate Spells(value: Value, x: nat) {
    value.Bits? && |value.bits| == 32 && forall k :: 0 <= k < 32 ==> value.bits[31 - k] == ((x / POWERS[k]) % 2 == 1)
  }

  /** The signal of a partition, with the numbers of the flags. */
  predicate SaysPartition(d: Dict, q: Partition, changed: Mask) {
    && d.Keys <= {Feature(0), Feature(1), Feature(2), Feature(3), Feature(4), Feature(5), ArmLevelField, ArmLevelUser,
                  TouchpadText, SirenRepeat, SirenCadence, SirenStartedAt, Programming}
    && HasEntry(d, Feature(0), 8 in changed, Truth(q.features % 2 == 1))
    && HasEntry(d, Feature(1), 9 in changed, Truth((q.features / 2) % 2 == 1))
    && HasEntry(d, Feature(2), 10 in changed, Truth((q.features / 4) % 2 == 1))
    && HasEntry(d, Feature(3), 11 in changed, Truth((q.features / 8) % 2 == 1))
    && HasEntry(d, Feature(4), 12 in changed, Truth((q.features / 16) % 2 == 1))
    && HasEntry(d, Feature(5), 13 in changed, Truth((q.features / 32) % 2 == 1))
    && HasEntry(d, ArmLevelField, 16 in changed, Number(q.armLevel))
    && HasEntry(d, ArmLevelUser, 16 in changed, UserName(q.armLevelUser))
    && HasEntry(d, TouchpadText, 17 in changed, Text(q.touchpadText))
    && HasEntry(d, SirenRepeat, 18 in changed, Number(q.sirenRepeat))
    && (SirenCadence in d <==> 19 in changed) && (SirenCadence in d ==> Spells(d[SirenCadence], q.sirenCadence))
    && HasEntry(d, SirenStartedAt, 23 in changed, Number(q.sirenStartedAt))
    && HasEntry(d, Programming, 24 in changed, Truth(q.programming))
  }

  lemma PartitionSignalSays(q: Partition, changed: Mask)
    ensures SaysPartition(PartitionSignal(q, changed), q, changed)
  {
    FlagBits(q.features);
    CadenceSpells(q.sirenCadence);
    PartitionSignalHas(q, changed);
    hide Bit, Cadence, Spells, POWERS, PartitionSignal;
  }

  lemma PartitionSignalHas(q: Partition, changed: Mask)
    ensures var d := PartitionSignal(q, changed);
            && d.Keys <= PARTITION_FIELDS
            && forall f :: f in PARTITION_FIELDS ==> HasEntry(d, f, PartitionBit(f) in changed, PartitionValue(q, f))
  {
    PartitionEntries(q);
    hide PartitionInfo, PartitionValue, PartitionBit, PARTITION_FIELDS;
  }

  lemma PowersDouble()
    ensures |POWERS| == 32 && POWERS[0] == 1 && forall k :: 0 <= k < 31 ==> POWERS[k + 1] == 2 * POWERS[k]
    ensures forall k :: 0 <= k < 16 ==> POWERS[k] == Pow2(k)
  {
  }

  /** The flags of a change are the bits that differ. */
  lemma DifferingByNumber(a: byte, b: byte, n: nat)
    ensures n in Differing(a, b) <==>
              8 <= n < 16 && (a as nat / POWERS[n - 8]) % 2 != (b as nat / POWERS[n - 8]) % 2
  {
    PowersDouble();
    if 8 <= n < 16 {
      assert Bit(a, n - 8) == ((a as nat / POWERS[n - 8]) % 2 == 1);
      assert Bit(b, n - 8) == ((b as nat / POWERS[n - 8]) % 2 == 1);
    }
    hide POWERS, Bit;
  }

  lemma CadenceSpells(x: nat)
    ensures Spells(Bits(Cadence(x)), x)
  {
  }

  /** The part of a signal for some of the fields. */
  function Entries(info: Dict, bit: Field -> nat, changed: Mask, fields: set<Field>): Dict {
    map f | f in info && f in fields && bit(f) in changed :: info[f]
  }

  lemma OneMoreEntry(info: Dict, bit: Field -> nat, changed: Mask, fields: set<Field>, f: Field)
    requires f in info
    ensures Entries(info, bit, changed, fields + {f})
         == if bit(f) in changed then Entries(info, bit, changed, fields)[f := info[f]]
            else Entries(info, bit, changed, fields)
  {
    var e := Entries(info, bit, changed, fields + {f});
    if bit(f) in changed {
      assert e.Keys == Entries(info, bit, changed, fields).Keys + {f};
    } else {
      assert e.Keys == Entries(info, bit, changed, fields).Keys;
    }
  }

  lemma AllEntries(info: Dict, bit: Field -> nat, changed: Mask, fields: set<Field>)
    requires info.Keys <= fields
    ensures Entries(info, bit, changed, fields) == Announced(info, bit, changed)
    ensures Entries(info, bit, changed, {}) == map[]
  {
    assert Entries(info, bit, changed, fields).Keys == Announced(info, bit, changed).Keys;
  }

  /** One entry, if its flag is set. */
  method AppendEntry(given: Dict, f: Field, value: Value, flag: nat, changed: Mask,
                     ghost info: Dict, ghost bit: Field -> nat, ghost fields: set<Field>) returns (dict: Dict)
    requires given == Entries(info, bit, changed, fields)
    requires f in info && info[f] == value && bit(f) == flag
    ensures dict == Entries(info, bit, changed, fields + {f})
  {
    hide Entries;
    OneMoreEntry(info, bit, changed, fields, f);
    dict := given;
    if flag in changed {
      dict := dict[f := value];
    }
  }

  lemma ZoneEntries(z: Zone)
    ensures ZoneInfo(z).Keys == ZONE_FIELDS && forall f :: f in ZONE_FIELDS ==> ZoneInfo(z)[f] == ZoneValue(z, f)
  {
    hide Bit, ZoneValue;
  }

  lemma PartitionEntries(q: Partition)
    ensures PartitionInfo(q).Keys == PARTITION_FIELDS
    ensures forall f :: f in PARTITION_FIELDS ==> PartitionInfo(q)[f] == PartitionValue(q, f)
  {
    hide Bit, PartitionValue;
  }

  /** The first six entries of a zone's signal ... */
  method AppendZoneFields(given: Dict, z: Zone, changed: Mask, ghost fields: set<Field>) returns (dict: Dict)
    requires given == Entries(ZoneInfo(z), ZoneBit, changed, fields)
    ensures dict == Entries(ZoneInfo(z), ZoneBit, changed,
                            fields + {TrippedAt} + {Name} + {PartitionId}
                            + {Kind} + {Group} + {Flag(0)})
  {
    ghost var info := ZoneInfo(z);
    ZoneEntries(z);
    hide Entries, ZoneInfo, Bit, Cadence;
    ghost var s := fields;
    dict := given;
    dict := AppendEntry(dict, TrippedAt, Number(z.trippedAt), LAST_TRIPPED_AT_CHANGED, changed, info, ZoneBit, s);
    s := s + {TrippedAt};
    dict := AppendEntry(dict, Name, Text(z.name), NAME_CHANGED, changed, info, ZoneBit, s);
    s := s + {Name};
    dict := AppendEntry(dict, PartitionId, Number(z.partitionId), PARTITION_ID_CHANGED, changed, info, ZoneBit, s);
    s := s + {PartitionId};
    dict := AppendEntry(dict, Kind, Number(z.kind), ZONE_TYPE_CHANGED, changed, info, ZoneBit, s);
    s := s + {Kind};
    dict := AppendEntry(dict, Group, Number(z.group), ZONE_GROUP_CHANGED, changed, info, ZoneBit, s);
    s := s + {Group};
    dict := AppendEntry(dict, Flag(0), Truth(Bit(z.state, 0)), 8, changed, info, ZoneBit, s);
  }

  /** ... and the last six. */
  method AppendZoneFlags(given: Dict, z: Zone, changed: Mask, ghost fields: set<Field>) returns (dict: Dict)
    requires given == Entries(ZoneInfo(z), ZoneBit, changed, fields)
    ensures dict == Entries(ZoneInfo(z), ZoneBit, changed,
                            fields + {LastKc} + {LastKcAt} + {Flag(1)}
                            + {Flag(2)} + {Flag(3)} + {Flag(4)})
  {
    ghost var info := ZoneInfo(z);
    ZoneEntries(z);
    hide Entries, ZoneInfo, Bit, Cadence;
    ghost var s := fields;
    dict := given;
    dict := AppendEntry(dict, LastKc, Number(z.lastKc), LAST_KC_CHANGED, changed, info, ZoneBit, s);
    s := s + {LastKc};
    dict := AppendEntry(dict, LastKcAt, Number(z.lastKcAt), LAST_KC_CHANGED_AT_CHANGED, changed, info, ZoneBit, s);
    s := s + {LastKcAt};
    dict := AppendEntry(dict, Flag(1), Truth(Bit(z.state, 1)), 9, changed, info, ZoneBit, s);
    s := s + {Flag(1)};
    dict := AppendEntry(dict, Flag(2), Truth(Bit(z.state, 2)), 10, changed, info, ZoneBit, s);
    s := s + {Flag(2)};
    dict := AppendEntry(dict, Flag(3), Truth(Bit(z.state, 3)), 11, changed, info, ZoneBit, s);
    s := s + {Flag(3)};
    dict := AppendEntry(dict, Flag(4), Truth(Bit(z.state, 4)), 12, changed, info, ZoneBit, s);
  }

  lemma ZoneFieldsInOrder()
    ensures var none: set<Field> := {};
            var half := {TrippedAt} + {Name} + {PartitionId} + {Kind}
                      + {Group} + {Flag(0)};
            && none + {TrippedAt} + {Name} + {PartitionId} + {Kind}
               + {Group} + {Flag(0)} == half
            && half + {LastKc} + {LastKcAt} + {Flag(1)} + {Flag(2)} + {Flag(3)} + {Flag(4)} == ZONE_FIELDS
  {
  }

  /** The signal of a zone. */
  method BuildZoneSignal(z: Zone, changed: Mask) returns (dict: Dict)
    ensures dict == ZoneSignal(z, changed)
    ensures SaysZone(dict, z, changed)
  {
    ZoneSignalSays(z, changed);
    hide Entries, ZoneInfo, Announced, SaysZone;
    ZoneEntries(z);
    AllEntries(ZoneInfo(z), ZoneBit, changed, ZONE_FIELDS);
    ZoneFieldsInOrder();
    hide ZONE_FIELDS;
    dict := AppendZoneFields(map[], z, changed, {});
    dict := AppendZoneFlags(dict, z, changed, {TrippedAt} + {Name} + {PartitionId} + {Kind} + {Group} + {Flag(0)});
  }

  /** The loop that writes a cadence out. */
  method WriteCadence(x: nat) returns (bits: seq<bool>)
    ensures bits == Cadence(x)
  {
    hide LongBit;
    bits := [];
    var i := 0;
    while i < 32
      invariant 0 <= i <= 32 && bits == Cadence(x)[..i]
    {
      bits := bits + [LongBit(x, 31 - i)];
      i := i + 1;
    }
  }

  /** The first seven entries of a partition's signal ... */
  method AppendPartitionFields(given: Dict, q: Partition, changed: Mask, ghost fields: set<Field>) returns (dict: Dict)
    requires given == Entries(PartitionInfo(q), PartitionBit, changed, fields)
    ensures dict == Entries(PartitionInfo(q), PartitionBit, changed,
                            fields + {TouchpadText} + {SirenRepeat} + {Programming} + {SirenCadence}
                            + {SirenStartedAt} + {ArmLevelField} + {ArmLevelUser})
  {
    ghost var info := PartitionInfo(q);
    PartitionEntries(q);
    hide Entries, PartitionInfo, Bit, Cadence;
    ghost var s := fields;
    dict := given;
    var bits := WriteCadence(q.sirenCadence);
    dict := AppendEntry(dict, TouchpadText, Text(q.touchpadText), TOUCHPAD_TEXT_CHANGED, changed,
                        info, PartitionBit, s);
    s := s + {TouchpadText};
    dict := AppendEntry(dict, SirenRepeat, Number(q.sirenRepeat), SIREN_REPEAT_CHANGED, changed, info, PartitionBit, s);
    s := s + {SirenRepeat};
    dict := AppendEntry(dict, Programming, Truth(q.programming), PROGRAMMING_MODE_CHANGED, changed,
                        info, PartitionBit, s);
    s := s + {Programming};
    dict := AppendEntry(dict, SirenCadence, Bits(bits), SIREN_CADENCE_CHANGED, changed, info, PartitionBit, s);
    s := s + {SirenCadence};
    dict := AppendEntry(dict, SirenStartedAt, Number(q.sirenStartedAt), SIREN_STARTED_AT_CHANGED, changed,
                        info, PartitionBit, s);
    s := s + {SirenStartedAt};
    dict := AppendEntry(dict, ArmLevelField, Number(q.armLevel), ARM_LEVEL_CHANGED, changed, info, PartitionBit, s);
    s := s + {ArmLevelField};
    dict := AppendEntry(dict, ArmLevelUser, UserName(q.armLevelUser), ARM_LEVEL_CHANGED, changed,
                        info, PartitionBit, s);
  }

  /** ... and the six features. */
  method AppendFeatures(given: Dict, q: Partition, changed: Mask, ghost fields: set<Field>) returns (dict: Dict)
    requires given == Entries(PartitionInfo(q), PartitionBit, changed, fields)
    ensures dict == Entries(PartitionInfo(q), PartitionBit, changed,
                            fields + {Feature(0)} + {Feature(1)} + {Feature(2)}
                            + {Feature(3)} + {Feature(4)} + {Feature(5)})
  {
    ghost var info := PartitionInfo(q);
    PartitionEntries(q);
    hide Entries, PartitionInfo, Bit, Cadence;
    ghost var s := fields;
    dict := given;
    dict := AppendEntry(dict, Feature(0), Truth(Bit(q.features, 0)), 8, changed, info, PartitionBit, s);
    s := s + {Feature(0)};
    dict := AppendEntry(dict, Feature(1), Truth(Bit(q.features, 1)), 9, changed, info, PartitionBit, s);
    s := s + {Feature(1)};
    dict := AppendEntry(dict, Feature(2), Truth(Bit(q.features, 2)), 10, changed, info, PartitionBit, s);
    s := s + {Feature(2)};
    dict := AppendEntry(dict, Feature(3), Truth(Bit(q.features, 3)), 11, changed, info, PartitionBit, s);
    s := s + {Feature(3)};
    dict := AppendEntry(dict, Feature(4), Truth(Bit(q.features, 4)), 12, changed, info, PartitionBit, s);
    s := s + {Feature(4)};
    dict := AppendEntry(dict, Feature(5), Truth(Bit(q.features, 5)), 13, changed, info, PartitionBit, s);
  }

  lemma PartitionFieldsInOrder()
    ensures var none: set<Field> := {};
            var half := {TouchpadText} + {SirenRepeat} + {Programming} + {SirenCadence}
                      + {SirenStartedAt} + {ArmLevelField} + {ArmLevelUser};
            && none + {TouchpadText} + {SirenRepeat} + {Programming} + {SirenCadence}
               + {SirenStartedAt} + {ArmLevelField} + {ArmLevelUser} == half
            && half + {Feature(0)} + {Feature(1)} + {Feature(2)} + {Feature(3)} + {Feature(4)} + {Feature(5)}
               == PARTITION_FIELDS
  {
  }

  /** The signal of a partition. */
  method BuildPartitionSignal(q: Partition, changed: Mask) returns (dict: Dict)
    ensures dict == PartitionSignal(q, changed)
    ensures SaysPartition(dict, q, changed)
  {
    PartitionSignalSays(q, changed);
    hide Entries, PartitionInfo, Announced, SaysPartition;
    PartitionEntries(q);
    AllEntries(PartitionInfo(q), PartitionBit, changed, PARTITION_FIELDS);
    PartitionFieldsInOrder();
    hide PARTITION_FIELDS;
    dict := AppendPartitionFields(map[], q, changed, {});
    dict := AppendFeatures(dict, q, changed, {TouchpadText} + {SirenRepeat} + {Programming} + {SirenCadence}
                    + {SirenStartedAt} + {ArmLevelField} + {ArmLevelUser});
  }
}
