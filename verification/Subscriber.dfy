/** A subscriber's copy, told by the history.

    Module Replica compares copies with the tables; here the followed entries are
    named one by one, as the last things the panel has said. */
module Subscriber {
  import opened Bytes
  import opened Panel
  import opened History
  import opened Chronicle
  import opened Signals
  import opened Replica

  /** The entries a partition's subscriber follows. */
  predicate PartitionDict(d: Dict, level: byte, user: int, features: byte, text: seq<byte>) {
    && d.Keys == {Feature(0), Feature(1), Feature(2), Feature(3), Feature(4), Feature(5),
                  ArmLevelField, ArmLevelUser, TouchpadText}
    && d[Feature(0)] == Truth(features % 2 == 1)
    && d[Feature(1)] == Truth((features / 2) % 2 == 1)
    && d[Feature(2)] == Truth((features / 4) % 2 == 1)
    && d[Feature(3)] == Truth((features / 8) % 2 == 1)
    && d[Feature(4)] == Truth((features / 16) % 2 == 1)
    && d[Feature(5)] == Truth((features / 32) % 2 == 1)
    && d[ArmLevelField] == Number(level) && d[ArmLevelUser] == UserName(user) && d[TouchpadText] == Text(text)
  }

  /** The entries a zone's subscriber follows. */
  predicate ZoneDict(d: Dict, partition: byte, kind: byte, group: byte, state: byte) {
    && d.Keys == {PartitionId, Kind, Group, Flag(0), Flag(1), Flag(2), Flag(3), Flag(4)}
    && d[PartitionId] == Number(partition) && d[Kind] == Number(kind) && d[Group] == Number(group)
    && d[Flag(0)] == Truth(state % 2 == 1)
    && d[Flag(1)] == Truth((state / 2) % 2 == 1)
    && d[Flag(2)] == Truth((state / 4) % 2 == 1)
    && d[Flag(3)] == Truth((state / 8) % 2 == 1)
    && d[Flag(4)] == Truth((state / 16) % 2 == 1)
  }

  predicate TellsPartition(d: Dict, h: seq<Input>, i: nat) {
    PartitionDict(d, ArmLevel(h, i), StoryIn(h, i).armedBy.0, StoryIn(h, i).features, StoryIn(h, i).text)
  }

  predicate TellsZone(d: Dict, h: seq<Input>, z: nat) {
    ZoneDict(d, ZonePartition(h, z), ZoneStoryIn(h, z).kind, ZoneStoryIn(h, z).group, ZoneState(h, z))
  }

  lemma CopyIsPartitionDict(q: Partition)
    ensures PartitionDict(PartitionCopy(q), q.armLevel, q.armLevelUser, q.features, q.touchpadText)
  {
    FlagBits(q.features);
    hide Bit, Cadence;
  }

  lemma OnePartitionDict(a: Dict, b: Dict, level: byte, user: int, features: byte, text: seq<byte>)
    requires PartitionDict(a, level, user, features, text) && PartitionDict(b, level, user, features, text)
    ensures a == b
  {
    assert a.Keys == b.Keys;
    forall f | f in a ensures a[f] == b[f] {
    }
  }

  lemma PartitionDictIsCopy(d: Dict, q: Partition)
    ensures PartitionDict(d, q.armLevel, q.armLevelUser, q.features, q.touchpadText) <==> d == PartitionCopy(q)
  {
    CopyIsPartitionDict(q);
    hide PartitionDict, PartitionCopy;
    if PartitionDict(d, q.armLevel, q.armLevelUser, q.features, q.touchpadText) {
      OnePartitionDict(d, PartitionCopy(q), q.armLevel, q.armLevelUser, q.features, q.touchpadText);
    }
  }

  lemma ZoneDictIsCopy(d: Dict, q: Zone)
    ensures ZoneDict(d, q.partitionId, q.kind, q.group, q.state) <==> d == ZoneCopy(q)
  {
    FlagBits(q.state);
    hide Bit, Cadence;
    var copy := ZoneCopy(q);
    assert ZoneDict(copy, q.partitionId, q.kind, q.group, q.state);
    if ZoneDict(d, q.partitionId, q.kind, q.group, q.state) {
      assert d.Keys == copy.Keys;
      forall f | f in d ensures d[f] == copy[f] {
      }
    }
  }

  lemma TellsIsPartitionCopy(d: Dict, h: seq<Input>, listener: bool, i: nat)
    requires i < PARTITIONS && Bounded(h, listener)
    ensures TellsPartition(d, h, i) <==> d == PartitionCopy(After(h, listener).partitions[i])
  {
    StoryAfter(h, listener, i);
    AfterHistory(h, listener);
    var q := After(h, listener).partitions[i];
    assert FactsOf(q) == FactsIn(h, i);
    PartitionDictIsCopy(d, q);
    hide After, Bounded, StoryIn, ArmLevel, RowsTell, PartitionDict, PartitionCopy;
  }

  lemma TellsIsZoneCopy(d: Dict, h: seq<Input>, listener: bool, z: nat)
    requires z < ZONES && Bounded(h, listener)
    ensures TellsZone(d, h, z) <==> d == ZoneCopy(After(h, listener).zones[z])
  {
    ZoneStoryAfter(h, listener, z);
    AfterHistory(h, listener);
    ZoneDictIsCopy(d, After(h, listener).zones[z]);
    hide After, Bounded, ZoneStoryIn, FactsIn, PinOf, RefreshDue, ZoneState, ZonePartition, ZoneDict, ZoneCopy;
  }

  /** Following is the history going on. */
  lemma {:induction false} FollowGoesOn(h: seq<Input>, more: seq<Input>, c: Copies, listener: bool)
    requires Bounded(h + more, listener) && CopiesShape(c)
    ensures Bounded(h, listener) && BoundedFrom(After(h, listener), c, more, listener)
    ensures Follow(After(h, listener), c, more, listener).0 == After(h + more, listener)
  {
    if more == [] {
      assert h + more == h;
    } else {
      hide React, InBounds, CopyAll;
      var all := h + more;
      assert all[..|all| - 1] == h + Init(more) && all[|all| - 1] == Last(more);
      FollowGoesOn(h, Init(more), c, listener);
    }
  }

  /** A partition's copy that is true at some time is true at any later one. */
  lemma PartitionIsTold(h: seq<Input>, more: seq<Input>, c: Copies, listener: bool, i: nat)
    requires Bounded(h + more, listener) && CopiesShape(c) && i < 8 && TellsPartition(c.partitions[i], h, i)
    ensures Bounded(h, listener) && BoundedFrom(After(h, listener), c, more, listener)
    ensures TellsPartition(Follow(After(h, listener), c, more, listener).1.partitions[i], h + more, i)
  {
    FollowGoesOn(h, more, c, listener);
    hide After, Bounded, BoundedFrom, Follow, TellsPartition, PartitionCopy;
    var m := After(h, listener);
    var c' := Follow(m, c, more, listener).1;
    TellsIsPartitionCopy(c.partitions[i], h, listener, i);
    PartitionCopiesStayTrue(m, c, more, listener, i);
    TellsIsPartitionCopy(c'.partitions[i], h + more, listener, i);
  }

  /** A copy of a zone named since the last refresh stays true until the next one. */
  lemma ZoneIsTold(h: seq<Input>, more: seq<Input>, c: Copies, listener: bool, z: nat)
    requires Bounded(h + more, listener) && CopiesShape(c) && z < 96 && TellsZone(c.zones[z], h, z)
    requires ZoneNamedSince(h, z) && forall x :: x in more ==> !Refreshes(x)
    ensures Bounded(h, listener) && BoundedFrom(After(h, listener), c, more, listener)
    ensures TellsZone(Follow(After(h, listener), c, more, listener).1.zones[z], h + more, z)
  {
    FollowGoesOn(h, more, c, listener);
    ZonesAfter(h, listener, z);
    hide After, Bounded, BoundedFrom, Follow, TellsZone, ZoneCopy, ZoneNamedSince, Refreshes, KeySeen;
    var m := After(h, listener);
    var c' := Follow(m, c, more, listener).1;
    TellsIsZoneCopy(c.zones[z], h, listener, z);
    ZoneCopiesStayTrue(m, c, more, listener, z);
    TellsIsZoneCopy(c'.zones[z], h + more, listener, z);
  }
}
