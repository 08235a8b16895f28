/** LIGHTS_STATE frames: repeated, they bring the mirror into line. */
module Lights {
  import opened Bytes
  import opened Panel

  predicate Agrees(lights: seq<Light>, bitmap: nat, i: nat)
    requires |lights| == LIGHTS && i < LIGHTS
  {
    lights[i].on == Bit(bitmap, i)
  }

  /** How many of the lights from i on differ from the bitmap. */
  function Wrong(lights: seq<Light>, bitmap: nat, i: nat): (n: nat)
    requires |lights| == LIGHTS && i <= LIGHTS
    ensures n <= LIGHTS - i
    decreases LIGHTS - i
  {
    if i == LIGHTS then 0
    else (if Agrees(lights, bitmap, i) then 0 else 1) + Wrong(lights, bitmap, i + 1)
  }

  lemma {:induction false} WrongDependsOnRest(a: seq<Light>, b: seq<Light>, bitmap: nat, i: nat)
    requires |a| == LIGHTS == |b| && i <= LIGHTS && a[i..] == b[i..]
    ensures Wrong(a, bitmap, i) == Wrong(b, bitmap, i)
    decreases LIGHTS - i
  {
    if i < LIGHTS {
      assert a[i] == a[i..][0] && b[i] == b[i..][0];
      assert a[i + 1..] == a[i..][1..] && b[i + 1..] == b[i..][1..];
      WrongDependsOnRest(a, b, bitmap, i + 1);
    }
  }

  lemma {:induction false} NoneWrong(lights: seq<Light>, bitmap: nat, i: nat, k: nat)
    requires |lights| == LIGHTS && i <= k < LIGHTS && Wrong(lights, bitmap, i) == 0
    ensures Agrees(lights, bitmap, k)
    decreases k - i
  {
    if i < k {
      NoneWrong(lights, bitmap, i + 1, k);
    }
  }

  /** One pass of the loop from index i. */
  lemma {:induction false} PassFrom(lights: seq<Light>, bitmap: nat, i: nat, silent: bool, now: int)
    requires |lights| == LIGHTS && i <= LIGHTS
    ensures var (after, told) := SetLights(lights, bitmap, i, silent, now);
            && after[..i] == lights[..i]
            && (Wrong(lights, bitmap, i) == 0 ==> after == lights && told == None)
            && (Wrong(lights, bitmap, i) > 0 ==> Wrong(after, bitmap, i) < Wrong(lights, bitmap, i))
            && (told == None ==> Wrong(after, bitmap, i) == 0)
            && (silent ==> told == None)
            && forall k :: i <= k < LIGHTS ==>
                 (told.Some? && k > told.value ==> after[k] == lights[k])
                 && (told.None? || k <= told.value ==> Agrees(after, bitmap, k))
    decreases LIGHTS - i
  {
    hide Bit;
    if i < LIGHTS {
      if Agrees(lights, bitmap, i) {
        PassFrom(lights, bitmap, i + 1, silent, now);
        var after := SetLights(lights, bitmap, i, silent, now).0;
        assert after[i] == after[..i + 1][i] && lights[i] == lights[..i + 1][i];
        assert after[..i] == after[..i + 1][..i] && lights[..i] == lights[..i + 1][..i];
      } else {
        var flipped := lights[i := lights[i].(on := !lights[i].on, changedAt := now)];
        assert flipped[i + 1..] == lights[i + 1..];
        WrongDependsOnRest(flipped, lights, bitmap, i + 1);
        if silent || lights[i].changedAt == 0 {
          PassFrom(flipped, bitmap, i + 1, silent, now);
          var after := SetLights(lights, bitmap, i, silent, now).0;
          assert after[i] == after[..i + 1][i] && flipped[i] == flipped[..i + 1][i];
          assert after[..i] == after[..i + 1][..i] && flipped[..i] == flipped[..i + 1][..i];
        }
      }
    }
  }

  /** What one LIGHTS_STATE frame does: every light up to the one reported agrees
      with the bitmap, the rest are untouched, and there are fewer wrong ones. */
  lemma OneFrame(lights: seq<Light>, bitmap: nat, silent: bool, now: int)
    requires |lights| == LIGHTS
    ensures var (after, told) := SetLights(lights, bitmap, 0, silent, now);
            && (forall k :: 0 <= k < LIGHTS && (told.None? || k <= told.value) ==> Agrees(after, bitmap, k))
            && (forall k :: 0 <= k < LIGHTS && told.Some? && k > told.value ==> after[k] == lights[k])
            && (Wrong(lights, bitmap, 0) > 0 ==> Wrong(after, bitmap, 0) < Wrong(lights, bitmap, 0))
            && (Wrong(lights, bitmap, 0) == 0 ==> after == lights)
            && (silent ==> told == None)
  {
    PassFrom(lights, bitmap, 0, silent, now);
  }

  /** A light that differs, and has changed before. */
  predicate Reportable(lights: seq<Light>, bitmap: nat, k: nat)
    requires |lights| == LIGHTS && k < LIGHTS
  {
    !Agrees(lights, bitmap, k) && lights[k].changedAt != 0
  }

  /** What becomes of light k if the loop reaches it. */
  function Brought(light: Light, on: bool, now: int): Light {
    if light.on == on then light else light.(on := on, changedAt := now)
  }

  /** The loop from index i: a listener is told of the first reportable light; the lights
      up to it are brought into line, the others stay. */
  lemma {:induction false} LoopFrom(lights: seq<Light>, bitmap: nat, i: nat, silent: bool, now: int)
    requires |lights| == LIGHTS && i <= LIGHTS
    ensures var (after, told) := SetLights(lights, bitmap, i, silent, now);
            && (if told.Some? then !silent && Reportable(lights, bitmap, told.value)
                else forall k :: i <= k < LIGHTS ==> silent || !Reportable(lights, bitmap, k))
            && (forall k :: i <= k < LIGHTS && told.Some? && k < told.value ==> !Reportable(lights, bitmap, k))
            && forall k :: 0 <= k < LIGHTS ==>
                 after[k] == if k < i || (told.Some? && k > told.value) then lights[k]
                             else Brought(lights[k], Bit(bitmap, k), now)
    decreases LIGHTS - i
  {
    hide Bit;
    if i < LIGHTS {
      if Agrees(lights, bitmap, i) {
        LoopFrom(lights, bitmap, i + 1, silent, now);
      } else if silent || lights[i].changedAt == 0 {
        var flipped := lights[i := lights[i].(on := !lights[i].on, changedAt := now)];
        LoopFrom(flipped, bitmap, i + 1, silent, now);
        assert forall k :: i < k < LIGHTS ==> Reportable(flipped, bitmap, k) == Reportable(lights, bitmap, k);
      }
    }
  }

  /** With a listener and no refresh pending, a LIGHTS_STATE frame reports exactly the
      first light that differs and has changed before. */
  lemma FirstIsReported(m: Mirror, f: Frame, now: int, k: nat)
    requires Shape(m) && IsLightsFrame(f) && k < LIGHTS && !m.refreshPending
    ensures var lights := m.partitions[f.data[2]].lights;
            var notes := Handle(m, f, true, now).notes;
            && (notes == [LightChanged(f.data[2], k)] <==>
                  Reportable(lights, Bitmap(f), k) && forall j :: 0 <= j < k ==> !Reportable(lights, Bitmap(f), j))
            && (notes == [] <==> forall j :: 0 <= j < LIGHTS ==> !Reportable(lights, Bitmap(f), j))
  {
    hide SetLights, Reportable;
    LoopFrom(m.partitions[f.data[2]].lights, Bitmap(f), 0, false, now);
  }

  /** The mirror after the same frame at each of the given times. */
  function Repeated(m: Mirror, f: Frame, listener: bool, times: seq<int>): (r: Mirror)
    requires Shape(m) && IsLightsFrame(f)
    ensures Shape(r)
  {
    if times == [] then m
    else Handle(Repeated(m, f, listener, times[..|times| - 1]), f, listener, times[|times| - 1]).panel
  }

  /** The lights that a LIGHTS_STATE frame says are on. */
  function Bitmap(f: Frame): nat {
    Word(f.data[5], f.data[4])
  }

  predicate IsLightsFrame(f: Frame) {
    f.data[0] == SUBCMD2 && f.data[1] == LIGHTS_STATE && f.data[2] < PARTITIONS
  }

  lemma HandleLights(m: Mirror, f: Frame, listener: bool, now: int)
    requires Shape(m) && IsLightsFrame(f)
    ensures var r := Handle(m, f, listener, now).panel;
            && r.refreshPending == m.refreshPending
            && r.partitions[f.data[2]].lights
            == SetLights(m.partitions[f.data[2]].lights, Bitmap(f), 0, m.refreshPending || !listener, now).0
  {
    hide SetLights;
  }

  lemma {:induction false} WrongAfter(m: Mirror, f: Frame, listener: bool, times: seq<int>)
    requires Shape(m) && IsLightsFrame(f)
    ensures var r := Repeated(m, f, listener, times);
            var wrong := Wrong(r.partitions[f.data[2]].lights, Bitmap(f), 0);
            && r.refreshPending == m.refreshPending
            && wrong <= (if |times| > LIGHTS then 0 else LIGHTS - |times|)
            && (times != [] && (m.refreshPending || !listener) ==> wrong == 0)
  {
    if times != [] {
      hide SetLights, Wrong, Handle;
      var before, now := times[..|times| - 1], times[|times| - 1];
      WrongAfter(m, f, listener, before);
      var b := Repeated(m, f, listener, before);
      HandleLights(b, f, listener, now);
      PassFrom(b.partitions[f.data[2]].lights, Bitmap(f), 0, b.refreshPending || !listener, now);
    }
  }

  /** Ten identical frames always suffice, and one does while a refresh is pending
      or nobody listens. */
  lemma LightsConverge(m: Mirror, f: Frame, listener: bool, times: seq<int>, k: nat)
    requires Shape(m) && IsLightsFrame(f) && k < LIGHTS
    requires |times| >= 10 || (|times| >= 1 && (m.refreshPending || !listener))
    ensures Repeated(m, f, listener, times).partitions[f.data[2]].lights[k].on == Bit(Bitmap(f), k)
  {
    WrongAfter(m, f, listener, times);
    var r := Repeated(m, f, listener, times);
    assert PartitionShape(r.partitions[f.data[2]]);
    NoneWrong(r.partitions[f.data[2]].lights, Bitmap(f), 0, k);
  }
}
