/** What a client is told.

    A call that is not queued is answered at once.  Here the answer is given as a
    function of the history of frames and refreshes before the call, in the numbers
    a client sees; and what an OK means is said for each of the commands. */
module Refusals {
  import opened Bytes
  import opened Outbox
  import opened Protocol
  import opened Runs
  import opened Channel
  import opened Panel
  import opened History
  import opened Commands
  import opened Replies
  import opened Session
  import opened Delivery
  import opened Network
  import Keys

  // ------------------------------------------------------------ one reply, that stays

  lemma TurnAddsReplies(s: Server, t: Turn)
    requires Shape(s.mirror) && WellFormed(s.world.station) && LegalTurn(s, t)
    ensures s.desk.replies <= Take(s, t).desk.replies
    ensures t.Called? ==>
            match CallVerdict(s.mirror, t.c)
            case Rejected(status) => Reply(s.desk.next, Shown(t.c, status)) in Take(s, t).desk.replies
            case Queued(_) => true
  {
    hide CallVerdict, Step, React, Shape, InBounds, Refreshed, Shown, CallBack, ActsOf, Fresh;
    match t
    case Called(c, now, written) =>
      match CallVerdict(s.mirror, c) {
        case Rejected(_) =>
        case Queued(msg) =>
          WorkAddsReplies(s.(desk := Open(s.desk)), Submit(Job(msg, Some(s.desk.next)), now, written));
      }
    case Inward(x, listener, written) =>
      var e := React(s.mirror, x, listener);
      QueuedByFrames(s.mirror, x, listener);
      if e.queued != [] {
        WorkAddsReplies(s.(mirror := e.panel), Submit(Job(e.queued[0], None), x.now, written));
      }
    case Other(e) => WorkAddsReplies(s, e);
  }

  lemma WorkAddsReplies(s: Server, e: Protocol.Stimulus)
    requires WellFormed(s.world.station) && LegalStimulus(e)
    ensures s.desk.replies <= Work(s, e).desk.replies
  {
    hide Step, CallBack, ActsOf, Fresh;
    CallBacksReply(s.desk, Fresh(s.world.trace, Step(s.world, e).trace));
  }

  lemma {:induction false} RepliesStay(turns: seq<Turn>, k: nat)
    requires Day(turns).Some? && k <= |turns|
    ensures Day(turns[..k]).Some?
    ensures Day(turns[..k]).value.desk.replies <= Day(turns).value.desk.replies
  {
    if k == |turns| {
      assert turns[..k] == turns;
    } else {
      hide Take, LegalTurn, AllowedTurn;
      var n := |turns| - 1;
      RepliesStay(turns[..n], k);
      assert turns[..n][..k] == turns[..k];
      TurnAddsReplies(Day(turns[..n]).value, turns[n]);
    }
  }

  lemma TwiceInBag(ids: seq<nat>, i: nat, j: nat)
    requires i < j < |ids| && ids[i] == ids[j]
    ensures Bag(ids)[ids[i]] >= 2
  {
    assert ids == ids[..j] + [ids[j]] + ids[j + 1..];
    BagConcat(ids[..j] + [ids[j]], ids[j + 1..]);
    BagConcat(ids[..j], [ids[j]]);
    assert ids[..j][i] == ids[i] && ids[i] in ids[..j];
    assert Bag([ids[j]]) == multiset{ids[j]} by { SingleBag(ids[j]); }
  }

  lemma OnceInBag(replies: seq<Reply>, a: Reply, b: Reply)
    requires a in replies && b in replies && a.call == b.call && Bag(CallIds(replies))[a.call] <= 1
    ensures a == b
  {
    hide Bag;
    var i :| 0 <= i < |replies| && replies[i] == a;
    var j :| 0 <= j < |replies| && replies[j] == b;
    if i < j {
      TwiceInBag(CallIds(replies), i, j);
    } else if j < i {
      TwiceInBag(CallIds(replies), j, i);
    }
  }

  /** A call has one status. */
  lemma OneStatus(turns: seq<Turn>, a: Reply, b: Reply)
    requires Day(turns).Some?
    requires a in Day(turns).value.desk.replies && b in Day(turns).value.desk.replies && a.call == b.call
    ensures a == b
  {
    ExactlyOneReply(turns, a.call);
    assert RepliesTo(Day(turns).value, a.call) <= 1;
    hide Day, Waiting, Ids, Bag;
    OnceInBag(Day(turns).value.desk.replies, a, b);
  }

  /** Statuses that finished messages have. */
  lemma {:induction false} FinishedStatus(t: seq<Obs>, j: nat)
    requires Legit(t) && j < Completions(t)
    ensures |Statuses(t)| == Completions(t)
    ensures Statuses(t)[j] == 0 || Statuses(t)[j] == -3 || Statuses(t)[j] == -4
  {
    if j < Completions(Init(t)) {
      FinishedStatus(Init(t), j);
    }
  }

  /** OK, refused or given up: what a message comes to. */
  predicate FromTheLine(status: int) {
    status == 0 || status == -3 || status == -4
  }

  /** What call k of a run is told: a queued call OK, NAK or timeout, and any other one
      what its verdict shows. */
  lemma ToldOnce(turns: seq<Turn>, k: nat, status: int)
    requires Day(turns).Some? && k < |turns| && turns[k].Called?
    ensures Day(turns[..k]).Some?
    ensures var s := Day(turns[..k]).value;
            var told := Reply(s.desk.next, status) in Day(turns).value.desk.replies;
            match CallVerdict(s.mirror, turns[k].c)
            case Rejected(refusal) => told <==> status == Shown(turns[k].c, refusal)
            case Queued(_) => told ==> FromTheLine(status)
  {
    VerdictOfCall(turns, k);
    var s := Day(turns[..k]).value;
    var reply := Reply(s.desk.next, status);
    match CallVerdict(s.mirror, turns[k].c)
    case Rejected(refusal) =>
      RefusalTold(turns, k);
      if reply in Day(turns).value.desk.replies {
        OneStatus(turns, reply, Reply(s.desk.next, Shown(turns[k].c, refusal)));
      }
    case Queued(_) =>
      if reply in Day(turns).value.desk.replies {
        QueuedTold(turns, reply);
      }
  }

  lemma RefusalTold(turns: seq<Turn>, k: nat)
    requires Day(turns).Some? && k < |turns| && turns[k].Called?
    ensures Day(turns[..k]).Some?
    ensures var s := Day(turns[..k]).value;
            match CallVerdict(s.mirror, turns[k].c)
            case Rejected(refusal) => Reply(s.desk.next, Shown(turns[k].c, refusal)) in Day(turns).value.desk.replies
            case Queued(_) => true
  {
    hide *;
    RepliesStay(turns, k + 1);
    DayBefore(turns[..k + 1]);
    assert turns[..k + 1][..k] == turns[..k] && turns[..k + 1][k] == turns[k];
    TurnAddsReplies(Day(turns[..k]).value, turns[k]);
  }

  lemma DayBefore(turns: seq<Turn>)
    requires turns != [] && Day(turns).Some?
    ensures var n := |turns| - 1;
            && Day(turns[..n]).Some? && LegalTurn(Day(turns[..n]).value, turns[n])
            && Day(turns) == Some(Take(Day(turns[..n]).value, turns[n]))
  {
    hide Take, LegalTurn, AllowedTurn;
  }

  lemma QueuedTold(turns: seq<Turn>, reply: Reply)
    requires Day(turns).Some? && reply in Day(turns).value.desk.replies
    ensures reply.call < |Verdicts(turns)|
    ensures Verdicts(turns)[reply.call].Queued? ==> FromTheLine(reply.status)
  {
    DaysAreVouched(turns);
    DaysAreSane(turns);
    var s := Day(turns).value;
    QueuedIsWaiting(s.world);
    hide Day, Verdicts, Statuses, Consistent, Legit, Waiting, Ids, AllCalls;
    assert Founded(s.world.trace, reply, Verdicts(turns));
    if Verdicts(turns)[reply.call].Queued? {
      var j :| Finished(s.world.trace, j, reply);
      FinishedStatus(s.world.trace, j);
    }
  }

  // ------------------------------------------------------------------ the four commands

  /** The answer to an arm request that is not queued. */
  predicate ArmTold(h: seq<Input>, i: int, level: int, status: int) {
    var known := PartitionNamed(h, i);
    var siren := known && SirenOn(h, i) && level != 1;
    var already := known && !siren && AlreadyArmed(h, i, level);
    && (status == -12 <==> siren)
    && (status == 0 <==> already)
    && (status == -1 <==> known && !siren && !already && InProgramming(h, i))
    && (status == -10 <==> !known || (!siren && !already && !InProgramming(h, i) && !ArmLevelKnown(level)))
  }

  /** The keypress of an arm request. */
  function ArmNumber(level: int): byte {
    match level
    case 1 => 0x20
    case 2 => 0x28
    case _ => 0x27
  }

  lemma ArmRefused(h: seq<Input>, listener: bool, i: int, level: int)
    requires Bounded(h, listener)
    ensures var c := Command(Request.SetArmLevel(i, level));
            match CallVerdict(After(h, listener), c)
            case Rejected(status) => !ArmPasses(h, i, level) && ArmTold(h, i, level, Shown(c, status))
            case Queued(msg) => ArmPasses(h, i, level) && msg == [0x40, i, 0, ArmNumber(level)]
  {
    ArmAfter(h, listener, i, level);
    hide After, NamedSince, InProgramming, SirenOn, ArmLevel, EntryDelay, Pressed, RowsTell;
    AfterHistory(h, listener);
    if 0 <= i < PARTITIONS {
      assert FactsOf(After(h, listener).partitions[i]) == FactsIn(h, i);
      hide FactsIn;
      KeysPress(i, level);
    }
  }

  lemma KeysPress(i: byte, level: int)
    ensures ArmLevelKnown(level) ==> Pressed(i, ArmText(level)).Queued?
  {
    if ArmLevelKnown(level) {
      ArmKeys(i, level);
    }
  }

  /** The answer to a light request that is not queued. */
  predicate LightTold(h: seq<Input>, i: int, light: int, status: int) {
    && (status == -2 <==> RefreshDue(h))
    && (status == -1 <==> !RefreshDue(h) && PartitionNamed(h, i) && InProgramming(h, i))
    && (status == -10 <==> !RefreshDue(h) &&
                             (!PartitionNamed(h, i) || (!InProgramming(h, i) && !(0 <= light <= 9))))
    && status != 0
  }

  lemma LightRefused(h: seq<Input>, listener: bool, i: int, light: int, on: bool)
    requires Bounded(h, listener)
    ensures var c := Command(Request.SetLight(i, light, on));
            match CallVerdict(After(h, listener), c)
            case Rejected(status) => !LightPasses(h, i, light) && LightTold(h, i, light, Shown(c, status))
            case Queued(msg) => LightPasses(h, i, light) && msg == [0x40, i, 0, if on then 0x10 else 0x11, light]
  {
    LightAfter(h, listener, i, light, on);
    hide After, NamedSince, InProgramming, SirenOn, ArmLevel, EntryDelay, Pressed, RefreshDue;
    AfterHistory(h, listener);
    if 0 <= i < PARTITIONS {
      assert FactsOf(After(h, listener).partitions[i]) == FactsIn(h, i);
    }
  }

  /** The answer to a bypass request that is not queued. */
  predicate BypassTold(h: seq<Input>, z: int, bypass: bool, user: int, status: int) {
    var due := RefreshDue(h);
    var named := ZoneNamed(h, z);
    var programming := named && InProgramming(h, ZonePartition(h, z));
    var already := named && !programming && Bypassed(h, z) == bypass;
    var pin := PinFor(h, user);
    && (status == -2 <==> due)
    && (status == 0 <==> !due && already)
    && (status == -10 <==> !due && (!named || (!programming && !already && pin.None?)))
    && (status == -1 <==> !due && named && (programming || (!already && pin.Some? && !PinUsable(pin.value))))
  }

  lemma BypassRefused(h: seq<Input>, listener: bool, z: int, bypass: bool, user: int)
    requires Bounded(h, listener)
    ensures var c := Command(SetBypass(z, bypass, user));
            match CallVerdict(After(h, listener), c)
            case Rejected(status) =>
              !BypassPasses(h, z, bypass, user) && BypassTold(h, z, bypass, user, Shown(c, status))
            case Queued(msg) => BypassPasses(h, z, bypass, user) && msg == BypassMessage(h, z, user)
  {
    BypassAfter(h, listener, z, bypass, user);
    hide After, NamedSince, InProgramming, SirenOn, ArmLevel, EntryDelay, Pressed, RefreshDue, PinOf, Bit;
    hide ZonePartition, ZoneState, PinText, ZoneNamedSince, KeySeen, PinUsable, BypassMessage;
    hide DecideArm, DecideLight, Keys.Compile, Names, UserFor;
    AfterHistory(h, listener);
    if 0 <= z < ZONES {
      ZonesAfter(h, listener, z);
      BypassFlag(ZoneState(h, z));
    }
    var m := After(h, listener);
    if 0 <= z < ZONES && m.zones[z].partitionId < PARTITIONS {
      assert FactsOf(m.partitions[m.zones[z].partitionId]) == FactsIn(h, m.zones[z].partitionId);
    }
    var u := UserIndex(user);
    if 0 <= u < USERS {
      assert m.users[u] == UserFor(PinOf(h, u));
      UserTells(PinOf(h, u));
    }
  }

  lemma UserTells(pin: Option<(byte, byte)>)
    ensures UserFor(pin).active <==> pin.Some?
    ensures pin.Some? && UserFor(pin).code == [] ==> !PinUsable(pin.value)
  {
    if pin.Some? {
      PinTextEmpty(pin.value.0, pin.value.1);
    }
    hide PinText;
  }

  /** Arm requests, over every run. */
  lemma ArmIsTold(turns: seq<Turn>, k: nat, listener: bool, i: int, level: int, status: int)
    requires Day(turns).Some? && HeardWith(turns, listener)
    requires k < |turns| && turns[k].Called? && turns[k].c == Command(Request.SetArmLevel(i, level))
    ensures Day(turns[..k]).Some?
    ensures var h := InputsIn(turns[..k]);
            var told := Reply(Day(turns[..k]).value.desk.next, status) in Day(turns).value.desk.replies;
            if ArmPasses(h, i, level) then told ==> FromTheLine(status)
            else told <==> ArmTold(h, i, level, status)
  {
    ToldOnce(turns, k, status);
    HeardBefore(turns, k, listener);
    MirrorIsHistory(turns[..k], listener);
    hide Day, HeardWith, CallVerdict, Shown, ArmPasses, InputsIn, Bounded, After;
    var h := InputsIn(turns[..k]);
    ArmRefused(h, listener, i, level);
    if !ArmPasses(h, i, level) {
      OneArmTold(h, i, level);
    }
    hide ArmTold;
  }

  /** An arm request that is not passed on has one answer. */
  lemma OneArmTold(h: seq<Input>, i: int, level: int)
    requires !ArmPasses(h, i, level)
    ensures forall a: int, b: int :: ArmTold(h, i, level, a) && ArmTold(h, i, level, b) ==> a == b
  {
    hide PartitionNamed, SirenOn, InProgramming, AlreadyArmed, ArmLevelKnown;
  }

  /** Light requests, over every run. */
  lemma LightIsTold(turns: seq<Turn>, k: nat, listener: bool, i: int, light: int, on: bool, status: int)
    requires Day(turns).Some? && HeardWith(turns, listener)
    requires k < |turns| && turns[k].Called? && turns[k].c == Command(Request.SetLight(i, light, on))
    ensures Day(turns[..k]).Some?
    ensures var h := InputsIn(turns[..k]);
            var told := Reply(Day(turns[..k]).value.desk.next, status) in Day(turns).value.desk.replies;
            if LightPasses(h, i, light) then told ==> FromTheLine(status)
            else told <==> LightTold(h, i, light, status)
  {
    ToldOnce(turns, k, status);
    HeardBefore(turns, k, listener);
    MirrorIsHistory(turns[..k], listener);
    hide Day, HeardWith, CallVerdict, Shown, LightPasses, InputsIn, Bounded, After;
    var h := InputsIn(turns[..k]);
    LightRefused(h, listener, i, light, on);
    hide PartitionNamed, RefreshDue, InProgramming;
  }

  /** Bypass requests, over every run. */
  lemma BypassIsTold(turns: seq<Turn>, k: nat, listener: bool, z: int, bypass: bool, user: int, status: int)
    requires Day(turns).Some? && HeardWith(turns, listener)
    requires k < |turns| && turns[k].Called? && turns[k].c == Command(SetBypass(z, bypass, user))
    ensures Day(turns[..k]).Some?
    ensures var h := InputsIn(turns[..k]);
            var told := Reply(Day(turns[..k]).value.desk.next, status) in Day(turns).value.desk.replies;
            if BypassPasses(h, z, bypass, user) then told ==> FromTheLine(status)
            else told <==> BypassTold(h, z, bypass, user, status)
  {
    ToldOnce(turns, k, status);
    HeardBefore(turns, k, listener);
    MirrorIsHistory(turns[..k], listener);
    hide Day, HeardWith, CallVerdict, Shown, BypassPasses, InputsIn, Bounded, After;
    var h := InputsIn(turns[..k]);
    BypassRefused(h, listener, z, bypass, user);
    if !BypassPasses(h, z, bypass, user) {
      OneBypassTold(h, z, bypass, user);
    }
    hide BypassTold;
  }

  /** A bypass request that is not passed on has one answer. */
  lemma OneBypassTold(h: seq<Input>, z: int, bypass: bool, user: int)
    requires !BypassPasses(h, z, bypass, user)
    ensures forall a: int, b: int :: BypassTold(h, z, bypass, user, a) && BypassTold(h, z, bypass, user, b) ==> a == b
  {
    hide ZoneNamed, RefreshDue, InProgramming, Bypassed, PinFor, PinUsable, ZonePartition;
  }

  /** Key presses, over every run: an error exactly for a text that does not compile. */
  lemma KeysAreTold(turns: seq<Turn>, k: nat, i: int, keys: seq<byte>, status: int)
    requires Day(turns).Some?
    requires k < |turns| && turns[k].Called? && turns[k].c == Command(Request.PressKeys(i, keys))
    ensures Day(turns[..k]).Some?
    ensures var told := Reply(Day(turns[..k]).value.desk.next, status) in Day(turns).value.desk.replies;
            if Keys.Compile([0x40, i % 256, 0], keys) == None then told <==> status == -1
            else told ==> FromTheLine(status)
  {
    ToldOnce(turns, k, status);
    hide Day, Keys.Compile;
  }

  /** Refreshes are never refused. */
  lemma RefreshIsTold(turns: seq<Turn>, k: nat, status: int)
    requires Day(turns).Some? && k < |turns| && turns[k].Called? && turns[k].c == RefreshAll
    ensures Day(turns[..k]).Some?
    ensures Reply(Day(turns[..k]).value.desk.next, status) in Day(turns).value.desk.replies ==> FromTheLine(status)
  {
    ToldOnce(turns, k, status);
    hide Day;
  }

  // ------------------------------------------------------------------ what an OK means

  /** The number of a call of a joint run. */
  function CallNumber(xs: seq<Occurrence>, k: nat): nat
    requires k < |xs| && Running(xs[..k]).Some?
  {
    Running(xs[..k]).value.server.desk.next
  }

  predicate IsCall(x: Occurrence, c: Call) {
    x.Turned? && x.t.Called? && x.t.c == c
  }

  /** A call answered OK: its message has arrived, or it was refused with that status. */
  lemma OkCall(xs: seq<Occurrence>, k: nat, c: Call, listener: bool)
    requires Running(xs).Some? && HeardWith(TurnsOf(xs), listener) && k < |xs| && IsCall(xs[k], c)
    ensures Running(xs[..k]).Some?
    ensures var h := InputsIn(TurnsOf(xs[..k]));
            && Bounded(h, listener)
            && (Reply(CallNumber(xs, k), 0) in Running(xs).value.server.desk.replies ==>
                  match CallVerdict(After(h, listener), c)
                  case Rejected(status) => Shown(c, status) == 0
                  case Queued(msg) => msg in Running(xs).value.pair.inbox)
  {
    TurnPlace(xs, k);
    RunProjects(xs);
    var turns, at := TurnsOf(xs), |TurnsOf(xs[..k])|;
    HeardBefore(turns, at, listener);
    hide Running, TurnsOf, Day, RunPair, HeardWith, CallVerdict, Shown, InputsIn, After, Bounded;
    MirrorIsHistory(turns[..at], listener);
    ToldOnce(turns, at, 0);
    if Reply(CallNumber(xs, k), 0) in Running(xs).value.server.desk.replies {
      VerdictOfCall(turns, at);
      OkMeansDelivered(xs, CallNumber(xs, k));
    }
  }

  /** An arm request answered OK has reached the panel, or the partition was already at
      that level. */
  lemma ArmOk(xs: seq<Occurrence>, k: nat, i: int, level: int, listener: bool)
    requires Running(xs).Some? && HeardWith(TurnsOf(xs), listener)
    requires k < |xs| && IsCall(xs[k], Command(Request.SetArmLevel(i, level)))
    ensures Running(xs[..k]).Some?
    ensures var h := InputsIn(TurnsOf(xs[..k]));
            Reply(CallNumber(xs, k), 0) in Running(xs).value.server.desk.replies ==>
              if ArmPasses(h, i, level) then [0x40, i, 0, ArmNumber(level)] in Running(xs).value.pair.inbox
              else PartitionNamed(h, i) && AlreadyArmed(h, i, level)
  {
    OkCall(xs, k, Command(Request.SetArmLevel(i, level)), listener);
    hide Running, TurnsOf, HeardWith, CallVerdict, Shown, ArmPasses, InputsIn, Bounded, After;
    ArmRefused(InputsIn(TurnsOf(xs[..k])), listener, i, level);
    hide PartitionNamed, SirenOn, AlreadyArmed, InProgramming;
  }

  /** A light request answered OK has reached the panel. */
  lemma LightOk(xs: seq<Occurrence>, k: nat, i: int, light: int, on: bool, listener: bool)
    requires Running(xs).Some? && HeardWith(TurnsOf(xs), listener)
    requires k < |xs| && IsCall(xs[k], Command(Request.SetLight(i, light, on)))
    ensures Running(xs[..k]).Some?
    ensures Reply(CallNumber(xs, k), 0) in Running(xs).value.server.desk.replies ==>
              [0x40, i, 0, if on then 0x10 else 0x11, light] in Running(xs).value.pair.inbox
  {
    OkCall(xs, k, Command(Request.SetLight(i, light, on)), listener);
    hide Running, TurnsOf, HeardWith, CallVerdict, Shown, LightPasses, InputsIn, Bounded, After;
    LightRefused(InputsIn(TurnsOf(xs[..k])), listener, i, light, on);
    hide PartitionNamed, RefreshDue, InProgramming;
  }

  /** A bypass request answered OK has reached the panel with the user's PIN, or the zone
      was already in that state. */
  lemma BypassOk(xs: seq<Occurrence>, k: nat, z: int, bypass: bool, user: int, listener: bool)
    requires Running(xs).Some? && HeardWith(TurnsOf(xs), listener)
    requires k < |xs| && IsCall(xs[k], Command(SetBypass(z, bypass, user)))
    ensures Running(xs[..k]).Some?
    ensures var h := InputsIn(TurnsOf(xs[..k]));
            Reply(CallNumber(xs, k), 0) in Running(xs).value.server.desk.replies ==>
              if BypassPasses(h, z, bypass, user) then BypassMessage(h, z, user) in Running(xs).value.pair.inbox
              else ZoneNamed(h, z) && Bypassed(h, z) == bypass
  {
    OkCall(xs, k, Command(SetBypass(z, bypass, user)), listener);
    hide Running, TurnsOf, HeardWith, CallVerdict, Shown, BypassPasses, InputsIn, Bounded, After;
    BypassRefused(InputsIn(TurnsOf(xs[..k])), listener, z, bypass, user);
    hide ZoneNamed, RefreshDue, InProgramming, Bypassed, PinFor, PinUsable, ZonePartition, BypassMessage;
  }

  /** Keys pressed and answered OK have reached the panel: the first 53 of them. */
  lemma KeysOk(xs: seq<Occurrence>, k: nat, i: int, items: seq<Keys.Item>, tail: seq<byte>, listener: bool)
    requires Running(xs).Some? && HeardWith(TurnsOf(xs), listener)
    requires (forall x :: x in items ==> Keys.GoodItem(x)) && (tail == [] || Keys.Malformed(tail))
    requires k < |xs| && IsCall(xs[k], Command(Request.PressKeys(i, Keys.Print(items) + tail)))
    ensures Running(xs[..k]).Some?
    ensures var codes := Keys.CodesOf(items);
            Reply(CallNumber(xs, k), 0) in Running(xs).value.server.desk.replies ==>
              && (tail != [] ==> |codes| >= 53)
              && [0x40, i % 256, 0] + codes[..Keys.Shorter(|codes|, 53)] in Running(xs).value.pair.inbox
  {
    OkCall(xs, k, Command(Request.PressKeys(i, Keys.Print(items) + tail)), listener);
    hide *;
    Keys.PressKeysGrammar(i % 256, items, tail);
    KeysVerdict(After(InputsIn(TurnsOf(xs[..k])), listener), i, Keys.Print(items) + tail);
    assert Keys.Header(i % 256) == [0x40, i % 256, 0] by { HeaderIs(i % 256); }
  }

  lemma HeaderIs(partition: byte)
    ensures Keys.Header(partition) == [0x40, partition, 0]
  {
  }

  lemma KeysVerdict(m: Mirror, i: int, keys: seq<byte>)
    requires Shape(m)
    ensures var c := Command(Request.PressKeys(i, keys));
            match Keys.Compile(Keys.Header(i % 256), keys)
            case None => CallVerdict(m, c).Rejected? && Shown(c, CallVerdict(m, c).status) == -1
            case Some(msg) => CallVerdict(m, c) == Queued(msg)
  {
    hide Keys.Compile, Shape;
  }

  /** A refresh answered OK: the request for the equipment list has reached the panel. */
  lemma RefreshOk(xs: seq<Occurrence>, k: nat, listener: bool)
    requires Running(xs).Some? && HeardWith(TurnsOf(xs), listener) && k < |xs| && IsCall(xs[k], RefreshAll)
    ensures Running(xs[..k]).Some?
    ensures Reply(CallNumber(xs, k), 0) in Running(xs).value.server.desk.replies ==>
              [0x02] in Running(xs).value.pair.inbox
  {
    OkCall(xs, k, RefreshAll, listener);
    hide Running, TurnsOf, HeardWith, InputsIn, Bounded, After;
  }
}
