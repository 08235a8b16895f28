/** One reply to every call.

    A method call that changes something is answered later, from the callback of
    the message it queued, or at once if it is refused.  The law proved here is
    a conservation: over every run within the limits, the calls replied to and
    the calls whose message is still queued make up exactly the calls received,
    each once; and the helpers in use are those of the queued ones. */
module Replies {
  import opened Bytes
  import opened Link
  import opened Outbox
  import opened Protocol
  import opened Runs
  import opened Panel
  import opened Commands
  import Keys

  datatype Reply = Reply(call: nat, status: int)

  /** Calls are numbered; `live` are the callback helpers not yet freed. */
  datatype Desk = Desk(replies: seq<Reply>, live: set<nat>, next: nat)

  /** concordd_dbus_callback_helper_new. */
  function Open(d: Desk): Desk {
    d.(live := d.live + {d.next}, next := d.next + 1)
  }

  /** concordd_dbus_callback_helper: reply, then free the helper. */
  function Respond(d: Desk, call: nat, status: int): Desk {
    d.(replies := d.replies + [Reply(call, status)], live := d.live - {call})
  }

  /** The callbacks made by the queue. */
  function CallBack(d: Desk, acts: seq<Act>): Desk {
    if acts == [] then d
    else
      var before := CallBack(d, acts[..|acts| - 1]);
      match acts[|acts| - 1]
      case Completed(Some(call), status) => Respond(before, call, status)
      case _ => before
  }

  datatype Call = Command(r: Request) | RefreshAll

  /** The status a caller is shown; "already in that state" counts as success,
      except for key presses. */
  function Shown(c: Call, status: int): int {
    if status == STATUS_ALREADY && c.Command? && !c.r.PressKeys? then STATUS_OK else status
  }

  function CallVerdict(m: Mirror, c: Call): (v: Verdict)
    requires Shape(m)
    ensures v.Queued? ==> 1 <= |v.msg| <= MAX_MESSAGE_SIZE
    ensures v.Rejected? ==> v.status < 0
  {
    match c
    case Command(r) =>
      Submission(m, r)
    case RefreshAll => Queued([EQUIP_LIST_REQUEST])
  }

  /** The message of a verdict fits the staging array. */
  predicate Fits(v: Verdict) {
    v.Queued? ==> |v.msg| <= MAX_MESSAGE_SIZE && Sendable(|v.msg|)
  }

  /** The messages of the commands fit: only key presses can be too long. */
  lemma CommandsFit(m: Mirror, r: Request)
    requires Shape(m) && !r.PressKeys?
    ensures Fits(Submission(m, r))
  {
    match Decide(m, r)
    case Refuse(_) =>
    case Press(i, keys) =>
      KeysAreFew(m, r);
      hide Keys.Compile, Decide;
      Keys.CompileIsShort(Keys.Header(i), keys);
  }

  lemma KeysAreFew(m: Mirror, r: Request)
    requires Shape(m) && !r.PressKeys?
    ensures Decide(m, r).Press? ==> |Decide(m, r).keys| <= 10
  {
    hide Bit;
    if r.SetBypass? {
      var u := UserIndex(r.user);
      if 0 <= u < USERS {
        assert m.users[u] in m.users;
      }
    }
  }

  datatype Server = Server(world: World, mirror: Mirror, desk: Desk)

  const POWER_UP := Server(BOOT, BLANK, Desk([], {}, 0))

  datatype Turn =
    | Called(c: Call, now: int, written: int)
    | Inward(x: Input, listener: bool, written: int)  // a frame, or the refresh at start-up
    | Other(e: Protocol.Stimulus)                      // a tick or an answer byte

  /** Turns the model speaks of: messages fit the staging array, and frames the tables. */
  predicate LegalTurn(s: Server, t: Turn)
    requires Shape(s.mirror)
  {
    match t
    case Called(c, _, _) => Fits(CallVerdict(s.mirror, c))
    case Inward(x, _, _) => InBounds(s.mirror, x)
    case Other(e) => !e.Submit?
  }

  function Work(s: Server, e: Protocol.Stimulus): Server
    requires WellFormed(s.world.station) && LegalStimulus(e)
  {
    var w := Step(s.world, e);
    Server(w, s.mirror, CallBack(s.desk, ActsOf(Fresh(s.world.trace, w.trace))))
  }

  /** What was observed since. */
  function Fresh(before: seq<Obs>, after: seq<Obs>): seq<Obs> {
    if |before| <= |after| then after[|before|..] else []
  }

  function ActsOf(t: seq<Obs>): seq<Act> {
    if t == [] then []
    else ActsOf(Init(t)) + if Last(t).Did? then [Last(t).act] else []
  }

  /** The D-Bus handlers. */
  function Serve(s: Server, c: Call, now: int, written: int): (r: Server)
    requires Shape(s.mirror) && WellFormed(s.world.station) && Fits(CallVerdict(s.mirror, c))
    ensures Shape(r.mirror) && WellFormed(r.world.station)
  {
    var call := s.desk.next;
    var serving := s.(desk := Open(s.desk));
    match CallVerdict(s.mirror, c)
    case Rejected(status) => serving.(desk := Respond(serving.desk, call, Shown(c, status)))
    case Queued(msg) =>
      var full := Occupancy(s.world.station) == SLOTS - 1;
      var after := Work(serving, Submit(Job(msg, Some(call)), now, written));
      after.(mirror := if c.RefreshAll? then Refreshed(s.mirror) else s.mirror,
             desk := if full then Respond(after.desk, call, STATUS_QUEUE_FULL) else after.desk)
  }

  /** The same without a record: what a call does to the queue and the desk. */
  function ServeDesk(d: Desk, st: Station, m: Mirror, c: Call, now: int, written: int): (Station, Desk)
    requires Shape(m) && WellFormed(st)
  {
    match CallVerdict(m, c)
    case Rejected(status) => (st, Respond(Open(d), d.next, Shown(c, status)))
    case Queued(msg) =>
      var (st', acts, status) := Enqueue(st, msg, Some(d.next), now, written);
      var answered := CallBack(Open(d), acts);
      (st', if status < 0 then Respond(answered, d.next, status) else answered)
  }

  /** A message queued by a frame handler, without a callback. */
  function QueueQuietly(s: Server, msgs: seq<seq<byte>>, now: int, written: int): (r: Server)
    requires Shape(s.mirror) && WellFormed(s.world.station)
    requires forall msg :: msg in msgs ==> |msg| == 1
    ensures r.mirror == s.mirror && WellFormed(r.world.station)
  {
    if msgs == [] then s else Work(s, Submit(Job(msgs[0], None), now, written))
  }

  function Take(s: Server, t: Turn): (r: Server)
    requires Shape(s.mirror) && WellFormed(s.world.station) && LegalTurn(s, t)
    ensures Shape(r.mirror) && WellFormed(r.world.station)
  {
    match t
    case Called(c, now, written) => Serve(s, c, now, written)
    case Inward(x, listener, written) =>
      var e := React(s.mirror, x, listener);
      QueuedByFrames(s.mirror, x, listener);
      QueueQuietly(s.(mirror := e.panel), e.queued, x.now, written)
    case Other(e) => Work(s, e)
  }

  /** A frame queues at most one message, of one byte. */
  lemma QueuedByFrames(m: Mirror, x: Input, listener: bool)
    requires Shape(m) && InBounds(m, x)
    ensures var q := React(m, x, listener).queued;
            |q| <= 1 && forall msg :: msg in q ==> |msg| == 1
  {
    hide SetLights, Bit, Differing, PinText, Word, SubcmdRow, SubcmdNotes, Tabled;
  }

  lemma {:induction false} ActsOfLog(acts: seq<Act>)
    ensures ActsOf(Log(acts)) == acts
  {
    if acts != [] {
      assert Init(Log(acts)) == Log(acts[..|acts| - 1]);
      ActsOfLog(acts[..|acts| - 1]);
    }
  }

  lemma {:induction false} ActsOfConcat(a: seq<Obs>, b: seq<Obs>)
    ensures ActsOf(a + b) == ActsOf(a) + ActsOf(b)
  {
    if b == [] {
      assert a + b == a;
    } else {
      assert Init(a + b) == a + Init(b);
      ActsOfConcat(a, Init(b));
    }
  }

  /** What is fresh in the record after a step is what the step did. */
  lemma FreshActs(w: World, e: Protocol.Stimulus)
    requires WellFormed(w.station) && LegalStimulus(e)
    ensures var acts := ActsOf(Fresh(w.trace, Step(w, e).trace));
            match e
            case Submit(job, now, written) => acts == Enqueue(w.station, job.msg, job.finished, now, written).1
            case Tick(now, written) => acts == Advance(w.station, now, written).1
            case AnswerByte(positive, now) => acts == Answer(w.station, Protocol.AnswerCode(positive), now).1
  {
    hide Enqueue, Advance, Answer;
    var t' := Step(w, e).trace;
    match e
    case Submit(job, now, written) =>
      var acts := Enqueue(w.station, job.msg, job.finished, now, written).1;
      assert t' == w.trace + ([Submitted(job)] + Log(acts));
      FirstNoAct(Submitted(job), acts);
    case Tick(now, written) =>
      ActsOfLog(Advance(w.station, now, written).1);
    case AnswerByte(positive, now) =>
      if w.station.response == 0 {
        var acts := Answer(w.station, Protocol.AnswerCode(positive), now).1;
        assert t' == w.trace + ([Heard(positive)] + Log(acts));
        FirstNoAct(Heard(positive), acts);
      } else {
        assert Answer(w.station, Protocol.AnswerCode(positive), now).1 == [] by { NotDue(w.station, positive, now); }
      }
  }

  lemma NotDue(s: Station, positive: bool, now: int)
    requires WellFormed(s) && s.response != 0
    ensures Answer(s, Protocol.AnswerCode(positive), now) == (s, [])
  {
  }

  lemma FirstNoAct(o: Obs, acts: seq<Act>)
    requires !o.Did?
    ensures ActsOf([o] + Log(acts)) == acts
  {
    ActsOfConcat([o], Log(acts));
    ActsOfLog(acts);
    assert ActsOf([o]) == [];
    assert [] + acts == acts;
  }

  /** Serving a call over the record is serving it at the desk. */
  lemma ServeIsServeDesk(s: Server, c: Call, now: int, written: int)
    requires Shape(s.mirror) && WellFormed(s.world.station) && Fits(CallVerdict(s.mirror, c))
    ensures var r := Serve(s, c, now, written);
            (r.world.station, r.desk) == ServeDesk(s.desk, s.world.station, s.mirror, c, now, written)
  {
    hide CallVerdict, Enqueue, CallBack, Refreshed, Shape, ActsOf, Fresh;
    match CallVerdict(s.mirror, c)
    case Rejected(_) =>
    case Queued(msg) =>
      FreshActs(s.world, Submit(Job(msg, Some(s.desk.next)), now, written));
      EnqueueStatus(s.world.station, msg, Some(s.desk.next), now, written);
  }

  lemma EnqueueStatus(s: Station, msg: seq<byte>, finished: Option<nat>, now: int, written: int)
    requires WellFormed(s) && |msg| <= MAX_MESSAGE_SIZE
    ensures Enqueue(s, msg, finished, now, written).2
         == if Occupancy(s) == SLOTS - 1 then STATUS_QUEUE_FULL else STATUS_OK
  {
  }

  // ------------------------------------------------------------- the account

  /** The calls behind a list of jobs. */
  function Ids(jobs: seq<Job>): seq<nat> {
    if jobs == [] then []
    else Ids(jobs[..|jobs| - 1]) + IdOf(jobs[|jobs| - 1].finished)
  }

  function IdOf(finished: Option<nat>): seq<nat> {
    match finished
    case None => []
    case Some(call) => [call]
  }

  /** The calls whose callbacks a record shows. */
  function CallbackIds(t: seq<Obs>): seq<nat> {
    if t == [] then []
    else CallbackIds(Init(t)) + if IsDone(Last(t)) then IdOf(Last(t).act.finished) else []
  }

  function CallIds(replies: seq<Reply>): (ids: seq<nat>)
    ensures |ids| == |replies|
    ensures forall i :: 0 <= i < |ids| ==> ids[i] == replies[i].call
  {
    seq(|replies|, i requires 0 <= i < |replies| => replies[i].call)
  }

  function Bag(ids: seq<nat>): (b: multiset<nat>)
    ensures forall call :: call in ids <==> call in b
  {
    multiset(ids)
  }

  lemma BagConcat(a: seq<nat>, b: seq<nat>)
    ensures Bag(a + b) == Bag(a) + Bag(b)
  {
  }

  /** Each call received, once. */
  function AllCalls(n: nat): (m: multiset<nat>)
    ensures forall call: nat :: m[call] == if call < n then 1 else 0
  {
    if n == 0 then multiset{} else AllCalls(n - 1) + multiset{n - 1}
  }

  /** Replied and queued calls make up the calls received; helpers are those of the
      queued ones. */
  ghost predicate Account(replied: multiset<nat>, queued: seq<nat>, live: set<nat>, received: nat) {
    && replied + Bag(queued) == AllCalls(received)
    && forall call :: call in live <==> call in queued
  }

  ghost predicate Balanced(s: Server) {
    Account(Bag(CallIds(s.desk.replies)), Ids(Waiting(s.world.trace)), s.desk.live, s.desk.next)
  }

  function SetOf(ids: seq<nat>): set<nat> {
    set x | x in ids
  }

  /** A call is refused: received and replied to. */
  lemma AccountRefuses(replied: multiset<nat>, queued: seq<nat>, live: set<nat>, n: nat)
    requires Account(replied, queued, live, n)
    ensures Account(replied + multiset{n}, queued, live + {n} - {n}, n + 1)
  {
    assert AllCalls(n)[n] == 0;
    assert (replied + Bag(queued))[n] == 0;
    assert n !in queued;
  }

  /** A call is queued. */
  lemma AccountEnrols(replied: multiset<nat>, queued: seq<nat>, live: set<nat>, n: nat)
    requires Account(replied, queued, live, n)
    ensures Account(replied, queued + [n], live + {n}, n + 1)
  {
    BagConcat(queued, [n]);
    assert Bag([n]) == multiset{n};
  }

  /** Callbacks are made for the first calls of the queue. */
  lemma AccountPays(replied: multiset<nat>, paid: seq<nat>, left: seq<nat>, live: set<nat>, n: nat)
    requires Account(replied, paid + left, live, n)
    ensures Account(replied + Bag(paid), left, live - SetOf(paid), n)
  {
    BagConcat(paid, left);
    forall call ensures call in live - SetOf(paid) <==> call in left {
      assert AllCalls(n)[call] <= 1;
      assert (replied + Bag(paid) + Bag(left))[call] <= 1;
      assert call in paid + left <==> call in paid || call in left;
    }
  }

  ghost predicate Sane(s: Server) {
    Shape(s.mirror) && Consistent(s.world) && Balanced(s)
  }

  lemma {:induction false} IdsConcat(a: seq<Job>, b: seq<Job>)
    ensures Ids(a + b) == Ids(a) + Ids(b)
  {
    if b == [] {
      assert a + b == a;
    } else {
      var n := |b| - 1;
      assert (a + b)[..|a + b| - 1] == a + b[..n];
      IdsConcat(a, b[..n]);
      assert Ids(a) + Ids(b[..n]) + IdOf(b[n].finished) == Ids(a) + (Ids(b[..n]) + IdOf(b[n].finished));
    }
  }

  lemma {:induction false} CallbackIdsConcat(a: seq<Obs>, b: seq<Obs>)
    ensures CallbackIds(a + b) == CallbackIds(a) + CallbackIds(b)
  {
    if b == [] {
      assert a + b == a;
    } else {
      assert Init(a + b) == a + Init(b);
      CallbackIdsConcat(a, Init(b));
      var x := if IsDone(Last(b)) then IdOf(Last(b).act.finished) else [];
      assert CallbackIds(a) + CallbackIds(Init(b)) + x == CallbackIds(a) + (CallbackIds(Init(b)) + x);
    }
  }

  /** In a legitimate record callbacks are made in the order of submission. */
  lemma {:induction false} CallbacksInOrder(t: seq<Obs>)
    requires Legit(t)
    ensures Completions(t) <= |Jobs(t)|
    ensures CallbackIds(t) == Ids(Jobs(t)[..Completions(t)])
  {
    if t != [] {
      CallbacksInOrder(Init(t));
      var before, o := Init(t), Last(t);
      var jobs, done := Jobs(before), Completions(before);
      if IsDone(o) {
        assert jobs[..done + 1][..done] == jobs[..done];
      } else {
        assert Jobs(t)[..done] == jobs[..done];
      }
    }
  }

  lemma RecordAccount(t: seq<Obs>)
    requires Legit(t)
    ensures CallbackIds(t) + Ids(Waiting(t)) == Ids(Jobs(t))
  {
    CallbacksInOrder(t);
    IdsSplit(Jobs(t), Completions(t));
  }

  lemma IdsSplit(jobs: seq<Job>, n: nat)
    requires n <= |jobs|
    ensures Ids(jobs[..n]) + Ids(jobs[n..]) == Ids(jobs)
  {
    assert jobs == jobs[..n] + jobs[n..];
    IdsConcat(jobs[..n], jobs[n..]);
  }

  /** What the callbacks for a stretch of record do to the desk. */
  lemma {:induction false} CallBacksPay(d: Desk, t: seq<Obs>)
    ensures var d' := CallBack(d, ActsOf(t));
            && CallIds(d'.replies) == CallIds(d.replies) + CallbackIds(t)
            && d'.next == d.next
            && d'.live == d.live - SetOf(CallbackIds(t))
  {
    if t != [] {
      CallBacksPay(d, Init(t));
      var o := Last(t);
      if o.Did? {
        var acts := ActsOf(Init(t));
        assert (acts + [o.act])[..|acts|] == acts;
      } else {
        assert ActsOf(t) == ActsOf(Init(t)) + [] == ActsOf(Init(t));
      }
    }
  }

  /** A step adds at most the given job, and what it adds to the record is what
      `Fresh` finds. */
  lemma StepAppends(w: World, e: Protocol.Stimulus)
    requires WellFormed(w.station) && LegalStimulus(e)
    ensures var t' := Step(w, e).trace;
            t' == w.trace + Fresh(w.trace, t')
    ensures Jobs(Step(w, e).trace) == Jobs(w.trace) + if e.Submit? then [e.job] else []
  {
    hide Jobs, Advance, Answer, Enqueue;
    StepJobs(w, e);
    SendsGrow(w, e);
  }

  /** What an allowed step pays out and what stays queued is what was queued and
      what it added. */
  lemma StepPays(w: World, e: Protocol.Stimulus)
    requires Consistent(w) && LegalStimulus(e) && Allowed(w.station, e)
    ensures var t' := Step(w, e).trace;
            CallbackIds(Fresh(w.trace, t')) + Ids(Waiting(t')) ==
            Ids(Waiting(w.trace)) + (if e.Submit? then IdOf(e.job.finished) else [])
  {
    StepKeeps(w, e);
    hide Waiting, Jobs, Legit, Step, CallbackIds, Consistent, Allowed, Ids, Fresh;
    var t, t' := w.trace, Step(w, e).trace;
    QueuedIsWaiting(w);
    QueuedIsWaiting(Step(w, e));
    StepAppends(w, e);
    RecordAccount(t);
    RecordAccount(t');
    CallbackIdsConcat(t, Fresh(t, t'));
    var added := if e.Submit? then [e.job] else [];
    IdsConcat(Jobs(t), added);
    IdsOfAdded(e);
    var paid, left := CallbackIds(Fresh(t, t')), Ids(Waiting(t'));
    Regroup(CallbackIds(t), paid, left);
    Regroup(CallbackIds(t), Ids(Waiting(t)), Ids(added));
    SamePrefix(CallbackIds(t), paid + left, Ids(Waiting(t)) + Ids(added));
  }

  lemma IdsOfAdded(e: Protocol.Stimulus)
    ensures Ids(if e.Submit? then [e.job] else []) == if e.Submit? then IdOf(e.job.finished) else []
  {
    if e.Submit? {
      assert [e.job][..0] == [];
    }
  }

  lemma Regroup<T>(a: seq<T>, b: seq<T>, c: seq<T>)
    ensures a + b + c == a + (b + c)
  {
  }

  lemma SamePrefix<T>(p: seq<T>, a: seq<T>, b: seq<T>)
    requires p + a == p + b
    ensures a == b
  {
    assert a == (p + a)[|p|..] && b == (p + b)[|p|..];
  }

  /** Working the queue keeps the account, if the desk has been opened for the call
      the event submits. */
  lemma WorkBalances(s: Server, e: Protocol.Stimulus)
    requires Consistent(s.world) && LegalStimulus(e) && Allowed(s.world.station, e)
    requires Account(Bag(CallIds(s.desk.replies)),
                     Ids(Waiting(s.world.trace)) + (if e.Submit? then IdOf(e.job.finished) else []),
                     s.desk.live, s.desk.next)
    ensures Consistent(Work(s, e).world) && Balanced(Work(s, e))
    ensures Work(s, e).mirror == s.mirror && Work(s, e).desk.next == s.desk.next
  {
    assert WellFormed(s.world.station);
    hide Step, Waiting, Ids, CallbackIds, ActsOf, Fresh, Consistent, CallBack, Account, SetOf, CallIds, Bag;
    StepKeeps(s.world, e);
    StepPays(s.world, e);
    var t' := Step(s.world, e).trace;
    var news := Fresh(s.world.trace, t');
    CallBacksPay(s.desk, news);
    BagConcat(CallIds(s.desk.replies), CallbackIds(news));
    AccountPays(Bag(CallIds(s.desk.replies)), CallbackIds(news), Ids(Waiting(t')), s.desk.live, s.desk.next);
  }

  /** The limits, for turns: nothing is queued into a full ring, and no tick gives
      up the only message. */
  predicate AllowedTurn(s: Server, t: Turn)
    requires Shape(s.mirror) && WellFormed(s.world.station) && LegalTurn(s, t)
  {
    match t
    case Called(c, _, _) => CallVerdict(s.mirror, c).Queued? ==> Occupancy(s.world.station) < SLOTS - 1
    case Inward(x, listener, _) => React(s.mirror, x, listener).queued != [] ==> Occupancy(s.world.station) < SLOTS - 1
    case Other(e) => Allowed(s.world.station, e)
  }

  lemma RefusalKeeps(s: Server, status: int)
    requires Sane(s)
    ensures Balanced(s.(desk := Respond(Open(s.desk), s.desk.next, status)))
  {
    hide Waiting, Ids, Consistent, Shape, Account, Bag;
    var d, call := s.desk, s.desk.next;
    assert CallIds(d.replies + [Reply(call, status)]) == CallIds(d.replies) + [call];
    BagConcat(CallIds(d.replies), [call]);
    assert Bag([call]) == multiset{call} by { SingleBag(call); }
    AccountRefuses(Bag(CallIds(d.replies)), Ids(Waiting(s.world.trace)), d.live, call);
  }

  lemma SingleBag(n: nat)
    ensures Bag([n]) == multiset{n}
  {
  }

  lemma QueuedCallKeeps(s: Server, msg: seq<byte>, now: int, written: int)
    requires Sane(s) && 1 <= |msg| <= MAX_MESSAGE_SIZE && Occupancy(s.world.station) < SLOTS - 1 && Sendable(|msg|)
    ensures var r := Work(s.(desk := Open(s.desk)), Submit(Job(msg, Some(s.desk.next)), now, written));
            Consistent(r.world) && Balanced(r) && r.mirror == s.mirror
  {
    hide Waiting, Ids, Work, Shape, Pending, Sound, LinkAgrees, SlotsFor, Account, CallIds, Bag;
    var call := s.desk.next;
    AccountEnrols(Bag(CallIds(s.desk.replies)), Ids(Waiting(s.world.trace)), s.desk.live, call);
    WorkBalances(s.(desk := Open(s.desk)), Submit(Job(msg, Some(call)), now, written));
  }

  lemma ServeKeeps(s: Server, c: Call, now: int, written: int)
    requires Sane(s) && Fits(CallVerdict(s.mirror, c)) && AllowedTurn(s, Called(c, now, written))
    ensures Sane(Serve(s, c, now, written))
  {
    assert WellFormed(s.world.station);
    hide Waiting, Ids, Consistent, CallVerdict, AllCalls, Work, Shape, Refreshed, Balanced;
    if CallVerdict(s.mirror, c).Rejected? {
      RefusalKeeps(s, Shown(c, CallVerdict(s.mirror, c).status));
    } else {
      var msg := CallVerdict(s.mirror, c).msg;
      QueuedCallKeeps(s, msg, now, written);
      var r := Work(s.(desk := Open(s.desk)), Submit(Job(msg, Some(s.desk.next)), now, written));
      SameAccount(r, Serve(s, c, now, written));
    }
  }

  lemma SameAccount(a: Server, b: Server)
    requires a.world == b.world && a.desk == b.desk
    ensures Balanced(a) ==> Balanced(b)
  {
  }

  /** Every allowed turn keeps the account. */
  lemma TakeKeeps(s: Server, t: Turn)
    requires Sane(s) && LegalTurn(s, t) && AllowedTurn(s, t)
    ensures Sane(Take(s, t))
  {
    assert WellFormed(s.world.station);
    hide Consistent, Waiting, Ids, Work, Shape, React, Serve, AllCalls;
    match t
    case Called(c, now, written) => ServeKeeps(s, c, now, written);
    case Inward(x, listener, written) =>
      var e := React(s.mirror, x, listener);
      QueuedByFrames(s.mirror, x, listener);
      if e.queued != [] {
        var submit := Submit(Job(e.queued[0], None), x.now, written);
        var told := s.(mirror := e.panel);
        assert Ids(Waiting(s.world.trace)) + IdOf(None) == Ids(Waiting(s.world.trace));
        WorkBalances(told, submit);
      }
    case Other(e) =>
      assert Ids(Waiting(s.world.trace)) + [] == Ids(Waiting(s.world.trace));
      WorkBalances(s, e);
  }

  /** The limits are exactly what sanity needs. */
  lemma TakeKeepsExactly(s: Server, t: Turn)
    requires Sane(s) && LegalTurn(s, t)
    ensures Sane(Take(s, t)) <==> AllowedTurn(s, t)
  {
    assert WellFormed(s.world.station);
    hide Consistent, Waiting, Ids, Shape, React, AllCalls, Step, Allowed, Balanced, CallVerdict;
    if AllowedTurn(s, t) {
      TakeKeeps(s, t);
    } else {
      match t
      case Called(c, now, written) =>
        Disallowed(s.world, Submit(Job(CallVerdict(s.mirror, c).msg, Some(s.desk.next)), now, written));
      case Inward(x, listener, written) =>
        QueuedByFrames(s.mirror, x, listener);
        Disallowed(s.world, Submit(Job(React(s.mirror, x, listener).queued[0], None),
                                   x.now, written));
      case Other(e) => Disallowed(s.world, e);
    }
  }

  lemma Disallowed(w: World, e: Protocol.Stimulus)
    requires Consistent(w) && LegalStimulus(e)
    requires e.Submit? ==> Occupancy(w.station) == SLOTS - 1
    requires !e.Submit? ==> !Allowed(w.station, e)
    ensures !Consistent(Step(w, e))
  {
    StepKeepsExactly(w, e);
  }

  // ---------------------------------------------------------------------- runs

  /** The server after a run; None if a turn broke the limits. */
  function Day(turns: seq<Turn>): (s: Option<Server>)
    ensures s.Some? ==> Shape(s.value.mirror) && WellFormed(s.value.world.station)
  {
    if turns == [] then Some(POWER_UP)
    else
      var before := Day(turns[..|turns| - 1]);
      var t := turns[|turns| - 1];
      if before.Some? && LegalTurn(before.value, t) && AllowedTurn(before.value, t)
      then Some(Take(before.value, t)) else None
  }

  lemma {:induction false} DaysAreSane(turns: seq<Turn>)
    requires Day(turns).Some?
    ensures Sane(Day(turns).value)
  {
    if turns == [] {
      BootConsistent();
    } else {
      DaysAreSane(turns[..|turns| - 1]);
      TakeKeeps(Day(turns[..|turns| - 1]).value, turns[|turns| - 1]);
    }
  }

  /** How often a call has been replied to. */
  function RepliesTo(s: Server, call: nat): nat {
    Bag(CallIds(s.desk.replies))[call]
  }

  /** Every call received gets at most one reply, and exactly one once its message
      is no longer queued (or it was refused); its helper is freed exactly then. */
  lemma ExactlyOneReply(turns: seq<Turn>, call: nat)
    requires Day(turns).Some?
    ensures var s := Day(turns).value;
            var queued := call in Ids(Waiting(s.world.trace));
            && RepliesTo(s, call) == (if call < s.desk.next && !queued then 1 else 0)
            && (call in s.desk.live <==> queued)
            && (queued ==> call < s.desk.next)
  {
    DaysAreSane(turns);
    var s := Day(turns).value;
    hide Waiting, Ids, Consistent, Shape, Day;
    var queued := Ids(Waiting(s.world.trace));
    assert AllCalls(s.desk.next)[call] == RepliesTo(s, call) + Bag(queued)[call];
    assert call in queued <==> Bag(queued)[call] > 0;
  }

  /** Without the limit on the queue this fails: a call that finds the ring full is
      answered with an error and its helper freed, but its message and callback
      stay in the ring. */
  lemma FullQueueKeepsTheCallback(s: Server, c: Call, now: int, written: int)
    requires Sane(s) && CallVerdict(s.mirror, c).Queued? && Fits(CallVerdict(s.mirror, c))
    requires Occupancy(s.world.station) == SLOTS - 1
    ensures var r := Serve(s, c, now, written);
            var call := s.desk.next;
            && Reply(call, STATUS_QUEUE_FULL) in r.desk.replies && call !in r.desk.live
            && call in Ids(Waiting(r.world.trace))
            && !Balanced(r)
  {
    hide Legit, MustComplete, Tries, Unanswered, CallBack, CallVerdict, Refreshed, Shape, AllCalls;
    var call := s.desk.next;
    var job := Job(CallVerdict(s.mirror, c).msg, Some(call));
    var r := Serve(s, c, now, written);
    FullRingLosesSight(s.world, job, now, written);
    StepAppends(s.world, Submit(job, now, written));
    var t' := Step(s.world, Submit(job, now, written)).trace;
    assert Waiting(t')[|Waiting(t')| - 1] == job;
    assert r.desk.replies[|r.desk.replies| - 1] == Reply(call, STATUS_QUEUE_FULL);
  }
}
