/** From a call to the far end.

    The reply to a call and the message behind it, put together: a call whose
    message was queued and that is answered OK has had that very message
    delivered at the other end of the line. */
module Delivery {
  import opened Bytes
  import opened Outbox
  import opened Protocol
  import opened Channel
  import opened Panel
  import opened History
  import opened Commands
  import opened Replies
  import opened Session
  import Keys

  /** The verdicts on the calls of a run, by number. */
  function Verdicts(turns: seq<Turn>): seq<Verdict>
    requires Day(turns).Some?
  {
    if turns == [] then []
    else
      var n := |turns| - 1;
      Verdicts(turns[..n]) + VerdictOf(Day(turns[..n]).value, turns[n])
  }

  function VerdictOf(s: Server, t: Turn): seq<Verdict>
    requires Shape(s.mirror)
  {
    if t.Called? then [CallVerdict(s.mirror, t.c)] else []
  }

  /** Job j of a record is finished, for this call and with this status. */
  predicate Finished(t: seq<Obs>, j: nat, reply: Reply) {
    && j < Completions(t) <= |Jobs(t)|
    && Jobs(t)[j].finished == Some(reply.call) && Statuses(t)[j] == reply.status
  }

  /** The replies that the callbacks of a record make. */
  function CallbackReplies(t: seq<Obs>): seq<Reply> {
    if t == [] then []
    else CallbackReplies(Init(t)) + RepliesOf(Last(t))
  }

  function RepliesOf(o: Obs): seq<Reply> {
    match o
    case Did(Completed(Some(call), status)) => [Reply(call, status)]
    case _ => []
  }

  lemma {:induction false} CallbackRepliesConcat(a: seq<Obs>, b: seq<Obs>)
    ensures CallbackReplies(a + b) == CallbackReplies(a) + CallbackReplies(b)
  {
    hide RepliesOf;
    if b == [] {
      assert a + b == a;
    } else {
      assert Init(a + b) == a + Init(b) && Last(a + b) == Last(b);
      CallbackRepliesConcat(a, Init(b));
      var x := RepliesOf(Last(b));
      assert CallbackReplies(a) + CallbackReplies(Init(b)) + x == CallbackReplies(a) + (CallbackReplies(Init(b)) + x);
    }
  }

  lemma {:induction false} CallBacksReply(d: Desk, t: seq<Obs>)
    ensures CallBack(d, ActsOf(t)).replies == d.replies + CallbackReplies(t)
  {
    if t != [] {
      CallBacksReply(d, Init(t));
      var o := Last(t);
      if o.Did? {
        var acts := ActsOf(Init(t));
        assert (acts + [o.act])[..|acts|] == acts;
      } else {
        assert ActsOf(t) == ActsOf(Init(t)) + [] == ActsOf(Init(t));
      }
    }
  }

  /** What is finished stays finished. */
  lemma {:induction false} FinishedStays(t: seq<Obs>, more: seq<Obs>, j: nat, reply: Reply)
    requires Finished(t, j, reply) && Legit(t + more)
    ensures Finished(t + more, j, reply)
  {
    if more == [] {
      assert t + more == t;
    } else {
      var all := t + Init(more);
      assert t + more == all + [Last(more)];
      Observe(all, Last(more));
      FinishedStays(t, Init(more), j, reply);
      ObserveStatus(all, Last(more));
    }
  }

  /** Every reply made by a callback of a legitimate record is about a finished job. */
  lemma {:induction false} RepliesAreFounded(t: seq<Obs>, reply: Reply)
    requires Legit(t) && reply in CallbackReplies(t)
    ensures exists j :: Finished(t, j, reply)
  {
    var o := Last(t);
    assert t == Init(t) + [o];
    Observe(Init(t), o);
    ObserveStatus(Init(t), o);
    if reply in CallbackReplies(Init(t)) {
      RepliesAreFounded(Init(t), reply);
      var j :| Finished(Init(t), j, reply);
      FinishedStays(Init(t), [o], j, reply);
    } else {
      assert Finished(t, Completions(Init(t)), reply);
    }
  }

  /** The queue holds the messages of the calls, and an answer to a queued call is
      that of its message. */
  ghost predicate Vouched(s: Server, verdicts: seq<Verdict>) {
    && |verdicts| == s.desk.next
    && (forall job :: job in Jobs(s.world.trace) ==> IsOf(job, verdicts))
    && (forall reply :: reply in s.desk.replies ==> Founded(s.world.trace, reply, verdicts))
  }

  predicate IsOf(job: Job, verdicts: seq<Verdict>) {
    match job.finished
    case None => true
    case Some(call) => call < |verdicts| && verdicts[call] == Queued(job.msg)
  }

  ghost predicate Founded(t: seq<Obs>, reply: Reply, verdicts: seq<Verdict>) {
    reply.call < |verdicts| && (verdicts[reply.call].Queued? ==> exists j :: Finished(t, j, reply))
  }

  /** What working the queue adds to the record and to the replies. */
  lemma WorkRecords(s: Server, e: Protocol.Stimulus)
    returns (news: seq<Obs>)
    requires Consistent(s.world) && LegalStimulus(e) && Allowed(s.world.station, e)
    ensures var t := s.world.trace;
            var r := Work(s, e);
            && r.world.trace == t + news && Legit(t + news)
            && Jobs(t + news) == Jobs(t) + (if e.Submit? then [e.job] else [])
            && r.desk.replies == s.desk.replies + CallbackReplies(news)
            && CallbackReplies(t + news) == CallbackReplies(t) + CallbackReplies(news)
            && r.desk.next == s.desk.next
  {
    assert WellFormed(s.world.station);
    hide Step, CallBack, ActsOf, Fresh, Jobs, CallbackReplies, Consistent, Legit, Waiting, Completions;
    var t, t' := s.world.trace, Step(s.world, e).trace;
    news := Fresh(t, t');
    StepKeeps(s.world, e);
    StepAppends(s.world, e);
    QueuedIsWaiting(Step(s.world, e));
    CallBacksPay(s.desk, news);
    CallBacksReply(s.desk, news);
    CallbackRepliesConcat(t, news);
  }

  /** Working the queue with a job of the calls, or none. */
  lemma WorkVouches(s: Server, e: Protocol.Stimulus, verdicts: seq<Verdict>)
    requires Consistent(s.world) && LegalStimulus(e) && Allowed(s.world.station, e)
    requires Vouched(s, verdicts)
    requires e.Submit? ==> IsOf(e.job, verdicts)
    ensures Vouched(Work(s, e), verdicts)
  {
    assert WellFormed(s.world.station);
    hide Work, Jobs, CallbackReplies, Consistent, Legit, Completions, Founded, IsOf, Allowed, LegalStimulus;
    var news := WorkRecords(s, e);
    var t := s.world.trace;
    forall reply | reply in s.desk.replies + CallbackReplies(news) ensures Founded(t + news, reply, verdicts) {
      ReplyStaysFounded(t, news, reply, verdicts, reply in s.desk.replies);
    }
  }

  lemma ReplyStaysFounded(t: seq<Obs>, news: seq<Obs>, reply: Reply, verdicts: seq<Verdict>, before: bool)
    requires Legit(t + news) && forall job :: job in Jobs(t + news) ==> IsOf(job, verdicts)
    requires if before then Founded(t, reply, verdicts) else reply in CallbackReplies(t + news)
    ensures Founded(t + news, reply, verdicts)
  {
    hide Finished, Jobs, Legit, CallbackReplies, IsOf;
    if before {
      if verdicts[reply.call].Queued? {
        var j :| Finished(t, j, reply);
        FinishedStays(t, news, j, reply);
      }
    } else {
      RepliesAreFounded(t + news, reply);
      var j :| Finished(t + news, j, reply);
      FinishedIsOf(t + news, j, reply, verdicts);
    }
  }

  lemma FinishedIsOf(t: seq<Obs>, j: nat, reply: Reply, verdicts: seq<Verdict>)
    requires Finished(t, j, reply) && forall job :: job in Jobs(t) ==> IsOf(job, verdicts)
    ensures reply.call < |verdicts| && verdicts[reply.call] == Queued(Jobs(t)[j].msg)
  {
    assert Jobs(t)[j] in Jobs(t);
  }

  lemma MoreVerdicts(s: Server, verdicts: seq<Verdict>, v: Verdict)
    requires Vouched(s, verdicts)
    ensures Vouched(s.(desk := Open(s.desk)), verdicts + [v])
  {
    hide Finished, Jobs;
    forall reply | reply in s.desk.replies ensures Founded(s.world.trace, reply, verdicts + [v]) {
      assert Founded(s.world.trace, reply, verdicts);
    }
    forall job | job in Jobs(s.world.trace) ensures IsOf(job, verdicts + [v]) {
      assert IsOf(job, verdicts);
    }
  }

  lemma CallVouches(s: Server, c: Call, now: int, written: int, verdicts: seq<Verdict>)
    requires Sane(s) && Fits(CallVerdict(s.mirror, c))
    requires AllowedTurn(s, Called(c, now, written)) && Vouched(s, verdicts)
    ensures Vouched(Serve(s, c, now, written), verdicts + [CallVerdict(s.mirror, c)])
  {
    assert WellFormed(s.world.station);
    hide Consistent, Shape, Work, Founded, IsOf, Jobs, CallVerdict, Refreshed, Allowed;
    var v := CallVerdict(s.mirror, c);
    MoreVerdicts(s, verdicts, v);
    match v
    case Rejected(_) =>
      RefusalIsFounded(s.world.trace, verdicts, Reply(s.desk.next, Shown(c, v.status)), v);
    case Queued(msg) =>
      var e := Submit(Job(msg, Some(s.desk.next)), now, written);
      OwnJob(msg, verdicts);
      RoomAllows(s.world.station, e.job, now, written);
      WorkVouches(s.(desk := Open(s.desk)), e, verdicts + [v]);
  }

  lemma InwardVouches(s: Server, x: Input, listener: bool, written: int, verdicts: seq<Verdict>)
    requires Sane(s) && InBounds(s.mirror, x) && Vouched(s, verdicts)
    requires React(s.mirror, x, listener).queued != [] ==> Occupancy(s.world.station) < SLOTS - 1
    ensures Vouched(Take(s, Inward(x, listener, written)), verdicts)
  {
    assert WellFormed(s.world.station);
    hide Consistent, Shape, React, Work, Founded, IsOf, Jobs, Allowed, InBounds;
    var e := React(s.mirror, x, listener);
    QueuedByFrames(s.mirror, x, listener);
    if e.queued != [] {
      var job := Job(e.queued[0], None);
      NobodysJob(job, verdicts);
      RoomAllows(s.world.station, job, x.now, written);
      WorkVouches(s.(mirror := e.panel), Submit(job, x.now, written), verdicts);
    }
  }

  lemma TakeVouches(s: Server, t: Turn, verdicts: seq<Verdict>)
    requires Sane(s) && LegalTurn(s, t) && AllowedTurn(s, t) && Vouched(s, verdicts)
    ensures Vouched(Take(s, t), verdicts + VerdictOf(s, t))
  {
    assert WellFormed(s.world.station);
    hide Consistent, Shape, React, Work, Founded, IsOf, Jobs, Serve, CallVerdict, Allowed, InBounds;
    match t
    case Called(c, now, written) => CallVouches(s, c, now, written, verdicts);
    case Inward(x, listener, written) =>
      assert verdicts + [] == verdicts;
      InwardVouches(s, x, listener, written, verdicts);
    case Other(e) =>
      assert verdicts + [] == verdicts;
      WorkVouches(s, e, verdicts);
  }

  lemma RoomAllows(s: Station, job: Job, now: int, written: int)
    requires WellFormed(s) && Occupancy(s) < SLOTS - 1
    ensures Allowed(s, Submit(job, now, written))
  {
  }

  lemma OwnJob(msg: seq<byte>, verdicts: seq<Verdict>)
    ensures IsOf(Job(msg, Some(|verdicts|)), verdicts + [Queued(msg)])
  {
  }

  lemma NobodysJob(job: Job, verdicts: seq<Verdict>)
    requires job.finished.None?
    ensures IsOf(job, verdicts)
  {
  }

  lemma RefusalIsFounded(t: seq<Obs>, verdicts: seq<Verdict>, reply: Reply, v: Verdict)
    requires reply.call == |verdicts| && v.Rejected?
    ensures Founded(t, reply, verdicts + [v])
  {
  }

  lemma {:induction false} DaysAreVouched(turns: seq<Turn>)
    requires Day(turns).Some?
    ensures Vouched(Day(turns).value, Verdicts(turns))
  {
    if turns != [] {
      hide Take, Vouched, LegalTurn, AllowedTurn, VerdictOf, Sane;
      var n := |turns| - 1;
      DaysAreVouched(turns[..n]);
      DaysAreSane(turns[..n]);
      TakeVouches(Day(turns[..n]).value, turns[n], Verdicts(turns[..n]));
    } else {
      NobodyCalled();
    }
  }

  lemma NobodyCalled()
    ensures Vouched(POWER_UP, [])
  {
  }

  // ------------------------------------------------------------------ the far end

  lemma {:induction false} CopyIsIn(jobs: seq<Job>, copies: seq<nat>, j: nat)
    requires |jobs| == |copies| && j < |jobs| && copies[j] >= 1
    ensures jobs[j].msg in Replay(jobs, copies)
  {
    var n := |jobs| - 1;
    if j < n {
      CopyIsIn(jobs[..n], copies[..n], j);
    } else {
      assert Repeat(jobs[n].msg, copies[n])[0] == jobs[n].msg;
    }
  }

  /** An OK vouches for delivery: in a run of the daemon and a run of the two
      endpoints with the same sending side, a call whose message was queued and that
      has been answered OK has its message in the far end's inbox.  Module Network
      makes the two one. */
  lemma AnsweredIsDelivered(turns: seq<Turn>, moves: seq<Move>, call: nat)
    requires Day(turns).Some? && RunPair(moves).Some?
    requires RunPair(moves).value.sender == Day(turns).value.world
    requires Reply(call, STATUS_OK) in Day(turns).value.desk.replies
    ensures call < |Verdicts(turns)|
    ensures Verdicts(turns)[call].Queued? ==> Verdicts(turns)[call].msg in RunPair(moves).value.inbox
  {
    hide Day, RunPair, Verdicts, Replay, Statuses;
    DaysAreVouched(turns);
    var s, verdicts, reply := Day(turns).value, Verdicts(turns), Reply(call, STATUS_OK);
    assert Founded(s.world.trace, reply, verdicts);
    if verdicts[call].Queued? {
      var t := s.world.trace;
      var j :| Finished(t, j, reply);
      FinishedIsOf(t, j, reply, verdicts);
      DeliveryLog(moves);
      var copies: seq<nat> :| |copies| == |Jobs(t)| && RunPair(moves).value.inbox == Replay(Jobs(t), copies)
        && (forall j :: 0 <= j < Completions(t) ==> copies[j] <= 3 && (Statuses(t)[j] == STATUS_OK ==> copies[j] >= 1));
      CopyIsIn(Jobs(t), copies, j);
    }
  }

  lemma {:induction false} VerdictOfCall(turns: seq<Turn>, k: nat)
    requires Day(turns).Some? && k < |turns| && turns[k].Called?
    ensures Day(turns[..k]).Some?
    ensures var s := Day(turns[..k]).value;
            s.desk.next < |Verdicts(turns)| && Verdicts(turns)[s.desk.next] == CallVerdict(s.mirror, turns[k].c)
  {
    hide CallVerdict, Take, AllowedTurn, LegalTurn;
    var n := |turns| - 1;
    DaysAreVouched(turns[..n]);
    if k < n {
      VerdictOfCall(turns[..n], k);
      assert turns[..n][..k] == turns[..k];
    }
  }
}
