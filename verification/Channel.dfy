/** Two endpoints over a lossy line.

    The sender is a world of module Protocol; the other end runs the receiver of
    module Framing and answers.  The line may cut any transmission short, change
    what one payload or checksum byte reads as, and lose any answer.  An answer
    that has not arrived when its message is sent again, or given up, never
    arrives.  What comes out is what went in, in order, each finished message
    repeated at most three times, and at least once if it was reported OK. */
module Channel {
  import opened Bytes
  import opened Framing
  import opened Outbox
  import opened Protocol
  import opened Runs

  /** What the line does to one transmission. */
  datatype Fate = Clean | CutAt(length: nat) | Garbled(text: seq<byte>)

  datatype Pair = Pair(
    sender: World,
    receiver: Receiver,
    inbox: seq<seq<byte>>,      // payloads delivered at the far end
    reply: Option<bool>)        // answer on its way back: ACK or NAK

  datatype Move =
    | Sending(e: Stimulus, fate: Fate)   // a submission or a tick
    | ReplyArrives(now: int)
    | ReplyLost

  const QUIET_LINE := Pair(BOOT, Idle, [], None)

  /** A fate this line can inflict on a frame for `payload`. */
  predicate Possible(payload: seq<byte>, fate: Fate) {
    |payload| <= MAX_MESSAGE_SIZE &&
    match fate
    case Clean => true
    case CutAt(n) => n < |Encode(payload)|
    case Garbled(text) => OneByteGarbled(payload, text)
  }

  function Arriving(payload: seq<byte>, fate: Fate): seq<byte>
    requires Possible(payload, fate)
  {
    match fate
    case Clean => Encode(payload)
    case CutAt(n) => Encode(payload)[..n]
    case Garbled(text) => [START_OF_MESSAGE] + text
  }

  predicate LegalMove(p: Pair, m: Move)
    requires WellFormed(p.sender.station)
  {
    match m
    case Sending(e, fate) =>
      && !e.AnswerByte? && LegalStimulus(e) && Allowed(p.sender.station, e)
      && (Sends(Step(p.sender, e).trace) > Sends(p.sender.trace) ==>
          Possible(Step(p.sender, e).station.output, fate))
    case ReplyArrives(_) => p.reply.Some?
    case ReplyLost => true
  }

  function MoveTo(p: Pair, m: Move): (p': Pair)
    requires WellFormed(p.sender.station) && LegalMove(p, m)
    ensures WellFormed(p'.sender.station)
  {
    match m
    case Sending(e, fate) =>
      var w := Step(p.sender, e);
      SendsGrow(p.sender, e);
      if Sends(w.trace) == Sends(p.sender.trace) then p.(sender := w)
      else
        var (r, outcomes) := Feed(p.receiver, Arriving(w.station.output, fate));
        Pair(w, r, p.inbox + Delivered(outcomes),
             if Answers(outcomes) == [] then None else Some(Answers(outcomes)[0] == ACK))
    case ReplyArrives(now) =>
      p.(sender := Step(p.sender, AnswerByte(p.reply.value, now)), reply := None)
    case ReplyLost => p.(reply := None)
  }

  /** The far end either delivers and acknowledges, or delivers nothing and does
      not acknowledge. */
  lemma DeliveryIsAcknowledged(r: Receiver, payload: seq<byte>, fate: Fate)
    requires payload != [] && Possible(payload, fate)
    ensures var outcomes := Feed(r, Arriving(payload, fate)).1;
            || (Delivered(outcomes) == [payload] && Answers(outcomes) == [ACK])
            || (Delivered(outcomes) == [] && (Answers(outcomes) == [] || Answers(outcomes) == [NAK]))
  {
    hide Feed, Encode, Delivered, Answers, OneByteGarbled;
    match fate
    case Clean =>
      if LegalPayload(payload) {
        RoundTrip(r, payload);
        LastIsDelivered(|Encode(payload)| - 1, payload);
      } else {
        WrongLengthIsSilent(r, payload);
        NothingDelivered(Feed(r, Encode(payload)).1);
      }
    case CutAt(n) => TruncatedFrameIsSilent(r, payload, n);
    case Garbled(text) => GarblingIsNoticed(r, payload, text);
  }

  lemma GarblingIsNoticed(r: Receiver, payload: seq<byte>, text: seq<byte>)
    requires |payload| <= MAX_MESSAGE_SIZE && OneByteGarbled(payload, text)
    ensures var outcomes := Feed(r, [START_OF_MESSAGE] + text).1;
            Delivered(outcomes) == [] && (Answers(outcomes) == [] || Answers(outcomes) == [NAK])
  {
    if LegalPayload(payload) {
      GarbledFrameIsRefused(r, payload, text);
      NothingDelivered(Repeat(Quiet, |text|));
      DeliveredConcat(Repeat(Quiet, |text|), [Refused]);
      assert Delivered([Refused]) == [] && Answers([Refused]) == [NAK];
    } else {
      assert PairValue(text[0], text[1]) == Values(text)[0] == FrameValues(payload)[0];
      BadLengthByte(text);
      FeedPiece(r, text);
      NothingDelivered(Feed(r, [START_OF_MESSAGE] + text).1);
    }
  }

  // ------------------------------------------------------------ what is claimed

  /** Completion statuses, in order. */
  function Statuses(t: seq<Obs>): (statuses: seq<int>)
    ensures |statuses| == Completions(t)
  {
    if t == [] then []
    else if IsDone(Last(t)) then Statuses(Init(t)) + [Last(t).act.status]
    else Statuses(Init(t))
  }

  /** Each job repeated as often as `copies` says. */
  function Replay(jobs: seq<Job>, copies: seq<nat>): seq<seq<byte>>
    requires |jobs| == |copies|
  {
    if jobs == [] then []
    else
      var n := |jobs| - 1;
      Replay(jobs[..n], copies[..n]) + Repeat(jobs[n].msg, copies[n])
  }

  /** `copies` explains the deliveries: at most one a transmission, none for a
      message not sent yet, and at least one for every message reported OK. */
  predicate Explains(t: seq<Obs>, inbox: seq<seq<byte>>, copies: seq<nat>) {
    var done := Completions(t);
    && |copies| == |Jobs(t)| && done <= |Jobs(t)|
    && inbox == Replay(Jobs(t), copies)
    && (forall j :: 0 <= j < done ==> copies[j] <= MAX_ATTEMPTS)
    && (forall j :: 0 <= j < done ==> Statuses(t)[j] == STATUS_OK ==> copies[j] >= 1)
    && (done < |Jobs(t)| ==> copies[done] <= Tries(t))
    && (forall j :: done < j < |Jobs(t)| ==> copies[j] == 0)
  }

  /** ... and, if an ACK is on its way back, its message has arrived. */
  predicate Accounts(p: Pair, copies: seq<nat>) {
    var done := Completions(p.sender.trace);
    && Explains(p.sender.trace, p.inbox, copies)
    && (p.reply == Some(true) ==> done < |copies| && copies[done] >= 1)
  }

  ghost predicate Faithful(p: Pair) {
    && Consistent(p.sender)
    && (p.reply.Some? ==> Unanswered(p.sender.trace))
    && exists copies :: Accounts(p, copies)
  }

  // ------------------------------------------------- one observation at a time

  lemma {:induction false} ReplayPut(jobs: seq<Job>, copies: seq<nat>, d: nat)
    requires |jobs| == |copies| && d < |jobs|
    requires forall j :: d < j < |jobs| ==> copies[j] == 0
    ensures Replay(jobs, copies[d := copies[d] + 1]) == Replay(jobs, copies) + [jobs[d].msg]
  {
    var n := |jobs| - 1;
    var more := copies[d := copies[d] + 1];
    if d == n {
      assert more[..n] == copies[..n];
      assert Repeat(jobs[n].msg, copies[n] + 1) == Repeat(jobs[n].msg, copies[n]) + [jobs[n].msg];
      assert Replay(jobs, more) == Replay(jobs[..n], copies[..n]) + Repeat(jobs[n].msg, copies[n] + 1);
    } else {
      assert more[..n] == copies[..n][d := copies[d] + 1];
      ReplayPut(jobs[..n], copies[..n], d);
      assert Repeat(jobs[n].msg, 0) == [];
    }
  }

  lemma ObserveStatus(t: seq<Obs>, o: Obs)
    ensures Statuses(t + [o]) == if IsDone(o) then Statuses(t) + [o.act.status] else Statuses(t)
  {
    assert Init(t + [o]) == t;
  }

  lemma ExplainSubmitted(t: seq<Obs>, inbox: seq<seq<byte>>, copies: seq<nat>, job: Job)
    requires Explains(t, inbox, copies)
    ensures Explains(t + [Submitted(job)], inbox, copies + [0])
  {
    hide Statuses, Jobs, Completions, Tries;
    Observe(t, Submitted(job));
    ObserveStatus(t, Submitted(job));
    assert (Jobs(t) + [job])[..|Jobs(t)|] == Jobs(t) && (copies + [0])[..|copies|] == copies;
    assert Repeat(job.msg, 0) == [];
  }

  lemma ExplainHeard(t: seq<Obs>, inbox: seq<seq<byte>>, copies: seq<nat>, positive: bool)
    requires Explains(t, inbox, copies)
    ensures Explains(t + [Heard(positive)], inbox, copies)
  {
    hide Statuses, Jobs, Completions, Tries;
    Observe(t, Heard(positive));
    ObserveStatus(t, Heard(positive));
  }

  /** A transmission, of which a copy arrives or not. */
  lemma ExplainSent(t: seq<Obs>, inbox: seq<seq<byte>>, copies: seq<nat>, wire: seq<byte>, arrived: bool)
    requires Explains(t, inbox, copies) && Completions(t) < |Jobs(t)|
    ensures var d := Completions(t);
            Explains(t + [Did(Transmitted(wire))], inbox + if arrived then [Jobs(t)[d].msg] else [],
                     if arrived then copies[d := copies[d] + 1] else copies)
  {
    hide Statuses, Jobs, Completions, Tries, Replay;
    var o := Did(Transmitted(wire));
    Observe(t, o);
    ObserveStatus(t, o);
    if arrived {
      ReplayPut(Jobs(t), copies, Completions(t));
    } else {
      assert inbox + [] == inbox;
    }
  }

  lemma ExplainDone(t: seq<Obs>, inbox: seq<seq<byte>>, copies: seq<nat>, finished: Option<nat>, status: int)
    requires Explains(t, inbox, copies) && Completions(t) < |Jobs(t)| && Tries(t) <= MAX_ATTEMPTS
    requires status == STATUS_OK ==> copies[Completions(t)] >= 1
    ensures Explains(t + [Did(Completed(finished, status))], inbox, copies)
  {
    hide Statuses, Jobs, Completions, Tries, Replay;
    var o := Did(Completed(finished, status));
    Observe(t, o);
    ObserveStatus(t, o);
  }

  // ------------------------------------------------------------ one move at a time

  /** A transmission and what becomes of it. */
  lemma TransmissionAccounted(
      t: seq<Obs>, inbox: seq<seq<byte>>, copies: seq<nat>, w: World, r: Receiver, fate: Fate)
    returns (copies': seq<nat>)
    requires Explains(t, inbox, copies) && Consistent(w)
    requires var payload := w.station.output;
             && payload != [] && Possible(payload, fate)
             && w.trace == t + [Did(Transmitted(Encode(payload)))]
    ensures var outcomes := Feed(r, Arriving(w.station.output, fate)).1;
            var d := Completions(w.trace);
            && Explains(w.trace, inbox + Delivered(outcomes), copies')
            && (Answers(outcomes) == [ACK] ==> d < |copies'| && copies'[d] >= 1)
            && |Answers(outcomes)| <= 1
            && (Answers(outcomes) != [] ==> Answers(outcomes)[0] == ACK || Answers(outcomes)[0] == NAK)
  {
    hide Jobs, Completions, Tries, Legit, MustComplete, Pending, Encode, Feed, Arriving, Possible, Replay, SlotsFor;
    var payload := w.station.output;
    Observe(t, Did(Transmitted(Encode(payload))));
    assert payload == Waiting(w.trace)[0].msg == Jobs(t)[Completions(t)].msg;
    DeliveryIsAcknowledged(r, payload, fate);
    var arrived := Delivered(Feed(r, Arriving(payload, fate)).1) == [payload];
    ExplainSent(t, inbox, copies, Encode(payload), arrived);
    copies' := if arrived then copies[Completions(t) := copies[Completions(t)] + 1] else copies;
  }

  lemma CompletionAccounted(t: seq<Obs>, inbox: seq<seq<byte>>, copies: seq<nat>, finished: Option<nat>, status: int)
    requires Explains(t, inbox, copies) && Legit(t + [Did(Completed(finished, status))])
    requires status == STATUS_OK ==> Completions(t) < |copies| && copies[Completions(t)] >= 1
    ensures Explains(t + [Did(Completed(finished, status))], inbox, copies)
  {
    Observe(t, Did(Completed(finished, status)));
    SendsOfRecord(t);
    ExplainDone(t, inbox, copies, finished, status);
  }

  /** The update that ends a submission or is a tick. */
  lemma UpdateAccounted(t: seq<Obs>, s: Station, p: Pair, copies: seq<nat>, now: int, written: int, fate: Fate)
    returns (copies': seq<nat>)
    requires Consistent(World(s, t)) && !GivesUpLast(s, now)
    requires Explains(t, p.inbox, copies)
    requires p.reply.Some? ==> Unanswered(t)
    requires p.reply == Some(true) ==> Completions(t) < |copies| && copies[Completions(t)] >= 1
    ensures var (s', acts, _) := Advance(s, now, written);
            var w := World(s', t + Log(acts));
            && Consistent(w)
            && (if acts == [] then w.trace == t && Accounts(p.(sender := w), copies')
                else
                  && Sends(w.trace) == Sends(t) + 1
                  && (Possible(w.station.output, fate) ==>
                      var (r, outcomes) := Feed(p.receiver, Arriving(w.station.output, fate));
                      && Unanswered(w.trace)
                      && Accounts(Pair(w, r, p.inbox + Delivered(outcomes),
                             if Answers(outcomes) == [] then None else Some(Answers(outcomes)[0] == ACK)), copies')))
  {
    hide Jobs, Completions, Tries, Legit, Sends, Unanswered, Sound, LinkAgrees, Pending, SlotsFor, Waiting;
    hide Encode, Feed, Arriving, Possible, Explains, GivesUpLast, Advance;
    AdvanceKeeps(World(s, t), now, written);
    AdvanceShape(World(s, t), now, written);
    var (s', acts, _) := Advance(s, now, written);
    var w := World(s', t + Log(acts));
    copies' := copies;
    if acts == [] {
      assert w.trace == t;
    } else {
      var sent := Did(Transmitted(Encode(s'.output)));
      var t1 := t + Log(acts[..|acts| - 1]);
      assert w.trace == t1 + [sent];
      Observe(t1, sent);
      if |acts| == 1 {
        assert t1 == t;
      } else {
        var finished := acts[0].finished;
        assert t1 == t + [Did(Completed(finished, STATUS_TIMEOUT))];
        QueuedIsWaiting(w);
        Observe(t, Did(Completed(finished, STATUS_TIMEOUT)));
        CompletionAccounted(t, p.inbox, copies, finished, STATUS_TIMEOUT);
      }
      if Possible(s'.output, fate) {
        copies' := TransmissionAccounted(t1, p.inbox, copies, w, p.receiver, fate);
      }
    }
  }

  lemma SendingKeeps(p: Pair, e: Stimulus, fate: Fate, copies: seq<nat>)
    returns (copies': seq<nat>)
    requires Consistent(p.sender) && LegalMove(p, Sending(e, fate)) && Accounts(p, copies)
    requires p.reply.Some? ==> Unanswered(p.sender.trace)
    ensures var p' := MoveTo(p, Sending(e, fate));
            Consistent(p'.sender) && (p'.reply.Some? ==> Unanswered(p'.sender.trace)) && Accounts(p', copies')
  {
    hide Jobs, Completions, Tries, Legit, Sends, Unanswered, Sound, LinkAgrees, Pending, SlotsFor, Waiting;
    hide Encode, Feed, Arriving, Possible, Explains, GivesUpLast, Advance;
    var t := p.sender.trace;
    match e
    case Submit(job, now, written) =>
      var slot := Slot(job.msg, 0, job.finished);
      Observe(t, Submitted(job));
      StoreKeeps(p.sender, job);
      NotAboutToGiveUp(p.sender, job, now);
      ExplainSubmitted(t, p.inbox, copies, job);
      AccountsBound(p, copies);
      copies' := UpdateAccounted(t + [Submitted(job)], Store(p.sender.station, slot), p, copies + [0],
                                 now, written, fate);
    case Tick(now, written) =>
      copies' := UpdateAccounted(t, p.sender.station, p, copies, now, written, fate);
  }

  lemma AccountsBound(p: Pair, copies: seq<nat>)
    requires Accounts(p, copies)
    ensures Completions(p.sender.trace) <= |copies|
  {
  }

  /** An answer that arrives. */
  lemma ReplyKeeps(p: Pair, now: int, copies: seq<nat>)
    requires Consistent(p.sender) && p.reply.Some? && Unanswered(p.sender.trace) && Accounts(p, copies)
    ensures var p' := MoveTo(p, ReplyArrives(now));
            Consistent(p'.sender) && Accounts(p', copies)
  {
    hide Jobs, Completions, Tries, Legit, MustComplete, Pending, SlotsFor, Waiting, Explains, Unanswered;
    var positive := p.reply.value;
    AnswerKeeps(p.sender, positive, now);
    QueuedIsWaiting(p.sender);
    var h := AfterAnswer(p.sender, positive);
    Observe(p.sender.trace, Heard(positive));
    ExplainHeard(p.sender.trace, p.inbox, copies, positive);
    PendingOnlyRing(h.station, p.sender.station);
    SettlesHead(h.station, now);
    var acts := Settle(h.station, now).1;
    if acts == [] {
      assert h.trace + Log([]) == h.trace;
    } else {
      assert Log(acts) == [Did(acts[0])];
      QueuedIsWaiting(Step(p.sender, AnswerByte(positive, now)));
      CompletionAccounted(h.trace, p.inbox, copies, acts[0].finished, acts[0].status);
    }
  }

  lemma MoveKeeps(p: Pair, m: Move)
    requires Faithful(p) && LegalMove(p, m)
    ensures Faithful(MoveTo(p, m))
  {
    hide Accounts, Unanswered;
    var copies :| Accounts(p, copies);
    match m
    case Sending(e, fate) =>
      var copies' := SendingKeeps(p, e, fate, copies);
    case ReplyArrives(now) =>
      ReplyKeeps(p, now, copies);
    case ReplyLost =>
      assert Accounts(MoveTo(p, m), copies) by { NoReplyAccounts(p, copies); }
  }

  lemma NoReplyAccounts(p: Pair, copies: seq<nat>)
    requires Accounts(p, copies)
    ensures Accounts(p.(reply := None), copies)
  {
  }

  // ---------------------------------------------------------------------- runs

  /** The pair after a run; None if a move was not legal where it was made. */
  function RunPair(moves: seq<Move>): (res: Option<Pair>)
    ensures res.Some? ==> WellFormed(res.value.sender.station)
  {
    if moves == [] then Some(QUIET_LINE)
    else
      var before := RunPair(moves[..|moves| - 1]);
      var m := moves[|moves| - 1];
      if before.Some? && LegalMove(before.value, m) then Some(MoveTo(before.value, m)) else None
  }

  lemma {:induction false} RunsAreFaithful(moves: seq<Move>)
    requires RunPair(moves).Some?
    ensures Faithful(RunPair(moves).value)
  {
    if moves == [] {
      BootConsistent();
      assert Accounts(QUIET_LINE, []);
    } else {
      RunsAreFaithful(moves[..|moves| - 1]);
      MoveKeeps(RunPair(moves[..|moves| - 1]).value, moves[|moves| - 1]);
    }
  }

  lemma TriesAreFew(w: World)
    requires Consistent(w)
    ensures Tries(w.trace) <= MAX_ATTEMPTS
  {
    SendsOfRecord(w.trace);
  }

  /** End to end: in every run the far end has received the submitted messages in
      order, each finished one at most three times and at least once if it was
      reported OK, the one at the head at most as often as it was sent, and the
      rest not at all. */
  lemma DeliveryLog(moves: seq<Move>)
    requires RunPair(moves).Some?
    ensures var p := RunPair(moves).value;
            var t := p.sender.trace;
            var done := Completions(t);
            exists copies: seq<nat> ::
              && |copies| == |Jobs(t)| && done <= |Jobs(t)| && done == |Statuses(t)|
              && p.inbox == Replay(Jobs(t), copies)
              && (forall j :: 0 <= j < done ==> copies[j] <= 3 && (Statuses(t)[j] == STATUS_OK ==> copies[j] >= 1))
              && (done < |Jobs(t)| ==> copies[done] <= Tries(t) <= 3)
              && (forall j :: done < j < |Jobs(t)| ==> copies[j] == 0)
  {
    hide RunPair, Jobs, Completions, Tries, Statuses, Replay, Legit, Pending, SlotsFor, Waiting, Unanswered;
    RunsAreFaithful(moves);
    var p := RunPair(moves).value;
    TriesAreFew(p.sender);
    var copies :| Accounts(p, copies);
  }
}
