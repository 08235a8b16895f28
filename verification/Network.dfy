/** The daemon and the far end on one line.

    One run drives both: the daemon takes its turns, every transmission suffers its
    fate, and what the far end answers comes back or is lost.  Each run is at once a
    run of module Replies and a run of module Channel with the same sending side,
    so an OK to a client means that its message has arrived. */
module Network {
  import opened Bytes
  import opened Framing
  import opened Outbox
  import opened Protocol
  import opened Runs
  import opened Channel
  import opened Panel
  import opened History
  import opened Commands
  import opened Replies
  import opened Session
  import opened Delivery

  datatype Net = Net(server: Server, pair: Pair)

  datatype Occurrence =
    | Turned(t: Turn, fate: Fate)   // the fate is that of the transmission it causes, if any
    | Arrived(now: int)             // the far end's answer
    | Lost

  const SWITCHED_ON := Net(POWER_UP, QUIET_LINE)

  predicate Joined(n: Net) {
    Shape(n.server.mirror) && WellFormed(n.server.world.station) && n.pair.sender == n.server.world
  }

  /** What a turn puts to the queue. */
  function StimulusOf(s: Server, t: Turn): (e: Option<Stimulus>)
    requires Shape(s.mirror) && WellFormed(s.world.station) && LegalTurn(s, t)
    ensures e.Some? ==> LegalStimulus(e.value)
  {
    match t
    case Called(c, now, written) =>
      (match CallVerdict(s.mirror, c)
       case Rejected(_) => None
       case Queued(msg) => Some(Submit(Job(msg, Some(s.desk.next)), now, written)))
    case Inward(x, listener, written) =>
      QueuedByFrames(s.mirror, x, listener);
      var queued := React(s.mirror, x, listener).queued;
      if queued == [] then None else Some(Submit(Job(queued[0], None), x.now, written))
    case Other(e) => Some(e)
  }

  lemma TurnIsStimulus(s: Server, t: Turn)
    requires Shape(s.mirror) && WellFormed(s.world.station) && LegalTurn(s, t)
    ensures var e := StimulusOf(s, t);
            Take(s, t).world == if e.None? then s.world else Step(s.world, e.value)
  {
    hide Step, React, Shape, Submission, CallBack, ActsOf, Fresh, InBounds, Refreshed;
    if t.Inward? {
      QueuedByFrames(s.mirror, t.x, t.listener);
    }
  }

  /** One occurrence; None beyond the limits of daemon or line. */
  function Occurs(n: Net, x: Occurrence): (n': Option<Net>)
    requires Joined(n)
    ensures n'.Some? ==> Joined(n'.value)
  {
    match x
    case Turned(t, fate) =>
      if (t.Other? && t.e.AnswerByte?) || !LegalTurn(n.server, t) || !AllowedTurn(n.server, t) then None
      else
        TurnIsStimulus(n.server, t);
        (match StimulusOf(n.server, t)
         case None => Some(n.(server := Take(n.server, t)))
         case Some(e) =>
           if LegalMove(n.pair, Sending(e, fate))
           then Some(Net(Take(n.server, t), MoveTo(n.pair, Sending(e, fate)))) else None)
    case Arrived(now) =>
      if n.pair.reply.None? then None
      else
        var t := Other(AnswerByte(n.pair.reply.value, now));
        TurnIsStimulus(n.server, t);
        Some(Net(Take(n.server, t), MoveTo(n.pair, ReplyArrives(now))))
    case Lost => Some(n.(pair := MoveTo(n.pair, ReplyLost)))
  }

  function Running(xs: seq<Occurrence>): (n: Option<Net>)
    ensures n.Some? ==> Joined(n.value)
  {
    if xs == [] then Some(SWITCHED_ON)
    else
      var before := Running(xs[..|xs| - 1]);
      if before.None? then None else Occurs(before.value, xs[|xs| - 1])
  }

  // --------------------------------------------------------- its two projections

  function TurnIn(n: Net, x: Occurrence): seq<Turn> {
    match x
    case Turned(t, _) => [t]
    case Arrived(now) => if n.pair.reply.Some? then [Other(AnswerByte(n.pair.reply.value, now))] else []
    case Lost => []
  }

  function MoveIn(n: Net, x: Occurrence): seq<Move>
    requires Joined(n) && (x.Turned? ==> LegalTurn(n.server, x.t))
  {
    match x
    case Turned(t, fate) =>
      (match StimulusOf(n.server, t)
       case None => []
       case Some(e) => [Sending(e, fate)])
    case Arrived(now) => [ReplyArrives(now)]
    case Lost => [ReplyLost]
  }

  function TurnsOf(xs: seq<Occurrence>): seq<Turn>
    requires Running(xs).Some?
  {
    if xs == [] then []
    else
      var n := |xs| - 1;
      TurnsOf(xs[..n]) + TurnIn(Running(xs[..n]).value, xs[n])
  }

  function MovesOf(xs: seq<Occurrence>): seq<Move>
    requires Running(xs).Some?
  {
    if xs == [] then []
    else
      var n := |xs| - 1;
      MovesOf(xs[..n]) + MoveIn(Running(xs[..n]).value, xs[n])
  }

  lemma OneMoreTurn(turns: seq<Turn>, t: Turn)
    requires Day(turns).Some? && LegalTurn(Day(turns).value, t) && AllowedTurn(Day(turns).value, t)
    ensures Day(turns + [t]) == Some(Take(Day(turns).value, t))
  {
    hide LegalTurn, AllowedTurn, Take;
    assert (turns + [t])[..|turns|] == turns;
  }

  lemma OneMoreMove(moves: seq<Move>, m: Move)
    requires RunPair(moves).Some? && LegalMove(RunPair(moves).value, m)
    ensures RunPair(moves + [m]) == Some(MoveTo(RunPair(moves).value, m))
  {
    hide LegalMove, MoveTo;
    assert (moves + [m])[..|moves|] == moves;
  }

  lemma OccurrenceProjects(n: Net, x: Occurrence, turns: seq<Turn>, moves: seq<Move>)
    requires Joined(n) && Occurs(n, x).Some?
    requires Day(turns) == Some(n.server) && RunPair(moves) == Some(n.pair)
    ensures Day(turns + TurnIn(n, x)) == Some(Occurs(n, x).value.server)
    ensures RunPair(moves + MoveIn(n, x)) == Some(Occurs(n, x).value.pair)
  {
    hide Day, RunPair, Take, MoveTo, StimulusOf, AllowedTurn, Shape;
    match x
    case Turned(t, fate) =>
      OneMoreTurn(turns, t);
      match StimulusOf(n.server, t) {
        case None => assert moves + [] == moves;
        case Some(e) => OneMoreMove(moves, Sending(e, fate));
      }
    case Arrived(now) =>
      AnswersAreAllowed(n.server, n.pair.reply.value, now);
      OneMoreTurn(turns, Other(AnswerByte(n.pair.reply.value, now)));
      OneMoreMove(moves, ReplyArrives(now));
    case Lost =>
      assert turns + [] == turns;
      OneMoreMove(moves, ReplyLost);
  }

  lemma AnswersAreAllowed(s: Server, positive: bool, now: int)
    requires Shape(s.mirror) && WellFormed(s.world.station)
    ensures LegalTurn(s, Other(AnswerByte(positive, now))) && AllowedTurn(s, Other(AnswerByte(positive, now)))
  {
  }

  /** A run of both is a run of each, with one sending side. */
  lemma {:induction false} RunProjects(xs: seq<Occurrence>)
    requires Running(xs).Some?
    ensures var n := Running(xs).value;
            && Day(TurnsOf(xs)) == Some(n.server) && RunPair(MovesOf(xs)) == Some(n.pair)
            && n.pair.sender == n.server.world
  {
    if xs != [] {
      hide Occurs, Day, RunPair, TurnIn, MoveIn, Joined;
      var n := |xs| - 1;
      RunProjects(xs[..n]);
      StaysLegal(Running(xs[..n]).value, xs[n]);
      OccurrenceProjects(Running(xs[..n]).value, xs[n], TurnsOf(xs[..n]), MovesOf(xs[..n]));
    }
    assert Joined(Running(xs).value);
  }

  lemma StaysLegal(n: Net, x: Occurrence)
    requires Joined(n) && Occurs(n, x).Some?
    ensures x.Turned? ==> LegalTurn(n.server, x.t)
  {
    hide AllowedTurn, StimulusOf, Take, MoveTo, LegalMove;
  }

  // ------------------------------------------------------------------ what an OK means

  /** A call whose message was queued and that has been answered OK has its message in
      the far end's inbox, whatever the line has lost or garbled. */
  lemma OkMeansDelivered(xs: seq<Occurrence>, call: nat)
    requires Running(xs).Some?
    requires Reply(call, STATUS_OK) in Running(xs).value.server.desk.replies
    ensures Day(TurnsOf(xs)).Some? && call < |Verdicts(TurnsOf(xs))|
    ensures var v := Verdicts(TurnsOf(xs))[call];
            v.Queued? ==> v.msg in Running(xs).value.pair.inbox
  {
    RunProjects(xs);
    hide Running, Verdicts, Day, RunPair;
    AnsweredIsDelivered(TurnsOf(xs), MovesOf(xs), call);
  }

  lemma OneMoreOccurrence(xs: seq<Occurrence>)
    requires xs != [] && Running(xs).Some?
    ensures var n := |xs| - 1;
            && Running(xs[..n]).Some? && Occurs(Running(xs[..n]).value, xs[n]).Some?
            && TurnsOf(xs) == TurnsOf(xs[..n]) + TurnIn(Running(xs[..n]).value, xs[n])
            && (xs[n].Turned? ==> TurnIn(Running(xs[..n]).value, xs[n]) == [xs[n].t])
  {
    hide Occurs;
  }

  lemma {:induction false} TurnAt(xs: seq<Occurrence>, k: nat)
    requires Running(xs).Some? && k < |xs| && xs[k].Turned?
    ensures Running(xs[..k]).Some?
    ensures TurnsOf(xs[..k]) + [xs[k].t] <= TurnsOf(xs)
  {
    hide *;
    OneMoreOccurrence(xs);
    var n := |xs| - 1;
    var more := TurnIn(Running(xs[..n]).value, xs[n]);
    if k < n {
      assert xs[..n][k] == xs[k] && xs[..n][..k] == xs[..k];
      TurnAt(xs[..n], k);
      PrefixMore(TurnsOf(xs[..k]) + [xs[k].t], TurnsOf(xs[..n]), more);
    }
  }

  lemma PrefixMore<T>(p: seq<T>, a: seq<T>, b: seq<T>)
    requires p <= a
    ensures p <= a + b
  {
  }

  /** Where a turn of a run stands among its turns. */
  lemma TurnPlace(xs: seq<Occurrence>, k: nat)
    requires Running(xs).Some? && k < |xs| && xs[k].Turned?
    ensures Running(xs[..k]).Some?
    ensures var turns, at := TurnsOf(xs), |TurnsOf(xs[..k])|;
            && at < |turns| && turns[..at] == TurnsOf(xs[..k]) && turns[at] == xs[k].t
            && Day(turns[..at]) == Some(Running(xs[..k]).value.server) && Day(turns).Some?
  {
    hide *;
    TurnAt(xs, k);
    RunProjects(xs);
    RunProjects(xs[..k]);
  }

  /** A bypass from call to panel: when it is passed on at all and answered OK, the
      keypress with the user's PIN and the zone has reached the other end. */
  lemma BypassReachesPanel(xs: seq<Occurrence>, k: nat, fate: Fate, now: int, written: int, listener: bool,
                           z: int, bypass: bool, user: int)
    requires Running(xs).Some? && HeardWith(TurnsOf(xs), listener)
    requires k < |xs| && xs[k] == Turned(Called(Command(SetBypass(z, bypass, user)), now, written), fate)
    ensures Running(xs[..k]).Some?
    ensures var h := InputsIn(TurnsOf(xs[..k]));
            var call := Running(xs[..k]).value.server.desk.next;
            Reply(call, STATUS_OK) in Running(xs).value.server.desk.replies && BypassPasses(h, z, bypass, user) ==>
              BypassMessage(h, z, user) in Running(xs).value.pair.inbox
  {
    TurnPlace(xs, k);
    hide Running, TurnsOf, Day, Verdicts, BypassMessage, InputsIn, BypassPasses, HeardWith;
    BypassVerdict(TurnsOf(xs), |TurnsOf(xs[..k])|, now, written, listener, z, bypass, user);
    var call := Running(xs[..k]).value.server.desk.next;
    if Reply(call, STATUS_OK) in Running(xs).value.server.desk.replies {
      OkMeansDelivered(xs, call);
    }
  }

  lemma BypassVerdict(turns: seq<Turn>, k: nat, now: int, written: int, listener: bool, z: int, bypass: bool, user: int)
    requires Day(turns).Some? && HeardWith(turns, listener)
    requires k < |turns| && turns[k] == Called(Command(SetBypass(z, bypass, user)), now, written)
    ensures Day(turns[..k]).Some? && Day(turns[..k]).value.desk.next < |Verdicts(turns)|
    ensures var h := InputsIn(turns[..k]);
            var v := Verdicts(turns)[Day(turns[..k]).value.desk.next];
            BypassPasses(h, z, bypass, user) ==> v == Queued(BypassMessage(h, z, user))
  {
    hide Verdicts, Submission, BypassMessage, After, Bounded, InputsIn, BypassPasses;
    VerdictOfCall(turns, k);
    HeardBefore(turns, k, listener);
    hide Day, HeardWith;
    MirrorIsHistory(turns[..k], listener);
    BypassAfter(InputsIn(turns[..k]), listener, z, bypass, user);
  }

  lemma HeardBefore(turns: seq<Turn>, k: nat, listener: bool)
    requires k <= |turns| && HeardWith(turns, listener)
    ensures HeardWith(turns[..k], listener)
  {
  }

  // -------------------------------------------------------------- such a run exists

  /** A client asks for a refresh; the request gets through, and so does its answer. */
  function Asking(): seq<Occurrence> {
    [Turned(Called(RefreshAll, 0, 0), Clean), Arrived(1)]
  }

  /** The far end on a clean line. */
  lemma CleanDelivery(payload: seq<byte>)
    requires LegalPayload(payload)
    ensures var (r, outcomes) := Feed(Idle, Arriving(payload, Clean));
            r == Idle && Delivered(outcomes) == [payload] && Answers(outcomes) == [ACK]
  {
    hide Feed;
    RoundTrip(Idle, payload);
    LastIsDelivered(|Encode(payload)| - 1, payload);
  }

  const REQUEST := Job([EQUIP_LIST_REQUEST], Some(0))

  lemma RequestSent()
    ensures var w := Step(BOOT, Submit(REQUEST, 0, 0));
            && w.station == Attempted(REQUEST, 1, 0)
            && w.trace == [Submitted(REQUEST), Did(Transmitted(Encode(REQUEST.msg)))]
            && Sends(w.trace) == 1 && Sends(BOOT.trace) == 0
  {
    hide Encode;
    FirstAttempt(REQUEST);
    Observe([], Submitted(REQUEST));
    Observe([Submitted(REQUEST)], Did(Transmitted(Encode(REQUEST.msg))));
    var t := Step(BOOT, Submit(REQUEST, 0, 0)).trace;
    assert t == [] + [Submitted(REQUEST)] + [Did(Transmitted(Encode(REQUEST.msg)))];
  }

  const REFRESH_CALL := Called(RefreshAll, 0, 0)

  lemma RequestIsStimulus()
    ensures Joined(SWITCHED_ON) && LegalTurn(POWER_UP, REFRESH_CALL) && AllowedTurn(POWER_UP, REFRESH_CALL)
    ensures StimulusOf(POWER_UP, REFRESH_CALL) == Some(Submit(REQUEST, 0, 0))
  {
    BlankIsShaped();
    hide Shape, BLANK;
  }

  /** The desk after the call ... */
  lemma CallOpened()
    ensures Joined(SWITCHED_ON) && LegalTurn(POWER_UP, REFRESH_CALL)
    ensures Take(POWER_UP, REFRESH_CALL).desk == Desk([], {0}, 1)
  {
    RequestIsStimulus();
    hide Shape, BLANK, Serve, Enqueue, Encode;
    ServeIsServeDesk(POWER_UP, RefreshAll, 0, 0);
    RequestActs();
    var waiting := Open(POWER_UP.desk);
    assert waiting == Desk([], {0}, 1);
    NothingCalledBack(waiting);
  }

  lemma RequestActs()
    ensures var (_, acts, status) := Enqueue(START, REQUEST.msg, REQUEST.finished, 0, 0);
            acts == [Transmitted(Encode(REQUEST.msg))] && status == STATUS_OK
  {
    hide Encode;
  }

  lemma NothingCalledBack(d: Desk)
    ensures CallBack(d, [Transmitted(Encode(REQUEST.msg))]) == d
  {
    hide Encode;
    assert [Transmitted(Encode(REQUEST.msg))][..0] == [];
  }

  /** ... and after the answer. */
  lemma Acknowledged(s: Server)
    requires Shape(s.mirror) && s.world.station == Attempted(REQUEST, 1, 0) && s.desk == Desk([], {0}, 1)
    ensures Take(s, Other(AnswerByte(true, 1))).desk == Desk([Reply(0, STATUS_OK)], {}, 1)
  {
    FreshActs(s.world, AnswerByte(true, 1));
    AnswerActs();
    ReplyMade(s.desk);
    hide Shape, Fresh, ActsOf, Step, Answer, CallBack, Attempted;
  }

  lemma AnswerActs()
    ensures Answer(Attempted(REQUEST, 1, 0), AnswerCode(true), 1).1 == [Completed(Some(0), STATUS_OK)]
  {
  }

  lemma ReplyMade(d: Desk)
    requires d == Desk([], {0}, 1)
    ensures CallBack(d, [Completed(Some(0), STATUS_OK)]) == Desk([Reply(0, STATUS_OK)], {}, 1)
  {
    assert [Completed(Some(0), STATUS_OK)][..0] == [];
  }

  lemma CallOccurs()
    ensures var n := Occurs(SWITCHED_ON, Turned(REFRESH_CALL, Clean));
            && n.Some? && n.value.server.world.station == Attempted(REQUEST, 1, 0)
            && n.value.server.desk == Desk([], {0}, 1)
            && n.value.pair == Pair(n.value.server.world, Idle, [REQUEST.msg], Some(true))
  {
    RequestIsStimulus();
    CallOpened();
    RequestSent();
    CleanDelivery(REQUEST.msg);
    TurnIsStimulus(POWER_UP, REFRESH_CALL);
    hide Feed, Take, Shape, BLANK, StimulusOf, Step, LegalTurn, AllowedTurn, Encode;
    assert [] + [REQUEST.msg] == [REQUEST.msg];
  }

  /** The theorems above speak of something: in this run the call is answered OK, and
      the request is all that has arrived. */
  lemma OneCallIsAnswered()
    ensures Running(Asking()).Some?
    ensures var n := Running(Asking()).value;
            && n.server.desk.replies == [Reply(0, STATUS_OK)] && n.server.desk.live == {}
            && n.pair.inbox == [[EQUIP_LIST_REQUEST]]
  {
    CallOccurs();
    var call := Turned(REFRESH_CALL, Clean);
    assert Asking()[..1] == [call] && [call][..0] == [];
    assert Running([]) == Some(SWITCHED_ON) && Running([call]) == Occurs(SWITCHED_ON, call);
    var n := Running([call]).value;
    Acknowledged(n.server);
    hide Occurs, Take, MoveTo;
    AnswerOccurs(n);
  }

  lemma AnswerOccurs(n: Net)
    requires Joined(n) && n.pair.reply == Some(true)
    ensures var n' := Occurs(n, Arrived(1));
            && n'.Some? && n'.value.server == Take(n.server, Other(AnswerByte(true, 1)))
            && n'.value.pair.inbox == n.pair.inbox
  {
    hide Take, Shape, Step;
  }
}
