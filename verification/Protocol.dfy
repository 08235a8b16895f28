/** The sending side, step by step.

    A world is a station with the record of everything observable that has
    happened to it.  The record is judged by `Legit`, an automaton over
    observations that knows nothing of rings, heads or tails: messages are
    served in the order of submission, each is sent at most three times, OK is
    reported on an ACK of the last transmission and failure only after the
    third.  What ties ring, link and record together is kept by every step within
    the stated limits; module Runs says what follows for whole runs. */
module Protocol {
  import opened Bytes
  import opened Framing
  import opened Link
  import opened Outbox

  datatype Job = Job(msg: seq<byte>, finished: Option<nat>)

  datatype Stimulus =
    | Submit(job: Job, now: int, written: int)
    | Tick(now: int, written: int)
    | AnswerByte(positive: bool, now: int)

  datatype Obs =
    | Submitted(job: Job)
    | Heard(positive: bool)
    | Did(act: Act)

  datatype World = World(station: Station, trace: seq<Obs>)

  const BOOT := World(START, [])

  function Log(acts: seq<Act>): seq<Obs> {
    seq(|acts|, i requires 0 <= i < |acts| => Did(acts[i]))
  }

  /** A message the sender accepts and can lay out in its staging array. */
  predicate LegalJob(job: Job) {
    1 <= |job.msg| <= MAX_MESSAGE_SIZE && Sendable(|job.msg|)
  }

  predicate LegalStimulus(e: Stimulus) {
    e.Submit? ==> LegalJob(e.job)
  }

  function AnswerCode(positive: bool): byte {
    if positive then ACK else NAK
  }

  function Step(w: World, e: Stimulus): (w': World)
    requires WellFormed(w.station) && LegalStimulus(e)
    ensures WellFormed(w'.station)
  {
    match e
    case Submit(job, now, written) =>
      var (s, acts, _) := Enqueue(w.station, job.msg, job.finished, now, written);
      World(s, w.trace + [Submitted(job)] + Log(acts))
    case Tick(now, written) =>
      var (s, acts, _) := Advance(w.station, now, written);
      World(s, w.trace + Log(acts))
    case AnswerByte(positive, now) =>
      var (s, acts) := Answer(w.station, AnswerCode(positive), now);
      World(s, if w.station.response != 0 then w.trace else w.trace + [Heard(positive)] + Log(acts))
  }

  // ------------------------------------------------- reading off a record

  function Jobs(t: seq<Obs>): seq<Job> {
    if t == [] then []
    else if Last(t).Submitted? then Jobs(Init(t)) + [Last(t).job]
    else Jobs(Init(t))
  }

  predicate IsDone(o: Obs) { o.Did? && o.act.Completed? }
  predicate IsSend(o: Obs) { o.Did? && o.act.Transmitted? }

  /** How many messages have been reported finished. */
  function Completions(t: seq<Obs>): nat {
    if t == [] then 0 else Completions(Init(t)) + if IsDone(Last(t)) then 1 else 0
  }

  function Sends(t: seq<Obs>): nat {
    if t == [] then 0 else Sends(Init(t)) + if IsSend(Last(t)) then 1 else 0
  }

  /** Transmissions since the last completion. */
  function Tries(t: seq<Obs>): nat {
    if t == [] || IsDone(Last(t)) then 0
    else Tries(Init(t)) + if IsSend(Last(t)) then 1 else 0
  }

  /** The last transmission has been neither answered nor given up. */
  predicate Unanswered(t: seq<Obs>) {
    if t == [] then false
    else if Last(t).Submitted? then Unanswered(Init(t))
    else IsSend(Last(t))
  }

  /** An answer has just been heard that ends the message at the head. */
  predicate MustComplete(t: seq<Obs>) {
    t != [] && Last(t).Heard? && (Last(t).positive || Tries(t) >= MAX_ATTEMPTS)
  }

  /** What may be observed next. */
  predicate LegitNext(t: seq<Obs>, o: Obs) {
    var j := Completions(t);
    match o
    case Submitted(job) => !MustComplete(t) && LegalJob(job) && |Jobs(t)| - j < SLOTS - 1
    case Heard(_) => Unanswered(t)
    case Did(Transmitted(wire)) =>
      && !MustComplete(t) && Tries(t) < MAX_ATTEMPTS
      && j < |Jobs(t)| && |Jobs(t)[j].msg| <= MAX_MESSAGE_SIZE && wire == Encode(Jobs(t)[j].msg)
    case Did(Completed(finished, status)) =>
      && j < |Jobs(t)| && finished == Jobs(t)[j].finished
      && (|| (status == STATUS_OK && MustComplete(t) && Last(t).positive)
          || (status == STATUS_NAK && MustComplete(t) && !Last(t).positive && Tries(t) == MAX_ATTEMPTS)
          || (status == STATUS_TIMEOUT && Unanswered(t) && Tries(t) == MAX_ATTEMPTS))
  }

  predicate Legit(t: seq<Obs>) {
    t == [] || (Legit(Init(t)) && LegitNext(Init(t), Last(t)))
  }

  lemma {:induction false} SendsMonotone(t: seq<Obs>, more: seq<Obs>)
    ensures Sends(t + more) >= Sends(t)
  {
    if more == [] {
      assert t + more == t;
    } else {
      assert Init(t + more) == t + Init(more);
      SendsMonotone(t, Init(more));
    }
  }

  /** Records only grow. */
  lemma SendsGrow(w: World, e: Stimulus)
    requires WellFormed(w.station) && LegalStimulus(e)
    ensures w.trace <= Step(w, e).trace
    ensures Sends(Step(w, e).trace) >= Sends(w.trace)
  {
    hide Sends, Advance, Answer, Enqueue;
    var t' := Step(w, e).trace;
    assert t' == w.trace + t'[|w.trace|..];
    SendsMonotone(w.trace, t'[|w.trace|..]);
  }

  // -------------------------------------------------- the ring as a FIFO

  /** Position of the i-th message from the head. */
  function Index(s: Station, i: nat): (k: nat)
    requires WellFormed(s) && i < SLOTS
    ensures k < SLOTS
  {
    if s.head + i < SLOTS then s.head + i else s.head + i - SLOTS
  }

  /** The queued messages, head first. */
  function Pending(s: Station): (p: seq<Slot>)
    requires WellFormed(s)
    ensures |p| == Occupancy(s)
    ensures forall i :: 0 <= i < |p| ==> p[i] == s.slots[Index(s, i)]
  {
    seq(Occupancy(s), i requires 0 <= i < Occupancy(s) => s.slots[Index(s, i)])
  }

  function Store(s: Station, slot: Slot): Station
    requires WellFormed(s)
  {
    s.(slots := s.slots[s.tail := slot], tail := NextCell(s.tail))
  }

  function Pop(s: Station): Station
    requires WellFormed(s)
  {
    s.(head := NextCell(s.head))
  }

  /** Seven messages fit; the eighth makes the ring look empty. */
  lemma RingStores(s: Station, slot: Slot)
    requires WellFormed(s) && |slot.msg| <= MAX_MESSAGE_SIZE
    ensures WellFormed(Store(s, slot))
    ensures Pending(Store(s, slot)) == if Occupancy(s) < SLOTS - 1 then Pending(s) + [slot] else []
  {
    var p := Pending(Store(s, slot));
    if Occupancy(s) < SLOTS - 1 {
      assert p[Occupancy(s)] == slot;
      assert p[..Occupancy(s)] == Pending(s);
    }
  }

  /** Popping takes the first message; popping an empty ring makes it look full. */
  lemma RingPops(s: Station)
    requires WellFormed(s)
    ensures WellFormed(Pop(s))
    ensures if Occupancy(s) > 0 then Pending(Pop(s)) == Pending(s)[1..] else Occupancy(Pop(s)) == SLOTS - 1
  {
    if Occupancy(s) > 0 {
      forall i | 0 <= i < Occupancy(s) - 1 ensures Pending(Pop(s))[i] == Pending(s)[i + 1] {
        assert Index(Pop(s), i) == Index(s, i + 1);
      }
    }
  }

  lemma RingTouchesHead(s: Station, slot: Slot)
    requires WellFormed(s) && Occupancy(s) > 0 && |slot.msg| <= MAX_MESSAGE_SIZE
    ensures var s' := s.(slots := s.slots[s.head := slot]);
            WellFormed(s') && Pending(s') == Pending(s)[0 := slot]
  {
    var s' := s.(slots := s.slots[s.head := slot]);
    forall i | 0 < i < Occupancy(s) ensures Pending(s')[i] == Pending(s)[i] {
      assert Index(s, i) != s.head;
    }
  }

  // ----------------------------------------------------------- invariant

  /** The jobs not finished yet. */
  function Waiting(t: seq<Obs>): seq<Job> {
    if Completions(t) <= |Jobs(t)| then Jobs(t)[Completions(t)..] else []
  }

  /** Queue contents for those jobs: only the first has been sent, `tries` times. */
  function SlotsFor(jobs: seq<Job>, tries: nat): (p: seq<Slot>)
    requires tries <= MAX_ATTEMPTS
    ensures |p| == |jobs|
    ensures forall i :: 0 <= i < |p| ==> p[i] == Slot(jobs[i].msg, if i == 0 then tries else 0, jobs[i].finished)
  {
    seq(|jobs|, i requires 0 <= i < |jobs| => Slot(jobs[i].msg, if i == 0 then tries else 0, jobs[i].finished))
  }

  /** The link's view of the record: an answer is due exactly while the queue's
      callback is installed, and then the message on the line is the head and has
      been sent one to three times; otherwise it has been sent at most twice. */
  predicate LinkAgrees(s: Station, t: seq<Obs>) {
    && (s.response == 0 || IsAnswer(s.response))
    && (s.response == 0 <==> s.armed)
    && (s.armed <==> Unanswered(t))
    && (Waiting(t) == [] ==> Tries(t) == 0)
    && if s.armed then Waiting(t) != [] && s.output == Waiting(t)[0].msg && 1 <= Tries(t) <= MAX_ATTEMPTS
       else Tries(t) < MAX_ATTEMPTS
  }

  predicate Sound(t: seq<Obs>) {
    && Legit(t) && !MustComplete(t) && Completions(t) <= |Jobs(t)|
    && forall job :: job in Jobs(t) ==> LegalJob(job)
  }

  predicate Consistent(w: World) {
    && WellFormed(w.station)
    && Sound(w.trace)
    && LinkAgrees(w.station, w.trace)
    && Pending(w.station) == SlotsFor(Waiting(w.trace), Tries(w.trace))
  }

  /** The message at the head is about to be given up and nothing follows it. */
  predicate GivesUpLast(s: Station, now: int)
    requires WellFormed(s)
  {
    s.armed && Ready(s, now) == STATUS_TIMEOUT && s.slots[s.head].attempts >= MAX_ATTEMPTS && Occupancy(s) == 1
  }

  /** The limits the code relies on: no submission into a full ring, and no tick
      that gives up the only message. */
  predicate Allowed(s: Station, e: Stimulus)
    requires WellFormed(s)
  {
    match e
    case Submit(_, _, _) => Occupancy(s) < SLOTS - 1
    case Tick(now, _) => !GivesUpLast(s, now)
    case AnswerByte(_, _) => true
  }

  // ------------------------------------------------- one observation at a time

  lemma Observe(t: seq<Obs>, o: Obs)
    ensures Init(t + [o]) == t && Last(t + [o]) == o
    ensures Jobs(t + [o]) == if o.Submitted? then Jobs(t) + [o.job] else Jobs(t)
    ensures Completions(t + [o]) == Completions(t) + if IsDone(o) then 1 else 0
    ensures Tries(t + [o]) == if IsDone(o) then 0 else Tries(t) + if IsSend(o) then 1 else 0
    ensures Unanswered(t + [o]) == if o.Submitted? then Unanswered(t) else IsSend(o)
    ensures Sends(t + [o]) == Sends(t) + if IsSend(o) then 1 else 0
    ensures Legit(t + [o]) == (Legit(t) && LegitNext(t, o))
    ensures MustComplete(t + [o]) == (o.Heard? && (o.positive || Tries(t) >= MAX_ATTEMPTS))
  {
    assert Init(t + [o]) == t;
  }

  lemma SlotsForMore(jobs: seq<Job>, job: Job, tries: nat)
    requires tries <= MAX_ATTEMPTS && (jobs == [] ==> tries == 0)
    ensures SlotsFor(jobs + [job], tries) == SlotsFor(jobs, tries) + [Slot(job.msg, 0, job.finished)]
  {
  }

  lemma SubmissionIsSound(t: seq<Obs>, job: Job)
    requires Sound(t) && LegalJob(job) && |Waiting(t)| < SLOTS - 1
    ensures Sound(t + [Submitted(job)])
    ensures Waiting(t + [Submitted(job)]) == Waiting(t) + [job]
  {
    hide Jobs, Completions, Tries, Unanswered, Legit, MustComplete;
    Observe(t, Submitted(job));
  }

  /** Storing a message at the tail. */
  lemma StoreKeeps(w: World, job: Job)
    requires Consistent(w) && LegalJob(job) && Occupancy(w.station) < SLOTS - 1
    ensures Consistent(World(Store(w.station, Slot(job.msg, 0, job.finished)), w.trace + [Submitted(job)]))
  {
    hide Sound, Tries, Unanswered, Waiting, Pending, SlotsFor, Jobs, Completions, Sends, Legit, MustComplete;
    Observe(w.trace, Submitted(job));
    SubmissionIsSound(w.trace, job);
    SlotsForMore(Waiting(w.trace), job, Tries(w.trace));
    RingStores(w.station, Slot(job.msg, 0, job.finished));
  }

  lemma TransmitsHead(s: Station, now: int, written: int)
    requires WellFormed(s) && Occupancy(s) > 0
    requires Pending(s)[0].msg != [] && Pending(s)[0].attempts < MAX_ATTEMPTS
    ensures var (s', acts, _) := Transmit(s, now, written);
            var m := Pending(s)[0];
            && acts == [Transmitted(Encode(m.msg))]
            && Pending(s') == Pending(s)[0 := m.(attempts := m.attempts + 1)]
            && s'.armed && s'.response == 0 && s'.output == m.msg
  {
    hide Encode;
    var (s', _, _) := Transmit(s, now, written);
    var m := s.slots[s.head];
    assert m == Pending(s)[0];
    RingTouchesHead(s, m.(attempts := m.attempts + 1));
    assert Pending(s') == Pending(s.(slots := s'.slots));
  }

  /** Between giving up on an answer and the next transmission. */
  predicate Ripe(w: World) {
    && WellFormed(w.station) && Sound(w.trace) && !w.station.armed
    && Tries(w.trace) < MAX_ATTEMPTS && (Waiting(w.trace) == [] ==> Tries(w.trace) == 0)
    && Pending(w.station) == SlotsFor(Waiting(w.trace), Tries(w.trace))
  }

  lemma RipeHead(w: World)
    requires Ripe(w) && Occupancy(w.station) > 0
    ensures Waiting(w.trace) != [] && LegalJob(Waiting(w.trace)[0])
    ensures var job := Waiting(w.trace)[0];
            Pending(w.station)[0] == Slot(job.msg, Tries(w.trace), job.finished)
  {
    hide Jobs, Completions, Tries, Unanswered, Legit, MustComplete, Pending;
    assert Waiting(w.trace)[0] in Jobs(w.trace);
  }

  /** Transmitting the head, once no answer is due any more. */
  lemma TransmitKeeps(w: World, now: int, written: int)
    requires Ripe(w) && Occupancy(w.station) > 0
    ensures var (s, acts, _) := Transmit(w.station, now, written);
            Consistent(World(s, w.trace + Log(acts)))
  {
    hide Jobs, Completions, Tries, Unanswered, Legit, MustComplete, Pending, Encode, Transmit;
    var (s', acts, _) := Transmit(w.station, now, written);
    var job := Waiting(w.trace)[0];
    RipeHead(w);
    TransmitsHead(w.station, now, written);
    var o := Did(Transmitted(Encode(job.msg)));
    assert Log(acts) == [o];
    Observe(w.trace, o);
    assert SlotsFor(Waiting(w.trace + [o]), Tries(w.trace + [o]))
        == SlotsFor(Waiting(w.trace), Tries(w.trace))[0 := Slot(job.msg, Tries(w.trace) + 1, job.finished)];
  }

  lemma LogConcat(a: seq<Act>, b: seq<Act>)
    ensures Log(a + b) == Log(a) + Log(b)
  {
  }

  /** What Settle does to the ring. */
  lemma SettlesHead(s: Station, now: int)
    requires WellFormed(s) && Occupancy(s) > 0
    ensures var (s', acts) := Settle(s, now);
            var m := Pending(s)[0];
            && s' == (if acts == [] then s else Pop(s)).(armed := false)
            && acts == (if Ready(s, now) == STATUS_OK || m.attempts >= MAX_ATTEMPTS
                        then [Completed(m.finished, Ready(s, now))] else [])
            && Pending(s') == if acts == [] then Pending(s) else Pending(s)[1..]
  {
    RingPops(s);
    var s' := Settle(s, now).0;
    assert Pending(s') == Pending(s'.(armed := s.armed));
  }

  /** A message leaves the head of the queue. */
  lemma SlotsForRest(jobs: seq<Job>, tries: nat)
    requires jobs != [] && tries <= MAX_ATTEMPTS
    ensures SlotsFor(jobs, tries)[1..] == SlotsFor(jobs[1..], 0)
  {
  }

  /** A completion that may be observed takes the first waiting job. */
  lemma CompletionIsSound(t: seq<Obs>, status: int)
    requires Legit(t) && Waiting(t) != [] && forall job :: job in Jobs(t) ==> LegalJob(job)
    requires LegitNext(t, Did(Completed(Waiting(t)[0].finished, status)))
    ensures var t' := t + [Did(Completed(Waiting(t)[0].finished, status))];
            Sound(t') && Waiting(t') == Waiting(t)[1..] && Tries(t') == 0 && !Unanswered(t')
  {
    hide Jobs, Completions, Tries, Unanswered, Legit, MustComplete;
    Observe(t, Did(Completed(Waiting(t)[0].finished, status)));
  }

  lemma TimeoutCompletes(w: World, now: int)
    requires Consistent(w) && w.station.armed && Ready(w.station, now) == STATUS_TIMEOUT
    requires Tries(w.trace) == MAX_ATTEMPTS
    ensures var (s, acts) := Settle(w.station, now);
            Ripe(World(s, w.trace + Log(acts))) && Occupancy(s) == Occupancy(w.station) - 1 && |acts| == 1
  {
    hide Jobs, Completions, Tries, Unanswered, Legit, MustComplete, Pending, Settle, SlotsFor;
    var t := w.trace;
    SettlesHead(w.station, now);
    assert Log(Settle(w.station, now).1) == [Did(Completed(Waiting(t)[0].finished, STATUS_TIMEOUT))];
    SlotsForRest(Waiting(t), Tries(t));
    CompletionIsSound(t, STATUS_TIMEOUT);
  }

  /** The answer did not come in time. */
  lemma TimeoutKeeps(w: World, now: int)
    requires Consistent(w) && w.station.armed && Ready(w.station, now) == STATUS_TIMEOUT
    ensures var (s, acts) := Settle(w.station, now);
            && Ripe(World(s, w.trace + Log(acts)))
            && Occupancy(s) == Occupancy(w.station) - |acts|
  {
    hide Sound, Tries, Unanswered, Pending, Settle, SlotsFor, Waiting;
    if Tries(w.trace) == MAX_ATTEMPTS {
      TimeoutCompletes(w, now);
    } else {
      QueuedIsWaiting(w);
      SettlesHead(w.station, now);
      assert w.trace + Log([]) == w.trace;
    }
  }

  /** The world just after an answer byte, before the callback. */
  function AfterAnswer(w: World, positive: bool): World {
    World(w.station.(response := AnswerCode(positive)), w.trace + [Heard(positive)])
  }

  /** What the callback then does to the ring. */
  lemma AnswerEndsHead(w: World, positive: bool, now: int)
    requires Consistent(w) && w.station.response == 0 && (positive || Tries(w.trace) == MAX_ATTEMPTS)
    ensures Waiting(w.trace) != []
    ensures var (s, acts) := Settle(AfterAnswer(w, positive).station, now);
            && acts == [Completed(Waiting(w.trace)[0].finished, if positive then STATUS_OK else STATUS_NAK)]
            && !s.armed && IsAnswer(s.response)
            && Pending(s) == SlotsFor(Waiting(w.trace)[1..], 0)
  {
    hide Jobs, Completions, Tries, Unanswered, Sound, Pending, Settle, SlotsFor;
    var h := AfterAnswer(w, positive);
    PendingOnlyRing(h.station, w.station);
    SettlesHead(h.station, now);
    SlotsForRest(Waiting(w.trace), Tries(w.trace));
  }

  /** ... and to the record. */
  lemma HeardCompletion(t: seq<Obs>, positive: bool)
    requires Sound(t) && Waiting(t) != [] && Unanswered(t) && (positive || Tries(t) == MAX_ATTEMPTS)
    ensures var act := Completed(Waiting(t)[0].finished, if positive then STATUS_OK else STATUS_NAK);
            var t' := t + [Heard(positive)] + [Did(act)];
            Sound(t') && Waiting(t') == Waiting(t)[1..] && Tries(t') == 0 && !Unanswered(t')
  {
    hide Jobs, Completions, Tries, Unanswered, Legit, MustComplete;
    Observe(t, Heard(positive));
    assert Waiting(t + [Heard(positive)]) == Waiting(t);
    CompletionIsSound(t + [Heard(positive)], if positive then STATUS_OK else STATUS_NAK);
  }

  /** An ACK, or a NAK to the third attempt, ends the message. */
  lemma AnswerCompletes(w: World, positive: bool, now: int)
    requires Consistent(w) && w.station.response == 0 && (positive || Tries(w.trace) == MAX_ATTEMPTS)
    ensures var h := AfterAnswer(w, positive);
            var (s, acts) := Settle(h.station, now);
            Consistent(World(s, h.trace + Log(acts)))
  {
    hide Sound, Waiting, Tries, Unanswered, Pending, Settle, SlotsFor;
    AnswerEndsHead(w, positive, now);
    HeardCompletion(w.trace, positive);
    var act := Completed(Waiting(w.trace)[0].finished, if positive then STATUS_OK else STATUS_NAK);
    assert Log([act]) == [Did(act)];
  }

  lemma HeardRetry(t: seq<Obs>)
    requires Sound(t) && Unanswered(t) && Tries(t) < MAX_ATTEMPTS
    ensures var t' := t + [Heard(false)];
            Sound(t') && Waiting(t') == Waiting(t) && Tries(t') == Tries(t) && !Unanswered(t')
  {
    hide Jobs, Completions, Tries, Unanswered, Legit, MustComplete;
    Observe(t, Heard(false));
  }

  /** A NAK to an earlier attempt leaves the message where it is. */
  lemma AnswerRetries(w: World, now: int)
    requires Consistent(w) && w.station.response == 0 && Tries(w.trace) != MAX_ATTEMPTS
    ensures var h := AfterAnswer(w, false);
            var (s, acts) := Settle(h.station, now);
            Consistent(World(s, h.trace + Log(acts)))
  {
    hide Sound, Waiting, Tries, Unanswered, Pending, Settle, SlotsFor;
    var h := AfterAnswer(w, false);
    HeardRetry(w.trace);
    PendingOnlyRing(h.station, w.station);
    SettlesHead(h.station, now);
    assert h.trace + Log([]) == h.trace;
  }

  lemma AnswerKeeps(w: World, positive: bool, now: int)
    requires Consistent(w)
    ensures Consistent(Step(w, AnswerByte(positive, now)))
  {
    hide Sound, Waiting, Tries, Pending, Settle, SlotsFor, Unanswered;
    if w.station.response == 0 {
      if positive || Tries(w.trace) == MAX_ATTEMPTS {
        AnswerCompletes(w, positive, now);
      } else {
        AnswerRetries(w, now);
      }
    }
  }

  lemma PendingOnlyRing(a: Station, b: Station)
    requires WellFormed(a) && WellFormed(b) && a.slots == b.slots && a.head == b.head && a.tail == b.tail
    ensures Pending(a) == Pending(b)
  {
  }

  lemma AdvanceKeeps(w: World, now: int, written: int)
    requires Consistent(w) && !GivesUpLast(w.station, now)
    ensures Consistent(Step(w, Tick(now, written)))
  {
    hide Sound, LinkAgrees, Pending, Transmit, Settle, SlotsFor, Waiting, Tries;
    var s, t := w.station, w.trace;
    if s.head == s.tail || Ready(s, now) == STATUS_WAIT {
      assert t + Log([]) == t;
    } else if Ready(s, now) == STATUS_TIMEOUT {
      RespondsIffArmed(w);
      HeadAttempts(w);
      TimeoutKeeps(w, now);
      var (s1, done) := Settle(s, now);
      var w1 := World(s1, t + Log(done));
      TransmitKeeps(w1, now, written);
      var (s2, wires, _) := Transmit(s1, now, written);
      LogConcat(done, wires);
      assert w1.trace + Log(wires) == t + Log(done + wires);
    } else {
      RespondsIffArmed(w);
      var (s2, wires, _) := Transmit(s, now, written);
      TransmitKeeps(w, now, written);
      assert [] + wires == wires;
    }
  }

  lemma RespondsIffArmed(w: World)
    requires Consistent(w)
    ensures w.station.response == 0 <==> w.station.armed
    ensures w.station.response == 0 || IsAnswer(w.station.response)
    ensures !w.station.armed ==> Ripe(w)
  {
  }

  /** The attempts counted in the head slot decide whether a timeout pops it. */
  lemma HeadAttempts(w: World)
    requires Consistent(w) && Occupancy(w.station) > 0
    ensures forall now :: |Settle(w.station, now).1| <= 1
    ensures forall now :: Ready(w.station, now) == STATUS_TIMEOUT && Settle(w.station, now).1 != [] ==>
            w.station.slots[w.station.head].attempts >= MAX_ATTEMPTS
  {
  }

  /** Every allowed step keeps the invariant. */
  lemma StepKeeps(w: World, e: Stimulus)
    requires Consistent(w) && LegalStimulus(e) && Allowed(w.station, e)
    ensures Consistent(Step(w, e))
  {
    hide Sound, LinkAgrees, Pending, SlotsFor, Advance, Answer;
    match e
    case Submit(job, now, written) =>
      StoreKeeps(w, job);
      var stored := World(Store(w.station, Slot(job.msg, 0, job.finished)), w.trace + [Submitted(job)]);
      NotAboutToGiveUp(w, job, now);
      AdvanceKeeps(stored, now, written);
    case Tick(now, written) =>
      AdvanceKeeps(w, now, written);
    case AnswerByte(positive, now) =>
      AnswerKeeps(w, positive, now);
  }

  /** A message just stored is never the only one when another is given up. */
  lemma NotAboutToGiveUp(w: World, job: Job, now: int)
    requires Consistent(w) && LegalJob(job) && Occupancy(w.station) < SLOTS - 1
    ensures !GivesUpLast(Store(w.station, Slot(job.msg, 0, job.finished)), now)
  {
    RingStores(w.station, Slot(job.msg, 0, job.finished));
  }

  lemma BootConsistent()
    ensures Consistent(BOOT)
  {
  }

  lemma {:induction false} JobsOfLog(t: seq<Obs>, acts: seq<Act>)
    ensures Jobs(t + Log(acts)) == Jobs(t)
  {
    if acts == [] {
      assert t + Log(acts) == t;
    } else {
      var before := acts[..|acts| - 1];
      assert t + Log(acts) == (t + Log(before)) + [Did(acts[|acts| - 1])];
      Observe(t + Log(before), Did(acts[|acts| - 1]));
      JobsOfLog(t, before);
    }
  }

  /** Only a submission adds a job, and it adds its own. */
  lemma StepJobs(w: World, e: Stimulus)
    requires WellFormed(w.station) && LegalStimulus(e)
    ensures Jobs(Step(w, e).trace) == Jobs(w.trace) + if e.Submit? then [e.job] else []
  {
    hide Advance, Answer, Enqueue, Jobs, Completions, Tries, Sends, Legit, Unanswered, MustComplete;
    match e
    case Submit(job, now, written) =>
      Observe(w.trace, Submitted(job));
      JobsOfLog(w.trace + [Submitted(job)], Enqueue(w.station, job.msg, job.finished, now, written).1);
    case Tick(now, written) =>
      JobsOfLog(w.trace, Advance(w.station, now, written).1);
    case AnswerByte(positive, now) =>
      Observe(w.trace, Heard(positive));
      JobsOfLog(w.trace + [Heard(positive)], Answer(w.station, AnswerCode(positive), now).1);
  }

  lemma QueuedIsWaiting(w: World)
    requires Consistent(w)
    ensures |Jobs(w.trace)| == Completions(w.trace) + Occupancy(w.station)
    ensures Occupancy(w.station) == |Waiting(w.trace)|
    ensures Occupancy(w.station) > 0 ==> Pending(w.station)[0].attempts == Tries(w.trace)
    ensures Legit(w.trace)
  {
    assert |Pending(w.station)| == |Waiting(w.trace)|;
  }
}
