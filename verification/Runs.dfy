/** Runs of the sending side: what every run within the limits keeps, that the limits
    are exactly what is needed and can be reached, and what runs cost. */
module Runs {
  import opened Bytes
  import opened Framing
  import opened Link
  import opened Outbox
  import opened Protocol

  // -------------------------------------------------------------- limits

  /** Into a full ring the message is stored, but all eight drop out of sight. */
  lemma FullRingLosesSight(w: World, job: Job, now: int, written: int)
    requires Consistent(w) && LegalJob(job) && Occupancy(w.station) == SLOTS - 1
    ensures var w' := Step(w, Submit(job, now, written));
            && Occupancy(w'.station) == 0
            && |Jobs(w'.trace)| == Completions(w'.trace) + SLOTS
            && !Consistent(w')
  {
    hide Legit, MustComplete, Tries, Unanswered, Transmit, Settle;
    RingStores(w.station, Slot(job.msg, 0, job.finished));
    Observe(w.trace, Submitted(job));
    assert w.trace + [Submitted(job)] + Log([]) == w.trace + [Submitted(job)];
    assert |Waiting(w.trace)| == |Pending(w.station)|;
    var w' := Step(w, Submit(job, now, written));
    assert |Waiting(w'.trace)| == SLOTS;
    assert |Pending(w'.station)| == 0;
  }

  /** Giving up the only message goes on to send whatever the next slot holds:
      nothing if that slot was never used, else a message finished long ago.
      An ACK to it then turns the empty ring into one with seven messages. */
  lemma StaleSlotIsSent(w: World, now: int, written: int, later: int)
    requires Consistent(w) && GivesUpLast(w.station, now)
    ensures var (s, acts, _) := Advance(w.station, now, written);
            var stale := w.station.slots[w.station.tail];
            && acts == [Completed(w.station.slots[w.station.head].finished, STATUS_TIMEOUT)]
                       + (if stale.msg == [] then [] else [Transmitted(Encode(stale.msg))])
            && s.armed && s.response == 0 && Occupancy(s) == 0
            && Occupancy(Answer(s, ACK, later).0) == SLOTS - 1
            && !Consistent(World(s, w.trace + Log(acts)))
  {
    hide Sound, Encode, Tries, Unanswered;
    var (s1, done) := Settle(w.station, now);
    RingPops(w.station);
    var (s, acts, _) := Advance(w.station, now, written);
    RingPops(s);
    assert s1.head == s1.tail == w.station.tail;
    assert Pending(s) == [];
  }

  /** The limits are exactly what the invariant needs. */
  lemma StepKeepsExactly(w: World, e: Stimulus)
    requires Consistent(w) && LegalStimulus(e)
    ensures Consistent(Step(w, e)) <==> Allowed(w.station, e)
  {
    hide Sound, LinkAgrees, Pending, SlotsFor, Advance, Answer;
    if Allowed(w.station, e) {
      StepKeeps(w, e);
    } else {
      match e
      case Submit(job, now, written) => FullRingLosesSight(w, job, now, written);
      case Tick(now, written) => StaleSlotIsSent(w, now, written, now);
    }
  }

  // ---------------------------------------------------------------- runs

  /** The world after a run from power-up. */
  function Run(events: seq<Stimulus>): (w: World)
    requires forall e :: e in events ==> LegalStimulus(e)
    ensures WellFormed(w.station)
  {
    if events == [] then BOOT else Step(Run(events[..|events| - 1]), events[|events| - 1])
  }

  /** The limits hold at every step. */
  predicate WithinLimits(events: seq<Stimulus>)
    requires forall e :: e in events ==> LegalStimulus(e)
  {
    events != [] ==>
      var before := events[..|events| - 1];
      WithinLimits(before) && Allowed(Run(before).station, events[|events| - 1])
  }

  /** The main theorem: every run within the limits is consistent.  In particular
      its record is legitimate, and submitted = finished + queued. */
  lemma {:induction false} RunsAreConsistent(events: seq<Stimulus>)
    requires forall e :: e in events ==> LegalStimulus(e)
    requires WithinLimits(events)
    ensures var w := Run(events);
            && Consistent(w) && Legit(w.trace)
            && |Jobs(w.trace)| == Completions(w.trace) + Occupancy(w.station)
  {
    if events == [] {
      BootConsistent();
    } else {
      RunsAreConsistent(events[..|events| - 1]);
      StepKeeps(Run(events[..|events| - 1]), events[|events| - 1]);
    }
    QueuedIsWaiting(Run(events));
  }

  /** The reachable states in the code's own terms. */
  lemma ReachableStates(events: seq<Stimulus>)
    requires forall e :: e in events ==> LegalStimulus(e)
    requires WithinLimits(events)
    ensures var s := Run(events).station;
            && (s.response == 0 <==> s.armed)
            && (s.armed ==>
                  && Occupancy(s) > 0 && s.output == s.slots[s.head].msg
                  && 1 <= s.slots[s.head].attempts <= MAX_ATTEMPTS)
            && (!s.armed && Occupancy(s) > 0 ==> s.slots[s.head].attempts < MAX_ATTEMPTS)
            && (forall i :: 0 < i < Occupancy(s) ==> s.slots[Index(s, i)].attempts == 0)
  {
    RunsAreConsistent(events);
    var w := Run(events);
    hide Run, WithinLimits, Sound, Unanswered, Tries, Waiting;
    assert |Pending(w.station)| == |Waiting(w.trace)|;
    forall i | 0 <= i < Occupancy(w.station)
      ensures w.station.slots[Index(w.station, i)] == SlotsFor(Waiting(w.trace), Tries(w.trace))[i]
    {
      assert Pending(w.station)[i] == w.station.slots[Index(w.station, i)];
    }
    assert Index(w.station, 0) == w.station.head;
  }

  // ------------------------------------------- runs that come up to the limits

  /** n submissions of one job in the same second, unanswered. */
  function Burst(job: Job, n: nat): (events: seq<Stimulus>)
    ensures |events| == n && forall e :: e in events ==> e == Submit(job, 0, 0)
  {
    Repeat(Submit(job, 0, 0), n)
  }

  /** In the second of a transmission nothing more is sent: a submission is only stored. */
  lemma BurstStep(s: Station, job: Job)
    requires WellFormed(s) && LegalJob(job) && Occupancy(s) < SLOTS - 1
    requires s == START || (s.response == 0 && s.lastSent == 0)
    ensures var s' := Enqueue(s, job.msg, job.finished, 0, 0).0;
            s'.response == 0 && s'.lastSent == 0 && Occupancy(s') == Occupancy(s) + 1
  {
    hide Encode;
    RingStores(s, Slot(job.msg, 0, job.finished));
  }

  lemma {:induction false} BurstFillsRing(job: Job, n: nat)
    requires LegalJob(job) && n < SLOTS
    ensures var s := Run(Burst(job, n)).station;
            && WithinLimits(Burst(job, n)) && Occupancy(s) == n
            && if n == 0 then s == START else s.response == 0 && s.lastSent == 0
  {
    hide Enqueue;
    if n > 0 {
      BurstFillsRing(job, n - 1);
      assert Burst(job, n)[..n - 1] == Burst(job, n - 1);
      BurstStep(Run(Burst(job, n - 1)).station, job);
    }
  }

  /** Seven submissions fill the ring within the limits; the eighth breaks them, and is
      lost from sight with all the others. */
  lemma FullRingIsReached(job: Job, now: int, written: int)
    requires LegalJob(job)
    ensures var w := Run(Burst(job, 7));
            && WithinLimits(Burst(job, 7)) && Occupancy(w.station) == SLOTS - 1
            && !WithinLimits(Burst(job, 7) + [Submit(job, now, written)])
            && Occupancy(Step(w, Submit(job, now, written)).station) == 0
            && !Consistent(Step(w, Submit(job, now, written)))
  {
    hide Run, Step, Consistent, WithinLimits;
    BurstFillsRing(job, 7);
    RunsAreConsistent(Burst(job, 7));
    FullRingLosesSight(Run(Burst(job, 7)), job, now, written);
    RunMore(Burst(job, 7), Submit(job, now, written));
  }

  /** One submission and two ticks without an answer. */
  function Silence(job: Job): (events: seq<Stimulus>)
    requires LegalJob(job)
    ensures forall e :: e in events ==> LegalStimulus(e)
  {
    [Submit(job, 0, 0), Tick(2, 0), Tick(4, 0)]
  }

  /** The first message of all, sent for the n-th time at `sent`. */
  function Attempted(job: Job, n: byte, sent: int): Station {
    START.(slots := START.slots[0 := Slot(job.msg, n, job.finished)], tail := 1,
           response := 0, lastSent := sent, output := job.msg, armed := true)
  }

  lemma FirstAttempt(job: Job)
    requires LegalJob(job)
    ensures Enqueue(START, job.msg, job.finished, 0, 0).0 == Attempted(job, 1, 0)
  {
    hide Encode;
    var s := Enqueue(START, job.msg, job.finished, 0, 0).0;
    assert s.slots == Attempted(job, 1, 0).slots;
  }

  lemma NextAttempt(job: Job, n: byte, sent: int)
    requires LegalJob(job) && n < MAX_ATTEMPTS
    ensures Advance(Attempted(job, n, sent), sent + 2, 0).0 == Attempted(job, n + 1, sent + 2)
  {
    hide Encode;
    var s := Advance(Attempted(job, n, sent), sent + 2, 0).0;
    assert s.slots == Attempted(job, n + 1, sent + 2).slots;
  }

  lemma RunMore(events: seq<Stimulus>, e: Stimulus)
    requires (forall x :: x in events ==> LegalStimulus(x)) && LegalStimulus(e) && WithinLimits(events)
    ensures Run(events + [e]) == Step(Run(events), e)
    ensures WithinLimits(events + [e]) <==> Allowed(Run(events).station, e)
  {
    assert (events + [e])[..|events|] == events;
  }

  lemma SilenceRuns(job: Job)
    requires LegalJob(job)
    ensures Run(Silence(job)).station == Attempted(job, 3, 4) && WithinLimits(Silence(job))
  {
    hide Enqueue, Advance, Run, WithinLimits, LegalJob;
    assert Run([]) == BOOT && WithinLimits([]) by { NothingRun(); }
    var a, b, c := Submit(job, 0, 0), Tick(2, 0), Tick(4, 0);
    FirstAttempt(job);
    NextAttempt(job, 1, 0);
    NextAttempt(job, 2, 2);
    RunMore([], a);
    assert [] + [a] == [a];
    RunMore([a], b);
    assert [a] + [b] == [a, b];
    RunMore([a, b], c);
    assert [a, b] + [c] == Silence(job);
  }

  lemma NothingRun()
    ensures Run([]) == BOOT && WithinLimits([])
  {
  }

  /** A message sent three times in silence is the only one: the next tick breaks the
      limits, and makes an empty ring await an answer. */
  lemma GivingUpLastIsReached(job: Job, written: int)
    requires LegalJob(job)
    ensures var w := Run(Silence(job));
            && WithinLimits(Silence(job)) && GivesUpLast(w.station, 6)
            && !WithinLimits(Silence(job) + [Tick(6, written)])
            && Occupancy(Step(w, Tick(6, written)).station) == 0 && Step(w, Tick(6, written)).station.armed
            && !Consistent(Step(w, Tick(6, written)))
  {
    hide Run, Consistent, Advance, Enqueue, WithinLimits;
    SilenceRuns(job);
    RunsAreConsistent(Silence(job));
    StaleSlotIsSent(Run(Silence(job)), 6, written, 6);
    RunMore(Silence(job), Tick(6, written));
  }

  /** What a completion in a record vouches for: it is the next message in the order of
      submission, with its own callback; OK answers an ACK that follows its last
      transmission, NAK and TIMEOUT come after exactly three. */
  predicate Earned(t: seq<Obs>, k: nat)
    requires k < |t| && IsDone(t[k])
  {
    var before, act := t[..k], t[k].act;
    var j := Completions(before);
    && j < |Jobs(before)| && act.finished == Jobs(before)[j].finished
    && (act.status == STATUS_OK ==>
          before != [] && Last(before) == Heard(true) && Unanswered(Init(before)) && 1 <= Tries(before) <= 3)
    && (act.status == STATUS_NAK ==>
          before != [] && Last(before) == Heard(false) && Unanswered(Init(before)) && Tries(before) == 3)
    && (act.status == STATUS_TIMEOUT ==> Unanswered(before) && Tries(before) == 3)
    && (act.status == STATUS_OK || act.status == STATUS_NAK || act.status == STATUS_TIMEOUT)
  }

  lemma LegitCompletionIsEarned(t: seq<Obs>, k: nat)
    requires Legit(t) && k < |t| && IsDone(t[k])
    ensures Earned(t, k)
  {
    LegitEverywhere(t, k);
    SendsOfRecord(t[..k]);
    if t[k].act.status != STATUS_TIMEOUT {
      SentBeforeAnswer(Init(t[..k]));
    }
  }

  /** Every completion of a run within the limits is earned. */
  lemma CompletionsAreEarned(events: seq<Stimulus>)
    requires forall e :: e in events ==> LegalStimulus(e)
    requires WithinLimits(events)
    ensures var t := Run(events).trace;
            forall k :: 0 <= k < |t| && IsDone(t[k]) ==> Earned(t, k)
  {
    RunsAreConsistent(events);
    var t := Run(events).trace;
    hide Run, Earned, Legit;
    forall k | 0 <= k < |t| && IsDone(t[k]) ensures Earned(t, k) {
      LegitCompletionIsEarned(t, k);
    }
  }

  /** An unanswered transmission is one of the current message's. */
  lemma {:induction false} SentBeforeAnswer(t: seq<Obs>)
    requires Unanswered(t)
    ensures Tries(t) >= 1
  {
    if Last(t).Submitted? {
      SentBeforeAnswer(Init(t));
    }
  }

  /** A legitimate record is legitimate at every point of it. */
  lemma {:induction false} LegitEverywhere(t: seq<Obs>, k: nat)
    requires Legit(t) && k < |t|
    ensures Legit(t[..k]) && LegitNext(t[..k], t[k])
  {
    if k == |t| - 1 {
      assert t[..k] == Init(t);
    } else {
      LegitEverywhere(Init(t), k);
      assert Init(t)[..k] == t[..k];
    }
  }

  /** Transmissions the queued messages still have coming. */
  function Budget(p: seq<Slot>): int {
    if p == [] then 0 else Budget(p[..|p| - 1]) + MAX_ATTEMPTS - p[|p| - 1].attempts
  }

  lemma {:induction false} BudgetOfSlots(jobs: seq<Job>, tries: nat)
    requires tries <= MAX_ATTEMPTS && (jobs == [] ==> tries == 0)
    ensures Budget(SlotsFor(jobs, tries)) == MAX_ATTEMPTS * |jobs| - tries
  {
    if |jobs| > 0 {
      var p := SlotsFor(jobs, tries);
      if |jobs| == 1 {
        assert p[..0] == [];
      } else {
        assert p[..|p| - 1] == SlotsFor(jobs[..|jobs| - 1], tries);
        BudgetOfSlots(jobs[..|jobs| - 1], tries);
      }
    }
  }

  lemma {:induction false} SendsOfRecord(t: seq<Obs>)
    requires Legit(t)
    ensures Tries(t) <= MAX_ATTEMPTS
    ensures Sends(t) <= MAX_ATTEMPTS * Completions(t) + Tries(t)
  {
    if t != [] {
      SendsOfRecord(Init(t));
    }
  }

  /** An update within the limits does nothing, or sends the head of the queue,
      perhaps after giving up its predecessor. */
  lemma AdvanceShape(w: World, now: int, written: int)
    requires Consistent(w) && !GivesUpLast(w.station, now)
    ensures var (s, acts, _) := Advance(w.station, now, written);
            || acts == []
            || (s.output != [] && |s.output| <= MAX_MESSAGE_SIZE && acts == [Transmitted(Encode(s.output))])
            || (&& s.output != [] && |s.output| <= MAX_MESSAGE_SIZE && w.station.armed && Tries(w.trace) == MAX_ATTEMPTS
                && acts == [Completed(w.station.slots[w.station.head].finished, STATUS_TIMEOUT),
                            Transmitted(Encode(s.output))])
  {
    hide Sound, Encode, Pending, Tries, Unanswered, Waiting;
    if w.station.head != w.station.tail && Ready(w.station, now) != STATUS_WAIT {
      RespondsIffArmed(w);
      assert w.station.slots[w.station.head] == Pending(w.station)[0];
      if w.station.armed {
        TimeoutKeeps(w, now);
        var (s1, done) := Settle(w.station, now);
        RipeHead(World(s1, w.trace + Log(done)));
        TransmitsHead(s1, now, written);
      } else {
        RipeHead(w);
        TransmitsHead(w.station, now, written);
      }
    }
  }

  lemma BudgetOfWorld(w: World)
    requires Consistent(w)
    ensures Budget(Pending(w.station)) == MAX_ATTEMPTS * |Waiting(w.trace)| - Tries(w.trace)
    ensures |Waiting(w.trace)| == |Jobs(w.trace)| - Completions(w.trace)
  {
    BudgetOfSlots(Waiting(w.trace), Tries(w.trace));
  }

  /** What an update sends it takes out of the budget, one for one: giving a message
      up after its third transmission frees nothing. */
  lemma UpdateIsPaid(w: World, now: int, written: int)
    requires Consistent(w) && !GivesUpLast(w.station, now)
    ensures var (s, acts, _) := Advance(w.station, now, written);
            var t' := w.trace + Log(acts);
            Budget(Pending(s)) == Budget(Pending(w.station)) - (Sends(t') - Sends(w.trace))
  {
    hide Jobs, Completions, Tries, Unanswered, Legit, Sends, Sound, Pending, Encode, Advance;
    hide Budget, Waiting, GivesUpLast;
    AdvanceKeeps(w, now, written);
    AdvanceShape(w, now, written);
    var (s, acts, _) := Advance(w.station, now, written);
    var t, t' := w.trace, w.trace + Log(acts);
    BudgetOfWorld(w);
    BudgetOfWorld(World(s, t'));
    if |acts| == 0 {
      assert t' == t;
    } else if |acts| == 1 {
      assert t' == t + [Did(acts[0])];
      Observe(t, Did(acts[0]));
    } else {
      assert t' == t + [Did(acts[0])] + [Did(acts[1])];
      Observe(t, Did(acts[0]));
      Observe(t + [Did(acts[0])], Did(acts[1]));
    }
  }

  /** The budget over one step: a submission adds three, an answer takes away what the
      message it ends had left, and every transmission costs exactly one. */
  lemma TransmissionsArePaid(w: World, e: Stimulus)
    requires Consistent(w) && LegalStimulus(e) && Allowed(w.station, e)
    ensures var w' := Step(w, e);
            var sent := Sends(w'.trace) - Sends(w.trace);
            && sent >= 0
            && match e
               case Submit(_, _, _) => Budget(Pending(w'.station)) == Budget(Pending(w.station)) + MAX_ATTEMPTS - sent
               case Tick(_, _) => Budget(Pending(w'.station)) == Budget(Pending(w.station)) - sent
               case AnswerByte(_, _) => sent == 0 && Budget(Pending(w'.station)) <= Budget(Pending(w.station))
  {
    hide Jobs, Completions, Tries, Unanswered, Legit, Sends, Sound, Pending, Advance, Budget;
    hide Waiting, GivesUpLast, Answer;
    SendsGrow(w, e);
    match e
    case Submit(job, now, written) =>
      var stored := World(Store(w.station, Slot(job.msg, 0, job.finished)), w.trace + [Submitted(job)]);
      StoreKeeps(w, job);
      NotAboutToGiveUp(w, job, now);
      UpdateIsPaid(stored, now, written);
      BudgetOfWorld(w);
      BudgetOfWorld(stored);
      Observe(w.trace, Submitted(job));
    case Tick(now, written) =>
      UpdateIsPaid(w, now, written);
    case AnswerByte(positive, now) =>
      AnswerSendsNothing(w, positive, now);
  }

  /** An answer that is due leaves its mark, and ends the head or nothing. */
  lemma AnswerRecords(w: World, positive: bool, now: int)
    requires Consistent(w) && w.station.response == 0
    ensures var h := w.trace + [Heard(positive)];
            var t' := Step(w, AnswerByte(positive, now)).trace;
            t' == h || exists act: Act :: act.Completed? && t' == h + [Did(act)]
  {
    hide Sound, Pending, Waiting, SlotsFor, Tries, Unanswered, Settle;
    var h := AfterAnswer(w, positive);
    QueuedIsWaiting(w);
    PendingOnlyRing(h.station, w.station);
    SettlesHead(h.station, now);
    var acts := Settle(h.station, now).1;
    assert acts == [] || Log(acts) == [Did(acts[0])];
  }

  lemma AnswerSendsNothing(w: World, positive: bool, now: int)
    requires Consistent(w)
    ensures var w' := Step(w, AnswerByte(positive, now));
            Sends(w'.trace) == Sends(w.trace) && Budget(Pending(w'.station)) <= Budget(Pending(w.station))
  {
    var w' := Step(w, AnswerByte(positive, now));
    AnswerKeeps(w, positive, now);
    BudgetOfWorld(w);
    BudgetOfWorld(w');
    assert Legit(w.trace);
    if w.station.response == 0 {
      AnswerRecords(w, positive, now);
      hide *;
      var h := w.trace + [Heard(positive)];
      Observe(w.trace, Heard(positive));
      SendsOfRecord(w.trace);
      if w'.trace != h {
        var act: Act :| act.Completed? && w'.trace == h + [Did(act)];
        Observe(h, Did(act));
      }
    }
  }

  /** As only submissions add to the budget, a run with n submissions sends at most 3n
      times, whatever the line does. */
  lemma SendsAreBounded(events: seq<Stimulus>)
    requires forall e :: e in events ==> LegalStimulus(e)
    requires WithinLimits(events)
    ensures var w := Run(events);
            && Budget(Pending(w.station)) >= 0
            && Sends(w.trace) + Budget(Pending(w.station)) <= MAX_ATTEMPTS * |Jobs(w.trace)|
  {
    RunsAreConsistent(events);
    var w := Run(events);
    SendsOfRecord(w.trace);
    BudgetOfSlots(Waiting(w.trace), Tries(w.trace));
  }
}
