/** Progress of the queue.

    Safety says what a run cannot do; this module says what time does.  Every tick
    that finds the link ready takes something off a potential that only
    submissions add to, so the queue cannot be kept busy for nothing; and however
    silent the line, ticks more than a second apart finish every message but the
    last, each on its own last attempt. */
module Progress {
  import opened Bytes
  import opened Framing
  import opened Outbox
  import opened Protocol
  import opened Runs

  /** There is a message, and the link is not waiting for an answer. */
  predicate Due(s: Station, now: int) {
    s.head != s.tail && Ready(s, now) != STATUS_WAIT
  }

  /** Four for every unfinished message, less the transmissions of the first. */
  function Potential(w: World): int {
    4 * |Waiting(w.trace)| - Tries(w.trace)
  }

  lemma PotentialOf(w: World)
    requires Consistent(w)
    ensures Potential(w) == 4 * Occupancy(w.station) - Tries(w.trace)
    ensures Potential(w) == 4 * (|Jobs(w.trace)| - Completions(w.trace)) - Tries(w.trace)
    ensures Occupancy(w.station) > 0 ==> Potential(w) >= 1
    ensures Occupancy(w.station) == 0 ==> Potential(w) == 0
  {
    hide Jobs, Completions, Tries, Legit, Unanswered;
    QueuedIsWaiting(w);
  }

  /** Which of its three shapes an update takes. */
  lemma AdvanceBranch(w: World, now: int, written: int)
    requires Consistent(w) && !GivesUpLast(w.station, now)
    ensures var (s, acts, _) := Advance(w.station, now, written);
            && (|acts| == 0 <==> !Due(w.station, now))
            && (|acts| == 2 <==> Due(w.station, now) && w.station.armed && Tries(w.trace) == MAX_ATTEMPTS)
            && (Due(w.station, now) ==>
                  && s.armed && s.response == 0
                  && s.lastSent == if written == 0 then now else w.station.lastSent)
  {
    hide Sound, Encode, Pending, Tries, Unanswered, Waiting, SlotsFor;
    if Due(w.station, now) {
      RespondsIffArmed(w);
      QueuedIsWaiting(w);
      assert w.station.slots[w.station.head] == Pending(w.station)[0];
      if w.station.armed {
        TimeoutKeeps(w, now);
        SettlesHead(w.station, now);
        var (s1, done) := Settle(w.station, now);
        RipeHead(World(s1, w.trace + Log(done)));
        TransmitsHead(s1, now, written);
      } else {
        RipeHead(w);
        TransmitsHead(w.station, now, written);
      }
    }
  }

  /** What a due tick does: it sends the head once more, or gives it up after its third
      transmission and sends the next. */
  lemma DueTick(w: World, now: int, written: int)
    requires Consistent(w) && Due(w.station, now) && !GivesUpLast(w.station, now)
    ensures var w' := Step(w, Tick(now, written));
            var last := w.station.armed && Tries(w.trace) == MAX_ATTEMPTS;
            && Consistent(w') && Jobs(w'.trace) == Jobs(w.trace)
            && Completions(w'.trace) == Completions(w.trace) + (if last then 1 else 0)
            && Tries(w'.trace) == (if last then 1 else Tries(w.trace) + 1)
            && w'.station.armed && w'.station.response == 0
            && w'.station.lastSent == if written == 0 then now else w.station.lastSent
  {
    AdvanceKeeps(w, now, written);
    AdvanceShape(w, now, written);
    AdvanceBranch(w, now, written);
    hide Consistent, Advance, GivesUpLast, Jobs, Completions, Tries, Sends, Legit, Unanswered, MustComplete, Encode;
    ActsRecorded(w.trace, Advance(w.station, now, written).1);
  }

  /** What one transmission, perhaps after a completion, adds to a record. */
  lemma ActsRecorded(t: seq<Obs>, acts: seq<Act>)
    requires 1 <= |acts| <= 2 && acts[|acts| - 1].Transmitted? && (|acts| == 2 ==> acts[0].Completed?)
    ensures var t' := t + Log(acts);
            && Jobs(t') == Jobs(t) && Sends(t') == Sends(t) + 1
            && Completions(t') == Completions(t) + |acts| - 1
            && Tries(t') == if |acts| == 2 then 1 else Tries(t) + 1
  {
    hide Jobs, Completions, Tries, Sends, Legit, Unanswered, MustComplete;
    Observe(t, Did(acts[0]));
    if |acts| == 1 {
      assert t + Log(acts) == t + [Did(acts[0])];
    } else {
      Observe(t + [Did(acts[0])], Did(acts[1]));
      assert t + Log(acts) == t + [Did(acts[0])] + [Did(acts[1])];
    }
  }

  /** The potential over one step: only a submission raises it, and a due tick always
      lowers it. */
  lemma StepCosts(w: World, e: Stimulus)
    requires Consistent(w) && LegalStimulus(e) && Allowed(w.station, e)
    ensures Potential(Step(w, e)) >= 0
    ensures var spent := Potential(w) - Potential(Step(w, e));
            match e
            case Submit(_, _, _) => spent >= -4
            case Tick(now, _) => spent >= if Due(w.station, now) then 1 else 0
            case AnswerByte(_, _) => spent >= 0
  {
    StepKeeps(w, e);
    PotentialOf(w);
    PotentialOf(Step(w, e));
    match e
    case Submit(job, now, written) =>
      StoreKeeps(w, job);
      var stored := World(Store(w.station, Slot(job.msg, 0, job.finished)), w.trace + [Submitted(job)]);
      NotAboutToGiveUp(w, job, now);
      PotentialOf(stored);
      TickCosts(stored, now, written);
      hide *;
      Observe(w.trace, Submitted(job));
    case Tick(now, written) =>
      TickCosts(w, now, written);
    case AnswerByte(positive, now) =>
      AnswerCosts(w, positive, now);
  }

  lemma TickCosts(w: World, now: int, written: int)
    requires Consistent(w) && !GivesUpLast(w.station, now)
    ensures Potential(Step(w, Tick(now, written))) <= Potential(w) - if Due(w.station, now) then 1 else 0
  {
    var w' := Step(w, Tick(now, written));
    AdvanceKeeps(w, now, written);
    PotentialOf(w);
    PotentialOf(w');
    if Due(w.station, now) {
      DueTick(w, now, written);
    } else {
      AdvanceBranch(w, now, written);
      assert w.trace + Log([]) == w.trace;
    }
  }

  lemma AnswerCosts(w: World, positive: bool, now: int)
    requires Consistent(w)
    ensures Potential(Step(w, AnswerByte(positive, now))) <= Potential(w)
  {
    var w' := Step(w, AnswerByte(positive, now));
    AnswerKeeps(w, positive, now);
    PotentialOf(w);
    PotentialOf(w');
    SendsOfRecord(w.trace);
    if w.station.response == 0 {
      AnswerRecords(w, positive, now);
      hide *;
      var h := w.trace + [Heard(positive)];
      Observe(w.trace, Heard(positive));
      if w'.trace != h {
        var act: Act :| act.Completed? && w'.trace == h + [Did(act)];
        Observe(h, Did(act));
      }
    }
  }

  /** How many ticks of a run have found something to do. */
  function DueTicks(events: seq<Stimulus>): nat
    requires forall e :: e in events ==> LegalStimulus(e)
  {
    if events == [] then 0
    else
      var e := Last(events);
      DueTicks(Init(events)) + if e.Tick? && Due(Run(Init(events)).station, e.now) then 1 else 0
  }

  /** A run with n submissions has at most 4n busy ticks, less the potential left:
      nothing the line does keeps the queue at work for ever. */
  lemma {:induction false} BusyTicksAreBounded(events: seq<Stimulus>)
    requires forall e :: e in events ==> LegalStimulus(e)
    requires WithinLimits(events)
    ensures DueTicks(events) + Potential(Run(events)) <= 4 * |Jobs(Run(events).trace)|
    ensures Potential(Run(events)) >= 0
  {
    if events != [] {
      var e := Last(events);
      assert Init(events) + [e] == events;
      BusyTicksAreBounded(Init(events));
      RunsAreConsistent(Init(events));
      StepCosts(Run(Init(events)), e);
      StepJobs(Run(Init(events)), e);
      hide Potential, Due, Step, Consistent, Jobs;
    } else {
      NothingRun();
    }
  }

  // ---------------------------------------------------------------- a silent line

  /** Ticks, each more than a second after the one before. */
  predicate Spaced(after: int, ticks: seq<Stimulus>)
    decreases ticks
  {
    ticks == [] || (ticks[0].Tick? && ticks[0].now > after + 1 && Spaced(ticks[0].now, ticks[1..]))
  }

  function StepAll(w: World, events: seq<Stimulus>): (w': World)
    requires WellFormed(w.station) && forall e :: e in events ==> LegalStimulus(e)
    ensures WellFormed(w'.station)
    decreases events
  {
    if events == [] then w else StepAll(Step(w, events[0]), events[1..])
  }

  predicate AllAllowed(w: World, events: seq<Stimulus>)
    requires WellFormed(w.station) && forall e :: e in events ==> LegalStimulus(e)
    decreases events
  {
    events == [] || (Allowed(w.station, events[0]) && AllAllowed(Step(w, events[0]), events[1..]))
  }

  /** A second after the last transmission a tick finds a message, if there is one. */
  lemma LateTickIsDue(w: World, now: int)
    requires Consistent(w) && now > w.station.lastSent + 1 && Occupancy(w.station) > 0
    ensures Due(w.station, now)
  {
    RespondsIffArmed(w);
  }

  /** Ticks that it takes to give up all but the last of n messages, the first of which
      has been sent `tries` times. */
  function Patience(n: nat, tries: nat): int {
    if n <= 1 then 0 else 4 - tries + 3 * (n - 2)
  }

  /** However silent the line, every message but the last is finished in time: the
      first after four ticks, less the transmissions it has had, and each of the
      others after three more, none of them breaking a limit. */
  lemma {:induction false} SilenceFinishes(w: World, ticks: seq<Stimulus>)
    requires Consistent(w) && Occupancy(w.station) >= 1
    requires Spaced(w.station.lastSent, ticks) && forall e :: e in ticks ==> LegalStimulus(e)
    requires |ticks| == Patience(Occupancy(w.station), Tries(w.trace))
    ensures AllAllowed(w, ticks)
    ensures var w' := StepAll(w, ticks);
            && Consistent(w') && Occupancy(w'.station) == 1 && Jobs(w'.trace) == Jobs(w.trace)
            && Completions(w'.trace) == Completions(w.trace) + Occupancy(w.station) - 1
    decreases |ticks|
  {
    SendsOfRecord(w.trace);
    QueuedIsWaiting(w);
    var n := Occupancy(w.station);
    if n >= 2 {
      var now, written := ticks[0].now, ticks[0].written;
      assert ticks[0] in ticks;
      LateTickIsDue(w, now);
      DueTick(w, now, written);
      var w' := Step(w, ticks[0]);
      QueuedIsWaiting(w');
      SpacedEarlier(now, w'.station.lastSent, ticks[1..]);
      hide Consistent, Step, Tries, Completions, Jobs, Due, Legit;
      SilenceFinishes(w', ticks[1..]);
    }
  }

  lemma SpacedEarlier(after: int, before: int, ticks: seq<Stimulus>)
    requires Spaced(after, ticks) && before <= after
    ensures Spaced(before, ticks)
  {
  }

  /** In particular the head: with another message behind it, four spaced ticks less its
      transmissions finish it, after exactly three in all. */
  lemma {:induction false} SilenceFinishesHead(w: World, ticks: seq<Stimulus>)
    requires Consistent(w) && Occupancy(w.station) >= 2
    requires Spaced(w.station.lastSent, ticks) && forall e :: e in ticks ==> LegalStimulus(e)
    requires |ticks| == 4 - Tries(w.trace)
    ensures AllAllowed(w, ticks)
    ensures var w' := StepAll(w, ticks);
            && Consistent(w') && Completions(w'.trace) == Completions(w.trace) + 1
            && Occupancy(w'.station) == Occupancy(w.station) - 1
            && Tries(w'.trace) == 1
    decreases |ticks|
  {
    SendsOfRecord(w.trace);
    QueuedIsWaiting(w);
    var now, written := ticks[0].now, ticks[0].written;
    assert ticks[0] in ticks;
    LateTickIsDue(w, now);
    DueTick(w, now, written);
    var w' := Step(w, ticks[0]);
    QueuedIsWaiting(w');
    if |ticks| > 1 {
      SpacedEarlier(now, w'.station.lastSent, ticks[1..]);
      hide Consistent, Step, Tries, Completions, Jobs, Due, Legit;
      SilenceFinishesHead(w', ticks[1..]);
    } else {
      assert ticks[1..] == [];
    }
  }
}
