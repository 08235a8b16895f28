/** When the queue transmits.

    An unanswered transmission is left alone for a second: updates within it change
    nothing and submissions are only stored.  After it, and whenever no answer is
    due, an update transmits if there is a message.  So successive transmissions
    with no answer between them are more than a second apart. */
module Timing {
  import opened Bytes
  import opened Framing
  import opened Outbox
  import opened Protocol
  import opened Runs
  import opened Progress

  lemma WaitingIsQueued(w: World)
    requires Consistent(w) && w.station.response == 0
    ensures w.station.armed && Occupancy(w.station) > 0 && w.station.head != w.station.tail
  {
    RespondsIffArmed(w);
    QueuedIsWaiting(w);
  }

  /** Within a second of an unanswered transmission an update does nothing at all. */
  lemma StillWaiting(w: World, now: int, written: int)
    requires Consistent(w) && w.station.response == 0 && now <= w.station.lastSent + 1
    ensures Step(w, Tick(now, written)) == w
  {
    assert w.trace + Log([]) == w.trace;
  }

  /** ... and a submission is only stored. */
  lemma OnlyStored(w: World, job: Job, now: int, written: int)
    requires Consistent(w) && LegalJob(job) && Occupancy(w.station) < 7
    requires w.station.response == 0 && now <= w.station.lastSent + 1
    ensures var w' := Step(w, Submit(job, now, written));
            && w'.trace == w.trace + [Submitted(job)]
            && Pending(w'.station) == Pending(w.station) + [Slot(job.msg, 0, job.finished)]
            && w'.station.response == 0 && w'.station.lastSent == w.station.lastSent
  {
    RingStores(w.station, Slot(job.msg, 0, job.finished));
    var w' := Step(w, Submit(job, now, written));
    assert w.trace + [Submitted(job)] + Log([]) == w.trace + [Submitted(job)];
    PendingOnlyRing(w'.station, Store(w.station, Slot(job.msg, 0, job.finished)));
  }

  /** The link may be used: no answer is due, or more than a second has passed. */
  predicate Ripened(w: World, now: int) {
    w.station.response != 0 || now > w.station.lastSent + 1
  }

  lemma RipenedIsDue(w: World, now: int)
    requires Consistent(w)
    ensures Due(w.station, now) <==> Occupancy(w.station) > 0 && Ripened(w, now)
  {
    RespondsIffArmed(w);
  }

  /** An update transmits exactly if there is a message and the link may be used; then
      an answer is due, and the second runs anew if the write succeeded. */
  lemma TickSendsExactly(w: World, now: int, written: int)
    requires Consistent(w) && !GivesUpLast(w.station, now)
    ensures var w' := Step(w, Tick(now, written));
            var sends := Occupancy(w.station) > 0 && Ripened(w, now);
            && Sends(w'.trace) == Sends(w.trace) + (if sends then 1 else 0)
            && if sends
               then
                 && w'.station.response == 0
                 && w'.station.lastSent == (if written == 0 then now else w.station.lastSent)
               else w' == w
  {
    RipenedIsDue(w, now);
    AdvanceBranch(w, now, written);
    AdvanceShape(w, now, written);
    hide Sound, LinkAgrees, Pending, Advance, Sends, Encode, GivesUpLast, Due;
    var (s, acts, _) := Advance(w.station, now, written);
    if acts == [] {
      NotDue(w.station, now, written);
      assert w.trace + Log([]) == w.trace;
    } else {
      ActsRecorded(w.trace, acts);
    }
  }

  lemma NotDue(s: Station, now: int, written: int)
    requires WellFormed(s) && !Due(s, now)
    ensures Advance(s, now, written).0 == s
  {
  }

  /** A submission transmits exactly if the link may be used. */
  lemma SubmitSendsExactly(w: World, job: Job, now: int, written: int)
    requires Consistent(w) && LegalJob(job) && Occupancy(w.station) < 7
    ensures var w' := Step(w, Submit(job, now, written));
            && Sends(w'.trace) == Sends(w.trace) + (if Ripened(w, now) then 1 else 0)
            && w'.station.response == (if Ripened(w, now) then 0 else w.station.response)
            && w'.station.lastSent == (if Ripened(w, now) && written == 0 then now else w.station.lastSent)
  {
    var slot := Slot(job.msg, 0, job.finished);
    var stored := World(Store(w.station, slot), w.trace + [Submitted(job)]);
    StoreKeeps(w, job);
    NotAboutToGiveUp(w, job, now);
    RingStores(w.station, slot);
    Observe(w.trace, Submitted(job));
    hide Consistent, Sends, Pending, Legit, Advance;
    TickSendsExactly(stored, now, written);
    assert Step(w, Submit(job, now, written)) == Step(stored, Tick(now, written));
  }

  /** Ticks and submissions, no answers. */
  predicate Unheard(events: seq<Stimulus>) {
    forall e :: e in events ==> !e.AnswerByte?
  }

  /** As long as nothing is transmitted and nothing heard, the second runs on. */
  lemma {:induction false} SecondRunsOn(w: World, events: seq<Stimulus>)
    requires Consistent(w) && w.station.response == 0
    requires (forall e :: e in events ==> LegalStimulus(e)) && Unheard(events) && AllAllowed(w, events)
    requires Sends(StepAll(w, events).trace) == Sends(w.trace)
    ensures var w' := StepAll(w, events);
            Consistent(w') && w'.station.response == 0 && w'.station.lastSent == w.station.lastSent
    decreases events
  {
    if events != [] {
      var e := events[0];
      assert e in events;
      var w' := Step(w, e);
      StepKeeps(w, e);
      SendsGrow(w, e);
      WaitingIsQueued(w);
      match e {
        case Submit(job, now, written) => SubmitSendsExactly(w, job, now, written);
        case Tick(now, written) => TickSendsExactly(w, now, written);
      }
      hide Consistent, Step, Sends, Legit;
      SendsOnlyGrow(w', events[1..]);
      SecondRunsOn(w', events[1..]);
    }
  }

  lemma {:induction false} SendsOnlyGrow(w: World, events: seq<Stimulus>)
    requires WellFormed(w.station) && forall e :: e in events ==> LegalStimulus(e)
    ensures Sends(StepAll(w, events).trace) >= Sends(w.trace)
    decreases events
  {
    if events != [] {
      assert events[0] in events;
      SendsGrow(w, events[0]);
      hide Step, Sends;
      SendsOnlyGrow(Step(w, events[0]), events[1..]);
    }
  }

  /** In every run within the limits: of two successive transmissions with no answer
      between them, the second comes more than a second after the first, if the first
      was written. */
  lemma TransmissionsAreSpaced(before: seq<Stimulus>, first: Stimulus, between: seq<Stimulus>, second: Stimulus)
    requires forall e :: e in before + [first] + between + [second] ==> LegalStimulus(e)
    requires WithinLimits(before) && AllAllowed(Run(before), [first] + between + [second])
    requires Unheard([first] + between + [second]) && first.written == 0
    requires var w := Run(before);
             var w1 := Step(w, first);
             var w2 := StepAll(w1, between);
             && Sends(w1.trace) > Sends(w.trace) && Sends(w2.trace) == Sends(w1.trace)
             && Sends(Step(w2, second).trace) > Sends(w2.trace)
    ensures second.now > first.now + 1
  {
    var w := Run(before);
    RunsAreConsistent(before);
    AllowedParts(w, first, between, second);
    hide Run, WithinLimits, Consistent, Sends, Legit;
    var w1 := Step(w, first);
    StepKeeps(w, first);
    TransmissionStarts(w, first);
    hide Step;
    SecondRunsOn(w1, between);
    TransmissionStarts(StepAll(w1, between), second);
  }

  /** A transmission: the link was free, an answer is due and the second begins. */
  lemma TransmissionStarts(w: World, e: Stimulus)
    requires Consistent(w) && LegalStimulus(e) && !e.AnswerByte? && Allowed(w.station, e)
    requires Sends(Step(w, e).trace) > Sends(w.trace)
    ensures Ripened(w, e.now)
    ensures Step(w, e).station.response == 0 && (e.written == 0 ==> Step(w, e).station.lastSent == e.now)
  {
    hide Consistent, Sends, Step;
    match e
    case Submit(job, now, written) => SubmitSendsExactly(w, job, now, written);
    case Tick(now, written) => TickSendsExactly(w, now, written);
  }

  lemma AllowedParts(w: World, first: Stimulus, between: seq<Stimulus>, second: Stimulus)
    requires WellFormed(w.station) && forall e :: e in [first] + between + [second] ==> LegalStimulus(e)
    requires AllAllowed(w, [first] + between + [second])
    ensures Allowed(w.station, first) && AllAllowed(Step(w, first), between)
    ensures Allowed(StepAll(Step(w, first), between).station, second)
  {
    var all := [first] + between + [second];
    assert all[0] == first && all[1..] == between + [second];
    AllowedSplit(Step(w, first), between, second);
  }

  lemma {:induction false} AllowedSplit(w: World, events: seq<Stimulus>, e: Stimulus)
    requires WellFormed(w.station) && forall x :: x in events + [e] ==> LegalStimulus(x)
    requires AllAllowed(w, events + [e])
    ensures AllAllowed(w, events) && Allowed(StepAll(w, events).station, e)
    decreases events
  {
    if events == [] {
      assert events + [e] == [e];
    } else {
      assert (events + [e])[0] == events[0] && (events + [e])[1..] == events[1..] + [e];
      assert events[0] in events + [e];
      AllowedSplit(Step(w, events[0]), events[1..], e);
    }
  }
}
