/** What the daemon asks of the panel by itself.

    The refresh at start-up and a cleared image ask for the equipment list, the end of
    that list asks for the dynamic data; nothing else is sent that no client called
    for. */
module Requests {
  import opened Bytes
  import opened Outbox
  import opened Protocol
  import opened Runs
  import opened Panel
  import opened Commands
  import opened Replies
  import opened Session
  import opened EventLog
  import opened Network
  import opened News

  /** The request an input gives rise to. */
  function AskedBy(x: Input): seq<seq<byte>> {
    if x.RefreshRequested? || x.frame.data[0] == 0x20 then [[0x02]]
    else if x.frame.data[0] == 0x08 then [[0x20]]
    else []
  }

  lemma InputAsks(m: Mirror, x: Input, listener: bool)
    requires Shape(m) && InBounds(m, x)
    ensures React(m, x, listener).queued == AskedBy(x)
  {
    hide SetLights, Bit, Differing, PinText, Word, Shape, SubcmdRow, SubcmdNotes, Tabled;
  }

  /** What the inputs of a run ask for; the refreshes of clients are not among them. */
  function AskedIn(turns: seq<Turn>): seq<seq<byte>> {
    if turns == [] then []
    else AskedIn(Init(turns)) + if Last(turns).Inward? then AskedBy(Last(turns).x) else []
  }

  /** The messages that no call stands behind. */
  function Uncalled(jobs: seq<Job>): seq<seq<byte>> {
    if jobs == [] then []
    else Uncalled(Init(jobs)) + if Last(jobs).finished.None? then [Last(jobs).msg] else []
  }

  lemma UncalledAppend(jobs: seq<Job>, job: Job)
    ensures Uncalled(jobs + [job]) == Uncalled(jobs) + if job.finished.None? then [job.msg] else []
  {
    assert Init(jobs + [job]) == jobs;
  }

  /** The message that a stimulus submits without a call. */
  function Unbidden(e: Option<Stimulus>): seq<seq<byte>> {
    match e
    case Some(Submit(job, _, _)) => if job.finished.None? then [job.msg] else []
    case _ => []
  }

  lemma TurnSubmits(s: Server, t: Turn)
    requires Shape(s.mirror) && WellFormed(s.world.station) && LegalTurn(s, t)
    ensures Unbidden(StimulusOf(s, t)) == if t.Inward? then AskedBy(t.x) else []
  {
    if t.Inward? {
      InputAsks(s.mirror, t.x, t.listener);
    }
    hide React, CallVerdict, Shape;
  }

  lemma StepAsks(w: World, e: Stimulus)
    requires WellFormed(w.station) && LegalStimulus(e)
    ensures Uncalled(Jobs(Step(w, e).trace)) == Uncalled(Jobs(w.trace)) + Unbidden(Some(e))
  {
    StepAppends(w, e);
    hide Step, Jobs;
    var jobs := Jobs(w.trace);
    if e.Submit? {
      UncalledAppend(jobs, e.job);
    } else {
      assert jobs + [] == jobs && Uncalled(jobs) + [] == Uncalled(jobs);
    }
  }

  lemma TurnAsks(s: Server, t: Turn)
    requires Shape(s.mirror) && WellFormed(s.world.station) && LegalTurn(s, t)
    ensures Uncalled(Jobs(Take(s, t).world.trace))
         == Uncalled(Jobs(s.world.trace)) + if t.Inward? then AskedBy(t.x) else []
  {
    TurnIsStimulus(s, t);
    TurnSubmits(s, t);
    hide Take, Step, StimulusOf, Jobs, Shape, AskedBy, Uncalled;
    match StimulusOf(s, t)
    case Some(e) => StepAsks(s.world, e);
    case None =>
  }

  /** Over every run: the messages queued without a call are exactly those asked for, in
      order. */
  lemma {:induction false} UncalledIsAsked(turns: seq<Turn>)
    requires Day(turns).Some?
    ensures Uncalled(Jobs(Day(turns).value.world.trace)) == AskedIn(turns)
  {
    if turns != [] {
      hide Take, LegalTurn, AllowedTurn, AskedBy;
      UncalledIsAsked(Init(turns));
      TurnAsks(Day(Init(turns)).value, Last(turns));
    }
  }

  /** In a session too, subscribers are told exactly the news of its history. */
  lemma SessionTellsNews(xs: seq<Happening>, listener: bool)
    requires Live(xs, listener).Some?
    ensures Told(xs, listener) == AllNews(InputsIn(TurnsIn(xs, listener)), listener)
  {
    ToldIsHistory(xs, listener);
    NotesAreNews(InputsIn(TurnsIn(xs, listener)), listener);
  }
}
