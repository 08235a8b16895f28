/** Events as the panel reports them, byte by byte.

    What module EventLog says of the log, the tables and the subscriber is said
    here of the frames themselves. */
module Reports {
  import opened Bytes
  import opened Panel
  import opened History
  import opened EventLog
  import opened Chronicle

  predicate IsReport(x: Input) {
    x.Received? && x.frame.data[0] == 0x22 && x.frame.data[1] == 0x02
  }

  /** Begun, ended or cancelled, by the general type. */
  function StatusIn(general: byte): EventStatus {
    if general in {1, 4, 6, 15} then Ongoing
    else if general in {3, 5, 7, 16} then Restored
    else if general == 2 then Canceled
    else Unspecified
  }

  /** The event in a report.  Bus devices have long numbers, zones and users short ones;
      the other number is all ones. */
  function EventIn(f: Frame, now: int): Event {
    var device := f.data[4] == 0;
    Event(StatusIn(f.data[8]), f.data[2], f.data[4],
          if device then 0xFFFF else Number(f.data[6..8]), if device then Number(f.data[5..8]) else 0xFFFF_FFFF,
          f.data[8], f.data[9], Number(f.data[10..12]), now)
  }

  lemma EventIsIn(f: Frame, now: int)
    ensures EventOf(f, now) == EventIn(f, now) && SourceOf(f) == Number(f.data[5..8])
  {
    NumbersOf(f, 5);
    NumbersOf(f, 6);
    NumbersOf(f, 10);
    hide Number;
    ShortSource(f.data[5], f.data[6], f.data[7]);
  }

  lemma ShortSource(b2: byte, b1: byte, b0: byte)
    ensures Long(0, b2, b1, b0) % 0x10000 == Word(b1, b0)
  {
  }

  /** The events reported, oldest first. */
  function ReportsIn(h: seq<Input>): seq<Event> {
    if h == [] then []
    else ReportsIn(Init(h)) + if IsReport(Last(h)) then [EventIn(Last(h).frame, Last(h).now)] else []
  }

  lemma {:induction false} ReportsAreEvents(h: seq<Input>)
    ensures ReportsIn(h) == Events(h)
  {
    if h != [] {
      hide EventOf, EventIn;
      ReportsAreEvents(Init(h));
      if IsReport(Last(h)) {
        EventIsIn(Last(h).frame, Last(h).now);
      }
    }
  }

  /** The log after any history: the last report is in the cell last written, and the
      255 before it are behind, round the ring. */
  lemma LogAfter(h: seq<Input>, listener: bool, k: nat)
    requires Bounded(h, listener) && k < 256
    ensures var m := After(h, listener);
            var reports := ReportsIn(h);
            var last: nat := m.logLast;
            && |m.log| == 256 && last == |reports| % 256
            && m.log[(last - k) % 256] == if k < |reports| then Some(reports[|reports| - 1 - k]) else None
  {
    EventsAfter(h, listener);
    ReportsAreEvents(h);
    hide After, Bounded, TablesTell, ReportsIn, Events, LogTells;
    CellsOf(After(h, listener).log, After(h, listener).logLast, Events(h), k);
  }

  lemma CellsOf(log: seq<Option<Event>>, last: byte, events: seq<Event>, k: nat)
    requires LogTells(log, last, events) && k < 256
    ensures |log| == 256 && last as int == |events| % 256
    ensures log[(last as int - k) % 256] == if k < |events| then Some(events[|events| - 1 - k]) else None
  {
    assert log[Cell(last, k)] == Ago(events, k);
  }

  // ------------------------------------------------------------------- the tables

  /** The last report of these general types about t, from partition i if one is given. */
  function LastReport(h: seq<Input>, types: set<byte>, i: Option<nat>, t: nat): Option<Event> {
    if h == [] then None
    else if IsReport(Last(h)) && Last(h).frame.data[8] in types && Last(h).frame.data[9] as int == t
              && (i.Some? ==> Last(h).frame.data[2] as int == i.value)
    then Some(EventIn(Last(h).frame, Last(h).now))
    else LastReport(Init(h), types, i, t)
  }

  ghost predicate Picks(p: Event -> bool, types: set<byte>, i: Option<nat>, t: nat) {
    forall e :: p(e) <==> e.general in types && e.specific as int == t && (i.Some? ==> e.partitionId as int == i.value)
  }

  lemma {:induction false} LastReportIsLatest(h: seq<Input>, p: Event -> bool, types: set<byte>, i: Option<nat>, t: nat)
    requires Picks(p, types, i, t)
    ensures LastReport(h, types, i, t) == Latest(ReportsIn(h), p)
  {
    if h != [] {
      LastReportIsLatest(Init(h), p, types, i, t);
      if IsReport(Last(h)) {
        LatestAppend(ReportsIn(Init(h)), EventIn(Last(h).frame, Last(h).now), p);
      } else {
        assert ReportsIn(h) == ReportsIn(Init(h));
      }
    }
  }

  /** The tables after any history: alarms, troubles, system troubles, and whether mains
      has failed. */
  lemma TablesAfter(h: seq<Input>, listener: bool)
    requires Bounded(h, listener)
    ensures var m := After(h, listener);
            && (forall t :: 0 <= t < 52 ==> m.troubles[t] == LastReport(h, {15, 16}, None, t))
            && (forall i, t :: 0 <= i < 8 && 0 <= t < 40 ==>
                  m.partitions[i].alarms[t] == LastReport(h, {1, 2, 3}, Some(i), t))
            && (forall i, t :: 0 <= i < 8 && 0 <= t < 20 ==>
                  m.partitions[i].troubles[t] == LastReport(h, {4, 5, 6, 7}, Some(i), t))
            && m.acFailure == (var last := LastReport(h, {15, 16}, None, 5); last.Some? && last.value.general == 15)
  {
    EventsAfter(h, listener);
    ReportsAreEvents(h);
    var m := After(h, listener);
    hide After, Bounded, ReportsIn, Events, LogTells, Latest, LastReport;
    forall t | 0 <= t < 52 ensures m.troubles[t] == LastReport(h, {15, 16}, None, t) {
      LastReportIsLatest(h, SystemTroubleOf(t), {15, 16}, None, t);
    }
    forall i: nat, t | i < 8 && 0 <= t < 40
      ensures m.partitions[i].alarms[t] == LastReport(h, {1, 2, 3}, Some(i), t)
    {
      LastReportIsLatest(h, AlarmOf(i, t), {1, 2, 3}, Some(i), t);
    }
    forall i: nat, t | i < 8 && 0 <= t < 20
      ensures m.partitions[i].troubles[t] == LastReport(h, {4, 5, 6, 7}, Some(i), t)
    {
      LastReportIsLatest(h, TroubleOf(i, t), {4, 5, 6, 7}, Some(i), t);
    }
    LastIsOne(h, 5);
  }

  lemma {:induction false} LastIsOne(h: seq<Input>, t: nat)
    ensures var last := LastReport(h, {15, 16}, None, t);
            last.Some? ==> last.value.status == (if last.value.general == 15 then Ongoing else Restored)
  {
    if h != [] {
      LastIsOne(Init(h), t);
    }
  }

  // --------------------------------------------------------------- what is passed on

  /** The reports passed on: all but those of outputs going on or off. */
  function ReportsTold(h: seq<Input>): seq<Event> {
    if h == [] then []
    else
      var x := Last(h);
      ReportsTold(Init(h)) +
      if IsReport(x) && !(x.frame.data[8] == 18 && x.frame.data[9] in {5, 6}) then [EventIn(x.frame, x.now)] else []
  }

  lemma {:induction false} ToldIsReportable(h: seq<Input>)
    ensures ReportsTold(h) == Reportable(ReportsIn(h))
  {
    if h != [] {
      ToldIsReportable(Init(h));
      if IsReport(Last(h)) {
        var e := EventIn(Last(h).frame, Last(h).now);
        ReportableAppend(ReportsIn(Init(h)), e);
        assert IsOutputReport(e) <==> e.general == 18 && e.specific in {5, 6};
      } else {
        assert ReportsIn(h) == ReportsIn(Init(h));
      }
      hide Reportable, IsOutputReport, EventIn;
    }
  }

  lemma ReportsArePassedOn(h: seq<Input>, listener: bool)
    requires Bounded(h, listener)
    ensures PassedOn(Notes(h, listener)) == ReportsTold(h)
  {
    EventsArePassedOn(h, listener);
    ReportsAreEvents(h);
    ToldIsReportable(h);
  }
}
