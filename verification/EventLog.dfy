/** The event log and the event tables over a history.

    The log is a ring of 256 cells read backwards from the last one written; the
    alarm and trouble tables keep the latest event of each kind. */
module EventLog {
  import opened Bytes
  import opened Panel
  import opened History

  predicate IsEvent(x: Input) {
    IsSubcmd(x, ALARM_TROUBLE)
  }

  /** The events received, oldest first. */
  function Events(h: seq<Input>): seq<Event> {
    if h == [] then []
    else if IsEvent(Last(h)) then Events(Init(h)) + [EventOf(Last(h).frame, Last(h).now)]
    else Events(Init(h))
  }

  /** The latest event that satisfies p. */
  function Latest(events: seq<Event>, p: Event -> bool): Option<Event> {
    if events == [] then None
    else if p(events[|events| - 1]) then Some(events[|events| - 1])
    else Latest(events[..|events| - 1], p)
  }

  lemma LatestAppend(events: seq<Event>, e: Event, p: Event -> bool)
    ensures Latest(events + [e], p) == if p(e) then Some(e) else Latest(events, p)
  {
    assert (events + [e])[..|events|] == events;
  }

  // ------------------------------------------------------------- the log ring

  /** The cell k places before `last`. */
  function Cell(last: byte, k: nat): (c: nat)
    requires k < EVENT_LOG
    ensures c < EVENT_LOG && c == (last - k) % EVENT_LOG
  {
    if k <= last then last - k else last + EVENT_LOG - k
  }

  /** The event k places before the latest. */
  function Ago(events: seq<Event>, k: nat): Option<Event> {
    if k < |events| then Some(events[|events| - 1 - k]) else None
  }

  /** Read backwards from `last`, the ring holds the last 256 events, and its
      other cells are empty. */
  predicate LogTells(log: seq<Option<Event>>, last: byte, events: seq<Event>) {
    && |log| == EVENT_LOG
    && last as int == |events| % EVENT_LOG
    && forall k :: 0 <= k < EVENT_LOG ==> log[Cell(last, k)] == Ago(events, k)
  }

  lemma LogStep(log: seq<Option<Event>>, last: byte, events: seq<Event>, e: Event)
    requires LogTells(log, last, events)
    ensures var next := (last + 1) % EVENT_LOG;
            LogTells(log[next := Some(e)], next, events + [e])
  {
    var next: byte := if last == EVENT_LOG - 1 then 0 else last + 1;
    forall k | 0 <= k < EVENT_LOG
      ensures log[next := Some(e)][Cell(next, k)] == Ago(events + [e], k)
    {
      if k > 0 {
        assert Cell(next, k) == Cell(last, k - 1) != next;
        assert Ago(events + [e], k) == Ago(events, k - 1);
      }
    }
  }

  // --------------------------------------------------------------- the tables

  function SystemTroubleOf(t: nat): Event -> bool {
    (e: Event) => IsSystemTrouble(e.general) && e.specific == t
  }

  function AlarmOf(i: nat, t: nat): Event -> bool {
    (e: Event) => IsAlarm(e.general) && e.partitionId == i && e.specific == t
  }

  function TroubleOf(i: nat, t: nat): Event -> bool {
    (e: Event) => IsTrouble(e.general) && e.partitionId == i && e.specific == t
  }

  /** Every cell is the latest event of its kind, and the AC flag agrees with the
      status of the AC-failure cell. */
  predicate TablesTell(m: Mirror, events: seq<Event>)
    requires Shape(m)
  {
    && (forall t :: 0 <= t < SYSTEM_TROUBLE_TYPES ==> m.troubles[t] == Latest(events, SystemTroubleOf(t)))
    && (forall i, t :: 0 <= i < PARTITIONS && 0 <= t < ALARM_TYPES ==>
          m.partitions[i].alarms[t] == Latest(events, AlarmOf(i, t)))
    && (forall i, t :: 0 <= i < PARTITIONS && 0 <= t < TROUBLE_TYPES ==>
          m.partitions[i].troubles[t] == Latest(events, TroubleOf(i, t)))
    && m.acFailure == (m.troubles[MAIN_AC_FAIL].Some? && m.troubles[MAIN_AC_FAIL].value.status == Ongoing)
  }

  /** Two mirrors that differ at most in what events do not touch. */
  predicate SameTables(a: Mirror, b: Mirror)
    requires Shape(a) && Shape(b)
  {
    && a.log == b.log && a.logLast == b.logLast && a.troubles == b.troubles && a.acFailure == b.acFailure
    && forall i :: 0 <= i < PARTITIONS ==>
         a.partitions[i].alarms == b.partitions[i].alarms && a.partitions[i].troubles == b.partitions[i].troubles
  }

  lemma SubcmdKeepsTables(m: Mirror, f: Frame, now: int)
    requires Shape(m) && f.data[1] != ALARM_TROUBLE && TouchpadInBounds(f)
    ensures SameTables(m, HandleSubcmd(m, f, now).panel)
  {
    hide SubcmdNotes;
    if f.data[2] < PARTITIONS {
      RowKeepsTables(m.partitions[f.data[2]], f, now);
      hide SubcmdRow;
    }
  }

  lemma RowKeepsTables(q: Partition, f: Frame, now: int)
    requires f.data[2] < PARTITIONS && TouchpadInBounds(f)
    ensures SubcmdRow(q, f, now).alarms == q.alarms && SubcmdRow(q, f, now).troubles == q.troubles
  {
    hide Bit, Long, Word;
  }

  lemma LightsKeepTables(m: Mirror, f: Frame, listener: bool, now: int)
    requires Shape(m)
    ensures SameTables(m, HandleSubcmd2(m, f, listener, now).panel)
  {
    hide Bit, SetLights, Word, NamesShape;
  }

  lemma OthersKeepTables(m: Mirror, f: Frame, listener: bool, now: int)
    requires Shape(m) && f.data[0] != SUBCMD && FrameInBounds(m, f)
    ensures SameTables(m, Handle(m, f, listener, now).panel)
  {
    hide HandleSubcmd, Bit, SetLights, Word, Differing, PinText;
    if f.data[0] == SUBCMD2 {
      LightsKeepTables(m, f, listener, now);
      hide HandleSubcmd2;
    } else if IsList(f) {
      ListsElsewhere(m, f, listener, now);
      hide Handle;
    } else {
      hide HandleSubcmd2, HandleOutputData, HandleDeviceData, HandleCapabilityData, HandlePanelType, NamesShape;
    }
  }

  lemma QuietInputKeepsTables(m: Mirror, x: Input, listener: bool)
    requires Shape(m) && !IsEvent(x) && InBounds(m, x)
    ensures SameTables(m, React(m, x, listener).panel)
  {
    if x.Received? {
      hide HandleSubcmd, HandleSubcmd2;
      if x.frame.data[0] == SUBCMD {
        SubcmdKeepsTables(m, x.frame, x.now);
      } else {
        OthersKeepTables(m, x.frame, listener, x.now);
      }
    }
  }

  lemma EventUpdatesTables(m: Mirror, e: Event, source: int, now: int, events: seq<Event>)
    requires Shape(m) && TablesTell(m, events) && e.status == StatusOf(e.general)
    ensures TablesTell(Tabled(m, e, source, now).0, events + [e])
  {
    SystemCells(m, e, source, now, events);
    AlarmCells(m, e, source, now, events);
    TroubleCells(m, e, source, now, events);
    AcFlag(m, e, source, now);
    hide Tabled, Latest, Shape;
  }

  lemma SystemCells(m: Mirror, e: Event, source: int, now: int, events: seq<Event>)
    requires Shape(m) && TablesTell(m, events)
    ensures var r := Tabled(m, e, source, now).0;
            forall t :: 0 <= t < SYSTEM_TROUBLE_TYPES ==> r.troubles[t] == Latest(events + [e], SystemTroubleOf(t))
  {
    hide IsOutputReport, Latest;
    var r := Tabled(m, e, source, now).0;
    forall t | 0 <= t < SYSTEM_TROUBLE_TYPES ensures r.troubles[t] == Latest(events + [e], SystemTroubleOf(t)) {
      LatestAppend(events, e, SystemTroubleOf(t));
    }
  }

  lemma AlarmCells(m: Mirror, e: Event, source: int, now: int, events: seq<Event>)
    requires Shape(m) && TablesTell(m, events)
    ensures var r := Tabled(m, e, source, now).0;
            forall i, t :: 0 <= i < PARTITIONS && 0 <= t < ALARM_TYPES ==>
              r.partitions[i].alarms[t] == Latest(events + [e], AlarmOf(i, t))
  {
    hide IsOutputReport, Latest;
    var r := Tabled(m, e, source, now).0;
    forall i, t | 0 <= i < PARTITIONS && 0 <= t < ALARM_TYPES
      ensures r.partitions[i].alarms[t] == Latest(events + [e], AlarmOf(i, t))
    {
      LatestAppend(events, e, AlarmOf(i, t));
    }
  }

  lemma TroubleCells(m: Mirror, e: Event, source: int, now: int, events: seq<Event>)
    requires Shape(m) && TablesTell(m, events)
    ensures var r := Tabled(m, e, source, now).0;
            forall i, t :: 0 <= i < PARTITIONS && 0 <= t < TROUBLE_TYPES ==>
              r.partitions[i].troubles[t] == Latest(events + [e], TroubleOf(i, t))
  {
    hide IsOutputReport, Latest;
    var r := Tabled(m, e, source, now).0;
    forall i, t | 0 <= i < PARTITIONS && 0 <= t < TROUBLE_TYPES
      ensures r.partitions[i].troubles[t] == Latest(events + [e], TroubleOf(i, t))
    {
      LatestAppend(events, e, TroubleOf(i, t));
    }
  }

  lemma AcFlag(m: Mirror, e: Event, source: int, now: int)
    requires Shape(m) && e.status == StatusOf(e.general)
    requires m.acFailure == (m.troubles[MAIN_AC_FAIL].Some? && m.troubles[MAIN_AC_FAIL].value.status == Ongoing)
    ensures var r := Tabled(m, e, source, now).0;
            r.acFailure == (r.troubles[MAIN_AC_FAIL].Some? && r.troubles[MAIN_AC_FAIL].value.status == Ongoing)
  {
    hide IsOutputReport;
  }

  /** The log and the tables after any history. */
  lemma {:induction false} EventsAfter(h: seq<Input>, listener: bool)
    requires Bounded(h, listener)
    ensures var m := After(h, listener);
            LogTells(m.log, m.logLast, Events(h)) && TablesTell(m, Events(h))
  {
    if h == [] {
    } else {
      hide React, TablesTell, LogTells, Shape;
      var m := After(Init(h), listener);
      EventsAfter(Init(h), listener);
      var x := Last(h);
      if IsEvent(x) {
        EventStep(m, x, listener, Events(Init(h)));
      } else {
        QuietInputKeepsTables(m, x, listener);
        SameTablesTell(m, React(m, x, listener).panel, Events(h));
      }
    }
  }

  lemma EventReaction(m: Mirror, x: Input, listener: bool)
    requires Shape(m) && IsEvent(x) && InBounds(m, x)
    ensures var e := EventOf(x.frame, x.now);
            React(m, x, listener).panel == Tabled(Logged(m, e), e, SourceOf(x.frame), x.now).0
  {
    hide Tabled, Logged;
  }

  lemma EventStep(m: Mirror, x: Input, listener: bool, events: seq<Event>)
    requires Shape(m) && IsEvent(x) && InBounds(m, x)
    requires LogTells(m.log, m.logLast, events) && TablesTell(m, events)
    ensures var r := React(m, x, listener).panel;
            var e := EventOf(x.frame, x.now);
            LogTells(r.log, r.logLast, events + [e]) && TablesTell(r, events + [e])
  {
    var e := EventOf(x.frame, x.now);
    var logged := Logged(m, e);
    hide TablesTell, LogTells, React, Tabled, Shape, StatusOf;
    LogStep(m.log, m.logLast, events, e);
    SameTablesTell(m, logged, events);
    EventUpdatesTables(logged, e, SourceOf(x.frame), x.now, events);
    TabledKeepsLog(logged, e, SourceOf(x.frame), x.now);
    EventReaction(m, x, listener);
  }

  lemma SameTablesTell(a: Mirror, b: Mirror, events: seq<Event>)
    requires Shape(a) && Shape(b) && TablesTell(a, events)
    requires a.troubles == b.troubles && a.acFailure == b.acFailure
    requires forall i :: 0 <= i < PARTITIONS ==>
               a.partitions[i].alarms == b.partitions[i].alarms && a.partitions[i].troubles == b.partitions[i].troubles
    ensures TablesTell(b, events)
  {
    hide Latest;
  }

  lemma TabledKeepsLog(m: Mirror, e: Event, source: int, now: int)
    requires Shape(m)
    ensures var r := Tabled(m, e, source, now).0;
            r.log == m.log && r.logLast == m.logLast
  {
  }

  // ------------------------------------------------------------ what is passed on

  /** Events passed on to the subscriber by a list of calls. */
  function PassedOn(notes: seq<Note>): seq<Event> {
    if notes == [] then []
    else PassedOn(notes[..|notes| - 1]) + if notes[|notes| - 1].Dispatched? then [notes[|notes| - 1].event] else []
  }

  /** All calls to subscribers over a history. */
  function Notes(h: seq<Input>, listener: bool): seq<Note>
    requires Bounded(h, listener)
  {
    if h == [] then [] else Notes(Init(h), listener) + React(After(Init(h), listener), Last(h), listener).notes
  }

  function Reportable(events: seq<Event>): seq<Event> {
    if events == [] then []
    else
      var e := events[|events| - 1];
      Reportable(events[..|events| - 1]) + if IsOutputReport(e) then [] else [e]
  }

  lemma {:induction false} PassedOnConcat(a: seq<Note>, b: seq<Note>)
    ensures PassedOn(a + b) == PassedOn(a) + PassedOn(b)
  {
    if b == [] {
      assert a + b == a;
    } else {
      assert (a + b)[..|a + b| - 1] == a + b[..|b| - 1];
      PassedOnConcat(a, b[..|b| - 1]);
    }
  }

  predicate NoEvents(notes: seq<Note>) {
    forall n :: n in notes ==> !n.Dispatched?
  }

  lemma {:induction false} NothingPassedOn(notes: seq<Note>)
    requires NoEvents(notes)
    ensures PassedOn(notes) == []
  {
    if notes != [] {
      NothingPassedOn(notes[..|notes| - 1]);
    }
  }

  lemma QuietInputPassesNothing(m: Mirror, x: Input, listener: bool)
    requires Shape(m) && !IsEvent(x) && InBounds(m, x)
    ensures NoEvents(React(m, x, listener).notes)
  {
    hide SetLights, Bit, Differing, PinText, Word, SubcmdRow, SIREN_MASK;
  }

  lemma EventPassesItself(m: Mirror, x: Input, listener: bool)
    requires Shape(m) && IsEvent(x) && InBounds(m, x)
    ensures var e := EventOf(x.frame, x.now);
            PassedOn(React(m, x, listener).notes) == (if IsOutputReport(e) then [] else [e])
  {
    var e := EventOf(x.frame, x.now);
    var (_, notes) := Tabled(Logged(m, e), e, SourceOf(x.frame), x.now);
    NothingPassedOn(notes);
    hide Tabled;
    PassedOnConcat(notes, if IsOutputReport(e) then [] else [Dispatched(e)]);
    assert PassedOn([Dispatched(e)]) == [e];
  }

  lemma ReportableAppend(events: seq<Event>, e: Event)
    ensures Reportable(events + [e]) == Reportable(events) + if IsOutputReport(e) then [] else [e]
  {
    assert (events + [e])[..|events|] == events;
  }

  /** The subscriber gets every event logged except output reports, in order. */
  lemma {:induction false} EventsArePassedOn(h: seq<Input>, listener: bool)
    requires Bounded(h, listener)
    ensures PassedOn(Notes(h, listener)) == Reportable(Events(h))
  {
    if h != [] {
      hide React, IsOutputReport, PassedOn, Reportable, Shape, EventOf, NoEvents;
      var m, x := After(Init(h), listener), Last(h);
      EventsArePassedOn(Init(h), listener);
      PassedOnConcat(Notes(Init(h), listener), React(m, x, listener).notes);
      if IsEvent(x) {
        EventPassesItself(m, x, listener);
        ReportableAppend(Events(Init(h)), EventOf(x.frame, x.now));
      } else {
        QuietInputPassesNothing(m, x, listener);
        NothingPassedOn(React(m, x, listener).notes);
      }
    }
  }
}
