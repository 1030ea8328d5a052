/** What was done to the records of activities, told by the events of a run alone: the results passed to `Stop`, the
    failures notified and the splits, in their order, followed through every move of a record.  The stop events say
    what this log says. */
module ActivityLog {
  import opened Collections
  import opened ActivityRecord
  import opened Activities
  import opened ActivityInvariant
  import opened ActivityReports

  datatype Record = Record(status: Status, history: History)

  /** One stop event: what the record had been through when the report chose, and when it wrote. */
  datatype Said = Said(choice: History, history: History)

  /** `choices` are those of the handles that are reporting. */
  datatype Log = Log(records: map<Cell, Record>, choices: map<HandleId, History>, said: map<ActivityId, seq<Said>>)

  const UNTOUCHED := History(0, [], [], None, None)
  const NOTHING := Log(map[], map[], map[])

  function At(log: Log, c: Cell): Record {
    if c in log.records then log.records[c] else Record(NotStarted, UNTOUCHED)
  }

  function Put(log: Log, c: Cell, r: Record): Log { log.(records := log.records[c := r]) }

  /** The result is decided, by a failure, when that many failures have been notified. */
  function DecidedNow(h: History): History {
    if h.failedAt.None? then h.(failedAt := Some(|h.notified|)) else h
  }

  /** The record goes to another cell and leaves one that is not started. */
  function Moved(log: Log, from: Cell, to: Cell): Log {
    Put(Put(log, to, At(log, from)), from, At(log, from).(status := NotStarted))
  }

  function TargetOf(s: State, h: HandleId): Cell { if h in s.handles then s.handles[h].target else Own(h) }

  function LogStep(s: State, log: Log, e: Event): Log {
    var c := TargetOf(s, e.h);
    var r := At(log, c);
    match e
    case New(h) => Put(log, Own(h), Record(NotStarted, UNTOUCHED))
    case StartActivity(_, a) => Put(log, c, r.(status := Started(a))).(said := log.said[a := []])
    case NotifyFailure(_, hr) => Put(log, c, r.(history := r.history.(notified := r.history.notified + [hr])))
    case Stop(_, hr) =>
      var stopped := r.history.(stops := r.history.stops + [hr]);
      Put(log, c, r.(history := if hr < 0 then DecidedNow(stopped) else stopped))
    case SplitBegins(_) => Put(log, c, r.(history := r.history.(splits := r.history.splits + 1)))
    case DestroyStops(_) =>
      if r.status.Started? then
        Put(log, c, r.(history := DecidedNow(r.history.(unhandled := Some(r.history.notified)))))
      else log
    case ReportChooses(h) => log.(choices := log.choices[h := r.history])
    case ReportStops(_) => if r.status.Started? then Put(log, c, r.(status := Stopped(r.status.a))) else log
    case ReportWrites(h) =>
      if !r.status.NotStarted? && r.status.a in log.said && h in log.choices then
        log.(said := log.said[r.status.a := log.said[r.status.a] + [Said(log.choices[h], r.history)]])
      else log
    case CopySelf(h, x, ok) => if Unshared(s, h) && ok then Moved(log, Own(h), Shr(x)) else log
    case CopyDrops(_, from, x, ok) => if Unshared(s, from) && ok then Moved(log, Own(from), Shr(x)) else log
    case MoveInto(h, from) => Moved(log, Own(from), Own(h))
    case _ => log
  }

  predicate Unshared(s: State, h: HandleId) { h in s.handles && s.handles[h].shared.None? }

  /** The log of a run. */
  function LogOf(s: State, log: Log, es: seq<Event>): Log
    decreases |es|
  {
    if es == [] then log
    else if Enabled(s, es[0]) then LogOf(Step(s, es[0]), LogStep(s, log, es[0]), es[1..])
    else LogOf(s, log, es[1..])
  }

  /** What the activity has come to, by its stops. */
  function VerdictOn(h: History): HResult { Verdict(h.stops, h.unhandled) }

  /** A report attaches the failure recorded if that is the failing verdict. */
  predicate Attaches(h: History) { Failed(VerdictOn(h)) && Recorded(VerdictOn(h), h) == VerdictOn(h) }

  /** The HRESULT of the event: the failure recorded by the time of the write, or the verdict. */
  function HresultOf(x: Said): HResult {
    if Attaches(x.choice) then Recorded(VerdictOn(x.history), x.history) else VerdictOn(x.history)
  }

  function EventOf(x: Said): StopEvent {
    StopEvent(HresultOf(x), Attaches(x.choice), |x.choice.notified|, x.history)
  }

  // ----- the state agrees with the log -----

  predicate CellAgrees(s: State, log: Log, c: Cell) {
    c in s.data ==> c in log.records && log.records[c] == Record(s.data[c].status, s.data[c].history)
  }

  predicate ChoiceAgrees(s: State, log: Log, h: HandleId) {
    HasChosen(s, h) ==>
      h in log.choices && ChoiceOf(s, h) == (Attaches(log.choices[h]), |log.choices[h].notified|)
  }

  ghost predicate EventsAgree(s: State, log: Log, a: ActivityId) {
    && (a in s.activities <==> a in log.said)
    && (a in s.activities ==>
          && |s.activities[a].events| == |log.said[a]|
          && forall i :: 0 <= i < |log.said[a]| ==> s.activities[a].events[i] == EventOf(log.said[a][i]))
  }

  ghost predicate CellsAgree(s: State, log: Log) { forall c :: CellAgrees(s, log, c) }

  ghost predicate ChoicesAgree(s: State, log: Log) { forall h :: ChoiceAgrees(s, log, h) }

  ghost predicate AllEventsAgree(s: State, log: Log) { forall a :: EventsAgree(s, log, a) }

  ghost predicate Agrees(s: State, log: Log) {
    CellsAgree(s, log) && ChoicesAgree(s, log) && AllEventsAgree(s, log)
  }

  // ----- records -----

  lemma QuietEventAgrees(s: State, log: Log, e: Event, c: Cell)
    requires Enabled(s, e) && QuietEvent(e)
    requires CellAgrees(s, log, c) && CellAgrees(s, log, TargetOf(s, e.h))
    ensures CellAgrees(Step(s, e), LogStep(s, log, e), c)
  {
  }

  lemma StopAgrees(s: State, log: Log, e: Event, c: Cell)
    requires Enabled(s, e) && (e.Stop? || e.DestroyStops?) && HasData(s, e.h) && Lawful(s.data[s.handles[e.h].target])
    requires CellAgrees(s, log, c) && CellAgrees(s, log, TargetOf(s, e.h))
    ensures CellAgrees(Step(s, e), LogStep(s, log, e), c)
  {
  }

  lemma ReportAgrees(s: State, log: Log, e: Event, c: Cell)
    requires Enabled(s, e) && ReportEvent(e)
    requires CellAgrees(s, log, c) && CellAgrees(s, log, TargetOf(s, e.h))
    ensures CellAgrees(Step(s, e), LogStep(s, log, e), c)
  {
  }

  lemma SourceAgrees(s: State, log: Log, h: HandleId, from: HandleId, x: SharedId, c: Cell)
    requires MayCopy(s, h, from, x) && CellAgrees(s, log, c) && CellAgrees(s, log, Own(from))
    ensures CellAgrees(Source(s, h, from, x), if Unshared(s, from) then Moved(log, Own(from), Shr(x)) else log, c)
  {
  }

  lemma LendAgrees(s: State, log: Log, h: HandleId, from: HandleId, c: Cell)
    requires HasRefs(s, h) && In(s, h, Idle) && In(s, from, Idle) && h != from && CellAgrees(s, log, c)
    ensures CellAgrees(Lend(Drop(s, h), h, from), log, c)
  {
  }

  lemma CopyDropsAgrees(s: State, log: Log, e: Event, c: Cell)
    requires Enabled(s, e) && e.CopyDrops? && CellAgrees(s, log, c) && CellAgrees(s, log, Own(e.from))
    ensures CellAgrees(Step(s, e), LogStep(s, log, e), c)
  {
    if s.handles[e.from].shared.Some? || e.ok {
      SourceAgrees(s, log, e.h, e.from, e.x, c);
      SourceIsIdle(s, e.h, e.from, e.x);
      LendAgrees(Source(s, e.h, e.from, e.x), LogStep(s, log, e), e.h, e.from, c);
    }
  }

  lemma SourceIsIdle(s: State, h: HandleId, from: HandleId, x: SharedId)
    requires MayCopy(s, h, from, x)
    ensures var s2 := Source(s, h, from, x); In(s2, h, Idle) && In(s2, from, Idle)
  {
  }

  predicate MovesRecord(e: Event) { e.CopySelf? || e.MoveInto? }

  lemma MoveAgrees(s: State, log: Log, e: Event, c: Cell)
    requires Enabled(s, e) && MovesRecord(e) && CellAgrees(s, log, c)
    requires CellAgrees(s, log, Own(e.h)) && (e.MoveInto? ==> CellAgrees(s, log, Own(e.from)))
    ensures CellAgrees(Step(s, e), LogStep(s, log, e), c)
  {
  }

  lemma OtherEventAgrees(s: State, log: Log, e: Event, c: Cell)
    requires Enabled(s, e) && !DataEvent(e) && !e.CopyDrops? && !MovesRecord(e) && CellAgrees(s, log, c)
    ensures CellAgrees(Step(s, e), LogStep(s, log, e), c)
  {
  }

  lemma StepKeepsCells(s: State, log: Log, e: Event)
    requires Enabled(s, e) && CellsAgree(s, log)
    requires (e.Stop? || e.DestroyStops?) ==> HasData(s, e.h) && Lawful(s.data[s.handles[e.h].target])
    ensures CellsAgree(Step(s, e), LogStep(s, log, e))
  {
    forall c ensures CellAgrees(Step(s, e), LogStep(s, log, e), c) {
      if QuietEvent(e) { QuietEventAgrees(s, log, e, c); }
      else if ReportEvent(e) { ReportAgrees(s, log, e, c); }
      else if e.Stop? || e.DestroyStops? { StopAgrees(s, log, e, c); }
      else if e.CopyDrops? { CopyDropsAgrees(s, log, e, c); }
      else if MovesRecord(e) { MoveAgrees(s, log, e, c); }
      else { OtherEventAgrees(s, log, e, c); }
    }
  }

  // ----- choices and events -----

  /** By its law a record attaches what its history says. */
  lemma AttachedByHistory(d: Data)
    requires Lawful(d)
    ensures Attached(d).Some? <==> Attaches(d.history)
  {
  }

  lemma ChoosingAgrees(s: State, log: Log, h: HandleId)
    requires Enabled(s, ReportChooses(h)) && CellAgrees(s, log, s.handles[h].target)
    requires Lawful(s.data[s.handles[h].target])
    ensures ChoiceAgrees(Step(s, ReportChooses(h)), LogStep(s, log, ReportChooses(h)), h)
  {
    AttachedByHistory(s.data[s.handles[h].target]);
  }

  lemma ChoicesStay(s: State, log: Log, e: Event, h: HandleId)
    requires e != ReportChooses(h)
    ensures h in log.choices ==>
              h in LogStep(s, log, e).choices && LogStep(s, log, e).choices[h] == log.choices[h]
  {
  }

  lemma StepKeepsChoice(s: State, log: Log, e: Event, h: HandleId)
    requires Inv(s) && Enabled(s, e) && Disciplined(s, e) && CellsAgree(s, log) && ChoiceAgrees(s, log, h)
    ensures ChoiceAgrees(Step(s, e), LogStep(s, log, e), h)
  {
    if e == ReportChooses(h) {
      assert HandleOk(s, h) && CellOk(s, s.handles[h].target);
      assert CellAgrees(s, log, s.handles[h].target);
      ChoosingAgrees(s, log, h);
    } else if HasChosen(Step(s, e), h) {
      ChosenStays(s, e, h);
      ChoicesStay(s, log, e, h);
    }
  }

  /** What is written is what the log has it say. */
  lemma WrittenAgrees(s: State, log: Log, h: HandleId)
    requires Inv(s) && Enabled(s, ReportWrites(h)) && ChoiceAgrees(s, log, h) && CellsAgree(s, log)
    ensures h in log.choices
    ensures Written(s.data[s.handles[h].target], ChoiceOf(s, h).0, ChoiceOf(s, h).1) ==
            EventOf(Said(log.choices[h], At(log, s.handles[h].target).history))
  {
    assert CellAgrees(s, log, s.handles[h].target);
    assert HandleOk(s, h) && CellOk(s, s.handles[h].target);
  }

  lemma WriteAgrees(s: State, log: Log, h: HandleId, a: ActivityId)
    requires Enabled(s, ReportWrites(h)) && h in log.choices && CellAgrees(s, log, s.handles[h].target)
    requires Written(s.data[s.handles[h].target], ChoiceOf(s, h).0, ChoiceOf(s, h).1) ==
             EventOf(Said(log.choices[h], At(log, s.handles[h].target).history))
    requires s.data[s.handles[h].target].status.NotStarted? || EventsAgree(s, log, s.data[s.handles[h].target].status.a)
    requires EventsAgree(s, log, a)
    ensures EventsAgree(Step(s, ReportWrites(h)), LogStep(s, log, ReportWrites(h)), a)
  {
  }

  lemma StartAgrees(s: State, log: Log, e: Event, a: ActivityId)
    requires Enabled(s, e) && e.StartActivity? && EventsAgree(s, log, a)
    ensures EventsAgree(Step(s, e), LogStep(s, log, e), a)
  {
  }

  lemma DataEventKeepsLife(s: State, e: Event, a: ActivityId)
    requires Enabled(s, e) && DataEvent(e) && !e.StartActivity? && !e.ReportWrites?
    ensures a in Step(s, e).activities <==> a in s.activities
    ensures a in s.activities ==> Step(s, e).activities[a].events == s.activities[a].events
  {
  }

  lemma CopyDropsKeepsLife(s: State, e: Event, a: ActivityId)
    requires Enabled(s, e) && e.CopyDrops?
    ensures a in Step(s, e).activities <==> a in s.activities
    ensures a in s.activities ==> Step(s, e).activities[a].events == s.activities[a].events
  {
    CopyDropsKeepsEvents(s, e, a);
    SourceKeepsKeys(s, e.h, e.from, e.x);
  }

  lemma SourceKeepsKeys(s: State, h: HandleId, from: HandleId, x: SharedId)
    requires MayCopy(s, h, from, x)
    ensures Source(s, h, from, x).activities.Keys == s.activities.Keys
  {
  }

  lemma OtherEventKeepsLife(s: State, e: Event, a: ActivityId)
    requires Enabled(s, e) && !DataEvent(e) && !e.CopyDrops?
    ensures a in Step(s, e).activities <==> a in s.activities
    ensures a in s.activities ==> Step(s, e).activities[a].events == s.activities[a].events
  {
  }

  lemma SaidStays(s: State, log: Log, e: Event)
    requires !e.StartActivity? && !e.ReportWrites?
    ensures LogStep(s, log, e).said == log.said
  {
  }

  lemma StepKeepsEventsOf(s: State, log: Log, e: Event, a: ActivityId)
    requires Enabled(s, e) && AllEventsAgree(s, log) && !e.ReportWrites?
    ensures EventsAgree(Step(s, e), LogStep(s, log, e), a)
  {
    assert EventsAgree(s, log, a);
    if e.StartActivity? {
      StartAgrees(s, log, e, a);
    } else {
      SaidStays(s, log, e);
      if DataEvent(e) { DataEventKeepsLife(s, e, a); }
      else if e.CopyDrops? { CopyDropsKeepsLife(s, e, a); }
      else { OtherEventKeepsLife(s, e, a); }
    }
  }

  lemma StepKeepsEventsAgree(s: State, log: Log, e: Event)
    requires Inv(s) && Enabled(s, e) && Agrees(s, log)
    ensures AllEventsAgree(Step(s, e), LogStep(s, log, e))
  {
    if e.ReportWrites? {
      var c := s.handles[e.h].target;
      assert ChoiceAgrees(s, log, e.h) && CellAgrees(s, log, c);
      WrittenAgrees(s, log, e.h);
      forall a ensures EventsAgree(Step(s, e), LogStep(s, log, e), a) { WriteAgrees(s, log, e.h, a); }
    } else {
      forall a ensures EventsAgree(Step(s, e), LogStep(s, log, e), a) { StepKeepsEventsOf(s, log, e, a); }
    }
  }

  lemma StepKeepsAgrees(s: State, log: Log, e: Event)
    requires Inv(s) && Enabled(s, e) && Disciplined(s, e) && Agrees(s, log)
    ensures Agrees(Step(s, e), LogStep(s, log, e))
  {
    if e.Stop? || e.DestroyStops? { assert HandleOk(s, e.h) && CellOk(s, s.handles[e.h].target); }
    StepKeepsCells(s, log, e);
    forall h ensures ChoiceAgrees(Step(s, e), LogStep(s, log, e), h) { StepKeepsChoice(s, log, e, h); }
    StepKeepsEventsAgree(s, log, e);
  }

  lemma {:induction false} RunKeepsAgrees(s: State, log: Log, es: seq<Event>)
    requires Inv(s) && LocksOk(s) && Agrees(s, log) && DisciplinedRun(s, es)
    ensures Agrees(Exec(s, es), LogOf(s, log, es))
    decreases |es|
  {
    if es != [] {
      if Enabled(s, es[0]) {
        StepKeepsInv(s, es[0]);
        StepKeepsLocks(s, es[0]);
        StepKeepsAgrees(s, log, es[0]);
        RunKeepsAgrees(Step(s, es[0]), LogStep(s, log, es[0]), es[1..]);
      } else {
        RunKeepsAgrees(s, log, es[1..]);
      }
    }
  }

  // ----- results over every run -----

  /** On every disciplined run each record holds exactly what was done to it: the activity last started, and the
      stops, failures and splits in their order. */
  lemma RecordsHoldTheLog(es: seq<Event>, c: Cell)
    requires DisciplinedRun(START, es) && c in Exec(START, es).data
    ensures var log := LogOf(START, NOTHING, es);
            && c in log.records && Exec(START, es).data[c].status == log.records[c].status
            && Exec(START, es).data[c].history == log.records[c].history
  {
    RunKeepsAgrees(START, NOTHING, es);
    assert CellAgrees(Exec(START, es), LogOf(START, NOTHING, es), c);
  }

  /** And the stop events of an activity are those that the log says: one for each report written, with the history
      of its record by then. */
  lemma EventsSayTheLog(es: seq<Event>, a: ActivityId)
    requires DisciplinedRun(START, es)
    ensures var s, log := Exec(START, es), LogOf(START, NOTHING, es);
            && (a in s.activities <==> a in log.said)
            && (a in s.activities ==>
                  && |s.activities[a].events| == |log.said[a]|
                  && forall i :: 0 <= i < |log.said[a]| ==> s.activities[a].events[i] == EventOf(log.said[a][i]))
  {
    RunKeepsAgrees(START, NOTHING, es);
    assert EventsAgree(Exec(START, es), LogOf(START, NOTHING, es), a);
  }
}
