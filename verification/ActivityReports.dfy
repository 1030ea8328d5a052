/** What the stop events of activities say.  The choice between the stored failure and the plain result is made
    without the lock, and the event is written from the record as that is by then: so the HRESULT of the event is
    the activity's verdict exactly as long as no other failure is notified in between. */
module ActivityReports {
  import opened Collections
  import opened ActivityRecord
  import opened Activities
  import opened ActivityInvariant
  import opened ActivityRuns

  // ----- what a report has chosen, and what it writes -----

  function Until(h: History, n: nat): History
    requires n <= |h.notified|
  {
    h.(notified := h.notified[..n])
  }

  /** The choice was right when it was made, and the result has been decided before. */
  predicate ChoiceOk(result: HResult, h: History, attach: bool, seen: nat) {
    && seen <= |h.notified| && (h.failedAt.Some? <==> Failed(result))
    && (h.failedAt.Some? ==> h.failedAt.value <= seen)
    && (attach <==> Failed(result) && Recorded(result, Until(h, seen)) == result)
  }

  /** A stop event comes with the last expected stop, one and one more for each split, or from the final handle
      when there were fewer.  It says the failure last recorded if one was attached, and else the verdict. */
  predicate EventOk(e: StopEvent) {
    var verdict := VerdictOf(e);
    && (if e.history.unhandled.None? then |e.history.stops| == e.history.splits + 1
        else |e.history.stops| <= e.history.splits)
    && ChoiceOk(verdict, e.history, e.attached, e.seen)
    && e.hr == if e.attached then Recorded(verdict, e.history) else verdict
  }

  function VerdictOf(e: StopEvent): HResult { Verdict(e.history.stops, e.history.unhandled) }

  predicate HasChosen(s: State, h: HandleId) { IsReporting(s, h) && !Chooses(s, h) }

  function ChoiceOf(s: State, h: HandleId): (bool, nat)
    requires HasChosen(s, h)
  {
    (s.handles[h].phase.stage.attach, s.handles[h].phase.stage.seen)
  }

  predicate ReportOk(s: State, h: HandleId) {
    HasChosen(s, h) ==>
      && HasData(s, h)
      && var d := s.data[s.handles[h].target];
         ChoiceOk(d.result, d.history, ChoiceOf(s, h).0, ChoiceOf(s, h).1)
  }

  ghost predicate EventsOk(s: State, a: ActivityId)
    requires a in s.activities
  {
    forall e :: e in s.activities[a].events ==> EventOk(e)
  }

  ghost predicate ReportsOk(s: State) {
    (forall h :: h in s.handles ==> ReportOk(s, h)) && (forall a :: a in s.activities ==> EventsOk(s, a))
  }

  lemma ChoiceIsOk(d: Data)
    requires Lawful(d)
    ensures ChoiceOk(d.result, d.history, Attached(d).Some?, |d.history.notified|)
  {
    assert Until(d.history, |d.history.notified|) == d.history;
  }

  /** What is notified later does not touch what was seen. */
  lemma NotifyKeepsChoice(result: HResult, h: History, attach: bool, seen: nat, hr: HResult)
    requires ChoiceOk(result, h, attach, seen)
    ensures ChoiceOk(result, h.(notified := h.notified + [hr]), attach, seen)
  {
    assert (h.notified + [hr])[..seen] == h.notified[..seen];
  }

  /** The HRESULT of the event is the verdict if and only if nothing that replaces an attached failure was notified
      between the choice and the write; and a failure is attached if and only if the last one notified before the
      verdict has its HRESULT and all later ones up to the choice repeat it. */
  lemma HresultIff(e: StopEvent)
    requires EventOk(e)
    ensures e.hr == VerdictOf(e) <==>
            (e.attached ==> forall i :: e.seen <= i < |e.history.notified| ==> e.history.notified[i] == VerdictOf(e))
    ensures e.attached <==>
              && e.history.failedAt.Some?
              && var k, n := e.history.failedAt.value, e.history.notified;
                 k > 0 && n[k - 1] == VerdictOf(e) && forall i :: k <= i < e.seen ==> n[i] == VerdictOf(e)
  {
    if Failed(VerdictOf(e)) {
      var n := e.history.notified;
      RecordedIff(VerdictOf(e), e.history);
      RecordedIff(VerdictOf(e), Until(e.history, e.seen));
      assert forall i :: 0 <= i < e.seen ==> n[..e.seen][i] == n[i];
    }
  }

  // ----- nobody but a notification changes a record that is being reported -----

  /** The event changes more of the record than its status or the failures notified. */
  predicate Decides(e: Event) { e.StartActivity? || e.SplitBegins? || e.Stop? || e.DestroyStops? }

  lemma ReportedIsDecided(s: State, e: Event, r: HandleId)
    requires Inv(s) && Enabled(s, e) && Disciplined(s, e) && Decides(e) && IsReporting(s, r)
    ensures s.handles[e.h].target != s.handles[r].target
  {
    PairIsOk(s, e.h, r);
    PairIsOk(s, r, e.h);
    SharedWhileReported(s, e.h, r);
  }

  /** Whoever works on a record that another handle reports is no destructor, and finds no stop expected. */
  lemma SharedWhileReported(s: State, g: HandleId, r: HandleId)
    requires g in s.handles && s.handles[g].phase != Ended && IsReporting(s, r) && g != r
    requires HandleOk(s, g) && HandleOk(s, r) && Apart(s, g, r) && Apart(s, r, g)
    ensures s.handles[g].target == s.handles[r].target ==>
              !Final(s.handles[g].phase) && HasData(s, g) && s.data[s.handles[g].target].expected == 0
  {
  }

  /** The record is the same but for its status and the failure just notified. */
  predicate Stays(s: State, e: Event, c: Cell)
    requires Enabled(s, e) && c in s.data
  {
    var d, s' := s.data[c], Step(s, e);
    c in s'.data && s'.data[c].result == d.result &&
    s'.data[c].history ==
      if e.NotifyFailure? && s.handles[e.h].target == c then d.history.(notified := d.history.notified + [e.hr])
      else d.history
  }

  lemma DataEventStays(s: State, e: Event, c: Cell)
    requires Enabled(s, e) && DataEvent(e) && c in s.data && (Decides(e) ==> s.handles[e.h].target != c)
    ensures Stays(s, e, c)
  {
  }

  /** Only the choice itself makes a report one that has chosen. */
  lemma DataEventKeepsChoice(s: State, e: Event, r: HandleId)
    requires Enabled(s, e) && DataEvent(e) && HasChosen(Step(s, e), r) && e != ReportChooses(r)
    ensures HasChosen(s, r) && ChoiceOf(Step(s, e), r) == ChoiceOf(s, r)
    ensures Step(s, e).handles[r].target == s.handles[r].target
  {
  }

  /** Whatever r is reporting, it was reporting before, with the same record. */
  predicate SameReport(s: State, s': State, r: HandleId) {
    IsReporting(s', r) ==>
      && r in s.handles && s.handles[r] == s'.handles[r]
      && (HasData(s', r) ==> HasData(s, r) && s'.data[s.handles[r].target] == s.data[s.handles[r].target])
  }

  lemma SourceIsSame(s: State, h: HandleId, from: HandleId, x: SharedId, r: HandleId)
    requires MayCopy(s, h, from, x) && (IsReporting(s, r) ==> HandleOk(s, r))
    ensures var s2 := Source(s, h, from, x); SameReport(s, s2, r) && In(s2, h, Idle) && In(s2, from, Idle)
  {
  }

  lemma LendIsSame(s: State, h: HandleId, from: HandleId, r: HandleId)
    requires In(s, h, Idle) && In(s, from, Idle) && h != from && HasRefs(s, h)
    ensures SameReport(s, Lend(Drop(s, h), h, from), r)
  {
  }

  lemma CopyDropsIsSame(s: State, e: Event, r: HandleId)
    requires Enabled(s, e) && e.CopyDrops? && (IsReporting(s, r) ==> HandleOk(s, r))
    ensures SameReport(s, Step(s, e), r)
  {
    SourceIsSame(s, e.h, e.from, e.x, r);
    LendIsSame(Source(s, e.h, e.from, e.x), e.h, e.from, r);
  }

  lemma OtherEventIsSame(s: State, e: Event, r: HandleId)
    requires Enabled(s, e) && !DataEvent(e) && !e.CopyDrops? && (IsReporting(s, r) ==> HandleOk(s, r))
    ensures SameReport(s, Step(s, e), r)
  {
  }

  /** From one state to the next, a report that has chosen keeps its choice and its record. */
  lemma ChosenStays(s: State, e: Event, r: HandleId)
    requires Inv(s) && Enabled(s, e) && Disciplined(s, e) && HasChosen(Step(s, e), r) && e != ReportChooses(r)
    ensures HasChosen(s, r) && ChoiceOf(Step(s, e), r) == ChoiceOf(s, r)
    ensures Step(s, e).handles[r].target == s.handles[r].target && HasData(s, r)
    ensures Stays(s, e, s.handles[r].target)
  {
    StepKeepsInv(s, e);
    assert HandleOk(Step(s, e), r);
    if DataEvent(e) {
      DataEventKeepsChoice(s, e, r);
      assert HandleOk(s, r);
      if Decides(e) { ReportedIsDecided(s, e, r); }
      DataEventStays(s, e, s.handles[r].target);
    } else if e.CopyDrops? {
      CopyDropsIsSame(s, e, r);
    } else {
      OtherEventIsSame(s, e, r);
    }
  }

  lemma ChoosingIsOk(s: State, h: HandleId)
    requires Inv(s) && Enabled(s, ReportChooses(h))
    ensures ReportOk(Step(s, ReportChooses(h)), h)
  {
    assert HandleOk(s, h) && CellOk(s, s.handles[h].target);
    ChoiceIsOk(s.data[s.handles[h].target]);
  }

  lemma StepKeepsReport(s: State, e: Event, r: HandleId)
    requires Inv(s) && Enabled(s, e) && Disciplined(s, e) && (r in s.handles ==> ReportOk(s, r))
    ensures ReportOk(Step(s, e), r)
  {
    if HasChosen(Step(s, e), r) {
      if e == ReportChooses(r) {
        ChoosingIsOk(s, r);
      } else {
        ChosenStays(s, e, r);
        var d, choice := s.data[s.handles[r].target], ChoiceOf(s, r);
        if e.NotifyFailure? { NotifyKeepsChoice(d.result, d.history, choice.0, choice.1, e.hr); }
      }
    }
  }

  lemma WrittenIsOk(s: State, h: HandleId)
    requires Inv(s) && Enabled(s, ReportWrites(h)) && ReportOk(s, h)
    ensures EventOk(Written(s.data[s.handles[h].target], ChoiceOf(s, h).0, ChoiceOf(s, h).1))
  {
    assert HandleOk(s, h) && CellOk(s, s.handles[h].target);
  }

  /** Only the write adds an event, and it adds that one. */
  lemma DataEventKeepsEvents(s: State, e: Event, a: ActivityId)
    requires Enabled(s, e) && DataEvent(e) && a in Step(s, e).activities
    ensures var old_, new_ := if a in s.activities then s.activities[a].events else [], Step(s, e).activities[a].events;
            new_ == old_ || new_ == [] ||
            (e.ReportWrites? &&
             new_ == old_ + [Written(s.data[s.handles[e.h].target], ChoiceOf(s, e.h).0, ChoiceOf(s, e.h).1)])
  {
  }

  predicate SameEvents(s: State, s': State, a: ActivityId) {
    a in s'.activities ==> a in s.activities && s'.activities[a].events == s.activities[a].events
  }

  lemma SourceKeepsEvents(s: State, h: HandleId, from: HandleId, x: SharedId, a: ActivityId)
    requires MayCopy(s, h, from, x)
    ensures SameEvents(s, Source(s, h, from, x), a)
  {
  }

  lemma CopyDropsKeepsEvents(s: State, e: Event, a: ActivityId)
    requires Enabled(s, e) && e.CopyDrops?
    ensures SameEvents(s, Step(s, e), a)
  {
    SourceKeepsEvents(s, e.h, e.from, e.x, a);
  }

  lemma OtherEventKeepsEvents(s: State, e: Event, a: ActivityId)
    requires Enabled(s, e) && !DataEvent(e) && !e.CopyDrops?
    ensures SameEvents(s, Step(s, e), a)
  {
  }

  lemma StepKeepsEvents(s: State, e: Event, a: ActivityId)
    requires Inv(s) && Enabled(s, e) && a in Step(s, e).activities && (a in s.activities ==> EventsOk(s, a))
    requires e.ReportWrites? ==> ReportOk(s, e.h)
    ensures EventsOk(Step(s, e), a)
  {
    if DataEvent(e) {
      if e.ReportWrites? { WrittenIsOk(s, e.h); }
      DataEventKeepsEvents(s, e, a);
    } else if e.CopyDrops? {
      CopyDropsKeepsEvents(s, e, a);
    } else {
      OtherEventKeepsEvents(s, e, a);
    }
  }

  lemma StepKeepsReports(s: State, e: Event)
    requires Inv(s) && ReportsOk(s) && Enabled(s, e) && Disciplined(s, e)
    ensures ReportsOk(Step(s, e))
  {
    forall h | h in Step(s, e).handles ensures ReportOk(Step(s, e), h) { StepKeepsReport(s, e, h); }
    forall a | a in Step(s, e).activities ensures EventsOk(Step(s, e), a) { StepKeepsEvents(s, e, a); }
  }

  lemma {:induction false} RunKeepsReports(s: State, es: seq<Event>)
    requires Inv(s) && LocksOk(s) && ReportsOk(s) && DisciplinedRun(s, es)
    ensures ReportsOk(Exec(s, es))
    decreases |es|
  {
    if es != [] {
      if Enabled(s, es[0]) {
        StepKeepsInv(s, es[0]);
        StepKeepsLocks(s, es[0]);
        StepKeepsReports(s, es[0]);
      }
      RunKeepsReports(if Enabled(s, es[0]) then Step(s, es[0]) else s, es[1..]);
    }
  }

  // ----- results over every run -----

  /** What a stop event says, on every disciplined run. */
  lemma StopEventResult(es: seq<Event>, a: ActivityId, i: nat)
    requires DisciplinedRun(START, es) && a in Exec(START, es).activities && i < |Exec(START, es).activities[a].events|
    ensures var e := Exec(START, es).activities[a].events[i];
            && EventOk(e)
            && (e.hr == VerdictOf(e) <==>
                (e.attached ==>
                   forall k :: e.seen <= k < |e.history.notified| ==> e.history.notified[k] == VerdictOf(e)))
  {
    RunKeepsReports(START, es);
    assert EventsOk(Exec(START, es), a);
    HresultIff(Exec(START, es).activities[a].events[i]);
  }

  // ----- what a caller can check -----

  /** A failure is notified only while the activity expects a stop, and not to the handle that is reporting. */
  predicate Quiet(s: State, e: Event)
    requires Enabled(s, e)
  {
    e.NotifyFailure? ==> !IsReporting(s, e.h) && s.data[s.handles[e.h].target].expected >= 1
  }

  predicate QuietRun(s: State, es: seq<Event>)
    decreases |es|
  {
    es == [] ||
    (if Enabled(s, es[0]) then Quiet(s, es[0]) && QuietRun(Step(s, es[0]), es[1..]) else QuietRun(s, es[1..]))
  }

  /** The report has seen all there is to see. */
  predicate UpToDate(s: State, h: HandleId) {
    HasChosen(s, h) ==>
      HasData(s, h) && ChoiceOf(s, h).1 == |s.data[s.handles[h].target].history.notified|
  }

  ghost predicate AllSeen(s: State) {
    && (forall h :: h in s.handles ==> UpToDate(s, h))
    && (forall a, e :: a in s.activities && e in s.activities[a].events ==> e.seen == |e.history.notified|)
  }

  lemma QuietIsElsewhere(s: State, e: Event, r: HandleId)
    requires Inv(s) && Enabled(s, e) && e.NotifyFailure? && Quiet(s, e) && IsReporting(s, r)
    ensures s.handles[e.h].target != s.handles[r].target
  {
    PairIsOk(s, e.h, r);
    PairIsOk(s, r, e.h);
    if s.handles[e.h].phase != Ended { SharedWhileReported(s, e.h, r); }
  }

  lemma StepKeepsUpToDate(s: State, e: Event, r: HandleId)
    requires Inv(s) && Enabled(s, e) && Disciplined(s, e) && Quiet(s, e) && (r in s.handles ==> UpToDate(s, r))
    ensures UpToDate(Step(s, e), r)
  {
    if HasChosen(Step(s, e), r) && e != ReportChooses(r) {
      ChosenStays(s, e, r);
      if e.NotifyFailure? { QuietIsElsewhere(s, e, r); }
    }
  }

  lemma StepKeepsSeen(s: State, e: Event, a: ActivityId, v: StopEvent)
    requires Enabled(s, e) && a in Step(s, e).activities && v in Step(s, e).activities[a].events
    requires a in s.activities && v in s.activities[a].events ==> v.seen == |v.history.notified|
    requires e.ReportWrites? ==> UpToDate(s, e.h)
    ensures v.seen == |v.history.notified|
  {
    if DataEvent(e) { DataEventKeepsEvents(s, e, a); }
    else if e.CopyDrops? { CopyDropsKeepsEvents(s, e, a); }
    else { OtherEventKeepsEvents(s, e, a); }
  }

  lemma StepKeepsAllSeen(s: State, e: Event)
    requires Inv(s) && AllSeen(s) && Enabled(s, e) && Disciplined(s, e) && Quiet(s, e)
    ensures AllSeen(Step(s, e))
  {
    forall h | h in Step(s, e).handles ensures UpToDate(Step(s, e), h) { StepKeepsUpToDate(s, e, h); }
    forall a, v | a in Step(s, e).activities && v in Step(s, e).activities[a].events
      ensures v.seen == |v.history.notified|
    {
      StepKeepsSeen(s, e, a, v);
    }
  }

  lemma {:induction false} RunKeepsAllSeen(s: State, es: seq<Event>)
    requires Inv(s) && LocksOk(s) && AllSeen(s) && DisciplinedRun(s, es) && QuietRun(s, es)
    ensures AllSeen(Exec(s, es))
    decreases |es|
  {
    if es != [] {
      if Enabled(s, es[0]) {
        StepKeepsInv(s, es[0]);
        StepKeepsLocks(s, es[0]);
        StepKeepsAllSeen(s, es[0]);
      }
      RunKeepsAllSeen(if Enabled(s, es[0]) then Step(s, es[0]) else s, es[1..]);
    }
  }

  /** Callers who have the handles of an activity notified only before its last stop get its verdict. */
  lemma QuietRunsReportTheVerdict(es: seq<Event>, a: ActivityId, i: nat)
    requires DisciplinedRun(START, es) && QuietRun(START, es)
    requires a in Exec(START, es).activities && i < |Exec(START, es).activities[a].events|
    ensures var e := Exec(START, es).activities[a].events[i]; e.hr == VerdictOf(e)
  {
    RunKeepsAllSeen(START, es);
    StopEventResult(es, a, i);
  }

  // ----- a run on which the event says something else -----

  /** g has chosen the stored failure of the record x of the running activity a, and h shares the record. */
  predicate Chosen(s: State, g: HandleId, h: HandleId, x: SharedId, a: ActivityId) {
    && g != h && Stops(s, g) && s.handles[g].phase.stage.attach
    && s.handles[g].shared == Some(x) && s.handles[g].target == Shr(x)
    && In(s, h, Idle) && s.handles[h].shared == Some(x) && s.handles[h].target == Shr(x)
    && Shr(x) in s.data && x !in s.locks && s.data[Shr(x)].status == Started(a)
    && Failed(s.data[Shr(x)].result) && s.data[Shr(x)].failure == s.data[Shr(x)].result
    && a in s.activities && s.activities[a].events == []
  }

  /** What g does next, after h is notified. */
  function LateNotification(g: HandleId, h: HandleId, hr: HResult): seq<Event> {
    [NotifyFailure(h, hr), ReportStops(g), ReportWrites(g)]
  }

  lemma LateNotificationSteps(s: State, g: HandleId, h: HandleId, x: SharedId, a: ActivityId, hr: HResult)
    requires Chosen(s, g, h, x, a) && hr != s.data[Shr(x)].result
    ensures Enabled(s, NotifyFailure(h, hr))
    ensures var s1 := Step(s, NotifyFailure(h, hr));
            && Enabled(s1, ReportStops(g)) && Enabled(Step(s1, ReportStops(g)), ReportWrites(g))
            && var s3 := Step(Step(s1, ReportStops(g)), ReportWrites(g));
               var h0 := s.data[Shr(x)].history;
               a in s3.activities && |s3.activities[a].events| == 1 && s3.activities[a].events[0].hr == hr &&
               VerdictOf(s3.activities[a].events[0]) == Verdict(h0.stops, h0.unhandled)
  {
  }

  /** Whatever other failure a sharer is notified of before the write is what the event says, although the verdict
      is another. */
  lemma LateNotificationIsReported(s: State, g: HandleId, h: HandleId, x: SharedId, a: ActivityId, hr: HResult)
    requires Chosen(s, g, h, x, a) && hr != s.data[Shr(x)].result && Lawful(s.data[Shr(x)])
    ensures DisciplinedRun(s, LateNotification(g, h, hr))
    ensures var s' := Exec(s, LateNotification(g, h, hr));
            a in s'.activities && |s'.activities[a].events| == 1 &&
            s'.activities[a].events[0].hr == hr && VerdictOf(s'.activities[a].events[0]) == s.data[Shr(x)].result
  {
    LateNotificationSteps(s, g, h, x, a, hr);
    var s1 := Step(s, NotifyFailure(h, hr));
    var s2 := Step(s1, ReportStops(g));
    ExecFirst(s, NotifyFailure(h, hr), [ReportStops(g), ReportWrites(g)]);
    ExecFirst(s1, ReportStops(g), [ReportWrites(g)]);
    ExecFirst(s2, ReportWrites(g), []);
    DisciplinedFirst(s2, ReportWrites(g), []);
    DisciplinedFirst(s1, ReportStops(g), [ReportWrites(g)]);
    DisciplinedFirst(s, NotifyFailure(h, hr), [ReportStops(g), ReportWrites(g)]);
  }

  /** Of two handles that share a running record, one is notified of a failure, stops with it, and has chosen. */
  function FailingStop(): seq<Event> { [NotifyFailure(1, -1), Stop(1, -1), ReportChooses(1)] }

  lemma FailingStopSteps() returns (s1: State, s2: State)
    ensures Enabled(SHARED, NotifyFailure(1, -1)) && s1 == Step(SHARED, NotifyFailure(1, -1))
    ensures Enabled(s1, Stop(1, -1)) && Disciplined(s1, Stop(1, -1)) && s2 == Step(s1, Stop(1, -1))
    ensures Enabled(s2, ReportChooses(1)) && Chosen(Step(s2, ReportChooses(1)), 1, 0, 5, 7)
    ensures Step(s2, ReportChooses(1)).data[Shr(5)].result == -1
  {
    s1 := Step(SHARED, NotifyFailure(1, -1));
    s2 := Step(s1, Stop(1, -1));
  }

  lemma FailingStopChooses()
    ensures Chosen(Exec(SHARED, FailingStop()), 1, 0, 5, 7) && DisciplinedRun(SHARED, FailingStop())
    ensures Exec(SHARED, FailingStop()).data[Shr(5)].result == -1
  {
    var s1, s2 := FailingStopSteps();
    ExecFirst(SHARED, NotifyFailure(1, -1), [Stop(1, -1), ReportChooses(1)]);
    ExecFirst(s1, Stop(1, -1), [ReportChooses(1)]);
    ExecFirst(s2, ReportChooses(1), []);
    DisciplinedFirst(s2, ReportChooses(1), []);
    DisciplinedFirst(s1, Stop(1, -1), [ReportChooses(1)]);
    DisciplinedFirst(SHARED, NotifyFailure(1, -1), [Stop(1, -1), ReportChooses(1)]);
  }

  /** A disciplined run from the start whose only stop event says a failure that was notified after the last stop. */
  lemma EventCanDifferFromVerdict() returns (es: seq<Event>)
    ensures DisciplinedRun(START, es) && 7 in Exec(START, es).activities
    ensures var events := Exec(START, es).activities[7].events;
            |events| == 1 && events[0].hr == -2 && VerdictOf(events[0]) == -1
  {
    var prefix := SharedIsReachable();
    FailingStopChooses();
    var s := Exec(SHARED, FailingStop());
    ExecAppend(START, prefix, FailingStop());
    DisciplinedAppend(START, prefix, FailingStop());
    RunKeepsInv(START, prefix + FailingStop());
    assert CellOk(s, Shr(5));
    LateNotificationIsReported(s, 1, 0, 5, 7, -2);
    ExecAppend(START, prefix + FailingStop(), LateNotification(1, 0, -2));
    DisciplinedAppend(START, prefix + FailingStop(), LateNotification(1, 0, -2));
    es := prefix + FailingStop() + LateNotification(1, 0, -2);
  }
}
