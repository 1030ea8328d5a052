/** What every step of every handle of an activity keeps: where records live, who shares them, who holds a lock,
    and who is to report which stop. */
module ActivityInvariant {
  import opened Collections
  import opened ActivityRecord
  import opened Activities

  // ----- the invariant -----

  ghost function Holders(s: State, x: SharedId): set<HandleId> {
    set h | h in s.handles && s.handles[h].shared == Some(x)
  }

  predicate Final(p: Phase) { p == Dying || (p.Reporting? && p.last) || p == Ended }

  /** Where the handle's records are, and how many share the one it works on. */
  predicate ShareOk(s: State, h: HandleId)
    requires h in s.handles
  {
    var hd := s.handles[h];
    && Own(h) in s.data
    && (hd.shared.Some? ==>
          && hd.shared.value in s.refs && Shr(hd.shared.value) in s.data
          && !s.data[Own(h)].status.Started?
          && (Final(hd.phase) ==> s.refs[hd.shared.value] == 1))
    && (hd.phase != Ended ==> hd.target == if hd.shared.Some? then Shr(hd.shared.value) else Own(h))
  }

  /** What the steps of a copy or a destructor have established. */
  predicate PhaseOk(s: State, h: HandleId)
    requires h in s.handles && ShareOk(s, h)
  {
    var hd := s.handles[h];
    && (hd.phase == Ended ==>
          !s.data[Own(h)].status.Started? && (hd.shared.Some? ==> !s.data[Shr(hd.shared.value)].status.Started?))
    && (hd.phase == Dropping ==>
          && hd.shared.Some? && hd.shared.value in s.locks && s.locks[hd.shared.value] == h
          && (s.refs[hd.shared.value] > 1 || !s.data[Shr(hd.shared.value)].status.Started?))
    && (hd.phase.Joining? ==>
          && hd.shared.None? && !s.data[Own(h)].status.Started?
          && hd.phase.from in s.handles && s.handles[hd.phase.from].phase == Lending(h)
          && s.handles[hd.phase.from].shared.Some?)
  }

  /** Whoever reports a stop is the activity's reporter; only a final handle has decided by itself. */
  predicate DutyOk(s: State, h: HandleId)
    requires h in s.handles && ShareOk(s, h)
  {
    var hd := s.handles[h];
    && (hd.phase.Reporting? ==>
          var d := s.data[hd.target];
          && (if hd.phase.stage.Writing? then d.status.Stopped? else d.status.Started?)
          && d.status.a in s.activities && s.activities[d.status.a].events == []
          && s.activities[d.status.a].reporter == Some(h)
          && (if hd.phase.last then d.expected >= 0 && d.history.unhandled.Some? else d.expected == 0))
    && (!(hd.phase.Reporting? && hd.phase.last) && hd.phase != Ended ==>
          s.data[Own(h)].history.unhandled.None? && s.data[hd.target].history.unhandled.None?)
  }

  predicate HandleOk(s: State, h: HandleId)
    requires h in s.handles
  {
    ShareOk(s, h) && PhaseOk(s, h) && DutyOk(s, h)
  }

  ghost predicate RefOk(s: State, x: SharedId)
    requires x in s.refs
  {
    Shr(x) in s.data && s.refs[x] == |Holders(s, x)| && s.refs[x] > 0
  }

  predicate CellOk(s: State, c: Cell)
    requires c in s.data
  {
    && Lawful(s.data[c])
    && (match c case Own(h) => h in s.handles case Shr(x) => x in s.refs)
    && (s.data[c].status.Started? ==>
          var a := s.data[c].status.a;
          a in s.activities && s.activities[a].at == c && s.activities[a].events == [])
    && (s.data[c].status.Stopped? ==>
          var a := s.data[c].status.a;
          a in s.activities && (s.activities[a].events == [] ==> s.activities[a].at == c))
  }

  /** No stop event is still to be written for the record. */
  predicate IsWritten(s: State, c: Cell)
    requires c in s.data
  {
    var st := s.data[c].status;
    st.Stopped? ==> st.a in s.activities && s.activities[st.a].events != []
  }

  predicate ActivityOk(s: State, a: ActivityId)
    requires a in s.activities
  {
    var y := s.activities[a];
    if y.events == [] then
      && y.at in s.data
      && (match y.reporter
          case None => s.data[y.at].status == Started(a) && s.data[y.at].expected >= 1
          case Some(h) =>
            && IsReporting(s, h) && s.handles[h].target == y.at
            && s.data[y.at].status == if s.handles[h].phase.stage.Writing? then Stopped(a) else Started(a))
    else |y.events| == 1
  }

  ghost predicate HandlesOk(s: State) { forall h :: h in s.handles ==> HandleOk(s, h) }

  ghost predicate RefsOk(s: State) { forall x :: x in s.refs ==> RefOk(s, x) }

  ghost predicate CellsOk(s: State) { forall c :: c in s.data ==> CellOk(s, c) }

  ghost predicate ActivitiesOk(s: State) { forall a :: a in s.activities ==> ActivityOk(s, a) }

  ghost predicate Inv(s: State) { HandlesOk(s) && RefsOk(s) && CellsOk(s) && ActivitiesOk(s) }

  // ----- one step keeps the invariant -----

  lemma OneReference(s: State, x: SharedId, g: HandleId, h: HandleId)
    requires x in s.refs && RefOk(s, x) && s.refs[x] == 1 && g != h
    requires g in s.handles && s.handles[g].shared == Some(x) && h in s.handles
    ensures s.handles[h].shared != Some(x)
  {
    if s.handles[h].shared == Some(x) {
      assert {g, h} <= Holders(s, x);
      SubsetSize({g, h}, Holders(s, x));
    }
  }

  /** Whoever is past the uniqueness check shares with nobody. */
  lemma SoleHolder(s: State, g: HandleId, h: HandleId)
    requires Inv(s) && g in s.handles && h in s.handles && g != h && HasRefs(s, g)
    requires s.handles[g].shared.Some? && s.refs[s.handles[g].shared.value] == 1
    ensures s.handles[h].shared != s.handles[g].shared
  {
    OneReference(s, s.handles[g].shared.value, g, h);
  }

  predicate QuietEvent(e: Event) { e.StartActivity? || e.NotifyFailure? || e.SplitBegins? }
  predicate ReportEvent(e: Event) { e.ReportChooses? || e.ReportStops? || e.ReportWrites? }
  predicate StoppingEvent(e: Event) { e.Stop? || ReportEvent(e) || e.DestroyStops? }
  predicate DataEvent(e: Event) { QuietEvent(e) || StoppingEvent(e) }

  /** Two handles share nothing once either of them is past its uniqueness check. */
  predicate Apart(s: State, g: HandleId, h: HandleId)
    requires g in s.handles && h in s.handles
  {
    Final(s.handles[g].phase) && s.handles[g].shared.Some? ==> s.handles[h].shared != s.handles[g].shared
  }

  /** The stop is the last one expected. */
  predicate IsLast(s: State, e: Event)
    requires Enabled(s, e) && e.Stop?
  {
    s.data[s.handles[e.h].target].expected == 1
  }

  lemma StartKeepsOther(s: State, e: Event, h: HandleId)
    requires Enabled(s, e) && Disciplined(s, e) && e.StartActivity? && h in s.handles && h != e.h
    requires HandleOk(s, h) && HandleOk(s, e.h) && CellOk(s, s.handles[e.h].target)
    requires s.handles[h].target in s.data ==> CellOk(s, s.handles[h].target)
    requires Apart(s, h, e.h) && Apart(s, e.h, h)
    ensures h in Step(s, e).handles && HandleOk(Step(s, e), h)
  {
  }

  lemma UpdateKeepsOther(s: State, e: Event, h: HandleId)
    requires Enabled(s, e) && Disciplined(s, e) && (e.NotifyFailure? || e.SplitBegins?) && h in s.handles && h != e.h
    requires HandleOk(s, h) && HandleOk(s, e.h) && CellOk(s, s.handles[e.h].target)
    requires s.handles[h].target in s.data ==> CellOk(s, s.handles[h].target)
    requires Apart(s, h, e.h) && Apart(s, e.h, h)
    ensures h in Step(s, e).handles && HandleOk(Step(s, e), h)
  {
  }

  lemma ReportKeepsOther(s: State, e: Event, h: HandleId)
    requires Enabled(s, e) && Disciplined(s, e) && ReportEvent(e) && h in s.handles && h != e.h
    requires HandleOk(s, h) && HandleOk(s, e.h) && CellOk(s, s.handles[e.h].target)
    requires s.handles[h].target in s.data ==> CellOk(s, s.handles[h].target)
    requires Apart(s, h, e.h) && Apart(s, e.h, h)
    ensures h in Step(s, e).handles && HandleOk(Step(s, e), h)
  {
  }

  lemma MiddleStopKeepsOther(s: State, e: Event, h: HandleId)
    requires Enabled(s, e) && Disciplined(s, e) && e.Stop? && !IsLast(s, e) && h in s.handles && h != e.h
    requires HandleOk(s, h) && HandleOk(s, e.h) && CellOk(s, s.handles[e.h].target)
    requires s.handles[h].target in s.data ==> CellOk(s, s.handles[h].target)
    requires Apart(s, h, e.h) && Apart(s, e.h, h)
    ensures h in Step(s, e).handles && HandleOk(Step(s, e), h)
  {
  }

  lemma LastStopKeepsOther(s: State, e: Event, h: HandleId)
    requires Enabled(s, e) && Disciplined(s, e) && e.Stop? && IsLast(s, e) && h in s.handles && h != e.h
    requires HandleOk(s, h) && HandleOk(s, e.h) && CellOk(s, s.handles[e.h].target)
    requires s.handles[h].target in s.data ==> CellOk(s, s.handles[h].target)
    requires Apart(s, h, e.h) && Apart(s, e.h, h)
    ensures h in Step(s, e).handles && HandleOk(Step(s, e), h)
  {
  }

  lemma DestroyStopsKeepsOther(s: State, e: Event, h: HandleId)
    requires Enabled(s, e) && Disciplined(s, e) && e.DestroyStops? && h in s.handles && h != e.h
    requires HandleOk(s, h) && HandleOk(s, e.h) && CellOk(s, s.handles[e.h].target)
    requires s.handles[h].target in s.data ==> CellOk(s, s.handles[h].target)
    requires Apart(s, h, e.h) && Apart(s, e.h, h)
    ensures h in Step(s, e).handles && HandleOk(Step(s, e), h)
  {
    assert s.handles[h].phase != Ended ==> s.handles[h].target != s.handles[e.h].target;
  }

  lemma QuietEventKeepsSelf(s: State, e: Event)
    requires Enabled(s, e) && Disciplined(s, e) && QuietEvent(e)
    requires HandleOk(s, e.h) && CellOk(s, s.handles[e.h].target) && !FailsFast(s, e)
    ensures e.h in Step(s, e).handles && HandleOk(Step(s, e), e.h)
  {
  }

  lemma ReportKeepsSelf(s: State, e: Event)
    requires Enabled(s, e) && Disciplined(s, e) && ReportEvent(e)
    requires HandleOk(s, e.h) && CellOk(s, s.handles[e.h].target) && !FailsFast(s, e)
    ensures e.h in Step(s, e).handles && HandleOk(Step(s, e), e.h)
  {
  }

  lemma StopKeepsSelf(s: State, e: Event)
    requires Enabled(s, e) && Disciplined(s, e) && e.Stop?
    requires HandleOk(s, e.h) && CellOk(s, s.handles[e.h].target) && !FailsFast(s, e)
    ensures e.h in Step(s, e).handles && HandleOk(Step(s, e), e.h)
  {
  }

  lemma DestroyStopsKeepsSelf(s: State, e: Event)
    requires Enabled(s, e) && Disciplined(s, e) && e.DestroyStops?
    requires HandleOk(s, e.h) && CellOk(s, s.handles[e.h].target) && !FailsFast(s, e)
    ensures e.h in Step(s, e).handles && HandleOk(Step(s, e), e.h)
  {
  }

  lemma DataEventIsLawful(s: State, e: Event)
    requires Enabled(s, e) && Disciplined(s, e) && DataEvent(e)
    requires HandleOk(s, e.h) && CellOk(s, s.handles[e.h].target)
    ensures s.handles[e.h].target in Step(s, e).data && Lawful(Step(s, e).data[s.handles[e.h].target])
  {
    var d := s.data[s.handles[e.h].target];
    if e.Stop? { StopIsLawful(d, e.hr); }
    if e.NotifyFailure? { NotifyIsLawful(d, e.hr); }
    if e.DestroyStops? { UnhandledIsLawful(d); }
  }

  lemma QuietEventKeepsCell(s: State, e: Event, c: Cell)
    requires Enabled(s, e) && Disciplined(s, e) && QuietEvent(e) && c in s.data
    requires CellOk(s, c) && HandleOk(s, e.h) && CellOk(s, s.handles[e.h].target)
    ensures c in Step(s, e).data && CellOk(Step(s, e), c)
  {
    DataEventIsLawful(s, e);
  }

  lemma ReportKeepsCell(s: State, e: Event, c: Cell)
    requires Enabled(s, e) && Disciplined(s, e) && ReportEvent(e) && c in s.data
    requires CellOk(s, c) && HandleOk(s, e.h) && CellOk(s, s.handles[e.h].target)
    ensures c in Step(s, e).data && CellOk(Step(s, e), c)
  {
    DataEventIsLawful(s, e);
  }

  lemma StopKeepsCell(s: State, e: Event, c: Cell)
    requires Enabled(s, e) && Disciplined(s, e) && e.Stop? && c in s.data
    requires CellOk(s, c) && HandleOk(s, e.h) && CellOk(s, s.handles[e.h].target)
    ensures c in Step(s, e).data && CellOk(Step(s, e), c)
  {
    DataEventIsLawful(s, e);
  }

  lemma DestroyStopsKeepsCell(s: State, e: Event, c: Cell)
    requires Enabled(s, e) && Disciplined(s, e) && e.DestroyStops? && c in s.data
    requires CellOk(s, c) && HandleOk(s, e.h) && CellOk(s, s.handles[e.h].target)
    ensures c in Step(s, e).data && CellOk(Step(s, e), c)
  {
    DataEventIsLawful(s, e);
  }

  lemma QuietEventKeepsActivity(s: State, e: Event, a: ActivityId)
    requires Enabled(s, e) && Disciplined(s, e) && QuietEvent(e) && a in Step(s, e).activities
    requires s.handles[e.h].target in s.data && (e.StartActivity? ==> IsWritten(s, s.handles[e.h].target))
    requires HandleOk(s, e.h) && CellOk(s, s.handles[e.h].target) && (a in s.activities ==> ActivityOk(s, a))
    ensures ActivityOk(Step(s, e), a)
  {
  }

  lemma ReportKeepsActivity(s: State, e: Event, a: ActivityId)
    requires Enabled(s, e) && Disciplined(s, e) && ReportEvent(e) && a in Step(s, e).activities
    requires HandleOk(s, e.h) && CellOk(s, s.handles[e.h].target) && (a in s.activities ==> ActivityOk(s, a))
    ensures ActivityOk(Step(s, e), a)
  {
  }

  lemma MiddleStopKeepsActivity(s: State, e: Event, a: ActivityId)
    requires Enabled(s, e) && Disciplined(s, e) && e.Stop? && !IsLast(s, e) && a in Step(s, e).activities
    requires HandleOk(s, e.h) && CellOk(s, s.handles[e.h].target) && (a in s.activities ==> ActivityOk(s, a))
    ensures ActivityOk(Step(s, e), a)
  {
  }

  lemma LastStopKeepsActivity(s: State, e: Event, a: ActivityId)
    requires Enabled(s, e) && Disciplined(s, e) && e.Stop? && IsLast(s, e) && a in Step(s, e).activities
    requires HandleOk(s, e.h) && CellOk(s, s.handles[e.h].target) && (a in s.activities ==> ActivityOk(s, a))
    ensures ActivityOk(Step(s, e), a)
  {
  }

  lemma DestroyStopsKeepsActivity(s: State, e: Event, a: ActivityId)
    requires Enabled(s, e) && Disciplined(s, e) && e.DestroyStops? && a in Step(s, e).activities
    requires HandleOk(s, e.h) && CellOk(s, s.handles[e.h].target) && (a in s.activities ==> ActivityOk(s, a))
    ensures ActivityOk(Step(s, e), a)
  {
  }

  lemma DataEventKeepsSelf(s: State, e: Event)
    requires Enabled(s, e) && Disciplined(s, e) && DataEvent(e)
    requires HandleOk(s, e.h) && CellOk(s, s.handles[e.h].target) && !FailsFast(s, e)
    ensures e.h in Step(s, e).handles && HandleOk(Step(s, e), e.h)
  {
    if QuietEvent(e) { QuietEventKeepsSelf(s, e); }
    else if ReportEvent(e) { ReportKeepsSelf(s, e); }
    else if e.Stop? { StopKeepsSelf(s, e); }
    else { DestroyStopsKeepsSelf(s, e); }
  }

  lemma NeverFailsFast(s: State, e: Event)
    requires Inv(s) && Enabled(s, e) && Disciplined(s, e)
    ensures !FailsFast(s, e)
  {
    if e.DestroyStops? && s.data[s.handles[e.h].target].status.Started? {
      DyingHasStopLeft(s, e.h);
    }
  }

  /** The final handle finds a running activity only with a stop still expected. */
  lemma DyingHasStopLeft(s: State, h: HandleId)
    requires Inv(s) && In(s, h, Dying) && HasData(s, h) && s.data[s.handles[h].target].status.Started?
    ensures s.data[s.handles[h].target].expected >= 1
  {
    var c := s.handles[h].target;
    assert HandleOk(s, h) && CellOk(s, c) && ActivityOk(s, s.data[c].status.a);
    forall g | g in s.handles && g != h ensures s.handles[g].target == c ==> s.handles[g].phase == Ended {
      assert HandleOk(s, g);
      AreApart(s, h, g);
    }
    StopIsLeft(s, h);
  }

  lemma StopIsLeft(s: State, h: HandleId)
    requires In(s, h, Dying) && HasData(s, h) && s.data[s.handles[h].target].status.Started?
    requires CellOk(s, s.handles[h].target) && ActivityOk(s, s.data[s.handles[h].target].status.a)
    requires forall g :: g in s.handles && g != h && s.handles[g].target == s.handles[h].target
               ==> s.handles[g].phase == Ended
    ensures s.data[s.handles[h].target].expected >= 1
  {
  }

  lemma DataEventKeepsHandle(s: State, e: Event, h: HandleId)
    requires Enabled(s, e) && Disciplined(s, e) && Inv(s) && DataEvent(e) && h in s.handles
    ensures h in Step(s, e).handles && HandleOk(Step(s, e), h)
  {
    if h == e.h {
      assert HandleOk(s, h) && CellOk(s, s.handles[h].target);
      NeverFailsFast(s, e);
      DataEventKeepsSelf(s, e);
    } else {
      if QuietEvent(e) { QuietEventKeepsOther(s, e, h); } else { StoppingEventKeepsOther(s, e, h); }
    }
  }

  lemma QuietEventKeepsOther(s: State, e: Event, h: HandleId)
    requires Enabled(s, e) && Disciplined(s, e) && Inv(s) && QuietEvent(e) && h in s.handles && h != e.h
    ensures h in Step(s, e).handles && HandleOk(Step(s, e), h)
  {
    PairIsOk(s, e.h, h);
    PairIsOk(s, h, e.h);
    if e.StartActivity? { StartKeepsOther(s, e, h); } else { UpdateKeepsOther(s, e, h); }
  }

  lemma StoppingEventKeepsOther(s: State, e: Event, h: HandleId)
    requires Enabled(s, e) && Disciplined(s, e) && Inv(s) && StoppingEvent(e) && h in s.handles && h != e.h
    ensures h in Step(s, e).handles && HandleOk(Step(s, e), h)
  {
    PairIsOk(s, e.h, h);
    PairIsOk(s, h, e.h);
    if ReportEvent(e) { ReportKeepsOther(s, e, h); }
    else if e.DestroyStops? { DestroyStopsKeepsOther(s, e, h); }
    else if IsLast(s, e) { LastStopKeepsOther(s, e, h); }
    else { MiddleStopKeepsOther(s, e, h); }
  }

  lemma PairIsOk(s: State, g: HandleId, h: HandleId)
    requires Inv(s) && g in s.handles && h in s.handles && g != h
    ensures HandleOk(s, g) && (s.handles[g].target in s.data ==> CellOk(s, s.handles[g].target)) && Apart(s, g, h)
  {
    AreApart(s, g, h);
  }

  lemma StoppingEventKeepsCell(s: State, e: Event, c: Cell)
    requires Enabled(s, e) && Disciplined(s, e) && StoppingEvent(e) && c in s.data
    requires CellOk(s, c) && HandleOk(s, e.h) && CellOk(s, s.handles[e.h].target)
    ensures c in Step(s, e).data && CellOk(Step(s, e), c)
  {
    if ReportEvent(e) { ReportKeepsCell(s, e, c); }
    else if e.Stop? { StopKeepsCell(s, e, c); }
    else { DestroyStopsKeepsCell(s, e, c); }
  }

  lemma DataEventKeepsCell(s: State, e: Event, c: Cell)
    requires Enabled(s, e) && Disciplined(s, e) && DataEvent(e) && c in s.data
    requires CellOk(s, c) && HandleOk(s, e.h) && CellOk(s, s.handles[e.h].target)
    ensures c in Step(s, e).data && CellOk(Step(s, e), c)
  {
    if QuietEvent(e) { QuietEventKeepsCell(s, e, c); } else { StoppingEventKeepsCell(s, e, c); }
  }

  lemma StoppingEventKeepsActivity(s: State, e: Event, a: ActivityId)
    requires Enabled(s, e) && Disciplined(s, e) && StoppingEvent(e) && a in Step(s, e).activities
    requires HandleOk(s, e.h) && CellOk(s, s.handles[e.h].target) && (a in s.activities ==> ActivityOk(s, a))
    ensures ActivityOk(Step(s, e), a)
  {
    if ReportEvent(e) { ReportKeepsActivity(s, e, a); }
    else if e.DestroyStops? { DestroyStopsKeepsActivity(s, e, a); }
    else if IsLast(s, e) { LastStopKeepsActivity(s, e, a); }
    else { MiddleStopKeepsActivity(s, e, a); }
  }

  /** Whoever reports the activity of an unwritten record works on it. */
  lemma UnwrittenHasReporter(s: State, c: Cell) returns (r: HandleId)
    requires Inv(s) && c in s.data && !IsWritten(s, c)
    ensures Writes(s, r) && s.handles[r].target == c
    ensures s.handles[r].phase.last || s.data[c].expected == 0
  {
    assert CellOk(s, c);
    var a := s.data[c].status.a;
    assert ActivityOk(s, a);
    r := s.activities[a].reporter.value;
    assert HandleOk(s, r);
  }

  /** A record is not started again before its event is written. */
  lemma StartIsWritten(s: State, h: HandleId, a: ActivityId)
    requires Inv(s) && Enabled(s, StartActivity(h, a)) && Disciplined(s, StartActivity(h, a))
    ensures IsWritten(s, s.handles[h].target)
  {
    assert HandleOk(s, h);
    forall r | Writes(s, r)
      ensures s.handles[r].phase.last || s.data[s.handles[h].target].expected == 0
              ==> s.handles[r].target != s.handles[h].target
    {
      assert HandleOk(s, r);
      AreApart(s, r, h);
    }
    if !IsWritten(s, s.handles[h].target) { var r := UnwrittenHasReporter(s, s.handles[h].target); }
  }

  lemma DataEventKeepsActivity(s: State, e: Event, a: ActivityId)
    requires Enabled(s, e) && Disciplined(s, e) && Inv(s) && DataEvent(e) && a in Step(s, e).activities
    ensures ActivityOk(Step(s, e), a)
  {
    if QuietEvent(e) {
      QuietEventKeepsActivityOk(s, e, a);
    } else {
      assert HandleOk(s, e.h) && CellOk(s, s.handles[e.h].target);
      StoppingEventKeepsActivity(s, e, a);
    }
  }

  lemma QuietEventKeepsActivityOk(s: State, e: Event, a: ActivityId)
    requires Enabled(s, e) && Disciplined(s, e) && Inv(s) && QuietEvent(e) && a in Step(s, e).activities
    ensures ActivityOk(Step(s, e), a)
  {
    assert HandleOk(s, e.h) && CellOk(s, s.handles[e.h].target);
    if e.StartActivity? { StartIsWritten(s, e.h, e.a); }
    QuietEventKeepsActivity(s, e, a);
  }

  /** Nobody's share changes, and no record comes or goes. */
  lemma QuietEventFrame(s: State, e: Event)
    requires Enabled(s, e) && QuietEvent(e) && HandleOk(s, e.h)
    ensures Step(s, e).refs == s.refs && Step(s, e).data.Keys == s.data.Keys
    ensures Step(s, e).handles.Keys == s.handles.Keys
    ensures forall h :: h in s.handles ==> Step(s, e).handles[h].shared == s.handles[h].shared
  {
  }

  lemma StopFrame(s: State, e: Event)
    requires Enabled(s, e) && e.Stop? && HandleOk(s, e.h)
    ensures Step(s, e).refs == s.refs && Step(s, e).data.Keys == s.data.Keys
    ensures Step(s, e).handles.Keys == s.handles.Keys
    ensures forall h :: h in s.handles ==> Step(s, e).handles[h].shared == s.handles[h].shared
  {
  }

  lemma ReportFrame(s: State, e: Event)
    requires Enabled(s, e) && ReportEvent(e) && HandleOk(s, e.h)
    ensures Step(s, e).refs == s.refs && Step(s, e).data.Keys == s.data.Keys
    ensures Step(s, e).handles.Keys == s.handles.Keys
    ensures forall h :: h in s.handles ==> Step(s, e).handles[h].shared == s.handles[h].shared
  {
  }

  lemma DestroyStopsFrame(s: State, e: Event)
    requires Enabled(s, e) && e.DestroyStops? && HandleOk(s, e.h)
    ensures Step(s, e).refs == s.refs && Step(s, e).data.Keys == s.data.Keys
    ensures Step(s, e).handles.Keys == s.handles.Keys
    ensures forall h :: h in s.handles ==> Step(s, e).handles[h].shared == s.handles[h].shared
  {
  }

  lemma DataEventFrame(s: State, e: Event)
    requires Enabled(s, e) && DataEvent(e) && HandleOk(s, e.h)
    ensures Step(s, e).refs == s.refs && Step(s, e).data.Keys == s.data.Keys
    ensures Step(s, e).handles.Keys == s.handles.Keys
    ensures forall h :: h in s.handles ==> Step(s, e).handles[h].shared == s.handles[h].shared
  {
    if QuietEvent(e) { QuietEventFrame(s, e); }
    else if e.Stop? { StopFrame(s, e); }
    else if ReportEvent(e) { ReportFrame(s, e); }
    else { DestroyStopsFrame(s, e); }
  }

  lemma SameShares(s: State, s': State, x: SharedId)
    requires x in s.refs && s'.refs == s.refs && s'.data.Keys == s.data.Keys && s'.handles.Keys == s.handles.Keys
    requires forall h :: h in s.handles ==> s'.handles[h].shared == s.handles[h].shared
    requires RefOk(s, x)
    ensures RefOk(s', x)
  {
    assert Holders(s', x) == Holders(s, x);
  }

  lemma SharesKept(s: State, s': State)
    requires s'.refs == s.refs && s'.data.Keys == s.data.Keys && s'.handles.Keys == s.handles.Keys
    requires forall h :: h in s.handles ==> s'.handles[h].shared == s.handles[h].shared
    ensures RefsOk(s) ==> RefsOk(s')
  {
    if RefsOk(s) {
      forall x | x in s.refs ensures RefOk(s', x) { SameShares(s, s', x); }
    }
  }

  lemma DataEventKeepsHandles(s: State, e: Event)
    requires Enabled(s, e) && Disciplined(s, e) && Inv(s) && DataEvent(e)
    ensures HandlesOk(Step(s, e)) && (RefsOk(s) ==> RefsOk(Step(s, e)))
  {
    assert HandleOk(s, e.h);
    DataEventFrame(s, e);
    forall h | h in Step(s, e).handles ensures HandleOk(Step(s, e), h) { DataEventKeepsHandle(s, e, h); }
    SharesKept(s, Step(s, e));
  }

  lemma DataEventKeepsCells(s: State, e: Event)
    requires Enabled(s, e) && Disciplined(s, e) && Inv(s) && DataEvent(e)
    ensures CellsOk(Step(s, e))
  {
    assert HandleOk(s, e.h) && CellOk(s, s.handles[e.h].target);
    DataEventFrame(s, e);
    forall c | c in s.data ensures CellOk(Step(s, e), c) { DataEventKeepsCell(s, e, c); }
  }

  lemma DataEventKeepsInv(s: State, e: Event)
    requires Enabled(s, e) && Disciplined(s, e) && Inv(s) && DataEvent(e)
    ensures Inv(Step(s, e))
  {
    DataEventKeepsHandles(s, e);
    DataEventKeepsCells(s, e);
    forall a | a in Step(s, e).activities ensures ActivityOk(Step(s, e), a) { DataEventKeepsActivity(s, e, a); }
  }

  lemma AreApart(s: State, g: HandleId, h: HandleId)
    requires Inv(s) && g in s.handles && h in s.handles && g != h
    ensures Apart(s, g, h)
  {
    assert HandleOk(s, g);
    if Final(s.handles[g].phase) && s.handles[g].shared.Some? { SoleHolder(s, g, h); }
  }

  /** Names not in use have no record. */
  lemma UnusedCells(s: State)
    requires Inv(s)
    ensures forall h :: h !in s.handles ==> Own(h) !in s.data
    ensures forall x :: x !in s.refs ==> Shr(x) !in s.data
  {
    forall c | c in s.data
      ensures match c case Own(h) => h in s.handles case Shr(x) => x in s.refs
    {
      assert CellOk(s, c);
    }
  }

  lemma NewKeepsHandle(s: State, h: HandleId, g: HandleId)
    requires h !in s.handles && Own(h) !in s.data && (g != h ==> g in s.handles && HandleOk(s, g))
    ensures g in Step(s, New(h)).handles && HandleOk(Step(s, New(h)), g)
  {
  }

  lemma NewKeepsRef(s: State, h: HandleId, x: SharedId)
    requires h !in s.handles && x in s.refs && RefOk(s, x)
    ensures RefOk(Step(s, New(h)), x)
  {
    assert Holders(Step(s, New(h)), x) == Holders(s, x);
  }

  lemma NewKeepsActivity(s: State, h: HandleId, a: ActivityId)
    requires h !in s.handles && Own(h) !in s.data && a in s.activities && ActivityOk(s, a)
    ensures ActivityOk(Step(s, New(h)), a)
  {
  }

  lemma NewKeepsInv(s: State, h: HandleId)
    requires h !in s.handles && Inv(s)
    ensures Inv(Step(s, New(h)))
  {
    var s' := Step(s, New(h));
    UnusedCells(s);
    forall g | g in s'.handles ensures HandleOk(s', g) { NewKeepsHandle(s, h, g); }
    forall x | x in s'.refs ensures RefOk(s', x) { NewKeepsRef(s, h, x); }
    forall c | c in s'.data ensures CellOk(s', c) { if c != Own(h) { assert CellOk(s, c); } }
    forall a | a in s'.activities ensures ActivityOk(s', a) { NewKeepsActivity(s, h, a); }
  }

  /** Phases without duties towards an activity. */
  predicate Plain(p: Phase) { p == Idle || p == Splitting || p == Dying || p.Lending? || p.Joining? }

  predicate MayEnter(s: State, h: HandleId, p: Phase) {
    && HasRefs(s, h) && Own(h) in s.data && Plain(s.handles[h].phase) && (Plain(p) || p == Ended)
    && (s.handles[h].phase.Lending? ==> !In(s, s.handles[h].phase.to, Joining(h)))
    && (p == Dying && s.handles[h].shared.Some? ==> s.refs[s.handles[h].shared.value] == 1)
    && (p == Ended || p.Joining? ==> s.handles[h].shared.None? && !s.data[Own(h)].status.Started?)
    && (p.Joining? ==> In(s, p.from, Lending(h)) && s.handles[p.from].shared.Some?)
  }

  lemma SetPhaseKeepsHandle(s: State, h: HandleId, p: Phase, g: HandleId)
    requires MayEnter(s, h, p) && g in s.handles && HandleOk(s, g)
    ensures HandleOk(SetPhase(s, h, p), g)
  {
  }

  lemma SetPhaseKeepsActivity(s: State, h: HandleId, p: Phase, a: ActivityId)
    requires h in s.handles && Plain(s.handles[h].phase) && a in s.activities && ActivityOk(s, a)
    ensures ActivityOk(SetPhase(s, h, p), a)
  {
  }

  lemma SetPhaseKeepsRest(s: State, h: HandleId, p: Phase)
    requires h in s.handles && Plain(s.handles[h].phase)
    ensures CellsOk(s) ==> CellsOk(SetPhase(s, h, p))
    ensures ActivitiesOk(s) ==> ActivitiesOk(SetPhase(s, h, p))
  {
    if ActivitiesOk(s) {
      forall a | a in s.activities ensures ActivityOk(SetPhase(s, h, p), a) { SetPhaseKeepsActivity(s, h, p, a); }
    }
  }

  lemma SetPhaseKeepsHandles(s: State, h: HandleId, p: Phase)
    requires Inv(s) && MayEnter(s, h, p)
    ensures HandlesOk(SetPhase(s, h, p))
  {
    forall g | g in s.handles ensures HandleOk(SetPhase(s, h, p), g) { SetPhaseKeepsHandle(s, h, p, g); }
  }

  lemma SetPhaseKeepsRefs(s: State, h: HandleId, p: Phase)
    requires h in s.handles && RefsOk(s)
    ensures RefsOk(SetPhase(s, h, p))
  {
    SharesKept(s, SetPhase(s, h, p));
  }

  lemma SetPhaseKeepsInv(s: State, h: HandleId, p: Phase)
    requires Inv(s) && MayEnter(s, h, p)
    ensures Inv(SetPhase(s, h, p))
  {
    SetPhaseKeepsHandles(s, h, p);
    SetPhaseKeepsRefs(s, h, p);
    SetPhaseKeepsRest(s, h, p);
  }

  lemma LockKeepsInv(s: State, h: HandleId)
    requires Inv(s) && In(s, h, Idle) && HasRefs(s, h) && Unlocked(s, h) && s.handles[h].shared.Some?
    requires s.refs[s.handles[h].shared.value] > 1
    ensures Inv(Lock(s, h))
  {
    LockKeepsHandles(s, h);
    LockKeepsRefs(s, h);
    LockKeepsRest(s, h);
  }

  lemma LockKeepsRefs(s: State, h: HandleId)
    requires In(s, h, Idle) && s.handles[h].shared.Some?
    ensures RefsOk(s) ==> RefsOk(Lock(s, h))
  {
    SharesKept(s, Lock(s, h));
  }

  lemma LockKeepsHandle(s: State, h: HandleId, g: HandleId)
    requires In(s, h, Idle) && HasRefs(s, h) && Unlocked(s, h) && s.handles[h].shared.Some?
    requires s.refs[s.handles[h].shared.value] > 1 && g in s.handles && HandleOk(s, g)
    ensures HandleOk(Lock(s, h), g)
  {
  }

  lemma LockKeepsHandles(s: State, h: HandleId)
    requires Inv(s) && In(s, h, Idle) && HasRefs(s, h) && Unlocked(s, h) && s.handles[h].shared.Some?
    requires s.refs[s.handles[h].shared.value] > 1
    ensures HandlesOk(Lock(s, h))
  {
    forall g | g in s.handles ensures HandleOk(Lock(s, h), g) { LockKeepsHandle(s, h, g); }
  }

  lemma LockKeepsRest(s: State, h: HandleId)
    requires In(s, h, Idle) && s.handles[h].shared.Some?
    ensures CellsOk(s) ==> CellsOk(Lock(s, h))
    ensures ActivitiesOk(s) ==> ActivitiesOk(Lock(s, h))
  {
  }

  lemma UnlockKeepsHandle(s: State, h: HandleId, g: HandleId)
    requires In(s, h, Dropping) && HandleOk(s, h) && g in s.handles && HandleOk(s, g)
    ensures HandleOk(Unlock(s, h), g)
  {
  }

  lemma UnlockKeepsHandles(s: State, h: HandleId)
    requires Inv(s) && In(s, h, Dropping)
    ensures HandlesOk(Unlock(s, h))
  {
    forall g | g in s.handles ensures HandleOk(Unlock(s, h), g) { UnlockKeepsHandle(s, h, g); }
  }

  lemma UnlockKeepsRest(s: State, h: HandleId)
    requires In(s, h, Dropping)
    ensures CellsOk(s) ==> CellsOk(Unlock(s, h))
    ensures ActivitiesOk(s) ==> ActivitiesOk(Unlock(s, h))
  {
  }

  lemma UnlockKeepsInv(s: State, h: HandleId)
    requires Inv(s) && In(s, h, Dropping)
    ensures Inv(Unlock(s, h))
  {
    var s' := Unlock(s, h);
    UnlockKeepsHandles(s, h);
    SharesKept(s, s');
    UnlockKeepsRest(s, h);
  }

  /** The record is deleted only when no running activity is in it, and no destructor is left to delete one. */
  predicate MayDrop(s: State, h: HandleId) {
    && HasRefs(s, h) && (s.handles[h].phase == Idle || s.handles[h].phase == Ended) && s.handles[h].shared.Some?
    && Shr(s.handles[h].shared.value) in s.data
    && (s.refs[s.handles[h].shared.value] <= 1 ==> IsWritten(s, Shr(s.handles[h].shared.value)))
    && (!s.data[Shr(s.handles[h].shared.value)].status.Started? ||
        s.refs[s.handles[h].shared.value] > 2 ||
        (s.refs[s.handles[h].shared.value] == 2 && !SharerIsDropping(s, h)))
  }

  lemma DropKeepsHandle(s: State, h: HandleId, g: HandleId)
    requires MayDrop(s, h) && HandleOk(s, h) && g in s.handles && HandleOk(s, g)
    requires g != h ==> Apart(s, g, h)
    requires g != h && s.refs[s.handles[h].shared.value] <= 1 ==> s.handles[g].shared != s.handles[h].shared
    ensures HandleOk(Drop(s, h), g)
  {
  }

  lemma DropKeepsRef(s: State, h: HandleId, x: SharedId)
    requires MayDrop(s, h) && x in Drop(s, h).refs && x in s.refs && RefOk(s, x)
    ensures RefOk(Drop(s, h), x)
  {
    assert Holders(Drop(s, h), x) ==
           if s.handles[h].shared == Some(x) then Holders(s, x) - {h} else Holders(s, x);
  }

  lemma DropKeepsActivity(s: State, h: HandleId, a: ActivityId)
    requires MayDrop(s, h) && a in s.activities && ActivityOk(s, a)
    ensures ActivityOk(Drop(s, h), a)
  {
  }

  lemma DropKeepsCell(s: State, h: HandleId, c: Cell)
    requires MayDrop(s, h) && c in Drop(s, h).data && c in s.data && CellOk(s, c)
    ensures CellOk(Drop(s, h), c)
  {
  }

  lemma DropKeepsInv(s: State, h: HandleId)
    requires Inv(s) && MayDrop(s, h)
    ensures Inv(Drop(s, h))
  {
    var s' := Drop(s, h);
    assert RefOk(s, s.handles[h].shared.value);
    forall g | g in s'.handles ensures HandleOk(s', g) {
      if g != h {
        AreApart(s, g, h);
        if s.refs[s.handles[h].shared.value] == 1 { SoleHolder(s, h, g); }
      }
      DropKeepsHandle(s, h, g);
    }
    forall y | y in s'.refs ensures RefOk(s', y) { DropKeepsRef(s, h, y); }
    forall c | c in s'.data ensures CellOk(s', c) { DropKeepsCell(s, h, c); }
    forall a | a in s'.activities ensures ActivityOk(s', a) { DropKeepsActivity(s, h, a); }
  }

  predicate MayAttach(s: State, h: HandleId, x: SharedId) {
    && In(s, h, Idle) && s.handles[h].shared.None? && x in s.refs
    && Own(h) in s.data && !s.data[Own(h)].status.Started?
    && Shr(x) in s.data && s.data[Shr(x)].history.unhandled.None?
  }

  lemma AttachKeepsHandle(s: State, h: HandleId, x: SharedId, g: HandleId)
    requires MayAttach(s, h, x) && g in s.handles && HandleOk(s, g)
    requires Final(s.handles[g].phase) ==> s.handles[g].shared != Some(x)
    ensures HandleOk(Attach(s, h, x), g)
  {
  }

  lemma AttachKeepsRef(s: State, h: HandleId, x: SharedId, y: SharedId)
    requires MayAttach(s, h, x) && y in s.refs && RefOk(s, y)
    ensures RefOk(Attach(s, h, x), y)
  {
    assert Holders(Attach(s, h, x), y) == if y == x then Holders(s, y) + {h} else Holders(s, y);
  }

  lemma AttachKeepsRest(s: State, h: HandleId, x: SharedId)
    requires MayAttach(s, h, x)
    ensures CellsOk(s) ==> CellsOk(Attach(s, h, x))
    ensures ActivitiesOk(s) ==> ActivitiesOk(Attach(s, h, x))
  {
  }

  lemma AttachKeepsInv(s: State, h: HandleId, x: SharedId)
    requires Inv(s) && MayAttach(s, h, x)
    requires forall g :: g in s.handles && Final(s.handles[g].phase) ==> s.handles[g].shared != Some(x)
    ensures Inv(Attach(s, h, x))
  {
    var s' := Attach(s, h, x);
    forall g | g in s'.handles ensures HandleOk(s', g) { AttachKeepsHandle(s, h, x, g); }
    forall y | y in s'.refs ensures RefOk(s', y) { AttachKeepsRef(s, h, x, y); }
    AttachKeepsRest(s, h, x);
  }

  /** A handle that owns its record privately, between two of its operations, moves it to a free cell. */
  predicate MayMove(s: State, h: HandleId) {
    In(s, h, Idle) && Own(h) in s.data && HandleOk(s, h) && CellOk(s, Own(h)) && IsWritten(s, Own(h))
  }

  /** A handle that is not reporting has nothing unwritten in its own record. */
  lemma OwnIsWritten(s: State, h: HandleId)
    requires Inv(s) && h in s.handles && !s.handles[h].phase.Reporting? && Own(h) in s.data
    ensures IsWritten(s, Own(h))
  {
    forall r | Writes(s, r) ensures s.handles[r].target != Own(h) { assert HandleOk(s, r); }
    if !IsWritten(s, Own(h)) { var r := UnwrittenHasReporter(s, Own(h)); }
  }

  /** Nor is it the last sharer of one in which something is. */
  lemma LastShareIsWritten(s: State, h: HandleId)
    requires Inv(s) && HasRefs(s, h) && !s.handles[h].phase.Reporting? && s.handles[h].shared.Some?
    requires Shr(s.handles[h].shared.value) in s.data && s.refs[s.handles[h].shared.value] <= 1
    ensures IsWritten(s, Shr(s.handles[h].shared.value))
  {
    var x := s.handles[h].shared.value;
    assert RefOk(s, x);
    forall r | Writes(s, r) ensures s.handles[r].target != Shr(x) {
      assert HandleOk(s, r);
      OneReference(s, x, h, r);
    }
    if !IsWritten(s, Shr(x)) { var r := UnwrittenHasReporter(s, Shr(x)); }
  }

  /** Nobody is reporting the activity in an idle handle's own record. */
  lemma MovedIsUnreported(s: State, h: HandleId, a: ActivityId)
    requires Inv(s) && In(s, h, Idle) && a in s.activities && s.activities[a].events == []
    requires s.activities[a].at == Own(h)
    ensures s.activities[a].reporter.None?
  {
    assert ActivityOk(s, a);
    var r := s.activities[a].reporter;
    var g := if r.Some? then r.value else h;
    assert g in s.handles ==> HandleOk(s, g);
  }

  lemma PromoteKeepsHandle(s: State, h: HandleId, x: SharedId, g: HandleId)
    requires MayMove(s, h) && s.handles[h].shared.None? && x !in s.refs && g in s.handles && HandleOk(s, g)
    ensures HandleOk(Promote(s, h, x), g)
  {
  }

  lemma PromoteKeepsRef(s: State, h: HandleId, x: SharedId, y: SharedId)
    requires MayMove(s, h) && s.handles[h].shared.None? && x !in s.refs
    requires if y == x then Holders(s, x) == {} else y in s.refs && RefOk(s, y)
    ensures RefOk(Promote(s, h, x), y)
  {
    assert Holders(Promote(s, h, x), y) == if y == x then {h} else Holders(s, y);
  }

  lemma PromoteKeepsCell(s: State, h: HandleId, x: SharedId, c: Cell)
    requires MayMove(s, h) && s.handles[h].shared.None? && x !in s.refs
    requires c != Shr(x) ==> c in s.data && CellOk(s, c)
    ensures c in Promote(s, h, x).data && CellOk(Promote(s, h, x), c)
  {
  }

  lemma PromoteKeepsActivity(s: State, h: HandleId, x: SharedId, a: ActivityId)
    requires MayMove(s, h) && x !in s.refs && Shr(x) !in s.data && a in s.activities && ActivityOk(s, a)
    requires s.activities[a].events == [] && s.activities[a].at == Own(h) ==> s.activities[a].reporter.None?
    requires s.activities[a].events == [] && s.activities[a].reporter.Some? ==> s.activities[a].reporter != Some(h)
    ensures ActivityOk(Promote(s, h, x), a)
  {
  }

  lemma PromoteKeepsRefs(s: State, h: HandleId, x: SharedId)
    requires Inv(s) && MayMove(s, h) && s.handles[h].shared.None? && x !in s.refs
    ensures RefsOk(Promote(s, h, x))
  {
    forall g | g in s.handles ensures s.handles[g].shared != Some(x) { assert HandleOk(s, g); }
    assert Holders(s, x) == {};
    forall y | y in Promote(s, h, x).refs ensures RefOk(Promote(s, h, x), y) { PromoteKeepsRef(s, h, x, y); }
  }

  lemma PromoteKeepsActivities(s: State, h: HandleId, x: SharedId)
    requires Inv(s) && MayMove(s, h) && x !in s.refs && Shr(x) !in s.data
    ensures ActivitiesOk(Promote(s, h, x))
  {
    var s' := Promote(s, h, x);
    forall a | a in s'.activities ensures ActivityOk(s', a) {
      assert ActivityOk(s, a);
      if s.activities[a].events == [] && s.activities[a].at == Own(h) { MovedIsUnreported(s, h, a); }
      PromoteKeepsActivity(s, h, x, a);
    }
  }

  lemma PromoteKeepsInv(s: State, h: HandleId, x: SharedId)
    requires Inv(s) && In(s, h, Idle) && s.handles[h].shared.None? && x !in s.refs && Own(h) in s.data
    ensures Inv(Promote(s, h, x))
  {
    var s' := Promote(s, h, x);
    OwnIsWritten(s, h);
    UnusedCells(s);
    forall g | g in s'.handles ensures HandleOk(s', g) { PromoteKeepsHandle(s, h, x, g); }
    PromoteKeepsRefs(s, h, x);
    forall c | c in s'.data ensures CellOk(s', c) { PromoteKeepsCell(s, h, x, c); }
    PromoteKeepsActivities(s, h, x);
  }

  predicate MayGive(s: State, h: HandleId, from: HandleId) {
    Vacant(s, h) && HandleOk(s, h) && CellOk(s, Own(h)) && h != from && MayMove(s, from)
  }

  lemma GiveKeepsThird(s: State, h: HandleId, from: HandleId, g: HandleId)
    requires MayGive(s, h, from) && g in s.handles && HandleOk(s, g) && g != h && g != from && Apart(s, g, from)
    ensures HandleOk(Give(s, h, from), g)
  {
  }

  lemma GiveKeepsHandle(s: State, h: HandleId, from: HandleId, g: HandleId)
    requires MayGive(s, h, from) && g in s.handles && HandleOk(s, g) && (g != from ==> Apart(s, g, from))
    ensures HandleOk(Give(s, h, from), g)
  {
    if g != h && g != from { GiveKeepsThird(s, h, from, g); }
  }

  lemma GiveKeepsRef(s: State, h: HandleId, from: HandleId, x: SharedId)
    requires MayGive(s, h, from) && x in s.refs && RefOk(s, x)
    ensures RefOk(Give(s, h, from), x)
  {
    if s.handles[from].shared == Some(x) {
      assert Holders(Give(s, h, from), x) == Holders(s, x) - {from} + {h};
    } else {
      assert Holders(Give(s, h, from), x) == Holders(s, x);
    }
  }

  lemma GiveKeepsCell(s: State, h: HandleId, from: HandleId, c: Cell)
    requires MayGive(s, h, from) && c in s.data && CellOk(s, c)
    ensures CellOk(Give(s, h, from), c)
  {
  }

  lemma GiveKeepsActivity(s: State, h: HandleId, from: HandleId, a: ActivityId)
    requires MayGive(s, h, from) && a in s.activities && ActivityOk(s, a)
    requires s.activities[a].events == [] && s.activities[a].at == Own(from) ==> s.activities[a].reporter.None?
    ensures ActivityOk(Give(s, h, from), a)
  {
  }

  lemma GiveKeepsHandles(s: State, h: HandleId, from: HandleId)
    requires Inv(s) && MayGive(s, h, from)
    ensures HandlesOk(Give(s, h, from))
  {
    forall g | g in s.handles ensures HandleOk(Give(s, h, from), g) {
      if g != from { AreApart(s, g, from); }
      GiveKeepsHandle(s, h, from, g);
    }
  }

  lemma GiveKeepsInv(s: State, h: HandleId, from: HandleId)
    requires Inv(s) && Vacant(s, h) && In(s, from, Idle) && h != from && Own(from) in s.data
    ensures Inv(Give(s, h, from))
  {
    var s' := Give(s, h, from);
    OwnIsWritten(s, from);
    GiveKeepsHandles(s, h, from);
    forall y | y in s'.refs ensures RefOk(s', y) { GiveKeepsRef(s, h, from, y); }
    forall c | c in s'.data ensures CellOk(s', c) { GiveKeepsCell(s, h, from, c); }
    forall a | a in s'.activities ensures ActivityOk(s', a) {
      if s.activities[a].events == [] && s.activities[a].at == Own(from) { MovedIsUnreported(s, from, a); }
      GiveKeepsActivity(s, h, from, a);
    }
  }

  predicate MayForget(s: State, h: HandleId) {
    && In(s, h, Ended) && s.handles[h].shared.None? && Own(h) in s.data
    && !s.data[Own(h)].status.Started? && IsWritten(s, Own(h))
  }

  lemma ForgetKeepsHandle(s: State, h: HandleId, g: HandleId)
    requires MayForget(s, h) && g in s.handles && g != h && HandleOk(s, g)
    ensures HandleOk(Forget(s, h), g)
  {
  }

  lemma ForgetKeepsActivity(s: State, h: HandleId, a: ActivityId)
    requires MayForget(s, h) && a in s.activities && ActivityOk(s, a)
    ensures ActivityOk(Forget(s, h), a)
  {
  }

  lemma ForgetKeepsRef(s: State, h: HandleId, x: SharedId)
    requires MayForget(s, h) && x in s.refs && RefOk(s, x)
    ensures RefOk(Forget(s, h), x)
  {
    assert Holders(Forget(s, h), x) == Holders(s, x);
  }

  lemma ForgetKeepsInv(s: State, h: HandleId)
    requires Inv(s) && MayForget(s, h)
    ensures Inv(Forget(s, h))
  {
    var s' := Forget(s, h);
    forall g | g in s'.handles ensures HandleOk(s', g) { ForgetKeepsHandle(s, h, g); }
    forall x | x in s'.refs ensures RefOk(s', x) { ForgetKeepsRef(s, h, x); }
    forall c | c in s'.data ensures CellOk(s', c) { assert CellOk(s, c); }
    forall a | a in s'.activities ensures ActivityOk(s', a) { ForgetKeepsActivity(s, h, a); }
  }

  /** While an idle handle shares a record, no sharer of it is past its uniqueness check. */
  lemma NoFinalSharer(s: State, from: HandleId)
    requires Inv(s) && In(s, from, Idle) && s.handles[from].shared.Some?
    ensures forall g :: g in s.handles && Final(s.handles[g].phase) ==> s.handles[g].shared != s.handles[from].shared
  {
    forall g | g in s.handles && Final(s.handles[g].phase)
      ensures s.handles[g].shared != s.handles[from].shared
    {
      AreApart(s, g, from);
    }
  }

  lemma LettingGoKeepsInv(s: State, h: HandleId)
    requires Inv(s) && In(s, h, Idle) && HasData(s, h) && HasRefs(s, h) && !Orphans(s, h)
    ensures Inv(Drop(s, h))
  {
    if s.handles[h].shared.Some? {
      assert HandleOk(s, h) && RefOk(s, s.handles[h].shared.value);
      if s.refs[s.handles[h].shared.value] <= 1 { LastShareIsWritten(s, h); }
      DropKeepsInv(s, h);
    }
  }

  /** What is left of a handle that let go of its share, and of the source of the copy. */
  lemma DropLeaves(s: State, h: HandleId, from: HandleId)
    requires In(s, h, Idle) && In(s, from, Idle) && h != from && HandleOk(s, h) && HandleOk(s, from)
    requires HasData(s, h) && HasRefs(s, h) && !Orphans(s, h) && s.handles[from].shared.Some?
    ensures var s1 := Drop(s, h);
            && In(s1, h, Idle) && s1.handles[h].shared.None? && Own(h) in s1.data && !s1.data[Own(h)].status.Started?
            && In(s1, from, Idle) && s1.handles[from].shared == s.handles[from].shared
  {
  }

  lemma LendIsReady(s: State, h: HandleId, from: HandleId)
    requires In(s, h, Idle) && In(s, from, Idle) && h != from && HandleOk(s, h) && HandleOk(s, from)
    requires s.handles[h].shared.None? && Own(h) in s.data && !s.data[Own(h)].status.Started?
    requires s.handles[from].shared.Some?
    ensures MayEnter(s, from, Lending(h)) && MayEnter(SetPhase(s, from, Lending(h)), h, Joining(from))
  {
  }

  lemma LendKeepsInv(s: State, h: HandleId, from: HandleId)
    requires Inv(s) && In(s, h, Idle) && In(s, from, Idle) && h != from
    requires s.handles[h].shared.None? && Own(h) in s.data && !s.data[Own(h)].status.Started?
    requires s.handles[from].shared.Some?
    ensures Inv(Lend(s, h, from))
  {
    assert HandleOk(s, from) && HandleOk(s, h);
    LendIsReady(s, h, from);
    SetPhaseKeepsInv(s, from, Lending(h));
    SetPhaseKeepsInv(SetPhase(s, from, Lending(h)), h, Joining(from));
  }

  /** The first half of a copy assignment, once the source shares its record. */
  lemma CopyFromSharedKeepsInv(s: State, h: HandleId, from: HandleId)
    requires Inv(s) && In(s, h, Idle) && In(s, from, Idle) && h != from && s.handles[from].shared.Some?
    requires HasData(s, h) && HasRefs(s, h) && !Orphans(s, h)
    ensures Inv(Lend(Drop(s, h), h, from))
  {
    assert HandleOk(s, h) && HandleOk(s, from);
    LettingGoKeepsInv(s, h);
    DropLeaves(s, h, from);
    LendKeepsInv(Drop(s, h), h, from);
  }

  lemma SourceKeepsInv(s: State, h: HandleId, from: HandleId, x: SharedId)
    requires Inv(s) && MayCopy(s, h, from, x)
    ensures Inv(Source(s, h, from, x))
  {
    assert HandleOk(s, from);
    SetPhaseKeepsInv(s, from, Idle);
    if s.handles[from].shared.None? { PromoteKeepsInv(SetPhase(s, from, Idle), from, x); }
  }

  /** The target of the copy, and every handle but the source, is as it was. */
  lemma SourceIs(s: State, h: HandleId, from: HandleId, x: SharedId)
    requires MayCopy(s, h, from, x) && HandleOk(s, h)
    ensures var s2 := Source(s, h, from, x);
            && In(s2, h, Idle) && s2.handles[h] == s.handles[h] && HasData(s2, h) && HasRefs(s2, h)
            && s2.data[s2.handles[h].target] == s.data[s.handles[h].target]
            && (s.handles[h].shared.Some? ==>
                  s2.refs[s.handles[h].shared.value] == s.refs[s.handles[h].shared.value])
            && In(s2, from, Idle) && s2.handles[from].shared.Some? && HasRefs(s2, from)
            && s2.handles.Keys == s.handles.Keys
            && forall k :: k in s.handles && k != from ==> s2.handles[k] == s.handles[k]
  {
  }

  lemma SourceKeepsOrphans(s: State, h: HandleId, from: HandleId, x: SharedId)
    requires MayCopy(s, h, from, x) && HandleOk(s, h)
    ensures HasData(Source(s, h, from, x), h)
    ensures Orphans(Source(s, h, from, x), h) <==> Orphans(s, h)
  {
    SourceIs(s, h, from, x);
    var s2 := Source(s, h, from, x);
    assert SharerIsDropping(s2, h) <==> SharerIsDropping(s, h) by {
      assert forall k :: k in s2.handles && s2.handles[k].phase == Dropping ==> k != from;
    }
  }

  lemma CopyDropsKeepsInv(s: State, e: Event)
    requires Enabled(s, e) && Disciplined(s, e) && Inv(s) && e.CopyDrops?
    ensures Inv(Step(s, e))
  {
    assert HandleOk(s, e.h) && HandleOk(s, e.from);
    if s.handles[e.from].shared.Some? || e.ok {
      SourceKeepsInv(s, e.h, e.from, e.x);
      SourceIs(s, e.h, e.from, e.x);
      SourceKeepsOrphans(s, e.h, e.from, e.x);
      CopyFromSharedKeepsInv(Source(s, e.h, e.from, e.x), e.h, e.from);
    } else {
      SetPhaseKeepsInv(s, e.from, Idle);
    }
  }

  lemma ReturnedIsReady(s: State, h: HandleId, from: HandleId)
    requires In(s, h, Joining(from)) && HandleOk(s, h) && HandleOk(s, from)
    ensures MayEnter(s, h, Idle) && MayEnter(SetPhase(s, h, Idle), from, Idle)
    ensures MayAttach(Returned(s, h, from), h, s.handles[from].shared.value)
    ensures In(Returned(s, h, from), from, Idle)
    ensures Returned(s, h, from).handles[from].shared == s.handles[from].shared
  {
  }

  lemma ReturnedKeepsInv(s: State, h: HandleId, from: HandleId)
    requires Inv(s) && MayEnter(s, h, Idle) && MayEnter(SetPhase(s, h, Idle), from, Idle)
    ensures Inv(Returned(s, h, from))
  {
    SetPhaseKeepsInv(s, h, Idle);
    SetPhaseKeepsInv(SetPhase(s, h, Idle), from, Idle);
  }

  lemma CopyJoinsKeepsInv(s: State, h: HandleId)
    requires Inv(s) && h in s.handles && s.handles[h].phase.Joining? && Enabled(s, CopyJoins(h))
    ensures Inv(Step(s, CopyJoins(h)))
  {
    var from := s.handles[h].phase.from;
    assert HandleOk(s, h) && HandleOk(s, from);
    ReturnedIsReady(s, h, from);
    ReturnedKeepsInv(s, h, from);
    NoFinalSharer(Returned(s, h, from), from);
    AttachKeepsInv(Returned(s, h, from), h, s.handles[from].shared.value);
  }

  lemma DestroyBeginsKeepsInv(s: State, h: HandleId)
    requires Enabled(s, DestroyBegins(h)) && Inv(s)
    ensures Inv(Step(s, DestroyBegins(h)))
  {
    assert HandleOk(s, h);
    if s.handles[h].shared.Some? && s.refs[s.handles[h].shared.value] != 1 {
      assert RefOk(s, s.handles[h].shared.value);
      LockKeepsInv(s, h);
    } else {
      SetPhaseKeepsInv(s, h, Dying);
    }
  }

  /** Only the destructor that holds the lock is between its test and its reset. */
  lemma NoOtherDropping(s: State, h: HandleId)
    requires Inv(s) && In(s, h, Idle) && Unlocked(s, h) && s.handles[h].shared.Some?
    ensures !SharerIsDropping(s, h)
  {
    forall k | k in s.handles && s.handles[k].phase == Dropping
      ensures s.handles[k].shared != s.handles[h].shared
    {
      assert HandleOk(s, k);
    }
  }

  lemma DestroyDropsKeepsInv(s: State, h: HandleId)
    requires Enabled(s, DestroyDrops(h)) && Inv(s)
    ensures Inv(Step(s, DestroyDrops(h)))
  {
    assert HandleOk(s, h);
    assert RefOk(s, s.handles[h].shared.value);
    UnlockKeepsInv(s, h);
    var s1 := Unlock(s, h);
    NoOtherDropping(s1, h);
    if s1.refs[s1.handles[h].shared.value] <= 1 { LastShareIsWritten(s1, h); }
    DropKeepsInv(s1, h);
    var s2 := Drop(s1, h);
    assert HandleOk(s1, h) && HandleOk(s2, h);
    SetPhaseKeepsInv(s2, h, Ended);
  }

  lemma ReleaseKeepsInv(s: State, h: HandleId)
    requires Enabled(s, Release(h)) && Inv(s)
    ensures Inv(Step(s, Release(h)))
  {
    assert HandleOk(s, h);
    if s.handles[h].shared.Some? {
      LastShareIsWritten(s, h);
      DropKeepsInv(s, h);
    }
    assert HandleOk(Drop(s, h), h);
    OwnIsWritten(Drop(s, h), h);
    ForgetKeepsInv(Drop(s, h), h);
  }

  lemma StepKeepsInv(s: State, e: Event)
    requires Enabled(s, e) && Disciplined(s, e) && Inv(s)
    ensures Inv(Step(s, e))
  {
    if DataEvent(e) { DataEventKeepsInv(s, e); }
    else if e.CopyDrops? { CopyDropsKeepsInv(s, e); }
    else { OtherEventKeepsInv(s, e); }
  }

  /** The events that ask nothing of the caller. */
  lemma OtherEventKeepsInv(s: State, e: Event)
    requires Enabled(s, e) && Inv(s) && !DataEvent(e) && !e.CopyDrops?
    ensures Inv(Step(s, e))
  {
    match e
    case New(h) => NewKeepsInv(s, h);
    case CopySelf(h, x, ok) => if s.handles[h].shared.None? && ok { PromoteKeepsInv(s, h, x); }
    case CopyJoins(h) => CopyJoinsKeepsInv(s, h);
    case MoveInto(h, from) => GiveKeepsInv(s, h, from);
    case DestroyBegins(h) => DestroyBeginsKeepsInv(s, h);
    case DestroyDrops(h) => DestroyDropsKeepsInv(s, h);
    case Release(h) => ReleaseKeepsInv(s, h);
  }

  /** A lock that is held is held by a destructor between its test and its reset. */
  predicate LockOk(s: State, x: SharedId)
    requires x in s.locks
  {
    In(s, s.locks[x], Dropping) && s.handles[s.locks[x]].shared == Some(x)
  }

  ghost predicate LocksOk(s: State) { forall x :: x in s.locks ==> LockOk(s, x) }

  lemma DataEventKeepsLock(s: State, e: Event, x: SharedId)
    requires Enabled(s, e) && DataEvent(e) && x in Step(s, e).locks && x in s.locks && LockOk(s, x)
    ensures LockOk(Step(s, e), x)
  {
  }

  lemma SourceKeepsLock(s: State, h: HandleId, from: HandleId, x: SharedId, y: SharedId)
    requires MayCopy(s, h, from, x) && y in s.locks && LockOk(s, y)
    ensures y in Source(s, h, from, x).locks && LockOk(Source(s, h, from, x), y)
    ensures In(Source(s, h, from, x), h, Idle) && In(Source(s, h, from, x), from, Idle)
  {
  }

  lemma DropKeepsLock(s: State, h: HandleId, from: HandleId, y: SharedId)
    requires In(s, h, Idle) && In(s, from, Idle) && HasRefs(s, h) && y in s.locks && LockOk(s, y)
    ensures y in Lend(Drop(s, h), h, from).locks && LockOk(Lend(Drop(s, h), h, from), y)
  {
  }

  lemma CopyDropsKeepsLock(s: State, h: HandleId, from: HandleId, x: SharedId, y: SharedId)
    requires MayCopy(s, h, from, x) && y in s.locks && LockOk(s, y)
    ensures y in AfterDrop(s, h, from, x).locks && LockOk(AfterDrop(s, h, from, x), y)
  {
    SourceKeepsLock(s, h, from, x, y);
    DropKeepsLock(Source(s, h, from, x), h, from, y);
  }

  lemma CopyJoinsKeepsLock(s: State, h: HandleId, x: SharedId)
    requires h in s.handles && s.handles[h].phase.Joining? && Enabled(s, CopyJoins(h)) && HandleOk(s, h)
    requires x in s.locks && LockOk(s, x)
    ensures x in Step(s, CopyJoins(h)).locks && LockOk(Step(s, CopyJoins(h)), x)
  {
  }

  lemma OtherEventKeepsLock(s: State, e: Event, x: SharedId)
    requires Enabled(s, e) && !DataEvent(e) && !e.CopyDrops? && !e.CopyJoins? && !e.DestroyDrops?
    requires x in Step(s, e).locks && (x in s.locks ==> LockOk(s, x))
    ensures LockOk(Step(s, e), x)
  {
  }

  lemma DestroyDropsKeepsLock(s: State, h: HandleId, x: SharedId)
    requires Enabled(s, DestroyDrops(h)) && HandleOk(s, h)
    requires x in Step(s, DestroyDrops(h)).locks && x in s.locks && LockOk(s, x)
    ensures LockOk(Step(s, DestroyDrops(h)), x)
  {
  }

  lemma DataEventKeepsLocks(s: State, e: Event)
    requires Enabled(s, e) && DataEvent(e) && LocksOk(s)
    ensures LocksOk(Step(s, e))
  {
    forall x | x in Step(s, e).locks ensures LockOk(Step(s, e), x) { DataEventKeepsLock(s, e, x); }
  }

  lemma CopyDropsKeepsLocks(s: State, e: Event)
    requires Enabled(s, e) && LocksOk(s) && e.CopyDrops?
    ensures LocksOk(Step(s, e))
  {
    forall x | x in s.locks ensures LockOk(Step(s, e), x) {
      CopyDropsKeepsLock(s, e.h, e.from, e.x, x);
    }
  }

  lemma CopyJoinsKeepsLocks(s: State, h: HandleId)
    requires h in s.handles && s.handles[h].phase.Joining? && Enabled(s, CopyJoins(h)) && HandleOk(s, h) && LocksOk(s)
    ensures LocksOk(Step(s, CopyJoins(h)))
  {
    forall x | x in s.locks ensures LockOk(Step(s, CopyJoins(h)), x) { CopyJoinsKeepsLock(s, h, x); }
  }

  lemma DestroyDropsKeepsLocks(s: State, h: HandleId)
    requires Enabled(s, DestroyDrops(h)) && LocksOk(s) && HandleOk(s, h)
    ensures LocksOk(Step(s, DestroyDrops(h)))
  {
    forall x | x in Step(s, DestroyDrops(h)).locks ensures LockOk(Step(s, DestroyDrops(h)), x) {
      DestroyDropsKeepsLock(s, h, x);
    }
  }

  lemma OtherEventKeepsLocks(s: State, e: Event)
    requires Enabled(s, e) && LocksOk(s) && !DataEvent(e) && !e.CopyDrops? && !e.CopyJoins? && !e.DestroyDrops?
    ensures LocksOk(Step(s, e))
  {
    forall x | x in Step(s, e).locks ensures LockOk(Step(s, e), x) { OtherEventKeepsLock(s, e, x); }
  }

  lemma StepKeepsLocks(s: State, e: Event)
    requires Enabled(s, e) && Inv(s) && LocksOk(s)
    ensures LocksOk(Step(s, e))
  {
    if e.CopyJoins? || e.DestroyDrops? { assert HandleOk(s, e.h); }
    if DataEvent(e) { DataEventKeepsLocks(s, e); }
    else if e.CopyDrops? { CopyDropsKeepsLocks(s, e); }
    else if e.CopyJoins? { CopyJoinsKeepsLocks(s, e.h); }
    else if e.DestroyDrops? { DestroyDropsKeepsLocks(s, e.h); }
    else { OtherEventKeepsLocks(s, e); }
  }

  lemma {:induction false} RunKeepsInv(s: State, es: seq<Event>)
    requires Inv(s) && LocksOk(s) && DisciplinedRun(s, es)
    ensures Inv(Exec(s, es)) && LocksOk(Exec(s, es))
    decreases |es|
  {
    if es != [] {
      if Enabled(s, es[0]) {
        StepKeepsInv(s, es[0]);
        StepKeepsLocks(s, es[0]);
      }
      RunKeepsInv(if Enabled(s, es[0]) then Step(s, es[0]) else s, es[1..]);
    }
  }
}
