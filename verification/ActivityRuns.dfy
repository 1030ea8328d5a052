/** Results about activities over every run: one stop event for each start, with the right result; and what a copy
    assignment or a late split can do to that. */
module ActivityRuns {
  import opened Collections
  import opened ActivityRecord
  import opened Activities
  import opened ActivityInvariant

  // ----- results over every run -----

  /** An activity that was started has emitted exactly one stop event, or none while its record is still running
      and some handle can still reach it, or while a handle is about to write the event. */
  lemma OneStopPerStart(es: seq<Event>, a: ActivityId)
    requires DisciplinedRun(START, es) && a in Exec(START, es).activities
    ensures var s := Exec(START, es);
            var y := s.activities[a];
            |y.events| == 1 ||
            (y.events == [] && y.at in s.data &&
             exists h :: h in s.handles && s.handles[h].phase != Ended && s.handles[h].target == y.at &&
                         s.data[y.at].status == if Writes(s, h) then Stopped(a) else Started(a))
  {
    RunKeepsInv(START, es);
    var s := Exec(START, es);
    assert ActivityOk(s, a);
    if s.activities[a].events == [] {
      var h := RunningIsReachable(s, a);
    }
  }

  lemma RunningIsReachable(s: State, a: ActivityId) returns (h: HandleId)
    requires Inv(s) && a in s.activities && s.activities[a].events == []
    ensures s.activities[a].at in s.data && h in s.handles
    ensures s.handles[h].phase != Ended && s.handles[h].target == s.activities[a].at
    ensures s.data[s.activities[a].at].status == if Writes(s, h) then Stopped(a) else Started(a)
  {
    assert ActivityOk(s, a);
    if s.activities[a].reporter.Some? {
      h := s.activities[a].reporter.value;
    } else {
      h := RecordIsReachable(s, s.activities[a].at);
      assert HandleOk(s, h);
    }
  }

  lemma RecordIsReachable(s: State, c: Cell) returns (h: HandleId)
    requires Inv(s) && c in s.data && s.data[c].status.Started?
    ensures h in s.handles && s.handles[h].phase != Ended && s.handles[h].target == c
  {
    assert CellOk(s, c);
    match c
    case Own(g) =>
      h := g;
    case Shr(x) =>
      assert RefOk(s, x);
      h :| h in Holders(s, x);
    assert HandleOk(s, h);
  }

  /** Once every handle has been destroyed, every activity ever started has emitted exactly one stop event. */
  lemma AllDestroyedAllStopped(es: seq<Event>, a: ActivityId)
    requires DisciplinedRun(START, es) && Exec(START, es).handles == map[] && a in Exec(START, es).activities
    ensures |Exec(START, es).activities[a].events| == 1
  {
    OneStopPerStart(es, a);
  }

  /** On a disciplined run the process is never ended by the record's own assertions. */
  lemma DisciplinedRunsSurvive(es: seq<Event>, e: Event)
    requires DisciplinedRun(START, es) && Enabled(Exec(START, es), e) && Disciplined(Exec(START, es), e)
    ensures !FailsFast(Exec(START, es), e)
  {
    RunKeepsInv(START, es);
    NeverFailsFast(Exec(START, es), e);
  }

  /** There have been as many stops as there are splits, and one more. */
  predicate UsedUp(h: History) { |h.stops| + (if h.unhandled.Some? then 1 else 0) > h.splits }

  lemma StopFailsFastIff(s: State, e: Event)
    requires Enabled(s, e) && e.Stop? && Lawful(s.data[s.handles[e.h].target])
    ensures FailsFast(s, e) <==> UsedUp(s.data[s.handles[e.h].target].history)
  {
  }

  lemma SplitFailsFastIff(s: State, e: Event)
    requires Enabled(s, e) && e.SplitBegins?
    ensures FailsFast(s, e) <==> !s.data[s.handles[e.h].target].status.Started?
  {
  }

  /** When the record's assertions end the process, in terms of what was done to it: a stop when all are used up, and a
      split of an activity that is not running. */
  lemma FailsFastIff(es: seq<Event>, e: Event)
    requires DisciplinedRun(START, es) && Enabled(Exec(START, es), e) && (e.Stop? || e.SplitBegins?)
    ensures var s := Exec(START, es);
            && HasData(s, e.h)
            && var d := s.data[s.handles[e.h].target];
               FailsFast(s, e) <==> if e.Stop? then UsedUp(d.history) else !d.status.Started?
  {
    RunKeepsInv(START, es);
    if e.Stop? { RecordIsLawful(Exec(START, es), e.h); StopFailsFastIff(Exec(START, es), e); }
    else { SplitFailsFastIff(Exec(START, es), e); }
  }

  lemma RecordIsLawful(s: State, h: HandleId)
    requires Inv(s) && HasData(s, h)
    ensures Lawful(s.data[s.handles[h].target])
  {
    assert CellOk(s, s.handles[h].target);
  }

  // ----- a destructor goes on to its end -----

  predicate InDestructor(p: Phase) { p == Dropping || Final(p) }

  function StepsLeft(p: Phase): nat {
    match p
    case Dying => 5
    case Reporting(_, Choosing) => 4
    case Reporting(_, Stopping(_, _)) => 3
    case Reporting(_, Writing(_, _)) => 2
    case Dropping => 2
    case Ended => 1
    case _ => 0
  }

  predicate OwnStep(e: Event) { e.DestroyDrops? || e.DestroyStops? || ReportEvent(e) || e.Release? }

  /** What a destructor that has got there does next. */
  function NextStep(h: HandleId, p: Phase): Event {
    match p
    case Dying => DestroyStops(h)
    case Reporting(_, Choosing) => ReportChooses(h)
    case Reporting(_, Stopping(_, _)) => ReportStops(h)
    case Reporting(_, Writing(_, _)) => ReportWrites(h)
    case Dropping => DestroyDrops(h)
    case _ => Release(h)
  }

  lemma OwnStepIsProgress(s: State, e: Event)
    requires Enabled(s, e) && OwnStep(e) && InDestructor(s.handles[e.h].phase)
    ensures if e.Release? then e.h !in Step(s, e).handles
            else
              && e.h in Step(s, e).handles && InDestructor(Step(s, e).handles[e.h].phase)
              && StepsLeft(Step(s, e).handles[e.h].phase) < StepsLeft(s.handles[e.h].phase)
  {
  }

  predicate SamePhase(s: State, s': State, h: HandleId) {
    h in s.handles && h in s'.handles && s'.handles[h].phase == s.handles[h].phase
  }

  lemma DataEventKeepsPhase(s: State, e: Event, h: HandleId)
    requires Enabled(s, e) && DataEvent(e) && h in s.handles && (e.h != h || e.NotifyFailure?)
    ensures SamePhase(s, Step(s, e), h)
  {
  }

  lemma SourceKeepsPhase(s: State, h: HandleId, from: HandleId, x: SharedId, k: HandleId)
    requires MayCopy(s, h, from, x) && k in s.handles && k != from
    ensures SamePhase(s, Source(s, h, from, x), k)
  {
  }

  lemma LendKeepsPhase(s: State, h: HandleId, from: HandleId, k: HandleId)
    requires HasRefs(s, h) && from in s.handles && k in s.handles && k != from && k != h
    ensures SamePhase(s, Lend(Drop(s, h), h, from), k)
  {
  }

  lemma CopyDropsKeepsPhase(s: State, e: Event, h: HandleId)
    requires Enabled(s, e) && e.CopyDrops? && h in s.handles && h != e.h && h != e.from
    ensures SamePhase(s, Step(s, e), h)
  {
    if s.handles[e.from].shared.Some? || e.ok {
      SourceKeepsPhase(s, e.h, e.from, e.x, h);
      LendKeepsPhase(Source(s, e.h, e.from, e.x), e.h, e.from, h);
    }
  }

  lemma OtherEventKeepsPhase(s: State, e: Event, h: HandleId)
    requires Enabled(s, e) && !DataEvent(e) && !e.CopyDrops? && h in s.handles && e.h != h
    requires e.CopyJoins? ==> s.handles[e.h].phase.from != h
    ensures SamePhase(s, Step(s, e), h)
  {
  }

  predicate Goes(s: State, s': State, e: Event, h: HandleId)
    requires h in s.handles
  {
    if e == Release(h) then h !in s'.handles
    else if e.h == h && OwnStep(e) then
      && h in s'.handles && InDestructor(s'.handles[h].phase)
      && StepsLeft(s'.handles[h].phase) < StepsLeft(s.handles[h].phase)
    else SamePhase(s, s', h)
  }

  lemma EventKeepsPhase(s: State, e: Event, h: HandleId)
    requires Enabled(s, e) && h in s.handles && InDestructor(s.handles[h].phase) && !(e.h == h && OwnStep(e))
    requires e.CopyJoins? ==> PhaseIsLent(s, e.h)
    ensures SamePhase(s, Step(s, e), h)
  {
    if DataEvent(e) { DataEventKeepsPhase(s, e, h); }
    else if e.CopyDrops? { CopyDropsKeepsPhase(s, e, h); }
    else { OtherEventKeepsPhase(s, e, h); }
  }

  predicate PhaseIsLent(s: State, h: HandleId) {
    h in s.handles && s.handles[h].phase.Joining? ==>
      s.handles[h].phase.from in s.handles && s.handles[s.handles[h].phase.from].phase == Lending(h)
  }

  /** No event turns a destructor that has begun back: its own events bring it closer to its end, which is the end of
      the handle, and the others leave it where it is. */
  lemma DestructorGoesOn(s: State, e: Event, h: HandleId)
    requires Inv(s) && Enabled(s, e) && h in s.handles && InDestructor(s.handles[h].phase)
    ensures Goes(s, Step(s, e), e, h)
  {
    if e.h == h && OwnStep(e) {
      OwnStepIsProgress(s, e);
    } else {
      if e.CopyJoins? { assert HandleOk(s, e.h); }
      EventKeepsPhase(s, e, h);
    }
  }

  lemma NextStepIsEnabled(s: State, h: HandleId)
    requires h in s.handles && InDestructor(s.handles[h].phase) && HandleOk(s, h)
    ensures Enabled(s, NextStep(h, s.handles[h].phase)) || (Stops(s, h) && !Unlocked(s, h))
  {
  }

  /** And unless it waits for a lock that another destructor holds, it can make its next step. */
  lemma DestructorCanGoOn(s: State, h: HandleId)
    requires Inv(s) && h in s.handles && InDestructor(s.handles[h].phase)
    ensures Enabled(s, NextStep(h, s.handles[h].phase)) || (Stops(s, h) && !Unlocked(s, h))
  {
    NextStepIsEnabled(s, h);
  }

  // ----- destructor, generated move assignment, and what discipline is for -----

  /** The destructor, without interference. */
  function Destroy(h: HandleId): seq<Event> {
    [DestroyBegins(h), DestroyDrops(h)] + LastSteps(h)
  }

  function LastSteps(h: HandleId): seq<Event> { [DestroyStops(h)] + Report(h) + [Release(h)] }

  /** The report of a stop. */
  function Report(h: HandleId): seq<Event> { [ReportChooses(h), ReportStops(h), ReportWrites(h)] }

  /** What it comes to without interference. */
  function AfterReport(s: State, h: HandleId): State
    requires Chooses(s, h) && HasData(s, h)
  {
    var p, c := s.handles[h].phase, s.handles[h].target;
    var d := WhenStopped(s.data[c]);
    SetPhase(SetData(s, c, d), h, if p.last then Ended else Idle)
      .(activities := Emit(SetData(s, c, d), c, Attached(d).Some?, |d.history.notified|))
  }

  lemma ExecFirst(s: State, e: Event, es: seq<Event>)
    ensures Exec(s, [e] + es) == Exec(if Enabled(s, e) then Step(s, e) else s, es)
  {
    assert ([e] + es)[1..] == es;
  }

  lemma {:induction false} ExecAppend(s: State, es: seq<Event>, fs: seq<Event>)
    ensures Exec(s, es + fs) == Exec(Exec(s, es), fs)
    decreases |es|
  {
    if es == [] {
      assert es + fs == fs;
    } else {
      assert (es + fs)[1..] == es[1..] + fs;
      ExecAppend(if Enabled(s, es[0]) then Step(s, es[0]) else s, es[1..], fs);
    }
  }

  lemma ReportIs(s: State, h: HandleId)
    requires Chooses(s, h) && MayLock(s, h)
    ensures Exec(s, Report(h)) == AfterReport(s, h)
  {
    var s1 := Step(s, ReportChooses(h));
    var s2 := Step(s1, ReportStops(h));
    ExecFirst(s, ReportChooses(h), [ReportStops(h), ReportWrites(h)]);
    ExecFirst(s1, ReportStops(h), [ReportWrites(h)]);
    ExecFirst(s2, ReportWrites(h), []);
    assert s2.handles[h := s2.handles[h].(phase := if s.handles[h].phase.last then Ended else Idle)]
           == AfterReport(s, h).handles;
  }

  lemma DisciplinedFirst(s: State, e: Event, es: seq<Event>)
    requires Enabled(s, e) && Disciplined(s, e) && DisciplinedRun(Step(s, e), es)
    ensures DisciplinedRun(s, [e] + es)
  {
    assert ([e] + es)[1..] == es;
  }

  lemma {:induction false} DisciplinedAppend(s: State, es: seq<Event>, fs: seq<Event>)
    requires DisciplinedRun(s, es) && DisciplinedRun(Exec(s, es), fs)
    ensures DisciplinedRun(s, es + fs)
    decreases |es|
  {
    if es == [] {
      assert es + fs == fs;
    } else {
      assert (es + fs)[1..] == es[1..] + fs;
      DisciplinedAppend(if Enabled(s, es[0]) then Step(s, es[0]) else s, es[1..], fs);
    }
  }

  /** h is in phase p and works on the record of the activity a, which has emitted nothing. */
  predicate Holds(s: State, h: HandleId, p: Phase, a: ActivityId) {
    && In(s, h, p) && HasData(s, h) && HasRefs(s, h) && Unlocked(s, h)
    && s.data[s.handles[h].target].status == Started(a)
    && a in s.activities && s.activities[a].events == []
  }

  /** h is idle, and the only handle of the running activity a. */
  predicate HoldsAlone(s: State, h: HandleId, a: ActivityId) { Holds(s, h, Idle, a) && OnlyHandle(s, h) }

  /** Nobody else can be inside a locked section of a record with one handle. */
  lemma OnlyHandleIsUnlocked(s: State, h: HandleId)
    requires Inv(s) && LocksOk(s) && In(s, h, Idle) && HasData(s, h) && HasRefs(s, h) && OnlyHandle(s, h)
    ensures Unlocked(s, h)
  {
    if s.handles[h].shared.Some? && s.handles[h].shared.value in s.locks {
      var x := s.handles[h].shared.value;
      assert LockOk(s, x);
      SoleHolder(s, h, s.locks[x]);
    }
  }

  lemma DestructorReaches(s: State, h: HandleId, a: ActivityId)
    requires HoldsAlone(s, h, a)
    ensures Enabled(s, DestroyBegins(h)) && Holds(Step(s, DestroyBegins(h)), h, Dying, a)
  {
  }

  lemma DestructorDecides(s: State, h: HandleId, a: ActivityId)
    requires Holds(s, h, Dying, a)
    ensures Enabled(s, DestroyStops(h)) && Holds(Step(s, DestroyStops(h)), h, Reporting(true, Choosing), a)
  {
  }

  lemma DestructorReports(s: State, h: HandleId, a: ActivityId)
    requires Holds(s, h, Reporting(true, Choosing), a)
    ensures var s' := AfterReport(s, h);
            In(s', h, Ended) && HasRefs(s', h) && a in s'.activities && |s'.activities[a].events| == 1
  {
  }

  /** The handle is gone, and the activity has its one stop event. */
  predicate EndedOnce(s: State, h: HandleId, a: ActivityId) {
    h !in s.handles && a in s.activities && |s.activities[a].events| == 1
  }

  lemma DestructorReleases(s: State, h: HandleId, a: ActivityId)
    requires In(s, h, Ended) && HasRefs(s, h) && a in s.activities && |s.activities[a].events| == 1
    ensures EndedOnce(Exec(s, [Release(h)]), h, a)
  {
    ExecFirst(s, Release(h), []);
  }

  lemma DestructorFinishes(s: State, h: HandleId, a: ActivityId)
    requires Holds(s, h, Dying, a)
    ensures EndedOnce(Exec(s, LastSteps(h)), h, a)
  {
    DestructorDecides(s, h, a);
    var s1 := Step(s, DestroyStops(h));
    DestructorReports(s1, h, a);
    DestructorReleases(AfterReport(s1, h), h, a);
    ExecFirst(s, DestroyStops(h), Report(h));
    ReportIs(s1, h);
    ExecAppend(s, [DestroyStops(h)] + Report(h), [Release(h)]);
  }

  /** The destructor of the only handle of a running activity emits its stop event. */
  lemma LastHandleStops(s: State, h: HandleId, a: ActivityId)
    requires HoldsAlone(s, h, a)
    ensures EndedOnce(Exec(s, Destroy(h)), h, a)
  {
    DestructorReaches(s, h, a);
    var s1 := Step(s, DestroyBegins(h));
    DestructorFinishes(s1, h, a);
    assert Destroy(h) == [DestroyBegins(h)] + ([DestroyDrops(h)] + LastSteps(h));
    ExecFirst(s, DestroyBegins(h), [DestroyDrops(h)] + LastSteps(h));
    ExecFirst(s1, DestroyDrops(h), LastSteps(h));
  }

  /** The generated move assignment: what h held moves to the local t, h takes over what the source held, and
      the destructor of t ends what h held.  Moving a handle into itself skips the second move. */
  function MoveAssign(h: HandleId, from: HandleId, t: HandleId): seq<Event> {
    [New(t), MoveInto(t, h), MoveInto(h, from)] + Destroy(t)
  }

  lemma MoveKeepsHeld(s: State, h: HandleId, from: HandleId, a: ActivityId)
    requires Enabled(s, MoveInto(h, from)) && HandleOk(s, from) && HandleOk(s, h)
    requires HoldsAlone(s, from, a)
    ensures var s' := Step(s, MoveInto(h, from));
            HoldsAlone(s', h, a) && Vacant(s', from)
  {
  }

  lemma MoveKeepsThird(s: State, h: HandleId, from: HandleId, t: HandleId, a: ActivityId)
    requires HoldsAlone(s, t, a) && HandleOk(s, t) && t != h && t != from
    requires Enabled(s, MoveInto(h, from)) && CellOk(s, Own(from))
    ensures var s' := Step(s, MoveInto(h, from));
            HoldsAlone(s', t, a)
  {
  }

  /** After the local has been made, h is vacant and the local holds what h held. */
  lemma MoveOut(s: State, h: HandleId, t: HandleId, a: ActivityId)
    requires Inv(s) && t !in s.handles && HoldsAlone(s, h, a)
    ensures Enabled(s, New(t)) && Enabled(Step(s, New(t)), MoveInto(t, h))
    ensures var s2 := Step(Step(s, New(t)), MoveInto(t, h));
            Inv(s2) && HoldsAlone(s2, t, a) && Vacant(s2, h)
  {
    var s1 := Step(s, New(t));
    assert HandleOk(s, h);
    NewKeepsInv(s, t);
    assert HandleOk(s1, h) && HandleOk(s1, t);
    GiveKeepsInv(s1, t, h);
    MoveKeepsHeld(s1, t, h, a);
  }

  /** Assigning over the only handle of a running activity, even by moving it into itself, stops that activity. */
  lemma MoveAssignStopsTheOld(s: State, h: HandleId, from: HandleId, t: HandleId, a: ActivityId)
    requires Inv(s) && HoldsAlone(s, h, a) && In(s, from, Idle) && t !in s.handles
    ensures var s' := Exec(s, MoveAssign(h, from, t));
            t !in s'.handles && a in s'.activities && |s'.activities[a].events| == 1
  {
    MovesLeaveTheOldToT(s, h, from, t, a);
    var moved := Exec(s, [New(t), MoveInto(t, h), MoveInto(h, from)]);
    ExecAppend(s, [New(t), MoveInto(t, h), MoveInto(h, from)], Destroy(t));
    LastHandleStops(moved, t, a);
  }

  lemma MovesLeaveTheOldToT(s: State, h: HandleId, from: HandleId, t: HandleId, a: ActivityId)
    requires Inv(s) && HoldsAlone(s, h, a) && In(s, from, Idle) && t !in s.handles
    ensures var moved := Exec(s, [New(t), MoveInto(t, h), MoveInto(h, from)]);
            HoldsAlone(moved, t, a)
  {
    MoveOut(s, h, t, a);
    SourceStaysIdle(s, h, from, t);
    ExecMoves(s, h, from, t);
    AfterSecondMove(Step(Step(s, New(t)), MoveInto(t, h)), h, from, t, a);
  }

  /** The second move, if it is one, leaves t alone. */
  lemma AfterSecondMove(s: State, h: HandleId, from: HandleId, t: HandleId, a: ActivityId)
    requires Inv(s) && HoldsAlone(s, t, a) && Vacant(s, h) && In(s, from, Idle) && t != h && t != from
    ensures var moved := if Enabled(s, MoveInto(h, from)) then Step(s, MoveInto(h, from)) else s;
            HoldsAlone(moved, t, a)
  {
    if h != from { SecondMove(s, h, from, t, a); }
  }

  /** The two steps before it leave the source ready. */
  lemma SourceStaysIdle(s: State, h: HandleId, from: HandleId, t: HandleId)
    requires In(s, from, Idle) && In(s, h, Idle) && t !in s.handles && Enabled(Step(s, New(t)), MoveInto(t, h))
    ensures In(Step(Step(s, New(t)), MoveInto(t, h)), from, Idle)
  {
  }

  lemma ExecMoves(s: State, h: HandleId, from: HandleId, t: HandleId)
    requires Enabled(s, New(t)) && Enabled(Step(s, New(t)), MoveInto(t, h))
    ensures var s2 := Step(Step(s, New(t)), MoveInto(t, h));
            Exec(s, [New(t), MoveInto(t, h), MoveInto(h, from)]) ==
            if Enabled(s2, MoveInto(h, from)) then Step(s2, MoveInto(h, from)) else s2
  {
    var s1 := Step(s, New(t));
    ExecFirst(s, New(t), [MoveInto(t, h), MoveInto(h, from)]);
    ExecFirst(s1, MoveInto(t, h), [MoveInto(h, from)]);
    assert [MoveInto(h, from)][1..] == [];
  }

  lemma SecondMove(s: State, h: HandleId, from: HandleId, t: HandleId, a: ActivityId)
    requires Inv(s) && HoldsAlone(s, t, a) && Vacant(s, h) && In(s, from, Idle)
    requires h != from && t != h && t != from
    ensures Enabled(s, MoveInto(h, from))
    ensures var s' := Step(s, MoveInto(h, from)); HoldsAlone(s', t, a)
  {
    assert HandleOk(s, t) && HandleOk(s, from) && CellOk(s, Own(from));
    MoveKeepsThird(s, h, from, t, a);
  }

  /** Two handles share the record x of the running activity a, whose stop one of them is about to report. */
  predicate Window(s: State, g: HandleId, h: HandleId, x: SharedId, a: ActivityId, left: int, events: nat) {
    && g in s.handles && h in s.handles && g != h && x in s.refs && a in s.activities && Shr(x) in s.data
    && s.handles[g].shared == Some(x) && s.handles[g].target == Shr(x)
    && s.handles[g].phase == Reporting(false, Choosing)
    && s.handles[h].shared == Some(x) && s.handles[h].target == Shr(x)
    && s.data[Shr(x)].expected == left && (s.data[Shr(x)].status == Started(a) || s.data[Shr(x)].status == Stopped(a))
    && |s.activities[a].events| == events
  }

  lemma LateSplit(s: State, g: HandleId, h: HandleId, x: SharedId, a: ActivityId)
    requires Window(s, g, h, x, a, 0, 0) && s.handles[h].phase == Idle && s.data[Shr(x)].status == Started(a)
    requires x !in s.locks
    ensures Enabled(s, SplitBegins(h)) && !FailsFast(s, SplitBegins(h))
    ensures Window(Step(s, SplitBegins(h)), g, h, x, a, 1, 0) && Step(s, SplitBegins(h)).handles[h].phase == Splitting
  {
  }

  lemma LateCopy(s: State, g: HandleId, h: HandleId, n: HandleId, x: SharedId, y: SharedId, a: ActivityId)
    requires Window(s, g, h, x, a, 1, 0) && s.handles[h].phase == Splitting && Own(h) in s.data && x !in s.locks
    requires n != g && n != h && Vacant(s, n) && y !in s.refs
    ensures Enabled(s, CopyDrops(n, h, y, true)) && Enabled(Step(s, CopyDrops(n, h, y, true)), CopyJoins(n))
    ensures var s' := Step(Step(s, CopyDrops(n, h, y, true)), CopyJoins(n));
            Window(s', g, n, x, a, 1, 0) && s'.handles[n].phase == Idle && x !in s'.locks
  {
  }

  lemma LateStop(s: State, g: HandleId, n: HandleId, x: SharedId, a: ActivityId, hr: HResult)
    requires Window(s, g, n, x, a, 1, 0) && s.handles[n].phase == Idle && x !in s.locks
    ensures Enabled(s, Stop(n, hr)) && !FailsFast(s, Stop(n, hr))
    ensures Window(Step(s, Stop(n, hr)), g, n, x, a, 0, 0) && In(Step(s, Stop(n, hr)), n, Reporting(false, Choosing))
    ensures x !in Step(s, Stop(n, hr)).locks
  {
  }

  lemma BothReport(s: State, g: HandleId, n: HandleId, x: SharedId, a: ActivityId)
    requires Window(s, g, n, x, a, 0, 0) && s.handles[n].phase == Reporting(false, Choosing) && x !in s.locks
    ensures Chooses(s, g) && MayLock(s, g)
    ensures Chooses(AfterReport(s, g), n) && MayLock(AfterReport(s, g), n)
    ensures var s' := AfterReport(AfterReport(s, g), n); a in s'.activities && |s'.activities[a].events| == 2
  {
  }

  /** Up to the second stop of the same record. */
  lemma SplitInWindowIsStopped(
    s: State, g: HandleId, h: HandleId, n: HandleId, x: SharedId, y: SharedId, a: ActivityId, hr: HResult)
    returns (s4: State)
    requires Window(s, g, h, x, a, 0, 0) && s.handles[h].phase == Idle && s.data[Shr(x)].status == Started(a)
    requires x !in s.locks && Own(h) in s.data && n != g && n != h && Vacant(s, n) && y !in s.refs
    ensures s4 == Exec(s, LateStopping(h, n, y, hr)) && x !in s4.locks
    ensures Window(s4, g, n, x, a, 0, 0) && s4.handles[n].phase == Reporting(false, Choosing)
  {
    LateSplit(s, g, h, x, a);
    var s1 := Step(s, SplitBegins(h));
    LateCopy(s1, g, h, n, x, y, a);
    var s2 := Step(s1, CopyDrops(n, h, y, true));
    var s3 := Step(s2, CopyJoins(n));
    LateStop(s3, g, n, x, a, hr);
    s4 := Step(s3, Stop(n, hr));
    ExecFirst(s, SplitBegins(h), [CopyDrops(n, h, y, true), CopyJoins(n), Stop(n, hr)]);
    ExecFirst(s1, CopyDrops(n, h, y, true), [CopyJoins(n), Stop(n, hr)]);
    ExecFirst(s2, CopyJoins(n), [Stop(n, hr)]);
    ExecFirst(s3, Stop(n, hr), []);
  }

  /** Two reports that follow a run. */
  lemma ExecReports(s: State, es: seq<Event>, t: State, g: HandleId, n: HandleId)
    requires Exec(s, es) == t && Chooses(t, g) && MayLock(t, g)
    requires Chooses(AfterReport(t, g), n) && MayLock(AfterReport(t, g), n)
    ensures Exec(s, es + Report(g) + Report(n)) == AfterReport(AfterReport(t, g), n)
  {
    ReportIs(t, g);
    ReportIs(AfterReport(t, g), n);
    ExecAppend(s, es, Report(g));
    ExecAppend(s, es + Report(g), Report(n));
  }

  /** The discipline on splits is needed: the assertion of `Split` only asks that the activity is running, which
      it still is between the last expected stop and its report.  Whenever a handle splits in that window, the
      expected count is back at one, the new handle's stop is accepted, and two stop events follow. */
  lemma SplitInWindowStopsTwice(
    s: State, g: HandleId, h: HandleId, n: HandleId, x: SharedId, y: SharedId, a: ActivityId, hr: HResult)
    requires Window(s, g, h, x, a, 0, 0) && s.handles[h].phase == Idle && s.data[Shr(x)].status == Started(a)
    requires x !in s.locks && Own(h) in s.data && n != g && n != h && Vacant(s, n) && y !in s.refs
    ensures var s' := Exec(s, SplitAndStop(g, h, n, y, hr)); a in s'.activities && |s'.activities[a].events| == 2
  {
    var s4 := SplitInWindowIsStopped(s, g, h, n, x, y, a, hr);
    BothReport(s4, g, n, x, a);
    ExecReports(s, LateStopping(h, n, y, hr), s4, g, n);
  }

  function LateStopping(h: HandleId, n: HandleId, y: SharedId, hr: HResult): seq<Event> {
    [SplitBegins(h), CopyDrops(n, h, y, true), CopyJoins(n), Stop(n, hr)]
  }

  function SplitAndStop(g: HandleId, h: HandleId, n: HandleId, y: SharedId, hr: HResult): seq<Event> {
    LateStopping(h, n, y, hr) + Report(g) + Report(n)
  }

  const THREE_HANDLES :=
    State(map[0 := Handle(None, Own(0), Idle), 1 := Handle(None, Own(1), Idle), 2 := Handle(None, Own(2), Idle)],
          map[Own(0) := FRESH.(status := Started(7)), Own(1) := FRESH, Own(2) := FRESH],
          map[], map[], map[7 := Life(Own(0), None, [])])

  lemma ThreeHandles()
    ensures Exec(START, [New(0), New(1), New(2), StartActivity(0, 7)]) == THREE_HANDLES
    ensures DisciplinedRun(START, [New(0), New(1), New(2), StartActivity(0, 7)])
  {
    var s1 := Step(START, New(0));
    var s2 := Step(s1, New(1));
    var s3 := Step(s2, New(2));
    ExecFirst(START, New(0), [New(1), New(2), StartActivity(0, 7)]);
    ExecFirst(s1, New(1), [New(2), StartActivity(0, 7)]);
    ExecFirst(s2, New(2), [StartActivity(0, 7)]);
    ExecFirst(s3, StartActivity(0, 7), []);
    DisciplinedFirst(s3, StartActivity(0, 7), []);
    DisciplinedFirst(s2, New(2), [StartActivity(0, 7)]);
    DisciplinedFirst(s1, New(1), [New(2), StartActivity(0, 7)]);
    DisciplinedFirst(START, New(0), [New(1), New(2), StartActivity(0, 7)]);
  }

  const SHARING :=
    State(map[0 := Handle(Some(5), Shr(5), Lending(1)), 1 := Handle(None, Own(1), Joining(0)),
              2 := Handle(None, Own(2), Idle)],
          map[Own(0) := FRESH, Own(1) := FRESH, Own(2) := FRESH, Shr(5) := FRESH.(status := Started(7))],
          map[5 := 1], map[], map[7 := Life(Shr(5), None, [])])

  const SHARED :=
    State(map[0 := Handle(Some(5), Shr(5), Idle), 1 := Handle(Some(5), Shr(5), Idle),
              2 := Handle(None, Own(2), Idle)],
          map[Own(0) := FRESH, Own(1) := FRESH, Own(2) := FRESH, Shr(5) := FRESH.(status := Started(7))],
          map[5 := 2], map[], map[7 := Life(Shr(5), None, [])])

  lemma FirstHalfShares()
    ensures Enabled(THREE_HANDLES, CopyDrops(1, 0, 5, true)) && Disciplined(THREE_HANDLES, CopyDrops(1, 0, 5, true))
    ensures Step(THREE_HANDLES, CopyDrops(1, 0, 5, true)) == SHARING
  {
  }

  lemma SecondHalfShares()
    ensures Enabled(SHARING, CopyJoins(1)) && Step(SHARING, CopyJoins(1)) == SHARED
  {
  }

  lemma CopyShares()
    ensures Exec(THREE_HANDLES, [CopyDrops(1, 0, 5, true), CopyJoins(1)]) == SHARED
    ensures DisciplinedRun(THREE_HANDLES, [CopyDrops(1, 0, 5, true), CopyJoins(1)])
  {
    FirstHalfShares();
    SecondHalfShares();
    ExecFirst(THREE_HANDLES, CopyDrops(1, 0, 5, true), [CopyJoins(1)]);
    ExecFirst(SHARING, CopyJoins(1), []);
    DisciplinedFirst(SHARING, CopyJoins(1), []);
    DisciplinedFirst(THREE_HANDLES, CopyDrops(1, 0, 5, true), [CopyJoins(1)]);
  }

  /** A start and a copy lead to two handles that share a running record. */
  lemma SharedIsReachable() returns (es: seq<Event>)
    ensures Exec(START, es) == SHARED && DisciplinedRun(START, es)
  {
    ThreeHandles();
    CopyShares();
    es := [New(0), New(1), New(2), StartActivity(0, 7)] + [CopyDrops(1, 0, 5, true), CopyJoins(1)];
    ExecAppend(START, [New(0), New(1), New(2), StartActivity(0, 7)], [CopyDrops(1, 0, 5, true), CopyJoins(1)]);
    DisciplinedAppend(START, [New(0), New(1), New(2), StartActivity(0, 7)], [CopyDrops(1, 0, 5, true), CopyJoins(1)]);
  }

  /** The window is reached by a start, a copy and one stop. */
  lemma WindowIsReachable()
    ensures exists es ::
              var s := Exec(START, es);
              Window(s, 1, 0, 5, 7, 0, 0) && s.handles[0].phase == Idle && s.data[Shr(5)].status == Started(7) &&
              5 !in s.locks && Own(0) in s.data && Vacant(s, 2)
  {
    var es := SharedIsReachable();
    ExecFirst(SHARED, Stop(1, S_OK), []);
    ExecAppend(START, es, [Stop(1, S_OK)]);
    StopOnCopy();
    assert Exec(START, es + [Stop(1, S_OK)]) == Step(SHARED, Stop(1, S_OK));
  }

  lemma StopOnCopy()
    ensures var s := Step(SHARED, Stop(1, S_OK));
            Window(s, 1, 0, 5, 7, 0, 0) && s.handles[0].phase == Idle && s.data[Shr(5)].status == Started(7) &&
            5 !in s.locks && Own(0) in s.data && Vacant(s, 2)
  {
  }

  // ----- exactly when a copy loses a stop -----

  /** The activity is not over, and its record is gone. */
  ghost predicate Gone(s: State, a: ActivityId) {
    && a in s.activities && s.activities[a].events == []
    && forall c :: c in s.data ==> s.data[c].status != Started(a) && s.data[c].status != Stopped(a)
  }

  lemma QuietEventKeepsGone(s: State, e: Event, a: ActivityId)
    requires Enabled(s, e) && Gone(s, a) && QuietEvent(e)
    ensures Gone(Step(s, e), a)
  {
  }

  lemma StoppingEventKeepsGone(s: State, e: Event, a: ActivityId)
    requires Enabled(s, e) && Gone(s, a) && StoppingEvent(e)
    ensures Gone(Step(s, e), a)
  {
  }

  lemma CopySelfKeepsGone(s: State, e: Event, a: ActivityId)
    requires Enabled(s, e) && Gone(s, a) && e.CopySelf?
    ensures Gone(Step(s, e), a)
  {
  }

  lemma SourceKeepsGone(s: State, h: HandleId, from: HandleId, x: SharedId, a: ActivityId)
    requires MayCopy(s, h, from, x) && Gone(s, a)
    ensures Gone(Source(s, h, from, x), a)
  {
  }

  lemma DropKeepsGone(s: State, h: HandleId, a: ActivityId)
    requires HasRefs(s, h) && Gone(s, a)
    ensures Gone(Drop(s, h), a)
  {
  }

  lemma CopyDropsKeepsGone(s: State, e: Event, a: ActivityId)
    requires Enabled(s, e) && Gone(s, a) && e.CopyDrops?
    ensures Gone(Step(s, e), a)
  {
    var s1 := Source(s, e.h, e.from, e.x);
    SourceKeepsGone(s, e.h, e.from, e.x, a);
    DropKeepsGone(s1, e.h, a);
    LendKeepsGone(Drop(s1, e.h), e.h, e.from, a);
  }

  lemma OtherEventKeepsGone(s: State, e: Event, a: ActivityId)
    requires Enabled(s, e) && Gone(s, a) && !DataEvent(e) && !e.CopyDrops? && !e.CopySelf?
    ensures Gone(Step(s, e), a)
  {
  }

  lemma StepKeepsGone(s: State, e: Event, a: ActivityId)
    requires Enabled(s, e) && Gone(s, a)
    ensures Gone(Step(s, e), a)
  {
    if QuietEvent(e) { QuietEventKeepsGone(s, e, a); }
    else if StoppingEvent(e) { StoppingEventKeepsGone(s, e, a); }
    else if e.CopyDrops? { CopyDropsKeepsGone(s, e, a); }
    else if e.CopySelf? { CopySelfKeepsGone(s, e, a); }
    else { OtherEventKeepsGone(s, e, a); }
  }

  /** The record of a is in the cell c and nowhere else. */
  ghost predicate OnlyIn(s: State, a: ActivityId, c: Cell) {
    && a in s.activities && s.activities[a].events == []
    && forall d :: d in s.data && (s.data[d].status == Started(a) || s.data[d].status == Stopped(a)) ==> d == c
  }

  // ----- or it is left behind for good -----

  /** Both sides of a copy know each other, and a handle works on its own record or a shared one. */
  predicate Placed(s: State, k: HandleId)
    requires k in s.handles
  {
    var hd := s.handles[k];
    && (hd.phase.Joining? ==> hd.phase.from in s.handles && s.handles[hd.phase.from].phase == Lending(k))
    && (hd.phase != Ended ==> hd.target == Own(k) || hd.target.Shr?)
  }

  ghost predicate AllPlaced(s: State) { forall k :: k in s.handles ==> Placed(s, k) }

  lemma QuietEventKeepsPlaced(s: State, e: Event, k: HandleId)
    requires Enabled(s, e) && QuietEvent(e) && (k in s.handles ==> Placed(s, k))
    ensures k in Step(s, e).handles ==> Placed(Step(s, e), k)
  {
  }

  lemma StoppingEventKeepsPlaced(s: State, e: Event, k: HandleId)
    requires Enabled(s, e) && StoppingEvent(e) && (k in s.handles ==> Placed(s, k))
    ensures k in Step(s, e).handles ==> Placed(Step(s, e), k)
  {
  }

  lemma SourceKeepsPlaced(s: State, h: HandleId, from: HandleId, x: SharedId, k: HandleId)
    requires MayCopy(s, h, from, x) && k in s.handles && Placed(s, k)
    ensures var s2 := Source(s, h, from, x);
            k in s2.handles && Placed(s2, k) && In(s2, h, Idle) && In(s2, from, Idle)
  {
  }

  lemma LendKeepsPlaced(s: State, h: HandleId, from: HandleId, k: HandleId)
    requires In(s, h, Idle) && In(s, from, Idle) && h != from && HasRefs(s, h) && k in s.handles && Placed(s, k)
    ensures var s' := Lend(Drop(s, h), h, from); k in s'.handles && Placed(s', k)
  {
  }

  lemma CopyDropsKeepsPlaced(s: State, e: Event, k: HandleId)
    requires Enabled(s, e) && e.CopyDrops? && (k in s.handles ==> Placed(s, k))
    ensures k in Step(s, e).handles ==> Placed(Step(s, e), k)
  {
    if k in s.handles {
      SourceKeepsPlaced(s, e.h, e.from, e.x, k);
      LendKeepsPlaced(Source(s, e.h, e.from, e.x), e.h, e.from, k);
    }
  }

  lemma OtherCopyKeepsPlaced(s: State, e: Event, k: HandleId)
    requires Enabled(s, e) && (e.CopySelf? || e.CopyJoins?)
    requires (k in s.handles ==> Placed(s, k)) && (e.h in s.handles ==> Placed(s, e.h))
    ensures k in Step(s, e).handles ==> Placed(Step(s, e), k)
  {
  }

  lemma MoveKeepsPlaced(s: State, e: Event, k: HandleId)
    requires Enabled(s, e) && e.MoveInto? && (k in s.handles ==> Placed(s, k))
    ensures k in Step(s, e).handles ==> Placed(Step(s, e), k)
  {
  }

  lemma DestroyBeginsKeepsPlaced(s: State, e: Event, k: HandleId)
    requires Enabled(s, e) && e.DestroyBegins? && (k in s.handles ==> Placed(s, k))
    ensures k in Step(s, e).handles ==> Placed(Step(s, e), k)
  {
  }

  lemma DestroyDropsKeepsPlaced(s: State, e: Event, k: HandleId)
    requires Enabled(s, e) && e.DestroyDrops? && (k in s.handles ==> Placed(s, k))
    ensures k in Step(s, e).handles ==> Placed(Step(s, e), k)
  {
  }

  lemma EndKeepsPlaced(s: State, e: Event, k: HandleId)
    requires Enabled(s, e) && (e.New? || e.Release?) && (k in s.handles ==> Placed(s, k))
    ensures k in Step(s, e).handles ==> Placed(Step(s, e), k)
  {
  }

  lemma StepKeepsPlaced(s: State, e: Event, k: HandleId)
    requires Enabled(s, e) && (k in s.handles ==> Placed(s, k)) && (e.h in s.handles ==> Placed(s, e.h))
    ensures k in Step(s, e).handles ==> Placed(Step(s, e), k)
  {
    if QuietEvent(e) { QuietEventKeepsPlaced(s, e, k); }
    else if StoppingEvent(e) { StoppingEventKeepsPlaced(s, e, k); }
    else if e.CopyDrops? { CopyDropsKeepsPlaced(s, e, k); }
    else if IsCopy(e) { OtherCopyKeepsPlaced(s, e, k); }
    else if e.MoveInto? { MoveKeepsPlaced(s, e, k); }
    else if e.New? || e.Release? { EndKeepsPlaced(s, e, k); }
    else if e.DestroyBegins? { DestroyBeginsKeepsPlaced(s, e, k); }
    else { DestroyDropsKeepsPlaced(s, e, k); }
  }

  lemma StepKeepsAllPlaced(s: State, e: Event)
    requires Enabled(s, e) && AllPlaced(s)
    ensures AllPlaced(Step(s, e))
  {
    forall k | k in Step(s, e).handles ensures Placed(Step(s, e), k) { StepKeepsPlaced(s, e, k); }
  }

  /** The handle works on a shared record, will do so when its copy is complete, or is done. */
  predicate WorksElsewhere(s: State, g: HandleId)
    requires g in s.handles
  {
    var hd := s.handles[g];
    if hd.shared.Some? then hd.target == Shr(hd.shared.value) else hd.phase == Ended || hd.phase.Joining?
  }

  /** The activity is not over, and its record is inside a handle that works on another one. */
  ghost predicate Stranded(s: State, a: ActivityId, g: HandleId) {
    g in s.handles && OnlyIn(s, a, Own(g)) && WorksElsewhere(s, g)
  }

  predicate IsCopy(e: Event) { e.CopySelf? || e.CopyDrops? || e.CopyJoins? }

  lemma QuietEventKeepsStranded(s: State, e: Event, a: ActivityId, g: HandleId)
    requires Enabled(s, e) && Stranded(s, a, g) && QuietEvent(e)
    ensures Stranded(Step(s, e), a, g)
  {
  }

  lemma ReportKeepsStranded(s: State, e: Event, a: ActivityId, g: HandleId)
    requires Enabled(s, e) && Stranded(s, a, g) && ReportEvent(e) && Placed(s, e.h)
    ensures Stranded(Step(s, e), a, g)
  {
  }

  lemma StoppingEventKeepsStranded(s: State, e: Event, a: ActivityId, g: HandleId)
    requires Enabled(s, e) && Stranded(s, a, g) && StoppingEvent(e) && Placed(s, e.h)
    ensures Stranded(Step(s, e), a, g)
  {
    if ReportEvent(e) { ReportKeepsStranded(s, e, a, g); }
  }

  lemma SourceKeepsStranded(s: State, h: HandleId, from: HandleId, x: SharedId, a: ActivityId, g: HandleId)
    requires MayCopy(s, h, from, x) && Stranded(s, a, g)
    ensures Stranded(Source(s, h, from, x), a, g) && In(Source(s, h, from, x), from, Idle)
  {
  }

  lemma LendKeepsStranded(s: State, h: HandleId, from: HandleId, a: ActivityId, g: HandleId)
    requires HasRefs(s, h) && In(s, h, Idle) && In(s, from, Idle) && h != from && Stranded(s, a, g)
    ensures Stranded(Lend(Drop(s, h), h, from), a, g)
  {
  }

  lemma CopyKeepsStranded(s: State, e: Event, a: ActivityId, g: HandleId)
    requires Enabled(s, e) && IsCopy(e) && e.h in s.handles && Placed(s, e.h) && Stranded(s, a, g)
    ensures Stranded(Step(s, e), a, g)
  {
    if e.CopyDrops? {
      SourceKeepsStranded(s, e.h, e.from, e.x, a, g);
      LendKeepsStranded(Source(s, e.h, e.from, e.x), e.h, e.from, a, g);
    }
  }

  /** A move takes the record along. */
  lemma MoveKeepsStranded(s: State, h: HandleId, from: HandleId, a: ActivityId, g: HandleId)
    requires Enabled(s, MoveInto(h, from)) && Stranded(s, a, g)
    ensures Stranded(Step(s, MoveInto(h, from)), a, if from == g then h else g)
  {
  }

  /** Only the end of the handle ends the record, and deletes it. */
  lemma ReleaseKeepsStranded(s: State, h: HandleId, a: ActivityId, g: HandleId)
    requires Enabled(s, Release(h)) && Stranded(s, a, g)
    ensures if h == g then Gone(Step(s, Release(h)), a) else Stranded(Step(s, Release(h)), a, g)
  {
  }

  lemma OtherEventKeepsStranded(s: State, e: Event, a: ActivityId, g: HandleId)
    requires Enabled(s, e) && Stranded(s, a, g) && !DataEvent(e) && !IsCopy(e) && !e.MoveInto? && !e.Release?
    ensures Stranded(Step(s, e), a, g)
  {
  }

  lemma RunningIsOnlyThere(s: State, c: Cell, a: ActivityId)
    requires Inv(s) && c in s.data && s.data[c].status == Started(a)
    ensures OnlyIn(s, a, c) && s.activities[a].at == c
  {
    assert CellOk(s, c);
    forall d | d in s.data && (s.data[d].status == Started(a) || s.data[d].status == Stopped(a))
      ensures d == c
    {
      assert CellOk(s, d);
    }
  }

  /** The last reference to a shared running record goes. */
  lemma LastDropLoses(s: State, h: HandleId, a: ActivityId)
    requires h in s.handles && HasRefs(s, h) && s.handles[h].shared.Some?
    requires OnlyIn(s, a, Shr(s.handles[h].shared.value)) && s.refs[s.handles[h].shared.value] <= 1
    ensures Gone(Drop(s, h), a)
  {
  }

  lemma LendKeepsGone(s: State, h: HandleId, from: HandleId, a: ActivityId)
    requires h in s.handles && from in s.handles && Gone(s, a)
    ensures Gone(Lend(s, h, from), a)
  {
  }

  /** The first part of a copy leaves the target, and where its activity is, alone. */
  lemma SourceKeepsRunning(s: State, h: HandleId, from: HandleId, x: SharedId, a: ActivityId)
    requires Inv(s) && MayCopy(s, h, from, x) && s.data[s.handles[h].target].status == Started(a)
    ensures var s2, c := Source(s, h, from, x), s.handles[h].target;
            && s2.handles[h] == s.handles[h] && OnlyIn(s2, a, c) && s2.activities[a].at == c
            && (s.handles[h].shared.Some? ==>
                  && c == Shr(s.handles[h].shared.value) && HasRefs(s2, h)
                  && s2.refs[s.handles[h].shared.value] == s.refs[s.handles[h].shared.value])
            && (s.handles[h].shared.None? ==> c == Own(h))
  {
    assert HandleOk(s, h);
    SourceIs(s, h, from, x);
    SourceKeepsInv(s, h, from, x);
    RunningIsOnlyThere(Source(s, h, from, x), s.handles[h].target, a);
  }

  /** Copying over the last handle of a shared running record deletes it. */
  lemma CopyLosesLast(s: State, h: HandleId, from: HandleId, x: SharedId, a: ActivityId)
    requires Inv(s) && MayCopy(s, h, from, x) && s.data[s.handles[h].target].status == Started(a)
    requires s.handles[h].shared.Some? && s.refs[s.handles[h].shared.value] <= 1
    ensures Gone(AfterDrop(s, h, from, x), a)
  {
    var s2 := Source(s, h, from, x);
    SourceKeepsRunning(s, h, from, x, a);
    LastDropLoses(s2, h, a);
    LendKeepsGone(Drop(s2, h), h, from, a);
  }

  lemma DropThenResetLoses(s: State, h: HandleId, from: HandleId, k: HandleId, a: ActivityId)
    requires h in s.handles && from in s.handles && HasRefs(s, h) && s.handles[h].shared.Some? && h != k && from != k
    requires OnlyIn(s, a, Shr(s.handles[h].shared.value)) && s.refs[s.handles[h].shared.value] == 2
    requires In(s, k, Dropping) && s.handles[k].shared == s.handles[h].shared
    ensures Gone(Exec(Lend(Drop(s, h), h, from), [DestroyDrops(k)]), a)
  {
    var s3 := Unlock(Lend(Drop(s, h), h, from), k);
    LastDropLoses(s3, k, a);
    ExecFirst(Lend(Drop(s, h), h, from), DestroyDrops(k), []);
  }

  /** With one other reference left, which a destructor has found not to be the last, that destructor deletes it. */
  lemma CopyThenResetLoses(s: State, h: HandleId, from: HandleId, x: SharedId, k: HandleId, a: ActivityId)
    requires Inv(s) && MayCopy(s, h, from, x) && s.data[s.handles[h].target].status == Started(a)
    requires s.handles[h].shared.Some? && s.refs[s.handles[h].shared.value] == 2
    requires In(s, k, Dropping) && s.handles[k].shared == s.handles[h].shared
    ensures Gone(Exec(AfterDrop(s, h, from, x), [DestroyDrops(k)]), a)
  {
    var s2 := Source(s, h, from, x);
    assert HandleOk(s, h);
    SourceIs(s, h, from, x);
    SourceKeepsRunning(s, h, from, x, a);
    DropThenResetLoses(s2, h, from, k, a);
  }

  lemma DropStrands(s: State, h: HandleId, from: HandleId, a: ActivityId)
    requires In(s, h, Idle) && from in s.handles && h != from && s.handles[h].shared.None? && OnlyIn(s, a, Own(h))
    ensures Stranded(Lend(Drop(s, h), h, from), a, h)
  {
  }

  lemma LendKeepsAllPlaced(s: State, h: HandleId, from: HandleId)
    requires In(s, h, Idle) && In(s, from, Idle) && h != from && HasRefs(s, h) && AllPlaced(s)
    ensures AllPlaced(Lend(Drop(s, h), h, from))
  {
    var s' := Lend(Drop(s, h), h, from);
    forall k | k in s'.handles ensures Placed(s', k) { LendKeepsPlaced(s, h, from, k); }
  }

  lemma InvIsPlaced(s: State)
    requires Inv(s)
    ensures AllPlaced(s)
  {
    forall k | k in s.handles ensures Placed(s, k) { assert HandleOk(s, k); }
  }

  /** Copying over a running activity of one's own leaves it in the handle, which works on another record. */
  lemma CopyStrandsOwn(s: State, h: HandleId, from: HandleId, x: SharedId, a: ActivityId)
    requires Inv(s) && MayCopy(s, h, from, x) && s.data[s.handles[h].target].status == Started(a)
    requires s.handles[h].shared.None?
    ensures AllPlaced(AfterDrop(s, h, from, x)) && Stranded(AfterDrop(s, h, from, x), a, h)
  {
    var s2 := Source(s, h, from, x);
    assert HandleOk(s, h);
    SourceIs(s, h, from, x);
    SourceKeepsInv(s, h, from, x);
    SourceKeepsRunning(s, h, from, x, a);
    DropStrands(s2, h, from, a);
    InvIsPlaced(s2);
    LendKeepsAllPlaced(s2, h, from);
  }

  /** The activity is not over, and its record is deleted or left behind. */
  ghost predicate Lost(s: State, a: ActivityId) {
    Gone(s, a) || (AllPlaced(s) && exists g :: Stranded(s, a, g))
  }

  lemma StepKeepsLost(s: State, e: Event, a: ActivityId)
    requires Enabled(s, e) && Lost(s, a)
    ensures Lost(Step(s, e), a)
  {
    if Gone(s, a) {
      StepKeepsGone(s, e, a);
    } else {
      var g :| Stranded(s, a, g);
      StepKeepsAllPlaced(s, e);
      if QuietEvent(e) { QuietEventKeepsStranded(s, e, a, g); }
      else if StoppingEvent(e) { StoppingEventKeepsStranded(s, e, a, g); }
      else if IsCopy(e) { CopyKeepsStranded(s, e, a, g); }
      else if e.MoveInto? { MoveKeepsStranded(s, e.h, e.from, a, g); }
      else if e.Release? { ReleaseKeepsStranded(s, e.h, a, g); }
      else { OtherEventKeepsStranded(s, e, a, g); }
    }
  }

  /** No continuation of any kind writes a stop event for an activity that is lost. */
  lemma {:induction false} LostForever(s: State, es: seq<Event>, a: ActivityId)
    requires Lost(s, a)
    ensures Lost(Exec(s, es), a) && Exec(s, es).activities[a].events == []
    decreases |es|
  {
    if es != [] {
      if Enabled(s, es[0]) { StepKeepsLost(s, es[0], a); }
      LostForever(if Enabled(s, es[0]) then Step(s, es[0]) else s, es[1..], a);
    }
  }

  lemma NothingIsLost(s: State, a: ActivityId)
    requires Inv(s)
    ensures !Lost(s, a)
  {
    if a in s.activities && s.activities[a].events == [] {
      assert ActivityOk(s, a);
      var h := RunningIsReachable(s, a);
      assert HandleOk(s, h);
      forall g ensures !Stranded(s, a, g) {}
    }
  }

  /** What disciplined callers do from here on can lose the activity. */
  ghost predicate CanBeLost(s: State, a: ActivityId) {
    exists es :: DisciplinedRun(s, es) && Lost(Exec(s, es), a)
  }

  lemma NothingCanBeLost(s: State, a: ActivityId)
    requires Inv(s) && LocksOk(s)
    ensures !CanBeLost(s, a)
  {
    forall es | DisciplinedRun(s, es) ensures !Lost(Exec(s, es), a) {
      RunKeepsInv(s, es);
      NothingIsLost(Exec(s, es), a);
    }
  }

  lemma CopyIs(s: State, h: HandleId, from: HandleId, x: SharedId, ok: bool)
    requires MayCopy(s, h, from, x) && (s.handles[from].shared.Some? || ok)
    ensures Enabled(s, CopyDrops(h, from, x, ok)) && Step(s, CopyDrops(h, from, x, ok)) == AfterDrop(s, h, from, x)
    ensures Disciplined(s, CopyDrops(h, from, x, ok)) <==> !Orphans(s, h)
  {
  }

  /** A copy for which there is no memory leaves both handles and every record as they were, and the source free. */
  lemma FailedCopyChangesNothing(s: State, h: HandleId, from: HandleId, x: SharedId, k: HandleId)
    requires MayCopy(s, h, from, x) && s.handles[from].shared.None?
    ensures var s' := Step(s, CopyDrops(h, from, x, false));
            && s'.data == s.data && s'.refs == s.refs && s'.locks == s.locks && s'.activities == s.activities
            && In(s', from, Idle) && s'.handles.Keys == s.handles.Keys
            && (k in s.handles ==> s'.handles[k] == if k == from then s.handles[k].(phase := Idle) else s.handles[k])
  {
  }

  /** A copy assignment that does something can lose the running activity its target worked on if and only if
      nothing else is going to keep that activity.  It is the copy itself, or the reset of a destructor already past
      its uniqueness test, that loses it: no lock keeps a copy out of that destructor's way. */
  lemma CopyLosesIff(s: State, h: HandleId, from: HandleId, x: SharedId, ok: bool, a: ActivityId)
    requires Inv(s) && LocksOk(s) && MayCopy(s, h, from, x) && (s.handles[from].shared.Some? || ok)
    requires s.data[s.handles[h].target].status == Started(a)
    ensures CanBeLost(Step(s, CopyDrops(h, from, x, ok)), a) <==> Orphans(s, h)
  {
    CopyIs(s, h, from, x, ok);
    if Orphans(s, h) {
      var es := LosingEvents(s, h, from, x, a);
    } else {
      StepKeepsInv(s, CopyDrops(h, from, x, ok));
      StepKeepsLocks(s, CopyDrops(h, from, x, ok));
      NothingCanBeLost(AfterDrop(s, h, from, x), a);
    }
  }

  lemma OneDropIsDisciplined(s: State, k: HandleId)
    ensures DisciplinedRun(s, [DestroyDrops(k)])
  {
    assert [DestroyDrops(k)][1..] == [];
  }

  lemma LosingEvents(s: State, h: HandleId, from: HandleId, x: SharedId, a: ActivityId) returns (es: seq<Event>)
    requires Inv(s) && MayCopy(s, h, from, x) && s.data[s.handles[h].target].status == Started(a)
    requires Orphans(s, h)
    ensures DisciplinedRun(AfterDrop(s, h, from, x), es) && Lost(Exec(AfterDrop(s, h, from, x), es), a)
  {
    if s.handles[h].shared.None? {
      CopyStrandsOwn(s, h, from, x, a);
      es := [];
    } else if s.refs[s.handles[h].shared.value] <= 1 {
      CopyLosesLast(s, h, from, x, a);
      es := [];
    } else {
      var k :| k in s.handles && s.handles[k].phase == Dropping && s.handles[k].shared == s.handles[h].shared;
      CopyThenResetLoses(s, h, from, x, k, a);
      es := [DestroyDrops(k)];
      OneDropIsDisciplined(AfterDrop(s, h, from, x), k);
    }
  }

  /** Such a run: handle 0 is being destroyed and has found its record shared when handle 1 is copied over. */
  function LosingRun(): seq<Event> { [DestroyBegins(0), CopyDrops(1, 2, 6, true), DestroyDrops(0)] }

  lemma LosingRunLoses()
    ensures Gone(Exec(SHARED, LosingRun()), 7)
  {
    DestructorIsBetween();
    LosingCopy(Lock(SHARED, 0));
    ExecFirst(SHARED, DestroyBegins(0), [CopyDrops(1, 2, 6, true), DestroyDrops(0)]);
    ExecFirst(Lock(SHARED, 0), CopyDrops(1, 2, 6, true), [DestroyDrops(0)]);
  }

  lemma DestructorIsBetween()
    ensures Enabled(SHARED, DestroyBegins(0)) && Step(SHARED, DestroyBegins(0)) == Lock(SHARED, 0)
  {
  }

  lemma LosingCopy(s: State)
    requires s == Lock(SHARED, 0)
    ensures Enabled(s, CopyDrops(1, 2, 6, true)) && Step(s, CopyDrops(1, 2, 6, true)) == AfterDrop(s, 1, 2, 6)
    ensures Gone(Exec(AfterDrop(s, 1, 2, 6), [DestroyDrops(0)]), 7)
  {
    DropThenResetLoses(Source(s, 1, 2, 6), 1, 2, 0, 7);
  }

  /** The discipline on copies is needed: a run from the start after which the record of a started activity is gone
      without a stop event, and so, whatever follows, for good. */
  lemma CopyOverSharedLosesStop() returns (es: seq<Event>)
    ensures Gone(Exec(START, es), 7)
  {
    var prefix := SharedIsReachable();
    ExecAppend(START, prefix, LosingRun());
    LosingRunLoses();
    es := prefix + LosingRun();
  }

  lemma ThreeReferences(s: State, x: SharedId, g: HandleId, h: HandleId, k: HandleId)
    requires x in s.refs && RefOk(s, x) && g != h && g in s.handles && h in s.handles
    requires s.handles[g].shared == Some(x) && s.handles[h].shared == Some(x)
    ensures s.refs[x] >= 2
    ensures k in s.handles && k != g && k != h && s.handles[k].shared == Some(x) ==> s.refs[x] >= 3
  {
    SubsetSize({g, h}, Holders(s, x));
    if k in s.handles && s.handles[k].shared == Some(x) { SubsetSize({g, h, k}, Holders(s, x)); }
  }

  /** A caller is safe who copies over nothing that is running, or over a handle of the very activity copied. */
  lemma CarefulCopyIsDisciplined(s: State, h: HandleId, from: HandleId, x: SharedId)
    requires Inv(s) && MayCopy(s, h, from, x)
    requires !s.data[s.handles[h].target].status.Started? ||
             (s.handles[h].shared.Some? && s.handles[h].shared == s.handles[from].shared)
    ensures !Orphans(s, h)
  {
    if s.data[s.handles[h].target].status.Started? {
      var y := s.handles[h].shared.value;
      assert RefOk(s, y);
      forall k | k in s.handles && s.handles[k].phase == Dropping && s.handles[k].shared == Some(y)
        ensures s.refs[y] >= 3
      {
        ThreeReferences(s, y, h, from, k);
      }
      ThreeReferences(s, y, h, from, h);
    }
  }
}
