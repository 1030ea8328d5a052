/** Any number of activity handles that own, share, copy, split, move and destroy activity records, with the
    steps of different threads interleaved.  A stop is the locked update of the record; whoever made the last
    expected one later reports it, in three steps: without the lock it chooses between the stored failure and the
    plain result, under the lock it marks the activity as stopped, and without the lock it writes the event from
    the record as that is by then.  The destructor's uniqueness test and its reset are two steps that hold the
    record's lock in between; a copy assignment lets go of the old record and joins the new one in two steps that
    take no lock. */
module Activities {
  import opened Collections
  import opened ActivityRecord

  type HandleId = nat
  type SharedId = nat

  /** Where a record lives: inside a handle, or in a reference-counted shared object. */
  datatype Cell = Own(h: HandleId) | Shr(x: SharedId)

  /** How far a report has come.  Once chosen, `attach` says whether the event gets the stored failure, and `seen`
      how many failures had been notified then. */
  datatype Stage = Choosing | Stopping(attach: bool, seen: nat) | Writing(attach: bool, seen: nat)

  /** What a handle's owner is in the middle of.  `last` means that the destructor reports.  `Joining` and `Lending`
      are the two sides of a copy assignment that has let go of the old record; `Dropping` and later are steps of
      the destructor. */
  datatype Phase =
    | Idle | Splitting | Joining(from: HandleId) | Lending(to: HandleId)
    | Reporting(last: bool, stage: Stage)
    | Dropping | Dying | Ended

  /** `target` is the pointer the handle works through. */
  datatype Handle = Handle(shared: Option<SharedId>, target: Cell, phase: Phase)

  /** `hr` is the HRESULT written, out of the stored failure if one is `attached`; the rest is the record's history
      by then, and how much of it had been `seen` by the choice. */
  datatype StopEvent = StopEvent(hr: HResult, attached: bool, seen: nat, history: History)

  /** The life of one started activity: where its record is, who has begun to report its stop, and the stop
      events emitted. */
  datatype Life = Life(at: Cell, reporter: Option<HandleId>, events: seq<StopEvent>)

  /** `locks` says whose destructor holds the lock of a shared record; all other locked sections are single steps. */
  datatype State = State(
    handles: map<HandleId, Handle>, data: map<Cell, Data>, refs: map<SharedId, nat>,
    locks: map<SharedId, HandleId>, activities: map<ActivityId, Life>)

  const START := State(map[], map[], map[], map[], map[])

  datatype Event =
    | New(h: HandleId)
    | StartActivity(h: HandleId, a: ActivityId)
    | NotifyFailure(h: HandleId, hr: HResult)
    | Stop(h: HandleId, hr: HResult)
    | ReportChooses(h: HandleId)
    | ReportStops(h: HandleId)
    | ReportWrites(h: HandleId)
    | SplitBegins(h: HandleId)
    | CopySelf(h: HandleId, x: SharedId, ok: bool)
    | CopyDrops(h: HandleId, from: HandleId, x: SharedId, ok: bool)
    | CopyJoins(h: HandleId)
    | MoveInto(h: HandleId, from: HandleId)
    | DestroyBegins(h: HandleId)
    | DestroyDrops(h: HandleId)
    | DestroyStops(h: HandleId)
    | Release(h: HandleId)

  predicate In(s: State, h: HandleId, p: Phase) {
    h in s.handles && s.handles[h].phase == p
  }

  predicate IsReporting(s: State, h: HandleId) { h in s.handles && s.handles[h].phase.Reporting? }

  predicate Chooses(s: State, h: HandleId) { IsReporting(s, h) && s.handles[h].phase.stage.Choosing? }

  predicate Stops(s: State, h: HandleId) { IsReporting(s, h) && s.handles[h].phase.stage.Stopping? }

  predicate Writes(s: State, h: HandleId) { IsReporting(s, h) && s.handles[h].phase.stage.Writing? }

  /** New, or moved out of: what the constructors and the generated move assignment move into. */
  predicate Vacant(s: State, h: HandleId) {
    && In(s, h, Idle) && s.handles[h].shared.None? && s.handles[h].target == Own(h)
    && Own(h) in s.data && s.data[Own(h)].status == NotStarted
  }

  predicate HasData(s: State, h: HandleId) { h in s.handles && s.handles[h].target in s.data }

  predicate HasRefs(s: State, h: HandleId) {
    h in s.handles && (s.handles[h].shared.Some? ==> s.handles[h].shared.value in s.refs)
  }

  /** LockExclusive would not wait. */
  predicate Unlocked(s: State, h: HandleId) {
    h in s.handles && (s.handles[h].shared.Some? ==> s.handles[h].shared.value !in s.locks)
  }

  /** A locked section on the record the handle works on can begin. */
  predicate MayLock(s: State, h: HandleId) { HasData(s, h) && Unlocked(s, h) }

  predicate MayCopy(s: State, h: HandleId, from: HandleId, x: SharedId) {
    && h != from && In(s, h, Idle) && (In(s, from, Idle) || In(s, from, Splitting))
    && HasData(s, h) && HasRefs(s, h) && HasRefs(s, from) && Own(from) in s.data && x !in s.refs
  }

  predicate Enabled(s: State, e: Event) {
    match e
    case New(h) => h !in s.handles
    case StartActivity(h, a) =>
      In(s, h, Idle) && MayLock(s, h) && a !in s.activities && !s.data[s.handles[h].target].status.Started?
    case NotifyFailure(h, _) => MayLock(s, h) && s.handles[h].phase != Ended
    case Stop(h, _) => In(s, h, Idle) && MayLock(s, h)
    case ReportChooses(h) => Chooses(s, h) && HasData(s, h)
    case ReportStops(h) => Stops(s, h) && MayLock(s, h)
    case ReportWrites(h) => Writes(s, h) && HasData(s, h)
    case SplitBegins(h) => In(s, h, Idle) && MayLock(s, h)
    case CopySelf(h, x, _) => In(s, h, Idle) && Own(h) in s.data && x !in s.refs
    case CopyDrops(h, from, x, _) => MayCopy(s, h, from, x)
    case CopyJoins(h) =>
      && h in s.handles && s.handles[h].phase.Joining?
      && HasRefs(s, s.handles[h].phase.from) && s.handles[s.handles[h].phase.from].shared.Some?
    case MoveInto(h, from) => Vacant(s, h) && In(s, from, Idle) && h != from && Own(from) in s.data
    case DestroyBegins(h) => In(s, h, Idle) && HasRefs(s, h) && Unlocked(s, h)
    case DestroyDrops(h) => In(s, h, Dropping) && HasRefs(s, h)
    case DestroyStops(h) => In(s, h, Dying) && HasData(s, h)
    case Release(h) => In(s, h, Ended) && HasRefs(s, h)
  }

  // ----- pieces of steps -----

  function SetPhase(s: State, h: HandleId, p: Phase): State
    requires h in s.handles
  {
    s.(handles := s.handles[h := s.handles[h].(phase := p)])
  }

  function SetData(s: State, c: Cell, d: Data): State { s.(data := s.data[c := d]) }

  /** The activity whose record is moved is told where it is now. */
  function Relocated(s: State, from: Cell, to: Cell): map<ActivityId, Life>
    requires from in s.data
  {
    var st := s.data[from].status;
    if st.Started? && st.a in s.activities then s.activities[st.a := s.activities[st.a].(at := to)] else s.activities
  }

  function MoveData(s: State, from: Cell, to: Cell): State
    requires from in s.data
  {
    s.(data := s.data[to := s.data[from]][from := MovedFrom(s.data[from])], activities := Relocated(s, from, to))
  }

  /** `shared_object::create` with the moved record of a handle that did not share. */
  function Promote(s: State, h: HandleId, x: SharedId): State
    requires h in s.handles && Own(h) in s.data
  {
    MoveData(s, Own(h), Shr(x)).(refs := s.refs[x := 1],
                                 handles := s.handles[h := s.handles[h].(shared := Some(x), target := Shr(x))])
  }

  /** `shared_object::reset`; the last reference deletes the record. */
  function Drop(s: State, h: HandleId): State
    requires HasRefs(s, h)
  {
    var hd := s.handles[h];
    if hd.shared.None? then s
    else
      var x := hd.shared.value;
      var s1 := s.(handles := s.handles[h := hd.(shared := None, target := Own(h))]);
      if s.refs[x] <= 1 then s1.(refs := s.refs - {x}, data := s.data - {Shr(x)})
      else s1.(refs := s.refs[x := s.refs[x] - 1])
  }

  function Attach(s: State, h: HandleId, x: SharedId): State
    requires h in s.handles && x in s.refs
  {
    s.(handles := s.handles[h := s.handles[h].(shared := Some(x), target := Shr(x))],
       refs := s.refs[x := s.refs[x] + 1])
  }

  function Lock(s: State, h: HandleId): State
    requires h in s.handles && s.handles[h].shared.Some?
  {
    SetPhase(s, h, Dropping).(locks := s.locks[s.handles[h].shared.value := h])
  }

  function Unlock(s: State, h: HandleId): State
    requires h in s.handles
  {
    SetPhase(s, h, Idle).(locks := if s.handles[h].shared.Some? then s.locks - {s.handles[h].shared.value} else s.locks)
  }

  function Lend(s: State, h: HandleId, from: HandleId): State
    requires h in s.handles && from in s.handles
  {
    SetPhase(SetPhase(s, from, Lending(h)), h, Joining(from))
  }

  /** Both sides of a copy go back to being idle. */
  function Returned(s: State, h: HandleId, from: HandleId): State
    requires h in s.handles && from in s.handles
  {
    SetPhase(SetPhase(s, h, Idle), from, Idle)
  }

  function Give(s: State, h: HandleId, from: HandleId): State
    requires h in s.handles && from in s.handles && Own(from) in s.data
  {
    var hd, source := s.handles[h], s.handles[from];
    var target := if source.shared.Some? then Shr(source.shared.value) else Own(h);
    MoveData(s, Own(from), Own(h)).(
      handles := s.handles[h := hd.(shared := source.shared, target := target)]
                          [from := source.(shared := None, target := Own(from))])
  }

  /** The handle and its own record disappear. */
  function Forget(s: State, h: HandleId): State { s.(handles := s.handles - {h}, data := s.data - {Own(h)}) }

  function Reporter(s: State, c: Cell, h: HandleId): map<ActivityId, Life>
    requires c in s.data
  {
    var st := s.data[c].status;
    if st.Started? && st.a in s.activities then s.activities[st.a := s.activities[st.a].(reporter := Some(h))]
    else s.activities
  }

  /** What the event says about the record as it is when the event is written. */
  function Written(d: Data, attach: bool, seen: nat): StopEvent {
    StopEvent(if attach then d.failure else d.result, attach, seen, d.history)
  }

  /** The stop event is written for whatever activity the record was last started for. */
  function Emit(s: State, c: Cell, attach: bool, seen: nat): map<ActivityId, Life>
    requires c in s.data
  {
    var d := s.data[c];
    if !d.status.NotStarted? && d.status.a in s.activities then
      s.activities[d.status.a := s.activities[d.status.a].(
        events := s.activities[d.status.a].events + [Written(d, attach, seen)])]
    else s.activities
  }

  /** `GetFailureInfo`, without the lock: the answer is a pointer to the failure stored in the record, or null. */
  function Choice(d: Data): Stage { Stopping(Attached(d).Some?, |d.history.notified|) }

  /** The first part of a copy assignment: the source shares its record, moved to x if it did not before. */
  function Source(s: State, h: HandleId, from: HandleId, x: SharedId): (r: State)
    requires MayCopy(s, h, from, x)
    ensures HasRefs(r, h) && from in r.handles
  {
    var s1 := SetPhase(s, from, Idle);
    if s.handles[from].shared.Some? then s1 else Promote(s1, from, x)
  }

  /** The source shares its record, and the target has let go of its own. */
  function AfterDrop(s: State, h: HandleId, from: HandleId, x: SharedId): State
    requires MayCopy(s, h, from, x)
  {
    Lend(Drop(Source(s, h, from, x), h), h, from)
  }

  function WhenStopped(d: Data): Data {
    if d.status.Started? then d.(status := Stopped(d.status.a)) else d
  }

  function Step(s: State, e: Event): State
    requires Enabled(s, e)
  {
    match e
    case New(h) =>
      s.(handles := s.handles[h := Handle(None, Own(h), Idle)], data := s.data[Own(h) := FRESH])
    case StartActivity(h, a) =>
      var c := s.handles[h].target;
      SetData(s, c, s.data[c].(status := Started(a))).(activities := s.activities[a := Life(c, None, [])])
    case NotifyFailure(h, hr) =>
      var c := s.handles[h].target;
      SetData(s, c, AfterNotify(s.data[c], hr))
    case Stop(h, hr) =>
      var c := s.handles[h].target;
      var d := AfterStop(s.data[c], hr);
      if d.expected == 0 then
        SetPhase(SetData(s, c, d), h, Reporting(false, Choosing)).(activities := Reporter(s, c, h))
      else SetData(s, c, d)
    case ReportChooses(h) =>
      var p := s.handles[h].phase;
      SetPhase(s, h, Reporting(p.last, Choice(s.data[s.handles[h].target])))
    case ReportStops(h) =>
      var p, c := s.handles[h].phase, s.handles[h].target;
      SetPhase(SetData(s, c, WhenStopped(s.data[c])), h, Reporting(p.last, Writing(p.stage.attach, p.stage.seen)))
    case ReportWrites(h) =>
      var p, c := s.handles[h].phase, s.handles[h].target;
      SetPhase(s, h, if p.last then Ended else Idle).(activities := Emit(s, c, p.stage.attach, p.stage.seen))
    case SplitBegins(h) =>
      var c := s.handles[h].target;
      SetPhase(SetData(s, c, AfterSplit(s.data[c])), h, Splitting)
    case CopySelf(h, x, ok) => if s.handles[h].shared.None? && ok then Promote(s, h, x) else s
    case CopyDrops(h, from, x, ok) =>
      if s.handles[from].shared.Some? || ok then AfterDrop(s, h, from, x)
      else SetPhase(s, from, Idle)
    case CopyJoins(h) =>
      var from := s.handles[h].phase.from;
      Attach(Returned(s, h, from), h, s.handles[from].shared.value)
    case MoveInto(h, from) => Give(s, h, from)
    case DestroyBegins(h) =>
      if s.handles[h].shared.Some? && s.refs[s.handles[h].shared.value] != 1 then Lock(s, h)
      else SetPhase(s, h, Dying)
    case DestroyDrops(h) => SetPhase(Drop(Unlock(s, h), h), h, Ended)
    case DestroyStops(h) =>
      var c := s.handles[h].target;
      if s.data[c].status.Started? then
        SetPhase(SetData(s, c, AfterUnhandled(s.data[c])), h, Reporting(true, Choosing))
          .(activities := Reporter(s, c, h))
      else SetPhase(s, h, Ended)
    case Release(h) => Forget(Drop(s, h), h)
  }

  /** The assertions that end the process: a stop beyond the expected count, and a split of an activity that is
      not running. */
  predicate FailsFast(s: State, e: Event)
    requires Enabled(s, e)
  {
    match e
    case Stop(h, _) => s.data[s.handles[h].target].expected < 1
    case DestroyStops(h) => s.data[s.handles[h].target].status.Started? && s.data[s.handles[h].target].expected < 1
    case SplitBegins(h) => !s.data[s.handles[h].target].status.Started?
    case _ => false
  }

  /** The handle is the only one through which its running activity can be reached. */
  predicate OnlyHandle(s: State, h: HandleId)
    requires HasData(s, h) && HasRefs(s, h)
  {
    && s.data[s.handles[h].target].status.Started?
    && (s.handles[h].shared.Some? ==> s.refs[s.handles[h].shared.value] == 1)
  }

  /** A destructor that has found the handle's record shared is about to let go of it. */
  predicate SharerIsDropping(s: State, h: HandleId)
    requires h in s.handles
  {
    exists k :: k in s.handles && s.handles[k].phase == Dropping && s.handles[k].shared == s.handles[h].shared
  }

  /** Letting go of the handle's record loses a running activity, now or when that destructor lets go as well. */
  predicate Orphans(s: State, h: HandleId)
    requires HasData(s, h) && HasRefs(s, h)
  {
    && s.data[s.handles[h].target].status.Started?
    && (s.handles[h].shared.Some? ==>
          var n := s.refs[s.handles[h].shared.value];
          n <= 1 || (n == 2 && SharerIsDropping(s, h)))
  }

  /** What the caller owes: start once, stop and split only a running activity whose expected stops are not used
      up, and do not copy over a running activity that nothing else is going to keep. */
  predicate Disciplined(s: State, e: Event)
    requires Enabled(s, e)
  {
    match e
    case StartActivity(h, _) => s.data[s.handles[h].target].expected >= 1
    case Stop(h, _) => s.data[s.handles[h].target].status.Started? && s.data[s.handles[h].target].expected >= 1
    case SplitBegins(h) =>
      s.data[s.handles[h].target].status.Started? && s.data[s.handles[h].target].expected >= 1
    case CopyDrops(h, from, _, ok) => (s.handles[from].shared.None? && !ok) || !Orphans(s, h)
    case _ => true
  }

  /** Events that cannot happen are skipped. */
  function Exec(s: State, es: seq<Event>): State
    decreases |es|
  {
    if es == [] then s else Exec(if Enabled(s, es[0]) then Step(s, es[0]) else s, es[1..])
  }

  predicate DisciplinedRun(s: State, es: seq<Event>)
    decreases |es|
  {
    es == [] ||
    (if Enabled(s, es[0]) then Disciplined(s, es[0]) && DisciplinedRun(Step(s, es[0]), es[1..])
     else DisciplinedRun(s, es[1..]))
  }
}
