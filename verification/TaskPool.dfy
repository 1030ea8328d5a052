/** Any number of tasks, each with one owner, run with arbitrary interleaving of their coroutine
    bodies and owners.  `Step` lets every actor move whenever its own program counter allows it,
    whatever the frame's memory looks like; `Faults` names what would go wrong in that move.
    The main results say that no reachable move is faulty, that every frame is destroyed once, and
    that a suspended client is resumed once. */
module TaskPool {
  import opened TaskPromise

  /** Where a coroutine body stands.  `Busy(f)` means it is inside an expression on task `f`. */
  datatype Body =
    | Executing
    | Busy(f: FrameId)
    | ValueBuilt
    | Catching
    | Captured
    | AtFinal
    | Delivering(c: Client)
    | InContext(c: Client)
    | Pooled(c: Client)
    | ContextCall(c: Client)
    | SettingFlag(c: Client)
    | Waking
    | MustDestroy
    | Finished

  /** The wait loop of `get()`. */
  datatype Loop = CheckFlag | CallWait | Blocked

  /** Where the owner of the task stands. */
  datatype Handle =
    | Idle
    | CheckingReady(m: Mode)
    | StoringResumer(m: Mode)
    | Exchanging(m: Mode)
    | Suspended(m: Mode)
    | Sleeping(at: Loop, completed: bool)
    | Resumed(wrongContext: bool)
    | Reading
    | Dropping
    | Destroying
    | Released

  /** What `client_await_suspend` returned, and what `client_await_resume` did. */
  datatype Wait = NotAsked | Stays | GoesOn
  datatype Result = Unread | Read(outcome: Outcome)

  /** The fields after `owner` are history: what has happened to the frame so far. */
  datatype Frame = Frame(
    promise: Promise, body: Body, handle: Handle, owner: Client,
    destroyed: nat, resumed: nat, wait: Wait,
    captured: bool, infoReleased: nat, result: Result)

  datatype Pool = Pool(com: bool, frames: map<FrameId, Frame>)

  datatype Event =
    // the owner of task f
    | Spawn(f: FrameId, c: Client)
    | Transfer(f: FrameId, c: Client)
    | BeginAwait(f: FrameId, m: Mode)
    | LoadWaiting(f: FrameId)
    | StoreResumer(f: FrameId)
    | ExchangeClient(f: FrameId)
    | TestFlag(f: FrameId)
    | WaitOnAddress(f: FrameId)
    | SpuriousWake(f: FrameId)
    | CheckContext(f: FrameId)
    | ReadResult(f: FrameId)
    | BeginDrop(f: FrameId)
    | ExchangeAbandoned(f: FrameId)
    | OwnerDestroy(f: FrameId)
    // the body of task f
    | BuildValue(f: FrameId)
    | BuildThrows(f: FrameId)
    | SetValue(f: FrameId)
    | CaptureInfo(f: FrameId, info: bool)
    | SetError(f: FrameId)
    | ExchangeCompleted(f: FrameId)
    | BodyDestroy(f: FrameId)
    | CallResumer(f: FrameId)
    | SetFlag(f: FrameId)
    | WakeSingle(f: FrameId)
    | ResumeHere(f: FrameId)
    | SubmitToPool(f: FrameId)
    | PoolRuns(f: FrameId)
    | EnterContext(f: FrameId)
    | CallbackRuns(f: FrameId)
    | CallbackFails(f: FrameId)

  // ----- transitions -----

  function NewFrame(c: Client): Frame {
    Frame(FRESH, Executing, Idle, c, 0, 0, NotAsked, false, 0, Unread)
  }

  /** `destroy()`: the holder's destructor releases captured error information. */
  function Destroy(fr: Frame): Frame {
    fr.(destroyed := fr.destroyed + 1,
        infoReleased := fr.infoReleased + if fr.promise.restricted then 1 else 0,
        promise := fr.promise.(restricted := false))
  }

  predicate Live(s: Pool, c: Client) {
    c.Coroutine? ==> c.f in s.frames && s.frames[c.f].destroyed == 0
  }

  /** A coroutine acts only between its own suspensions; parameters still held by a finished
      coroutine are dropped when its frame is destroyed. */
  predicate CanUse(s: Pool, c: Client) {
    c.Coroutine? ==> c.f in s.frames && s.frames[c.f].body == Executing
  }

  predicate TearsDown(s: Pool, c: Client) {
    c.Coroutine? && c.f in s.frames && s.frames[c.f].destroyed > 0
  }

  /** The part of an event's guard that its actor's own program counter decides. */
  predicate Allowed(fr: Frame, e: Event) {
    match e
    case Spawn(_, _) => false
    case Transfer(_, _) => fr.handle == Idle
    case BeginAwait(_, _) => fr.handle == Idle
    case LoadWaiting(_) => fr.handle.CheckingReady?
    case StoreResumer(_) => fr.handle.StoringResumer?
    case ExchangeClient(_) => fr.handle.Exchanging?
    case TestFlag(_) => fr.handle.Sleeping? && fr.handle.at == CheckFlag
    case WaitOnAddress(_) => fr.handle.Sleeping? && fr.handle.at == CallWait
    case SpuriousWake(_) => fr.handle.Sleeping? && fr.handle.at == Blocked
    case CheckContext(_) => fr.handle.Resumed?
    case ReadResult(_) => fr.handle == Reading
    case BeginDrop(_) => fr.handle == Idle
    case ExchangeAbandoned(_) => fr.handle == Dropping
    case OwnerDestroy(_) => fr.handle == Destroying
    case BuildValue(_) => fr.body == Executing
    case BuildThrows(_) => fr.body == Executing
    case SetValue(_) => fr.body == ValueBuilt
    case CaptureInfo(_, _) => fr.body == Catching
    case SetError(_) => fr.body == Captured
    case ExchangeCompleted(_) => fr.body == AtFinal
    case BodyDestroy(_) => fr.body == MustDestroy
    case CallResumer(_) => fr.body.Delivering?
    case SetFlag(_) => fr.body.SettingFlag?
    case WakeSingle(_) => fr.body == Waking
    case ResumeHere(_) => fr.body.InContext?
    case SubmitToPool(_) => fr.body.InContext?
    case PoolRuns(_) => fr.body.Pooled?
    case EnterContext(_) => fr.body.InContext?
    case CallbackRuns(_) => fr.body.ContextCall?
    case CallbackFails(_) => fr.body.ContextCall?
  }

  /** The body up to its final suspend, and what it does about the client after that. */
  predicate EarlyEvent(e: Event) {
    e.BuildValue? || e.BuildThrows? || e.SetValue? || e.CaptureInfo? || e.SetError? || e.ExchangeCompleted?
  }

  predicate ContextEvent(e: Event) {
    e.ResumeHere? || e.SubmitToPool? || e.PoolRuns? || e.EnterContext? || e.CallbackRuns? || e.CallbackFails?
  }

  predicate LateEvent(e: Event) {
    e.BodyDestroy? || e.CallResumer? || e.SetFlag? || e.WakeSingle? || ContextEvent(e)
  }

  predicate BodyEvent(e: Event) { EarlyEvent(e) || LateEvent(e) }

  predicate Enabled(s: Pool, e: Event) {
    if e.Spawn? then e.f !in s.frames && CanUse(s, e.c)
    else
      && e.f in s.frames
      && Allowed(s.frames[e.f], e)
      && (e.Transfer? ==> CanUse(s, s.frames[e.f].owner) && Live(s, e.c))
      && (e.BeginAwait? ==> CanUse(s, s.frames[e.f].owner))
      && (e.BeginDrop? ==> CanUse(s, s.frames[e.f].owner) || TearsDown(s, s.frames[e.f].owner))
  }

  /** The waiting client runs again. */
  function Resume(fr: Frame, wrongContext: bool): Frame {
    fr.(body := Finished,
        handle := if fr.handle.Suspended? then Resumed(wrongContext) else fr.handle,
        resumed := fr.resumed + 1)
  }

  /** What the event does to the frame it names. */
  function Act(com: bool, fr: Frame, e: Event): Frame
    requires Allowed(fr, e)
  {
    var p := fr.promise;
    match e
    case Transfer(_, c) => fr.(owner := c)
    case BeginAwait(_, m) => fr.(handle := CheckingReady(m))
    case LoadWaiting(_) =>
      fr.(handle := if IsReady(p) then Resumed(false) else StoringResumer(fr.handle.m))
    case StoreResumer(_) =>
      fr.(promise := AfterStoreResumer(p, fr.handle.m), handle := Exchanging(fr.handle.m))
    case ExchangeClient(_) =>
      fr.(promise := AfterSuspend(p, fr.owner),
          wait := if SuspendWaits(p) then Stays else GoesOn,
          handle := if !SuspendWaits(p) then Resumed(false)
                    else if fr.handle.m == Sync then Sleeping(CheckFlag, false)
                    else Suspended(fr.handle.m))
    case TestFlag(_) =>
      fr.(handle := if fr.handle.completed then Resumed(false) else Sleeping(CallWait, false))
    case WaitOnAddress(_) =>
      fr.(handle := fr.handle.(at := if fr.handle.completed then CheckFlag else Blocked))
    case SpuriousWake(_) =>
      fr.(handle := fr.handle.(at := CheckFlag))
    case CheckContext(_) =>
      fr.(handle := if fr.handle.wrongContext then Dropping else Reading)
    case ReadResult(_) => fr.(handle := Dropping, result := Read(OutcomeOf(p, com)))
    case BeginDrop(_) => fr.(handle := Dropping)
    case ExchangeAbandoned(_) =>
      fr.(promise := AfterAbandon(p), handle := if AbandonDestroys(p) then Destroying else Released)
    case OwnerDestroy(_) => Destroy(fr).(handle := Released)
    case BuildValue(_) => fr.(body := ValueBuilt)
    case BuildThrows(_) => fr.(body := Catching)
    case SetValue(_) => fr.(promise := AfterStatus(p, Value), body := AtFinal)
    case CaptureInfo(_, info) =>
      fr.(promise := AfterCapture(p, com, info), captured := fr.captured || (com && info), body := Captured)
    case SetError(_) => fr.(promise := AfterStatus(p, Error), body := AtFinal)
    case ExchangeCompleted(_) =>
      fr.(promise := AfterFinal(p),
          body := match p.waiting
                  case AbandonedPtr => MustDestroy
                  case ClientPtr(c) => Delivering(c)
                  case RunningPtr => Finished
                  case CompletedPtr => Finished)
    case BodyDestroy(_) => Destroy(fr).(body := Finished)
    case CallResumer(_) =>
      if p.resumer == WakeByAddress then fr.(body := SettingFlag(fr.body.c))
      else if p.resumer == ResumeInContext then fr.(body := InContext(fr.body.c))
      else Resume(fr, false)
    case SetFlag(_) =>
      fr.(body := Waking, resumed := fr.resumed + 1,
          handle := if fr.handle.Sleeping? then fr.handle.(completed := true) else fr.handle)
    case WakeSingle(_) =>
      fr.(body := Finished,
          handle := if fr.handle.Sleeping? && fr.handle.at == Blocked then fr.handle.(at := CheckFlag) else fr.handle)
    case ResumeHere(_) => Resume(fr, false)
    case SubmitToPool(_) => fr.(body := Pooled(fr.body.c))
    case PoolRuns(_) => fr.(body := ContextCall(fr.body.c))
    case EnterContext(_) => fr.(body := ContextCall(fr.body.c))
    case CallbackRuns(_) => Resume(fr, false)
    case CallbackFails(_) => Resume(fr, true)
  }

  /** Task f now holds `fr`.  The expression on f occupies the owning coroutine from its first event
      until the task is released. */
  function Replace(s: Pool, f: FrameId, fr: Frame, starts: bool): Pool {
    var s' := s.(frames := s.frames[f := fr]);
    var c := fr.owner;
    if !c.Coroutine? || c.f !in s'.frames then s'
    else if starts && s'.frames[c.f].body == Executing then
      s'.(frames := s'.frames[c.f := s'.frames[c.f].(body := Busy(f))])
    else if fr.handle == Released && s'.frames[c.f].body == Busy(f) then
      s'.(frames := s'.frames[c.f := s'.frames[c.f].(body := Executing)])
    else s'
  }

  function Step(s: Pool, e: Event): Pool
    requires Enabled(s, e)
  {
    if e.Spawn? then s.(frames := s.frames[e.f := NewFrame(e.c)])
    else Replace(s, e.f, Act(s.com, s.frames[e.f], e), e.BeginAwait? || e.BeginDrop?)
  }

  /** Runs: events that are not enabled do nothing, so every interleaving is some list of events. */
  function Exec(s: Pool, es: seq<Event>): Pool
    decreases |es|
  {
    if |es| == 0 then s
    else Exec(if Enabled(s, es[0]) then Step(s, es[0]) else s, es[1..])
  }

  function Start(com: bool): Pool { Pool(com, map[]) }

  // ----- what could go wrong -----

  datatype Fault =
    | UseAfterDestroy
    | DestroyedTwice
    | UninitialisedResumer
    | AssertionFailed
    | ReadEmptyHolder
    | RestoredAfterRelease
    | ClientGone
    | OwnerGone

  predicate TouchesPromise(e: Event) {
    e.LoadWaiting? || e.StoreResumer? || e.ExchangeClient? || e.ReadResult? || e.ExchangeAbandoned? ||
    e.OwnerDestroy? || e.BuildValue? || e.BuildThrows? || e.SetValue? || e.CaptureInfo? || e.SetError? ||
    e.ExchangeCompleted? || e.BodyDestroy? || e.CallResumer?
  }

  /** The body dereferences the waiting client: its flag, its awaiter, or its coroutine. */
  predicate TouchesClient(fr: Frame, e: Event) {
    e.SetFlag? || e.ResumeHere? || e.SubmitToPool? || e.PoolRuns? || e.EnterContext? ||
    e.CallbackRuns? || e.CallbackFails? ||
    (e.CallResumer? && fr.promise.resumer == NullResumer)
  }

  /** The awaiter lives in the owner's own frame. */
  predicate UsesAwaiter(e: Event) {
    e.LoadWaiting? || e.StoreResumer? || e.ExchangeClient? || e.CheckContext? || e.ReadResult?
  }

  predicate ClientPresent(s: Pool, fr: Frame) {
    (fr.handle.Suspended? || (fr.handle.Sleeping? && !fr.handle.completed)) && Live(s, fr.owner)
  }

  predicate AssertionHolds(fr: Frame, e: Event) {
    var p := fr.promise;
    match e
    case LoadWaiting(_) => ReadyAssertion(p)
    case ExchangeClient(_) => ReadyAssertion(p)
    case SetValue(_) => p.status == Empty
    case CaptureInfo(_, _) => !p.restricted
    case SetError(_) => p.status == Empty
    case ExchangeCompleted(_) => p.waiting != CompletedPtr
    case ReadResult(_) => p.status == Value || p.status == Error
    case CallResumer(_) => fr.body.Delivering? && fr.body.c == fr.owner
    case _ => true
  }

  function Faults(s: Pool, e: Event): set<Fault>
    requires Enabled(s, e)
  {
    if e.Spawn? then {} else
      var fr := s.frames[e.f];
      (if TouchesPromise(e) && fr.destroyed > 0 then {UseAfterDestroy} else {})
      + (if (e.OwnerDestroy? || e.BodyDestroy?) && fr.destroyed > 0 then {DestroyedTwice} else {})
      + (if e.CallResumer? && fr.promise.resumer == Uninitialised then {UninitialisedResumer} else {})
      + (if !AssertionHolds(fr, e) then {AssertionFailed} else {})
      + (if e.ReadResult? && fr.promise.status == Empty then {ReadEmptyHolder} else {})
      + (if e.ReadResult? && fr.promise.status == Error && fr.captured && !fr.promise.restricted
         then {RestoredAfterRelease} else {})
      + (if TouchesClient(fr, e) && !ClientPresent(s, fr) then {ClientGone} else {})
      + (if UsesAwaiter(e) && !Live(s, fr.owner) then {OwnerGone} else {})
  }

  // ----- the invariant -----

  predicate BeforeFinal(b: Body) {
    b == Executing || b.Busy? || b == ValueBuilt || b == Catching || b == Captured || b == AtFinal
  }

  predicate Gone(b: Body) { b == Finished || b == Waking }

  /** The body holds the client pointer it exchanged out and has yet to resume it. */
  predicate Carrying(b: Body, c: Client, m: Mode) {
    match b
    case Delivering(d) => d == c
    case InContext(d) => d == c && m == Apartment
    case Pooled(d) => d == c && m == Apartment
    case ContextCall(d) => d == c && m == Apartment
    case SettingFlag(d) => d == c && m == Sync
    case _ => false
  }

  predicate Unclaimed(fr: Frame) {
    (BeforeFinal(fr.body) && fr.promise.waiting == RunningPtr) ||
    (fr.body == Finished && fr.promise.waiting == CompletedPtr)
  }

  predicate Awaited(fr: Frame, m: Mode) {
    fr.promise.resumer == ResumerOf(m) && fr.wait == Stays && fr.resumed == 0 &&
    ((BeforeFinal(fr.body) && fr.promise.waiting == ClientPtr(fr.owner)) ||
     (fr.promise.waiting == CompletedPtr && Carrying(fr.body, fr.owner, m)))
  }

  predicate Claimable(fr: Frame) {
    Gone(fr.body) && (fr.promise.waiting == CompletedPtr || fr.promise.waiting == ClientPtr(fr.owner))
  }

  predicate HandleInv(fr: Frame) {
    match fr.handle
    case Idle => fr.promise.resumer == Uninitialised && Unclaimed(fr) && fr.wait == NotAsked
    case CheckingReady(_) => fr.promise.resumer == Uninitialised && Unclaimed(fr) && fr.wait == NotAsked
    case StoringResumer(_) => fr.promise.resumer == Uninitialised && Unclaimed(fr) && fr.wait == NotAsked
    case Exchanging(m) => fr.promise.resumer == ResumerOf(m) && Unclaimed(fr) && fr.wait == NotAsked
    case Suspended(m) => m != Sync && Awaited(fr, m)
    case Sleeping(at, completed) =>
      if !completed then Awaited(fr, Sync)
      else fr.wait == Stays && Gone(fr.body) && fr.promise.waiting == CompletedPtr &&
           (at == Blocked ==> fr.body == Waking)
    case Resumed(_) => Claimable(fr)
    case Reading => Claimable(fr)
    case Dropping => (Unclaimed(fr) && fr.wait == NotAsked) || Claimable(fr)
    case Destroying => Gone(fr.body) && fr.promise.waiting == AbandonedPtr
    case Released =>
      (BeforeFinal(fr.body) && fr.promise.waiting == AbandonedPtr) ||
      (fr.body == MustDestroy && fr.promise.waiting == CompletedPtr) ||
      Gone(fr.body)
  }

  predicate HolderInv(fr: Frame) {
    && (fr.promise.status == Empty <==> BeforeFinal(fr.body) && fr.body != AtFinal)
    && (fr.body == Executing || fr.body.Busy? || fr.body == ValueBuilt || fr.body == Catching ==> !fr.captured)
    && (fr.promise.restricted <==> fr.captured && fr.destroyed == 0)
    && fr.infoReleased == (if fr.captured && fr.destroyed == 1 then 1 else 0)
  }

  predicate HistoryInv(com: bool, fr: Frame) {
    && fr.destroyed == (if fr.handle == Released && Gone(fr.body) then 1 else 0)
    && (fr.wait == Stays && !fr.handle.Suspended? && !(fr.handle.Sleeping? && !fr.handle.completed)
        ==> fr.resumed == 1)
    && (fr.wait != Stays ==> fr.resumed == 0)
    && (fr.result.Read? ==>
          (fr.handle == Dropping || fr.handle == Destroying || fr.handle == Released) && Gone(fr.body) &&
          fr.result.outcome == (if fr.promise.status == Value then Returned else Rethrown(fr.captured)))
    && (fr.captured ==> com)
  }

  predicate FrameInv(com: bool, fr: Frame) { HandleInv(fr) && HolderInv(fr) && HistoryInv(com, fr) }

  /** The owner is inside an expression on the task. */
  predicate Active(h: Handle) { h != Idle && h != Released }

  predicate OwnerInv(s: Pool, f: FrameId)
    requires f in s.frames
  {
    var fr := s.frames[f];
    fr.owner.Coroutine? ==>
      fr.owner.f in s.frames &&
      (Active(fr.handle) ==>
        s.frames[fr.owner.f].body == Busy(f) ||
        ((fr.handle == Dropping || fr.handle == Destroying) && s.frames[fr.owner.f].destroyed > 0))
  }

  predicate BusyInv(s: Pool, g: FrameId)
    requires g in s.frames
  {
    var b := s.frames[g].body;
    b.Busy? ==> b.f in s.frames && s.frames[b.f].owner == Coroutine(g) && Active(s.frames[b.f].handle)
  }

  ghost predicate Coupled(s: Pool) {
    && (forall f :: f in s.frames ==> OwnerInv(s, f))
    && (forall f :: f in s.frames ==> BusyInv(s, f))
  }

  ghost predicate Inv(s: Pool) {
    (forall f :: f in s.frames ==> FrameInv(s.com, s.frames[f])) && Coupled(s)
  }

  // ----- one step keeps the invariant -----

  lemma OwnerKeepsHandle(com: bool, fr: Frame, e: Event)
    requires Allowed(fr, e) && !BodyEvent(e) && FrameInv(com, fr)
    ensures HandleInv(Act(com, fr, e))
  {
  }

  lemma EarlyKeepsHandle(com: bool, fr: Frame, e: Event)
    requires Allowed(fr, e) && EarlyEvent(e) && FrameInv(com, fr)
    ensures HandleInv(Act(com, fr, e))
  {
  }

  lemma ContextKeepsHandle(com: bool, fr: Frame, e: Event)
    requires Allowed(fr, e) && ContextEvent(e) && FrameInv(com, fr)
    ensures HandleInv(Act(com, fr, e))
  {
  }

  lemma LateKeepsHandle(com: bool, fr: Frame, e: Event)
    requires Allowed(fr, e) && LateEvent(e) && FrameInv(com, fr)
    ensures HandleInv(Act(com, fr, e))
  {
    if ContextEvent(e) { ContextKeepsHandle(com, fr, e); }
  }

  lemma EarlyKeepsHolder(com: bool, fr: Frame, e: Event)
    requires Allowed(fr, e) && EarlyEvent(e) && FrameInv(com, fr)
    ensures HolderInv(Act(com, fr, e))
  {
  }

  lemma LaterKeepsHolder(com: bool, fr: Frame, e: Event)
    requires Allowed(fr, e) && !EarlyEvent(e) && FrameInv(com, fr)
    ensures HolderInv(Act(com, fr, e))
  {
  }

  lemma OwnerKeepsHistory(com: bool, fr: Frame, e: Event)
    requires Allowed(fr, e) && !BodyEvent(e) && FrameInv(com, fr)
    ensures HistoryInv(com, Act(com, fr, e))
  {
  }

  lemma EarlyKeepsHistory(com: bool, fr: Frame, e: Event)
    requires Allowed(fr, e) && EarlyEvent(e) && FrameInv(com, fr)
    ensures HistoryInv(com, Act(com, fr, e))
  {
  }

  lemma ContextKeepsHistory(com: bool, fr: Frame, e: Event)
    requires Allowed(fr, e) && ContextEvent(e) && FrameInv(com, fr)
    ensures HistoryInv(com, Act(com, fr, e))
  {
  }

  lemma LateKeepsHistory(com: bool, fr: Frame, e: Event)
    requires Allowed(fr, e) && LateEvent(e) && FrameInv(com, fr)
    ensures HistoryInv(com, Act(com, fr, e))
  {
    if ContextEvent(e) { ContextKeepsHistory(com, fr, e); }
  }

  lemma ActKeepsFrame(com: bool, fr: Frame, e: Event)
    requires Allowed(fr, e) && FrameInv(com, fr)
    ensures FrameInv(com, Act(com, fr, e))
  {
    if EarlyEvent(e) { EarlyKeepsHandle(com, fr, e); }
    else if LateEvent(e) { LateKeepsHandle(com, fr, e); }
    else { OwnerKeepsHandle(com, fr, e); }
    if EarlyEvent(e) { EarlyKeepsHolder(com, fr, e); } else { LaterKeepsHolder(com, fr, e); }
    if EarlyEvent(e) { EarlyKeepsHistory(com, fr, e); }
    else if LateEvent(e) { LateKeepsHistory(com, fr, e); }
    else { OwnerKeepsHistory(com, fr, e); }
  }

  lemma BodySwitch(com: bool, fr: Frame, b: Body)
    requires FrameInv(com, fr) && (fr.body == Executing || fr.body.Busy?) && (b == Executing || b.Busy?)
    ensures FrameInv(com, fr.(body := b))
  {
  }

  /** What the owners of other tasks can see of one event on a frame. */
  predicate Shape(fr: Frame, fr': Frame, starts: bool) {
    && (fr'.owner == fr.owner || (fr.handle == Idle && fr'.handle == Idle))
    && (starts ==> fr.handle == Idle && Active(fr'.handle) && fr'.body == fr.body)
    && (!starts && Active(fr'.handle) ==> Active(fr.handle))
    && (Active(fr.handle) && !Active(fr'.handle) ==> fr'.handle == Released)
    && ((fr.handle == Dropping || fr.handle == Destroying) && Active(fr'.handle)
        ==> fr'.handle == Dropping || fr'.handle == Destroying)
    && (fr.body.Busy? || fr'.body.Busy? ==> fr'.body == fr.body)
    && fr'.destroyed >= fr.destroyed
  }

  lemma ActShape(com: bool, fr: Frame, e: Event)
    requires Allowed(fr, e)
    ensures Shape(fr, Act(com, fr, e), e.BeginAwait? || e.BeginDrop?)
  {
  }

  lemma ReplaceKeepsFrame(s: Pool, f: FrameId, fr: Frame, starts: bool, h: FrameId)
    requires FrameInv(s.com, fr) && (h != f ==> h in s.frames && FrameInv(s.com, s.frames[h]))
    requires h in Replace(s, f, fr, starts).frames
    ensures FrameInv(s.com, Replace(s, f, fr, starts).frames[h])
  {
    var g := if h == f then fr else s.frames[h];
    if g.body == Executing { BodySwitch(s.com, g, Busy(f)); }
    if g.body == Busy(f) { BodySwitch(s.com, g, Executing); }
  }

  lemma ReplaceKeepsFrames(s: Pool, f: FrameId, fr: Frame, starts: bool)
    requires Inv(s) && FrameInv(s.com, fr)
    ensures forall h :: h in Replace(s, f, fr, starts).frames ==> FrameInv(s.com, Replace(s, f, fr, starts).frames[h])
  {
    var s' := Replace(s, f, fr, starts);
    forall h | h in s'.frames ensures FrameInv(s.com, s'.frames[h]) { ReplaceKeepsFrame(s, f, fr, starts, h); }
  }

  predicate MayStart(s: Pool, c: Client, h: Handle) {
    CanUse(s, c) || (TearsDown(s, c) && h == Dropping)
  }

  lemma ReplaceKeepsOwner(s: Pool, f: FrameId, fr: Frame, starts: bool, h: FrameId)
    requires Coupled(s) && f in s.frames && Shape(s.frames[f], fr, starts)
    requires fr.owner != s.frames[f].owner ==> Live(s, fr.owner)
    requires starts ==> MayStart(s, fr.owner, fr.handle)
    requires h in s.frames
    ensures OwnerInv(Replace(s, f, fr, starts), h)
  {
    assert OwnerInv(s, h);
    assert OwnerInv(s, f);
  }

  lemma ReplaceKeepsBusy(s: Pool, f: FrameId, fr: Frame, starts: bool, h: FrameId)
    requires Coupled(s) && f in s.frames && Shape(s.frames[f], fr, starts)
    requires h in s.frames
    ensures BusyInv(Replace(s, f, fr, starts), h)
  {
    assert BusyInv(s, h);
    assert OwnerInv(s, f);
  }

  lemma StepKeepsCoupled(s: Pool, e: Event)
    requires Enabled(s, e) && Coupled(s)
    ensures Coupled(Step(s, e))
  {
    var s' := Step(s, e);
    forall h | h in s'.frames
      ensures OwnerInv(s', h) && BusyInv(s', h)
    {
      if e.Spawn? {
        assert h in s.frames ==> OwnerInv(s, h) && BusyInv(s, h);
      } else {
        var fr := s.frames[e.f];
        var fr' := Act(s.com, fr, e);
        var starts := e.BeginAwait? || e.BeginDrop?;
        ActShape(s.com, fr, e);
        EventMayStart(s, e);
        ReplaceKeepsOwner(s, e.f, fr', starts, h);
        ReplaceKeepsBusy(s, e.f, fr', starts, h);
      }
    }
  }

  lemma EventMayStart(s: Pool, e: Event)
    requires Enabled(s, e) && !e.Spawn?
    ensures Act(s.com, s.frames[e.f], e).owner != s.frames[e.f].owner ==> Live(s, Act(s.com, s.frames[e.f], e).owner)
    ensures e.BeginAwait? || e.BeginDrop? ==>
              MayStart(s, Act(s.com, s.frames[e.f], e).owner, Act(s.com, s.frames[e.f], e).handle)
  {
  }

  lemma StepKeepsInv(s: Pool, e: Event)
    requires Enabled(s, e) && Inv(s)
    ensures Inv(Step(s, e))
  {
    StepKeepsCoupled(s, e);
    if !e.Spawn? {
      ActKeepsFrame(s.com, s.frames[e.f], e);
      ReplaceKeepsFrames(s, e.f, Act(s.com, s.frames[e.f], e), e.BeginAwait? || e.BeginDrop?);
    }
  }

  lemma ClientWaits(com: bool, fr: Frame, e: Event)
    requires Allowed(fr, e) && FrameInv(com, fr) && TouchesClient(fr, e)
    ensures fr.handle.Suspended? || (fr.handle.Sleeping? && !fr.handle.completed)
  {
  }

  /** A waiting client is where the body expects it; a waiting coroutine's frame is still there. */
  lemma ClientIsPresent(s: Pool, e: Event)
    requires Enabled(s, e) && Inv(s) && !e.Spawn? && TouchesClient(s.frames[e.f], e)
    ensures ClientPresent(s, s.frames[e.f])
  {
    ClientWaits(s.com, s.frames[e.f], e);
    OwnerIsLive(s, e.f);
  }

  /** A coroutine inside an await is still before its final suspend, so its frame cannot be destroyed. */
  lemma OwnerIsLive(s: Pool, f: FrameId)
    requires Inv(s) && f in s.frames && Active(s.frames[f].handle)
    requires s.frames[f].handle != Dropping && s.frames[f].handle != Destroying
    ensures Live(s, s.frames[f].owner)
  {
    assert OwnerInv(s, f);
    if s.frames[f].owner.Coroutine? {
      assert FrameInv(s.com, s.frames[s.frames[f].owner.f]);
    }
  }

  lemma FrameNoFault(com: bool, fr: Frame, e: Event)
    requires Allowed(fr, e) && FrameInv(com, fr)
    ensures TouchesPromise(e) ==> fr.destroyed == 0
    ensures e.CallResumer? ==> fr.promise.resumer != Uninitialised
    ensures AssertionHolds(fr, e)
    ensures e.ReadResult? ==> fr.promise.status != Empty && fr.promise.restricted == fr.captured
  {
  }

  lemma AwaiterOwnerIsLive(s: Pool, e: Event)
    requires Enabled(s, e) && Inv(s) && !e.Spawn? && UsesAwaiter(e)
    ensures Live(s, s.frames[e.f].owner)
  {
    OwnerIsLive(s, e.f);
  }

  lemma NoFault(s: Pool, e: Event)
    requires Enabled(s, e) && Inv(s)
    ensures Faults(s, e) == {}
  {
    if !e.Spawn? {
      var fr := s.frames[e.f];
      assert FrameInv(s.com, fr);
      FrameNoFault(s.com, fr, e);
      if TouchesClient(fr, e) { ClientIsPresent(s, e); }
      if UsesAwaiter(e) { AwaiterOwnerIsLive(s, e); }
    }
  }

  // ----- results over every run -----

  lemma {:induction false} RunKeepsInv(s: Pool, es: seq<Event>)
    requires Inv(s)
    ensures Inv(Exec(s, es))
    decreases |es|
  {
    if |es| > 0 {
      if Enabled(s, es[0]) { StepKeepsInv(s, es[0]); }
      RunKeepsInv(if Enabled(s, es[0]) then Step(s, es[0]) else s, es[1..]);
    }
  }

  /** After any run, no actor's next move touches a destroyed frame, destroys one again, calls through
      the uninitialised resumer, breaks an assertion, reads an empty holder, restores released error
      information, or touches a client that is not waiting. */
  lemma EveryMoveIsSafe(com: bool, es: seq<Event>, e: Event)
    requires Enabled(Exec(Start(com), es), e)
    ensures Faults(Exec(Start(com), es), e) == {}
  {
    RunKeepsInv(Start(com), es);
    NoFault(Exec(Start(com), es), e);
  }

  /** A frame is destroyed exactly when its body has left it and its owner has let go, and captured error
      information is released exactly then. */
  lemma DestroyedExactlyOnce(com: bool, es: seq<Event>, f: FrameId)
    requires f in Exec(Start(com), es).frames
    ensures var fr := Exec(Start(com), es).frames[f];
            && fr.destroyed == (if Gone(fr.body) && fr.handle == Released then 1 else 0)
            && fr.infoReleased == (if fr.captured then fr.destroyed else 0)
  {
    RunKeepsInv(Start(com), es);
  }

  /** A client told to wait is resumed at most once, and has been resumed once it is past the wait; a
      client told to go on is never resumed. */
  lemma ResumedExactlyOnce(com: bool, es: seq<Event>, f: FrameId)
    requires f in Exec(Start(com), es).frames
    ensures var fr := Exec(Start(com), es).frames[f];
            var waiting := fr.handle.Suspended? || (fr.handle.Sleeping? && !fr.handle.completed);
            && (waiting ==> fr.wait == Stays)
            && fr.resumed == (if fr.wait == Stays && !waiting then 1 else 0)
  {
    RunKeepsInv(Start(com), es);
  }

  /** What the client read is what the body left: the value, or the exception with the error
      information that was captured with it. */
  lemma ReadsWhatTheBodyLeft(com: bool, es: seq<Event>, f: FrameId)
    requires f in Exec(Start(com), es).frames && Exec(Start(com), es).frames[f].result.Read?
    ensures var fr := Exec(Start(com), es).frames[f];
            && fr.promise.status != Empty
            && fr.result.outcome == (if fr.promise.status == Value then Returned else Rethrown(fr.captured))
  {
    RunKeepsInv(Start(com), es);
  }

  lemma CheckMeansDone(com: bool, fr: Frame)
    requires FrameInv(com, fr) && fr.handle.CheckingReady?
    ensures IsReady(fr.promise) ==> fr.body == Finished && fr.promise.status != Empty
    ensures !IsReady(fr.promise) ==> BeforeFinal(fr.body) && fr.promise.waiting == RunningPtr
    ensures fr.resumed == 0 && fr.destroyed == 0
  {
  }

  /** The answer `client_await_ready` gives: yes exactly when the body has left the frame for good.  Then the holder
      is full and nobody will resume the client; otherwise the body has its final exchange before it. */
  lemma ReadyMeansDone(com: bool, es: seq<Event>, f: FrameId)
    requires Enabled(Exec(Start(com), es), LoadWaiting(f))
    ensures var fr := Exec(Start(com), es).frames[f];
            && (IsReady(fr.promise) ==> fr.body == Finished && fr.promise.status != Empty)
            && (!IsReady(fr.promise) ==> BeforeFinal(fr.body) && fr.promise.waiting == RunningPtr)
            && fr.resumed == 0 && fr.destroyed == 0
  {
    RunKeepsInv(Start(com), es);
    CheckMeansDone(Exec(Start(com), es).com, Exec(Start(com), es).frames[f]);
  }

  /** An event on one task leaves every other frame alone, except that the owning coroutine enters or
      leaves the expression on that task. */
  lemma OthersUntouched(s: Pool, e: Event, h: FrameId)
    requires Enabled(s, e) && h in s.frames && !e.Spawn?
    ensures h in Step(s, e).frames
    ensures var base := if h == e.f then Act(s.com, s.frames[h], e) else s.frames[h];
            var fr := Step(s, e).frames[h];
            fr == base || ((base.body == Executing || base.body.Busy?) &&
                           (fr.body == Executing || fr.body.Busy?) && fr == base.(body := fr.body))
  {
    var act := Act(s.com, s.frames[e.f], e);
  }

  lemma ActSetsHolderOnce(com: bool, fr: Frame, e: Event)
    requires Allowed(fr, e) && FrameInv(com, fr) && fr.promise.status != Empty
    ensures Act(com, fr, e).promise.status == fr.promise.status
  {
  }

  /** No event changes a holder that is no longer empty. */
  lemma HolderSetOnce(s: Pool, e: Event, f: FrameId)
    requires Inv(s) && Enabled(s, e) && f in s.frames && s.frames[f].promise.status != Empty
    ensures f in Step(s, e).frames && Step(s, e).frames[f].promise.status == s.frames[f].promise.status
  {
    if !e.Spawn? {
      OthersUntouched(s, e, f);
      if e.f == f { ActSetsHolderOnce(s.com, s.frames[f], e); }
    }
  }

  // ----- no lost wakeup -----

  /** How many moves of its own a body past its user code can still make. */
  function Rank(b: Body): nat {
    match b
    case AtFinal => 6
    case Delivering(_) => 5
    case InContext(_) => 4
    case Pooled(_) => 3
    case ContextCall(_) => 2
    case SettingFlag(_) => 2
    case Waking => 1
    case MustDestroy => 1
    case _ => 0
  }

  predicate PastUserCode(b: Body) { Rank(b) > 0 || b == Finished }

  /** A move such a body can make now. */
  function NextMove(f: FrameId, b: Body): Event {
    match b
    case AtFinal => ExchangeCompleted(f)
    case Delivering(_) => CallResumer(f)
    case InContext(_) => EnterContext(f)
    case Pooled(_) => PoolRuns(f)
    case ContextCall(_) => CallbackFails(f)
    case SettingFlag(_) => SetFlag(f)
    case Waking => WakeSingle(f)
    case _ => BodyDestroy(f)
  }

  lemma ActAdvancesBody(com: bool, fr: Frame, e: Event)
    requires Allowed(fr, e) && PastUserCode(fr.body)
    ensures PastUserCode(Act(com, fr, e).body)
    ensures var after := Rank(Act(com, fr, e).body);
            if BodyEvent(e) then after < Rank(fr.body) else after == Rank(fr.body)
  {
  }

  /** Past its user code a body always has a move until it is finished, each of its moves brings it
      closer, and nobody else's move sets it back. */
  lemma BodyAlwaysFinishes(s: Pool, f: FrameId, e: Event)
    requires f in s.frames && PastUserCode(s.frames[f].body) && Enabled(s, e)
    ensures Rank(s.frames[f].body) > 0 ==> Enabled(s, NextMove(f, s.frames[f].body))
    ensures f in Step(s, e).frames && PastUserCode(Step(s, e).frames[f].body)
    ensures var before, after := Rank(s.frames[f].body), Rank(Step(s, e).frames[f].body);
            if BodyEvent(e) && e.f == f then after < before else after == before
  {
    if !e.Spawn? {
      OthersUntouched(s, e, f);
      if e.f == f { ActAdvancesBody(s.com, s.frames[f], e); }
    }
  }

  lemma FinishedHasNoWaiter(com: bool, fr: Frame)
    requires FrameInv(com, fr) && fr.body == Finished
    ensures !fr.handle.Suspended? && (fr.handle.Sleeping? ==> fr.handle.completed && fr.handle.at != Blocked)
  {
  }

  /** Once the body is finished nobody waits on it: not a coroutine, and not a thread asleep on its flag. */
  lemma NoLostWakeup(com: bool, es: seq<Event>, f: FrameId)
    requires f in Exec(Start(com), es).frames && Exec(Start(com), es).frames[f].body == Finished
    ensures var h := Exec(Start(com), es).frames[f].handle;
            !h.Suspended? && (h.Sleeping? ==> h.completed && h.at != Blocked)
  {
    RunKeepsInv(Start(com), es);
    FinishedHasNoWaiter(Exec(Start(com), es).com, Exec(Start(com), es).frames[f]);
  }
}
