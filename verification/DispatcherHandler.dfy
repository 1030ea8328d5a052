/** `resume_foreground`: the awaiting coroutine's shared state, the handler object that is moved into a delegate, and
    a dispatcher that may copy, run or drop the delegate while `await_suspend` is still on its way out. */
module DispatcherHandler {
  import opened Collections

  type HandlerId = nat

  /** Where `await_suspend` stands.  `Unwinding` has an exception in flight. */
  datatype Suspend = NotYet | Making | Scheduling | Catching | Unwinding | Leaving | Returned | Thrown

  /** The three actions of `Complete`. */
  datatype Completing = Idle | TakingState(h: HandlerId) | TakingHandle | Resuming

  /** `handle` and `orphaned` are the shared state, which lives while `alive`.  A handler is true while its
      `m_state` is not null; one of them becomes the delegate's.  `local` is the delegate reference of
      `await_suspend`, `refs` those of the dispatcher. */
  datatype State = State(
    handle: bool, orphaned: bool, alive: bool,
    suspend: Suspend, handlers: map<HandlerId, bool>, delegate: Option<HandlerId>, local: bool, refs: nat,
    completing: Completing, history: History)

  /** How often the coroutine has continued, whether the delegate was invoked, whether it could not be allocated, and
      what `await_resume` found. */
  datatype History = History(continued: nat, invoked: bool, noMemory: bool, outcome: set<bool>)

  const START := State(false, false, true, NotYet, map[], None, false, 0, Idle, History(0, false, false, {}))

  datatype Event =
    | BeginSuspend(h: HandlerId)
    | MoveHandler(h: HandlerId, to: HandlerId)
    | DestroyEmpty(h: HandlerId)
    | MakeDelegate(h: HandlerId)
    | AllocationFails(h: HandlerId)
    | Keep
    | Drop
    | Invoke(h: HandlerId)
    | TakeState
    | TakeHandle
    | Resume
    | ScheduleReturns
    | ScheduleThrows
    | ClearHandle
    | ReleaseLocal
    | DestroyDelegate(h: HandlerId)
    | LeaveSuspend
    | AwaitResume

  /** The dispatcher invokes a delegate it holds, at most once, and holds on to it while it runs; a schedule that
      throws has not run the delegate and keeps no reference to it. */
  predicate Enabled(s: State, e: Event) {
    match e
    case BeginSuspend(_) => s.suspend == NotYet
    case MoveHandler(h, to) => s.suspend == Making && h in s.handlers && to !in s.handlers
    case DestroyEmpty(h) => h in s.handlers && !s.handlers[h] && s.delegate != Some(h) && s.completing == Idle
    case MakeDelegate(h) => s.suspend == Making && h in s.handlers && s.handlers[h]
    case AllocationFails(h) => s.suspend == Making && h in s.handlers && s.handlers[h]
    case Keep => s.refs > 0 || s.suspend == Scheduling
    case Drop => s.refs > 1 || (s.refs == 1 && s.completing == Idle)
    case Invoke(h) => s.delegate == Some(h) && s.refs > 0 && !s.history.invoked && s.completing == Idle
    case TakeState => s.completing.TakingState?
    case TakeHandle => s.completing == TakingHandle
    case Resume => s.completing == Resuming
    case ScheduleReturns => s.suspend == Scheduling
    case ScheduleThrows => s.suspend == Scheduling && s.refs == 0 && !s.history.invoked
    case ClearHandle => s.suspend == Catching
    case ReleaseLocal => s.local && (s.suspend == Leaving || s.suspend == Unwinding)
    case DestroyDelegate(h) => s.delegate == Some(h) && !s.local && s.refs == 0 && s.completing == Idle
    case LeaveSuspend =>
      !s.local && (s.suspend == Leaving || (s.suspend == Unwinding && s.delegate.None? && s.completing == Idle))
    case AwaitResume => s.history.continued > 0 && s.history.outcome == {} && s.alive
  }

  /** The destructor: with a state whose handle is still set, the handler was dropped without running. */
  function AfterDestroy(s: State, h: HandlerId): State
    requires h in s.handlers
  {
    var gone := s.(delegate := None);
    if s.handlers[h] && s.handle then gone.(orphaned := true, completing := TakingState(h))
    else gone.(handlers := s.handlers - {h})
  }

  function Step(s: State, e: Event): State
    requires Enabled(s, e)
  {
    match e
    case BeginSuspend(h) => s.(suspend := Making, handle := true, handlers := map[h := true])
    case MoveHandler(h, to) => s.(handlers := s.handlers[to := s.handlers[h]][h := false])
    case DestroyEmpty(h) => s.(handlers := s.handlers - {h})
    case MakeDelegate(h) => s.(suspend := Scheduling, delegate := Some(h), local := true)
    case AllocationFails(h) => AfterDestroy(s, h).(suspend := Unwinding, history := s.history.(noMemory := true))
    case Keep => s.(refs := s.refs + 1)
    case Drop => s.(refs := s.refs - 1)
    case Invoke(h) => s.(completing := TakingState(h), history := s.history.(invoked := true))
    case TakeState => s.(completing := TakingHandle, handlers := s.handlers[s.completing.h := false])
    case TakeHandle => s.(completing := Resuming, handle := false)
    case Resume => s.(completing := Idle, history := s.history.(continued := s.history.continued + 1))
    case ScheduleReturns => s.(suspend := Leaving)
    case ScheduleThrows => s.(suspend := Catching)
    case ClearHandle => s.(suspend := Unwinding, handle := false)
    case ReleaseLocal => s.(local := false)
    case DestroyDelegate(h) => if h in s.handlers then AfterDestroy(s, h) else s.(delegate := None)
    case LeaveSuspend =>
      if s.suspend == Unwinding then
        s.(suspend := Thrown, alive := false, history := s.history.(continued := s.history.continued + 1))
      else s.(suspend := Returned)
    case AwaitResume => s.(alive := false, history := s.history.(outcome := {s.orphaned}))
  }

  function Exec(s: State, es: seq<Event>): State
    decreases |es|
  {
    if es == [] then s else Exec(if Enabled(s, es[0]) then Step(s, es[0]) else s, es[1..])
  }

  /** The event reads or writes the awaitable's state. */
  predicate TouchesState(s: State, e: Event) {
    match e
    case TakeHandle => true
    case ClearHandle => true
    case DestroyDelegate(h) => h in s.handlers && s.handlers[h]
    case _ => false
  }

  /** A null `m_state` is dereferenced, or the state is touched after the coroutine went on. */
  predicate Faulty(s: State, e: Event) {
    (e.Invoke? && !(e.h in s.handlers && s.handlers[e.h])) || (TouchesState(s, e) && !s.alive)
  }

  // ----- the invariant -----

  /** The handler whose `m_state` is not null, and there is no other. */
  ghost predicate Loaded(s: State, h: HandlerId) {
    h in s.handlers && s.handlers[h] && forall g :: g in s.handlers && s.handlers[g] ==> g == h
  }

  ghost predicate NoneLoaded(s: State) { forall g :: g in s.handlers ==> !s.handlers[g] }

  /** Nobody has begun to continue the coroutine. */
  predicate Waiting(s: State) {
    s.alive && s.history.continued == 0 && s.history.outcome == {} && !s.orphaned && !s.history.invoked
  }

  ghost predicate BeforeSchedule(s: State) {
    && Waiting(s) && s.delegate.None? && !s.local && s.refs == 0 && s.completing == Idle && !s.history.noMemory
    && (s.suspend == Making ==> s.handle && exists h :: Loaded(s, h))
  }

  /** Somebody is inside `Complete`: the invoker, or the destructor after the last reference is gone. */
  predicate Underway(s: State) {
    && s.alive && s.history.continued == 0 && s.history.outcome == {} && (s.orphaned <==> !s.history.invoked)
    && (if s.history.invoked then s.delegate.Some? && s.refs > 0
        else s.delegate.None? && s.refs == 0 && !s.local)
  }

  ghost predicate AfterMaking(s: State) {
    && !s.history.noMemory
    && (s.suspend == Scheduling ==> s.local) && (s.suspend == Returned ==> !s.local)
    && (s.local || s.refs > 0 ==> s.delegate.Some?)
    && match s.completing
       case Idle =>
         if s.history.continued == 0 then Waiting(s) && s.handle && s.delegate.Some? && Loaded(s, s.delegate.value)
         else
           && !s.handle && s.history.continued == 1 && NoneLoaded(s) && (s.orphaned <==> !s.history.invoked)
           && s.history.outcome == (if s.alive then {} else {s.orphaned})
           && (s.delegate.Some? ==> s.history.invoked)
       case TakingState(h) => Underway(s) && s.handle && Loaded(s, h) && (s.history.invoked ==> s.delegate == Some(h))
       case TakingHandle => Underway(s) && s.handle && NoneLoaded(s)
       case Resuming => Underway(s) && !s.handle && NoneLoaded(s)
  }

  /** The schedule threw: only `await_suspend` itself still refers to the delegate. */
  ghost predicate Failed(s: State) {
    && !s.history.noMemory && s.refs == 0 && s.completing == Idle
    && (s.suspend == Catching ==> s.local && s.handle)
    && (s.suspend != Catching ==> !s.handle)
    && (if s.suspend == Thrown
        then s.history.continued == 1 && !s.alive && s.history.outcome == {} && s.delegate.None? && !s.local
        else Waiting(s) && (s.local ==> s.delegate.Some?) && (s.delegate.Some? ==> Loaded(s, s.delegate.value)))
  }

  /** The delegate could not be allocated: the exception is on its way, and so is the destructor's resume. */
  ghost predicate OutOfMemory(s: State) {
    && s.history.noMemory && (s.suspend == Unwinding || s.suspend == Thrown)
    && s.delegate.None? && !s.local && s.refs == 0 && s.orphaned
    && (s.completing != Idle ==>
          && s.suspend == Unwinding && s.alive && s.history.continued == 0
          && (s.completing.TakingState? ==> Loaded(s, s.completing.h))
          && (!s.completing.TakingState? ==> NoneLoaded(s)))
    && (s.completing == Idle ==> s.history.continued == (if s.suspend == Thrown then 2 else 1) && NoneLoaded(s))
  }

  ghost predicate Inv(s: State) {
    if s.history.noMemory then OutOfMemory(s)
    else
      match s.suspend
      case NotYet => BeforeSchedule(s) && s.handlers == map[]
      case Making => BeforeSchedule(s)
      case Scheduling => AfterMaking(s)
      case Leaving => AfterMaking(s)
      case Returned => AfterMaking(s)
      case Catching => Failed(s)
      case Unwinding => Failed(s)
      case Thrown => Failed(s)
  }

  /** While handlers are being made and moved, one of them has the state. */
  lemma MakingKeepsOneLoaded(s: State, e: Event)
    requires Enabled(s, e) && Inv(s) && Step(s, e).suspend == Making
    ensures exists h :: Loaded(Step(s, e), h)
  {
    if e.BeginSuspend? {
      assert Loaded(Step(s, e), e.h);
    } else {
      var x :| Loaded(s, x);
      assert Loaded(Step(s, e), if e.MoveHandler? && x == e.h then e.to else x);
    }
  }

  predicate Scheduled(p: Suspend) { p == Scheduling || p == Leaving || p == Returned }

  /** Inside `Complete`. */
  predicate Completes(e: Event) { e.TakeState? || e.TakeHandle? || e.Resume? }

  /** What starts a completion, or follows one. */
  predicate HandlesHandler(e: Event) { e.Invoke? || e.DestroyDelegate? || e.DestroyEmpty? || e.AwaitResume? }

  lemma CompletionKeepsScheduled(s: State, e: Event)
    requires Enabled(s, e) && Inv(s) && Scheduled(s.suspend) && Completes(e)
    ensures Inv(Step(s, e))
  {
  }

  lemma HandlerKeepsScheduled(s: State, e: Event)
    requires Enabled(s, e) && Inv(s) && Scheduled(s.suspend) && HandlesHandler(e)
    ensures Inv(Step(s, e))
  {
  }

  lemma ReferencesKeepScheduled(s: State, e: Event)
    requires Enabled(s, e) && Inv(s) && Scheduled(s.suspend) && !Completes(e) && !HandlesHandler(e)
    ensures Inv(Step(s, e))
  {
  }

  lemma StepKeepsScheduled(s: State, e: Event)
    requires Enabled(s, e) && Inv(s) && Scheduled(s.suspend)
    ensures Inv(Step(s, e))
  {
    if Completes(e) { CompletionKeepsScheduled(s, e); }
    else if HandlesHandler(e) { HandlerKeepsScheduled(s, e); }
    else { ReferencesKeepScheduled(s, e); }
  }

  lemma StepKeepsOthers(s: State, e: Event)
    requires Enabled(s, e) && Inv(s) && !Scheduled(s.suspend)
    ensures Inv(Step(s, e))
  {
    if Step(s, e).suspend == Making { MakingKeepsOneLoaded(s, e); }
  }

  lemma StepKeepsInv(s: State, e: Event)
    requires Enabled(s, e) && Inv(s)
    ensures Inv(Step(s, e))
  {
    if Scheduled(s.suspend) { StepKeepsScheduled(s, e); } else { StepKeepsOthers(s, e); }
  }

  lemma {:induction false} RunKeepsInv(s: State, es: seq<Event>)
    requires Inv(s)
    ensures Inv(Exec(s, es))
    decreases |es|
  {
    if es != [] {
      if Enabled(s, es[0]) { StepKeepsInv(s, es[0]); }
      RunKeepsInv(if Enabled(s, es[0]) then Step(s, es[0]) else s, es[1..]);
    }
  }

  // ----- results over every run -----

  /** `await_suspend` is over, and so is everything the delegate could still do. */
  predicate Settled(s: State) {
    (s.suspend == Returned || s.suspend == Thrown) && s.delegate.None? && s.completing == Idle
  }

  /** The coroutine continues at most once, and exactly once when everything has settled: whether the handler was
      run, dropped without running, or never kept by a schedule that threw. */
  lemma ContinuesExactlyOnce(es: seq<Event>)
    requires !Exec(START, es).history.noMemory
    ensures Exec(START, es).history.continued <= 1
    ensures Settled(Exec(START, es)) ==> Exec(START, es).history.continued == 1
  {
    RunKeepsInv(START, es);
  }

  /** A settled run continued the coroutine once if and only if the delegate could be allocated.  It is made outside
      the try block, so when it cannot be, the handler's destructor resumes the coroutine and the exception
      continues it a second time. */
  lemma OnceIffAllocated(es: seq<Event>)
    requires Settled(Exec(START, es))
    ensures Exec(START, es).history.continued == 1 <==> !Exec(START, es).history.noMemory
    ensures Exec(START, es).history.noMemory ==> Exec(START, es).history.continued == 2
  {
    RunKeepsInv(START, es);
  }

  lemma ExecFirst(s: State, e: Event, es: seq<Event>)
    ensures Exec(s, [e] + es) == Exec(if Enabled(s, e) then Step(s, e) else s, es)
  {
    assert ([e] + es)[1..] == es;
  }

  // ----- told by the events alone -----

  /** How often the run makes a move that one of the tests picks. */
  function Times(s: State, es: seq<Event>, picks: (State, Event) -> bool): nat
    decreases |es|
  {
    if es == [] then 0
    else if Enabled(s, es[0]) then
      Times(Step(s, es[0]), es[1..], picks) + if picks(s, es[0]) then 1 else 0
    else Times(s, es[1..], picks)
  }

  function Continues(): (State, Event) -> bool {
    (s: State, e: Event) => e.Resume? || (e.LeaveSuspend? && s.suspend == Unwinding)
  }

  function Invokes(): (State, Event) -> bool { (s: State, e: Event) => e.Invoke? }

  function FailsToAllocate(): (State, Event) -> bool { (s: State, e: Event) => e.AllocationFails? }

  predicate Destroys(e: Event) { e.AllocationFails? || e.DestroyDelegate? }

  predicate OfHandler(e: Event) { HandlesHandler(e) || e.MoveHandler? }

  lemma DestroyCounts(s: State, e: Event)
    requires Enabled(s, e) && Destroys(e)
    ensures Step(s, e).history.continued == s.history.continued
    ensures Step(s, e).history.invoked <==> s.history.invoked
    ensures Step(s, e).history.noMemory <==> s.history.noMemory || e.AllocationFails?
  {
  }

  lemma CompletionCounts(s: State, e: Event)
    requires Enabled(s, e) && Completes(e)
    ensures Step(s, e).history.continued == s.history.continued + if Continues()(s, e) then 1 else 0
    ensures Step(s, e).history.invoked == s.history.invoked && Step(s, e).history.noMemory == s.history.noMemory
  {
  }

  lemma HandlerCounts(s: State, e: Event)
    requires Enabled(s, e) && OfHandler(e) && !Destroys(e)
    ensures Step(s, e).history.continued == s.history.continued + if Continues()(s, e) then 1 else 0
    ensures Step(s, e).history.invoked <==> s.history.invoked || e.Invoke?
    ensures Step(s, e).history.noMemory <==> s.history.noMemory || e.AllocationFails?
  {
  }

  lemma OtherCounts(s: State, e: Event)
    requires Enabled(s, e) && !OfHandler(e) && !Destroys(e) && !Completes(e)
    ensures Step(s, e).history.continued == s.history.continued + if Continues()(s, e) then 1 else 0
    ensures Step(s, e).history.invoked <==> s.history.invoked || e.Invoke?
    ensures Step(s, e).history.noMemory <==> s.history.noMemory || e.AllocationFails?
  {
  }

  lemma StepCounts(s: State, e: Event)
    requires Enabled(s, e)
    ensures Step(s, e).history.continued == s.history.continued + if Continues()(s, e) then 1 else 0
    ensures Step(s, e).history.invoked <==> s.history.invoked || e.Invoke?
    ensures Step(s, e).history.noMemory <==> s.history.noMemory || e.AllocationFails?
  {
    if Destroys(e) { DestroyCounts(s, e); }
    else if Completes(e) { CompletionCounts(s, e); }
    else if OfHandler(e) { HandlerCounts(s, e); }
    else { OtherCounts(s, e); }
  }

  /** The awaiter finds what the handler left, once. */
  lemma AwaiterFinds(s: State, e: Event)
    requires Enabled(s, e)
    ensures Step(s, e).history.outcome == if e.AwaitResume? then {s.orphaned} else s.history.outcome
  {
  }

  lemma {:induction false} RunCounts(s: State, es: seq<Event>)
    ensures var h := Exec(s, es).history;
            && h.continued == s.history.continued + Times(s, es, Continues())
            && (h.invoked <==> s.history.invoked || Times(s, es, Invokes()) > 0)
            && (h.noMemory <==> s.history.noMemory || Times(s, es, FailsToAllocate()) > 0)
    decreases |es|
  {
    if es != [] {
      if Enabled(s, es[0]) { StepCounts(s, es[0]); }
      RunCounts(if Enabled(s, es[0]) then Step(s, es[0]) else s, es[1..]);
    }
  }

  /** The record of a run is what its events say: how often the coroutine was resumed, by a handler or by an
      exception, whether the delegate was invoked, and whether it could not be allocated. */
  lemma HistoryTellsTheRun(es: seq<Event>)
    ensures var h := Exec(START, es).history;
            && h.continued == Times(START, es, Continues())
            && (h.invoked <==> Times(START, es, Invokes()) > 0)
            && (h.noMemory <==> Times(START, es, FailsToAllocate()) > 0)
  {
    RunCounts(START, es);
  }

  // ----- the way of await_suspend -----

  datatype Mark = Begins | Makes | Fails | Returns | Throws | Clears | Releases | Leaves

  /** What the event says about `await_suspend`. */
  function MarkOf(e: Event): seq<Mark> {
    match e
    case BeginSuspend(_) => [Begins]
    case MakeDelegate(_) => [Makes]
    case AllocationFails(_) => [Fails]
    case ScheduleReturns => [Returns]
    case ScheduleThrows => [Throws]
    case ClearHandle => [Clears]
    case ReleaseLocal => [Releases]
    case LeaveSuspend => [Leaves]
    case _ => []
  }

  function MarksIn(s: State, es: seq<Event>): seq<Mark>
    decreases |es|
  {
    if es == [] then []
    else if Enabled(s, es[0]) then MarkOf(es[0]) + MarksIn(Step(s, es[0]), es[1..])
    else MarksIn(s, es[1..])
  }

  function Released(local: bool): seq<Mark> { if local then [] else [Releases] }

  /** Where `await_suspend` stands when it has done that. */
  predicate HasDone(p: Suspend, local: bool, done: seq<Mark>) {
    match p
    case NotYet => done == [] && !local
    case Making => done == [Begins] && !local
    case Scheduling => done == [Begins, Makes] && local
    case Leaving => done == [Begins, Makes, Returns] + Released(local)
    case Returned => done == [Begins, Makes, Returns, Releases, Leaves] && !local
    case Catching => done == [Begins, Makes, Throws] && local
    case Unwinding => done == [Begins, Makes, Throws, Clears] + Released(local) || (done == [Begins, Fails] && !local)
    case Thrown =>
      (done == [Begins, Makes, Throws, Clears, Releases, Leaves] || done == [Begins, Fails, Leaves]) && !local
  }

  lemma DestroyIsNoMark(s: State, h: HandlerId)
    requires h in s.handlers
    ensures AfterDestroy(s, h).suspend == s.suspend && AfterDestroy(s, h).local == s.local
    ensures AfterDestroy(s, h).refs == s.refs
  {
  }

  lemma SuspendDoes(s: State, e: Event, done: seq<Mark>)
    requires Enabled(s, e) && HasDone(s.suspend, s.local, done)
    ensures HasDone(Step(s, e).suspend, Step(s, e).local, done + MarkOf(e))
  {
    if MarkOf(e) == [] { assert done + [] == done; }
    if Destroys(e) && e.h in s.handlers { DestroyIsNoMark(s, e.h); }
  }

  lemma {:induction false} SuspendHasDone(s: State, es: seq<Event>, done: seq<Mark>)
    requires HasDone(s.suspend, s.local, done)
    ensures HasDone(Exec(s, es).suspend, Exec(s, es).local, done + MarksIn(s, es))
    decreases |es|
  {
    if es == [] {
      assert done + [] == done;
    } else if Enabled(s, es[0]) {
      var now, s' := MarkOf(es[0]), Step(s, es[0]);
      SuspendDoes(s, es[0], done);
      SuspendHasDone(s', es[1..], done + now);
      assert done + (now + MarksIn(s', es[1..])) == done + now + MarksIn(s', es[1..]);
    } else {
      SuspendHasDone(s, es[1..], done);
    }
  }

  /** `await_suspend` goes the way of the code: it returns if the schedule did, and leaves by an exception exactly if
      the schedule threw or there was no memory for the delegate. */
  lemma SuspendFollowsTheCode(es: seq<Event>)
    ensures HasDone(Exec(START, es).suspend, Exec(START, es).local, MarksIn(START, es))
  {
    SuspendHasDone(START, es, []);
    assert [] + MarksIn(START, es) == MarksIn(START, es);
  }

  function Keeps(): (State, Event) -> bool { (s: State, e: Event) => e.Keep? }

  function Drops(): (State, Event) -> bool { (s: State, e: Event) => e.Drop? }

  lemma StepRefs(s: State, e: Event)
    requires Enabled(s, e)
    ensures Step(s, e).refs == if e.Keep? then s.refs + 1 else if e.Drop? then s.refs - 1 else s.refs
  {
    if Destroys(e) && e.h in s.handlers { DestroyIsNoMark(s, e.h); }
  }

  /** The dispatcher holds the references it took and has not dropped. */
  lemma {:induction false} ReferencesAreKept(s: State, es: seq<Event>)
    ensures Exec(s, es).refs + Times(s, es, Drops()) == s.refs + Times(s, es, Keeps())
    decreases |es|
  {
    if es != [] {
      if Enabled(s, es[0]) {
        StepRefs(s, es[0]);
        ReferencesAreKept(Step(s, es[0]), es[1..]);
      } else {
        ReferencesAreKept(s, es[1..]);
      }
    }
  }

  // ----- every run can be completed -----

  function CompletingRank(c: Completing): nat {
    match c
    case Idle => 0
    case TakingState(_) => 3
    case TakingHandle => 2
    case Resuming => 1
  }

  function SuspendRank(p: Suspend): nat {
    match p
    case NotYet => 20
    case Making => 15
    case Scheduling => 3
    case Catching => 3
    case Leaving => 2
    case Unwinding => 2
    case Returned => 0
    case Thrown => 0
  }

  /** How far a run is from being settled. */
  function Rank(s: State): nat {
    SuspendRank(s.suspend) + CompletingRank(s.completing) + s.refs
    + (if s.local then 1 else 0) + if s.delegate.Some? then 4 else 0
  }

  /** The next move towards the end: of whoever is inside `Complete`, else of `await_suspend`, else of the dispatcher,
      which drops what it holds. */
  lemma NextMove(s: State) returns (e: Event)
    requires Inv(s) && !Settled(s)
    ensures Enabled(s, e) && MovesOn(e)
  {
    match s.completing
    case TakingState(_) => e := TakeState;
    case TakingHandle => e := TakeHandle;
    case Resuming => e := Resume;
    case Idle => e := NextQuietMove(s);
  }

  lemma NextQuietMove(s: State) returns (e: Event)
    requires Inv(s) && !Settled(s) && s.completing == Idle
    ensures Enabled(s, e) && MovesOn(e)
  {
    match s.suspend
    case NotYet => e := BeginSuspend(0);
    case Making =>
      var h :| Loaded(s, h);
      e := MakeDelegate(h);
    case Scheduling => e := ScheduleReturns;
    case Catching => e := ClearHandle;
    case Leaving => e := if s.local then ReleaseLocal else LeaveSuspend;
    case Unwinding =>
      e := if s.local then ReleaseLocal
           else if s.delegate.Some? then DestroyDelegate(s.delegate.value)
           else LeaveSuspend;
    case Returned => e := if s.refs > 0 then Drop else DestroyDelegate(s.delegate.value);
    case Thrown => e := Drop;
  }

  predicate MovesOn(e: Event) {
    Completes(e) || e.BeginSuspend? || e.MakeDelegate? || e.ScheduleReturns? || e.ClearHandle? || e.ReleaseLocal? ||
    e.LeaveSuspend? || e.DestroyDelegate? || e.Drop?
  }

  lemma MoveIsProgress(s: State, e: Event)
    requires Enabled(s, e) && MovesOn(e)
    ensures Rank(Step(s, e)) < Rank(s) && Step(s, e).history.noMemory == s.history.noMemory
  {
  }

  lemma {:induction false} CanSettle(s: State) returns (es: seq<Event>)
    requires Inv(s)
    ensures Settled(Exec(s, es)) && Exec(s, es).history.noMemory == s.history.noMemory
    decreases Rank(s)
  {
    es := [];
    if !Settled(s) {
      var e := NextMove(s);
      MoveIsProgress(s, e);
      StepKeepsInv(s, e);
      var rest := CanSettle(Step(s, e));
      es := [e] + rest;
      ExecFirst(s, e, rest);
    }
  }

  lemma {:induction false} ExecAppend(s: State, es: seq<Event>, fs: seq<Event>)
    ensures Exec(s, es + fs) == Exec(Exec(s, es), fs)
    decreases |es|
  {
    if es == [] {
      assert es + fs == fs;
    } else {
      assert (es + fs)[1..] == es[1..] + fs;
      ExecAppend(if Enabled(s, es[0]) then Step(s, es[0]) else s, es[1..], fs);
    }
  }

  /** Every run, whatever has happened on it, can be continued until it settles; and unless an allocation had failed
      the coroutine has then continued exactly once. */
  lemma EveryRunCanSettle(es: seq<Event>) returns (fs: seq<Event>)
    ensures Settled(Exec(START, es + fs))
    ensures Exec(START, es + fs).history.continued == if Exec(START, es).history.noMemory then 2 else 1
  {
    RunKeepsInv(START, es);
    fs := CanSettle(Exec(START, es));
    ExecAppend(START, es, fs);
    RunKeepsInv(START, es + fs);
  }

  // ----- the failed allocation -----

  /** A run on which the delegate cannot be allocated. */
  function FailedAllocation(): seq<Event> {
    [BeginSuspend(0), AllocationFails(0), TakeState, TakeHandle, Resume, LeaveSuspend]
  }

  /** It settles, and the coroutine has continued twice. */
  lemma FailedAllocationContinuesTwice()
    ensures var s := Exec(START, FailedAllocation());
            Settled(s) && s.history.noMemory && s.history.continued == 2
  {
    var s1 := Step(START, BeginSuspend(0));
    var s2 := Step(s1, AllocationFails(0));
    var s3 := Step(s2, TakeState);
    var s4 := Step(s3, TakeHandle);
    var s5 := Step(s4, Resume);
    ExecFirst(START, BeginSuspend(0), [AllocationFails(0), TakeState, TakeHandle, Resume, LeaveSuspend]);
    ExecFirst(s1, AllocationFails(0), [TakeState, TakeHandle, Resume, LeaveSuspend]);
    ExecFirst(s2, TakeState, [TakeHandle, Resume, LeaveSuspend]);
    ExecFirst(s3, TakeHandle, [Resume, LeaveSuspend]);
    ExecFirst(s4, Resume, [LeaveSuspend]);
    ExecFirst(s5, LeaveSuspend, []);
  }

  /** No move calls through a null state or touches the state once the coroutine has gone on. */
  lemma EveryMoveIsSafe(es: seq<Event>, e: Event)
    requires !Exec(START, es).history.noMemory && Enabled(Exec(START, es), e)
    ensures !Faulty(Exec(START, es), e)
  {
    RunKeepsInv(START, es);
  }

  /** The awaiter learns whether its handler ran. */
  lemma OrphanedIffNeverRun(es: seq<Event>, b: bool)
    requires !Exec(START, es).history.noMemory && b in Exec(START, es).history.outcome
    ensures b <==> !Exec(START, es).history.invoked
  {
    RunKeepsInv(START, es);
  }

  // ----- the handler object, updated in place -----

  class DispatchedHandlerState {
    var handle: bool
    var orphaned: bool
    ghost var resumed: nat

    constructor ()
      ensures handle && !orphaned && resumed == 0
    {
      handle, orphaned, resumed := true, false, 0;
    }
  }

  class Handler {
    var state: DispatchedHandlerState?

    constructor (s: DispatchedHandlerState)
      ensures state == s
    {
      state := s;
    }

    /** The move constructor leaves the source without a state. */
    constructor Move(other: Handler)
      modifies other
      ensures state == old(other.state) && other.state == null
    {
      state := other.state;
      new;
      other.state := null;
    }

    /** Both pointers are cleared before the coroutine is resumed, so it may destroy everything. */
    method Complete()
      requires state != null && state.handle
      modifies this, state
      ensures state == null
      ensures !old(state).handle && old(state).orphaned == old(state.orphaned)
      ensures old(state).resumed == old(state.resumed) + 1
    {
      var s := state;
      state := null;
      s.handle := false;
      s.resumed := s.resumed + 1;
    }

    /** The destructor resumes only a coroutine that nobody else has resumed or will. */
    method Destroy()
      modifies this, state
      ensures old(state) != null && old(state.handle) ==>
                && state == null && !old(state).handle && old(state).orphaned
                && old(state).resumed == old(state.resumed) + 1
      ensures old(state) != null && !old(state.handle) ==>
                old(state).orphaned == old(state.orphaned) && old(state).resumed == old(state.resumed)
    {
      if state != null && state.handle {
        state.orphaned := true;
        Complete();
      }
    }
  }
}
