/** What a run of the pool comes to, told by the moves made on it alone: what a client reads is what the body did,
    and a client is resumed in the way it asked for. */
module TaskHistory {
  import opened Collections
  import opened TaskPromise
  import opened TaskPool

  /** The moves made: the events of the run that were enabled when their turn came. */
  function Moves(s: Pool, es: seq<Event>): set<Event>
    decreases |es|
  {
    if es == [] then {}
    else if Enabled(s, es[0]) then {es[0]} + Moves(Step(s, es[0]), es[1..])
    else Moves(s, es[1..])
  }

  ghost predicate Awaits(ms: set<Event>, f: FrameId) { exists m :: BeginAwait(f, m) in ms }

  /** The client was resumed through its apartment's context, or found itself there. */
  predicate ThroughContext(ms: set<Event>, f: FrameId) {
    ResumeHere(f) in ms || CallbackRuns(f) in ms || CallbackFails(f) in ms
  }

  predicate Captures(ms: set<Event>, f: FrameId) { CaptureInfo(f, true) in ms || CaptureInfo(f, false) in ms }

  /** The body did one of two things, and the holder says which once it is full. */
  predicate BodyTold(com: bool, fr: Frame, f: FrameId, ms: set<Event>) {
    && (BuildValue(f) in ms <==> fr.body == ValueBuilt || fr.promise.status == Value)
    && (BuildThrows(f) in ms <==> fr.body == Catching || fr.body == Captured || fr.promise.status == Error)
    && (Captures(ms, f) <==> fr.body == Captured || fr.promise.status == Error)
    && (fr.captured <==> com && CaptureInfo(f, true) in ms)
    && (SetValue(f) in ms <==> fr.promise.status == Value)
    && (SetError(f) in ms <==> fr.promise.status == Error)
    && (ExchangeCompleted(f) in ms <==> !BeforeFinal(fr.body))
  }

  /** The frame is destroyed by its owner or by its body. */
  predicate EndTold(fr: Frame, f: FrameId, ms: set<Event>) {
    && (fr.destroyed == 1 <==> OwnerDestroy(f) in ms || BodyDestroy(f) in ms)
    && !(OwnerDestroy(f) in ms && BodyDestroy(f) in ms)
  }

  predicate LetsGo(h: Handle) { h == Dropping || h == Destroying || h == Released }

  /** The expression on the task: awaited or not, and with which mode. */
  ghost predicate OwnerTold(fr: Frame, f: FrameId, ms: set<Event>) {
    && (fr.result.Read? <==> ReadResult(f) in ms)
    && (fr.result.Read? ==> LetsGo(fr.handle))
    && (fr.handle == Idle ==> !Awaits(ms, f))
    && (CallbackFails(f) in ms ==> LetsGo(fr.handle) || fr.handle == Resumed(true))
    && match fr.handle
       case CheckingReady(m) => BeginAwait(f, m) in ms
       case StoringResumer(m) => BeginAwait(f, m) in ms
       case Exchanging(m) => BeginAwait(f, m) in ms
       case Suspended(m) => BeginAwait(f, m) in ms
       case Sleeping(_, _) => BeginAwait(f, Sync) in ms
       case Resumed(wrong) => Awaits(ms, f) && (wrong <==> CallbackFails(f) in ms)
       case Reading => Awaits(ms, f)
       case _ => LetsGo(fr.handle) ==> (fr.result.Read? <==> Awaits(ms, f) && CallbackFails(f) !in ms)
  }

  /** A client is resumed the way its mode says, and asks only once. */
  ghost predicate ModeTold(fr: Frame, f: FrameId, ms: set<Event>) {
    && (forall m, n :: BeginAwait(f, m) in ms && BeginAwait(f, n) in ms ==> m == n)
    && (fr.resumed == 1 ==>
          || BeginAwait(f, Agile) in ms
          || (BeginAwait(f, Apartment) in ms && ThroughContext(ms, f))
          || (BeginAwait(f, Sync) in ms && SetFlag(f) in ms))
    && (ThroughContext(ms, f) ==> BeginAwait(f, Apartment) in ms)
    && (SetFlag(f) in ms ==> BeginAwait(f, Sync) in ms)
  }

  predicate Sent(ms: set<Event>, f: FrameId) { SubmitToPool(f) in ms || EnterContext(f) in ms || ResumeHere(f) in ms }

  /** The callback is reached by one way of three. */
  predicate RouteTold(fr: Frame, f: FrameId, ms: set<Event>) {
    && (fr.body.Pooled? <==> SubmitToPool(f) in ms && PoolRuns(f) !in ms)
    && (PoolRuns(f) in ms ==> SubmitToPool(f) in ms)
    && (BeforeFinal(fr.body) || fr.body.Delivering? || fr.body.InContext? ==> !Sent(ms, f))
    && (CallbackRuns(f) in ms || CallbackFails(f) in ms || fr.body.ContextCall? ==>
          EnterContext(f) in ms || PoolRuns(f) in ms)
    && !(SubmitToPool(f) in ms && EnterContext(f) in ms)
    && (ResumeHere(f) in ms ==> SubmitToPool(f) !in ms && EnterContext(f) !in ms)
  }

  /** The flag says whether it was set. */
  predicate FlagTold(fr: Frame, f: FrameId, ms: set<Event>) {
    && (fr.handle.Sleeping? ==> (fr.handle.completed <==> SetFlag(f) in ms))
    && (!fr.handle.Sleeping? && !LetsGo(fr.handle) && fr.handle != Reading && !fr.handle.Resumed? ==>
          SetFlag(f) !in ms)
  }

  ghost predicate FrameTold(com: bool, fr: Frame, f: FrameId, ms: set<Event>) {
    BodyTold(com, fr, f, ms) && EndTold(fr, f, ms) && OwnerTold(fr, f, ms) && ModeTold(fr, f, ms)
    && RouteTold(fr, f, ms) && FlagTold(fr, f, ms)
  }

  ghost predicate Told(s: Pool, ms: set<Event>) {
    && (forall f :: f in s.frames ==> FrameTold(s.com, s.frames[f], f, ms))
    && (forall e :: e in ms ==> e.f in s.frames)
  }

  // ----- one move -----

  lemma EarlyMoveTellsBody(com: bool, fr: Frame, e: Event, ms: set<Event>)
    requires Allowed(fr, e) && FrameInv(com, fr) && BodyTold(com, fr, e.f, ms) && EarlyEvent(e)
    ensures BodyTold(com, Act(com, fr, e), e.f, ms + {e})
  {
  }

  lemma ContextMoveTellsBody(com: bool, fr: Frame, e: Event, ms: set<Event>)
    requires Allowed(fr, e) && FrameInv(com, fr) && BodyTold(com, fr, e.f, ms) && ContextEvent(e)
    ensures BodyTold(com, Act(com, fr, e), e.f, ms + {e})
  {
  }

  lemma LateMoveTellsBody(com: bool, fr: Frame, e: Event, ms: set<Event>)
    requires Allowed(fr, e) && FrameInv(com, fr) && BodyTold(com, fr, e.f, ms) && LateEvent(e) && !ContextEvent(e)
    ensures BodyTold(com, Act(com, fr, e), e.f, ms + {e})
  {
  }

  lemma ActTellsBody(com: bool, fr: Frame, e: Event, ms: set<Event>)
    requires Allowed(fr, e) && FrameInv(com, fr) && BodyTold(com, fr, e.f, ms)
    ensures BodyTold(com, Act(com, fr, e), e.f, ms + {e})
  {
    if EarlyEvent(e) { EarlyMoveTellsBody(com, fr, e, ms); }
    else if ContextEvent(e) { ContextMoveTellsBody(com, fr, e, ms); }
    else if LateEvent(e) { LateMoveTellsBody(com, fr, e, ms); }
  }

  lemma ActTellsEnd(com: bool, fr: Frame, e: Event, ms: set<Event>)
    requires Allowed(fr, e) && FrameInv(com, fr) && EndTold(fr, e.f, ms)
    ensures EndTold(Act(com, fr, e), e.f, ms + {e})
  {
  }

  lemma BodyMoveTellsOwner(com: bool, fr: Frame, e: Event, ms: set<Event>)
    requires Allowed(fr, e) && FrameInv(com, fr) && OwnerTold(fr, e.f, ms) && BodyEvent(e)
    ensures OwnerTold(Act(com, fr, e), e.f, ms + {e})
  {
  }

  lemma ActTellsOwner(com: bool, fr: Frame, e: Event, ms: set<Event>)
    requires Allowed(fr, e) && FrameInv(com, fr) && OwnerTold(fr, e.f, ms)
    ensures OwnerTold(Act(com, fr, e), e.f, ms + {e})
  {
    if BodyEvent(e) { BodyMoveTellsOwner(com, fr, e, ms); }
  }

  lemma ActTellsMode(com: bool, fr: Frame, e: Event, ms: set<Event>)
    requires Allowed(fr, e) && FrameInv(com, fr) && OwnerTold(fr, e.f, ms) && ModeTold(fr, e.f, ms)
    ensures ModeTold(Act(com, fr, e), e.f, ms + {e})
  {
  }

  lemma ActTellsRoute(com: bool, fr: Frame, e: Event, ms: set<Event>)
    requires Allowed(fr, e) && FrameInv(com, fr) && RouteTold(fr, e.f, ms)
    ensures RouteTold(Act(com, fr, e), e.f, ms + {e})
  {
  }

  lemma ActTellsFlag(com: bool, fr: Frame, e: Event, ms: set<Event>)
    requires Allowed(fr, e) && FrameInv(com, fr) && FlagTold(fr, e.f, ms)
    ensures FlagTold(Act(com, fr, e), e.f, ms + {e})
  {
  }

  /** A move on another frame says nothing about this one. */
  lemma OthersStayTold(com: bool, fr: Frame, f: FrameId, e: Event, ms: set<Event>)
    requires FrameTold(com, fr, f, ms) && e.f != f
    ensures FrameTold(com, fr, f, ms + {e})
  {
  }

  lemma BusyStaysTold(com: bool, fr: Frame, f: FrameId, b: Body, ms: set<Event>)
    requires FrameTold(com, fr, f, ms)
    requires (fr.body == Executing || fr.body.Busy?) && (b == Executing || b.Busy?)
    ensures FrameTold(com, fr.(body := b), f, ms)
  {
  }

  lemma NewFrameTold(com: bool, f: FrameId, c: Client, ms: set<Event>)
    requires forall e :: e in ms ==> e.f != f
    ensures FrameTold(com, NewFrame(c), f, ms + {Spawn(f, c)})
  {
  }

  lemma ActTells(com: bool, fr: Frame, e: Event, ms: set<Event>)
    requires Allowed(fr, e) && FrameInv(com, fr) && FrameTold(com, fr, e.f, ms)
    ensures FrameTold(com, Act(com, fr, e), e.f, ms + {e})
  {
    ActTellsBody(com, fr, e, ms);
    ActTellsEnd(com, fr, e, ms);
    ActTellsOwner(com, fr, e, ms);
    ActTellsMode(com, fr, e, ms);
    ActTellsRoute(com, fr, e, ms);
    ActTellsFlag(com, fr, e, ms);
  }

  lemma StepTellsFrame(s: Pool, e: Event, ms: set<Event>, f: FrameId)
    requires Enabled(s, e) && !e.Spawn? && f in s.frames
    requires FrameInv(s.com, s.frames[f]) && FrameTold(s.com, s.frames[f], f, ms)
    ensures f in Step(s, e).frames && FrameTold(s.com, Step(s, e).frames[f], f, ms + {e})
  {
    OthersUntouched(s, e, f);
    var base := if f == e.f then Act(s.com, s.frames[f], e) else s.frames[f];
    if f == e.f { ActTells(s.com, s.frames[f], e, ms); } else { OthersStayTold(s.com, base, f, e, ms); }
    if Step(s, e).frames[f] != base { BusyStaysTold(s.com, base, f, Step(s, e).frames[f].body, ms + {e}); }
  }

  lemma SpawnTells(s: Pool, e: Event, ms: set<Event>)
    requires Told(s, ms) && Enabled(s, e) && e.Spawn?
    ensures Told(Step(s, e), ms + {e})
  {
    NewFrameTold(s.com, e.f, e.c, ms);
    forall f | f in s.frames ensures FrameTold(s.com, s.frames[f], f, ms + {e}) {
      OthersStayTold(s.com, s.frames[f], f, e, ms);
    }
  }

  lemma FramesStay(s: Pool, e: Event)
    requires Enabled(s, e)
    ensures Step(s, e).com == s.com && s.frames.Keys <= Step(s, e).frames.Keys && e.f in Step(s, e).frames
    ensures !e.Spawn? ==> Step(s, e).frames.Keys == s.frames.Keys
  {
  }

  lemma StepTells(s: Pool, e: Event, ms: set<Event>)
    requires Inv(s) && Told(s, ms) && Enabled(s, e)
    ensures Told(Step(s, e), ms + {e})
  {
    FramesStay(s, e);
    if e.Spawn? {
      SpawnTells(s, e, ms);
    } else {
      forall f | f in s.frames ensures FrameTold(s.com, Step(s, e).frames[f], f, ms + {e}) {
        StepTellsFrame(s, e, ms, f);
      }
    }
  }

  /** The pool and the moves made after one event of a run. */
  function After(s: Pool, e: Event): Pool { if Enabled(s, e) then Step(s, e) else s }
  function Made(s: Pool, e: Event, ms: set<Event>): set<Event> { if Enabled(s, e) then ms + {e} else ms }

  lemma StepKeepsTold(s: Pool, e: Event, ms: set<Event>)
    requires Inv(s) && Told(s, ms)
    ensures Inv(After(s, e)) && Told(After(s, e), Made(s, e, ms)) && After(s, e).com == s.com
  {
    if Enabled(s, e) {
      StepKeepsInv(s, e);
      StepTells(s, e, ms);
      FramesStay(s, e);
    }
  }

  lemma MovesSplit(s: Pool, es: seq<Event>, ms: set<Event>)
    requires es != []
    ensures ms + Moves(s, es) == Made(s, es[0], ms) + Moves(After(s, es[0]), es[1..])
    ensures Exec(s, es) == Exec(After(s, es[0]), es[1..])
  {
  }

  lemma {:induction false} RunTells(s: Pool, es: seq<Event>, ms: set<Event>)
    requires Inv(s) && Told(s, ms)
    ensures Told(Exec(s, es), ms + Moves(s, es)) && Exec(s, es).com == s.com
    decreases |es|
  {
    if es == [] {
      assert ms + {} == ms;
    } else {
      MovesSplit(s, es, ms);
      StepKeepsTold(s, es[0], ms);
      RunTells(After(s, es[0]), es[1..], Made(s, es[0], ms));
    }
  }

  // ----- results over every run -----

  lemma RunIsTold(com: bool, es: seq<Event>, f: FrameId)
    requires f in Exec(Start(com), es).frames
    ensures FrameTold(com, Exec(Start(com), es).frames[f], f, Moves(Start(com), es))
    ensures FrameInv(com, Exec(Start(com), es).frames[f])
  {
    RunTells(Start(com), es, {});
    RunKeepsInv(Start(com), es);
    assert {} + Moves(Start(com), es) == Moves(Start(com), es);
  }

  /** The holder says what the body did. */
  lemma HolderTellsWhatTheBodyDid(com: bool, es: seq<Event>, f: FrameId)
    requires f in Exec(Start(com), es).frames
    ensures var fr, ms := Exec(Start(com), es).frames[f], Moves(Start(com), es);
            && (fr.promise.status == Value <==> BuildValue(f) in ms && fr.body != ValueBuilt)
            && (fr.promise.status == Error <==> BuildThrows(f) in ms && fr.body != Catching && fr.body != Captured)
            && !(BuildValue(f) in ms && BuildThrows(f) in ms)
  {
    RunIsTold(com, es, f);
  }

  /** A frame is destroyed exactly if its owner or its body made the move that does it, never both. */
  lemma DestroyedByOne(com: bool, es: seq<Event>, f: FrameId)
    requires f in Exec(Start(com), es).frames
    ensures var ms := Moves(Start(com), es);
            && (Exec(Start(com), es).frames[f].destroyed == 1 <==> OwnerDestroy(f) in ms || BodyDestroy(f) in ms)
            && !(OwnerDestroy(f) in ms && BodyDestroy(f) in ms)
  {
    RunIsTold(com, es, f);
  }

  /** The client the task was last given to. */
  function LastOwner(s: Pool, es: seq<Event>, f: FrameId, last: Option<Client>): Option<Client>
    decreases |es|
  {
    if es == [] then last
    else if Enabled(s, es[0]) then
      LastOwner(Step(s, es[0]), es[1..], f,
                if (es[0].Spawn? || es[0].Transfer?) && es[0].f == f then Some(es[0].c) else last)
    else LastOwner(s, es[1..], f, last)
  }

  lemma ActOwner(com: bool, fr: Frame, e: Event)
    requires Allowed(fr, e)
    ensures Act(com, fr, e).owner == if e.Transfer? then e.c else fr.owner
  {
  }

  lemma StepOwner(s: Pool, e: Event, f: FrameId)
    requires Enabled(s, e) && f in Step(s, e).frames
    ensures (e.Spawn? || e.Transfer?) && e.f == f ==> Step(s, e).frames[f].owner == e.c
    ensures !((e.Spawn? || e.Transfer?) && e.f == f) ==>
              f in s.frames && Step(s, e).frames[f].owner == s.frames[f].owner
  {
    if !e.Spawn? {
      FramesStay(s, e);
      OthersUntouched(s, e, f);
      ActOwner(s.com, s.frames[e.f], e);
    }
  }

  lemma {:induction false} RunOwner(s: Pool, es: seq<Event>, f: FrameId, last: Option<Client>)
    requires f in s.frames ==> last == Some(s.frames[f].owner)
    requires f in Exec(s, es).frames
    ensures LastOwner(s, es, f, last) == Some(Exec(s, es).frames[f].owner)
    decreases |es|
  {
    if es != [] {
      if Enabled(s, es[0]) {
        FramesStay(s, es[0]);
        if f in Step(s, es[0]).frames { StepOwner(s, es[0], f); }
        RunOwner(Step(s, es[0]), es[1..], f,
                 if (es[0].Spawn? || es[0].Transfer?) && es[0].f == f then Some(es[0].c) else last);
      } else {
        RunOwner(s, es[1..], f, last);
      }
    }
  }

  /** A task belongs to whoever it was last given to, and that is who waits for it. */
  lemma OwnerIsWhoItWasGivenTo(com: bool, es: seq<Event>, f: FrameId)
    requires f in Exec(Start(com), es).frames
    ensures LastOwner(Start(com), es, f, None) == Some(Exec(Start(com), es).frames[f].owner)
  {
    RunOwner(Start(com), es, f, None);
  }

  /** What an event puts into the word of f, if it does. */
  function Exchanged(s: Pool, e: Event, f: FrameId): Option<Word> {
    if e.f != f || f !in s.frames then None
    else if e.ExchangeClient? then Some(ClientPtr(s.frames[f].owner))
    else if e.ExchangeAbandoned? then Some(AbandonedPtr)
    else if e.ExchangeCompleted? then Some(CompletedPtr)
    else None
  }

  function LastExchange(s: Pool, es: seq<Event>, f: FrameId, last: Word): Word
    decreases |es|
  {
    if es == [] then last
    else if Enabled(s, es[0]) then
      LastExchange(Step(s, es[0]), es[1..], f,
                   if Exchanged(s, es[0], f).Some? then Exchanged(s, es[0], f).value else last)
    else LastExchange(s, es[1..], f, last)
  }

  function WordOf(s: Pool, f: FrameId): Word { if f in s.frames then s.frames[f].promise.waiting else RunningPtr }

  lemma BodyMoveExchanges(com: bool, fr: Frame, e: Event)
    requires Allowed(fr, e) && BodyEvent(e)
    ensures Act(com, fr, e).promise.waiting == if e.ExchangeCompleted? then CompletedPtr else fr.promise.waiting
  {
  }

  lemma ActExchanges(com: bool, fr: Frame, e: Event)
    requires Allowed(fr, e)
    ensures Act(com, fr, e).promise.waiting ==
            if e.ExchangeClient? then ClientPtr(fr.owner) else if e.ExchangeAbandoned? then AbandonedPtr
            else if e.ExchangeCompleted? then CompletedPtr else fr.promise.waiting
  {
    if BodyEvent(e) { BodyMoveExchanges(com, fr, e); }
  }

  lemma StepExchanges(s: Pool, e: Event, f: FrameId)
    requires Enabled(s, e)
    ensures WordOf(Step(s, e), f) ==
            if Exchanged(s, e, f).Some? then Exchanged(s, e, f).value else WordOf(s, f)
  {
    if !e.Spawn? {
      FramesStay(s, e);
      ActExchanges(s.com, s.frames[e.f], e);
      if f in s.frames { OthersUntouched(s, e, f); }
    }
  }

  lemma {:induction false} RunExchanges(s: Pool, es: seq<Event>, f: FrameId)
    ensures WordOf(Exec(s, es), f) == LastExchange(s, es, f, WordOf(s, f))
    decreases |es|
  {
    if es != [] {
      if Enabled(s, es[0]) {
        StepExchanges(s, es[0], f);
        RunExchanges(Step(s, es[0]), es[1..], f);
      } else {
        RunExchanges(s, es[1..], f);
      }
    }
  }

  /** The word of a promise is what the last exchange put there, and at first "running". */
  lemma WordIsTheLastExchange(com: bool, es: seq<Event>, f: FrameId)
    requires f in Exec(Start(com), es).frames
    ensures Exec(Start(com), es).frames[f].promise.waiting == LastExchange(Start(com), es, f, RunningPtr)
  {
    RunExchanges(Start(com), es, f);
  }

  /** What a client reads is the value if the body built one, and else the exception it threw, with the error
      information captured from it. */
  lemma ReadsWhatTheBodyDid(com: bool, es: seq<Event>, f: FrameId)
    requires ReadResult(f) in Moves(Start(com), es)
    ensures f in Exec(Start(com), es).frames && Exec(Start(com), es).frames[f].result.Read?
    ensures var ms := Moves(Start(com), es);
            && (BuildValue(f) in ms || BuildThrows(f) in ms)
            && Exec(Start(com), es).frames[f].result.outcome ==
               if BuildValue(f) in ms then Returned else Rethrown(com && CaptureInfo(f, true) in ms)
  {
    RunTells(Start(com), es, {});
    assert {} + Moves(Start(com), es) == Moves(Start(com), es);
    RunIsTold(com, es, f);
  }

  /** A client that asks is told the task is ready if the body has made its final exchange, and then goes on without
      waiting; otherwise it goes on to wait in the mode it asked for. */
  lemma AskedIsToldIffDone(com: bool, es: seq<Event>, f: FrameId, m: Mode)
    requires Enabled(Exec(Start(com), es), LoadWaiting(f)) && BeginAwait(f, m) in Moves(Start(com), es)
    ensures var s := Step(Exec(Start(com), es), LoadWaiting(f));
            && f in s.frames
            && s.frames[f].handle ==
               if ExchangeCompleted(f) in Moves(Start(com), es) then Resumed(false) else StoringResumer(m)
  {
    RunIsTold(com, es, f);
    OthersUntouched(Exec(Start(com), es), LoadWaiting(f), f);
    CheckMeansDone(com, Exec(Start(com), es).frames[f]);
    RunTells(Start(com), es, {});
  }

  /** A thread waiting in `get()` goes to sleep on its flag exactly if nobody has set it. */
  lemma SleepsIffUnset(com: bool, es: seq<Event>, f: FrameId)
    requires Enabled(Exec(Start(com), es), WaitOnAddress(f))
    ensures var s, isSet := Step(Exec(Start(com), es), WaitOnAddress(f)), SetFlag(f) in Moves(Start(com), es);
            f in s.frames && s.frames[f].handle == Sleeping(if isSet then CheckFlag else Blocked, isSet)
  {
    RunIsTold(com, es, f);
    OthersUntouched(Exec(Start(com), es), WaitOnAddress(f), f);
  }

  /** A client comes back to its context by one way of three: it is there already, it goes there from the body's
      thread, or, if that may not, from a thread of the pool. */
  lemma OneWayIntoContext(com: bool, es: seq<Event>, f: FrameId)
    requires f in Exec(Start(com), es).frames
    ensures var ms := Moves(Start(com), es);
            && (CallbackRuns(f) in ms || CallbackFails(f) in ms ==>
                  EnterContext(f) in ms || (SubmitToPool(f) in ms && PoolRuns(f) in ms))
            && !(SubmitToPool(f) in ms && EnterContext(f) in ms)
            && (ResumeHere(f) in ms ==> SubmitToPool(f) !in ms && EnterContext(f) !in ms)
  {
    RunIsTold(com, es, f);
  }

  /** An owner that awaited the task has read it by the time it lets go, unless it could not be brought back to its
      apartment; and one that did not await has read nothing. */
  lemma AwaitedIsRead(com: bool, es: seq<Event>, f: FrameId)
    requires f in Exec(Start(com), es).frames && LetsGo(Exec(Start(com), es).frames[f].handle)
    ensures var ms := Moves(Start(com), es);
            ReadResult(f) in ms <==> Awaits(ms, f) && CallbackFails(f) !in ms
  {
    RunIsTold(com, es, f);
  }

  /** A client waits in one mode and is resumed accordingly: by the body's thread, through its context, or by the
      flag it sleeps on. */
  lemma ResumedAsAsked(com: bool, es: seq<Event>, f: FrameId, m: Mode)
    requires f in Exec(Start(com), es).frames && BeginAwait(f, m) in Moves(Start(com), es)
    ensures var fr, ms := Exec(Start(com), es).frames[f], Moves(Start(com), es);
            && (ThroughContext(ms, f) ==> m == Apartment) && (SetFlag(f) in ms ==> m == Sync)
            && (fr.resumed == 1 && m == Apartment ==> ThroughContext(ms, f))
            && (fr.resumed == 1 && m == Sync ==> SetFlag(f) in ms)
  {
    RunIsTold(com, es, f);
  }

  /** Once resumed where it belongs, a client can go on to read, and then has. */
  lemma ResumedCanRead(s: Pool, f: FrameId)
    requires f in s.frames && s.frames[f].handle == Resumed(false)
    ensures Enabled(s, CheckContext(f)) && Enabled(Step(s, CheckContext(f)), ReadResult(f))
    ensures var s' := Step(Step(s, CheckContext(f)), ReadResult(f));
            f in s'.frames && s'.frames[f].result.Read?
  {
    OthersUntouched(s, CheckContext(f), f);
    OthersUntouched(Step(s, CheckContext(f)), ReadResult(f), f);
  }
}
