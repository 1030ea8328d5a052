/** The folder change reader: thread-pool callbacks that parse the shared buffer and start the next directory
    read, the operating system that completes reads, and the destructor that tears all of it down.  The lock
    `m_cancelLock` and the nulled pointer `m_tpIo` are all that keeps them apart. */
module FolderReader {
  import EntryWalk

  /** The result a read completes with: ERROR_SUCCESS, ERROR_NOTIFY_ENUM_DIR, or anything else. */
  datatype Completion = Changes | ChangesLost | OtherError

  /** One callback: parsing the buffer and calling the user, trying the lock, testing `m_tpIo`, the three calls of
      `StartIo`, releasing the lock, and leaving. */
  datatype Callback =
    Parsing(result: Completion) | TryingLock | Testing | Starting | Issuing | Failing | Unlocking | Leaving

  /** The thread that creates and destroys the reader. */
  datatype Owner =
    | Creating | CreatorIssuing | CreatorFailing | Live
    | WantsExclusive | HasExclusive | Nulled | Cancelling | AwaitsIo | Draining | Closed | Freed

  type CallbackId = nat

  /** `pending` counts directory reads in progress, `queue` holds completions not yet dispatched.  The last four
      fields are the thread pool's account of StartThreadpoolIo and what became of each start. */
  datatype Reader = Reader(
    tpIo: bool, shared: nat, exclusive: bool, pending: nat, queue: seq<Completion>, account: Account)

  datatype Account = Account(started: nat, completed: nat, cancelled: nat, dropped: nat)

  datatype State = State(reader: Reader, owner: Owner, callbacks: map<CallbackId, Callback>)

  /** The reader has been allocated and its thread-pool object created. */
  const START := State(Reader(true, 0, false, 0, [], Account(0, 0, 0, 0)), Creating, map[])

  datatype Event =
    // the creator's StartIo, then the destructor
    | CreatorStarts
    | CreatorIssues(ok: bool)
    | CreatorCancels
    | BeginDestroy
    | LockExclusive
    | NullTpIo
    | UnlockExclusive
    | CancelIo(notFound: bool)
    | AwaitOverlapped
    | DropQueued
    | WaitAndClose
    | FreeMemory
    // the operating system
    | CompleteRead(result: Completion)
    | Dispatch(id: CallbackId)
    // a callback
    | FinishParsing(id: CallbackId)
    | TryLockShared(id: CallbackId)
    | TestTpIo(id: CallbackId)
    | StartThreadpoolIo(id: CallbackId)
    | IssueRead(id: CallbackId, ok: bool)
    | CancelThreadpoolIo(id: CallbackId)
    | UnlockShared(id: CallbackId)
    | Leave(id: CallbackId)

  predicate In(s: State, id: CallbackId, c: Callback) { id in s.callbacks && s.callbacks[id] == c }

  predicate Enabled(s: State, e: Event) {
    match e
    case CreatorStarts => s.owner == Creating
    case CreatorIssues(_) => s.owner == CreatorIssuing
    case CreatorCancels => s.owner == CreatorFailing
    case BeginDestroy => s.owner == Live
    case LockExclusive => s.owner == WantsExclusive && s.reader.shared == 0
    case NullTpIo => s.owner == HasExclusive
    case UnlockExclusive => s.owner == Nulled
    case CancelIo(notFound) => s.owner == Cancelling && (notFound ==> s.reader.pending == 0)
    case AwaitOverlapped => s.owner == AwaitsIo && s.reader.pending == 0
    case DropQueued => s.owner == Draining && s.reader.queue != []
    case WaitAndClose => s.owner == Draining && s.reader.queue == [] && s.callbacks == map[]
    case FreeMemory => s.owner == Closed
    case CompleteRead(_) => s.reader.pending > 0
    case Dispatch(id) => s.reader.queue != [] && id !in s.callbacks
    case FinishParsing(id) => id in s.callbacks && s.callbacks[id].Parsing?
    case TryLockShared(id) => In(s, id, TryingLock)
    case TestTpIo(id) => In(s, id, Testing)
    case StartThreadpoolIo(id) => In(s, id, Starting)
    case IssueRead(id, _) => In(s, id, Issuing)
    case CancelThreadpoolIo(id) => In(s, id, Failing)
    case UnlockShared(id) => In(s, id, Unlocking)
    case Leave(id) => In(s, id, Leaving)
  }

  function Started(r: Reader): Reader { r.(account := r.account.(started := r.account.started + 1)) }
  function Issued(r: Reader, ok: bool): Reader { if ok then r.(pending := r.pending + 1) else r }
  function Cancelled(r: Reader): Reader { r.(account := r.account.(cancelled := r.account.cancelled + 1)) }

  function Completed(r: Reader, result: Completion): Reader
    requires r.pending > 0
  {
    r.(pending := r.pending - 1, queue := r.queue + [result])
  }

  function Dispatched(r: Reader): Reader
    requires r.queue != []
  {
    r.(queue := r.queue[1..], account := r.account.(completed := r.account.completed + 1))
  }

  function Dropped(r: Reader): Reader
    requires r.queue != []
  {
    r.(queue := r.queue[1..], account := r.account.(dropped := r.account.dropped + 1))
  }

  predicate IsCallbackEvent(e: Event) {
    e.FinishParsing? || e.TryLockShared? || e.TestTpIo? || e.StartThreadpoolIo? || e.IssueRead? ||
    e.CancelThreadpoolIo? || e.UnlockShared?
  }

  function ReaderAfter(s: State, e: Event): Reader
    requires Enabled(s, e)
  {
    var r := s.reader;
    match e
    case CreatorStarts => Started(r)
    case CreatorIssues(ok) => Issued(r, ok)
    case CreatorCancels => Cancelled(r)
    case LockExclusive => r.(exclusive := true)
    case NullTpIo => r.(tpIo := false)
    case UnlockExclusive => r.(exclusive := false)
    case DropQueued => Dropped(r)
    case CompleteRead(result) => Completed(r, result)
    case Dispatch(_) => Dispatched(r)
    case TryLockShared(_) => if r.exclusive then r else r.(shared := r.shared + 1)
    case StartThreadpoolIo(_) => Started(r)
    case IssueRead(_, ok) => Issued(r, ok)
    case CancelThreadpoolIo(_) => Cancelled(r)
    case UnlockShared(_) => if r.shared > 0 then r.(shared := r.shared - 1) else r
    case _ => r
  }

  function OwnerAfter(o: Owner, e: Event): Owner {
    match e
    case CreatorStarts => CreatorIssuing
    case CreatorIssues(ok) => if ok then Live else CreatorFailing
    case CreatorCancels => WantsExclusive
    case BeginDestroy => WantsExclusive
    case LockExclusive => HasExclusive
    case NullTpIo => Nulled
    case UnlockExclusive => Cancelling
    case CancelIo(notFound) => if notFound then Draining else AwaitsIo
    case AwaitOverlapped => Draining
    case WaitAndClose => Closed
    case FreeMemory => Freed
    case _ => o
  }

  function CallbackAfter(r: Reader, c: Callback, e: Event): Callback {
    match e
    case FinishParsing(_) => if c.Parsing? && c.result != OtherError then TryingLock else Leaving
    case TryLockShared(_) => if r.exclusive then Leaving else Testing
    case TestTpIo(_) => if r.tpIo then Starting else Unlocking
    case StartThreadpoolIo(_) => Issuing
    case IssueRead(_, ok) => if ok then Unlocking else Failing
    case CancelThreadpoolIo(_) => Unlocking
    case UnlockShared(_) => Leaving
    case _ => c
  }

  function CallbacksAfter(s: State, e: Event): map<CallbackId, Callback>
    requires Enabled(s, e)
  {
    if e.Dispatch? then s.callbacks[e.id := Parsing(s.reader.queue[0])]
    else if e.Leave? then s.callbacks - {e.id}
    else if IsCallbackEvent(e) then s.callbacks[e.id := CallbackAfter(s.reader, s.callbacks[e.id], e)]
    else s.callbacks
  }

  function Step(s: State, e: Event): State
    requires Enabled(s, e)
  {
    State(ReaderAfter(s, e), OwnerAfter(s.owner, e), CallbacksAfter(s, e))
  }

  function Exec(s: State, es: seq<Event>): State
    decreases |es|
  {
    if es == [] then s else Exec(if Enabled(s, es[0]) then Step(s, es[0]) else s, es[1..])
  }

  // ----- what can go wrong -----

  datatype Fault = TwoReads | BufferInUse | NoTpIo | Unbalanced | LateAccess

  predicate Parses(c: Callback) { c.Parsing? }

  /** TwoReads: a read is started while one is in progress.  BufferInUse: a read starts while a callback still
      parses, or a callback is dispatched while a read may write the buffer.  NoTpIo: StartIo after the pointer was
      nulled.  Unbalanced: the thread-pool object is closed while a start is unaccounted for.  LateAccess: the
      system or a callback acts on freed memory. */
  ghost function Faults(s: State, e: Event): set<Fault> {
    var issues := (e.CreatorIssues? || e.IssueRead?) && e.ok;
    var a := s.reader.account;
    (if issues && s.reader.pending > 0 then {TwoReads} else {}) +
    (if (issues && exists id :: id in s.callbacks && Parses(s.callbacks[id])) || (e.Dispatch? && s.reader.pending > 0)
     then {BufferInUse} else {}) +
    (if (e.CreatorStarts? || e.StartThreadpoolIo? || e.IssueRead? || e.CancelThreadpoolIo?) && !s.reader.tpIo
     then {NoTpIo} else {}) +
    (if e.WaitAndClose? && a.started != a.completed + a.cancelled + a.dropped then {Unbalanced} else {}) +
    (if s.owner == Freed then {LateAccess} else {})
  }

  // ----- counting callbacks -----

  ghost function Those(m: map<CallbackId, Callback>, p: Callback -> bool): set<CallbackId> {
    set id | id in m && p(m[id])
  }

  ghost function Count(m: map<CallbackId, Callback>, p: Callback -> bool): nat { |Those(m, p)| }

  lemma CountAdd(m: map<CallbackId, Callback>, p: Callback -> bool, id: CallbackId, c: Callback)
    requires id !in m
    ensures Count(m[id := c], p) == if p(c) then Count(m, p) + 1 else Count(m, p)
  {
    assert Those(m[id := c], p) == if p(c) then Those(m, p) + {id} else Those(m, p);
  }

  lemma CountRemove(m: map<CallbackId, Callback>, p: Callback -> bool, id: CallbackId)
    requires id in m
    ensures Count(m, p) == if p(m[id]) then Count(m - {id}, p) + 1 else Count(m - {id}, p)
  {
    CountAdd(m - {id}, p, id, m[id]);
    assert (m - {id})[id := m[id]] == m;
  }

  lemma CountChange(m: map<CallbackId, Callback>, p: Callback -> bool, id: CallbackId, c: Callback)
    requires id in m
    ensures p(c) == p(m[id]) ==> Count(m[id := c], p) == Count(m, p)
    ensures p(c) && !p(m[id]) ==> Count(m[id := c], p) == Count(m, p) + 1
    ensures !p(c) && p(m[id]) ==> Count(m[id := c], p) + 1 == Count(m, p)
  {
    CountRemove(m, p, id);
    CountAdd(m - {id}, p, id, c);
    assert (m - {id})[id := c] == m[id := c];
  }

  lemma CountPositive(m: map<CallbackId, Callback>, p: Callback -> bool, id: CallbackId)
    requires id in m && p(m[id])
    ensures Count(m, p) > 0
  {
    CountRemove(m, p, id);
  }

  // ----- the invariant -----

  /** The callback has yet to hand on its turn to read. */
  predicate HasTurn(c: Callback) { c.Parsing? || c == TryingLock || c == Testing || c == Starting || c == Issuing }
  predicate HoldsLock(c: Callback) { c == Testing || MayStart(c) || c == Unlocking }
  predicate MayStart(c: Callback) { c == Starting || c == Issuing || c == Failing }
  predicate Unsettled(c: Callback) { c == Issuing || c == Failing }

  function One(b: bool): nat { if b then 1 else 0 }

  ghost predicate Turns(s: State) {
    s.reader.pending + |s.reader.queue| + Count(s.callbacks, HasTurn)
    + One(s.owner == Creating || s.owner == CreatorIssuing) <= 1
  }

  ghost predicate Locks(s: State) {
    && s.reader.shared == Count(s.callbacks, HoldsLock)
    && (s.reader.exclusive <==> s.owner == HasExclusive || s.owner == Nulled)
    && (s.reader.exclusive ==> s.reader.shared == 0)
  }

  ghost predicate Balance(s: State) {
    var a := s.reader.account;
    a.started == a.completed + a.cancelled + a.dropped + s.reader.pending + |s.reader.queue| +
                 Count(s.callbacks, Unsettled) + One(s.owner == CreatorIssuing || s.owner == CreatorFailing)
  }

  predicate BeforeNull(o: Owner) {
    o == Creating || o == CreatorIssuing || o == CreatorFailing || o == Live || o == WantsExclusive || o == HasExclusive
  }

  ghost predicate Teardown(s: State) {
    && (s.reader.tpIo <==> BeforeNull(s.owner))
    && (Count(s.callbacks, MayStart) > 0 ==> s.reader.tpIo && !s.reader.exclusive)
    && (s.owner == Draining || s.owner == Closed || s.owner == Freed ==> s.reader.pending == 0)
    && (s.owner == Closed || s.owner == Freed ==> s.reader.queue == [] && s.callbacks == map[])
  }

  ghost predicate Inv(s: State) { Turns(s) && Locks(s) && Balance(s) && Teardown(s) }

  /** How one event changes the number of callbacks of one kind. */
  lemma CountStep(s: State, e: Event, p: Callback -> bool)
    requires Enabled(s, e)
    ensures var before, after := Count(s.callbacks, p), Count(Step(s, e).callbacks, p);
            if e.Dispatch? then after == if p(Parsing(s.reader.queue[0])) then before + 1 else before
            else if e.Leave? then before == if p(Leaving) then after + 1 else after
            else if IsCallbackEvent(e) then
              var c, c' := s.callbacks[e.id], CallbackAfter(s.reader, s.callbacks[e.id], e);
              && (p(c') == p(c) ==> after == before)
              && (p(c') && !p(c) ==> after == before + 1)
              && (!p(c') && p(c) ==> after + 1 == before)
            else after == before
  {
    if e.Dispatch? { CountAdd(s.callbacks, p, e.id, Parsing(s.reader.queue[0])); }
    else if e.Leave? { CountRemove(s.callbacks, p, e.id); }
    else if IsCallbackEvent(e) { CountChange(s.callbacks, p, e.id, CallbackAfter(s.reader, s.callbacks[e.id], e)); }
  }

  lemma StepKeepsTurns(s: State, e: Event)
    requires Enabled(s, e) && Inv(s)
    ensures Turns(Step(s, e))
  {
    CountStep(s, e, HasTurn);
  }

  lemma StepKeepsLocks(s: State, e: Event)
    requires Enabled(s, e) && Inv(s)
    ensures Locks(Step(s, e))
  {
    CountStep(s, e, HoldsLock);
    if e.UnlockShared? { CountPositive(s.callbacks, HoldsLock, e.id); }
  }

  lemma StepKeepsBalance(s: State, e: Event)
    requires Enabled(s, e) && Inv(s)
    ensures Balance(Step(s, e))
  {
    CountStep(s, e, Unsettled);
  }

  lemma StartersHoldLock(s: State)
    requires Locks(s) && s.reader.shared == 0
    ensures Count(s.callbacks, MayStart) == 0
  {
    if id :| id in s.callbacks && MayStart(s.callbacks[id]) {
      CountPositive(s.callbacks, HoldsLock, id);
    }
    assert Those(s.callbacks, MayStart) == {};
  }

  lemma StepKeepsTeardown(s: State, e: Event)
    requires Enabled(s, e) && Inv(s)
    ensures Teardown(Step(s, e))
  {
    CountStep(s, e, MayStart);
    if s.reader.shared == 0 { StartersHoldLock(s); }
    if IsCallbackEvent(e) && MayStart(s.callbacks[e.id]) { CountPositive(s.callbacks, MayStart, e.id); }
    if IsCallbackEvent(e) && HoldsLock(s.callbacks[e.id]) { CountPositive(s.callbacks, HoldsLock, e.id); }
  }

  lemma StepKeepsInv(s: State, e: Event)
    requires Enabled(s, e) && Inv(s)
    ensures Inv(Step(s, e))
  {
    StepKeepsTurns(s, e);
    StepKeepsLocks(s, e);
    StepKeepsBalance(s, e);
    StepKeepsTeardown(s, e);
  }

  lemma {:induction false} RunKeepsInv(s: State, es: seq<Event>)
    requires Inv(s)
    ensures Inv(Exec(s, es))
    decreases |es|
  {
    if es != [] {
      if Enabled(s, es[0]) { StepKeepsInv(s, es[0]); }
      RunKeepsInv(if Enabled(s, es[0]) then Step(s, es[0]) else s, es[1..]);
    }
  }

  lemma NoFault(s: State, e: Event)
    requires Enabled(s, e) && Inv(s)
    ensures Faults(s, e) == {}
  {
    var issuing := e.IssueRead? && In(s, e.id, Issuing);
    if issuing { CountPositive(s.callbacks, HasTurn, e.id); CountPositive(s.callbacks, MayStart, e.id); }
    if e.StartThreadpoolIo? || e.CancelThreadpoolIo? { CountPositive(s.callbacks, MayStart, e.id); }
    if e.CreatorIssues? || issuing {
      if id :| id in s.callbacks && Parses(s.callbacks[id]) {
        OneTurn(s, id, if issuing then e.id else id);
      }
    }
    if s.owner == Closed || s.owner == Draining { NoneUnsettled(s); }
  }

  /** Two callbacks never have the turn at once, and none has it with the creator. */
  lemma OneTurn(s: State, i: CallbackId, j: CallbackId)
    requires Turns(s) && i in s.callbacks && HasTurn(s.callbacks[i]) && j in s.callbacks && HasTurn(s.callbacks[j])
    ensures i == j && s.owner != CreatorIssuing
  {
    CountRemove(s.callbacks, HasTurn, i);
    if i != j { CountPositive(s.callbacks - {i}, HasTurn, j); }
  }

  lemma NoneUnsettled(s: State)
    ensures s.callbacks == map[] ==> Count(s.callbacks, Unsettled) == 0
  {
    if s.callbacks == map[] { assert Those(s.callbacks, Unsettled) == {}; }
  }

  // ----- results over every run -----

  lemma StartInv()
    ensures Inv(START)
  {
    assert Those(START.callbacks, HasTurn) == {} && Those(START.callbacks, HoldsLock) == {};
    assert Those(START.callbacks, Unsettled) == {} && Those(START.callbacks, MayStart) == {};
  }

  /** After any run no next move starts a second read, lets a read write the buffer a callback parses, uses the
      nulled pointer, closes an unbalanced thread-pool object, or touches freed memory. */
  lemma EveryMoveIsSafe(es: seq<Event>, e: Event)
    requires Enabled(Exec(START, es), e)
    ensures Faults(Exec(START, es), e) == {}
  {
    StartInv();
    RunKeepsInv(START, es);
    NoFault(Exec(START, es), e);
  }

  /** At most one read is in progress; while a callback parses there is none, and nobody else parses. */
  lemma OneReadAtATime(es: seq<Event>)
    ensures var s := Exec(START, es);
            && s.reader.pending <= 1
            && forall i, j :: i in s.callbacks && j in s.callbacks && Parses(s.callbacks[i]) && Parses(s.callbacks[j])
                 ==> i == j && s.reader.pending == 0
  {
    StartInv();
    RunKeepsInv(START, es);
    var s := Exec(START, es);
    forall i, j | i in s.callbacks && j in s.callbacks && Parses(s.callbacks[i]) && Parses(s.callbacks[j])
      ensures i == j && s.reader.pending == 0
    {
      OneTurn(s, i, j);
      CountPositive(s.callbacks, HasTurn, i);
    }
  }

  /** From the end of the destructor's exclusive section on, no event starts a read. */
  lemma NoReadAfterExclusiveSection(es: seq<Event>, e: Event)
    requires Enabled(Exec(START, es), e) && !BeforeNull(Exec(START, es).owner)
    ensures !e.CreatorStarts? && !e.CreatorIssues? && !e.StartThreadpoolIo? && !e.IssueRead?
    ensures Step(Exec(START, es), e).reader.pending <= Exec(START, es).reader.pending
    ensures !BeforeNull(Step(Exec(START, es), e).owner)
  {
    StartInv();
    RunKeepsInv(START, es);
    var s := Exec(START, es);
    if e.StartThreadpoolIo? || e.IssueRead? { CountPositive(s.callbacks, MayStart, e.id); }
  }

  /** When the thread-pool object has been closed nothing is in progress, and every start has been completed,
      cancelled, or dropped with its queued callback. */
  lemma ClosedIsQuiet(es: seq<Event>)
    requires Exec(START, es).owner == Closed || Exec(START, es).owner == Freed
    ensures var r := Exec(START, es).reader;
            && r.pending == 0 && r.queue == [] && r.shared == 0 && Exec(START, es).callbacks == map[]
            && r.account.started == r.account.completed + r.account.cancelled + r.account.dropped
  {
    StartInv();
    RunKeepsInv(START, es);
    var s := Exec(START, es);
    NoneUnsettled(s);
    assert Those(s.callbacks, HoldsLock) == {};
  }

  // ----- what the events of a run say -----

  /** The results reads completed with, in their order. */
  function CompletedIn(s: State, es: seq<Event>): seq<Completion>
    decreases |es|
  {
    if es == [] then []
    else if Enabled(s, es[0]) then
      (if es[0].CompleteRead? then [es[0].result] else []) + CompletedIn(Step(s, es[0]), es[1..])
    else CompletedIn(s, es[1..])
  }

  /** What an event takes off the queue: the result a callback begins with, or one the destructor drops. */
  function TakenBy(s: State, e: Event): seq<Completion>
    requires Enabled(s, e)
  {
    var cs := Step(s, e).callbacks;
    if e.Dispatch? && e.id in cs && cs[e.id].Parsing? then [cs[e.id].result]
    else if e.DropQueued? then s.reader.queue[..1]
    else []
  }

  function TakenIn(s: State, es: seq<Event>): seq<Completion>
    decreases |es|
  {
    if es == [] then []
    else if Enabled(s, es[0]) then TakenBy(s, es[0]) + TakenIn(Step(s, es[0]), es[1..])
    else TakenIn(s, es[1..])
  }

  lemma StepTakes(s: State, e: Event)
    requires Enabled(s, e)
    ensures s.reader.queue + (if e.CompleteRead? then [e.result] else []) == TakenBy(s, e) + Step(s, e).reader.queue
  {
  }

  lemma Regroup<T>(q: seq<T>, now: seq<T>, later: seq<T>, taken: seq<T>, q': seq<T>, rest: seq<T>, last: seq<T>)
    requires q + now == taken + q' && q' + later == rest + last
    ensures q + (now + later) == (taken + rest) + last
  {
    assert q + (now + later) == (q + now) + later == taken + (q' + later);
  }

  /** Every completion is handed to a callback or dropped, once and in the order the reads completed in. */
  lemma {:induction false} CompletionsArriveInOrder(s: State, es: seq<Event>)
    ensures s.reader.queue + CompletedIn(s, es) == TakenIn(s, es) + Exec(s, es).reader.queue
    decreases |es|
  {
    if es != [] {
      if Enabled(s, es[0]) {
        StepTakes(s, es[0]);
        CompletionsArriveInOrder(Step(s, es[0]), es[1..]);
        var s' := Step(s, es[0]);
        Regroup(s.reader.queue, if es[0].CompleteRead? then [es[0].result] else [], CompletedIn(s', es[1..]),
                TakenBy(s, es[0]), s'.reader.queue, TakenIn(s', es[1..]), Exec(s', es[1..]).reader.queue);
      } else {
        CompletionsArriveInOrder(s, es[1..]);
      }
    }
  }

  /** How many starts, callbacks, cancels and drops the run makes. */
  function AccountOf(s: State, es: seq<Event>): Account
    decreases |es|
  {
    if es == [] then Account(0, 0, 0, 0)
    else if Enabled(s, es[0]) then
      var e, rest := es[0], AccountOf(Step(s, es[0]), es[1..]);
      Account(rest.started + One(e.CreatorStarts? || e.StartThreadpoolIo?),
              rest.completed + One(e.Dispatch?),
              rest.cancelled + One(e.CreatorCancels? || e.CancelThreadpoolIo?),
              rest.dropped + One(e.DropQueued?))
    else AccountOf(s, es[1..])
  }

  /** How many of its reads were issued. */
  function IssuedIn(s: State, es: seq<Event>): nat
    decreases |es|
  {
    if es == [] then 0
    else if Enabled(s, es[0]) then
      IssuedIn(Step(s, es[0]), es[1..]) + One((es[0].CreatorIssues? || es[0].IssueRead?) && es[0].ok)
    else IssuedIn(s, es[1..])
  }

  lemma StepAccounts(s: State, e: Event)
    requires Enabled(s, e)
    ensures var a, a' := s.reader.account, Step(s, e).reader.account;
            && a'.started == a.started + One(e.CreatorStarts? || e.StartThreadpoolIo?)
            && a'.completed == a.completed + One(e.Dispatch?)
            && a'.cancelled == a.cancelled + One(e.CreatorCancels? || e.CancelThreadpoolIo?)
            && a'.dropped == a.dropped + One(e.DropQueued?)
    ensures Step(s, e).reader.pending + One(e.CompleteRead?) ==
            s.reader.pending + One((e.CreatorIssues? || e.IssueRead?) && e.ok)
  {
  }

  /** The account is the run's own, and the reads in progress are those issued and not completed. */
  lemma {:induction false} AccountHoldsTheRun(s: State, es: seq<Event>)
    ensures var a, b, run := s.reader.account, Exec(s, es).reader.account, AccountOf(s, es);
            && b.started == a.started + run.started && b.completed == a.completed + run.completed
            && b.cancelled == a.cancelled + run.cancelled && b.dropped == a.dropped + run.dropped
    ensures Exec(s, es).reader.pending + |CompletedIn(s, es)| == s.reader.pending + IssuedIn(s, es)
    decreases |es|
  {
    if es != [] {
      if Enabled(s, es[0]) {
        StepAccounts(s, es[0]);
        AccountHoldsTheRun(Step(s, es[0]), es[1..]);
      } else {
        AccountHoldsTheRun(s, es[1..]);
      }
    }
  }

  // ----- the way of the creator and destructor -----

  predicate IsOwnerEvent(e: Event) {
    e.CreatorStarts? || e.CreatorIssues? || e.CreatorCancels? || e.BeginDestroy? || e.LockExclusive? || e.NullTpIo? ||
    e.UnlockExclusive? || e.CancelIo? || e.AwaitOverlapped? || e.WaitAndClose? || e.FreeMemory?
  }

  /** What the owner does on the run, in order; dropping queued callbacks is part of its wait. */
  function OwnersPart(s: State, es: seq<Event>): seq<Event>
    decreases |es|
  {
    if es == [] then []
    else if Enabled(s, es[0]) then
      (if IsOwnerEvent(es[0]) then [es[0]] else []) + OwnersPart(Step(s, es[0]), es[1..])
    else OwnersPart(s, es[1..])
  }

  function Creation(ok: bool): seq<Event> {
    [CreatorStarts, CreatorIssues(ok), if ok then BeginDestroy else CreatorCancels]
  }

  /** A creator that succeeded or failed, and then this. */
  predicate AfterCreation(done: seq<Event>, rest: seq<Event>) {
    done == Creation(true) + rest || done == Creation(false) + rest
  }

  function Exclusive(): seq<Event> { [LockExclusive, NullTpIo, UnlockExclusive] }

  /** Where the owner stands when it has done that: it awaits a cancelled read only if there was one. */
  predicate HasDone(o: Owner, done: seq<Event>) {
    match o
    case Creating => done == []
    case CreatorIssuing => done == [CreatorStarts]
    case CreatorFailing => done == [CreatorStarts, CreatorIssues(false)]
    case Live => done == [CreatorStarts, CreatorIssues(true)]
    case WantsExclusive => AfterCreation(done, [])
    case HasExclusive => AfterCreation(done, [LockExclusive])
    case Nulled => AfterCreation(done, [LockExclusive, NullTpIo])
    case Cancelling => AfterCreation(done, Exclusive())
    case AwaitsIo => AfterCreation(done, Exclusive() + [CancelIo(false)])
    case Draining => HasWaited(done, [])
    case Closed => HasWaited(done, [WaitAndClose])
    case Freed => HasWaited(done, [WaitAndClose, FreeMemory])
  }

  predicate HasWaited(done: seq<Event>, rest: seq<Event>) {
    || AfterCreation(done, Exclusive() + [CancelIo(true)] + rest)
    || AfterCreation(done, Exclusive() + [CancelIo(false), AwaitOverlapped] + rest)
  }

  predicate BeforeCancel(o: Owner) { BeforeNull(o) || o == Nulled }

  lemma OwnerDoesEarly(o: Owner, e: Event, done: seq<Event>)
    requires HasDone(o, done) && IsOwnerEvent(e) && BeforeCancel(o) && OwnersTurn(o, e)
    ensures HasDone(OwnerAfter(o, e), done + [e])
  {
  }

  lemma OwnerDoesLate(o: Owner, e: Event, done: seq<Event>)
    requires HasDone(o, done) && IsOwnerEvent(e) && !BeforeCancel(o) && OwnersTurn(o, e)
    ensures HasDone(OwnerAfter(o, e), done + [e])
  {
  }

  /** The part of the guard that is about the owner's own position. */
  predicate OwnersTurn(o: Owner, e: Event) {
    match e
    case CreatorStarts => o == Creating
    case CreatorIssues(_) => o == CreatorIssuing
    case CreatorCancels => o == CreatorFailing
    case BeginDestroy => o == Live
    case LockExclusive => o == WantsExclusive
    case NullTpIo => o == HasExclusive
    case UnlockExclusive => o == Nulled
    case CancelIo(_) => o == Cancelling
    case AwaitOverlapped => o == AwaitsIo
    case WaitAndClose => o == Draining
    case FreeMemory => o == Closed
    case _ => false
  }

  lemma OwnerDoes(s: State, e: Event, done: seq<Event>)
    requires Enabled(s, e) && HasDone(s.owner, done)
    ensures HasDone(Step(s, e).owner, done + if IsOwnerEvent(e) then [e] else [])
  {
    if !IsOwnerEvent(e) { assert done + [] == done; }
    else if BeforeCancel(s.owner) { OwnerDoesEarly(s.owner, e, done); }
    else { OwnerDoesLate(s.owner, e, done); }
  }

  lemma {:induction false} OwnerHasDone(s: State, es: seq<Event>, done: seq<Event>)
    requires HasDone(s.owner, done)
    ensures HasDone(Exec(s, es).owner, done + OwnersPart(s, es))
    decreases |es|
  {
    if es == [] {
      assert done + [] == done;
    } else if Enabled(s, es[0]) {
      var now := if IsOwnerEvent(es[0]) then [es[0]] else [];
      OwnerDoes(s, es[0], done);
      OwnerHasDone(Step(s, es[0]), es[1..], done + now);
      assert done + (now + OwnersPart(Step(s, es[0]), es[1..])) == done + now + OwnersPart(Step(s, es[0]), es[1..]);
    } else {
      OwnerHasDone(s, es[1..], done);
    }
  }

  /** The reader is created and torn down in the order of the code: a start that fails is taken back and leads
      straight to the destructor, and the destructor waits for a cancelled read only if there was one. */
  lemma OwnerFollowsTheCode(es: seq<Event>)
    ensures HasDone(Exec(START, es).owner, OwnersPart(START, es))
  {
    OwnerHasDone(START, es, []);
    assert [] + OwnersPart(START, es) == OwnersPart(START, es);
  }

  // ----- a live reader does not go deaf -----

  /** A read that could not be started, or that fails for another reason than too many changes. */
  predicate Deafens(e: Event) {
    e == CompleteRead(OtherError) || (e.IssueRead? && !e.ok) || (e.CreatorIssues? && !e.ok)
  }

  ghost predicate StaysAudible(s: State, es: seq<Event>)
    decreases |es|
  {
    es == [] ||
    (if Enabled(s, es[0]) then !Deafens(es[0]) && StaysAudible(Step(s, es[0]), es[1..]) else StaysAudible(s, es[1..]))
  }

  predicate MayListen(o: Owner) { o == Creating || o == CreatorIssuing || o == Live || o == WantsExclusive }

  /** Somebody has the turn, and no completion in the queue or in hand ends it. */
  ghost predicate Awake(s: State) {
    && (MayListen(s.owner) ==>
          s.reader.pending + |s.reader.queue| + Count(s.callbacks, HasTurn)
          + One(s.owner == Creating || s.owner == CreatorIssuing) == 1)
    && s.owner != CreatorFailing && OtherError !in s.reader.queue
    && forall id :: id in s.callbacks ==> s.callbacks[id] != Parsing(OtherError) && s.callbacks[id] != Failing
  }

  lemma CallbackKeepsAwake(s: State, e: Event)
    requires Enabled(s, e) && Inv(s) && Awake(s) && !Deafens(e) && IsCallbackEvent(e)
    ensures Awake(Step(s, e))
  {
    CountStep(s, e, HasTurn);
    if MayStart(s.callbacks[e.id]) { CountPositive(s.callbacks, MayStart, e.id); }
  }

  lemma StepKeepsAwake(s: State, e: Event)
    requires Enabled(s, e) && Inv(s) && Awake(s) && !Deafens(e)
    ensures Awake(Step(s, e))
  {
    if IsCallbackEvent(e) { CallbackKeepsAwake(s, e); } else { CountStep(s, e, HasTurn); }
  }

  lemma {:induction false} RunKeepsAwake(s: State, es: seq<Event>)
    requires Inv(s) && Awake(s) && StaysAudible(s, es)
    ensures Awake(Exec(s, es))
    decreases |es|
  {
    if es != [] {
      if Enabled(s, es[0]) {
        StepKeepsInv(s, es[0]);
        StepKeepsAwake(s, es[0]);
      }
      RunKeepsAwake(if Enabled(s, es[0]) then Step(s, es[0]) else s, es[1..]);
    }
  }

  /** Until it is torn down, a reader always has exactly one read in progress, completion on its way or callback
      that is going to start the next read; unless a read could not be started or failed for another reason than
      too many changes. */
  lemma LiveReaderListens(es: seq<Event>)
    requires StaysAudible(START, es) && Exec(START, es).owner == Live
    ensures var s := Exec(START, es);
            && s.reader.pending + |s.reader.queue| + Count(s.callbacks, HasTurn) == 1
            && (s.reader.pending == 1 || s.reader.queue != [] ||
                exists id :: id in s.callbacks && HasTurn(s.callbacks[id]))
  {
    StartInv();
    RunKeepsInv(START, es);
    assert Those(START.callbacks, HasTurn) == {};
    RunKeepsAwake(START, es);
    var s := Exec(START, es);
    if Count(s.callbacks, HasTurn) == 1 { var id :| id in Those(s.callbacks, HasTurn); }
  }

  // ----- the destructor gets through -----

  function OwnerRank(o: Owner): nat {
    match o
    case Cancelling => 4
    case AwaitsIo => 3
    case Draining => 2
    case Closed => 1
    case _ => 0
  }

  function Rank(c: Callback): nat {
    match c
    case Parsing(_) => 8
    case TryingLock => 7
    case Testing => 6
    case Starting => 5
    case Issuing => 4
    case Failing => 3
    case Unlocking => 2
    case Leaving => 1
  }

  /** The sum of the callbacks' ranks, counted level by level up to level k. */
  ghost function Load(m: map<CallbackId, Callback>, k: nat): nat {
    if k == 0 then 0 else Load(m, k - 1) + Count(m, c => Rank(c) >= k)
  }

  lemma {:induction false} LoadAdd(m: map<CallbackId, Callback>, id: CallbackId, c: Callback, k: nat)
    requires id !in m
    ensures Load(m[id := c], k) == Load(m, k) + if k <= Rank(c) then k else Rank(c)
  {
    if k > 0 {
      LoadAdd(m, id, c, k - 1);
      CountAdd(m, c => Rank(c) >= k, id, c);
    }
  }

  lemma LoadRemove(m: map<CallbackId, Callback>, id: CallbackId, k: nat)
    requires id in m
    ensures Load(m, k) == Load(m - {id}, k) + if k <= Rank(m[id]) then k else Rank(m[id])
  {
    LoadAdd(m - {id}, id, m[id], k);
    assert (m - {id})[id := m[id]] == m;
  }

  lemma LoadChange(m: map<CallbackId, Callback>, id: CallbackId, c: Callback)
    requires id in m
    ensures Load(m[id := c], 8) == Load(m, 8) - Rank(m[id]) + Rank(c)
  {
    LoadRemove(m, id, 8);
    LoadAdd(m - {id}, id, c, 8);
    assert (m - {id})[id := c] == m[id := c];
  }

  /** What is still to happen once the destructor has left its exclusive section. */
  ghost function Remaining(s: State): nat {
    OwnerRank(s.owner) + 10 * s.reader.pending + 9 * |s.reader.queue| + Load(s.callbacks, 8)
  }

  predicate TornDown(o: Owner) { o == Cancelling || o == AwaitsIo || o == Draining || o == Closed }

  /** How one event changes the sum of the ranks. */
  lemma LoadStep(s: State, e: Event)
    requires Enabled(s, e)
    ensures var before, after := Load(s.callbacks, 8), Load(Step(s, e).callbacks, 8);
            if e.Dispatch? then after == before + 8
            else if e.Leave? then before == after + 1
            else if IsCallbackEvent(e) then
              after == before - Rank(s.callbacks[e.id]) + Rank(CallbackAfter(s.reader, s.callbacks[e.id], e))
            else after == before
  {
    if e.Dispatch? { LoadAdd(s.callbacks, e.id, Parsing(s.reader.queue[0]), 8); }
    else if e.Leave? { LoadRemove(s.callbacks, e.id, 8); }
    else if IsCallbackEvent(e) { LoadChange(s.callbacks, e.id, CallbackAfter(s.reader, s.callbacks[e.id], e)); }
  }

  lemma EveryMoveIsProgress(s: State, e: Event)
    requires Enabled(s, e) && Inv(s) && TornDown(s.owner)
    ensures Remaining(Step(s, e)) < Remaining(s)
    ensures TornDown(Step(s, e).owner) || Step(s, e).owner == Freed
  {
    LoadStep(s, e);
    if IsCallbackEvent(e) && MayStart(s.callbacks[e.id]) { CountPositive(s.callbacks, MayStart, e.id); }
  }

  function MoveOf(id: CallbackId, c: Callback): Event {
    match c
    case Parsing(_) => FinishParsing(id)
    case TryingLock => TryLockShared(id)
    case Testing => TestTpIo(id)
    case Starting => StartThreadpoolIo(id)
    case Issuing => IssueRead(id, false)
    case Failing => CancelThreadpoolIo(id)
    case Unlocking => UnlockShared(id)
    case Leaving => Leave(id)
  }

  lemma SomeMoveIsEnabled(s: State) returns (e: Event)
    requires Inv(s) && TornDown(s.owner)
    ensures Enabled(s, e)
  {
    if s.owner == Cancelling { return CancelIo(false); }
    if s.owner == AwaitsIo { return if s.reader.pending > 0 then CompleteRead(OtherError) else AwaitOverlapped; }
    if s.owner == Closed { return FreeMemory; }
    if s.reader.queue != [] { return DropQueued; }
    if id :| id in s.callbacks { return MoveOf(id, s.callbacks[id]); }
    assert s.callbacks == map[];
    e := WaitAndClose;
  }

  /** After the exclusive section the destructor cannot get stuck: until the memory is freed some move is
      possible, and whatever moves are made, there are only finitely many left. */
  lemma TeardownTerminates(es: seq<Event>, e: Event)
    requires TornDown(Exec(START, es).owner)
    ensures exists f :: Enabled(Exec(START, es), f)
    ensures Enabled(Exec(START, es), e) ==> Remaining(Step(Exec(START, es), e)) < Remaining(Exec(START, es))
  {
    StartInv();
    RunKeepsInv(START, es);
    var f := SomeMoveIsEnabled(Exec(START, es));
    if Enabled(Exec(START, es), e) { EveryMoveIsProgress(Exec(START, es), e); }
  }

  // ----- the reader's own methods, without interference -----

  /** A start that comes to nothing is taken back, so starts stay equal to reads plus cancels. */
  function AfterStartIo(r: Reader, readSucceeds: bool): Reader {
    if readSucceeds then Issued(Started(r), true) else Cancelled(Issued(Started(r), false))
  }

  /** The end of a callback, from the try-lock to the unlock. */
  function AfterRequeue(r: Reader, readSucceeds: bool): Reader {
    if r.exclusive || !r.tpIo then r else AfterStartIo(r, readSucceeds)
  }

  /** Without interference the single steps of a callback add up to that. */
  lemma StepsOfRequeue(s: State, id: CallbackId, readSucceeds: bool)
    requires In(s, id, TryingLock)
    ensures var s' := Exec(s, RequeueEvents(id, readSucceeds));
            s'.reader == AfterRequeue(s.reader, readSucceeds) && In(s', id, Leaving)
  {
    var es := RequeueEvents(id, readSucceeds);
    var s1 := Step(s, es[0]);
    ExecFirst(s, es[0], es[1..]);
    if !s.reader.exclusive {
      var s2 := Step(s1, es[1]);
      ExecFirst(s1, es[1], es[2..]);
      if s.reader.tpIo { StepsOfStartIo(s2, id, readSucceeds); } else { OnlyUnlocks(s2, id, readSucceeds); }
    } else {
      RestIsSkipped(s1, id, readSucceeds);
    }
    assert [es[0]] + es[1..] == es && [es[1]] + es[2..] == es[1..];
  }

  /** A whole callback, from the completion it was dispatched with: after changes and after a loss of changes it goes
      on to the next read, after any other error it does nothing more. */
  lemma StepsOfCallback(s: State, id: CallbackId, result: Completion, readSucceeds: bool)
    requires In(s, id, Parsing(result))
    ensures var s' := Exec(s, [FinishParsing(id)] + RequeueEvents(id, readSucceeds));
            && In(s', id, Leaving)
            && s'.reader == if result == Changes || result == ChangesLost then AfterRequeue(s.reader, readSucceeds)
                            else s.reader
  {
    ExecFirst(s, FinishParsing(id), RequeueEvents(id, readSucceeds));
    if result == OtherError {
      ExecFirst(Step(s, FinishParsing(id)), TryLockShared(id), [TestTpIo(id)] + StartIoEvents(id, readSucceeds));
      RestIsSkipped(Step(s, FinishParsing(id)), id, readSucceeds);
      assert RequeueEvents(id, readSucceeds) ==
             [TryLockShared(id)] + ([TestTpIo(id)] + StartIoEvents(id, readSucceeds));
    } else {
      StepsOfRequeue(Step(s, FinishParsing(id)), id, readSucceeds);
    }
  }

  /** So on a live reader a callback that can start a read leaves exactly one in progress. */
  lemma CallbackStartsTheNextRead(es: seq<Event>, id: CallbackId, result: Completion)
    requires In(Exec(START, es), id, Parsing(result)) && result != OtherError && Exec(START, es).owner == Live
    ensures Exec(Exec(START, es), [FinishParsing(id)] + RequeueEvents(id, true)).reader.pending == 1
  {
    StartInv();
    RunKeepsInv(START, es);
    CountPositive(Exec(START, es).callbacks, HasTurn, id);
    StepsOfCallback(Exec(START, es), id, result, true);
  }

  function RequeueEvents(id: CallbackId, readSucceeds: bool): seq<Event> {
    [TryLockShared(id), TestTpIo(id)] + StartIoEvents(id, readSucceeds)
  }

  function StartIoEvents(id: CallbackId, readSucceeds: bool): seq<Event> {
    [StartThreadpoolIo(id), IssueRead(id, readSucceeds), CancelThreadpoolIo(id), UnlockShared(id)]
  }

  lemma ExecFirst(s: State, e: Event, es: seq<Event>)
    ensures Exec(s, [e] + es) == Exec(if Enabled(s, e) then Step(s, e) else s, es)
  {
    assert ([e] + es)[1..] == es;
  }

  /** A callback that has left its turn ignores what is left of it. */
  lemma RestIsSkipped(s: State, id: CallbackId, readSucceeds: bool)
    requires In(s, id, Leaving)
    ensures Exec(s, [TestTpIo(id)] + StartIoEvents(id, readSucceeds)) == s
    ensures Exec(s, StartIoEvents(id, readSucceeds)) == s
  {
    ExecFirst(s, TestTpIo(id), StartIoEvents(id, readSucceeds));
    ExecFirst(s, StartThreadpoolIo(id), [IssueRead(id, readSucceeds), CancelThreadpoolIo(id), UnlockShared(id)]);
    ExecFirst(s, IssueRead(id, readSucceeds), [CancelThreadpoolIo(id), UnlockShared(id)]);
    ExecFirst(s, CancelThreadpoolIo(id), [UnlockShared(id)]);
    ExecFirst(s, UnlockShared(id), []);
  }

  /** A callback that only has to unlock does that. */
  lemma OnlyUnlocks(s: State, id: CallbackId, readSucceeds: bool)
    requires In(s, id, Unlocking)
    ensures Exec(s, StartIoEvents(id, readSucceeds)) == Step(s, UnlockShared(id))
    ensures Exec(s, [CancelThreadpoolIo(id), UnlockShared(id)]) == Step(s, UnlockShared(id))
  {
    ExecFirst(s, StartThreadpoolIo(id), [IssueRead(id, readSucceeds), CancelThreadpoolIo(id), UnlockShared(id)]);
    ExecFirst(s, IssueRead(id, readSucceeds), [CancelThreadpoolIo(id), UnlockShared(id)]);
    ExecFirst(s, CancelThreadpoolIo(id), [UnlockShared(id)]);
    ExecFirst(s, UnlockShared(id), []);
  }

  lemma CancelsAndUnlocks(s: State, id: CallbackId)
    requires In(s, id, Failing)
    ensures var s1 := Step(s, CancelThreadpoolIo(id));
            In(s1, id, Unlocking) && Exec(s, [CancelThreadpoolIo(id), UnlockShared(id)]) == Step(s1, UnlockShared(id))
  {
    var s1 := Step(s, CancelThreadpoolIo(id));
    ExecFirst(s, CancelThreadpoolIo(id), [UnlockShared(id)]);
    ExecFirst(s1, UnlockShared(id), []);
  }

  lemma StepsOfStartIo(s: State, id: CallbackId, readSucceeds: bool)
    requires In(s, id, Starting) && s.reader.shared > 0
    ensures var s' := Exec(s, StartIoEvents(id, readSucceeds));
            s'.reader == AfterStartIo(s.reader, readSucceeds).(shared := s.reader.shared - 1) && In(s', id, Leaving)
  {
    var s1 := Step(s, StartThreadpoolIo(id));
    ExecFirst(s, StartThreadpoolIo(id), [IssueRead(id, readSucceeds), CancelThreadpoolIo(id), UnlockShared(id)]);
    StepsAfterStart(s1, id, readSucceeds);
  }

  lemma StepsAfterStart(s: State, id: CallbackId, readSucceeds: bool)
    requires In(s, id, Issuing) && s.reader.shared > 0
    ensures var s' := Exec(s, [IssueRead(id, readSucceeds), CancelThreadpoolIo(id), UnlockShared(id)]);
            var r := Issued(s.reader, readSucceeds);
            && s'.reader == (if readSucceeds then r else Cancelled(r)).(shared := s.reader.shared - 1)
            && In(s', id, Leaving)
  {
    var s1 := Step(s, IssueRead(id, readSucceeds));
    ExecFirst(s, IssueRead(id, readSucceeds), [CancelThreadpoolIo(id), UnlockShared(id)]);
    if readSucceeds { OnlyUnlocks(s1, id, readSucceeds); } else { CancelsAndUnlocks(s1, id); }
  }

  /** What the user's callback is called with. */
  datatype Told = ChangeTold(change: EntryWalk.Change) | LossTold

  function AllTold(changes: seq<EntryWalk.Change>): (r: seq<Told>)
    ensures |r| == |changes| && forall i :: 0 <= i < |r| ==> r[i] == ChangeTold(changes[i])
  {
    if changes == [] then [] else [ChangeTold(changes[0])] + AllTold(changes[1..])
  }

  class FolderChangeReaderState {
    var tpIo: bool
    var shared: nat
    var exclusive: bool
    var pending: nat
    var queue: seq<Completion>
    var account: Account

    ghost function Snapshot(): Reader
      reads this
    {
      Reader(tpIo, shared, exclusive, pending, queue, account)
    }

    constructor ()
      ensures Snapshot() == START.reader
    {
      tpIo, shared, exclusive, pending, queue, account := true, 0, false, 0, [], Account(0, 0, 0, 0);
    }

    method StartIo(readSucceeds: bool) returns (ok: bool)
      requires tpIo
      modifies this`pending, this`account
      ensures ok == readSucceeds && Snapshot() == AfterStartIo(old(Snapshot()), readSucceeds)
    {
      account := account.(started := account.started + 1);
      ok := readSucceeds;
      if ok {
        pending := pending + 1;
      } else {
        account := account.(cancelled := account.cancelled + 1);
      }
    }

    /** The end of the callback: the next read is started unless the lock is taken or the pointer nulled. */
    method Requeue(readSucceeds: bool)
      modifies this
      ensures Snapshot() == AfterRequeue(old(Snapshot()), readSucceeds)
    {
      if exclusive {
        return;
      }
      shared := shared + 1;
      if tpIo {
        var ok := StartIo(readSucceeds);
      }
      shared := shared - 1;
    }

    /** The thread pool's callback: the user is told each change in the buffer, or that changes were lost. */
    method Callback(result: Completion, buffer: EntryWalk.Buffer, size: nat, readSucceeds: bool)
      returns (told: seq<Told>)
      requires result == Changes ==> EntryWalk.Chained(buffer, size)
      modifies this
      ensures match result
              case Changes => told == AllTold(EntryWalk.Changes(EntryWalk.Chain(buffer, size, 0)))
              case ChangesLost => told == [LossTold]
              case OtherError => told == []
      ensures Snapshot() ==
              if result == OtherError then old(Snapshot()) else AfterRequeue(old(Snapshot()), readSucceeds)
    {
      told := [];
      if result == Changes {
        var calls := EntryWalk.ParseBuffer(buffer, size);
        told := AllTold(calls);
      } else if result == ChangesLost {
        told := [LossTold];
      } else {
        return;
      }
      Requeue(readSucceeds);
    }

    /** The destructor's exclusive section. */
    method Retire()
      requires shared == 0 && !exclusive
      modifies this`tpIo, this`exclusive
      ensures Snapshot() == old(Snapshot()).(tpIo := false)
    {
      exclusive := true;
      tpIo := false;
      exclusive := false;
    }
  }
}
