/** The memory of one task promise: the atomic word `m_waiting`, the unsynchronised `m_resumer`
    slot and the result holder, with one method for each indivisible access the coroutine body
    or the owner of the task makes.  The functions on `Promise` say what each access does; the
    class performs it in place; the pool of TaskPool.dfy interleaves the same functions. */
module TaskPromise {

  type FrameId = nat

  /** Who owns a task: a thread that may call `get()`, another task's coroutine, or a coroutine of
      some other type. */
  datatype Client = Thread(t: nat) | Coroutine(f: FrameId) | Foreign(n: nat)

  /** `m_waiting`: three sentinels or the pointer of the one waiting client. */
  datatype Word = RunningPtr | CompletedPtr | AbandonedPtr | ClientPtr(c: Client)

  /** `m_resumer` has no initialiser; a null resumer means "resume the coroutine handle". */
  datatype Resumer = Uninitialised | NullResumer | WakeByAddress | ResumeInContext

  datatype Status = Empty | Value | Error

  /** How a client waits: `resume_any_thread`, `resume_same_apartment`, or `get()`. */
  datatype Mode = Agile | Apartment | Sync

  function ResumerOf(m: Mode): Resumer {
    match m
    case Agile => NullResumer
    case Apartment => ResumeInContext
    case Sync => WakeByAddress
  }

  /** `restricted` tells whether `restricted_error` is non-null. */
  datatype Promise = Promise(waiting: Word, resumer: Resumer, status: Status, restricted: bool)

  const FRESH := Promise(RunningPtr, Uninitialised, Empty, false)

  function AfterAbandon(p: Promise): Promise { p.(waiting := AbandonedPtr) }
  predicate AbandonDestroys(p: Promise) { p.waiting != RunningPtr }

  function AfterFinal(p: Promise): Promise { p.(waiting := CompletedPtr) }

  predicate ReadyAssertion(p: Promise) { p.waiting == RunningPtr || p.waiting == CompletedPtr }
  predicate IsReady(p: Promise) { p.waiting != RunningPtr }

  function AfterStoreResumer(p: Promise, m: Mode): Promise { p.(resumer := ResumerOf(m)) }
  function AfterSuspend(p: Promise, c: Client): Promise { p.(waiting := ClientPtr(c)) }
  predicate SuspendWaits(p: Promise) { p.waiting == RunningPtr }

  function AfterCapture(p: Promise, hook: bool, info: bool): Promise {
    if hook then p.(restricted := info) else p
  }
  function AfterStatus(p: Promise, st: Status): Promise { p.(status := st) }

  /** What `client_await_resume` hands to the client. */
  datatype Outcome = Returned | Rethrown(restoredInfo: bool)

  function OutcomeOf(p: Promise, hook: bool): Outcome {
    if p.status == Value then Returned else Rethrown(p.restricted && hook)
  }

  class PromiseBase {
    var waiting: Word
    var resumer: Resumer
    var status: Status
    var restricted: bool

    ghost function Snapshot(): Promise
      reads this
    {
      Promise(waiting, resumer, status, restricted)
    }

    /** Only the resumer slot is left with an arbitrary value. */
    constructor ()
      ensures Snapshot() == FRESH.(resumer := resumer)
    {
      waiting, status, restricted := RunningPtr, Empty, false;
    }

    method Exchange(desired: Word) returns (previous: Word)
      modifies this`waiting
      ensures previous == old(waiting) && waiting == desired
    {
      previous := waiting;
      waiting := desired;
    }

    /** The exchange of `abandon`; the caller destroys the frame when told to. */
    method Abandon() returns (destroy: bool)
      modifies this`waiting
      ensures Snapshot() == AfterAbandon(old(Snapshot()))
      ensures destroy <==> AbandonDestroys(old(Snapshot()))
    {
      var previous := Exchange(AbandonedPtr);
      destroy := previous != RunningPtr;
    }

    /** The exchange of `final_suspend`; the body then destroys the frame, resumes `client`, or stops. */
    method FinalSuspend() returns (destroy: bool, client: set<Client>)
      modifies this`waiting
      ensures Snapshot() == AfterFinal(old(Snapshot()))
      ensures destroy <==> old(waiting) == AbandonedPtr
      ensures forall c :: c in client <==> old(waiting) == ClientPtr(c)
    {
      var previous := Exchange(CompletedPtr);
      destroy, client := false, {};
      if previous == AbandonedPtr {
        destroy := true;
      } else if previous != RunningPtr && previous != CompletedPtr {
        client := {previous.c};
      }
    }

    method ClientAwaitReady() returns (ready: bool)
      ensures ready <==> IsReady(Snapshot())
    {
      ready := waiting != RunningPtr;
    }

    /** First statement of `client_await_suspend`: a plain write, published by the next exchange. */
    method StoreResumer(m: Mode)
      modifies this`resumer
      ensures Snapshot() == AfterStoreResumer(old(Snapshot()), m)
    {
      resumer := ResumerOf(m);
    }

    /** The exchange of `client_await_suspend`; the result says whether the client stays suspended. */
    method ClientAwaitSuspend(c: Client) returns (suspended: bool)
      modifies this`waiting
      ensures Snapshot() == AfterSuspend(old(Snapshot()), c)
      ensures suspended <==> SuspendWaits(old(Snapshot()))
    {
      var previous := Exchange(ClientPtr(c));
      suspended := previous == RunningPtr;
    }

    /** `emplace_value` once the wrapped object is built; a throwing build never gets here. */
    method EmplaceValue()
      modifies this`status
      ensures Snapshot() == AfterStatus(old(Snapshot()), Value)
    {
      status := Value;
    }

    /** `unhandled_exception`; `info` is the pointer test on what the COM hook returned. */
    method UnhandledException(hook: bool, info: bool)
      modifies this`status, this`restricted
      ensures Snapshot() == AfterStatus(AfterCapture(old(Snapshot()), hook, info), Error)
    {
      if hook {
        restricted := info;
      }
      status := Error;
    }

    method GetValue(hook: bool) returns (outcome: Outcome)
      ensures outcome == OutcomeOf(Snapshot(), hook)
    {
      if status == Value {
        return Returned;
      }
      outcome := Rethrown(restricted && hook);
    }
  }
}
