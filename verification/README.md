# Verified models of the Windows Implementation Library's stateful headers

This project models the parts of WIL that are real state machines or in-place algorithms, and proves what their
comments, assertions and tests promise. Each module follows one component:

- `Promise.dfy`, `TaskPool.dfy`, `TaskHistory.dfy`: the completion protocol of `wil::task` and `wil::com_task`. A promise is an atomic word,
  an uninitialised resumer slot and a result holder; `PromiseBase` performs each access in place, and the pool interleaves
  the same accesses over any number of frames, each with one owner; `TaskHistory` says what a run comes to by its moves alone.
- `ApiNames.dfy`, `Runs.dfy`, `ApiNodes.dfy`, `ApiReport.dfy`, `ApiDataList.dfy`: the sorted list of API-usage counters
  and its flush: string order, splitting into namespace runs, sizing, filling, harvesting.
- `ApiCounters.dfy`: callers, inserters and flushers of those counters running concurrently.
- `ActivityData.dfy`, `Activities.dfy`, `ActivityInvariant.dfy`, `ActivityRuns.dfy`, `ActivityReports.dfy`, `ActivityLog.dfy`:
  activity records and the handles that own, share, split, copy, move and destroy them: the record, the machine, its
  invariant, how many stop events there are, what they say, and the log of a run that they say it of.
- `FolderReader.dfy`, `EntryWalk.dfy`: the folder change reader's callbacks and teardown, and its walk over the records of
  a notification.
- `RecursiveDelete.dfy`, `CreateDeep.dfy`: the two recursions over a file tree.
- `ApartmentVariables.dfy`: per-apartment storage, its shutdown registrations and asynchronous clearing.
- `ComPtr.dfy`, `StreamString.dfy`: reference accounting of `com_ptr_t`, and length-prefixed strings on a stream.
- `SocketAddress.dfy`: comparison, setters and the dual-mode mapping of socket addresses.
- `DispatcherHandler.dfy`, `ToVector.dfy`: `resume_foreground` and `to_vector`.
- `Collections.dfy`: shared helpers.

Verify everything with `dafny verify dfyconfig.toml`.

## How the models are built

Concurrent components are state machines. `Enabled` says when an actor's own position lets it move, `Step` what one
indivisible access does, and `Exec` runs a list of events in which those that are not enabled are skipped, so that every
interleaving is some list. Nothing that could go wrong is excluded by `Enabled`: `Faults` (or `FailsFast`, `Faulty`,
`Dangles`) names it, and a theorem says that it never happens, or exactly when it does. Code that works step by step on one
object is a class whose methods state their whole effect, by the same functions the state machines use.

What a state says about the past is checked against the run itself: the moves made (`TaskHistory.Moves`), the log of an
activity's records (`ActivityLog.LogOf`), a counter's ledger (`ApiCounters.LedgerOf`), the completions of a reader
(`FolderReader.CompletedIn`), the rundowns of a registration (`ApartmentVariables.RundownsOf`), what pointers were given
(`ComPtr.HeldAfter`) and the resumes of a coroutine (`DispatcherHandler.Times`) are computed from the events, without the
history fields that the steps keep.

Calls of the operating system that may fail for reasons of their own fail at any time. Where a class has a constant
`reliable`, setting it leaves only the failures that the state itself causes, and the methods promise success.

What the environment is assumed to do: steps are sequentially consistent; an owner of a task is inside one expression at a
time and a suspended awaiter is not destroyed before it is resumed; `ContextCallback` either runs its callback or fails
without running it; a moved-from activity is not started; an activity is not started while it is running; threads use
different handles of an activity; `WaitForThreadpoolIoCallbacks` with cancellation drops callbacks that have not begun; an
enumeration of a directory that only the deletion changes lists each child once; names are never `.` or `..`; the root of a
volume that is there is a directory; `PathCchSkipRoot` depends only on the root's own characters; apartment identifiers are
not reused; a dispatcher invokes a delegate at most once while holding it, and a schedule that throws has neither run nor
kept it.

## What the code does not do

Some promises hold only under a condition. Each is proved with the condition, and with what happens otherwise.

- `Flush` makes one callback per namespace if and only if the one-directional prefix test is exact on the list. A namespace
  nested in another breaks this (`NestedNamePasses`, `NestedNamesShareACallback`).
- A namespace with 65536 nodes or more overruns the count array, because the count is a UINT16 (`TakeCounts`,
  `FullNameSpaceOverruns`).
- `Split` asserts only that the activity is running, which it still is between the last expected stop and its report. A
  split in that window leads to two stop events (`SplitInWindowStopsTwice`, `WindowIsReachable`).
- Copy assignment of an activity lets go of what its target held without taking the lock under which a destructor tests
  whether it is the last one. Copied over the last handle of a running activity, or over the other handle while such a
  destructor is between its test and its reset, the activity loses its stop event for good; otherwise it does not
  (`CopyLosesIff`, `LostForever`, `CopyOverSharedLosesStop`).
- A stop is reported after the lock has been given up: the failure to attach is chosen as a pointer into the record, and the
  event is written from what the record holds by then, although the source says that reporting needs no lock. The event's
  HRESULT is the activity's verdict if and only if no failure that replaces an attached one is notified in between
  (`StopEventResult`, `LateNotificationIsReported`, `EventCanDifferFromVerdict`). Callers whose handles are notified only
  while the activity expects a stop are safe (`QuietRunsReportTheVerdict`).
- `RemoveDirectoryRecursive` stays inside the tree it is given unless the path is itself a link; then what lies below the
  link's target is deleted (`StaysInsideIff`, `LinkedRootIsFollowed`), although the documentation says that links are not
  traversed.
- `CreateDirectoryDeepNoThrow` goes from parent to parent. That chain ends if and only if it comes to no path that is its
  own parent (`ChainEndsUnlessOwnParent`); where a root ends in a separator or holds none, if and only if the root of the
  path ends in a separator or nothing lies below it (`ChainEndsIff`). The drive-relative `C:foo` is its own parent, and
  `Z:foo\bar` has a parent, `Z:foo\`, that is its own; the recursion on such a path exhausts any stack if and only if the
  volume is missing (`Volume.CreateDirectoryDeep`, `MissingVolumeOverflows`). A file in the place of the last directory
  makes the call succeed although no directory exists: the contract of `CreateDirectoryDeep` says exactly when.
- `get_or_create` works on a stale storage pointer if the apartment's entry was erased while the creator ran. While the
  apartment has no variable yet, a `clear` of any variable there is enough (`DanglesIff`, `StalesIff`,
  `StaleInsertIsReachable`). What such an insert does is undefined, so results over runs are about runs without one.
- `socket_address::compare` is not an order on families other than IPv4 and IPv6 (`OtherFamiliesAreNotOrdered`,
  `UnorderedPair`).
- `resume_foreground` makes its delegate outside the try block. If that allocation fails, the handler's destructor resumes
  the coroutine and the exception resumes it again (`OnceIffAllocated`, `FailedAllocationContinuesTwice`).

## Model

| member | source | states |
|---|---|---|
| `TaskPromise.PromiseBase.constructor` | include/wil/coroutine.h:396-398 | a new promise is running and empty; only the resumer slot has no defined value |
| `TaskPromise.PromiseBase.Abandon` | include/wil/coroutine.h:429-434 | the owner publishes "abandoned" and must destroy the frame exactly when the body was no longer running |
| `TaskPromise.PromiseBase.FinalSuspend` | include/wil/coroutine.h:464-488 | the body publishes "completed"; it destroys the frame iff the owner had let go, and has a client to resume iff one was waiting |
| `TaskPromise.PromiseBase.StoreResumer` | include/wil/coroutine.h:501-507 | the plain write of the resumer, before the exchange that publishes it |
| `TaskPromise.PromiseBase.ClientAwaitSuspend` | include/wil/coroutine.h:508-517 | the client becomes the waiting pointer and stays suspended iff the body was still running |
| `TaskPromise.PromiseBase.EmplaceValue` | include/wil/coroutine.h:290-297 | a value fills the holder and nothing else changes |
| `TaskPromise.PromiseBase.UnhandledException` | include/wil/coroutine.h:299-310 | an exception fills the holder, with error information iff the COM hook is there |
| `TaskPool.StepKeepsInv` | include/wil/coroutine.h:429-521 | every move of any body, owner or thread-pool callback keeps the invariant that couples program counters, word, holder and history of every frame |
| `TaskPool.EveryMoveIsSafe` | include/wil/coroutine.h:429-521 | after any run no next move touches a destroyed frame, destroys one twice, calls the uninitialised resumer, breaks an assertion, reads an empty holder, restores released error information, or touches a client that is gone |
| `TaskPool.DestroyedExactlyOnce` | include/wil/coroutine.h:429-488 | a frame is destroyed once, exactly when its body has left it and its owner has let go; captured error information is released exactly then |
| `TaskPool.ResumedExactlyOnce` | include/wil/coroutine.h:452-517 | a client told to wait is resumed at most once and has been resumed once when it is past its wait; a client told to go on is never resumed |
| `TaskPool.ReadyMeansDone` | include/wil/coroutine.h:491-499 | the answer that the task is ready is given exactly when the body has left its frame for good, with the holder full and nobody left to resume; otherwise its final exchange is still to come |
| `TaskPool.ReadsWhatTheBodyLeft` | include/wil/coroutine.h:312-325 | what the client reads is what the holder has: a value, or an exception with the error information captured with it |
| `TaskPool.HolderSetOnce` | include/wil/coroutine.h:290-310 | no event changes a holder that is no longer empty |
| `TaskPool.BodyAlwaysFinishes` | include/wil/coroutine.h:464-488 | past its user code a body can always move, each move brings it closer to the end, and no other actor sets it back |
| `TaskPool.NoLostWakeup` | include/wil/coroutine.h:726-748 | once a body is finished no coroutine is suspended on it and no thread is asleep on its flag |
| `TaskPool.OthersUntouched` | include/wil/coroutine.h:429-521 | an event on one task changes no other frame, except that the owning coroutine enters or leaves its expression on that task |
| `TaskPool.OwnerIsLive` | include/wil/coroutine.h:577-599 | a coroutine inside an await still has its frame, so the awaiter in it can be used |
| `TaskPool.ClientIsPresent` | include/wil/coroutine.h:452-462 | whoever the final suspend resumes is waiting, and if it is a coroutine its frame is there |
| `TaskPool.FrameNoFault` | include/wil/coroutine.h:452-517 | the frame-local part: assertions hold, the resumer was written before it is read, and the holder is full before it is read |
| `TaskHistory.HolderTellsWhatTheBodyDid` | include/wil/coroutine.h:290-310 | on every run the holder has a value iff the body made the move that builds one, and an exception iff it made the move that throws, never both |
| `TaskHistory.ReadsWhatTheBodyDid` | include/wil/coroutine.h:290-325 | what a client reads is the value iff the body built one, and else the exception it threw, with the error information the body captured; told by the moves of the run alone |
| `TaskHistory.AwaitedIsRead` | include/wil/coroutine.h:501-522 | an owner that awaited the task has read it by the time it lets go, unless it could not be brought back to its apartment; one that did not await has read nothing |
| `TaskHistory.AskedIsToldIffDone` | include/wil/coroutine.h:491-499 | a client that asks is told that the task is ready iff the body has made its final exchange, and then goes on; otherwise it goes on to wait in the mode it asked for |
| `TaskHistory.ResumedAsAsked` | include/wil/coroutine.h:452-517 | a client that waits in one mode is resumed accordingly: by the body's thread, through its context, or by the flag it sleeps on |
| `TaskHistory.OneWayIntoContext` | include/wil/coroutine.h:842-896 | a client comes back to its context by one way of three, never two: it is there already, directly, or from a thread of the pool |
| `TaskHistory.SleepsIffUnset` | include/wil/coroutine.h:726-748 | a thread in get() goes to sleep on its flag iff nobody has set it |
| `TaskHistory.ResumedCanRead` | include/wil/coroutine.h:519-522 | a client resumed where it belongs can go on to read, and then has |
| `TaskHistory.DestroyedByOne` | include/wil/coroutine.h:429-488 | a frame is destroyed iff its owner or its body made the move that does it, never both |
| `TaskHistory.WordIsTheLastExchange` | include/wil/coroutine.h:429-517 | the word of a promise is what the last exchange of the run put there, and at first "running" |
| `TaskHistory.OwnerIsWhoItWasGivenTo` | include/wil/coroutine.h:569-577 | a task belongs to whoever it was last given to on the run |
| `ApiNames.WcscmpReverses` | include/wil/Tracelogging.h:6382-6389 | the string comparison is antisymmetric |
| `ApiNames.WcscmpTransitive` | include/wil/Tracelogging.h:6382-6389 | and transitive, so the list has an order to keep |
| `ApiNames.PrefixIsContiguous` | include/wil/Tracelogging.h:6382-6389 | between two strings with a common prefix in that order every string has the prefix |
| `ApiNames.WcsncmpIsPrefixTest` | include/wil/Tracelogging.h:6529-6532 | the namespace test is a test for a prefix ending in the dot |
| `ApiNames.LastDotIsLast` | include/wil/Tracelogging.h:6540-6554 | the position found is that of the last dot |
| `ApiNames.SameNameSpaceIsKeyTest` | include/wil/Tracelogging.h:6529-6538 | two names pass the test iff the first starts with the second's namespace and dot |
| `ApiNames.TestIsContiguous` | include/wil/Tracelogging.h:6517-6521 | in sorted order names that pass the test against one name are next to each other |
| `ApiNames.DottedTest` | include/wil/Tracelogging.h:6529-6538 | for dotted names the test means equal namespaces or a namespace nested in the other |
| `ApiNames.UndottedTest` | include/wil/Tracelogging.h:6529-6554 | a name without a dot past its first character is its own namespace, and only an equal name passes the test against it |
| `ApiNames.NestedNamePasses` | include/wil/Tracelogging.h:6529-6532 | a name in a nested namespace passes the one-directional test: the test alone is not equality |
| `ApiNames.GetClassStringPointer` | include/wil/Tracelogging.h:6540-6554 | the two loops find the last dot after position 0, or report that there is none |
| `ApiNames.GetNameSpaceLength` | include/wil/Tracelogging.h:6534-6538 | the length of the text before that dot, or of the whole name |
| `Runs.GroupsConcatenate` | include/wil/Tracelogging.h:6507-6527 | the groups cut off one after the other concatenate to the list |
| `Runs.OneGroupIffExact` | include/wil/Tracelogging.h:6400-6527 | for any such test on a contiguous list: one group per name iff the test is exact between neighbours of every run |
| `ApiNodes.InsertedElements` | include/wil/Tracelogging.h:6375-6396 | the list after an insertion has exactly one element more, as a multiset |
| `ApiNodes.InsertKeepsSorted` | include/wil/Tracelogging.h:6381-6393 | and is still sorted by class name |
| `ApiNodes.OneCallbackIffExact` | include/wil/Tracelogging.h:6398-6527 | on a sorted list each distinct namespace gets exactly one callback iff the namespace test is exact on it |
| `ApiNodes.UnnestedGetsOneCallback` | include/wil/Tracelogging.h:6398-6554 | so it does whenever every name has a dot after position 0 and no namespace is a dotted prefix of another |
| `ApiReport.JoinSplits` | include/wil/Tracelogging.h:6456-6484 | a comma-separated list splits back into exactly one field per node, in order, when no field contains a comma |
| `ApiReport.DottedField` | include/wil/Tracelogging.h:6456-6463 | a class in a namespace is listed as its own name, a dot and the API, and its namespace is what comes before the dot |
| `ApiReport.UndottedField` | include/wil/Tracelogging.h:6456-6463 | without a dot past the first character the API is listed alone, and the namespace is the whole name |
| `ApiReport.SpecializationFieldIs` | include/wil/Tracelogging.h:6465-6476 | a specialization is listed as it is, and a dash where there is none |
| `ApiReport.SizingBoundsFilling` | include/wil/Tracelogging.h:6411-6431 | what the filling pass writes and its terminator fit in what the sizing pass counted |
| `ApiReport.SizingIsExact` | include/wil/Tracelogging.h:6410-6432 | where each size is that of the field and a comma, the length counted is that of the list, one further comma and the terminator |
| `ApiReport.FieldFits` | include/wil/Tracelogging.h:6411-6484 | every single append finds room |
| `ApiDataLists.StringCchCat` | include/wil/Tracelogging.h:6461-6480 | an append is refused iff text and terminator do not fit, and otherwise leaves the concatenation |
| `ApiDataLists.ProcessSingleNameSpace` | include/wil/Tracelogging.h:6507-6527 | the walk visits exactly the first run of the list and returns its last node, or null at the end |
| `ApiDataLists.SizingPass` | include/wil/Tracelogging.h:6411-6431 | both lengths are those of the run, and the count is its size in 16 bits |
| `ApiDataLists.FillApiList` | include/wil/Tracelogging.h:6456-6484 | the filled text is the comma-separated list of the run, and no append is refused |
| `ApiDataLists.FillSpecializationList` | include/wil/Tracelogging.h:6466-6484 | likewise for the specializations |
| `ApiDataLists.TakeOne` | include/wil/Tracelogging.h:6454 | the exchange yields what the counter held and zeroes it, once even if two nodes share a counter |
| `ApiDataLists.TakeCounts` | include/wil/Tracelogging.h:6451-6454 | all counters of the run are taken in order; the count array is overrun iff the run has 65536 nodes or more |
| `ApiDataLists.MakeReport` | include/wil/Tracelogging.h:6437-6487 | what one callback receives describes its run: namespace, both texts, one count per node |
| `ApiDataLists.FlushGroup` | include/wil/Tracelogging.h:6407-6503 | one round of the outer loop: refused memory leaves the counters, otherwise the group is reported and the loop goes on behind it |
| `ApiDataLists.FlushNodes` | include/wil/Tracelogging.h:6407-6504 | the callbacks made describe the groups of the list in order, each counter is taken once, and the loop ends because the list shrinks; it stops early only for refused memory or an overrun |
| `ApiDataLists.ApiDataList.Insert` | include/wil/Tracelogging.h:6375-6396 | the node goes in front of the first one not below it; the list, sorted before and after, is the specified insertion, or unchanged without memory |
| `ApiDataLists.ApiDataList.Place` | include/wil/Tracelogging.h:6381-6393 | the part under the lock: the list is the specified insertion and still sorted |
| `ApiDataLists.ApiDataList.Flush` | include/wil/Tracelogging.h:6400-6504 | the list is emptied; when nothing is refused there is one callback per group, namespaces and groups match one to one iff the namespace test is exact on the list, and then every namespace gets exactly one callback; in any case what happens to the detached nodes is what the flush of a list does |
| `ApiDataLists.NestedNamesShareACallback` | include/wil/Tracelogging.h:6529-6532 | two namespaces, one nested in the other, inserted and flushed get one callback |
| `ApiDataLists.FullNameSpaceOverruns` | include/wil/Tracelogging.h:6407-6454 | a namespace with 65536 entries, inserted and flushed, overruns the count array |
| `ApiDataLists.OneApiIsReported` | include/wil/Tracelogging.h:6398-6487 | one API of the class A.B, called five times, inserted and flushed: the callback gets the namespace A, the list B.x, a dash and the count 5 |
| `ApiCounters.CallCounter.Increment` | include/wil/Tracelogging.h:6729-6737 | the value goes up by one modulo 2^32 and one call is counted; the caller must initialise iff the counter was zero |
| `ApiCounters.CallCounter.Harvest` | include/wil/Tracelogging.h:6454 | the exchange with zero yields what was there, leaves zero and counts it as reported |
| `ApiCounters.CountersHoldTheLedger` | include/wil/Tracelogging.h:6729-6737 | on every run the record of a counter is what the events say: as many calls as were made, the sum of what the harvests found, and every wrap and redundant initialisation |
| `ApiCounters.FlushTakesTheList` | include/wil/Tracelogging.h:6416-6438 | a flush takes exactly the nodes in the list, and running out of memory drops exactly those it has left |
| `ApiCounters.DutiesFollowTheRun` | include/wil/Tracelogging.h:6398-6454 | on every run each duty to report stands where the events have brought it: raised by the call that finds zero, allocated or lost, listed, detached by a flush, harvested |
| `ApiCounters.StepKeepsLaw` | include/wil/Tracelogging.h:6375-6454 | every event of any caller, inserter or flusher keeps one counter's balance of calls and of tokens |
| `ApiCounters.CallsAreConserved` | include/wil/Tracelogging.h:6729-6737 | on every run, the calls the events make are the sum of what the harvests found plus the calls still in the counter plus what its wraps took out |
| `ApiCounters.TokensAreCounted` | include/wil/Tracelogging.h:6729-6737 | on every run, a counter has one token if it is nonzero, none if zero, plus one per wrap or redundant initialisation not used up by an empty harvest |
| `ApiCounters.NonzeroHasToken` | include/wil/Tracelogging.h:6729-6737 | a nonzero counter always has a token |
| `ApiCounters.OneTokenIffNonzero` | include/wil/Tracelogging.h:6453-6454 | without wraps and redundant initialisations a counter is nonzero iff it has a token, the token is unique, and no harvest finds zero |
| `ApiCounters.QuiescentMeansReported` | include/wil/Tracelogging.h:6398-6454 | when no token is left every call has been reported |
| `ApiCounters.TokenCanMove` | include/wil/Tracelogging.h:6375-6408 | a live token can always be taken one place further without losing or creating others |
| `ApiCounters.EveryCallCanBeReported` | include/wil/Tracelogging.h:6569-6576 | unless a token was lost, every run can be continued until every call has been reported, whatever the unlocked read of the root saw |
| `ActivityRecord.ActivityData.constructor` | include/wil/Tracelogging.h:1179-1184 | a new record is not started, has succeeded so far and expects one stop |
| `ActivityRecord.ActivityData.NotifyFailure` | include/wil/Tracelogging.h:1208-1216 | a failure replaces the stored one unless it repeats it or the failing result |
| `ActivityRecord.ActivityData.SetStopResult` | include/wil/Tracelogging.h:1238-1252 | the first failing result sticks; the last expected stop is reported as such |
| `ActivityRecord.ActivityData.SetUnhandledException` | include/wil/Tracelogging.h:1254-1259 | the result is the failing result so far, else the last recorded failure, else ERROR_UNHANDLED_EXCEPTION; the failures notified until then are on record |
| `ActivityRecord.ActivityData.IncrementExpectedStopCount` | include/wil/Tracelogging.h:1261-1264 | one more stop is expected, and the split is remembered |
| `ActivityRecord.ActivityData.MoveFrom` | include/wil/Tracelogging.h:1186-1202 | the record moves whole and leaves one that is not started |
| `ActivityRecord.StopIsLawful` | include/wil/Tracelogging.h:1238-1252 | after a stop the result is the first failing stop, else the last one |
| `ActivityRecord.NotifyIsLawful` | include/wil/Tracelogging.h:1208-1216 | the stored failure is the last one notified, not counting repetitions of a failing result |
| `ActivityRecord.UnhandledIsLawful` | include/wil/Tracelogging.h:1254-1259 | after the final handle's own stop the result is the first failing stop, else the last recorded failure, else ERROR_UNHANDLED_EXCEPTION |
| `ActivityRecord.AttachedIff` | include/wil/Tracelogging.h:1208-1269 | a failure is attached exactly when the last one notified before the result became a failure has its HRESULT and all later ones repeat it |
| `ActivityInvariant.StepKeepsInv` | include/wil/Tracelogging.h:772-911 | every event of any handle of a disciplined caller keeps the invariant over handles, records, reference counts and activities, the unlocked halves of a copy, the two locked steps of a destructor and the three steps of a report included |
| `ActivityInvariant.SoleHolder` | include/wil/result_macros.h:2418-2518 | a record with one reference is shared with nobody |
| `ActivityInvariant.StepKeepsLocks` | include/wil/Tracelogging.h:1084-1104 | a locked record is locked by a destructor between its uniqueness test and its reset |
| `ActivityRuns.OneStopPerStart` | include/wil/Tracelogging.h:889-911 | on every disciplined run a started activity has emitted exactly one stop event, or none while its record is running and a handle reaches it, or while a handle is about to write the event |
| `ActivityRuns.AllDestroyedAllStopped` | include/wil/Tracelogging.h:1084-1104 | when all handles are destroyed every activity ever started has emitted exactly one stop event |
| `ActivityRuns.ReportIs` | include/wil/Tracelogging.h:1369-1390 | the three steps of a report add up to one update of the record and one event when nothing interferes |
| `ActivityRuns.DisciplinedRunsSurvive` | include/wil/Tracelogging.h:1238-1259 | on a disciplined run no assertion of the record ends the process, not even in the last destructor |
| `ActivityRuns.FailsFastIff` | include/wil/Tracelogging.h:1238-1264 | when they do end it: a stop exactly when there have been as many as there are splits and one, a split exactly when the activity is not running |
| `ActivityRuns.DestructorGoesOn` | include/wil/Tracelogging.h:1084-1104 | no event turns a destructor back: its own steps bring it closer to the end of its handle, every other event leaves it where it is |
| `ActivityRuns.DestructorCanGoOn` | include/wil/Tracelogging.h:1084-1104 | and it can make its next step unless another destructor holds the lock it waits for |
| `ActivityRuns.OnlyHandleIsUnlocked` | include/wil/Tracelogging.h:1084-1104 | nobody else is inside a locked section of a record that has one handle |
| `ActivityRuns.LastHandleStops` | include/wil/Tracelogging.h:1084-1104 | the destructor of the only handle of a running activity emits its stop event |
| `ActivityRuns.MoveAssignStopsTheOld` | include/wil/Tracelogging.h:1429-1434 | the generated move assignment ends the activity the target held, also when a handle is moved into itself |
| `ActivityRuns.SplitInWindowStopsTwice` | include/wil/Tracelogging.h:1466-1471 | the assertion of Split does not suffice: a split between the last expected stop and its report leads to two stop events |
| `ActivityRuns.WindowIsReachable` | include/wil/Tracelogging.h:889-911 | that window is reached by a start, a copy and one stop |
| `ActivityRuns.FailedCopyChangesNothing` | include/wil/Tracelogging.h:812-836 | a copy for which there is no memory leaves every handle and record as it was, and the source free |
| `ActivityRuns.CopyLosesIff` | include/wil/Tracelogging.h:812-836 | copy assignment takes no lock: disciplined callers can lose the activity the target worked on iff it is running there and only this handle, or this one and a sharer whose destructor has passed its uniqueness test, keeps it |
| `ActivityRuns.LostForever` | include/wil/result_macros.h:2443-2478 | an activity whose record is deleted, or left in a handle that works on another one, gets no stop event whatever follows |
| `ActivityRuns.CopyOverSharedLosesStop` | include/wil/Tracelogging.h:1084-1104 | such a run from the start: a destructor finds its record shared, the other handle is copied over, and the destructor resets the last reference |
| `ActivityRuns.CarefulCopyIsDisciplined` | include/wil/Tracelogging.h:812-836 | copying over what is not running, or over another handle of the activity copied, loses nothing |
| `ActivityReports.StopEventResult` | include/wil/Tracelogging.h:1369-1390 | on every disciplined run a stop event comes with the last expected stop, one plus one per split, or from the final handle when there were fewer; it carries the verdict over all stops in lock order, or the failure last recorded if one was attached; its HRESULT is the verdict iff no failure was attached or every failure notified between the choice and the write repeats the verdict |
| `ActivityReports.HresultIff` | include/wil/Tracelogging.h:1208-1269 | the same of one event, with when a failure is attached: the last one notified before the verdict has its HRESULT, and all later ones up to the choice repeat it |
| `ActivityReports.StepKeepsReports` | include/wil/Tracelogging.h:1369-1390 | every event of a disciplined caller keeps what reports have chosen and events have said true of the record |
| `ActivityReports.QuietRunsReportTheVerdict` | include/wil/Tracelogging.h:1063-1069 | if the handles of an activity are notified only while it expects a stop, its event carries the verdict |
| `ActivityReports.LateNotificationIsReported` | include/wil/Tracelogging.h:963-964 | whenever another handle is notified of a different failure between the choice of an attached one and the write, the event carries that failure |
| `ActivityReports.EventCanDifferFromVerdict` | include/wil/Tracelogging.h:892-900 | such a run from the start, disciplined throughout |
| `ActivityLog.RecordsHoldTheLog` | include/wil/Tracelogging.h:1208-1264 | on every disciplined run each record holds what the events did to it, followed through every copy and move: the activity last started, and the stops, notified failures and splits in their order |
| `ActivityLog.EventsSayTheLog` | include/wil/Tracelogging.h:1369-1390 | and the stop events of an activity are those the log of the run says: one for each report written, with the verdict over the stops of the log or the failure recorded in it, and what had been seen when the report chose |
| `FolderReader.FolderChangeReaderState.StartIo` | include/wil/filesystem.h:760-782 | a failed read takes its thread-pool start back, a successful one leaves a read pending: the effect of the single steps |
| `FolderReader.FolderChangeReaderState.Requeue` | include/wil/filesystem.h:874-883 | the next read is started unless the lock is taken or the pointer nulled, and the lock is given back |
| `FolderReader.StepsOfRequeue` | include/wil/filesystem.h:874-883 | which is what the single steps of a callback from its try-lock to its unlock add up to when nothing interferes |
| `FolderReader.StepsOfCallback` | include/wil/filesystem.h:847-883 | from the completion a callback was dispatched with: after changes, and after a loss of changes, it goes on to the next read; after any other error it leaves the reader as it is |
| `FolderReader.CallbackStartsTheNextRead` | include/wil/filesystem.h:865-883 | so on a live reader exactly one read is in progress when such a callback has gone by and its read could be started |
| `FolderReader.LiveReaderListens` | include/wil/filesystem.h:847-883 | until it is torn down a reader has exactly one read in progress, completion on its way or callback that will start the next read, on every run on which no read fails to start or fails for another reason than too many changes |
| `FolderReader.FolderChangeReaderState.Callback` | include/wil/filesystem.h:847-883 | the user is told each change in the buffer, in order, or that changes were lost, and the next read is started; after any other error nothing happens |
| `FolderReader.CompletionsArriveInOrder` | include/wil/filesystem.h:847-853 | every completion is handed to a callback or dropped, once and in the order the reads completed in |
| `FolderReader.AccountHoldsTheRun` | include/wil/filesystem.h:758-782 | starts, completions, cancels and drops on the account are those of the run, and the reads in progress are those issued and not completed |
| `FolderReader.OwnerFollowsTheCode` | include/wil/filesystem.h:720-782 | creator and destructor go the way of the code: a start that fails is taken back and leads to the destructor, which waits for a cancelled read only if there was one |
| `FolderReader.FolderChangeReaderState.Retire` | include/wil/filesystem.h:726-732 | after the exclusive section the pointer is null and the lock free |
| `FolderReader.StepKeepsInv` | include/wil/filesystem.h:720-782 | every event of creator, destructor, system and callbacks keeps the invariant of turns, lock, account and teardown |
| `FolderReader.EveryMoveIsSafe` | include/wil/filesystem.h:720-782 | after any run no next move starts a second read, lets a read write a buffer being parsed, uses the nulled pointer, closes an unbalanced thread-pool object or touches freed memory |
| `FolderReader.OneReadAtATime` | include/wil/filesystem.h:847-883 | at most one read is pending; while a callback parses there is none, and no other callback parses |
| `FolderReader.NoReadAfterExclusiveSection` | include/wil/filesystem.h:874-883 | from the end of the exclusive section on nothing starts a read |
| `FolderReader.ClosedIsQuiet` | include/wil/filesystem.h:734-756 | when the I/O object has been closed nothing is in progress, and starts equal completions plus cancels plus dropped callbacks |
| `FolderReader.TeardownTerminates` | include/wil/filesystem.h:734-756 | after the exclusive section some move is always possible and every move brings the destructor closer to its end |
| `EntryWalk.NextEntryOffsetIterator.Increment` | include/wil/filesystem.h:483-489 | the iterator goes to the next record, or to null after the last |
| `EntryWalk.ParseBuffer` | include/wil/filesystem.h:855-866 | the callback is called once for each record of the chain, in order |
| `EntryWalk.Copied` | include/wil/filesystem.h:858-864 | a name is handed over up to a null, cut to what MAX_PATH characters hold |
| `EntryWalk.EveryChangeIsDelivered` | include/wil/filesystem.h:855-866 | every change laid out in a buffer reaches the callback once, in order |
| `RecursiveDelete.FileSystem.TryOpenForRecursion` | include/wil/filesystem.h:256-280 | a handle is given only for a directory that is no name surrogate |
| `RecursiveDelete.FileSystem.DeleteFileEntry` | include/wil/filesystem.h:357-382 | a file is deleted, its read-only flag cleared only if the caller allows it; nothing else changes; it succeeds whenever the file is deletable and no call fails |
| `RecursiveDelete.FileSystem.DeleteEntry` | include/wil/filesystem.h:326-383 | one entry: on success nothing of it is left, and in any case nothing beside it is touched |
| `RecursiveDelete.FileSystem.DeleteEntries` | include/wil/filesystem.h:323-394 | the loop: on success every entry found is gone |
| `RecursiveDelete.FileSystem.RemoveTree` | include/wil/filesystem.h:295-429 | success removes exactly what is below the directory, and the directory unless it is kept; failure removes only nodes below it; it succeeds whenever nothing in the tree has to make it fail and no call does |
| `RecursiveDelete.FileSystem.RemoveDirectoryRecursive` | include/wil/filesystem.h:295-429 | the same for the path the caller passes, for every tree and every choice of failing calls |
| `RecursiveDelete.AllGoneIsChildless` | include/wil/filesystem.h:323-394 | when every entry of the enumeration is gone the directory is empty |
| `RecursiveDelete.StaysInsideIff` | include/wil/filesystem.h:284-293 | a successful deletion stays inside the given tree iff the path is not itself a link with something below its target |
| `RecursiveDelete.LinkedRootIsFollowed` | include/wil/filesystem.h:284-429 | a call on a link alone succeeds, and the file in the directory it leads to is gone |
| `RecursiveDelete.LinkTargetsSurvive` | include/wil/filesystem.h:346-350 | a link inside the tree is removed, and neither its target nor anything below the target is |
| `CreateDeep.LastSeparator` | include/wil/filesystem.h:57-58 | the last separator of the searched part, or none |
| `CreateDeep.ParentIsShorterIff` | include/wil/filesystem.h:52-69 | the last segment cuts something off iff there is a separator to cut at; otherwise the parent is the path itself |
| `CreateDeep.ParentKeepsRoot` | include/wil/filesystem.h:123-135 | the parent keeps the whole root; it is shorter, with a root that again ends in a separator, if the root does, and otherwise longer than the root, which again does not |
| `CreateDeep.ChainEndsUnlessOwnParent` | include/wil/filesystem.h:123-162 | whatever the roots are, the chain of parents the recursion follows comes to an end iff it does not come to a path that is its own parent, which is one with something below its root and no separator to cut at |
| `CreateDeep.ChainEndsIff` | include/wil/filesystem.h:123-162 | for a path whose root ends in a separator or holds none, it ends iff the root ends in one or nothing lies below it |
| `CreateDeep.DriveRelativeIsEndless` | include/wil/filesystem.h:123-162 | the drive-relative C:foo is its own parent |
| `CreateDeep.DriveRelativeParentIsEndless` | include/wil/filesystem.h:123-162 | Z:foo\bar has a shorter parent, which is its own parent |
| `CreateDeep.ParentIsAbove` | include/wil/filesystem.h:123-135 | the parent leads to the directory above, or to the same one |
| `CreateDeep.NamesAppend` | include/wil/filesystem.h:52-69 | cutting a path at a separator cuts its list of names |
| `CreateDeep.NamesOfJoined` | include/wil/filesystem.h:52-69 | names put together with separators are found again, with or without a last separator |
| `CreateDeep.Volume.CreateDirectoryDeep` | include/wil/filesystem.h:141-171 | for every path whose root ends in a separator or holds none: on success it exists, everything above it is a directory, and so is it unless it had been there as something else; whatever happens, only directories on the way are created and nothing else changes; a stack as deep as the path suffices unless the chain of parents does not end and the volume is missing, and then every stack overflows; it succeeds whenever the way is free, the stack suffices and no call fails |
| `CreateDeep.MissingVolumeOverflows` | include/wil/filesystem.h:141-171 | with no volume every stack overflows on a drive-relative path |
| `CreateDeep.ExistingIsReachable` | include/wil/filesystem.h:141-171 | whatever exists has all its ancestors, as directories |
| `ApartmentVariables.ApartmentVariableBase.EnsureCurrentApartmentVariables` | include/wil/com_apartment_variable.h:211-240 | storage is created with one new registration, or left alone |
| `ApartmentVariables.ApartmentVariableBase.Erase` | include/wil/com_apartment_variable.h:364-367 | erasing an entry unregisters its cookie |
| `ApartmentVariables.ApartmentVariableBase.Set` | include/wil/com_apartment_variable.h:343-355 | a stored variable gets the new value; one that is not stored is a fail-fast |
| `ApartmentVariables.ApartmentVariableBase.Clear` | include/wil/com_apartment_variable.h:358-369 | one variable is erased, and the entry with it when it was the last |
| `ApartmentVariables.ApartmentVariableBase.GatherContexts` | include/wil/com_apartment_variable.h:380-390 | exactly the apartments that hold the variable |
| `ApartmentVariables.ApartmentVariableBase.OnUninitialize` | include/wil/com_apartment_variable.h:221-235 | the shutdown observer extracts the entry and its registration ends with it |
| `ApartmentVariables.ApartmentVariableBase.ClearAllApartments` | include/wil/com_apartment_variable.h:371-431 | with apartments run down at any point between its hops: the variable is gone in every apartment, everything is gone in those that died, and every other variable is as it was |
| `ApartmentVariables.ClearAllReachesAll` | include/wil/com_apartment_variable.h:371-431 | whatever other events come in between, once the task has hopped through all the apartments it gathered and nobody has created the variable anew, no apartment holds it |
| `ApartmentVariables.LookupsReadBack` | include/wil/com_apartment_variable.h:302-369 | a lookup finds what was inserted first or set last, and nothing after a clear or the rundown |
| `ApartmentVariables.ClearChangesOne` | include/wil/com_apartment_variable.h:358-369 | a clear changes what no other lookup finds |
| `ApartmentVariables.ClearErasesIff` | include/wil/com_apartment_variable.h:358-369 | a clear erases the entry of its apartment iff no other variable is left in it |
| `ApartmentVariables.LookupsFollowTheRun` | include/wil/com_apartment_variable.h:302-369 | after every run a lookup finds what the inserts, sets, clears, hops and rundowns of the run have left |
| `ApartmentVariables.UnderwayIsOfTheRun` | include/wil/com_apartment_variable.h:302-431 | after every run a thread is inside a creator exactly for what it looked up in vain and has neither inserted nor given up, and a clearing task has before it what it gathered and has not visited |
| `ApartmentVariables.StepKeepsRegistrations` | include/wil/com_apartment_variable.h:211-240 | every event keeps registrations and storage matched |
| `ApartmentVariables.RegistrationsMatchStorage` | include/wil/com_apartment_variable.h:211-240 | on every run without a stale insert the live registrations are those of the stored apartments, one each, and every other one has ended exactly once |
| `ApartmentVariables.ReleasedIffRunDown` | include/wil/com_apartment_variable.h:221-235 | on such a run a registration is released iff a rundown of its apartment ended it, and unregistered iff it ended otherwise |
| `ApartmentVariables.RundownFindsStorage` | include/wil/com_apartment_variable.h:221-235 | on such a run an apartment whose registration is live has its entry to extract when the observer is called |
| `ApartmentVariables.OthersUnchanged` | include/wil/com_apartment_variable.h:302-369 | an event changes at most one variable in one apartment, or the apartment that is run down |
| `ApartmentVariables.FirstValueStaysOnRun` | include/wil/com_apartment_variable.h:320-324 | on a run without a stale insert, however many creators overlap, the first value inserted stays until a set, a clear or the rundown |
| `ApartmentVariables.InsertKeepsTheFirst` | include/wil/com_apartment_variable.h:317-324 | get_or_create ends with the value that got there first, else with its own |
| `ApartmentVariables.LookupPointerIsGood` | include/wil/com_apartment_variable.h:304-316 | a lookup returns the stored value or a storage pointer that is good at that moment |
| `ApartmentVariables.DanglesIff` | include/wil/com_apartment_variable.h:302-324 | the pointer kept across the creator is stale iff the apartment's entry was erased meanwhile |
| `ApartmentVariables.StalesIff` | include/wil/com_apartment_variable.h:358-369 | which takes its rundown, or a clear that leaves no variable in it |
| `ApartmentVariables.StaleInsertIsReachable` | include/wil/com_apartment_variable.h:302-324 | a lookup whose creator clears another variable that was never set leads to a stale insert |
| `ComPtr.StepKeepsInv` | include/wil/com.h:228-393 | every operation on any pointers keeps every object's balance |
| `ComPtr.ReferencesAreConserved` | include/wil/com.h:228-393 | after any program an object's count is the pointers holding it plus the callers' references plus those about to be released, and it is alive exactly while that sum is positive |
| `ComPtr.PointersAreAlive` | include/wil/com.h:279-292 | no smart pointer ever holds a dead object, not even while a destructor runs inside Release |
| `ComPtr.PointersHoldWhatTheyGot` | include/wil/com.h:228-393 | after any program every pointer holds what the constructions, assignments, moves, swaps, resets and fills of the program put there |
| `ComPtr.StepOwns` | include/wil/com.h:228-393 | and the callers own the references they were given and have not handed over |
| `ComPtr.MoveAndFill` | include/wil/com.h:248-258 | a pointer constructed by a move holds what its source held, and the source is null; one filled through put holds what the callee handed over; no count changes |
| `ComPtr.ReleaseIsPossible` | include/wil/com.h:344-352 | a reference taken out of a pointer can always be released |
| `ComPtr.AttachAssertion` | include/wil/com.h:361-370 | the assertion of attach holds: attaching the pointer already held leaves it alive |
| `ComPtr.SelfMove` | include/wil/com.h:308-336 | moving a pointer into itself or swapping it with itself changes nothing |
| `ComPtr.SelfAssign` | include/wil/com.h:279-298 | assigning a pointer its own object changes nothing once the old reference is released |
| `ComPtr.NoLeak` | include/wil/com.h:228-393 | when no pointer and no reference is left, neither is any object |
| `ComPtr.Ptr.constructor` | include/wil/com.h:228-240 | the object is held and counted once more, as the construction in the machine says for all pointers and objects around |
| `ComPtr.Ptr.Assign` | include/wil/com.h:279-298 | the new object gains a reference and the old one loses one; for the same object nothing changes; on all pointers and objects around, the assignment in the machine and its release |
| `ComPtr.Ptr.Reset` | include/wil/com.h:344-352 | the pointer is null and its object loses one reference; likewise |
| `ComPtr.Ptr.Attach` | include/wil/com.h:361-370 | the pointer takes the caller's reference over and only the old object loses one; likewise |
| `ComPtr.Ptr.Detach` | include/wil/com.h:374-379 | the reference is handed to the caller; likewise |
| `ComPtr.Ptr.MoveAssign` | include/wil/com.h:308-312 | the reference moves, and a move into itself changes nothing; likewise |
| `ComPtr.Ptr.Swap` | include/wil/com.h:329-334 | the two pointers exchange what they hold; likewise |
| `ComPtr.Ptr.Put` | include/wil/com.h:390-394 | the address is given out only after the pointer has been released |
| `StreamString.Stream.ReadExactly` | include/wil/com.h:2300-2307 | all the bytes asked for, or a failure |
| `StreamString.Stream.WriteExactly` | include/wil/com.h:2343-2350 | all the bytes given, or a failure; what lies before is untouched |
| `StreamString.Stream.WriteString` | include/wil/com.h:2609-2621 | on success the encoding lies at the position and the position is just past it; it succeeds whenever it fits and no call fails |
| `StreamString.Stream.ReadString` | include/wil/com.h:2568-2592 | on success the string is what the bytes decode to and the position is just past it; on a reliable stream it succeeds iff they decode |
| `StreamString.Stream.WriteStrings` | include/wil/com.h:2609-2621 | several strings lie one encoding after the other |
| `StreamString.Stream.ReadStrings` | include/wil/com.h:2568-2592 | what was read is the encoding of the strings returned, and where the encoding of strings lies a reliable stream yields those |
| `StreamString.Stream.WriteThenRead` | include/wil/com.h:2568-2621 | on a reliable stream with room, any strings written one after the other are read back from where they were written |
| `StreamString.DecodesEncoded` | include/wil/com.h:2568-2621 | an encoded string reads back whole whatever follows it |
| `StreamString.EncodedBytes` | include/wil/com.h:2609-2621 | the count and every unit are two bytes each, the low one first |
| `StreamString.WafflesAreEncoded` | include/wil/com.h:2594-2608 | the empty string is its count alone, and three units are the count and the units |
| `StreamString.WrittenReadsBack` | include/wil/com.h:2568-2621 | a string written anywhere in a stream reads back from there |
| `StreamString.SequenceRoundTrip` | include/wil/com.h:2568-2621 | any sequence of strings reads back as it was written, ending just past it, whatever follows |
| `StreamString.EncodingsAreUnique` | include/wil/com.h:2609-2621 | equally many strings with the same bytes are the same |
| `StreamString.StrictPrefixFails` | include/wil/com.h:2568-2592 | reading any strict prefix of one encoding fails |
| `StreamString.DecodedIsEncoded` | include/wil/com.h:2568-2621 | what decodes is the encoding of what it decodes to |
| `SocketAddresses.CompareIsLex` | include/wil/network.h:722-780 | on IPv4 and IPv6 the branches compare family, address, port, scope and flow lexicographically |
| `SocketAddresses.FirstDifferenceDecides` | include/wil/network.h:722-780 | the first difference decides, whatever follows it: family, first differing byte of the address, port, scope, flow |
| `SocketAddresses.CompareIsTotalOrder` | include/wil/network.h:722-797 | on IPv4 and IPv6 values compare is a total order |
| `SocketAddresses.EqualIffSameFields` | include/wil/network.h:722-797 | zero iff family, address, port and, for IPv6, scope and flow are equal |
| `SocketAddresses.FieldsAre` | include/wil/network.h:722-780 | where each field lies in the 28 bytes and in which byte order it is read |
| `SocketAddresses.NetBytesAre` | include/wil/network.h:929-958 | numbers are written in network order, the most significant byte first |
| `SocketAddresses.SettingAnAddress` | include/wil/network.h:1003-1021 | setting an address leaves the family, the port kept and the address, byte for byte, and zeros elsewhere |
| `SocketAddresses.OtherFamiliesAreNotOrdered` | include/wil/network.h:775-779 | in the branch for other families compare is never negative, and it is antisymmetric iff the bytes are equal |
| `SocketAddresses.UnorderedPair` | include/wil/network.h:775-779 | two such addresses of which the lesser compares greater and the greater compares equal |
| `SocketAddresses.SocketAddress.CompareTo` | include/wil/network.h:722-780 | on IPv4 and IPv6 the result is that of the lexicographic comparison of family, address, port, scope and flow, and zero iff all of these agree |
| `SocketAddresses.SocketAddress.Reset` | include/wil/network.h:829-836 | all zero but the family |
| `SocketAddresses.SocketAddress.SetPort` | include/wil/network.h:929-938 | only the port bytes change, and the port reads back |
| `SocketAddresses.SocketAddress.SetScopeId` | include/wil/network.h:940-948 | for IPv6 only the scope bytes change and the scope reads back; otherwise nothing changes |
| `SocketAddresses.SocketAddress.SetFlowInfo` | include/wil/network.h:950-958 | likewise for the flow info |
| `SocketAddresses.SocketAddress.SetInAddr` | include/wil/network.h:1003-1011 | the IPv4 address is set, the port kept, the rest reset |
| `SocketAddresses.SocketAddress.SetIn6Addr` | include/wil/network.h:1013-1021 | the IPv6 address is set, the port kept, the rest reset |
| `SocketAddresses.MapDualMode4to6` | include/wil/network.h:269-283 | the object built step by step is the specified mapped address |
| `SocketAddresses.MappedFields` | include/wil/network.h:269-283 | the mapped address lies in the prefix of section 2.5.5.2 of RFC 4291, keeps address and port, and has nothing else set |
| `SocketAddresses.MappingEmbeds` | include/wil/network.h:269-283 | mapped addresses compare as the IPv4 addresses do |
| `DispatcherHandler.StepKeepsInv` | include/wil/cppwinrt_helpers.h:72-157 | every move of awaiter, delegate and dispatcher keeps the invariant that one party owes the coroutine its resume |
| `DispatcherHandler.ContinuesExactlyOnce` | include/wil/cppwinrt_helpers.h:134-157 | the coroutine continues at most once, and exactly once when everything has settled: handler run, dropped, or a schedule that threw |
| `DispatcherHandler.EveryRunCanSettle` | include/wil/cppwinrt_helpers.h:81-157 | every run can be continued until everything has settled, and then the coroutine has continued once, unless the delegate could not be allocated |
| `DispatcherHandler.OnceIffAllocated` | include/wil/cppwinrt_helpers.h:134-149 | a settled run continues it once iff the delegate could be allocated; otherwise twice |
| `DispatcherHandler.FailedAllocationContinuesTwice` | include/wil/cppwinrt_helpers.h:134-149 | a settled run on which it could not |
| `DispatcherHandler.EveryMoveIsSafe` | include/wil/cppwinrt_helpers.h:81-98 | no move dereferences a null state or touches the state after the coroutine has gone on |
| `DispatcherHandler.OrphanedIffNeverRun` | include/wil/cppwinrt_helpers.h:151-157 | the awaiter gets ERROR_NO_TASK_QUEUE iff its handler was never run |
| `DispatcherHandler.HistoryTellsTheRun` | include/wil/cppwinrt_helpers.h:81-157 | how often the coroutine continued, whether the handler was run and whether its delegate could not be allocated is what the events of the run say |
| `DispatcherHandler.SuspendFollowsTheCode` | include/wil/cppwinrt_helpers.h:134-149 | await_suspend returns if the schedule did, and leaves by an exception iff the schedule threw or there was no memory for the delegate |
| `DispatcherHandler.AwaiterFinds` | include/wil/cppwinrt_helpers.h:151-157 | what the awaiter finds is what the handler left, once |
| `DispatcherHandler.ReferencesAreKept` | include/wil/cppwinrt_helpers.h:134-149 | the dispatcher holds the references it took and has not dropped |
| `DispatcherHandler.Handler.Complete` | include/wil/cppwinrt_helpers.h:94-98 | pointer and handle are cleared and the coroutine resumed once |
| `DispatcherHandler.Handler.Destroy` | include/wil/cppwinrt_helpers.h:81-88 | a handler whose coroutine is still owed a resume marks it orphaned and resumes it; any other does nothing |
| `ToVector.FromIterator` | include/wil/cppwinrt_helpers.h:329-347 | everything from the iterator's position on is copied, in order |
| `ToVector.FromVector` | include/wil/cppwinrt_helpers.h:313-328 | growth between the two calls is reported, shrinking followed, and a collection that was empty is not looked at again |

## Left out

- Weak memory: every step is sequentially consistent; the exchanges of `m_waiting` are what publishes the resumer and the holder.
- TaskPool.EveryMoveIsSafe: the thread-pool submission of an apartment resumption is taken to succeed, because the code ends the process otherwise; destructors of a body's locals after its result is set are taken not to throw.
- TaskPool.NoLostWakeup: says that nobody is left waiting on a finished body; that a thread's wait loop or the scheduler gets its turn is fairness, which is not modelled.
- ApiDataLists.FlushGroup: the worker callback of each pass is a loop over the visited nodes, and harvesting, API text and specialization text are three loops where the code has one; the three touch different memory.
- ApiDataLists.FlushNodes: refused memory is a number of groups that get theirs; which of the four allocations fails makes no difference to the code.
- ApiCounters.Step: a flush harvests its detached nodes in any order and drops the rest at any time; the order within a flush is that of FlushNodes.
- ActivityRecord.Data: the count of expected stops is unbounded, so its overflow after 2^31 splits is not modelled.
- ActivityRuns.OneStopPerStart: handles are values in a map rather than objects on the heap, since threads interleave on them; watching for failures is not modelled, so any live handle may be notified at any time.
- Activities.Step: the running test of `Split` is one step with its locked increment, a copied handle is set to the new record when the second half of its copy ends, and a handle that is being copied does nothing else; left out are the further telemetry event of a failed activity, fields of a failure other than its HRESULT, custom stop methods reached through StopWithResult with further arguments, and the deprecated thread activities.
- FolderReader.TeardownTerminates: every move makes progress and one is always possible; that a cancelled read is in fact completed is the operating system's part.
- FolderReader.EveryMoveIsSafe: the user's callback does not destroy its own reader, which the code forbids; a notification that reports no bytes is not distinguished.
- RecursiveDelete.FileSystem.RemoveDirectoryRecursive: chains of links as the starting path, directories whose reparse tag allows recursion as a kind of their own, and the two flavours of deletion by handle, which here take effect at once.
- CreateDeep.Volume.CreateDirectoryDeep: a path whose root holds a separator inside and none at its end is not covered, since its parent can lose part of the root; ChainEndsUnlessOwnParent does cover it. The stack is a number of nested calls; that each uses the same amount of it is not modelled.
- CreateDeep.LocationOf: names are compared as they are written, without case folding and without resolving `.` and `..`.
- ApartmentVariables.ApartmentVariableBase.ClearAllApartments: apartments may die between its hops and nothing else happens there; arbitrary interference is in ClearAllReachesAll. A new variable at the address of a destroyed one is not modelled.
- ApartmentVariables.Step: a registration that throws leaves nothing behind and is no event of its own; the values' destructors, which run outside the lock, are left out.
- ComPtr.Step: taking a reference to an argument happens together with the pointer write before it, since no foreign code runs in between; query helpers and comparison operators are left out.
- StreamString.Stream.WriteString: a string of more than 65535 units ends the process in the code and is excluded by the type.
- SocketAddresses.Compare: the sign of memcmp is modelled, not its magnitude.
- SocketAddresses.SocketAddress: reset from foreign structures, set_address_any, set_address_loopback, parsing and formatting.
- DispatcherHandler.Step: one awaitable and one dispatcher; priorities and the dispatcher's own queue are left out.
- Winsock function tables, address iterators, COM query and creation helpers, stream copying, registry, token and window helpers, and all macros that only define events: thin forwarding or type plumbing.
- Stores, locks and reference counts of `shared_object` appear through the contract its users rely on: unique means one reference.
