/** The record shared by the handles of one activity: the result so far, the last recorded failure and the
    number of stops still expected.  The functions on `Data` say what each operation does; the class performs
    them in place; the handles of Activities.dfy use the same functions. */
module ActivityRecord {
  import opened Collections

  type HResult = hr: int | -0x8000_0000 <= hr < 0x8000_0000

  const S_OK: HResult := 0

  /** HRESULT_FROM_WIN32(ERROR_UNHANDLED_EXCEPTION), 0x8007023E as a signed number. */
  const UNHANDLED: HResult := 0x8007_023E - 0x1_0000_0000

  predicate Failed(hr: HResult) { hr < 0 }

  type ActivityId = nat

  /** A moved-from record is not started. */
  datatype Status = NotStarted | Started(a: ActivityId) | Stopped(a: ActivityId)

  /** What has happened to a record: its splits; the results passed to `Stop`, in lock order; the failures
      notified; how many of them before the result became a failure; and, once the final handle has stopped the
      activity by itself, the failures notified until then. */
  datatype History = History(
    splits: nat, stops: seq<HResult>, notified: seq<HResult>, failedAt: Option<nat>, unhandled: Option<seq<HResult>>)

  /** `failure` is the HRESULT of the stored failure, zero if there is none. */
  datatype Data = Data(status: Status, result: HResult, failure: HResult, expected: int, history: History)

  const FRESH := Data(NotStarted, S_OK, S_OK, 1, History(0, [], [], None, None))

  function AfterNotify(d: Data, hr: HResult): Data {
    d.(history := d.history.(notified := d.history.notified + [hr]),
       failure := if hr != d.failure && (hr != d.result || !Failed(d.result)) then hr else d.failure)
  }

  function Decided(d: Data, hr: HResult): History {
    if Failed(hr) && !Failed(d.result) then d.history.(failedAt := Some(|d.history.notified|)) else d.history
  }

  function WithResult(d: Data, hr: HResult): Data {
    d.(result := if Failed(d.result) then d.result else hr, expected := d.expected - 1, history := Decided(d, hr))
  }

  function AfterStop(d: Data, hr: HResult): Data {
    var d' := WithResult(d, hr);
    d'.(history := d'.history.(stops := d.history.stops + [hr]))
  }

  function AfterUnhandled(d: Data): Data {
    var d' := WithResult(d, if Failed(d.failure) then d.failure else UNHANDLED);
    d'.(history := d'.history.(unhandled := Some(d.history.notified)))
  }

  function AfterSplit(d: Data): Data {
    d.(expected := d.expected + 1, history := d.history.(splits := d.history.splits + 1))
  }

  function MovedFrom(d: Data): Data { d.(status := NotStarted) }

  /** `GetFailureInfo`: the HRESULT of the failure attached to the stop event. */
  function Attached(d: Data): Option<HResult> {
    if Failed(d.result) && d.result == d.failure then Some(d.failure) else None
  }

  // ----- what the result means -----

  function LastOf(s: seq<HResult>): HResult {
    if s == [] then S_OK else s[|s| - 1]
  }

  /** The first failing stop if there is one. */
  function FirstFailure(stops: seq<HResult>): Option<HResult> {
    if stops == [] then None
    else if Failed(stops[0]) then Some(stops[0])
    else FirstFailure(stops[1..])
  }

  /** The first failing stop decides; without one, an activity stopped by its final handle fails with the last
      recorded failure or as an unhandled exception, and any other succeeds with its last stop. */
  function Verdict(stops: seq<HResult>, unhandled: Option<seq<HResult>>): HResult {
    if FirstFailure(stops).Some? then FirstFailure(stops).value
    else if unhandled.None? then LastOf(stops)
    else if Failed(LastOf(unhandled.value)) then LastOf(unhandled.value)
    else UNHANDLED
  }

  function Without(s: seq<HResult>, hr: HResult): seq<HResult> {
    if s == [] then []
    else Without(s[..|s| - 1], hr) + if s[|s| - 1] == hr then [] else [s[|s| - 1]]
  }

  /** The last failure notified, not counting repetitions of the activity's own failing result after it was set. */
  function Recorded(result: HResult, h: History): HResult {
    if h.failedAt.None? || h.failedAt.value > |h.notified| then LastOf(h.notified)
    else LastOf(h.notified[..h.failedAt.value] + Without(h.notified[h.failedAt.value..], result))
  }

  /** The stops still to come: one, and one more for each split, less those made. */
  function Due(h: History): int {
    1 + h.splits - |h.stops| - if h.unhandled.Some? then 1 else 0
  }

  predicate Lawful(d: Data) {
    && d.result == Verdict(d.history.stops, d.history.unhandled)
    && d.failure == Recorded(d.result, d.history)
    && d.expected == Due(d.history)
    && (d.history.failedAt.Some? <==> Failed(d.result))
    && (d.history.failedAt.Some? ==> d.history.failedAt.value <= |d.history.notified|)
  }

  lemma {:induction false} FirstFailureAppend(stops: seq<HResult>, hr: HResult)
    ensures FirstFailure(stops + [hr]) ==
            if FirstFailure(stops).Some? then FirstFailure(stops) else if Failed(hr) then Some(hr) else None
  {
    if stops == [] {
      assert stops + [hr] == [hr];
    } else {
      assert (stops + [hr])[1..] == stops[1..] + [hr];
      FirstFailureAppend(stops[1..], hr);
    }
  }

  lemma {:induction false} FirstFailureFails(stops: seq<HResult>)
    ensures FirstFailure(stops).Some? ==> Failed(FirstFailure(stops).value)
    ensures FirstFailure(stops).None? ==> !Failed(LastOf(stops))
  {
    if stops != [] {
      FirstFailureFails(stops[1..]);
    }
  }

  lemma StopIsLawful(d: Data, hr: HResult)
    requires Lawful(d) && d.history.unhandled.None?
    ensures Lawful(AfterStop(d, hr))
  {
    FirstFailureFails(d.history.stops);
    FirstFailureAppend(d.history.stops, hr);
    DecidingKeepsRecorded(d, hr);
  }

  lemma WithoutAppend(s: seq<HResult>, x: HResult, hr: HResult)
    ensures Without(s + [x], hr) == Without(s, hr) + if x == hr then [] else [x]
  {
    assert (s + [x])[..|s|] == s;
  }

  lemma NotifyIsLawful(d: Data, hr: HResult)
    requires Lawful(d)
    ensures Lawful(AfterNotify(d, hr))
  {
    FirstFailureFails(d.history.stops);
    var n := d.history.notified;
    if d.history.failedAt.Some? {
      var k := d.history.failedAt.value;
      assert (n + [hr])[..k] == n[..k] && (n + [hr])[k..] == n[k..] + [hr];
      WithoutAppend(n[k..], hr, d.result);
    }
  }

  /** The moment the result becomes a failure, everything notified so far counts. */
  lemma DecidingKeepsRecorded(d: Data, hr: HResult)
    requires Lawful(d)
    ensures Recorded(WithResult(d, hr).result, Decided(d, hr)) == d.failure
  {
    var n := d.history.notified;
    if !Failed(d.result) && Failed(hr) {
      assert n[..|n|] == n && n[|n|..] == [] && n + [] == n;
    }
  }

  lemma UnhandledIsLawful(d: Data)
    requires Lawful(d) && d.history.unhandled.None?
    ensures Lawful(AfterUnhandled(d)) && Failed(AfterUnhandled(d).result)
  {
    DecidingKeepsRecorded(d, if Failed(d.failure) then d.failure else UNHANDLED);
    FirstFailureFails(d.history.stops);
  }

  lemma {:induction false} WithoutHasOnlyOthers(s: seq<HResult>, hr: HResult)
    ensures hr !in Without(s, hr)
    ensures Without(s, hr) == [] <==> forall i :: 0 <= i < |s| ==> s[i] == hr
  {
    if s != [] {
      var rest := s[..|s| - 1];
      WithoutHasOnlyOthers(rest, hr);
      assert forall i :: 0 <= i < |rest| ==> s[i] == rest[i];
    }
  }

  lemma LastOfAppend(a: seq<HResult>, b: seq<HResult>)
    ensures LastOf(a + b) == if b == [] then LastOf(a) else LastOf(b)
  {
    if b == [] { assert a + b == a; }
  }

  /** The failure recorded is a failing result exactly when the last one notified before the result became a failure
      has its HRESULT, and all that came later repeat it. */
  lemma RecordedIff(result: HResult, h: History)
    requires Failed(result) && h.failedAt.Some? && h.failedAt.value <= |h.notified|
    ensures Recorded(result, h) == result <==>
              var k, n := h.failedAt.value, h.notified;
              k > 0 && n[k - 1] == result && forall i :: k <= i < |n| ==> n[i] == result
  {
    var k, n := h.failedAt.value, h.notified;
    WithoutHasOnlyOthers(n[k..], result);
    LastOfAppend(n[..k], Without(n[k..], result));
    assert forall i :: k <= i < |n| ==> n[i] == n[k..][i - k];
  }

  /** When a failure is attached. */
  lemma AttachedIff(d: Data)
    requires Lawful(d)
    ensures Attached(d).Some? ==> Attached(d).value == Verdict(d.history.stops, d.history.unhandled)
    ensures Attached(d).Some? <==>
              && d.history.failedAt.Some?
              && var k, n := d.history.failedAt.value, d.history.notified;
                 k > 0 && n[k - 1] == d.result && forall i :: k <= i < |n| ==> n[i] == d.result
  {
    if d.history.failedAt.Some? { RecordedIff(d.result, d.history); }
  }

  /** `ActivityData`. */
  class ActivityData {
    var status: Status
    var result: HResult
    var failure: HResult
    var expected: int
    ghost var history: History

    ghost function Value(): Data
      reads this
    {
      Data(status, result, failure, expected, history)
    }

    constructor ()
      ensures Value() == FRESH
    {
      status, result, failure, expected := NotStarted, S_OK, S_OK, 1;
      history := FRESH.history;
    }

    method NotifyFailure(hr: HResult)
      modifies this
      ensures Value() == AfterNotify(old(Value()), hr)
    {
      if hr != failure && (hr != result || !Failed(result)) {
        failure := hr;
      }
      history := history.(notified := history.notified + [hr]);
    }

    method RecordResult(hr: HResult) returns (hrResult: HResult, last: bool)
      modifies this`result, this`expected, this`history
      ensures Value() == WithResult(old(Value()), hr)
      ensures hrResult == result && (last <==> expected == 0)
    {
      history := Decided(Value(), hr);
      if !Failed(result) {
        result := hr;
      }
      hrResult := result;
      expected := expected - 1;
      last := expected == 0;
    }

    /** The caller's duty is the one the fail-fast assertion checks. */
    method SetStopResult(hr: HResult) returns (hrResult: HResult, last: bool)
      requires expected >= 1
      modifies this
      ensures Value() == AfterStop(old(Value()), hr)
      ensures hrResult == result && (last <==> expected == 0)
    {
      hrResult, last := RecordResult(hr);
      history := history.(stops := history.stops + [hr]);
    }

    method SetUnhandledException() returns (hrResult: HResult)
      requires expected >= 1
      modifies this
      ensures Value() == AfterUnhandled(old(Value()))
      ensures hrResult == result
      ensures hrResult == if Failed(old(result)) then old(result) else if Failed(old(failure)) then old(failure)
                          else UNHANDLED
      ensures history.unhandled == Some(old(history).notified)
    {
      var hr := failure;
      var last: bool;
      hrResult, last := RecordResult(if Failed(hr) then hr else UNHANDLED);
      history := history.(unhandled := Some(history.notified));
    }

    method IncrementExpectedStopCount()
      modifies this
      ensures Value() == AfterSplit(old(Value()))
    {
      expected := expected + 1;
      history := history.(splits := history.splits + 1);
    }

    method GetFailureInfo() returns (info: Option<HResult>)
      ensures info == Attached(Value())
    {
      info := if Failed(result) && result == failure then Some(failure) else None;
    }

    /** The move constructor and the move assignment, for two different records. */
    method MoveFrom(other: ActivityData)
      requires other != this
      modifies this, other
      ensures Value() == old(other.Value())
      ensures other.Value() == MovedFrom(old(other.Value()))
    {
      status, result, failure, expected := other.status, other.result, other.failure, other.expected;
      history := other.history;
      other.status := NotStarted;
    }
  }
}
