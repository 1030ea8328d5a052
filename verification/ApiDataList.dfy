/** `ApiDataList`: a sorted singly linked list of counters, and the flush that detaches it and reports it
    one namespace at a time.  Nodes, links, buffers and counters are updated in place. */
module ApiDataLists {
  import opened Collections
  import opened ApiNames
  import opened Runs
  import opened ApiNodes
  import opened ApiReport

  const MAX_COUNTS := 0x1_0000

  /** The value of a UINT16 that was incremented n times. */
  function Count16(n: nat): (r: nat)
    ensures r <= n && (r == n <==> n < MAX_COUNTS)
  {
    n % MAX_COUNTS
  }

  lemma Count16Step(n: nat)
    ensures Count16(Count16(n) + 1) == Count16(n + 1)
  {
  }

  // ----- links -----

  ghost function Nth(nodes: seq<ApiData>, i: nat): ApiData? {
    if i < |nodes| then nodes[i] else null
  }

  ghost predicate Linked(nodes: seq<ApiData>)
    reads nodes
  {
    forall i :: 0 <= i < |nodes| ==> nodes[i].next == Nth(nodes, i + 1)
  }

  lemma {:induction false} LinkedIsDistinct(nodes: seq<ApiData>, i: nat, j: nat)
    requires Linked(nodes) && i < j < |nodes|
    ensures nodes[i] != nodes[j]
    decreases |nodes| - j
  {
    if j + 1 < |nodes| {
      LinkedIsDistinct(nodes, i + 1, j + 1);
    }
    assert nodes[i].next == Nth(nodes, i + 1) && nodes[j].next == Nth(nodes, j + 1);
  }

  // ----- fixed buffers -----

  /** The buffer holds the text s and its terminator. */
  ghost predicate Holds(buffer: seq<wchar>, s: Text) {
    |s| < |buffer| && buffer[..|s|] == s && buffer[|s|] == NUL
  }

  method ZeroedBuffer(n: nat) returns (buffer: array<wchar>)
    requires n > 0
    ensures fresh(buffer) && buffer.Length == n && Holds(buffer[..], [])
  {
    buffer := new wchar[n](_ => NUL);
  }

  method Find(buffer: array<wchar>, ghost s: Text) returns (n: nat)
    requires Holds(buffer[..], s)
    ensures n == |s|
  {
    assert forall k :: 0 <= k < |s| ==> s[k] == buffer[..][..|s|][k] == buffer[k];
    n := 0;
    while buffer[n] != NUL
      invariant n <= |s|
      decreases |s| - n
    {
      n := n + 1;
    }
  }

  /** `StringCchCat`: appends, or reports that the text and its terminator do not fit. */
  method StringCchCat(buffer: array<wchar>, src: Text, ghost s: Text) returns (fits: bool)
    requires Holds(buffer[..], s)
    modifies buffer
    ensures fits <==> |s| + |src| < buffer.Length
    ensures fits ==> Holds(buffer[..], s + src)
  {
    var n := Find(buffer, s);
    fits := n + |src| < buffer.Length;
    if fits {
      var i := 0;
      while i < |src|
        invariant i <= |src|
        invariant buffer[..n + i] == s + src[..i]
      {
        buffer[n + i] := src[i];
        i := i + 1;
      }
      buffer[n + i] := NUL;
      assert src[..i] == src;
      assert buffer[..][..n + i] == buffer[..n + i] == s + src;
    }
  }

  method Read(buffer: array<wchar>, ghost s: Text) returns (r: Text)
    requires Holds(buffer[..], s)
    ensures r == s
  {
    var n := Find(buffer, s);
    assert buffer[..n] == buffer[..][..n] == s;
    r := buffer[..n];
  }

  // ----- the passes over one run -----

  /** `ProcessSingleNamespace` from node i: the nodes its worker callback is given, in order, and the
      pointer it returns, which is null when the walk reached the end of the list. */
  method ProcessSingleNameSpace(first: ApiData, ghost nodes: seq<ApiData>, ghost i: nat)
    returns (visited: seq<ApiData>, last: ApiData?)
    requires Linked(nodes) && i < |nodes| && first == nodes[i]
    ensures var n := RunEnd(nodes, SameNode, i);
            && visited == nodes[i..n]
            && last == if n < |nodes| then nodes[n - 1] else null
  {
    ghost var n := i;
    var current: ApiData? := first;
    visited, last := [], null;
    while current != null
      invariant i <= n <= |nodes| && visited == nodes[i..n] && last == null
      invariant current == Nth(nodes, n)
      invariant RunEnd(nodes, SameNode, i) == if n < |nodes| then RunEnd(nodes, SameNode, n) else n
      decreases |nodes| - n
    {
      visited := visited + [current];
      n := n + 1;
      if current.next != null && !IsSameNameSpace(current.className, current.next.className) {
        last := current;
        break;
      }
      current := current.next;
    }
  }

  /** What the sizing pass finds out about a run. */
  ghost predicate Sized(run: seq<ApiData>, apiLength: nat, specializationLength: nat, numCounts: nat) {
    && apiLength == Length(run, ApiSize, |run|)
    && specializationLength == Length(run, SpecializationSize, |run|)
    && numCounts == Count16(|run|)
  }

  method SizingPass(run: seq<ApiData>) returns (apiLength: nat, specializationLength: nat, numCounts: nat)
    ensures Sized(run, apiLength, specializationLength, numCounts)
  {
    apiLength, specializationLength, numCounts := 1, 1, 0;
    for i := 0 to |run|
      invariant apiLength == Length(run, ApiSize, i)
      invariant specializationLength == Length(run, SpecializationSize, i)
      invariant numCounts == Count16(i)
    {
      var node := run[i];
      var dot := GetClassStringPointer(node.className);
      apiLength := apiLength + (|node.className| - dot) + |node.apiName| + 1;
      specializationLength := specializationLength +
        if node.specialization.Some? then |node.specialization.value| + 1 else 2;
      Count16Step(i);
      numCounts := Count16(numCounts + 1);
    }
  }

  method AppendApi(node: ApiData, list: array<wchar>, isLast: bool, ghost s: Text) returns (refused: bool)
    requires |s| + |ApiField(node)| + 1 < list.Length && Holds(list[..], s)
    modifies list
    ensures !refused
    ensures Holds(list[..], s + ApiField(node) + if isLast then [] else [COMMA])
  {
    var dot := GetClassStringPointer(node.className);
    ghost var t: Text := s;
    refused := false;
    var ok;
    if dot != 0 {
      var class_: Text := node.className[dot + 1..];
      ok := StringCchCat(list, class_, s);
      refused := !ok;
      ok := StringCchCat(list, [DOT], s + class_);
      refused := refused || !ok;
      t := s + class_ + [DOT];
    }
    assert t == s + ClassPart(node.className);
    ok := StringCchCat(list, node.apiName, t);
    refused := refused || !ok;
    assert t + node.apiName == s + ApiField(node);
    if isLast {
      assert s + ApiField(node) + [] == s + ApiField(node);
    } else {
      ok := StringCchCat(list, [COMMA], s + ApiField(node));
      refused := refused || !ok;
    }
  }

  method AppendSpecialization(node: ApiData, list: array<wchar>, isLast: bool, ghost s: Text) returns (refused: bool)
    requires |s| + |SpecializationField(node)| + 1 < list.Length && Holds(list[..], s)
    modifies list
    ensures !refused
    ensures Holds(list[..], s + SpecializationField(node) + if isLast then [] else [COMMA])
  {
    var ok: bool;
    if node.specialization.Some? {
      ok := StringCchCat(list, node.specialization.value, s);
    } else {
      ok := StringCchCat(list, [DASH], s);
    }
    refused := !ok;
    if isLast {
      assert s + SpecializationField(node) + [] == s + SpecializationField(node);
    } else {
      ok := StringCchCat(list, [COMMA], s + SpecializationField(node));
      refused := refused || !ok;
    }
  }

  lemma ApiFieldFits(run: seq<ApiData>, i: nat)
    requires i < |run|
    ensures |Listed(run, ApiField, i)| + |ApiField(run[i])| + 1 < Length(run, ApiSize, |run|)
    ensures Listed(run, ApiField, i + 1) ==
            Listed(run, ApiField, i) + ApiField(run[i]) + if i + 1 == |run| then [] else [COMMA]
  {
    forall k | 0 <= k < |run| ensures |ApiField(run[k])| < ApiSize(run[k]) { ApiSizeCovers(run[k]); }
    FieldFits(run, ApiField, ApiSize, i);
  }

  method AppendApiOf(run: seq<ApiData>, i: nat, list: array<wchar>, isLast: bool) returns (refused: bool)
    requires i < |run| && list.Length == Length(run, ApiSize, |run|) && (isLast <==> i + 1 == |run|)
    requires Holds(list[..], Listed(run, ApiField, i))
    modifies list
    ensures !refused && Holds(list[..], Listed(run, ApiField, i + 1))
  {
    ApiFieldFits(run, i);
    refused := AppendApi(run[i], list, isLast, Listed(run, ApiField, i));
  }

  /** Fills the API list of a run; no append is ever refused. */
  method FillApiList(run: seq<ApiData>, length: nat, numCounts: nat) returns (text: Text, failFast: bool)
    requires length == Length(run, ApiSize, |run|) && numCounts == |run|
    ensures !failFast && text == Join(run, ApiField)
  {
    LengthsGrow(run, ApiSize, 0, |run|);
    var list := ZeroedBuffer(length);
    failFast := false;
    var i := 0;
    while i < |run|
      invariant i <= |run| && Holds(list[..], Listed(run, ApiField, i)) && !failFast
    {
      var refused := AppendApiOf(run, i, list, i == numCounts - 1);
      failFast := failFast || refused;
      i := i + 1;
    }
    text := Read(list, Listed(run, ApiField, i));
  }

  method FillSpecializationList(run: seq<ApiData>, length: nat, numCounts: nat) returns (text: Text, failFast: bool)
    requires length == Length(run, SpecializationSize, |run|) && numCounts == |run|
    ensures !failFast && text == Join(run, SpecializationField)
  {
    LengthsGrow(run, SpecializationSize, 0, |run|);
    var list := ZeroedBuffer(length);
    failFast := false;
    ghost var s: Text := [];
    var i := 0;
    while i < |run|
      invariant i <= |run| && s == Listed(run, SpecializationField, i) && Holds(list[..], s) && !failFast
    {
      FieldFits(run, SpecializationField, SpecializationSize, i);
      var refused := AppendSpecialization(run[i], list, i == numCounts - 1, s);
      failFast := failFast || refused;
      i := i + 1;
      s := Listed(run, SpecializationField, i);
    }
    text := Read(list, s);
  }

  // ----- counters -----

  /** The counters of the first n nodes. */
  ghost function Seen(nodes: seq<ApiData>, n: nat): set<Counter>
    requires n <= |nodes|
  {
    if n == 0 then {} else Seen(nodes, n - 1) + {nodes[n - 1].counter}
  }

  lemma {:induction false} SeenHas(nodes: seq<ApiData>, i: nat, n: nat)
    requires i < n <= |nodes|
    ensures nodes[i].counter in Seen(nodes, n)
  {
    if i < n - 1 { SeenHas(nodes, i, n - 1); }
  }

  /** What taking the counters in order yields at node i: a counter already taken reads zero. */
  ghost function Expected(nodes: seq<ApiData>, initial: map<Counter, int>, i: nat): int
    requires i < |nodes|
  {
    var c := nodes[i].counter;
    if c in Seen(nodes, i) || c !in initial then 0 else initial[c]
  }

  /** The first n nodes have been taken, and nothing else has changed. */
  ghost predicate TakenTo(nodes: seq<ApiData>, initial: map<Counter, int>, n: nat)
    requires n <= |nodes|
    reads set c | c in Seen(nodes, |nodes|)
  {
    forall k :: 0 <= k < |nodes| ==>
      var c := nodes[k].counter;
      c in initial && (c in Seen(nodes, |nodes|) ==> c.value == if c in Seen(nodes, n) then 0 else initial[c])
  }

  /** The exchange with zero at node i. */
  method TakeOne(node: ApiData, ghost nodes: seq<ApiData>, ghost initial: map<Counter, int>, ghost i: nat)
    returns (value: int)
    requires i < |nodes| && node == nodes[i] && TakenTo(nodes, initial, i)
    modifies node.counter
    ensures value == Expected(nodes, initial, i) && TakenTo(nodes, initial, i + 1)
  {
    SeenHas(nodes, i, |nodes|);
    value := node.counter.value;
    node.counter.value := 0;
  }

  /** These are the values taken from node i on. */
  ghost predicate AreTaken(counts: seq<int>, nodes: seq<ApiData>, initial: map<Counter, int>, i: nat) {
    i + |counts| <= |nodes| && forall k :: 0 <= k < |counts| ==> counts[k] == Expected(nodes, initial, i + k)
  }

  lemma OneMoreTaken(counts: seq<int>, value: int, nodes: seq<ApiData>, initial: map<Counter, int>, i: nat)
    requires AreTaken(counts, nodes, initial, i) && i + |counts| < |nodes|
    requires value == Expected(nodes, initial, i + |counts|)
    ensures AreTaken(counts + [value], nodes, initial, i)
  {
  }

  /** One iteration: the counter of node i + k goes into the count array. */
  method TakeInto(countArray: array<int>, k: nat, node: ApiData,
                  ghost nodes: seq<ApiData>, ghost initial: map<Counter, int>, ghost i: nat)
    requires k < countArray.Length && i + k < |nodes| && node == nodes[i + k]
    requires AreTaken(countArray[..k], nodes, initial, i) && TakenTo(nodes, initial, i + k)
    modifies countArray, node.counter
    ensures AreTaken(countArray[..k + 1], nodes, initial, i) && TakenTo(nodes, initial, i + k + 1)
  {
    ghost var taken := countArray[..k];
    var value := TakeOne(node, nodes, initial, i + k);
    countArray[k] := value;
    OneMoreTaken(taken, value, nodes, initial, i);
    assert countArray[..k + 1] == taken + [value];
  }

  /** Takes the counters of the run from node i.  `countArray` has the length the 16-bit count gave it, so
      a run of 65536 nodes or more would write past its end. */
  method TakeCounts(run: seq<ApiData>, numCounts: nat,
        ghost nodes: seq<ApiData>, ghost initial: map<Counter, int>, ghost i: nat)
    returns (counts: seq<int>, overrun: bool)
    requires i + |run| <= |nodes| && run == nodes[i..i + |run|] && numCounts == Count16(|run|)
    requires TakenTo(nodes, initial, i)
    modifies Seen(nodes, |nodes|)
    ensures overrun <==> |run| >= 0x1_0000
    ensures !overrun ==> |counts| == |run| && AreTaken(counts, nodes, initial, i) && TakenTo(nodes, initial, i + |run|)
  {
    var countArray := new int[numCounts](_ => 0);
    var k := 0;
    while k < |run|
      invariant k <= |run| && k <= numCounts
      invariant AreTaken(countArray[..k], nodes, initial, i) && TakenTo(nodes, initial, i + k)
    {
      if k >= countArray.Length { return [], true; }
      SeenHas(nodes, i + k, |nodes|);
      TakeInto(countArray, k, run[k], nodes, initial, i);
      k := k + 1;
    }
    assert countArray[..k] == countArray[..];
    counts, overrun := countArray[..], false;
  }

  ghost function Values(nodes: seq<ApiData>): map<Counter, int>
    reads Seen(nodes, |nodes|)
  {
    map c | c in Seen(nodes, |nodes|) :: c.value
  }

  // ----- the list -----

  /** Puts n between two neighbours; `after` is the list that results. */
  method Link(n: ApiData, previous: ApiData?, current: ApiData?,
              ghost before: seq<ApiData>, ghost k: nat, ghost after: seq<ApiData>)
    requires Linked(before) && k <= |before| && current == Nth(before, k)
    requires previous == if k == 0 then null else before[k - 1]
    requires Spliced(before, k, n, after) && n !in before
    modifies n, before
    ensures Linked(after)
  {
    forall i | 0 <= i < |before| && i != k - 1 ensures before[i] != previous {
      if i < k - 1 { LinkedIsDistinct(before, i, k - 1); }
      if k > 0 && k - 1 < i { LinkedIsDistinct(before, k - 1, i); }
    }
    n.next := current;
    if previous != null { previous.next := n; }
    forall i | 0 <= i < |after| ensures after[i].next == Nth(after, i + 1) {
      if i > k { assert after[i] == before[i - 1] && before[i - 1].next == Nth(before, i); }
    }
  }

  /** What one callback receives. */
  datatype Report = Report(nameSpace: Text, apiList: Text, specializations: Text, counts: seq<int>)

  ghost predicate Describes(r: Report, g: seq<ApiData>) {
    && |g| > 0
    && r.nameSpace == NameOf(g[0])
    && r.apiList == Join(g, ApiField)
    && r.specializations == Join(g, SpecializationField)
    && |r.counts| == |g|
  }

  function AllCounts(rs: seq<Report>): seq<int> {
    if |rs| == 0 then [] else AllCounts(rs[..|rs| - 1]) + rs[|rs| - 1].counts
  }

  method MakeReport(first: ApiData, run: seq<ApiData>, apiLength: nat, specializationLength: nat,
        numCounts: nat, counts: seq<int>)
    returns (report: Report, failFast: bool)
    requires |run| > 0 && first == run[0] && numCounts == |run| == |counts|
    requires apiLength == Length(run, ApiSize, |run|)
    requires specializationLength == Length(run, SpecializationSize, |run|)
    ensures !failFast && Describes(report, run) && report.counts == counts
  {
    var apiText, refusedApi := FillApiList(run, apiLength, numCounts);
    var specializationText, refused := FillSpecializationList(run, specializationLength, numCounts);
    var nameSpaceLength := GetNameSpaceLength(first.className);
    var nameSpace: Text := first.className[..nameSpaceLength];
    report := Report(nameSpace, apiText, specializationText, counts);
    failFast := refusedApi || refused;
  }

  datatype Outcome = Complete | OutOfMemory | Overrun | FailFast

  /** The filling pass of one group, the nodes visited from node n on. */
  method FillGroup(first: ApiData, run: seq<ApiData>,
        ghost nodes: seq<ApiData>, ghost initial: map<Counter, int>, ghost n: nat,
        apiLength: nat, specializationLength: nat, numCounts: nat)
    returns (report: Report, status: Outcome)
    requires n + |run| <= |nodes| && |run| > 0 && run == nodes[n..n + |run|] && first == run[0]
    requires TakenTo(nodes, initial, n)
    requires Sized(run, apiLength, specializationLength, numCounts)
    modifies Seen(nodes, |nodes|)
    ensures status == if |run| < MAX_COUNTS then Complete else Overrun
    ensures status == Complete ==>
              Describes(report, run) && AreTaken(report.counts, nodes, initial, n) && TakenTo(nodes, initial, n + |run|)
  {
    var counts, overrun := TakeCounts(run, numCounts, nodes, initial, n);
    if overrun {
      return Report([], [], [], []), Overrun;
    }
    var failFast;
    report, failFast := MakeReport(first, run, apiLength, specializationLength, numCounts, counts);
    status := if failFast then FailFast else Complete;
  }

  /** The second walk over the group at node n, and the node after it. */
  method FillPass(first: ApiData, ghost nodes: seq<ApiData>, ghost initial: map<Counter, int>, ghost n: nat,
                  apiLength: nat, specializationLength: nat, numCounts: nat)
    returns (report: Report, next: ApiData?, status: Outcome)
    requires Linked(nodes) && n < |nodes| && first == nodes[n] && TakenTo(nodes, initial, n)
    requires Sized(nodes[n..RunEnd(nodes, SameNode, n)], apiLength, specializationLength, numCounts)
    modifies Seen(nodes, |nodes|)
    ensures var r := RunEnd(nodes, SameNode, n);
            && status == (if r - n < MAX_COUNTS then Complete else Overrun)
            && (status == Complete ==>
                  && next == Nth(nodes, r)
                  && Describes(report, nodes[n..r])
                  && AreTaken(report.counts, nodes, initial, n)
                  && TakenTo(nodes, initial, r))
  {
    var run, last := ProcessSingleNameSpace(first, nodes, n);
    next := if last != null then last.next else null;
    ghost var r := RunEnd(nodes, SameNode, n);
    assert next == Nth(nodes, r) && n + |run| == r;
    report, status := FillGroup(first, run, nodes, initial, n, apiLength, specializationLength, numCounts);
  }

  /** The callbacks so far describe the first groups of the list, in order, up to node n. */
  ghost predicate DescribedTo(reports: seq<Report>, nodes: seq<ApiData>, n: nat) {
    var gs := Groups(nodes, SameNode, 0);
    && n <= |nodes| && |reports| <= |gs|
    && gs[|reports|..] == Groups(nodes, SameNode, n)
    && (forall g :: 0 <= g < |reports| ==> Describes(reports[g], gs[g]) && |gs[g]| < MAX_COUNTS)
  }

  /** Their counts are the values taken from the first n nodes. */
  ghost predicate CountedTo(reports: seq<Report>, nodes: seq<ApiData>, initial: map<Counter, int>, n: nat) {
    n <= |nodes| && |AllCounts(reports)| == n &&
    forall i :: 0 <= i < n ==> AllCounts(reports)[i] == Expected(nodes, initial, i)
  }

  lemma NextGroup(reports: seq<Report>, nodes: seq<ApiData>, n: nat)
    requires DescribedTo(reports, nodes, n) && n < |nodes|
    ensures |reports| < |Groups(nodes, SameNode, 0)|
    ensures Groups(nodes, SameNode, 0)[|reports|] == nodes[n..RunEnd(nodes, SameNode, n)]
  {
    var gs := Groups(nodes, SameNode, 0);
    assert gs[|reports|..][0] == nodes[n..RunEnd(nodes, SameNode, n)];
  }

  lemma DescribeStep(reports: seq<Report>, nodes: seq<ApiData>, n: nat, report: Report)
    requires DescribedTo(reports, nodes, n) && n < |nodes| && RunEnd(nodes, SameNode, n) - n < MAX_COUNTS
    requires Describes(report, nodes[n..RunEnd(nodes, SameNode, n)])
    ensures DescribedTo(reports + [report], nodes, RunEnd(nodes, SameNode, n))
  {
    var gs, r := Groups(nodes, SameNode, 0), RunEnd(nodes, SameNode, n);
    NextGroup(reports, nodes, n);
    assert gs[|reports| + 1..] == gs[|reports|..][1..];
    assert Groups(nodes, SameNode, n)[1..] == Groups(nodes, SameNode, r);
  }

  lemma CountStep(reports: seq<Report>, nodes: seq<ApiData>, initial: map<Counter, int>, n: nat, report: Report, r: nat)
    requires CountedTo(reports, nodes, initial, n) && n <= r <= |nodes| && |report.counts| == r - n
    requires AreTaken(report.counts, nodes, initial, n)
    ensures CountedTo(reports + [report], nodes, initial, r)
  {
    var before, after := AllCounts(reports), AllCounts(reports + [report]);
    assert (reports + [report])[..|reports|] == reports;
    assert after == before + report.counts;
    forall i | 0 <= i < r ensures after[i] == Expected(nodes, initial, i) {
      if i >= n { assert report.counts[i - n] == Expected(nodes, initial, n + (i - n)); }
    }
  }

  /** What a flush of the list achieves: the callbacks made, and why there are no more. */
  ghost predicate Flushed(nodes: seq<ApiData>, initial: map<Counter, int>, budget: nat,
        reports: seq<Report>, outcome: Outcome)
  {
    var gs, n := Groups(nodes, SameNode, 0), |AllCounts(reports)|;
    && DescribedTo(reports, nodes, n)
    && CountedTo(reports, nodes, initial, n)
    && match outcome
       case Complete => n == |nodes|
       case OutOfMemory => |reports| == budget < |gs|
       case Overrun => |reports| < |gs| && |gs[|reports|]| >= MAX_COUNTS
       case FailFast => false
  }

  /** Both passes over the group at node n, if it gets its memory. */
  method FlushGroup(first: ApiData, ghost nodes: seq<ApiData>, ghost initial: map<Counter, int>, ghost n: nat,
        gotMemory: bool)
    returns (report: Report, next: ApiData?, status: Outcome)
    requires Linked(nodes) && n < |nodes| && first == nodes[n] && TakenTo(nodes, initial, n)
    modifies Seen(nodes, |nodes|)
    ensures var r := RunEnd(nodes, SameNode, n);
            && status == (if !gotMemory then OutOfMemory else if r - n < MAX_COUNTS then Complete else Overrun)
            && (status == OutOfMemory ==> TakenTo(nodes, initial, n))
            && (status == Complete ==>
                  && next == Nth(nodes, r)
                  && Describes(report, nodes[n..r])
                  && AreTaken(report.counts, nodes, initial, n)
                  && TakenTo(nodes, initial, r))
  {
    var sized, _ := ProcessSingleNameSpace(first, nodes, n);
    var apiLength, specializationLength, numCounts := SizingPass(sized);
    if !gotMemory {
      return Report([], [], [], []), null, OutOfMemory;
    }
    report, next, status := FillPass(first, nodes, initial, n, apiLength, specializationLength, numCounts);
  }

  /** For each run of one namespace: size its texts, allocate, fill them in, call back, drop the run.
      `budget` is how many runs get their memory; the callbacks are returned in order.  Once memory is
      refused the rest of the detached list is dropped with its counters untouched. */
  method FlushNodes(first: ApiData?, ghost nodes: seq<ApiData>, ghost initial: map<Counter, int>, budget: nat)
    returns (reports: seq<Report>, outcome: Outcome)
    requires Linked(nodes) && first == Nth(nodes, 0) && TakenTo(nodes, initial, 0)
    modifies Seen(nodes, |nodes|)
    ensures Flushed(nodes, initial, budget, reports, outcome)
    ensures outcome != Overrun ==> TakenTo(nodes, initial, |AllCounts(reports)|)
  {
    var current := first;
    reports, outcome := [], Complete;
    ghost var n := 0;
    while current != null
      invariant outcome == Complete && n <= |nodes| && Linked(nodes) && current == Nth(nodes, n)
      invariant DescribedTo(reports, nodes, n) && CountedTo(reports, nodes, initial, n)
      invariant TakenTo(nodes, initial, n)
      decreases |nodes| - n
    {
      NextGroup(reports, nodes, n);
      var report, next, status := FlushGroup(current, nodes, initial, n, |reports| != budget);
      if status != Complete {
        outcome := status;
        return;
      }
      DescribeStep(reports, nodes, n, report);
      CountStep(reports, nodes, initial, n, report, RunEnd(nodes, SameNode, n));
      reports, current, n := reports + [report], next, RunEnd(nodes, SameNode, n);
    }
  }

  /** Every namespace of the list has a callback, and no two callbacks have the same. */
  ghost predicate OneCallbackEach(reports: seq<Report>, nodes: seq<ApiData>) {
    && (forall i :: 0 <= i < |nodes| ==> exists g :: 0 <= g < |reports| && reports[g].nameSpace == NameOf(nodes[i]))
    && (forall a, b :: 0 <= a < b < |reports| ==> reports[a].nameSpace != reports[b].nameSpace)
  }

  lemma CompleteReportsAll(nodes: seq<ApiData>, initial: map<Counter, int>, budget: nat, reports: seq<Report>)
    requires Flushed(nodes, initial, budget, reports, Complete)
    ensures |reports| == |Groups(nodes, SameNode, 0)|
    ensures OneGroupEach(Groups(nodes, SameNode, 0), NameOf) ==> OneCallbackEach(reports, nodes)
  {
    var gs := Groups(nodes, SameNode, 0);
    assert gs[|reports|..] == [];
    if OneGroupEach(gs, NameOf) {
      forall i | 0 <= i < |nodes| ensures exists g :: 0 <= g < |reports| && reports[g].nameSpace == NameOf(nodes[i]) {
        var g, m := ElementInGroup(nodes, SameNode, 0, i);
        assert Describes(reports[g], gs[g]) && NameOf(gs[g][m]) == NameOf(gs[g][0]);
      }
      forall a, b | 0 <= a < b < |reports| ensures reports[a].nameSpace != reports[b].nameSpace {
        assert Describes(reports[a], gs[a]) && Describes(reports[b], gs[b]);
      }
    }
  }

  lemma NothingTaken(nodes: seq<ApiData>)
    ensures TakenTo(nodes, Values(nodes), 0)
  {
    forall k | 0 <= k < |nodes| ensures nodes[k].counter in Seen(nodes, |nodes|) { SeenHas(nodes, k, |nodes|); }
  }

  class ApiDataList {
    var root: ApiData?
    ghost var nodes: seq<ApiData>

    ghost predicate Valid()
      reads this, nodes
    {
      root == Nth(nodes, 0) && Linked(nodes) && Sorted(nodes)
    }

    constructor ()
      ensures Valid() && nodes == []
    {
      root, nodes := null, [];
    }

    /** Walks to the link that the new node goes into. */
    method FindLink(className: Text) returns (previous: ApiData?, current: ApiData?)
      requires Valid()
      ensures var k := InsertAt(nodes, className, 0);
              && current == Nth(nodes, k)
              && previous == if k == 0 then null else nodes[k - 1]
    {
      previous, current := null, root;
      ghost var k := 0;
      while current != null
        invariant k <= |nodes| && current == Nth(nodes, k)
        invariant previous == if k == 0 then null else nodes[k - 1]
        invariant InsertAt(nodes, className, k) == InsertAt(nodes, className, 0)
        decreases |nodes| - k
      {
        if Wcscmp(className, current.className) <= 0 { break; }
        previous, current, k := current, current.next, k + 1;
      }
    }

    /** Nothing happens when the node cannot be allocated. */
    method Insert(className: Text, apiName: Text, specialization: Option<Text>, counter: Counter, gotMemory: bool)
      requires Valid()
      modifies this, nodes
      ensures Valid()
      ensures !gotMemory ==> nodes == old(nodes)
      ensures gotMemory ==>
                var k := InsertAt(old(nodes), className, 0);
                |nodes| == |old(nodes)| + 1 && fresh(nodes[k]) && nodes == Inserted(old(nodes), nodes[k]) &&
                nodes[k].className == className && nodes[k].apiName == apiName &&
                nodes[k].specialization == specialization && nodes[k].counter == counter
    {
      if !gotMemory { return; }
      var newApiData := new ApiData(className, apiName, specialization, counter);
      Place(newApiData);
      InsertedElements(old(nodes), newApiData);
    }

    /** The part of `Insert` under the lock. */
    method Place(n: ApiData)
      requires Valid() && n !in nodes
      modifies this, nodes, n
      ensures Valid() && nodes == Inserted(old(nodes), n)
    {
      var previous, current := FindLink(n.className);
      ghost var after := Inserted(nodes, n);
      InsertedElements(nodes, n);
      InsertKeepsOrder(nodes, n);
      Link(n, previous, current, nodes, InsertAt(nodes, n.className, 0), after);
      if previous == null { root := n; }
      nodes := after;
    }

    /** Detaches the list and reports it.  When nothing is refused, the namespaces and the callbacks match one to
        one if and only if the namespace test is exact on the list. */
    method Flush(budget: nat) returns (reports: seq<Report>, outcome: Outcome)
      requires Valid()
      modifies this, Seen(nodes, |nodes|)
      ensures Valid() && nodes == []
      ensures outcome == Complete ==>
                && |reports| == |Groups(old(nodes), SameNode, 0)|
                && (OneGroupEach(Groups(old(nodes), SameNode, 0), NameOf) <==>
                    TestIsExact(old(nodes), SameNode, NameOf, 0))
                && (TestIsExact(old(nodes), SameNode, NameOf, 0) ==> OneCallbackEach(reports, old(nodes)))
      ensures Flushed(old(nodes), old(Values(nodes)), budget, reports, outcome)
      ensures outcome != Overrun ==> TakenTo(old(nodes), old(Values(nodes)), |AllCounts(reports)|)
    {
      ghost var all, initial := nodes, Values(nodes);
      NothingTaken(all);
      var detached := root;
      root, nodes := null, [];
      reports, outcome := FlushNodes(detached, all, initial, budget);
      OneCallbackIffExact(all);
      if outcome == Complete { CompleteReportsAll(all, initial, budget, reports); }
    }
  }

  // ----- what a flush does not do -----

  lemma TwoNodesOneGroup(nodes: seq<ApiData>)
    requires |nodes| == 2 && SameNode(nodes[0], nodes[1])
    ensures Groups(nodes, SameNode, 0) == [nodes]
  {
    assert RunEnd(nodes, SameNode, 0) == RunEnd(nodes, SameNode, 1) == 2;
    assert nodes[0..2] == nodes;
  }

  /** One API of the class "A.B", called five times: its namespace, "B.x", a dash and the count. */
  method OneApiIsReported() returns (reports: seq<Report>, outcome: Outcome)
    ensures outcome == Complete && |reports| == 1
    ensures reports[0].nameSpace == [65] && reports[0].apiList == [66, 46, 120]
    ensures reports[0].specializations == [45] && reports[0].counts == [5]
  {
    var list := new ApiDataList();
    var counter := new Counter();
    counter.value := 5;
    list.Insert([65, DOT, 66], [120], None, counter, true);
    ghost var nodes := list.nodes;
    OneNodeOneReport(nodes);
    assert Seen(nodes, 1) == Seen(nodes, 0) + {counter} == {counter};
    ghost var initial := Values(nodes);
    assert initial[counter] == 5;
    reports, outcome := list.Flush(1);
    OneReport(nodes, initial, reports, outcome);
    TextsOfOne(nodes, reports[0]);
  }

  lemma OneReport(nodes: seq<ApiData>, initial: map<Counter, int>, reports: seq<Report>, outcome: Outcome)
    requires |nodes| == 1 && Flushed(nodes, initial, 1, reports, outcome) && Groups(nodes, SameNode, 0) == [nodes]
    requires nodes[0].counter in initial
    ensures outcome == Complete && |reports| == 1 && Describes(reports[0], nodes)
    ensures reports[0].counts == [initial[nodes[0].counter]]
  {
    assert outcome == Complete;
    CompleteReportsAll(nodes, initial, 1, reports);
    assert reports[..0] == [] && AllCounts(reports) == AllCounts([]) + reports[0].counts == reports[0].counts;
    assert Seen(nodes, 0) == {};
  }

  lemma TextsOfOne(nodes: seq<ApiData>, r: Report)
    requires |nodes| == 1 && Describes(r, nodes) && nodes[0].specialization == None
    requires nodes[0].className == [65, DOT, 66] && nodes[0].apiName == [120]
    ensures r.nameSpace == [65] && r.apiList == [66, 46, 120] && r.specializations == [45]
  {
    OneNodeOneReport(nodes);
    var ns: Text, cls: Text := [65], [66];
    assert nodes[0].className == ns + [DOT] + cls;
    DottedField(nodes[0], ns, cls);
    assert cls + [DOT] + nodes[0].apiName == [66, 46, 120];
  }

  lemma OneNodeOneReport(nodes: seq<ApiData>)
    requires |nodes| == 1
    ensures Groups(nodes, SameNode, 0) == [nodes]
    ensures Join(nodes, ApiField) == ApiField(nodes[0])
    ensures Join(nodes, SpecializationField) == SpecializationField(nodes[0])
  {
    assert RunEnd(nodes, SameNode, 0) == 1;
    assert nodes[0..1] == nodes;
    JoinOne(nodes, ApiField);
    JoinOne(nodes, SpecializationField);
  }

  /** Two namespaces, one nested in the other, get one callback. */
  method NestedNamesShareACallback() returns (reports: seq<Report>, outcome: Outcome)
    ensures outcome == Complete && |reports| == 1 && |reports[0].counts| == 2
    ensures NameSpace(NESTED) != NameSpace(OUTER)
  {
    NestedNamePasses();
    var list := new ApiDataList();
    var c1 := new Counter();
    var c2 := new Counter();
    list.Insert(OUTER, [97], None, c1, true);
    list.Insert(NESTED, [98], None, c2, true);
    ghost var nodes := list.nodes;
    assert nodes[0].className == NESTED && nodes[1].className == OUTER;
    TwoNodesOneGroup(nodes);
    assert Seen(nodes, 2) == Seen(nodes, 1) + {nodes[1].counter};
    assert Seen(nodes, 1) == Seen(nodes, 0) + {nodes[0].counter};
    reports, outcome := list.Flush(2);
    assert Groups(nodes, SameNode, 0)[0] == nodes;
  }

  lemma {:induction false} EqualNamesOneRun(nodes: seq<ApiData>, c: Text, i: nat)
    requires i < |nodes| && forall k :: 0 <= k < |nodes| ==> nodes[k].className == c
    ensures RunEnd(nodes, SameNode, i) == |nodes|
    decreases |nodes| - i
  {
    if i + 1 < |nodes| {
      SameNameSpaceIsKeyTest(c, c);
      OwnKey(c);
      EqualNamesOneRun(nodes, c, i + 1);
    }
  }

  ghost predicate AllSame(nodes: seq<ApiData>, className: Text, counter: Counter) {
    forall k :: 0 <= k < |nodes| ==> nodes[k].className == className && nodes[k].counter == counter
  }

  lemma {:induction false} SeenIsOne(nodes: seq<ApiData>, className: Text, counter: Counter, n: nat)
    requires n <= |nodes| && AllSame(nodes, className, counter)
    ensures Seen(nodes, n) <= {counter}
  {
    if n > 0 { SeenIsOne(nodes, className, counter, n - 1); }
  }

  lemma InsertedAllSame(nodes: seq<ApiData>, n: ApiData, className: Text, counter: Counter)
    requires AllSame(nodes, className, counter) && n.className == className && n.counter == counter
    ensures AllSame(Inserted(nodes, n), className, counter)
  {
    InsertedElements(nodes, n);
  }

  method InsertSame(list: ApiDataList, className: Text, counter: Counter)
    requires list.Valid() && AllSame(list.nodes, className, counter)
    modifies list, list.nodes
    ensures list.Valid() && AllSame(list.nodes, className, counter) && |list.nodes| == |old(list.nodes)| + 1
    ensures forall n :: n in list.nodes ==> n in old(list.nodes) || fresh(n)
  {
    ghost var before := list.nodes;
    list.Insert(className, [97], None, counter, true);
    ghost var k := InsertAt(before, className, 0);
    InsertedAllSame(before, list.nodes[k], className, counter);
    InsertedElements(before, list.nodes[k]);
  }

  /** A namespace with 65536 entries overruns the count array. */
  method FullNameSpaceOverruns() returns (reports: seq<Report>, outcome: Outcome)
    ensures outcome == Overrun
  {
    var list := new ApiDataList();
    var counter := new Counter();
    var className: Text := [65];
    var n := 0;
    while n < MAX_COUNTS
      invariant n <= MAX_COUNTS && fresh(list) && fresh(list.nodes) && list.Valid() && |list.nodes| == n
      invariant AllSame(list.nodes, className, counter)
    {
      InsertSame(list, className, counter);
      n := n + 1;
    }
    ghost var nodes := list.nodes;
    EqualNamesOneRun(nodes, className, 0);
    SeenIsOne(nodes, className, counter, |nodes|);
    reports, outcome := list.Flush(1);
  }
}
