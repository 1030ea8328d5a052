/** Callers, inserters and flushers of API-usage counters under arbitrary interleaving.  A token stands for
    the duty to report one counter: it is created by the increment that moves the counter from zero to one,
    becomes a node of `ApiDataList`, is detached by one flush, and ends when that flush exchanges the
    counter with zero.  `Step` lets every actor move whenever it can; nothing in it mentions the laws. */
module ApiCounters {
  import opened Collections

  type CounterId = nat
  type NodeId = nat
  type FlushId = nat

  /** `long` seen as UINT32: InterlockedIncrement wraps. */
  const WORD := 0x1_0000_0000

  type Count = n: nat | n < WORD

  function Incremented(v: Count): Count { if v + 1 == WORD then 0 else v + 1 }

  /** Where a token is.  A lost one was dropped because the provider was disabled or memory ran out. */
  datatype Place = Pending | Allocated | InList | Detached(k: FlushId) | Lost

  datatype Token = Token(counter: CounterId, place: Place)

  /** `Flush` reads `m_root` without the lock, then swaps it under the lock. */
  datatype Flusher = SawNodes | Walking

  /** One counter and its history: calls made, calls put into a report's count array, and oddities:
      wraps past 2^32, entries initialised without an increment, and harvests that found zero. */
  datatype Counter = Counter(value: Count, calls: nat, reported: nat, odd: Oddities)
  datatype Oddities = Oddities(wraps: nat, extra: nat, empty: nat)

  const UNUSED := Counter(0, 0, 0, Oddities(0, 0, 0))

  datatype State = State(counters: map<CounterId, Counter>, tokens: map<NodeId, Token>, flushers: map<FlushId, Flusher>)

  /** The program has just been loaded: its static counters are zero. */
  ghost predicate Loaded(s: State) {
    s.tokens == map[] && s.flushers == map[] && forall c :: c in s.counters ==> s.counters[c] == UNUSED
  }

  datatype Event =
    | Call(c: CounterId, n: NodeId)
    | Initialise(c: CounterId, n: NodeId)
    | Allocate(n: NodeId, ok: bool)
    | Insert(n: NodeId)
    | ReadRoot(k: FlushId)
    | SwapRoot(k: FlushId)
    | Harvest(k: FlushId, n: NodeId)
    | RunOutOfMemory(k: FlushId)

  predicate At(s: State, n: NodeId, p: Place) {
    n in s.tokens && s.tokens[n].place == p
  }

  /** n names the node to be allocated, so it is unused. */
  predicate Enabled(s: State, e: Event) {
    match e
    case Call(c, n) => c in s.counters && n !in s.tokens
    case Initialise(c, n) => c in s.counters && n !in s.tokens
    case Allocate(n, _) => At(s, n, Pending)
    case Insert(n) => At(s, n, Allocated)
    case ReadRoot(k) => k !in s.flushers
    case SwapRoot(k) => k in s.flushers && s.flushers[k] == SawNodes
    case Harvest(k, n) => At(s, n, Detached(k)) && s.tokens[n].counter in s.counters
    case RunOutOfMemory(k) => k in s.flushers && s.flushers[k] == Walking
  }

  function AfterCall(r: Counter): Counter {
    r.(value := Incremented(r.value), calls := r.calls + 1,
       odd := r.odd.(wraps := r.odd.wraps + if r.value + 1 == WORD then 1 else 0))
  }

  function AfterInitialise(r: Counter): Counter { r.(odd := r.odd.(extra := r.odd.extra + 1)) }

  function AfterHarvest(r: Counter): Counter {
    r.(value := 0, reported := r.reported + r.value,
       odd := r.odd.(empty := r.odd.empty + if r.value == 0 then 1 else 0))
  }

  /** The static `__wil_apiCallCounter` of one call site, with its history. */
  class CallCounter {
    var value: Count
    ghost var history: Counter

    ghost predicate Valid()
      reads this
    {
      value == history.value
    }

    constructor ()
      ensures Valid() && history == UNUSED
    {
      value, history := 0, UNUSED;
    }

    /** The increment of `__WI_LOG_CLASS_API_USE3`; `first` tells the caller to initialise the entry. */
    method Increment() returns (first: bool)
      requires Valid()
      modifies this
      ensures Valid() && history == AfterCall(old(history))
      ensures value as int == (old(value) + 1) % WORD && history.calls == old(history).calls + 1
      ensures first <==> old(value) == 0
    {
      history := AfterCall(history);
      value := if value + 1 == WORD then 0 else value + 1;
      first := value == 1;
    }

    /** InterlockedExchange with zero, as the filling pass of `Flush` does. */
    method Harvest() returns (count: Count)
      requires Valid()
      modifies this
      ensures Valid() && history == AfterHarvest(old(history))
      ensures count == old(value) && value == 0
      ensures history.reported == old(history).reported + count && history.calls == old(history).calls
    {
      history := AfterHarvest(history);
      count := value;
      value := 0;
    }
  }

  function Relocated(t: map<NodeId, Token>, from: Place, to: Place): map<NodeId, Token> {
    map n | n in t :: if t[n].place == from then t[n].(place := to) else t[n]
  }

  function Step(s: State, e: Event): State
    requires Enabled(s, e)
  {
    match e
    case Call(c, n) =>
      State(s.counters[c := AfterCall(s.counters[c])],
            if Incremented(s.counters[c].value) == 1 then s.tokens[n := Token(c, Pending)] else s.tokens,
            s.flushers)
    case Initialise(c, n) =>
      s.(counters := s.counters[c := AfterInitialise(s.counters[c])],
         tokens := s.tokens[n := Token(c, Pending)])
    case Allocate(n, ok) =>
      s.(tokens := s.tokens[n := s.tokens[n].(place := if ok then Allocated else Lost)])
    case Insert(n) => s.(tokens := s.tokens[n := s.tokens[n].(place := InList)])
    case ReadRoot(k) =>
      if exists n :: n in s.tokens && s.tokens[n].place == InList then s.(flushers := s.flushers[k := SawNodes]) else s
    case SwapRoot(k) =>
      s.(tokens := Relocated(s.tokens, InList, Detached(k)), flushers := s.flushers[k := Walking])
    case Harvest(k, n) =>
      var c := s.tokens[n].counter;
      s.(counters := s.counters[c := AfterHarvest(s.counters[c])], tokens := s.tokens - {n})
    case RunOutOfMemory(k) => s.(tokens := Relocated(s.tokens, Detached(k), Lost))
  }

  function Exec(s: State, es: seq<Event>): State
    decreases |es|
  {
    if es == [] then s
    else Exec(if Enabled(s, es[0]) then Step(s, es[0]) else s, es[1..])
  }

  // ----- one counter, told by the events alone -----

  /** What happens to one counter: its value, the calls made, the values harvested from it in their order, and how
      often it wrapped or was initialised without an increment. */
  datatype Ledger = Ledger(value: nat, calls: nat, harvests: seq<nat>, wraps: nat, extra: nat)

  const BLANK := Ledger(0, 0, [], 0, 0)

  function Entered(s: State, l: Ledger, e: Event, c: CounterId): Ledger {
    match e
    case Call(d, _) =>
      if d != c then l
      else l.(value := (l.value + 1) % WORD, calls := l.calls + 1,
              wraps := if l.value == WORD - 1 then l.wraps + 1 else l.wraps)
    case Initialise(d, _) => if d == c then l.(extra := l.extra + 1) else l
    case Harvest(_, n) =>
      if n in s.tokens && s.tokens[n].counter == c then l.(value := 0, harvests := l.harvests + [l.value]) else l
    case _ => l
  }

  function LedgerOf(s: State, l: Ledger, es: seq<Event>, c: CounterId): Ledger
    decreases |es|
  {
    if es == [] then l
    else if Enabled(s, es[0]) then LedgerOf(Step(s, es[0]), Entered(s, l, es[0], c), es[1..], c)
    else LedgerOf(s, l, es[1..], c)
  }

  function Sum(s: seq<nat>): nat { if s == [] then 0 else Sum(s[..|s| - 1]) + s[|s| - 1] }

  function Zeros(s: seq<nat>): nat {
    if s == [] then 0 else Zeros(s[..|s| - 1]) + if s[|s| - 1] == 0 then 1 else 0
  }

  lemma SumAppend(s: seq<nat>, n: nat)
    ensures Sum(s + [n]) == Sum(s) + n && Zeros(s + [n]) == Zeros(s) + if n == 0 then 1 else 0
  {
    assert (s + [n])[..|s|] == s;
  }

  predicate Matches(r: Counter, l: Ledger) {
    r.value as int == l.value && r.calls == l.calls && r.reported == Sum(l.harvests)
    && r.odd == Oddities(l.wraps, l.extra, Zeros(l.harvests))
  }

  lemma StepMatches(s: State, l: Ledger, e: Event, c: CounterId)
    requires Enabled(s, e) && c in s.counters && Matches(s.counters[c], l)
    ensures c in Step(s, e).counters && Matches(Step(s, e).counters[c], Entered(s, l, e, c))
  {
    SumAppend(l.harvests, l.value);
  }

  lemma {:induction false} RunMatches(s: State, l: Ledger, es: seq<Event>, c: CounterId)
    requires c in s.counters && Matches(s.counters[c], l)
    ensures c in Exec(s, es).counters && Matches(Exec(s, es).counters[c], LedgerOf(s, l, es, c))
    decreases |es|
  {
    if es != [] {
      if Enabled(s, es[0]) {
        StepMatches(s, l, es[0], c);
        RunMatches(Step(s, es[0]), Entered(s, l, es[0], c), es[1..], c);
      } else {
        RunMatches(s, l, es[1..], c);
      }
    }
  }

  /** How often the run calls through the counter. */
  function CallsIn(s: State, es: seq<Event>, c: CounterId): nat
    decreases |es|
  {
    if es == [] then 0
    else if Enabled(s, es[0]) then
      CallsIn(Step(s, es[0]), es[1..], c) + if es[0].Call? && es[0].c == c then 1 else 0
    else CallsIn(s, es[1..], c)
  }

  lemma {:induction false} LedgerCounts(s: State, l: Ledger, es: seq<Event>, c: CounterId)
    ensures LedgerOf(s, l, es, c).calls == l.calls + CallsIn(s, es, c)
    decreases |es|
  {
    if es != [] {
      if Enabled(s, es[0]) { LedgerCounts(Step(s, es[0]), Entered(s, l, es[0], c), es[1..], c); }
      else { LedgerCounts(s, l, es[1..], c); }
    }
  }

  /** On every run the record of a counter is what the events say: as many calls as were made, what the harvests
      found as reported, and every wrap and redundant initialisation. */
  lemma CountersHoldTheLedger(start: State, es: seq<Event>, c: CounterId)
    requires Loaded(start) && c in start.counters
    ensures c in Exec(start, es).counters
    ensures var r, l := Exec(start, es).counters[c], LedgerOf(start, BLANK, es, c);
            && r.calls == CallsIn(start, es, c) && r.value as int == l.value && r.reported == Sum(l.harvests)
            && r.odd == Oddities(l.wraps, l.extra, Zeros(l.harvests))
  {
    RunMatches(start, BLANK, es, c);
    LedgerCounts(start, BLANK, es, c);
  }

  /** What has become of the duty named n after one event: it arises with the call that finds zero or with an
      initialisation, is allocated or lost, listed, detached by a flush, and ends or is lost there. */
  function DutyAfter(s: State, d: Option<Token>, e: Event, n: NodeId): Option<Token> {
    match e
    case Call(c, m) => if m == n && c in s.counters && s.counters[c].value == 0 then Some(Token(c, Pending)) else d
    case Initialise(c, m) => if m == n then Some(Token(c, Pending)) else d
    case _ =>
      if d.None? then d
      else match e
        case Allocate(m, ok) => if m == n then Some(Token(d.value.counter, if ok then Allocated else Lost)) else d
        case Insert(m) => if m == n then Some(Token(d.value.counter, InList)) else d
        case SwapRoot(k) => if d.value.place == InList then Some(Token(d.value.counter, Detached(k))) else d
        case Harvest(_, m) => if m == n then None else d
        case RunOutOfMemory(k) => if d.value.place == Detached(k) then Some(Token(d.value.counter, Lost)) else d
        case _ => d
  }

  function DutyOnRun(s: State, d: Option<Token>, es: seq<Event>, n: NodeId): Option<Token>
    decreases |es|
  {
    if es == [] then d
    else if Enabled(s, es[0]) then DutyOnRun(Step(s, es[0]), DutyAfter(s, d, es[0], n), es[1..], n)
    else DutyOnRun(s, d, es[1..], n)
  }

  function TokenOf(s: State, n: NodeId): Option<Token> { if n in s.tokens then Some(s.tokens[n]) else None }

  lemma StepKeepsDuty(s: State, e: Event, n: NodeId)
    requires Enabled(s, e)
    ensures TokenOf(Step(s, e), n) == DutyAfter(s, TokenOf(s, n), e, n)
  {
  }

  lemma {:induction false} RunKeepsDuty(s: State, es: seq<Event>, n: NodeId)
    ensures TokenOf(Exec(s, es), n) == DutyOnRun(s, TokenOf(s, n), es, n)
    decreases |es|
  {
    if es != [] {
      if Enabled(s, es[0]) {
        StepKeepsDuty(s, es[0], n);
        RunKeepsDuty(Step(s, es[0]), es[1..], n);
      } else {
        RunKeepsDuty(s, es[1..], n);
      }
    }
  }

  /** After every run each duty to report stands where the run has brought it. */
  lemma DutiesFollowTheRun(start: State, es: seq<Event>, n: NodeId)
    requires Loaded(start)
    ensures TokenOf(Exec(start, es), n) == DutyOnRun(start, None, es, n)
  {
    RunKeepsDuty(start, es, n);
  }

  /** A flush takes exactly the nodes in the list, and running out of memory drops exactly those it still has. */
  lemma FlushTakesTheList(s: State, k: FlushId, n: NodeId)
    requires n in s.tokens
    ensures Enabled(s, SwapRoot(k)) ==>
              && n in Step(s, SwapRoot(k)).tokens
              && Step(s, SwapRoot(k)).tokens[n] ==
                 if s.tokens[n].place == InList then Token(s.tokens[n].counter, Detached(k)) else s.tokens[n]
    ensures Enabled(s, RunOutOfMemory(k)) ==>
              && n in Step(s, RunOutOfMemory(k)).tokens
              && Step(s, RunOutOfMemory(k)).tokens[n] ==
                 if s.tokens[n].place == Detached(k) then Token(s.tokens[n].counter, Lost) else s.tokens[n]
    ensures Enabled(s, ReadRoot(k)) && s.tokens[n].place == InList ==> k in Step(s, ReadRoot(k)).flushers
    ensures Enabled(s, ReadRoot(k)) && (forall m :: m in s.tokens ==> s.tokens[m].place != InList)
            ==> Step(s, ReadRoot(k)) == s
  {
  }

  // ----- the laws -----

  ghost function TokensOf(s: State, c: CounterId): set<NodeId> {
    set n | n in s.tokens && s.tokens[n].counter == c
  }

  function Sign(v: nat): nat { if v == 0 then 0 else 1 }

  /** The calls that n wraps have taken out of a counter. */
  function Wrapped(n: nat): nat {
    if n == 0 then 0 else Wrapped(n - 1) + WORD
  }

  lemma {:induction false} WrappedIs(n: nat)
    ensures Wrapped(n) == n * WORD
  {
    if n > 0 { WrappedIs(n - 1); }
  }

  /** What a counter's record says when it has the given number of tokens. */
  predicate Balanced(r: Counter, tokens: nat) {
    && r.calls == r.reported + r.value + Wrapped(r.odd.wraps)
    && tokens + r.odd.empty == Sign(r.value) + r.odd.wraps + r.odd.extra
    && r.odd.empty <= r.odd.wraps + r.odd.extra
  }

  ghost predicate Law(s: State, c: CounterId)
    requires c in s.counters
  {
    Balanced(s.counters[c], |TokensOf(s, c)|)
  }

  ghost predicate Owned(s: State) {
    forall n :: n in s.tokens ==>
      && s.tokens[n].counter in s.counters
      && (s.tokens[n].place.Detached? ==>
            s.tokens[n].place.k in s.flushers && s.flushers[s.tokens[n].place.k] == Walking)
  }

  ghost predicate Inv(s: State) {
    Owned(s) && forall c :: c in s.counters ==> Law(s, c)
  }

  predicate Creates(s: State, e: Event, c: CounterId)
    requires c in s.counters
  {
    (e.Call? && e.c == c && s.counters[c].value == 0) || (e.Initialise? && e.c == c)
  }

  predicate Ends(s: State, e: Event, c: CounterId) {
    e.Harvest? && e.n in s.tokens && s.tokens[e.n].counter == c
  }

  /** Which tokens a counter has depends on no token's place. */
  lemma PlacesDoNotMatter(t: map<NodeId, Token>, u: map<NodeId, Token>, s: State, c: CounterId)
    requires t.Keys == u.Keys && forall n :: n in t ==> t[n].counter == u[n].counter
    ensures TokensOf(s.(tokens := t), c) == TokensOf(s.(tokens := u), c)
  {
  }

  lemma StepTokens(s: State, e: Event, c: CounterId)
    requires c in s.counters && Enabled(s, e)
    ensures Creates(s, e, c) ==>
              e.n !in TokensOf(s, c) && TokensOf(Step(s, e), c) == TokensOf(s, c) + {e.n}
    ensures Ends(s, e, c) ==>
              e.n in TokensOf(s, c) && TokensOf(Step(s, e), c) == TokensOf(s, c) - {e.n}
    ensures !Creates(s, e, c) && !Ends(s, e, c) ==> TokensOf(Step(s, e), c) == TokensOf(s, c)
  {
    var s' := Step(s, e);
    var before, after := TokensOf(s, c), TokensOf(s', c);
    if Creates(s, e, c) {
      assert after == before + {e.n};
    } else if e.Call? || e.Initialise? {
      assert after == before;
    } else if e.Harvest? {
      assert after == before - {e.n};
    } else {
      PlacesDoNotMatter(s.tokens, s'.tokens, s, c);
      assert after == before;
    }
  }

  function CounterAfter(s: State, e: Event, c: CounterId): Counter
    requires c in s.counters
  {
    var r := s.counters[c];
    match e
    case Call(d, n) => if d == c then AfterCall(r) else r
    case Initialise(d, n) => if d == c then AfterInitialise(r) else r
    case Harvest(_, _) => if Ends(s, e, c) then AfterHarvest(r) else r
    case _ => r
  }

  lemma StepCounter(s: State, e: Event, c: CounterId)
    requires c in s.counters && Enabled(s, e)
    ensures c in Step(s, e).counters && Step(s, e).counters[c] == CounterAfter(s, e, c)
  {
  }

  lemma CallBalances(r: Counter, tokens: nat)
    requires Balanced(r, tokens)
    ensures Balanced(AfterCall(r), tokens + if r.value == 0 then 1 else 0)
  {
  }

  lemma HarvestBalances(r: Counter, tokens: nat)
    requires Balanced(r, tokens + 1)
    ensures Balanced(AfterHarvest(r), tokens)
  {
  }

  lemma StepBalances(s: State, e: Event, c: CounterId, tokens: nat)
    requires c in s.counters && Balanced(s.counters[c], tokens)
    ensures Creates(s, e, c) ==> Balanced(CounterAfter(s, e, c), tokens + 1)
    ensures Ends(s, e, c) && tokens > 0 ==> Balanced(CounterAfter(s, e, c), tokens - 1)
    ensures !Creates(s, e, c) && !Ends(s, e, c) ==> Balanced(CounterAfter(s, e, c), tokens)
  {
    if e.Call? {
      CallBalances(s.counters[c], tokens);
    } else if Ends(s, e, c) && tokens > 0 {
      HarvestBalances(s.counters[c], tokens - 1);
    }
  }

  lemma StepKeepsLaw(s: State, e: Event, c: CounterId)
    requires c in s.counters && Enabled(s, e) && Law(s, c)
    ensures c in Step(s, e).counters && Law(Step(s, e), c)
  {
    StepTokens(s, e, c);
    StepCounter(s, e, c);
    StepBalances(s, e, c, |TokensOf(s, c)|);
  }

  lemma StepKeepsOwned(s: State, e: Event)
    requires Enabled(s, e) && Owned(s)
    ensures Owned(Step(s, e))
  {
  }

  lemma StepKeepsInv(s: State, e: Event)
    requires Enabled(s, e) && Inv(s)
    ensures Inv(Step(s, e))
  {
    StepKeepsOwned(s, e);
    forall c | c in Step(s, e).counters ensures Law(Step(s, e), c) { StepKeepsLaw(s, e, c); }
  }

  lemma {:induction false} RunKeepsInv(s: State, es: seq<Event>)
    requires Inv(s)
    ensures Inv(Exec(s, es))
    decreases |es|
  {
    if es != [] {
      if Enabled(s, es[0]) { StepKeepsInv(s, es[0]); }
      RunKeepsInv(if Enabled(s, es[0]) then Step(s, es[0]) else s, es[1..]);
    }
  }

  lemma LoadedInv(s: State)
    requires Loaded(s)
    ensures Inv(s)
  {
    forall c | c in s.counters ensures Law(s, c) { assert TokensOf(s, c) == {}; }
  }

  lemma RunLaw(start: State, es: seq<Event>, c: CounterId)
    requires Loaded(start) && c in Exec(start, es).counters
    ensures Law(Exec(start, es), c)
  {
    LoadedInv(start);
    RunKeepsInv(start, es);
  }

  lemma {:induction false} CountersStay(s: State, es: seq<Event>)
    ensures Exec(s, es).counters.Keys <= s.counters.Keys
    decreases |es|
  {
    if es != [] {
      if Enabled(s, es[0]) {
        HarvestsKnown(s, es[0]);
        CountersStay(Step(s, es[0]), es[1..]);
      } else {
        CountersStay(s, es[1..]);
      }
    }
  }

  lemma HarvestsKnown(s: State, e: Event)
    requires Enabled(s, e)
    ensures Step(s, e).counters.Keys == s.counters.Keys
  {
  }

  /** On every run, whatever is lost or initialised twice: calls made are calls reported plus the calls
      still in the counter, up to the counter's wraps. */
  lemma CallsAreConserved(start: State, es: seq<Event>, c: CounterId)
    requires Loaded(start) && c in Exec(start, es).counters
    ensures var r := Exec(start, es).counters[c];
            r.calls == r.reported + r.value + r.odd.wraps * WORD
    ensures var l := LedgerOf(start, BLANK, es, c);
            CallsIn(start, es, c) == Sum(l.harvests) + l.value + l.wraps * WORD
  {
    RunLaw(start, es, c);
    WrappedIs(Exec(start, es).counters[c].odd.wraps);
    CountersStay(start, es);
    CountersHoldTheLedger(start, es, c);
  }

  /** On every run the tokens of a counter number one if it is nonzero and none if it is zero, plus one for
      each wrap and each redundant initialisation that no harvest of a zero has used up. */
  lemma TokensAreCounted(start: State, es: seq<Event>, c: CounterId)
    requires Loaded(start) && c in Exec(start, es).counters
    ensures var s := Exec(start, es);
            var r := s.counters[c];
            && r.odd.empty <= r.odd.wraps + r.odd.extra
            && |TokensOf(s, c)| == Sign(r.value) + (r.odd.wraps + r.odd.extra - r.odd.empty)
  {
    RunLaw(start, es, c);
  }

  /** No call is forgotten: a nonzero counter always has a token, so unless that token was lost some actor
      still holds the duty to report it. */
  lemma NonzeroHasToken(start: State, es: seq<Event>, c: CounterId)
    requires Loaded(start) && c in Exec(start, es).counters
    requires Exec(start, es).counters[c].value != 0
    ensures exists n :: n in Exec(start, es).tokens && Exec(start, es).tokens[n].counter == c
  {
    TokensAreCounted(start, es, c);
    var s := Exec(start, es);
    var n :| n in TokensOf(s, c);
  }

  /** Without a wrap and without redundant initialisation a counter is nonzero exactly when it has a token,
      the token is unique, and no harvest finds zero. */
  lemma OneTokenIffNonzero(start: State, es: seq<Event>, c: CounterId)
    requires Loaded(start) && c in Exec(start, es).counters
    requires Exec(start, es).counters[c].odd.wraps == 0 && Exec(start, es).counters[c].odd.extra == 0
    ensures var s := Exec(start, es);
            && s.counters[c].odd.empty == 0
            && (s.counters[c].value != 0 <==> exists n :: n in s.tokens && s.tokens[n].counter == c)
            && (forall m, n :: m in s.tokens && n in s.tokens && s.tokens[m].counter == c && s.tokens[n].counter == c
                  ==> m == n)
  {
    TokensAreCounted(start, es, c);
    var s := Exec(start, es);
    forall m, n | m in s.tokens && n in s.tokens && s.tokens[m].counter == c && s.tokens[n].counter == c
      ensures m == n
    {
      if m != n {
        SubsetSize({m, n}, TokensOf(s, c));
      }
    }
    if s.counters[c].value != 0 { NonzeroHasToken(start, es, c); }
    if n :| n in s.tokens && s.tokens[n].counter == c {
      SubsetSize({n}, TokensOf(s, c));
    }
  }

  /** When every token has been harvested, every call has been reported, up to wraps. */
  lemma QuiescentMeansReported(start: State, es: seq<Event>, c: CounterId)
    requires Loaded(start) && c in Exec(start, es).counters
    requires Exec(start, es).tokens == map[]
    ensures var r := Exec(start, es).counters[c];
            r.value == 0 && r.calls == r.reported + r.odd.wraps * WORD
    ensures var l := LedgerOf(start, BLANK, es, c); CallsIn(start, es, c) == Sum(l.harvests) + l.wraps * WORD
  {
    CallsAreConserved(start, es, c);
    CountersStay(start, es);
    CountersHoldTheLedger(start, es, c);
    if Exec(start, es).counters[c].value != 0 { NonzeroHasToken(start, es, c); }
  }

  // ----- every duty can be carried out -----

  function Rank(p: Place): nat {
    match p
    case Pending => 4
    case Allocated => 3
    case InList => 2
    case Detached(_) => 1
    case Lost => 0
  }

  /** Moves that take the token n one place further; k names a flush not started before. */
  function NextMoves(s: State, n: NodeId, k: FlushId): seq<Event>
    requires n in s.tokens
  {
    match s.tokens[n].place
    case Pending => [Allocate(n, true)]
    case Allocated => [Insert(n)]
    case InList => [ReadRoot(k), SwapRoot(k)]
    case Detached(j) => [Harvest(j, n)]
    case Lost => []
  }

  /** A live token is never stuck: its next moves are enabled and either end it or take it further, and
      they lose no token and create none. */
  lemma TokenCanMove(s: State, n: NodeId, k: FlushId)
    requires n in s.tokens && s.tokens[n].place != Lost && s.tokens[n].counter in s.counters && k !in s.flushers
    ensures var s' := Exec(s, NextMoves(s, n, k));
            && s'.tokens.Keys == (if s.tokens[n].place.Detached? then s.tokens.Keys - {n} else s.tokens.Keys)
            && (forall m :: m in s'.tokens ==> Rank(s'.tokens[m].place) <= Rank(s.tokens[m].place))
            && (forall m :: m in s'.tokens ==> s'.tokens[m].place == Lost ==> s.tokens[m].place == Lost)
            && (n in s'.tokens ==> Rank(s'.tokens[n].place) < Rank(s.tokens[n].place))
  {
    var es := NextMoves(s, n, k);
    assert Enabled(s, es[0]);
    if s.tokens[n].place.InList? {
      assert At(s, n, InList);
      var s1 := Step(s, es[0]);
      assert es[1..] == [SwapRoot(k)];
      assert Exec(s, es) == Exec(s1, [SwapRoot(k)]) == Step(s1, SwapRoot(k));
    } else {
      assert es[1..] == [];
      assert Exec(s, es) == Step(s, es[0]);
    }
  }

  ghost function Ranked(s: State, r: nat): set<NodeId> {
    set n | n in s.tokens && Rank(s.tokens[n].place) >= r
  }

  /** The sum of the ranks, counted level by level. */
  ghost function Remaining(s: State): nat {
    |Ranked(s, 1)| + |Ranked(s, 2)| + |Ranked(s, 3)| + |Ranked(s, 4)|
  }

  lemma RemainingDrops(s: State, s': State, n: NodeId)
    requires s'.tokens.Keys <= s.tokens.Keys
    requires forall m :: m in s'.tokens ==> Rank(s'.tokens[m].place) <= Rank(s.tokens[m].place)
    requires n in s.tokens && s.tokens[n].place != Lost
    requires n in s'.tokens ==> Rank(s'.tokens[n].place) < Rank(s.tokens[n].place)
    ensures Remaining(s') < Remaining(s)
  {
    var r := Rank(s.tokens[n].place);
    SubsetSize(Ranked(s', 1), Ranked(s, 1));
    SubsetSize(Ranked(s', 2), Ranked(s, 2));
    SubsetSize(Ranked(s', 3), Ranked(s, 3));
    SubsetSize(Ranked(s', 4), Ranked(s, 4));
    assert n in Ranked(s, r) && n !in Ranked(s', r);
    SubsetSize(Ranked(s', r), Ranked(s, r) - {n});
  }

  lemma {:induction false} UnusedId(ids: set<nat>) returns (k: nat)
    ensures forall i :: i in ids ==> i < k
  {
    if ids == {} { return 0; }
    var i :| i in ids;
    k := UnusedId(ids - {i});
    assert forall j :: j in ids ==> j == i || j in ids - {i};
    k := if i < k then k else i + 1;
  }

  lemma {:induction false} ExecAppend(s: State, es: seq<Event>, fs: seq<Event>)
    ensures Exec(s, es + fs) == Exec(Exec(s, es), fs)
    decreases |es|
  {
    if es == [] {
      assert es + fs == fs;
    } else {
      assert (es + fs)[1..] == es[1..] + fs;
      ExecAppend(if Enabled(s, es[0]) then Step(s, es[0]) else s, es[1..], fs);
    }
  }

  lemma {:induction false} CanFinish(s: State) returns (fs: seq<Event>)
    requires Inv(s) && forall n :: n in s.tokens ==> s.tokens[n].place != Lost
    ensures Exec(s, fs).tokens == map[]
    decreases Remaining(s)
  {
    if s.tokens == map[] { return []; }
    var n :| n in s.tokens;
    var k := UnusedId(s.flushers.Keys);
    var es := NextMoves(s, n, k);
    TokenCanMove(s, n, k);
    RemainingDrops(s, Exec(s, es), n);
    RunKeepsInv(s, es);
    var rest := CanFinish(Exec(s, es));
    ExecAppend(s, es, rest);
    fs := es + rest;
  }

  /** Unless a token was lost, every run can go on so that every call is reported. */
  lemma EveryCallCanBeReported(start: State, es: seq<Event>)
    requires Loaded(start)
    requires forall n :: n in Exec(start, es).tokens ==> Exec(start, es).tokens[n].place != Lost
    ensures exists fs ::
              forall c :: c in Exec(start, es + fs).counters ==>
                var l := LedgerOf(start, BLANK, es + fs, c);
                CallsIn(start, es + fs, c) == Sum(l.harvests) + l.wraps * WORD
  {
    LoadedInv(start);
    RunKeepsInv(start, es);
    var fs := CanFinish(Exec(start, es));
    ExecAppend(start, es, fs);
    forall c | c in Exec(start, es + fs).counters
      ensures var l := LedgerOf(start, BLANK, es + fs, c);
              CallsIn(start, es + fs, c) == Sum(l.harvests) + l.wraps * WORD
    {
      QuiescentMeansReported(start, es + fs, c);
    }
  }
}
