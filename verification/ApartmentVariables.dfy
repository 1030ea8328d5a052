/** Apartment variables: per-apartment storage in one static map under one lock, created on demand together with a
    shutdown registration, and erased when its last variable is cleared or its apartment is run down.
    `AfterX` functions say what each locked section does; the class performs them in place; `Step` interleaves
    them over any number of apartments and threads. */
module ApartmentVariables {
  import opened Collections

  type Apartment = nat
  type Variable = nat
  type Value = int
  type Cookie = nat
  type ThreadId = nat
  type TaskId = nat

  /** The entry of one apartment. */
  datatype Storage = Storage(cookie: Cookie, variables: map<Variable, Value>)

  /** `registered` is the system's table of live shutdown registrations.  `issued` counts all cookies ever handed
      out; the last two are how registrations have ended. */
  datatype Tables = Tables(
    storage: map<Apartment, Storage>, registered: map<Cookie, Apartment>, issued: nat,
    unregistered: multiset<Cookie>, released: multiset<Cookie>)

  const EMPTY := Tables(map[], map[], 0, multiset{}, multiset{})

  function Get(t: Tables, a: Apartment, v: Variable): Option<Value> {
    if a in t.storage && v in t.storage[a].variables then Some(t.storage[a].variables[v]) else None
  }

  /** `ensure_current_apartment_variables`. */
  function AfterEnsure(t: Tables, a: Apartment): Tables {
    if a in t.storage then t
    else t.(storage := t.storage[a := Storage(t.issued, map[])],
            registered := t.registered[t.issued := a],
            issued := t.issued + 1)
  }

  function WithVariables(t: Tables, a: Apartment, vs: map<Variable, Value>): Tables
    requires a in t.storage
  {
    t.(storage := t.storage[a := t.storage[a].(variables := vs)])
  }

  /** The second locked section of `get_or_create`: insert never replaces. */
  function AfterInsert(t: Tables, a: Apartment, v: Variable, x: Value): Tables
    requires a in t.storage
  {
    if v in t.storage[a].variables then t else WithVariables(t, a, t.storage[a].variables[v := x])
  }

  function AfterSet(t: Tables, a: Apartment, v: Variable, x: Value): Tables
    requires a in t.storage && v in t.storage[a].variables
  {
    WithVariables(t, a, t.storage[a].variables[v := x])
  }

  /** Erasing the entry destroys its registration, which unregisters. */
  function AfterClear(t: Tables, a: Apartment, v: Variable): Tables {
    if a !in t.storage then t
    else
      var vs := t.storage[a].variables - {v};
      if vs == map[] then
        var c := t.storage[a].cookie;
        t.(storage := t.storage - {a}, registered := t.registered - {c}, unregistered := t.unregistered + multiset{c})
      else WithVariables(t, a, vs)
  }

  /** `OnUninitialize`: the system has already dropped the registration, so it is only released. */
  function AfterRundown(t: Tables, a: Apartment): Tables
    requires a in t.storage
  {
    var c := t.storage[a].cookie;
    t.(storage := t.storage - {a}, registered := t.registered - {c}, released := t.released + multiset{c})
  }

  // ----- the static map, updated in place -----

  class ApartmentVariableBase {
    var storage: map<Apartment, Storage>
    var registered: map<Cookie, Apartment>
    var issued: nat
    var unregistered: multiset<Cookie>
    var released: multiset<Cookie>

    ghost function Snapshot(): Tables
      reads this
    {
      Tables(storage, registered, issued, unregistered, released)
    }

    constructor ()
      ensures Snapshot() == EMPTY
    {
      storage, registered, issued, unregistered, released := map[], map[], 0, multiset{}, multiset{};
    }

    method EnsureCurrentApartmentVariables(a: Apartment)
      modifies this
      ensures Snapshot() == AfterEnsure(old(Snapshot()), a) && a in storage
    {
      if a in storage {
        return;
      }
      var cookie := issued;
      registered, issued := registered[cookie := a], issued + 1;
      storage := storage[a := Storage(cookie, map[])];
    }

    method Erase(a: Apartment)
      requires a in storage
      modifies this
      ensures var c := old(storage)[a].cookie;
              && storage == old(storage) - {a} && registered == old(registered) - {c} && issued == old(issued)
              && unregistered == old(unregistered) + multiset{c} && released == old(released)
    {
      var c := storage[a].cookie;
      storage := storage - {a};
      registered := registered - {c};
      unregistered := unregistered + multiset{c};
    }

    method GetIf(a: Apartment, v: Variable) returns (x: Option<Value>)
      ensures x == Get(Snapshot(), a, v)
    {
      if a in storage && v in storage[a].variables {
        return Some(storage[a].variables[v]);
      }
      x := None;
    }

    /** A false result is the fail-fast on a variable that is not stored. */
    method Set(a: Apartment, v: Variable, x: Value) returns (stored: bool)
      modifies this
      ensures stored <==> a in old(storage) && v in old(storage)[a].variables
      ensures Snapshot() == if stored then AfterSet(old(Snapshot()), a, v, x) else old(Snapshot())
    {
      stored := a in storage && v in storage[a].variables;
      if stored {
        storage := storage[a := storage[a].(variables := storage[a].variables[v := x])];
      }
    }

    method Clear(a: Apartment, v: Variable)
      modifies this
      ensures Snapshot() == AfterClear(old(Snapshot()), a, v)
    {
      if a in storage {
        var vs := storage[a].variables - {v};
        if vs == map[] {
          Erase(a);
        } else {
          storage := storage[a := storage[a].(variables := vs)];
        }
      }
    }

    /** The loop under the lock of `clear_all_apartments_async`. */
    method GatherContexts(v: Variable) returns (contexts: seq<Apartment>)
      ensures Gathers(Snapshot(), v, contexts)
    {
      contexts := [];
      var ids := storage.Keys;
      while ids != {}
        invariant ids <= storage.Keys
        invariant forall a :: a in contexts <==> a in storage && a !in ids && v in storage[a].variables
      {
        var a :| a in ids;
        ids := ids - {a};
        if v in storage[a].variables {
          contexts := contexts + [a];
        }
      }
    }

    /** The shutdown observer's callback. */
    method OnUninitialize(a: Apartment)
      requires a in storage
      modifies this
      ensures Snapshot() == AfterRundown(old(Snapshot()), a)
    {
      var c := storage[a].cookie;
      storage := storage - {a};
      registered := registered - {c};
      released := released + multiset{c};
    }

    /** `clear_all_apartments_async`, while apartments may be run down between its hops.  A hop into one of those
        fails and is ignored.  The variable is gone everywhere, everything in the apartments that died is gone,
        and every other variable is as it was. */
    method ClearAllApartments(v: Variable) returns (died: set<Apartment>)
      modifies this
      ensures forall a, w :: Get(Snapshot(), a, w) == if w == v || a in died then None else Get(old(Snapshot()), a, w)
    {
      var contexts := GatherContexts(v);
      ghost var before := Snapshot();
      died := {};
      var i := 0;
      while i < |contexts|
        invariant i <= |contexts|
        invariant ClearedIn(before, Snapshot(), v, contexts[..i], died)
      {
        var goes: bool, a: Apartment := *, *;
        if goes {
          ApartmentDies(before, Snapshot(), v, contexts[..i], died, a);
          if a in storage {
            OnUninitialize(a);
          }
          died := died + {a};
        }
        HopsOnce(before, Snapshot(), v, contexts, i, died);
        if contexts[i] !in died {
          Clear(contexts[i], v);
        }
        i := i + 1;
      }
      assert contexts[..i] == contexts;
    }
  }

  ghost predicate Gathers(t: Tables, v: Variable, contexts: seq<Apartment>) {
    forall a :: a in contexts <==> Get(t, a, v).Some?
  }

  ghost predicate ClearedIn(before: Tables, after: Tables, v: Variable, cs: seq<Apartment>, died: set<Apartment>) {
    forall a, w :: Get(after, a, w) == if (w == v && a in cs) || a in died then None else Get(before, a, w)
  }

  /** Clearing a variable in one apartment changes what no other lookup finds. */
  lemma ClearChangesOne(t: Tables, a: Apartment, v: Variable)
    ensures forall b, w :: Get(AfterClear(t, a, v), b, w) == if b == a && w == v then None else Get(t, b, w)
  {
    if a in t.storage {
      var vs := t.storage[a].variables - {v};
      assert vs == map[] ==> forall w :: w in t.storage[a].variables ==> w == v || w in vs;
    }
  }

  /** The next hop clears the variable, or finds the apartment gone and nothing in it. */
  lemma HopsOnce(before: Tables, t: Tables, v: Variable, cs: seq<Apartment>, i: nat, died: set<Apartment>)
    requires i < |cs| && ClearedIn(before, t, v, cs[..i], died)
    ensures cs[i] !in died ==> ClearedIn(before, AfterClear(t, cs[i], v), v, cs[..i + 1], died)
    ensures cs[i] in died ==> ClearedIn(before, t, v, cs[..i + 1], died)
  {
    ClearChangesOne(t, cs[i], v);
    assert cs[..i + 1] == cs[..i] + [cs[i]];
  }

  lemma ApartmentDies(before: Tables, t: Tables, v: Variable, cs: seq<Apartment>, died: set<Apartment>, a: Apartment)
    requires ClearedIn(before, t, v, cs, died)
    ensures ClearedIn(before, if a in t.storage then AfterRundown(t, a) else t, v, cs, died + {a})
  {
    var t' := if a in t.storage then AfterRundown(t, a) else t;
    assert forall b, w :: Get(t', b, w) == if b == a then None else Get(t, b, w);
  }

  // ----- interleaving -----

  /** A thread inside the creator of `get_or_create` still holds a pointer to the storage it was given, which is
      the entry with that cookie. */
  datatype Creating = Creating(a: Apartment, v: Variable, c: Cookie)

  /** A `clear_all_apartments_async` on its way through the apartments it has gathered. */
  datatype Clearing = Clearing(v: Variable, contexts: seq<Apartment>)

  datatype State = State(
    tables: Tables, dead: set<Apartment>, creating: map<ThreadId, Creating>, clearing: map<TaskId, Clearing>)

  const START := State(EMPTY, {}, map[], map[])

  datatype Event =
    | Lookup(t: ThreadId, a: Apartment, v: Variable)
    | Insert(t: ThreadId, x: Value)
    | CreatorThrows(t: ThreadId)
    | Set(a: Apartment, v: Variable, x: Value)
    | Clear(a: Apartment, v: Variable)
    | Gather(k: TaskId, v: Variable, contexts: seq<Apartment>)
    | Hop(k: TaskId)
    | HopFails(k: TaskId)
    | Rundown(a: Apartment)

  /** The apartment an event's code runs in must still be there. */
  ghost predicate Enabled(s: State, e: Event) {
    match e
    case Lookup(t, a, _) => t !in s.creating && a !in s.dead
    case Insert(t, _) => t in s.creating && s.creating[t].a !in s.dead
    case CreatorThrows(t) => t in s.creating
    case Set(a, v, _) => a !in s.dead && Get(s.tables, a, v).Some?
    case Clear(a, _) => a !in s.dead
    case Gather(k, v, contexts) => k !in s.clearing && Gathers(s.tables, v, contexts)
    case Hop(k) => k in s.clearing && s.clearing[k].contexts != []
    case HopFails(k) => k in s.clearing && s.clearing[k].contexts != []
    case Rundown(a) => a !in s.dead
  }

  /** The pointer into the storage is stale: the entry has been erased. */
  predicate Dangles(s: State, t: ThreadId)
    requires t in s.creating
  {
    var p := s.creating[t];
    !(p.a in s.tables.storage && s.tables.storage[p.a].cookie == p.c)
  }

  /** A lookup that finds the variable returns it; a hop into a dead apartment is ignored; the system runs the
      shutdown observer only where one is registered. */
  ghost function Step(s: State, e: Event): State
    requires Enabled(s, e)
  {
    match e
    case Lookup(t, a, v) =>
      var tables := AfterEnsure(s.tables, a);
      if v in tables.storage[a].variables then s.(tables := tables)
      else s.(tables := tables, creating := s.creating[t := Creating(a, v, tables.storage[a].cookie)])
    case Insert(t, x) =>
      var p := s.creating[t];
      s.(tables := if Dangles(s, t) then s.tables else AfterInsert(s.tables, p.a, p.v, x), creating := s.creating - {t})
    case CreatorThrows(t) => s.(creating := s.creating - {t})
    case Set(a, v, x) => s.(tables := AfterSet(s.tables, a, v, x))
    case Clear(a, v) => s.(tables := AfterClear(s.tables, a, v))
    case Gather(k, v, contexts) => s.(clearing := s.clearing[k := Clearing(v, contexts)])
    case Hop(k) =>
      var cl := s.clearing[k];
      s.(tables := if cl.contexts[0] in s.dead then s.tables else AfterClear(s.tables, cl.contexts[0], cl.v),
         clearing := s.clearing[k := cl.(contexts := cl.contexts[1..])])
    case HopFails(k) => s.(clearing := s.clearing - {k})
    case Rundown(a) =>
      s.(tables := if a in s.tables.storage then AfterRundown(s.tables, a) else s.tables, dead := s.dead + {a})
  }

  ghost function Exec(s: State, es: seq<Event>): State
    decreases |es|
  {
    if es == [] then s else Exec(if Enabled(s, es[0]) then Step(s, es[0]) else s, es[1..])
  }

  /** No creator comes back to a storage that has been erased: what the code does then has no meaning. */
  ghost predicate WellDefined(s: State, es: seq<Event>)
    decreases |es|
  {
    es == [] ||
    (if Enabled(s, es[0]) then
       !(es[0].Insert? && Dangles(s, es[0].t)) && WellDefined(Step(s, es[0]), es[1..])
     else WellDefined(s, es[1..]))
  }

  // ----- registrations -----

  predicate Live(t: Tables, c: Cookie) { c in t.registered }

  /** Each live registration belongs to the one entry that holds its cookie, and every other cookie issued has
      ended once. */
  ghost predicate Registrations(t: Tables) {
    && (forall c :: c in t.registered ==> t.registered[c] in t.storage && t.storage[t.registered[c]].cookie == c)
    && (forall a :: a in t.storage ==> t.storage[a].cookie in t.registered && t.registered[t.storage[a].cookie] == a)
    && (forall c :: c in t.registered ==> c < t.issued)
    && (forall c: Cookie :: t.unregistered[c] + t.released[c] == if c < t.issued && c !in t.registered then 1 else 0)
  }

  ghost predicate Inv(s: State) {
    && Registrations(s.tables)
    && (forall a :: a in s.tables.storage ==> a !in s.dead)
    && (forall t :: t in s.creating ==> s.creating[t].c < s.tables.issued)
  }

  lemma EnsureKeeps(t: Tables, a: Apartment)
    requires Registrations(t)
    ensures Registrations(AfterEnsure(t, a))
  {
  }

  lemma VariablesDoNotMatter(t: Tables, a: Apartment, vs: map<Variable, Value>)
    requires Registrations(t) && a in t.storage
    ensures Registrations(WithVariables(t, a, vs))
  {
  }

  lemma ClearKeeps(t: Tables, a: Apartment, v: Variable)
    requires Registrations(t)
    ensures Registrations(AfterClear(t, a, v))
  {
    if a in t.storage && t.storage[a].variables - {v} != map[] {
      VariablesDoNotMatter(t, a, t.storage[a].variables - {v});
    }
  }

  lemma RundownKeeps(t: Tables, a: Apartment)
    requires Registrations(t) && a in t.storage
    ensures Registrations(AfterRundown(t, a))
  {
  }

  lemma StepKeepsRegistrations(s: State, e: Event)
    requires Enabled(s, e) && Inv(s)
    ensures Registrations(Step(s, e).tables)
  {
    var t := s.tables;
    match e
    case Lookup(_, a, _) => EnsureKeeps(t, a);
    case Insert(i, x) =>
      var p := s.creating[i];
      if !Dangles(s, i) && p.v !in t.storage[p.a].variables {
        VariablesDoNotMatter(t, p.a, t.storage[p.a].variables[p.v := x]);
      }
    case Set(a, v, x) => VariablesDoNotMatter(t, a, t.storage[a].variables[v := x]);
    case Clear(a, v) => ClearKeeps(t, a, v);
    case Hop(k) => ClearKeeps(t, s.clearing[k].contexts[0], s.clearing[k].v);
    case Rundown(a) => if a in t.storage { RundownKeeps(t, a); }
    case _ =>
  }

  lemma StepKeepsCookies(s: State, e: Event)
    requires Enabled(s, e)
    requires forall t :: t in s.creating ==> s.creating[t].c < s.tables.issued
    requires forall a :: a in s.tables.storage ==> s.tables.storage[a].cookie < s.tables.issued
    ensures forall t :: t in Step(s, e).creating ==> Step(s, e).creating[t].c < Step(s, e).tables.issued
  {
  }

  lemma StepKeepsDead(s: State, e: Event)
    requires Enabled(s, e)
    requires forall a :: a in s.tables.storage ==> a !in s.dead
    ensures forall a :: a in Step(s, e).tables.storage ==> a !in Step(s, e).dead
  {
  }

  lemma StepKeepsInv(s: State, e: Event)
    requires Enabled(s, e) && Inv(s)
    ensures Inv(Step(s, e))
  {
    StepKeepsRegistrations(s, e);
    StepKeepsCookies(s, e);
    StepKeepsDead(s, e);
  }

  lemma {:induction false} RunKeepsInv(s: State, es: seq<Event>)
    requires Inv(s)
    ensures Inv(Exec(s, es))
    decreases |es|
  {
    if es != [] {
      if Enabled(s, es[0]) { StepKeepsInv(s, es[0]); }
      RunKeepsInv(if Enabled(s, es[0]) then Step(s, es[0]) else s, es[1..]);
    }
  }

  /** After every run the live registrations are exactly those of the stored apartments, one each, and every
      other registration made has ended exactly once, by unregistering or by rundown. */
  lemma RegistrationsMatchStorage(es: seq<Event>)
    requires WellDefined(START, es)
    ensures Registrations(Exec(START, es).tables)
  {
    RunKeepsInv(START, es);
  }

  /** The rundowns on a run that ended this registration. */
  ghost function RundownsOf(s: State, es: seq<Event>, c: Cookie): nat
    decreases |es|
  {
    if es == [] then 0
    else if Enabled(s, es[0]) then
      RundownsOf(Step(s, es[0]), es[1..], c) +
      if es[0].Rundown? && c in s.tables.registered && s.tables.registered[c] == es[0].a then 1 else 0
    else RundownsOf(s, es[1..], c)
  }

  /** A rundown releases the registration of its apartment, which must not be unregistered then; nothing else
      releases one. */
  lemma RundownReleases(s: State, e: Event, c: Cookie)
    requires Enabled(s, e) && Inv(s)
    ensures var before, after := s.tables, Step(s, e).tables;
            if e.Rundown? && c in before.registered && before.registered[c] == e.a then
              after.released[c] == before.released[c] + 1 && after.unregistered[c] == before.unregistered[c]
            else after.released[c] == before.released[c]
  {
  }

  lemma {:induction false} RunReleases(s: State, es: seq<Event>, c: Cookie)
    requires Inv(s)
    ensures Exec(s, es).tables.released[c] == s.tables.released[c] + RundownsOf(s, es, c)
    decreases |es|
  {
    if es != [] {
      if Enabled(s, es[0]) {
        StepKeepsInv(s, es[0]);
        RundownReleases(s, es[0], c);
      }
      RunReleases(if Enabled(s, es[0]) then Step(s, es[0]) else s, es[1..], c);
    }
  }

  /** On every run a registration is released exactly if a rundown of its apartment ended it, and unregistered
      exactly if it has ended otherwise. */
  lemma ReleasedIffRunDown(es: seq<Event>, c: Cookie)
    requires WellDefined(START, es) && c < Exec(START, es).tables.issued
    ensures var t, n := Exec(START, es).tables, RundownsOf(START, es, c);
            && t.released[c] == n <= 1
            && t.unregistered[c] == if c in t.registered || n == 1 then 0 else 1
  {
    RunKeepsInv(START, es);
    RunReleases(START, es, c);
  }

  /** When the system calls the shutdown observer of an apartment, its entry is there to be extracted. */
  lemma RundownFindsStorage(es: seq<Event>, c: Cookie)
    requires WellDefined(START, es) && Live(Exec(START, es).tables, c)
    ensures var t := Exec(START, es).tables;
            t.registered[c] in t.storage && t.storage[t.registered[c]].cookie == c &&
            t.registered[c] !in Exec(START, es).dead
  {
    RunKeepsInv(START, es);
  }

  // ----- values -----

  predicate Touches(s: State, e: Event, a: Apartment, v: Variable) {
    match e
    case Lookup(_, _, _) => false
    case Insert(t, _) => t in s.creating && s.creating[t].a == a && s.creating[t].v == v
    case CreatorThrows(_) => false
    case Set(b, w, _) => b == a && w == v
    case Clear(b, w) => b == a && w == v
    case Gather(_, _, _) => false
    case Hop(k) =>
      k in s.clearing && s.clearing[k].contexts != [] && s.clearing[k].contexts[0] == a && s.clearing[k].v == v
    case HopFails(_) => false
    case Rundown(b) => b == a
  }

  /** Whatever one event does, it does to one variable in one apartment, or to an apartment that is run down. */
  lemma OthersUnchanged(s: State, e: Event, a: Apartment, v: Variable)
    requires Enabled(s, e) && !Touches(s, e, a, v)
    ensures Get(Step(s, e).tables, a, v) == Get(s.tables, a, v)
  {
    match e
    case Clear(b, w) => ClearChangesOne(s.tables, b, w);
    case Hop(k) => ClearChangesOne(s.tables, s.clearing[k].contexts[0], s.clearing[k].v);
    case _ =>
  }

  /** What a lookup finds after one event, by what it found before. */
  ghost function FoundAfter(s: State, e: Event, a: Apartment, v: Variable, found: Option<Value>): Option<Value> {
    match e
    case Insert(t, x) => if Touches(s, e, a, v) && !Dangles(s, t) && found.None? then Some(x) else found
    case Set(_, _, x) => if Touches(s, e, a, v) then Some(x) else found
    case Clear(_, _) => if Touches(s, e, a, v) then None else found
    case Hop(_) => if Touches(s, e, a, v) then None else found
    case Rundown(_) => if Touches(s, e, a, v) then None else found
    case _ => found
  }

  lemma StepFinds(s: State, e: Event, a: Apartment, v: Variable)
    requires Enabled(s, e) && Inv(s)
    ensures Get(Step(s, e).tables, a, v) == FoundAfter(s, e, a, v, Get(s.tables, a, v))
  {
    if Touches(s, e, a, v) {
      match e
      case Clear(b, w) => ClearChangesOne(s.tables, b, w);
      case Hop(k) => ClearChangesOne(s.tables, s.clearing[k].contexts[0], s.clearing[k].v);
      case _ =>
    } else {
      OthersUnchanged(s, e, a, v);
    }
  }

  ghost function FoundOnRun(s: State, es: seq<Event>, a: Apartment, v: Variable, found: Option<Value>): Option<Value>
    decreases |es|
  {
    if es == [] then found
    else if Enabled(s, es[0]) then FoundOnRun(Step(s, es[0]), es[1..], a, v, FoundAfter(s, es[0], a, v, found))
    else FoundOnRun(s, es[1..], a, v, found)
  }

  lemma {:induction false} RunFinds(s: State, es: seq<Event>, a: Apartment, v: Variable)
    requires Inv(s)
    ensures Get(Exec(s, es).tables, a, v) == FoundOnRun(s, es, a, v, Get(s.tables, a, v))
    decreases |es|
  {
    if es != [] {
      if Enabled(s, es[0]) {
        StepKeepsInv(s, es[0]);
        StepFinds(s, es[0], a, v);
      }
      RunFinds(if Enabled(s, es[0]) then Step(s, es[0]) else s, es[1..], a, v);
    }
  }

  /** After every run a lookup finds what the inserts, sets, clears and rundowns of the run have left. */
  lemma LookupsFollowTheRun(es: seq<Event>, a: Apartment, v: Variable)
    requires WellDefined(START, es)
    ensures Get(Exec(START, es).tables, a, v) == FoundOnRun(START, es, a, v, None)
  {
    RunFinds(START, es, a, v);
  }

  /** Who is on the way: what each thread inside a creator has looked up in vain, what each clearing task has still to
      visit, and which apartments have been run down. */
  datatype Underway = Underway(
    creators: map<ThreadId, (Apartment, Variable)>,
    tasks: map<TaskId, (Variable, seq<Apartment>)>,
    dead: set<Apartment>)

  const NOBODY := Underway(map[], map[], {})

  function UnderwayAfter(s: State, u: Underway, e: Event): Underway {
    match e
    case Lookup(t, a, v) => if Get(s.tables, a, v).None? then u.(creators := u.creators[t := (a, v)]) else u
    case Insert(t, _) => u.(creators := u.creators - {t})
    case CreatorThrows(t) => u.(creators := u.creators - {t})
    case Gather(k, v, contexts) => u.(tasks := u.tasks[k := (v, contexts)])
    case Hop(k) =>
      if k in u.tasks && u.tasks[k].1 != [] then u.(tasks := u.tasks[k := (u.tasks[k].0, u.tasks[k].1[1..])]) else u
    case HopFails(k) => u.(tasks := u.tasks - {k})
    case Rundown(a) => u.(dead := u.dead + {a})
    case _ => u
  }

  ghost predicate SameUnderway(s: State, u: Underway) {
    && s.creating.Keys == u.creators.Keys
    && (forall t :: t in s.creating ==> u.creators[t] == (s.creating[t].a, s.creating[t].v))
    && s.clearing.Keys == u.tasks.Keys
    && (forall k :: k in s.clearing ==> u.tasks[k] == (s.clearing[k].v, s.clearing[k].contexts))
    && s.dead == u.dead
  }

  lemma StepKeepsUnderway(s: State, u: Underway, e: Event)
    requires Enabled(s, e) && SameUnderway(s, u)
    ensures SameUnderway(Step(s, e), UnderwayAfter(s, u, e))
  {
  }

  ghost function UnderwayOnRun(s: State, u: Underway, es: seq<Event>): Underway
    decreases |es|
  {
    if es == [] then u
    else if Enabled(s, es[0]) then UnderwayOnRun(Step(s, es[0]), UnderwayAfter(s, u, es[0]), es[1..])
    else UnderwayOnRun(s, u, es[1..])
  }

  lemma {:induction false} RunKeepsUnderway(s: State, u: Underway, es: seq<Event>)
    requires SameUnderway(s, u)
    ensures SameUnderway(Exec(s, es), UnderwayOnRun(s, u, es))
    decreases |es|
  {
    if es != [] {
      if Enabled(s, es[0]) {
        StepKeepsUnderway(s, u, es[0]);
        RunKeepsUnderway(Step(s, es[0]), UnderwayAfter(s, u, es[0]), es[1..]);
      } else {
        RunKeepsUnderway(s, u, es[1..]);
      }
    }
  }

  /** After every run a thread is inside a creator exactly for the variable it has looked up in vain and neither
      inserted nor given up, a task has before it what it gathered and has not hopped to, and the dead apartments
      are those run down. */
  lemma UnderwayIsOfTheRun(es: seq<Event>)
    ensures SameUnderway(Exec(START, es), UnderwayOnRun(START, NOBODY, es))
  {
    RunKeepsUnderway(START, NOBODY, es);
  }

  /** A clear erases the entry of its apartment exactly if no other variable is left in it, and keeps the
      registration of any other. */
  lemma ClearErasesIff(t: Tables, a: Apartment, v: Variable, b: Apartment)
    requires b in t.storage
    ensures b in AfterClear(t, a, v).storage <==> b != a || exists w :: w in t.storage[b].variables && w != v
    ensures b in AfterClear(t, a, v).storage ==> AfterClear(t, a, v).storage[b].cookie == t.storage[b].cookie
  {
    if b == a {
      var vs := t.storage[a].variables - {v};
      if w :| w in t.storage[a].variables && w != v { assert w in vs; }
      if vs != map[] { var w :| w in vs; }
    }
  }

  predicate Removes(s: State, e: Event, a: Apartment, v: Variable) {
    Touches(s, e, a, v) && !e.Insert?
  }

  /** Once a variable has a value, insertions never replace it: only a set, a clear or the rundown does. */
  lemma FirstValueStays(s: State, e: Event, a: Apartment, v: Variable)
    requires Enabled(s, e) && Get(s.tables, a, v).Some? && !Removes(s, e, a, v)
    ensures Get(Step(s, e).tables, a, v) == Get(s.tables, a, v)
  {
    if !Touches(s, e, a, v) { OthersUnchanged(s, e, a, v); }
  }

  ghost predicate NeverRemoved(s: State, es: seq<Event>, a: Apartment, v: Variable)
    decreases |es|
  {
    es == [] ||
    (if Enabled(s, es[0]) then !Removes(s, es[0], a, v) && NeverRemoved(Step(s, es[0]), es[1..], a, v)
     else NeverRemoved(s, es[1..], a, v))
  }

  /** However many creators of the same variable overlap, re-entrantly or on other threads, the first value
      inserted is the one every later lookup finds. */
  lemma {:induction false} FirstValueStaysOnRun(s: State, es: seq<Event>, a: Apartment, v: Variable)
    requires WellDefined(s, es) && Get(s.tables, a, v).Some? && NeverRemoved(s, es, a, v)
    ensures Get(Exec(s, es).tables, a, v) == Get(s.tables, a, v)
    decreases |es|
  {
    if es != [] {
      if Enabled(s, es[0]) { FirstValueStays(s, es[0], a, v); }
      FirstValueStaysOnRun(if Enabled(s, es[0]) then Step(s, es[0]) else s, es[1..], a, v);
    }
  }

  /** What `get_or_create` ends with: the value that got there first, else the one it created. */
  lemma InsertKeepsTheFirst(s: State, t: ThreadId, x: Value)
    requires Enabled(s, Insert(t, x)) && !Dangles(s, t)
    ensures var p, before := s.creating[t], Get(s.tables, s.creating[t].a, s.creating[t].v);
            Get(Step(s, Insert(t, x)).tables, p.a, p.v) == if before.Some? then before else Some(x)
  {
  }

  /** What was set is found, what was cleared is not, and neither is anything in an apartment run down. */
  lemma LookupsReadBack(t: Tables, a: Apartment, v: Variable, x: Value)
    requires a in t.storage
    ensures Get(AfterInsert(t, a, v, x), a, v) == if Get(t, a, v).Some? then Get(t, a, v) else Some(x)
    ensures Get(t, a, v).Some? ==> Get(AfterSet(t, a, v, x), a, v) == Some(x)
    ensures Get(AfterClear(t, a, v), a, v) == None && Get(AfterRundown(t, a), a, v) == None
  {
    ClearChangesOne(t, a, v);
  }

  // ----- clearing everywhere, with interference -----

  /** The task still has to clear v in apartment a, or it is clear. */
  ghost predicate Covered(s: State, k: TaskId, v: Variable, a: Apartment) {
    && k in s.clearing && s.clearing[k].v == v
    && (a in s.clearing[k].contexts || Get(s.tables, a, v).None?)
  }

  /** The event neither ends the task early nor gives the variable a value where it had none. */
  predicate Leaves(s: State, e: Event, k: TaskId, v: Variable) {
    match e
    case HopFails(j) => j != k
    case Insert(t, _) => t in s.creating && s.creating[t].v != v
    case _ => true
  }

  lemma StepKeepsCovered(s: State, e: Event, k: TaskId, v: Variable, a: Apartment)
    requires Enabled(s, e) && Inv(s) && Leaves(s, e, k, v) && Covered(s, k, v, a)
    ensures Covered(Step(s, e), k, v, a)
  {
    match e
    case Clear(b, w) => ClearChangesOne(s.tables, b, w);
    case Hop(j) =>
      var cs := s.clearing[j].contexts;
      ClearChangesOne(s.tables, cs[0], s.clearing[j].v);
      assert cs == [cs[0]] + cs[1..];
    case _ =>
  }

  ghost predicate AllLeave(s: State, es: seq<Event>, k: TaskId, v: Variable)
    decreases |es|
  {
    es == [] ||
    (if Enabled(s, es[0]) then Leaves(s, es[0], k, v) && AllLeave(Step(s, es[0]), es[1..], k, v)
     else AllLeave(s, es[1..], k, v))
  }

  lemma {:induction false} RunKeepsCovered(s: State, es: seq<Event>, k: TaskId, v: Variable, a: Apartment)
    requires Inv(s) && AllLeave(s, es, k, v) && Covered(s, k, v, a)
    ensures Covered(Exec(s, es), k, v, a)
    decreases |es|
  {
    if es != [] {
      if Enabled(s, es[0]) {
        StepKeepsInv(s, es[0]);
        StepKeepsCovered(s, es[0], k, v, a);
      }
      RunKeepsCovered(if Enabled(s, es[0]) then Step(s, es[0]) else s, es[1..], k, v, a);
    }
  }

  /** Whatever other threads, tasks and rundowns do in between: when a task that gathered its apartments has hopped
      through all of them and nobody has created the variable anew, no apartment holds it. */
  lemma ClearAllReachesAll(s: State, k: TaskId, v: Variable, contexts: seq<Apartment>, es: seq<Event>, a: Apartment)
    requires Inv(s) && Enabled(s, Gather(k, v, contexts))
    requires var s' := Step(s, Gather(k, v, contexts));
             WellDefined(s', es) && AllLeave(s', es, k, v) &&
             k in Exec(s', es).clearing && Exec(s', es).clearing[k].contexts == []
    ensures Get(Exec(Step(s, Gather(k, v, contexts)), es).tables, a, v) == None
  {
    var s' := Step(s, Gather(k, v, contexts));
    StepKeepsInv(s, Gather(k, v, contexts));
    RunKeepsCovered(s', es, k, v, a);
  }

  // ----- when the storage pointer goes stale -----

  /** The event erases the entry of apartment a: its rundown, or a clear that leaves no variable in it. */
  predicate Erases(s: State, e: Event, a: Apartment) {
    a in s.tables.storage &&
    match e
    case Clear(b, w) => b == a && s.tables.storage[a].variables - {w} == map[]
    case Hop(k) =>
      && k in s.clearing && s.clearing[k].contexts != [] && s.clearing[k].contexts[0] == a && a !in s.dead
      && s.tables.storage[a].variables - {s.clearing[k].v} == map[]
    case Rundown(b) => b == a
    case _ => false
  }

  predicate Ends(e: Event, t: ThreadId) { (e.Insert? || e.CreatorThrows?) && e.t == t }

  lemma StalesIff(s: State, e: Event, t: ThreadId)
    requires Enabled(s, e) && t in s.creating && !Ends(e, t) && !Dangles(s, t)
    ensures t in Step(s, e).creating && Step(s, e).creating[t] == s.creating[t]
    ensures Dangles(Step(s, e), t) <==> Erases(s, e, s.creating[t].a)
  {
  }

  /** Cookies are never issued twice, so a stale pointer never becomes good again. */
  lemma StaysStale(s: State, e: Event, t: ThreadId)
    requires Enabled(s, e) && t in s.creating && s.creating[t].c < s.tables.issued && !Ends(e, t) && Dangles(s, t)
    ensures t in Step(s, e).creating && Step(s, e).creating[t] == s.creating[t]
    ensures Dangles(Step(s, e), t)
  {
  }

  ghost predicate ErasedDuring(s: State, es: seq<Event>, a: Apartment)
    decreases |es|
  {
    es != [] &&
    if Enabled(s, es[0]) then Erases(s, es[0], a) || ErasedDuring(Step(s, es[0]), es[1..], a)
    else ErasedDuring(s, es[1..], a)
  }

  /** A creator's second locked section works on a stale pointer exactly when the entry of its apartment was
      erased while the creator ran.  While the apartment has no variable yet, a clear of any variable there,
      set or not, is enough. */
  lemma {:induction false} DanglesIff(s: State, es: seq<Event>, t: ThreadId)
    requires Inv(s) && t in s.creating && !Dangles(s, t) && forall i :: 0 <= i < |es| ==> !Ends(es[i], t)
    ensures t in Exec(s, es).creating && Exec(s, es).creating[t] == s.creating[t]
    ensures Dangles(Exec(s, es), t) <==> ErasedDuring(s, es, s.creating[t].a)
    decreases |es|
  {
    if es != [] {
      if Enabled(s, es[0]) {
        var s' := Step(s, es[0]);
        StepKeepsInv(s, es[0]);
        StalesIff(s, es[0], t);
        if Dangles(s', t) { StaysStaleOnRun(s', es[1..], t); } else { DanglesIff(s', es[1..], t); }
      } else {
        DanglesIff(s, es[1..], t);
      }
    }
  }

  lemma {:induction false} StaysStaleOnRun(s: State, es: seq<Event>, t: ThreadId)
    requires Inv(s) && t in s.creating && Dangles(s, t) && forall i :: 0 <= i < |es| ==> !Ends(es[i], t)
    ensures t in Exec(s, es).creating && Exec(s, es).creating[t] == s.creating[t] && Dangles(Exec(s, es), t)
    decreases |es|
  {
    if es != [] {
      if Enabled(s, es[0]) {
        StepKeepsInv(s, es[0]);
        StaysStale(s, es[0], t);
      }
      StaysStaleOnRun(if Enabled(s, es[0]) then Step(s, es[0]) else s, es[1..], t);
    }
  }

  /** A lookup hands out a pointer that is good at that moment. */
  lemma LookupPointerIsGood(s: State, t: ThreadId, a: Apartment, v: Variable)
    requires Enabled(s, Lookup(t, a, v))
    ensures var s' := Step(s, Lookup(t, a, v));
            if Get(s.tables, a, v).Some? then s'.tables == s.tables && s'.creating == s.creating
            else t in s'.creating && s'.creating[t].a == a && s'.creating[t].v == v && !Dangles(s', t)
  {
  }

  /** Such a run: the first creator of variable 7 clears variable 8, which was never set, in its own apartment. */
  lemma StaleInsertIsReachable()
    ensures var s := Exec(START, [Lookup(0, 1, 7), Clear(1, 8)]);
            Enabled(s, Insert(0, 42)) && Dangles(s, 0)
  {
    var s1 := Step(START, Lookup(0, 1, 7));
    var es := [Lookup(0, 1, 7), Clear(1, 8)];
    assert es[1..] == [Clear(1, 8)] && [Clear(1, 8)][1..] == [];
    assert s1.tables.storage[1].variables - {8} == map[];
    assert Exec(START, es) == Exec(s1, [Clear(1, 8)]) == Step(s1, Clear(1, 8));
  }
}
