/** `com_ptr_t`: any number of smart pointers and of references owned by callers, over any number of objects.
    Every operation first rewrites its pointers and only then calls `Release`; what happens in between, on other
    threads or inside a destructor that `Release` runs, is arbitrary.  A reference that an operation has taken
    out of a pointer and not yet released is in flight. */
module ComPtr {
  import opened Collections

  type Slot = nat
  type Object = nat

  /** `slots` are the smart pointers that exist, `refs` the counts of the objects that are alive, `raw` the
      references callers own themselves. */
  datatype State = State(
    slots: map<Slot, Option<Object>>, refs: map<Object, nat>, raw: multiset<Object>, inFlight: multiset<Object>)

  const START := State(map[], map[], multiset{}, multiset{})

  function AsSet(p: Option<Object>): multiset<Object> {
    if p.Some? then multiset{p.value} else multiset{}
  }

  // ----- pieces of operations -----

  function AddRef(s: State, p: Option<Object>): State
    requires p.Some? ==> p.value in s.refs
  {
    if p.None? then s else s.(refs := s.refs[p.value := s.refs[p.value] + 1])
  }

  /** `ptr = m_ptr; m_ptr = other;` with the duty to release ptr. */
  function Replace(s: State, i: Slot, other: Option<Object>): State
    requires i in s.slots
  {
    s.(slots := s.slots[i := other], inFlight := s.inFlight + AsSet(s.slots[i]))
  }

  /** One `Release` of a reference in flight; the last one ends the object. */
  function AfterRelease(s: State, o: Object): State
    requires o in s.refs && s.refs[o] > 0
  {
    s.(inFlight := s.inFlight - multiset{o},
       refs := if s.refs[o] == 1 then s.refs - {o} else s.refs[o := s.refs[o] - 1])
  }

  function AfterAssign(s: State, i: Slot, other: Option<Object>): State
    requires i in s.slots && (other.Some? ==> other.value in s.refs)
  {
    AddRef(Replace(s, i, other), other)
  }

  function AfterDetach(s: State, i: Slot): State
    requires i in s.slots
  {
    s.(slots := s.slots[i := None], raw := s.raw + AsSet(s.slots[i]))
  }

  function AfterAttach(s: State, i: Slot, other: Option<Object>): State
    requires i in s.slots
  {
    Replace(s, i, other).(raw := s.raw - AsSet(other))
  }

  function AfterSwap(s: State, i: Slot, j: Slot): State
    requires i in s.slots && j in s.slots
  {
    s.(slots := s.slots[i := s.slots[j]][j := s.slots[i]])
  }

  // ----- runs -----

  datatype Event =
    | NewObject(o: Object)
    | RawAddRef(o: Object)
    | RawRelease(o: Object)
    | Construct(i: Slot, p: Option<Object>)
    | MoveConstruct(i: Slot, from: Slot)
    | Destroy(i: Slot)
    | Assign(i: Slot, p: Option<Object>)
    | MoveAssign(i: Slot, from: Slot)
    | Swap(i: Slot, j: Slot)
    | Reset(i: Slot)
    | Attach(i: Slot, p: Option<Object>)
    | Detach(i: Slot)
    | Fill(i: Slot, o: Object)
    | Release(o: Object)

  /** A pointer passed in is null or alive; attaching and filling hand over a reference the caller owns; only
      an address obtained from `put` is filled, when it holds null. */
  predicate Enabled(s: State, e: Event) {
    match e
    case NewObject(o) => o !in s.refs
    case RawAddRef(o) => o in s.refs
    case RawRelease(o) => s.raw[o] > 0
    case Construct(i, p) => i !in s.slots && (p.Some? ==> p.value in s.refs)
    case MoveConstruct(i, from) => i !in s.slots && from in s.slots
    case Destroy(i) => i in s.slots
    case Assign(i, p) => i in s.slots && (p.Some? ==> p.value in s.refs)
    case MoveAssign(i, from) => i in s.slots && from in s.slots
    case Swap(i, j) => i in s.slots && j in s.slots
    case Reset(i) => i in s.slots
    case Attach(i, p) => i in s.slots && (p.Some? ==> s.raw[p.value] > 0)
    case Detach(i) => i in s.slots
    case Fill(i, o) => i in s.slots && s.slots[i] == None && s.raw[o] > 0
    case Release(o) => s.inFlight[o] > 0 && o in s.refs && s.refs[o] > 0
  }

  function Step(s: State, e: Event): State
    requires Enabled(s, e)
  {
    match e
    case NewObject(o) => s.(refs := s.refs[o := 1], raw := s.raw + multiset{o})
    case RawAddRef(o) => AddRef(s, Some(o)).(raw := s.raw + multiset{o})
    case RawRelease(o) => s.(raw := s.raw - multiset{o}, inFlight := s.inFlight + multiset{o})
    case Construct(i, p) => AddRef(s, p).(slots := s.slots[i := p])
    case MoveConstruct(i, from) => s.(slots := s.slots[i := s.slots[from]][from := None])
    case Destroy(i) => s.(slots := s.slots - {i}, inFlight := s.inFlight + AsSet(s.slots[i]))
    case Assign(i, p) => AfterAssign(s, i, p)
    case MoveAssign(i, from) => AfterAttach(AfterDetach(s, from), i, s.slots[from])
    case Swap(i, j) => AfterSwap(s, i, j)
    case Reset(i) => Replace(s, i, None)
    case Attach(i, p) => AfterAttach(s, i, p)
    case Detach(i) => AfterDetach(s, i)
    case Fill(i, o) => s.(slots := s.slots[i := Some(o)], raw := s.raw - multiset{o})
    case Release(o) => AfterRelease(s, o)
  }

  function Exec(s: State, es: seq<Event>): State
    decreases |es|
  {
    if es == [] then s else Exec(if Enabled(s, es[0]) then Step(s, es[0]) else s, es[1..])
  }

  // ----- conservation -----

  ghost function Holders(slots: map<Slot, Option<Object>>, o: Object): set<Slot> {
    set i | i in slots && slots[i] == Some(o)
  }

  function Count(s: State, o: Object): nat { if o in s.refs then s.refs[o] else 0 }

  /** An object is alive exactly while its count is positive, and the count is the number of smart pointers
      holding it plus the references callers own plus those about to be released. */
  ghost predicate Balanced(s: State, o: Object) {
    && Count(s, o) == |Holders(s.slots, o)| + s.raw[o] + s.inFlight[o]
    && (o in s.refs ==> s.refs[o] > 0)
  }

  ghost predicate Inv(s: State) { forall o :: Balanced(s, o) }

  /** One pointer changes. */
  lemma HoldersChange(slots: map<Slot, Option<Object>>, i: Slot, p: Option<Object>, o: Object)
    ensures var before, after := |Holders(slots, o)|, |Holders(slots[i := p], o)|;
            var had, has := i in slots && slots[i] == Some(o), p == Some(o);
            && (had == has ==> after == before)
            && (has && !had ==> after == before + 1)
            && (had && !has ==> after + 1 == before)
  {
    var before, after := Holders(slots, o), Holders(slots[i := p], o);
    assert after == if p == Some(o) then before + {i} else before - {i};
  }

  lemma HoldersRemove(slots: map<Slot, Option<Object>>, i: Slot, o: Object)
    requires i in slots
    ensures |Holders(slots, o)| == |Holders(slots - {i}, o)| + if slots[i] == Some(o) then 1 else 0
  {
    assert Holders(slots - {i}, o) == Holders(slots, o) - {i};
  }

  lemma SlotEventBalances(s: State, e: Event, o: Object)
    requires Enabled(s, e) && Balanced(s, o)
    requires e.Assign? || e.Reset? || e.Attach? || e.Detach? || e.Fill? || e.Destroy? || e.Construct?
    ensures Balanced(Step(s, e), o)
  {
    if e.Destroy? {
      HoldersRemove(s.slots, e.i, o);
    } else {
      var p := if e.Fill? then Some(e.o) else if e.Reset? || e.Detach? then None else e.p;
      HoldersChange(s.slots, e.i, p, o);
    }
  }

  lemma MoveConstructBalances(s: State, i: Slot, from: Slot, o: Object)
    requires Enabled(s, MoveConstruct(i, from)) && Balanced(s, o)
    ensures Balanced(Step(s, MoveConstruct(i, from)), o)
  {
    HoldersChange(s.slots, i, s.slots[from], o);
    HoldersChange(s.slots[i := s.slots[from]], from, None, o);
  }

  lemma MoveAssignBalances(s: State, i: Slot, from: Slot, o: Object)
    requires Enabled(s, MoveAssign(i, from)) && Balanced(s, o)
    ensures Balanced(Step(s, MoveAssign(i, from)), o)
  {
    HoldersChange(s.slots, from, None, o);
    HoldersChange(s.slots[from := None], i, s.slots[from], o);
  }

  lemma SwapBalances(s: State, i: Slot, j: Slot, o: Object)
    requires Enabled(s, Swap(i, j)) && Balanced(s, o)
    ensures Balanced(Step(s, Swap(i, j)), o)
  {
    HoldersChange(s.slots, i, s.slots[j], o);
    HoldersChange(s.slots[i := s.slots[j]], j, s.slots[i], o);
  }

  lemma ReferenceEventBalances(s: State, e: Event, o: Object)
    requires Enabled(s, e) && Balanced(s, o) && (e.NewObject? || e.RawAddRef? || e.RawRelease? || e.Release?)
    ensures Balanced(Step(s, e), o)
  {
  }

  lemma StepBalances(s: State, e: Event, o: Object)
    requires Enabled(s, e) && Balanced(s, o)
    ensures Balanced(Step(s, e), o)
  {
    match e
    case MoveConstruct(i, from) => MoveConstructBalances(s, i, from, o);
    case MoveAssign(i, from) => MoveAssignBalances(s, i, from, o);
    case Swap(i, j) => SwapBalances(s, i, j, o);
    case NewObject(_) => ReferenceEventBalances(s, e, o);
    case RawAddRef(_) => ReferenceEventBalances(s, e, o);
    case RawRelease(_) => ReferenceEventBalances(s, e, o);
    case Release(_) => ReferenceEventBalances(s, e, o);
    case _ => SlotEventBalances(s, e, o);
  }

  lemma StepKeepsInv(s: State, e: Event)
    requires Enabled(s, e) && Inv(s)
    ensures Inv(Step(s, e))
  {
    forall o ensures Balanced(Step(s, e), o) {
      StepBalances(s, e, o);
    }
  }

  lemma {:induction false} RunKeepsInv(s: State, es: seq<Event>)
    requires Inv(s)
    ensures Inv(Exec(s, es))
    decreases |es|
  {
    if es != [] {
      if Enabled(s, es[0]) { StepKeepsInv(s, es[0]); }
      RunKeepsInv(if Enabled(s, es[0]) then Step(s, es[0]) else s, es[1..]);
    }
  }

  lemma RunBalances(es: seq<Event>, o: Object)
    ensures Balanced(Exec(START, es), o)
  {
    forall x ensures Balanced(START, x) { assert Holders(START.slots, x) == {}; }
    RunKeepsInv(START, es);
  }

  /** After every program of copies, moves, self-assignments, swaps, resets, attaches, detaches and puts. */
  lemma ReferencesAreConserved(es: seq<Event>, o: Object)
    ensures var s := Exec(START, es);
            && Count(s, o) == |Holders(s.slots, o)| + s.raw[o] + s.inFlight[o]
            && (o in s.refs <==> |Holders(s.slots, o)| + s.raw[o] + s.inFlight[o] > 0)
  {
    RunBalances(es, o);
  }

  /** At no point, not even while a destructor runs inside `Release`, does a smart pointer hold a dead object. */
  lemma PointersAreAlive(es: seq<Event>, i: Slot)
    requires i in Exec(START, es).slots && Exec(START, es).slots[i].Some?
    ensures Exec(START, es).slots[i].value in Exec(START, es).refs
  {
    var s := Exec(START, es);
    var o := s.slots[i].value;
    RunBalances(es, o);
    assert i in Holders(s.slots, o);
  }

  /** A reference in flight can always be released. */
  lemma ReleaseIsPossible(es: seq<Event>, o: Object)
    requires Exec(START, es).inFlight[o] > 0
    ensures Enabled(Exec(START, es), Release(o))
  {
    RunBalances(es, o);
  }

  /** The assertion of `attach`: attaching the pointer already held leaves the object alive after the release. */
  lemma AttachAssertion(es: seq<Event>, i: Slot, o: Object)
    requires Enabled(Exec(START, es), Attach(i, Some(o))) && Exec(START, es).slots[i] == Some(o)
    ensures var s := Step(Exec(START, es), Attach(i, Some(o)));
            Enabled(s, Release(o)) && o in Step(s, Release(o)).refs
  {
    var s := Exec(START, es);
    RunBalances(es, o);
    assert i in Holders(s.slots, o);
  }

  // ----- what the pointers hold, told by the events alone -----

  /** The pointers after one event. */
  function Held(p: map<Slot, Option<Object>>, e: Event): map<Slot, Option<Object>> {
    match e
    case Construct(i, o) => p[i := o]
    case MoveConstruct(i, from) => if from in p then p[i := p[from]][from := None] else p
    case Destroy(i) => p - {i}
    case Assign(i, o) => p[i := o]
    case MoveAssign(i, from) => if from in p then p[from := None][i := p[from]] else p
    case Swap(i, j) => if i in p && j in p then p[i := p[j]][j := p[i]] else p
    case Reset(i) => p[i := None]
    case Attach(i, o) => p[i := o]
    case Detach(i) => p[i := None]
    case Fill(i, o) => p[i := Some(o)]
    case _ => p
  }

  /** The references callers own after one event that found the pointers like that. */
  function Owned(raw: multiset<Object>, p: map<Slot, Option<Object>>, e: Event): multiset<Object> {
    match e
    case NewObject(o) => raw + multiset{o}
    case RawAddRef(o) => raw + multiset{o}
    case RawRelease(o) => raw - multiset{o}
    case Attach(_, o) => if o.Some? then raw - multiset{o.value} else raw
    case Fill(_, o) => raw - multiset{o}
    case Detach(i) => if i in p && p[i].Some? then raw + multiset{p[i].value} else raw
    case _ => raw
  }

  predicate OnTwoPointers(e: Event) { e.MoveConstruct? || e.MoveAssign? || e.Swap? }

  predicate OnObjects(e: Event) { e.NewObject? || e.RawAddRef? || e.RawRelease? || e.Release? }

  lemma TwoPointersHold(s: State, e: Event)
    requires Enabled(s, e) && OnTwoPointers(e)
    ensures Step(s, e).slots == Held(s.slots, e)
  {
  }

  lemma ObjectsDoNotHold(s: State, e: Event)
    requires Enabled(s, e) && OnObjects(e)
    ensures Step(s, e).slots == Held(s.slots, e)
  {
  }

  lemma OnePointerHolds(s: State, e: Event)
    requires Enabled(s, e) && !OnTwoPointers(e) && !OnObjects(e)
    ensures Step(s, e).slots == Held(s.slots, e)
  {
  }

  lemma StepHolds(s: State, e: Event)
    requires Enabled(s, e)
    ensures Step(s, e).slots == Held(s.slots, e)
  {
    if OnTwoPointers(e) { TwoPointersHold(s, e); }
    else if OnObjects(e) { ObjectsDoNotHold(s, e); }
    else { OnePointerHolds(s, e); }
  }

  lemma MoveAssignOwns(s: State, i: Slot, from: Slot)
    requires Enabled(s, MoveAssign(i, from))
    ensures Step(s, MoveAssign(i, from)).raw == s.raw
  {
    var p := AsSet(s.slots[from]);
    assert s.raw + p - p == s.raw;
  }

  /** And what the callers own. */
  lemma StepOwns(s: State, e: Event)
    requires Enabled(s, e)
    ensures Step(s, e).raw == Owned(s.raw, s.slots, e)
  {
    if e.MoveAssign? { MoveAssignOwns(s, e.i, e.from); }
  }

  function HeldAfter(s: State, p: map<Slot, Option<Object>>, es: seq<Event>): map<Slot, Option<Object>>
    decreases |es|
  {
    if es == [] then p
    else if Enabled(s, es[0]) then HeldAfter(Step(s, es[0]), Held(p, es[0]), es[1..])
    else HeldAfter(s, p, es[1..])
  }

  lemma {:induction false} RunHolds(s: State, es: seq<Event>)
    ensures Exec(s, es).slots == HeldAfter(s, s.slots, es)
    decreases |es|
  {
    if es != [] {
      if Enabled(s, es[0]) {
        StepHolds(s, es[0]);
        RunHolds(Step(s, es[0]), es[1..]);
      } else {
        RunHolds(s, es[1..]);
      }
    }
  }

  /** After any program every smart pointer holds what the constructions, assignments, moves and swaps put there. */
  lemma PointersHoldWhatTheyGot(es: seq<Event>)
    ensures Exec(START, es).slots == HeldAfter(START, map[], es)
  {
    RunHolds(START, es);
  }

  /** A pointer constructed by a move holds what its source held, and the source is null; a pointer filled through
      `put` holds the reference the callee gave up.  Counts stay as they are. */
  lemma MoveAndFill(s: State, i: Slot, from: Slot, o: Object, j: Slot)
    ensures Enabled(s, MoveConstruct(i, from)) ==>
              var s' := Step(s, MoveConstruct(i, from));
              && s'.refs == s.refs && s'.raw == s.raw && s'.inFlight == s.inFlight
              && s'.slots.Keys == s.slots.Keys + {i} && s'.slots[i] == s.slots[from] && s'.slots[from] == None
              && (j in s.slots && j != from ==> s'.slots[j] == s.slots[j])
    ensures Enabled(s, Fill(i, o)) ==>
              var s' := Step(s, Fill(i, o));
              && s'.refs == s.refs && s'.raw[o] == s.raw[o] - 1 && s'.inFlight == s.inFlight
              && s'.slots.Keys == s.slots.Keys && s'.slots[i] == Some(o)
              && (j in s.slots && j != i ==> s'.slots[j] == s.slots[j])
  {
  }

  /** Moving a pointer into itself, or swapping it with itself, changes nothing. */
  lemma SelfMove(s: State, i: Slot)
    requires i in s.slots
    ensures Step(s, MoveAssign(i, i)) == s && Step(s, Swap(i, i)) == s
  {
    assert s.slots[i := s.slots[i]] == s.slots;
  }

  /** Nor does assigning it its own object: the new reference is taken before the old one is released. */
  lemma SelfAssign(s: State, i: Slot, o: Object)
    requires Balanced(s, o) && i in s.slots && s.slots[i] == Some(o)
    ensures Enabled(s, Assign(i, Some(o))) && Enabled(Step(s, Assign(i, Some(o))), Release(o))
    ensures Step(Step(s, Assign(i, Some(o))), Release(o)) == s
  {
    assert i in Holders(s.slots, o);
    var s1 := Step(s, Assign(i, Some(o)));
    assert s1.slots == s.slots && s1.inFlight == s.inFlight + multiset{o};
    assert s1.refs == s.refs[o := s.refs[o] + 1] && s.refs[o] > 0;
    assert s1.refs[o := s.refs[o]] == s.refs;
  }

  /** When every pointer is gone and no reference is left, neither is any object. */
  lemma NoLeak(es: seq<Event>)
    requires var s := Exec(START, es);
             (forall i :: i in s.slots ==> s.slots[i].None?) && s.raw == multiset{} && s.inFlight == multiset{}
    ensures Exec(START, es).refs == map[]
  {
    var s := Exec(START, es);
    forall o ensures o !in s.refs {
      RunBalances(es, o);
      assert Holders(s.slots, o) == {};
    }
  }

  // ----- pointers and objects, updated in place -----

  class ComObject {
    const address: Object
    var refs: nat

    constructor (address: Object)
      ensures this.address == address && refs == 1
    {
      this.address, refs := address, 1;
    }

    method AddRef()
      modifies this
      ensures refs == old(refs) + 1
    {
      refs := refs + 1;
    }

    method Release() returns (left: nat)
      requires refs > 0
      modifies this
      ensures refs == old(refs) - 1 && left == refs
    {
      refs := refs - 1;
      left := refs;
    }
  }

  function Address(p: ComObject?): Option<Object> { if p == null then None else Some(p.address) }

  /** Any pointers and objects, at different places and addresses, are as the machine's state says. */
  ghost predicate Shows(s: State, ptrs: set<Ptr>, objects: set<ComObject>)
    reads ptrs, objects
  {
    && (forall p, q :: p in ptrs && q in ptrs && p.place == q.place ==> p == q)
    && (forall o, r :: o in objects && r in objects && o.address == r.address ==> o == r)
    && (forall p :: p in ptrs && p.ptr != null ==> p.ptr in objects)
    && (forall p :: p in ptrs ==> p.place in s.slots && s.slots[p.place] == Address(p.ptr))
    && (forall o :: o in objects ==> Count(s, o.address) == o.refs)
  }

  /** The release an operation ends with. */
  function Released(s: State, p: Option<Object>): State
    requires p.Some? ==> Count(s, p.value) > 0
  {
    if p.None? then s else AfterRelease(s, p.value)
  }

  /** The contracts say what becomes of a state that shows the pointer and any others, and any objects. */
  class Ptr {
    const place: Slot
    var ptr: ComObject?

    ghost predicate Alive()
      reads this, ptr
    {
      ptr != null ==> ptr.refs > 0
    }

    constructor (place: Slot, p: ComObject?, ghost s: State, ghost ptrs: set<Ptr>, ghost objects: set<ComObject>)
      requires Shows(s, ptrs, objects) && Enabled(s, Construct(place, Address(p)))
      requires p != null ==> p in objects && p.refs > 0
      modifies p
      ensures this.place == place && ptr == p && (p != null ==> p.refs == old(p.refs) + 1)
      ensures Shows(Step(s, Construct(place, Address(p))), ptrs + {this}, objects)
    {
      this.place, ptr := place, p;
      new;
      if p != null {
        p.AddRef();
      }
    }

    /** Assignment of a raw pointer, and of another smart pointer's. */
    method Assign(other: ComObject?, ghost s: State, ghost ptrs: set<Ptr>, ghost objects: set<ComObject>)
      requires Shows(s, ptrs, objects) && this in ptrs && Alive()
      requires other != null ==> other in objects && other.refs > 0
      modifies this, ptr, other
      ensures ptr == other
      ensures other != null ==> other.refs == old(other.refs) + if other == old(ptr) then 0 else 1
      ensures old(ptr) != null && old(ptr) != other ==> old(ptr).refs == old(ptr.refs) - 1
      ensures Shows(Released(AfterAssign(s, place, Address(other)), s.slots[place]), ptrs, objects)
    {
      var p := ptr;
      ptr := other;
      if ptr != null {
        ptr.AddRef();
      }
      assert Shows(AfterAssign(s, place, Address(other)), ptrs, objects);
      if p != null {
        var left := p.Release();
      }
    }

    method Reset(ghost s: State, ghost ptrs: set<Ptr>, ghost objects: set<ComObject>)
      requires Shows(s, ptrs, objects) && this in ptrs && Alive()
      modifies this, ptr
      ensures ptr == null && (old(ptr) != null ==> old(ptr).refs == old(ptr.refs) - 1)
      ensures Shows(Released(Replace(s, place, None), s.slots[place]), ptrs, objects)
    {
      var p := ptr;
      ptr := null;
      if p != null {
        var left := p.Release();
      }
    }

    /** Takes over a reference of the caller's; the duty is the one the assertion checks. */
    method Attach(other: ComObject?, ghost s: State, ghost ptrs: set<Ptr>, ghost objects: set<ComObject>)
      requires Shows(s, ptrs, objects) && this in ptrs && Alive() && (other != null ==> other in objects)
      requires other != null && other == ptr ==> other.refs > 1
      modifies this, ptr
      ensures ptr == other && (old(ptr) != null ==> old(ptr).refs == old(ptr.refs) - 1)
      ensures Shows(Released(AfterAttach(s, place, Address(other)), s.slots[place]), ptrs, objects)
    {
      var p := ptr;
      ptr := other;
      if p != null {
        var left := p.Release();
        assert other != p || left > 0;
      }
    }

    method Detach(ghost s: State, ghost ptrs: set<Ptr>, ghost objects: set<ComObject>) returns (p: ComObject?)
      requires Shows(s, ptrs, objects) && this in ptrs
      modifies this
      ensures p == old(ptr) && ptr == null
      ensures Shows(AfterDetach(s, place), ptrs, objects)
    {
      p := ptr;
      ptr := null;
    }

    /** Moving a pointer into itself changes nothing. */
    method MoveAssign(other: Ptr, ghost s: State, ghost ptrs: set<Ptr>, ghost objects: set<ComObject>)
      requires Shows(s, ptrs, objects) && this in ptrs && other in ptrs && Alive()
      requires other != this && ptr != null && other.ptr == ptr ==> ptr.refs > 1
      modifies this, other, ptr
      ensures ptr == old(other.ptr) && (other != this ==> other.ptr == null)
      ensures old(ptr) != null ==> old(ptr).refs == if other == this then old(ptr.refs) else old(ptr.refs) - 1
      ensures var detached := AfterDetach(s, other.place);
              Shows(Released(AfterAttach(detached, place, s.slots[other.place]), detached.slots[place]), ptrs, objects)
    {
      var p := other.Detach(s, ptrs, objects);
      Attach(p, AfterDetach(s, other.place), ptrs, objects);
    }

    method Swap(other: Ptr, ghost s: State, ghost ptrs: set<Ptr>, ghost objects: set<ComObject>)
      requires Shows(s, ptrs, objects) && this in ptrs && other in ptrs
      modifies this, other
      ensures ptr == old(other.ptr) && other.ptr == old(ptr)
      ensures Shows(AfterSwap(s, place, other.place), ptrs, objects)
    {
      var p := ptr;
      ptr := other.ptr;
      other.ptr := p;
    }

    /** The caller may then write through the address of the pointer. */
    method Put(ghost s: State, ghost ptrs: set<Ptr>, ghost objects: set<ComObject>)
      requires Shows(s, ptrs, objects) && this in ptrs && Alive()
      modifies this, ptr
      ensures ptr == null && (old(ptr) != null ==> old(ptr).refs == old(ptr.refs) - 1)
      ensures Shows(Released(Replace(s, place, None), s.slots[place]), ptrs, objects)
    {
      Reset(s, ptrs, objects);
    }
  }
}
