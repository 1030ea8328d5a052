/** The walk over the variable-length records of a change notification, each of which says how far it is to the
    next one, and what the folder change reader hands to the user's callback for each. */
module EntryWalk {

  type Text = string

  const MAX_PATH := 260
  const NUL: char := '\0'

  /** One FILE_NOTIFY_INFORMATION record; `next` is its NextEntryOffset. */
  datatype Record = Record(next: nat, action: int, name: Text)

  /** The records of a buffer by offset. */
  type Buffer = map<nat, Record>

  /** A walk never leaves the buffer. */
  predicate Chained(b: Buffer, size: nat) {
    && 0 in b
    && forall p :: p in b ==> p < size && (b[p].next != 0 ==> p + b[p].next in b)
  }

  function Chain(b: Buffer, size: nat, p: nat): seq<Record>
    requires Chained(b, size) && p in b
    decreases size - p
  {
    [b[p]] + if b[p].next == 0 then [] else Chain(b, size, p + b[p].next)
  }

  /** StringCchCopyN into an array of MAX_PATH characters: up to a null, and cut to what fits. */
  function Copied(name: Text): (r: Text)
    ensures r <= name && |r| < MAX_PATH && NUL !in r
    ensures r == name || |r| == MAX_PATH - 1 || name[|r|] == NUL
  {
    CopiedUpTo(name, MAX_PATH - 1)
  }

  function CopiedUpTo(name: Text, room: nat): (r: Text)
    ensures r <= name && |r| <= room && NUL !in r
    ensures r == name || |r| == room || name[|r|] == NUL
  {
    if name == "" || room == 0 || name[0] == NUL then "" else [name[0]] + CopiedUpTo(name[1..], room - 1)
  }

  datatype Change = Change(action: int, name: Text)

  function Changes(rs: seq<Record>): seq<Change> {
    if rs == [] then [] else [Change(rs[0].action, Copied(rs[0].name))] + Changes(rs[1..])
  }

  lemma {:induction false} ChangesAppend(a: seq<Record>, b: seq<Record>)
    ensures Changes(a + b) == Changes(a) + Changes(b)
  {
    if a == [] {
      assert a + b == b;
    } else {
      assert (a + b)[1..] == a[1..] + b;
      ChangesAppend(a[1..], b);
    }
  }

  /** The iterator: `current` is null at the end. */
  datatype Pointer = Null | At(p: nat)

  class NextEntryOffsetIterator {
    var current: Pointer

    constructor (start: Pointer)
      ensures current == start
    {
      current := start;
    }

    method Increment(b: Buffer, size: nat)
      requires Chained(b, size) && current.At? && current.p in b
      modifies this
      ensures current == if b[old(current.p)].next == 0 then Null else At(old(current.p) + b[old(current.p)].next)
    {
      var next := b[current.p].next;
      current := if next != 0 then At(current.p + next) else Null;
    }
  }

  /** What the iterator has still to visit. */
  function Rest(b: Buffer, size: nat, c: Pointer): seq<Record>
    requires Chained(b, size) && (c.At? ==> c.p in b)
  {
    if c.At? then Chain(b, size, c.p) else []
  }

  lemma VisitOne(b: Buffer, size: nat, p: nat, next: Pointer, seen: seq<Record>)
    requires Chained(b, size) && p in b && next == if b[p].next == 0 then Null else At(p + b[p].next)
    ensures seen + Rest(b, size, At(p)) == seen + [b[p]] + Rest(b, size, next)
  {
    Reassociate(seen, [b[p]], Rest(b, size, next));
  }

  lemma Reassociate<T>(a: seq<T>, b: seq<T>, c: seq<T>)
    ensures a + (b + c) == a + b + c
  {
  }

  lemma CallOne(seen: seq<Record>, r: Record)
    ensures Changes(seen + [r]) == Changes(seen) + [Change(r.action, Copied(r.name))]
  {
    ChangesAppend(seen, [r]);
    assert [r][1..] == [];
  }

  /** The loop of the reader's callback: one call for each record of the chain, in order. */
  method ParseBuffer(b: Buffer, size: nat) returns (calls: seq<Change>)
    requires Chained(b, size)
    ensures calls == Changes(Chain(b, size, 0))
  {
    calls := [];
    var it := new NextEntryOffsetIterator(At(0));
    ghost var seen := [];
    while it.current != Null
      invariant it.current.At? ==> it.current.p in b
      invariant Chain(b, size, 0) == seen + Rest(b, size, it.current)
      invariant calls == Changes(seen)
      decreases if it.current.At? then size - it.current.p + 1 else 0
    {
      var p := it.current.p;
      calls := calls + [Change(b[p].action, Copied(b[p].name))];
      it.Increment(b, size);
      VisitOne(b, size, p, it.current, seen);
      CallOne(seen, b[p]);
      seen := seen + [b[p]];
    }
    assert seen + [] == seen;
  }

  // ----- the writer's side -----

  /** A record and the number of bytes it takes. */
  datatype Item = Item(size: nat, action: int, name: Text)

  function RecordOf(items: seq<Item>): Record
    requires items != []
  {
    Record(if |items| == 1 then 0 else items[0].size, items[0].action, items[0].name)
  }

  /** The records one after the other from offset `at` on; the last one has no next. */
  function Laid(items: seq<Item>, at: nat): Buffer
    requires forall i :: i in items ==> i.size > 0
  {
    if items == [] then map[] else Laid(items[1..], at + items[0].size)[at := RecordOf(items)]
  }

  function Total(items: seq<Item>): nat {
    if items == [] then 0 else items[0].size + Total(items[1..])
  }

  function Written(items: seq<Item>): seq<Change> {
    if items == [] then [] else [Change(items[0].action, Copied(items[0].name))] + Written(items[1..])
  }

  lemma {:induction false} LaidKeys(items: seq<Item>, at: nat)
    requires forall i :: i in items ==> i.size > 0
    ensures forall p :: p in Laid(items, at) ==> at <= p < at + Total(items)
    ensures forall p :: p in Laid(items, at) && Laid(items, at)[p].next != 0
              ==> p + Laid(items, at)[p].next in Laid(items, at)
    ensures items != [] ==> at in Laid(items, at)
  {
    if items != [] {
      LaidKeys(items[1..], at + items[0].size);
    }
  }

  lemma ChangesFirst(r: Record, rest: seq<Record>)
    ensures Changes([r] + rest) == [Change(r.action, Copied(r.name))] + Changes(rest)
  {
    assert ([r] + rest)[1..] == rest;
  }

  lemma LaidRest(items: seq<Item>, at: nat, b: Buffer)
    requires items != [] && forall i :: i in items ==> i.size > 0
    requires forall p :: p in Laid(items, at) ==> p in b && b[p] == Laid(items, at)[p]
    ensures at in b && b[at] == RecordOf(items)
    ensures forall p :: p in Laid(items[1..], at + items[0].size) ==>
              p in b && b[p] == Laid(items[1..], at + items[0].size)[p]
  {
    LaidKeys(items[1..], at + items[0].size);
  }

  /** The chain takes one record off the layout, as the list of items does. */
  lemma ChainStep(b: Buffer, size: nat, items: seq<Item>, at: nat)
    requires Chained(b, size) && items != [] && at in b && b[at] == RecordOf(items)
    requires items[0].size > 0
    ensures |items| == 1 ==> Chain(b, size, at) == [b[at]]
    ensures |items| > 1 ==>
              at + items[0].size in b && Chain(b, size, at) == [b[at]] + Chain(b, size, at + items[0].size)
  {
  }

  lemma WrittenStep(items: seq<Item>)
    requires items != []
    ensures Written(items) == [Change(items[0].action, Copied(items[0].name))] + Written(items[1..])
    ensures |items| == 1 ==> Written(items[1..]) == []
  {
  }

  lemma {:induction false} ChainOfLaid(b: Buffer, size: nat, items: seq<Item>, at: nat)
    requires Chained(b, size) && items != [] && forall i :: i in items ==> i.size > 0
    requires forall p :: p in Laid(items, at) ==> p in b && b[p] == Laid(items, at)[p]
    ensures at in b && Changes(Chain(b, size, at)) == Written(items)
  {
    LaidRest(items, at, b);
    ChainStep(b, size, items, at);
    WrittenStep(items);
    if |items| > 1 {
      ChainOfLaid(b, size, items[1..], at + items[0].size);
      ChangesFirst(b[at], Chain(b, size, at + items[0].size));
    } else {
      ChangesFirst(b[at], []);
      assert [b[at]] + [] == [b[at]];
    }
  }

  /** Every change laid out in the buffer reaches the callback once, in order. */
  lemma EveryChangeIsDelivered(items: seq<Item>)
    requires items != [] && forall i :: i in items ==> i.size > 0
    ensures Chained(Laid(items, 0), Total(items))
    ensures var told := Changes(Chain(Laid(items, 0), Total(items), 0));
            && |told| == |items|
            && forall i :: 0 <= i < |items| ==> told[i] == Change(items[i].action, Copied(items[i].name))
  {
    LaidKeys(items, 0);
    ChainOfLaid(Laid(items, 0), Total(items), items, 0);
    WrittenAt(items);
  }

  lemma {:induction false} WrittenAt(items: seq<Item>)
    ensures |Written(items)| == |items|
    ensures forall i :: 0 <= i < |items| ==> Written(items)[i] == Change(items[i].action, Copied(items[i].name))
  {
    if items != [] { WrittenAt(items[1..]); }
  }
}
