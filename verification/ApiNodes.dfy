/** The nodes of the API list: the order they are kept in, and the namespaces a flush cuts them into. */
module ApiNodes {
  import opened Collections
  import opened ApiNames
  import opened Runs

  class Counter {
    var value: int

    constructor ()
      ensures value == 0
    {
      value := 0;
    }
  }

  class ApiData {
    const className: Text
    const apiName: Text
    const specialization: Option<Text>
    const counter: Counter
    var next: ApiData?

    constructor (className: Text, apiName: Text, specialization: Option<Text>, counter: Counter)
      ensures this.className == className && this.apiName == apiName
      ensures this.specialization == specialization && this.counter == counter && next == null
    {
      this.className, this.apiName := className, apiName;
      this.specialization, this.counter, next := specialization, counter, null;
    }
  }

  predicate InOrder(nodes: seq<ApiData>, i: nat, j: nat)
    requires i < |nodes| && j < |nodes|
  {
    Wcscmp(nodes[i].className, nodes[j].className) <= 0
  }

  predicate Sorted(nodes: seq<ApiData>) {
    forall i, j {:trigger InOrder(nodes, i, j)} :: 0 <= i < j < |nodes| ==> InOrder(nodes, i, j)
  }

  /** Where `Insert` puts a class name, looking from node i: before the first that is not smaller. */
  function InsertAt(nodes: seq<ApiData>, c: Text, i: nat): (k: nat)
    requires i <= |nodes|
    ensures i <= k <= |nodes|
    ensures forall j :: i <= j < k ==> Wcscmp(c, nodes[j].className) > 0
    ensures k < |nodes| ==> Wcscmp(c, nodes[k].className) <= 0
    decreases |nodes| - i
  {
    if i == |nodes| || Wcscmp(c, nodes[i].className) <= 0 then i else InsertAt(nodes, c, i + 1)
  }

  function Inserted(nodes: seq<ApiData>, n: ApiData): seq<ApiData> {
    var k := InsertAt(nodes, n.className, 0);
    nodes[..k] + [n] + nodes[k..]
  }

  /** One list is the other with n put in at k. */
  predicate Spliced(nodes: seq<ApiData>, k: nat, n: ApiData, r: seq<ApiData>) {
    && k <= |nodes| && |r| == |nodes| + 1 && r[k] == n
    && (forall i :: 0 <= i < k ==> r[i] == nodes[i])
    && (forall i :: k <= i < |nodes| ==> r[i + 1] == nodes[i])
  }

  lemma InsertedElements(nodes: seq<ApiData>, n: ApiData)
    ensures Spliced(nodes, InsertAt(nodes, n.className, 0), n, Inserted(nodes, n))
  {
  }

  lemma InsertKeepsOrder(nodes: seq<ApiData>, n: ApiData)
    requires Sorted(nodes)
    ensures Sorted(Inserted(nodes, n))
  {
    var k, r := InsertAt(nodes, n.className, 0), Inserted(nodes, n);
    InsertedElements(nodes, n);
    forall i, j | 0 <= i < j < |r| ensures InOrder(r, i, j) {
      if j == k {
        WcscmpReverses(r[i].className, n.className);
      } else if i == k {
        if k + 1 < j {
          assert InOrder(nodes, k, j - 1);
          WcscmpTransitive(n.className, nodes[k].className, nodes[j - 1].className);
        }
      } else {
        assert InOrder(nodes, if i < k then i else i - 1, if j < k then j else j - 1);
      }
    }
  }

  lemma InsertKeepsSorted(nodes: seq<ApiData>, n: ApiData)
    requires Sorted(nodes)
    ensures Sorted(Inserted(nodes, n))
    ensures multiset(Inserted(nodes, n)) == multiset(nodes) + multiset{n}
  {
    var k := InsertAt(nodes, n.className, 0);
    assert nodes == nodes[..k] + nodes[k..];
    InsertKeepsOrder(nodes, n);
  }

  // ----- namespaces -----

  predicate SameNode(a: ApiData, b: ApiData) { IsSameNameSpace(a.className, b.className) }

  function NameOf(a: ApiData): Text { NameSpace(a.className) }

  lemma SortedIsContiguous(nodes: seq<ApiData>)
    requires Sorted(nodes)
    ensures Contiguous(nodes, SameNode)
  {
    forall i, j, k | 0 <= i < j < k < |nodes| && SameNode(nodes[i], nodes[k])
      ensures SameNode(nodes[j], nodes[k])
    {
      assert InOrder(nodes, i, j) && InOrder(nodes, j, k);
      TestIsContiguous(nodes[i].className, nodes[j].className, nodes[k].className);
    }
  }

  lemma TestIsCongruent(nodes: seq<ApiData>)
    ensures Congruent(nodes, SameNode, NameOf)
  {
    forall i, j, k | 0 <= i <= j < k < |nodes| && SameNode(nodes[j], nodes[k]) && NameOf(nodes[j]) == NameOf(nodes[k])
      ensures SameNode(nodes[i], nodes[j]) <==> SameNode(nodes[i], nodes[k])
    {
      TestRightCongruent(nodes[i].className, nodes[j].className, nodes[k].className);
    }
  }

  /** A flush makes exactly one callback for each namespace if and only if, on every pair in list order,
      the one-directional prefix test agrees with equality of namespaces. */
  lemma OneCallbackIffExact(nodes: seq<ApiData>)
    requires Sorted(nodes)
    ensures OneGroupEach(Groups(nodes, SameNode, 0), NameOf) <==> TestIsExact(nodes, SameNode, NameOf, 0)
  {
    SortedIsContiguous(nodes);
    TestIsCongruent(nodes);
    OneGroupIffExact(nodes, SameNode, NameOf);
  }

  /** Each name has a dot past its first character, and no namespace continues another after a dot. */
  predicate Unnested(nodes: seq<ApiData>) {
    && (forall i :: 0 <= i < |nodes| ==> ClassDot(nodes[i].className) != 0)
    && (forall i, j :: 0 <= i < |nodes| && 0 <= j < |nodes| ==> !(NameOf(nodes[j]) + [DOT] <= NameOf(nodes[i])))
  }

  /** Unnested names get exactly one callback for each namespace. */
  lemma UnnestedGetsOneCallback(nodes: seq<ApiData>)
    requires Sorted(nodes) && Unnested(nodes)
    ensures TestIsExact(nodes, SameNode, NameOf, 0)
    ensures OneGroupEach(Groups(nodes, SameNode, 0), NameOf)
  {
    forall j, k | 0 <= j < k < |nodes|
      ensures SameNode(nodes[j], nodes[k]) <==> NameOf(nodes[j]) == NameOf(nodes[k])
    {
      DottedTest(nodes[j].className, nodes[k].className);
    }
    OneCallbackIffExact(nodes);
  }
}
