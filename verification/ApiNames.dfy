/** Names of instrumented APIs: the wide-string comparison they are sorted by, the test that decides
    where one namespace ends and the next begins, and when that test is right. */
module ApiNames {

  newtype wchar = x: int | 0 <= x < 0x1_0000

  const NUL: wchar := 0
  const DOT: wchar := 46
  const COMMA: wchar := 44
  const DASH: wchar := 45

  /** The text of a null-terminated string, and the text with its terminator. */
  type Text = s: seq<wchar> | NUL !in s

  function Terminated(s: Text): seq<wchar> { s + [NUL] }

  function At(s: Text, i: nat): wchar { if i < |s| then s[i] else NUL }

  function Wcscmp(a: Text, b: Text): int
    decreases |a|
  {
    if At(a, 0) != At(b, 0) then (if At(a, 0) < At(b, 0) then -1 else 1)
    else if |a| == 0 || |b| == 0 then 0
    else Wcscmp(a[1..], b[1..])
  }

  function Wcsncmp(a: Text, b: Text, n: nat): int
    decreases n
  {
    if n == 0 then 0
    else if At(a, 0) != At(b, 0) then (if At(a, 0) < At(b, 0) then -1 else 1)
    else if |a| == 0 || |b| == 0 then 0
    else Wcsncmp(a[1..], b[1..], n - 1)
  }

  // ----- the order -----

  lemma {:induction false} WcscmpReverses(a: Text, b: Text)
    ensures Wcscmp(a, b) == -Wcscmp(b, a)
    ensures Wcscmp(a, b) == 0 <==> a == b
    decreases |a|
  {
    if |a| > 0 && |b| > 0 {
      WcscmpReverses(a[1..], b[1..]);
      assert a == [a[0]] + a[1..] && b == [b[0]] + b[1..];
    }
  }

  lemma {:induction false} WcscmpTransitive(a: Text, b: Text, c: Text)
    requires Wcscmp(a, b) <= 0 && Wcscmp(b, c) <= 0
    ensures Wcscmp(a, c) <= 0
    decreases |a|
  {
    if |a| > 0 && |b| > 0 && |c| > 0 && a[0] == b[0] == c[0] {
      WcscmpTransitive(a[1..], b[1..], c[1..]);
    }
  }

  /** Two names that share a prefix have only names with that prefix between them. */
  lemma {:induction false} PrefixIsContiguous(p: seq<wchar>, a: Text, b: Text, c: Text)
    requires Wcscmp(a, b) <= 0 && Wcscmp(b, c) <= 0
    requires p <= Terminated(a) && p <= Terminated(c)
    ensures p <= Terminated(b)
    decreases |p|
  {
    if |p| > 0 {
      assert Terminated(a)[0] == p[0] == Terminated(c)[0] == At(a, 0) == At(c, 0);
      assert At(b, 0) == p[0];
      if p[0] == NUL {
        assert a == [] && b == [] && c == [];
      } else {
        assert Terminated(a)[1..] == Terminated(a[1..]);
        assert Terminated(b)[1..] == Terminated(b[1..]);
        assert Terminated(c)[1..] == Terminated(c[1..]);
        PrefixIsContiguous(p[1..], a[1..], b[1..], c[1..]);
        assert p == [p[0]] + p[1..];
        assert Terminated(b) == [b[0]] + Terminated(b[1..]);
      }
    }
  }

  lemma ConsPrefix(x: wchar, p: seq<wchar>, t: seq<wchar>)
    ensures [x] + p <= [x] + t <==> p <= t
  {
    assert ([x] + p)[1..] == p && ([x] + t)[1..] == t;
    if p <= t {
      assert t == p + t[|p|..];
      assert [x] + t == ([x] + p) + t[|p|..];
    }
    if [x] + p <= [x] + t {
      assert forall k :: 0 <= k < |p| ==> p[k] == ([x] + p)[k + 1] == ([x] + t)[k + 1] == t[k];
    }
  }

  lemma {:induction false} WcsncmpIsPrefixTest(a: Text, b: Text, n: nat)
    requires n <= |b| + 1
    ensures Wcsncmp(a, b, n) == 0 <==> Terminated(b)[..n] <= Terminated(a)
    decreases n
  {
    if n > 0 {
      var p, t := Terminated(b)[..n], Terminated(a);
      assert p[0] == At(b, 0) && t[0] == At(a, 0);
      if At(a, 0) == At(b, 0) {
        if |a| > 0 && |b| > 0 {
          WcsncmpIsPrefixTest(a[1..], b[1..], n - 1);
          assert Terminated(a) == [a[0]] + Terminated(a[1..]);
          assert Terminated(b) == [b[0]] + Terminated(b[1..]);
          assert p == [b[0]] + Terminated(b[1..])[..n - 1];
          ConsPrefix(b[0], Terminated(b[1..])[..n - 1], Terminated(a[1..]));
        }
      }
    }
  }

  // ----- namespaces -----

  /** The last dot at or before i, not counting one at position 0; 0 when there is none. */
  function LastDot(c: Text, i: nat): (r: nat)
    ensures r <= i
  {
    if i == 0 || At(c, i) == DOT then i else LastDot(c, i - 1)
  }

  function ClassDot(c: Text): nat { LastDot(c, |c|) }

  function NameSpaceLength(c: Text): nat { if ClassDot(c) != 0 then ClassDot(c) else |c| }

  function NameSpace(c: Text): Text
  {
    NameSpaceIsPrefix(c);
    c[..NameSpaceLength(c)]
  }

  /** The namespace and the character after it: a dot, or the terminator. */
  function NameSpaceKey(c: Text): seq<wchar> {
    NameSpaceIsPrefix(c);
    Terminated(c)[..NameSpaceLength(c) + 1]
  }

  predicate IsSameNameSpace(a: Text, b: Text) {
    Wcsncmp(a, b, NameSpaceLength(b) + 1) == 0
  }

  lemma {:induction false} LastDotIsLast(c: Text, i: nat)
    ensures LastDot(c, i) != 0 ==> LastDot(c, i) < |c| && c[LastDot(c, i)] == DOT
    ensures forall k :: LastDot(c, i) < k <= i ==> At(c, k) != DOT
    decreases i
  {
    if i > 0 && At(c, i) != DOT { LastDotIsLast(c, i - 1); }
  }

  lemma NameSpaceIsPrefix(c: Text)
    ensures NameSpaceLength(c) <= |c|
  {
    LastDotIsLast(c, |c|);
  }

  lemma SameNameSpaceIsKeyTest(a: Text, b: Text)
    ensures IsSameNameSpace(a, b) <==> NameSpaceKey(b) <= Terminated(a)
  {
    NameSpaceIsPrefix(b);
    WcsncmpIsPrefixTest(a, b, NameSpaceLength(b) + 1);
  }

  lemma OwnKey(c: Text)
    ensures NameSpaceKey(c) <= Terminated(c)
  {
    NameSpaceIsPrefix(c);
  }

  lemma SameNameSameKey(a: Text, b: Text)
    requires NameSpaceKey(b) <= Terminated(a) && NameSpace(a) == NameSpace(b)
    ensures NameSpaceKey(a) == NameSpaceKey(b)
  {
    NameSpaceIsPrefix(a);
    NameSpaceIsPrefix(b);
    assert |NameSpace(a)| == NameSpaceLength(a) && |NameSpace(b)| == NameSpaceLength(b);
  }

  /** Between a name and a later one it passes the test against, every name passes that test. */
  lemma TestIsContiguous(a: Text, b: Text, c: Text)
    requires Wcscmp(a, b) <= 0 && Wcscmp(b, c) <= 0 && IsSameNameSpace(a, c)
    ensures IsSameNameSpace(b, c)
  {
    SameNameSpaceIsKeyTest(a, c);
    SameNameSpaceIsKeyTest(b, c);
    OwnKey(c);
    PrefixIsContiguous(NameSpaceKey(c), a, b, c);
  }

  lemma TestRightCongruent(a: Text, b: Text, c: Text)
    requires IsSameNameSpace(b, c) && NameSpace(b) == NameSpace(c)
    ensures IsSameNameSpace(a, b) <==> IsSameNameSpace(a, c)
  {
    SameNameSpaceIsKeyTest(b, c);
    SameNameSpaceIsKeyTest(a, b);
    SameNameSpaceIsKeyTest(a, c);
    SameNameSameKey(b, c);
  }

  /** Between dotted names the test says: same namespace, or the first is in a nested one. */
  lemma DottedTest(a: Text, b: Text)
    requires ClassDot(a) != 0 && ClassDot(b) != 0
    ensures IsSameNameSpace(a, b) <==> NameSpace(a) == NameSpace(b) || NameSpace(b) + [DOT] <= NameSpace(a)
  {
    LastDotIsLast(a, |a|);
    LastDotIsLast(b, |b|);
    SameNameSpaceIsKeyTest(a, b);
    var n, m := ClassDot(b), ClassDot(a);
    assert NameSpaceKey(b) == NameSpace(b) + [DOT];
    assert NameSpaceKey(a) == NameSpace(a) + [DOT] == Terminated(a)[..m + 1];
    if NameSpaceKey(b) <= Terminated(a) {
      assert At(a, n) == Terminated(a)[n] == NameSpaceKey(b)[n] == DOT;
      assert NameSpace(b) == Terminated(a)[..n];
      if n < m {
        assert NameSpace(a)[..n + 1] == Terminated(a)[..n + 1];
      }
    }
    if NameSpace(b) + [DOT] <= NameSpace(a) {
      assert Terminated(a)[..n + 1] == NameSpace(a)[..n + 1];
    }
  }

  /** Against a name without a namespace the test is equality. */
  lemma UndottedTest(a: Text, b: Text)
    requires ClassDot(b) == 0
    ensures NameSpace(b) == b && (IsSameNameSpace(a, b) <==> a == b)
  {
    SameNameSpaceIsKeyTest(a, b);
    assert NameSpaceKey(b) == Terminated(b);
    assert forall k :: 0 <= k < |a| ==> a[k] != NUL;
    assert Terminated(a)[..|a|] == a && Terminated(b)[..|b|] == b;
    if Terminated(b) <= Terminated(a) {
      assert Terminated(a)[|b|] == NUL;
      assert |a| == |b|;
    }
  }

  /** "A.x.B" and "A.z". */
  const NESTED: Text := [65, DOT, 120, DOT, 66]
  const OUTER: Text := [65, DOT, 122]

  /** The test is not symmetric: the nested name comes before the outer one and passes it, though "A.x" is not "A". */
  lemma NestedNamePasses()
    ensures Wcscmp(NESTED, OUTER) < 0 && IsSameNameSpace(NESTED, OUTER) && !IsSameNameSpace(OUTER, NESTED)
    ensures NameSpace(NESTED) != NameSpace(OUTER)
  {
    var a, b := NESTED, OUTER;
    assert a[1..] == [DOT, 120, DOT, 66] && b[1..] == [DOT, 122];
    assert a[1..][1..] == [120, DOT, 66] && b[1..][1..] == [122];
    assert Wcscmp(a[1..][1..], b[1..][1..]) == -1;
    assert Wcscmp(a[1..], b[1..]) == -1;
    assert ClassDot(a) == 3 by {
      assert At(a, 5) == NUL && At(a, 4) == 66 && At(a, 3) == DOT;
      assert LastDot(a, 5) == LastDot(a, 4) == LastDot(a, 3);
    }
    assert ClassDot(b) == 1 by {
      assert LastDot(b, 3) == LastDot(b, 2) == LastDot(b, 1);
    }
    SameNameSpaceIsKeyTest(a, b);
    SameNameSpaceIsKeyTest(b, a);
    assert NameSpaceKey(b) == [65, DOT];
    assert NameSpaceKey(a)[2] == 120 && Terminated(b)[2] == 122;
    assert |NameSpace(a)| == 3 && |NameSpace(b)| == 1;
  }

  /** `GetClassStringPointer`: the index of the dot before the class, or 0 for a null result. */
  method GetClassStringPointer(c: Text) returns (r: nat)
    ensures r == ClassDot(c)
    ensures r != 0 ==> r < |c| && c[r] == DOT
    ensures forall k :: r < k < |c| ==> c[k] != DOT
  {
    r := 0;
    while At(c, r) != NUL
      invariant r <= |c|
      decreases |c| - r
    {
      r := r + 1;
    }
    assert r == |c|;
    while r > 0 && At(c, r) != DOT
      invariant r <= |c|
      invariant LastDot(c, r) == ClassDot(c)
    {
      r := r - 1;
    }
    LastDotIsLast(c, |c|);
    forall k | r < k < |c| ensures c[k] != DOT { assert At(c, k) != DOT; }
  }

  method GetNameSpaceLength(c: Text) returns (n: nat)
    ensures n == NameSpaceLength(c) && n <= |c|
  {
    var r := GetClassStringPointer(c);
    n := if r != 0 then r else |c|;
  }
}
