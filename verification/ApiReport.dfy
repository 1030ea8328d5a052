/** The texts of one flush callback: two comma-separated lists with one field for each node. */
module ApiReport {
  import opened Collections
  import opened ApiNames
  import opened ApiNodes

  /** The class of "Windows.System.Launcher" goes before the API name as "Launcher." */
  function ClassPart(c: Text): Text {
    LastDotIsLast(c, |c|);
    if ClassDot(c) != 0 then c[ClassDot(c) + 1..] + [DOT] else []
  }

  function ApiField(n: ApiData): Text { ClassPart(n.className) + n.apiName }

  function SpecializationField(n: ApiData): Text {
    if n.specialization.Some? then n.specialization.value else [DASH]
  }

  /** A class in a namespace is listed with its class, and the API of any other name alone. */
  lemma DottedField(n: ApiData, ns: Text, cls: Text)
    requires n.className == ns + [DOT] + cls && ns != [] && DOT !in cls
    ensures ApiField(n) == cls + [DOT] + n.apiName && NameSpace(n.className) == ns
    ensures ApiSize(n) == |ApiField(n)| + 1
  {
    var c := n.className;
    LastDotIsLast(c, |c|);
    assert At(c, |ns|) == DOT && |ns| > 0;
    forall k | |ns| < k < |c| ensures c[k] != DOT { assert c[k] == cls[k - |ns| - 1]; }
    assert c[|ns| + 1..] == cls && c[..|ns|] == ns;
  }

  lemma UndottedField(n: ApiData)
    requires forall k :: 0 < k < |n.className| ==> n.className[k] != DOT
    ensures ApiField(n) == n.apiName && NameSpace(n.className) == n.className
    ensures ApiSize(n) == |n.className| + |n.apiName| + 1
  {
    LastDotIsLast(n.className, |n.className|);
    assert [] + n.apiName == n.apiName;
  }

  /** A node without a specialization is listed with a dash. */
  lemma SpecializationFieldIs(n: ApiData)
    ensures n.specialization.None? ==> SpecializationField(n) == [DASH] && DASH == 45
    ensures forall t :: n.specialization == Some(t) ==> SpecializationField(n) == t
    ensures SpecializationSize(n) == |SpecializationField(n)| + 1
  {
  }

  /** The first n fields of a list; each is followed by a comma unless it is the last of all. */
  function Listed(run: seq<ApiData>, field: ApiData -> Text, n: nat): Text
    requires n <= |run|
  {
    if n == 0 then []
    else Listed(run, field, n - 1) + field(run[n - 1]) + if n == |run| then [] else [COMMA]
  }

  function Join(run: seq<ApiData>, field: ApiData -> Text): Text { Listed(run, field, |run|) }

  lemma JoinOne(run: seq<ApiData>, field: ApiData -> Text)
    requires |run| == 1
    ensures Join(run, field) == field(run[0])
  {
    assert Listed(run, field, 0) == [];
  }

  /** What a reader gets who cuts a list at its commas. */
  function Split(s: Text): (fs: seq<Text>)
    ensures |fs| > 0
  {
    if |s| == 0 then [[]]
    else if s[0] == COMMA then [[]] + Split(s[1..])
    else [[s[0]] + Split(s[1..])[0]] + Split(s[1..])[1..]
  }

  function Fields(run: seq<ApiData>, field: ApiData -> Text, n: nat): (fs: seq<Text>)
    requires n <= |run|
    ensures |fs| == n
  {
    if n == 0 then [] else Fields(run, field, n - 1) + [field(run[n - 1])]
  }

  // ----- one field for each node -----

  lemma {:induction false} SplitField(f: Text, s: Text)
    requires COMMA !in f
    ensures Split(f) == [f]
    ensures Split(f + [COMMA] + s) == [f] + Split(s)
  {
    if |f| == 0 {
      assert f + [COMMA] + s == [COMMA] + s;
      assert ([COMMA] + s)[1..] == s;
    } else {
      SplitField(f[1..], s);
      var t := f + [COMMA] + s;
      assert t[1..] == f[1..] + [COMMA] + s && t[0] == f[0];
      assert [f[0]] + f[1..] == f;
      assert Split(t) == [[f[0]] + Split(t[1..])[0]] + Split(t[1..])[1..];
    }
  }

  lemma {:induction false} SplitListed(run: seq<ApiData>, field: ApiData -> Text, n: nat, s: Text)
    requires n < |run| && forall i :: 0 <= i < |run| ==> COMMA !in field(run[i])
    ensures Split(Listed(run, field, n) + s) == Fields(run, field, n) + Split(s)
  {
    if n == 0 {
      assert Listed(run, field, 0) + s == s;
    } else {
      var f := field(run[n - 1]);
      var t: Text := f + [COMMA] + s;
      var rest, before := Split(s), Fields(run, field, n - 1);
      calc {
        Split(Listed(run, field, n) + s);
        { assert Listed(run, field, n) + s == Listed(run, field, n - 1) + t; }
        Split(Listed(run, field, n - 1) + t);
        { SplitListed(run, field, n - 1, t); }
        before + Split(t);
        { SplitField(f, s); }
        before + ([f] + rest);
        (before + [f]) + rest;
      }
    }
  }

  /** Cut at its commas, the list has one field for each node, in order, when no field holds a comma. */
  lemma JoinSplits(run: seq<ApiData>, field: ApiData -> Text)
    requires |run| > 0 && forall i :: 0 <= i < |run| ==> COMMA !in field(run[i])
    ensures Split(Join(run, field)) == Fields(run, field, |run|)
  {
    var n := |run| - 1;
    var f := field(run[n]);
    SplitListed(run, field, n, f);
    SplitLast(f);
    LastField(run, field, n);
  }

  lemma LastField(run: seq<ApiData>, field: ApiData -> Text, n: nat)
    requires n + 1 == |run|
    ensures Join(run, field) == Listed(run, field, n) + field(run[n])
    ensures Fields(run, field, |run|) == Fields(run, field, n) + [field(run[n])]
  {
  }

  lemma SplitLast(f: Text)
    requires COMMA !in f
    ensures Split(f) == [f]
  {
    SplitField(f, []);
  }

  // ----- the sizing pass -----

  /** The characters the sizing pass counts for one node of the API list; it counts the class with its
      dot, and the whole class name when there is no dot. */
  function ApiSize(n: ApiData): nat {
    LastDotIsLast(n.className, |n.className|);
    |n.className| - ClassDot(n.className) + |n.apiName| + 1
  }

  function SpecializationSize(n: ApiData): nat {
    if n.specialization.Some? then |n.specialization.value| + 1 else 2
  }

  /** The size counted after n nodes; a count starts at 1 for the terminator. */
  function Length(run: seq<ApiData>, size: ApiData -> nat, n: nat): nat
    requires n <= |run|
  {
    if n == 0 then 1 else Length(run, size, n - 1) + size(run[n - 1])
  }

  lemma ApiSizeCovers(n: ApiData)
    ensures |ApiField(n)| < ApiSize(n)
  {
    LastDotIsLast(n.className, |n.className|);
  }

  /** Sizes that cover each field with its comma leave room for every step of the filling pass. */
  lemma {:induction false} SizingBoundsFilling(run: seq<ApiData>, field: ApiData -> Text, size: ApiData -> nat, n: nat)
    requires n <= |run| && forall i :: 0 <= i < |run| ==> |field(run[i])| < size(run[i])
    ensures |Listed(run, field, n)| < Length(run, size, n)
  {
    if n > 0 { SizingBoundsFilling(run, field, size, n - 1); }
  }

  /** Where each size is that of the field and a comma, the count is that of the list, one comma more than it has, and
      the terminator. */
  lemma {:induction false} SizingIsExact(run: seq<ApiData>, field: ApiData -> Text, size: ApiData -> nat, n: nat)
    requires n <= |run| && forall i :: 0 <= i < |run| ==> size(run[i]) == |field(run[i])| + 1
    ensures Length(run, size, n) == |Listed(run, field, n)| + 1 + if 0 < n == |run| then 1 else 0
  {
    if n > 0 { SizingIsExact(run, field, size, n - 1); }
  }

  lemma {:induction false} LengthsGrow(run: seq<ApiData>, size: ApiData -> nat, i: nat, n: nat)
    requires i <= n <= |run|
    ensures Length(run, size, i) <= Length(run, size, n)
  {
    if i < n { LengthsGrow(run, size, i, n - 1); }
  }

  /** One step of the filling pass: the field and its comma fit into the buffer that was sized for all. */
  lemma FieldFits(run: seq<ApiData>, field: ApiData -> Text, size: ApiData -> nat, i: nat)
    requires i < |run| && forall k :: 0 <= k < |run| ==> |field(run[k])| < size(run[k])
    ensures |Listed(run, field, i)| + |field(run[i])| + 1 < Length(run, size, |run|)
    ensures Listed(run, field, i + 1) ==
            Listed(run, field, i) + field(run[i]) + if i + 1 == |run| then [] else [COMMA]
  {
    SizingBoundsFilling(run, field, size, i);
    LengthsGrow(run, size, i + 1, |run|);
  }
}
