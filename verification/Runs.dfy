/** Cutting a list into runs by a test on neighbours, for any test.  `same(a, b)` is asked of each element
    and the next; `name` is what the runs are meant to share. */
module Runs {

  /** The end of the run that contains element i, looking forward from i. */
  function RunEnd<T>(xs: seq<T>, same: (T, T) -> bool, i: nat): (n: nat)
    requires i < |xs|
    ensures i < n <= |xs|
    decreases |xs| - i
  {
    if i + 1 < |xs| && same(xs[i], xs[i + 1]) then RunEnd(xs, same, i + 1) else i + 1
  }

  /** The runs from element i on. */
  function Groups<T>(xs: seq<T>, same: (T, T) -> bool, i: nat): seq<seq<T>>
    requires i <= |xs|
    decreases |xs| - i
  {
    if i == |xs| then [] else [xs[i..RunEnd(xs, same, i)]] + Groups(xs, same, RunEnd(xs, same, i))
  }

  function Concat<T>(gs: seq<seq<T>>): seq<T> {
    if |gs| == 0 then [] else gs[0] + Concat(gs[1..])
  }

  lemma {:induction false} GroupsConcatenate<T>(xs: seq<T>, same: (T, T) -> bool, i: nat)
    requires i <= |xs|
    ensures Concat(Groups(xs, same, i)) == xs[i..]
    decreases |xs| - i
  {
    if i < |xs| {
      var r := RunEnd(xs, same, i);
      GroupsConcatenate(xs, same, r);
      assert Groups(xs, same, i)[1..] == Groups(xs, same, r);
      assert xs[i..] == xs[i..r] + xs[r..];
    }
  }

  lemma {:induction false} InsideRun<T>(xs: seq<T>, same: (T, T) -> bool, i: nat, k: nat)
    requires i <= k < |xs| && k + 1 < RunEnd(xs, same, i)
    ensures same(xs[k], xs[k + 1])
    decreases |xs| - i
  {
    if i < k { InsideRun(xs, same, i + 1, k); }
  }

  lemma {:induction false} AfterRun<T>(xs: seq<T>, same: (T, T) -> bool, i: nat)
    requires i < |xs| && RunEnd(xs, same, i) < |xs|
    ensures !same(xs[RunEnd(xs, same, i) - 1], xs[RunEnd(xs, same, i)])
    decreases |xs| - i
  {
    if same(xs[i], xs[i + 1]) { AfterRun(xs, same, i + 1); }
  }

  // ----- runs and names -----

  /** From element i on: each run has one name, and that name does not occur after the run. */
  ghost predicate OneRunEach<T, N>(xs: seq<T>, same: (T, T) -> bool, name: T -> N, i: nat)
    requires i <= |xs|
    decreases |xs| - i
  {
    i == |xs| ||
    var r := RunEnd(xs, same, i);
    && (forall k :: i <= k < r ==> name(xs[k]) == name(xs[i]))
    && (forall k :: r <= k < |xs| ==> name(xs[k]) != name(xs[i]))
    && OneRunEach(xs, same, name, r)
  }

  /** On every pair in list order, the test says whether the names are equal. */
  ghost predicate TestIsExact<T, N>(xs: seq<T>, same: (T, T) -> bool, name: T -> N, i: nat) {
    forall j, k :: i <= j < k < |xs| ==> (same(xs[j], xs[k]) <==> name(xs[j]) == name(xs[k]))
  }

  /** What the order of the list gives: an element that passes the test against a later one is followed
      only by elements that pass it too, up to that one. */
  ghost predicate Contiguous<T>(xs: seq<T>, same: (T, T) -> bool) {
    forall i, j, k :: 0 <= i < j < k < |xs| && same(xs[i], xs[k]) ==> same(xs[j], xs[k])
  }

  /** What the test gives: neighbours in name and test are interchangeable on its right. */
  ghost predicate Congruent<T, N>(xs: seq<T>, same: (T, T) -> bool, name: T -> N) {
    forall i, j, k :: 0 <= i <= j < k < |xs| && same(xs[j], xs[k]) && name(xs[j]) == name(xs[k]) ==>
      (same(xs[i], xs[j]) <==> same(xs[i], xs[k]))
  }

  lemma PassesBetween<T>(xs: seq<T>, same: (T, T) -> bool, i: nat, j: nat, k: nat)
    requires Contiguous(xs, same) && i < j < k < |xs|
    ensures same(xs[i], xs[k]) ==> same(xs[j], xs[k])
  {
  }

  lemma RightCongruent<T, N>(xs: seq<T>, same: (T, T) -> bool, name: T -> N, i: nat, j: nat, k: nat)
    requires Congruent(xs, same, name) && i <= j < k < |xs|
    ensures same(xs[j], xs[k]) && name(xs[j]) == name(xs[k]) ==> (same(xs[i], xs[j]) <==> same(xs[i], xs[k]))
  {
  }

  lemma {:induction false} SameNameInRun<T, N>(xs: seq<T>, same: (T, T) -> bool, name: T -> N, i: nat, k: nat)
    requires i <= k < |xs| && k < RunEnd(xs, same, i) && TestIsExact(xs, same, name, i)
    ensures name(xs[k]) == name(xs[i])
  {
    if i < k {
      SameNameInRun(xs, same, name, i, k - 1);
      InsideRun(xs, same, i, k - 1);
    }
  }

  lemma {:induction false} ExactTestSuffices<T, N>(xs: seq<T>, same: (T, T) -> bool, name: T -> N, i: nat)
    requires i <= |xs| && Contiguous(xs, same) && TestIsExact(xs, same, name, i)
    ensures OneRunEach(xs, same, name, i)
    decreases |xs| - i
  {
    if i < |xs| {
      var r := RunEnd(xs, same, i);
      ExactTestSuffices(xs, same, name, r);
      forall k | i <= k < r ensures name(xs[k]) == name(xs[i]) {
        SameNameInRun(xs, same, name, i, k);
      }
      forall k | r <= k < |xs| ensures name(xs[k]) != name(xs[i]) {
        AfterRun(xs, same, i);
        assert name(xs[r - 1]) == name(xs[i]);
        if r < k { PassesBetween(xs, same, r - 1, r, k); }
      }
    }
  }

  lemma {:induction false} RunPassesTest<T, N>(xs: seq<T>, same: (T, T) -> bool, name: T -> N, i: nat, j: nat, k: nat)
    requires i <= j < k < |xs| && k < RunEnd(xs, same, i) && Congruent(xs, same, name)
    requires forall m :: i <= m <= k ==> name(xs[m]) == name(xs[i])
    ensures same(xs[j], xs[k])
    decreases k
  {
    InsideRun(xs, same, i, k - 1);
    if j < k - 1 {
      RunPassesTest(xs, same, name, i, j, k - 1);
      assert name(xs[k - 1]) == name(xs[k]);
    }
  }

  lemma LaterFailsTest<T, N>(xs: seq<T>, same: (T, T) -> bool, name: T -> N, i: nat, j: nat, k: nat)
    requires i < |xs| && i <= j < RunEnd(xs, same, i) <= k < |xs| && Contiguous(xs, same) && Congruent(xs, same, name)
    requires TestIsExact(xs, same, name, RunEnd(xs, same, i))
    ensures !same(xs[j], xs[k])
  {
    var r := RunEnd(xs, same, i);
    AfterRun(xs, same, i);
    if j < r - 1 { PassesBetween(xs, same, j, r - 1, k); }
    if r < k {
      PassesBetween(xs, same, r - 1, r, k);
      RightCongruent(xs, same, name, r - 1, r, k);
    }
  }

  lemma {:induction false} ExactTestNecessary<T, N>(xs: seq<T>, same: (T, T) -> bool, name: T -> N, i: nat)
    requires i <= |xs| && Contiguous(xs, same) && Congruent(xs, same, name) && OneRunEach(xs, same, name, i)
    ensures TestIsExact(xs, same, name, i)
    decreases |xs| - i
  {
    if i < |xs| {
      var r := RunEnd(xs, same, i);
      ExactTestNecessary(xs, same, name, r);
      forall j, k | i <= j < k < |xs|
        ensures same(xs[j], xs[k]) <==> name(xs[j]) == name(xs[k])
      {
        if k < r {
          RunPassesTest(xs, same, name, i, j, k);
        } else if j < r {
          LaterFailsTest(xs, same, name, i, j, k);
          assert name(xs[j]) == name(xs[i]) && name(xs[k]) != name(xs[i]);
        }
      }
    }
  }

  // ----- the same about the groups -----

  ghost predicate OneGroupEach<T, N>(gs: seq<seq<T>>, name: T -> N) {
    && (forall a, m :: 0 <= a < |gs| && 0 <= m < |gs[a]| ==> name(gs[a][m]) == name(gs[a][0]))
    && (forall a, b :: 0 <= a < b < |gs| && |gs[a]| > 0 && |gs[b]| > 0 ==> name(gs[a][0]) != name(gs[b][0]))
  }

  lemma {:induction false} ElementInGroup<T>(xs: seq<T>, same: (T, T) -> bool, i: nat, k: nat) returns (g: nat, m: nat)
    requires i <= k < |xs|
    ensures g < |Groups(xs, same, i)| && m < |Groups(xs, same, i)[g]| && Groups(xs, same, i)[g][m] == xs[k]
    decreases |xs| - i
  {
    var r := RunEnd(xs, same, i);
    if k < r {
      g, m := 0, k - i;
    } else {
      g, m := ElementInGroup(xs, same, r, k);
      g := g + 1;
    }
  }

  lemma {:induction false} GroupFromElement<T>(xs: seq<T>, same: (T, T) -> bool, i: nat, g: nat) returns (k: nat)
    requires i <= |xs| && g < |Groups(xs, same, i)|
    ensures i <= k < |xs| && |Groups(xs, same, i)[g]| > 0 && Groups(xs, same, i)[g][0] == xs[k]
    decreases |xs| - i
  {
    if g == 0 {
      k := i;
    } else {
      k := GroupFromElement(xs, same, RunEnd(xs, same, i), g - 1);
    }
  }

  lemma {:induction false} GroupsFollowRuns<T, N>(xs: seq<T>, same: (T, T) -> bool, name: T -> N, i: nat)
    requires i <= |xs| && OneRunEach(xs, same, name, i)
    ensures OneGroupEach(Groups(xs, same, i), name)
    decreases |xs| - i
  {
    if i < |xs| {
      var r, gs := RunEnd(xs, same, i), Groups(xs, same, i);
      var rest := Groups(xs, same, r);
      GroupsFollowRuns(xs, same, name, r);
      assert gs[0] == xs[i..r] && forall a :: 1 <= a < |gs| ==> gs[a] == rest[a - 1];
      forall b | 1 <= b < |gs| ensures |gs[0]| > 0 && |gs[b]| > 0 && name(gs[0][0]) != name(gs[b][0]) {
        var k := GroupFromElement(xs, same, r, b - 1);
        assert gs[b] == rest[b - 1];
      }
    }
  }

  lemma {:induction false} RunsFollowGroups<T, N>(xs: seq<T>, same: (T, T) -> bool, name: T -> N, i: nat)
    requires i <= |xs| && OneGroupEach(Groups(xs, same, i), name)
    ensures OneRunEach(xs, same, name, i)
    decreases |xs| - i
  {
    if i < |xs| {
      var r, gs := RunEnd(xs, same, i), Groups(xs, same, i);
      var rest := Groups(xs, same, r);
      assert gs[0] == xs[i..r] && forall a :: 0 <= a < |rest| ==> rest[a] == gs[a + 1];
      RunsFollowGroups(xs, same, name, r);
      forall k | i <= k < r ensures name(xs[k]) == name(xs[i]) {
        assert gs[0][k - i] == xs[k];
      }
      forall k | r <= k < |xs| ensures name(xs[k]) != name(xs[i]) {
        var g, m := ElementInGroup(xs, same, r, k);
        assert gs[g + 1][m] == xs[k] && |gs[0]| > 0 && |gs[g + 1]| > 0;
        assert name(gs[0][0]) != name(gs[g + 1][0]);
      }
    }
  }

  /** The groups match the names one to one exactly when the test is right on every pair of the list. */
  lemma OneGroupIffExact<T, N>(xs: seq<T>, same: (T, T) -> bool, name: T -> N)
    requires Contiguous(xs, same) && Congruent(xs, same, name)
    ensures OneGroupEach(Groups(xs, same, 0), name) <==> TestIsExact(xs, same, name, 0)
  {
    if TestIsExact(xs, same, name, 0) {
      ExactTestSuffices(xs, same, name, 0);
      GroupsFollowRuns(xs, same, name, 0);
    }
    if OneGroupEach(Groups(xs, same, 0), name) {
      RunsFollowGroups(xs, same, name, 0);
      ExactTestNecessary(xs, same, name, 0);
    }
  }
}
