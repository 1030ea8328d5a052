/** `CreateDirectoryDeepNoThrow` and the two path helpers it recurs with.  The root of a path is what
    PathCchSkipRoot says it is; what lies below the root is a list of names. */
module CreateDeep {
  import opened Collections

  const BACKSLASH := '\\'

  // ----- the path helpers -----

  function LastSeparator(s: string): (r: int)
    ensures -1 <= r < |s|
    ensures r >= 0 ==> s[r] == BACKSLASH
    ensures forall i :: r < i < |s| ==> s[i] != BACKSLASH
  {
    if s == "" then -1
    else if s[|s| - 1] == BACKSLASH then |s| - 1
    else LastSeparator(s[..|s| - 1])
  }

  /** The part of a path that is searched: a single trailing separator is ignored. */
  function Limit(path: string): nat {
    if path != "" && path[|path| - 1] == BACKSLASH then |path| - 1 else |path|
  }

  /** `find_last_path_segment`, as an offset. */
  function LastSegment(path: string): (k: nat)
    ensures k <= |path|
  {
    var offset := LastSeparator(path[..Limit(path)]);
    if offset == -1 then |path| else offset + 1
  }

  /** PathCchSkipRoot: where the root ends. */
  type SkipRoot = string -> Option<nat>

  /** The root lies within the path and depends only on the root's own characters. */
  ghost predicate IsSkipRoot(skip: SkipRoot) {
    && (forall p :: skip(p).Some? ==> skip(p).value <= |p|)
    && (forall p, k: nat :: k <= |p| && skip(p).Some? && skip(p).value <= k ==> skip(p[..k]) == skip(p))
  }

  /** `try_get_parent_path_range`; zero means that there is no parent. */
  function ParentLength(skip: SkipRoot, path: string): (k: nat)
    ensures k <= |path|
  {
    var root := skip(path);
    if root.Some? && root.value < |path| then LastSegment(path) else 0
  }

  /** The root ends in a separator, or there is nothing below it. */
  predicate RootEndsInSeparator(skip: SkipRoot, path: string) {
    var root := skip(path);
    root.Some? && root.value < |path| ==> root.value > 0 && path[root.value - 1] == BACKSLASH
  }

  predicate RootHoldsNoSeparator(skip: SkipRoot, path: string) {
    var root := skip(path);
    root.Some? ==> forall i :: 0 <= i < root.value && i < |path| ==> path[i] != BACKSLASH
  }

  /** A root with something below it ends in a separator, as a drive's or a share's does, or holds none, as that of a
      drive-relative path. */
  predicate RootIsPlain(skip: SkipRoot, path: string) {
    RootEndsInSeparator(skip, path) || RootHoldsNoSeparator(skip, path)
  }

  // ----- when the parent is shorter -----

  predicate HasSeparator(path: string) {
    exists i :: 0 <= i < Limit(path) && path[i] == BACKSLASH
  }

  /** A segment is cut off exactly when there is a separator to cut at.  Otherwise the "parent" of a path such
      as C:foo is the path itself. */
  lemma ParentIsShorterIff(path: string)
    ensures LastSegment(path) < |path| <==> HasSeparator(path)
    ensures !HasSeparator(path) ==> path[..LastSegment(path)] == path
  {
    var searched := path[..Limit(path)];
    assert forall i :: 0 <= i < Limit(path) ==> searched[i] == path[i];
    if HasSeparator(path) {
      var i :| 0 <= i < Limit(path) && path[i] == BACKSLASH;
      assert searched[i] == BACKSLASH;
      assert LastSeparator(searched) >= i;
    }
  }

  /** A parent starts with the whole root; and more of the path unless the root ends in a separator. */
  lemma ParentKeepsRoot(skip: SkipRoot, path: string)
    requires IsSkipRoot(skip) && RootIsPlain(skip, path) && skip(path).Some? && skip(path).value < |path|
    ensures var r, k := skip(path).value, LastSegment(path);
            && r <= k == ParentLength(skip, path) && k > 0 && skip(path[..k]) == Some(r)
            && RootIsPlain(skip, path[..k])
            && (RootEndsInSeparator(skip, path) ==> k < |path| && RootEndsInSeparator(skip, path[..k]))
            && (!RootEndsInSeparator(skip, path) ==> r < k && !RootEndsInSeparator(skip, path[..k]))
    ensures var k := LastSegment(path);
            k < |path| ==> path[k - 1] == BACKSLASH && forall i :: k <= i < Limit(path) ==> path[i] != BACKSLASH
  {
    var r := skip(path).value;
    var searched := path[..Limit(path)];
    assert forall i :: 0 <= i < Limit(path) ==> searched[i] == path[i];
    if RootEndsInSeparator(skip, path) {
      assert searched[r - 1] == BACKSLASH;
      assert LastSeparator(searched) >= r - 1;
    }
  }

  // ----- the chain of parents -----

  /** The path the recursion is at after n steps; a path without a parent stays. */
  function Chain(skip: SkipRoot, path: string, n: nat): string
    decreases n
  {
    var k := ParentLength(skip, path);
    if n == 0 || k == 0 then path else Chain(skip, path[..k], n - 1)
  }

  /** The recursion comes to a path without a parent. */
  ghost predicate ChainEnds(skip: SkipRoot, path: string) {
    exists n: nat :: ParentLength(skip, Chain(skip, path, n)) == 0
  }

  predicate IsOwnParent(skip: SkipRoot, path: string) {
    path != "" && ParentLength(skip, path) == |path|
  }

  /** The chain does not go on from here to another path. */
  predicate IsFixed(skip: SkipRoot, path: string) { ParentLength(skip, path) == 0 || IsOwnParent(skip, path) }

  lemma {:induction false} ChainStays(skip: SkipRoot, path: string, n: nat)
    requires IsFixed(skip, path)
    ensures Chain(skip, path, n) == path
    decreases n
  {
    assert path[..|path|] == path;
    if n > 0 && ParentLength(skip, path) != 0 { ChainStays(skip, path, n - 1); }
  }

  lemma {:induction false} ChainIsFixed(skip: SkipRoot, path: string) returns (n: nat)
    ensures IsFixed(skip, Chain(skip, path, n))
    decreases |path|
  {
    n := 0;
    var k := ParentLength(skip, path);
    if 0 < k < |path| {
      n := ChainIsFixed(skip, path[..k]);
      n := n + 1;
    }
  }

  lemma {:induction false} FixedIsUnique(skip: SkipRoot, path: string, n: nat, m: nat)
    requires IsFixed(skip, Chain(skip, path, n)) && IsFixed(skip, Chain(skip, path, m))
    ensures Chain(skip, path, n) == Chain(skip, path, m)
    decreases n
  {
    if n == 0 || IsFixed(skip, path) {
      ChainStays(skip, path, n);
      ChainStays(skip, path, m);
    } else if m == 0 {
      ChainStays(skip, path, n);
    } else {
      FixedIsUnique(skip, path[..ParentLength(skip, path)], n - 1, m - 1);
    }
  }

  /** The chain of parents comes to a path that is its own parent. */
  ghost predicate MeetsOwnParent(skip: SkipRoot, path: string) {
    exists n: nat :: IsOwnParent(skip, Chain(skip, path, n))
  }

  /** Whatever the roots are, the chain of parents ends if and only if it does not come to a path that is its own
      parent; and that is a path with something below its root and no separator to cut at. */
  lemma ChainEndsUnlessOwnParent(skip: SkipRoot, path: string)
    ensures ChainEnds(skip, path) <==> !MeetsOwnParent(skip, path)
    ensures IsOwnParent(skip, path) <==> skip(path).Some? && skip(path).value < |path| && !HasSeparator(path)
  {
    ParentIsShorterIff(path);
    var n := ChainIsFixed(skip, path);
    if m: nat :| ParentLength(skip, Chain(skip, path, m)) == 0 { FixedIsUnique(skip, path, n, m); }
    if m: nat :| IsOwnParent(skip, Chain(skip, path, m)) { FixedIsUnique(skip, path, n, m); }
  }

  lemma {:induction false} ChainEndsBelowSeparator(skip: SkipRoot, path: string) returns (n: nat)
    requires IsSkipRoot(skip) && RootEndsInSeparator(skip, path)
    ensures ParentLength(skip, Chain(skip, path, n)) == 0
    decreases |path|
  {
    n := 0;
    var k := ParentLength(skip, path);
    if k != 0 {
      ParentKeepsRoot(skip, path);
      var m := ChainEndsBelowSeparator(skip, path[..k]);
      n := m + 1;
    }
  }

  lemma {:induction false} ChainGoesOn(skip: SkipRoot, path: string, n: nat)
    requires IsSkipRoot(skip) && RootIsPlain(skip, path) && !RootEndsInSeparator(skip, path)
    ensures ParentLength(skip, Chain(skip, path, n)) != 0
    decreases n
  {
    ParentKeepsRoot(skip, path);
    if n > 0 { ChainGoesOn(skip, path[..ParentLength(skip, path)], n - 1); }
  }

  /** The chain of parents ends if and only if the root ends in a separator or nothing lies below it. */
  lemma ChainEndsIff(skip: SkipRoot, path: string)
    requires IsSkipRoot(skip) && RootIsPlain(skip, path)
    ensures ChainEnds(skip, path) <==> RootEndsInSeparator(skip, path)
  {
    if RootEndsInSeparator(skip, path) {
      var n := ChainEndsBelowSeparator(skip, path);
    } else {
      forall n: nat ensures ParentLength(skip, Chain(skip, path, n)) != 0 { ChainGoesOn(skip, path, n); }
    }
  }

  /** Drive letters: C:\ is the root of C:\foo, and C: that of the drive-relative C:foo. */
  function DriveRoot(p: string): Option<nat> {
    if |p| < 2 || p[0] == BACKSLASH || p[1] != ':' then None
    else if |p| > 2 && p[2] == BACKSLASH then Some(3)
    else Some(2)
  }

  lemma DriveRootIsSkipRoot()
    ensures IsSkipRoot(DriveRoot) && forall p :: RootIsPlain(DriveRoot, p)
  {
  }

  /** One path on which the recursion does not end: it is its own parent. */
  lemma DriveRelativeIsEndless()
    ensures !RootEndsInSeparator(DriveRoot, "C:foo")
    ensures ParentLength(DriveRoot, "C:foo") == |"C:foo"| && !ChainEnds(DriveRoot, "C:foo")
  {
    DriveRootIsSkipRoot();
    ChainEndsIff(DriveRoot, "C:foo");
    ParentIsShorterIff("C:foo");
  }

  /** And one that is not, but has a parent that is its own parent. */
  lemma DriveRelativeParentIsEndless()
    ensures ParentLength(DriveRoot, "Z:foo\\bar") == |"Z:foo\\"|
    ensures ParentLength(DriveRoot, "Z:foo\\") == |"Z:foo\\"|
    ensures !ChainEnds(DriveRoot, "Z:foo\\bar")
  {
    DriveRootIsSkipRoot();
    ChainEndsIff(DriveRoot, "Z:foo\\bar");
    ParentIsShorterIff("Z:foo\\");
    assert "Z:foo\\bar"[..9][5] == BACKSLASH;
  }

  // ----- names -----

  function FirstSeparator(s: string): (r: nat)
    ensures r <= |s|
    ensures r < |s| ==> s[r] == BACKSLASH
    ensures forall i :: 0 <= i < r ==> s[i] != BACKSLASH
  {
    if s == "" || s[0] == BACKSLASH then 0 else 1 + FirstSeparator(s[1..])
  }

  function NameOrNothing(s: string): seq<string> { if s == "" then [] else [s] }

  /** The names between the separators; empty ones do not count. */
  function Names(s: string): seq<string>
    decreases |s|
  {
    var i := FirstSeparator(s);
    if i == |s| then NameOrNothing(s) else NameOrNothing(s[..i]) + Names(s[i + 1..])
  }

  lemma {:induction false} FirstSeparatorAppend(a: string, b: string)
    requires FirstSeparator(a) < |a|
    ensures FirstSeparator(a + b) == FirstSeparator(a)
  {
    if a[0] != BACKSLASH {
      assert (a + b)[1..] == a[1..] + b;
      FirstSeparatorAppend(a[1..], b);
    }
  }

  lemma NamesCut(s: string, i: nat)
    requires i == FirstSeparator(s) < |s|
    ensures Names(s) == NameOrNothing(s[..i]) + Names(s[i + 1..])
  {
  }

  lemma CutAppend(a: string, b: string, i: nat)
    requires i < |a|
    ensures (a + b)[..i] == a[..i] && (a + b)[i + 1..] == a[i + 1..] + b
  {
  }

  lemma AppendIsAssociative<T>(a: seq<T>, b: seq<T>, c: seq<T>)
    ensures a + b + c == a + (b + c)
  {
  }

  lemma {:induction false} NamesAppend(a: string, b: string)
    requires a == "" || a[|a| - 1] == BACKSLASH
    ensures Names(a + b) == Names(a) + Names(b)
    decreases |a|
  {
    if a == "" {
      assert a + b == b;
    } else {
      var i := FirstSeparator(a);
      FirstSeparatorAppend(a, b);
      NamesCut(a, i);
      NamesCut(a + b, i);
      CutAppend(a, b, i);
      NamesAppend(a[i + 1..], b);
      AppendIsAssociative(NameOrNothing(a[..i]), Names(a[i + 1..]), Names(b));
    }
  }

  /** The names, each followed by a separator. */
  function Joined(ns: seq<string>): string {
    if ns == [] then "" else ns[0] + [BACKSLASH] + Joined(ns[1..])
  }

  predicate IsName(n: string) { n != "" && forall i :: 0 <= i < |n| ==> n[i] != BACKSLASH }

  predicate AreNames(ns: seq<string>) { forall i :: 0 <= i < |ns| ==> IsName(ns[i]) }

  lemma NameAlone(n: string)
    requires IsName(n)
    ensures Names(n) == [n] && Names(n + [BACKSLASH]) == [n]
  {
    var s := n + [BACKSLASH];
    var i := FirstSeparator(s);
    assert s[|n|] == BACKSLASH && forall k :: 0 <= k < |n| ==> s[k] == n[k];
    assert i == |n|;
    assert s[..i] == n && s[i + 1..] == "";
  }

  /** Names put together with separators are found again, with or without a last separator. */
  lemma {:induction false} NamesOfJoined(ns: seq<string>, last: string)
    requires AreNames(ns) && (last == "" || IsName(last))
    ensures Names(Joined(ns) + last) == ns + if last == "" then [] else [last]
  {
    if ns == [] {
      assert Joined(ns) + last == last;
      if last != "" { NameAlone(last); }
    } else {
      var first, rest := ns[0] + [BACKSLASH], Joined(ns[1..]) + last;
      NameAlone(ns[0]);
      NamesOfJoined(ns[1..], last);
      NamesAppend(first, rest);
      AppendIsAssociative(first, Joined(ns[1..]), last);
      AppendIsAssociative([ns[0]], ns[1..], if last == "" then [] else [last]);
      assert [ns[0]] + ns[1..] == ns;
    }
  }

  lemma LastNameAlone(b: string)
    requires forall i :: 0 <= i < Limit(b) ==> b[i] != BACKSLASH
    ensures |Names(b)| <= 1
  {
    var i := FirstSeparator(b);
    if i < |b| {
      assert b[i + 1..] == "";
    }
  }

  /** Where a path leads: its root and the names below it. */
  datatype Location = Location(root: string, names: seq<string>)

  function LocationOf(skip: SkipRoot, path: string): Location
    requires skip(path).Some? ==> skip(path).value <= |path|
  {
    var r := if skip(path).Some? then skip(path).value else 0;
    Location(path[..r], Names(path[r..]))
  }

  lemma CutPath(path: string, r: nat, k: nat)
    requires r <= k <= |path|
    ensures path[..k][..r] == path[..r] && path[..k][r..] == path[r..k] && path[r..] == path[r..k] + path[k..]
  {
  }

  lemma LastNameOf(path: string, k: nat)
    requires k < |path| && forall i :: k <= i < Limit(path) ==> path[i] != BACKSLASH
    ensures |Names(path[k..])| <= 1
  {
    var b := path[k..];
    assert Limit(b) == Limit(path) - k;
    assert forall i :: 0 <= i < Limit(b) ==> b[i] == path[k + i];
    LastNameAlone(b);
  }

  lemma CutAbove(path: string, r: nat, k: nat)
    requires r <= k < |path| && 0 < k && path[k - 1] == BACKSLASH
    requires forall i :: k <= i < Limit(path) ==> path[i] != BACKSLASH
    ensures Names(path[r..k]) <= Names(path[r..]) && |Names(path[r..])| <= |Names(path[r..k])| + 1
  {
    CutPath(path, r, k);
    LastNameOf(path, k);
    NamesAppend(path[r..k], path[k..]);
  }

  lemma LocationOfPrefix(skip: SkipRoot, path: string, r: nat, k: nat)
    requires r <= k <= |path| && skip(path) == Some(r) == skip(path[..k])
    ensures LocationOf(skip, path) == Location(path[..r], Names(path[r..]))
    ensures LocationOf(skip, path[..k]) == Location(path[..r], Names(path[r..k]))
  {
    CutPath(path, r, k);
  }

  /** The recursion goes to the directory above, or to the same one spelt with fewer separators or none fewer. */
  lemma ParentIsAbove(skip: SkipRoot, path: string)
    requires IsSkipRoot(skip) && RootIsPlain(skip, path) && skip(path).Some? && skip(path).value < |path|
    ensures var k := LastSegment(path);
            var here, above := LocationOf(skip, path), LocationOf(skip, path[..k]);
            && here.root == above.root
            && above.names <= here.names && |here.names| <= |above.names| + 1
  {
    ParentKeepsRoot(skip, path);
    var r, k := skip(path).value, LastSegment(path);
    LocationOfPrefix(skip, path, r, k);
    if k < |path| {
      CutAbove(path, r, k);
    } else {
      assert path[r..k] == path[r..];
    }
  }

  /** Two names below the root have a separator between them to cut at. */
  lemma TwoNamesHaveParent(skip: SkipRoot, path: string)
    requires IsSkipRoot(skip) && RootIsPlain(skip, path) && skip(path).Some? && skip(path).value < |path|
    requires |LocationOf(skip, path).names| >= 2
    ensures LastSegment(path) < |path|
  {
    ParentIsShorterIff(path);
    if !HasSeparator(path) { LastNameOf(path, skip(path).value); }
  }

  // ----- the file system -----

  /** What exists, and whether it is a directory. */
  type Nodes = map<Location, bool>

  function Above(l: Location): Location
    requires l.names != []
  {
    l.(names := l.names[..|l.names| - 1])
  }

  /** Volumes are directories, and so is whatever has something below it. */
  ghost predicate WellFormed(nodes: Nodes) {
    && (forall l {:trigger Above(l)} :: l in nodes && l.names != [] ==> Above(l) in nodes && nodes[Above(l)])
    && (forall l :: l in nodes && l.names == [] ==> nodes[l])
  }

  lemma {:induction false} AncestorsExist(nodes: Nodes, l: Location, k: nat)
    requires WellFormed(nodes) && l in nodes && k < |l.names|
    ensures l.(names := l.names[..k]) in nodes && nodes[l.(names := l.names[..k])]
    decreases |l.names|
  {
    var above := Above(l);
    if k < |l.names| - 1 {
      AncestorsExist(nodes, above, k);
      assert above.names[..k] == l.names[..k];
    }
  }

  /** l exists and everything above it is a directory. */
  ghost predicate Reachable(nodes: Nodes, l: Location) {
    && l in nodes
    && forall k: nat :: k < |l.names| ==> l.(names := l.names[..k]) in nodes && nodes[l.(names := l.names[..k])]
  }

  lemma ExistingIsReachable(nodes: Nodes, l: Location)
    requires WellFormed(nodes)
    ensures l in nodes ==> Reachable(nodes, l)
  {
    if l in nodes {
      forall k: nat | k < |l.names|
        ensures l.(names := l.names[..k]) in nodes && nodes[l.(names := l.names[..k])]
      {
        AncestorsExist(nodes, l, k);
      }
    }
  }

  /** Nothing has gone or changed, and what is new is a directory on the way to l. */
  ghost predicate OnlyCreates(before: Nodes, after: Nodes, l: Location) {
    && (forall m :: m in before ==> m in after && after[m] == before[m])
    && (forall m :: m in after && m !in before ==> after[m] && m.root == l.root && m.names <= l.names)
  }

  /** The volume is there and nothing but directories stands on the way to l. */
  ghost predicate WayIsFree(nodes: Nodes, l: Location) {
    && l.(names := []) in nodes
    && forall k: nat :: k < |l.names| && l.(names := l.names[..k]) in nodes ==> nodes[l.(names := l.names[..k])]
  }

  lemma WayToParentIsFree(nodes: Nodes, l: Location, above: Location)
    requires WayIsFree(nodes, l) && above.root == l.root && above.names <= l.names
    ensures WayIsFree(nodes, above)
  {
    assert l.(names := []) == above.(names := []);
    forall k: nat | k < |above.names| && above.(names := above.names[..k]) in nodes
      ensures nodes[above.(names := above.names[..k])]
    {
      assert above.(names := above.names[..k]) == l.(names := l.names[..k]);
    }
  }

  /** There is nothing at l and no directory to create it in. */
  predicate NotFound(nodes: Nodes, l: Location) {
    l !in nodes && (l.names == [] || Above(l) !in nodes || !nodes[Above(l)])
  }

  lemma NotFoundHasTwoNames(nodes: Nodes, l: Location)
    requires WellFormed(nodes) && l.(names := []) in nodes
    ensures NotFound(nodes, l) ==> |l.names| >= 2
  {
    if l.names == [] {
      assert l == l.(names := []);
    } else if |l.names| == 1 {
      assert Above(l) == l.(names := []);
    }
  }

  lemma VolumeIsMissing(nodes: Nodes, l: Location)
    requires WellFormed(nodes)
    ensures l.(names := []) !in nodes ==> NotFound(nodes, l)
  {
    if l.names != [] {
      if l in nodes { AncestorsExist(nodes, l, 0); }
      if |l.names| > 1 && Above(l) in nodes { AncestorsExist(nodes, Above(l), 0); }
      assert l.names[..0] == [] == Above(l).names[..0];
    }
  }

  /** Once the parent is there, the second attempt cannot be turned away. */
  lemma SecondAttempt(before: Nodes, after: Nodes, l: Location, above: Location)
    requires WayIsFree(before, l) && OnlyCreates(before, after, above) && above in after
    requires above.root == l.root && above.names <= l.names && |l.names| <= |above.names| + 1
    ensures !NotFound(after, l)
  {
    if |above.names| == |l.names| {
      assert above == l;
    } else {
      assert Above(l) == above && above == l.(names := l.names[..|l.names| - 1]);
    }
  }

  /** The chain of parents does not end, and it never comes to anything that exists. */
  predicate Endless(skip: SkipRoot, nodes: Nodes, path: string)
    requires skip(path).Some? ==> skip(path).value <= |path|
  {
    !RootEndsInSeparator(skip, path) && LocationOf(skip, path).(names := []) !in nodes
  }

  datatype Error = Success | PathNotFound | AlreadyExists | OutOfMemory | StackOverflow | Other

  class Volume {
    var nodes: Nodes
    const skip: SkipRoot

    /** A reliable system fails a call only for the reasons the volume gives it. */
    const reliable: bool

    constructor (skip: SkipRoot, reliable: bool, nodes: Nodes)
      ensures this.skip == skip && this.reliable == reliable && this.nodes == nodes
    {
      this.skip, this.reliable, this.nodes := skip, reliable, nodes;
    }

    /** CreateDirectory: creates a directory in an existing one, or fails without effect.  The error
        for something that is already there does not say what it is. */
    method CreateDirectory(path: string) returns (error: Error)
      requires skip(path).Some? ==> skip(path).value <= |path|
      requires WellFormed(nodes)
      modifies this
      ensures WellFormed(nodes) && OnlyCreates(old(nodes), nodes, LocationOf(skip, path))
      ensures error == Success ==> LocationOf(skip, path) in nodes
      ensures error == AlreadyExists ==> LocationOf(skip, path) in nodes
      ensures error != Success ==> nodes == old(nodes)
      ensures error != StackOverflow && (error == PathNotFound ==> NotFound(old(nodes), LocationOf(skip, path)))
      ensures reliable ==>
                var l := LocationOf(skip, path);
                error == if l in old(nodes) then AlreadyExists
                         else if NotFound(old(nodes), l) then PathNotFound
                         else Success
    {
      var l := LocationOf(skip, path);
      if l in nodes {
        return AlreadyExists;
      }
      var denied := *;
      if denied && !reliable {
        return Other;
      }
      if NotFound(nodes, l) {
        return PathNotFound;
      }
      nodes := nodes[l := true];
      error := Success;
    }

    /** `CreateDirectoryDeepNoThrow`, with room for `depth` further calls on the stack.  As many as the path has
        characters are enough, unless the chain of parents does not end and the volume is missing: then no depth
        is.  What exists after a success is a directory too, unless something else had been there. */
    method CreateDirectoryDeep(path: string, depth: nat) returns (error: Error)
      requires IsSkipRoot(skip) && RootIsPlain(skip, path) && WellFormed(nodes)
      modifies this
      ensures WellFormed(nodes) && OnlyCreates(old(nodes), nodes, LocationOf(skip, path))
      ensures error == Success ==> Reachable(nodes, LocationOf(skip, path))
      ensures var l := LocationOf(skip, path);
              error == Success ==> (nodes[l] <==> !(l in old(nodes) && !old(nodes)[l]))
      ensures depth >= |path| && error == StackOverflow ==> Endless(skip, old(nodes), path)
      ensures reliable && Endless(skip, old(nodes), path) ==> error == StackOverflow
      ensures reliable && skip(path).Some? && WayIsFree(old(nodes), LocationOf(skip, path)) && depth >= |path|
              ==> error == Success
      decreases depth, 1
    {
      VolumeIsMissing(nodes, LocationOf(skip, path));
      error := CreateDirectory(path);
      if error == PathNotFound {
        var parentLength := ParentLength(skip, path);
        if parentLength != 0 {
          error := CreateParent(path, depth);
          if error != Success {
            return;
          }
        }
        error := CreateDirectory(path);
      }
      if error == AlreadyExists {
        error := Success;
      }
      ExistingIsReachable(nodes, LocationOf(skip, path));
    }

    /** The step to the parent, for a path that has one and was not found. */
    method CreateParent(path: string, depth: nat) returns (error: Error)
      requires IsSkipRoot(skip) && RootIsPlain(skip, path) && WellFormed(nodes) && ParentLength(skip, path) != 0
      modifies this
      ensures WellFormed(nodes) && OnlyCreates(old(nodes), nodes, LocationOf(skip, path))
      ensures depth >= |path| && error == StackOverflow && NotFound(old(nodes), LocationOf(skip, path))
              ==> Endless(skip, old(nodes), path)
      ensures reliable && NotFound(old(nodes), LocationOf(skip, path)) && WayIsFree(old(nodes), LocationOf(skip, path))
              && depth >= |path|
              ==> error == Success && !NotFound(nodes, LocationOf(skip, path))
      ensures reliable && Endless(skip, old(nodes), path) ==> error == StackOverflow
      decreases depth, 0
    {
      var parentLength := ParentLength(skip, path);
      ghost var l, above := LocationOf(skip, path), LocationOf(skip, path[..parentLength]);
      ParentKeepsRoot(skip, path);
      ParentIsAbove(skip, path);
      if WayIsFree(nodes, l) { WayToParentIsFree(nodes, l, above); }
      if NotFound(nodes, l) && l.(names := []) in nodes {
        NotFoundHasTwoNames(nodes, l);
        TwoNamesHaveParent(skip, path);
      }
      var gotMemory := *;
      if !gotMemory && !reliable {
        return OutOfMemory;
      }
      if depth == 0 {
        return StackOverflow;
      }
      error := CreateDirectoryDeep(path[..parentLength], depth - 1);
      if WayIsFree(old(nodes), l) && above in nodes { SecondAttempt(old(nodes), nodes, l, above); }
    }
  }
  /** With no volumes at all, every stack overflows on a drive-relative path. */
  method MissingVolumeOverflows(path: string, depth: nat) returns (error: Error)
    requires !RootEndsInSeparator(DriveRoot, path)
    ensures error == StackOverflow
  {
    DriveRootIsSkipRoot();
    var volume := new Volume(DriveRoot, true, map[]);
    error := volume.CreateDirectoryDeep(path, depth);
  }
}
