/** `RemoveDirectoryRecursiveNoThrow` over an arbitrary quiescent file tree.  The operating system's calls are
    methods that may fail at any time; what they do when they succeed is their contract. */
module RecursiveDelete {

  type Name = string
  type Path = seq<Name>

  /** A directory reparse point that is a name surrogate leads to its target; every other directory is `Dir`. */
  datatype Kind = File(readOnly: bool) | Dir | Link(target: Path)

  type Tree = map<Path, Kind>

  datatype Options = Options(keepRoot: bool, removeReadOnly: bool)

  /** One WIN32_FIND_DATA record. */
  datatype Entry = Entry(name: Name, kind: Kind)

  predicate IsDot(name: Name) { name == "." || name == ".." }

  function Parent(p: Path): Path
    requires p != []
  {
    p[..|p| - 1]
  }

  predicate Under(dir: Path, p: Path) { |dir| < |p| && p[..|dir|] == dir }

  /** Everything but the root has a directory as parent, and dots name nothing. */
  ghost predicate WellFormed(t: Tree) {
    forall p {:trigger Parent(p)} :: p in t && p != [] ==> Parent(p) in t && t[Parent(p)] == Dir && !IsDot(p[|p| - 1])
  }

  ghost predicate Childless(t: Tree, p: Path) {
    forall q :: q in t ==> !Under(p, q)
  }

  lemma {:induction false} AncestorsExist(t: Tree, dir: Path, p: Path)
    requires WellFormed(t) && p in t && Under(dir, p)
    ensures dir in t && t[dir] == Dir && p[..|dir| + 1] in t
    decreases |p|
  {
    if |p| > |dir| + 1 {
      assert Parent(p)[..|dir|] == dir && Parent(p)[..|dir| + 1] == p[..|dir| + 1];
      AncestorsExist(t, dir, Parent(p));
    } else {
      assert p == p[..|dir| + 1] && Parent(p) == dir;
    }
  }

  // ----- what a run may do, and what a successful one has done -----

  /** Nodes disappear only below dir, and of what is left only the read-only flag of files below dir is cleared. */
  ghost predicate OnlyBelow(before: Tree, after: Tree, dir: Path) {
    && (forall p :: p in after ==> p in before)
    && (forall p :: p in before && !Under(dir, p) ==> p in after && after[p] == before[p])
    && (forall p :: p in after ==> after[p] == before[p] || (before[p] == File(true) && after[p] == File(false)))
  }

  /** Only p itself and what is below it is touched. */
  ghost predicate OnlyAt(before: Tree, after: Tree, p: Path) {
    && (forall q :: q in after ==> q in before)
    && (forall q :: q in before && q != p && !Under(p, q) ==> q in after && after[q] == before[q])
    && (forall q :: q in after ==> after[q] == before[q] || (before[q] == File(true) && after[q] == File(false)))
  }

  lemma OnlyAtIsBelow(a: Tree, b: Tree, dir: Path, p: Path)
    requires OnlyAt(a, b, p) && Under(dir, p)
    ensures OnlyBelow(a, b, dir)
  {
    forall q | Under(p, q) ensures Under(dir, q) { assert q[..|dir|] == p[..|dir|]; }
  }

  lemma OnlyBelowTrans(a: Tree, b: Tree, c: Tree, dir: Path)
    requires OnlyBelow(a, b, dir) && OnlyBelow(b, c, dir)
    ensures OnlyBelow(a, c, dir)
  {
  }

  /** The tree without what is below dir. */
  ghost function Emptied(t: Tree, dir: Path): Tree {
    map p | p in t && !Under(dir, p) :: t[p]
  }

  lemma EmptiedIs(before: Tree, after: Tree, dir: Path)
    requires OnlyBelow(before, after, dir) && Childless(after, dir)
    ensures after == Emptied(before, dir)
  {
  }

  /** Children are what an enumeration of dir lists, besides the dots. */
  ghost predicate Lists(t: Tree, dir: Path, entries: seq<Entry>) {
    && (forall e :: e in entries && !IsDot(e.name) ==> dir + [e.name] in t && t[dir + [e.name]] == e.kind)
    && (forall e :: e in entries && IsDot(e.name) ==> e.kind == Dir)
    && (forall p :: p in t && Under(dir, p) && |p| == |dir| + 1 ==> Entry(p[|dir|], t[p]) in entries)
  }

  predicate DistinctNames(entries: seq<Entry>) {
    forall i, j :: 0 <= i < j < |entries| ==> entries[i].name != entries[j].name
  }

  /** The entries from i on are still as they were found. */
  ghost predicate StillThere(t: Tree, dir: Path, entries: seq<Entry>, i: nat) {
    forall j :: i <= j < |entries| && !IsDot(entries[j].name) ==>
      dir + [entries[j].name] in t && t[dir + [entries[j].name]] == entries[j].kind
  }

  lemma OthersStillThere(a: Tree, b: Tree, dir: Path, entries: seq<Entry>, i: nat)
    requires i < |entries| && DistinctNames(entries) && StillThere(a, dir, entries, i)
    requires OnlyAt(a, b, dir + [entries[i].name])
    ensures StillThere(b, dir, entries, i + 1)
  {
    forall j | i < j < |entries| && !IsDot(entries[j].name)
      ensures dir + [entries[j].name] in b && b[dir + [entries[j].name]] == entries[j].kind
    {
      var p, q := dir + [entries[i].name], dir + [entries[j].name];
      assert p[|dir|] != q[|dir|] && |p| == |q|;
    }
  }

  /** Nothing below dir is a read-only file, or the caller allows clearing the flag. */
  ghost predicate Clearable(t: Tree, dir: Path, options: Options) {
    options.removeReadOnly || forall p :: p in t && Under(dir, p) ==> t[p] != File(true)
  }

  lemma ClearableChild(t: Tree, dir: Path, p: Path, options: Options)
    requires Clearable(t, dir, options) && Under(dir, p)
    ensures Clearable(t, p, options)
  {
    forall q | Under(p, q) ensures Under(dir, q) { assert q[..|dir|] == p[..|dir|]; }
  }

  predicate Deletable(k: Kind, options: Options) { k == File(false) || (k == File(true) && options.removeReadOnly) }

  lemma StaysClearable(a: Tree, b: Tree, dir: Path, options: Options)
    requires OnlyBelow(a, b, dir) && Clearable(a, dir, options)
    ensures Clearable(b, dir, options)
  {
  }

  /** RemoveDirectory takes an empty directory or a link. */
  ghost predicate Removable(t: Tree, p: Path) { p in t && !t[p].File? && Childless(t, p) }

  /** Nothing is left of the child named n. */
  ghost predicate Gone(t: Tree, dir: Path, n: Name) {
    dir + [n] !in t && Childless(t, dir + [n])
  }

  ghost predicate AllGone(t: Tree, dir: Path, entries: seq<Entry>) {
    forall e :: e in entries && !IsDot(e.name) ==> Gone(t, dir, e.name)
  }

  lemma AllGoneForever(a: Tree, b: Tree, dir: Path, entries: seq<Entry>)
    requires AllGone(a, dir, entries) && OnlyBelow(a, b, dir)
    ensures AllGone(b, dir, entries)
  {
  }

  /** The first i entries of the list have been dealt with, and the others are untouched. */
  ghost predicate DoneTo(start: Tree, t: Tree, dir: Path, entries: seq<Entry>, i: nat) {
    i <= |entries| && OnlyBelow(start, t, dir) && AllGone(t, dir, entries[..i]) && StillThere(t, dir, entries, i)
  }

  lemma OneMoreGone(start: Tree, before: Tree, after: Tree, dir: Path, entries: seq<Entry>, i: nat)
    requires i < |entries| && DistinctNames(entries) && DoneTo(start, before, dir, entries, i)
    requires OnlyAt(before, after, dir + [entries[i].name])
    ensures OnlyBelow(start, after, dir)
    ensures Gone(after, dir, entries[i].name) ==> DoneTo(start, after, dir, entries, i + 1)
  {
    OnlyAtIsBelow(before, after, dir, dir + [entries[i].name]);
    OnlyBelowTrans(start, before, after, dir);
    OthersStillThere(before, after, dir, entries, i);
    AllGoneForever(before, after, dir, entries[..i]);
    assert entries[..i + 1] == entries[..i] + [entries[i]];
  }

  lemma DotIsSkipped(start: Tree, t: Tree, dir: Path, entries: seq<Entry>, i: nat)
    requires i < |entries| && DoneTo(start, t, dir, entries, i) && IsDot(entries[i].name)
    ensures DoneTo(start, t, dir, entries, i + 1)
  {
    assert entries[..i + 1] == entries[..i] + [entries[i]];
  }

  /** What lies below a directory is a child of it or lies below one. */
  lemma FirstStep(dir: Path, q: Path)
    requires Under(dir, q)
    ensures var child := dir + [q[|dir|]];
            Under(dir, child) && child == q[..|dir| + 1] && (q == child || Under(child, q))
  {
    assert q[..|dir| + 1] == dir + [q[|dir|]];
  }

  lemma AllGoneIsChildless(before: Tree, after: Tree, dir: Path, entries: seq<Entry>)
    requires WellFormed(before) && Lists(before, dir, entries) && OnlyBelow(before, after, dir)
    requires AllGone(after, dir, entries)
    ensures Childless(after, dir)
  {
    forall q | q in before && Under(dir, q)
      ensures q !in after
    {
      AncestorsExist(before, dir, q);
      FirstStep(dir, q);
      var child := dir + [q[|dir|]];
      WellFormedName(before, child);
      assert Entry(q[|dir|], before[child]) in entries;
    }
  }

  lemma WellFormedName(t: Tree, p: Path)
    requires WellFormed(t) && p in t && p != []
    ensures !IsDot(p[|p| - 1])
  {
    var parent := Parent(p);
  }

  lemma RemovingLeafKeepsWellFormed(t: Tree, p: Path)
    requires WellFormed(t) && Childless(t, p)
    ensures WellFormed(t - {p})
  {
    forall q | q in t && q != []
      ensures Parent(q) in t && t[Parent(q)] == Dir && !IsDot(q[|q| - 1]) && Parent(q) != p
    {
      assert Parent(q) == p ==> Under(p, q);
    }
  }

  lemma RemovingFileKeepsWellFormed(t: Tree, p: Path)
    requires WellFormed(t)
    ensures p in t && t[p].File? ==> WellFormed(t - {p}) && Childless(t, p)
  {
    FilesAreLeaves(t, p);
    if p in t && t[p].File? { RemovingLeafKeepsWellFormed(t, p); }
  }

  lemma ClearingFlagKeepsWellFormed(t: Tree, p: Path)
    requires WellFormed(t) && p in t && t[p].File?
    ensures WellFormed(t[p := File(false)])
  {
  }

  ghost predicate SameFlags(before: Tree, after: Tree) {
    forall p :: p in after && p in before ==> after[p] == before[p]
  }

  ghost predicate Bounded(t: Tree, dir: Path, height: nat) {
    forall p :: p in t && Under(dir, p) ==> |p| <= |dir| + height
  }

  lemma BoundedChild(t: Tree, dir: Path, n: Name, height: nat)
    requires Bounded(t, dir, height) && dir + [n] in t
    ensures height > 0 && Bounded(t, dir + [n], height - 1)
  {
    assert Under(dir, dir + [n]);
    forall p | p in t && Under(dir + [n], p) ensures Under(dir, p) { assert p[..|dir|] == (dir + [n])[..|dir|]; }
  }

  ghost function Height(ps: set<Path>): (h: nat)
    ensures forall p :: p in ps ==> |p| <= h
  {
    if ps == {} then 0
    else
      var p :| p in ps;
      var h := Height(ps - {p});
      assert forall q :: q in ps ==> q == p || q in ps - {p};
      if |p| > h then |p| else h
  }

  /** FindFirstFile follows a link in the path it is given. */
  function Leads(t: Tree, path: Path): Path {
    if path in t && t[path].Link? then t[path].target else path
  }

  /** What is left after a successful deletion. */
  ghost function Removed(t: Tree, path: Path, options: Options): Tree {
    if options.keepRoot then Emptied(t, Leads(t, path)) else Emptied(t, Leads(t, path)) - {path}
  }

  /** There is nothing in the tree that has to make the deletion fail. */
  ghost predicate Possible(t: Tree, path: Path, dir: Path, options: Options) {
    && dir in t && t[dir] == Dir && Clearable(t, dir, options)
    && (options.keepRoot || path == dir || Removable(Emptied(t, dir), path))
  }

  /** The calls of the operating system the deletion makes.  Each may fail without effect. */
  class FileSystem {
    var tree: Tree

    /** A reliable system fails a call only for the reasons the tree gives it. */
    const reliable: bool

    constructor (t: Tree, reliable: bool)
      ensures tree == t && this.reliable == reliable
    {
      tree, this.reliable := t, reliable;
    }

    /** FindFirstFile and the FindNextFile calls after it; the directory does not change in between except by
        the deletion itself.  The path of a link is followed, so the caller passes where it leads. */
    method Enumerate(dir: Path) returns (ok: bool, entries: seq<Entry>)
      requires WellFormed(tree)
      ensures ok ==> dir in tree && tree[dir] == Dir && Lists(tree, dir, entries) && DistinctNames(entries)
      ensures reliable && dir in tree && tree[dir] == Dir ==> ok
    {
      ok, entries := *, [Entry(".", Dir), Entry("..", Dir)];
      if dir !in tree || tree[dir] != Dir {
        return false, [];
      }
      ok := ok || reliable;
      var todo := tree.Keys;
      while todo != {}
        invariant todo <= tree.Keys
        invariant DistinctNames(entries)
        invariant forall e :: e in entries && !IsDot(e.name) ==>
                    dir + [e.name] in tree && dir + [e.name] !in todo && tree[dir + [e.name]] == e.kind
        invariant forall e :: e in entries && IsDot(e.name) ==> e.kind == Dir
        invariant forall p :: p in tree && p !in todo && Under(dir, p) && |p| == |dir| + 1
                    ==> Entry(p[|dir|], tree[p]) in entries
      {
        var p :| p in todo;
        todo := todo - {p};
        if p != [] { WellFormedName(tree, p); }
        if |p| == |dir| + 1 && p[..|dir|] == dir && !IsDot(p[|dir|]) {
          assert dir + [p[|dir|]] == p;
          entries := entries + [Entry(p[|dir|], tree[p])];
        }
      }
    }

    /** TryCreateFileCanRecurseIntoDirectory: a handle only for a directory that is no name surrogate. */
    method TryOpenForRecursion(p: Path) returns (secured: bool)
      ensures secured ==> p in tree && tree[p] == Dir
      ensures reliable && p in tree && tree[p] == Dir ==> secured
    {
      secured := *;
      secured := (secured || reliable) && p in tree && tree[p] == Dir;
    }

    /** RemoveDirectory, and marking an open directory for deletion: an empty directory or a link. */
    method RemoveDirectory(p: Path) returns (ok: bool)
      modifies this
      ensures ok ==> Removable(old(tree), p) && tree == old(tree) - {p}
      ensures !ok ==> tree == old(tree)
      ensures reliable && Removable(old(tree), p) ==> ok
    {
      ok := *;
      ok := (ok || reliable) && p in tree && !tree[p].File? && forall q :: q in tree ==> !Under(p, q);
      if ok {
        tree := tree - {p};
      }
    }

    /** DeleteFile; `denied` is ERROR_ACCESS_DENIED.  A read-only file is not deleted. */
    method DeleteFile(p: Path) returns (ok: bool, denied: bool)
      modifies this
      ensures ok ==> p in old(tree) && old(tree)[p] == File(false) && tree == old(tree) - {p}
      ensures !ok ==> tree == old(tree)
      ensures reliable && p in old(tree) && old(tree)[p] == File(false) ==> ok
      ensures reliable && p in old(tree) && old(tree)[p] == File(true) ==> denied
    {
      ok, denied := *, *;
      ok := (ok || reliable) && p in tree && tree[p] == File(false);
      denied := denied || (reliable && p in tree && tree[p] == File(true));
      if ok {
        tree := tree - {p};
      }
    }

    method IsReadOnly(p: Path) returns (readOnly: bool)
      ensures readOnly <==> p in tree && tree[p] == File(true)
    {
      readOnly := p in tree && tree[p] == File(true);
    }

    method ClearReadOnly(p: Path)
      requires p in tree && tree[p] == File(true)
      modifies this
      ensures tree == old(tree) || tree == old(tree)[p := File(false)]
      ensures reliable ==> tree == old(tree)[p := File(false)]
    {
      var done := *;
      if done || reliable {
        tree := tree[p := File(false)];
      }
    }

    // ----- the deletion -----

    /** The part of the loop body that deals with a file. */
    method DeleteFileEntry(dir: Path, name: Name, options: Options) returns (ok: bool)
      requires WellFormed(tree) && !IsDot(name)
      modifies this
      ensures WellFormed(tree) && OnlyAt(old(tree), tree, dir + [name])
      ensures !options.removeReadOnly ==> SameFlags(old(tree), tree)
      ensures ok ==> Gone(tree, dir, name)
      ensures reliable && dir + [name] in old(tree) && Deletable(old(tree)[dir + [name]], options) ==> ok
    {
      var p := dir + [name];
      assert Under(dir, p);
      RemovingFileKeepsWellFormed(tree, p);
      var denied;
      ok, denied := DeleteFile(p);
      if !ok && options.removeReadOnly && denied {
        var readOnly := IsReadOnly(p);
        if readOnly {
          ClearingFlagKeepsWellFormed(tree, p);
          ClearReadOnly(p);
          RemovingFileKeepsWellFormed(tree, p);
          ok, denied := DeleteFile(p);
        }
      }
    }

    /** The loop body, for one entry found in dir. */
    method DeleteEntry(dir: Path, e: Entry, options: Options, ghost height: nat) returns (ok: bool)
      requires WellFormed(tree) && Bounded(tree, dir, height) && !IsDot(e.name)
      requires dir + [e.name] in tree && tree[dir + [e.name]] == e.kind
      modifies this
      ensures WellFormed(tree) && OnlyAt(old(tree), tree, dir + [e.name])
      ensures !options.removeReadOnly ==> SameFlags(old(tree), tree)
      ensures ok ==> Gone(tree, dir, e.name)
      ensures reliable && Clearable(old(tree), dir, options) ==> ok
      decreases height, 0
    {
      var p := dir + [e.name];
      assert Under(dir, p) && Parent(p) == dir;
      if e.kind.File? {
        ok := DeleteFileEntry(dir, e.name, options);
        return;
      }
      var secured := TryOpenForRecursion(p);
      if secured {
        BoundedChild(tree, dir, e.name, height);
        if Clearable(tree, dir, options) { ClearableChild(tree, dir, p, options); }
        ok := RemoveTree(p, p, options.(keepRoot := false), height - 1);
      } else if e.kind.Link? {
        FilesAreLeaves(tree, p);
        ok := RemoveDirectory(p);
        if ok { RemovingLeafKeepsWellFormed(old(tree), p); }
      } else {
        ok := false;
      }
    }

    /** `dir` is where `path` leads; they differ only when the caller passed a link. */
    method RemoveTree(path: Path, dir: Path, options: Options, ghost height: nat) returns (ok: bool)
      requires WellFormed(tree) && Bounded(tree, dir, height)
      modifies this
      ensures WellFormed(tree)
      ensures ok ==> dir in old(tree) && old(tree)[dir] == Dir
      ensures ok && options.keepRoot ==> tree == Emptied(old(tree), dir)
      ensures ok && !options.keepRoot ==> path in Emptied(old(tree), dir) && tree == Emptied(old(tree), dir) - {path}
      ensures !ok ==> OnlyBelow(old(tree), tree, dir)
      ensures !options.removeReadOnly ==> SameFlags(old(tree), tree)
      ensures reliable && Possible(old(tree), path, dir, options) ==> ok
      decreases height, 2
    {
      var entries;
      ok, entries := Enumerate(dir);
      if !ok {
        return;
      }
      ok := DeleteEntries(dir, entries, options, height);
      if !ok {
        return;
      }
      AllGoneIsChildless(old(tree), tree, dir, entries);
      EmptiedIs(old(tree), tree, dir);
      if !options.keepRoot {
        ghost var emptied := tree;
        ok := RemoveDirectory(path);
        if ok { RemovingLeafKeepsWellFormed(emptied, path); }
      }
    }

    /** The loop over what was found in dir. */
    method DeleteEntries(dir: Path, entries: seq<Entry>, options: Options, ghost height: nat) returns (ok: bool)
      requires WellFormed(tree) && Bounded(tree, dir, height) && Lists(tree, dir, entries) && DistinctNames(entries)
      modifies this
      ensures WellFormed(tree) && OnlyBelow(old(tree), tree, dir)
      ensures !options.removeReadOnly ==> SameFlags(old(tree), tree)
      ensures ok ==> AllGone(tree, dir, entries)
      ensures reliable && Clearable(old(tree), dir, options) ==> ok
      decreases height, 1
    {
      var i := 0;
      while i < |entries|
        invariant WellFormed(tree) && DoneTo(old(tree), tree, dir, entries, i)
        invariant !options.removeReadOnly ==> SameFlags(old(tree), tree)
      {
        if !IsDot(entries[i].name) {
          ghost var before := tree;
          if Clearable(old(tree), dir, options) { StaysClearable(old(tree), tree, dir, options); }
          ok := DeleteEntry(dir, entries[i], options, height);
          OneMoreGone(old(tree), before, tree, dir, entries, i);
          if !ok {
            return;
          }
        } else {
          DotIsSkipped(old(tree), tree, dir, entries, i);
        }
        var more := *;
        if !more && !reliable && i + 1 < |entries| {
          return false; // FindNextFile failed
        }
        i := i + 1;
      }
      assert entries[..i] == entries;
      ok := true;
    }

    /** `RemoveDirectoryRecursiveNoThrow`. */
    method RemoveDirectoryRecursive(path: Path, options: Options) returns (ok: bool)
      requires WellFormed(tree)
      modifies this
      ensures WellFormed(tree)
      ensures ok ==> tree == Removed(old(tree), path, options)
      ensures !ok ==> OnlyBelow(old(tree), tree, Leads(old(tree), path))
      ensures !options.removeReadOnly ==> SameFlags(old(tree), tree)
      ensures reliable && Possible(old(tree), path, Leads(old(tree), path), options) ==> ok
    {
      ghost var height := Height(tree.Keys);
      ok := RemoveTree(path, Leads(tree, path), options, height);
    }
  }

  lemma FilesAreLeaves(t: Tree, p: Path)
    requires WellFormed(t)
    ensures p in t && t[p] != Dir ==> Childless(t, p)
  {
    if p in t && t[p] != Dir {
      forall q | q in t ensures !Under(p, q) {
        if Under(p, q) { AncestorsExist(t, p, q); }
      }
    }
  }

  // ----- what stays -----

  /** Everything outside the subtree of path is still there, unchanged. */
  ghost predicate OutsideKept(t: Tree, path: Path, after: Tree) {
    forall p :: p in t && p != path && !Under(path, p) ==> p in after && after[p] == t[p]
  }

  /** A successful deletion stays inside the tree it was given, whatever the links in it lead to, unless the path
      given is itself a link: the enumeration follows that one, and its target's contents are deleted. */
  lemma StaysInsideIff(t: Tree, path: Path, options: Options)
    requires WellFormed(t)
    ensures OutsideKept(t, path, Removed(t, path, options)) <==>
            !(path in t && t[path].Link? && exists p :: p in t && p != path && Under(t[path].target, p))
  {
    var after := Removed(t, path, options);
    if path in t && t[path].Link? {
      FilesAreLeaves(t, path);
      if p :| p in t && p != path && Under(t[path].target, p) {
        assert !Under(path, p) && p !in after;
      }
    }
  }

  /** The link L leads to the directory D, which holds a file. */
  const LINKED: Tree :=
    map[[] := Dir, ["D"] := Dir, ["D", "F"] := File(false), ["L"] := Link(["D"])]

  /** Deleting L can be done, and empties D. */
  lemma LinkedRootIsPossible(options: Options)
    ensures WellFormed(LINKED) && Possible(LINKED, ["L"], ["D"], options)
    ensures Removed(LINKED, ["L"], options) ==
            if options.keepRoot then LINKED - {["D", "F"]} else LINKED - {["D", "F"], ["L"]}
  {
    assert Parent(["D"]) == [] == Parent(["L"]) && Parent(["D", "F"]) == ["D"];
    assert ["D", "F"][..1] == ["D"];
    assert Under(["D"], ["D", "F"]);
  }

  /** The call on L alone succeeds, and the file in D is gone. */
  method LinkedRootIsFollowed(options: Options) returns (system: FileSystem, ok: bool)
    ensures ok && ["D", "F"] in LINKED && ["D", "F"] !in system.tree && !Under(["L"], ["D", "F"])
    ensures !OutsideKept(LINKED, ["L"], system.tree)
  {
    LinkedRootIsPossible(options);
    system := new FileSystem(LINKED, true);
    ok := system.RemoveDirectoryRecursive(["L"], options);
  }

  /** A link inside the tree goes, and neither its target nor anything below the target does. */
  lemma LinkTargetsSurvive(t: Tree, path: Path, options: Options, link: Path, p: Path)
    requires WellFormed(t) && link in t && t[link].Link? && Under(path, link) && (path in t ==> !t[path].Link?)
    requires p in t && (p == t[link].target || Under(t[link].target, p))
    requires t[link].target != path && !Under(path, t[link].target) && !Under(t[link].target, path)
    ensures link !in Removed(t, path, options)
    ensures p in Removed(t, path, options) && Removed(t, path, options)[p] == t[p]
  {
    SubtreesMeet(t[link].target, path, p);
  }

  /** Subtrees with a common node lie one within the other. */
  lemma SubtreesMeet(a: Path, b: Path, p: Path)
    requires p == a || Under(a, p)
    ensures p == b || Under(b, p) ==> a == b || Under(a, b) || Under(b, a)
  {
    assert p[..|a|] == a;
    if |b| <= |p| {
      assert |a| <= |b| ==> p[..|b|][..|a|] == p[..|a|];
      assert |b| <= |a| ==> p[..|a|][..|b|] == p[..|b|];
    }
  }
}
