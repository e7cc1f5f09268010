/** Publishing a staged tree into an existing output directory, with rollback. */
module RestoreTree {
  import opened Common
  import opened RestorePaths

  /** `inside`: whether following the link stays below the output root. */
  datatype Entry = File(data: string) | Link(text: string, inside: bool) | Directory

  /** Everything below the output root, by the parts of its path. */
  type Tree = map<Path, Entry>

  function Files(t: Tree): Tree {
    map p | p in t && !t[p].Directory? :: t[p]
  }

  /** No directory on the way to `path` is a symlink. */
  predicate Direct(t: Tree, path: Path) {
    forall k | 0 < k < |path| :: !(path[..k] in t && t[path[..k]].Link?)
  }

  lemma FilesWithDirectory(t: Tree, p: Path)
    requires p !in t
    ensures Files(t[p := Directory]) == Files(t)
  {}

  lemma FilesWithFile(t: Tree, p: Path, data: string)
    ensures Files(t[p := File(data)]) == Files(t)[p := File(data)]
  {}

  function RestoreDestination(t: Tree, value: string): Result<Path> {
    var safe := SafeRelative(value);
    if safe.Err? then safe
    else
      var path := safe.value;
      if path in t && t[path].Link? && !t[path].inside then Err("path escapes the output directory")
      else if !Direct(t, path) then Err("path traverses a symlink")
      else Ok(path)
  }

  // ---------------------------------------------------------------------------------------------
  // Where a name lands
  // ---------------------------------------------------------------------------------------------

  /** Where the operating system gets to from the directory `at`; a symlink leads wherever `leads` says, perhaps outside. */
  function Resolve(t: Tree, leads: Path -> Option<Path>, at: Path, components: Path): Option<Path>
    decreases |components|
  {
    if components == [] then Some(at)
    else
      var next := at + [components[0]];
      var reached := if next in t && t[next].Link? then leads(next) else Some(next);
      if reached.None? then None else Resolve(t, leads, reached.value, components[1..])
  }

  /** The place a call on `path` changes: symlinks on the way are followed, the last component is not. */
  function Place(t: Tree, leads: Path -> Option<Path>, path: Path): Option<Path>
    requires path != []
  {
    var parent := Resolve(t, leads, [], path[..|path| - 1]);
    if parent.None? then None else Some(parent.value + [path[|path| - 1]])
  }

  lemma {:induction false} ResolveDirect(t: Tree, leads: Path -> Option<Path>, path: Path, k: nat, n: nat)
    requires k <= n < |path| && Direct(t, path)
    ensures Resolve(t, leads, path[..k], path[k..n]) == Some(path[..n])
    decreases n - k
  {
    if k < n {
      assert path[..k] + [path[k..n][0]] == path[..k + 1] && path[k..n][1..] == path[k + 1..n];
      ResolveDirect(t, leads, path, k + 1, n);
    }
  }

  /** A walk that never leaves where no symlink leads inside met no symlink. */
  lemma {:induction false} ResolvedWithoutLinks(t: Tree, path: Path, k: nat, n: nat)
    requires k <= n < |path| && Resolve(t, _ => None, path[..k], path[k..n]).Some?
    ensures forall j | k < j <= n :: !(path[..j] in t && t[path[..j]].Link?)
    decreases n - k
  {
    if k < n {
      assert path[..k] + [path[k..n][0]] == path[..k + 1] && path[k..n][1..] == path[k + 1..n];
      ResolvedWithoutLinks(t, path, k + 1, n);
    }
  }

  lemma PlaceIsLexical(t: Tree, leads: Path -> Option<Path>, path: Path)
    requires path != [] && Direct(t, path)
    ensures Place(t, leads, path) == Some(path)
  {
    ResolveDirect(t, leads, path, 0, |path| - 1);
    assert path[0..|path| - 1] == path[..|path| - 1] && path[..0] == [];
    assert path == path[..|path| - 1] + [path[|path| - 1]];
  }

  /** The check made before publishing is exact: a name lands where it reads, wherever the symlinks of the output may
      lead, iff no directory on the way is one. */
  lemma DirectIffLandsWhereItReads(t: Tree, path: Path)
    requires path != []
    ensures Direct(t, path) <==> forall leads :: Place(t, leads, path) == Some(path)
  {
    if Direct(t, path) {
      forall leads ensures Place(t, leads, path) == Some(path) { PlaceIsLexical(t, leads, path); }
    } else if forall leads :: Place(t, leads, path) == Some(path) {
      assert Place(t, _ => None, path) == Some(path);
      assert path[0..|path| - 1] == path[..|path| - 1] && path[..0] == [];
      ResolvedWithoutLinks(t, path, 0, |path| - 1);
    }
  }

  datatype Staged = Staged(path: string, data: string)
  datatype Planned = Planned(target: Path, data: string, backup: Option<Entry>)

  /** The external calls that may fail, by the position of the staged file they serve. */
  datatype Call =
    | CopyBackup | MakeDirectory(depth: nat) | ChmodDirectory | Replace | ChmodFile | ChmodOutput
    | UndoUnlink | UndoReplace | RemoveDirectory

  predicate DirectoryAt(t: Tree, path: Path) {
    path in t && t[path].Directory?
  }

  /** A plan entry keeps what stood at the target, if that was a file or a symlink. */
  predicate BacksUp(t: Tree, e: Planned) {
    e.backup == if e.target in Files(t) then Some(t[e.target]) else None
  }

  /** The plan made for `staged` while the output is `t`. */
  predicate IsPlanFor(t: Tree, staged: seq<Staged>, entries: seq<Planned>) {
    && |entries| == |staged|
    && forall i | 0 <= i < |staged| ::
         && RestoreDestination(t, staged[i].path) == Ok(entries[i].target) && !DirectoryAt(t, entries[i].target)
         && entries[i].data == staged[i].data && BacksUp(t, entries[i])
  }

  /** Targets of files from one directory tree: all different, and none is a directory on the way to another. */
  predicate Independent(entries: seq<Planned>) {
    forall i, j | 0 <= i < |entries| && 0 <= j < |entries| && i != j :: !(entries[i].target <= entries[j].target)
  }

  predicate ComesFromATree(staged: seq<Staged>) {
    forall i, j | 0 <= i < |staged| && 0 <= j < |staged| && i != j ::
      var a, b := SafeRelative(staged[i].path), SafeRelative(staged[j].path);
      a.Ok? && b.Ok? ==> !(a.value <= b.value)
  }

  /** Some directory on the way to the target is a plain file. */
  predicate BlockedByFile(t: Tree, path: Path) {
    exists k | 0 < k < |path| :: path[..k] in t && t[path[..k]].File?
  }

  /** No plain file stands in the way of the first `n` targets. */
  predicate Unblocked(t: Tree, entries: seq<Planned>, n: nat)
    requires n <= |entries|
  {
    n == 0 || (Unblocked(t, entries, n - 1) && !BlockedByFile(t, entries[n - 1].target))
  }

  lemma {:induction false} UnblockedMeaning(t: Tree, entries: seq<Planned>, n: nat, k: nat)
    requires k < n <= |entries| && Unblocked(t, entries, n)
    ensures !BlockedByFile(t, entries[k].target)
  {
    if k < n - 1 { UnblockedMeaning(t, entries, n - 1, k); }
  }

  lemma BlockedMeaning(t: Tree, entries: seq<Planned>, k: nat)
    requires k < |entries|
    ensures BlockedByFile(t, entries[k].target) ==> !Unblocked(t, entries, |entries|)
  {
    if Unblocked(t, entries, |entries|) { UnblockedMeaning(t, entries, |entries|, k); }
  }

  /** Publishing can go through: a plan exists, and no target lies below a plain file. */
  ghost predicate Publishable(t: Tree, staged: seq<Staged>) {
    exists entries :: IsPlanFor(t, staged, entries) && Unblocked(t, entries, |entries|)
  }

  lemma PlansAreUnique(t: Tree, staged: seq<Staged>, a: seq<Planned>, b: seq<Planned>)
    requires IsPlanFor(t, staged, a) && IsPlanFor(t, staged, b)
    ensures a == b
  {
    forall i | 0 <= i < |a| ensures a[i] == b[i] {
      assert RestoreDestination(t, staged[i].path) == Ok(a[i].target);
    }
  }

  lemma PlansAreIndependent(t: Tree, staged: seq<Staged>, entries: seq<Planned>)
    requires IsPlanFor(t, staged, entries) && ComesFromATree(staged)
    ensures Independent(entries)
  {
    forall i | 0 <= i < |entries| ensures SafeRelative(staged[i].path) == Ok(entries[i].target) {
      assert RestoreDestination(t, staged[i].path) == Ok(entries[i].target);
    }
  }

  lemma PlansAreDirect(t: Tree, staged: seq<Staged>, entries: seq<Planned>)
    requires IsPlanFor(t, staged, entries)
    ensures AllDirect(t, entries)
  {
    forall i | 0 <= i < |entries| ensures entries[i].target != [] && Direct(t, entries[i].target) {
      assert RestoreDestination(t, staged[i].path) == Ok(entries[i].target);
      AcceptedParts(staged[i].path);
    }
  }

  ghost predicate FaultFree(fails: (nat, Call) -> bool) {
    forall n, c :: !fails(n, c)
  }

  /** No call fails that takes a replacement back. */
  ghost predicate UndoWorks(fails: (nat, Call) -> bool) {
    forall n :: !fails(n, UndoUnlink) && !fails(n, UndoReplace)
  }

  /** Files and symlinks of `t` with the first `n` staged files over them. */
  function Overlaid(t: Tree, entries: seq<Planned>, n: nat): Tree
    requires n <= |entries|
  {
    if n == 0 then Files(t) else Overlaid(t, entries, n - 1)[entries[n - 1].target := File(entries[n - 1].data)]
  }

  lemma {:induction false} OverlaidElsewhere(t: Tree, entries: seq<Planned>, n: nat, p: Path)
    requires n <= |entries| && forall i | 0 <= i < n :: entries[i].target != p
    ensures p in Overlaid(t, entries, n) <==> p in Files(t)
    ensures p in Files(t) ==> Overlaid(t, entries, n)[p] == t[p]
  {
    if n > 0 { OverlaidElsewhere(t, entries, n - 1, p); }
  }

  /** Each staged file stands at its own target; with `OverlaidElsewhere`, all else is as it was. */
  lemma {:induction false} OverlaidMeaning(t: Tree, entries: seq<Planned>, n: nat, i: nat)
    requires i < n <= |entries| && Independent(entries)
    ensures entries[i].target in Overlaid(t, entries, n)
    ensures Overlaid(t, entries, n)[entries[i].target] == File(entries[i].data)
  {
    if i < n - 1 {
      OverlaidMeaning(t, entries, n - 1, i);
      assert !(entries[i].target <= entries[n - 1].target);
    }
  }

  /** Publishing adds no symlinks: a way that was direct stays so at every point of the run. */
  lemma StaysDirect(t: Tree, now: Tree, entries: seq<Planned>, n: nat, path: Path)
    requires n <= |entries| && Files(now) == Overlaid(t, entries, n) && Direct(t, path)
    ensures Direct(now, path)
  {
    forall k | 0 < k < |path| ensures !(path[..k] in now && now[path[..k]].Link?) {
      if path[..k] in Files(now) && Files(now)[path[..k]].Link? { OverlaidAddsNoLinks(t, entries, n, path[..k]); }
    }
  }

  lemma {:induction false} OverlaidAddsNoLinks(t: Tree, entries: seq<Planned>, n: nat, p: Path)
    requires n <= |entries| && p in Overlaid(t, entries, n) && Overlaid(t, entries, n)[p].Link?
    ensures p in t && t[p].Link?
  {
    if n > 0 { OverlaidAddsNoLinks(t, entries, n - 1, p); }
  }

  function Undone(now: Tree, e: Planned): Tree {
    var without := now - {e.target};
    if e.backup.Some? then without[e.target := e.backup.value] else without
  }

  /** Putting the backup of the last replaced file back gives the state before it was replaced. */
  lemma UndoOne(t: Tree, entries: seq<Planned>, n: nat, now: Tree)
    requires n < |entries| && Independent(entries) && BacksUp(t, entries[n]) && Files(now) == Overlaid(t, entries, n + 1)
    ensures Files(Undone(now, entries[n])) == Overlaid(t, entries, n)
  {
    var e := entries[n];
    forall i | 0 <= i < n ensures entries[i].target != e.target {
      assert !(entries[i].target <= entries[n].target);
    }
    OverlaidElsewhere(t, entries, n, e.target);
    assert forall q | q != e.target :: q in Files(Undone(now, e)) <==> q in Files(now);
    assert Files(Undone(now, e)).Keys == Overlaid(t, entries, n).Keys;
  }

  lemma FilesWithout(t: Tree, p: Path)
    ensures Files(t - {p}) == Files(t) - {p}
  {}

  lemma RemovalKeepsDirect(t: Tree, p: Path, path: Path)
    requires Direct(t, path)
    ensures Direct(t - {p}, path)
  {}

  /** Taking back entry `n` failed: it stands as published, or its target is gone and the backup not yet in place. */
  predicate HalfUndone(t: Tree, now: Tree, entries: seq<Planned>, n: nat)
    requires n < |entries|
  {
    || Files(now) == Overlaid(t, entries, n + 1)
    || (entries[n].backup.Some? && Files(now) == Overlaid(t, entries, n + 1) - {entries[n].target})
  }

  lemma {:induction false} OverlaidIsOldOrStaged(t: Tree, entries: seq<Planned>, n: nat, p: Path)
    requires n <= |entries|
    ensures p in Files(t) ==> p in Overlaid(t, entries, n)
    ensures p in Overlaid(t, entries, n) ==>
              || (p in Files(t) && Overlaid(t, entries, n)[p] == t[p])
              || exists i | 0 <= i < n :: entries[i].target == p && Overlaid(t, entries, n)[p] == File(entries[i].data)
  {
    if n > 0 {
      OverlaidIsOldOrStaged(t, entries, n - 1, p);
      if p == entries[n - 1].target { assert Overlaid(t, entries, n)[p] == File(entries[n - 1].data); }
    }
  }

  /** When the rollback itself fails, at most the one file it was putting back is missing; every other file is the old one
      or the staged one, whole. */
  lemma OneFileCanBeLost(t: Tree, now: Tree, entries: seq<Planned>, n: nat, p: Path)
    requires n < |entries| && HalfUndone(t, now, entries, n)
    ensures p in Files(t) && p !in Files(now) ==> p == entries[n].target
    ensures p in Files(now) ==>
              || (p in Files(t) && Files(now)[p] == t[p])
              || exists i | 0 <= i <= n :: entries[i].target == p && Files(now)[p] == File(entries[i].data)
  {
    OverlaidIsOldOrStaged(t, entries, n + 1, p);
  }

  /** Directories made on the way never stand where a staged file goes. */
  predicate NoNewDirectoryAtTargets(before: Tree, now: Tree, entries: seq<Planned>) {
    forall j | 0 <= j < |entries| :: DirectoryAt(now, entries[j].target) ==> DirectoryAt(before, entries[j].target)
  }

  /** The first `n` staged files are in place, and nothing but directories has been added. */
  predicate Published(before: Tree, now: Tree, entries: seq<Planned>, n: nat)
    requires n <= |entries|
  {
    Files(now) == Overlaid(before, entries, n) && NoNewDirectoryAtTargets(before, now, entries)
  }

  lemma OneMorePublished(before: Tree, reached: Tree, now: Tree, entries: seq<Planned>, i: nat)
    requires i < |entries| && Independent(entries) && Published(before, reached, entries, i)
    requires Files(now) == Files(reached)[entries[i].target := File(entries[i].data)]
    requires forall p | DirectoryAt(now, p) :: p < entries[i].target || DirectoryAt(reached, p)
    ensures Published(before, now, entries, i + 1)
  {
    forall j | 0 <= j < |entries|
      ensures DirectoryAt(now, entries[j].target) ==> DirectoryAt(before, entries[j].target)
    {
      if j != i { assert !(entries[j].target <= entries[i].target); }
    }
  }

  /** Files published earlier do not get in the way of later ones. */
  lemma BlockedAsBefore(before: Tree, now: Tree, entries: seq<Planned>, i: nat)
    requires i < |entries| && Independent(entries) && Published(before, now, entries, i)
    ensures BlockedByFile(now, entries[i].target) <==> BlockedByFile(before, entries[i].target)
  {
    var path := entries[i].target;
    forall k | 0 < k < |path|
      ensures (path[..k] in now && now[path[..k]].File?) <==> (path[..k] in before && before[path[..k]].File?)
    {
      var p := path[..k];
      forall j | 0 <= j < i ensures entries[j].target != p {
        assert !(entries[j].target <= path);
      }
      OverlaidElsewhere(before, entries, i, p);
      assert p in Files(now) <==> p in Overlaid(before, entries, i);
    }
  }

  lemma DirectPrefix(t: Tree, path: Path, k: nat)
    requires k <= |path| && Direct(t, path)
    ensures Direct(t, path[..k])
  {
    assert forall j | 0 < j < k :: path[..k][..j] == path[..j];
  }

  predicate DirectNames(t: Tree, names: seq<Path>) {
    forall d | d in names :: d != [] && Direct(t, d)
  }

  lemma PrefixesAreDirect(t: Tree, path: Path, names: seq<Path>, more: seq<Path>)
    requires Direct(t, path) && DirectNames(t, names) && forall d | d in more :: [] < d <= path
    ensures DirectNames(t, names + more)
  {
    forall d | d in names + more ensures d != [] && Direct(t, d) {
      if d in more {
        assert d == path[..|d|];
        DirectPrefix(t, path, |d|);
      }
    }
  }

  lemma PrefixSnoc(entries: seq<Planned>, i: nat)
    requires i < |entries|
    ensures entries[..i + 1] == entries[..i] + [entries[i]] && entries[..i + 1] <= entries && entries[..i] <= entries
  {}

  /** Every name the run will touch is direct. */
  predicate AllDirect(t: Tree, entries: seq<Planned>) {
    forall i | 0 <= i < |entries| :: entries[i].target != [] && Direct(t, entries[i].target)
  }

  class Output {
    var tree: Tree
    /** Something outside the output root has been changed. */
    var escaped: bool
    const leads: Path -> Option<Path>

    constructor (t: Tree, leads: Path -> Option<Path>)
      ensures tree == t && !escaped && this.leads == leads
    {
      tree, escaped, this.leads := t, false, leads;
    }

    /** Put `e` where the name lands. */
    method Put(path: Path, e: Entry)
      requires path != []
      modifies this
      ensures var place := Place(old(tree), leads, path);
              if place.Some? then tree == old(tree)[place.value := e] && escaped == old(escaped)
              else tree == old(tree) && escaped
    {
      var place := Place(tree, leads, path);
      if place.Some? {
        tree := tree[place.value := e];
      } else {
        escaped := true;
      }
    }

    /** Remove what the name lands on. */
    method Remove(path: Path)
      requires path != []
      modifies this
      ensures var place := Place(old(tree), leads, path);
              if place.Some? then tree == old(tree) - {place.value} && escaped == old(escaped)
              else tree == old(tree) && escaped
    {
      var place := Place(tree, leads, path);
      if place.Some? {
        tree := tree - {place.value};
      } else {
        escaped := true;
      }
    }

    /** Take back the replacement of entry `n`. */
    method Undo(ghost t: Tree, ghost entries: seq<Planned>, e: Planned, n: nat, fails: (nat, Call) -> bool) returns (raised: bool)
      requires n < |entries| && e == entries[n] && Independent(entries) && BacksUp(t, e)
      requires Files(tree) == Overlaid(t, entries, n + 1) && e.target != [] && Direct(t, e.target)
      modifies this
      ensures escaped == old(escaped) && (UndoWorks(fails) ==> !raised)
      ensures if raised then HalfUndone(t, tree, entries, n) else Files(tree) == Overlaid(t, entries, n)
    {
      if fails(n, UndoUnlink) {
        return true;
      }
      StaysDirect(t, tree, entries, n + 1, e.target);
      PlaceIsLexical(tree, leads, e.target);
      FilesWithout(tree, e.target);
      UndoOne(t, entries, n, tree);
      RemovalKeepsDirect(tree, e.target, e.target);
      Remove(e.target);
      if e.backup.Some? {
        if fails(n, UndoReplace) {
          return true;
        }
        PlaceIsLexical(tree, leads, e.target);
        Put(e.target, e.backup.value);
      }
      return false;
    }

    /** First every target is checked and backed up; nothing in the output changes. */
    method Plan(staged: seq<Staged>, fails: (nat, Call) -> bool) returns (r: Result<seq<Planned>>)
      ensures r.Ok? ==> IsPlanFor(tree, staged, r.value)
      ensures FaultFree(fails) && r.Err? ==> forall entries :: !IsPlanFor(tree, staged, entries)
    {
      var entries: seq<Planned> := [];
      for i := 0 to |staged|
        invariant IsPlanFor(tree, staged[..i], entries)
      {
        var target := RestoreDestination(tree, staged[i].path);
        if target.Err? {
          return Err(target.reason);
        }
        var backup: Option<Entry> := None;
        if target.value in tree {
          if tree[target.value].Directory? {
            return Err("restore target is a directory");
          }
          if fails(i, CopyBackup) {
            return Err("backup failed");
          }
          backup := Some(tree[target.value]);
        }
        entries := entries + [Planned(target.value, staged[i].data, backup)];
      }
      assert staged[..|staged|] == staged;
      return Ok(entries);
    }

    /** `mkdir(parents=True, exist_ok=True)`: may stop halfway, leaving directories behind. */
    method MakeParents(path: Path, n: nat, fails: (nat, Call) -> bool) returns (raised: bool, created: seq<Path>)
      requires Direct(tree, path)
      modifies this
      ensures escaped == old(escaped) && Direct(tree, path)
      ensures forall d | d in created :: [] < d <= path
      ensures Files(tree) == Files(old(tree))
      ensures forall p | p in old(tree) :: p in tree && tree[p] == old(tree)[p]
      ensures forall p | p in tree && p !in old(tree) :: p < path && tree[p] == Directory
      ensures BlockedByFile(old(tree), path) ==> raised
      ensures FaultFree(fails) && !BlockedByFile(old(tree), path) ==> !raised
    {
      raised, created := false, [];
      var k := 1;
      while k < |path|
        invariant 1 <= k && (k <= |path| || path == [])
        invariant escaped == old(escaped) && Direct(tree, path)
        invariant forall d | d in created :: [] < d <= path
        invariant Files(tree) == Files(old(tree))
        invariant forall p | p in old(tree) :: p in tree && tree[p] == old(tree)[p]
        invariant forall p | p in tree && p !in old(tree) :: p < path && tree[p] == Directory
        invariant forall j | 0 < j < k && j < |path| :: !(path[..j] in old(tree) && old(tree)[path[..j]].File?)
      {
        var directory := path[..k];
        if directory in tree {
          if tree[directory].File? {
            return true, created;
          }
        } else {
          if fails(n, MakeDirectory(k)) {
            return true, created;
          }
          DirectPrefix(tree, path, k);
          PlaceIsLexical(tree, leads, directory);
          FilesWithDirectory(tree, directory);
          Put(directory, Directory);
          if fails(n, ChmodDirectory) {
            return true, created;
          }
          created := created + [directory];
        }
        k := k + 1;
      }
    }

    /** Undo the replacements, last first; a fault stops at the entry `n`. */
    method UndoAll(ghost t: Tree, ghost entries: seq<Planned>, applied: seq<Planned>, fails: (nat, Call) -> bool)
      returns (raised: bool, n: nat)
      requires applied <= entries && Independent(entries) && forall i | 0 <= i < |entries| :: BacksUp(t, entries[i])
      requires Files(tree) == Overlaid(t, entries, |applied|) && AllDirect(t, entries)
      modifies this
      ensures escaped == old(escaped) && (UndoWorks(fails) ==> !raised)
      ensures raised ==> n < |entries|
      ensures if raised then HalfUndone(t, tree, entries, n) else Files(tree) == Files(t)
    {
      n := |applied|;
      while n > 0
        invariant n <= |applied| && Files(tree) == Overlaid(t, entries, n) && escaped == old(escaped)
      {
        n := n - 1;
        assert applied[n] == entries[n];
        raised := Undo(t, entries, applied[n], n, fails);
        if raised {
          return;
        }
      }
      return false, 0;
    }

    /** Drop the created directories that are empty again; faults are ignored. */
    method DropDirectories(ghost t: Tree, created: seq<Path>, fails: (nat, Call) -> bool)
      requires Files(tree) == Files(t) && DirectNames(t, created)
      modifies this
      ensures Files(tree) == Files(t) && escaped == old(escaped)
    {
      var k: nat := |created|;
      while k > 0
        invariant k <= |created| && Files(tree) == Files(t) && escaped == old(escaped)
      {
        k := k - 1;
        var directory := created[k];
        if DirectoryAt(tree, directory) && (forall p | p in tree :: !(directory < p)) && !fails(k, RemoveDirectory) {
          StaysDirect(t, tree, [], 0, directory);
          PlaceIsLexical(tree, leads, directory);
          FilesWithout(tree, directory);
          Remove(directory);
        }
      }
    }

    /** What the handler does after a fault. It may fail in its turn. */
    method RollBack(ghost t: Tree, ghost entries: seq<Planned>, applied: seq<Planned>, created: seq<Path>,
                    fails: (nat, Call) -> bool) returns (raised: bool, n: nat)
      requires applied <= entries && Independent(entries) && forall i | 0 <= i < |entries| :: BacksUp(t, entries[i])
      requires Files(tree) == Overlaid(t, entries, |applied|) && AllDirect(t, entries) && DirectNames(t, created)
      modifies this
      ensures escaped == old(escaped) && (UndoWorks(fails) ==> !raised)
      ensures raised ==> n < |entries|
      ensures if raised then HalfUndone(t, tree, entries, n) else Files(tree) == Files(t)
    {
      raised, n := UndoAll(t, entries, applied, fails);
      if !raised {
        DropDirectories(t, created, fails);
      }
    }

    /** One staged file: its parents, the replacement, and its mode. `replaced` tells whether the target was touched. */
    method PublishOne(e: Planned, i: nat, fails: (nat, Call) -> bool) returns (raised: bool, replaced: bool, created: seq<Path>)
      requires e.target != [] && Direct(tree, e.target)
      modifies this
      ensures escaped == old(escaped) && forall d | d in created :: [] < d <= e.target
      ensures Files(tree) == if replaced then Files(old(tree))[e.target := File(e.data)] else Files(old(tree))
      ensures !raised ==> replaced && !BlockedByFile(old(tree), e.target)
      ensures forall p | DirectoryAt(tree, p) :: p < e.target || DirectoryAt(old(tree), p)
      ensures FaultFree(fails) && !DirectoryAt(old(tree), e.target) ==>
                (raised <==> BlockedByFile(old(tree), e.target))
    {
      raised, created := MakeParents(e.target, i, fails);
      replaced := false;
      if raised || DirectoryAt(tree, e.target) || fails(i, Replace) {
        return true, false, created;
      }
      PlaceIsLexical(tree, leads, e.target);
      FilesWithFile(tree, e.target, e.data);
      Put(e.target, File(e.data));
      return fails(i, ChmodFile), true, created;
    }

    /** One turn of the applying loop, when the first `i` files are in place. */
    method PublishNext(ghost before: Tree, ghost entries: seq<Planned>, e: Planned, i: nat, fails: (nat, Call) -> bool)
      returns (raised: bool, replaced: bool, made: seq<Path>)
      requires i < |entries| && e == entries[i] && Independent(entries) && AllDirect(before, entries)
      requires Published(before, tree, entries, i) && !DirectoryAt(before, e.target)
      modifies this
      ensures escaped == old(escaped) && forall d | d in made :: [] < d <= e.target
      ensures Files(tree) == Overlaid(before, entries, if replaced then i + 1 else i)
      ensures !raised ==> replaced && Published(before, tree, entries, i + 1) && !BlockedByFile(before, e.target)
      ensures FaultFree(fails) ==> (raised <==> BlockedByFile(before, e.target))
    {
      ghost var reached := tree;
      BlockedAsBefore(before, tree, entries, i);
      StaysDirect(before, tree, entries, i, e.target);
      raised, replaced, made := PublishOne(e, i, fails);
      if replaced {
        OneMorePublished(before, reached, tree, entries, i);
      }
    }

    /** The applying loop: `applied` says how far it came, also when it raised. */
    method PublishAll(entries: seq<Planned>, fails: (nat, Call) -> bool)
      returns (raised: bool, applied: seq<Planned>, created: seq<Path>)
      requires Independent(entries) && forall i | 0 <= i < |entries| :: !DirectoryAt(tree, entries[i].target)
      requires AllDirect(tree, entries)
      modifies this
      ensures escaped == old(escaped) && DirectNames(old(tree), created)
      ensures applied <= entries && Files(tree) == Overlaid(old(tree), entries, |applied|)
      ensures !raised ==> applied == entries && Unblocked(old(tree), entries, |entries|)
      ensures FaultFree(fails) && raised ==> !Unblocked(old(tree), entries, |entries|)
    {
      ghost var before := tree;
      applied, created := [], [];
      for i := 0 to |entries|
        invariant applied == entries[..i] && Published(before, tree, entries, i)
        invariant Unblocked(before, entries, i)
        invariant escaped == old(escaped) && DirectNames(before, created)
      {
        var failed, replaced, made := PublishNext(before, entries, entries[i], i, fails);
        PrefixesAreDirect(before, entries[i].target, created, made);
        PrefixSnoc(entries, i);
        created := created + made;
        if replaced {
          applied := applied + [entries[i]];
        }
        if failed {
          BlockedMeaning(before, entries, i);
          return true, applied, created;
        }
      }
      return fails(|entries|, ChmodOutput), applied, created;
    }

    /** Publish the staged files. However publishing ends, no file or symlink of the output is left half way, unless the
        rollback fails in its turn, and then at most one. */
    method MergeStaging(staged: seq<Staged>, fails: (nat, Call) -> bool) returns (raised: bool, ghost entries: seq<Planned>)
      requires ComesFromATree(staged)
      modifies this
      ensures escaped == old(escaped)
      ensures raised && UndoWorks(fails) ==> Files(tree) == Files(old(tree))
      ensures raised && Files(tree) != Files(old(tree)) ==>
                IsPlanFor(old(tree), staged, entries) && exists n | 0 <= n < |entries| :: HalfUndone(old(tree), tree, entries, n)
      ensures !raised ==> IsPlanFor(old(tree), staged, entries) && Independent(entries)
                          && Unblocked(old(tree), entries, |entries|)
                          && Files(tree) == Overlaid(old(tree), entries, |entries|)
      ensures FaultFree(fails) ==> (raised <==> !Publishable(old(tree), staged))
    {
      var planned := Plan(staged, fails);
      if planned.Err? {
        return true, [];
      }
      entries := planned.value;
      PlansAreIndependent(tree, staged, entries);
      PlansAreDirect(tree, staged, entries);
      forall other | IsPlanFor(tree, staged, other) ensures other == entries {
        PlansAreUnique(tree, staged, other, entries);
      }
      var applied, created;
      raised, applied, created := PublishAll(planned.value, fails);
      if raised {
        var failed, n := RollBack(old(tree), entries, applied, created, fails);
      }
    }
  }
}
