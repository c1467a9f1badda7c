/** The installer as it works: a run's lists grow and the tree changes step by step, and a failure
    hands over to the handler. Each method is tied to the function that says what it does. */
module Installer {
  import opened Basics
  import opened InstallTree
  import opened InstallRun

  function Backwards(ps: seq<Path>): (r: seq<Path>)
    ensures |r| == |ps| && forall i :: 0 <= i < |ps| ==> r[i] == ps[|ps| - 1 - i]
  {
    seq(|ps|, i requires 0 <= i < |ps| => ps[|ps| - 1 - i])
  }

  class Installer {
    var tree: Tree
    var moved: seq<Path>
    var written: seq<Path>
    var created: seq<Path>
    var entries: seq<Entry>
    var left: nat
    var failed: bool
    var junk: Option<Path>

    function State(): Run reads this {
      Run(tree, moved, written, created, entries, left, failed, junk)
    }

    /** A tree and the number of steps the disk will still carry out. */
    constructor (t: Tree, steps: nat)
      ensures tree == t && left == steps
    {
      tree, moved, written, created, entries := t, [], [], [], [];
      left, failed, junk := steps, false, None;
    }

    method Move(d: Path)
      modifies this
      ensures State() == MoveOne(old(State()), d)
    {
      if failed || left == 0 {
        failed := true;
      } else {
        tree, moved, left := Rename(tree, d, Bak(d)), moved + [d], left - 1;
      }
    }

    /** Moves the files in the way to their backups, in order, until one cannot be moved. */
    method MoveAway(ds: seq<Path>)
      modifies this
      ensures State() == MoveAll(old(State()), ds, 0)
    {
      var i := 0;
      while i < |ds| && !failed
        invariant i <= |ds|
        invariant MoveAll(State(), ds, i) == MoveAll(old(State()), ds, 0)
      {
        ghost var r := State();
        Move(ds[i]);
        MoveAllNext(r, State(), ds, i);
        i := i + 1;
      }
    }

    /** Walks up from a folder to the first one that exists. */
    method AbsentAbove(p: Path) returns (missing: seq<Path>)
      ensures Backwards(missing) == Missing(tree, p)
    {
      var parent := p;
      missing := [];
      while parent !in tree && parent != []
        invariant Missing(tree, p) == Missing(tree, parent) + Backwards(missing)
        decreases |parent|
      {
        ghost var were := missing;
        missing := missing + [parent];
        assert Backwards(missing) == [parent] + Backwards(were);
        parent := Parent(parent);
      }
    }

    /** Makes the folders a file needs, outermost first. */
    method MakeFolders(p: Path)
      modifies this
      ensures State() == MakeAll(old(State()), Folders(old(tree), p), 0)
    {
      var missing := [];
      if p != [] { missing := AbsentAbove(Parent(p)); }
      ghost var dirs := Folders(old(tree), p);
      assert Backwards(missing) == dirs;
      assert |missing| == |dirs|;
      var i := |missing|;
      while i > 0 && !failed
        invariant 0 <= i <= |missing|
        invariant MakeAll(State(), dirs, |missing| - i) == MakeAll(old(State()), dirs, 0)
      {
        var dir := missing[i - 1];
        assert dir == dirs[|missing| - i];
        if left == 0 || dir == [] || dir in tree || Get(tree, Parent(dir)) != Some(Dir) {
          failed := true;
        } else {
          tree, created, left := tree[dir := Dir], created + [dir], left - 1;
        }
        i := i - 1;
      }
    }

    method WriteFile(p: Path, c: Content, torn: bool)
      modifies this
      ensures State() == Write(old(State()), p, c, torn)
    {
      if failed || !CanWrite(tree, p) {
        failed := true;
      } else if left > 0 {
        tree, left := tree[p := File(c)], left - 1;
      } else {
        failed := true;
        if torn { tree, junk := tree[p := File(Torn)], Some(p); }
      }
    }

    /** Makes a file's folders and writes its temporary. */
    method StageFile(item: Item, job: Job)
      modifies this
      ensures State() == Stage(old(State()), item, job)
    {
      var tmp := Tmp(item.dest, job.plan.pid);
      MakeFolders(item.dest);
      WriteFile(tmp, item.content, job.torn);
      if failed { return; }
      if left == 0 { failed, junk := true, Some(tmp); return; }
      left := left - 1;
      if item.dest !in Owned(job.previous.files) { written := written + [item.dest]; }
    }

    /** Puts the temporary in place and records the file. */
    method PutFile(item: Item, job: Job)
      modifies this
      ensures State() == Put(old(State()), item, job)
    {
      if failed { return; }
      var tmp := Tmp(item.dest, job.plan.pid);
      if left == 0 || Get(tree, item.dest) == Some(Dir) { failed, junk := true, Some(tmp); return; }
      tree, left := (tree - {tmp})[item.dest := File(item.content)], left - 1;
      if left == 0 { failed := true; return; }
      var backup := if item.dest in job.moving then Some(Bak(item.dest)) else FormerBackup(job.previous.files, item.dest);
      entries, left := entries + [Entry(item.dest, job.hash(item.content), backup)], left - 1;
    }

    method PlaceFiles(job: Job)
      modifies this
      ensures State() == PlaceAll(old(State()), job.plan.items, 0, job)
    {
      var i, items := 0, job.plan.items;
      while i < |items| && !failed
        invariant i <= |items|
        invariant PlaceAll(State(), items, i, job) == PlaceAll(old(State()), items, 0, job)
      {
        StageFile(items[i], job);
        PutFile(items[i], job);
        i := i + 1;
      }
    }

    /** Removes the unchanged files of the former install that are no longer shipped. */
    method DropFormer(job: Job)
      modifies this
      ensures State() == DropOld(old(State()), job.previous.files, 0, Dests(job.plan.items), job.hash)
    {
      var i, files, shipped := 0, job.previous.files, Dests(job.plan.items);
      while i < |files| && !failed
        invariant i <= |files|
        invariant DropOld(State(), files, i, shipped, job.hash) == DropOld(old(State()), files, 0, shipped, job.hash)
      {
        if files[i].path !in shipped && Unchanged(tree, files[i], job.hash) {
          if left == 0 { failed := true; } else { tree, left := tree - {files[i].path}, left - 1; }
        }
        i := i + 1;
      }
    }

    method EraseWritten()
      modifies this`tree
      ensures tree == Erase(old(tree), written, 0)
    {
      var i := 0;
      while i < |written|
        invariant i <= |written| && Erase(tree, written, i) == Erase(old(tree), written, 0)
      {
        tree := tree - {written[i]};
        i := i + 1;
      }
    }

    method PutBack()
      modifies this`tree
      ensures tree == Restore(old(tree), moved, 0)
    {
      var i := |moved|;
      while i > 0
        invariant 0 <= i <= |moved| && tree == Restore(old(tree), moved, i)
      {
        i := i - 1;
        RestoreNext(old(tree), moved, i);
        tree := Rename(tree, Bak(moved[i]), moved[i]);
      }
    }

    method PruneFolders()
      modifies this`tree
      ensures tree == Prune(old(tree), created, 0)
    {
      var i := |created|;
      while i > 0
        invariant 0 <= i <= |created| && tree == Prune(old(tree), created, i)
      {
        i := i - 1;
        tree := Rmdir(tree, created[i]);
      }
    }

    /** The handler: removes what was written, puts back what was moved, removes folders left empty. */
    method HandleFailure()
      modifies this`tree
      ensures tree == Rollback(old(State()))
    {
      EraseWritten();
      PutBack();
      PruneFolders();
    }

    /** Collects the files in the way; says no when a backup of one of them is in the way itself. */
    method CollectBackups(items: seq<Item>, owned: set<Path>) returns (ds: seq<Path>, blocked: bool)
      ensures blocked == Blocked(tree, InTheWay(tree, items, owned))
      ensures !blocked ==> ds == InTheWay(tree, items, owned)
    {
      ds, blocked := [], false;
      var i := 0;
      assert items[..|items|] == items;
      while i < |items|
        invariant i <= |items| && ds == InTheWay(tree, items[..i], owned) && !Blocked(tree, ds)
      {
        var d := items[i].dest;
        if d !in owned && d in tree && Bak(d) in tree {
          BlockedAlready(tree, items, owned, i);
          return ds, true;
        }
        CollectNext(tree, items, owned, i);
        if d !in owned && d in tree && d !in ds { ds := ds + [d]; }
        i := i + 1;
      }
    }

    /** The body of the try block. */
    method Try(job: Job)
      modifies this
      ensures State() == Attempt(old(State()), job)
    {
      MoveAway(job.moving);
      PlaceFiles(job);
      DropFormer(job);
      WriteFile(job.plan.record, Record(Manifest(entries, created)), job.torn);
    }

    /** The try block and its handler. */
    method Perform(job: Job) returns (outcome: Outcome)
      modifies this
      ensures outcome == Ended(Attempt(Begin(old(tree), old(left), job.previous), job)) && tree == outcome.tree
    {
      moved, written, created, entries, failed, junk := [], [], job.previous.dirs, [], false, None;
      Try(job);
      if failed {
        HandleFailure();
        outcome := Failed(tree, junk);
      } else {
        outcome := Installed(tree);
      }
    }

    /** An install: refused with nothing touched, failed and undone, or done. */
    method Install(plan: Plan, hash: Content -> int, torn: bool) returns (outcome: Outcome)
      modifies this
      ensures outcome == InstallRun.Install(old(tree), plan, hash, old(left), torn)
      ensures tree == if outcome.Refused? then old(tree) else outcome.tree
    {
      var loaded := Load(tree, plan.record);
      if loaded.Invalid? { return Refused; }
      var previous := if loaded.Found? then loaded.manifest else Manifest([], []);
      var moving, blocked := CollectBackups(plan.items, Owned(previous.files));
      if blocked { return Refused; }
      var job := Job(plan, hash, torn, previous, moving);
      InstallIs(tree, plan, hash, left, torn, previous);
      outcome := Perform(job);
    }

    /** Takes one recorded file out, unless it changed, and puts the displaced file back. */
    method UndoEntry(e: Entry, hash: Content -> int)
      modifies this`tree
      ensures tree == Undo(old(tree), e, hash)
    {
      if e.path in tree {
        if !Unchanged(tree, e, hash) { return; }
        tree := tree - {e.path};
      }
      assert tree == old(tree) - {e.path};
      if e.backup.Some? && e.backup.value in tree && e.path !in tree {
        tree := Rename(tree, e.backup.value, e.path);
      }
    }

    method RemoveFolder(dir: Path)
      modifies this`tree
      ensures tree == RemoveDir(old(tree), dir)
    {
      if Get(tree, dir) == Some(Dir) {
        tree := DropCache(tree, dir, CACHES[0]);
        tree := DropCache(tree, dir, CACHES[1]);
        tree := Rmdir(tree, dir);
      }
    }

    /** An uninstall; without a usable manifest nothing is touched. */
    method Uninstall(record: Path, hash: Content -> int) returns (done: bool)
      modifies this`tree
      ensures done == InstallRun.Uninstall(old(tree), record, hash).Some?
      ensures tree == if done then InstallRun.Uninstall(old(tree), record, hash).value else old(tree)
    {
      var loaded := Load(tree, record);
      if !loaded.Found? { return false; }
      var m := loaded.manifest;
      var i := |m.files|;
      while i > 0
        invariant 0 <= i <= |m.files| && tree == UndoAll(old(tree), m.files, i, hash)
      {
        i := i - 1;
        UndoEntry(m.files[i], hash);
      }
      tree := tree - {record};
      ghost var undone := tree;
      i := |m.dirs|;
      while i > 0
        invariant 0 <= i <= |m.dirs| && tree == RemoveDirs(undone, m.dirs, i)
      {
        i := i - 1;
        RemoveFolder(m.dirs[i]);
      }
      return true;
    }
  }

  /** What becomes of an attempt. */
  function Ended(r: Run): (outcome: Outcome)
    ensures !outcome.Refused?
  {
    if r.failed then Failed(Rollback(r), r.junk) else Installed(r.tree)
  }

  /** An install that is not refused is its attempt, undone if it failed. */
  lemma InstallIs(t: Tree, plan: Plan, hash: Content -> int, left: nat, torn: bool, previous: Manifest)
    requires !Load(t, plan.record).Invalid?
    requires previous == if Load(t, plan.record).Found? then Load(t, plan.record).manifest else Manifest([], [])
    requires !Blocked(t, InTheWay(t, plan.items, Owned(previous.files)))
    ensures Install(t, plan, hash, left, torn) == Ended(Attempt(Begin(t, left, previous), JobFor(t, plan, hash, torn, previous)))
  {
  }

  lemma MoveAllNext(r: Run, s: Run, ds: seq<Path>, i: nat)
    requires i < |ds| && !r.failed && s == MoveOne(r, ds[i])
    ensures MoveAll(r, ds, i) == MoveAll(s, ds, i + 1)
  {
  }

  lemma RestoreNext(t: Tree, ds: seq<Path>, i: nat)
    requires i < |ds|
    ensures Restore(t, ds, i) == Rename(Restore(t, ds, i + 1), Bak(ds[i]), ds[i])
  {
  }

  lemma CollectNext(t: Tree, items: seq<Item>, owned: set<Path>, i: nat)
    requires i < |items| && !Blocked(t, InTheWay(t, items[..i], owned))
    requires items[i].dest in owned || items[i].dest !in t || Bak(items[i].dest) !in t
    ensures var before, d := InTheWay(t, items[..i], owned), items[i].dest;
            InTheWay(t, items[..i + 1], owned) == if d in owned || d !in t || d in before then before else before + [d]
    ensures !Blocked(t, InTheWay(t, items[..i + 1], owned))
  {
    assert items[..i + 1][..i] == items[..i];
  }

  /** A destination in the way whose backup exists blocks the whole plan. */
  lemma BlockedAlready(t: Tree, items: seq<Item>, owned: set<Path>, i: nat)
    requires i < |items| && items[i].dest in t && items[i].dest !in owned && Bak(items[i].dest) in t
    ensures Blocked(t, InTheWay(t, items, owned))
  {
    var ds := InTheWay(t, items, owned);
    assert items[i].dest in ds;
    var j :| 0 <= j < |ds| && ds[j] == items[i].dest;
  }
}
