/** The failure handler of a first install: whichever step fails, the tree is what it was, but for the
    one file the failing step may have left behind and the folders that file lies in. */
module InstallRollback {
  import opened Basics
  import opened InstallTree
  import opened InstallRun
  import opened InstallSteps
  import opened InstallPlace

  // ---- moving what is in the way ----

  /** These entries can still be moved aside, one after another. */
  ghost predicate Movable(g: Ground, away: set<Path>, files: map<Path, Content>, ds: seq<Path>, i: nat) {
    && (forall j :: i <= j < |ds| ==>
                      ds[j] in g.dests && ds[j] !in away && ds[j] !in files && ds[j] in g.base && Bak(ds[j]) !in g.base)
    && (forall j, k :: i <= j < k < |ds| ==> ds[j] != ds[k])
  }

  /** The backup of an entry in its place shows what the original tree shows there. */
  lemma BackupShows(r: Run, g: Ground, away: set<Path>, files: map<Path, Content>, d: Path)
    requires RunIs(r, g, away, files) && d in g.dests && d !in away && d !in files
    ensures Get(r.tree, Bak(d)) == Get(g.base, Bak(d))
  {
    forall e | e in away ensures !Under(Bak(d), e) && !Under(Bak(d), Bak(e)) {
      SiteBackupApart(g, e, d);
      BackupsApart(g, d, e);
    }
    AtElsewhere(g.base, away, Bak(d));
    AddedElsewhere(r, g, away, files, d);
    assert Get(r.tree, Bak(d)) == Look(Described(g, away, files, r.created), Bak(d));
  }

  /** One entry is moved aside; the entries away are `was` and those noted as moved. */
  lemma MoveOneStep(r: Run, g: Ground, was: set<Path>, files: map<Path, Content>, d: Path)
    requires RunIs(r, g, was + ToSet(r.moved), files) && d in g.dests && d !in was + ToSet(r.moved) && d !in files
    requires d in g.base && Bak(d) !in g.base && !MoveOne(r, d).failed
    ensures RunIs(MoveOne(r, d), g, was + ToSet(MoveOne(r, d).moved), files)
  {
    var away := was + ToSet(r.moved);
    SiteShows(r, g, away, files, d);
    BackupShows(r, g, away, files, d);
    MoveStep(r, g, away, files, d);
    ToSetSnoc(r.moved, d);
    assert was + ToSet(r.moved + [d]) == away + {d};
  }

  lemma StillMovable(g: Ground, was: set<Path>, moved: seq<Path>, files: map<Path, Content>, ds: seq<Path>, i: nat)
    requires i < |ds| && Movable(g, was + ToSet(moved), files, ds, i)
    ensures Movable(g, was + ToSet(moved + [ds[i]]), files, ds, i + 1)
  {
    ToSetSnoc(moved, ds[i]);
  }

  lemma {:induction false} MoveAllRun(r: Run, g: Ground, was: set<Path>, files: map<Path, Content>, ds: seq<Path>, i: nat)
    requires RunIs(r, g, was + ToSet(r.moved), files) && i <= |ds| && Movable(g, was + ToSet(r.moved), files, ds, i)
    ensures RunIs(MoveAll(r, ds, i), g, was + ToSet(MoveAll(r, ds, i).moved), files)
    decreases |ds| - i
  {
    if !r.failed && i < |ds| {
      var s := MoveOne(r, ds[i]);
      if s.failed {
        SameRun(r, s, g, was + ToSet(r.moved), files);
      } else {
        MoveOneStep(r, g, was, files, ds[i]);
        StillMovable(g, was, r.moved, files, ds, i);
        MoveAllRun(s, g, was, files, ds, i + 1);
      }
    }
  }

  /** What moving entries aside leaves alone. */
  ghost predicate OnlyMoves(r: Run, m: Run) {
    m == r.(tree := m.tree, moved := m.moved, left := m.left, failed := m.failed)
  }

  /** Moving aside goes through the list up to some n; on success to its end. */
  lemma {:induction false} MoveAllShape(r: Run, ds: seq<Path>, i: nat) returns (n: nat)
    requires i <= |ds| && r.moved == ds[..i]
    ensures n <= |ds| && MoveAll(r, ds, i).moved == ds[..n] && OnlyMoves(r, MoveAll(r, ds, i))
    ensures !r.failed && !MoveAll(r, ds, i).failed ==> n == |ds|
    decreases |ds| - i
  {
    n := i;
    if !r.failed && i < |ds| && !MoveOne(r, ds[i]).failed {
      assert ds[..i] + [ds[i]] == ds[..i + 1];
      n := MoveAllShape(MoveOne(r, ds[i]), ds, i + 1);
    }
  }

  // ---- what the handler can account for ----

  /** Every file added is noted as written or is the one left behind by the failing step. */
  ghost predicate Accounted(r: Run, g: Ground, away: set<Path>, files: map<Path, Content>) {
    && (forall k :: k in files ==> k in r.written || r.junk == Some(k))
    && (forall k :: k in r.written ==> k in g.dests && At(g.base, away, k) == None)
    && (r.junk.Some? ==> r.failed && r.junk.value in files && r.junk.value !in g.dests)
  }

  ghost predicate Planned(items: seq<Item>, g: Ground, away: set<Path>) {
    forall k :: 0 <= k < |items| ==> items[k].dest in g.dests && At(g.base, away, items[k].dest) == None
  }

  lemma TmpNoDest(g: Ground, p: Path)
    requires p in g.dests
    ensures Tmp(p, g.pid) !in g.dests && Tmp(p, g.pid) != g.record && g.record !in g.dests
  {
    var tmp := Tmp(p, g.pid);
    assert Apart(tmp, g.record);
    if tmp in g.dests { assert Apart(tmp, tmp); }
    TmpNoRecord(g);
  }

  lemma NotedFirst(r: Run, p: Path)
    requires !r.failed
    ensures NoteWritten(r, p, Owned([])).written == r.written + [p]
  {
    assert p !in Owned([]);
  }

  lemma AccountedPlaced(r: Run, s: Run, item: Item, job: Job, g: Ground, away: set<Path>,
                        files: map<Path, Content>, files': map<Path, Content>)
    requires Accounted(r, g, away, files) && !r.failed && job.previous.files == []
    requires item.dest in g.dests && At(g.base, away, item.dest) == None
    requires PlacedOr(r, s, item, job, Tmp(item.dest, g.pid), files, files')
    ensures Accounted(s, g, away, files') && s.moved == r.moved
  {
    TmpNoDest(g, item.dest);
    NotedFirst(r, item.dest);
    assert forall k :: k in s.written ==> k in r.written || k == item.dest;
    assert forall k :: k in r.written ==> k in s.written;
  }

  lemma {:induction false} PlaceAllFirst(r: Run, items: seq<Item>, i: nat, job: Job, g: Ground, away: set<Path>, files: map<Path, Content>)
    returns (files': map<Path, Content>)
    requires RunIs(r, g, away, files) && Accounted(r, g, away, files) && i <= |items| && Planned(items, g, away)
    requires job.plan.pid == g.pid && job.previous.files == []
    ensures var r' := PlaceAll(r, items, i, job);
            RunIs(r', g, away, files') && Accounted(r', g, away, files') && r'.moved == r.moved
    decreases |items| - i
  {
    files' := files;
    if !r.failed && i < |items| {
      var p := items[i].dest;
      TmpNoDest(g, p);
      files' := PlaceRun(r, items[i], job, g, away, files);
      var s := Place(r, items[i], job);
      AccountedPlaced(r, s, items[i], job, g, away, files, files');
      files' := PlaceAllFirst(s, items, i + 1, job, g, away, files');
    }
  }

  /** The manifest is written last; a first install finds no file in its place. */
  lemma RecordFirst(r: Run, c: Content, torn: bool, g: Ground, away: set<Path>, files: map<Path, Content>)
    returns (files': map<Path, Content>)
    requires RunIs(r, g, away, files) && Accounted(r, g, away, files)
    requires Get(g.base, g.record).Some? ==> !Get(g.base, g.record).value.File?
    requires g.record !in g.dests
    ensures var r' := Write(r, g.record, c, torn);
            RunIs(r', g, away, files') && r'.moved == r.moved
            && (r'.failed ==> Accounted(r', g, away, files'))
  {
    files' := files;
    if !r.failed && CanWrite(r.tree, g.record) && (r.left > 0 || torn) {
      assert g.record !in files;
      SiteShows(r, g, away, files, g.record);
      AtSite(g, away, g.record);
      var content := if r.left > 0 then c else Torn;
      WriteStep(r, g, away, files, g.record, content);
      files' := files[g.record := content];
    }
  }

  // ---- the handler ----

  lemma EraseStep(r: Run, p: Path, g: Ground, away: set<Path>, files: map<Path, Content>)
    requires RunIs(r, g, away, files) && p in g.dests && At(g.base, away, p) == None
    ensures RunIs(r.(tree := r.tree - {p}), g, away, files - {p})
  {
    if p in files {
      DropStep(r, g, away, files, p);
    } else {
      SiteShows(r, g, away, files, p);
      AtSite(g, away, p);
      assert r.tree - {p} == r.tree && files - {p} == files;
    }
  }

  /** What is left of the added files once those from the i-th on are erased. */
  ghost function Unlisted(files: map<Path, Content>, ps: seq<Path>, i: nat): map<Path, Content>
    requires i <= |ps|
    decreases |ps| - i
  {
    if i == |ps| then files else Unlisted(files - {ps[i]}, ps, i + 1)
  }

  lemma {:induction false} UnlistedKeys(files: map<Path, Content>, ps: seq<Path>, i: nat, k: Path)
    requires i <= |ps|
    ensures k in Unlisted(files, ps, i) <==> k in files && k !in ps[i..]
    decreases |ps| - i
  {
    if i < |ps| {
      UnlistedKeys(files - {ps[i]}, ps, i + 1, k);
      assert ps[i..] == [ps[i]] + ps[i + 1..];
    }
  }

  lemma {:induction false} EraseRun(r: Run, ps: seq<Path>, i: nat, g: Ground, away: set<Path>, files: map<Path, Content>)
    requires RunIs(r, g, away, files) && i <= |ps|
    requires forall j :: 0 <= j < |ps| ==> ps[j] in g.dests && At(g.base, away, ps[j]) == None
    ensures RunIs(r.(tree := Erase(r.tree, ps, i)), g, away, Unlisted(files, ps, i))
    decreases |ps| - i
  {
    if i < |ps| {
      EraseStep(r, ps[i], g, away, files);
      var s := r.(tree := r.tree - {ps[i]});
      EraseRun(s, ps, i + 1, g, away, files - {ps[i]});
      assert s.(tree := Erase(s.tree, ps, i + 1)) == r.(tree := Erase(r.tree, ps, i));
    } else {
      assert r.(tree := Erase(r.tree, ps, i)) == r;
    }
  }

  lemma MoveBackStep(r: Run, g: Ground, away: set<Path>, files: map<Path, Content>, d: Path)
    requires RunIs(r, g, away, files) && d in away && d !in files
    ensures RunIs(r.(tree := Rename(r.tree, Bak(d), d)), g, away - {d}, files)
  {
    AddedElsewhere(r, g, away, files, d);
    AwayGood(g, away);
    var o := Described(g, away, files, r.created);
    MoveBack(r.tree, o, d);
    assert Clear(r.tree, d) by {
      forall k | k in r.tree ensures !Under(k, d) {
        assert Get(r.tree, k) == Look(o, k);
        if Under(k, d) { assert IsAway(away, k); }
      }
    }
    assert Parent(Bak(d)) == Parent(d);
    RenameWellFormed(r.tree, Bak(d), d);
    forall k | k in files ensures At(g.base, away - {d}, k) == None {
      AtSite(g, away, k);
      AtSite(g, away - {d}, k);
    }
  }

  ghost function AwayTo(was: set<Path>, ds: seq<Path>, i: nat): set<Path>
    requires i <= |ds|
  {
    was + ToSet(ds[..i])
  }

  lemma AwayToLess(was: set<Path>, ds: seq<Path>, i: nat)
    requires i < |ds| && ds[i] !in was && forall j :: 0 <= j < i ==> ds[j] != ds[i]
    ensures ds[i] in AwayTo(was, ds, i + 1) && AwayTo(was, ds, i + 1) - {ds[i]} == AwayTo(was, ds, i)
  {
    ToSetSnoc(ds[..i], ds[i]);
    assert ds[..i + 1] == ds[..i] + [ds[i]];
    assert ds[i] !in ToSet(ds[..i]);
  }

  /** The entries from the i-th on are back. */
  ghost predicate BackFrom(r: Run, ds: seq<Path>, i: nat, g: Ground, was: set<Path>, files: map<Path, Content>)
    requires i <= |ds|
  {
    RunIs(r.(tree := Restore(r.tree, ds, i)), g, AwayTo(was, ds, i), files)
  }

  lemma RestoreStep(r: Run, ds: seq<Path>, i: nat, g: Ground, was: set<Path>, files: map<Path, Content>)
    requires i < |ds| && BackFrom(r, ds, i + 1, g, was, files) && ds[i] !in files && ds[i] !in was
    requires forall j :: 0 <= j < i ==> ds[j] != ds[i]
    ensures BackFrom(r, ds, i, g, was, files)
  {
    var s := r.(tree := Restore(r.tree, ds, i + 1));
    AwayToLess(was, ds, i);
    MoveBackStep(s, g, AwayTo(was, ds, i + 1), files, ds[i]);
    assert s.(tree := Rename(s.tree, Bak(ds[i]), ds[i])) == r.(tree := Restore(r.tree, ds, i));
  }

  lemma {:induction false} RestoreFrom(r: Run, ds: seq<Path>, i: nat, g: Ground, was: set<Path>, files: map<Path, Content>)
    requires i <= |ds| && BackFrom(r, ds, i, g, was, files)
    requires forall j, k :: 0 <= j < k < |ds| ==> ds[j] != ds[k]
    requires forall j :: 0 <= j < |ds| ==> ds[j] !in files && ds[j] !in was
    ensures BackFrom(r, ds, 0, g, was, files)
    decreases i
  {
    if i > 0 {
      RestoreStep(r, ds, i - 1, g, was, files);
      RestoreFrom(r, ds, i - 1, g, was, files);
    }
  }

  lemma BackStart(r: Run, ds: seq<Path>, g: Ground, was: set<Path>, away: set<Path>, files: map<Path, Content>)
    requires RunIs(r, g, away, files) && away == was + ToSet(ds)
    ensures BackFrom(r, ds, |ds|, g, was, files)
  {
    assert ds[..|ds|] == ds;
    assert AwayTo(was, ds, |ds|) == away;
    assert r.(tree := Restore(r.tree, ds, |ds|)) == r;
  }

  lemma BackEnd(r: Run, ds: seq<Path>, g: Ground, was: set<Path>, files: map<Path, Content>)
    requires BackFrom(r, ds, 0, g, was, files)
    ensures RunIs(r.(tree := Restore(r.tree, ds, 0)), g, was, files)
  {
    assert AwayTo(was, ds, 0) == was;
  }

  lemma RestoreRun(r: Run, ds: seq<Path>, g: Ground, was: set<Path>, away: set<Path>, files: map<Path, Content>)
    requires RunIs(r, g, away, files) && away == was + ToSet(ds)
    requires forall j, k :: 0 <= j < k < |ds| ==> ds[j] != ds[k]
    requires forall j :: 0 <= j < |ds| ==> ds[j] !in files && ds[j] !in was
    ensures RunIs(r.(tree := Restore(r.tree, ds, 0)), g, was, files)
  {
    BackStart(r, ds, g, was, away, files);
    RestoreFrom(r, ds, |ds|, g, was, files);
    BackEnd(r, ds, g, was, files);
  }

  /** Some added file lies below the folder. */
  ghost predicate Holds(files: map<Path, Content>, c: Path) {
    exists x :: x in files && Under(x, c)
  }

  ghost function HoldingOf(dirs: set<Path>, files: map<Path, Content>): set<Path> {
    set d | d in dirs && Holds(files, d)
  }

  /** No backup lies in a folder the original tree does not have. */
  lemma BackupNotBelow(g: Ground, d: Path, c: Path)
    requires d in g.dests && d in g.base && Above(g, c) && c !in g.base
    ensures Apart(Bak(d), c)
  {
    AboveFree(g, c, Bak(d));
    AboveFree(g, c, d);
    if Under(Bak(d), c) {
      assert Parent(Bak(d)) == Parent(d);
      UnderParent(Bak(d), c);
      UnderTrans(d, Parent(d), c);
      AncestorsExist(g.base, c, d);
    }
  }

  /** The original tree shows nothing below a folder it does not have. */
  lemma NotOriginal(g: Ground, away: set<Path>, c: Path, k: Path)
    requires AwayOk(g, away) && Above(g, c) && c !in g.base && Under(k, c)
    ensures At(g.base, away, k) == None
  {
    if IsBackup(away, k) {
      var d :| d in away && Under(k, Bak(d));
      PrefixesCompare(k, c, Bak(d));
      BackupNotBelow(g, d, c);
    } else if k in g.base && k != c {
      AncestorsExist(g.base, c, k);
    }
  }

  /** The folders are above destinations and new; those that are not on the list hold a file. */
  ghost predicate DirsOk(g: Ground, dirs: set<Path>, files: map<Path, Content>, cs: seq<Path>) {
    forall d :: d in dirs ==> Above(g, d) && d !in g.base && (d in ToSet(cs) || Holds(files, d))
  }

  ghost predicate PruneFacts(g: Ground, away: set<Path>, files: map<Path, Content>, dirs: set<Path>, cs: seq<Path>) {
    AwayOk(g, away) && FilesOk(g, away, files) && Listed(g, cs) && DirsOk(g, dirs, files, cs)
  }

  /** What can be left of the folders when the first n of the list are yet to be looked at. */
  ghost predicate LeftAt(left: set<Path>, dirs: set<Path>, files: map<Path, Content>, cs: seq<Path>, n: nat)
    requires n <= |cs|
  {
    HoldingOf(dirs, files) <= left <= dirs && forall d :: d in left ==> Holds(files, d) || d in ToSet(cs[..n])
  }

  lemma LastOf(cs: seq<Path>, n: nat, d: Path)
    requires 0 < n <= |cs|
    ensures d in ToSet(cs[..n]) <==> d in ToSet(cs[..n - 1]) || d == cs[n - 1]
  {
    assert cs[..n] == cs[..n - 1] + [cs[n - 1]];
    ToSetSnoc(cs[..n - 1], cs[n - 1]);
  }

  lemma PrefixIn(cs: seq<Path>, i: nat, n: nat, d: Path)
    requires i <= n <= |cs| && d in ToSet(cs[..i])
    ensures d in ToSet(cs[..n])
  {
    var j :| 0 <= j < i && cs[..i][j] == d;
    assert cs[..n][j] == d;
  }

  /** A folder below another on the list that is there without a file: the one above comes up again. */
  lemma ComesAgain(g: Ground, cs: seq<Path>, n: nat, k: Path)
    requires 0 < n <= |cs| && Listed(g, cs) && cs[n - 1] !in g.base && k in ToSet(cs[..n]) && StrictlyAbove(cs[n - 1], k)
    ensures cs[n - 1] in ToSet(cs[..n - 1])
  {
    var i :| 0 <= i < n && cs[..n][i] == k;
    assert cs[i] == k && cs[n - 1] in ToSet(cs[..i]);
    PrefixIn(cs, i, n - 1, cs[n - 1]);
  }

  /** What is below the folder that is next in turn is a file, or a folder that is there for a reason. */
  lemma BelowLeft(t: Tree, g: Ground, away: set<Path>, files: map<Path, Content>, dirs: set<Path>, left: set<Path>, cs: seq<Path>, n: nat, k: Path)
    requires 0 < n <= |cs| && PruneFacts(g, away, files, dirs, cs) && LeftAt(left, dirs, files, cs, n)
    requires Is(t, Over(g.base, away, files, left)) && cs[n - 1] !in g.base && k in t && StrictlyAbove(cs[n - 1], k)
    ensures k in files || k in dirs
    ensures Holds(files, cs[n - 1]) || cs[n - 1] in ToSet(cs[..n - 1])
  {
    var c := cs[n - 1];
    assert Get(t, k) == Look(Over(g.base, away, files, left), k);
    if k in files {
    } else if k in left {
      if Holds(files, k) {
        var x :| x in files && Under(x, k);
        UnderTrans(x, k, c);
      } else {
        ComesAgain(g, cs, n, k);
      }
    } else {
      NotOriginal(g, away, c, k);
    }
  }

  /** What shows at the folder that is next in turn. */
  lemma FolderShows(t: Tree, g: Ground, away: set<Path>, files: map<Path, Content>, dirs: set<Path>, left: set<Path>, cs: seq<Path>, n: nat)
    requires 0 < n <= |cs| && PruneFacts(g, away, files, dirs, cs) && Is(t, Over(g.base, away, files, left)) && cs[n - 1] !in g.base
    ensures Get(t, cs[n - 1]) == (if cs[n - 1] in left then Some(Dir) else None) && cs[n - 1] !in files
    ensures At(g.base, away, cs[n - 1]) == None
  {
    var c := cs[n - 1];
    assert Get(t, c) == Look(Over(g.base, away, files, left), c);
    if c in files { AboveFree(g, c, c); }
    NotOriginal(g, away, c, c);
  }

  /** A folder that holds a file is not empty. */
  lemma HoldingStays(t: Tree, g: Ground, o: Over, c: Path)
    requires Is(t, o) && Holds(o.files, c) && Above(g, c) && forall k :: k in o.files ==> IsSite(g, k)
    ensures !IsEmptyDir(t, c)
  {
    var x :| x in o.files && Under(x, c);
    AboveFree(g, c, x);
    assert Get(t, x) == Look(o, x);
  }

  /** A folder that can never be empty is not. */
  lemma FixedStays(t: Tree, g: Ground, away: set<Path>, o: Over, c: Path)
    requires Is(t, o) && o.base == g.base && o.away == away && AwayOk(g, away) && Fixed(g, c)
    ensures !IsEmptyDir(t, c)
  {
    var x :| x in g.base && StrictlyAbove(c, x) && forall d :: d in g.dests ==> !Under(x, d);
    forall d | d in away ensures !Under(x, d) && !Under(x, Bak(d)) { assert Clear(g.base, Bak(d)); }
    AtElsewhere(g.base, away, x);
    assert Get(t, x) == Look(o, x);
  }

  /** One folder is taken out if it is empty. */
  lemma PruneStep(t: Tree, g: Ground, away: set<Path>, files: map<Path, Content>, dirs: set<Path>, left: set<Path>, cs: seq<Path>, n: nat)
    returns (left': set<Path>)
    requires 0 < n <= |cs| && PruneFacts(g, away, files, dirs, cs) && LeftAt(left, dirs, files, cs, n)
    requires Is(t, Over(g.base, away, files, left))
    ensures LeftAt(left', dirs, files, cs, n - 1) && Is(Rmdir(t, cs[n - 1]), Over(g.base, away, files, left'))
  {
    var c, o := cs[n - 1], Over(g.base, away, files, left);
    left' := left;
    if c in g.base {
      FixedStays(t, g, away, o, c);
    } else {
      FolderShows(t, g, away, files, dirs, left, cs, n);
      left' := PruneNew(t, g, away, files, dirs, left, cs, n);
    }
    forall d | d in left' ensures Holds(files, d) || d in ToSet(cs[..n - 1]) { LastOf(cs, n, d); }
  }

  lemma PruneNew(t: Tree, g: Ground, away: set<Path>, files: map<Path, Content>, dirs: set<Path>, left: set<Path>, cs: seq<Path>, n: nat)
    returns (left': set<Path>)
    requires 0 < n <= |cs| && PruneFacts(g, away, files, dirs, cs) && LeftAt(left, dirs, files, cs, n) && cs[n - 1] !in g.base
    requires Is(t, Over(g.base, away, files, left))
    ensures LeftAt(left', dirs, files, cs, n - 1) && Is(Rmdir(t, cs[n - 1]), Over(g.base, away, files, left'))
  {
    var c, o := cs[n - 1], Over(g.base, away, files, left);
    left' := left;
    FolderShows(t, g, away, files, dirs, left, cs, n);
    if IsEmptyDir(t, c) {
      DropDir(t, o, c);
      left' := left - {c};
      if Holds(files, c) { HoldingStays(t, g, o, c); }
    } else if c in left && !Holds(files, c) {
      var k :| k in t && Under(k, c) && k != c;
      BelowLeft(t, g, away, files, dirs, left, cs, n, k);
    }
    forall d | d in left' ensures Holds(files, d) || d in ToSet(cs[..n - 1]) { LastOf(cs, n, d); }
  }

  ghost predicate PrunedAt(t: Tree, g: Ground, away: set<Path>, files: map<Path, Content>, dirs: set<Path>, cs: seq<Path>, i: nat)
    requires i <= |cs|
  {
    exists left :: LeftAt(left, dirs, files, cs, i) && Is(t, Over(g.base, away, files, left))
  }

  lemma PrunedStart(t: Tree, g: Ground, away: set<Path>, files: map<Path, Content>, dirs: set<Path>, cs: seq<Path>)
    requires DirsOk(g, dirs, files, cs) && Is(t, Over(g.base, away, files, dirs))
    ensures PrunedAt(t, g, away, files, dirs, cs, |cs|)
  {
    assert cs[..|cs|] == cs;
    assert LeftAt(dirs, dirs, files, cs, |cs|);
  }

  lemma PrunedEnd(t: Tree, g: Ground, away: set<Path>, files: map<Path, Content>, dirs: set<Path>, cs: seq<Path>)
    requires PrunedAt(t, g, away, files, dirs, cs, 0)
    ensures Is(t, Over(g.base, away, files, HoldingOf(dirs, files)))
  {
    var left :| LeftAt(left, dirs, files, cs, 0) && Is(t, Over(g.base, away, files, left));
    assert left == HoldingOf(dirs, files);
  }

  lemma PrunedMore(t: Tree, g: Ground, away: set<Path>, files: map<Path, Content>, dirs: set<Path>, cs: seq<Path>, n: nat)
    requires 0 < n <= |cs| && PruneFacts(g, away, files, dirs, cs) && PrunedAt(t, g, away, files, dirs, cs, n)
    ensures PrunedAt(Rmdir(t, cs[n - 1]), g, away, files, dirs, cs, n - 1)
  {
    var left :| LeftAt(left, dirs, files, cs, n) && Is(t, Over(g.base, away, files, left));
    var left' := PruneStep(t, g, away, files, dirs, left, cs, n);
  }

  ghost predicate StageOf(stage: nat -> Tree, cs: seq<Path>) {
    forall k: nat {:trigger stage(k)} :: k < |cs| ==> stage(k) == Rmdir(stage(k + 1), cs[k])
  }

  lemma PrunedStage(stage: nat -> Tree, g: Ground, away: set<Path>, files: map<Path, Content>, dirs: set<Path>, cs: seq<Path>, i: nat)
    requires i < |cs| && PruneFacts(g, away, files, dirs, cs) && PrunedAt(stage(i + 1), g, away, files, dirs, cs, i + 1) && StageOf(stage, cs)
    ensures PrunedAt(stage(i), g, away, files, dirs, cs, i)
  {
    assert stage(i) == Rmdir(stage(i + 1), cs[i]);
    PrunedMore(stage(i + 1), g, away, files, dirs, cs, i + 1);
  }

  /** Of the folders those stay that hold a file, whatever the list repeats. */
  lemma PruneRun(t: Tree, g: Ground, away: set<Path>, files: map<Path, Content>, dirs: set<Path>, cs: seq<Path>)
    requires PruneFacts(g, away, files, dirs, cs) && Is(t, Over(g.base, away, files, dirs))
    ensures Is(Prune(t, cs, 0), Over(g.base, away, files, HoldingOf(dirs, files)))
  {
    PrunedStart(t, g, away, files, dirs, cs);
    PruneAll(t, g, away, files, dirs, cs);
    PrunedEnd(Prune(t, cs, 0), g, away, files, dirs, cs);
  }

  function Stages(t: Tree, cs: seq<Path>): nat -> Tree {
    (i: nat) => if i <= |cs| then Prune(t, cs, i) else t
  }

  lemma StagesOk(t: Tree, cs: seq<Path>)
    ensures StageOf(Stages(t, cs), cs)
  {
    var stage := Stages(t, cs);
    forall k: nat | k < |cs| ensures stage(k) == Rmdir(stage(k + 1), cs[k]) { }
  }

  lemma PruneAll(t: Tree, g: Ground, away: set<Path>, files: map<Path, Content>, dirs: set<Path>, cs: seq<Path>)
    requires PruneFacts(g, away, files, dirs, cs) && PrunedAt(t, g, away, files, dirs, cs, |cs|)
    ensures PrunedAt(Prune(t, cs, 0), g, away, files, dirs, cs, 0)
  {
    var stage := Stages(t, cs);
    StagesOk(t, cs);
    assert stage(|cs|) == t && stage(0) == Prune(t, cs, 0);
    var holds := (i: nat) => i <= |cs| && PrunedAt(stage(i), g, away, files, dirs, cs, i);
    forall i: nat | i < |cs| && holds(i + 1) ensures holds(i) { PrunedStage(stage, g, away, files, dirs, cs, i); }
    Downward(holds, |cs|);
  }

  /** Everything new above something in the tree of a run is a folder the run made. */
  lemma NeededIsMade(r: Run, g: Ground, away: set<Path>, files: map<Path, Content>, x: Path, d: Path)
    requires RunIs(r, g, away, files) && (x in files || x in ToSet(r.created)) && StrictlyAbove(d, x) && d !in g.base
    ensures d in ToSet(r.created)
  {
    var o := Described(g, away, files, r.created);
    assert Get(r.tree, x) == Look(o, x);
    AncestorsExist(r.tree, d, x);
    assert Get(r.tree, d) == Look(o, d);
    if IsBackup(away, d) {
      var e :| e in away && Under(d, Bak(e));
      UnderTrans(x, d, Bak(e));
      if x in files { SiteBackupApart(g, x, e); } else { AboveFree(g, x, Bak(e)); }
    }
  }

  /** The folders a run made are listed as they should be. */
  lemma ListedNow(r: Run, g: Ground, away: set<Path>, files: map<Path, Content>)
    requires RunIs(r, g, away, files)
    ensures Listed(g, r.created)
  {
    var cs := r.created;
    forall i, d | 0 <= i < |cs| && StrictlyAbove(d, cs[i]) && d !in g.base ensures d in ToSet(cs[..i]) {
      NeededIsMade(r, g, away, files, cs[i], d);
      MadeBefore(g, cs, i, d);
    }
  }

  /** What is above a folder on the list is listed before it. */
  lemma MadeBefore(g: Ground, cs: seq<Path>, i: nat, d: Path)
    requires CreatedOk(g, cs) && i < |cs| && StrictlyAbove(d, cs[i]) && d in ToSet(cs)
    ensures d in ToSet(cs[..i])
  {
    var j :| 0 <= j < |cs| && cs[j] == d;
    assert cs[..i][j] == d;
  }

  // ---- the theorem ----

  /** The tree is the original one; a file left behind by the failing step is the one addition, with
      the folders it lies in. */
  ghost predicate RolledBack(t: Tree, t': Tree, junk: Option<Path>) {
    match junk
    case None => t' == t
    case Some(x) =>
      && x !in t && x in t' && t'[x].File?
      && forall k :: k != x ==> Get(t', k) == if k !in t && Under(x, k) then Some(Dir) else Get(t, k)
  }

  lemma Leftover(r: Run, g: Ground, files: map<Path, Content>, t: Tree)
    requires RunIs(r, g, {}, files) && Is(t, Over(g.base, {}, files, HoldingOf(ToSet(r.created), files)))
    requires files.Keys == if r.junk.Some? then {r.junk.value} else {}
    ensures RolledBack(g.base, t, r.junk)
  {
    var o := Over(g.base, {}, files, HoldingOf(ToSet(r.created), files));
    if r.junk.None? {
      assert o == Over(g.base, {}, map[], {});
      IsBase(t, g.base);
    } else {
      var x := r.junk.value;
      assert x in files;
      AtSite(g, {}, x);
      assert Get(t, x) == Look(o, x);
      forall k | k != x ensures Get(t, k) == if k !in g.base && Under(x, k) then Some(Dir) else Get(g.base, k) {
        assert Get(t, k) == Look(o, k);
        KeptIff(r, g, files, x, k);
        AtElsewhere(g.base, {}, k);
      }
    }
  }

  lemma KeptIff(r: Run, g: Ground, files: map<Path, Content>, x: Path, k: Path)
    requires RunIs(r, g, {}, files) && files.Keys == {x} && k != x
    ensures k in HoldingOf(ToSet(r.created), files) <==> k !in g.base && Under(x, k)
  {
    var o := Described(g, {}, files, r.created);
    assert x in files && Get(r.tree, x) == Look(o, x);
    if k !in g.base && Under(x, k) {
      AncestorsExist(r.tree, k, x);
      AtElsewhere(g.base, {}, k);
      assert Get(r.tree, k) == Look(o, k);
      assert Holds(files, k);
    }
  }

  lemma ErasedFiles(r: Run, g: Ground, away: set<Path>, files: map<Path, Content>)
    requires Accounted(r, g, away, files)
    ensures Unlisted(files, r.written, 0).Keys == if r.junk.Some? then {r.junk.value} else {}
  {
    forall k ensures k in Unlisted(files, r.written, 0) <==> r.junk == Some(k) {
      UnlistedKeys(files, r.written, 0, k);
      assert r.written[0..] == r.written;
    }
  }

  /** The first part of the handler: only a leftover stays of the files, and nothing where entries go back. */
  lemma ErasedFirst(r: Run, g: Ground, away: set<Path>, files: map<Path, Content>)
    requires RunIs(r, g, away, files) && Accounted(r, g, away, files)
    ensures var left := Unlisted(files, r.written, 0);
            && RunIs(r.(tree := Erase(r.tree, r.written, 0)), g, away, left)
            && left.Keys == (if r.junk.Some? then {r.junk.value} else {})
            && forall d :: d in away ==> d !in left
  {
    EraseRun(r, r.written, 0, g, away, files);
    ErasedFiles(r, g, away, files);
  }

  /** The last part of the handler. */
  lemma PrunedFirst(r: Run, g: Ground, files: map<Path, Content>)
    requires RunIs(r, g, {}, files) && files.Keys == if r.junk.Some? then {r.junk.value} else {}
    ensures RolledBack(g.base, Prune(r.tree, r.created, 0), r.junk)
  {
    ListedNow(r, g, {}, files);
    PruneRun(r.tree, g, {}, files, ToSet(r.created), r.created);
    Leftover(r, g, files, Prune(r.tree, r.created, 0));
  }

  /** The handler undoes a run that failed with everything accounted for. */
  lemma HandlerRun(r: Run, g: Ground, files: map<Path, Content>)
    requires RunIs(r, g, ToSet(r.moved), files) && Accounted(r, g, ToSet(r.moved), files)
    requires forall j, k :: 0 <= j < k < |r.moved| ==> r.moved[j] != r.moved[k]
    ensures RolledBack(g.base, Rollback(r), r.junk)
  {
    var away, left := ToSet(r.moved), Unlisted(files, r.written, 0);
    ErasedFirst(r, g, away, files);
    forall j | 0 <= j < |r.moved| ensures r.moved[j] !in left { assert r.moved[j] in away; }
    var erased := r.(tree := Erase(r.tree, r.written, 0));
    RestoreRun(erased, r.moved, g, {}, away, left);
    PrunedFirst(erased.(tree := Restore(erased.tree, r.moved, 0)), g, left);
  }

  /** A first install that is not refused starts with everything in its place. */
  lemma BeginFirst(g: Ground, left: nat)
    ensures RunIs(Begin(g.base, left, Manifest([], [])), g, {}, map[]) && ToSet([]) == {}
  {
    var r := Begin(g.base, left, Manifest([], []));
    IsBase(r.tree, g.base);
    assert Described(g, {}, map[], r.created) == Over(g.base, {}, map[], {});
  }

  lemma MovableFirst(g: Ground, items: seq<Item>)
    requires g.dests == Dests(items) && !Blocked(g.base, InTheWay(g.base, items, {}))
    ensures Movable(g, {}, map[], InTheWay(g.base, items, {}), 0)
  {
    var ds := InTheWay(g.base, items, {});
    forall j | 0 <= j < |ds| ensures ds[j] in g.dests && ds[j] in g.base && Bak(ds[j]) !in g.base { assert ds[j] in ds; }
  }

  lemma PlannedFirst(g: Ground, items: seq<Item>)
    requires g.dests == Dests(items)
    ensures Planned(items, g, ToSet(InTheWay(g.base, items, {})))
  {
    var ds := InTheWay(g.base, items, {});
    var away := ToSet(ds);
    forall p | p in away ensures p in g.dests { assert p in ds; }
    forall k | 0 <= k < |items| ensures items[k].dest in g.dests && At(g.base, away, items[k].dest) == None {
      AtSite(g, away, items[k].dest);
      if items[k].dest in g.base { assert items[k].dest in ds; }
    }
  }

  lemma MovedFirstRun(g: Ground, ds: seq<Path>, left: nat)
    requires Movable(g, {}, map[], ds, 0)
    ensures var m := MoveAll(Begin(g.base, left, Manifest([], [])), ds, 0);
            RunIs(m, g, ToSet(m.moved), map[])
  {
    var r := Begin(g.base, left, Manifest([], []));
    BeginFirst(g, left);
    assert {} + ToSet(r.moved) == {};
    MoveAllRun(r, g, {}, map[], ds, 0);
    var moved := ToSet(MoveAll(r, ds, 0).moved);
    assert {} + moved == moved;
  }

  /** The first part of the attempt: everything in the way is moved aside, or the run has failed. */
  lemma MovedFirst(g: Ground, items: seq<Item>, left: nat)
    requires g.dests == Dests(items) && !Blocked(g.base, InTheWay(g.base, items, {}))
    ensures var m := MoveAll(Begin(g.base, left, Manifest([], [])), InTheWay(g.base, items, {}), 0);
            && RunIs(m, g, ToSet(m.moved), map[]) && m.written == [] && m.junk == None
            && (forall j, k :: 0 <= j < k < |m.moved| ==> m.moved[j] != m.moved[k])
            && (!m.failed ==> Planned(items, g, ToSet(m.moved)))
  {
    var ds := InTheWay(g.base, items, {});
    MovableFirst(g, items);
    PlannedFirst(g, items);
    var n := MoveAllShape(Begin(g.base, left, Manifest([], [])), ds, 0);
    assert ds[..|ds|] == ds;
    MovedFirstRun(g, ds, left);
  }

  /** Whichever step of a first install fails, the tree afterwards is the one before: every displaced
      entry is back, no new file is at a destination and every folder made is gone. The one exception
      is the file the failing step itself left behind, with the folders that hold it. */
  lemma FirstInstallRollback(t: Tree, plan: Plan, hash: Content -> int, left: nat, torn: bool)
    requires SettingOk(Setting(t, Dests(plan.items), plan.record, plan.pid)) && Load(t, plan.record).Absent?
    requires Install(t, plan, hash, left, torn).Failed?
    ensures var out := Install(t, plan, hash, left, torn);
            && RolledBack(t, out.tree, out.junk)
            && (out.junk.Some? ==> out.junk.value == plan.record
                                   || exists p :: p in Dests(plan.items) && out.junk.value == Tmp(p, plan.pid))
  {
    var g: Ground := Setting(t, Dests(plan.items), plan.record, plan.pid);
    var previous := Manifest([], []);
    var job := JobFor(t, plan, hash, torn, previous);
    assert Owned(previous.files) == {};
    MovedFirst(g, plan.items, left);
    var m := MoveAll(Begin(t, left, previous), job.moving, 0);
    var away := ToSet(m.moved);
    var files := map[];
    var placed := PlaceAll(m, plan.items, 0, job);
    if !m.failed {
      files := PlaceAllFirst(m, plan.items, 0, job, g, away, files);
    }
    var c := Record(Manifest(placed.entries, placed.created));
    TmpNoRecord(g);
    files := RecordFirst(placed, c, torn, g, away, files);
    var r := Write(placed, plan.record, c, torn);
    assert r == Attempt(Begin(t, left, previous), job);
    HandlerRun(r, g, files);
    if r.junk.Some? { assert IsSite(g, r.junk.value); }
  }

  lemma TmpNoRecord(g: Ground)
    ensures g.record !in g.dests
  {
    if g.record in g.dests { assert Apart(g.record, g.record); }
  }
}
