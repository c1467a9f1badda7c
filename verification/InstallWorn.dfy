/** Uninstalling, also when the installed files are not all as the manifest recorded them: some changed,
    some gone, some more files about. */
module InstallWorn {
  import opened Basics
  import opened InstallTree
  import opened InstallRun
  import opened InstallSteps
  import opened InstallRollback
  import opened InstallShadow
  import opened InstallChain

  // ---- one entry ----

  /** The backup of an entry moved aside holds that entry. */
  lemma BackupHolds(r: Run, g: Ground, away: set<Path>, files: map<Path, Content>, d: Path)
    requires RunIs(r, g, away, files) && d in away && d !in files
    ensures Get(r.tree, Bak(d)) == Get(g.base, d)
  {
    AddedElsewhere(r, g, away, files, d);
    AwayGood(g, away);
    AtBackup(g.base, away, d, Bak(d));
    assert d + Bak(d)[|d|..] == d;
    assert Get(r.tree, Bak(d)) == Look(Described(g, away, files, r.created), Bak(d));
  }

  ghost function AwayLeft(away: set<Path>, e: Entry, altered: bool): set<Path> {
    if altered || e.backup.None? then away else away - {e.path}
  }

  ghost function FilesLeft(files: map<Path, Content>, e: Entry, altered: bool): map<Path, Content> {
    if altered then files else files - {e.path}
  }

  lemma UndoIs(t: Tree, e: Entry, hash: Content -> int)
    requires Unchanged(t, e, hash)
    ensures Undo(t, e, hash) ==
            if e.backup.Some? && e.backup.value in t - {e.path} then Rename(t - {e.path}, e.backup.value, e.path) else t - {e.path}
  {
  }

  lemma UndoTree(r: Run, e: Entry, g: Ground, away: set<Path>, files: map<Path, Content>, hash: Content -> int)
    requires RunIs(r, g, away, files) && e.path in files && hash(files[e.path]) == e.sha
    ensures RunIs(r.(tree := r.tree - {e.path}), g, away, files - {e.path}) && Unchanged(r.tree, e, hash)
  {
    DropStep(r, g, away, files, e.path);
  }

  /** The file is there as recorded: it goes, and its backup comes back. */
  lemma UndoStep(r: Run, e: Entry, g: Ground, away: set<Path>, files: map<Path, Content>, hash: Content -> int)
    requires RunIs(r, g, away, files) && e.path in files && hash(files[e.path]) == e.sha
    requires e.backup.Some? ==> e.backup.value == Bak(e.path) && e.path in away
    ensures RunIs(r.(tree := Undo(r.tree, e, hash)), g, AwayLeft(away, e, false), files - {e.path})
  {
    UndoTree(r, e, g, away, files, hash);
    UndoFrom(r.(tree := r.tree - {e.path}), r.(tree := Undo(r.tree, e, hash)), r.tree, e, g, away, files - {e.path}, hash);
  }

  lemma UndoFrom(s: Run, u: Run, t: Tree, e: Entry, g: Ground, away: set<Path>, files: map<Path, Content>, hash: Content -> int)
    requires RunIs(s, g, away, files) && e.path !in files && s.tree == t - {e.path} && Unchanged(t, e, hash)
    requires u == s.(tree := Undo(t, e, hash)) && (e.backup.Some? ==> e.backup.value == Bak(e.path) && e.path in away)
    ensures RunIs(u, g, AwayLeft(away, e, false), files)
  {
    UndoIs(t, e, hash);
    if e.backup.Some? { UndoBack(s, e, g, away, files); }
  }

  lemma UndoBack(s: Run, e: Entry, g: Ground, away: set<Path>, files: map<Path, Content>)
    requires RunIs(s, g, away, files) && e.path in away && e.path !in files
    ensures Bak(e.path) in s.tree && RunIs(s.(tree := Rename(s.tree, Bak(e.path), e.path)), g, away - {e.path}, files)
  {
    BackupHolds(s, g, away, files, e.path);
    MoveBackStep(s, g, away, files, e.path);
  }

  lemma UndoSame(r: Run, e: Entry, g: Ground, away: set<Path>, files: map<Path, Content>, hash: Content -> int)
    requires RunIs(r, g, away, files) && Altered(e, files, hash)
    ensures Undo(r.tree, e, hash) == r.tree
  {
    assert Get(r.tree, e.path) == Look(Described(g, away, files, r.created), e.path);
  }

  lemma UndoAltered(r: Run, e: Entry, g: Ground, away: set<Path>, files: map<Path, Content>, hash: Content -> int)
    requires RunIs(r, g, away, files) && Altered(e, files, hash)
    ensures RunIs(r.(tree := Undo(r.tree, e, hash)), g, away, files)
  {
    UndoSame(r, e, g, away, files, hash);
    assert r.(tree := Undo(r.tree, e, hash)) == r;
  }

  /** The file is gone already; its backup comes back all the same. */
  lemma UndoGone(r: Run, e: Entry, g: Ground, away: set<Path>, files: map<Path, Content>, hash: Content -> int)
    requires RunIs(r, g, away, files) && e.path !in files && e.path in g.dests && At(g.base, away, e.path) == None
    requires e.backup.Some? ==> e.backup.value == Bak(e.path) && e.path in away
    ensures RunIs(r.(tree := Undo(r.tree, e, hash)), g, AwayLeft(away, e, false), files)
  {
    SiteShows(r, g, away, files, e.path);
    AtSite(g, away, e.path);
    assert r.tree - {e.path} == r.tree;
    if e.backup.Some? {
      BackupHolds(r, g, away, files, e.path);
      MoveBackStep(r, g, away, files, e.path);
    } else {
      SameRun(r, r.(tree := Undo(r.tree, e, hash)), g, away, files);
    }
  }

  lemma UndoAny(r: Run, e: Entry, g: Ground, away: set<Path>, files: map<Path, Content>, hash: Content -> int)
    requires RunIs(r, g, away, files) && e.path in g.dests && At(g.base, away, e.path) == None
    requires e.backup.Some? ==> e.backup.value == Bak(e.path) && e.path in away
    ensures var altered := Altered(e, files, hash);
            RunIs(r.(tree := Undo(r.tree, e, hash)), g, AwayLeft(away, e, altered), FilesLeft(files, e, altered))
  {
    if Altered(e, files, hash) {
      UndoAltered(r, e, g, away, files, hash);
    } else if e.path in files {
      UndoStep(r, e, g, away, files, hash);
    } else {
      UndoGone(r, e, g, away, files, hash);
      assert files - {e.path} == files;
    }
  }

  // ---- all entries ----

  ghost function AwayAfter(away: set<Path>, es: seq<Entry>, i: nat, files: map<Path, Content>, hash: Content -> int): set<Path>
    requires i <= |es|
    decreases |es| - i
  {
    if i == |es| then away else AwayLeft(AwayAfter(away, es, i + 1, files, hash), es[i], Altered(es[i], files, hash))
  }

  ghost function FilesAfter(files: map<Path, Content>, es: seq<Entry>, i: nat, hash: Content -> int): map<Path, Content>
    requires i <= |es|
    decreases |es| - i
  {
    if i == |es| then files else FilesLeft(FilesAfter(files, es, i + 1, hash), es[i], Altered(es[i], files, hash))
  }

  lemma {:induction false} AwayAfterHas(away: set<Path>, es: seq<Entry>, i: nat, files: map<Path, Content>, hash: Content -> int, k: Path)
    requires i <= |es|
    ensures k in AwayAfter(away, es, i, files, hash) <==>
            k in away && forall j :: i <= j < |es| && es[j].path == k && es[j].backup.Some? ==> Altered(es[j], files, hash)
    decreases |es| - i
  {
    if i < |es| { AwayAfterHas(away, es, i + 1, files, hash, k); }
  }

  lemma {:induction false} FilesAfterHas(files: map<Path, Content>, es: seq<Entry>, i: nat, hash: Content -> int, k: Path)
    requires i <= |es|
    ensures k in FilesAfter(files, es, i, hash) <==> k in files && forall j :: i <= j < |es| && es[j].path == k ==> Altered(es[j], files, hash)
    ensures k in FilesAfter(files, es, i, hash) ==> FilesAfter(files, es, i, hash)[k] == files[k]
    decreases |es| - i
  {
    if i < |es| { FilesAfterHas(files, es, i + 1, hash, k); }
  }

  /** The recorded places are free and the backups on record are there. */
  ghost predicate Undoable(es: seq<Entry>, g: Ground, away: set<Path>) {
    Free(es, g, away) && BackupsOk(es) && WithBackup(es) <= away
  }

  /** What stands once the entries from the i-th on are undone. */
  ghost predicate UndoneTo(r: Run, es: seq<Entry>, i: nat, g: Ground, away: set<Path>, files: map<Path, Content>, hash: Content -> int)
    requires i <= |es|
  {
    RunIs(r.(tree := UndoAll(r.tree, es, i, hash)), g, AwayAfter(away, es, i, files, hash), FilesAfter(files, es, i, hash))
  }

  /** The i-th entry when those behind it are undone. */
  lemma EntryThen(es: seq<Entry>, i: nat, g: Ground, away: set<Path>, files: map<Path, Content>, hash: Content -> int)
    requires i < |es| && Distinct(es) && Undoable(es, g, away) && away <= g.dests
    ensures var away', files' := AwayAfter(away, es, i + 1, files, hash), FilesAfter(files, es, i + 1, hash);
            && (Altered(es[i], files', hash) <==> Altered(es[i], files, hash)) && At(g.base, away', es[i].path) == None
            && (es[i].backup.Some? ==> es[i].path in away')
  {
    AwayAfterHas(away, es, i + 1, files, hash, es[i].path);
    FilesAfterHas(files, es, i + 1, hash, es[i].path);
    var away' := AwayAfter(away, es, i + 1, files, hash);
    assert away' <= g.dests by { forall k | k in away' ensures k in away { AwayAfterHas(away, es, i + 1, files, hash, k); } }
    AtSite(g, away, es[i].path);
    AtSite(g, away', es[i].path);
  }

  lemma UndoneToMore(r: Run, es: seq<Entry>, i: nat, g: Ground, away: set<Path>, files: map<Path, Content>, hash: Content -> int)
    requires i < |es| && Distinct(es) && Undoable(es, g, away) && away <= g.dests && UndoneTo(r, es, i + 1, g, away, files, hash)
    ensures UndoneTo(r, es, i, g, away, files, hash)
  {
    EntryThen(es, i, g, away, files, hash);
    var s := r.(tree := UndoAll(r.tree, es, i + 1, hash));
    UndoAny(s, es[i], g, AwayAfter(away, es, i + 1, files, hash), FilesAfter(files, es, i + 1, hash), hash);
    assert s.(tree := Undo(s.tree, es[i], hash)) == r.(tree := UndoAll(r.tree, es, i, hash));
  }

  lemma UndoneToStart(r: Run, es: seq<Entry>, g: Ground, away: set<Path>, files: map<Path, Content>, hash: Content -> int)
    requires RunIs(r, g, away, files)
    ensures UndoneTo(r, es, |es|, g, away, files, hash)
  {
    assert r.(tree := UndoAll(r.tree, es, |es|, hash)) == r;
  }

  lemma {:induction false} UndoneToEnd(r: Run, es: seq<Entry>, i: nat, g: Ground, away: set<Path>, files: map<Path, Content>, hash: Content -> int)
    requires i <= |es| && Distinct(es) && Undoable(es, g, away) && away <= g.dests && UndoneTo(r, es, i, g, away, files, hash)
    ensures UndoneTo(r, es, 0, g, away, files, hash)
    decreases i
  {
    if i > 0 {
      UndoneToMore(r, es, i - 1, g, away, files, hash);
      UndoneToEnd(r, es, i - 1, g, away, files, hash);
    }
  }

  // ---- the folders ----

  /** No destination has a cache's name on its way. */
  ghost predicate NoCaches(g: Ground) {
    forall d, j :: d in g.dests && 0 <= j < |d| ==> d[j] != CACHES[0] && d[j] != CACHES[1]
  }

  /** No file and no folder has a cache's name. */
  ghost predicate NoCacheNames(files: map<Path, Content>, dirs: set<Path>) {
    forall k :: (k in files || k in dirs) && k != [] ==> Name(k) != CACHES[0] && Name(k) != CACHES[1]
  }

  lemma NoCachesNamed(g: Ground, away: set<Path>, files: map<Path, Content>, dirs: set<Path>)
    requires NoCaches(g) && FilesOk(g, away, files) && g.record !in files && forall d :: d in dirs ==> Above(g, d)
    ensures NoCacheNames(files, dirs)
  {
    forall k | (k in files || k in dirs) && k != [] ensures Name(k) != CACHES[0] && Name(k) != CACHES[1] {
      if k in dirs {
        var p :| p in g.dests && Under(p, k) && p != k;
        assert p[|k| - 1] == Name(k);
      } else if k !in g.dests {
        var p :| p in g.dests && k == Tmp(p, g.pid);
        assert Name(k)[0] == '.' && CACHES[0][0] == 'm' && CACHES[1][0] == 'i';
      }
    }
  }

  lemma NoCacheThere(t: Tree, g: Ground, away: set<Path>, files: map<Path, Content>, dirs: set<Path>, cs: seq<Path>, n: nat, name: string)
    requires 0 < n <= |cs| && PruneFacts(g, away, files, dirs, cs) && PrunedAt(t, g, away, files, dirs, cs, n)
    requires NoCacheNames(files, dirs) && (name == CACHES[0] || name == CACHES[1])
    ensures cs[n - 1] + [name] !in t
  {
    var left :| LeftAt(left, dirs, files, cs, n) && Is(t, Over(g.base, away, files, left));
    var k := cs[n - 1] + [name];
    assert Name(k) == name;
    if cs[n - 1] in g.base {
      assert Listed(g, cs);
      FixedNoCache(t, g, away, files, left, cs[n - 1], name);
    } else if k in t {
      BelowLeft(t, g, away, files, dirs, left, cs, n, k);
    }
  }

  /** A folder that can never be empty gets no cache either: no backup has a cache's name. */
  lemma FixedNoCache(t: Tree, g: Ground, away: set<Path>, files: map<Path, Content>, left: set<Path>, c: Path, name: string)
    requires Is(t, Over(g.base, away, files, left)) && AwayOk(g, away) && Fixed(g, c) && Above(g, c) && c in g.base
    requires NoCacheNames(files, left) && (name == CACHES[0] || name == CACHES[1])
    ensures c + [name] !in t
  {
    var k := c + [name];
    assert Name(k) == name && Parent(k) == c;
    forall d | d in away ensures !Under(k, Bak(d)) {
      AboveFree(g, c, Bak(d));
      if Under(k, Bak(d)) {
        assert Bak(d) == k;
        BackupName(d, name);
      }
    }
    assert Get(t, k) == Look(Over(g.base, away, files, left), k);
  }

  lemma BackupName(d: Path, name: string)
    requires d != [] && (name == CACHES[0] || name == CACHES[1])
    ensures Name(Bak(d)) != name
  {
    var b := Name(d) + SUFFIX;
    assert b[|b| - 1] == SUFFIX[|SUFFIX| - 1] == 'k';
    assert name[|name| - 1] == 'e';
  }

  lemma RemoveDirIs(t: Tree, c: Path)
    requires c + [CACHES[0]] !in t && c + [CACHES[1]] !in t
    ensures RemoveDir(t, c) == Rmdir(t, c)
  {
  }

  lemma RemovesEmpty(t: Tree, g: Ground, away: set<Path>, files: map<Path, Content>, dirs: set<Path>, cs: seq<Path>, n: nat)
    requires 0 < n <= |cs| && PruneFacts(g, away, files, dirs, cs) && PrunedAt(t, g, away, files, dirs, cs, n) && NoCacheNames(files, dirs)
    ensures RemoveDir(t, cs[n - 1]) == Rmdir(t, cs[n - 1])
  {
    NoCacheThere(t, g, away, files, dirs, cs, n, CACHES[0]);
    NoCacheThere(t, g, away, files, dirs, cs, n, CACHES[1]);
    RemoveDirIs(t, cs[n - 1]);
  }

  /** The folders looked at so far are removed as the failure handler removes them. */
  ghost predicate RemovedAt(t: Tree, g: Ground, away: set<Path>, files: map<Path, Content>, dirs: set<Path>, cs: seq<Path>, i: nat)
    requires i <= |cs|
  {
    RemoveDirs(t, cs, i) == Prune(t, cs, i) && PrunedAt(Prune(t, cs, i), g, away, files, dirs, cs, i)
  }

  lemma RemovedNext(t: Tree, g: Ground, away: set<Path>, files: map<Path, Content>, dirs: set<Path>, cs: seq<Path>, i: nat)
    requires i < |cs| && PruneFacts(g, away, files, dirs, cs) && NoCacheNames(files, dirs) && RemovedAt(t, g, away, files, dirs, cs, i + 1)
    ensures RemovedAt(t, g, away, files, dirs, cs, i)
  {
    RemovesEmpty(Prune(t, cs, i + 1), g, away, files, dirs, cs, i + 1);
    PrunedMore(Prune(t, cs, i + 1), g, away, files, dirs, cs, i + 1);
  }

  /** With no cache about, all folders are. */
  lemma RemovedAll(t: Tree, g: Ground, away: set<Path>, files: map<Path, Content>, dirs: set<Path>, cs: seq<Path>)
    requires PruneFacts(g, away, files, dirs, cs) && NoCacheNames(files, dirs) && RemovedAt(t, g, away, files, dirs, cs, |cs|)
    ensures RemovedAt(t, g, away, files, dirs, cs, 0)
  {
    var holds := (i: nat) => i <= |cs| && RemovedAt(t, g, away, files, dirs, cs, i);
    forall i: nat | i < |cs| && holds(i + 1) ensures holds(i) { RemovedNext(t, g, away, files, dirs, cs, i); }
    Downward(holds, |cs|);
  }

  /** Of the folders those stay that hold a file. */
  lemma FoldersOut(t: Tree, g: Ground, away: set<Path>, files: map<Path, Content>, dirs: set<Path>, cs: seq<Path>)
    requires PruneFacts(g, away, files, dirs, cs) && NoCacheNames(files, dirs) && Is(t, Over(g.base, away, files, dirs))
    ensures Is(RemoveDirs(t, cs, 0), Over(g.base, away, files, HoldingOf(dirs, files)))
  {
    PrunedStart(t, g, away, files, dirs, cs);
    RemovedAll(t, g, away, files, dirs, cs);
    PrunedEnd(Prune(t, cs, 0), g, away, files, dirs, cs);
  }

  // ---- uninstalling ----

  /** The manifest lies in the tree of the run. Its entries name destinations and the backups that
      belong to them; every folder that is not on record holds a file that is not on record. */
  ghost predicate WornBy(r: Run, g: Ground, m: Manifest, lost: set<Path>, files: map<Path, Content>) {
    && RunIs(r, g, WithBackup(m.files) + lost, files) && Listed(g, m.dirs)
    && Distinct(m.files) && lost !! WithBackup(m.files) && Free(m.files, g, WithBackup(m.files) + lost) && BackupsOk(m.files)
    && g.record in files && files[g.record] == Record(m)
    && forall d :: d in ToSet(r.created) && d !in ToSet(m.dirs) ==> Holds(Unrecorded(g, m, files), d)
  }

  /** The files that are neither on record nor the manifest. */
  ghost function Unrecorded(g: Ground, m: Manifest, files: map<Path, Content>): map<Path, Content> {
    map k | k in files && k !in Owned(m.files) && k != g.record :: files[k]
  }

  /** What an uninstall leaves of the files: those not on record and those changed since. */
  ghost function Remaining(g: Ground, m: Manifest, files: map<Path, Content>, hash: Content -> int): map<Path, Content> {
    FilesAfter(files, m.files, 0, hash) - {g.record}
  }

  /** The entries whose file changed and whose displaced original stays at its backup for that. */
  ghost function Stranded(m: Manifest, files: map<Path, Content>, hash: Content -> int): set<Path> {
    set i | 0 <= i < |m.files| && m.files[i].backup.Some? && Altered(m.files[i], files, hash) :: m.files[i].path
  }

  lemma RemainingHas(g: Ground, m: Manifest, files: map<Path, Content>, hash: Content -> int, k: Path)
    ensures k in Remaining(g, m, files, hash) <==>
            k in files && k != g.record && forall j :: 0 <= j < |m.files| && m.files[j].path == k ==> Altered(m.files[j], files, hash)
    ensures k in Remaining(g, m, files, hash) ==> Remaining(g, m, files, hash)[k] == files[k]
  {
    FilesAfterHas(files, m.files, 0, hash, k);
  }

  lemma StrandedAway(m: Manifest, lost: set<Path>, files: map<Path, Content>, hash: Content -> int)
    requires Distinct(m.files) && lost !! WithBackup(m.files)
    ensures AwayAfter(WithBackup(m.files) + lost, m.files, 0, files, hash) == lost + Stranded(m, files, hash)
  {
    var es := m.files;
    forall k ensures k in AwayAfter(WithBackup(es) + lost, es, 0, files, hash) <==> k in lost + Stranded(m, files, hash) {
      AwayAfterHas(WithBackup(es) + lost, es, 0, files, hash, k);
    }
  }

  lemma UndoneWorn(r: Run, g: Ground, hash: Content -> int, m: Manifest, lost: set<Path>, files: map<Path, Content>)
    requires WornBy(r, g, m, lost, files)
    ensures RunIs(r.(tree := UndoAll(r.tree, m.files, 0, hash)), g, lost + Stranded(m, files, hash), FilesAfter(files, m.files, 0, hash))
  {
    var away := WithBackup(m.files) + lost;
    UndoneToStart(r, m.files, g, away, files, hash);
    UndoneToEnd(r, m.files, |m.files|, g, away, files, hash);
    StrandedAway(m, lost, files, hash);
  }

  lemma RecordOut(s: Run, g: Ground, away: set<Path>, hash: Content -> int, m: Manifest, files: map<Path, Content>)
    requires RunIs(s, g, away, FilesAfter(files, m.files, 0, hash)) && g.record in files
    requires forall i :: 0 <= i < |m.files| ==> m.files[i].path in g.dests
    ensures RunIs(s.(tree := s.tree - {g.record}), g, away, Remaining(g, m, files, hash))
  {
    TmpNoRecord(g);
    FilesAfterHas(files, m.files, 0, hash, g.record);
    DropStep(s, g, away, FilesAfter(files, m.files, 0, hash), g.record);
  }

  lemma UnrecordedRemain(g: Ground, m: Manifest, files: map<Path, Content>, hash: Content -> int, d: Path)
    requires Holds(Unrecorded(g, m, files), d)
    ensures Holds(Remaining(g, m, files, hash), d)
  {
    var x :| x in Unrecorded(g, m, files) && Under(x, d);
    RemainingHas(g, m, files, hash, x);
  }

  lemma ClearedWorn(s: Run, g: Ground, away: set<Path>, rest: map<Path, Content>, dirs: seq<Path>)
    requires RunIs(s, g, away, rest) && g.record !in rest && NoCaches(g) && Listed(g, dirs)
    requires forall d :: d in ToSet(s.created) && d !in ToSet(dirs) ==> Holds(rest, d)
    ensures Is(RemoveDirs(s.tree, dirs, 0), Over(g.base, away, rest, HoldingOf(ToSet(s.created), rest)))
  {
    NoCachesNamed(g, away, rest, ToSet(s.created));
    FoldersOut(s.tree, g, away, rest, ToSet(s.created), dirs);
  }

  lemma UninstallIs(t: Tree, record: Path, hash: Content -> int, m: Manifest)
    requires Load(t, record) == Found(m)
    ensures Uninstall(t, record, hash) == Some(RemoveDirs(UndoAll(t, m.files, 0, hash) - {record}, m.dirs, 0))
  {
  }

  /** What an uninstall leaves when files changed, vanished or came along since the manifest was
      written: the original tree with the changed files and the unrecorded ones on top, the folders
      that hold them, and the originals displaced by changed files still at their backups. */
  lemma UninstallWorn(r: Run, g: Ground, hash: Content -> int, m: Manifest, lost: set<Path>, files: map<Path, Content>)
    requires WornBy(r, g, m, lost, files) && NoCaches(g)
    ensures Uninstall(r.tree, g.record, hash).Some?
    ensures var rest := Remaining(g, m, files, hash);
            Is(Uninstall(r.tree, g.record, hash).value,
               Over(g.base, lost + Stranded(m, files, hash), rest, HoldingOf(ToSet(r.created), rest)))
  {
    LoadWorn(r, g, m, lost, files);
    UninstallIs(r.tree, g.record, hash, m);
    UndoneWorn(r, g, hash, m, lost, files);
    var s := r.(tree := UndoAll(r.tree, m.files, 0, hash));
    RecordOut(s, g, lost + Stranded(m, files, hash), hash, m, files);
    forall d | d in ToSet(s.created) && d !in ToSet(m.dirs) ensures Holds(Remaining(g, m, files, hash), d) {
      UnrecordedRemain(g, m, files, hash, d);
    }
    ClearedWorn(s.(tree := s.tree - {g.record}), g, lost + Stranded(m, files, hash), Remaining(g, m, files, hash), m.dirs);
  }

  lemma LoadWorn(r: Run, g: Ground, m: Manifest, lost: set<Path>, files: map<Path, Content>)
    requires WornBy(r, g, m, lost, files)
    ensures Load(r.tree, g.record) == Found(m)
  {
    assert Get(r.tree, g.record) == Look(Described(g, WithBackup(m.files) + lost, files, r.created), g.record);
  }

  /** Every recorded file is gone or as recorded. */
  predicate AsRecorded(t: Tree, m: Manifest, hash: Content -> int) {
    forall i :: 0 <= i < |m.files| && m.files[i].path in t ==> Unchanged(t, m.files[i], hash)
  }

  lemma AlteredIff(r: Run, g: Ground, hash: Content -> int, m: Manifest, lost: set<Path>, files: map<Path, Content>, i: nat)
    requires WornBy(r, g, m, lost, files) && i < |m.files|
    ensures Altered(m.files[i], files, hash) <==> m.files[i].path in r.tree && !Unchanged(r.tree, m.files[i], hash)
  {
    var p, away := m.files[i].path, WithBackup(m.files) + lost;
    if p in files {
      assert Get(r.tree, p) == Look(Described(g, away, files, r.created), p);
    } else {
      SiteShows(r, g, away, files, p);
      AtSite(g, away, p);
    }
  }

  lemma EntryRemains(r: Run, g: Ground, hash: Content -> int, m: Manifest, lost: set<Path>, files: map<Path, Content>, i: nat)
    requires WornBy(r, g, m, lost, files) && i < |m.files| && m.files[i].path in r.tree && !Unchanged(r.tree, m.files[i], hash)
    ensures m.files[i].path in Remaining(g, m, files, hash)
  {
    TmpNoRecord(g);
    AlteredIff(r, g, hash, m, lost, files, i);
    SoleEntry(m, files, hash, i);
    RemainingHas(g, m, files, hash, m.files[i].path);
  }

  lemma SoleEntry(m: Manifest, files: map<Path, Content>, hash: Content -> int, i: nat)
    requires Distinct(m.files) && i < |m.files| && Altered(m.files[i], files, hash)
    ensures forall j :: 0 <= j < |m.files| && m.files[j].path == m.files[i].path ==> Altered(m.files[j], files, hash)
  {
  }

  /** A changed file stays, and so does an unrecorded one. */
  lemma RemainingSome(r: Run, g: Ground, hash: Content -> int, m: Manifest, lost: set<Path>, files: map<Path, Content>)
    requires WornBy(r, g, m, lost, files) && Remaining(g, m, files, hash) == map[]
    ensures AsRecorded(r.tree, m, hash)
  {
    if i: nat :| i < |m.files| && m.files[i].path in r.tree && !Unchanged(r.tree, m.files[i], hash) {
      EntryRemains(r, g, hash, m, lost, files, i);
    }
  }

  lemma UnrecordedSome(g: Ground, hash: Content -> int, m: Manifest, files: map<Path, Content>)
    requires Remaining(g, m, files, hash) == map[]
    ensures Unrecorded(g, m, files) == map[]
  {
    forall k ensures k !in Unrecorded(g, m, files) { RemainingHas(g, m, files, hash, k); }
  }

  lemma RecordedUnaltered(r: Run, g: Ground, hash: Content -> int, m: Manifest, lost: set<Path>, files: map<Path, Content>)
    requires WornBy(r, g, m, lost, files) && AsRecorded(r.tree, m, hash)
    ensures NoneAltered(m.files, files, hash)
  {
    forall i: nat | i < |m.files| ensures !Altered(m.files[i], files, hash) { AlteredIff(r, g, hash, m, lost, files, i); }
  }

  lemma RemainingNone(g: Ground, hash: Content -> int, m: Manifest, files: map<Path, Content>)
    requires NoneAltered(m.files, files, hash) && Unrecorded(g, m, files) == map[]
    ensures Remaining(g, m, files, hash) == map[] && Stranded(m, files, hash) == {}
  {
    forall k ensures k !in Remaining(g, m, files, hash) {
      RemainingHas(g, m, files, hash, k);
      if k in files && k != g.record && k in Owned(m.files) {
        var j: nat :| j < |m.files| && m.files[j].path == k;
      } else {
        assert k !in Unrecorded(g, m, files);
      }
    }
  }

  /** An entry that stays at its backup is a difference. */
  lemma BackupStays(t: Tree, g: Ground, o: Over, d: Path)
    requires Is(t, o) && o.base == g.base && AwayOk(g, o.away) && d in o.away
    ensures t != g.base
  {
    AwayGood(g, o.away);
    AtBackup(g.base, o.away, d, Bak(d));
    assert d + Bak(d)[|d|..] == d;
    assert Get(t, Bak(d)) == Look(o, Bak(d));
    assert Under(Bak(d), Bak(d)) && Bak(d) !in g.base;
  }

  lemma NothingLeftIff(t: Tree, g: Ground, away: set<Path>, rest: map<Path, Content>, dirs: set<Path>)
    requires Is(t, Over(g.base, away, rest, HoldingOf(dirs, rest))) && AwayOk(g, away) && FilesOk(g, away, rest)
    ensures t == g.base <==> away == {} && rest == map[]
  {
    var o := Over(g.base, away, rest, HoldingOf(dirs, rest));
    if d :| d in away {
      BackupStays(t, g, o, d);
    } else if k :| k in rest {
      AtElsewhere(g.base, away, k);
      assert Get(t, k) == Look(o, k);
    } else {
      assert o == Over(g.base, {}, map[], {});
      IsBase(t, g.base);
    }
  }

  lemma GivenBackIff(out: Option<Tree>, g: Ground, away: set<Path>, rest: map<Path, Content>, dirs: set<Path>)
    requires out.Some? && Is(out.value, Over(g.base, away, rest, HoldingOf(dirs, rest))) && AwayOk(g, away) && FilesOk(g, away, rest)
    ensures out == Some(g.base) <==> away == {} && rest == map[]
  {
    NothingLeftIff(out.value, g, away, rest, dirs);
  }

  lemma RestKept(r: Run, g: Ground, hash: Content -> int, m: Manifest, lost: set<Path>, files: map<Path, Content>)
    requires WornBy(r, g, m, lost, files)
    ensures AwayOk(g, lost + Stranded(m, files, hash)) && FilesOk(g, lost + Stranded(m, files, hash), Remaining(g, m, files, hash))
  {
    UndoneWorn(r, g, hash, m, lost, files);
  }

  /** The uninstall gives the original tree if and only if nothing remains and nothing is lost. */
  lemma UninstallExact(r: Run, g: Ground, hash: Content -> int, m: Manifest, lost: set<Path>, files: map<Path, Content>)
    requires WornBy(r, g, m, lost, files) && NoCaches(g)
    ensures Uninstall(r.tree, g.record, hash) == Some(g.base) <==>
            lost + Stranded(m, files, hash) == {} && Remaining(g, m, files, hash) == map[]
  {
    UninstallWorn(r, g, hash, m, lost, files);
    RestKept(r, g, hash, m, lost, files);
    GivenBackIff(Uninstall(r.tree, g.record, hash), g, lost + Stranded(m, files, hash), Remaining(g, m, files, hash), ToSet(r.created));
  }

  /** An uninstall gives the original tree exactly if and only if no backup was lost track of, every
      recorded file is gone or as recorded, and no other file came along. */
  lemma UninstallWornIff(r: Run, g: Ground, hash: Content -> int, m: Manifest, lost: set<Path>, files: map<Path, Content>)
    requires WornBy(r, g, m, lost, files) && NoCaches(g)
    ensures Uninstall(r.tree, g.record, hash) == Some(g.base) <==>
            lost == {} && AsRecorded(r.tree, m, hash) && Unrecorded(g, m, files) == map[]
  {
    UninstallExact(r, g, hash, m, lost, files);
    if Remaining(g, m, files, hash) == map[] {
      RemainingSome(r, g, hash, m, lost, files);
      UnrecordedSome(g, hash, m, files);
    }
    if AsRecorded(r.tree, m, hash) && Unrecorded(g, m, files) == map[] {
      RecordedUnaltered(r, g, hash, m, lost, files);
      RemainingNone(g, hash, m, files);
    }
  }

  // ---- a manifest with every folder it lists ----

  /** Nothing is left in the last of the folders made. */
  lemma NothingBelow(t: Tree, g: Ground, lost: set<Path>, cs: seq<Path>, n: nat, k: Path)
    requires 0 < n <= |cs| && CreatedOk(g, cs) && AwayOk(g, lost)
    requires Is(t, Over(g.base, lost, map[], ToSet(cs[..n]))) && k in t && Under(k, cs[n - 1])
    ensures k == cs[n - 1]
  {
    var c := cs[n - 1];
    assert Get(t, k) == Look(Over(g.base, lost, map[], ToSet(cs[..n])), k);
    if k in ToSet(cs[..n]) {
      var i :| 0 <= i < n && cs[i] == k;
    } else {
      NotOriginal(g, lost, c, k);
    }
  }

  lemma RemoveDirStep(t: Tree, g: Ground, lost: set<Path>, cs: seq<Path>, n: nat)
    requires 0 < n <= |cs| && CreatedOk(g, cs) && AwayOk(g, lost)
    requires Is(t, Over(g.base, lost, map[], ToSet(cs[..n])))
    ensures Is(RemoveDir(t, cs[n - 1]), Over(g.base, lost, map[], ToSet(cs[..n - 1])))
  {
    var c := cs[n - 1];
    var o := Over(g.base, lost, map[], ToSet(cs[..n]));
    assert cs[..n] == cs[..n - 1] + [c];
    ToSetSnoc(cs[..n - 1], c);
    assert Get(t, c) == Look(o, c) == Some(Dir);
    forall k | k in t && Under(k, c) ensures k == c { NothingBelow(t, g, lost, cs, n, k); }
    assert RemoveDir(t, c) == t - {c} by {
      assert Under(c + [CACHES[0]], c) && Under(c + [CACHES[1]], c);
      assert DropCache(t, c, CACHES[0]) == t && DropCache(t, c, CACHES[1]) == t;
    }
    assert c !in ToSet(cs[..n - 1]) by {
      if c in ToSet(cs[..n - 1]) { var i :| 0 <= i < n - 1 && cs[i] == c; }
    }
    AtAbove(g, lost, c);
    DropDir(t, o, c);
    assert ToSet(cs[..n]) - {c} == ToSet(cs[..n - 1]);
  }

  ghost predicate Cleared(t: Tree, g: Ground, lost: set<Path>, cs: seq<Path>, i: nat)
    requires i <= |cs|
  {
    Is(RemoveDirs(t, cs, i), Over(g.base, lost, map[], ToSet(cs[..i])))
  }

  lemma ClearedMore(t: Tree, g: Ground, lost: set<Path>, cs: seq<Path>, i: nat)
    requires i < |cs| && CreatedOk(g, cs) && AwayOk(g, lost) && Cleared(t, g, lost, cs, i + 1)
    ensures Cleared(t, g, lost, cs, i)
  {
    RemoveDirStep(RemoveDirs(t, cs, i + 1), g, lost, cs, i + 1);
  }

  lemma {:induction false} ClearAll(t: Tree, g: Ground, lost: set<Path>, cs: seq<Path>, i: nat)
    requires i <= |cs| && CreatedOk(g, cs) && AwayOk(g, lost) && Cleared(t, g, lost, cs, i)
    ensures Cleared(t, g, lost, cs, 0)
    decreases i
  {
    if i > 0 {
      ClearedMore(t, g, lost, cs, i - 1);
      ClearAll(t, g, lost, cs, i - 1);
    }
  }

  lemma RemoveDirsRun(t: Tree, g: Ground, lost: set<Path>, cs: seq<Path>)
    requires CreatedOk(g, cs) && AwayOk(g, lost) && Is(t, Over(g.base, lost, map[], ToSet(cs)))
    ensures Is(RemoveDirs(t, cs, 0), Over(g.base, lost, map[], {}))
  {
    assert cs[..|cs|] == cs;
    ClearAll(t, g, lost, cs, |cs|);
    assert ToSet(cs[..0]) == {};
  }

  lemma LoadStanding(t: Tree, g: Ground, m: Manifest, live: seq<Path>, lost: set<Path>, files: map<Path, Content>)
    requires Standing(t, g, m, live, lost, files) && g.record in files
    ensures Load(t, g.record) == Found(m)
  {
    assert Get(t, g.record) == Look(Described(g, WithBackup(m.files) + lost, files, live), g.record);
  }

  /** What stands is a worn installation with nothing unrecorded. */
  lemma StandingWorn(t: Tree, g: Ground, m: Manifest, live: seq<Path>, lost: set<Path>, files: map<Path, Content>)
    requires Standing(t, g, m, live, lost, files) && g.record in files
    ensures WornBy(Start(t, 0, live), g, m, lost, files) && Unrecorded(g, m, files) == map[]
  {
    forall k | k in files ensures k in Owned(m.files) || k == g.record { assert k in files.Keys; }
  }

  /** Taking the manifest's folders out of what is left when no file is. */
  lemma ClearedStanding(s: Run, g: Ground, lost: set<Path>)
    requires RunIs(s, g, lost, map[])
    ensures Is(RemoveDirs(s.tree, s.created, 0), Over(g.base, lost, map[], {})) && AwayOk(g, lost)
  {
    RemoveDirsRun(s.tree, g, lost, s.created);
  }

  /** Uninstalling what stands, with every folder it lists and no file changed, gives the original tree,
      but for the entries lost track of, which stay at their backups. */
  lemma UninstallStanding(t: Tree, g: Ground, hash: Content -> int, m: Manifest, lost: set<Path>, files: map<Path, Content>)
    requires Standing(t, g, m, m.dirs, lost, files) && g.record in files && NoneAltered(m.files, files, hash)
    ensures Uninstall(t, g.record, hash).Some?
    ensures Is(Uninstall(t, g.record, hash).value, Over(g.base, lost, map[], {})) && AwayOk(g, lost)
  {
    LoadStanding(t, g, m, m.dirs, lost, files);
    UninstallIs(t, g.record, hash, m);
    StandingWorn(t, g, m, m.dirs, lost, files);
    FilesOut(Start(t, 0, m.dirs), g, hash, m, lost, files);
    ClearedStanding(Start(t, 0, m.dirs).(tree := UndoAll(t, m.files, 0, hash) - {g.record}), g, lost);
  }

  /** With nothing changed and nothing unrecorded no file is left. */
  lemma FilesOut(r: Run, g: Ground, hash: Content -> int, m: Manifest, lost: set<Path>, files: map<Path, Content>)
    requires WornBy(r, g, m, lost, files) && NoneAltered(m.files, files, hash) && Unrecorded(g, m, files) == map[]
    ensures RunIs(r.(tree := UndoAll(r.tree, m.files, 0, hash) - {g.record}), g, lost, map[])
  {
    UndoneWorn(r, g, hash, m, lost, files);
    RemainingNone(g, hash, m, files);
    assert lost + Stranded(m, files, hash) == lost;
    RecordOut(r.(tree := UndoAll(r.tree, m.files, 0, hash)), g, lost, hash, m, files);
  }
}
