/** One successful install over another: the new manifest stands, and the backups of the paths that
    are no longer shipped are lost track of. */
module InstallUpgrade {
  import opened Basics
  import opened InstallTree
  import opened InstallRun
  import opened InstallSteps
  import opened InstallPlace
  import opened InstallRollback
  import opened InstallShadow
  import opened InstallChain

  // ---- backups recorded ----

  lemma {:induction false} FormerIs(es: seq<Entry>, p: Path, i: nat)
    requires i < |es| && es[i].path == p && Distinct(es)
    ensures FormerBackup(es, p) == es[i].backup
    decreases |es|
  {
    if i < |es| - 1 { FormerIs(es[..|es| - 1], p, i); }
  }

  lemma {:induction false} FormerNone(es: seq<Entry>, p: Path)
    requires forall i :: 0 <= i < |es| ==> es[i].path != p
    ensures FormerBackup(es, p) == None
    decreases |es|
  {
    if es != [] { FormerNone(es[..|es| - 1], p); }
  }

  lemma FormerIff(es: seq<Entry>, p: Path)
    requires Distinct(es)
    ensures FormerBackup(es, p).Some? <==> p in WithBackup(es)
    ensures FormerBackup(es, p).Some? ==> exists i :: 0 <= i < |es| && es[i].path == p && es[i].backup == FormerBackup(es, p)
  {
    if i :| 0 <= i < |es| && es[i].path == p {
      FormerIs(es, p, i);
    } else {
      FormerNone(es, p);
    }
  }

  /** The paths whose backup the upgrade records: those it moved and those recorded before. */
  lemma BackupsRecorded(items: seq<Item>, job: Job, p: Path)
    requires Distinct(job.previous.files)
    ensures p in WithBackup(EntriesFor(items, |items|, job)) <==>
            p in Dests(items) && (p in job.moving || p in WithBackup(job.previous.files))
  {
    var es := EntriesFor(items, |items|, job);
    FormerIff(job.previous.files, p);
    if p in Dests(items) {
      var i :| 0 <= i < |items| && items[i].dest == p;
      assert es[i] == EntryFor(items[i], job);
    }
    forall i | 0 <= i < |es| ensures es[i].path == items[i].dest { assert es[i] == EntryFor(items[i], job); }
  }

  /** Every entry at its backup is recorded by the new manifest or lost. */
  lemma AwayRecorded(items: seq<Item>, job: Job, lost: set<Path>)
    requires Distinct(job.previous.files) && lost !! WithBackup(job.previous.files)
    requires ToSet(job.moving) <= Dests(items) && ToSet(job.moving) !! lost
    ensures var lost' := lost + (WithBackup(job.previous.files) - Dests(items));
            var new' := WithBackup(EntriesFor(items, |items|, job));
            new' + lost' == WithBackup(job.previous.files) + lost + ToSet(job.moving)
            && (lost' !! new' <==> lost !! (WithBackup(job.previous.files) + ToSet(job.moving)))
  {
    var lost' := lost + (WithBackup(job.previous.files) - Dests(items));
    var new' := WithBackup(EntriesFor(items, |items|, job));
    forall p ensures p in new' <==> p in Dests(items) && (p in job.moving || p in WithBackup(job.previous.files)) {
      BackupsRecorded(items, job, p);
    }
    forall p | p in job.moving ensures p in ToSet(job.moving) { }
  }

  // ---- the run ----

  lemma Moved(t: Tree, g: Ground, m: Manifest, live: seq<Path>, lost: set<Path>, files: map<Path, Content>, items: seq<Item>, left: nat)
    requires Standing(t, g, m, live, lost, files) && Dests(items) <= g.dests
    requires !Blocked(t, InTheWay(t, items, Owned(m.files)))
    requires !MoveAll(Start(t, left, live), InTheWay(t, items, Owned(m.files)), 0).failed
    ensures var ds := InTheWay(t, items, Owned(m.files));
            RunIs(MoveAll(Start(t, left, live), ds, 0), g, WithBackup(m.files) + lost + ToSet(ds), files)
    ensures MoveAll(Start(t, left, live), InTheWay(t, items, Owned(m.files)), 0).entries == []
  {
    MovableAll(t, g, m, live, lost, files, items);
    MoveNext(t, g, WithBackup(m.files) + lost, live, files, InTheWay(t, items, Owned(m.files)), left);
  }

  lemma MovingDests(t: Tree, g: Ground, m: Manifest, items: seq<Item>)
    requires Dests(items) <= g.dests
    ensures ToSet(InTheWay(t, items, Owned(m.files))) <= Dests(items)
  {
    var ds := InTheWay(t, items, Owned(m.files));
    forall p | p in ToSet(ds) ensures p in Dests(items) { assert p in ds; }
  }

  lemma MovedPlanned(t: Tree, g: Ground, m: Manifest, live: seq<Path>, lost: set<Path>, files: map<Path, Content>, items: seq<Item>)
    requires Standing(t, g, m, live, lost, files) && Dests(items) <= g.dests
    ensures Planned(items, g, WithBackup(m.files) + lost + ToSet(InTheWay(t, items, Owned(m.files))))
  {
    var ds := InTheWay(t, items, Owned(m.files));
    var away := WithBackup(m.files) + lost + ToSet(ds);
    MovingDests(t, g, m, items);
    forall k | 0 <= k < |items| ensures items[k].dest in g.dests && At(g.base, away, items[k].dest) == None {
      assert items[k].dest in Dests(items);
      if items[k].dest in t && items[k].dest !in Owned(m.files) { assert items[k].dest in ds; }
      PlannedNext(t, g, m, live, lost, files, items[k].dest, away);
    }
  }

  /** The recorded places stay free when more entries go. */
  lemma FreeNext(g: Ground, es: seq<Entry>, before: set<Path>, away: set<Path>)
    requires Free(es, g, before) && before <= away <= g.dests
    ensures Free(es, g, away)
  {
    forall i | 0 <= i < |es| ensures At(g.base, away, es[i].path) == None { StaysFree(g, before, away, es[i].path); }
  }

  /** The added files when an upgrade is through. */
  ghost function After(files: map<Path, Content>, items: seq<Item>, m: Manifest, record: Path, c: Content): map<Path, Content> {
    Without(Placed(files, items, 0), m.files, 0, Dests(items))[record := c]
  }

  lemma StillDroppable(files: map<Path, Content>, items: seq<Item>, es: seq<Entry>, hash: Content -> int)
    requires Droppable(files, es, 0, Dests(items), hash)
    ensures Droppable(Placed(files, items, 0), es, 0, Dests(items), hash)
  {
    forall j | 0 <= j < |es| && es[j].path !in Dests(items) ensures !Altered(es[j], Placed(files, items, 0), hash) {
      PlacedKeys(files, items, 0, es[j].path);
    }
  }

  lemma RecordedOk(placed: Run, job: Job, c: Content, g: Ground, away: set<Path>, files: map<Path, Content>)
    requires RunIs(placed, g, away, files) && Droppable(files, job.previous.files, 0, Dests(job.plan.items), job.hash)
    requires Distinct(job.previous.files) && Free(job.previous.files, g, away)
    requires g.record == job.plan.record && Load(g.base, g.record).Absent? && !Recorded(placed, job, c).failed
    ensures var r := Recorded(placed, job, c);
            && r.entries == placed.entries
            && RunIs(r, g, away, Without(files, job.previous.files, 0, Dests(job.plan.items))[g.record := c])
  {
    var es, shipped := job.previous.files, Dests(job.plan.items);
    DropOldOk(placed, es, 0, shipped, job.hash, g, away, files);
    DropOldKeeps(placed, es, 0, shipped, job.hash);
    RecordOk(DropOld(placed, es, 0, shipped, job.hash), c, job.torn, g, away, Without(files, es, 0, shipped));
  }

  lemma {:induction false} DropOldFailed(r: Run, es: seq<Entry>, i: nat, shipped: set<Path>, hash: Content -> int)
    requires i <= |es| && r.failed
    ensures DropOld(r, es, i, shipped, hash) == r
  {
  }

  lemma NoneFailed(moved: Run, job: Job, c: Content)
    requires !Closing(moved, job, c).failed
    ensures !moved.failed && !PlaceAll(moved, job.plan.items, 0, job).failed
  {
    var placed := PlaceAll(moved, job.plan.items, 0, job);
    if placed.failed { DropOldFailed(placed, job.previous.files, 0, Dests(job.plan.items), job.hash); }
  }

  /** From the moves to the manifest. */
  lemma Finished(moved: Run, job: Job, c: Content, g: Ground, away: set<Path>, files: map<Path, Content>)
    requires RunIs(moved, g, away, files) && Settled(g, files) && Planned(job.plan.items, g, away) && moved.entries == []
    requires Droppable(files, job.previous.files, 0, Dests(job.plan.items), job.hash)
    requires Distinct(job.previous.files) && Free(job.previous.files, g, away)
    requires g.pid == job.plan.pid && g.record == job.plan.record && Load(g.base, g.record).Absent?
    requires !Closing(moved, job, c).failed
    ensures Closing(moved, job, c).entries == EntriesFor(job.plan.items, |job.plan.items|, job)
    ensures RunIs(Closing(moved, job, c), g, away, After(files, job.plan.items, job.previous, g.record, c))
  {
    var items := job.plan.items;
    NoneFailed(moved, job, c);
    PlaceAllOk(moved, items, 0, job, g, away, files);
    PlaceAllEntries(moved, items, 0, job);
    StillDroppable(files, items, job.previous.files, job.hash);
    RecordedOk(PlaceAll(moved, items, 0, job), job, c, g, away, Placed(files, items, 0));
  }

  // ---- what stands afterwards ----

  lemma AfterAt(g: Ground, files: map<Path, Content>, items: seq<Item>, m: Manifest, c: Content, k: Path)
    requires files.Keys <= Owned(m.files) + {g.record} && Dests(items) <= g.dests
    ensures k in After(files, items, m, g.record, c) <==> k in Dests(items) || k == g.record
  {
    var placed := Placed(files, items, 0);
    PlacedKeys(files, items, 0, k);
    WithoutKeys(placed, m.files, 0, Dests(items), k);
    if k in files { assert k in files.Keys; }
  }

  lemma EntriesStand(g: Ground, files: map<Path, Content>, job: Job, es: seq<Entry>, c: Content)
    requires Once(job.plan.items) && Dests(job.plan.items) <= g.dests && es == EntriesFor(job.plan.items, |job.plan.items|, job)
    requires Distinct(job.previous.files) && BackupsOk(job.previous.files)
    ensures Distinct(es) && BackupsOk(es) && Owned(es) == Dests(job.plan.items)
    ensures NoneAltered(es, After(files, job.plan.items, job.previous, g.record, c), job.hash)
  {
    var items := job.plan.items;
    var after := After(files, items, job.previous, g.record, c);
    forall i | 0 <= i < |es|
      ensures es[i].path == items[i].dest && es[i].path in Dests(items)
      ensures es[i].backup.Some? ==> es[i].backup.value == Bak(es[i].path)
      ensures !Altered(es[i], after, job.hash)
    {
      assert es[i] == EntryFor(items[i], job);
      FormerIff(job.previous.files, items[i].dest);
      PlacedContent(files, items, 0, i);
      WithoutKeys(Placed(files, items, 0), job.previous.files, 0, Dests(items), es[i].path);
      TmpNoRecord(g);
    }
    forall p ensures p in Owned(es) <==> p in Dests(items) { }
  }

  lemma FreeAfter(g: Ground, items: seq<Item>, job: Job, away: set<Path>)
    requires Planned(items, g, away)
    ensures Free(EntriesFor(items, |items|, job), g, away)
  {
    var es := EntriesFor(items, |items|, job);
    forall i | 0 <= i < |es| ensures es[i].path in g.dests && At(g.base, away, es[i].path) == None {
      assert es[i] == EntryFor(items[i], job);
    }
  }

  /** The list on record grows by the folders made, as the list of those that stand does. */
  lemma ListedMore(g: Ground, dirs: seq<Path>, live: seq<Path>, more: seq<Path>)
    requires Listed(g, dirs) && Listed(g, live + more) && ToSet(live) <= ToSet(dirs)
    ensures Listed(g, dirs + more) && ToSet(live + more) <= ToSet(dirs + more)
  {
    var cs := dirs + more;
    forall i | 0 <= i < |cs| ensures Above(g, cs[i]) && cs[i] != [] && (cs[i] !in g.base || Fixed(g, cs[i])) {
      if i >= |dirs| { assert cs[i] == (live + more)[|live| + i - |dirs|]; }
    }
    forall i, d | 0 <= i < |cs| && StrictlyAbove(d, cs[i]) && d !in g.base ensures d in ToSet(cs[..i]) {
      ListedMoreAt(g, dirs, live, more, i, d);
    }
    forall d | d in ToSet(live + more) ensures d in ToSet(cs) { MoreIn(dirs, live, more, |live + more|, d); }
  }

  /** What is listed up to some place of the one list is listed up to the matching place of the other. */
  lemma MoreIn(dirs: seq<Path>, live: seq<Path>, more: seq<Path>, n: nat, d: Path)
    requires ToSet(live) <= ToSet(dirs) && |live| <= n <= |live + more| && d in ToSet((live + more)[..n])
    ensures d in ToSet((dirs + more)[..|dirs| + n - |live|])
  {
    var cs := dirs + more;
    var j :| 0 <= j < n && (live + more)[j] == d;
    if j < |live| {
      assert d in ToSet(live);
      var k :| 0 <= k < |dirs| && dirs[k] == d;
      assert cs[..|dirs| + n - |live|][k] == d;
    } else {
      assert cs[..|dirs| + n - |live|][|dirs| + j - |live|] == d;
    }
  }

  lemma ListedMoreAt(g: Ground, dirs: seq<Path>, live: seq<Path>, more: seq<Path>, i: nat, d: Path)
    requires Listed(g, dirs) && Listed(g, live + more) && ToSet(live) <= ToSet(dirs)
    requires i < |dirs + more| && StrictlyAbove(d, (dirs + more)[i]) && d !in g.base
    ensures d in ToSet((dirs + more)[..i])
  {
    if i < |dirs| {
      assert (dirs + more)[..i] == dirs[..i];
    } else {
      var n := |live| + i - |dirs|;
      assert (live + more)[n] == (dirs + more)[i];
      MoreIn(dirs, live, more, n, d);
    }
  }

  lemma MovingNotLost(t: Tree, g: Ground, m: Manifest, live: seq<Path>, lost: set<Path>, files: map<Path, Content>, items: seq<Item>)
    requires Standing(t, g, m, live, lost, files) && Dests(items) <= g.dests && !Blocked(t, InTheWay(t, items, Owned(m.files)))
    ensures ToSet(InTheWay(t, items, Owned(m.files))) !! lost && ToSet(InTheWay(t, items, Owned(m.files))) <= Dests(items)
  {
    var ds := InTheWay(t, items, Owned(m.files));
    MovableAll(t, g, m, live, lost, files, items);
    forall p | p in ToSet(ds) ensures p !in lost && p in Dests(items) { assert p in ds; }
  }

  /** The attempt, followed with the folders that stand, keeps the run's invariant. */
  lemma UpgradeRuns(t: Tree, g: Ground, hash: Content -> int, m: Manifest, live: seq<Path>, lost: set<Path>, files: map<Path, Content>,
                    job: Job, left: nat)
    requires Standing(t, g, m, live, lost, files) && Load(g.base, g.record).Absent? && job.hash == hash && job.previous == m
    requires g.pid == job.plan.pid && g.record == job.plan.record && Dests(job.plan.items) <= g.dests
    requires job.moving == InTheWay(t, job.plan.items, Owned(m.files)) && !Blocked(t, job.moving)
    requires Droppable(files, m.files, 0, Dests(job.plan.items), hash) && !Followed(t, left, job, live).failed
    ensures Followed(t, left, job, live).entries == EntriesFor(job.plan.items, |job.plan.items|, job)
    ensures RunIs(Followed(t, left, job, live), g, WithBackup(m.files) + lost + ToSet(job.moving),
                  After(files, job.plan.items, m, g.record, Record(Written(t, left, job))))
  {
    var moved, c := MoveAll(Start(t, left, live), job.moving, 0), Record(Written(t, left, job));
    var before := WithBackup(m.files) + lost;
    NoneFailed(moved, job, c);
    Moved(t, g, m, live, lost, files, job.plan.items, left);
    MovedPlanned(t, g, m, live, lost, files, job.plan.items);
    MovingDests(t, g, m, job.plan.items);
    FilesPlaces(g, m, live, lost, files);
    FreeNext(g, m.files, before, before + ToSet(job.moving));
    Finished(moved, job, c, g, before + ToSet(job.moving), files);
  }

  /** The folders of the files in place are among those that stand. */
  lemma CoveredAfter(s: Run, g: Ground, away: set<Path>, files: map<Path, Content>, m: Manifest)
    requires RunIs(s, g, away, files) && Owned(m.files) <= files.Keys && ToSet(s.created) <= ToSet(m.dirs)
    ensures Covered(g, m)
  {
    forall i, d | 0 <= i < |m.files| && StrictlyAbove(d, m.files[i].path) && d !in g.base ensures d in ToSet(m.dirs) {
      assert m.files[i].path in files.Keys;
      NeededIsMade(s, g, away, files, m.files[i].path, d);
    }
  }

  /** What the new manifest has to do with what is there. */
  lemma UpgradeRecords(t: Tree, g: Ground, m: Manifest, live: seq<Path>, lost: set<Path>, files: map<Path, Content>,
                       job: Job, es: seq<Entry>, more: seq<Path>)
    requires Standing(t, g, m, live, lost, files) && job.previous == m && es == EntriesFor(job.plan.items, |job.plan.items|, job)
    requires Dests(job.plan.items) <= g.dests && Once(job.plan.items)
    requires job.moving == InTheWay(t, job.plan.items, Owned(m.files)) && !Blocked(t, job.moving)
    requires Listed(g, live + more) && Covered(g, Manifest(es, m.dirs + more))
    ensures var m', lost' := Manifest(es, m.dirs + more), lost + (WithBackup(m.files) - Dests(job.plan.items));
            && Recording(g, m', live + more, lost', After(files, job.plan.items, m, g.record, Record(m')))
            && WithBackup(es) + lost' == WithBackup(m.files) + lost + ToSet(job.moving)
            && Owned(es) == Dests(job.plan.items)
            && NoneAltered(es, After(files, job.plan.items, m, g.record, Record(m')), job.hash)
  {
    var items, m' := job.plan.items, Manifest(es, m.dirs + more);
    MovingNotLost(t, g, m, live, lost, files, items);
    AwayRecorded(items, job, lost);
    EntriesStand(g, files, job, es, Record(m'));
    MovedPlanned(t, g, m, live, lost, files, items);
    FreeAfter(g, items, job, WithBackup(m.files) + lost + ToSet(job.moving));
    ListedMore(g, m.dirs, live, more);
    var after := After(files, items, m, g.record, Record(m'));
    forall k ensures k in after <==> k in Dests(items) || k == g.record { AfterAt(g, files, items, m, Record(m'), k); }
  }

  lemma UpgradeCovers(s: Run, g: Ground, away: set<Path>, files: map<Path, Content>, job: Job, m: Manifest, live: seq<Path>, more: seq<Path>, es: seq<Entry>)
    requires es == EntriesFor(job.plan.items, |job.plan.items|, job) && Dests(job.plan.items) <= g.dests
    requires files.Keys <= Owned(m.files) + {g.record} && Listed(g, m.dirs) && ToSet(live) <= ToSet(m.dirs) && s.created == live + more
    requires Listed(g, live + more)
    requires RunIs(s, g, away, After(files, job.plan.items, m, g.record, Record(Manifest(es, m.dirs + more))))
    ensures Covered(g, Manifest(es, m.dirs + more))
  {
    var m' := Manifest(es, m.dirs + more);
    var after := After(files, job.plan.items, m, g.record, Record(m'));
    forall p | p in Owned(es) ensures p in after {
      var i :| 0 <= i < |es| && es[i].path == p;
      assert es[i] == EntryFor(job.plan.items[i], job);
      AfterAt(g, files, job.plan.items, m, Record(m'), p);
    }
    ListedMore(g, m.dirs, live, more);
    CoveredAfter(s, g, away, after, m');
  }

  /** A successful install leaves its own manifest in force with every file as recorded, if it ships again
      what has changed. Lost are the backups that were lost before, and those of the paths it no longer
      ships. */
  lemma Upgrade(t: Tree, g: Ground, hash: Content -> int, m: Manifest, live: seq<Path>, lost: set<Path>, files: map<Path, Content>,
                plan: Plan, left: nat, torn: bool)
    returns (m': Manifest, live': seq<Path>, files': map<Path, Content>)
    requires Standing(t, g, m, live, lost, files) && Load(g.base, g.record).Absent?
    requires g.pid == plan.pid && g.record == plan.record && Dests(plan.items) <= g.dests && Once(plan.items)
    requires !Blocked(t, JobFor(t, plan, hash, torn, m).moving) && Droppable(files, m.files, 0, Dests(plan.items), hash)
    requires !Attempt(Begin(t, left, m), JobFor(t, plan, hash, torn, m)).failed
    ensures var r := Attempt(Begin(t, left, m), JobFor(t, plan, hash, torn, m));
            Standing(r.tree, g, m', live', lost + (WithBackup(m.files) - Dests(plan.items)), files')
    ensures g.record in files' && Owned(m'.files) == Dests(plan.items) && NoneAltered(m'.files, files', hash)
    ensures live == m.dirs ==> live' == m'.dirs
  {
    var job := JobFor(t, plan, hash, torn, m);
    var r := Attempt(Begin(t, left, m), job);
    var more := UpgradeMakes(t, m, live, job, left);
    m', live' := Manifest(r.entries, m.dirs + more), live + more;
    files' := After(files, plan.items, m, g.record, Record(m'));
    UpgradeRuns(t, g, hash, m, live, lost, files, job, left);
    UpgradeStands(t, Followed(t, left, job, live), g, m, live, lost, files, job, more);
  }

  /** The folders an attempt makes, and the attempt followed with those that stand. */
  lemma UpgradeMakes(t: Tree, m: Manifest, live: seq<Path>, job: Job, left: nat) returns (more: seq<Path>)
    requires job.previous == m
    ensures var r, s := Attempt(Begin(t, left, m), job), Followed(t, left, job, live);
            && r.created == m.dirs + more && s.created == live + more
            && s.tree == r.tree && s.entries == r.entries && s.failed == r.failed && Written(t, left, job) == Manifest(r.entries, m.dirs + more)
  {
    FollowedIs(t, left, job, live);
    AttemptIs(t, left, job);
    more := Attempt(Begin(t, left, m), job).created[|m.dirs|..];
  }

  /** A run that went through leaves its manifest in force. */
  lemma UpgradeStands(t: Tree, s: Run, g: Ground, m: Manifest, live: seq<Path>, lost: set<Path>, files: map<Path, Content>, job: Job, more: seq<Path>)
    requires Standing(t, g, m, live, lost, files) && job.previous == m && Dests(job.plan.items) <= g.dests && Once(job.plan.items)
    requires job.moving == InTheWay(t, job.plan.items, Owned(m.files)) && !Blocked(t, job.moving)
    requires s.created == live + more && s.entries == EntriesFor(job.plan.items, |job.plan.items|, job)
    requires var m' := Manifest(s.entries, m.dirs + more);
             RunIs(s, g, WithBackup(m.files) + lost + ToSet(job.moving), After(files, job.plan.items, m, g.record, Record(m')))
    ensures var m' := Manifest(s.entries, m.dirs + more);
            var files' := After(files, job.plan.items, m, g.record, Record(m'));
            && Standing(s.tree, g, m', live + more, lost + (WithBackup(m.files) - Dests(job.plan.items)), files')
            && g.record in files' && Owned(m'.files) == Dests(job.plan.items) && NoneAltered(m'.files, files', job.hash)
  {
    var away, m' := WithBackup(m.files) + lost + ToSet(job.moving), Manifest(s.entries, m.dirs + more);
    var files' := After(files, job.plan.items, m, g.record, Record(m'));
    ListedNow(s, g, away, files');
    UpgradeCovers(s, g, away, files, job, m, live, more, s.entries);
    UpgradeRecords(t, g, m, live, lost, files, job, s.entries, more);
    SameRun(s, Start(s.tree, 0, live + more), g, away, files');
  }
}
