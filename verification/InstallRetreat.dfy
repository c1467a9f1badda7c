/** An upgrade that fails: the handler takes the new files and folders out again and puts back what the
    upgrade moved, but a file of the old installation that was replaced or dropped by then stays so. */
module InstallRetreat {
  import opened Basics
  import opened InstallTree
  import opened InstallRun
  import opened InstallSteps
  import opened InstallPlace
  import opened InstallRollback
  import opened InstallShadow
  import opened InstallChain
  import opened InstallUpgrade
  import opened InstallWorn

  /** The file is the one from before or one of the plan's. */
  ghost predicate OldOrNew(was: map<Path, Content>, items: seq<Item>, k: Path, c: Content) {
    (k in was && was[k] == c) || Item(k, c) in items
  }

  /** The files of a run over the old installation `was`: old ones, new ones noted as written or at places
      the manifest owns, and the one the failing step left behind. The manifest is untouched unless it is
      the one left behind. */
  ghost predicate Mixed(r: Run, g: Ground, items: seq<Item>, owned: set<Path>, was: map<Path, Content>, files: map<Path, Content>) {
    && (forall k :: k in files ==> k in was || k in r.written || k in owned || r.junk == Some(k))
    && (forall k :: k in files && r.junk != Some(k) ==> OldOrNew(was, items, k, files[k]))
    && (r.junk.Some? ==> r.failed && r.junk.value in files && (r.junk.value == g.record || IsTmp(g, r.junk.value)))
    && (g.record in was ==> g.record in files) && (r.junk == Some(g.record) ==> files[g.record] == Torn)
  }

  ghost predicate MixedRun(r: Run, g: Ground, items: seq<Item>, owned: set<Path>, away: set<Path>, was: map<Path, Content>, files: map<Path, Content>) {
    RunIs(r, g, away, files) && Mixed(r, g, items, owned, was, files)
  }

  /** What is noted as written can be erased: it is a destination that is neither an old file nor on
      record, and its original is out of the way. */
  ghost predicate Erasable(r: Run, g: Ground, away: set<Path>, owned: set<Path>, was: map<Path, Content>) {
    forall k :: k in r.written ==> k in g.dests && k !in was && k !in owned && At(g.base, away, k) == None
  }

  /** The old files lie at recorded places, and the manifest at its own. */
  ghost predicate OnRecord(g: Ground, owned: set<Path>, was: map<Path, Content>) {
    owned <= g.dests && forall k :: k in was ==> k in owned || k == g.record
  }

  // ---- placing ----

  lemma MixedPlaced(r: Run, s: Run, items: seq<Item>, i: nat, job: Job, g: Ground, was: map<Path, Content>,
                    files: map<Path, Content>, files': map<Path, Content>)
    requires Mixed(r, g, items, Owned(job.previous.files), was, files) && !r.failed && i < |items| && items[i].dest in g.dests
    requires PlacedOr(r, s, items[i], job, Tmp(items[i].dest, g.pid), files, files')
    ensures Mixed(s, g, items, Owned(job.previous.files), was, files')
  {
    var p := items[i].dest;
    TmpNoDest(g, p);
    assert Item(p, items[i].content) in items;
    assert forall k :: k in r.written ==> k in s.written;
  }

  lemma ErasablePlaced(r: Run, s: Run, item: Item, job: Job, g: Ground, away: set<Path>, was: map<Path, Content>,
                       files: map<Path, Content>, files': map<Path, Content>)
    requires Erasable(r, g, away, Owned(job.previous.files), was) && item.dest in g.dests && At(g.base, away, item.dest) == None
    requires OnRecord(g, Owned(job.previous.files), was)
    requires PlacedOr(r, s, item, job, Tmp(item.dest, g.pid), files, files')
    ensures Erasable(s, g, away, Owned(job.previous.files), was) && s.moved == r.moved
  {
    TmpNoRecord(g);
    forall k | k in s.written ensures k in r.written || (k == item.dest && k !in Owned(job.previous.files)) { }
  }

  lemma TmpNotMixed(r: Run, g: Ground, items: seq<Item>, away: set<Path>, owned: set<Path>, was: map<Path, Content>, files: map<Path, Content>, p: Path)
    requires Mixed(r, g, items, owned, was, files) && Erasable(r, g, away, owned, was) && !r.failed && OnRecord(g, owned, was) && p in g.dests
    ensures Tmp(p, g.pid) !in files
  {
    TmpNoDest(g, p);
  }

  lemma {:induction false} PlaceAllMixed(r: Run, items: seq<Item>, i: nat, job: Job, g: Ground, away: set<Path>,
                                         was: map<Path, Content>, files: map<Path, Content>)
    returns (files': map<Path, Content>)
    requires MixedRun(r, g, items, Owned(job.previous.files), away, was, files) && Erasable(r, g, away, Owned(job.previous.files), was)
    requires i <= |items| && Planned(items, g, away) && job.plan.pid == g.pid && OnRecord(g, Owned(job.previous.files), was)
    ensures var s := PlaceAll(r, items, i, job);
            && MixedRun(s, g, items, Owned(job.previous.files), away, was, files')
            && Erasable(s, g, away, Owned(job.previous.files), was) && s.moved == r.moved
    decreases |items| - i
  {
    files' := files;
    if !r.failed && i < |items| {
      TmpNotMixed(r, g, items, away, Owned(job.previous.files), was, files, items[i].dest);
      files' := PlaceRun(r, items[i], job, g, away, files);
      var s := Place(r, items[i], job);
      MixedPlaced(r, s, items, i, job, g, was, files, files');
      ErasablePlaced(r, s, items[i], job, g, away, was, files, files');
      files' := PlaceAllMixed(s, items, i + 1, job, g, away, was, files');
    }
  }

  // ---- dropping ----

  lemma MixedDropped(r: Run, s: Run, p: Path, g: Ground, items: seq<Item>, owned: set<Path>, was: map<Path, Content>, files: map<Path, Content>)
    requires Mixed(r, g, items, owned, was, files) && p in g.dests && s.written == r.written && s.junk == r.junk && s.failed == r.failed
    ensures Mixed(s, g, items, owned, was, files - {p})
  {
    TmpNoDest(g, p);
    if r.junk == Some(p) && IsTmp(g, p) { TmpElsewhere(g, p); }
  }

  lemma DropMixed(r: Run, p: Path, g: Ground, items: seq<Item>, owned: set<Path>, away: set<Path>, was: map<Path, Content>, files: map<Path, Content>)
    requires MixedRun(r, g, items, owned, away, was, files) && p in g.dests && At(g.base, away, p) == None
    ensures MixedRun(Dropped(r, p), g, items, owned, away, was, files - {p})
  {
    EraseStep(r, p, g, away, files);
    SameRun(r.(tree := r.tree - {p}), Dropped(r, p), g, away, files - {p});
    MixedDropped(r, Dropped(r, p), p, g, items, owned, was, files);
  }

  lemma StopMixed(r: Run, g: Ground, items: seq<Item>, owned: set<Path>, away: set<Path>, was: map<Path, Content>, files: map<Path, Content>)
    requires MixedRun(r, g, items, owned, away, was, files)
    ensures MixedRun(r.(failed := true), g, items, owned, away, was, files)
  {
    SameRun(r, r.(failed := true), g, away, files);
  }

  lemma {:induction false} DropOldMixed(r: Run, es: seq<Entry>, i: nat, shipped: set<Path>, hash: Content -> int, g: Ground,
                                        items: seq<Item>, owned: set<Path>, away: set<Path>, was: map<Path, Content>, files: map<Path, Content>)
    returns (files': map<Path, Content>)
    requires i <= |es| && MixedRun(r, g, items, owned, away, was, files) && Free(es, g, away)
    ensures MixedRun(DropOld(r, es, i, shipped, hash), g, items, owned, away, was, files')
    decreases |es| - i
  {
    files' := files;
    if !r.failed && i < |es| {
      if es[i].path in shipped || !Unchanged(r.tree, es[i], hash) {
        files' := DropOldMixed(r, es, i + 1, shipped, hash, g, items, owned, away, was, files);
      } else if r.left == 0 {
        StopMixed(r, g, items, owned, away, was, files);
      } else {
        DropMixed(r, es[i].path, g, items, owned, away, was, files);
        files' := DropOldMixed(Dropped(r, es[i].path), es, i + 1, shipped, hash, g, items, owned, away, was, files - {es[i].path});
      }
    }
  }

  lemma {:induction false} DropOldNotes(r: Run, es: seq<Entry>, i: nat, shipped: set<Path>, hash: Content -> int)
    requires i <= |es|
    ensures DropOld(r, es, i, shipped, hash).written == r.written && DropOld(r, es, i, shipped, hash).moved == r.moved
    decreases |es| - i
  {
    if !r.failed && i < |es| {
      DropOldNotes(r, es, i + 1, shipped, hash);
      DropOldNotes(Dropped(r, es[i].path), es, i + 1, shipped, hash);
    }
  }

  // ---- the manifest ----

  /** Where the manifest can be written its original is out of the way. */
  lemma RecordFree(r: Run, g: Ground, away: set<Path>, files: map<Path, Content>)
    requires RunIs(r, g, away, files) && Load(g.base, g.record).Absent? && CanWrite(r.tree, g.record)
    ensures At(g.base, away, g.record) == None
  {
    AtSite(g, away, g.record);
    if g.record !in files { SiteShows(r, g, away, files, g.record); }
  }

  lemma RecordMixed(r: Run, c: Content, torn: bool, g: Ground, items: seq<Item>, owned: set<Path>, away: set<Path>, was: map<Path, Content>, files: map<Path, Content>)
    returns (files': map<Path, Content>)
    requires MixedRun(r, g, items, owned, away, was, files) && Write(r, g.record, c, torn).failed && Load(g.base, g.record).Absent?
    ensures var s := Write(r, g.record, c, torn);
            MixedRun(s, g, items, owned, away, was, files') && s.written == r.written && s.moved == r.moved && s.created == r.created
  {
    files' := files;
    var s := Write(r, g.record, c, torn);
    if !r.failed && CanWrite(r.tree, g.record) && torn {
      RecordFree(r, g, away, files);
      WriteStep(r, g, away, files, g.record, Torn);
      files' := files[g.record := Torn];
      SameRun(r.(tree := r.tree[g.record := File(Torn)]), s, g, away, files');
    } else {
      SameRun(r, s, g, away, files);
    }
  }

  // ---- the attempt ----

  /** What the handler finds. The entries moved by this run are neither old files nor at a backup from before. */
  ghost predicate Broken(r: Run, g: Ground, items: seq<Item>, m: Manifest, lost: set<Path>, was: map<Path, Content>, files: map<Path, Content>) {
    var before := WithBackup(m.files) + lost;
    && MixedRun(r, g, items, Owned(m.files), before + ToSet(r.moved), was, files)
    && Erasable(r, g, before + ToSet(r.moved), Owned(m.files), was) && MovedApart(r.moved, before, Owned(m.files), was)
  }

  ghost predicate MovedApart(moved: seq<Path>, before: set<Path>, owned: set<Path>, was: map<Path, Content>) {
    && (forall j, k :: 0 <= j < k < |moved| ==> moved[j] != moved[k])
    && (forall j :: 0 <= j < |moved| ==> moved[j] !in before && moved[j] !in was && moved[j] !in owned)
  }

  lemma MovesRun(t: Tree, g: Ground, live: seq<Path>, before: set<Path>, was: map<Path, Content>, ds: seq<Path>, left: nat)
    requires RunIs(Start(t, 0, live), g, before, was) && Movable(g, before, was, ds, 0)
    ensures var r := MoveAll(Start(t, left, live), ds, 0);
            RunIs(r, g, before + ToSet(r.moved), was)
  {
    var b := Start(t, left, live);
    SameRun(Start(t, 0, live), b, g, before, was);
    assert before + ToSet(b.moved) == before;
    MoveAllRun(b, g, before, was, ds, 0);
  }

  lemma MovesShape(t: Tree, g: Ground, live: seq<Path>, before: set<Path>, owned: set<Path>, was: map<Path, Content>, ds: seq<Path>, left: nat)
    requires Movable(g, before, was, ds, 0) && forall j :: 0 <= j < |ds| ==> ds[j] !in owned
    ensures var r := MoveAll(Start(t, left, live), ds, 0);
            && r.created == live && r.written == [] && r.junk == None && MovedApart(r.moved, before, owned, was)
            && (!r.failed ==> r.moved == ds)
  {
    var n := MoveAllShape(Start(t, left, live), ds, 0);
    assert ds[..|ds|] == ds;
  }

  lemma NotOwned(t: Tree, items: seq<Item>, owned: set<Path>)
    ensures forall j :: 0 <= j < |InTheWay(t, items, owned)| ==> InTheWay(t, items, owned)[j] !in owned
  {
    var ds := InTheWay(t, items, owned);
    forall j | 0 <= j < |ds| ensures ds[j] !in owned { assert ds[j] in ds; }
  }

  lemma MovesMixed(t: Tree, g: Ground, m: Manifest, live: seq<Path>, lost: set<Path>, was: map<Path, Content>, items: seq<Item>, left: nat)
    requires Standing(t, g, m, live, lost, was) && Dests(items) <= g.dests && !Blocked(t, InTheWay(t, items, Owned(m.files)))
    ensures var r := MoveAll(Start(t, left, live), InTheWay(t, items, Owned(m.files)), 0);
            && RunIs(r, g, WithBackup(m.files) + lost + ToSet(r.moved), was) && r.created == live && r.written == [] && r.junk == None
            && MovedApart(r.moved, WithBackup(m.files) + lost, Owned(m.files), was)
            && (!r.failed ==> r.moved == InTheWay(t, items, Owned(m.files)))
  {
    var ds, before := InTheWay(t, items, Owned(m.files)), WithBackup(m.files) + lost;
    MovableAll(t, g, m, live, lost, was, items);
    NotOwned(t, items, Owned(m.files));
    MovesRun(t, g, live, before, was, ds, left);
    MovesShape(t, g, live, before, Owned(m.files), was, ds, left);
  }

  lemma OnRecordNow(t: Tree, g: Ground, m: Manifest, live: seq<Path>, lost: set<Path>, was: map<Path, Content>)
    requires Standing(t, g, m, live, lost, was)
    ensures OnRecord(g, Owned(m.files), was)
  {
    FilesPlaces(g, m, live, lost, was);
    forall k | k in was ensures k in Owned(m.files) || k == g.record { assert k in was.Keys; }
  }

  lemma StartMixed(r: Run, g: Ground, items: seq<Item>, owned: set<Path>, was: map<Path, Content>)
    requires r.junk == None
    ensures Mixed(r, g, items, owned, was, was)
  {
  }

  /** From the files in place to the failure. */
  lemma RecordedMixed(placed: Run, job: Job, c: Content, g: Ground, away: set<Path>, was: map<Path, Content>, files: map<Path, Content>)
    returns (files': map<Path, Content>)
    requires MixedRun(placed, g, job.plan.items, Owned(job.previous.files), away, was, files) && Free(job.previous.files, g, away)
    requires g.record == job.plan.record && Recorded(placed, job, c).failed && Load(g.base, g.record).Absent?
    ensures var r := Recorded(placed, job, c);
            && MixedRun(r, g, job.plan.items, Owned(job.previous.files), away, was, files')
            && r.written == placed.written && r.moved == placed.moved
  {
    var es, shipped, owned := job.previous.files, Dests(job.plan.items), Owned(job.previous.files);
    var dropped := DropOld(placed, es, 0, shipped, job.hash);
    DropOldNotes(placed, es, 0, shipped, job.hash);
    files' := DropOldMixed(placed, es, 0, shipped, job.hash, g, job.plan.items, owned, away, was, files);
    files' := RecordMixed(dropped, c, job.torn, g, job.plan.items, owned, away, was, files');
  }

  lemma PlacedMixed(moved: Run, job: Job, g: Ground, away: set<Path>, was: map<Path, Content>)
    returns (files: map<Path, Content>)
    requires RunIs(moved, g, away, was) && moved.written == [] && moved.junk == None
    requires !moved.failed ==> Planned(job.plan.items, g, away)
    requires job.plan.pid == g.pid && OnRecord(g, Owned(job.previous.files), was)
    ensures var s := PlaceAll(moved, job.plan.items, 0, job);
            && MixedRun(s, g, job.plan.items, Owned(job.previous.files), away, was, files)
            && Erasable(s, g, away, Owned(job.previous.files), was) && s.moved == moved.moved
  {
    StartMixed(moved, g, job.plan.items, Owned(job.previous.files), was);
    files := was;
    if !moved.failed { files := PlaceAllMixed(moved, job.plan.items, 0, job, g, away, was, was); }
  }

  lemma MovedDests(moved: seq<Path>, t: Tree, g: Ground, m: Manifest, items: seq<Item>, left: nat, live: seq<Path>)
    requires Dests(items) <= g.dests && moved == MoveAll(Start(t, left, live), InTheWay(t, items, Owned(m.files)), 0).moved
    ensures ToSet(moved) <= g.dests
  {
    var ds := InTheWay(t, items, Owned(m.files));
    var n := MoveAllShape(Start(t, left, live), ds, 0);
    MovingDests(t, g, m, items);
    forall p | p in ToSet(moved) ensures p in ToSet(ds) { }
  }

  /** Wherever an upgrade fails, the handler finds everything accounted for. */
  lemma AttemptBreaks(t: Tree, g: Ground, m: Manifest, live: seq<Path>, lost: set<Path>, was: map<Path, Content>, job: Job, left: nat)
    returns (files: map<Path, Content>)
    requires Standing(t, g, m, live, lost, was) && Load(g.base, g.record).Absent? && job.previous == m
    requires g.pid == job.plan.pid && g.record == job.plan.record && Dests(job.plan.items) <= g.dests
    requires job.moving == InTheWay(t, job.plan.items, Owned(m.files)) && !Blocked(t, job.moving)
    requires Followed(t, left, job, live).failed
    ensures Broken(Followed(t, left, job, live), g, job.plan.items, m, lost, was, files)
  {
    var items, before := job.plan.items, WithBackup(m.files) + lost;
    MovesMixed(t, g, m, live, lost, was, items, left);
    MovedPlanned(t, g, m, live, lost, was, items);
    OnRecordNow(t, g, m, live, lost, was);
    var moved := MoveAll(Start(t, left, live), job.moving, 0);
    MovedDests(moved.moved, t, g, m, items, left, live);
    FreeNext(g, m.files, before, before + ToSet(moved.moved));
    files := PlacedMixed(moved, job, g, before + ToSet(moved.moved), was);
    files := RecordedMixed(PlaceAll(moved, items, 0, job), job, Record(Written(t, left, job)), g, before + ToSet(moved.moved), was, files);
  }

  // ---- the handler ----

  lemma {:induction false} UnlistedSame(files: map<Path, Content>, ps: seq<Path>, i: nat, k: Path)
    requires i <= |ps| && k in Unlisted(files, ps, i)
    ensures k in files && Unlisted(files, ps, i)[k] == files[k]
    decreases |ps| - i
  {
    if i < |ps| { UnlistedSame(files - {ps[i]}, ps, i + 1, k); }
  }

  /** What the handler leaves of the files. */
  ghost function Survivors(r: Run, files: map<Path, Content>): map<Path, Content> {
    Unlisted(files, r.written, 0)
  }

  lemma SurvivorIff(r: Run, files: map<Path, Content>, k: Path)
    ensures k in Survivors(r, files) <==> k in files && k !in r.written
    ensures k in Survivors(r, files) ==> Survivors(r, files)[k] == files[k]
  {
    UnlistedKeys(files, r.written, 0, k);
    assert r.written[0..] == r.written;
    if k in Survivors(r, files) { UnlistedSame(files, r.written, 0, k); }
  }

  /** The folders that hold a file, in the order they were made. */
  ghost function HoldingList(files: map<Path, Content>, cs: seq<Path>): seq<Path> {
    if cs == [] then [] else
    var c := cs[|cs| - 1];
    HoldingList(files, cs[..|cs| - 1]) + if Holds(files, c) then [c] else []
  }

  lemma {:induction false} HoldingListHas(files: map<Path, Content>, cs: seq<Path>)
    ensures ToSet(HoldingList(files, cs)) == HoldingOf(ToSet(cs), files)
  {
    if cs != [] {
      var front, c := cs[..|cs| - 1], cs[|cs| - 1];
      HoldingListHas(files, front);
      assert cs == front + [c];
      ToSetSnoc(front, c);
      ToSetSnoc(HoldingList(files, front), c);
      assert HoldingList(files, front) + [] == HoldingList(files, front);
    }
  }

  lemma CreatedSnoc(g: Ground, cs: seq<Path>, c: Path)
    requires CreatedOk(g, cs) && Above(g, c) && c !in g.base && forall i :: 0 <= i < |cs| ==> !Under(cs[i], c)
    ensures CreatedOk(g, cs + [c])
  {
    var ds := cs + [c];
    forall i | 0 <= i < |ds| ensures Above(g, ds[i]) && ds[i] !in g.base { if i < |cs| { assert ds[i] == cs[i]; } }
    forall i, j | 0 <= i < j < |ds| ensures !Under(ds[i], ds[j]) {
      assert ds[i] == cs[i];
      if j < |cs| { assert ds[j] == cs[j]; }
    }
  }

  lemma ListedEarlier(files: map<Path, Content>, cs: seq<Path>, c: Path, i: nat)
    requires forall j :: 0 <= j < |cs| ==> !Under(cs[j], c)
    requires i < |HoldingList(files, cs)|
    ensures !Under(HoldingList(files, cs)[i], c)
  {
    HoldingListHas(files, cs);
    assert HoldingList(files, cs)[i] in ToSet(HoldingList(files, cs));
  }

  lemma {:induction false} HoldingListOk(g: Ground, files: map<Path, Content>, cs: seq<Path>)
    requires CreatedOk(g, cs)
    ensures CreatedOk(g, HoldingList(files, cs))
  {
    if cs != [] {
      var front, c := cs[..|cs| - 1], cs[|cs| - 1];
      HoldingListOk(g, files, front);
      if Holds(files, c) {
        forall i: nat | i < |HoldingList(files, front)| ensures !Under(HoldingList(files, front)[i], c) { ListedEarlier(files, front, c, i); }
        CreatedSnoc(g, HoldingList(files, front), c);
      } else {
        assert HoldingList(files, cs) == HoldingList(files, front);
      }
    }
  }

  lemma {:induction false} PruneWellFormed(t: Tree, cs: seq<Path>, i: nat)
    requires i <= |cs| && WellFormed(t) && forall j :: 0 <= j < |cs| ==> cs[j] != []
    ensures WellFormed(Prune(t, cs, i))
    decreases |cs| - i
  {
    if i < |cs| {
      PruneWellFormed(t, cs, i + 1);
      var u := Prune(t, cs, i + 1);
      if IsEmptyDir(u, cs[i]) { DropWellFormed(u, cs[i]); }
    }
  }

  lemma ErasedRun(r: Run, g: Ground, away: set<Path>, owned: set<Path>, was: map<Path, Content>, files: map<Path, Content>)
    requires RunIs(r, g, away, files) && Erasable(r, g, away, owned, was)
    ensures RunIs(r.(tree := Erase(r.tree, r.written, 0)), g, away, Survivors(r, files))
  {
    EraseRun(r, r.written, 0, g, away, files);
  }

  lemma MovedNotKept(r: Run, g: Ground, items: seq<Item>, owned: set<Path>, was: map<Path, Content>, files: map<Path, Content>, d: Path)
    requires Mixed(r, g, items, owned, was, files) && d in g.dests && d !in was && d !in owned
    ensures d !in Survivors(r, files)
  {
    SurvivorIff(r, files, d);
    TmpNoRecord(g);
    if IsTmp(g, d) { TmpElsewhere(g, d); }
  }

  /** The tree when the handler has erased and moved back. */
  function PutBack(r: Run): Tree {
    Restore(Erase(r.tree, r.written, 0), r.moved, 0)
  }

  lemma PutBackRun(r: Run, g: Ground, items: seq<Item>, m: Manifest, lost: set<Path>, was: map<Path, Content>, files: map<Path, Content>)
    requires Broken(r, g, items, m, lost, was, files)
    ensures RunIs(r.(tree := PutBack(r)), g, WithBackup(m.files) + lost, Survivors(r, files))
  {
    var before := WithBackup(m.files) + lost;
    ErasedRun(r, g, before + ToSet(r.moved), Owned(m.files), was, files);
    var erased := r.(tree := Erase(r.tree, r.written, 0));
    forall j | 0 <= j < |r.moved| ensures r.moved[j] !in Survivors(r, files) {
      assert r.moved[j] in ToSet(r.moved);
      MovedNotKept(r, g, items, Owned(m.files), was, files, r.moved[j]);
    }
    RestoreRun(erased, r.moved, g, before, before + ToSet(r.moved), Survivors(r, files));
    assert erased.(tree := Restore(erased.tree, r.moved, 0)) == r.(tree := PutBack(r));
  }

  /** Removing what is empty of a list of folders, among them those that stand. */
  lemma PrunedRun(s: Run, g: Ground, away: set<Path>, files: map<Path, Content>, cs: seq<Path>)
    requires RunIs(s, g, away, files) && Listed(g, cs) && ToSet(s.created) <= ToSet(cs)
    ensures RunIs(Start(Prune(s.tree, cs, 0), 0, HoldingList(files, s.created)), g, away, files)
  {
    PruneRun(s.tree, g, away, files, ToSet(s.created), cs);
    PruneWellFormed(s.tree, cs, 0);
    HoldingListHas(files, s.created);
    HoldingListOk(g, files, s.created);
  }

  /** The handler takes out what was written, brings back what this run moved and leaves the folders that
      hold a file. `s` is the run followed with the folders that stand. */
  lemma HandlerBroken(r: Run, s: Run, g: Ground, items: seq<Item>, m: Manifest, live: seq<Path>, lost: set<Path>,
                      was: map<Path, Content>, files: map<Path, Content>)
    requires Broken(s, g, items, m, lost, was, files) && Listed(g, m.dirs) && ToSet(live) <= ToSet(m.dirs)
    requires |m.dirs| <= |r.created| && m.dirs == r.created[..|m.dirs|] && s == Shadow(r, |m.dirs|, live)
    ensures RunIs(Start(Rollback(r), 0, HoldingList(Survivors(s, files), s.created)), g, WithBackup(m.files) + lost, Survivors(s, files))
  {
    var more := r.created[|m.dirs|..];
    PutBackRun(s, g, items, m, lost, was, files);
    var back := s.(tree := PutBack(s));
    ListedNow(back, g, WithBackup(m.files) + lost, Survivors(s, files));
    ListedMore(g, m.dirs, live, more);
    assert r.created == m.dirs + more;
    PrunedRun(back, g, WithBackup(m.files) + lost, Survivors(s, files), r.created);
  }

  // ---- what the handler leaves ----

  /** The folders the original tree lacks for these files. */
  ghost function Needed(base: Tree, files: map<Path, Content>): set<Path> {
    set x, n: nat | x in files && n < |x| && x[..n] !in base :: x[..n]
  }

  /** The folders that are there are those the files need. */
  lemma FoldersNeeded(r: Run, g: Ground, away: set<Path>, files: map<Path, Content>, d: Path)
    requires RunIs(r, g, away, files) && forall c :: c in ToSet(r.created) ==> Holds(files, c)
    ensures d in ToSet(r.created) <==> d in Needed(g.base, files)
  {
    if d in ToSet(r.created) { MadeIsNeeded(g, files, d); }
    if d in Needed(g.base, files) {
      var x, n: nat :| x in files && n < |x| && x[..n] == d;
      NeededIsMade(r, g, away, files, x, d);
    }
  }

  lemma MadeIsNeeded(g: Ground, files: map<Path, Content>, d: Path)
    requires Above(g, d) && d !in g.base && Holds(files, d) && forall k :: k in files ==> IsSite(g, k)
    ensures d in Needed(g.base, files)
  {
    var x :| x in files && Under(x, d);
    AboveFree(g, d, x);
    assert x[..|d|] == d;
  }

  /** The files after a failed upgrade: at recorded places old files and files of the plan; the old manifest
      or a torn one; and a temporary at most. */
  ghost predicate KeptFrom(g: Ground, items: seq<Item>, m: Manifest, was: map<Path, Content>, kept: map<Path, Content>) {
    && (forall k :: k in kept ==> k in Owned(m.files) || k == g.record || IsTmp(g, k))
    && (forall k :: k in kept && k in Owned(m.files) ==> OldOrNew(was, items, k, kept[k]))
    && (g.record in was ==> g.record in kept)
    && (g.record in kept ==> (g.record in was && kept[g.record] == was[g.record]) || kept[g.record] == Torn)
    && (forall j, k :: j in kept && k in kept && IsTmp(g, j) && IsTmp(g, k) ==> j == k)
  }

  lemma TmpElsewhere(g: Ground, k: Path)
    requires IsTmp(g, k)
    ensures k !in g.dests && k != g.record
  {
    var p :| p in g.dests && k == Tmp(p, g.pid);
    TmpNoDest(g, p);
  }

  lemma NoItemThere(items: seq<Item>, p: Path, c: Content)
    ensures Item(p, c) in items ==> p in Dests(items)
  {
    if Item(p, c) in items {
      var i :| 0 <= i < |items| && items[i] == Item(p, c);
    }
  }

  lemma SurvivorsAre(r: Run, g: Ground, items: seq<Item>, away: set<Path>, m: Manifest, was: map<Path, Content>, files: map<Path, Content>)
    requires Mixed(r, g, items, Owned(m.files), was, files) && Erasable(r, g, away, Owned(m.files), was) && OnRecord(g, Owned(m.files), was)
    ensures forall k :: k in Survivors(r, files) ==> k in files && Survivors(r, files)[k] == files[k]
    ensures forall k :: k in Survivors(r, files) ==> k in Owned(m.files) || k == g.record || r.junk == Some(k)
    ensures g.record in Survivors(r, files) <==> g.record in files
    ensures r.junk.Some? ==> r.junk.value in Survivors(r, files)
  {
    TmpNoRecord(g);
    forall k ensures k in Survivors(r, files) <==> k in files && k !in r.written
             ensures k in Survivors(r, files) ==> Survivors(r, files)[k] == files[k]
    {
      SurvivorIff(r, files, k);
    }
    if r.junk.Some? && r.junk.value != g.record { TmpElsewhere(g, r.junk.value); }
  }

  lemma SurvivorsKept(r: Run, g: Ground, items: seq<Item>, away: set<Path>, m: Manifest, was: map<Path, Content>, files: map<Path, Content>)
    requires Mixed(r, g, items, Owned(m.files), was, files) && Erasable(r, g, away, Owned(m.files), was) && OnRecord(g, Owned(m.files), was)
    requires Dests(items) <= g.dests
    ensures KeptFrom(g, items, m, was, Survivors(r, files))
  {
    SurvivorsAre(r, g, items, away, m, was, files);
    TmpNoRecord(g);
    forall k | IsTmp(g, k) ensures k !in g.dests && k != g.record { TmpElsewhere(g, k); }
    if g.record in files { NoItemThere(items, g.record, files[g.record]); }
  }

  /** The folders above a recorded file are listed. */
  lemma OwnedCovered(g: Ground, m: Manifest, d: Path, x: Path)
    requires Covered(g, m) && x in Owned(m.files) && x in g.dests && Above(g, d) && d !in g.base && Under(x, d)
    ensures d in ToSet(m.dirs)
  {
    AboveFree(g, d, x);
    var i :| 0 <= i < |m.files| && m.files[i].path == x;
    assert StrictlyAbove(d, m.files[i].path);
  }

  /** So are those above the manifest. */
  lemma RecordCovered(t: Tree, g: Ground, m: Manifest, live: seq<Path>, lost: set<Path>, was: map<Path, Content>, d: Path)
    requires Standing(t, g, m, live, lost, was) && g.record in was && Above(g, d) && d !in g.base && Under(g.record, d)
    ensures d in ToSet(m.dirs)
  {
    AboveFree(g, d, g.record);
    NeededIsMade(Start(t, 0, live), g, WithBackup(m.files) + lost, was, g.record, d);
  }

  /** A folder that is not listed holds the leftover alone. */
  lemma OnlyLeftoverThere(t: Tree, g: Ground, m: Manifest, live: seq<Path>, lost: set<Path>, was: map<Path, Content>,
                          kept: map<Path, Content>, d: Path, x: Path)
    requires Standing(t, g, m, live, lost, was) && (x == g.record ==> g.record in was)
    requires Above(g, d) && d !in g.base && d !in ToSet(m.dirs) && x in kept && Under(x, d)
    ensures x in Unrecorded(g, m, kept)
  {
    if x in Owned(m.files) {
      FilesPlaces(g, m, live, lost, was);
      OwnedCovered(g, m, d, x);
    } else if x == g.record {
      RecordCovered(t, g, m, live, lost, was, d);
    }
  }

  /** After a failed upgrade the tree is a worn installation of the old manifest, unless that manifest is torn. */
  lemma HandledWorn(t: Tree, s: Run, g: Ground, items: seq<Item>, m: Manifest, live: seq<Path>, lost: set<Path>,
                    was: map<Path, Content>, kept: map<Path, Content>)
    requires Standing(t, g, m, live, lost, was) && g.record in was
    requires RunIs(s, g, WithBackup(m.files) + lost, kept) && forall c :: c in ToSet(s.created) ==> Holds(kept, c)
    requires KeptFrom(g, items, m, was, kept) && kept[g.record] == was[g.record]
    ensures WornBy(s, g, m, lost, kept)
  {
    forall d | d in ToSet(s.created) && d !in ToSet(m.dirs) ensures Holds(Unrecorded(g, m, kept), d) {
      var x :| x in kept && Under(x, d);
      OnlyLeftoverThere(t, g, m, live, lost, was, kept, d, x);
    }
  }

  /** No temporary of the process is in the tree. */
  ghost predicate NoTemporaries(t: Tree, g: Ground) {
    forall p :: p in g.dests ==> Tmp(p, g.pid) !in t
  }

  lemma LeftoverIff(s: Run, g: Ground, items: seq<Item>, m: Manifest, away: set<Path>, was: map<Path, Content>, kept: map<Path, Content>)
    requires RunIs(s, g, away, kept) && KeptFrom(g, items, m, was, kept) && Owned(m.files) <= g.dests
    ensures NoTemporaries(s.tree, g) <==> Unrecorded(g, m, kept) == map[]
  {
    forall p | p in g.dests ensures Tmp(p, g.pid) in s.tree <==> Tmp(p, g.pid) in Unrecorded(g, m, kept) {
      TmpNoDest(g, p);
      TmpThere(s, g, away, kept, p);
    }
    forall k | k in Unrecorded(g, m, kept) ensures IsTmp(g, k) { }
  }

  lemma TmpThere(s: Run, g: Ground, away: set<Path>, kept: map<Path, Content>, p: Path)
    requires RunIs(s, g, away, kept) && p in g.dests
    ensures Tmp(p, g.pid) in s.tree <==> Tmp(p, g.pid) in kept
  {
    var tmp := Tmp(p, g.pid);
    if tmp in kept {
      assert Get(s.tree, tmp) == Look(Described(g, away, kept, s.created), tmp);
    } else {
      SiteShows(s, g, away, kept, tmp);
    }
  }

  lemma HandledTree(s: Run, g: Ground, away: set<Path>, kept: map<Path, Content>)
    requires RunIs(s, g, away, kept) && forall c :: c in ToSet(s.created) ==> Holds(kept, c)
    ensures Is(s.tree, Over(g.base, away, kept, Needed(g.base, kept)))
  {
    forall d ensures d in ToSet(s.created) <==> d in Needed(g.base, kept) { FoldersNeeded(s, g, away, kept, d); }
    assert ToSet(s.created) == Needed(g.base, kept);
  }

  lemma RecordThere(s: Run, g: Ground, away: set<Path>, kept: map<Path, Content>)
    requires RunIs(s, g, away, kept) && g.record in kept
    ensures Get(s.tree, g.record) == Some(File(kept[g.record]))
  {
    assert Get(s.tree, g.record) == Look(Described(g, away, kept, s.created), g.record);
  }

  /** Uninstalling what the handler leaves. */
  lemma RetreatIff(t: Tree, s: Run, g: Ground, hash: Content -> int, items: seq<Item>, m: Manifest, live: seq<Path>, lost: set<Path>,
                   was: map<Path, Content>, kept: map<Path, Content>)
    requires Standing(t, g, m, live, lost, was) && g.record in was && NoCaches(g)
    requires RunIs(s, g, WithBackup(m.files) + lost, kept) && forall c :: c in ToSet(s.created) ==> Holds(kept, c)
    requires KeptFrom(g, items, m, was, kept) && kept[g.record] == was[g.record]
    ensures Uninstall(s.tree, g.record, hash) == Some(g.base) <==> lost == {} && AsRecorded(s.tree, m, hash) && NoTemporaries(s.tree, g)
  {
    HandledWorn(t, s, g, items, m, live, lost, was, kept);
    UninstallWornIff(s, g, hash, m, lost, kept);
    FilesPlaces(g, m, live, lost, was);
    LeftoverIff(s, g, items, m, WithBackup(m.files) + lost, was, kept);
  }

  lemma TornRefused(s: Run, g: Ground, hash: Content -> int, away: set<Path>, kept: map<Path, Content>)
    requires RunIs(s, g, away, kept) && g.record in kept && kept[g.record] == Torn
    ensures Load(s.tree, g.record) == Invalid && Uninstall(s.tree, g.record, hash) == None
  {
    RecordThere(s, g, away, kept);
  }

  lemma OldLoaded(s: Run, g: Ground, m: Manifest, away: set<Path>, kept: map<Path, Content>)
    requires RunIs(s, g, away, kept) && g.record in kept && kept[g.record] == Record(m)
    ensures Load(s.tree, g.record) == Found(m)
  {
    RecordThere(s, g, away, kept);
  }

  /** What shows at a place whose original is out of the way. */
  lemma PlaceShows(r: Run, g: Ground, away: set<Path>, files: map<Path, Content>, k: Path)
    requires RunIs(r, g, away, files) && k in g.dests && At(g.base, away, k) == None
    ensures Get(r.tree, k) == if k in files then Some(File(files[k])) else None
  {
    if k in files {
      assert Get(r.tree, k) == Look(Described(g, away, files, r.created), k);
    } else {
      SiteShows(r, g, away, files, k);
      AtSite(g, away, k);
    }
  }

  /** The handler leaves the recorded places alone. */
  lemma OwnedAlone(s: Run, t': Tree, live: seq<Path>, g: Ground, items: seq<Item>, m: Manifest, lost: set<Path>,
                   was: map<Path, Content>, files: map<Path, Content>, k: Path)
    requires Broken(s, g, items, m, lost, was, files) && k in Owned(m.files) && Free(m.files, g, WithBackup(m.files) + lost)
    requires RunIs(Start(t', 0, live), g, WithBackup(m.files) + lost, Survivors(s, files))
    ensures Get(t', k) == Get(s.tree, k)
  {
    var before := WithBackup(m.files) + lost;
    SurvivorIff(s, files, k);
    StaysFree(g, before, before + ToSet(s.moved), k);
    PlaceShows(s, g, before + ToSet(s.moved), files, k);
    PlaceShows(Start(t', 0, live), g, before, Survivors(s, files), k);
  }

  /** What the failing step left is among what is kept: a temporary or a torn manifest. */
  ghost predicate LeftBehind(junk: Option<Path>, g: Ground, was: map<Path, Content>, kept: map<Path, Content>) {
    match junk
    case Some(x) => x in kept && ((IsTmp(g, x) && SameRecord(g, was, kept)) || (x == g.record && kept[x] == Torn))
    case None => (forall k :: k in kept ==> !IsTmp(g, k)) && SameRecord(g, was, kept)
  }

  /** The manifest is the one from before. */
  ghost predicate SameRecord(g: Ground, was: map<Path, Content>, kept: map<Path, Content>) {
    g.record in kept ==> g.record in was && kept[g.record] == was[g.record]
  }

  lemma LeftBehindNow(s: Run, g: Ground, items: seq<Item>, m: Manifest, lost: set<Path>, was: map<Path, Content>, files: map<Path, Content>)
    requires Broken(s, g, items, m, lost, was, files) && OnRecord(g, Owned(m.files), was) && Dests(items) <= g.dests
    ensures LeftBehind(s.junk, g, was, Survivors(s, files))
  {
    SurvivorsAre(s, g, items, WithBackup(m.files) + lost + ToSet(s.moved), m, was, files);
    forall k | IsTmp(g, k) ensures k !in g.dests && k != g.record { TmpElsewhere(g, k); }
    TmpNoRecord(g);
    if g.record in files { NoItemThere(items, g.record, files[g.record]); }
  }

  /** What the handler leaves of a failed upgrade, as a run. */
  lemma Handled(t: Tree, g: Ground, m: Manifest, live: seq<Path>, lost: set<Path>, was: map<Path, Content>, job: Job, left: nat)
    returns (live': seq<Path>, kept: map<Path, Content>)
    requires Standing(t, g, m, live, lost, was) && Load(g.base, g.record).Absent? && job.previous == m
    requires g.pid == job.plan.pid && g.record == job.plan.record && Dests(job.plan.items) <= g.dests
    requires job.moving == InTheWay(t, job.plan.items, Owned(m.files)) && !Blocked(t, job.moving)
    requires Attempt(Begin(t, left, m), job).failed
    ensures var r := Attempt(Begin(t, left, m), job);
            && RunIs(Start(Rollback(r), 0, live'), g, WithBackup(m.files) + lost, kept)
            && (forall c :: c in ToSet(live') ==> Holds(kept, c))
            && KeptFrom(g, job.plan.items, m, was, kept) && LeftBehind(r.junk, g, was, kept)
            && (forall k :: k in Owned(m.files) ==> Get(Rollback(r), k) == Get(r.tree, k))
  {
    FollowedIs(t, left, job, live);
    var r, s := Attempt(Begin(t, left, m), job), Followed(t, left, job, live);
    var files := AttemptBreaks(t, g, m, live, lost, was, job, left);
    OnRecordNow(t, g, m, live, lost, was);
    HandlerBroken(r, s, g, job.plan.items, m, live, lost, was, files);
    SurvivorsKept(s, g, job.plan.items, WithBackup(m.files) + lost + ToSet(s.moved), m, was, files);
    LeftBehindNow(s, g, job.plan.items, m, lost, was, files);
    kept := Survivors(s, files);
    live' := HoldingList(kept, s.created);
    HoldingListHas(kept, s.created);
    forall k | k in Owned(m.files) ensures Get(Rollback(r), k) == Get(r.tree, k) {
      OwnedAlone(s, Rollback(r), live', g, job.plan.items, m, lost, was, files, k);
    }
  }

  /** A failed upgrade that leaves nothing behind leaves the old manifest in force. */
  lemma StandsAgain(t: Tree, t': Tree, g: Ground, items: seq<Item>, m: Manifest, live: seq<Path>, live': seq<Path>, lost: set<Path>,
                    was: map<Path, Content>, kept: map<Path, Content>)
    requires Standing(t, g, m, live, lost, was) && RunIs(Start(t', 0, live'), g, WithBackup(m.files) + lost, kept)
    requires (forall c :: c in ToSet(live') ==> Holds(kept, c)) && KeptFrom(g, items, m, was, kept) && LeftBehind(None, g, was, kept)
    ensures Standing(t', g, m, live', lost, kept)
  {
    forall d | d in ToSet(live') ensures d in ToSet(m.dirs) {
      if d !in ToSet(m.dirs) {
        var x :| x in kept && Under(x, d);
        OnlyLeftoverThere(t, g, m, live, lost, was, kept, d, x);
      }
    }
  }

  /** The tree the handler leaves, and an uninstall of it. */
  lemma Retreat(t: Tree, s: Run, g: Ground, hash: Content -> int, items: seq<Item>, m: Manifest, live: seq<Path>, lost: set<Path>,
                was: map<Path, Content>, kept: map<Path, Content>)
    requires Standing(t, g, m, live, lost, was) && g.record in was && NoCaches(g)
    requires RunIs(s, g, WithBackup(m.files) + lost, kept) && forall c :: c in ToSet(s.created) ==> Holds(kept, c)
    requires KeptFrom(g, items, m, was, kept)
    ensures Is(s.tree, Over(g.base, WithBackup(m.files) + lost, kept, Needed(g.base, kept)))
    ensures Uninstall(s.tree, g.record, hash) == Some(g.base) <==>
            Load(s.tree, g.record) == Found(m) && lost == {} && AsRecorded(s.tree, m, hash) && NoTemporaries(s.tree, g)
  {
    HandledTree(s, g, WithBackup(m.files) + lost, kept);
    if kept[g.record] == was[g.record] {
      OldLoaded(s, g, m, WithBackup(m.files) + lost, kept);
      RetreatIff(t, s, g, hash, items, m, live, lost, was, kept);
    } else {
      TornRefused(s, g, hash, WithBackup(m.files) + lost, kept);
    }
  }

  /** A failed upgrade of an installation in force. Back in place is everything the upgrade moved, gone
      are its new files and folders; each recorded file is as it was, replaced by the plan's or dropped.
      An uninstall then gives the original tree if and only if the manifest is not torn, no backup had
      been lost track of, every recorded file is gone or as recorded, and no temporary is left. */
  lemma FailedUpgrade(t: Tree, g: Ground, hash: Content -> int, m: Manifest, live: seq<Path>, lost: set<Path>, was: map<Path, Content>,
                      plan: Plan, left: nat, torn: bool)
    returns (kept: map<Path, Content>)
    requires Standing(t, g, m, live, lost, was) && g.record in was && Load(g.base, g.record).Absent? && NoCaches(g)
    requires g.pid == plan.pid && g.record == plan.record && Dests(plan.items) <= g.dests
    requires Install(t, plan, hash, left, torn).Failed?
    ensures var t' := Install(t, plan, hash, left, torn).tree;
            && KeptFrom(g, plan.items, m, was, kept)
            && Is(t', Over(g.base, WithBackup(m.files) + lost, kept, Needed(g.base, kept)))
            && (Uninstall(t', g.record, hash) == Some(g.base) <==>
                Load(t', g.record) == Found(m) && lost == {} && AsRecorded(t', m, hash) && NoTemporaries(t', g))
  {
    LoadStanding(t, g, m, live, lost, was);
    var live';
    live', kept := Handled(t, g, m, live, lost, was, JobFor(t, plan, hash, torn, m), left);
    Retreat(t, Start(Install(t, plan, hash, left, torn).tree, 0, live'), g, hash, plan.items, m, live, lost, was, kept);
  }
}
