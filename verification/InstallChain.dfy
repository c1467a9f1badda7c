/** Successful installs, one over another: what stands after each of them. */
module InstallChain {
  import opened Basics
  import opened InstallTree
  import opened InstallRun
  import opened InstallSteps
  import opened InstallPlace
  import opened InstallRollback
  import opened InstallShadow

  ghost function WithBackup(es: seq<Entry>): set<Path> {
    set i | 0 <= i < |es| && es[i].backup.Some? :: es[i].path
  }

  ghost predicate Distinct(es: seq<Entry>) {
    forall i, j :: 0 <= i < j < |es| ==> es[i].path != es[j].path
  }

  /** The recorded places are destinations whose originals are out of the way. */
  ghost predicate Free(es: seq<Entry>, g: Ground, away: set<Path>) {
    forall i :: 0 <= i < |es| ==> es[i].path in g.dests && At(g.base, away, es[i].path) == None
  }

  /** The backups on record are those that belong to the entries. */
  ghost predicate BackupsOk(es: seq<Entry>) {
    forall i :: 0 <= i < |es| && es[i].backup.Some? ==> es[i].backup.value == Bak(es[i].path)
  }

  /** The file of the entry is there and is not the recorded one. */
  ghost predicate Altered(e: Entry, files: map<Path, Content>, hash: Content -> int) {
    e.path in files && hash(files[e.path]) != e.sha
  }

  /** No recorded file changed. */
  ghost predicate NoneAltered(es: seq<Entry>, files: map<Path, Content>, hash: Content -> int) {
    forall i: nat :: i < |es| ==> !Altered(es[i], files, hash)
  }

  /** The manifest m is in force in the tree. The added files are itself and files at its entries, though
      some of those may be gone or changed; the entries of the original tree that are at their backups
      are those it records and those in `lost`; of the folders it lists those in `live` stand. */
  ghost predicate Standing(t: Tree, g: Ground, m: Manifest, live: seq<Path>, lost: set<Path>, files: map<Path, Content>) {
    && RunIs(Start(t, 0, live), g, WithBackup(m.files) + lost, files)
    && Recording(g, m, live, lost, files)
  }

  /** The new folders above the recorded files are listed. */
  ghost predicate Covered(g: Ground, m: Manifest) {
    forall i, d {:trigger StrictlyAbove(d, m.files[i].path)} ::
      0 <= i < |m.files| && StrictlyAbove(d, m.files[i].path) && d !in g.base ==> d in ToSet(m.dirs)
  }

  /** What the manifest has to do with the files, the folders and the backups. */
  ghost predicate Recording(g: Ground, m: Manifest, live: seq<Path>, lost: set<Path>, files: map<Path, Content>) {
    && Listed(g, m.dirs) && ToSet(live) <= ToSet(m.dirs) && Covered(g, m)
    && Distinct(m.files) && Free(m.files, g, WithBackup(m.files) + lost) && BackupsOk(m.files)
    && lost !! WithBackup(m.files) && files.Keys <= Owned(m.files) + {g.record}
    && (if g.record in files then files[g.record] == Record(m) else m == Manifest([], []))
  }

  /** Before the first install nothing is on record. */
  lemma StandingFirst(g: Ground)
    ensures Standing(g.base, g, Manifest([], []), [], {}, map[])
  {
    BeginFirst(g, 0);
    assert Start(g.base, 0, []) == Begin(g.base, 0, Manifest([], []));
    assert WithBackup([]) + {} == {};
  }

  // ---- another process ----

  lemma OtherPid(r: Run, g: Ground, h: Ground, away: set<Path>, files: map<Path, Content>)
    requires RunIs(r, g, away, files) && h == g.(pid := h.pid) && Settled(g, files)
    ensures RunIs(r, h, away, files)
  {
  }

  lemma FilesPlaces(g: Ground, m: Manifest, live: seq<Path>, lost: set<Path>, files: map<Path, Content>)
    requires Recording(g, m, live, lost, files)
    ensures Settled(g, files) && Owned(m.files) <= g.dests
  {
    forall k | k in files ensures k in g.dests || k == g.record { assert k in files.Keys; }
  }

  lemma ListedOtherPid(g: Ground, h: Ground, cs: seq<Path>)
    requires Listed(g, cs) && h == g.(pid := h.pid)
    ensures Listed(h, cs)
  {
    forall i | 0 <= i < |cs| ensures Above(h, cs[i]) && cs[i] != [] && (cs[i] !in h.base || Fixed(h, cs[i])) {
      assert Above(g, cs[i]);
      var p :| p in g.dests && Under(p, cs[i]) && p != cs[i];
      if cs[i] in g.base { FixedOtherPid(g, h, cs[i]); }
    }
  }

  lemma FixedOtherPid(g: Ground, h: Ground, c: Path)
    requires Fixed(g, c) && h == g.(pid := h.pid)
    ensures Fixed(h, c)
  {
    var x :| x in g.base && StrictlyAbove(c, x) && forall d :: d in g.dests ==> !Under(x, d);
  }

  lemma RecordingOtherPid(g: Ground, h: Ground, m: Manifest, live: seq<Path>, lost: set<Path>, files: map<Path, Content>)
    requires Recording(g, m, live, lost, files) && h == g.(pid := h.pid)
    ensures Recording(h, m, live, lost, files)
  {
    ListedOtherPid(g, h, m.dirs);
  }

  lemma StandingOtherPid(t: Tree, g: Ground, h: Ground, m: Manifest, live: seq<Path>, lost: set<Path>, files: map<Path, Content>)
    requires Standing(t, g, m, live, lost, files) && h == g.(pid := h.pid)
    ensures Standing(t, h, m, live, lost, files)
  {
    FilesPlaces(g, m, live, lost, files);
    OtherPid(Start(t, 0, live), g, h, WithBackup(m.files) + lost, files);
    RecordingOtherPid(g, h, m, live, lost, files);
  }

  // ---- moving what is in the way of an upgrade ----

  lemma FileOwned(g: Ground, m: Manifest, files: map<Path, Content>, p: Path)
    requires files.Keys <= Owned(m.files) + {g.record} && p in g.dests && p in files
    ensures p in Owned(m.files)
  {
    TmpNoRecord(g);
    assert p in files.Keys;
  }

  lemma MovableNext(t: Tree, g: Ground, m: Manifest, live: seq<Path>, lost: set<Path>, files: map<Path, Content>, d: Path)
    requires Standing(t, g, m, live, lost, files) && d in g.dests && d in t && d !in Owned(m.files) && Bak(d) !in t
    ensures d !in WithBackup(m.files) + lost && d !in files && d in g.base && Bak(d) !in g.base
  {
    if d in files { FileOwned(g, m, files, d); }
    SiteShows(Start(t, 0, live), g, WithBackup(m.files) + lost, files, d);
    BackupShows(Start(t, 0, live), g, WithBackup(m.files) + lost, files, d);
  }

  lemma MovableAll(t: Tree, g: Ground, m: Manifest, live: seq<Path>, lost: set<Path>, files: map<Path, Content>, items: seq<Item>)
    requires Standing(t, g, m, live, lost, files) && Dests(items) <= g.dests
    requires !Blocked(t, InTheWay(t, items, Owned(m.files)))
    ensures Movable(g, WithBackup(m.files) + lost, files, InTheWay(t, items, Owned(m.files)), 0)
  {
    var ds := InTheWay(t, items, Owned(m.files));
    forall j | 0 <= j < |ds|
      ensures ds[j] in g.dests && ds[j] !in WithBackup(m.files) + lost && ds[j] !in files && ds[j] in g.base && Bak(ds[j]) !in g.base
    {
      assert ds[j] in ds && ds[j] in Dests(items);
      MovableNext(t, g, m, live, lost, files, ds[j]);
    }
  }

  /** An entry that is out of the way stays so when more entries go. */
  lemma StaysFree(g: Ground, before: set<Path>, away: set<Path>, p: Path)
    requires before <= away <= g.dests && p in g.dests && At(g.base, before, p) == None
    ensures At(g.base, away, p) == None
  {
    AtSite(g, away, p);
    AtSite(g, before, p);
  }

  /** With everything moved, no destination of the plan shows an entry of the original tree. */
  lemma PlannedNext(t: Tree, g: Ground, m: Manifest, live: seq<Path>, lost: set<Path>, files: map<Path, Content>, p: Path, away: set<Path>)
    requires Standing(t, g, m, live, lost, files) && p in g.dests && WithBackup(m.files) + lost <= away <= g.dests
    requires p in t && p !in Owned(m.files) ==> p in away
    ensures At(g.base, away, p) == None
  {
    if p in Owned(m.files) {
      StaysFree(g, WithBackup(m.files) + lost, away, p);
    } else {
      if p in files { FileOwned(g, m, files, p); }
      AtSite(g, away, p);
      SiteShows(Start(t, 0, live), g, WithBackup(m.files) + lost, files, p);
    }
  }

  lemma MoveNext(t: Tree, g: Ground, was: set<Path>, live: seq<Path>, files: map<Path, Content>, ds: seq<Path>, left: nat)
    requires RunIs(Start(t, 0, live), g, was, files) && Movable(g, was, files, ds, 0) && !MoveAll(Start(t, left, live), ds, 0).failed
    ensures RunIs(MoveAll(Start(t, left, live), ds, 0), g, was + ToSet(ds), files)
    ensures MoveAll(Start(t, left, live), ds, 0).entries == []
  {
    var r := Start(t, left, live);
    SameRun(Start(t, 0, live), r, g, was, files);
    assert was + ToSet(r.moved) == was;
    MoveAllRun(r, g, was, files, ds, 0);
    var n := MoveAllShape(r, ds, 0);
    assert ds[..|ds|] == ds;
  }

  // ---- placing the files ----

  /** The files once those from the i-th on are in place. */
  ghost function Placed(files: map<Path, Content>, items: seq<Item>, i: nat): map<Path, Content>
    requires i <= |items|
    decreases |items| - i
  {
    if i == |items| then files else Placed(files[items[i].dest := items[i].content], items, i + 1)
  }

  lemma {:induction false} PlacedKeys(files: map<Path, Content>, items: seq<Item>, i: nat, k: Path)
    requires i <= |items|
    ensures k in Placed(files, items, i) <==> k in files || exists j :: i <= j < |items| && items[j].dest == k
    ensures k in files && (forall j :: i <= j < |items| ==> items[j].dest != k) ==> Placed(files, items, i)[k] == files[k]
    decreases |items| - i
  {
    if i < |items| { PlacedKeys(files[items[i].dest := items[i].content], items, i + 1, k); }
  }

  ghost predicate Once(items: seq<Item>) {
    forall i, j :: 0 <= i < j < |items| ==> items[i].dest != items[j].dest
  }

  lemma {:induction false} PlacedContent(files: map<Path, Content>, items: seq<Item>, i: nat, j: nat)
    requires i <= j < |items| && Once(items)
    ensures items[j].dest in Placed(files, items, i) && Placed(files, items, i)[items[j].dest] == items[j].content
    decreases |items| - i
  {
    var next := files[items[i].dest := items[i].content];
    if i < j { PlacedContent(next, items, i + 1, j); } else { PlacedKeys(next, items, i + 1, items[j].dest); }
  }

  ghost function EntriesFor(items: seq<Item>, i: nat, job: Job): seq<Entry>
    requires i <= |items|
  {
    seq(i, j requires 0 <= j < i => EntryFor(items[j], job))
  }

  /** Files lie at destinations and at the manifest's path only: no temporary is left. */
  ghost predicate Settled(g: Ground, files: map<Path, Content>) {
    forall k :: k in files ==> k in g.dests || k == g.record
  }

  lemma PlaceOneOk(r: Run, item: Item, job: Job, g: Ground, away: set<Path>, files: map<Path, Content>)
    requires RunIs(r, g, away, files) && job.plan.pid == g.pid && Settled(g, files)
    requires item.dest in g.dests && At(g.base, away, item.dest) == None
    requires !r.failed && !Place(r, item, job).failed
    ensures RunIs(Place(r, item, job), g, away, files[item.dest := item.content])
  {
    TmpNoDest(g, item.dest);
    var next := PlaceRun(r, item, job, g, away, files);
  }

  /** Every planned file is in place once the loop is through without a failure. */
  lemma {:induction false} PlaceAllOk(r: Run, items: seq<Item>, i: nat, job: Job, g: Ground, away: set<Path>, files: map<Path, Content>)
    requires i <= |items| && RunIs(r, g, away, files) && Settled(g, files)
    requires Planned(items, g, away) && job.plan.pid == g.pid
    requires !PlaceAll(r, items, i, job).failed
    ensures RunIs(PlaceAll(r, items, i, job), g, away, Placed(files, items, i))
    decreases |items| - i
  {
    if i < |items| {
      PlaceOneOk(r, items[i], job, g, away, files);
      var s := Place(r, items[i], job);
      PlaceAllOk(s, items, i + 1, job, g, away, files[items[i].dest := items[i].content]);
    }
  }

  lemma PlaceEntry(r: Run, item: Item, job: Job)
    requires !Place(r, item, job).failed
    ensures Place(r, item, job).entries == r.entries + [EntryFor(item, job)]
  {
    MakeAllShape(r, Folders(r.tree, item.dest), 0);
  }

  lemma EntriesSnoc(items: seq<Item>, i: nat, job: Job)
    requires i < |items|
    ensures EntriesFor(items, i, job) + [EntryFor(items[i], job)] == EntriesFor(items, i + 1, job)
  {
  }

  /** Every planned file is recorded. */
  lemma {:induction false} PlaceAllEntries(r: Run, items: seq<Item>, i: nat, job: Job)
    requires i <= |items| && r.entries == EntriesFor(items, i, job) && !PlaceAll(r, items, i, job).failed
    ensures PlaceAll(r, items, i, job).entries == EntriesFor(items, |items|, job)
    decreases |items| - i
  {
    if i < |items| {
      var s := Place(r, items[i], job);
      PlaceEntry(r, items[i], job);
      EntriesSnoc(items, i, job);
      PlaceAllEntries(s, items, i + 1, job);
    }
  }

  // ---- dropping what is no longer shipped ----

  ghost function Without(files: map<Path, Content>, es: seq<Entry>, i: nat, shipped: set<Path>): map<Path, Content>
    requires i <= |es|
    decreases |es| - i
  {
    if i == |es| then files
    else Without(if es[i].path in shipped then files else files - {es[i].path}, es, i + 1, shipped)
  }

  lemma {:induction false} WithoutKeys(files: map<Path, Content>, es: seq<Entry>, i: nat, shipped: set<Path>, k: Path)
    requires i <= |es|
    ensures k in Without(files, es, i, shipped) <==>
            k in files && (k in shipped || forall j :: i <= j < |es| ==> es[j].path != k)
    ensures k in Without(files, es, i, shipped) ==> Without(files, es, i, shipped)[k] == files[k]
    decreases |es| - i
  {
    if i < |es| { WithoutKeys(if es[i].path in shipped then files else files - {es[i].path}, es, i + 1, shipped, k); }
  }

  /** The files to drop are gone or have the recorded content. */
  ghost predicate Droppable(files: map<Path, Content>, es: seq<Entry>, i: nat, shipped: set<Path>, hash: Content -> int) {
    forall j :: i <= j < |es| && es[j].path !in shipped ==> !Altered(es[j], files, hash)
  }

  lemma DroppableMore(files: map<Path, Content>, es: seq<Entry>, i: nat, shipped: set<Path>, hash: Content -> int)
    requires i < |es| && Droppable(files, es, i, shipped, hash) && Distinct(es)
    ensures Droppable(files, es, i + 1, shipped, hash) && Droppable(files - {es[i].path}, es, i + 1, shipped, hash)
  {
  }

  /** Dropping one file. */
  function Dropped(r: Run, p: Path): Run {
    r.(tree := r.tree - {p}, left := if r.left == 0 then 0 else r.left - 1)
  }

  /** A recorded file is as recorded in the tree exactly when it is there. */
  lemma UnchangedIff(r: Run, e: Entry, hash: Content -> int, g: Ground, away: set<Path>, files: map<Path, Content>)
    requires RunIs(r, g, away, files) && !Altered(e, files, hash) && e.path in g.dests && At(g.base, away, e.path) == None
    ensures Unchanged(r.tree, e, hash) <==> e.path in files
  {
    if e.path in files {
      assert Get(r.tree, e.path) == Look(Described(g, away, files, r.created), e.path);
    } else {
      SiteShows(r, g, away, files, e.path);
      AtSite(g, away, e.path);
    }
  }

  lemma DropOne(r: Run, p: Path, g: Ground, away: set<Path>, files: map<Path, Content>)
    requires RunIs(r, g, away, files) && p in files
    ensures RunIs(Dropped(r, p), g, away, files - {p})
  {
    DropStep(r, g, away, files, p);
    SameRun(r.(tree := r.tree - {p}), Dropped(r, p), g, away, files - {p});
  }

  lemma DropOldNext(r: Run, es: seq<Entry>, i: nat, shipped: set<Path>, hash: Content -> int)
    requires i < |es| && !DropOld(r, es, i, shipped, hash).failed
    ensures DropOld(r, es, i, shipped, hash) == DropOld(LookedAt(r, es[i], shipped, hash), es, i + 1, shipped, hash)
  {
  }

  /** The run and the files after the i-th recorded file has been looked at. */
  function LookedAt(r: Run, e: Entry, shipped: set<Path>, hash: Content -> int): Run {
    if e.path in shipped || !Unchanged(r.tree, e, hash) then r else Dropped(r, e.path)
  }

  ghost function Trimmed(files: map<Path, Content>, e: Entry, shipped: set<Path>): map<Path, Content> {
    if e.path in shipped then files else files - {e.path}
  }

  lemma LookAt(r: Run, e: Entry, shipped: set<Path>, hash: Content -> int, g: Ground, away: set<Path>, files: map<Path, Content>)
    requires RunIs(r, g, away, files) && e.path in g.dests && At(g.base, away, e.path) == None
    requires e.path !in shipped ==> !Altered(e, files, hash)
    ensures RunIs(LookedAt(r, e, shipped, hash), g, away, Trimmed(files, e, shipped))
  {
    if e.path !in shipped {
      UnchangedIff(r, e, hash, g, away, files);
      if e.path in files { DropOne(r, e.path, g, away, files); } else { assert files - {e.path} == files; }
    }
  }

  /** Exactly the files that are no longer shipped are dropped. */
  lemma {:induction false} DropOldOk(r: Run, es: seq<Entry>, i: nat, shipped: set<Path>, hash: Content -> int, g: Ground, away: set<Path>, files: map<Path, Content>)
    requires i <= |es| && RunIs(r, g, away, files) && Droppable(files, es, i, shipped, hash) && Distinct(es) && Free(es, g, away)
    requires !DropOld(r, es, i, shipped, hash).failed
    ensures RunIs(DropOld(r, es, i, shipped, hash), g, away, Without(files, es, i, shipped))
    decreases |es| - i
  {
    if i < |es| {
      DroppableMore(files, es, i, shipped, hash);
      DropOldNext(r, es, i, shipped, hash);
      LookAt(r, es[i], shipped, hash, g, away, files);
      DropOldOk(LookedAt(r, es[i], shipped, hash), es, i + 1, shipped, hash, g, away, Trimmed(files, es[i], shipped));
    }
  }

  lemma {:induction false} DropOldKeeps(r: Run, es: seq<Entry>, i: nat, shipped: set<Path>, hash: Content -> int)
    requires i <= |es|
    ensures DropOld(r, es, i, shipped, hash).entries == r.entries && DropOld(r, es, i, shipped, hash).created == r.created
    decreases |es| - i
  {
    if !r.failed && i < |es| {
      DropOldKeeps(r, es, i + 1, shipped, hash);
      DropOldKeeps(Dropped(r, es[i].path), es, i + 1, shipped, hash);
    }
  }

  // ---- the manifest ----

  lemma RecordOk(r: Run, c: Content, torn: bool, g: Ground, away: set<Path>, files: map<Path, Content>)
    requires RunIs(r, g, away, files) && Load(g.base, g.record).Absent? && !Write(r, g.record, c, torn).failed
    ensures RunIs(Write(r, g.record, c, torn), g, away, files[g.record := c])
  {
    AtSite(g, away, g.record);
    if g.record !in files { SiteShows(r, g, away, files, g.record); }
    WriteStep(r, g, away, files, g.record, c);
  }
}
