/** How an install ends, told from the tree, the plan and the disk alone: the steps a plan takes on the
    disk, which of them leave a file behind when they fail, and how many files are in place by then. */
module InstallFaults {
  import opened Basics
  import opened InstallTree
  import opened InstallRun
  import opened InstallSteps
  import opened InstallPlace
  import opened InstallRollback
  import opened InstallShadow
  import opened InstallChain
  import opened InstallUpgrade
  import opened InstallWorn
  import opened InstallRetreat

  /** One step on the disk. An impossible step cannot be done however healthy the disk is. */
  datatype Disk = Move | Mkdir | WriteTemporary | Seal | Swap | Checksum | Discard | WriteManifest | Impossible

  /** The folder is in the tree, or the files installed so far have brought it. */
  predicate There(t: Tree, done: set<Path>, q: Path) {
    q in t || exists d :: d in done && StrictlyAbove(q, d)
  }

  /** How many folders have to be made for q. */
  function Lacking(t: Tree, done: set<Path>, q: Path): nat {
    if q == [] || There(t, done, q) then 0 else Lacking(t, done, Parent(q)) + 1
  }

  /** Nothing but folders lies at q and above it. */
  predicate Solid(t: Tree, q: Path) {
    forall e :: e in t && Under(q, e) ==> t[e] == Dir
  }

  function DestsTo(items: seq<Item>, i: nat): (r: set<Path>)
    requires i <= |items|
    ensures forall p :: p in r <==> exists k :: 0 <= k < i && items[k].dest == p
  {
    set k | 0 <= k < i :: items[k].dest
  }

  /** The steps of one file. */
  function Block(t: Tree, done: set<Path>, d: Path): (r: seq<Disk>)
    requires d != []
    ensures r != []
  {
    if !Solid(t, Parent(d)) then [Impossible]
    else seq(Lacking(t, done, Parent(d)), _ => Mkdir) + [WriteTemporary, Seal, Swap, Checksum]
  }

  /** The manifest is there, or its place is free and its folder will be there. */
  predicate RecordReady(t: Tree, done: set<Path>, record: Path)
    requires record != []
  {
    if record in t then t[record].File? else
    var q := Parent(record);
    if q in t then t[q] == Dir else There(t, done, q)
  }

  /** The recorded files, from the i-th on, that are as recorded and no longer shipped. */
  function Unshipped(t: Tree, es: seq<Entry>, i: nat, shipped: set<Path>, hash: Content -> int): nat
    requires i <= |es|
    decreases |es| - i
  {
    if i == |es| then 0 else
    Unshipped(t, es, i + 1, shipped, hash) + if es[i].path !in shipped && Unchanged(t, es[i], hash) then 1 else 0
  }

  /** The steps behind the last file. */
  function LastSteps(t: Tree, plan: Plan, hash: Content -> int, m: Manifest): (r: seq<Disk>)
    requires plan.record != []
    ensures r != []
  {
    seq(Unshipped(t, m.files, 0, Dests(plan.items), hash), _ => Discard)
    + [if RecordReady(t, Dests(plan.items), plan.record) then WriteManifest else Impossible]
  }

  function ScriptFrom(t: Tree, plan: Plan, hash: Content -> int, m: Manifest, i: nat): (r: seq<Disk>)
    requires i <= |plan.items| && plan.record != [] && [] !in Dests(plan.items)
    ensures r != []
    decreases |plan.items| - i
  {
    if i == |plan.items| then LastSteps(t, plan, hash, m) else
    assert plan.items[i].dest in Dests(plan.items);
    var block := Block(t, DestsTo(plan.items, i), plan.items[i].dest);
    if block == [Impossible] then block else block + ScriptFrom(t, plan, hash, m, i + 1)
  }

  /** The steps of an install over the manifest m, in order, up to the first one that is impossible. */
  function Script(t: Tree, plan: Plan, hash: Content -> int, m: Manifest): (r: seq<Disk>)
    requires plan.record != [] && [] !in Dests(plan.items)
    ensures r != []
  {
    seq(|InTheWay(t, plan.items, Owned(m.files))|, _ => Move) + ScriptFrom(t, plan, hash, m, 0)
  }

  /** The disk carries out `left` steps; the step after them fails, or an impossible one does. */
  predicate Fails(script: seq<Disk>, left: nat)
    requires script != []
  {
    left < |script| || script[|script| - 1] == Impossible
  }

  function FailingStep(script: seq<Disk>, left: nat): Disk
    requires script != []
  {
    if left < |script| then script[left] else script[|script| - 1]
  }

  /** The steps that leave a file behind when they fail: those between writing a temporary and putting
      it in place, and a write that stops half way. */
  predicate Leaves(step: Disk, torn: bool) {
    step == Seal || step == Swap || (torn && (step == WriteTemporary || step == WriteManifest))
  }

  /** How many files are in place after n steps. */
  function Swaps(script: seq<Disk>, n: nat): nat
    decreases n
  {
    if n == 0 then 0
    else Swaps(script, n - 1) + if n - 1 < |script| && script[n - 1] == Swap then 1 else 0
  }

  // ---- making folders ----

  /** The folders can be made one after another. */
  ghost predicate Chain(t: Tree, dirs: seq<Path>, i: nat) {
    && (forall k :: i <= k < |dirs| ==> dirs[k] != [] && dirs[k] !in t)
    && (i < |dirs| ==> Get(t, Parent(dirs[i])) == Some(Dir))
    && (forall k :: i < k < |dirs| ==> Parent(dirs[k]) == dirs[k - 1])
  }

  lemma {:induction false} MakeAllCounts(r: Run, dirs: seq<Path>, i: nat)
    requires i <= |dirs| && !r.failed && Chain(r.tree, dirs, i)
    ensures var s := MakeAll(r, dirs, i);
            && (s.failed <==> r.left < |dirs| - i) && s.junk == r.junk
            && (!s.failed ==> s.left == r.left - (|dirs| - i) && (i < |dirs| ==> Get(s.tree, dirs[|dirs| - 1]) == Some(Dir))
                              && (i == |dirs| ==> s.tree == r.tree))
    decreases |dirs| - i
  {
    if i < |dirs| && r.left > 0 {
      var s := MakeDir(r, dirs[i]);
      assert Chain(s.tree, dirs, i + 1) by { ChainMore(r.tree, dirs, i); }
      MakeAllCounts(s, dirs, i + 1);
    }
  }

  lemma ChainMore(t: Tree, dirs: seq<Path>, i: nat)
    requires i < |dirs| && Chain(t, dirs, i)
    ensures Chain(t[dirs[i] := Dir], dirs, i + 1)
  {
    forall k | i < k < |dirs| ensures |dirs[k]| > |dirs[i]| { ChainLonger(t, dirs, i, k); }
  }

  lemma {:induction false} ChainLonger(t: Tree, dirs: seq<Path>, i: nat, k: nat)
    requires i < k < |dirs| && Chain(t, dirs, i)
    ensures |dirs[k]| > |dirs[i]|
    decreases k
  {
    if i < k - 1 { ChainLonger(t, dirs, i, k - 1); }
  }

  /** Where the walk up from q ends there is a folder. */
  predicate EndsInDir(t: Tree, q: Path) {
    if q in t then t[q] == Dir else q != [] && EndsInDir(t, Parent(q))
  }

  lemma {:induction false} MissingChain(t: Tree, q: Path)
    requires EndsInDir(t, q)
    ensures Chain(t, Missing(t, q), 0)
    ensures Missing(t, q) == [] <==> q in t
    ensures Missing(t, q) != [] ==> Missing(t, q)[|Missing(t, q)| - 1] == q
    decreases |q|
  {
    if q !in t { MissingChain(t, Parent(q)); }
  }

  lemma {:induction false} MissingStuck(t: Tree, q: Path)
    requires !EndsInDir(t, q) && [] in t
    ensures Missing(t, q) == [] ==> q in t && t[q] != Dir
    ensures Missing(t, q) != [] ==> Missing(t, q)[0] != [] && Get(t, Parent(Missing(t, q)[0])) != Some(Dir)
    decreases |q|
  {
    if q !in t { MissingStuck(t, Parent(q)); }
  }

  // ---- one file ----

  /** The file's folders can be made and its temporary written. */
  ghost predicate CanStage(r: Run, item: Item, pid: string) {
    && item.dest != [] && EndsInDir(r.tree, Parent(item.dest))
    && forall made: Run :: OnlyFolders(r, made) && made == MakeAll(r, Folders(r.tree, item.dest), 0) ==> Tmp(item.dest, pid) !in made.tree
  }

  /** How a file's steps end: with `n` folders to make, by what the disk still carries out. */
  ghost predicate Ends(r: Run, s: Run, n: nat, torn: bool) {
    if r.left < n + 4 then
      s.failed && (s.junk.Some? <==> r.left == n + 1 || r.left == n + 2 || (torn && r.left == n))
    else !s.failed && s.junk.None? && s.left == r.left - (n + 4)
  }

  lemma StageEnds(r: Run, item: Item, job: Job)
    requires !r.failed && r.junk.None? && CanStage(r, item, job.plan.pid)
    ensures var s, n := Stage(r, item, job), |Folders(r.tree, item.dest)|;
            if r.left < n + 2 then s.failed && (s.junk.Some? <==> r.left == n + 1 || (job.torn && r.left == n))
            else !s.failed && s.junk.None? && s.left == r.left - (n + 2)
  {
    var dirs, tmp := Folders(r.tree, item.dest), Tmp(item.dest, job.plan.pid);
    var made := MakeAll(r, dirs, 0);
    MissingChain(r.tree, Parent(item.dest));
    MakeAllCounts(r, dirs, 0);
    MakeAllShape(r, dirs, 0);
    TmpParent(item.dest, job.plan.pid);
    if !made.failed { assert Get(made.tree, Parent(item.dest)) == Some(Dir) && CanWrite(made.tree, tmp); }
  }

  lemma PlaceEnds(r: Run, item: Item, job: Job)
    requires !r.failed && r.junk.None? && CanStage(r, item, job.plan.pid)
    requires !Stage(r, item, job).failed ==> Get(Stage(r, item, job).tree, item.dest) != Some(Dir)
    ensures Ends(r, Place(r, item, job), |Folders(r.tree, item.dest)|, job.torn)
  {
    StageEnds(r, item, job);
  }

  /** A file below something that is no folder fails at once and leaves nothing. */
  lemma PlaceStuck(r: Run, item: Item, job: Job)
    requires !r.failed && r.junk.None? && item.dest != [] && !EndsInDir(r.tree, Parent(item.dest)) && [] in r.tree
    ensures Place(r, item, job).failed && Place(r, item, job).junk.None?
  {
    var dirs := Folders(r.tree, item.dest);
    MissingStuck(r.tree, Parent(item.dest));
    TmpParent(item.dest, job.plan.pid);
    if dirs != [] {
      assert MakeDir(r, dirs[0]).failed;
      assert MakeAll(r, dirs, 0) == MakeAll(MakeDir(r, dirs[0]), dirs, 1) == MakeDir(r, dirs[0]);
    }
  }

  // ---- which folders are there ----

  /** The place is neither a destination, a backup, a temporary nor the manifest, nor below one. */
  ghost predicate Outside(g: Ground, q: Path) {
    !IsSite(g, q) && forall d :: d in g.dests ==> !Under(q, d) && !Under(q, Bak(d))
  }

  lemma AboveOutside(g: Ground, q: Path)
    requires Above(g, q)
    ensures Outside(g, q)
  {
    if IsSite(g, q) { AboveFree(g, q, q); }
    forall d | d in g.dests ensures !Under(q, d) && !Under(q, Bak(d)) {
      AboveFree(g, q, d);
      AboveFree(g, q, Bak(d));
    }
  }

  lemma RecordOutside(g: Ground)
    ensures Outside(g, Parent(g.record))
  {
    var q := Parent(g.record);
    if IsSite(g, q) { SitesApart(g, q, g.record); }
    forall d | d in g.dests ensures !Under(q, d) && !Under(q, Bak(d)) {
      TmpNoRecord(g);
      SitesApart(g, d, g.record);
      SiteBackupApart(g, g.record, d);
      if Under(q, d) { UnderTrans(g.record, q, d); }
      if Under(q, Bak(d)) { UnderTrans(g.record, q, Bak(d)); }
    }
  }

  /** What such a place shows. */
  lemma OutsideShows(r: Run, g: Ground, away: set<Path>, files: map<Path, Content>, q: Path)
    requires RunIs(r, g, away, files) && Outside(g, q)
    ensures Get(r.tree, q) == if q in ToSet(r.created) then Some(Dir) else Get(g.base, q)
  {
    AtElsewhere(g.base, away, q);
    assert Get(r.tree, q) == Look(Described(g, away, files, r.created), q);
  }

  /** The folders made since the start with `live` are those of the files installed, and those are there. */
  ghost predicate MadeFor(r: Run, live: seq<Path>, done: set<Path>, files: map<Path, Content>) {
    && (forall k :: 0 <= k < |r.created| ==> r.created[k] in live || exists d :: d in done && StrictlyAbove(r.created[k], d))
    && (forall c :: c in live ==> c in ToSet(r.created)) && done <= files.Keys
  }

  /** Outside the places of the install the tree has grown by the folders of the files installed. */
  ghost predicate Grown(r: Run, g: Ground, t: Tree, done: set<Path>) {
    forall q {:trigger Outside(g, q)} :: Outside(g, q) ==>
      Get(r.tree, q) == if q !in t && There(t, done, q) then Some(Dir) else Get(t, q)
  }

  lemma GrownAt(r: Run, t: Tree, live: seq<Path>, g: Ground, before: set<Path>, was: map<Path, Content>, away: set<Path>, files: map<Path, Content>,
                done: set<Path>, q: Path)
    requires RunIs(Start(t, 0, live), g, before, was) && RunIs(r, g, away, files) && MadeFor(r, live, done, files) && Outside(g, q)
    ensures Get(r.tree, q) == if q !in t && There(t, done, q) then Some(Dir) else Get(t, q)
  {
    OutsideShows(r, g, away, files, q);
    OutsideShows(Start(t, 0, live), g, before, was, q);
    if q in ToSet(r.created) {
      var k :| 0 <= k < |r.created| && r.created[k] == q;
      if q in live { InLive(live, q); }
    } else if q in ToSet(live) {
      var k :| 0 <= k < |live| && live[k] == q;
      assert q in live;
    } else if d :| d in done && StrictlyAbove(q, d) {
      assert d in files.Keys;
      if q !in g.base { NeededIsMade(r, g, away, files, d, q); }
    }
  }

  lemma InLive(live: seq<Path>, q: Path)
    requires q in live
    ensures q in ToSet(live)
  {
    var k :| 0 <= k < |live| && live[k] == q;
  }

  lemma GrownNow(r: Run, t: Tree, live: seq<Path>, g: Ground, before: set<Path>, was: map<Path, Content>, away: set<Path>, files: map<Path, Content>, done: set<Path>)
    requires RunIs(Start(t, 0, live), g, before, was) && RunIs(r, g, away, files) && MadeFor(r, live, done, files)
    ensures Grown(r, g, t, done) && WellFormed(r.tree) && WellFormed(t)
  {
    forall q | Outside(g, q) ensures Get(r.tree, q) == if q !in t && There(t, done, q) then Some(Dir) else Get(t, q) {
      GrownAt(r, t, live, g, before, was, away, files, done, q);
    }
  }

  /** Every path above a destination is above it. */
  lemma PrefixAbove(g: Ground, p: Path, q: Path)
    requires p in g.dests && StrictlyAbove(q, p)
    ensures Outside(g, q)
  {
    AboveOutside(g, q);
  }

  lemma {:induction false} LackingIs(r: Run, g: Ground, t: Tree, done: set<Path>, p: Path, q: Path)
    requires Grown(r, g, t, done) && p in g.dests && StrictlyAbove(q, p)
    ensures |Missing(r.tree, q)| == Lacking(t, done, q)
    decreases |q|
  {
    PrefixAbove(g, p, q);
    if q != [] && q !in r.tree {
      UnderTrans(p, q, Parent(q));
      LackingIs(r, g, t, done, p, Parent(q));
    }
  }

  /** The walk up from a destination ends in a folder if and only if the tree at the start has nothing but
      folders on the way. */
  lemma {:induction false} EndsIff(r: Run, g: Ground, t: Tree, done: set<Path>, p: Path, q: Path)
    requires Grown(r, g, t, done) && WellFormed(r.tree) && WellFormed(t) && p in g.dests && StrictlyAbove(q, p)
    ensures EndsInDir(r.tree, q) <==> Solid(t, q)
    decreases |q|
  {
    PrefixAbove(g, p, q);
    if q in r.tree {
      forall e | StrictlyAbove(e, q) && e in t ensures t[e] == Dir { FolderAbove(r, g, t, done, p, q, e); }
      SolidAt(r.tree, t, q, q !in t);
    } else {
      UnderTrans(p, q, Parent(q));
      EndsIff(r, g, t, done, p, Parent(q));
      SolidUp(t, q);
    }
  }

  lemma FolderAbove(r: Run, g: Ground, t: Tree, done: set<Path>, p: Path, q: Path, e: Path)
    requires Grown(r, g, t, done) && WellFormed(r.tree) && p in g.dests && StrictlyAbove(q, p) && q in r.tree && StrictlyAbove(e, q) && e in t
    ensures t[e] == Dir
  {
    UnderTrans(p, q, e);
    PrefixAbove(g, p, e);
    AncestorsExist(r.tree, e, q);
  }

  lemma SolidAt(t: Tree, base: Tree, q: Path, made: bool)
    requires WellFormed(t) && WellFormed(base) && q in t && Get(t, q) == if made then Some(Dir) else Get(base, q)
    requires made ==> q !in base
    ensures (t[q] == Dir && forall e :: StrictlyAbove(e, q) && e in base ==> base[e] == Dir) <==> Solid(base, q)
  {
  }

  lemma SolidUp(base: Tree, q: Path)
    requires q !in base && q != []
    ensures Solid(base, q) <==> Solid(base, Parent(q))
  {
    forall e | e in base ensures Under(q, e) <==> Under(Parent(q), e) {
      if Under(Parent(q), e) { UnderTrans(q, Parent(q), e); }
      if Under(q, e) { UnderParent(q, e); }
    }
  }

  // ---- a file in the run ----

  lemma {:induction false} MakeAllCreated(r: Run, dirs: seq<Path>, i: nat, k: nat)
    requires i <= |dirs| && k < |MakeAll(r, dirs, i).created|
    ensures MakeAll(r, dirs, i).created[k] in r.created || MakeAll(r, dirs, i).created[k] in dirs
    decreases |dirs| - i
  {
    if !r.failed && i < |dirs| { MakeAllCreated(MakeDir(r, dirs[i]), dirs, i + 1, k); }
  }

  lemma PutCreated(s: Run, item: Item, job: Job)
    ensures Put(s, item, job).created == s.created
  {
  }

  lemma StageCreated(r: Run, item: Item, job: Job)
    ensures Stage(r, item, job).created == MakeAll(r, Folders(r.tree, item.dest), 0).created
  {
  }

  lemma PlaceCreated(r: Run, item: Item, job: Job)
    ensures Place(r, item, job).created == MakeAll(r, Folders(r.tree, item.dest), 0).created
  {
    StageCreated(r, item, job);
    PutCreated(Stage(r, item, job), item, job);
  }

  /** After a file is in place, the folders made are those of the files up to it. */
  lemma MadeForMore(r: Run, item: Item, job: Job, live: seq<Path>, done: set<Path>, files: map<Path, Content>, c: Content)
    requires MadeFor(r, live, done, files) && item.dest != []
    ensures MadeFor(Place(r, item, job), live, done + {item.dest}, files[item.dest := c])
  {
    var s, dirs := Place(r, item, job), Folders(r.tree, item.dest);
    PlaceCreated(r, item, job);
    MakeAllGrows(r, dirs, 0);
    forall k | 0 <= k < |s.created| ensures s.created[k] in live || exists d :: d in done + {item.dest} && StrictlyAbove(s.created[k], d) {
      MakeAllCreated(r, dirs, 0, k);
      if s.created[k] in r.created {
        var l :| 0 <= l < |r.created| && r.created[l] == s.created[k];
        if r.created[l] !in live {
          var d :| d in done && StrictlyAbove(r.created[l], d);
          assert d in done + {item.dest};
        }
      } else {
        FolderOf(r.tree, item.dest, s.created[k]);
        assert item.dest in done + {item.dest};
      }
    }
    forall c | c in live ensures c in ToSet(s.created) {
      var k :| 0 <= k < |r.created| && r.created[k] == c;
      assert s.created[k] == c;
    }
  }

  lemma FolderOf(t: Tree, p: Path, c: Path)
    requires p != [] && c in Folders(t, p)
    ensures StrictlyAbove(c, p)
  {
    var dirs := Folders(t, p);
    var l :| 0 <= l < |dirs| && dirs[l] == c;
    MissingPrefixes(t, Parent(p));
    UnderTrans(p, Parent(p), dirs[l]);
  }

  /** The temporary is free and the place is no folder, whatever the folders' making comes to. */
  lemma CanStageHere(r: Run, item: Item, g: Ground, away: set<Path>, files: map<Path, Content>)
    requires RunIs(r, g, away, files) && item.dest in g.dests && Tmp(item.dest, g.pid) !in files
    requires EndsInDir(r.tree, Parent(item.dest))
    ensures CanStage(r, item, g.pid)
  {
    var dirs := Folders(r.tree, item.dest);
    FoldersAbove(g, r.tree, item.dest);
    MakeAllRun(r, dirs, 0, g, away, files);
    SiteShows(MakeAll(r, dirs, 0), g, away, files, Tmp(item.dest, g.pid));
  }

  lemma StagedNoDir(r: Run, item: Item, job: Job, g: Ground, away: set<Path>, files: map<Path, Content>)
    requires RunIs(r, g, away, files) && item.dest in g.dests && job.plan.pid == g.pid && Tmp(item.dest, g.pid) !in files
    requires At(g.base, away, item.dest) == None
    ensures Get(Stage(r, item, job).tree, item.dest) != Some(Dir)
  {
    var files' := StageRun(r, item, job, g, away, files);
    FreeOrFile(Stage(r, item, job), g, away, files', item.dest);
  }

  /** One file's steps are the block of the script. */
  lemma PlaceBlock(r: Run, item: Item, job: Job, g: Ground, away: set<Path>, files: map<Path, Content>, t: Tree, done: set<Path>)
    requires RunIs(r, g, away, files) && Grown(r, g, t, done) && WellFormed(t) && !r.failed && r.junk.None?
    requires item.dest in g.dests && job.plan.pid == g.pid && Tmp(item.dest, g.pid) !in files && At(g.base, away, item.dest) == None
    ensures var s := Place(r, item, job);
            if Solid(t, Parent(item.dest)) then Ends(r, s, Lacking(t, done, Parent(item.dest)), job.torn)
            else s.failed && s.junk.None?
  {
    assert StrictlyAbove(Parent(item.dest), item.dest);
    EndsIff(r, g, t, done, item.dest, Parent(item.dest));
    if Solid(t, Parent(item.dest)) {
      LackingIs(r, g, t, done, item.dest, Parent(item.dest));
      CanStageHere(r, item, g, away, files);
      StagedNoDir(r, item, job, g, away, files);
      PlaceEnds(r, item, job);
    } else {
      PlaceStuck(r, item, job);
    }
  }

  // ---- dropping and the manifest ----

  /** The recorded places that are no longer shipped show what they showed at the start. */
  ghost predicate SameUnshipped(u: Tree, t: Tree, es: seq<Entry>, i: nat, shipped: set<Path>) {
    forall j :: i <= j < |es| && es[j].path !in shipped ==> Get(u, es[j].path) == Get(t, es[j].path)
  }

  lemma {:induction false} DropOldCounts(r: Run, t: Tree, es: seq<Entry>, i: nat, shipped: set<Path>, hash: Content -> int)
    requires i <= |es| && !r.failed && Distinct(es) && SameUnshipped(r.tree, t, es, i, shipped)
    ensures var s, n := DropOld(r, es, i, shipped, hash), Unshipped(t, es, i, shipped, hash);
            && (s.failed <==> r.left < n) && s.junk == r.junk && (!s.failed ==> s.left == r.left - n)
    decreases |es| - i
  {
    if i < |es| {
      if es[i].path in shipped || !Unchanged(r.tree, es[i], hash) {
        DropOldCounts(r, t, es, i + 1, shipped, hash);
      } else if r.left > 0 {
        DropOldCounts(Dropped(r, es[i].path), t, es, i + 1, shipped, hash);
      }
    }
  }

  /** Dropping touches the places of recorded files that are as recorded and not shipped. */
  lemma {:induction false} DropOldAt(r: Run, t: Tree, es: seq<Entry>, i: nat, shipped: set<Path>, hash: Content -> int, q: Path)
    requires i <= |es| && Distinct(es) && SameUnshipped(r.tree, t, es, i, shipped)
    ensures var u := DropOld(r, es, i, shipped, hash).tree;
            Get(u, q) == Get(r.tree, q) || (q !in u && exists j :: i <= j < |es| && es[j].path == q && q !in shipped && Unchanged(t, es[j], hash))
    decreases |es| - i
  {
    if !r.failed && i < |es| {
      if es[i].path in shipped || !Unchanged(r.tree, es[i], hash) {
        DropOldAt(r, t, es, i + 1, shipped, hash, q);
      } else if r.left > 0 {
        DropOldAt(Dropped(r, es[i].path), t, es, i + 1, shipped, hash, q);
      }
    }
  }

  /** Whether the manifest can be written is told from the start. */
  lemma RecordTold(r: Run, u: Tree, t: Tree, g: Ground, away: set<Path>, files: map<Path, Content>, done: set<Path>, was: map<Path, Content>)
    requires RunIs(r, g, away, files) && Grown(r, g, t, done) && WellFormed(t) && Load(g.base, g.record).Absent?
    requires Get(t, g.record) == (if g.record in was then Some(File(was[g.record])) else Get(g.base, g.record))
    requires g.record in was <==> g.record in files
    requires Get(u, g.record) == Get(r.tree, g.record) && Get(u, Parent(g.record)) == Get(r.tree, Parent(g.record))
    ensures CanWrite(u, g.record) <==> RecordReady(t, done, g.record)
  {
    var q := Parent(g.record);
    RecordOutside(g);
    TmpNoRecord(g);
    if g.record in files {
      assert Get(r.tree, g.record) == Look(Described(g, away, files, r.created), g.record);
    } else {
      SiteShows(r, g, away, files, g.record);
    }
  }

  // ---- what is in place ----

  /** What the first j files of the plan put at a place. */
  function ContentTo(items: seq<Item>, j: nat, p: Path): Option<Content>
    requires j <= |items|
  {
    if j == 0 then None else if items[j - 1].dest == p then Some(items[j - 1].content) else ContentTo(items, j - 1, p)
  }

  /** The recorded places show the first j files of the plan, or what they showed at the start. */
  ghost predicate Progress(u: Tree, t: Tree, items: seq<Item>, j: nat, es: seq<Entry>)
    requires j <= |items|
  {
    forall i :: 0 <= i < |es| ==>
                  match ContentTo(items, j, es[i].path)
                  case Some(c) => Get(u, es[i].path) == Some(File(c))
                  case None => Get(u, es[i].path) == Get(t, es[i].path)
  }

  /** The same, but files that were as recorded may have been dropped. */
  ghost predicate InPlace(u: Tree, t: Tree, items: seq<Item>, j: nat, es: seq<Entry>, hash: Content -> int) {
    && j <= |items|
    && forall i :: 0 <= i < |es| ==>
                     match ContentTo(items, j, es[i].path)
                     case Some(c) => Get(u, es[i].path) == Some(File(c))
                     case None => Get(u, es[i].path) == Get(t, es[i].path) || (es[i].path !in u && Unchanged(t, es[i], hash))
  }

  lemma {:induction false} ContentIff(items: seq<Item>, j: nat, p: Path)
    requires j <= |items|
    ensures ContentTo(items, j, p).Some? <==> p in DestsTo(items, j)
  {
    if j > 0 { ContentIff(items, j - 1, p); }
  }

  lemma {:induction false} MakeAllAt(r: Run, dirs: seq<Path>, i: nat, k: Path)
    requires i <= |dirs| && k !in dirs
    ensures Get(MakeAll(r, dirs, i).tree, k) == Get(r.tree, k)
    decreases |dirs| - i
  {
    if !r.failed && i < |dirs| { MakeAllAt(MakeDir(r, dirs[i]), dirs, i + 1, k); }
  }

  lemma NoFolderThere(g: Ground, t: Tree, p: Path, k: Path)
    requires p in g.dests && k in g.dests
    ensures k !in Folders(t, p)
  {
    if k in Folders(t, p) {
      FolderOf(t, p, k);
      AboveFree(g, k, k);
    }
  }

  lemma WritingAt(made: Run, item: Item, job: Job, k: Path)
    requires k != Tmp(item.dest, job.plan.pid)
    ensures Get(Writing(made, item, job).tree, k) == Get(made.tree, k)
  {
  }

  lemma StageAt(r: Run, item: Item, job: Job, g: Ground, k: Path)
    requires item.dest in g.dests && k in g.dests && job.plan.pid == g.pid
    ensures Get(Stage(r, item, job).tree, k) == Get(r.tree, k)
  {
    var dirs := Folders(r.tree, item.dest);
    NoFolderThere(g, r.tree, item.dest, k);
    MakeAllAt(r, dirs, 0, k);
    TmpNoDest(g, item.dest);
    WritingAt(MakeAll(r, dirs, 0), item, job, k);
  }

  lemma PutAt(s: Run, item: Item, job: Job, g: Ground, k: Path)
    requires item.dest in g.dests && k in g.dests && job.plan.pid == g.pid && (!s.failed ==> Get(s.tree, item.dest) != Some(Dir))
    ensures Get(Put(s, item, job).tree, k) == if k == item.dest && !s.failed && s.left > 0 then Some(File(item.content)) else Get(s.tree, k)
  {
    TmpNoDest(g, item.dest);
  }

  /** A file is in place when its first steps and the swap are through. */
  lemma PlaceAt(r: Run, item: Item, job: Job, g: Ground, n: nat, k: Path)
    requires item.dest in g.dests && k in g.dests && job.plan.pid == g.pid
    requires !Stage(r, item, job).failed ==> Get(Stage(r, item, job).tree, item.dest) != Some(Dir)
    requires var s := Stage(r, item, job);
             if r.left < n + 2 then s.failed else !s.failed && s.left == r.left - (n + 2)
    ensures Get(Place(r, item, job).tree, k) == if k == item.dest && r.left >= n + 3 then Some(File(item.content)) else Get(r.tree, k)
  {
    StageAt(r, item, job, g, k);
    PutAt(Stage(r, item, job), item, job, g, k);
  }

  /** A file that cannot be staged changes no place. */
  lemma StuckAt(r: Run, item: Item, job: Job, g: Ground, k: Path)
    requires item.dest in g.dests && k in g.dests && job.plan.pid == g.pid && Stage(r, item, job).failed
    ensures Get(Place(r, item, job).tree, k) == Get(r.tree, k)
  {
    StageAt(r, item, job, g, k);
  }

  lemma StageStuck(r: Run, item: Item, job: Job)
    requires !r.failed && item.dest != [] && !EndsInDir(r.tree, Parent(item.dest)) && [] in r.tree
    ensures Stage(r, item, job).failed
  {
    var dirs := Folders(r.tree, item.dest);
    MissingStuck(r.tree, Parent(item.dest));
    TmpParent(item.dest, job.plan.pid);
    if dirs != [] {
      assert MakeDir(r, dirs[0]).failed;
      assert MakeAll(r, dirs, 0) == MakeAll(MakeDir(r, dirs[0]), dirs, 1) == MakeDir(r, dirs[0]);
    }
  }

  /** How many of a block's swaps are done: one when the disk lasts that long. */
  function BlockSwaps(t: Tree, done: set<Path>, d: Path, left: nat): nat
    requires d != []
  {
    if Solid(t, Parent(d)) && left >= Lacking(t, done, Parent(d)) + 3 then 1 else 0
  }

  /** The places after a file, by the block of the script. */
  lemma BlockAt(r: Run, item: Item, job: Job, g: Ground, away: set<Path>, files: map<Path, Content>, t: Tree, done: set<Path>, k: Path)
    requires RunIs(r, g, away, files) && Grown(r, g, t, done) && WellFormed(t) && !r.failed && r.junk.None?
    requires item.dest in g.dests && job.plan.pid == g.pid && Tmp(item.dest, g.pid) !in files && At(g.base, away, item.dest) == None
    requires k in g.dests
    ensures Get(Place(r, item, job).tree, k) ==
            if k == item.dest && BlockSwaps(t, done, item.dest, r.left) == 1 then Some(File(item.content)) else Get(r.tree, k)
  {
    var q := Parent(item.dest);
    assert StrictlyAbove(q, item.dest);
    EndsIff(r, g, t, done, item.dest, q);
    if Solid(t, q) {
      LackingIs(r, g, t, done, item.dest, q);
      CanStageHere(r, item, g, away, files);
      StagedNoDir(r, item, job, g, away, files);
      StageEnds(r, item, job);
      PlaceAt(r, item, job, g, Lacking(t, done, q), k);
    } else {
      StageStuck(r, item, job);
      StuckAt(r, item, job, g, k);
    }
  }

  lemma ProgressMore(r: Run, s: Run, t: Tree, items: seq<Item>, i: nat, es: seq<Entry>, n: nat)
    requires i < |items| && Progress(r.tree, t, items, i, es) && n <= 1
    requires forall e :: 0 <= e < |es| ==>
               Get(s.tree, es[e].path) == if es[e].path == items[i].dest && n == 1 then Some(File(items[i].content)) else Get(r.tree, es[e].path)
    ensures Progress(s.tree, t, items, i + n, es)
  {
  }

  // ---- the whole run ----

  /** The script tells how the run ends. */
  ghost predicate Told(s: Run, script: seq<Disk>, left: nat, torn: bool)
    requires script != []
  {
    (s.failed <==> Fails(script, left)) && (s.failed ==> (s.junk.Some? <==> Leaves(FailingStep(script, left), torn)))
  }

  lemma BlockStep(t: Tree, done: set<Path>, d: Path, k: nat)
    requires d != [] && Solid(t, Parent(d)) && k < |Block(t, done, d)|
    ensures var n := Lacking(t, done, Parent(d));
            && |Block(t, done, d)| == n + 4
            && Block(t, done, d)[k] == if k < n then Mkdir else [WriteTemporary, Seal, Swap, Checksum][k - n]
  {
  }

  lemma {:induction false} SwapsOf(t: Tree, done: set<Path>, d: Path, rest: seq<Disk>, k: nat)
    requires d != [] && Solid(t, Parent(d)) && k <= |Block(t, done, d)|
    ensures Swaps(Block(t, done, d) + rest, k) == if k >= Lacking(t, done, Parent(d)) + 3 then 1 else 0
  {
    if k > 0 {
      SwapsOf(t, done, d, rest, k - 1);
      BlockStep(t, done, d, k - 1);
    }
  }

  lemma {:induction false} SwapsJoin(a: seq<Disk>, b: seq<Disk>, k: nat)
    ensures Swaps(a + b, |a| + k) == Swaps(a + b, |a|) + Swaps(b, k)
  {
    if k > 0 {
      SwapsJoin(a, b, k - 1);
      if k - 1 < |b| { assert (a + b)[|a| + k - 1] == b[k - 1]; }
    }
  }

  lemma {:induction false} NoSwaps(a: seq<Disk>, b: seq<Disk>, k: nat)
    requires k <= |a| && forall i :: 0 <= i < |a| ==> a[i] != Swap
    ensures Swaps(a + b, k) == 0
  {
    if k > 0 { NoSwaps(a, b, k - 1); }
  }

  /** How a run ends and how many of the files from the i-th on are in place by then. */
  ghost predicate Ended(s: Run, script: seq<Disk>, left: nat, torn: bool, t: Tree, items: seq<Item>, i: nat, es: seq<Entry>, hash: Content -> int)
    requires script != []
  {
    Told(s, script, left, torn) && (s.failed ==> InPlace(s.tree, t, items, i + Swaps(script, left), es, hash))
  }

  lemma Loosen(u: Tree, t: Tree, items: seq<Item>, j: nat, es: seq<Entry>, hash: Content -> int)
    requires j <= |items| && Progress(u, t, items, j, es)
    ensures InPlace(u, t, items, j, es, hash)
  {
  }

  /** A failure inside the first block is told by the block. */
  lemma EndedInBlock(s: Run, r: Run, t: Tree, done: set<Path>, d: Path, rest: seq<Disk>, torn: bool, items: seq<Item>, i: nat, es: seq<Entry>, hash: Content -> int)
    requires d != [] && Solid(t, Parent(d)) && Ends(r, s, Lacking(t, done, Parent(d)), torn) && s.failed
    requires InPlace(s.tree, t, items, i + BlockSwaps(t, done, d, r.left), es, hash)
    ensures Ended(s, Block(t, done, d) + rest, r.left, torn, t, items, i, es, hash)
  {
    BlockStep(t, done, d, r.left);
    SwapsOf(t, done, d, rest, r.left);
  }

  /** Behind the first part the rest of the script tells. */
  lemma EndedBehind(s: Run, first: seq<Disk>, rest: seq<Disk>, n: nat, left: nat, torn: bool, t: Tree, items: seq<Item>, i: nat, es: seq<Entry>, hash: Content -> int)
    requires rest != [] && |first| <= left && Swaps(first + rest, |first|) == n
    requires Ended(s, rest, left - |first|, torn, t, items, i + n, es, hash)
    ensures Ended(s, first + rest, left, torn, t, items, i, es, hash)
  {
    var script := first + rest;
    assert script[|script| - 1] == rest[|rest| - 1];
    if left < |script| { assert script[left] == rest[left - |first|]; }
    SwapsJoin(first, rest, left - |first|);
  }

  lemma EndedBehindBlock(last: Run, s: Run, r: Run, t: Tree, done: set<Path>, d: Path, rest: seq<Disk>, torn: bool,
                         items: seq<Item>, i: nat, es: seq<Entry>, hash: Content -> int)
    requires d != [] && Solid(t, Parent(d)) && Ends(r, s, Lacking(t, done, Parent(d)), torn) && !s.failed
    requires rest != [] && Ended(last, rest, s.left, torn, t, items, i + 1, es, hash)
    ensures Ended(last, Block(t, done, d) + rest, r.left, torn, t, items, i, es, hash)
  {
    BlockStep(t, done, d, 0);
    SwapsOf(t, done, d, rest, |Block(t, done, d)|);
    EndedBehind(last, Block(t, done, d), rest, 1, r.left, torn, t, items, i, es, hash);
  }

  lemma DestsMore(items: seq<Item>, i: nat)
    requires i < |items|
    ensures DestsTo(items, i + 1) == DestsTo(items, i) + {items[i].dest}
  {
  }

  lemma FailedStays(s: Run, i: nat, job: Job, c: Content)
    requires s.failed && i <= |job.plan.items|
    ensures Recorded(PlaceAll(s, job.plan.items, i, job), job, c) == s
  {
  }

  lemma PlaceNext(r: Run, items: seq<Item>, i: nat, job: Job)
    requires !r.failed && i < |items|
    ensures PlaceAll(r, items, i, job) == PlaceAll(Place(r, items[i], job), items, i + 1, job)
  {
  }

  /** The script, one file at a time. */
  lemma ScriptNext(t: Tree, job: Job, i: nat)
    requires i < |job.plan.items| && job.plan.record != [] && [] !in Dests(job.plan.items) && job.plan.items[i].dest != []
    ensures var d, done := job.plan.items[i].dest, DestsTo(job.plan.items, i);
            ScriptFrom(t, job.plan, job.hash, job.previous, i) ==
            if Solid(t, Parent(d)) then Block(t, done, d) + ScriptFrom(t, job.plan, job.hash, job.previous, i + 1) else [Impossible]
  {
  }

  /** What the run needs to be at file i. */
  ghost predicate AtFile(r: Run, i: nat, job: Job, t: Tree, live: seq<Path>, g: Ground, away: set<Path>, files: map<Path, Content>)
    requires i <= |job.plan.items|
  {
    && RunIs(r, g, away, files) && MadeFor(r, live, DestsTo(job.plan.items, i), files) && Settled(g, files)
    && !r.failed && r.junk.None? && Progress(r.tree, t, job.plan.items, i, job.previous.files)
    && (g.record in files <==> Load(t, g.record).Found?)
  }

  /** The job is one for the tree t, over the manifest in force there. */
  ghost predicate JobIs(job: Job, t: Tree, live: seq<Path>, g: Ground, before: set<Path>, was: map<Path, Content>, away: set<Path>) {
    && RunIs(Start(t, 0, live), g, before, was) && Load(g.base, g.record).Absent? && Settled(g, was)
    && (g.record in was <==> Load(t, g.record).Found?)
    && Dests(job.plan.items) <= g.dests && g.pid == job.plan.pid && g.record == job.plan.record
    && Planned(job.plan.items, g, away) && Distinct(job.previous.files) && Owned(job.previous.files) <= g.dests
  }

  lemma FileHere(i: nat, job: Job, t: Tree, live: seq<Path>, g: Ground, before: set<Path>, was: map<Path, Content>, away: set<Path>, files: map<Path, Content>)
    requires i < |job.plan.items| && JobIs(job, t, live, g, before, was, away) && Settled(g, files)
    ensures var d := job.plan.items[i].dest;
            d in g.dests && d != [] && Tmp(d, g.pid) !in files && At(g.base, away, d) == None
  {
    TmpNoDest(g, job.plan.items[i].dest);
  }

  lemma FileGrown(r: Run, i: nat, job: Job, t: Tree, live: seq<Path>, g: Ground, before: set<Path>, was: map<Path, Content>, away: set<Path>, files: map<Path, Content>)
    requires i <= |job.plan.items| && JobIs(job, t, live, g, before, was, away) && AtFile(r, i, job, t, live, g, away, files)
    ensures Grown(r, g, t, DestsTo(job.plan.items, i)) && WellFormed(t) && WellFormed(r.tree)
  {
    GrownNow(r, t, live, g, before, was, away, files, DestsTo(job.plan.items, i));
  }

  lemma FileFacts(r: Run, i: nat, job: Job, t: Tree, live: seq<Path>, g: Ground, before: set<Path>, was: map<Path, Content>, away: set<Path>, files: map<Path, Content>)
    requires i < |job.plan.items| && JobIs(job, t, live, g, before, was, away) && AtFile(r, i, job, t, live, g, away, files)
    ensures RunIs(r, g, away, files) && Grown(r, g, t, DestsTo(job.plan.items, i)) && WellFormed(t) && !r.failed && r.junk.None?
    ensures var d := job.plan.items[i].dest;
            d in g.dests && d != [] && Tmp(d, g.pid) !in files && At(g.base, away, d) == None
    ensures job.plan.pid == g.pid && Owned(job.previous.files) <= g.dests && Progress(r.tree, t, job.plan.items, i, job.previous.files)
  {
    FileHere(i, job, t, live, g, before, was, away, files);
    FileGrown(r, i, job, t, live, g, before, was, away, files);
  }

  /** The file at i, by the script. */
  lemma FileEnds(r: Run, i: nat, job: Job, t: Tree, live: seq<Path>, g: Ground, before: set<Path>, was: map<Path, Content>, away: set<Path>, files: map<Path, Content>)
    requires i < |job.plan.items| && JobIs(job, t, live, g, before, was, away) && AtFile(r, i, job, t, live, g, away, files)
    ensures var d, s := job.plan.items[i].dest, Place(r, job.plan.items[i], job);
            && d != []
            && if Solid(t, Parent(d)) then Ends(r, s, Lacking(t, DestsTo(job.plan.items, i), Parent(d)), job.torn)
               else s.failed && s.junk.None?
  {
    FileFacts(r, i, job, t, live, g, before, was, away, files);
    PlaceBlock(r, job.plan.items[i], job, g, away, files, t, DestsTo(job.plan.items, i));
  }

  lemma BlockProgress(r: Run, i: nat, job: Job, t: Tree, g: Ground, away: set<Path>, files: map<Path, Content>, done: set<Path>)
    requires i < |job.plan.items| && RunIs(r, g, away, files) && Grown(r, g, t, done) && WellFormed(t) && !r.failed && r.junk.None?
    requires var d := job.plan.items[i].dest;
             d in g.dests && d != [] && Tmp(d, g.pid) !in files && At(g.base, away, d) == None
    requires job.plan.pid == g.pid && Owned(job.previous.files) <= g.dests && Progress(r.tree, t, job.plan.items, i, job.previous.files)
    ensures Progress(Place(r, job.plan.items[i], job).tree, t, job.plan.items, i + BlockSwaps(t, done, job.plan.items[i].dest, r.left), job.previous.files)
  {
    var item, es := job.plan.items[i], job.previous.files;
    var n, s := BlockSwaps(t, done, item.dest, r.left), Place(r, item, job);
    forall e | 0 <= e < |es|
      ensures Get(s.tree, es[e].path) == if es[e].path == item.dest && n == 1 then Some(File(item.content)) else Get(r.tree, es[e].path)
    {
      assert es[e].path in Owned(es);
      BlockAt(r, item, job, g, away, files, t, done, es[e].path);
    }
    ProgressMore(r, s, t, job.plan.items, i, es, n);
  }

  lemma NextFile(r: Run, i: nat, job: Job, t: Tree, live: seq<Path>, g: Ground, before: set<Path>, was: map<Path, Content>, away: set<Path>, files: map<Path, Content>)
    returns (files': map<Path, Content>)
    requires i < |job.plan.items| && JobIs(job, t, live, g, before, was, away) && AtFile(r, i, job, t, live, g, away, files)
    requires !Place(r, job.plan.items[i], job).failed
    ensures AtFile(Place(r, job.plan.items[i], job), i + 1, job, t, live, g, away, files')
  {
    var item := job.plan.items[i];
    FileHere(i, job, t, live, g, before, was, away, files);
    FileEnds(r, i, job, t, live, g, before, was, away, files);
    FileFacts(r, i, job, t, live, g, before, was, away, files);
    BlockProgress(r, i, job, t, g, away, files, DestsTo(job.plan.items, i));
    files' := PlaceRun(r, item, job, g, away, files);
    MadeForMore(r, item, job, live, DestsTo(job.plan.items, i), files, item.content);
    DestsMore(job.plan.items, i);
    TmpNoRecord(g);
  }

  /** The steps from file i on. */
  function Rest(t: Tree, job: Job, i: nat): (r: seq<Disk>)
    requires i <= |job.plan.items| && job.plan.record != [] && [] !in Dests(job.plan.items)
    ensures r != []
  {
    ScriptFrom(t, job.plan, job.hash, job.previous, i)
  }

  ghost predicate EndedFrom(s: Run, left: nat, t: Tree, job: Job, i: nat)
    requires i <= |job.plan.items| && job.plan.record != [] && [] !in Dests(job.plan.items)
  {
    Ended(s, Rest(t, job, i), left, job.torn, t, job.plan.items, i, job.previous.files, job.hash)
  }

  lemma {:induction false} ImpossibleSwaps(n: nat)
    ensures Swaps([Impossible], n) == 0
  {
    if n > 0 { ImpossibleSwaps(n - 1); }
  }

  lemma TellStuck(s: Run, left: nat, i: nat, job: Job, t: Tree)
    requires i < |job.plan.items| && job.plan.record != [] && [] !in Dests(job.plan.items) && job.plan.items[i].dest != []
    requires !Solid(t, Parent(job.plan.items[i].dest)) && s.failed && s.junk.None?
    requires InPlace(s.tree, t, job.plan.items, i, job.previous.files, job.hash)
    ensures EndedFrom(s, left, t, job, i)
  {
    ScriptNext(t, job, i);
    ImpossibleSwaps(left);
  }

  lemma TellInBlock(s: Run, r: Run, i: nat, job: Job, t: Tree)
    requires i < |job.plan.items| && job.plan.record != [] && [] !in Dests(job.plan.items) && job.plan.items[i].dest != []
    requires var d, done := job.plan.items[i].dest, DestsTo(job.plan.items, i);
             && Solid(t, Parent(d)) && Ends(r, s, Lacking(t, done, Parent(d)), job.torn) && s.failed
             && InPlace(s.tree, t, job.plan.items, i + BlockSwaps(t, done, d, r.left), job.previous.files, job.hash)
    ensures EndedFrom(s, r.left, t, job, i)
  {
    ScriptNext(t, job, i);
    EndedInBlock(s, r, t, DestsTo(job.plan.items, i), job.plan.items[i].dest, Rest(t, job, i + 1), job.torn, job.plan.items, i, job.previous.files, job.hash);
  }

  lemma TellBehind(last: Run, s: Run, r: Run, i: nat, job: Job, t: Tree)
    requires i < |job.plan.items| && job.plan.record != [] && [] !in Dests(job.plan.items) && job.plan.items[i].dest != []
    requires var d, done := job.plan.items[i].dest, DestsTo(job.plan.items, i);
             Solid(t, Parent(d)) && Ends(r, s, Lacking(t, done, Parent(d)), job.torn) && !s.failed
    requires EndedFrom(last, s.left, t, job, i + 1)
    ensures EndedFrom(last, r.left, t, job, i)
  {
    ScriptNext(t, job, i);
    EndedBehindBlock(last, s, r, t, DestsTo(job.plan.items, i), job.plan.items[i].dest, Rest(t, job, i + 1), job.torn, job.plan.items, i, job.previous.files, job.hash);
  }

  /** A run from file i on, told by the script from i on, given that it is from the next file on. */
  lemma TellFile(r: Run, s: Run, last: Run, i: nat, job: Job, t: Tree)
    requires i < |job.plan.items| && job.plan.record != [] && [] !in Dests(job.plan.items) && job.plan.items[i].dest != []
    requires ByBlock(r, s, i, job, t)
    requires if s.failed then last == s else EndedFrom(last, s.left, t, job, i + 1)
    ensures EndedFrom(last, r.left, t, job, i)
  {
    var d := job.plan.items[i].dest;
    if !s.failed {
      TellBehind(last, s, r, i, job, t);
    } else if Solid(t, Parent(d)) {
      TellInBlock(s, r, i, job, t);
    } else {
      TellStuck(s, r.left, i, job, t);
    }
  }

  // ---- the end of the run ----

  lemma UnshippedSame(u: Tree, t: Tree, items: seq<Item>, es: seq<Entry>)
    requires Progress(u, t, items, |items|, es)
    ensures SameUnshipped(u, t, es, 0, Dests(items))
  {
    forall j | 0 <= j < |es| && es[j].path !in Dests(items) ensures Get(u, es[j].path) == Get(t, es[j].path) {
      ContentIff(items, |items|, es[j].path);
    }
  }

  /** Dropping leaves the files of the plan alone. */
  lemma DroppedInPlace(r: Run, t: Tree, items: seq<Item>, es: seq<Entry>, hash: Content -> int)
    requires Progress(r.tree, t, items, |items|, es) && Distinct(es)
    ensures InPlace(DropOld(r, es, 0, Dests(items), hash).tree, t, items, |items|, es, hash)
  {
    UnshippedSame(r.tree, t, items, es);
    forall i | 0 <= i < |es|
      ensures match ContentTo(items, |items|, es[i].path)
              case Some(c) => Get(DropOld(r, es, 0, Dests(items), hash).tree, es[i].path) == Some(File(c))
              case None =>
                Get(DropOld(r, es, 0, Dests(items), hash).tree, es[i].path) == Get(t, es[i].path)
                || (es[i].path !in DropOld(r, es, 0, Dests(items), hash).tree && Unchanged(t, es[i], hash))
    {
      DropOldAt(r, t, es, 0, Dests(items), hash, es[i].path);
      ContentIff(items, |items|, es[i].path);
    }
  }

  /** Writing the manifest touches no recorded place. */
  lemma WrittenInPlace(d: Run, p: Path, c: Content, torn: bool, t: Tree, items: seq<Item>, j: nat, es: seq<Entry>, hash: Content -> int)
    requires InPlace(d.tree, t, items, j, es, hash) && forall i :: 0 <= i < |es| ==> es[i].path != p
    ensures InPlace(Write(d, p, c, torn).tree, t, items, j, es, hash)
  {
  }

  /** How the last steps end. */
  lemma LastTold(r: Run, d: Run, s: Run, k: nat, ready: bool, p: Path, c: Content, torn: bool)
    requires !r.failed && r.junk.None? && (d.failed <==> r.left < k) && d.junk == r.junk && (!d.failed ==> d.left == r.left - k)
    requires s == Write(d, p, c, torn) && (!d.failed ==> (CanWrite(d.tree, p) <==> ready))
    ensures Told(s, seq(k, _ => Discard) + [if ready then WriteManifest else Impossible], r.left, torn)
  {
  }

  lemma LastSwaps(k: nat, last: Disk, n: nat)
    requires last != Swap
    ensures Swaps(seq(k, _ => Discard) + [last], n) == 0
  {
    var script := seq(k, _ => Discard) + [last];
    NoSwapsAt(script, n);
  }

  lemma {:induction false} NoSwapsAt(script: seq<Disk>, n: nat)
    requires forall i :: 0 <= i < |script| ==> script[i] != Swap
    ensures Swaps(script, n) == 0
  {
    if n > 0 { NoSwapsAt(script, n - 1); }
  }

  /** The manifest's place and its folder are no recorded places. */
  lemma RecordNoEntry(g: Ground, es: seq<Entry>)
    requires Owned(es) <= g.dests
    ensures forall i :: 0 <= i < |es| ==> es[i].path != g.record && es[i].path != Parent(g.record)
  {
    TmpNoRecord(g);
    RecordOutside(g);
    forall i | 0 <= i < |es| ensures es[i].path != g.record && es[i].path != Parent(g.record) {
      assert es[i].path in Owned(es);
    }
  }

  lemma RecordSameThere(r: Run, t: Tree, g: Ground, es: seq<Entry>, shipped: set<Path>, hash: Content -> int)
    requires Owned(es) <= g.dests && Distinct(es) && SameUnshipped(r.tree, t, es, 0, shipped)
    ensures var u := DropOld(r, es, 0, shipped, hash).tree;
            Get(u, g.record) == Get(r.tree, g.record) && Get(u, Parent(g.record)) == Get(r.tree, Parent(g.record))
  {
    RecordNoEntry(g, es);
    DropOldAt(r, t, es, 0, shipped, hash, g.record);
    DropOldAt(r, t, es, 0, shipped, hash, Parent(g.record));
  }

  lemma RecordStart(t: Tree, live: seq<Path>, g: Ground, before: set<Path>, was: map<Path, Content>)
    requires RunIs(Start(t, 0, live), g, before, was)
    ensures Get(t, g.record) == (if g.record in was then Some(File(was[g.record])) else Get(g.base, g.record))
  {
    TmpNoRecord(g);
    if g.record in was {
      assert Get(t, g.record) == Look(Described(g, before, was, live), g.record);
    } else {
      SiteShows(Start(t, 0, live), g, before, was, g.record);
    }
  }

  lemma ReadyTold(r: Run, job: Job, t: Tree, live: seq<Path>, g: Ground, before: set<Path>, was: map<Path, Content>, away: set<Path>, files: map<Path, Content>)
    requires JobIs(job, t, live, g, before, was, away) && AtFile(r, |job.plan.items|, job, t, live, g, away, files)
    ensures CanWrite(DropOld(r, job.previous.files, 0, Dests(job.plan.items), job.hash).tree, g.record) <==> RecordReady(t, Dests(job.plan.items), g.record)
  {
    var items, es := job.plan.items, job.previous.files;
    assert DestsTo(items, |items|) == Dests(items);
    UnshippedSame(r.tree, t, items, es);
    RecordSameThere(r, t, g, es, Dests(items), job.hash);
    FileGrown(r, |items|, job, t, live, g, before, was, away, files);
    RecordStart(t, live, g, before, was);
    RecordTold(r, DropOld(r, es, 0, Dests(items), job.hash).tree, t, g, away, files, Dests(items), was);
  }

  lemma LastTells(r: Run, job: Job, c: Content, t: Tree, live: seq<Path>, g: Ground, before: set<Path>, was: map<Path, Content>, away: set<Path>, files: map<Path, Content>)
    requires JobIs(job, t, live, g, before, was, away) && AtFile(r, |job.plan.items|, job, t, live, g, away, files)
    requires g.record != []
    ensures Told(Recorded(r, job, c), LastSteps(t, job.plan, job.hash, job.previous), r.left, job.torn)
  {
    var items, es := job.plan.items, job.previous.files;
    UnshippedSame(r.tree, t, items, es);
    DropOldCounts(r, t, es, 0, Dests(items), job.hash);
    ReadyTold(r, job, t, live, g, before, was, away, files);
    LastTold(r, DropOld(r, es, 0, Dests(items), job.hash), Recorded(r, job, c), Unshipped(t, es, 0, Dests(items), job.hash),
             RecordReady(t, Dests(items), g.record), g.record, c, job.torn);
  }

  lemma LastInPlace(r: Run, job: Job, c: Content, t: Tree, g: Ground)
    requires Progress(r.tree, t, job.plan.items, |job.plan.items|, job.previous.files) && g.record == job.plan.record
    requires Distinct(job.previous.files) && Owned(job.previous.files) <= g.dests
    ensures InPlace(Recorded(r, job, c).tree, t, job.plan.items, |job.plan.items|, job.previous.files, job.hash)
  {
    var items, es := job.plan.items, job.previous.files;
    DroppedInPlace(r, t, items, es, job.hash);
    RecordNoEntry(g, es);
    WrittenInPlace(DropOld(r, es, 0, Dests(items), job.hash), g.record, c, job.torn, t, items, |items|, es, job.hash);
  }

  lemma LastNoSwaps(t: Tree, job: Job, left: nat)
    requires job.plan.record != []
    ensures Swaps(LastSteps(t, job.plan, job.hash, job.previous), left) == 0
  {
    LastSwaps(Unshipped(t, job.previous.files, 0, Dests(job.plan.items), job.hash),
              if RecordReady(t, Dests(job.plan.items), job.plan.record) then WriteManifest else Impossible, left);
  }

  /** The run from the last file to the manifest. */
  lemma TellLast(r: Run, job: Job, c: Content, t: Tree, live: seq<Path>, g: Ground, before: set<Path>, was: map<Path, Content>, away: set<Path>, files: map<Path, Content>)
    requires JobIs(job, t, live, g, before, was, away) && AtFile(r, |job.plan.items|, job, t, live, g, away, files)
    requires g.record != [] && [] !in Dests(job.plan.items)
    ensures EndedFrom(Recorded(r, job, c), r.left, t, job, |job.plan.items|)
  {
    LastTells(r, job, c, t, live, g, before, was, away, files);
    LastInPlace(r, job, c, t, g);
    LastEnds(Recorded(r, job, c), r.left, t, job);
  }

  lemma LastEnds(s: Run, left: nat, t: Tree, job: Job)
    requires job.plan.record != [] && [] !in Dests(job.plan.items)
    requires Told(s, LastSteps(t, job.plan, job.hash, job.previous), left, job.torn)
    requires InPlace(s.tree, t, job.plan.items, |job.plan.items|, job.previous.files, job.hash)
    ensures EndedFrom(s, left, t, job, |job.plan.items|)
  {
    LastNoSwaps(t, job, left);
  }

  lemma {:induction false} PlaceScript(r: Run, i: nat, job: Job, c: Content, t: Tree, live: seq<Path>, g: Ground, before: set<Path>, was: map<Path, Content>,
                                       away: set<Path>, files: map<Path, Content>)
    requires i <= |job.plan.items| && JobIs(job, t, live, g, before, was, away) && AtFile(r, i, job, t, live, g, away, files)
    requires g.record != [] && [] !in Dests(job.plan.items)
    ensures EndedFrom(Recorded(PlaceAll(r, job.plan.items, i, job), job, c), r.left, t, job, i)
    decreases |job.plan.items| - i
  {
    if i == |job.plan.items| {
      TellLast(r, job, c, t, live, g, before, was, away, files);
    } else {
      var s := Place(r, job.plan.items[i], job);
      if s.failed {
        FailedStays(s, i + 1, job, c);
      } else {
        var files' := NextFile(r, i, job, t, live, g, before, was, away, files);
        PlaceScript(s, i + 1, job, c, t, live, g, before, was, away, files');
      }
      PlaceNext(r, job.plan.items, i, job);
      FileByBlock(r, i, job, t, live, g, before, was, away, files);
      TellFile(r, s, Recorded(PlaceAll(s, job.plan.items, i + 1, job), job, c), i, job, t);
    }
  }

  /** What a file's steps come to, by the block of the script. */
  ghost predicate ByBlock(r: Run, s: Run, i: nat, job: Job, t: Tree)
    requires i < |job.plan.items| && job.plan.items[i].dest != []
  {
    var d, done := job.plan.items[i].dest, DestsTo(job.plan.items, i);
    && (if Solid(t, Parent(d)) then Ends(r, s, Lacking(t, done, Parent(d)), job.torn) else s.failed && s.junk.None?)
    && InPlace(s.tree, t, job.plan.items, i + BlockSwaps(t, done, d, r.left), job.previous.files, job.hash)
  }

  lemma BlockInPlace(r: Run, i: nat, job: Job, t: Tree, g: Ground, away: set<Path>, files: map<Path, Content>, done: set<Path>)
    requires i < |job.plan.items| && RunIs(r, g, away, files) && Grown(r, g, t, done) && WellFormed(t) && !r.failed && r.junk.None?
    requires var d := job.plan.items[i].dest;
             d in g.dests && d != [] && Tmp(d, g.pid) !in files && At(g.base, away, d) == None
    requires job.plan.pid == g.pid && Owned(job.previous.files) <= g.dests && Progress(r.tree, t, job.plan.items, i, job.previous.files)
    ensures InPlace(Place(r, job.plan.items[i], job).tree, t, job.plan.items, i + BlockSwaps(t, done, job.plan.items[i].dest, r.left), job.previous.files, job.hash)
  {
    BlockProgress(r, i, job, t, g, away, files, done);
    Loosen(Place(r, job.plan.items[i], job).tree, t, job.plan.items, i + BlockSwaps(t, done, job.plan.items[i].dest, r.left), job.previous.files, job.hash);
  }

  lemma BothByBlock(r: Run, s: Run, i: nat, job: Job, t: Tree)
    requires i < |job.plan.items| && job.plan.items[i].dest != []
    requires var d, done := job.plan.items[i].dest, DestsTo(job.plan.items, i);
             if Solid(t, Parent(d)) then Ends(r, s, Lacking(t, done, Parent(d)), job.torn) else s.failed && s.junk.None?
    requires InPlace(s.tree, t, job.plan.items, i + BlockSwaps(t, DestsTo(job.plan.items, i), job.plan.items[i].dest, r.left), job.previous.files, job.hash)
    ensures ByBlock(r, s, i, job, t)
  {
  }

  /** What placing a file needs. */
  ghost predicate Ready(r: Run, item: Item, job: Job, t: Tree, g: Ground, away: set<Path>, files: map<Path, Content>, done: set<Path>) {
    && RunIs(r, g, away, files) && Grown(r, g, t, done) && WellFormed(t) && !r.failed && r.junk.None?
    && item.dest in g.dests && item.dest != [] && Tmp(item.dest, g.pid) !in files && At(g.base, away, item.dest) == None
    && job.plan.pid == g.pid && Owned(job.previous.files) <= g.dests
  }

  lemma FileReady(r: Run, i: nat, job: Job, t: Tree, live: seq<Path>, g: Ground, before: set<Path>, was: map<Path, Content>, away: set<Path>, files: map<Path, Content>)
    requires i < |job.plan.items| && JobIs(job, t, live, g, before, was, away) && AtFile(r, i, job, t, live, g, away, files)
    ensures Ready(r, job.plan.items[i], job, t, g, away, files, DestsTo(job.plan.items, i))
    ensures Progress(r.tree, t, job.plan.items, i, job.previous.files)
  {
    FileFacts(r, i, job, t, live, g, before, was, away, files);
  }

  lemma ReadyInPlace(r: Run, i: nat, job: Job, t: Tree, g: Ground, away: set<Path>, files: map<Path, Content>, done: set<Path>)
    requires i < |job.plan.items| && Ready(r, job.plan.items[i], job, t, g, away, files, done)
    requires Progress(r.tree, t, job.plan.items, i, job.previous.files)
    ensures InPlace(Place(r, job.plan.items[i], job).tree, t, job.plan.items, i + BlockSwaps(t, done, job.plan.items[i].dest, r.left), job.previous.files, job.hash)
  {
    BlockInPlace(r, i, job, t, g, away, files, done);
  }

  lemma ReadyByBlock(r: Run, i: nat, job: Job, t: Tree, g: Ground, away: set<Path>, files: map<Path, Content>)
    requires i < |job.plan.items| && Ready(r, job.plan.items[i], job, t, g, away, files, DestsTo(job.plan.items, i))
    requires Progress(r.tree, t, job.plan.items, i, job.previous.files)
    ensures ByBlock(r, Place(r, job.plan.items[i], job), i, job, t)
  {
    var done := DestsTo(job.plan.items, i);
    PlaceBlock(r, job.plan.items[i], job, g, away, files, t, done);
    ReadyInPlace(r, i, job, t, g, away, files, done);
    BothByBlock(r, Place(r, job.plan.items[i], job), i, job, t);
  }

  lemma FileByBlock(r: Run, i: nat, job: Job, t: Tree, live: seq<Path>, g: Ground, before: set<Path>, was: map<Path, Content>, away: set<Path>, files: map<Path, Content>)
    requires i < |job.plan.items| && JobIs(job, t, live, g, before, was, away) && AtFile(r, i, job, t, live, g, away, files)
    ensures job.plan.items[i].dest != [] && ByBlock(r, Place(r, job.plan.items[i], job), i, job, t)
  {
    FileReady(r, i, job, t, live, g, before, was, away, files);
    ReadyByBlock(r, i, job, t, g, away, files);
  }

  // ---- the moves ----

  lemma {:induction false} MoveAllCounts(r: Run, ds: seq<Path>, i: nat)
    requires i <= |ds| && !r.failed
    ensures var m := MoveAll(r, ds, i);
            && (m.failed <==> r.left < |ds| - i) && m.junk == r.junk && (!m.failed ==> m.left == r.left - (|ds| - i))
    decreases |ds| - i
  {
    if i < |ds| && r.left > 0 { MoveAllCounts(MoveOne(r, ds[i]), ds, i + 1); }
  }

  lemma EndedMoving(s: Run, n: nat, rest: seq<Disk>, left: nat, torn: bool, t: Tree, items: seq<Item>, es: seq<Entry>, hash: Content -> int)
    requires rest != [] && left < n && s.failed && s.junk.None? && InPlace(s.tree, t, items, 0, es, hash)
    ensures Ended(s, seq(n, _ => Move) + rest, left, torn, t, items, 0, es, hash)
  {
    NoSwaps(seq(n, _ => Move), rest, left);
  }

  /** Told by the moves and the rest of the script. */
  lemma EndedMoves(m: Run, s: Run, n: nat, rest: seq<Disk>, left: nat, torn: bool, t: Tree, items: seq<Item>, es: seq<Entry>, hash: Content -> int)
    requires rest != [] && (m.failed <==> left < n) && (m.failed ==> s == m && m.junk.None? && InPlace(m.tree, t, items, 0, es, hash))
    requires !m.failed ==> m.left == left - n && Ended(s, rest, m.left, torn, t, items, 0, es, hash)
    ensures Ended(s, seq(n, _ => Move) + rest, left, torn, t, items, 0, es, hash)
  {
    if m.failed {
      EndedMoving(s, n, rest, left, torn, t, items, es, hash);
    } else {
      NoSwaps(seq(n, _ => Move), rest, n);
      EndedBehind(s, seq(n, _ => Move), rest, 0, left, torn, t, items, 0, es, hash);
    }
  }

  /** Moving what is in the way touches no recorded place. */
  lemma MovedProgress(r: Run, t: Tree, live: seq<Path>, g: Ground, m: Manifest, lost: set<Path>, was: map<Path, Content>, away: set<Path>, items: seq<Item>)
    requires Standing(t, g, m, live, lost, was) && RunIs(r, g, away, was) && WithBackup(m.files) + lost <= away
    ensures Progress(r.tree, t, items, 0, m.files)
  {
    forall i | 0 <= i < |m.files| ensures Get(r.tree, m.files[i].path) == Get(t, m.files[i].path) {
      var p := m.files[i].path;
      StaysFree(g, WithBackup(m.files) + lost, away, p);
      PlaceShows(r, g, away, was, p);
      PlaceShows(Start(t, 0, live), g, WithBackup(m.files) + lost, was, p);
    }
  }

  lemma RecordFound(t: Tree, g: Ground, m: Manifest, live: seq<Path>, lost: set<Path>, was: map<Path, Content>)
    requires Standing(t, g, m, live, lost, was) && Load(g.base, g.record).Absent?
    ensures g.record in was <==> Load(t, g.record).Found?
  {
    RecordStart(t, live, g, WithBackup(m.files) + lost, was);
  }

  lemma MadeForNone(r: Run, live: seq<Path>, files: map<Path, Content>)
    requires r.created == live
    ensures MadeFor(r, live, {}, files)
  {
    forall c | c in live ensures c in ToSet(r.created) { InLive(live, c); }
  }

  /** The moves are through: the first file is next. */
  lemma FirstFile(r: Run, t: Tree, g: Ground, m: Manifest, live: seq<Path>, lost: set<Path>, was: map<Path, Content>, job: Job, away: set<Path>)
    requires Standing(t, g, m, live, lost, was) && Load(g.base, g.record).Absent? && job.previous == m
    requires g.pid == job.plan.pid && g.record == job.plan.record && Dests(job.plan.items) <= g.dests && Planned(job.plan.items, g, away)
    requires RunIs(r, g, away, was) && WithBackup(m.files) + lost <= away && r.created == live && !r.failed && r.junk == None
    ensures AtFile(r, 0, job, t, live, g, away, was) && JobIs(job, t, live, g, WithBackup(m.files) + lost, was, away)
  {
    FilesPlaces(g, m, live, lost, was);
    MovedProgress(r, t, live, g, m, lost, was, away, job.plan.items);
    RecordFound(t, g, m, live, lost, was);
    assert DestsTo(job.plan.items, 0) == {};
    MadeForNone(r, live, was);
  }

  lemma NoRoot(g: Ground, items: seq<Item>)
    requires Dests(items) <= g.dests
    ensures g.record != [] && [] !in Dests(items)
  {
  }

  /** The attempt, followed with the folders that stand, ends as the script tells. */
  lemma FollowedTold(t: Tree, g: Ground, m: Manifest, live: seq<Path>, lost: set<Path>, was: map<Path, Content>, job: Job, left: nat)
    requires Standing(t, g, m, live, lost, was) && Load(g.base, g.record).Absent? && job.previous == m
    requires g.pid == job.plan.pid && g.record == job.plan.record && Dests(job.plan.items) <= g.dests
    requires job.moving == InTheWay(t, job.plan.items, Owned(m.files)) && !Blocked(t, job.moving)
    ensures job.plan.record != [] && [] !in Dests(job.plan.items)
    ensures Ended(Followed(t, left, job, live), Script(t, job.plan, job.hash, m), left, job.torn, t, job.plan.items, 0, m.files, job.hash)
  {
    var items, ds, c := job.plan.items, job.moving, Record(Written(t, left, job));
    var before := WithBackup(m.files) + lost;
    NoRoot(g, items);
    MovesMixed(t, g, m, live, lost, was, items, left);
    var r := MoveAll(Start(t, left, live), ds, 0);
    MoveAllCounts(Start(t, left, live), ds, 0);
    if r.failed {
      FailedStays(r, 0, job, c);
      MovedProgress(r, t, live, g, m, lost, was, before + ToSet(r.moved), items);
      Loosen(r.tree, t, items, 0, m.files, job.hash);
    } else {
      MovedPlanned(t, g, m, live, lost, was, items);
      FirstFile(r, t, g, m, live, lost, was, job, before + ToSet(r.moved));
      PlaceScript(r, 0, job, c, t, live, g, before, was, before + ToSet(r.moved), was);
    }
    EndedMoves(r, Followed(t, left, job, live), |ds|, Rest(t, job, 0), left, job.torn, t, items, m.files, job.hash);
  }

  /** The attempt ends as the script tells. */
  lemma AttemptTold(t: Tree, g: Ground, m: Manifest, live: seq<Path>, lost: set<Path>, was: map<Path, Content>, job: Job, left: nat)
    requires Standing(t, g, m, live, lost, was) && Load(g.base, g.record).Absent? && job.previous == m
    requires g.pid == job.plan.pid && g.record == job.plan.record && Dests(job.plan.items) <= g.dests
    requires job.moving == InTheWay(t, job.plan.items, Owned(m.files)) && !Blocked(t, job.moving)
    ensures job.plan.record != [] && [] !in Dests(job.plan.items)
    ensures Ended(Attempt(Begin(t, left, m), job), Script(t, job.plan, job.hash, m), left, job.torn, t, job.plan.items, 0, m.files, job.hash)
  {
    FollowedIs(t, left, job, live);
    FollowedTold(t, g, m, live, lost, was, job, left);
  }

  /** For every tree, plan and disk: a first install that is not refused fails if and only if the disk
      gives out before the end of the plan's script or a step of it is impossible; and a failed one
      gives the tree back exactly if and only if the step that failed is none of those that leave a
      file behind. */
  lemma GivesBackIff(t: Tree, plan: Plan, hash: Content -> int, left: nat, torn: bool)
    requires SettingOk(Setting(t, Dests(plan.items), plan.record, plan.pid)) && Load(t, plan.record).Absent?
    requires !Blocked(t, InTheWay(t, plan.items, {}))
    ensures var out, script := Install(t, plan, hash, left, torn), Script(t, plan, hash, Manifest([], []));
            && (out.Failed? <==> Fails(script, left))
            && (out.Failed? ==> (out.tree == t <==> !Leaves(FailingStep(script, left), torn)))
  {
    var g: Ground := Setting(t, Dests(plan.items), plan.record, plan.pid);
    var none := Manifest([], []);
    assert Owned([]) == {};
    StandingFirst(g);
    AttemptTold(t, g, none, [], {}, map[], JobFor(t, plan, hash, torn, none), left);
    if Install(t, plan, hash, left, torn).Failed? { FirstInstallRollback(t, plan, hash, left, torn); }
  }

  // ---- a failed upgrade ----

  /** With the first j files of the plan in place, every recorded file that is there is as recorded. */
  predicate StillRecorded(t: Tree, m: Manifest, items: seq<Item>, j: nat, hash: Content -> int) {
    j <= |items| &&
    forall i :: 0 <= i < |m.files| ==>
                  match ContentTo(items, j, m.files[i].path)
                  case Some(c) => hash(c) == m.files[i].sha
                  case None => m.files[i].path in t ==> Unchanged(t, m.files[i], hash)
  }

  lemma RecordedIff(u: Tree, t: Tree, items: seq<Item>, j: nat, m: Manifest, hash: Content -> int)
    requires InPlace(u, t, items, j, m.files, hash)
    ensures AsRecorded(u, m, hash) <==> StillRecorded(t, m, items, j, hash)
  {
  }

  lemma AsRecordedSame(u: Tree, v: Tree, m: Manifest, hash: Content -> int)
    requires forall k :: k in Owned(m.files) ==> Get(u, k) == Get(v, k)
    ensures AsRecorded(u, m, hash) <==> AsRecorded(v, m, hash)
  {
    forall i | 0 <= i < |m.files| ensures m.files[i].path in u <==> m.files[i].path in v
                                  ensures Unchanged(u, m.files[i], hash) <==> Unchanged(v, m.files[i], hash) {
      assert m.files[i].path in Owned(m.files);
      assert Get(u, m.files[i].path) == Get(v, m.files[i].path);
    }
  }
}
