/** A run that starts with another list of folders takes the same steps: the list is only added to. So a
    run can be followed with the folders that stand in place of those the manifest lists. */
module InstallShadow {
  import opened Basics
  import opened InstallTree
  import opened InstallRun

  /** The run with its first n folders exchanged. */
  function Shadow(r: Run, n: nat, live: seq<Path>): Run
    requires n <= |r.created|
  {
    r.(created := live + r.created[n..])
  }

  // ---- the list is only added to ----

  lemma {:induction false} MoveAllGrows(r: Run, ds: seq<Path>, i: nat)
    requires i <= |ds|
    ensures MoveAll(r, ds, i).created == r.created
    decreases |ds| - i
  {
    if !r.failed && i < |ds| { MoveAllGrows(MoveOne(r, ds[i]), ds, i + 1); }
  }

  lemma {:induction false} MakeAllGrows(r: Run, dirs: seq<Path>, i: nat)
    requires i <= |dirs|
    ensures r.created <= MakeAll(r, dirs, i).created
    decreases |dirs| - i
  {
    if !r.failed && i < |dirs| { MakeAllGrows(MakeDir(r, dirs[i]), dirs, i + 1); }
  }

  lemma PutKeeps(s: Run, item: Item, job: Job)
    ensures Put(s, item, job).created == s.created
  {
  }

  lemma StageGrows(r: Run, item: Item, job: Job)
    ensures r.created <= Stage(r, item, job).created
  {
    MakeAllGrows(r, Folders(r.tree, item.dest), 0);
  }

  lemma PlaceGrows(r: Run, item: Item, job: Job)
    ensures r.created <= Place(r, item, job).created
  {
    StageGrows(r, item, job);
    PutKeeps(Stage(r, item, job), item, job);
  }

  lemma {:induction false} PlaceAllGrows(r: Run, items: seq<Item>, i: nat, job: Job)
    requires i <= |items|
    ensures r.created <= PlaceAll(r, items, i, job).created
    decreases |items| - i
  {
    if !r.failed && i < |items| {
      PlaceGrows(r, items[i], job);
      PlaceAllGrows(Place(r, items[i], job), items, i + 1, job);
    }
  }

  lemma {:induction false} DropOldGrows(r: Run, es: seq<Entry>, i: nat, shipped: set<Path>, hash: Content -> int)
    requires i <= |es|
    ensures DropOld(r, es, i, shipped, hash).created == r.created
    decreases |es| - i
  {
    if !r.failed && i < |es| {
      DropOldGrows(r, es, i + 1, shipped, hash);
      if r.left > 0 { DropOldGrows(r.(tree := r.tree - {es[i].path}, left := r.left - 1), es, i + 1, shipped, hash); }
    }
  }

  // ---- the steps do not look at it ----

  lemma MoveOneShadow(r: Run, n: nat, live: seq<Path>, d: Path)
    requires n <= |r.created|
    ensures MoveOne(r, d).created == r.created && MoveOne(Shadow(r, n, live), d) == Shadow(MoveOne(r, d), n, live)
  {
  }

  lemma MoveAllNext(r: Run, ds: seq<Path>, i: nat)
    requires i < |ds|
    ensures MoveAll(r, ds, i) == if r.failed then r else MoveAll(MoveOne(r, ds[i]), ds, i + 1)
  {
  }

  lemma {:induction false} MoveAllShadow(r: Run, n: nat, live: seq<Path>, ds: seq<Path>, i: nat)
    requires n <= |r.created| && i <= |ds|
    ensures n <= |MoveAll(r, ds, i).created| && MoveAll(Shadow(r, n, live), ds, i) == Shadow(MoveAll(r, ds, i), n, live)
    decreases |ds| - i
  {
    if i < |ds| {
      MoveAllNext(r, ds, i);
      MoveAllNext(Shadow(r, n, live), ds, i);
      MoveOneShadow(r, n, live, ds[i]);
      MoveAllShadow(MoveOne(r, ds[i]), n, live, ds, i + 1);
    }
  }

  lemma MakeDirShadow(r: Run, n: nat, live: seq<Path>, p: Path)
    requires n <= |r.created|
    ensures n <= |MakeDir(r, p).created| && MakeDir(Shadow(r, n, live), p) == Shadow(MakeDir(r, p), n, live)
  {
    assert (r.created + [p])[n..] == r.created[n..] + [p];
    assert live + (r.created[n..] + [p]) == live + r.created[n..] + [p];
  }

  lemma {:induction false} MakeAllShadow(r: Run, n: nat, live: seq<Path>, dirs: seq<Path>, i: nat)
    requires n <= |r.created| && i <= |dirs|
    ensures n <= |MakeAll(r, dirs, i).created| && MakeAll(Shadow(r, n, live), dirs, i) == Shadow(MakeAll(r, dirs, i), n, live)
    decreases |dirs| - i
  {
    if !r.failed && i < |dirs| {
      MakeDirShadow(r, n, live, dirs[i]);
      MakeAllShadow(MakeDir(r, dirs[i]), n, live, dirs, i + 1);
    }
  }

  /** What follows the making of folders in a file's first half. */
  function Writing(made: Run, item: Item, job: Job): Run {
    var tmp := Tmp(item.dest, job.plan.pid);
    NoteWritten(Finish(Write(made, tmp, item.content, job.torn), tmp), item.dest, Owned(job.previous.files))
  }

  lemma WriteShadow(r: Run, n: nat, live: seq<Path>, p: Path, c: Content, torn: bool)
    requires n <= |r.created|
    ensures Write(r, p, c, torn).created == r.created && Write(Shadow(r, n, live), p, c, torn) == Shadow(Write(r, p, c, torn), n, live)
  {
  }

  lemma WritingShadow(r: Run, n: nat, live: seq<Path>, item: Item, job: Job)
    requires n <= |r.created|
    ensures Writing(r, item, job).created == r.created && Writing(Shadow(r, n, live), item, job) == Shadow(Writing(r, item, job), n, live)
  {
    WriteShadow(r, n, live, Tmp(item.dest, job.plan.pid), item.content, job.torn);
  }

  lemma StageShadow(r: Run, n: nat, live: seq<Path>, item: Item, job: Job)
    requires n <= |r.created|
    ensures n <= |Stage(r, item, job).created| && Stage(Shadow(r, n, live), item, job) == Shadow(Stage(r, item, job), n, live)
  {
    var dirs := Folders(r.tree, item.dest);
    MakeAllShadow(r, n, live, dirs, 0);
    WritingShadow(MakeAll(r, dirs, 0), n, live, item, job);
  }

  lemma PutShadow(r: Run, n: nat, live: seq<Path>, item: Item, job: Job)
    requires n <= |r.created|
    ensures n <= |Put(r, item, job).created| && Put(Shadow(r, n, live), item, job) == Shadow(Put(r, item, job), n, live)
  {
  }

  lemma {:induction false} PlaceAllShadow(r: Run, n: nat, live: seq<Path>, items: seq<Item>, i: nat, job: Job)
    requires n <= |r.created| && i <= |items|
    ensures n <= |PlaceAll(r, items, i, job).created|
    ensures PlaceAll(Shadow(r, n, live), items, i, job) == Shadow(PlaceAll(r, items, i, job), n, live)
    decreases |items| - i
  {
    if !r.failed && i < |items| {
      StageShadow(r, n, live, items[i], job);
      PutShadow(Stage(r, items[i], job), n, live, items[i], job);
      PlaceAllShadow(Place(r, items[i], job), n, live, items, i + 1, job);
    }
  }

  lemma {:induction false} DropOldShadow(r: Run, n: nat, live: seq<Path>, es: seq<Entry>, i: nat, shipped: set<Path>, hash: Content -> int)
    requires n <= |r.created| && i <= |es|
    ensures DropOld(r, es, i, shipped, hash).created == r.created
    ensures DropOld(Shadow(r, n, live), es, i, shipped, hash) == Shadow(DropOld(r, es, i, shipped, hash), n, live)
    decreases |es| - i
  {
    DropOldGrows(r, es, i, shipped, hash);
    if !r.failed && i < |es| {
      if es[i].path in shipped || !Unchanged(r.tree, es[i], hash) {
        DropOldShadow(r, n, live, es, i + 1, shipped, hash);
      } else if r.left > 0 {
        DropOldShadow(r.(tree := r.tree - {es[i].path}, left := r.left - 1), n, live, es, i + 1, shipped, hash);
      }
    }
  }

  // ---- the attempt ----

  /** The attempt after its moves, with the manifest to write given. */
  function Closing(moved: Run, job: Job, c: Content): Run {
    Recorded(PlaceAll(moved, job.plan.items, 0, job), job, c)
  }

  /** The attempt after the files are in place. */
  function Recorded(placed: Run, job: Job, c: Content): Run {
    Write(DropOld(placed, job.previous.files, 0, Dests(job.plan.items), job.hash), job.plan.record, c, job.torn)
  }

  /** The manifest an attempt writes, or would write. */
  function Written(t: Tree, left: nat, job: Job): Manifest {
    var dropped := DropOld(PlaceAll(MoveAll(Begin(t, left, job.previous), job.moving, 0), job.plan.items, 0, job),
                           job.previous.files, 0, Dests(job.plan.items), job.hash);
    Manifest(dropped.entries, dropped.created)
  }

  /** The start of a run with these folders. */
  function Start(t: Tree, left: nat, live: seq<Path>): Run {
    Run(t, [], [], live, [], left, false, None)
  }

  /** The attempt, followed with the folders that stand. */
  function Followed(t: Tree, left: nat, job: Job, live: seq<Path>): Run {
    Closing(MoveAll(Start(t, left, live), job.moving, 0), job, Record(Written(t, left, job)))
  }

  lemma AttemptIs(t: Tree, left: nat, job: Job)
    ensures var r := Attempt(Begin(t, left, job.previous), job);
            && r == Closing(MoveAll(Begin(t, left, job.previous), job.moving, 0), job, Record(Written(t, left, job)))
            && Written(t, left, job) == Manifest(r.entries, r.created)
  {
  }

  lemma ClosingShadow(r: Run, n: nat, live: seq<Path>, job: Job, c: Content)
    requires n <= |r.created|
    ensures n <= |Closing(r, job, c).created| && Closing(Shadow(r, n, live), job, c) == Shadow(Closing(r, job, c), n, live)
  {
    PlaceAllShadow(r, n, live, job.plan.items, 0, job);
    var placed := PlaceAll(r, job.plan.items, 0, job);
    DropOldShadow(placed, n, live, job.previous.files, 0, Dests(job.plan.items), job.hash);
    WriteShadow(DropOld(placed, job.previous.files, 0, Dests(job.plan.items), job.hash), n, live, job.plan.record, c, job.torn);
  }

  /** What the two runs have to do with each other: everything is the same but the folders they started with. */
  lemma FollowedIs(t: Tree, left: nat, job: Job, live: seq<Path>)
    ensures var r, n := Attempt(Begin(t, left, job.previous), job), |job.previous.dirs|;
            n <= |r.created| && job.previous.dirs == r.created[..n] && Followed(t, left, job, live) == Shadow(r, n, live)
  {
    var b, n := Begin(t, left, job.previous), |job.previous.dirs|;
    var c := Record(Written(t, left, job));
    AttemptIs(t, left, job);
    assert live + b.created[n..] == live;
    assert Start(t, left, live) == Shadow(b, n, live);
    MoveAllShadow(b, n, live, job.moving, 0);
    MoveAllGrows(b, job.moving, 0);
    ClosingShadow(MoveAll(b, job.moving, 0), n, live, job, c);
    ClosingGrows(MoveAll(b, job.moving, 0), job, c);
  }

  lemma ClosingGrows(r: Run, job: Job, c: Content)
    ensures r.created <= Closing(r, job, c).created
  {
    PlaceAllGrows(r, job.plan.items, 0, job);
    DropOldGrows(PlaceAll(r, job.plan.items, 0, job), job.previous.files, 0, Dests(job.plan.items), job.hash);
  }
}
