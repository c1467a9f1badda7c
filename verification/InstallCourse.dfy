/** Installs one after another of which some fail: when an uninstall still gives the original tree, told
    from the trees, the plans and the disk before each install. */
module InstallCourse {
  import opened Basics
  import opened InstallTree
  import opened InstallRun
  import opened InstallSteps
  import opened InstallShadow
  import opened InstallChain
  import opened InstallWorn
  import opened InstallRoundTrip
  import opened InstallRetreat
  import opened InstallFaults

  // ---- one failed upgrade ----

  lemma TmpsThereIff(t: Tree, live: seq<Path>, g: Ground, away: set<Path>, kept: map<Path, Content>)
    requires RunIs(Start(t, 0, live), g, away, kept)
    ensures NoTemporaries(t, g) <==> forall k :: k in kept ==> !IsTmp(g, k)
  {
    forall p | p in g.dests ensures Tmp(p, g.pid) in t <==> Tmp(p, g.pid) in kept { TmpThere(Start(t, 0, live), g, away, kept, p); }
    if !NoTemporaries(t, g) {
      var p :| p in g.dests && Tmp(p, g.pid) in t;
      assert IsTmp(g, Tmp(p, g.pid));
    }
  }

  lemma WholeIff(t: Tree, live: seq<Path>, g: Ground, m: Manifest, away: set<Path>, kept: map<Path, Content>)
    requires RunIs(Start(t, 0, live), g, away, kept) && g.record in kept
    ensures Load(t, g.record) == Found(m) <==> kept[g.record] == Record(m)
  {
    RecordThere(Start(t, 0, live), g, away, kept);
  }

  lemma LeftIff(junk: Option<Path>, g: Ground, m: Manifest, was: map<Path, Content>, kept: map<Path, Content>)
    requires LeftBehind(junk, g, was, kept) && g.record in was && was[g.record] == Record(m) && g.record in kept
    ensures (kept[g.record] == Record(m) && forall k :: k in kept ==> !IsTmp(g, k)) <==> junk.None?
  {
  }

  /** The manifest is whole and no temporary is there exactly when the failing step left nothing. */
  lemma NothingLeftIff(t: Tree, live: seq<Path>, junk: Option<Path>, g: Ground, m: Manifest, away: set<Path>, was: map<Path, Content>, kept: map<Path, Content>)
    requires RunIs(Start(t, 0, live), g, away, kept) && LeftBehind(junk, g, was, kept)
    requires g.record in was && was[g.record] == Record(m) && g.record in kept
    ensures Load(t, g.record) == Found(m) && NoTemporaries(t, g) <==> junk.None?
  {
    WholeIff(t, live, g, m, away, kept);
    TmpsThereIff(t, live, g, away, kept);
    LeftIff(junk, g, m, was, kept);
  }

  /** The tree after a failed upgrade and whether an uninstall of it gives the original back. */
  lemma FailedTold(t: Tree, g: Ground, m: Manifest, live: seq<Path>, lost: set<Path>, was: map<Path, Content>, job: Job, left: nat)
    requires Standing(t, g, m, live, lost, was) && g.record in was && Load(g.base, g.record).Absent? && NoCaches(g) && job.previous == m
    requires g.pid == job.plan.pid && g.record == job.plan.record && Dests(job.plan.items) <= g.dests
    requires job.moving == InTheWay(t, job.plan.items, Owned(m.files)) && !Blocked(t, job.moving)
    requires Attempt(Begin(t, left, m), job).failed
    ensures var r := Attempt(Begin(t, left, m), job);
            Uninstall(Rollback(r), g.record, job.hash) == Some(g.base) <==> r.junk.None? && lost == {} && AsRecorded(r.tree, m, job.hash)
  {
    var r := Attempt(Begin(t, left, m), job);
    var live', kept := Handled(t, g, m, live, lost, was, job, left);
    Retreat(t, Start(Rollback(r), 0, live'), g, job.hash, job.plan.items, m, live, lost, was, kept);
    NothingLeftIff(Rollback(r), live', r.junk, g, m, WithBackup(m.files) + lost, was, kept);
    AsRecordedSame(Rollback(r), r.tree, m, job.hash);
  }

  lemma UpgradeTold(t: Tree, g: Ground, m: Manifest, live: seq<Path>, lost: set<Path>, was: map<Path, Content>, job: Job, left: nat)
    requires Standing(t, g, m, live, lost, was) && g.record in was && Load(g.base, g.record).Absent? && NoCaches(g) && job.previous == m
    requires g.pid == job.plan.pid && g.record == job.plan.record && Dests(job.plan.items) <= g.dests
    requires job.moving == InTheWay(t, job.plan.items, Owned(m.files)) && !Blocked(t, job.moving)
    ensures job.plan.record != [] && [] !in Dests(job.plan.items)
    ensures var r, script := Attempt(Begin(t, left, m), job), Script(t, job.plan, job.hash, m);
            && (r.failed <==> Fails(script, left))
            && (r.failed ==>
                  (Uninstall(Rollback(r), g.record, job.hash) == Some(g.base) <==>
                   lost == {} && !Leaves(FailingStep(script, left), job.torn) && StillRecorded(t, m, job.plan.items, Swaps(script, left), job.hash)))
  {
    AttemptTold(t, g, m, live, lost, was, job, left);
    var r, script := Attempt(Begin(t, left, m), job), Script(t, job.plan, job.hash, m);
    if r.failed {
      FailedTold(t, g, m, live, lost, was, job, left);
      RecordedIff(r.tree, t, job.plan.items, Swaps(script, left), m, job.hash);
    }
  }

  /** For every installation in force, plan and disk: an upgrade that is not refused fails if and only if
      its script meets the fault; and an uninstall after the failed upgrade gives the original tree if and
      only if no backup had been lost track of, the failing step is none of those that leave a file
      behind, and every recorded file is as recorded when the files swapped in by then are counted. */
  lemma FailedUpgradeTold(t: Tree, g: Ground, hash: Content -> int, m: Manifest, live: seq<Path>, lost: set<Path>, was: map<Path, Content>,
                          plan: Plan, left: nat, torn: bool)
    requires Standing(t, g, m, live, lost, was) && g.record in was && Load(g.base, g.record).Absent? && NoCaches(g)
    requires g.pid == plan.pid && g.record == plan.record && Dests(plan.items) <= g.dests && !Blocked(t, InTheWay(t, plan.items, Owned(m.files)))
    ensures plan.record != [] && [] !in Dests(plan.items)
    ensures var out, script := Install(t, plan, hash, left, torn), Script(t, plan, hash, m);
            && (out.Failed? <==> Fails(script, left))
            && (out.Failed? ==>
                  (Uninstall(out.tree, g.record, hash) == Some(g.base) <==>
                   lost == {} && !Leaves(FailingStep(script, left), torn) && StillRecorded(t, m, plan.items, Swaps(script, left), hash)))
  {
    LoadStanding(t, g, m, live, lost, was);
    InstallRuns(t, plan, hash, left, torn, m);
    UpgradeTold(t, g, m, live, lost, was, JobFor(t, plan, hash, torn, m), left);
  }

  lemma InstallRuns(t: Tree, plan: Plan, hash: Content -> int, left: nat, torn: bool, m: Manifest)
    requires Load(t, plan.record) == Found(m) && !Blocked(t, InTheWay(t, plan.items, Owned(m.files)))
    ensures var r := Attempt(Begin(t, left, m), JobFor(t, plan, hash, torn, m));
            Install(t, plan, hash, left, torn) == if r.failed then Failed(Rollback(r), r.junk) else Installed(r.tree)
  {
  }

  // ---- courses ----

  /** The tree after an install, whatever became of it. */
  function After(t: Tree, step: Step, hash: Content -> int): Tree {
    match Install(t, step.plan, hash, step.left, step.torn)
    case Installed(t') => t'
    case Failed(t', _) => t'
    case Refused => t
  }

  function Course(t: Tree, steps: seq<Step>, i: nat, hash: Content -> int): Tree
    requires i <= |steps|
    decreases |steps| - i
  {
    if i == |steps| then t else Course(After(t, steps[i], hash), steps, i + 1, hash)
  }

  /** The manifest an install finds. */
  function InForce(t: Tree, record: Path): Manifest {
    match Load(t, record)
    case Found(m) => m
    case _ => Manifest([], [])
  }

  /** Every recorded file that has changed is shipped again. */
  predicate Heals(t: Tree, plan: Plan, hash: Content -> int) {
    var m := InForce(t, plan.record);
    forall i :: 0 <= i < |m.files| ==> m.files[i].path in Dests(plan.items) || m.files[i].path !in t || Unchanged(t, m.files[i], hash)
  }

  /** The install succeeds and ships again what has changed, or it fails at a step that leaves nothing behind. */
  predicate Clean(t: Tree, step: Step, hash: Content -> int)
    requires step.plan.record != [] && [] !in Dests(step.plan.items)
  {
    match Install(t, step.plan, hash, step.left, step.torn)
    case Installed(_) => Heals(t, step.plan, hash)
    case Failed(_, _) => !Leaves(FailingStep(Script(t, step.plan, hash, InForce(t, step.plan.record)), step.left), step.torn)
    case Refused => true
  }

  predicate NoRoots(steps: seq<Step>) {
    forall i :: 0 <= i < |steps| ==> steps[i].plan.record != [] && [] !in Dests(steps[i].plan.items)
  }

  predicate AllClean(t: Tree, steps: seq<Step>, i: nat, hash: Content -> int)
    requires i <= |steps| && NoRoots(steps)
    decreases |steps| - i
  {
    i == |steps| || (Clean(t, steps[i], hash) && AllClean(After(t, steps[i], hash), steps, i + 1, hash))
  }

  /** Every install that succeeds still ships what it finds displaced. */
  predicate AllKeep(t: Tree, steps: seq<Step>, i: nat, hash: Content -> int)
    requires i <= |steps|
    decreases |steps| - i
  {
    i == |steps| ||
    (&& (Install(t, steps[i].plan, hash, steps[i].left, steps[i].torn).Installed? ==> Ships(t, steps[i].plan))
     && AllKeep(After(t, steps[i], hash), steps, i + 1, hash))
  }

  /** What stands between two installs of a course. */
  ghost predicate Underway(t: Tree, g: Ground, m: Manifest, live: seq<Path>, lost: set<Path>, files: map<Path, Content>) {
    Standing(t, g, m, live, lost, files) && Load(g.base, g.record).Absent? && (g.record !in files ==> lost == {})
  }

  lemma UnderwayLoads(t: Tree, g: Ground, m: Manifest, live: seq<Path>, lost: set<Path>, files: map<Path, Content>)
    requires Underway(t, g, m, live, lost, files)
    ensures Load(t, g.record) == if g.record in files then Found(m) else Absent
    ensures InForce(t, g.record) == m
  {
    RecordStart(t, live, g, WithBackup(m.files) + lost, files);
  }

  lemma HealsDrops(t: Tree, g: Ground, m: Manifest, live: seq<Path>, lost: set<Path>, files: map<Path, Content>, plan: Plan, hash: Content -> int)
    requires Standing(t, g, m, live, lost, files) && InForce(t, plan.record) == m && Heals(t, plan, hash)
    ensures Droppable(files, m.files, 0, Dests(plan.items), hash)
  {
    FilesPlaces(g, m, live, lost, files);
    forall j | 0 <= j < |m.files| && m.files[j].path !in Dests(plan.items) ensures !Altered(m.files[j], files, hash) {
      assert m.files[j].path in Owned(m.files);
      PlaceShows(Start(t, 0, live), g, WithBackup(m.files) + lost, files, m.files[j].path);
    }
  }

  ghost predicate Fitting(step: Step, h: Ground) {
    h.pid == step.plan.pid && h.record == step.plan.record && Dests(step.plan.items) <= h.dests && Once(step.plan.items)
  }

  lemma AfterSuccess(t: Tree, h: Ground, hash: Content -> int, m: Manifest, live: seq<Path>, lost: set<Path>, files: map<Path, Content>, step: Step)
    returns (m': Manifest, live': seq<Path>, lost': set<Path>, files': map<Path, Content>)
    requires Underway(t, h, m, live, lost, files) && Fitting(step, h)
    requires Install(t, step.plan, hash, step.left, step.torn).Installed? && Heals(t, step.plan, hash)
    ensures Underway(After(t, step, hash), h, m', live', lost', files')
    ensures lost' == {} <==> lost == {} && Ships(t, step.plan)
  {
    UnderwayLoads(t, h, m, live, lost, files);
    HealsDrops(t, h, m, live, lost, files, step.plan, hash);
    m', live', lost', files' := InstallStep(t, h, hash, m, live, lost, files, step);
  }

  lemma InstallIs(t: Tree, plan: Plan, hash: Content -> int, left: nat, torn: bool, m: Manifest)
    requires !Load(t, plan.record).Invalid? && m == InForce(t, plan.record) && !Install(t, plan, hash, left, torn).Refused?
    ensures var job := JobFor(t, plan, hash, torn, m);
            var r := Attempt(Begin(t, left, m), job);
            && !Blocked(t, job.moving)
            && Install(t, plan, hash, left, torn) == if r.failed then Failed(Rollback(r), r.junk) else Installed(r.tree)
  {
  }

  lemma AfterFailure(t: Tree, h: Ground, hash: Content -> int, m: Manifest, live: seq<Path>, lost: set<Path>, files: map<Path, Content>, step: Step)
    returns (live': seq<Path>, files': map<Path, Content>)
    requires Underway(t, h, m, live, lost, files) && Fitting(step, h) && step.plan.record != [] && [] !in Dests(step.plan.items)
    requires Install(t, step.plan, hash, step.left, step.torn).Failed? && Clean(t, step, hash)
    ensures Underway(After(t, step, hash), h, m, live', lost, files')
  {
    UnderwayLoads(t, h, m, live, lost, files);
    InstallIs(t, step.plan, hash, step.left, step.torn, m);
    var job := JobFor(t, step.plan, hash, step.torn, m);
    var r := Attempt(Begin(t, step.left, m), job);
    AttemptTold(t, h, m, live, lost, files, job, step.left);
    live', files' := Handled(t, h, m, live, lost, files, job, step.left);
    assert r.junk.None?;
    StandsAgain(t, Rollback(r), h, step.plan.items, m, live, live', lost, files, files');
  }

  lemma UnderwayOtherPid(t: Tree, g: Ground, h: Ground, m: Manifest, live: seq<Path>, lost: set<Path>, files: map<Path, Content>)
    requires Underway(t, g, m, live, lost, files) && h == g.(pid := h.pid)
    ensures Underway(t, h, m, live, lost, files)
  {
    StandingOtherPid(t, g, h, m, live, lost, files);
  }

  /** One install of a course, whatever becomes of it. */
  lemma CourseStep(t: Tree, h: Ground, hash: Content -> int, m: Manifest, live: seq<Path>, lost: set<Path>, files: map<Path, Content>, step: Step)
    returns (m': Manifest, live': seq<Path>, lost': set<Path>, files': map<Path, Content>)
    requires Underway(t, h, m, live, lost, files) && Fitting(step, h) && step.plan.record != [] && [] !in Dests(step.plan.items) && Clean(t, step, hash)
    ensures Underway(After(t, step, hash), h, m', live', lost', files')
    ensures lost' == {} <==> lost == {} && (Install(t, step.plan, hash, step.left, step.torn).Installed? ==> Ships(t, step.plan))
  {
    m', live', lost', files' := m, live, lost, files;
    match Install(t, step.plan, hash, step.left, step.torn)
    case Installed(_) => m', live', lost', files' := AfterSuccess(t, h, hash, m, live, lost, files, step);
    case Failed(_, _) => live', files' := AfterFailure(t, h, hash, m, live, lost, files, step);
    case Refused =>
  }

  lemma {:induction false} CourseRun(t: Tree, g: Ground, hash: Content -> int, m: Manifest, live: seq<Path>, lost: set<Path>, files: map<Path, Content>, steps: seq<Step>, i: nat)
    returns (m': Manifest, live': seq<Path>, lost': set<Path>, files': map<Path, Content>)
    requires i <= |steps| && ChainOk(g.base, g.dests, g.record, steps) && NoRoots(steps) && AllClean(t, steps, i, hash)
    requires Underway(t, g, m, live, lost, files)
    ensures Underway(Course(t, steps, i, hash), g, m', live', lost', files')
    ensures lost' == {} <==> lost == {} && AllKeep(t, steps, i, hash)
    decreases |steps| - i
  {
    if i == |steps| {
      m', live', lost', files' := m, live, lost, files;
    } else {
      var h: Ground := g.(pid := steps[i].plan.pid);
      UnderwayOtherPid(t, g, h, m, live, lost, files);
      m', live', lost', files' := CourseStep(t, h, hash, m, live, lost, files, steps[i]);
      UnderwayOtherPid(After(t, steps[i], hash), h, g, m', live', lost', files');
      m', live', lost', files' := CourseRun(After(t, steps[i], hash), g, hash, m', live', lost', files', steps, i + 1);
    }
  }

  /** With nothing on record the tree is the original one. */
  lemma NothingInstalled(t: Tree, g: Ground, m: Manifest, live: seq<Path>, lost: set<Path>, files: map<Path, Content>)
    requires Underway(t, g, m, live, lost, files) && g.record !in files
    ensures t == g.base
  {
    assert files.Keys <= Owned([]) + {g.record};
    assert files == map[];
    assert ToSet(m.dirs) == {};
    assert Described(g, WithBackup(m.files) + lost, files, live) == Over(g.base, {}, map[], {});
    IsBase(t, g.base);
  }

  /** For every course of installs in which each one that succeeds ships again what has changed, and each one
      that fails does so at a step that leaves no file behind: if nothing is on record at the end, the tree
      is the original one; otherwise an uninstall gives the original tree if and only if no install that
      succeeded stopped shipping a path with a backup on record, and every file on record at the end is gone
      or as recorded. */
  lemma CourseRoundTrip(base: Tree, dests: set<Path>, record: Path, steps: seq<Step>, hash: Content -> int)
    requires steps != [] && ChainOk(base, dests, record, steps) && Load(base, record).Absent?
    requires NoCaches(Setting(base, dests, record, steps[0].plan.pid))
    ensures NoRoots(steps)
    ensures AllClean(base, steps, 0, hash) ==>
              var t := Course(base, steps, 0, hash);
              match Load(t, record)
              case Found(m) => Uninstall(t, record, hash) == Some(base) <==> AllKeep(base, steps, 0, hash) && AsRecorded(t, m, hash)
              case _ => t == base
  {
    var g: Ground := Setting(base, dests, record, steps[0].plan.pid);
    StepsFit(base, dests, record, steps);
    if AllClean(base, steps, 0, hash) {
      StandingFirst(g);
      var m, live, lost, files := CourseRun(base, g, hash, Manifest([], []), [], {}, map[], steps, 0);
      CourseEnds(Course(base, steps, 0, hash), g, hash, m, live, lost, files);
    }
  }

  lemma StepsFit(base: Tree, dests: set<Path>, record: Path, steps: seq<Step>)
    requires ChainOk(base, dests, record, steps)
    ensures NoRoots(steps)
  {
  }

  lemma CourseEnds(t: Tree, g: Ground, hash: Content -> int, m: Manifest, live: seq<Path>, lost: set<Path>, files: map<Path, Content>)
    requires Underway(t, g, m, live, lost, files) && NoCaches(g)
    ensures match Load(t, g.record)
            case Found(m') => m' == m && (Uninstall(t, g.record, hash) == Some(g.base) <==> lost == {} && AsRecorded(t, m, hash))
            case _ => t == g.base && lost == {}
  {
    UnderwayLoads(t, g, m, live, lost, files);
    if g.record in files {
      StandingWorn(t, g, m, live, lost, files);
      UninstallWornIff(Start(t, 0, live), g, hash, m, lost, files);
    } else {
      NothingInstalled(t, g, m, live, lost, files);
    }
  }
}
