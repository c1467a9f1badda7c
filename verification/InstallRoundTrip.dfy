/** The round trip through any chain of successful installs. */
module InstallRoundTrip {
  import opened Basics
  import opened InstallTree
  import opened InstallRun
  import opened InstallSteps
  import opened InstallChain
  import opened InstallUpgrade
  import opened InstallWorn

  lemma ExactIff(t: Tree, g: Ground, lost: set<Path>)
    requires Is(t, Over(g.base, lost, map[], {})) && AwayOk(g, lost)
    ensures t == g.base <==> lost == {}
  {
    IsBase(t, g.base);
    if d :| d in lost {
      assert IsAway(lost, d);
      assert Get(t, d) == Look(Over(g.base, lost, map[], {}), d);
    }
  }

  // ---- chains ----

  /** One install of a chain: its plan and the disk's behaviour during it. */
  datatype Step = Step(plan: Plan, left: nat, torn: bool)

  /** The tree after the installs from the i-th on, if every one of them succeeds. */
  function Chain(t: Tree, steps: seq<Step>, i: nat, hash: Content -> int): Option<Tree>
    requires i <= |steps|
    decreases |steps| - i
  {
    if i == |steps| then Some(t) else
    match Install(t, steps[i].plan, hash, steps[i].left, steps[i].torn)
    case Installed(t') => Chain(t', steps, i + 1, hash)
    case _ => None
  }

  /** The plan still ships every path for which the manifest in the tree records a backup. */
  predicate Ships(t: Tree, plan: Plan) {
    var loaded := Load(t, plan.record);
    loaded.Found? ==>
      forall i :: 0 <= i < |loaded.manifest.files| && loaded.manifest.files[i].backup.Some? ==>
                    loaded.manifest.files[i].path in Dests(plan.items)
  }

  /** Every install of the chain still ships what it finds displaced. */
  predicate AllShip(t: Tree, steps: seq<Step>, i: nat, hash: Content -> int)
    requires i <= |steps|
    decreases |steps| - i
  {
    i == |steps| ||
    (&& Ships(t, steps[i].plan)
     && match Install(t, steps[i].plan, hash, steps[i].left, steps[i].torn)
        case Installed(t') => AllShip(t', steps, i + 1, hash)
        case _ => true)
  }

  /** The installs share the manifest's path, use destinations of one set and ship each path once. */
  ghost predicate ChainOk(base: Tree, dests: set<Path>, record: Path, steps: seq<Step>) {
    forall i :: 0 <= i < |steps| ==>
                  && SettingOk(Setting(base, dests, record, steps[i].plan.pid))
                  && steps[i].plan.record == record && Dests(steps[i].plan.items) <= dests && Once(steps[i].plan.items)
  }

  /** Every plan ships at least the paths of the one before it. */
  ghost predicate Growing(steps: seq<Step>) {
    forall i :: 0 < i < |steps| ==> Dests(steps[i - 1].plan.items) <= Dests(steps[i].plan.items)
  }

  lemma ShipsIff(t: Tree, g: Ground, m: Manifest, live: seq<Path>, lost: set<Path>, files: map<Path, Content>, plan: Plan)
    requires Standing(t, g, m, live, lost, files) && plan.record == g.record
    requires g.record in files || Load(t, g.record).Absent?
    ensures Ships(t, plan) <==> WithBackup(m.files) - Dests(plan.items) == {}
    ensures g.record !in files ==> WithBackup(m.files) == {}
  {
    if g.record in files {
      LoadStanding(t, g, m, live, lost, files);
      var extra := WithBackup(m.files) - Dests(plan.items);
      if Ships(t, plan) { assert extra == {}; }
      forall i | 0 <= i < |m.files| && m.files[i].backup.Some? ensures m.files[i].path in Dests(plan.items) || m.files[i].path in extra {
        assert m.files[i].path in WithBackup(m.files);
      }
    } else {
      assert WithBackup(m.files) == {};
    }
  }

  /** One successful install, from what stands to what stands. */
  lemma InstallStep(t: Tree, h: Ground, hash: Content -> int, m: Manifest, live: seq<Path>, lost: set<Path>, files: map<Path, Content>, step: Step)
    returns (m': Manifest, live': seq<Path>, lost': set<Path>, files': map<Path, Content>)
    requires Standing(t, h, m, live, lost, files) && Load(h.base, h.record).Absent?
    requires h.record in files || Load(t, h.record).Absent?
    requires h.pid == step.plan.pid && h.record == step.plan.record && Dests(step.plan.items) <= h.dests && Once(step.plan.items)
    requires Install(t, step.plan, hash, step.left, step.torn).Installed? && Droppable(files, m.files, 0, Dests(step.plan.items), hash)
    ensures Standing(Install(t, step.plan, hash, step.left, step.torn).tree, h, m', live', lost', files') && h.record in files'
    ensures lost' == {} <==> lost == {} && Ships(t, step.plan)
    ensures Owned(m'.files) == Dests(step.plan.items) && NoneAltered(m'.files, files', hash) && (live == m.dirs ==> live' == m'.dirs)
    ensures Owned(m.files) <= Dests(step.plan.items) ==> Ships(t, step.plan)
  {
    assert WithBackup(m.files) <= Owned(m.files);
    if h.record in files { LoadStanding(t, h, m, live, lost, files); }
    ShipsIff(t, h, m, live, lost, files, step.plan);
    m', live', files' := Upgrade(t, h, hash, m, live, lost, files, step.plan, step.left, step.torn);
    lost' := lost + (WithBackup(m.files) - Dests(step.plan.items));
  }

  lemma {:induction false} ChainRun(t: Tree, g: Ground, hash: Content -> int, m: Manifest, lost: set<Path>, files: map<Path, Content>, steps: seq<Step>, i: nat)
    returns (m': Manifest, lost': set<Path>, files': map<Path, Content>)
    requires i <= |steps| && ChainOk(g.base, g.dests, g.record, steps) && Chain(t, steps, i, hash).Some?
    requires Standing(t, g, m, m.dirs, lost, files) && NoneAltered(m.files, files, hash) && Load(g.base, g.record).Absent?
    requires g.record in files || (i < |steps| && Load(t, g.record).Absent?)
    ensures Standing(Chain(t, steps, i, hash).value, g, m', m'.dirs, lost', files') && g.record in files' && NoneAltered(m'.files, files', hash)
    ensures lost' == {} <==> lost == {} && AllShip(t, steps, i, hash)
    ensures lost == {} && Growing(steps) && (i < |steps| ==> Owned(m.files) <= Dests(steps[i].plan.items)) ==> lost' == {}
    decreases |steps| - i
  {
    if i == |steps| {
      m', lost', files' := m, lost, files;
    } else {
      var live';
      var h: Ground := g.(pid := steps[i].plan.pid);
      StandingOtherPid(t, g, h, m, m.dirs, lost, files);
      m', live', lost', files' := InstallStep(t, h, hash, m, m.dirs, lost, files, steps[i]);
      var t' := Install(t, steps[i].plan, hash, steps[i].left, steps[i].torn).tree;
      StandingOtherPid(t', h, g, m', live', lost', files');
      m', lost', files' := ChainRun(t', g, hash, m', lost', files', steps, i + 1);
    }
  }

  /** For every chain of successful installs and one uninstall after it: the tree is the one before the
      first install, but for entries left at their backups; and it is exactly that tree if and only if
      no install of the chain stopped shipping a path whose displaced entry was on record. That is so
      whenever every plan ships at least the paths of the one before it. */
  lemma ChainRoundTrip(base: Tree, dests: set<Path>, record: Path, steps: seq<Step>, hash: Content -> int)
    returns (lost: set<Path>)
    requires steps != [] && ChainOk(base, dests, record, steps) && Load(base, record).Absent?
    requires Chain(base, steps, 0, hash).Some?
    ensures var back := Uninstall(Chain(base, steps, 0, hash).value, record, hash);
            && back.Some? && Is(back.value, Over(base, lost, map[], {})) && lost <= dests
            && (back.value == base <==> AllShip(base, steps, 0, hash))
            && (Growing(steps) ==> back.value == base)
  {
    var g: Ground := Setting(base, dests, record, steps[0].plan.pid);
    StandingFirst(g);
    var m, left, files := ChainRun(base, g, hash, Manifest([], []), {}, map[], steps, 0);
    lost := left;
    UninstallStanding(Chain(base, steps, 0, hash).value, g, hash, m, lost, files);
    ExactIff(Uninstall(Chain(base, steps, 0, hash).value, record, hash).value, g, lost);
  }
}
