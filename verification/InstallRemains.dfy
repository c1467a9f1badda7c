/** Installs one after another of which some fail and leave their temporaries: after an uninstall the tree is
    the original one with exactly those temporaries, and the folders they lie in, on top. */
module InstallRemains {
  import opened Basics
  import opened InstallTree
  import opened InstallRun
  import opened InstallSteps
  import opened InstallRollback
  import opened InstallShadow
  import opened InstallChain
  import opened InstallWorn
  import opened InstallRoundTrip
  import opened InstallRetreat
  import opened InstallLeftover
  import opened InstallCourse

  // ---- the tree with all leftovers in it ----

  /** The tree is the original one with these files, and the folders it lacks for them, on top. */
  ghost predicate OnTop(b: Tree, base: Tree, left: map<Path, Content>) {
    Is(b, Over(base, {}, left, Needed(base, left)))
  }

  lemma NeededIff(base: Tree, left: map<Path, Content>, k: Path)
    ensures k in Needed(base, left) <==> k !in base && exists x :: x in left && StrictlyAbove(k, x)
  {
    if k in Needed(base, left) {
      var x, n: nat :| x in left && n < |x| && x[..n] == k;
      assert StrictlyAbove(k, x);
    }
    if k !in base {
      if x :| x in left && StrictlyAbove(k, x) { assert x[..|k|] == k; }
    }
  }

  lemma OnTopNone(base: Tree)
    ensures OnTop(base, base, map[])
  {
    IsBase(base, base);
    assert Needed(base, map[]) == {};
  }

  lemma OnTopOnce(b: Tree, c: Tree, base: Tree, left: map<Path, Content>)
    requires OnTop(b, base, left)
    ensures OnTop(c, base, left) <==> c == b
  {
    var o := Over(base, {}, left, Needed(base, left));
    if OnTop(c, base, left) {
      forall k ensures Get(c, k) == Get(b, k) { assert Get(c, k) == Look(o, k) && Get(b, k) == Look(o, k); }
      SameMap(c, b);
    }
  }

  lemma SameMap(s: Tree, t: Tree)
    requires forall k :: Get(s, k) == Get(t, k)
    ensures s == t
  {
    forall k ensures k in s <==> k in t { assert Get(s, k) == Get(t, k); }
    forall k | k in s ensures s[k] == t[k] { assert Get(s, k) == Get(t, k); }
  }

  lemma OnTopAt(b: Tree, base: Tree, left: map<Path, Content>, k: Path)
    requires OnTop(b, base, left)
    ensures Get(b, k) == if k in left then Some(File(left[k])) else if k in Needed(base, left) then Some(Dir) else Get(base, k)
  {
    assert Get(b, k) == Look(Over(base, {}, left, Needed(base, left)), k);
    AtElsewhere(base, {}, k);
  }

  lemma OnTopMoreAt(b: Tree, base: Tree, left: map<Path, Content>, x: Path, c: Content, k: Path)
    requires OnTop(b, base, left) && x !in b && forall e :: e in b && StrictlyAbove(e, x) ==> b[e] == Dir
    ensures Get(WithLeft(b, x, c), k) == Look(Over(base, {}, left[x := c], Needed(base, left[x := c])), k)
  {
    var left' := left[x := c];
    WithLeftGet(b, x, c, k);
    OnTopAt(b, base, left, k);
    NeededIff(base, left, k);
    NeededIff(base, left', k);
    AtElsewhere(base, {}, k);
    if k != x && k !in left {
      if y :| y in left' && StrictlyAbove(k, y) { if y != x { assert y in left; } }
      if y :| y in left && StrictlyAbove(k, y) { assert y in left'; }
      assert x in left';
    }
  }

  lemma OnTopMore(b: Tree, base: Tree, left: map<Path, Content>, x: Path, c: Content)
    requires OnTop(b, base, left) && x !in b && forall e :: e in b && StrictlyAbove(e, x) ==> b[e] == Dir
    ensures OnTop(WithLeft(b, x, c), base, left[x := c])
  {
    forall k ensures Get(WithLeft(b, x, c), k) == Look(Over(base, {}, left[x := c], Needed(base, left[x := c])), k) {
      OnTopMoreAt(b, base, left, x, c, k);
    }
  }

  // ---- one install ----

  /** An install that succeeds ships again what has changed; one that fails leaves the manifest as it was. */
  predicate Sound(t: Tree, step: Step, hash: Content -> int) {
    match Install(t, step.plan, hash, step.left, step.torn)
    case Installed(_) => Heals(t, step.plan, hash)
    case Failed(t', _) => Load(t', step.plan.record) == Load(t, step.plan.record)
    case Refused => true
  }

  predicate AllSound(t: Tree, steps: seq<Step>, i: nat, hash: Content -> int)
    requires i <= |steps|
    decreases |steps| - i
  {
    i == |steps| || (Sound(t, steps[i], hash) && AllSound(After(t, steps[i], hash), steps, i + 1, hash))
  }

  /** The process ids of the installs, and one more. */
  function Pid(steps: seq<Step>, i: nat, spare: string): string {
    if i < |steps| then steps[i].plan.pid else spare
  }

  /** The temporaries of different processes are apart. */
  ghost predicate OwnTmps(dests: set<Path>, steps: seq<Step>, spare: string) {
    forall i: nat, j: nat, p, q {:trigger Tmp(p, Pid(steps, i, spare)), Tmp(q, Pid(steps, j, spare))} ::
      i < j <= |steps| && p in dests && q in dests ==> Apart(Tmp(p, Pid(steps, i, spare)), Tmp(q, Pid(steps, j, spare)))
  }

  /** The temporaries of the installs to come are free. */
  ghost predicate Ahead(g: Ground, steps: seq<Step>, i: nat, spare: string) {
    forall j: nat {:trigger Pid(steps, j, spare)} :: i <= j <= |steps| ==> SettingOk(g.(pid := Pid(steps, j, spare)))
  }

  lemma TmpsAhead(g: Ground, steps: seq<Step>, i: nat, j: nat, spare: string, x: Path)
    requires i < j <= |steps| && OwnTmps(g.dests, steps, spare) && g.pid == Pid(steps, i, spare) && IsTmp(g, x)
    ensures TmpsFree(g, Pid(steps, j, spare), x)
  {
    var p :| p in g.dests && x == Tmp(p, g.pid);
    forall q | q in g.dests ensures !Under(x, Tmp(q, Pid(steps, j, spare))) {
      assert Apart(Tmp(p, Pid(steps, i, spare)), Tmp(q, Pid(steps, j, spare)));
    }
  }

  /** The installs to come find their places free over the tree with the leftover in it, too. */
  lemma AheadOther(t: Tree, live: seq<Path>, g: Ground, away: set<Path>, kept: map<Path, Content>, x: Path, steps: seq<Step>, i: nat, spare: string)
    requires RunIs(Start(t, 0, live), g, away, kept) && x in kept && IsTmp(g, x)
    requires i < |steps| && g.pid == Pid(steps, i, spare) && Ahead(g, steps, i, spare) && OwnTmps(g.dests, steps, spare)
    ensures forall j: nat {:trigger Pid(steps, j, spare)} :: i < j <= |steps| ==>
              SettingOk(Setting(WithLeft(g.base, x, kept[x]), g.dests, g.record, Pid(steps, j, spare)))
  {
    forall j: nat | i < j <= |steps| ensures SettingOk(Setting(WithLeft(g.base, x, kept[x]), g.dests, g.record, Pid(steps, j, spare))) {
      TmpsAhead(g, steps, i, j, spare, x);
      GroundOther(t, live, g, away, kept, x, Pid(steps, j, spare));
    }
  }

  /** What is known between two installs: the tree installed over is the original one with the leftovers on
      top, which are temporaries of installs so far. */
  ghost predicate Between(t: Tree, base: Tree, left: map<Path, Content>, g: Ground, m: Manifest, live: seq<Path>, lost: set<Path>,
                          files: map<Path, Content>, steps: seq<Step>, i: nat, spare: string) {
    && Underway(t, g, m, live, lost, files) && NoCaches(g) && i <= |steps| && g.pid == Pid(steps, i, spare)
    && Ahead(g, steps, i, spare) && OnTop(g.base, base, left) && FromBefore(left, g.dests, steps, i, spare)
  }

  /** Every leftover is a temporary of an earlier install. */
  ghost predicate FromBefore(left: map<Path, Content>, dests: set<Path>, steps: seq<Step>, i: nat, spare: string) {
    forall x :: x in left ==> exists j: nat, p :: j < i && p in dests && x == Tmp(p, Pid(steps, j, spare))
  }

  lemma FromBeforeMore(left: map<Path, Content>, dests: set<Path>, steps: seq<Step>, i: nat, spare: string)
    requires FromBefore(left, dests, steps, i, spare)
    ensures FromBefore(left, dests, steps, i + 1, spare)
  {
    forall x | x in left ensures exists j: nat, p :: j < i + 1 && p in dests && x == Tmp(p, Pid(steps, j, spare)) {
      var j: nat, p :| j < i && p in dests && x == Tmp(p, Pid(steps, j, spare));
      assert j < i + 1;
    }
  }

  /** The same installation seen by the next process. */
  lemma NextProcess(t: Tree, base: Tree, left: map<Path, Content>, g: Ground, h: Ground, m: Manifest, live: seq<Path>, lost: set<Path>,
                    files: map<Path, Content>, steps: seq<Step>, i: nat, spare: string)
    requires Underway(t, g, m, live, lost, files) && NoCaches(g) && i < |steps| && Ahead(g, steps, i, spare)
    requires OnTop(g.base, base, left) && FromBefore(left, g.dests, steps, i, spare) && h == g.(pid := Pid(steps, i + 1, spare))
    ensures Between(t, base, left, h, m, live, lost, files, steps, i + 1, spare)
  {
    UnderwayOtherPid(t, g, h, m, live, lost, files);
    FromBeforeMore(left, g.dests, steps, i, spare);
    forall j: nat | i + 1 <= j <= |steps| ensures SettingOk(h.(pid := Pid(steps, j, spare))) {
      assert h.(pid := Pid(steps, j, spare)) == g.(pid := Pid(steps, j, spare));
    }
  }

  /** A torn manifest is no manifest: a failed install that leaves the manifest as it was tore none. */
  lemma NotTorn(t: Tree, t': Tree, g: Ground, m: Manifest, live: seq<Path>, live': seq<Path>, lost: set<Path>, files: map<Path, Content>,
                kept: map<Path, Content>, junk: Option<Path>)
    requires Underway(t, g, m, live, lost, files) && RunIs(Start(t', 0, live'), g, WithBackup(m.files) + lost, kept)
    requires LeftBehind(junk, g, files, kept) && Load(t', g.record) == Load(t, g.record)
    ensures junk.Some? ==> IsTmp(g, junk.value)
    ensures SameRecord(g, files, kept)
  {
    UnderwayLoads(t, g, m, live, lost, files);
    if junk.Some? && !IsTmp(g, junk.value) { TornRefused(Start(t', 0, live'), g, (c: Content) => 0, WithBackup(m.files) + lost, kept); }
  }

  /** A leftover is new to the tree installed over, and lies in folders. */
  lemma LeftoverNew(t: Tree, live: seq<Path>, g: Ground, away: set<Path>, kept: map<Path, Content>, x: Path)
    requires RunIs(Start(t, 0, live), g, away, kept) && x in kept && IsTmp(g, x)
    ensures x !in g.base && forall e :: e in g.base && StrictlyAbove(e, x) ==> g.base[e] == Dir
  {
    forall e | e in g.base && StrictlyAbove(e, x) ensures g.base[e] == Dir { OnlyFoldersAbove(t, live, g, away, kept, x, e); }
  }

  /** A failed install that left a temporary. */
  lemma LeftOne(t: Tree, t': Tree, base: Tree, left: map<Path, Content>, g: Ground, items: seq<Item>, m: Manifest, live: seq<Path>, live': seq<Path>,
                lost: set<Path>, files: map<Path, Content>, kept: map<Path, Content>, x: Path, steps: seq<Step>, i: nat, spare: string)
    returns (h: Ground)
    requires Between(t, base, left, g, m, live, lost, files, steps, i, spare) && i < |steps| && OwnTmps(g.dests, steps, spare)
    requires RunIs(Start(t', 0, live'), g, WithBackup(m.files) + lost, kept) && x in kept && IsTmp(g, x)
    requires (forall c :: c in ToSet(live') ==> Holds(kept, c)) && KeptFrom(g, items, m, files, kept) && SameRecord(g, files, kept)
    ensures Between(t', base, left[x := kept[x]], h, m, Others(live', Ways(g.base, x)), lost, kept - {x}, steps, i + 1, spare)
    ensures h.dests == g.dests && h.record == g.record
  {
    AheadOther(t', live', g, WithBackup(m.files) + lost, kept, x, steps, i, spare);
    h := Setting(WithLeft(g.base, x, kept[x]), g.dests, g.record, Pid(steps, i + 1, spare));
    StandsWithLeft(t, t', g, h, items, m, live, live', lost, files, kept, x);
    LoadOther(g, h, x, kept[x]);
    LeftoverNew(t', live', g, WithBackup(m.files) + lost, kept, x);
    OnTopMore(g.base, base, left, x, kept[x]);
    TmpElsewhere(g, x);
    LeftBefore(left, g, x, kept[x], steps, i, spare);
  }

  lemma LeftBefore(left: map<Path, Content>, g: Ground, x: Path, c: Content, steps: seq<Step>, i: nat, spare: string)
    requires FromBefore(left, g.dests, steps, i, spare) && IsTmp(g, x) && g.pid == Pid(steps, i, spare)
    ensures FromBefore(left[x := c], g.dests, steps, i + 1, spare)
  {
    FromBeforeMore(left, g.dests, steps, i, spare);
    var p :| p in g.dests && x == Tmp(p, g.pid);
    assert i < i + 1 && x == Tmp(p, Pid(steps, i, spare));
  }

  /** One install that fails. */
  lemma FailedStep(t: Tree, base: Tree, left: map<Path, Content>, g: Ground, hash: Content -> int, m: Manifest, live: seq<Path>, lost: set<Path>,
                   files: map<Path, Content>, steps: seq<Step>, i: nat, spare: string)
    returns (left': map<Path, Content>, h: Ground, live': seq<Path>, files': map<Path, Content>)
    requires Between(t, base, left, g, m, live, lost, files, steps, i, spare) && i < |steps| && OwnTmps(g.dests, steps, spare) && Fitting(steps[i], g)
    requires Install(t, steps[i].plan, hash, steps[i].left, steps[i].torn).Failed? && Sound(t, steps[i], hash)
    ensures Between(After(t, steps[i], hash), base, left', h, m, live', lost, files', steps, i + 1, spare)
    ensures h.dests == g.dests && h.record == g.record
  {
    var step := steps[i];
    UnderwayLoads(t, g, m, live, lost, files);
    InstallIs(t, step.plan, hash, step.left, step.torn, m);
    var job := JobFor(t, step.plan, hash, step.torn, m);
    var r, t' := Attempt(Begin(t, step.left, m), job), After(t, step, hash);
    var kept;
    live', kept := Handled(t, g, m, live, lost, files, job, step.left);
    NotTorn(t, t', g, m, live, live', lost, files, kept, r.junk);
    if r.junk.None? {
      StandsAgain(t, t', g, step.plan.items, m, live, live', lost, files, kept);
      h, left', files' := g.(pid := Pid(steps, i + 1, spare)), left, kept;
      NextProcess(t', base, left, g, h, m, live', lost, kept, steps, i, spare);
    } else {
      var x := r.junk.value;
      h := LeftOne(t, t', base, left, g, step.plan.items, m, live, live', lost, files, kept, x, steps, i, spare);
      left', live', files' := left[x := kept[x]], Others(live', Ways(g.base, x)), kept - {x};
    }
  }

  /** One install, whatever becomes of it. */
  lemma SoundStep(t: Tree, base: Tree, left: map<Path, Content>, g: Ground, hash: Content -> int, m: Manifest, live: seq<Path>, lost: set<Path>,
                  files: map<Path, Content>, steps: seq<Step>, i: nat, spare: string)
    returns (left': map<Path, Content>, h: Ground, m': Manifest, live': seq<Path>, lost': set<Path>, files': map<Path, Content>)
    requires Between(t, base, left, g, m, live, lost, files, steps, i, spare) && i < |steps| && OwnTmps(g.dests, steps, spare) && Fitting(steps[i], g)
    requires Sound(t, steps[i], hash)
    ensures Between(After(t, steps[i], hash), base, left', h, m', live', lost', files', steps, i + 1, spare)
    ensures h.dests == g.dests && h.record == g.record
    ensures lost' == {} <==> lost == {} && (Install(t, steps[i].plan, hash, steps[i].left, steps[i].torn).Installed? ==> Ships(t, steps[i].plan))
  {
    var out := Install(t, steps[i].plan, hash, steps[i].left, steps[i].torn);
    left', m', live', lost', files' := left, m, live, lost, files;
    if out.Failed? {
      left', h, live', files' := FailedStep(t, base, left, g, hash, m, live, lost, files, steps, i, spare);
    } else {
      if out.Installed? { m', live', lost', files' := AfterSuccess(t, g, hash, m, live, lost, files, steps[i]); }
      h := g.(pid := Pid(steps, i + 1, spare));
      NextProcess(After(t, steps[i], hash), base, left, g, h, m', live', lost', files', steps, i, spare);
    }
  }

  /** The plans use destinations of one set, ship each path once and share the manifest's path. */
  ghost predicate PlansFit(dests: set<Path>, record: Path, steps: seq<Step>) {
    forall i :: 0 <= i < |steps| ==> steps[i].plan.record == record && Dests(steps[i].plan.items) <= dests && Once(steps[i].plan.items)
  }

  /** What is followed along a course. */
  datatype Midway = Midway(left: map<Path, Content>, g: Ground, m: Manifest, live: seq<Path>, lost: set<Path>, files: map<Path, Content>)

  ghost predicate Reached(t: Tree, base: Tree, s: Midway, steps: seq<Step>, i: nat, spare: string) {
    Between(t, base, s.left, s.g, s.m, s.live, s.lost, s.files, steps, i, spare)
  }

  ghost predicate SamePlaces(s: Midway, g: Ground) {
    s.g.dests == g.dests && s.g.record == g.record
  }

  lemma MidwayStep(t: Tree, base: Tree, s: Midway, hash: Content -> int, steps: seq<Step>, i: nat, spare: string) returns (s': Midway)
    requires Reached(t, base, s, steps, i, spare) && i < |steps| && OwnTmps(s.g.dests, steps, spare) && PlansFit(s.g.dests, s.g.record, steps)
    requires Sound(t, steps[i], hash)
    ensures Reached(After(t, steps[i], hash), base, s', steps, i + 1, spare) && SamePlaces(s', s.g)
    ensures s'.lost == {} <==> s.lost == {} && (Install(t, steps[i].plan, hash, steps[i].left, steps[i].torn).Installed? ==> Ships(t, steps[i].plan))
  {
    var left, h, m, live, lost, files := SoundStep(t, base, s.left, s.g, hash, s.m, s.live, s.lost, s.files, steps, i, spare);
    s' := Midway(left, h, m, live, lost, files);
  }

  lemma CourseNext(t: Tree, steps: seq<Step>, i: nat, hash: Content -> int)
    requires i < |steps|
    ensures Course(t, steps, i, hash) == Course(After(t, steps[i], hash), steps, i + 1, hash)
    ensures AllSound(t, steps, i, hash) ==> Sound(t, steps[i], hash) && AllSound(After(t, steps[i], hash), steps, i + 1, hash)
    ensures AllKeep(t, steps, i, hash) <==>
            (Install(t, steps[i].plan, hash, steps[i].left, steps[i].torn).Installed? ==> Ships(t, steps[i].plan))
            && AllKeep(After(t, steps[i], hash), steps, i + 1, hash)
  {
  }

  lemma {:induction false} SoundRun(t: Tree, base: Tree, s: Midway, hash: Content -> int, steps: seq<Step>, i: nat, spare: string) returns (s': Midway)
    requires Reached(t, base, s, steps, i, spare) && i <= |steps| && OwnTmps(s.g.dests, steps, spare) && PlansFit(s.g.dests, s.g.record, steps)
    requires AllSound(t, steps, i, hash)
    ensures Reached(Course(t, steps, i, hash), base, s', steps, |steps|, spare) && SamePlaces(s', s.g)
    ensures s'.lost == {} <==> s.lost == {} && AllKeep(t, steps, i, hash)
    decreases |steps| - i
  {
    if i == |steps| {
      s' := s;
    } else {
      CourseNext(t, steps, i, hash);
      var v := MidwayStep(t, base, s, hash, steps, i, spare);
      s' := SoundRun(After(t, steps[i], hash), base, v, hash, steps, i + 1, spare);
    }
  }

  // ---- exactly the temporaries that are there ----

  /** A temporary of one of the installs. */
  ghost predicate SomeTmp(dests: set<Path>, steps: seq<Step>, spare: string, k: Path) {
    exists j: nat, p :: j < |steps| && p in dests && k == Tmp(p, Pid(steps, j, spare))
  }

  /** The places of the installs are good for every one of them. */
  ghost predicate Everyone(base: Tree, dests: set<Path>, record: Path, steps: seq<Step>, spare: string) {
    forall j: nat {:trigger Pid(steps, j, spare)} :: j <= |steps| ==> SettingOk(Setting(base, dests, record, Pid(steps, j, spare)))
  }

  /** No temporary is above another. */
  lemma TmpsNotAbove(g: Ground, steps: seq<Step>, j: nat, l: nat, spare: string, p: Path, q: Path)
    requires j <= |steps| && l <= |steps| && p in g.dests && q in g.dests && g.pid == Pid(steps, j, spare) && OwnTmps(g.dests, steps, spare)
    ensures !StrictlyAbove(Tmp(p, Pid(steps, j, spare)), Tmp(q, Pid(steps, l, spare)))
  {
    var k, x := Tmp(p, Pid(steps, j, spare)), Tmp(q, Pid(steps, l, spare));
    if j == l {
      if p != q { assert Apart(Tmp(p, g.pid), Tmp(q, g.pid)); }
    } else if j < l {
      assert Apart(k, x);
    } else {
      assert Apart(x, k);
    }
  }

  lemma BaseTmp(b: Tree, base: Tree, left: map<Path, Content>, g: Ground, steps: seq<Step>, j: nat, spare: string, p: Path)
    requires OnTop(b, base, left) && FromBefore(left, g.dests, steps, |steps|, spare) && OwnTmps(g.dests, steps, spare)
    requires g.base == base && j < |steps| && g.pid == Pid(steps, j, spare) && p in g.dests
    ensures var k := Tmp(p, Pid(steps, j, spare));
            Get(b, k) == if k in left then Some(File(left[k])) else None
  {
    var k := Tmp(p, Pid(steps, j, spare));
    OnTopAt(b, base, left, k);
    NeededIff(base, left, k);
    if x :| x in left && StrictlyAbove(k, x) {
      var l: nat, q :| l < |steps| && q in g.dests && x == Tmp(q, Pid(steps, l, spare));
      TmpsNotAbove(g, steps, j, l, spare, p, q);
    }
  }

  /** A temporary of any of the installs is in the tree exactly if it is a leftover. */
  lemma TmpThereIff(t: Tree, live: seq<Path>, h: Ground, away: set<Path>, files: map<Path, Content>, g: Ground, k: Path)
    requires RunIs(Start(t, 0, live), h, away, files) && Settled(h, files) && h.dests == g.dests && h.record == g.record && IsTmp(g, k)
    ensures Get(t, k) == Get(h.base, k)
  {
    TmpElsewhere(g, k);
    if k in ToSet(live) {
      var i :| 0 <= i < |live| && live[i] == k;
      assert Above(h, k);
      var p :| p in h.dests && Under(p, k) && p != k;
      assert Above(g, k);
      AboveFree(g, k, k);
    }
    forall d | d in away ensures !Under(k, d) && !Under(k, Bak(d)) { TmpApart(g, k, d); }
    AtElsewhere(h.base, away, k);
    assert Get(t, k) == Look(Described(h, away, files, live), k);
  }

  lemma LeftExactly(t: Tree, base: Tree, s: Midway, g: Ground, steps: seq<Step>, j: nat, spare: string, p: Path)
    requires Reached(t, base, s, steps, |steps|, spare) && SamePlaces(s, g) && OwnTmps(g.dests, steps, spare)
    requires g.base == base && j < |steps| && g.pid == Pid(steps, j, spare) && p in g.dests
    ensures var k := Tmp(p, Pid(steps, j, spare));
            Get(t, k) == if k in s.left then Some(File(s.left[k])) else None
  {
    var k := Tmp(p, Pid(steps, j, spare));
    assert IsTmp(g, k);
    FilesPlaces(s.g, s.m, s.live, s.lost, s.files);
    TmpThereIff(t, s.live, s.g, WithBackup(s.m.files) + s.lost, s.files, g, k);
    BaseTmp(s.g.base, base, s.left, g, steps, j, spare, p);
  }

  /** The leftovers are the temporaries of the installs that are in the tree, with what they hold there. */
  ghost predicate LeftIn(t: Tree, left: map<Path, Content>, dests: set<Path>, steps: seq<Step>, spare: string) {
    forall k :: (k in left <==> k in t && SomeTmp(dests, steps, spare, k)) && (k in left ==> Get(t, k) == Some(File(left[k])))
  }

  lemma LeftIsTmp(s: Midway, g: Ground, steps: seq<Step>, spare: string, k: Path)
    requires FromBefore(s.left, s.g.dests, steps, |steps|, spare) && SamePlaces(s, g) && k in s.left
    ensures SomeTmp(g.dests, steps, spare, k)
  {
    var j: nat, p :| j < |steps| && p in s.g.dests && k == Tmp(p, Pid(steps, j, spare));
  }

  lemma TmpIsLeft(t: Tree, base: Tree, s: Midway, g: Ground, steps: seq<Step>, spare: string, k: Path)
    requires Reached(t, base, s, steps, |steps|, spare) && SamePlaces(s, g) && OwnTmps(g.dests, steps, spare) && g.base == base
    requires Everyone(base, g.dests, g.record, steps, spare) && SomeTmp(g.dests, steps, spare, k)
    ensures Get(t, k) == if k in s.left then Some(File(s.left[k])) else None
  {
    var j: nat, p :| j < |steps| && p in g.dests && k == Tmp(p, Pid(steps, j, spare));
    LeftExactly(t, base, s, Setting(base, g.dests, g.record, Pid(steps, j, spare)), steps, j, spare, p);
  }

  lemma LeftIs(t: Tree, base: Tree, s: Midway, g: Ground, steps: seq<Step>, spare: string)
    requires Reached(t, base, s, steps, |steps|, spare) && SamePlaces(s, g) && OwnTmps(g.dests, steps, spare) && g.base == base
    requires Everyone(base, g.dests, g.record, steps, spare)
    ensures LeftIn(t, s.left, g.dests, steps, spare)
  {
    forall k ensures (k in s.left <==> k in t && SomeTmp(g.dests, steps, spare, k)) && (k in s.left ==> Get(t, k) == Some(File(s.left[k]))) {
      if k in s.left { LeftIsTmp(s, g, steps, spare, k); }
      if SomeTmp(g.dests, steps, spare, k) { TmpIsLeft(t, base, s, g, steps, spare, k); }
    }
  }

  // ---- the theorem ----

  lemma StartReached(g: Ground, steps: seq<Step>, spare: string)
    requires g.pid == Pid(steps, 0, spare) && Everyone(g.base, g.dests, g.record, steps, spare) && NoCaches(g) && Load(g.base, g.record).Absent?
    ensures Reached(g.base, g.base, Midway(map[], g, Manifest([], []), [], {}, map[]), steps, 0, spare)
  {
    StandingFirst(g);
    OnTopNone(g.base);
    forall j: nat | j <= |steps| ensures SettingOk(g.(pid := Pid(steps, j, spare))) {
      assert g.(pid := Pid(steps, j, spare)) == Setting(g.base, g.dests, g.record, Pid(steps, j, spare));
    }
  }

  /** What an uninstall at the end of a course gives, or the tree if nothing is on record. */
  lemma RemainsEnd(t: Tree, base: Tree, s: Midway, hash: Content -> int, steps: seq<Step>, spare: string)
    requires Reached(t, base, s, steps, |steps|, spare)
    ensures match Load(t, s.g.record)
            case Found(m) =>
              var back := Uninstall(t, s.g.record, hash);
              back.Some? && OnTop(back.value, base, s.left) <==> s.lost == {} && AsRecorded(t, m, hash)
            case _ => OnTop(t, base, s.left)
  {
    CourseEnds(t, s.g, hash, s.m, s.live, s.lost, s.files);
    var back := Uninstall(t, s.g.record, hash);
    if back.Some? { OnTopOnce(s.g.base, back.value, base, s.left); }
  }

  /** For every course of installs in which each one that succeeds ships again what has changed and each one
      that fails leaves the manifest whole, whatever else it leaves: the tree an uninstall gives is the original
      one with exactly the temporaries on top that the failed installs left, and the folders they need, if and
      only if no install that succeeded stopped shipping a path with a backup on record and every file on record
      at the end is gone or as recorded. With nothing on record at the end that is the tree itself. */
  lemma CourseLeftovers(base: Tree, dests: set<Path>, record: Path, steps: seq<Step>, spare: string, hash: Content -> int)
    returns (left: map<Path, Content>)
    requires Everyone(base, dests, record, steps, spare) && OwnTmps(dests, steps, spare) && PlansFit(dests, record, steps) && Load(base, record).Absent?
    requires SettingOk(Setting(base, dests, record, Pid(steps, 0, spare))) && NoCaches(Setting(base, dests, record, Pid(steps, 0, spare)))
    requires AllSound(base, steps, 0, hash)
    ensures LeftIn(Course(base, steps, 0, hash), left, dests, steps, spare)
    ensures var t := Course(base, steps, 0, hash);
            match Load(t, record)
            case Found(m) =>
              var back := Uninstall(t, record, hash);
              back.Some? && OnTop(back.value, base, left) <==> AllKeep(base, steps, 0, hash) && AsRecorded(t, m, hash)
            case _ => OnTop(t, base, left)
  {
    var g: Ground := Setting(base, dests, record, Pid(steps, 0, spare));
    StartReached(g, steps, spare);
    var s := SoundRun(base, base, Midway(map[], g, Manifest([], []), [], {}, map[]), hash, steps, 0, spare);
    left := s.left;
    LeftIs(Course(base, steps, 0, hash), base, s, g, steps, spare);
    RemainsEnd(Course(base, steps, 0, hash), base, s, hash, steps, spare);
  }
}
