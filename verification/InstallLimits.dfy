/** Three inputs on which the tree does not come back: a failure that leaves its temporary, an upgrade
    that stops shipping a path whose former file is on record, and an upgrade that fails between
    replacing a file and recording it. */
module InstallLimits {
  import opened Basics
  import opened InstallTree
  import opened InstallRun
  import opened InstallSteps
  import opened InstallWorn
  import opened InstallRoundTrip
  import opened InstallNames

  const A: Path := ["a"]
  const M: Path := ["m"]
  const MINE := Data([7])
  const SHIPPED := Data([1])

  const BARE: Tree := map[[] := Dir]
  const HOME: Tree := map[[] := Dir, A := File(MINE)]

  const SHIP := Plan([Item(A, SHIPPED)], M, "1")
  const EMPTY := Plan([], M, "2")

  lemma Names()
    ensures Parent(A) == [] && Parent(M) == [] && A != M && A != [] && M != []
    ensures Bak(A) == ["a" + SUFFIX] && Tmp(A, "1") == [".a.tmp-1"]
    ensures Bak(A) != A && Bak(A) != M && Tmp(A, "1") != A && Tmp(A, "1") != M && Tmp(A, "1") != Bak(A)
    ensures Bak(A) != [] && Tmp(A, "1") != []
    ensures Parent(Bak(A)) == [] && Parent(Tmp(A, "1")) == []
  {
    assert Parent(A) == [] && Parent(M) == [];
    assert "." + "a" + ".tmp-" + "1" == ".a.tmp-1";
    assert Bak(A)[0][0] == 'a' && Tmp(A, "1")[0][0] == '.' && |Bak(A)[0]| > 1;
    assert A[0][0] == 'a' && |A[0]| == 1 && M[0][0] == 'm';
  }

  /** A disk that fails right after the temporary is written: the temporary stays. */
  lemma LeftoverExample(hash: Content -> int)
    ensures Install(BARE, SHIP, hash, 1, false).Failed? && Install(BARE, SHIP, hash, 1, false).tree != BARE
  {
    Names();
    var none := Manifest([], []);
    var job := JobFor(BARE, SHIP, hash, false, none);
    assert InTheWay(BARE, SHIP.items[..0], Owned([])) == [];
    assert job.moving == [];
    var r := Begin(BARE, 1, none);
    var tmp := Tmp(A, "1");
    assert Folders(BARE, A) == [];
    var s := Stage(r, SHIP.items[0], job);
    assert s.failed && s.tree == BARE[tmp := File(SHIPPED)] && s.junk == Some(tmp);
    assert PlaceAll(r, SHIP.items, 0, job) == Put(s, SHIP.items[0], job);
    var last := Attempt(r, job);
    assert last.failed && last.tree == s.tree && last.written == [] && last.moved == [] && last.created == [];
    assert Rollback(last) == s.tree;
    assert tmp in s.tree && tmp !in BARE;
  }

  /** The tree after the first install of the second example. */
  ghost function Shipped(hash: Content -> int): Tree {
    map[[] := Dir, Bak(A) := File(MINE), A := File(SHIPPED), M := File(Record(Manifest([Entry(A, hash(SHIPPED), Some(Bak(A)))], [])))]
  }

  lemma MovedHomeAt(b: Path, k: Path)
    requires |b| == 1 && b != A
    ensures Get(Rename(HOME, A, b), k) == Get(map[[] := Dir, b := File(MINE)], k)
  {
    assert Clear(HOME, b);
    RenameGet(HOME, A, b, k);
    if Under(k, b) {
      if |k| == 1 { assert k == b && A + k[1..] == A; } else { assert |A + k[1..]| > 1; }
    } else if Under(k, A) {
      assert k[0] == A[0];
    }
  }

  lemma MovedHome()
    ensures Rename(HOME, A, Bak(A)) == map[[] := Dir, Bak(A) := File(MINE)]
  {
    Names();
    var b := Bak(A);
    forall k ensures Get(Rename(HOME, A, b), k) == Get(map[[] := Dir, b := File(MINE)], k) { MovedHomeAt(b, k); }
    SameTree(Rename(HOME, A, b), map[[] := Dir, b := File(MINE)]);
  }

  lemma SameTree(s: Tree, t: Tree)
    requires forall k :: Get(s, k) == Get(t, k)
    ensures s == t
  {
    forall k ensures k in s <==> k in t { assert Get(s, k) == Get(t, k); }
    forall k | k in s ensures s[k] == t[k] { assert Get(s, k) == Get(t, k); }
  }

  lemma MovingHome()
    ensures InTheWay(HOME, SHIP.items, Owned([])) == [A] && !Blocked(HOME, [A])
  {
    Names();
    assert InTheWay(HOME, SHIP.items[..0], Owned([])) == [];
  }

  lemma MovedFirst(r: Run)
    requires r.tree == HOME && r.left == 9 && !r.failed
    ensures MoveAll(r, [A], 0) == r.(tree := map[[] := Dir, Bak(A) := File(MINE)], moved := r.moved + [A], left := 8)
  {
    MovedHome();
    assert MoveAll(r, [A], 0) == MoveAll(MoveOne(r, A), [A], 1) == MoveOne(r, A);
  }

  lemma RecordedFirst(hash: Content -> int, placed: Run, es: seq<Entry>)
    requires placed.tree == map[[] := Dir, Bak(A) := File(MINE), A := File(SHIPPED)] && !placed.failed && placed.left > 0
    requires es == [Entry(A, hash(SHIPPED), Some(Bak(A)))]
    ensures var last := Write(placed, M, Record(Manifest(es, [])), false);
            !last.failed && last.tree == Shipped(hash)
  {
    Names();
  }

  lemma AttemptFirst(hash: Content -> int, job: Job)
    requires job == Job(SHIP, hash, false, Manifest([], []), [A])
    ensures var last := Attempt(Begin(HOME, 9, job.previous), job);
            !last.failed && last.tree == Shipped(hash)
  {
    var r := Begin(HOME, 9, job.previous);
    MovedFirst(r);
    var m := MoveAll(r, [A], 0);
    PlacedFirst(hash, job, m);
    var placed := PlaceAll(m, SHIP.items, 0, job);
    assert DropOld(placed, [], 0, Dests(SHIP.items), hash) == placed;
    RecordedFirst(hash, placed, placed.entries);
  }

  lemma FirstInstall(hash: Content -> int)
    ensures Install(HOME, SHIP, hash, 9, false) == Installed(Shipped(hash))
  {
    MovingHome();
    AttemptFirst(hash, JobFor(HOME, SHIP, hash, false, Manifest([], [])));
    assert A != M by { Names(); }
    assert Load(HOME, M) == Absent by { Names(); }
  }

  lemma PlacedFirst(hash: Content -> int, job: Job, m: Run)
    requires job == Job(SHIP, hash, false, Manifest([], []), [A])
    requires m.tree == map[[] := Dir, Bak(A) := File(MINE)] && m.left == 8 && !m.failed && m.created == [] && m.entries == []
    ensures var placed := PlaceAll(m, SHIP.items, 0, job);
            && placed.tree == map[[] := Dir, Bak(A) := File(MINE), A := File(SHIPPED)] && !placed.failed && placed.left > 0
            && placed.created == [] && placed.entries == [Entry(A, hash(SHIPPED), Some(Bak(A)))]
  {
    Names();
    var tmp := Tmp(A, "1");
    assert Folders(m.tree, A) == [];
    var s := Stage(m, SHIP.items[0], job);
    assert s.tree == m.tree[tmp := File(SHIPPED)] && s.left == 6 && !s.failed && s.created == [] && s.entries == [];
    var p := Put(s, SHIP.items[0], job);
    assert PlaceAll(m, SHIP.items, 0, job) == PlaceAll(p, SHIP.items, 1, job) == p;
    assert p.tree == (s.tree - {tmp})[A := File(SHIPPED)];
  }

  lemma SecondInstall(hash: Content -> int)
    ensures Install(Shipped(hash), EMPTY, hash, 9, false).Installed?
  {
    Names();
    var t := Shipped(hash);
    var old' := Manifest([Entry(A, hash(SHIPPED), Some(Bak(A)))], []);
    assert Load(t, M) == Found(old');
    var job := JobFor(t, EMPTY, hash, false, old');
    assert job.moving == [];
    var r := Begin(t, 9, old');
    var dropped := DropOld(r, old'.files, 0, Dests([]), hash);
    assert Unchanged(t, old'.files[0], hash);
    var one := r.(tree := t - {A}, left := 8);
    assert A !in Dests([]);
    assert dropped == DropOld(one, old'.files, 1, Dests([]), hash) == one;
    assert CanWrite(dropped.tree, M);
    assert PlaceAll(MoveAll(r, [], 0), [], 0, job) == r;
    assert Attempt(r, job) == Write(dropped, M, Record(Manifest([], [])), false);
  }

  const STEPS := [Step(SHIP, 9, false), Step(EMPTY, 9, false)]

  lemma ExampleChain(hash: Content -> int)
    ensures Chain(HOME, STEPS, 0, hash) == Some(Install(Shipped(hash), EMPTY, hash, 9, false).tree)
  {
    FirstInstall(hash);
    SecondInstall(hash);
    var t2 := Install(Shipped(hash), EMPTY, hash, 9, false).tree;
    assert Chain(t2, STEPS, 2, hash) == Some(t2);
    assert Chain(Shipped(hash), STEPS, 1, hash) == Some(t2);
  }

  lemma ExampleDrops(hash: Content -> int)
    ensures !AllShip(HOME, STEPS, 0, hash)
  {
    FirstInstall(hash);
    Names();
    assert !Ships(Shipped(hash), EMPTY) by {
      var m := Load(Shipped(hash), M).manifest;
      assert m.files[0].backup.Some? && m.files[0].path !in Dests(EMPTY.items);
    }
    assert !AllShip(Shipped(hash), STEPS, 1, hash);
  }

  /** Installing a file over the user's own, upgrading to a plan without it and uninstalling does not
      give the user's tree back. */
  lemma LostBackupExample(hash: Content -> int)
    ensures Chain(HOME, STEPS, 0, hash).Some?
    ensures var back := Uninstall(Chain(HOME, STEPS, 0, hash).value, M, hash);
            back.Some? && back.value != HOME
  {
    ExampleChain(hash);
    ExampleDrops(hash);
    ExampleOk(STEPS);
    var lost := ChainRoundTrip(HOME, {A}, M, STEPS, hash);
  }

  lemma ExampleSetting(pid: string)
    ensures SettingOk(Setting(HOME, {A}, M, pid)) && M !in HOME
  {
    assert Plain(A, []) && Plain(M, []) && Apart(A, M) by { assert A[0] != M[0]; }
    PlainIsGood({A}, pid, M, []);
    assert Tmp(A, pid)[0][0] == '.' && A[0][0] == 'a';
  }

  lemma ExampleOk(steps: seq<Step>)
    requires steps == [Step(SHIP, 9, false), Step(EMPTY, 9, false)]
    ensures ChainOk(HOME, {A}, M, steps) && Load(HOME, M).Absent?
  {
    ExampleSetting("1");
    ExampleSetting("2");
    assert SHIP.items[0].dest == A;
    assert Dests(SHIP.items) <= {A} && Dests(EMPTY.items) <= {A};
  }

  // ---- a failed upgrade ----

  const NEWER := Data([2])
  const UPGRADE := Plan([Item(A, NEWER)], M, "1")

  ghost function Half(hash: Content -> int): Tree {
    Shipped(hash)[A := File(NEWER)]
  }

  lemma HalfPlaced(hash: Content -> int, job: Job, r: Run)
    requires job.plan == UPGRADE && A in Owned(job.previous.files)
    requires r.tree == Shipped(hash) && r.left == 3 && !r.failed && r.moved == [] && r.created == [] && r.written == []
    ensures var s := PlaceAll(r, UPGRADE.items, 0, job);
            s.failed && s.tree == Half(hash) && s.written == [] && s.created == [] && s.moved == [] && s.junk == r.junk
  {
    Names();
    var tmp := Tmp(A, "1");
    assert Folders(r.tree, A) == [];
    var s := Stage(r, UPGRADE.items[0], job);
    assert s.tree == r.tree[tmp := File(NEWER)] && s.left == 1 && !s.failed;
    var p := Put(s, UPGRADE.items[0], job);
    assert PlaceAll(r, UPGRADE.items, 0, job) == p;
    assert p.tree == (s.tree - {tmp})[A := File(NEWER)] == Half(hash);
  }

  lemma HalfUpgrade(hash: Content -> int)
    ensures Install(Shipped(hash), UPGRADE, hash, 3, false) == Failed(Half(hash), None)
  {
    Names();
    var t := Shipped(hash);
    var m := Manifest([Entry(A, hash(SHIPPED), Some(Bak(A)))], []);
    assert Load(t, M) == Found(m);
    assert m.files[0].path == A;
    var job := JobFor(t, UPGRADE, hash, false, m);
    assert InTheWay(t, UPGRADE.items[..0], Owned(m.files)) == [];
    assert job.moving == [];
    var r := Begin(t, 3, m);
    assert MoveAll(r, job.moving, 0) == r;
    HalfPlaced(hash, job, r);
    var last := Attempt(r, job);
    assert last.failed && last.tree == Half(hash) && last.written == [] && last.moved == [] && last.created == [];
    assert Rollback(last) == last.tree;
  }

  lemma HalfUninstalled(hash: Content -> int)
    requires hash(NEWER) != hash(SHIPPED)
    ensures Uninstall(Half(hash), M, hash) == Some(map[[] := Dir, Bak(A) := File(MINE), A := File(NEWER)])
  {
    Names();
    var t := Half(hash);
    var m := Manifest([Entry(A, hash(SHIPPED), Some(Bak(A)))], []);
    assert t[M] == File(Record(m));
    UninstallIs(t, M, hash, m);
    assert UndoAll(t, m.files, 0, hash) == Undo(UndoAll(t, m.files, 1, hash), m.files[0], hash) == t;
    assert t - {M} == map[[] := Dir, Bak(A) := File(MINE), A := File(NEWER)];
  }

  /** The user's file is displaced by an install; an upgrade fails with the new file in place and the old
      manifest standing. An uninstall then takes the new file for the user's and leaves it there. */
  lemma HalfUpgradeExample(hash: Content -> int)
    requires hash(NEWER) != hash(SHIPPED)
    ensures Install(HOME, SHIP, hash, 9, false).Installed?
    ensures var out := Install(Install(HOME, SHIP, hash, 9, false).tree, UPGRADE, hash, 3, false);
            && out.Failed? && out.junk == None
            && Uninstall(out.tree, M, hash) == Some(map[[] := Dir, Bak(A) := File(MINE), A := File(NEWER)])
  {
    FirstInstall(hash);
    HalfUpgrade(hash);
    HalfUninstalled(hash);
  }
}
