/** What every step of an install keeps: the tree is always the original one with some entries at
    their backups and with files and folders added. */
module InstallSteps {
  import opened Basics
  import opened InstallTree
  import opened InstallRun

  /** What a run starts from: the tree before the first install, the destinations it may use, the
      manifest's path and the process id. */
  datatype Setting = Setting(base: Tree, dests: set<Path>, record: Path, pid: string)

  ghost predicate SettingOk(g: Setting) {
    && WellFormed(g.base) && GoodNames(g.dests, g.pid, g.record)
    && forall p :: p in g.dests ==> Tmp(p, g.pid) !in g.base
  }

  const BLANK := Setting(map[[] := Dir], {}, ["manifest"], "")

  /** A setting whose names do not clash and whose temporaries are free. */
  type Ground = g: Setting | SettingOk(g) ghost witness BLANK

  ghost predicate IsTmp(g: Ground, k: Path) {
    exists p :: p in g.dests && k == Tmp(p, g.pid)
  }

  ghost predicate IsSite(g: Ground, k: Path) {
    k in g.dests || k == g.record || IsTmp(g, k)
  }

  /** A folder some destination lies in. */
  ghost predicate Above(g: Ground, c: Path) {
    exists p :: p in g.dests && Under(p, c) && p != c
  }

  ghost function ToSet(ps: seq<Path>): set<Path> {
    set i | 0 <= i < |ps| :: ps[i]
  }

  /** The folders made so far: none was there before, and none lies at or above an earlier one. */
  ghost predicate CreatedOk(g: Ground, cs: seq<Path>) {
    && (forall i :: 0 <= i < |cs| ==> Above(g, cs[i]) && cs[i] !in g.base)
    && (forall i, j :: 0 <= i < j < |cs| ==> !Under(cs[i], cs[j]))
  }

  predicate StrictlyAbove(c: Path, p: Path) {
    Under(p, c) && c != p
  }

  /** A folder that can never be empty: the original tree has something in it that no install moves. It has
      no cache of the desktop's in it. */
  ghost predicate Fixed(g: Ground, c: Path) {
    && (exists x :: x in g.base && StrictlyAbove(c, x) && forall d :: d in g.dests ==> !Under(x, d))
    && c + [CACHES[0]] !in g.base && c + [CACHES[1]] !in g.base
  }

  /** A list of folders made one after another, some perhaps more than once: none was there before, unless it
      can never be empty, and every new folder above one of them is listed before it. */
  ghost predicate Listed(g: Ground, cs: seq<Path>) {
    && (forall i :: 0 <= i < |cs| ==> Above(g, cs[i]) && cs[i] != [] && (cs[i] !in g.base || Fixed(g, cs[i])))
    && (forall i, d {:trigger StrictlyAbove(d, cs[i])} :: 0 <= i < |cs| && StrictlyAbove(d, cs[i]) && d !in g.base ==> d in ToSet(cs[..i]))
  }

  ghost function Described(g: Ground, away: set<Path>, files: map<Path, Content>, created: seq<Path>): Over {
    Over(g.base, away, files, ToSet(created))
  }

  ghost predicate AwayOk(g: Ground, away: set<Path>) {
    away <= g.dests && forall d :: d in away ==> d in g.base && Clear(g.base, Bak(d))
  }

  ghost predicate FilesOk(g: Ground, away: set<Path>, files: map<Path, Content>) {
    forall k :: k in files ==> IsSite(g, k) && At(g.base, away, k) == None
  }

  /** The invariant of a run: `away` are the entries at their backups, `files` the files added. */
  ghost predicate RunIs(r: Run, g: Ground, away: set<Path>, files: map<Path, Content>) {
    && WellFormed(r.tree)
    && Is(r.tree, Described(g, away, files, r.created))
    && AwayOk(g, away) && FilesOk(g, away, files) && CreatedOk(g, r.created)
  }

  // ---- loops that run backwards ----

  lemma {:induction false} Downward(holds: nat -> bool, n: nat)
    requires holds(n) && forall i: nat :: i < n && holds(i + 1) ==> holds(i)
    ensures holds(0)
    decreases n
  {
    if n > 0 {
      assert holds((n - 1) + 1);
      Downward(holds, n - 1);
    }
  }

  // ---- places do not interfere ----

  lemma SitesApart(g: Ground, x: Path, y: Path)
    requires IsSite(g, x) && IsSite(g, y) && x != y
    ensures Apart(x, y)
  {
    assert Apart(x, y) == Apart(y, x);
  }

  lemma SiteBackupApart(g: Ground, x: Path, d: Path)
    requires IsSite(g, x) && d in g.dests
    ensures Apart(x, Bak(d))
  {
    assert Apart(x, Bak(d)) == Apart(Bak(d), x);
  }

  lemma BackupsApart(g: Ground, d: Path, e: Path)
    requires d in g.dests && e in g.dests && d != e
    ensures Apart(Bak(d), Bak(e))
  {
  }

  lemma UnderTrans(a: Path, b: Path, c: Path)
    requires Under(a, b) && Under(b, c)
    ensures Under(a, c)
  {
  }

  lemma UnderParent(p: Path, c: Path)
    requires p != [] && Under(p, c) && p != c
    ensures Under(Parent(p), c)
  {
  }

  /** A folder above a destination lies below no site and no backup. */
  lemma AboveFree(g: Ground, c: Path, y: Path)
    requires Above(g, c) && (IsSite(g, y) || exists d :: d in g.dests && y == Bak(d))
    ensures !Under(c, y)
  {
    if Under(c, y) {
      var p :| p in g.dests && Under(p, c) && p != c;
      UnderTrans(p, c, y);
      if IsSite(g, y) {
        if y != p { SitesApart(g, p, y); }
      } else {
        var d :| d in g.dests && y == Bak(d);
        SiteBackupApart(g, p, d);
      }
    }
  }

  lemma AwayGood(g: Ground, away: set<Path>)
    requires away <= g.dests
    ensures GoodAway(away)
  {
  }

  /** What the original tree shows at a site: nothing if its entry is at its backup. */
  lemma AtSite(g: Ground, away: set<Path>, x: Path)
    requires away <= g.dests && IsSite(g, x)
    ensures At(g.base, away, x) == if x in away then None else Get(g.base, x)
  {
    if x in away {
      assert IsAway(away, x);
    } else {
      forall d | d in away ensures !Under(x, d) && !Under(x, Bak(d)) {
        SitesApart(g, x, d);
        SiteBackupApart(g, x, d);
      }
      AtElsewhere(g.base, away, x);
    }
  }

  lemma AtAbove(g: Ground, away: set<Path>, c: Path)
    requires away <= g.dests && Above(g, c)
    ensures At(g.base, away, c) == Get(g.base, c)
  {
    forall d | d in away ensures !Under(c, d) && !Under(c, Bak(d)) {
      AboveFree(g, c, d);
      AboveFree(g, c, Bak(d));
    }
    AtElsewhere(g.base, away, c);
  }

  /** Nothing added lies at or below the backup of a destination, nor below a site that is no file. */
  lemma AddedElsewhere(r: Run, g: Ground, away: set<Path>, files: map<Path, Content>, d: Path)
    requires RunIs(r, g, away, files) && d in g.dests && d !in files
    ensures Untouched(Described(g, away, files, r.created), d)
    ensures Untouched(Described(g, away, files, r.created), Bak(d))
  {
    forall k | k in files ensures !Under(k, d) && !Under(k, Bak(d)) {
      SitesApart(g, k, d);
      SiteBackupApart(g, k, d);
    }
    forall k | k in ToSet(r.created) ensures !Under(k, d) && !Under(k, Bak(d)) {
      AboveFree(g, k, d);
      AboveFree(g, k, Bak(d));
    }
  }

  /** A site that no file was added at shows what the original tree shows there. */
  lemma SiteShows(r: Run, g: Ground, away: set<Path>, files: map<Path, Content>, x: Path)
    requires RunIs(r, g, away, files) && IsSite(g, x) && x !in files
    ensures x !in ToSet(r.created)
    ensures Get(r.tree, x) == if x in away then None else Get(g.base, x)
  {
    if x in ToSet(r.created) { AboveFree(g, x, x); }
    AtSite(g, away, x);
    assert Get(r.tree, x) == Look(Described(g, away, files, r.created), x);
  }

  // ---- the tree stays well formed ----

  lemma RenameWellFormed(t: Tree, a: Path, b: Path)
    requires WellFormed(t) && a != [] && b != [] && Parent(a) == Parent(b) && Apart(a, b) && Clear(t, b)
    ensures WellFormed(Rename(t, a, b))
  {
    var r := Rename(t, a, b);
    RenameGet(t, a, b, []);
    forall p | p in r && p != [] ensures Get(r, Parent(p)) == Some(Dir) {
      RenameGet(t, a, b, p);
      RenameGet(t, a, b, Parent(p));
      if Under(p, b) {
        var q := a + p[|b|..];
        if p == b {
          assert q == a;
        } else {
          assert Under(Parent(p), b);
          assert a + Parent(p)[|b|..] == Parent(q);
          if Under(Parent(p), a) { PrefixesCompare(Parent(p), a, b); }
        }
      } else if Under(Parent(p), a) {
        UnderTrans(p, Parent(p), a);
      } else if Under(Parent(p), b) {
        UnderTrans(p, Parent(p), b);
      }
    }
  }

  lemma ChildlessClear(t: Tree, p: Path)
    requires WellFormed(t) && Get(t, p) != Some(Dir)
    ensures forall k :: k in t && Under(k, p) ==> k == p
  {
    forall k | k in t && Under(k, p) ensures k == p {
      if k != p { AncestorsExist(t, p, k); }
    }
  }

  lemma PutFileWellFormed(t: Tree, p: Path, c: Content)
    requires WellFormed(t) && p != [] && Get(t, Parent(p)) == Some(Dir) && Get(t, p) != Some(Dir)
    ensures WellFormed(t[p := File(c)])
  {
    ChildlessClear(t, p);
    var r := t[p := File(c)];
    forall q | q in r && q != [] ensures Get(r, Parent(q)) == Some(Dir) {
      if Parent(q) == p && q in t { assert Under(q, p); }
    }
  }

  lemma DropWellFormed(t: Tree, p: Path)
    requires WellFormed(t) && p != [] && forall k :: k in t && Under(k, p) ==> k == p
    ensures WellFormed(t - {p})
  {
    var r := t - {p};
    forall q | q in r && q != [] ensures Get(r, Parent(q)) == Some(Dir) {
      if Parent(q) == p { assert Under(q, p); }
    }
  }

  // ---- the steps ----

  lemma MoveStep(r: Run, g: Ground, away: set<Path>, files: map<Path, Content>, d: Path)
    requires RunIs(r, g, away, files) && d in g.dests && d !in away && d !in files
    requires d in r.tree && Bak(d) !in r.tree && !MoveOne(r, d).failed
    ensures RunIs(MoveOne(r, d), g, away + {d}, files)
  {
    SiteShows(r, g, away, files, d);
    BackupFree(r, g, away, files, d);
    AddedElsewhere(r, g, away, files, d);
    AwayGood(g, away + {d});
    var o := Described(g, away, files, r.created);
    MoveAside(r.tree, o, d);
    ClearThere(r.tree, o, d);
    assert Parent(Bak(d)) == Parent(d);
    RenameWellFormed(r.tree, d, Bak(d));
    forall k | k in files ensures At(g.base, away + {d}, k) == None {
      AtSite(g, away, k);
      AtSite(g, away + {d}, k);
    }
  }

  lemma BackupFree(r: Run, g: Ground, away: set<Path>, files: map<Path, Content>, d: Path)
    requires RunIs(r, g, away, files) && d in g.dests && d !in away && d !in files && Bak(d) !in r.tree
    ensures Clear(g.base, Bak(d))
  {
    var b := Bak(d);
    forall e | e in away ensures !Under(b, e) && !Under(b, Bak(e)) {
      SiteBackupApart(g, e, d);
      BackupsApart(g, d, e);
    }
    AtElsewhere(g.base, away, b);
    AddedElsewhere(r, g, away, files, d);
    assert Get(r.tree, b) == Look(Described(g, away, files, r.created), b);
    ChildlessClear(g.base, b);
  }

  lemma MkdirStep(r: Run, g: Ground, away: set<Path>, files: map<Path, Content>, c: Path)
    requires RunIs(r, g, away, files) && Above(g, c) && !MakeDir(r, c).failed
    ensures RunIs(MakeDir(r, c), g, away, files)
  {
    var o := Described(g, away, files, r.created);
    forall k | k in files ensures k != c { AboveFree(g, c, k); }
    PutDir(r.tree, o, c);
    ToSetSnoc(r.created, c);
    CreatedGrows(r, g, away, files, c);
    PutDirWellFormed(r.tree, c);
  }

  lemma CreatedGrows(r: Run, g: Ground, away: set<Path>, files: map<Path, Content>, c: Path)
    requires RunIs(r, g, away, files) && Above(g, c) && c !in r.tree
    ensures CreatedOk(g, r.created + [c])
  {
    assert Get(r.tree, c) == Look(Described(g, away, files, r.created), c);
    AtAbove(g, away, c);
    forall i | 0 <= i < |r.created| ensures !Under(r.created[i], c) { NotBelowNew(r, g, away, files, c, i); }
  }

  lemma NotBelowNew(r: Run, g: Ground, away: set<Path>, files: map<Path, Content>, c: Path, i: nat)
    requires RunIs(r, g, away, files) && c !in r.tree && i < |r.created|
    ensures !Under(r.created[i], c)
  {
    var e := r.created[i];
    assert e in ToSet(r.created);
    assert Get(r.tree, e) == Look(Described(g, away, files, r.created), e);
    if Under(e, c) && e != c { AncestorsExist(r.tree, c, e); }
  }

  lemma PutDirWellFormed(t: Tree, p: Path)
    requires WellFormed(t) && p != [] && Get(t, Parent(p)) == Some(Dir)
    ensures WellFormed(t[p := Dir])
  {
  }

  lemma ToSetSnoc(ps: seq<Path>, p: Path)
    ensures ToSet(ps + [p]) == ToSet(ps) + {p}
  {
    var qs := ps + [p];
    forall x ensures x in ToSet(qs) <==> x in ToSet(ps) + {p} {
      if x in ToSet(ps) {
        var i :| 0 <= i < |ps| && ps[i] == x;
        assert qs[i] == x;
      }
      assert qs[|ps|] == p;
    }
  }

  /** A file is written at a site whose original entry is out of the way. */
  lemma WriteStep(r: Run, g: Ground, away: set<Path>, files: map<Path, Content>, x: Path, c: Content)
    requires RunIs(r, g, away, files) && IsSite(g, x) && CanWrite(r.tree, x) && At(g.base, away, x) == None
    ensures RunIs(r.(tree := r.tree[x := File(c)]), g, away, files[x := c])
  {
    PutFile(r.tree, Described(g, away, files, r.created), x, c);
    PutFileWellFormed(r.tree, x, c);
  }

  /** An added file is removed. */
  lemma DropStep(r: Run, g: Ground, away: set<Path>, files: map<Path, Content>, x: Path)
    requires RunIs(r, g, away, files) && x in files
    ensures RunIs(r.(tree := r.tree - {x}), g, away, files - {x})
    ensures x in r.tree && r.tree[x] == File(files[x])
  {
    var o := Described(g, away, files, r.created);
    assert Get(r.tree, x) == Look(o, x);
    if x in ToSet(r.created) { AboveFree(g, x, x); }
    DropFile(r.tree, o, x);
    ChildlessClear(r.tree, x);
    DropWellFormed(r.tree, x);
  }

  lemma ReplaceStep(r: Run, g: Ground, away: set<Path>, files: map<Path, Content>, p: Path, c: Content)
    requires RunIs(r, g, away, files) && p in g.dests && Tmp(p, g.pid) in files && At(g.base, away, p) == None
    requires !Replace(r, Tmp(p, g.pid), p, c).failed
    ensures RunIs(Replace(r, Tmp(p, g.pid), p, c), g, away, (files - {Tmp(p, g.pid)})[p := c])
  {
    ReplaceIs(r, Tmp(p, g.pid), p, c);
    TmpParent(p, g.pid);
    ReplaceFrom(r, Replace(r, Tmp(p, g.pid), p, c), g, away, files, Tmp(p, g.pid), p, c);
  }

  lemma ReplaceIs(r: Run, tmp: Path, p: Path, c: Content)
    requires !Replace(r, tmp, p, c).failed
    ensures Replace(r, tmp, p, c).tree == (r.tree - {tmp})[p := File(c)] && Replace(r, tmp, p, c).created == r.created
  {
  }

  lemma TmpParent(p: Path, pid: string)
    requires p != []
    ensures Tmp(p, pid) != [] && Parent(Tmp(p, pid)) == Parent(p)
  {
  }

  lemma TmpDropped(r: Run, g: Ground, away: set<Path>, files: map<Path, Content>, tmp: Path)
    requires RunIs(r, g, away, files) && tmp in files && tmp != []
    ensures RunIs(r.(tree := r.tree - {tmp}), g, away, files - {tmp}) && Get(r.tree - {tmp}, Parent(tmp)) == Some(Dir)
  {
    DropStep(r, g, away, files, tmp);
  }

  /** A temporary in the file's folder takes the file's place; the folder stays. */
  lemma ReplaceFrom(r: Run, s: Run, g: Ground, away: set<Path>, files: map<Path, Content>, tmp: Path, p: Path, c: Content)
    requires RunIs(r, g, away, files) && p in g.dests && tmp in files && tmp != [] && Parent(tmp) == Parent(p)
    requires At(g.base, away, p) == None && s.tree == (r.tree - {tmp})[p := File(c)] && s.created == r.created
    ensures RunIs(s, g, away, (files - {tmp})[p := c])
  {
    TmpDropped(r, g, away, files, tmp);
    PutOver(r.(tree := r.tree - {tmp}), s, g, away, files - {tmp}, p, c);
  }

  /** The invariant looks at nothing but the tree and the folders made. */
  lemma SameRun(r: Run, s: Run, g: Ground, away: set<Path>, files: map<Path, Content>)
    requires RunIs(r, g, away, files) && s.tree == r.tree && s.created == r.created
    ensures RunIs(s, g, away, files)
  {
  }

  lemma PutOver(d: Run, s: Run, g: Ground, away: set<Path>, files: map<Path, Content>, p: Path, c: Content)
    requires RunIs(d, g, away, files) && p in g.dests && At(g.base, away, p) == None && Get(d.tree, Parent(p)) == Some(Dir)
    requires s.tree == d.tree[p := File(c)] && s.created == d.created
    ensures RunIs(s, g, away, files[p := c])
  {
    FreeOrFile(d, g, away, files, p);
    WriteStep(d, g, away, files, p, c);
    SameRun(d.(tree := s.tree), s, g, away, files[p := c]);
  }

  /** A destination whose entry is out of the way holds nothing or a file. */
  lemma FreeOrFile(r: Run, g: Ground, away: set<Path>, files: map<Path, Content>, p: Path)
    requires RunIs(r, g, away, files) && p in g.dests && At(g.base, away, p) == None
    ensures p !in r.tree || r.tree[p].File?
  {
    if p !in files {
      SiteShows(r, g, away, files, p);
      AtSite(g, away, p);
    } else {
      assert Get(r.tree, p) == Look(Described(g, away, files, r.created), p);
    }
  }
}
