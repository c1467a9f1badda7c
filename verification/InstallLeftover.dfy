/** A temporary that a failed install left behind, with the folders made for it, is from then on part of the
    tree the installs work on: nothing ever touches it again. */
module InstallLeftover {
  import opened Basics
  import opened InstallTree
  import opened InstallRun
  import opened InstallSteps
  import opened InstallRollback
  import opened InstallShadow
  import opened InstallChain
  import opened InstallWorn
  import opened InstallRetreat

  // ---- the tree with the leftover in it ----

  /** The folders the tree lacks for a file at x. */
  ghost function Ways(base: Tree, x: Path): set<Path> {
    set n: nat | n < |x| && x[..n] !in base :: x[..n]
  }

  lemma WaysIff(base: Tree, x: Path, k: Path)
    ensures k in Ways(base, x) <==> StrictlyAbove(k, x) && k !in base
  {
    if StrictlyAbove(k, x) && k !in base { assert x[..|k|] == k; }
  }

  ghost function WithLeft(base: Tree, x: Path, c: Content): Tree {
    var dirs := Ways(base, x);
    (base + map d | d in dirs :: Dir)[x := File(c)]
  }

  lemma WithLeftGet(base: Tree, x: Path, c: Content, k: Path)
    ensures Get(WithLeft(base, x, c), k) ==
            if k == x then Some(File(c)) else if StrictlyAbove(k, x) && k !in base then Some(Dir) else Get(base, k)
  {
    WaysIff(base, x, k);
  }

  lemma WithLeftWellFormed(base: Tree, x: Path, c: Content)
    requires WellFormed(base) && x != [] && x !in base && forall k :: k in base && StrictlyAbove(k, x) ==> base[k] == Dir
    ensures WellFormed(WithLeft(base, x, c))
  {
    var b := WithLeft(base, x, c);
    WithLeftGet(base, x, c, []);
    forall p | p in b && p != [] ensures Get(b, Parent(p)) == Some(Dir) {
      WithLeftGet(base, x, c, p);
      WithLeftGet(base, x, c, Parent(p));
      if p == x {
        assert StrictlyAbove(Parent(x), x);
      } else if StrictlyAbove(p, x) && p !in base {
        UnderTrans(x, p, Parent(p));
        assert StrictlyAbove(Parent(p), x);
      } else if Parent(p) == x {
        assert Under(p, x);
        AncestorsExist(base, x, p);
      }
    }
  }

  // ---- the same tree over the other base ----

  /** The leftover is a temporary; it is below no destination and no backup, and what is above it is above a
      destination. */
  lemma TmpApart(g: Ground, x: Path, d: Path)
    requires IsTmp(g, x) && d in g.dests
    ensures !Under(x, d) && !Under(x, Bak(d)) && !Under(d, x) && !Under(Bak(d), x)
  {
    TmpElsewhere(g, x);
    SitesApart(g, x, d);
    SiteBackupApart(g, x, d);
  }

  lemma AboveTmp(g: Ground, x: Path, k: Path)
    requires IsTmp(g, x) && StrictlyAbove(k, x)
    ensures Above(g, k)
  {
    var p :| p in g.dests && x == Tmp(p, g.pid);
    TmpParent(p, g.pid);
    UnderParent(x, k);
    UnderTrans(p, Parent(p), k);
    assert |k| < |x| == |p|;
  }

  /** Seen from elsewhere the leftover changes nothing. */
  lemma SameBelow(g: Ground, x: Path, c: Content, d: Path, k: Path)
    requires IsTmp(g, x) && d in g.dests && Under(k, d)
    ensures Get(WithLeft(g.base, x, c), k) == Get(g.base, k)
  {
    WithLeftGet(g.base, x, c, k);
    TmpApart(g, x, d);
    if StrictlyAbove(k, x) { UnderTrans(x, k, d); }
  }

  lemma AtOther(g: Ground, x: Path, c: Content, away: set<Path>, k: Path)
    requires IsTmp(g, x) && AwayOk(g, away) && k != x && !(StrictlyAbove(k, x) && k !in g.base)
    ensures At(WithLeft(g.base, x, c), away, k) == At(g.base, away, k)
  {
    WithLeftGet(g.base, x, c, k);
    if !IsAway(away, k) && IsBackup(away, k) {
      var d :| d in away && Under(k, Bak(d));
      AwayGood(g, away);
      AtBackup(g.base, away, d, k);
      AtBackup(WithLeft(g.base, x, c), away, d, k);
      SameBelow(g, x, c, d, d + k[|d|..]);
    }
  }

  lemma AtLeft(g: Ground, x: Path, c: Content, away: set<Path>, k: Path)
    requires IsTmp(g, x) && AwayOk(g, away) && (k == x || (StrictlyAbove(k, x) && k !in g.base))
    ensures At(WithLeft(g.base, x, c), away, k) == Some(if k == x then File(c) else Dir)
  {
    WithLeftGet(g.base, x, c, k);
    forall d | d in away ensures !Under(k, d) && !Under(k, Bak(d)) {
      TmpApart(g, x, d);
      if k != x {
        if Under(k, d) { UnderTrans(x, k, d); }
        if Under(k, Bak(d)) { UnderTrans(x, k, Bak(d)); }
      }
    }
    AtElsewhere(WithLeft(g.base, x, c), away, k);
  }

  /** The folders that are not the leftover's. */
  ghost function Others(cs: seq<Path>, ways: set<Path>): seq<Path> {
    if cs == [] then [] else
    var c := cs[|cs| - 1];
    Others(cs[..|cs| - 1], ways) + if c in ways then [] else [c]
  }

  lemma {:induction false} OthersHas(cs: seq<Path>, ways: set<Path>)
    ensures ToSet(Others(cs, ways)) == ToSet(cs) - ways
  {
    if cs != [] {
      var front, c := cs[..|cs| - 1], cs[|cs| - 1];
      OthersHas(front, ways);
      assert cs == front + [c];
      ToSetSnoc(front, c);
      ToSetSnoc(Others(front, ways), c);
      assert Others(front, ways) + [] == Others(front, ways);
    }
  }

  lemma {:induction false} OthersOk(g: Ground, cs: seq<Path>, ways: set<Path>)
    requires CreatedOk(g, cs)
    ensures CreatedOk(g, Others(cs, ways))
  {
    if cs != [] {
      var front, c := cs[..|cs| - 1], cs[|cs| - 1];
      OthersOk(g, front, ways);
      if c !in ways {
        var list := Others(front, ways);
        OthersHas(front, ways);
        forall i: nat | i < |list| ensures !Under(list[i], c) {
          assert list[i] in ToSet(list);
          var j :| 0 <= j < |front| && front[j] == list[i];
          assert cs[j] == front[j];
        }
        CreatedSnoc(g, list, c);
      } else {
        assert Others(cs, ways) == Others(front, ways);
      }
    }
  }

  /** What the tree shows at a place, over the other base. */
  lemma LookOther(t: Tree, live: seq<Path>, g: Ground, away: set<Path>, kept: map<Path, Content>, x: Path, k: Path)
    requires RunIs(Start(t, 0, live), g, away, kept) && x in kept && IsTmp(g, x)
    ensures Get(t, k) == Look(Over(WithLeft(g.base, x, kept[x]), away, kept - {x}, ToSet(live) - Ways(g.base, x)), k)
  {
    assert Get(t, k) == Look(Described(g, away, kept, live), k);
    WaysIff(g.base, x, k);
    if k == x {
      AtLeft(g, x, kept[x], away, k);
      if x in ToSet(live) { AboveFree(g, x, x); }
    } else if StrictlyAbove(k, x) && k !in g.base {
      AboveTmp(g, x, k);
      if k in kept { AboveFree(g, k, k); }
      NeededIsMade(Start(t, 0, live), g, away, kept, x, k);
      AtLeft(g, x, kept[x], away, k);
    } else {
      AtOther(g, x, kept[x], away, k);
    }
  }

  // ---- the run over the other base ----

  /** The places of the install under another process id, over the tree with the leftover in it. */
  ghost predicate Rebased(g: Ground, h: Ground, x: Path, c: Content) {
    h == Setting(WithLeft(g.base, x, c), g.dests, g.record, h.pid)
  }

  /** The other process's temporaries are not the leftover, nor above it. */
  ghost predicate TmpsFree(g: Ground, pid: string, x: Path) {
    forall p :: p in g.dests ==> !Under(x, Tmp(p, pid))
  }

  lemma OnlyFoldersAbove(t: Tree, live: seq<Path>, g: Ground, away: set<Path>, kept: map<Path, Content>, x: Path, k: Path)
    requires RunIs(Start(t, 0, live), g, away, kept) && x in kept && IsTmp(g, x) && k in g.base && StrictlyAbove(k, x)
    ensures g.base[k] == Dir
  {
    var o := Described(g, away, kept, live);
    assert Get(t, x) == Look(o, x);
    AncestorsExist(t, k, x);
    AboveTmp(g, x, k);
    AtAbove(g, away, k);
    if k in kept { AboveFree(g, k, k); }
    assert Get(t, k) == Look(o, k);
  }

  lemma GroundOther(t: Tree, live: seq<Path>, g: Ground, away: set<Path>, kept: map<Path, Content>, x: Path, pid: string)
    requires RunIs(Start(t, 0, live), g, away, kept) && x in kept && IsTmp(g, x) && SettingOk(g.(pid := pid)) && TmpsFree(g, pid, x)
    ensures SettingOk(Setting(WithLeft(g.base, x, kept[x]), g.dests, g.record, pid))
  {
    var c := kept[x];
    forall k | k in g.base && StrictlyAbove(k, x) ensures g.base[k] == Dir { OnlyFoldersAbove(t, live, g, away, kept, x, k); }
    var p :| p in g.dests && x == Tmp(p, g.pid);
    TmpParent(p, g.pid);
    WithLeftWellFormed(g.base, x, c);
    forall q | q in g.dests ensures Tmp(q, pid) !in WithLeft(g.base, x, c) {
      WithLeftGet(g.base, x, c, Tmp(q, pid));
      assert Tmp(q, pid) !in g.base;
    }
  }

  lemma AwayOther(g: Ground, h: Ground, x: Path, c: Content, away: set<Path>)
    requires Rebased(g, h, x, c) && IsTmp(g, x) && AwayOk(g, away)
    ensures AwayOk(h, away)
  {
    forall d | d in away ensures d in h.base && Clear(h.base, Bak(d)) {
      SameBelow(g, x, c, d, d);
      forall k | k in h.base ensures !Under(k, Bak(d)) {
        WithLeftGet(g.base, x, c, k);
        TmpApart(g, x, d);
        if Under(k, Bak(d)) && StrictlyAbove(k, x) { UnderTrans(x, k, Bak(d)); }
      }
    }
  }

  /** A place of the install shows the same over both. */
  lemma AtPlace(g: Ground, x: Path, c: Content, away: set<Path>, k: Path)
    requires IsTmp(g, x) && AwayOk(g, away) && (k in g.dests || k == g.record)
    ensures At(WithLeft(g.base, x, c), away, k) == At(g.base, away, k)
  {
    TmpElsewhere(g, x);
    SitesApart(g, k, x);
    AtOther(g, x, c, away, k);
  }

  lemma FilesOther(g: Ground, h: Ground, x: Path, c: Content, away: set<Path>, files: map<Path, Content>)
    requires Rebased(g, h, x, c) && IsTmp(g, x) && AwayOk(g, away) && FilesOk(g, away, files) && Settled(g, files)
    ensures FilesOk(h, away, files)
  {
    forall k | k in files ensures IsSite(h, k) && At(h.base, away, k) == None { AtPlace(g, x, c, away, k); }
  }

  lemma CreatedOther(g: Ground, h: Ground, x: Path, c: Content, cs: seq<Path>)
    requires Rebased(g, h, x, c) && IsTmp(g, x) && CreatedOk(g, cs) && forall d :: d in ToSet(cs) ==> d !in Ways(g.base, x)
    ensures CreatedOk(h, cs)
  {
    forall i | 0 <= i < |cs| ensures Above(h, cs[i]) && cs[i] !in h.base {
      assert cs[i] in ToSet(cs);
      WithLeftGet(g.base, x, c, cs[i]);
      WaysIff(g.base, x, cs[i]);
      assert Above(g, cs[i]);
      var p :| p in g.dests && Under(p, cs[i]) && p != cs[i];
      if cs[i] == x { AboveFree(g, x, x); }
    }
  }

  lemma RunOther(t: Tree, live: seq<Path>, g: Ground, h: Ground, away: set<Path>, kept: map<Path, Content>, x: Path)
    requires RunIs(Start(t, 0, live), g, away, kept) && x in kept && IsTmp(g, x) && Rebased(g, h, x, kept[x]) && Settled(g, kept - {x})
    ensures RunIs(Start(t, 0, Others(live, Ways(g.base, x))), h, away, kept - {x})
  {
    var ways := Ways(g.base, x);
    OthersHas(live, ways);
    OthersOk(g, live, ways);
    AwayOther(g, h, x, kept[x], away);
    FilesOther(g, h, x, kept[x], away, kept - {x});
    CreatedOther(g, h, x, kept[x], Others(live, ways));
    forall k ensures Get(t, k) == Look(Described(h, away, kept - {x}, Others(live, ways)), k) { LookOther(t, live, g, away, kept, x, k); }
  }

  // ---- the record over the other base ----

  /** A cache's name is neither the leftover's nor a folder's above it. */
  lemma NoCacheLeft(g: Ground, x: Path, c: Content, d: Path, name: string)
    requires NoCaches(g) && IsTmp(g, x) && (name == CACHES[0] || name == CACHES[1]) && d + [name] !in g.base
    ensures d + [name] !in WithLeft(g.base, x, c)
  {
    var k := d + [name];
    WithLeftGet(g.base, x, c, k);
    var p :| p in g.dests && x == Tmp(p, g.pid);
    assert k[|d|] == name;
    if k == x {
      assert Name(x)[0] == '.' && CACHES[0][0] == 'm' && CACHES[1][0] == 'i';
    } else if StrictlyAbove(k, x) {
      AboveTmp(g, x, k);
      var q :| q in g.dests && Under(q, k) && q != k;
      assert q[|d|] == name;
    }
  }

  lemma FixedOther(g: Ground, h: Ground, x: Path, c: Content, d: Path)
    requires Rebased(g, h, x, c) && IsTmp(g, x) && NoCaches(g) && d in h.base
    requires (d in g.base ==> Fixed(g, d)) && Above(g, d)
    ensures Fixed(h, d)
  {
    WithLeftGet(g.base, x, c, d);
    if d in g.base {
      var y :| y in g.base && StrictlyAbove(d, y) && forall e :: e in g.dests ==> !Under(y, e);
      WithLeftGet(g.base, x, c, y);
      assert y in h.base;
    } else {
      if d == x { AboveFree(g, x, x); }
      WithLeftGet(g.base, x, c, x);
      forall e | e in g.dests ensures !Under(x, e) { TmpApart(g, x, e); }
      assert x in h.base && StrictlyAbove(d, x);
      NothingThere(g, d, CACHES[0]);
      NothingThere(g, d, CACHES[1]);
    }
    NoCacheLeft(g, x, c, d, CACHES[0]);
    NoCacheLeft(g, x, c, d, CACHES[1]);
  }

  lemma NothingThere(g: Ground, d: Path, name: string)
    requires d !in g.base
    ensures d + [name] !in g.base
  {
    if d + [name] in g.base { AncestorsExist(g.base, d, d + [name]); }
  }

  lemma ListedOther(g: Ground, h: Ground, x: Path, c: Content, cs: seq<Path>)
    requires Rebased(g, h, x, c) && IsTmp(g, x) && NoCaches(g) && Listed(g, cs)
    ensures Listed(h, cs)
  {
    forall i | 0 <= i < |cs| ensures Above(h, cs[i]) && cs[i] != [] && (cs[i] !in h.base || Fixed(h, cs[i])) {
      assert Above(g, cs[i]);
      var p :| p in g.dests && Under(p, cs[i]) && p != cs[i];
      if cs[i] in h.base { FixedOther(g, h, x, c, cs[i]); }
    }
    forall i, d | 0 <= i < |cs| && StrictlyAbove(d, cs[i]) && d !in h.base ensures d in ToSet(cs[..i]) {
      WithLeftGet(g.base, x, c, d);
    }
  }

  lemma CoveredOther(g: Ground, h: Ground, x: Path, c: Content, m: Manifest)
    requires Rebased(g, h, x, c) && Covered(g, m)
    ensures Covered(h, m)
  {
    forall i, d | 0 <= i < |m.files| && StrictlyAbove(d, m.files[i].path) && d !in h.base ensures d in ToSet(m.dirs) {
      WithLeftGet(g.base, x, c, d);
    }
  }

  lemma FreeOther(g: Ground, h: Ground, x: Path, c: Content, es: seq<Entry>, away: set<Path>)
    requires Rebased(g, h, x, c) && IsTmp(g, x) && AwayOk(g, away) && Free(es, g, away)
    ensures Free(es, h, away)
  {
    forall i | 0 <= i < |es| ensures es[i].path in h.dests && At(h.base, away, es[i].path) == None { AtPlace(g, x, c, away, es[i].path); }
  }

  lemma LoadOther(g: Ground, h: Ground, x: Path, c: Content)
    requires Rebased(g, h, x, c) && IsTmp(g, x) && Load(g.base, g.record).Absent?
    ensures Load(h.base, h.record).Absent?
  {
    TmpElsewhere(g, x);
    SitesApart(g, g.record, x);
    WithLeftGet(g.base, x, c, g.record);
  }

  /** The folders that stand and are not the leftover's are listed. */
  lemma OthersListed(t: Tree, g: Ground, m: Manifest, live: seq<Path>, lost: set<Path>, was: map<Path, Content>,
                     live': seq<Path>, kept: map<Path, Content>, x: Path, d: Path)
    requires IsTmp(g, x) && Standing(t, g, m, live, lost, was) && CreatedOk(g, live') && d in ToSet(live') && d !in Ways(g.base, x) && Holds(kept, d)
    requires (forall k :: k in kept && k != x ==> k in Owned(m.files) || k == g.record) && SameRecord(g, was, kept)
    ensures d in ToSet(m.dirs)
  {
    var i :| 0 <= i < |live'| && live'[i] == d;
    var y :| y in kept && Under(y, d);
    if y == x {
      WaysIff(g.base, x, d);
      AboveFree(g, d, x);
    }
    if d !in ToSet(m.dirs) && y != x { OnlyLeftoverThere(t, g, m, live, lost, was, kept, d, y); }
  }

  /** Beside the leftover there are recorded files and the manifest. */
  lemma KeptOthers(g: Ground, items: seq<Item>, m: Manifest, was: map<Path, Content>, kept: map<Path, Content>, x: Path)
    requires KeptFrom(g, items, m, was, kept) && x in kept && IsTmp(g, x) && Owned(m.files) <= g.dests
    ensures (forall k :: k in kept && k != x ==> k in Owned(m.files) || k == g.record) && Settled(g, kept - {x})
  {
  }

  lemma OthersAllListed(t: Tree, g: Ground, m: Manifest, live: seq<Path>, lost: set<Path>, was: map<Path, Content>,
                        live': seq<Path>, kept: map<Path, Content>, x: Path)
    requires IsTmp(g, x) && Standing(t, g, m, live, lost, was) && CreatedOk(g, live') && forall c :: c in ToSet(live') ==> Holds(kept, c)
    requires (forall k :: k in kept && k != x ==> k in Owned(m.files) || k == g.record) && SameRecord(g, was, kept)
    ensures ToSet(Others(live', Ways(g.base, x))) <= ToSet(m.dirs)
  {
    OthersHas(live', Ways(g.base, x));
    forall d | d in ToSet(Others(live', Ways(g.base, x))) ensures d in ToSet(m.dirs) {
      OthersListed(t, g, m, live, lost, was, live', kept, x, d);
    }
  }

  /** What the manifest has to do with the rest, over the other base. */
  lemma RecordingOther(g: Ground, h: Ground, m: Manifest, live: seq<Path>, live': seq<Path>, lost: set<Path>, was: map<Path, Content>,
                       kept: map<Path, Content>, x: Path)
    requires Recording(g, m, live, lost, was) && AwayOk(g, WithBackup(m.files) + lost) && NoCaches(g)
    requires x in kept && IsTmp(g, x) && Rebased(g, h, x, kept[x]) && ToSet(live') <= ToSet(m.dirs)
    requires (forall k :: k in kept && k != x ==> k in Owned(m.files) || k == g.record) && SameRecord(g, was, kept) && (g.record in was ==> g.record in kept)
    ensures Recording(h, m, live', lost, kept - {x})
  {
    ListedOther(g, h, x, kept[x], m.dirs);
    CoveredOther(g, h, x, kept[x], m);
    FreeOther(g, h, x, kept[x], m.files, WithBackup(m.files) + lost);
    TmpElsewhere(g, x);
  }

  /** The old manifest is in force over the tree with the leftover in it. */
  lemma StandsWithLeft(t: Tree, t': Tree, g: Ground, h: Ground, items: seq<Item>, m: Manifest, live: seq<Path>, live': seq<Path>, lost: set<Path>,
                       was: map<Path, Content>, kept: map<Path, Content>, x: Path)
    requires Standing(t, g, m, live, lost, was) && NoCaches(g) && RunIs(Start(t', 0, live'), g, WithBackup(m.files) + lost, kept)
    requires (forall c :: c in ToSet(live') ==> Holds(kept, c)) && KeptFrom(g, items, m, was, kept) && SameRecord(g, was, kept)
    requires x in kept && IsTmp(g, x) && Rebased(g, h, x, kept[x])
    ensures Standing(t', h, m, Others(live', Ways(g.base, x)), lost, kept - {x})
  {
    FilesPlaces(g, m, live, lost, was);
    KeptOthers(g, items, m, was, kept, x);
    RunOther(t', live', g, h, WithBackup(m.files) + lost, kept, x);
    OthersAllListed(t, g, m, live, lost, was, live', kept, x);
    RecordingOther(g, h, m, live, Others(live', Ways(g.base, x)), lost, was, kept, x);
  }
}
