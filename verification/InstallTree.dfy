/** The file tree an install works on, as a map from paths to nodes, and a description of a tree as
    an original tree with some entries moved aside and files and folders added. */
module InstallTree {
  import opened Basics

  /** A path from the root, component by component. */
  type Path = seq<string>

  datatype Entry = Entry(path: Path, sha: int, backup: Option<Path>)

  datatype Manifest = Manifest(files: seq<Entry>, dirs: seq<Path>)

  /** What a file holds: the manifest, the remains of a write that failed, or anything else. */
  datatype Content = Data(bytes: seq<int>) | Record(manifest: Manifest) | Torn

  datatype Node = Dir | File(content: Content) | Other(kind: nat)

  type Tree = map<Path, Node>

  function Get(t: Tree, p: Path): Option<Node> {
    if p in t then Some(t[p]) else None
  }

  predicate Under(q: Path, p: Path) {
    p <= q
  }

  const SUFFIX := ".pre-bingux-apps.bak"

  function Parent(p: Path): Path
    requires p != []
  {
    p[..|p| - 1]
  }

  function Name(p: Path): string
    requires p != []
  {
    p[|p| - 1]
  }

  /** Where the file displaced at p is kept. */
  function Bak(p: Path): (r: Path)
    ensures |r| == |p|
  {
    if p == [] then p else Parent(p) + [Name(p) + SUFFIX]
  }

  /** The temporary a file is written to before it replaces p. */
  function Tmp(p: Path, pid: string): (r: Path)
    ensures |r| == |p|
  {
    if p == [] then p else Parent(p) + ["." + Name(p) + ".tmp-" + pid]
  }

  /** Every node lies in a folder. */
  ghost predicate WellFormed(t: Tree) {
    && [] in t && t[[]] == Dir
    && forall p {:trigger Parent(p)} :: p in t && p != [] ==> Get(t, Parent(p)) == Some(Dir)
  }

  lemma {:induction false} AncestorsExist(t: Tree, p: Path, q: Path)
    requires WellFormed(t) && q in t && Under(q, p) && p != q
    ensures Get(t, p) == Some(Dir)
    decreases |q|
  {
    var up := Parent(q);
    if up != p {
      assert Under(up, p);
      AncestorsExist(t, p, up);
    }
  }

  // ---- renaming ----

  /** The path q has after what lies at a has moved to b. */
  function Carry(q: Path, a: Path, b: Path): Path {
    if Under(q, a) then b + q[|a|..] else q
  }

  /** Moves what lies at a, with everything below it, to b. */
  function Rename(t: Tree, a: Path, b: Path): Tree {
    var keys := set q | q in t :: Carry(q, a, b);
    map k | k in keys && Carry(k, b, a) in t :: t[Carry(k, b, a)]
  }

  /** Neither path lies at or below the other. */
  predicate Apart(a: Path, b: Path) {
    !Under(a, b) && !Under(b, a)
  }

  ghost predicate Clear(t: Tree, p: Path) {
    forall k :: k in t ==> !Under(k, p)
  }

  lemma CarryBack(q: Path, a: Path, b: Path)
    requires Apart(a, b) && !Under(q, b)
    ensures Carry(Carry(q, a, b), b, a) == q
  {
    if Under(q, a) {
      assert (b + q[|a|..])[|b|..] == q[|a|..];
      assert a + q[|a|..] == q;
    }
  }

  lemma RenameGet(t: Tree, a: Path, b: Path, k: Path)
    requires Apart(a, b) && Clear(t, b)
    ensures Get(Rename(t, a, b), k) ==
            if Under(k, a) then None else if Under(k, b) then Get(t, a + k[|b|..]) else Get(t, k)
  {
    var r := Rename(t, a, b);
    var keys := set q | q in t :: Carry(q, a, b);
    forall q | q in t ensures Carry(Carry(q, a, b), b, a) == q { CarryBack(q, a, b); }
    if Under(k, a) {
      if k in keys {
        var q :| q in t && Carry(q, a, b) == k;
        if Under(q, a) { PrefixesCompare(k, a, b); }
      }
    } else if Under(k, b) {
      var q := a + k[|b|..];
      assert Carry(k, b, a) == q;
      assert Carry(q, a, b) == k by { assert q[|a|..] == k[|b|..]; assert b + k[|b|..] == k; }
    } else {
      assert Carry(k, a, b) == k && Carry(k, b, a) == k;
    }
  }

  lemma PrefixesCompare(k: Path, a: Path, b: Path)
    requires Under(k, a) && Under(k, b)
    ensures Under(a, b) || Under(b, a)
  {
  }

  // ---- a tree over another ----

  /** The tree `base` with the entries of `away` moved to their backups, and with files and folders
      added on top. */
  datatype Over = Over(base: Tree, away: set<Path>, files: map<Path, Content>, dirs: set<Path>)

  ghost predicate IsAway(away: set<Path>, k: Path) {
    exists d :: d in away && Under(k, d)
  }

  ghost predicate IsBackup(away: set<Path>, k: Path) {
    exists d :: d in away && Under(k, Bak(d))
  }

  /** What the original tree shows at k once the entries of `away` are at their backups. */
  ghost function At(base: Tree, away: set<Path>, k: Path): Option<Node> {
    if IsAway(away, k) then None
    else if IsBackup(away, k) then
      var d :| d in away && Under(k, Bak(d));
      Get(base, d + k[|d|..])
    else Get(base, k)
  }

  ghost function Look(o: Over, k: Path): Option<Node> {
    if k in o.files then Some(File(o.files[k]))
    else if k in o.dirs then Some(Dir)
    else At(o.base, o.away, k)
  }

  /** The tree is the one described. */
  ghost predicate Is(t: Tree, o: Over) {
    forall k :: Get(t, k) == Look(o, k)
  }

  lemma IsBase(t: Tree, base: Tree)
    ensures Is(t, Over(base, {}, map[], {})) <==> t == base
  {
    var o := Over(base, {}, map[], {});
    assert forall k :: Look(o, k) == Get(base, k);
    if Is(t, o) {
      forall k ensures k in t <==> k in base { assert Get(t, k) == Look(o, k); }
      forall k | k in t ensures t[k] == base[k] { assert Get(t, k) == Look(o, k); }
    }
  }

  // ---- names ----

  /** The places an install may touch do not lie at or below one another: destinations, backups,
      temporaries of the running process and the manifest. */
  ghost predicate GoodNames(dests: set<Path>, pid: string, record: Path) {
    && [] !in dests && record != []
    && (forall p, q {:trigger Apart(p, q)} :: p in dests && q in dests && p != q ==> Apart(p, q))
    && (forall p, q {:trigger Apart(Bak(p), Bak(q))} :: p in dests && q in dests && p != q ==> Apart(Bak(p), Bak(q)))
    && (forall p, q {:trigger Apart(Tmp(p, pid), Tmp(q, pid))} :: p in dests && q in dests && p != q ==> Apart(Tmp(p, pid), Tmp(q, pid)))
    && (forall p, q {:trigger Apart(p, Bak(q))} :: p in dests && q in dests ==> Apart(p, Bak(q)))
    && (forall p, q {:trigger Apart(p, Tmp(q, pid))} :: p in dests && q in dests ==> Apart(p, Tmp(q, pid)))
    && (forall p, q {:trigger Apart(Bak(p), Tmp(q, pid))} :: p in dests && q in dests ==> Apart(Bak(p), Tmp(q, pid)))
    && (forall p {:trigger Apart(p, record)} :: p in dests ==> Apart(p, record))
    && (forall p {:trigger Apart(Bak(p), record)} :: p in dests ==> Apart(Bak(p), record))
    && (forall p {:trigger Apart(Tmp(p, pid), record)} :: p in dests ==> Apart(Tmp(p, pid), record))
  }

  ghost predicate GoodAway(away: set<Path>) {
    && [] !in away
    && (forall p, q :: p in away && q in away && p != q ==> Apart(p, q) && Apart(Bak(p), Bak(q)))
    && (forall p, q :: p in away && q in away ==> Apart(p, Bak(q)))
  }

  lemma AtBackup(base: Tree, away: set<Path>, d: Path, k: Path)
    requires GoodAway(away) && d in away && Under(k, Bak(d))
    ensures At(base, away, k) == Get(base, d + k[|d|..])
  {
    forall e | e in away && Under(k, e) ensures false { PrefixesCompare(k, e, Bak(d)); }
    forall e | e in away && Under(k, Bak(e)) ensures e == d { PrefixesCompare(k, Bak(e), Bak(d)); }
    assert IsBackup(away, k);
  }

  lemma AtElsewhere(base: Tree, away: set<Path>, k: Path)
    requires forall d :: d in away ==> !Under(k, d) && !Under(k, Bak(d))
    ensures At(base, away, k) == Get(base, k)
  {
  }

  /** Nothing added lies at or below the path. */
  ghost predicate Untouched(o: Over, p: Path) {
    && (forall k :: k in o.files ==> !Under(k, p))
    && (forall k :: k in o.dirs ==> !Under(k, p))
  }

  /** Moving an entry aside. */
  lemma MoveAside(t: Tree, o: Over, d: Path)
    requires d !in o.away && GoodAway(o.away + {d}) && Is(t, o) && Clear(o.base, Bak(d))
    requires Untouched(o, d) && Untouched(o, Bak(d))
    ensures Is(Rename(t, d, Bak(d)), o.(away := o.away + {d}))
  {
    var b := Bak(d);
    var next := o.(away := o.away + {d});
    assert Clear(t, b) by { ClearThere(t, o, d); }
    forall k ensures Get(Rename(t, d, b), k) == Look(next, k) {
      RenameGet(t, d, b, k);
      assert Get(t, k) == Look(o, k);
      if Under(k, d) {
        assert IsAway(next.away, k);
      } else if Under(k, b) {
        AtBackup(o.base, next.away, d, k);
        BelowMoved(o, d, d + k[|d|..]);
        assert Get(t, d + k[|d|..]) == Look(o, d + k[|d|..]);
      } else {
        SameElsewhere(o.base, o.away, d, k);
      }
    }
  }

  lemma ClearThere(t: Tree, o: Over, d: Path)
    requires d !in o.away && GoodAway(o.away + {d}) && Is(t, o) && Clear(o.base, Bak(d)) && Untouched(o, Bak(d))
    ensures Clear(t, Bak(d))
  {
    forall k | k in t ensures !Under(k, Bak(d)) {
      if Under(k, Bak(d)) {
        assert Get(t, k) == Look(o, k);
        forall e | e in o.away ensures !Under(k, e) && !Under(k, Bak(e)) {
          if Under(k, e) { PrefixesCompare(k, e, Bak(d)); }
          if Under(k, Bak(e)) { PrefixesCompare(k, Bak(e), Bak(d)); }
        }
        AtElsewhere(o.base, o.away, k);
      }
    }
  }

  /** What lies at or below an entry that is in its place is what the original tree has there. */
  lemma BelowMoved(o: Over, d: Path, k: Path)
    requires d !in o.away && GoodAway(o.away + {d}) && Untouched(o, d) && Under(k, d)
    ensures Look(o, k) == Get(o.base, k)
  {
    forall e | e in o.away ensures !Under(k, e) && !Under(k, Bak(e)) {
      if Under(k, e) { PrefixesCompare(k, e, d); }
      if Under(k, Bak(e)) { PrefixesCompare(k, Bak(e), d); }
    }
    AtElsewhere(o.base, o.away, k);
  }

  lemma SameElsewhere(base: Tree, away: set<Path>, d: Path, k: Path)
    requires d !in away && GoodAway(away + {d}) && !Under(k, d) && !Under(k, Bak(d))
    ensures At(base, away, k) == At(base, away + {d}, k)
  {
    assert IsAway(away, k) <==> IsAway(away + {d}, k);
    assert IsBackup(away, k) <==> IsBackup(away + {d}, k);
    if !IsAway(away, k) && IsBackup(away, k) {
      var e :| e in away && Under(k, Bak(e));
      AtBackup(base, away, e, k);
      AtBackup(base, away + {d}, e, k);
    }
  }

  /** Moving an entry back. */
  lemma MoveBack(t: Tree, o: Over, d: Path)
    requires d in o.away && GoodAway(o.away) && Is(t, o) && Clear(o.base, Bak(d))
    requires Untouched(o, d) && Untouched(o, Bak(d))
    ensures Is(Rename(t, Bak(d), d), o.(away := o.away - {d}))
  {
    var b := Bak(d);
    var next := o.(away := o.away - {d});
    assert next.away + {d} == o.away;
    assert Clear(t, d) by {
      forall k | k in t ensures !Under(k, d) {
        assert Get(t, k) == Look(o, k);
        if Under(k, d) { assert IsAway(o.away, k); }
      }
    }
    forall k ensures Get(Rename(t, b, d), k) == Look(next, k) {
      RenameGet(t, b, d, k);
      assert Get(t, k) == Look(o, k);
      if Under(k, b) {
        forall e | e in next.away ensures !Under(k, e) && !Under(k, Bak(e)) {
          if Under(k, e) { PrefixesCompare(k, e, b); }
          if Under(k, Bak(e)) { PrefixesCompare(k, Bak(e), b); }
        }
        AtElsewhere(o.base, next.away, k);
        assert k !in o.base;
      } else if Under(k, d) {
        var at := b + k[|d|..];
        assert Get(t, at) == Look(o, at);
        assert d + at[|d|..] == k;
        AtBackup(o.base, o.away, d, at);
        BelowMoved(next, d, k);
      } else {
        SameElsewhere(o.base, next.away, d, k);
      }
    }
  }

  lemma PutFile(t: Tree, o: Over, p: Path, c: Content)
    requires Is(t, o)
    ensures Is(t[p := File(c)], o.(files := o.files[p := c]))
  {
    var next := o.(files := o.files[p := c]);
    forall k ensures Get(t[p := File(c)], k) == Look(next, k) { assert Get(t, k) == Look(o, k); }
  }

  lemma DropFile(t: Tree, o: Over, p: Path)
    requires Is(t, o) && p !in o.dirs && At(o.base, o.away, p) == None
    ensures Is(t - {p}, o.(files := o.files - {p}))
  {
    var next := o.(files := o.files - {p});
    forall k ensures Get(t - {p}, k) == Look(next, k) { assert Get(t, k) == Look(o, k); }
  }

  lemma PutDir(t: Tree, o: Over, p: Path)
    requires Is(t, o) && p !in o.files
    ensures Is(t[p := Dir], o.(dirs := o.dirs + {p}))
  {
    var next := o.(dirs := o.dirs + {p});
    forall k ensures Get(t[p := Dir], k) == Look(next, k) { assert Get(t, k) == Look(o, k); }
  }

  lemma DropDir(t: Tree, o: Over, p: Path)
    requires Is(t, o) && p !in o.files && At(o.base, o.away, p) == None
    ensures Is(t - {p}, o.(dirs := o.dirs - {p}))
  {
    var next := o.(dirs := o.dirs - {p});
    forall k ensures Get(t - {p}, k) == Look(next, k) { assert Get(t, k) == Look(o, k); }
  }
}
