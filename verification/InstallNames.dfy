/** Ordinary file names below one prefix never clash with the backups and the temporaries. */
module InstallNames {
  import opened InstallTree

  predicate Ends(s: string, suffix: string) {
    |suffix| <= |s| && s[|s| - |suffix|..] == suffix
  }

  /** A name that is neither hidden nor a backup's. */
  predicate PlainName(s: string) {
    s != "" && s[0] != '.' && !Ends(s, SUFFIX)
  }

  /** A path below the prefix with ordinary names. */
  predicate Plain(p: Path, root: Path) {
    root < p && forall i :: |root| <= i < |p| ==> PlainName(p[i])
  }

  datatype Kind = Own | Backup | Temporary

  ghost function Variant(p: Path, kind: Kind, pid: string): (r: Path)
    requires p != []
    ensures |r| == |p| && r != [] && Parent(r) == Parent(p)
  {
    match kind
    case Own => p
    case Backup => Bak(p)
    case Temporary => Tmp(p, pid)
  }

  function Spelled(s: string, kind: Kind, pid: string): string {
    match kind
    case Own => s
    case Backup => s + SUFFIX
    case Temporary => "." + s + ".tmp-" + pid
  }

  lemma VariantName(p: Path, kind: Kind, pid: string)
    requires p != []
    ensures Name(Variant(p, kind, pid)) == Spelled(Name(p), kind, pid)
  {
  }

  lemma FirstLetter(s: string, kind: Kind, pid: string)
    requires PlainName(s)
    ensures Spelled(s, kind, pid) != "" && (Spelled(s, kind, pid)[0] == '.' <==> kind == Temporary)
    ensures kind != Temporary ==> (Ends(Spelled(s, kind, pid), SUFFIX) <==> kind == Backup)
  {
    if kind == Backup { assert (s + SUFFIX)[|s|..] == SUFFIX; }
  }

  lemma SameStem(x: string, y: string, kind: Kind, pid: string)
    requires Spelled(x, kind, pid) == Spelled(y, kind, pid)
    ensures x == y
  {
    if kind == Backup {
      assert (x + SUFFIX)[..|x|] == x && (y + SUFFIX)[..|y|] == y;
    } else if kind == Temporary {
      var s, z := Spelled(x, kind, pid), "." + x;
      assert s == z + (".tmp-" + pid) && Spelled(y, kind, pid) == ("." + y) + (".tmp-" + pid);
      assert s[1..|z|] == x && s[1..|"." + y|] == y;
    }
  }

  /** Names of two kinds differ, and names of one kind come from one name. */
  lemma NamesDiffer(p: Path, a: Kind, q: Path, b: Kind, pid: string)
    requires p != [] && q != [] && PlainName(Name(p)) && PlainName(Name(q))
    requires Name(Variant(p, a, pid)) == Name(Variant(q, b, pid))
    ensures a == b && Name(p) == Name(q)
  {
    VariantName(p, a, pid);
    VariantName(q, b, pid);
    FirstLetter(Name(p), a, pid);
    FirstLetter(Name(q), b, pid);
    SameStem(Name(p), Name(q), a, pid);
  }

  lemma SplitPath(p: Path)
    requires p != []
    ensures p == Parent(p) + [Name(p)]
  {
  }

  lemma VariantsApart(p: Path, a: Kind, q: Path, b: Kind, pid: string, root: Path)
    requires Plain(p, root) && Plain(q, root) && (if p == q then a != b else Apart(p, q))
    ensures !Under(Variant(p, a, pid), Variant(q, b, pid))
  {
    var x, y := Variant(p, a, pid), Variant(q, b, pid);
    if Under(x, y) {
      SplitPath(p);
      SplitPath(q);
      if |x| == |y| {
        NamesDiffer(p, a, q, b, pid);
      } else {
        var up := p[..|q|];
        assert up == Parent(x)[..|q|] == y;
        assert Variant(up, Own, pid) == up;
        NamesDiffer(up, Own, q, b, pid);
        SplitPath(up);
      }
    }
  }

  lemma BothWays(p: Path, a: Kind, q: Path, b: Kind, pid: string, root: Path)
    requires Plain(p, root) && Plain(q, root) && (if p == q then a != b else Apart(p, q))
    ensures Apart(Variant(p, a, pid), Variant(q, b, pid))
  {
    VariantsApart(p, a, q, b, pid, root);
    VariantsApart(q, b, p, a, pid, root);
  }

  lemma TwoDests(p: Path, q: Path, pid: string, root: Path)
    requires Plain(p, root) && Plain(q, root) && (p != q ==> Apart(p, q))
    ensures p != q ==> Apart(Bak(p), Bak(q)) && Apart(Tmp(p, pid), Tmp(q, pid))
    ensures Apart(p, Bak(q)) && Apart(p, Tmp(q, pid)) && Apart(Bak(p), Tmp(q, pid))
  {
    BothWays(p, Own, q, Backup, pid, root);
    BothWays(p, Own, q, Temporary, pid, root);
    BothWays(p, Backup, q, Temporary, pid, root);
    if p != q {
      BothWays(p, Backup, q, Backup, pid, root);
      BothWays(p, Temporary, q, Temporary, pid, root);
    }
  }

  /** Destinations with ordinary names, none of them inside another, are all an install asks for. */
  lemma PlainIsGood(dests: set<Path>, pid: string, record: Path, root: Path)
    requires Plain(record, root) && forall p :: p in dests ==> Plain(p, root) && Apart(p, record)
    requires forall p, q :: p in dests && q in dests && p != q ==> Apart(p, q)
    ensures GoodNames(dests, pid, record)
  {
    forall p, q | p in dests && q in dests
      ensures p != q ==> Apart(p, q) && Apart(Bak(p), Bak(q)) && Apart(Tmp(p, pid), Tmp(q, pid))
      ensures Apart(p, Bak(q)) && Apart(p, Tmp(q, pid)) && Apart(Bak(p), Tmp(q, pid))
    {
      TwoDests(p, q, pid, root);
    }
    forall p | p in dests ensures Apart(p, record) && Apart(Bak(p), record) && Apart(Tmp(p, pid), record) {
      BothWays(p, Backup, record, Own, pid, root);
      BothWays(p, Temporary, record, Own, pid, root);
    }
  }
}
