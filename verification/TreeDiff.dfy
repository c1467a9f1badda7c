/** Comparing two captures of a window's tree: nodes are known by their paths, and only the outermost
    of what shifted or appeared is reported. */
module TreeDiff {

  datatype Box = Box(x: real, y: real, w: real, h: real)

  datatype Flags = Flags(visible: bool, inert: bool, outOfFlow: bool, text: bool, paints: bool)

  /** `blank` tells whether a text node's text is only spaces. */
  datatype Node = Node(parent: int, title: string, box: Box, flags: Flags, blank: bool)

  type Tree = seq<Node>

  /** A parent comes before its children; -1 is no parent. */
  predicate Ordered(t: Tree) {
    forall i :: 0 <= i < |t| ==> -1 <= t[i].parent < i
  }

  // ---- signatures ----

  type Sig = seq<(string, nat)>

  /** The nodes before n with this parent and title. */
  function Count(t: Tree, n: nat, parent: int, title: string): nat
    requires n <= |t|
  {
    if n == 0 then 0 else Count(t, n - 1, parent, title) + if t[n - 1].parent == parent && t[n - 1].title == title then 1 else 0
  }

  /** The path from the root: titles with the place among siblings of the same title. */
  function SigOf(t: Tree, i: nat): (r: Sig)
    requires Ordered(t) && i < |t|
    ensures r != []
  {
    (if t[i].parent >= 0 then SigOf(t, t[i].parent) else []) + [(t[i].title, Count(t, i, t[i].parent, t[i].title))]
  }

  /** A running count of titles gives every node its signature. */
  method Signatures(t: Tree) returns (sigs: seq<Sig>)
    requires Ordered(t)
    ensures |sigs| == |t| && forall i :: 0 <= i < |t| ==> sigs[i] == SigOf(t, i)
  {
    sigs := [];
    var counts: map<(int, string), nat> := map[];
    for i := 0 to |t|
      invariant |sigs| == i && forall j :: 0 <= j < i ==> sigs[j] == SigOf(t, j)
      invariant forall p, s :: Count(t, i, p, s) == if (p, s) in counts then counts[(p, s)] else 0
    {
      var key := (t[i].parent, t[i].title);
      var at := if key in counts then counts[key] else 0;
      counts := counts[key := at + 1];
      sigs := sigs + [(if t[i].parent >= 0 then sigs[t[i].parent] else []) + [(t[i].title, at)]];
    }
  }

  lemma {:induction false} CountGrows(t: Tree, i: nat, j: nat)
    requires i < j <= |t|
    ensures Count(t, i, t[i].parent, t[i].title) < Count(t, j, t[i].parent, t[i].title)
    decreases j
  {
    if i < j - 1 { CountGrows(t, i, j - 1); }
  }

  lemma SigParts(t: Tree, i: nat)
    requires Ordered(t) && i < |t|
    ensures var s, p := SigOf(t, i), t[i].parent;
            && s[|s| - 1] == (t[i].title, Count(t, i, p, t[i].title))
            && s[..|s| - 1] == if p >= 0 then SigOf(t, p) else []
  {
  }

  /** Two nodes of a tree have different signatures. */
  lemma {:induction false} SignaturesDiffer(t: Tree, i: nat, j: nat)
    requires Ordered(t) && i < |t| && j < |t| && SigOf(t, i) == SigOf(t, j)
    ensures i == j
    decreases i
  {
    SigParts(t, i);
    SigParts(t, j);
    if t[i].parent >= 0 && t[j].parent >= 0 { SignaturesDiffer(t, t[i].parent, t[j].parent); }
    if i < j { CountGrows(t, i, j); } else if j < i { CountGrows(t, j, i); }
  }

  // ---- ancestors ----

  /** a is strictly above i. */
  predicate Above(t: Tree, a: int, i: nat)
    requires Ordered(t) && i < |t|
  {
    t[i].parent >= 0 && (t[i].parent == a || Above(t, a, t[i].parent))
  }

  function AnyAbove(t: Tree, i: nat, s: set<nat>): (r: bool)
    requires Ordered(t) && i < |t|
    ensures r <==> exists a :: a in s && Above(t, a, i)
  {
    t[i].parent >= 0 && (t[i].parent in s || AnyAbove(t, t[i].parent, s))
  }

  lemma {:induction false} AboveRange(t: Tree, a: int, i: nat)
    requires Ordered(t) && i < |t| && Above(t, a, i)
    ensures 0 <= a < i
    decreases i
  {
    if t[i].parent != a { AboveRange(t, a, t[i].parent); }
  }

  lemma {:induction false} AboveOn(t: Tree, a: int, b: nat, i: nat)
    requires Ordered(t) && i < |t| && b < |t| && Above(t, a, b) && Above(t, b, i)
    ensures Above(t, a, i)
    decreases i
  {
    if t[i].parent != b { AboveOn(t, a, b, t[i].parent); }
  }

  /** Where a signature of one tree is found, those of its ancestors are found too. */
  lemma {:induction false} SigsAbove(t: Tree, i: nat, u: Tree, k: nat, a: nat) returns (b: nat)
    requires Ordered(t) && Ordered(u) && i < |t| && k < |u| && SigOf(t, i) == SigOf(u, k) && Above(t, a, i)
    ensures a < |t| && b < |u| && SigOf(u, b) == SigOf(t, a) && Above(u, b, k)
    decreases i
  {
    SigParts(t, i);
    SigParts(u, k);
    var p := t[i].parent;
    assert u[k].parent >= 0;
    if p == a {
      b := u[k].parent;
    } else {
      b := SigsAbove(t, p, u, u[k].parent, a);
    }
  }

  // ---- the tests ----

  const TOLERANCE := 1.0
  const MIN_SIZE := 16.0
  const PLAIN := {"row", "column", "element", "text"}

  predicate InLayout(t: Tree, i: nat)
    requires Ordered(t) && i < |t|
  {
    t[i].flags.visible && !t[i].flags.inert && InFlow(t, i)
  }

  /** Neither the node nor any above it is taken out of the flow. */
  predicate InFlow(t: Tree, i: nat)
    requires Ordered(t) && i < |t|
  {
    !t[i].flags.outOfFlow && (t[i].parent >= 0 ==> InFlow(t, t[i].parent))
  }

  predicate Comparable(n: Node) {
    n.flags.text || n.flags.paints || n.title !in PLAIN
  }

  /** The box with its origin taken from the parent's. */
  function Relative(t: Tree, i: nat): Box
    requires Ordered(t) && i < |t|
  {
    var b, p := t[i].box, t[i].parent;
    if p < 0 then b else Box(b.x - t[p].box.x, b.y - t[p].box.y, b.w, b.h)
  }

  function Abs(x: real): real { if x < 0.0 then -x else x }

  /** Whether a difference is more than the tolerance; a text's place and width along its line do not
      count. */
  predicate Differs(a: Box, b: Box, text: bool) {
    || Abs(b.y - a.y) > TOLERANCE || Abs(b.h - a.h) > TOLERANCE
    || (!text && (Abs(b.x - a.x) > TOLERANCE || Abs(b.w - a.w) > TOLERANCE))
  }

  ghost predicate Known(t: Tree, s: Sig) {
    Ordered(t) && exists k :: 0 <= k < |t| && SigOf(t, k) == s
  }

  /** A node of the last capture that is in the first at another place in its parent. */
  ghost predicate Shifted(first: Tree, last: Tree, i: nat)
    requires Ordered(first) && Ordered(last) && i < |last|
  {
    && InLayout(last, i) && Comparable(last[i])
    && exists k :: 0 <= k < |first| && SigOf(first, k) == SigOf(last, i) && InLayout(first, k)
                   && Differs(Relative(first, k), Relative(last, i), last[i].flags.text)
  }

  /** Shifted, and nothing above it is. */
  ghost predicate OutermostShift(first: Tree, last: Tree, i: nat)
    requires Ordered(first) && Ordered(last) && i < |last|
  {
    Shifted(first, last, i) && forall a: nat :: a < |last| && Above(last, a, i) ==> !Shifted(first, last, a)
  }

  /** A node large enough to speak of. */
  predicate Counts(n: Node) {
    && n.title !in PLAIN && ((n.box.w >= MIN_SIZE && n.box.h >= MIN_SIZE) || n.flags.text)
    && !(n.flags.text && n.blank)
  }

  /** A node that came with its parent already there, and with nothing above it shifted. */
  ghost predicate Appeared(first: Tree, last: Tree, i: nat)
    requires Ordered(first) && Ordered(last) && i < |last|
  {
    && InLayout(last, i) && Counts(last[i]) && !Known(first, SigOf(last, i))
    && forall a: nat :: a < |last| && Above(last, a, i) ==> Known(first, SigOf(last, a)) && !Shifted(first, last, a)
  }

  predicate Sizeable(n: Node) {
    n.title !in PLAIN && n.box.w >= MIN_SIZE && n.box.h >= MIN_SIZE
  }

  ghost predicate Disappeared(first: Tree, last: Tree, i: nat)
    requires Ordered(first) && Ordered(last) && i < |first|
  {
    && InLayout(first, i) && Sizeable(first[i]) && !Known(last, SigOf(first, i))
    && forall a: nat :: a < |first| && Above(first, a, i) ==> Known(last, SigOf(first, a))
  }

  // ---- the comparison ----

  datatype Rule = LayoutShift | Appears | TitleLate | Disappears

  datatype Finding = Finding(rule: Rule, index: nat)

  ghost predicate KnownTo(t: Tree, n: nat, s: Sig)
    requires Ordered(t) && n <= |t|
  {
    exists k: nat :: k < n && SigOf(t, k) == s
  }

  lemma KnownMore(t: Tree, i: nat, s: Sig)
    requires Ordered(t) && i < |t|
    ensures KnownTo(t, i + 1, s) <==> KnownTo(t, i, s) || SigOf(t, i) == s
  {
    if k: nat :| k < i && SigOf(t, k) == s { assert k < i + 1; }
  }

  /** The nodes of a tree by signature. */
  method BySignature(t: Tree, sigs: seq<Sig>) returns (m: map<Sig, nat>)
    requires Ordered(t) && |sigs| == |t| && forall i :: 0 <= i < |t| ==> sigs[i] == SigOf(t, i)
    ensures forall s :: s in m <==> Known(t, s)
    ensures forall s :: s in m ==> m[s] < |t| && SigOf(t, m[s]) == s
  {
    m := map[];
    for i := 0 to |t|
      invariant forall s :: s in m <==> KnownTo(t, i, s)
      invariant forall s :: s in m ==> m[s] < i && SigOf(t, m[s]) == s
    {
      forall s ensures KnownTo(t, i + 1, s) <==> KnownTo(t, i, s) || SigOf(t, i) == s { KnownMore(t, i, s); }
      m := m[sigs[i] := i];
    }
  }

  lemma {:induction false} OutermostAbove(first: Tree, last: Tree, i: nat) returns (a: nat)
    requires Ordered(first) && Ordered(last) && i < |last| && Shifted(first, last, i)
    ensures a < |last| && OutermostShift(first, last, a) && (a == i || Above(last, a, i))
    decreases i
  {
    if b: nat :| b < |last| && Above(last, b, i) && Shifted(first, last, b) {
      AboveRange(last, b, i);
      a := OutermostAbove(first, last, b);
      if a != b { AboveOn(last, a, b, i); }
    } else {
      a := i;
    }
  }

  lemma ShiftedAt(first: Tree, last: Tree, i: nat, k: nat)
    requires Ordered(first) && Ordered(last) && i < |last| && k < |first| && SigOf(first, k) == SigOf(last, i)
    ensures Shifted(first, last, i) <==> InLayout(last, i) && Comparable(last[i]) && InLayout(first, k)
                                         && Differs(Relative(first, k), Relative(last, i), last[i].flags.text)
  {
    forall j: nat | j < |first| && SigOf(first, j) == SigOf(last, i) ensures j == k { SignaturesDiffer(first, j, k); }
  }

  ghost predicate Increasing(ns: seq<nat>) {
    forall i, j :: 0 <= i < j < |ns| ==> ns[i] < ns[j]
  }

  ghost predicate NoRepeats(fs: seq<Finding>) {
    forall i, j :: 0 <= i < j < |fs| ==> fs[i] != fs[j]
  }

  lemma {:induction false} AllOnce(rule: Rule, ns: seq<nat>)
    requires Increasing(ns)
    ensures NoRepeats(All(rule, ns))
  {
    if ns != [] {
      AllOnce(rule, ns[1..]);
      Joined([Finding(rule, ns[0])], All(rule, ns[1..]));
    }
  }

  lemma {:induction false} AllNamedOnce(t: Tree, ns: seq<nat>)
    requires Increasing(ns) && forall i :: i in ns ==> i < |t|
    ensures NoRepeats(AllNamed(t, ns))
  {
    if ns != [] {
      assert ns[0] in ns && forall i :: i in ns[1..] ==> i in ns;
      AllNamedOnce(t, ns[1..]);
      Joined([Finding(Named(t, ns[0]), ns[0])], AllNamed(t, ns[1..]));
    }
  }

  lemma Joined(a: seq<Finding>, b: seq<Finding>)
    requires NoRepeats(a) && NoRepeats(b) && forall f :: f in a ==> f !in b
    ensures NoRepeats(a + b)
  {
    var c := a + b;
    forall i, j | 0 <= i < j < |c| ensures c[i] != c[j] {
      if i < |a| && j >= |a| { assert a[i] in a && b[j - |a|] in b; }
    }
  }

  lemma CollectOnce(last: Tree, shifts: seq<nat>, came: seq<nat>, went: seq<nat>)
    requires (forall i :: i in came ==> i < |last|) && Increasing(shifts) && Increasing(came) && Increasing(went)
    ensures NoRepeats(Collect(last, shifts, came, went))
  {
    AllOnce(LayoutShift, shifts);
    AllOnce(Disappears, went);
    AllNamedOnce(last, came);
    Joined(All(LayoutShift, shifts), AllNamed(last, came));
    Joined(All(LayoutShift, shifts) + AllNamed(last, came), All(Disappears, went));
  }

  /** The shifts, in order. */
  method Shifts(first: Tree, last: Tree, sigs: seq<Sig>, before: map<Sig, nat>) returns (reported: set<nat>, found: seq<nat>)
    requires Ordered(first) && Ordered(last)
    requires |sigs| == |last| && forall i :: 0 <= i < |last| ==> sigs[i] == SigOf(last, i)
    requires (forall s :: s in before <==> Known(first, s)) && forall s :: s in before ==> before[s] < |first| && SigOf(first, before[s]) == s
    ensures forall i: nat :: i in reported <==> i < |last| && OutermostShift(first, last, i)
    ensures (forall i :: i in found <==> i in reported) && Increasing(found)
  {
    reported, found := {}, [];
    for i := 0 to |last|
      invariant Increasing(found) && forall k :: 0 <= k < |found| ==> found[k] < i
      invariant forall j: nat :: j in reported <==> j < i && OutermostShift(first, last, j)
      invariant forall j :: j in found <==> j in reported
    {
      var shifted := ShiftedNow(first, last, i, sigs[i], before);
      if shifted {
        SkipIff(first, last, i, reported);
        if !AnyAbove(last, i, reported) { reported, found := reported + {i}, found + [i]; }
      }
    }
  }

  method ShiftedNow(first: Tree, last: Tree, i: nat, sig: Sig, before: map<Sig, nat>) returns (shifted: bool)
    requires Ordered(first) && Ordered(last) && i < |last| && sig == SigOf(last, i)
    requires (forall s :: s in before <==> Known(first, s)) && forall s :: s in before ==> before[s] < |first| && SigOf(first, before[s]) == s
    ensures shifted <==> Shifted(first, last, i)
  {
    if !InLayout(last, i) || !Comparable(last[i]) || sig !in before { return false; }
    var k := before[sig];
    ShiftedAt(first, last, i, k);
    if !InLayout(first, k) { return false; }
    var a, b := Relative(first, k), Relative(last, i);
    shifted := Differs(a, b, last[i].flags.text);
  }

  /** A shifted node has a reported one above it if and only if it is not outermost. */
  lemma SkipIff(first: Tree, last: Tree, i: nat, reported: set<nat>)
    requires Ordered(first) && Ordered(last) && i < |last| && Shifted(first, last, i)
    requires forall j: nat :: j in reported <==> j < i && OutermostShift(first, last, j)
    ensures AnyAbove(last, i, reported) <==> !OutermostShift(first, last, i)
  {
    if !OutermostShift(first, last, i) {
      var a := OutermostAbove(first, last, i);
      AboveRange(last, a, i);
    }
  }

  /** The test that keeps a node under what shifted or appeared from being reported itself. */
  predicate UnderFinding(t: Tree, i: nat, reported: set<nat>, sigs: seq<Sig>, known: map<Sig, nat>)
    requires Ordered(t) && i < |t| && |sigs| == |t|
  {
    t[i].parent >= 0 && (t[i].parent in reported || sigs[t[i].parent] !in known || UnderFinding(t, t[i].parent, reported, sigs, known))
  }

  lemma {:induction false} UnderIff(t: Tree, i: nat, reported: set<nat>, sigs: seq<Sig>, known: map<Sig, nat>)
    requires Ordered(t) && i < |t| && |sigs| == |t|
    ensures UnderFinding(t, i, reported, sigs, known) <==> exists a: nat :: a < |t| && Above(t, a, i) && (a in reported || sigs[a] !in known)
    decreases i
  {
    var p := t[i].parent;
    if p >= 0 {
      UnderIff(t, p, reported, sigs, known);
      assert Above(t, p, i);
      if a: nat :| a < |t| && Above(t, a, p) && (a in reported || sigs[a] !in known) { assert Above(t, a, i); }
    }
  }

  /** What the second pass knows of the reported nodes: the shifts, and some of those that appeared. */
  ghost predicate ReportedSoFar(first: Tree, last: Tree, reported: set<nat>, i: nat)
    requires Ordered(first) && Ordered(last) && i <= |last|
  {
    forall j: nat :: j in reported <==> j < |last| && (OutermostShift(first, last, j) || (j < i && Appeared(first, last, j)))
  }

  lemma AppearedIff(first: Tree, last: Tree, i: nat, reported: set<nat>, sigs: seq<Sig>, known: map<Sig, nat>)
    requires Ordered(first) && Ordered(last) && i < |last| && ReportedSoFar(first, last, reported, i)
    requires |sigs| == |last| && forall j :: 0 <= j < |last| ==> sigs[j] == SigOf(last, j)
    requires forall s :: s in known <==> Known(first, s)
    ensures Appeared(first, last, i) <==>
            InLayout(last, i) && Counts(last[i]) && sigs[i] !in known && !UnderFinding(last, i, reported, sigs, known)
  {
    UnderIff(last, i, reported, sigs, known);
    if a: nat :| a < |last| && Above(last, a, i) && Shifted(first, last, a) {
      var o := OutermostAbove(first, last, a);
      if o != a { AboveOn(last, o, a, i); }
    }
  }

  method Appearances(first: Tree, last: Tree, sigs: seq<Sig>, before: map<Sig, nat>, shifts: set<nat>) returns (found: seq<nat>)
    requires Ordered(first) && Ordered(last)
    requires |sigs| == |last| && forall i :: 0 <= i < |last| ==> sigs[i] == SigOf(last, i)
    requires forall s :: s in before <==> Known(first, s)
    requires forall i: nat :: i in shifts <==> i < |last| && OutermostShift(first, last, i)
    ensures (forall i: nat :: i in found <==> i < |last| && Appeared(first, last, i)) && Increasing(found)
  {
    found := [];
    var reported: set<nat> := shifts;
    for i := 0 to |last|
      invariant Increasing(found) && forall k :: 0 <= k < |found| ==> found[k] < i
      invariant ReportedSoFar(first, last, reported, i)
      invariant forall j: nat :: j in found <==> j < i && Appeared(first, last, j)
    {
      AppearedIff(first, last, i, reported, sigs, before);
      if sigs[i] !in before && InLayout(last, i) && Counts(last[i]) && !UnderFinding(last, i, reported, sigs, before) {
        reported, found := reported + {i}, found + [i];
      }
    }
  }

  lemma DisappearedIff(first: Tree, last: Tree, i: nat, sigs: seq<Sig>, known: map<Sig, nat>)
    requires Ordered(first) && Ordered(last) && i < |first|
    requires |sigs| == |first| && forall j :: 0 <= j < |first| ==> sigs[j] == SigOf(first, j)
    requires forall s :: s in known <==> Known(last, s)
    ensures Disappeared(first, last, i) <==>
            InLayout(first, i) && Sizeable(first[i]) && sigs[i] !in known && !UnderFinding(first, i, {}, sigs, known)
  {
    UnderIff(first, i, {}, sigs, known);
  }

  method Disappearances(first: Tree, last: Tree, sigs: seq<Sig>, after: map<Sig, nat>) returns (found: seq<nat>)
    requires Ordered(first) && Ordered(last)
    requires |sigs| == |first| && forall i :: 0 <= i < |first| ==> sigs[i] == SigOf(first, i)
    requires forall s :: s in after <==> Known(last, s)
    ensures (forall i: nat :: i in found <==> i < |first| && Disappeared(first, last, i)) && Increasing(found)
  {
    found := [];
    for i := 0 to |first|
      invariant Increasing(found) && forall k :: 0 <= k < |found| ==> found[k] < i
      invariant forall j: nat :: j in found <==> j < i && Disappeared(first, last, j)
    {
      DisappearedIff(first, last, i, sigs, after);
      if sigs[i] !in after && InLayout(first, i) && Sizeable(first[i]) && !UnderFinding(first, i, {}, sigs, after) {
        found := found + [i];
      }
    }
  }

  function Named(t: Tree, i: nat): Rule
    requires i < |t|
  {
    if t[i].title == "PageHead" then TitleLate else Appears
  }

  /** The whole comparison: the outermost shifts, what appeared and what disappeared, and no more. */
  ghost predicate Found(first: Tree, last: Tree, f: Finding)
    requires Ordered(first) && Ordered(last)
  {
    match f.rule
    case LayoutShift => f.index < |last| && OutermostShift(first, last, f.index)
    case Disappears => f.index < |first| && Disappeared(first, last, f.index)
    case _ => f.index < |last| && Appeared(first, last, f.index) && f.rule == Named(last, f.index)
  }

  method Diff(first: Tree, last: Tree) returns (found: seq<Finding>)
    requires Ordered(first) && Ordered(last)
    ensures (forall f :: f in found <==> Found(first, last, f)) && NoRepeats(found)
  {
    var firstSigs := Signatures(first);
    var lastSigs := Signatures(last);
    var before := BySignature(first, firstSigs);
    var after := BySignature(last, lastSigs);
    var reported, shifts := Shifts(first, last, lastSigs, before);
    var came := Appearances(first, last, lastSigs, before, reported);
    var went := Disappearances(first, last, firstSigs, after);
    CollectOnce(last, shifts, came, went);
    found := Collect(last, shifts, came, went);
  }

  function Collect(last: Tree, shifts: seq<nat>, came: seq<nat>, went: seq<nat>): (r: seq<Finding>)
    requires forall i :: i in came ==> i < |last|
    ensures forall f :: f in r <==> || (f.rule == LayoutShift && f.index in shifts) || (f.rule == Disappears && f.index in went)
                                    || (f.index in came && f.rule == Named(last, f.index))
  {
    All(LayoutShift, shifts) + AllNamed(last, came) + All(Disappears, went)
  }

  function All(rule: Rule, ns: seq<nat>): (r: seq<Finding>)
    ensures forall f :: f in r <==> f.rule == rule && f.index in ns
  {
    if ns == [] then [] else [Finding(rule, ns[0])] + All(rule, ns[1..])
  }

  function AllNamed(t: Tree, ns: seq<nat>): (r: seq<Finding>)
    requires forall i :: i in ns ==> i < |t|
    ensures forall f :: f in r <==> f.index in ns && f.rule == Named(t, f.index)
  {
    if ns == [] then [] else
    assert ns[0] in ns && forall i :: i in ns[1..] ==> i in ns;
    [Finding(Named(t, ns[0]), ns[0])] + AllNamed(t, ns[1..])
  }

  // ---- what the findings say ----

  /** No reported shift or appearance lies below another. */
  lemma Antichain(first: Tree, last: Tree, i: nat, a: nat)
    requires Ordered(first) && Ordered(last) && i < |last| && a < |last| && Above(last, a, i)
    requires OutermostShift(first, last, i) || Appeared(first, last, i)
    ensures !OutermostShift(first, last, a) && !Appeared(first, last, a)
  {
    if Appeared(first, last, a) && OutermostShift(first, last, i) {
      var k :| 0 <= k < |first| && SigOf(first, k) == SigOf(last, i);
      var b := SigsAbove(last, i, first, k, a);
      assert false;
    }
  }

  /** A capture compared with itself gives nothing. */
  lemma SelfDiff(t: Tree, f: Finding)
    requires Ordered(t)
    ensures !Found(t, t, f)
  {
    forall i: nat | i < |t| ensures Known(t, SigOf(t, i)) && !Shifted(t, t, i) { ShiftedAt(t, t, i, i); }
  }

  /** The tree with the subtree of r moved as a whole. */
  ghost predicate MovedSubtree(first: Tree, last: Tree, r: nat, dx: real, dy: real)
    requires Ordered(first)
  {
    && |last| == |first| && r < |first|
    && forall i: nat :: i < |first| ==>
                          last[i] == if i == r || Above(first, r, i)
                                     then first[i].(box := first[i].box.(x := first[i].box.x + dx, y := first[i].box.y + dy))
                                     else first[i]
  }

  lemma {:induction false} SameCounts(t: Tree, u: Tree, n: nat, p: int, s: string)
    requires |t| == |u| && n <= |t| && forall i :: 0 <= i < |t| ==> t[i].parent == u[i].parent && t[i].title == u[i].title
    ensures Count(t, n, p, s) == Count(u, n, p, s)
  {
    if n > 0 { SameCounts(t, u, n - 1, p, s); }
  }

  lemma {:induction false} SameSigs(t: Tree, u: Tree, i: nat)
    requires Ordered(t) && Ordered(u) && |t| == |u| && i < |t|
    requires forall i :: 0 <= i < |t| ==> t[i].parent == u[i].parent && t[i].title == u[i].title
    ensures SigOf(t, i) == SigOf(u, i)
    decreases i
  {
    SameCounts(t, u, i, t[i].parent, t[i].title);
    if t[i].parent >= 0 { SameSigs(t, u, t[i].parent); }
  }

  lemma MoveKeepsSigs(first: Tree, last: Tree, r: nat, dx: real, dy: real)
    requires Ordered(first) && Ordered(last) && MovedSubtree(first, last, r, dx, dy)
    ensures forall i: nat :: i < |first| ==> SigOf(first, i) == SigOf(last, i)
  {
    forall i: nat | i < |first| ensures SigOf(first, i) == SigOf(last, i) { SameSigs(first, last, i); }
  }

  lemma OnlyRootShifts(first: Tree, last: Tree, r: nat, dx: real, dy: real, i: nat)
    requires Ordered(first) && Ordered(last) && MovedSubtree(first, last, r, dx, dy) && i < |last| && i != r
    requires SigOf(first, i) == SigOf(last, i)
    ensures !Shifted(first, last, i)
  {
    ShiftedAt(first, last, i, i);
    RelativeKept(first, last, r, dx, dy, i);
  }

  /** Moving one whole subtree gives at most one finding: its root's shift. */
  lemma RigidMove(first: Tree, last: Tree, r: nat, dx: real, dy: real, f: Finding)
    requires Ordered(first) && Ordered(last) && MovedSubtree(first, last, r, dx, dy) && Found(first, last, f)
    ensures f == Finding(LayoutShift, r)
  {
    MoveKeepsSigs(first, last, r, dx, dy);
    var i := f.index;
    assert i < |first| && SigOf(first, i) == SigOf(last, i);
    assert Known(first, SigOf(last, i)) && Known(last, SigOf(first, i));
    if i != r { OnlyRootShifts(first, last, r, dx, dy, i); }
  }

  lemma RelativeKept(first: Tree, last: Tree, r: nat, dx: real, dy: real, i: nat)
    requires Ordered(first) && Ordered(last) && MovedSubtree(first, last, r, dx, dy) && i < |first| && i != r
    ensures Relative(first, i) == Relative(last, i)
  {
    var p := first[i].parent;
    assert last[i].parent == p;
    if p >= 0 { assert Above(first, r, i) <==> p == r || Above(first, r, p); }
  }
}
