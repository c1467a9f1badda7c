/** Grouping changed pixels: a stack-driven flood fill, the box of each group and its pixel count. */
module FloodFill {
  import opened Basics

  datatype Pt = Pt(x: int, y: int)

  predicate Near(r: nat, a: Pt, b: Pt) {
    -(r as int) <= a.x - b.x <= r && -(r as int) <= a.y - b.y <= r
  }

  // ---- connected components ----

  ghost predicate IsPath(points: set<Pt>, r: nat, path: seq<Pt>) {
    && path != [] && (forall i :: 0 <= i < |path| ==> path[i] in points)
    && (forall i :: 0 < i < |path| ==> Near(r, path[i - 1], path[i]))
  }

  ghost predicate Joins(points: set<Pt>, r: nat, path: seq<Pt>, a: Pt, b: Pt) {
    IsPath(points, r, path) && path[0] == a && path[|path| - 1] == b
  }

  /** A chain of near points leads from a to b. */
  ghost predicate Linked(points: set<Pt>, r: nat, a: Pt, b: Pt) {
    exists path :: Joins(points, r, path, a, b)
  }

  /** With a point, the set has every point near it. */
  ghost predicate Closed(points: set<Pt>, r: nat, s: set<Pt>) {
    s <= points && forall a, b :: a in s && b in points && Near(r, a, b) ==> b in s
  }

  lemma LinkedSelf(points: set<Pt>, r: nat, a: Pt)
    requires a in points
    ensures Linked(points, r, a, a)
  {
    assert Joins(points, r, [a], a, a);
  }

  lemma LinkedStep(points: set<Pt>, r: nat, a: Pt, b: Pt, c: Pt)
    requires Linked(points, r, a, b) && c in points && Near(r, b, c)
    ensures Linked(points, r, a, c)
  {
    var path :| Joins(points, r, path, a, b);
    assert Joins(points, r, path + [c], a, c);
  }

  lemma LinkedBack(points: set<Pt>, r: nat, a: Pt, b: Pt)
    requires Linked(points, r, a, b)
    ensures Linked(points, r, b, a)
  {
    var path :| Joins(points, r, path, a, b);
    var n := |path|;
    var back := seq(n, i requires 0 <= i < n => path[n - 1 - i]);
    forall i | 0 < i < n ensures Near(r, back[i - 1], back[i]) { assert Near(r, path[n - 1 - i], path[n - i]); }
    assert Joins(points, r, back, b, a);
  }

  lemma LinkedOn(points: set<Pt>, r: nat, a: Pt, b: Pt, c: Pt)
    requires Linked(points, r, a, b) && Linked(points, r, b, c)
    ensures Linked(points, r, a, c)
  {
    var p :| Joins(points, r, p, a, b);
    var q :| Joins(points, r, q, b, c);
    assert Joins(points, r, p + q, a, c) by { assert Near(r, b, b); }
  }

  lemma {:induction false} ClosedPath(points: set<Pt>, r: nat, s: set<Pt>, path: seq<Pt>, i: nat)
    requires Closed(points, r, s) && IsPath(points, r, path) && path[0] in s && i < |path|
    ensures path[i] in s
  {
    if i > 0 { ClosedPath(points, r, s, path, i - 1); }
  }

  lemma ClosedHolds(points: set<Pt>, r: nat, s: set<Pt>, a: Pt, b: Pt)
    requires Closed(points, r, s) && a in s && Linked(points, r, a, b)
    ensures b in s
  {
    var path :| Joins(points, r, path, a, b);
    ClosedPath(points, r, s, path, |path| - 1);
  }

  // ---- boxes and sums ----

  datatype Box = Box(x0: int, x1: int, y0: int, y1: int)

  /** The smallest box around a set: every point is inside, and each side touches one. */
  ghost predicate Tight(b: Box, s: set<Pt>) {
    && (forall p :: p in s ==> b.x0 <= p.x <= b.x1 && b.y0 <= p.y <= b.y1)
    && (exists p :: p in s && p.x == b.x0) && (exists p :: p in s && p.x == b.x1)
    && (exists p :: p in s && p.y == b.y0) && (exists p :: p in s && p.y == b.y1)
  }

  function Widen(b: Box, p: Pt): Box {
    Box(Min(b.x0, p.x), Max(b.x1, p.x), Min(b.y0, p.y), Max(b.y1, p.y))
  }

  lemma WidenTight(b: Box, s: set<Pt>, p: Pt)
    requires Tight(b, s)
    ensures Tight(Widen(b, p), s + {p})
  {
    assert p in s + {p};
    forall q | q in s ensures q in s + {p} { }
    var a :| a in s && a.x == b.x0;
    var c :| c in s && c.x == b.x1;
    var d :| d in s && d.y == b.y0;
    var e :| e in s && e.y == b.y1;
  }

  ghost function Sum(s: set<Pt>, f: Pt -> nat): nat {
    if s == {} then 0 else
    var p :| p in s;
    f(p) + Sum(s - {p}, f)
  }

  lemma {:induction false} SumPick(s: set<Pt>, f: Pt -> nat, p: Pt)
    requires p in s
    ensures Sum(s, f) == f(p) + Sum(s - {p}, f)
    decreases |s|
  {
    var q :| q in s && Sum(s, f) == f(q) + Sum(s - {q}, f);
    if q != p {
      SumPick(s - {q}, f, p);
      SumPick(s - {p}, f, q);
      assert s - {q} - {p} == s - {p} - {q};
    }
  }

  lemma SumAdd(s: set<Pt>, f: Pt -> nat, p: Pt)
    requires p !in s
    ensures Sum(s + {p}, f) == f(p) + Sum(s, f)
  {
    SumPick(s + {p}, f, p);
    assert s + {p} - {p} == s;
  }

  // ---- the fill ----

  /** Every near point whose offset comes before (dx, dy) in the scan is seen. */
  ghost predicate ScannedTo(points: set<Pt>, r: nat, p: Pt, seen: set<Pt>, dy: int, dx: int) {
    forall q :: q in points && Near(r, p, q) && (q.y - p.y < dy || (q.y - p.y == dy && q.x - p.x < dx)) ==> q in seen
  }

  /** The points near p are seen, and those that were not before are on the stack. */
  ghost predicate Spreads(points: set<Pt>, r: nat, p: Pt, seen0: set<Pt>, stack0: seq<Pt>, seen: set<Pt>, stack: seq<Pt>) {
    && (forall q :: q in seen <==> q in seen0 || (q in points && Near(r, p, q)))
    && (forall q :: q in stack <==> q in stack0 || (q in seen && q !in seen0))
    && (forall i, j :: 0 <= i < j < |stack| ==> stack[i] != stack[j])
  }

  /** Sees every unseen point near p and puts it on the stack. */
  method Spread(points: set<Pt>, r: nat, p: Pt, seen0: set<Pt>, stack0: seq<Pt>) returns (seen: set<Pt>, stack: seq<Pt>)
    requires forall q :: q in stack0 ==> q in seen0
    requires forall i, j :: 0 <= i < j < |stack0| ==> stack0[i] != stack0[j]
    ensures Spreads(points, r, p, seen0, stack0, seen, stack)
  {
    seen, stack := seen0, stack0;
    var dy := -(r as int);
    while dy <= r
      invariant -(r as int) <= dy <= r + 1
      invariant ScannedTo(points, r, p, seen, dy, -(r as int))
      invariant Grown(points, r, p, seen0, stack0, seen, stack)
    {
      var dx := -(r as int);
      while dx <= r
        invariant -(r as int) <= dx <= r + 1
        invariant ScannedTo(points, r, p, seen, dy, dx)
        invariant Grown(points, r, p, seen0, stack0, seen, stack)
      {
        var near := Pt(p.x + dx, p.y + dy);
        if near in points && near !in seen {
          GrownMore(points, r, p, seen0, stack0, seen, stack, near);
          seen, stack := seen + {near}, stack + [near];
        }
        dx := dx + 1;
      }
      dy := dy + 1;
    }
  }

  /** The scan has only added points near p, each to both the set and the stack. */
  ghost predicate Grown(points: set<Pt>, r: nat, p: Pt, seen0: set<Pt>, stack0: seq<Pt>, seen: set<Pt>, stack: seq<Pt>) {
    && seen0 <= seen && (forall q :: q in seen ==> q in seen0 || (q in points && Near(r, p, q)))
    && (forall q :: q in stack <==> q in stack0 || (q in seen && q !in seen0))
    && (forall q :: q in stack ==> q in seen)
    && (forall i, j :: 0 <= i < j < |stack| ==> stack[i] != stack[j])
  }

  lemma GrownMore(points: set<Pt>, r: nat, p: Pt, seen0: set<Pt>, stack0: seq<Pt>, seen: set<Pt>, stack: seq<Pt>, q: Pt)
    requires Grown(points, r, p, seen0, stack0, seen, stack) && q in points && q !in seen && Near(r, p, q)
    ensures Grown(points, r, p, seen0, stack0, seen + {q}, stack + [q])
  {
    assert q !in stack;
  }

  /** What the fill knows while it runs. `before` are the groups found earlier; the points popped so
      far have all their neighbours seen. */
  ghost predicate Filling(points: set<Pt>, r: nat, start: Pt, before: set<Pt>, seen: set<Pt>, stack: seq<Pt>, popped: set<Pt>) {
    && before <= seen <= points && start in seen && start !in before
    && (forall q :: q in seen <==> q in before || q in popped || q in stack)
    && (forall q :: q in popped ==> q !in before && q !in stack)
    && (forall q :: q in stack ==> q !in before)
    && (forall q :: q in seen && q !in before ==> Linked(points, r, start, q))
    && (forall a, b :: a in popped && b in points && Near(r, a, b) ==> b in seen)
    && (forall i, j :: 0 <= i < j < |stack| ==> stack[i] != stack[j])
  }

  lemma FillStep(points: set<Pt>, r: nat, start: Pt, before: set<Pt>, seen: set<Pt>, stack: seq<Pt>, popped: set<Pt>,
                 seen': set<Pt>, stack': seq<Pt>)
    requires Filling(points, r, start, before, seen, stack, popped) && stack != [] && Closed(points, r, before)
    requires Spreads(points, r, stack[|stack| - 1], seen, Pop(stack), seen', stack')
    ensures Filling(points, r, start, before, seen', stack', popped + {stack[|stack| - 1]})
    ensures stack[|stack| - 1] !in popped
  {
    var p, rest := stack[|stack| - 1], stack[..|stack| - 1];
    assert p in stack && stack == rest + [p] && p !in rest;
    forall q | q in seen' && q !in before ensures Linked(points, r, start, q) {
      if q !in seen { LinkedStep(points, r, start, p, q); }
    }
    forall q | q in seen' && q !in seen ensures q !in before { }
  }

  /** When the stack is empty the points reached are the start's component. */
  lemma FillDone(points: set<Pt>, r: nat, start: Pt, before: set<Pt>, seen: set<Pt>, popped: set<Pt>)
    requires Filling(points, r, start, before, seen, [], popped) && Closed(points, r, before)
    ensures seen == before + popped && Closed(points, r, popped) && Closed(points, r, seen)
    ensures forall q :: q in popped <==> q in points && Linked(points, r, start, q)
  {
    forall a, b | a in popped && b in points && Near(r, a, b) ensures b in popped {
      if b in before { assert Near(r, b, a); }
    }
    forall q | q in points && Linked(points, r, start, q) ensures q in popped { ClosedHolds(points, r, popped, start, q); }
  }

  /** The fill with its box and its count: both are right for the points popped. */
  ghost predicate Round(points: set<Pt>, r: nat, start: Pt, before: set<Pt>, counts: Pt -> nat,
                        seen: set<Pt>, stack: seq<Pt>, popped: set<Pt>, box: Box, pixels: nat) {
    && Filling(points, r, start, before, seen, stack, popped)
    && Tight(box, popped + {start}) && pixels == Sum(popped, counts)
  }

  lemma RoundStart(points: set<Pt>, r: nat, start: Pt, before: set<Pt>, counts: Pt -> nat)
    requires start in points && start !in before && before <= points
    ensures Round(points, r, start, before, counts, before + {start}, [start], {}, Box(start.x, start.x, start.y, start.y), 0)
  {
    LinkedSelf(points, r, start);
  }

  lemma RoundStep(points: set<Pt>, r: nat, start: Pt, before: set<Pt>, counts: Pt -> nat,
                  seen: set<Pt>, stack: seq<Pt>, popped: set<Pt>, box: Box, pixels: nat, seen': set<Pt>, stack': seq<Pt>)
    requires Round(points, r, start, before, counts, seen, stack, popped, box, pixels) && stack != [] && Closed(points, r, before)
    requires Spreads(points, r, stack[|stack| - 1], seen, Pop(stack), seen', stack')
    ensures var p := stack[|stack| - 1];
            Round(points, r, start, before, counts, seen', stack', popped + {p}, Widen(box, p), pixels + counts(p))
    ensures |points - seen'| < |points - seen| || (|points - seen'| == |points - seen| && |stack'| < |stack|)
  {
    var p := stack[|stack| - 1];
    FillStep(points, r, start, before, seen, stack, popped, seen', stack');
    WidenTight(box, popped + {start}, p);
    SumAdd(popped, counts, p);
    assert popped + {p} + {start} == popped + {start} + {p};
    FewerLeft(points, seen, seen', stack, stack');
  }

  /** Fills from a start: the component's box and the sum of its counts. */
  method Fill(points: set<Pt>, r: nat, start: Pt, before: set<Pt>, counts: Pt -> nat)
    returns (seen: set<Pt>, box: Box, pixels: nat, ghost group: set<Pt>)
    requires start in points && start !in before && Closed(points, r, before)
    ensures seen == before + group && group !! before && Closed(points, r, seen)
    ensures start in group && group <= points && forall q :: q in group <==> q in points && Linked(points, r, start, q)
    ensures Tight(box, group) && pixels == Sum(group, counts)
  {
    seen := before + {start};
    var stack := [start];
    box, pixels, group := Box(start.x, start.x, start.y, start.y), 0, {};
    RoundStart(points, r, start, before, counts);
    while stack != []
      invariant Round(points, r, start, before, counts, seen, stack, group, box, pixels)
      decreases |points - seen|, |stack|
    {
      var p := stack[|stack| - 1];
      var seen', stack' := Spread(points, r, p, seen, Pop(stack));
      RoundStep(points, r, start, before, counts, seen, stack, group, box, pixels, seen', stack');
      box, pixels, group := Widen(box, p), pixels + counts(p), group + {p};
      seen, stack := seen', stack';
    }
    RoundEnd(points, r, start, before, counts, seen, group, box, pixels);
  }

  lemma RoundEnd(points: set<Pt>, r: nat, start: Pt, before: set<Pt>, counts: Pt -> nat,
                 seen: set<Pt>, group: set<Pt>, box: Box, pixels: nat)
    requires Round(points, r, start, before, counts, seen, [], group, box, pixels) && Closed(points, r, before)
    ensures seen == before + group && group !! before && Closed(points, r, seen)
    ensures start in group && group <= points && forall q :: q in group <==> q in points && Linked(points, r, start, q)
    ensures Tight(box, group)
  {
    FillDone(points, r, start, before, seen, group);
    assert group + {start} == group;
  }

  function Pop(stack: seq<Pt>): seq<Pt>
    requires stack != []
  {
    stack[..|stack| - 1]
  }

  /** Each round sees a new point, or leaves the stack shorter. */
  lemma FewerLeft(points: set<Pt>, seen: set<Pt>, seen': set<Pt>, stack: seq<Pt>, stack': seq<Pt>)
    requires stack != [] && seen <= seen' && (forall q :: q in seen' ==> q in seen || q in points)
    requires forall q :: q in stack' <==> q in Pop(stack) || (q in seen' && q !in seen)
    requires forall i, j :: 0 <= i < j < |stack'| ==> stack'[i] != stack'[j]
    requires forall i, j :: 0 <= i < j < |stack| ==> stack[i] != stack[j]
    ensures |points - seen'| < |points - seen| || (|points - seen'| == |points - seen| && |stack'| < |stack|)
  {
    if seen' == seen {
      SameMembers(stack', Pop(stack));
    } else {
      var q :| q in seen' && q !in seen;
      assert q in points - seen && q !in points - seen';
      assert points - seen' <= points - seen - {q};
      SubsetSize(points - seen', points - seen - {q});
    }
  }

  lemma ToSetSize(s: seq<Pt>)
    requires forall i, j :: 0 <= i < j < |s| ==> s[i] != s[j]
    ensures |set p | p in s| == |s|
    decreases |s|
  {
    if s != [] {
      var t, last := s[..|s| - 1], s[|s| - 1];
      ToSetSize(t);
      assert last !in t;
      assert (set p | p in s) == (set p | p in t) + {last};
    }
  }

  lemma SameMembers(s: seq<Pt>, t: seq<Pt>)
    requires forall q :: q in s <==> q in t
    requires forall i, j :: 0 <= i < j < |s| ==> s[i] != s[j]
    requires forall i, j :: 0 <= i < j < |t| ==> t[i] != t[j]
    ensures |s| == |t|
  {
    ToSetSize(s);
    ToSetSize(t);
    assert (set p | p in s) == (set p | p in t);
  }
}
