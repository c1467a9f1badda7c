/** The groups of changed pixels of a mask: `boxes` works on pixels, `block_boxes` on squares of them. */
module ChangedRegions {
  import opened FloodFill

  /** A connected component: with any of its points it has exactly the points linked to it. */
  ghost predicate Component(points: set<Pt>, r: nat, group: set<Pt>) {
    && group != {} && group <= points
    && forall p, q {:trigger Linked(points, r, p, q)} :: p in group && q in points ==> (q in group <==> Linked(points, r, p, q))
  }

  ghost function Union(groups: seq<set<Pt>>): set<Pt> {
    if groups == [] then {} else Union(groups[..|groups| - 1]) + groups[|groups| - 1]
  }

  /** The groups are connected components of the points, all different, and cover `seen`. */
  ghost predicate Components(points: set<Pt>, r: nat, groups: seq<set<Pt>>, seen: set<Pt>) {
    && (forall i :: 0 <= i < |groups| ==> Component(points, r, groups[i]))
    && (forall i, j :: 0 <= i < j < |groups| ==> groups[i] !! groups[j])
    && Union(groups) == seen
  }

  lemma {:induction false} UnionHas(groups: seq<set<Pt>>, p: Pt) returns (i: nat)
    requires p in Union(groups)
    ensures i < |groups| && p in groups[i]
    decreases |groups|
  {
    if p in groups[|groups| - 1] { i := |groups| - 1; } else { i := UnionHas(groups[..|groups| - 1], p); }
  }

  lemma {:induction false} UnionHolds(groups: seq<set<Pt>>, i: nat)
    requires i < |groups|
    ensures groups[i] <= Union(groups)
    decreases |groups|
  {
    if i < |groups| - 1 { UnionHolds(groups[..|groups| - 1], i); }
  }

  /** Every point is in exactly one of the groups, and two points share it if and only if they are
      linked. */
  lemma EachInOneGroup(points: set<Pt>, r: nat, groups: seq<set<Pt>>, p: Pt) returns (i: nat)
    requires Components(points, r, groups, points) && p in points
    ensures i < |groups| && forall j :: 0 <= j < |groups| ==> (p in groups[j] <==> j == i)
    ensures forall q :: q in points ==> (q in groups[i] <==> Linked(points, r, p, q))
  {
    i := UnionHas(groups, p);
    assert Component(points, r, groups[i]);
    forall j | 0 <= j < |groups| ensures p in groups[j] <==> j == i {
      if j < i { assert groups[j] !! groups[i]; }
      if i < j { assert groups[i] !! groups[j]; }
    }
  }

  lemma OneComponent(points: set<Pt>, r: nat, start: Pt, group: set<Pt>)
    requires start in group && forall q :: q in group <==> q in points && Linked(points, r, start, q)
    ensures Component(points, r, group)
  {
    forall p, q | p in group && q in points ensures q in group <==> Linked(points, r, p, q) {
      LinkedBack(points, r, start, p);
      if Linked(points, r, p, q) { LinkedOn(points, r, start, p, q); }
      if q in group { LinkedOn(points, r, p, start, q); }
    }
  }

  lemma ComponentsMore(points: set<Pt>, r: nat, groups: seq<set<Pt>>, seen: set<Pt>, group: set<Pt>)
    requires Components(points, r, groups, seen) && group !! seen && Component(points, r, group)
    ensures Components(points, r, groups + [group], seen + group)
  {
    var more := groups + [group];
    assert more[..|groups|] == groups;
    forall i, j | 0 <= i < j < |more| ensures more[i] !! more[j] { UnionHolds(groups, i); }
  }

  // ---- boxes ----

  function Changed(mask: array2<bool>): (r: set<Pt>)
    reads mask
    ensures forall x, y :: Pt(x, y) in r <==> 0 <= x < mask.Length1 && 0 <= y < mask.Length0 && mask[y, x]
  {
    set x, y | 0 <= x < mask.Length1 && 0 <= y < mask.Length0 && mask[y, x] :: Pt(x, y)
  }

  /** Width and height of a group are those of its smallest box. */
  ghost predicate Sized(size: (int, int), group: set<Pt>) {
    exists b: Box :: Tight(b, group) && size == (b.x1 - b.x0 + 1, b.y1 - b.y0 + 1)
  }

  /** What the scan over the mask has found so far. */
  ghost predicate Found(points: set<Pt>, seen: set<Pt>, found: seq<(int, int)>, groups: seq<set<Pt>>) {
    && Closed(points, 2, seen) && Components(points, 2, groups, seen)
    && |found| == |groups| && forall i :: 0 <= i < |found| ==> Sized(found[i], groups[i])
  }

  lemma FoundMore(points: set<Pt>, seen: set<Pt>, found: seq<(int, int)>, groups: seq<set<Pt>>, start: Pt, group: set<Pt>, b: Box)
    requires Found(points, seen, found, groups) && group !! seen && start in group && Closed(points, 2, seen + group)
    requires Tight(b, group) && forall q :: q in group <==> q in points && Linked(points, 2, start, q)
    ensures Found(points, seen + group, found + [(b.x1 - b.x0 + 1, b.y1 - b.y0 + 1)], groups + [group])
  {
    OneComponent(points, 2, start, group);
    ComponentsMore(points, 2, groups, seen, group);
    assert Sized((b.x1 - b.x0 + 1, b.y1 - b.y0 + 1), group);
  }

  /** Every point before (x, y) in the scan, column by column, is seen. */
  ghost predicate SeenTo(points: set<Pt>, seen: set<Pt>, x: int, y: int) {
    forall p :: p in points && (p.x < x || (p.x == x && p.y < y)) ==> p in seen
  }

  lemma SeenMore(points: set<Pt>, was: set<Pt>, seen: set<Pt>, x: int, y: int)
    requires SeenTo(points, was, x, y) && was <= seen && (Pt(x, y) in points ==> Pt(x, y) in seen)
    ensures SeenTo(points, seen, x, y + 1)
  {
    forall p | p in points && (p.x < x || (p.x == x && p.y < y + 1)) ensures p in seen {
      if p.x == x && p.y == y { assert p == Pt(x, y); }
    }
  }

  lemma SeenColumn(points: set<Pt>, seen: set<Pt>, x: int, height: int)
    requires SeenTo(points, seen, x, height) && forall p :: p in points ==> 0 <= p.y < height
    ensures SeenTo(points, seen, x + 1, 0)
  {
  }

  lemma SeenAll(points: set<Pt>, seen: set<Pt>, width: int)
    requires SeenTo(points, seen, width, 0) && seen <= points && forall p :: p in points ==> p.x < width
    ensures seen == points
  {
  }

  /** Fills from a pixel that is not in a group yet. */
  method Visit(points: set<Pt>, start: Pt, seen: set<Pt>, found: seq<(int, int)>, ghost groups: seq<set<Pt>>)
    returns (seen': set<Pt>, found': seq<(int, int)>, ghost groups': seq<set<Pt>>)
    requires Found(points, seen, found, groups)
    ensures Found(points, seen', found', groups') && seen <= seen' && (start in points ==> start in seen')
  {
    seen', found', groups' := seen, found, groups;
    if start in points && start !in seen {
      var b, pixels;
      ghost var group;
      seen', b, pixels, group := Fill(points, 2, start, seen, p => 1);
      FoundMore(points, seen, found, groups, start, group, b);
      found', groups' := found + [(b.x1 - b.x0 + 1, b.y1 - b.y0 + 1)], groups + [group];
    }
  }

  /** The sizes are those of the connected components, one for each. */
  ghost predicate SizesOf(points: set<Pt>, found: seq<(int, int)>) {
    exists groups :: Components(points, 2, groups, points) && AllSized(found, groups)
  }

  ghost predicate AllSized(found: seq<(int, int)>, groups: seq<set<Pt>>) {
    |found| == |groups| && forall i :: 0 <= i < |found| ==> Sized(found[i], groups[i])
  }

  /** One size for each connected component of the changed pixels, two pixels apart at most. */
  method Boxes(mask: array2<bool>) returns (found: seq<(int, int)>)
    ensures SizesOf(Changed(mask), found)
  {
    ghost var groups;
    found, groups := ScanMask(mask);
    assert AllSized(found, groups);
  }

  method ScanMask(mask: array2<bool>) returns (found: seq<(int, int)>, ghost groups: seq<set<Pt>>)
    ensures Found(Changed(mask), Changed(mask), found, groups)
  {
    var points := Changed(mask);
    var seen: set<Pt> := {};
    found, groups := [], [];
    var x := 0;
    while x < mask.Length1
      invariant 0 <= x <= mask.Length1 && Found(points, seen, found, groups) && SeenTo(points, seen, x, 0)
    {
      var y := 0;
      while y < mask.Length0
        invariant 0 <= y <= mask.Length0 && Found(points, seen, found, groups) && SeenTo(points, seen, x, y)
      {
        ghost var was := seen;
        seen, found, groups := Visit(points, Pt(x, y), seen, found, groups);
        SeenMore(points, was, seen, x, y);
        y := y + 1;
      }
      SeenColumn(points, seen, x, mask.Length0);
      x := x + 1;
    }
    SeenAll(points, seen, mask.Length1);
  }

  // ---- blocks ----

  function Cell(p: Pt, block: nat): Pt
    requires block > 0
  {
    Pt(p.x / block, p.y / block)
  }

  function Cells(points: set<Pt>, block: nat): (r: set<Pt>)
    requires block > 0
    ensures forall p :: p in points ==> Cell(p, block) in r
    ensures forall c :: c in r ==> exists p :: p in points && Cell(p, block) == c
  {
    set p | p in points :: Cell(p, block)
  }

  /** The changed pixels that lie in the cells of a group. */
  function PixelsIn(points: set<Pt>, block: nat, group: set<Pt>): set<Pt>
    requires block > 0
  {
    set p | p in points && Cell(p, block) in group
  }

  function Count(points: set<Pt>, block: nat, cell: Pt): nat
    requires block > 0
  {
    |set p | p in points && Cell(p, block) == cell|
  }

  lemma {:induction false} SumOfCounts(points: set<Pt>, block: nat, group: set<Pt>)
    requires block > 0
    ensures Sum(group, c => Count(points, block, c)) == |PixelsIn(points, block, group)|
    decreases |group|
  {
    var f := c => Count(points, block, c);
    if group == {} {
      assert PixelsIn(points, block, group) == {};
    } else {
      var c :| c in group;
      SumPick(group, f, c);
      SumOfCounts(points, block, group - {c});
      var here := set p | p in points && Cell(p, block) == c;
      assert PixelsIn(points, block, group) == here + PixelsIn(points, block, group - {c});
      assert here !! PixelsIn(points, block, group - {c});
    }
  }

  ghost function Total(found: seq<(int, int, nat)>): nat {
    if found == [] then 0 else Total(found[..|found| - 1]) + found[|found| - 1].2
  }

  /** The length of a run of cells, in pixels. */
  function Span(lo: int, hi: int, block: nat): int {
    (hi - lo + 1) * block
  }

  /** A group's entry: the size of its box of cells, in pixels, and the changed pixels in it. */
  ghost predicate Measured(entry: (int, int, nat), points: set<Pt>, block: nat, group: set<Pt>)
    requires block > 0
  {
    && (exists b: Box :: Tight(b, group) && (entry.0, entry.1) == (Span(b.x0, b.x1, block), Span(b.y0, b.y1, block)))
    && entry.2 == |PixelsIn(points, block, group)|
  }

  /** What the scan over the grid has found so far. */
  ghost predicate Scanned(points: set<Pt>, block: nat, grid: set<Pt>, seen: set<Pt>, found: seq<(int, int, nat)>, groups: seq<set<Pt>>)
    requires block > 0
  {
    && Closed(grid, 1, seen) && Components(grid, 1, groups, seen)
    && |found| == |groups| && (forall i :: 0 <= i < |found| ==> Measured(found[i], points, block, groups[i]))
    && Total(found) == |PixelsIn(points, block, seen)|
  }

  lemma PixelsJoin(points: set<Pt>, block: nat, a: set<Pt>, b: set<Pt>)
    requires block > 0 && a !! b
    ensures |PixelsIn(points, block, a + b)| == |PixelsIn(points, block, a)| + |PixelsIn(points, block, b)|
  {
    assert PixelsIn(points, block, a + b) == PixelsIn(points, block, a) + PixelsIn(points, block, b);
    assert PixelsIn(points, block, a) !! PixelsIn(points, block, b);
  }

  lemma TotalMore(found: seq<(int, int, nat)>, entry: (int, int, nat))
    ensures Total(found + [entry]) == Total(found) + entry.2
  {
    assert (found + [entry])[..|found|] == found;
  }

  lemma ScannedMore(points: set<Pt>, block: nat, grid: set<Pt>, seen: set<Pt>, found: seq<(int, int, nat)>, groups: seq<set<Pt>>,
                    start: Pt, group: set<Pt>, entry: (int, int, nat))
    requires block > 0 && Scanned(points, block, grid, seen, found, groups) && group !! seen && start in group
    requires forall q :: q in group <==> q in grid && Linked(grid, 1, start, q)
    requires Closed(grid, 1, seen + group) && Measured(entry, points, block, group)
    ensures Scanned(points, block, grid, seen + group, found + [entry], groups + [group])
  {
    OneComponent(grid, 1, start, group);
    ComponentsMore(grid, 1, groups, seen, group);
    PixelsJoin(points, block, seen, group);
    TotalMore(found, entry);
  }

  lemma MeasuredBy(points: set<Pt>, block: nat, group: set<Pt>, b: Box, pixels: nat)
    requires block > 0 && Tight(b, group) && pixels == Sum(group, c => Count(points, block, c))
    ensures Measured((Span(b.x0, b.x1, block), Span(b.y0, b.y1, block), pixels), points, block, group)
  {
    SumOfCounts(points, block, group);
  }

  /** Fills one group of cells and measures it. */
  method FillCells(points: set<Pt>, block: nat, grid: set<Pt>, start: Pt, seen: set<Pt>)
    returns (seen': set<Pt>, entry: (int, int, nat), ghost group: set<Pt>)
    requires block > 0 && start in grid && start !in seen && Closed(grid, 1, seen)
    ensures seen' == seen + group && group !! seen && Closed(grid, 1, seen')
    ensures start in group && forall q :: q in group <==> q in grid && Linked(grid, 1, start, q)
    ensures Measured(entry, points, block, group)
  {
    var b, pixels;
    seen', b, pixels, group := Fill(grid, 1, start, seen, c => Count(points, block, c));
    MeasuredBy(points, block, group, b, pixels);
    entry := (Span(b.x0, b.x1, block), Span(b.y0, b.y1, block), pixels);
  }

  /** The entries are those of the connected components of the blocks, one for each. */
  ghost predicate EntriesOf(points: set<Pt>, block: nat, found: seq<(int, int, nat)>)
    requires block > 0
  {
    exists groups :: Components(Cells(points, block), 1, groups, Cells(points, block)) && AllMeasured(found, points, block, groups)
  }

  ghost predicate AllMeasured(found: seq<(int, int, nat)>, points: set<Pt>, block: nat, groups: seq<set<Pt>>)
    requires block > 0
  {
    |found| == |groups| && forall i :: 0 <= i < |found| ==> Measured(found[i], points, block, groups[i])
  }

  /** One entry for each connected component of the blocks with a change; the counts add up to the
      number of changed pixels. */
  method BlockBoxes(mask: array2<bool>, block: nat) returns (found: seq<(int, int, nat)>)
    requires block > 0
    ensures EntriesOf(Changed(mask), block, found) && Total(found) == |Changed(mask)|
  {
    var points := Changed(mask);
    var grid := Cells(points, block);
    var gh, gw := (mask.Length0 + block - 1) / block, (mask.Length1 + block - 1) / block;
    assert forall c :: c in grid ==> 0 <= c.x < gw && 0 <= c.y < gh by {
      forall c | c in grid ensures 0 <= c.x < gw && 0 <= c.y < gh { InGrid(mask, block, c); }
    }
    ghost var groups;
    found, groups := ScanGrid(points, block, grid, gh, gw);
    assert AllMeasured(found, points, block, groups);
    assert PixelsIn(points, block, grid) == points;
  }

  method VisitCell(points: set<Pt>, block: nat, grid: set<Pt>, start: Pt, seen: set<Pt>, found: seq<(int, int, nat)>, ghost groups: seq<set<Pt>>)
    returns (seen': set<Pt>, found': seq<(int, int, nat)>, ghost groups': seq<set<Pt>>)
    requires block > 0 && Scanned(points, block, grid, seen, found, groups)
    ensures Scanned(points, block, grid, seen', found', groups') && seen <= seen' && (start in grid ==> start in seen')
  {
    seen', found', groups' := seen, found, groups;
    if start in grid && start !in seen {
      var entry;
      ghost var group;
      seen', entry, group := FillCells(points, block, grid, start, seen);
      ScannedMore(points, block, grid, seen, found, groups, start, group, entry);
      found', groups' := found + [entry], groups + [group];
    }
  }

  /** Every cell before (x, y) in the scan, row by row, is seen. */
  ghost predicate SeenRows(grid: set<Pt>, seen: set<Pt>, x: int, y: int) {
    forall c :: c in grid && (c.y < y || (c.y == y && c.x < x)) ==> c in seen
  }

  lemma SeenRowMore(grid: set<Pt>, was: set<Pt>, seen: set<Pt>, x: int, y: int)
    requires SeenRows(grid, was, x, y) && was <= seen && (Pt(x, y) in grid ==> Pt(x, y) in seen)
    ensures SeenRows(grid, seen, x + 1, y)
  {
    forall c | c in grid && (c.y < y || (c.y == y && c.x < x + 1)) ensures c in seen {
      if c.y == y && c.x == x { assert c == Pt(x, y); }
    }
  }

  lemma SeenRow(grid: set<Pt>, seen: set<Pt>, width: int, y: int)
    requires SeenRows(grid, seen, width, y) && forall c :: c in grid ==> 0 <= c.x < width
    ensures SeenRows(grid, seen, 0, y + 1)
  {
  }

  lemma SeenAllRows(grid: set<Pt>, seen: set<Pt>, height: int)
    requires SeenRows(grid, seen, 0, height) && seen <= grid && forall c :: c in grid ==> c.y < height
    ensures seen == grid
  {
  }

  method ScanGrid(points: set<Pt>, block: nat, grid: set<Pt>, gh: int, gw: int)
    returns (found: seq<(int, int, nat)>, ghost groups: seq<set<Pt>>)
    requires block > 0 && 0 <= gh && 0 <= gw && forall c :: c in grid ==> 0 <= c.x < gw && 0 <= c.y < gh
    ensures Scanned(points, block, grid, grid, found, groups)
  {
    var seen: set<Pt> := {};
    found, groups := [], [];
    assert PixelsIn(points, block, {}) == {};
    var gy := 0;
    while gy < gh
      invariant 0 <= gy <= gh && Scanned(points, block, grid, seen, found, groups) && SeenRows(grid, seen, 0, gy)
    {
      var gx := 0;
      while gx < gw
        invariant 0 <= gx <= gw && Scanned(points, block, grid, seen, found, groups) && SeenRows(grid, seen, gx, gy)
      {
        ghost var was := seen;
        seen, found, groups := VisitCell(points, block, grid, Pt(gx, gy), seen, found, groups);
        SeenRowMore(grid, was, seen, gx, gy);
        gx := gx + 1;
      }
      SeenRow(grid, seen, gw, gy);
      gy := gy + 1;
    }
    SeenAllRows(grid, seen, gh);
  }

  lemma InGrid(mask: array2<bool>, block: nat, c: Pt)
    requires block > 0 && c in Cells(Changed(mask), block)
    ensures 0 <= c.x < (mask.Length1 + block - 1) / block && 0 <= c.y < (mask.Length0 + block - 1) / block
  {
    var p :| p in Changed(mask) && Cell(p, block) == c;
    assert Pt(p.x, p.y) in Changed(mask);
    CeilBound(p.x, mask.Length1, block);
    CeilBound(p.y, mask.Length0, block);
  }

  lemma CeilBound(x: int, n: nat, block: nat)
    requires block > 0 && 0 <= x < n
    ensures 0 <= x / block < (n + block - 1) / block
  {
    var q := (n + block - 1) / block;
    assert (n + block - 1) < (q + 1) * block by { assert n + block - 1 == q * block + (n + block - 1) % block; }
    assert x == (x / block) * block + x % block;
    if x / block >= q { assert (x / block) * block >= q * block; }
  }

  // ---- how blocks stand to pixels ----

  lemma Scaled(k: int, block: nat)
    requires block > 0
    ensures k >= 2 ==> k * block >= 2 * block
    ensures k <= 1 ==> k * block <= block
    ensures k < 0 ==> k * block <= -(block as int)
  {
    if k >= 2 { assert (k - 2) * block >= 0; }
    if k <= 1 { assert (1 - k) * block >= 0; }
    if k < 0 { assert (-1 - k) * block >= 0; }
  }

  lemma DivStep(a: int, b: int, block: nat)
    requires block > 0 && 0 <= b - a
    ensures b - a <= block ==> b / block - a / block <= 1
    ensures b / block - a / block <= 1 ==> b - a <= 2 * block - 1
    ensures a / block <= b / block
  {
    var qa, qb := a / block, b / block;
    DivBounds(a, block);
    DivBounds(b, block);
    Scaled(qb - qa, block);
    assert (qb - qa) * block == qb * block - qa * block;
  }

  lemma AxisStep(a: int, b: int, block: nat)
    requires block > 0
    ensures -(block as int) <= a - b <= block ==> -1 <= a / block - b / block <= 1
    ensures -1 <= a / block - b / block <= 1 ==> -(2 * block - 1) <= a - b <= 2 * block - 1
  {
    if a <= b { DivStep(a, b, block); } else { DivStep(b, a, block); }
  }

  /** Pixels at most a block apart lie in neighbouring cells, and neighbouring cells hold pixels less
      than two blocks apart. */
  lemma NearCells(block: nat, p: Pt, q: Pt)
    requires block > 0
    ensures Near(block, p, q) ==> Near(1, Cell(p, block), Cell(q, block))
    ensures Near(1, Cell(p, block), Cell(q, block)) ==> Near(2 * block - 1, p, q)
  {
    AxisStep(p.x, q.x, block);
    AxisStep(p.y, q.y, block);
  }

  /** A chain of pixels no more than a block apart stays in one group of cells. */
  lemma ChainInOneGroup(points: set<Pt>, block: nat, p: Pt, q: Pt)
    requires block > 0 && Linked(points, block, p, q)
    ensures Linked(Cells(points, block), 1, Cell(p, block), Cell(q, block))
  {
    var path :| Joins(points, block, path, p, q);
    var cells := seq(|path|, i requires 0 <= i < |path| => Cell(path[i], block));
    forall i | 0 < i < |cells| ensures Near(1, cells[i - 1], cells[i]) { NearCells(block, path[i - 1], path[i]); }
    assert Joins(Cells(points, block), 1, cells, Cell(p, block), Cell(q, block));
  }

  lemma DivBounds(x: int, block: nat)
    requires block > 0
    ensures (x / block) * block <= x <= (x / block) * block + block - 1
  {
  }

  /** The part of the first and of the last block that lies outside the pixels. */
  function Slack(lo: int, hi: int, block: nat): int
    requires block > 0
  {
    lo % block + (block - 1 - hi % block)
  }

  lemma ModIs(x: int, q: int, block: nat)
    requires block > 0 && q * block <= x <= q * block + block - 1
    ensures x % block == x - q * block
  {
    var r := x - q * block;
    DivBounds(x, block);
    var k := x / block - q;
    assert k * block == (x / block) * block - q * block;
    if k >= 1 { assert (k - 1) * block >= 0; }
    if k <= -1 { assert (-1 - k) * block >= 0; }
  }

  lemma AxisSlack(lo: int, hi: int, x0: int, x1: int, block: nat)
    requires block > 0 && lo * block <= x0 <= lo * block + block - 1 && hi * block <= x1 <= hi * block + block - 1
    ensures Span(lo, hi, block) == x1 - x0 + 1 + Slack(x0, x1, block) && 0 <= Slack(x0, x1, block) <= 2 * (block - 1)
  {
    SpanIs(lo, hi, block);
    ModIs(x0, lo, block);
    ModIs(x1, hi, block);
  }

  /** The size given for a group is its pixels' own plus what its outer blocks hold beside them: never
      smaller, and larger by less than a block on each side. */
  lemma SizeWithinBlocks(points: set<Pt>, block: nat, group: set<Pt>, b: Box, pixels: Box)
    requires block > 0 && group <= Cells(points, block) && Tight(b, group) && Tight(pixels, PixelsIn(points, block, group))
    ensures Span(b.x0, b.x1, block) == pixels.x1 - pixels.x0 + 1 + Slack(pixels.x0, pixels.x1, block)
    ensures Span(b.y0, b.y1, block) == pixels.y1 - pixels.y0 + 1 + Slack(pixels.y0, pixels.y1, block)
    ensures 0 <= Slack(pixels.x0, pixels.x1, block) <= 2 * (block - 1) && 0 <= Slack(pixels.y0, pixels.y1, block) <= 2 * (block - 1)
  {
    SidesWithin(points, block, group, b, pixels);
    AxisSlack(b.x0, b.x1, pixels.x0, pixels.x1, block);
    AxisSlack(b.y0, b.y1, pixels.y0, pixels.y1, block);
  }

  /** The size is right to within one block if and only if, on each axis, the pixels leave no more than
      a block of their first and last blocks empty. */
  lemma WithinOneBlockIff(points: set<Pt>, block: nat, group: set<Pt>, b: Box, pixels: Box)
    requires block > 0 && group <= Cells(points, block) && Tight(b, group) && Tight(pixels, PixelsIn(points, block, group))
    ensures Span(b.x0, b.x1, block) - (pixels.x1 - pixels.x0 + 1) <= block <==> pixels.x0 % block + (block - 1 - pixels.x1 % block) <= block
    ensures Span(b.y0, b.y1, block) - (pixels.y1 - pixels.y0 + 1) <= block <==> pixels.y0 % block + (block - 1 - pixels.y1 % block) <= block
  {
    SizeWithinBlocks(points, block, group, b, pixels);
  }

  /** Two neighbouring pixels on both sides of a block's edge. */
  const EDGE := {Pt(3, 0), Pt(4, 0)}

  lemma EdgeCells()
    ensures Cells(EDGE, 4) == {Pt(0, 0), Pt(1, 0)} && PixelsIn(EDGE, 4, Cells(EDGE, 4)) == EDGE
  {
    assert Cell(Pt(3, 0), 4) == Pt(0, 0) && Cell(Pt(4, 0), 4) == Pt(1, 0);
  }

  lemma EdgeGroup(groups: seq<set<Pt>>)
    requires Components(Cells(EDGE, 4), 1, groups, Cells(EDGE, 4))
    ensures groups == [Cells(EDGE, 4)]
  {
    EdgeCells();
    var cells, a, b := Cells(EDGE, 4), Pt(0, 0), Pt(1, 0);
    assert a in cells && b in cells && Near(1, a, b);
    LinkedSelf(cells, 1, a);
    LinkedStep(cells, 1, a, a, b);
    var i := EachInOneGroup(cells, 1, groups, a);
    assert a in groups[i] && b in groups[i];
    assert Component(cells, 1, groups[i]) && groups[i] == cells;
    OnlyGroup(cells, groups, i, 0);
    if |groups| > 1 { OnlyGroup(cells, groups, i, 1); }
  }

  /** A group that has every point is the only one. */
  lemma OnlyGroup(points: set<Pt>, groups: seq<set<Pt>>, i: nat, j: nat)
    requires Components(points, 1, groups, points) && i < |groups| && j < |groups| && groups[i] == points
    ensures j == i
  {
    assert Component(points, 1, groups[j]);
    var p :| p in groups[j];
    if j < i { assert groups[j] !! groups[i]; }
    if i < j { assert groups[i] !! groups[j]; }
  }

  lemma TightOnce(b: Box, c: Box, s: set<Pt>)
    requires Tight(b, s) && Tight(c, s)
    ensures b == c
  {
  }

  lemma EdgeEntry(entry: (int, int, nat))
    requires Measured(entry, EDGE, 4, Cells(EDGE, 4))
    ensures entry == (8, 4, 2)
  {
    var cells, box := Cells(EDGE, 4), Box(0, 1, 0, 0);
    EdgeCells();
    assert Pt(0, 0) in cells && Pt(1, 0) in cells && Tight(box, cells);
    var b: Box :| Tight(b, cells) && (entry.0, entry.1) == (Span(b.x0, b.x1, 4), Span(b.y0, b.y1, 4));
    TightOnce(b, box, cells);
    assert |EDGE| == 2;
  }

  lemma EdgeBox()
    ensures Tight(Box(3, 4, 0, 0), EDGE)
  {
    assert Pt(3, 0) in EDGE && Pt(4, 0) in EDGE;
  }

  lemma OneEntry(points: set<Pt>, found: seq<(int, int, nat)>, group: set<Pt>)
    requires AllMeasured(found, points, 4, [group])
    ensures |found| == 1 && Measured(found[0], points, 4, group)
  {
  }

  /** The bound is reached: two pixels in all, given as eight pixels wide, six more than they are. */
  lemma OffBySix(found: seq<(int, int, nat)>)
    requires EntriesOf(EDGE, 4, found)
    ensures found == [(8, 4, 2)]
    ensures Tight(Box(3, 4, 0, 0), EDGE) && 8 - (4 - 3 + 1) == 6
  {
    EdgeBox();
    var groups :| Components(Cells(EDGE, 4), 1, groups, Cells(EDGE, 4)) && AllMeasured(found, EDGE, 4, groups);
    EdgeFound(found, groups);
  }

  lemma EdgeFound(found: seq<(int, int, nat)>, groups: seq<set<Pt>>)
    requires Components(Cells(EDGE, 4), 1, groups, Cells(EDGE, 4)) && AllMeasured(found, EDGE, 4, groups)
    ensures found == [(8, 4, 2)]
  {
    EdgeGroup(groups);
    OneEntry(EDGE, found, Cells(EDGE, 4));
    EdgeEntry(found[0]);
  }

  lemma SpanIs(lo: int, hi: int, block: nat)
    ensures Span(lo, hi, block) == hi * block - lo * block + block
  {
  }

  lemma Ordered(u: int, v: int, block: nat)
    requires u <= v
    ensures u * block <= v * block
  {
    assert (v - u) * block >= 0;
    assert (v - u) * block == v * block - u * block;
  }

  /** A pixel of a group lies between the sides of the group's box of cells. */
  lemma PixelInside(points: set<Pt>, block: nat, group: set<Pt>, b: Box, p: Pt)
    requires block > 0 && Tight(b, group) && p in PixelsIn(points, block, group)
    ensures b.x0 * block <= p.x <= b.x1 * block + block - 1 && b.y0 * block <= p.y <= b.y1 * block + block - 1
  {
    var c := Cell(p, block);
    DivBounds(p.x, block);
    DivBounds(p.y, block);
    Ordered(b.x0, c.x, block);
    Ordered(c.x, b.x1, block);
    Ordered(b.y0, c.y, block);
    Ordered(c.y, b.y1, block);
  }

  lemma PixelOf(points: set<Pt>, block: nat, group: set<Pt>, c: Pt) returns (p: Pt)
    requires block > 0 && group <= Cells(points, block) && c in group
    ensures p in PixelsIn(points, block, group)
    ensures c.x * block <= p.x <= c.x * block + block - 1 && c.y * block <= p.y <= c.y * block + block - 1
  {
    p :| p in points && Cell(p, block) == c;
    DivBounds(p.x, block);
    DivBounds(p.y, block);
  }

  lemma SidesWithin(points: set<Pt>, block: nat, group: set<Pt>, b: Box, pixels: Box)
    requires block > 0 && group <= Cells(points, block) && Tight(b, group) && Tight(pixels, PixelsIn(points, block, group))
    ensures b.x0 * block <= pixels.x0 <= b.x0 * block + block - 1 && b.x1 * block <= pixels.x1 <= b.x1 * block + block - 1
    ensures b.y0 * block <= pixels.y0 <= b.y0 * block + block - 1 && b.y1 * block <= pixels.y1 <= b.y1 * block + block - 1
  {
    forall p | p in PixelsIn(points, block, group)
      ensures b.x0 * block <= p.x <= b.x1 * block + block - 1 && b.y0 * block <= p.y <= b.y1 * block + block - 1
    {
      PixelInside(points, block, group, b, p);
    }
    var west :| west in group && west.x == b.x0;
    var pw := PixelOf(points, block, group, west);
    var east :| east in group && east.x == b.x1;
    var pe := PixelOf(points, block, group, east);
    var north :| north in group && north.y == b.y0;
    var pn := PixelOf(points, block, group, north);
    var south :| south in group && south.y == b.y1;
    var ps := PixelOf(points, block, group, south);
  }
}
