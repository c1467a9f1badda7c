/** Matching the edges of one frame to those of the next: greedy, cheapest displacement first. */
module EdgeMatching {
  import opened Basics

  datatype Kind = H | V | T

  datatype Edge = Edge(kind: Kind, y0: int, x0: int, y1: int, x1: int)

  /** The edges a frame's detector gives: a horizontal rule has no height and a vertical one no width. */
  predicate Drawn(e: Edge) {
    (e.kind == H ==> e.y0 == e.y1) && (e.kind == V ==> e.x0 == e.x1)
  }

  function Coord(e: Edge): int { if e.kind == V then e.x0 else e.y0 }
  function Lo(e: Edge): int { if e.kind == V then e.y0 else e.x0 }
  function Hi(e: Edge): int { if e.kind == V then e.y1 else e.x1 }

  const MAX_MOVE := 160
  const NO_MATCH := 0x7FFF_FFFF_FFFF_FFFF

  predicate Compatible(a: Edge, b: Edge) {
    && a.kind == b.kind && Abs(Coord(a) - Coord(b)) <= MAX_MOVE
    && Abs(Lo(a) - Lo(b)) <= MAX_MOVE && Abs(Hi(a) - Hi(b)) <= MAX_MOVE
  }

  function Cost(a: Edge, b: Edge): nat {
    if Compatible(a, b) then 2 * Abs(Coord(a) - Coord(b)) + Abs(Lo(a) - Lo(b)) + Abs(Hi(a) - Hi(b)) else NO_MATCH
  }

  lemma CostTells(a: Edge, b: Edge)
    ensures Cost(a, b) == NO_MATCH <==> !Compatible(a, b)
    ensures Compatible(a, b) ==> Cost(a, b) <= 4 * MAX_MOVE
  {
  }

  // ---- which edges are matched ----

  /** An edge of a slider's track: another rule runs along it four to eight pixels away, over more than
      half of its length. */
  predicate TrackEdge(e: Edge, all: seq<Edge>) {
    e.kind == H && exists i :: 0 <= i < |all| && all[i].kind == H && 4 <= Abs(all[i].y0 - e.y0) <= 8
                               && 2 * (Min(all[i].x1, e.x1) - Max(all[i].x0, e.x0)) > e.x1 - e.x0
  }

  /** The edges of one frame that are left to match: not in the other frame and no slider's track. */
  function Rest(mine: seq<Edge>, theirs: seq<Edge>, n: nat): (r: seq<Edge>)
    requires n <= |mine|
    ensures forall e :: e in r ==> e in mine && e !in theirs && !TrackEdge(e, mine)
  {
    if n == 0 then [] else
    var e := mine[n - 1];
    Rest(mine, theirs, n - 1) + if e !in theirs && !TrackEdge(e, mine) then [e] else []
  }

  lemma {:induction false} RestHas(mine: seq<Edge>, theirs: seq<Edge>, n: nat, i: nat)
    requires i < n <= |mine| && mine[i] !in theirs && !TrackEdge(mine[i], mine)
    ensures mine[i] in Rest(mine, theirs, n)
    decreases n
  {
    if i < n - 1 { RestHas(mine, theirs, n - 1, i); }
  }

  // ---- matchings ----

  type Pair = (nat, nat)

  predicate InRange(a: seq<Edge>, b: seq<Edge>, p: Pair) {
    p.0 < |a| && p.1 < |b|
  }

  function PairCost(a: seq<Edge>, b: seq<Edge>, p: Pair): nat
    requires InRange(a, b, p)
  {
    Cost(a[p.0], b[p.1])
  }

  ghost predicate AllInRange(a: seq<Edge>, b: seq<Edge>, ps: seq<Pair>) {
    forall k :: 0 <= k < |ps| ==> InRange(a, b, ps[k])
  }

  /** Every pair of edges, the cheapest first; equally cheap ones come in any order. */
  ghost predicate Argsort(a: seq<Edge>, b: seq<Edge>, order: seq<Pair>) {
    && AllInRange(a, b, order)
    && (forall p :: InRange(a, b, p) ==> p in order)
    && (forall k, l :: 0 <= k < l < |order| ==> PairCost(a, b, order[k]) <= PairCost(a, b, order[l]))
  }

  /** Pairs of compatible edges, each edge in one of them at most. */
  ghost predicate OneToOne(a: seq<Edge>, b: seq<Edge>, ms: seq<Pair>) {
    && AllInRange(a, b, ms) && (forall k :: 0 <= k < |ms| ==> Compatible(a[ms[k].0], b[ms[k].1]))
    && (forall k, l :: 0 <= k < l < |ms| ==> ms[k].0 != ms[l].0 && ms[k].1 != ms[l].1)
  }

  /** The pair is matched, or one of its ends is matched elsewhere at no greater cost. */
  ghost predicate Settled(a: seq<Edge>, b: seq<Edge>, ms: seq<Pair>, p: Pair)
    requires InRange(a, b, p) && AllInRange(a, b, ms)
  {
    exists k :: 0 <= k < |ms| && (ms[k].0 == p.0 || ms[k].1 == p.1) && PairCost(a, b, ms[k]) <= PairCost(a, b, p)
  }

  ghost predicate Stable(a: seq<Edge>, b: seq<Edge>, ms: seq<Pair>)
    requires AllInRange(a, b, ms)
  {
    forall p: Pair :: InRange(a, b, p) && Compatible(a[p.0], b[p.1]) ==> Settled(a, b, ms, p)
  }

  // ---- what is reported ----

  datatype Report = Report(moved: bool, dc: int, dlo: int, dhi: int, a: Edge, b: Edge)

  /** What a match reports: a move, a resize, or nothing. */
  function Reported(a: Edge, b: Edge): seq<Report> {
    var dc, dlo, dhi := Coord(b) - Coord(a), Lo(b) - Lo(a), Hi(b) - Hi(a);
    if dc != 0 then [Report(true, dc, dlo, dhi, a, b)]
    else if dlo != 0 || dhi != 0 then [Report(false, dc, dlo, dhi, a, b)]
    else []
  }

  ghost function AllReported(a: seq<Edge>, b: seq<Edge>, ms: seq<Pair>): seq<Report>
    requires AllInRange(a, b, ms)
  {
    if ms == [] then [] else
    var n := |ms| - 1;
    AllReported(a, b, ms[..n]) + Reported(a[ms[n].0], b[ms[n].1])
  }

  /** Two matched edges of which neither is in the other frame go unreported if and only if they are
      text bands that differ in their lower end alone. */
  lemma UnreportedIff(a: Edge, b: Edge)
    requires Drawn(a) && Drawn(b) && Compatible(a, b) && a != b
    ensures Reported(a, b) == [] <==> a.kind == T && b == a.(y1 := b.y1)
  {
  }

  /** Such a match: the band grew by ten pixels downwards and nothing is reported. */
  lemma UnreportedExample()
    ensures var a, b := Edge(T, 0, 0, 10, 30), Edge(T, 0, 0, 20, 30);
            Drawn(a) && Drawn(b) && Compatible(a, b) && a != b && Reported(a, b) == []
  {
  }

  // ---- the greedy loop ----

  ghost function Firsts(ms: seq<Pair>): set<nat> { set l | 0 <= l < |ms| :: ms[l].0 }
  ghost function Seconds(ms: seq<Pair>): set<nat> { set l | 0 <= l < |ms| :: ms[l].1 }

  /** After k pairs of the order: those are settled, and no match costs more than a pair to come. */
  ghost predicate Greedy(a: seq<Edge>, b: seq<Edge>, order: seq<Pair>, k: nat, ms: seq<Pair>)
    requires k <= |order| && AllInRange(a, b, order)
  {
    && OneToOne(a, b, ms)
    && (forall l, q :: 0 <= l < |ms| && k <= q < |order| ==> PairCost(a, b, ms[l]) <= PairCost(a, b, order[q]))
    && (forall q :: 0 <= q < k ==> Settled(a, b, ms, order[q]))
  }

  lemma {:induction false} SettledMore(a: seq<Edge>, b: seq<Edge>, ms: seq<Pair>, p: Pair, m: Pair)
    requires InRange(a, b, p) && InRange(a, b, m) && AllInRange(a, b, ms) && Settled(a, b, ms, p)
    ensures AllInRange(a, b, ms + [m]) && Settled(a, b, ms + [m], p)
  {
    var k :| 0 <= k < |ms| && (ms[k].0 == p.0 || ms[k].1 == p.1) && PairCost(a, b, ms[k]) <= PairCost(a, b, p);
    assert (ms + [m])[k] == ms[k];
  }

  /** An edge already used was used at no greater cost. */
  lemma GreedySkip(a: seq<Edge>, b: seq<Edge>, order: seq<Pair>, k: nat, ms: seq<Pair>)
    requires k < |order| && AllInRange(a, b, order) && Greedy(a, b, order, k, ms)
    requires order[k].0 in Firsts(ms) || order[k].1 in Seconds(ms)
    ensures Greedy(a, b, order, k + 1, ms)
  {
    var l :| 0 <= l < |ms| && (ms[l].0 == order[k].0 || ms[l].1 == order[k].1);
    assert PairCost(a, b, ms[l]) <= PairCost(a, b, order[k]);
    assert Settled(a, b, ms, order[k]);
  }

  lemma UsedMore(ms: seq<Pair>, p: Pair)
    ensures Firsts(ms + [p]) == Firsts(ms) + {p.0} && Seconds(ms + [p]) == Seconds(ms) + {p.1}
  {
    var more := ms + [p];
    forall i ensures i in Firsts(more) <==> i in Firsts(ms) + {p.0} {
      if l :| 0 <= l < |ms| && ms[l].0 == i { assert more[l].0 == i; }
      assert more[|ms|] == p;
    }
    forall i ensures i in Seconds(more) <==> i in Seconds(ms) + {p.1} {
      if l :| 0 <= l < |ms| && ms[l].1 == i { assert more[l].1 == i; }
      assert more[|ms|] == p;
    }
  }

  lemma OneToOneMore(a: seq<Edge>, b: seq<Edge>, ms: seq<Pair>, p: Pair)
    requires OneToOne(a, b, ms) && InRange(a, b, p) && Compatible(a[p.0], b[p.1])
    requires p.0 !in Firsts(ms) && p.1 !in Seconds(ms)
    ensures OneToOne(a, b, ms + [p])
  {
    forall l | 0 <= l < |ms| ensures ms[l].0 != p.0 && ms[l].1 != p.1 {
      assert ms[l].0 in Firsts(ms) && ms[l].1 in Seconds(ms);
    }
  }

  lemma GreedyTake(a: seq<Edge>, b: seq<Edge>, order: seq<Pair>, k: nat, ms: seq<Pair>)
    requires k < |order| && Argsort(a, b, order) && Greedy(a, b, order, k, ms)
    requires order[k].0 !in Firsts(ms) && order[k].1 !in Seconds(ms) && Compatible(a[order[k].0], b[order[k].1])
    ensures Greedy(a, b, order, k + 1, ms + [order[k]])
  {
    var p := order[k];
    var more := ms + [p];
    OneToOneMore(a, b, ms, p);
    assert more[|ms|] == p && Settled(a, b, more, p);
    forall q | 0 <= q < k + 1 ensures Settled(a, b, more, order[q]) {
      if q < k { SettledMore(a, b, ms, order[q], p); }
    }
  }

  /** When the rest of the order has no compatible pair the matching is stable. */
  lemma GreedyDone(a: seq<Edge>, b: seq<Edge>, order: seq<Pair>, k: nat, ms: seq<Pair>)
    requires k <= |order| && Argsort(a, b, order) && Greedy(a, b, order, k, ms)
    requires k < |order| ==> PairCost(a, b, order[k]) == NO_MATCH
    ensures Stable(a, b, ms)
  {
    forall p: Pair | InRange(a, b, p) && Compatible(a[p.0], b[p.1]) ensures Settled(a, b, ms, p) {
      assert p in order;
      var q :| 0 <= q < |order| && order[q] == p;
      CostTells(a[p.0], b[p.1]);
      assert k < |order| && k < q ==> PairCost(a, b, order[k]) <= PairCost(a, b, order[q]);
    }
  }

  /** Matches two lists of edges along the given order, and reports what moved or changed extent. */
  method Match(a: seq<Edge>, b: seq<Edge>, order: seq<Pair>) returns (ms: seq<Pair>, pairs: seq<Report>)
    requires Argsort(a, b, order)
    ensures OneToOne(a, b, ms) && Stable(a, b, ms)
    ensures pairs == AllReported(a, b, ms)
  {
    ms, pairs := [], [];
    var usedA: set<nat>, usedB: set<nat> := {}, {};
    var k := 0;
    while k < |order| && PairCost(a, b, order[k]) != NO_MATCH
      invariant k <= |order| && Greedy(a, b, order, k, ms)
      invariant usedA == Firsts(ms) && usedB == Seconds(ms)
      invariant pairs == AllReported(a, b, ms)
    {
      var p := order[k];
      if p.0 in usedA || p.1 in usedB {
        GreedySkip(a, b, order, k, ms);
      } else {
        CostTells(a[p.0], b[p.1]);
        GreedyTake(a, b, order, k, ms);
        UsedMore(ms, p);
        AllReportedMore(a, b, ms, p);
        ms, pairs := ms + [p], pairs + Reported(a[p.0], b[p.1]);
        usedA, usedB := usedA + {p.0}, usedB + {p.1};
      }
      k := k + 1;
    }
    GreedyDone(a, b, order, k, ms);
  }

  lemma AllReportedMore(a: seq<Edge>, b: seq<Edge>, ms: seq<Pair>, p: Pair)
    requires AllInRange(a, b, ms) && InRange(a, b, p)
    ensures AllInRange(a, b, ms + [p]) && AllReported(a, b, ms + [p]) == AllReported(a, b, ms) + Reported(a[p.0], b[p.1])
  {
    assert (ms + [p])[..|ms|] == ms;
  }

  /** The whole comparison of two frames. `order` is the sort of the costs of what is left to match. */
  method DiffFeatures(before: seq<Edge>, after: seq<Edge>, order: seq<Pair>) returns (pairs: seq<Report>, ghost ms: seq<Pair>)
    requires Argsort(Rest(before, after, |before|), Rest(after, before, |after|), order)
    ensures var a, b := Rest(before, after, |before|), Rest(after, before, |after|);
            OneToOne(a, b, ms) && Stable(a, b, ms) && pairs == AllReported(a, b, ms)
    ensures (forall e :: e in before ==> e in after) ==> pairs == []
  {
    var a, b := Rest(before, after, |before|), Rest(after, before, |after|);
    if a == [] || b == [] { return [], []; }
    pairs, ms := [], [];
    var matched;
    matched, pairs := Match(a, b, order);
    ms := matched;
    assert a[0] in a;
  }

  // ---- ties are the only freedom ----

  /** No two compatible pairs cost the same. */
  ghost predicate NoTies(a: seq<Edge>, b: seq<Edge>) {
    forall p: Pair, q: Pair :: InRange(a, b, p) && InRange(a, b, q) && Compatible(a[p.0], b[p.1]) && PairCost(a, b, p) == PairCost(a, b, q) ==> p == q
  }

  /** A pair that one stable matching has and the other has not is kept out by a cheaper such pair. */
  lemma CheaperRival(a: seq<Edge>, b: seq<Edge>, ms: seq<Pair>, ns: seq<Pair>, p: Pair) returns (q: Pair)
    requires OneToOne(a, b, ms) && OneToOne(a, b, ns) && Stable(a, b, ns) && NoTies(a, b) && p in ms && p !in ns
    ensures InRange(a, b, p) && InRange(a, b, q) && q in ns && q !in ms && PairCost(a, b, q) < PairCost(a, b, p)
  {
    var k :| 0 <= k < |ms| && ms[k] == p;
    assert Settled(a, b, ns, p);
    var l :| 0 <= l < |ns| && (ns[l].0 == p.0 || ns[l].1 == p.1) && PairCost(a, b, ns[l]) <= PairCost(a, b, p);
    q := ns[l];
    if q in ms {
      var h :| 0 <= h < |ms| && ms[h] == q;
      assert h == k;
    }
  }

  lemma {:induction false} SameUpTo(a: seq<Edge>, b: seq<Edge>, ms: seq<Pair>, ns: seq<Pair>, c: nat, p: Pair)
    requires OneToOne(a, b, ms) && OneToOne(a, b, ns) && Stable(a, b, ms) && Stable(a, b, ns) && NoTies(a, b)
    requires InRange(a, b, p) && PairCost(a, b, p) <= c
    ensures p in ms <==> p in ns
    decreases c
  {
    if p in ms && p !in ns {
      var q := CheaperRival(a, b, ms, ns, p);
      SameUpTo(a, b, ms, ns, c - 1, q);
    } else if p in ns && p !in ms {
      var q := CheaperRival(a, b, ns, ms, p);
      SameUpTo(a, b, ms, ns, c - 1, q);
    }
  }

  /** Without ties there is one stable matching, so the order of the loop does not matter. */
  lemma OneStableMatching(a: seq<Edge>, b: seq<Edge>, ms: seq<Pair>, ns: seq<Pair>)
    requires OneToOne(a, b, ms) && OneToOne(a, b, ns) && Stable(a, b, ms) && Stable(a, b, ns) && NoTies(a, b)
    ensures forall p :: p in ms <==> p in ns
  {
    forall p ensures p in ms <==> p in ns {
      if p in ms || p in ns { SameUpTo(a, b, ms, ns, PairCost(a, b, p), p); }
    }
  }
}
