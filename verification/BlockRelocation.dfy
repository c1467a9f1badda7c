/** Following blocks of long rules that moved farther than edges are matched: rounds of the step that
    moves the most rules at once. */
module BlockRelocation {
  import opened Basics
  import opened EdgeMatching

  function StepOf(gone: seq<Edge>, came: seq<Edge>, p: Pair): int
    requires InRange(gone, came, p)
  {
    came[p.1].y0 - gone[p.0].y0
  }

  /** A rule that is gone and one that came could be the same rule, moved. */
  predicate Candidate(gone: seq<Edge>, came: seq<Edge>, p: Pair) {
    && InRange(gone, came, p) && Abs(StepOf(gone, came, p)) > MAX_MOVE
    && Abs(gone[p.0].x0 - came[p.1].x0) <= 2 && Abs(gone[p.0].x1 - came[p.1].x1) <= 2
  }

  predicate CandidateAt(gone: seq<Edge>, came: seq<Edge>, s: int, p: Pair) {
    Candidate(gone, came, p) && StepOf(gone, came, p) == s
  }

  // ---- candidates by step ----

  /** A place of the scan: every rule that came for one that is gone, then the next one. */
  predicate Place(gone: seq<Edge>, came: seq<Edge>, i: nat, j: nat) {
    i <= |gone| && j <= |came| && (i == |gone| ==> j == 0)
  }

  /** The candidates of a step that the scan has come by before (i, j). */
  function ListTo(gone: seq<Edge>, came: seq<Edge>, s: int, i: nat, j: nat): seq<Pair>
    requires Place(gone, came, i, j)
    decreases i, j
  {
    if j > 0 then
      ListTo(gone, came, s, i, j - 1) + if CandidateAt(gone, came, s, (i, j - 1)) then [(i, j - 1)] else []
    else if i > 0 then ListTo(gone, came, s, i - 1, |came|)
    else []
  }

  /** The steps of the candidates before (i, j), each once, in the order of their first candidates. */
  function KeysTo(gone: seq<Edge>, came: seq<Edge>, i: nat, j: nat): seq<int>
    requires Place(gone, came, i, j)
    decreases i, j
  {
    if j > 0 then
      var before := KeysTo(gone, came, i, j - 1);
      if Candidate(gone, came, (i, j - 1)) && StepOf(gone, came, (i, j - 1)) !in before
      then before + [StepOf(gone, came, (i, j - 1))] else before
    else if i > 0 then KeysTo(gone, came, i - 1, |came|)
    else []
  }

  function ListOf(gone: seq<Edge>, came: seq<Edge>, s: int): seq<Pair> {
    ListTo(gone, came, s, |gone|, 0)
  }

  function Keys(gone: seq<Edge>, came: seq<Edge>): seq<int> {
    KeysTo(gone, came, |gone|, 0)
  }

  predicate Passed(p: Pair, i: nat, j: nat) {
    p.0 < i || (p.0 == i && p.1 < j)
  }

  lemma {:induction false} ListHas(gone: seq<Edge>, came: seq<Edge>, s: int, i: nat, j: nat, p: Pair)
    requires Place(gone, came, i, j)
    ensures p in ListTo(gone, came, s, i, j) <==> CandidateAt(gone, came, s, p) && Passed(p, i, j)
    decreases i, j
  {
    if j > 0 {
      ListHas(gone, came, s, i, j - 1, p);
    } else if i > 0 {
      ListHas(gone, came, s, i - 1, |came|, p);
    }
  }

  lemma {:induction false} KeysHave(gone: seq<Edge>, came: seq<Edge>, i: nat, j: nat, s: int)
    requires Place(gone, came, i, j)
    ensures s in KeysTo(gone, came, i, j) <==> ListTo(gone, came, s, i, j) != []
    decreases i, j
  {
    if j > 0 {
      KeysHave(gone, came, i, j - 1, s);
    } else if i > 0 {
      KeysHave(gone, came, i - 1, |came|, s);
    }
  }

  /** The steps are those of the candidates. */
  lemma KeyIff(gone: seq<Edge>, came: seq<Edge>, s: int)
    ensures s in Keys(gone, came) <==> exists p: Pair :: CandidateAt(gone, came, s, p)
  {
    KeysHave(gone, came, |gone|, 0, s);
    var list := ListOf(gone, came, s);
    if list != [] {
      ListHas(gone, came, s, |gone|, 0, list[0]);
    }
    if p: Pair :| CandidateAt(gone, came, s, p) {
      ListHas(gone, came, s, |gone|, 0, p);
    }
  }

  type Steps = map<int, seq<Pair>>

  function ListAt(steps: Steps, s: int): seq<Pair> {
    if s in steps then steps[s] else []
  }

  /** The dictionary holds the lists of the scan. */
  ghost predicate GroupedTo(gone: seq<Edge>, came: seq<Edge>, keys: seq<int>, steps: Steps, i: nat, j: nat)
    requires Place(gone, came, i, j)
  {
    && keys == KeysTo(gone, came, i, j) && (forall s :: s in steps <==> s in keys)
    && forall s :: ListAt(steps, s) == ListTo(gone, came, s, i, j)
  }

  ghost predicate Grouped(gone: seq<Edge>, came: seq<Edge>, keys: seq<int>, steps: Steps) {
    GroupedTo(gone, came, keys, steps, |gone|, 0)
  }

  method GroupSteps(gone: seq<Edge>, came: seq<Edge>) returns (keys: seq<int>, steps: Steps)
    ensures Grouped(gone, came, keys, steps)
  {
    keys, steps := [], map[];
    for i := 0 to |gone|
      invariant GroupedTo(gone, came, keys, steps, i, 0)
    {
      for j := 0 to |came|
        invariant GroupedTo(gone, came, keys, steps, i, j)
      {
        var p: Pair := (i, j);
        if Candidate(gone, came, p) {
          var s := StepOf(gone, came, p);
          if s !in steps { keys := keys + [s]; }
          steps := steps[s := ListAt(steps, s) + [p]];
        }
      }
    }
  }

  // ---- one choice ----

  predicate Used(p: Pair, usedA: set<nat>, usedB: set<nat>) {
    p.0 in usedA || p.1 in usedB
  }

  function Unused(ps: seq<Pair>, usedA: set<nat>, usedB: set<nat>): (r: seq<Pair>)
    ensures forall p :: p in r <==> p in ps && !Used(p, usedA, usedB)
  {
    if ps == [] then [] else
    var p := ps[|ps| - 1];
    Unused(ps[..|ps| - 1], usedA, usedB) + if Used(p, usedA, usedB) then [] else [p]
  }

  /** The candidates whose step is within two pixels of s, the smallest step first. */
  function Window(gone: seq<Edge>, came: seq<Edge>, s: int): seq<Pair> {
    ListOf(gone, came, s - 2) + ListOf(gone, came, s - 1) + ListOf(gone, came, s)
    + ListOf(gone, came, s + 1) + ListOf(gone, came, s + 2)
  }

  function Free(gone: seq<Edge>, came: seq<Edge>, s: int, usedA: set<nat>, usedB: set<nat>): seq<Pair> {
    Unused(Window(gone, came, s), usedA, usedB)
  }

  ghost predicate FreeNear(gone: seq<Edge>, came: seq<Edge>, s: int, usedA: set<nat>, usedB: set<nat>, p: Pair) {
    Candidate(gone, came, p) && !Used(p, usedA, usedB) && -2 <= StepOf(gone, came, p) - s <= 2
  }

  lemma ListIff(gone: seq<Edge>, came: seq<Edge>, s: int, p: Pair)
    ensures p in ListOf(gone, came, s) <==> CandidateAt(gone, came, s, p)
  {
    ListHas(gone, came, s, |gone|, 0, p);
  }

  /** The free candidates near a step are those whose own step is at most two pixels off. */
  lemma FreeIff(gone: seq<Edge>, came: seq<Edge>, s: int, usedA: set<nat>, usedB: set<nat>, p: Pair)
    ensures p in Free(gone, came, s, usedA, usedB) <==> FreeNear(gone, came, s, usedA, usedB, p)
  {
    ListIff(gone, came, s - 2, p);
    ListIff(gone, came, s - 1, p);
    ListIff(gone, came, s, p);
    ListIff(gone, came, s + 1, p);
    ListIff(gone, came, s + 2, p);
  }

  predicate Meets(p: Pair, ps: seq<Pair>) {
    exists k :: 0 <= k < |ps| && (ps[k].0 == p.0 || ps[k].1 == p.1)
  }

  lemma MeetsIff(p: Pair, ps: seq<Pair>)
    ensures Meets(p, ps) <==> p.0 in Firsts(ps) || p.1 in Seconds(ps)
  {
  }

  ghost predicate Disjoint(ps: seq<Pair>) {
    forall k, l :: 0 <= k < l < |ps| ==> ps[k].0 != ps[l].0 && ps[k].1 != ps[l].1
  }

  /** The pairs among the first n that meet none taken before them. */
  function Chosen(free: seq<Pair>, n: nat): seq<Pair>
    requires n <= |free|
  {
    if n == 0 then [] else
    var before := Chosen(free, n - 1);
    if Meets(free[n - 1], before) then before else before + [free[n - 1]]
  }

  /** Takes every pair that meets none taken before it. */
  method Choose(free: seq<Pair>) returns (chosen: seq<Pair>)
    ensures chosen == Chosen(free, |free|)
  {
    chosen := [];
    var takenA: set<nat>, takenB: set<nat> := {}, {};
    for n := 0 to |free|
      invariant chosen == Chosen(free, n)
      invariant takenA == Firsts(chosen) && takenB == Seconds(chosen)
    {
      var p := free[n];
      MeetsIff(p, chosen);
      if p.0 !in takenA && p.1 !in takenB {
        UsedMore(chosen, p);
        chosen, takenA, takenB := chosen + [p], takenA + {p.0}, takenB + {p.1};
      }
    }
  }

  /** What a choice is: disjoint pairs, the first one among them, and every pair meets one of them. */
  ghost predicate ChoiceOf(free: seq<Pair>, n: nat, chosen: seq<Pair>)
    requires n <= |free|
  {
    && Disjoint(chosen) && (forall p :: p in chosen ==> p in free)
    && (forall k :: 0 <= k < n ==> Meets(free[k], chosen))
    && (n > 0 ==> chosen != [] && chosen[0] == free[0])
  }

  lemma ChosenMore(free: seq<Pair>, n: nat, chosen: seq<Pair>)
    requires n < |free| && ChoiceOf(free, n, chosen) && !Meets(free[n], chosen) && (n == 0 ==> chosen == [])
    ensures ChoiceOf(free, n + 1, chosen + [free[n]])
  {
    var more := chosen + [free[n]];
    forall l | 0 <= l < |chosen| ensures chosen[l].0 != free[n].0 && chosen[l].1 != free[n].1 { }
    assert more[|chosen|] == free[n];
    forall k | 0 <= k < n + 1 ensures Meets(free[k], more) {
      if k < n {
        assert Meets(free[k], chosen);
        var l :| 0 <= l < |chosen| && (chosen[l].0 == free[k].0 || chosen[l].1 == free[k].1);
        assert more[l] == chosen[l];
      }
    }
  }

  lemma {:induction false} ChosenIs(free: seq<Pair>, n: nat)
    requires n <= |free|
    ensures ChoiceOf(free, n, Chosen(free, n)) && (n == 0 ==> Chosen(free, n) == [])
  {
    if n > 0 {
      ChosenIs(free, n - 1);
      if !Meets(free[n - 1], Chosen(free, n - 1)) { ChosenMore(free, n - 1, Chosen(free, n - 1)); }
    }
  }

  /** Every free candidate near the step has an end in common with the first of them. */
  ghost predicate Blocked(free: seq<Pair>) {
    forall p :: p in free ==> p.0 == free[0].0 || p.1 == free[0].1
  }

  /** A choice of fewer than two means exactly that: the first pair meets all the others. */
  lemma FewerThanTwo(free: seq<Pair>)
    ensures |Chosen(free, |free|)| < 2 <==> Blocked(free)
  {
    var chosen := Chosen(free, |free|);
    ChosenIs(free, |free|);
    if |chosen| >= 2 {
      assert chosen[1] in free;
    } else {
      forall p | p in free ensures p.0 == free[0].0 || p.1 == free[0].1 {
        var k :| 0 <= k < |free| && free[k] == p;
        assert Meets(free[k], chosen);
      }
    }
  }

  /** What the choice takes at a step. */
  function Choice(gone: seq<Edge>, came: seq<Edge>, s: int, usedA: set<nat>, usedB: set<nat>): seq<Pair> {
    var free := Free(gone, came, s, usedA, usedB);
    Chosen(free, |free|)
  }

  method ChooseAt(gone: seq<Edge>, came: seq<Edge>, keys: seq<int>, steps: Steps, s: int, usedA: set<nat>, usedB: set<nat>) returns (chosen: seq<Pair>)
    requires Grouped(gone, came, keys, steps)
    ensures chosen == Choice(gone, came, s, usedA, usedB)
  {
    var window := ListAt(steps, s - 2) + ListAt(steps, s - 1) + ListAt(steps, s) + ListAt(steps, s + 1) + ListAt(steps, s + 2);
    chosen := Choose(Unused(window, usedA, usedB));
  }

  // ---- one round ----

  /** The first longest choice over the first n steps. */
  function BestTo(keys: seq<int>, choice: int -> seq<Pair>, n: nat): seq<Pair>
    requires n <= |keys|
  {
    if n == 0 then [] else
    var before := BestTo(keys, choice, n - 1);
    if |choice(keys[n - 1])| > |before| then choice(keys[n - 1]) else before
  }

  function Chooser(gone: seq<Edge>, came: seq<Edge>, usedA: set<nat>, usedB: set<nat>): int -> seq<Pair> {
    s => Choice(gone, came, s, usedA, usedB)
  }

  function Best(gone: seq<Edge>, came: seq<Edge>, usedA: set<nat>, usedB: set<nat>): seq<Pair> {
    BestTo(Keys(gone, came), Chooser(gone, came, usedA, usedB), |Keys(gone, came)|)
  }

  /** The choice function, kept apart from what it computes. */
  ghost predicate Chooses(choice: int -> seq<Pair>, gone: seq<Edge>, came: seq<Edge>, usedA: set<nat>, usedB: set<nat>) {
    forall s {:trigger Choice(gone, came, s, usedA, usedB)} :: choice(s) == Choice(gone, came, s, usedA, usedB)
  }

  method ChooseBy(gone: seq<Edge>, came: seq<Edge>, keys: seq<int>, steps: Steps, s: int, usedA: set<nat>, usedB: set<nat>, ghost choice: int -> seq<Pair>)
    returns (chosen: seq<Pair>)
    requires Grouped(gone, came, keys, steps) && Chooses(choice, gone, came, usedA, usedB)
    ensures chosen == choice(s)
  {
    chosen := ChooseAt(gone, came, keys, steps, s, usedA, usedB);
  }

  method BestBy(gone: seq<Edge>, came: seq<Edge>, keys: seq<int>, steps: Steps, usedA: set<nat>, usedB: set<nat>, ghost choice: int -> seq<Pair>)
    returns (best: seq<Pair>)
    requires Grouped(gone, came, keys, steps) && Chooses(choice, gone, came, usedA, usedB)
    ensures best == BestTo(keys, choice, |keys|)
  {
    best := [];
    for n := 0 to |keys|
      invariant best == BestTo(keys, choice, n)
    {
      var chosen := ChooseBy(gone, came, keys, steps, keys[n], usedA, usedB, choice);
      if |chosen| > |best| { best := chosen; }
    }
  }

  /** The loop over the steps. */
  method FindBest(gone: seq<Edge>, came: seq<Edge>, keys: seq<int>, steps: Steps, usedA: set<nat>, usedB: set<nat>) returns (best: seq<Pair>)
    requires Grouped(gone, came, keys, steps)
    ensures best == Best(gone, came, usedA, usedB)
  {
    best := BestBy(gone, came, keys, steps, usedA, usedB, Chooser(gone, came, usedA, usedB));
  }

  lemma {:induction false} BestToIs(keys: seq<int>, choice: int -> seq<Pair>, n: nat)
    requires n <= |keys|
    ensures forall k :: 0 <= k < n ==> |choice(keys[k])| <= |BestTo(keys, choice, n)|
    ensures BestTo(keys, choice, n) == [] || exists k :: 0 <= k < n && BestTo(keys, choice, n) == choice(keys[k])
  {
    if n > 0 {
      BestToIs(keys, choice, n - 1);
      var before := BestTo(keys, choice, n - 1);
      if |choice(keys[n - 1])| <= |before| && before != [] {
        var k :| 0 <= k < n - 1 && before == choice(keys[k]);
      }
    }
  }

  /** A round takes the choice at some candidate's step, and no candidate's step offers a longer one. */
  lemma BestIsLongest(gone: seq<Edge>, came: seq<Edge>, usedA: set<nat>, usedB: set<nat>)
    ensures forall p: Pair :: Candidate(gone, came, p) ==>
              |Choice(gone, came, StepOf(gone, came, p), usedA, usedB)| <= |Best(gone, came, usedA, usedB)|
    ensures Best(gone, came, usedA, usedB) == [] ||
            exists p: Pair :: Candidate(gone, came, p) && Best(gone, came, usedA, usedB) == Choice(gone, came, StepOf(gone, came, p), usedA, usedB)
  {
    var keys, best, choice := Keys(gone, came), Best(gone, came, usedA, usedB), Chooser(gone, came, usedA, usedB);
    BestToIs(keys, choice, |keys|);
    forall p: Pair | Candidate(gone, came, p) ensures |Choice(gone, came, StepOf(gone, came, p), usedA, usedB)| <= |best| {
      KeyIff(gone, came, StepOf(gone, came, p));
      assert CandidateAt(gone, came, StepOf(gone, came, p), p);
      var k :| 0 <= k < |keys| && keys[k] == StepOf(gone, came, p);
      assert |choice(keys[k])| <= |best|;
    }
    if best != [] {
      var k :| 0 <= k < |keys| && best == choice(keys[k]);
      KeyIff(gone, came, keys[k]);
      var p: Pair :| CandidateAt(gone, came, keys[k], p);
    }
  }

  ghost predicate AllNear(gone: seq<Edge>, came: seq<Edge>, round: seq<Pair>, s: int) {
    forall p :: p in round ==> InRange(gone, came, p) && -2 <= StepOf(gone, came, p) - s <= 2
  }

  /** A round's pairs: candidates, no end twice, none used before, all within two pixels of one step. */
  ghost predicate RoundOk(gone: seq<Edge>, came: seq<Edge>, usedA: set<nat>, usedB: set<nat>, round: seq<Pair>) {
    && Disjoint(round) && (forall p :: p in round ==> Candidate(gone, came, p) && !Used(p, usedA, usedB))
    && exists s :: AllNear(gone, came, round, s)
  }

  lemma ChoiceIsRound(gone: seq<Edge>, came: seq<Edge>, s: int, usedA: set<nat>, usedB: set<nat>)
    ensures RoundOk(gone, came, usedA, usedB, Choice(gone, came, s, usedA, usedB))
  {
    var free, round := Free(gone, came, s, usedA, usedB), Choice(gone, came, s, usedA, usedB);
    ChosenIs(free, |free|);
    forall p | p in round ensures FreeNear(gone, came, s, usedA, usedB, p) { FreeIff(gone, came, s, usedA, usedB, p); }
    assert AllNear(gone, came, round, s);
  }

  lemma BestIsRound(gone: seq<Edge>, came: seq<Edge>, usedA: set<nat>, usedB: set<nat>)
    ensures RoundOk(gone, came, usedA, usedB, Best(gone, came, usedA, usedB))
  {
    BestIsLongest(gone, came, usedA, usedB);
    if Best(gone, came, usedA, usedB) == [] {
      assert AllNear(gone, came, [], 0);
    } else {
      var p: Pair :| Candidate(gone, came, p) && Best(gone, came, usedA, usedB) == Choice(gone, came, StepOf(gone, came, p), usedA, usedB);
      ChoiceIsRound(gone, came, StepOf(gone, came, p), usedA, usedB);
    }
  }

  // ---- the rounds ----

  ghost function Flat(rounds: seq<seq<Pair>>): seq<Pair> {
    if rounds == [] then [] else Flat(rounds[..|rounds| - 1]) + rounds[|rounds| - 1]
  }

  /** The pairs of the rounds before the k-th. */
  ghost function Earlier(rounds: seq<seq<Pair>>, k: nat): seq<Pair>
    requires k <= |rounds|
  {
    Flat(rounds[..k])
  }

  /** Each round is the best there is once the pairs of the earlier ones are used, and has two pairs or
      more. */
  ghost predicate Played(gone: seq<Edge>, came: seq<Edge>, rounds: seq<seq<Pair>>) {
    forall k :: 0 <= k < |rounds| ==>
                  |rounds[k]| >= 2 && rounds[k] == Best(gone, came, Firsts(Earlier(rounds, k)), Seconds(Earlier(rounds, k)))
  }

  lemma PlayedMore(gone: seq<Edge>, came: seq<Edge>, rounds: seq<seq<Pair>>, round: seq<Pair>)
    requires Played(gone, came, rounds) && |round| >= 2 && round == Best(gone, came, Firsts(Flat(rounds)), Seconds(Flat(rounds)))
    ensures Played(gone, came, rounds + [round]) && Flat(rounds + [round]) == Flat(rounds) + round
  {
    var more := rounds + [round];
    assert more[..|rounds|] == rounds;
    forall k | 0 <= k < |rounds| ensures Earlier(more, k) == Earlier(rounds, k) { assert more[..k] == rounds[..k]; }
  }

  lemma FirstsJoin(a: seq<Pair>, b: seq<Pair>)
    ensures Firsts(a + b) == Firsts(a) + Firsts(b) && Seconds(a + b) == Seconds(a) + Seconds(b)
  {
    var c := a + b;
    forall i ensures i in Firsts(c) <==> i in Firsts(a) + Firsts(b) {
      if k :| 0 <= k < |a| && a[k].0 == i { assert c[k].0 == i; }
      if k :| 0 <= k < |b| && b[k].0 == i { assert c[|a| + k].0 == i; }
    }
    forall i ensures i in Seconds(c) <==> i in Seconds(a) + Seconds(b) {
      if k :| 0 <= k < |a| && a[k].1 == i { assert c[k].1 == i; }
      if k :| 0 <= k < |b| && b[k].1 == i { assert c[|a| + k].1 == i; }
    }
  }

  lemma DisjointJoin(a: seq<Pair>, b: seq<Pair>)
    requires Disjoint(a) && Disjoint(b) && forall p :: p in b ==> !Used(p, Firsts(a), Seconds(a))
    ensures Disjoint(a + b)
  {
    var c := a + b;
    forall k, l | 0 <= k < l < |c| ensures c[k].0 != c[l].0 && c[k].1 != c[l].1 {
      if k < |a| && l >= |a| {
        assert b[l - |a|] in b && a[k].0 in Firsts(a) && a[k].1 in Seconds(a);
      }
    }
  }

  /** Over all rounds the pairs are candidates and no end is used twice. */
  lemma {:induction false} PlayedPairs(gone: seq<Edge>, came: seq<Edge>, rounds: seq<seq<Pair>>)
    requires Played(gone, came, rounds)
    ensures Disjoint(Flat(rounds)) && forall p :: p in Flat(rounds) ==> Candidate(gone, came, p)
    decreases |rounds|
  {
    if rounds != [] {
      var n := |rounds| - 1;
      var before := rounds[..n];
      forall k | 0 <= k < n ensures Earlier(before, k) == Earlier(rounds, k) { assert before[..k] == rounds[..k]; }
      PlayedPairs(gone, came, before);
      BestIsRound(gone, came, Firsts(Flat(before)), Seconds(Flat(before)));
      DisjointJoin(Flat(before), rounds[n]);
    }
  }

  /** Every round is a block: its pairs' steps lie within two pixels of one step. */
  lemma PlayedRound(gone: seq<Edge>, came: seq<Edge>, rounds: seq<seq<Pair>>, k: nat)
    requires Played(gone, came, rounds) && k < |rounds|
    ensures RoundOk(gone, came, Firsts(Earlier(rounds, k)), Seconds(Earlier(rounds, k)), rounds[k])
  {
    BestIsRound(gone, came, Firsts(Earlier(rounds, k)), Seconds(Earlier(rounds, k)));
  }

  lemma {:induction false} FirstsSize(ps: seq<Pair>)
    requires Disjoint(ps)
    ensures |Firsts(ps)| == |ps|
    decreases |ps|
  {
    if ps != [] {
      var n := |ps| - 1;
      FirstsSize(ps[..n]);
      assert ps == ps[..n] + [ps[n]];
      UsedMore(ps[..n], ps[n]);
      assert ps[n].0 !in Firsts(ps[..n]);
    }
  }

  /** Distinct rules that are gone number no more than there are. */
  lemma FirstsBound(ps: seq<Pair>, n: nat)
    requires Disjoint(ps) && forall p :: p in ps ==> p.0 < n
    ensures |ps| <= n
  {
    FirstsSize(ps);
    forall i | i in Firsts(ps) ensures i in Below(n) {
      var k :| 0 <= k < |ps| && ps[k].0 == i;
      assert ps[k] in ps;
    }
    SubsetSize(Firsts(ps), Below(n));
  }

  ghost function Below(n: nat): (r: set<nat>)
    ensures |r| == n && forall i: nat :: i in r <==> i < n
  {
    if n == 0 then {} else Below(n - 1) + {n - 1}
  }

  function Moved(gone: seq<Edge>, came: seq<Edge>, p: Pair): Report
    requires InRange(gone, came, p)
  {
    var a, b := gone[p.0], came[p.1];
    Report(true, b.y0 - a.y0, b.x0 - a.x0, b.x1 - a.x1, a, b)
  }

  ghost function AllMoved(gone: seq<Edge>, came: seq<Edge>, ps: seq<Pair>): seq<Report>
    requires AllInRange(gone, came, ps)
  {
    seq(|ps|, k requires 0 <= k < |ps| => Moved(gone, came, ps[k]))
  }

  /** Uses up the pairs of a round and reports them. */
  method TakeAll(gone: seq<Edge>, came: seq<Edge>, best: seq<Pair>, usedA: set<nat>, usedB: set<nat>)
    returns (usedA': set<nat>, usedB': set<nat>, pairs: seq<Report>)
    requires AllInRange(gone, came, best)
    ensures usedA' == usedA + Firsts(best) && usedB' == usedB + Seconds(best)
    ensures pairs == AllMoved(gone, came, best)
  {
    usedA', usedB', pairs := usedA, usedB, [];
    for k := 0 to |best|
      invariant usedA' == usedA + Firsts(best[..k]) && usedB' == usedB + Seconds(best[..k])
      invariant pairs == AllMoved(gone, came, best[..k])
    {
      assert best[..k + 1] == best[..k] + [best[k]];
      UsedMore(best[..k], best[k]);
      usedA', usedB' := usedA' + {best[k].0}, usedB' + {best[k].1};
      pairs := pairs + [Moved(gone, came, best[k])];
    }
    assert best[..|best|] == best;
  }

  /** The rounds are over: the best that is left has fewer than two pairs. */
  ghost predicate Over(gone: seq<Edge>, came: seq<Edge>, ps: seq<Pair>) {
    |Best(gone, came, Firsts(ps), Seconds(ps))| < 2
  }

  ghost predicate Reports(gone: seq<Edge>, came: seq<Edge>, rounds: seq<seq<Pair>>, pairs: seq<Report>) {
    AllInRange(gone, came, Flat(rounds)) && pairs == AllMoved(gone, came, Flat(rounds))
  }

  lemma FlatInRange(gone: seq<Edge>, came: seq<Edge>, rounds: seq<seq<Pair>>)
    requires Played(gone, came, rounds)
    ensures AllInRange(gone, came, Flat(rounds)) && |Flat(rounds)| <= |gone|
  {
    PlayedPairs(gone, came, rounds);
    forall k | 0 <= k < |Flat(rounds)| ensures InRange(gone, came, Flat(rounds)[k]) { assert Flat(rounds)[k] in Flat(rounds); }
    FirstsBound(Flat(rounds), |gone|);
  }

  /** Pairs the rules that are gone with those that came, round by round, each the longest choice left,
      until no choice has two pairs. The rounds end: each uses up two rules or more. */
  method Relocated(gone: seq<Edge>, came: seq<Edge>) returns (pairs: seq<Report>)
    ensures exists rounds :: Played(gone, came, rounds) && Over(gone, came, Flat(rounds)) && Reports(gone, came, rounds, pairs)
    ensures pairs == [] <==> forall p: Pair :: Candidate(gone, came, p) ==> StuckAt(gone, came, StepOf(gone, came, p), {}, {})
  {
    pairs := [];
    ghost var rounds: seq<seq<Pair>> := [];
    var keys, steps := GroupSteps(gone, came);
    var usedA: set<nat>, usedB: set<nat> := {}, {};
    while true
      invariant Played(gone, came, rounds) && usedA == Firsts(Flat(rounds)) && usedB == Seconds(Flat(rounds))
      invariant Reports(gone, came, rounds, pairs) && |Flat(rounds)| <= |gone|
      decreases |gone| - |Flat(rounds)|
    {
      var best := FindBest(gone, came, keys, steps, usedA, usedB);
      if |best| < 2 { break; }
      PlayedMore(gone, came, rounds, best);
      FlatInRange(gone, came, rounds + [best]);
      FirstsJoin(Flat(rounds), best);
      BestIsRound(gone, came, usedA, usedB);
      assert AllInRange(gone, came, best) by { forall k | 0 <= k < |best| ensures InRange(gone, came, best[k]) { assert best[k] in best; } }
      var more;
      usedA, usedB, more := TakeAll(gone, came, best, usedA, usedB);
      AllMovedJoin(gone, came, Flat(rounds), best);
      pairs := pairs + more;
      rounds := rounds + [best];
    }
    assert Over(gone, came, Flat(rounds));
    NothingFoundIff(gone, came, rounds);
  }

  lemma AllMovedJoin(gone: seq<Edge>, came: seq<Edge>, a: seq<Pair>, b: seq<Pair>)
    requires AllInRange(gone, came, a) && AllInRange(gone, came, b)
    ensures AllInRange(gone, came, a + b) && AllMoved(gone, came, a + b) == AllMoved(gone, came, a) + AllMoved(gone, came, b)
  {
  }

  // ---- when the rounds end ----

  /** The order in which a window lists its candidates: by step, then by rule. */
  predicate Leads(gone: seq<Edge>, came: seq<Edge>, p: Pair, q: Pair)
    requires InRange(gone, came, p) && InRange(gone, came, q)
  {
    var s, t := StepOf(gone, came, p), StepOf(gone, came, q);
    s < t || (s == t && (p.0 < q.0 || (p.0 == q.0 && p.1 <= q.1)))
  }

  ghost predicate Ascends(gone: seq<Edge>, came: seq<Edge>, ps: seq<Pair>) {
    AllInRange(gone, came, ps) && forall k, l :: 0 <= k < l < |ps| ==> Leads(gone, came, ps[k], ps[l])
  }

  lemma AscendsJoin(gone: seq<Edge>, came: seq<Edge>, a: seq<Pair>, b: seq<Pair>)
    requires Ascends(gone, came, a) && Ascends(gone, came, b)
    requires forall k, l :: 0 <= k < |a| && 0 <= l < |b| ==> Leads(gone, came, a[k], b[l])
    ensures Ascends(gone, came, a + b)
  {
  }

  lemma {:induction false} ListAscends(gone: seq<Edge>, came: seq<Edge>, s: int, i: nat, j: nat)
    requires Place(gone, came, i, j)
    ensures Ascends(gone, came, ListTo(gone, came, s, i, j))
    decreases i, j
  {
    if j > 0 {
      var before := ListTo(gone, came, s, i, j - 1);
      ListAscends(gone, came, s, i, j - 1);
      if CandidateAt(gone, came, s, (i, j - 1)) {
        forall k | 0 <= k < |before| ensures Leads(gone, came, before[k], (i, j - 1)) {
          assert before[k] in before;
          ListHas(gone, came, s, i, j - 1, before[k]);
        }
        AscendsJoin(gone, came, before, [(i, j - 1)]);
      }
    } else if i > 0 {
      ListAscends(gone, came, s, i - 1, |came|);
    }
  }

  /** Every pair of the list has a step in the range. */
  ghost predicate StepsIn(gone: seq<Edge>, came: seq<Edge>, ps: seq<Pair>, lo: int, hi: int) {
    AllInRange(gone, came, ps) && forall k :: 0 <= k < |ps| ==> lo <= StepOf(gone, came, ps[k]) <= hi
  }

  lemma OneStep(gone: seq<Edge>, came: seq<Edge>, s: int)
    ensures Ascends(gone, came, ListOf(gone, came, s)) && StepsIn(gone, came, ListOf(gone, came, s), s, s)
  {
    var ps := ListOf(gone, came, s);
    ListAscends(gone, came, s, |gone|, 0);
    forall k | 0 <= k < |ps| ensures StepOf(gone, came, ps[k]) == s {
      assert ps[k] in ps;
      ListIff(gone, came, s, ps[k]);
    }
  }

  lemma StepJoin(gone: seq<Edge>, came: seq<Edge>, a: seq<Pair>, b: seq<Pair>, lo: int, s: int)
    requires Ascends(gone, came, a) && StepsIn(gone, came, a, lo, s - 1) && Ascends(gone, came, b) && StepsIn(gone, came, b, s, s)
    ensures Ascends(gone, came, a + b) && (lo <= s ==> StepsIn(gone, came, a + b, lo, s))
  {
    AscendsJoin(gone, came, a, b);
  }

  lemma WindowAscends(gone: seq<Edge>, came: seq<Edge>, s: int)
    ensures Ascends(gone, came, Window(gone, came, s))
  {
    OneStep(gone, came, s - 2);
    OneStep(gone, came, s - 1);
    OneStep(gone, came, s);
    OneStep(gone, came, s + 1);
    OneStep(gone, came, s + 2);
    var a := ListOf(gone, came, s - 2);
    StepJoin(gone, came, a, ListOf(gone, came, s - 1), s - 2, s - 1);
    var b := a + ListOf(gone, came, s - 1);
    StepJoin(gone, came, b, ListOf(gone, came, s), s - 2, s);
    var c := b + ListOf(gone, came, s);
    StepJoin(gone, came, c, ListOf(gone, came, s + 1), s - 2, s + 1);
    StepJoin(gone, came, c + ListOf(gone, came, s + 1), ListOf(gone, came, s + 2), s - 2, s + 2);
  }

  lemma {:induction false} UnusedAscends(gone: seq<Edge>, came: seq<Edge>, ps: seq<Pair>, usedA: set<nat>, usedB: set<nat>)
    requires Ascends(gone, came, ps)
    ensures Ascends(gone, came, Unused(ps, usedA, usedB))
    decreases |ps|
  {
    if ps != [] {
      var rest, last := ps[..|ps| - 1], ps[|ps| - 1];
      UnusedAscends(gone, came, rest, usedA, usedB);
      var kept := Unused(rest, usedA, usedB);
      forall k | 0 <= k < |kept| ensures Leads(gone, came, kept[k], last) {
        assert kept[k] in kept && kept[k] in rest;
        var l :| 0 <= l < |rest| && rest[l] == kept[k];
      }
      AscendsJoin(gone, came, kept, [last]);
    }
  }

  /** The first free candidate near a step, in the window's order. */
  ghost predicate First(gone: seq<Edge>, came: seq<Edge>, s: int, usedA: set<nat>, usedB: set<nat>, c: Pair) {
    && FreeNear(gone, came, s, usedA, usedB, c)
    && forall p: Pair :: FreeNear(gone, came, s, usedA, usedB, p) ==> Leads(gone, came, c, p)
  }

  /** Near this step the first free candidate has an end in common with every other one. */
  ghost predicate StuckAt(gone: seq<Edge>, came: seq<Edge>, s: int, usedA: set<nat>, usedB: set<nat>) {
    forall c: Pair, p: Pair :: First(gone, came, s, usedA, usedB, c) && FreeNear(gone, came, s, usedA, usedB, p) ==> p.0 == c.0 || p.1 == c.1
  }

  lemma FirstIs(gone: seq<Edge>, came: seq<Edge>, s: int, usedA: set<nat>, usedB: set<nat>)
    requires Free(gone, came, s, usedA, usedB) != []
    ensures First(gone, came, s, usedA, usedB, Free(gone, came, s, usedA, usedB)[0])
  {
    var free := Free(gone, came, s, usedA, usedB);
    WindowAscends(gone, came, s);
    UnusedAscends(gone, came, Window(gone, came, s), usedA, usedB);
    assert free[0] in free;
    FreeIff(gone, came, s, usedA, usedB, free[0]);
    forall p: Pair | FreeNear(gone, came, s, usedA, usedB, p) ensures Leads(gone, came, free[0], p) {
      FreeIff(gone, came, s, usedA, usedB, p);
      var k :| 0 <= k < |free| && free[k] == p;
    }
  }

  lemma FirstOnce(gone: seq<Edge>, came: seq<Edge>, s: int, usedA: set<nat>, usedB: set<nat>, c: Pair, d: Pair)
    requires First(gone, came, s, usedA, usedB, c) && First(gone, came, s, usedA, usedB, d)
    ensures c == d
  {
    assert Leads(gone, came, c, d) && Leads(gone, came, d, c);
  }

  /** A step offers fewer than two pairs if and only if its first free candidate meets all the others. */
  lemma StuckIff(gone: seq<Edge>, came: seq<Edge>, s: int, usedA: set<nat>, usedB: set<nat>)
    ensures |Choice(gone, came, s, usedA, usedB)| < 2 <==> StuckAt(gone, came, s, usedA, usedB)
  {
    var free := Free(gone, came, s, usedA, usedB);
    FewerThanTwo(free);
    forall p: Pair ensures p in free <==> FreeNear(gone, came, s, usedA, usedB, p) { FreeIff(gone, came, s, usedA, usedB, p); }
    if free != [] {
      FirstIs(gone, came, s, usedA, usedB);
      forall c: Pair | First(gone, came, s, usedA, usedB, c) ensures c == free[0] {
        FirstOnce(gone, came, s, usedA, usedB, c, free[0]);
      }
    }
  }

  /** The rounds are over if and only if every candidate's step is stuck so. */
  lemma OverIff(gone: seq<Edge>, came: seq<Edge>, usedA: set<nat>, usedB: set<nat>)
    ensures |Best(gone, came, usedA, usedB)| < 2 <==>
            forall p: Pair :: Candidate(gone, came, p) ==> StuckAt(gone, came, StepOf(gone, came, p), usedA, usedB)
  {
    BestIsLongest(gone, came, usedA, usedB);
    forall p: Pair | Candidate(gone, came, p)
      ensures |Choice(gone, came, StepOf(gone, came, p), usedA, usedB)| < 2 <==> StuckAt(gone, came, StepOf(gone, came, p), usedA, usedB)
    {
      StuckIff(gone, came, StepOf(gone, came, p), usedA, usedB);
    }
  }

  /** Nothing is reported if and only if, near every candidate's step, the first candidate in the order
      of the scan has an end in common with every other. */
  lemma NothingFoundIff(gone: seq<Edge>, came: seq<Edge>, rounds: seq<seq<Pair>>)
    requires Played(gone, came, rounds) && Over(gone, came, Flat(rounds))
    ensures Flat(rounds) == [] <==> forall p: Pair :: Candidate(gone, came, p) ==> StuckAt(gone, came, StepOf(gone, came, p), {}, {})
  {
    OverIff(gone, came, {}, {});
    assert Firsts([]) == {} && Seconds([]) == {};
    if rounds != [] {
      assert rounds[..0] == [];
      assert rounds[0] == Best(gone, came, Firsts(Earlier(rounds, 0)), Seconds(Earlier(rounds, 0)));
      assert Flat(rounds) != [] by { assert |rounds[|rounds| - 1]| >= 2; }
    }
  }

  /** Rules that moved together: pairs with no rule in common, within two pixels of the first one's step. */
  ghost predicate Together(gone: seq<Edge>, came: seq<Edge>, block: seq<Pair>) {
    && block != [] && Disjoint(block) && (forall k :: 0 <= k < |block| ==> Candidate(gone, came, block[k]))
    && forall k :: 0 <= k < |block| ==> -2 <= StepOf(gone, came, block[k]) - StepOf(gone, came, block[0]) <= 2
  }

  /** No rule of the block is in a pair that was found. */
  ghost predicate Missed(block: seq<Pair>, found: seq<Pair>) {
    forall k :: 0 <= k < |block| ==> !Used(block[k], Firsts(found), Seconds(found))
  }

  /** A block that is missed altogether is met, in every pair, by the first candidate that is left near it. */
  lemma MissedIsMet(gone: seq<Edge>, came: seq<Edge>, rounds: seq<seq<Pair>>, block: seq<Pair>) returns (c: Pair)
    requires Played(gone, came, rounds) && Over(gone, came, Flat(rounds)) && Together(gone, came, block) && Missed(block, Flat(rounds))
    ensures Candidate(gone, came, c) && !Used(c, Firsts(Flat(rounds)), Seconds(Flat(rounds)))
    ensures forall k :: 0 <= k < |block| ==> block[k].0 == c.0 || block[k].1 == c.1
  {
    var usedA, usedB, s := Firsts(Flat(rounds)), Seconds(Flat(rounds)), StepOf(gone, came, block[0]);
    OverIff(gone, came, usedA, usedB);
    forall k | 0 <= k < |block| ensures FreeNear(gone, came, s, usedA, usedB, block[k]) { }
    FreeIff(gone, came, s, usedA, usedB, block[0]);
    FirstIs(gone, came, s, usedA, usedB);
    c := Free(gone, came, s, usedA, usedB)[0];
  }

  /** Of three rules or more that moved together at least one is in a pair that is found. */
  lemma BlockOfThree(gone: seq<Edge>, came: seq<Edge>, rounds: seq<seq<Pair>>, block: seq<Pair>)
    requires Played(gone, came, rounds) && Over(gone, came, Flat(rounds)) && Together(gone, came, block) && |block| >= 3
    ensures !Missed(block, Flat(rounds))
  {
    if Missed(block, Flat(rounds)) {
      var c := MissedIsMet(gone, came, rounds, block);
      assert forall k :: 0 <= k < 3 ==> block[k].0 == c.0 || block[k].1 == c.1;
      assert block[0].0 != block[1].0 && block[0].1 != block[1].1;
      assert block[0].0 != block[2].0 && block[0].1 != block[2].1;
      assert block[1].0 != block[2].0 && block[1].1 != block[2].1;
    }
  }

  /** Rules as one frame lists them: long horizontal ones, from left to right and then downwards, no two
      of them one line, and none the edge of a slider's track. */
  predicate Listed(rules: seq<Edge>) {
    && (forall i :: 0 <= i < |rules| ==> rules[i].kind == H && Drawn(rules[i]) && 0 <= rules[i].x0 && rules[i].x1 - rules[i].x0 >= 150)
    && (forall i, j :: 0 <= i < j < |rules| ==>
                         && (rules[i].x0 < rules[j].x0 || (rules[i].x0 == rules[j].x0 && rules[i].y0 <= rules[j].y0))
                         && (Abs(rules[i].y0 - rules[j].y0) > 2 || Abs(rules[i].x0 - rules[j].x0) > 2 || Abs(rules[i].x1 - rules[j].x1) > 2)
                         && (Abs(rules[i].y0 - rules[j].y0) < 4 || Abs(rules[i].y0 - rules[j].y0) > 8))
  }

  const OLD := [Edge(H, 100, 10, 100, 210), Edge(H, 98, 13, 98, 213)]
  const NEW := [Edge(H, 300, 8, 300, 208), Edge(H, 299, 11, 299, 211)]

  /** The rounds can end too early: here two rules moved together, by 200 and 201 pixels, but the first
      candidate of every window meets both pairs, so no step offers two and nothing is reported. */
  lemma MissedBlock(rounds: seq<seq<Pair>>)
    requires Played(OLD, NEW, rounds)
    ensures Listed(OLD) && Listed(NEW)
    ensures Candidate(OLD, NEW, (0, 0)) && StepOf(OLD, NEW, (0, 0)) == 200
    ensures Candidate(OLD, NEW, (1, 1)) && StepOf(OLD, NEW, (1, 1)) == 201
    ensures forall p: Pair :: Candidate(OLD, NEW, p) ==> |Choice(OLD, NEW, StepOf(OLD, NEW, p), {}, {})| < 2
    ensures rounds == []
  {
    BothListed();
    forall p: Pair | Candidate(OLD, NEW, p) ensures |Choice(OLD, NEW, StepOf(OLD, NEW, p), {}, {})| < 2 { StuckThere(p); }
    BestIsLongest(OLD, NEW, {}, {});
    NoFirstRound(OLD, NEW, rounds);
  }

  lemma BothListed()
    ensures Listed(OLD) && Listed(NEW)
  {
  }

  lemma StuckThere(p: Pair)
    requires Candidate(OLD, NEW, p)
    ensures |Choice(OLD, NEW, StepOf(OLD, NEW, p), {}, {})| < 2
  {
    var s := StepOf(OLD, NEW, p);
    OnlyThree(p);
    forall q: Pair | FreeNear(OLD, NEW, s, {}, {}, q) ensures q.0 == 0 || q.1 == 1 { OnlyThree(q); }
    assert FreeNear(OLD, NEW, s, {}, {}, (0, 1));
    forall c: Pair | First(OLD, NEW, s, {}, {}, c) ensures c == (0, 1) {
      OnlyThree(c);
      assert Leads(OLD, NEW, c, (0, 1));
    }
    StuckIff(OLD, NEW, s, {}, {});
  }

  /** The first round is the best choice with nothing used. */
  lemma NoFirstRound(gone: seq<Edge>, came: seq<Edge>, rounds: seq<seq<Pair>>)
    requires Played(gone, came, rounds)
    ensures rounds == [] || |Best(gone, came, {}, {})| >= 2
  {
    if rounds != [] {
      assert rounds[..0] == [] && Firsts([]) == {} && Seconds([]) == {};
      assert rounds[0] == Best(gone, came, Firsts(Earlier(rounds, 0)), Seconds(Earlier(rounds, 0)));
    }
  }

  lemma OnlyThree(p: Pair)
    requires Candidate(OLD, NEW, p)
    ensures p == (0, 0) || p == (0, 1) || p == (1, 1)
  {
    assert p.0 < 2 && p.1 < 2;
  }
}
