/** Splitting a licence expression on a separator outside parentheses. */
module LicenceSplit {
  import opened Basics
  import opened Text

  const AND := " AND "
  const OR := " OR "

  function Nest(c: char): int {
    if c == '(' then 1 else if c == ')' then -1 else 0
  }

  /** Open parentheses before position i. */
  function Depth(s: string, i: int): int
    requires 0 <= i <= |s|
  {
    if i == 0 then 0 else Depth(s, i - 1) + Nest(s[i - 1])
  }

  function Slice(s: string, a: int, b: int): (r: string)
    ensures |r| <= |s|
  {
    if 0 <= a <= b <= |s| then s[a..b] else ""
  }

  /** What `split_top_level` still yields at position i, with the depth before i and the start of the
      current part. */
  function SplitFrom(s: string, sep: string, i: int, depth: int, start: int): (r: seq<string>)
    requires 0 <= i <= |s|
    ensures r != []
    decreases |s| - i
  {
    if i == |s| then [Slice(s, start, |s|)] else
    var d := depth + Nest(s[i]);
    if d == 0 && StartsAt(s, sep, i) then [Slice(s, start, i)] + SplitFrom(s, sep, i + 1, d, i + |sep|)
    else SplitFrom(s, sep, i + 1, d, start)
  }

  lemma {:induction false} SplitFromShort(s: string, sep: string, i: int, depth: int, start: int)
    requires 0 <= i <= |s|
    ensures forall p :: p in SplitFrom(s, sep, i, depth, start) ==> |p| <= |s|
    decreases |s| - i
  {
    if i < |s| {
      var d := depth + Nest(s[i]);
      SplitFromShort(s, sep, i + 1, d, if d == 0 && StartsAt(s, sep, i) then i + |sep| else start);
    }
  }

  function StripAll(parts: seq<string>): (r: seq<string>)
    ensures |r| == |parts|
    ensures forall k :: 0 <= k < |r| ==> r[k] == Strip(parts[k])
  {
    seq(|parts|, k requires 0 <= k < |parts| => Strip(parts[k]))
  }

  function SplitTop(s: string, sep: string): (r: seq<string>)
    ensures r != [] && forall p :: p in r ==> |p| <= |s|
  {
    SplitFromShort(s, sep, 0, 0, 0);
    StripAll(SplitFrom(s, sep, 0, 0, 0))
  }

  /** The loop of `split_top_level`. */
  method SplitTopLevel(s: string, sep: string) returns (parts: seq<string>)
    ensures parts == SplitTop(s, sep)
  {
    var raw: seq<string>, depth, start := [], 0, 0;
    ghost var whole := SplitFrom(s, sep, 0, 0, 0);
    for i := 0 to |s|
      invariant raw + SplitFrom(s, sep, i, depth, start) == whole
    {
      var d := depth + Nest(s[i]);
      var cut := d == 0 && StartsAt(s, sep, i);
      SplitStep(s, sep, i, depth, start, d, if cut then i + |sep| else start);
      depth := d;
      if cut {
        Regroup(raw, [Slice(s, start, i)], SplitFrom(s, sep, i + 1, d, i + |sep|));
        raw := raw + [Slice(s, start, i)];
        start := i + |sep|;
      }
    }
    raw := raw + [Slice(s, start, |s|)];
    parts := seq(|raw|, k requires 0 <= k < |raw| => Strip(raw[k]));
  }

  // ---- what splitting finds ----

  predicate Match(s: string, sep: string, k: int) {
    0 <= k < |s| && Depth(s, k + 1) == 0 && StartsAt(s, sep, k)
  }

  lemma {:induction false} Skip(s: string, sep: string, i: int, j: int, start: int)
    requires 0 <= i <= j <= |s| && forall k :: i <= k < j ==> !Match(s, sep, k)
    ensures SplitFrom(s, sep, i, Depth(s, i), start) == SplitFrom(s, sep, j, Depth(s, j), start)
    decreases j - i
  {
    if i < j {
      assert !Match(s, sep, i);
      Skip(s, sep, i + 1, j, start);
    }
  }

  /** One step of the splitter: the part it closes at i, if any, and what comes behind. */
  lemma SplitStep(s: string, sep: string, i: int, depth: int, start: int, d: int, next: int)
    requires 0 <= i < |s| && d == depth + Nest(s[i])
    requires next == if d == 0 && StartsAt(s, sep, i) then i + |sep| else start
    ensures SplitFrom(s, sep, i, depth, start) ==
            (if d == 0 && StartsAt(s, sep, i) then [Slice(s, start, i)] else []) + SplitFrom(s, sep, i + 1, d, next)
  {
  }

  /** b is what c holds from position n on. */
  predicate Behind(c: string, n: nat, b: string) {
    n + |b| == |c| && forall k :: 0 <= k < |b| ==> c[n + k] == b[k]
  }

  lemma StartsBehind(c: string, n: nat, b: string, sep: string, i: int)
    requires Behind(c, n, b) && 0 <= i
    ensures StartsAt(c, sep, n + i) <==> StartsAt(b, sep, i)
  {
    if i + |sep| <= |b| { assert c[n + i..n + i + |sep|] == b[i..i + |sep|]; }
  }

  lemma SliceBehind(c: string, n: nat, b: string, x: int, y: int)
    requires Behind(c, n, b) && 0 <= x
    ensures Slice(c, n + x, n + y) == Slice(b, x, y)
  {
    if x <= y <= |b| { assert c[n + x..n + y] == b[x..y]; }
  }

  /** One step of splitting behind a prefix, given the rest. */
  lemma ShiftStep(c: string, n: nat, b: string, sep: string, i: int, depth: int, start: int, d: int, next: int, rest: seq<string>)
    requires Behind(c, n, b) && 0 <= i < |b| && 0 <= start <= |b| && d == depth + Nest(b[i])
    requires next == if d == 0 && StartsAt(b, sep, i) then i + |sep| else start
    requires SplitFrom(c, sep, n + i + 1, d, n + next) == rest && SplitFrom(b, sep, i + 1, d, next) == rest
    ensures SplitFrom(c, sep, n + i, depth, n + start) == SplitFrom(b, sep, i, depth, start)
  {
    SliceBehind(c, n, b, start, i);
    StartsBehind(c, n, b, sep, i);
    var head := if d == 0 && StartsAt(b, sep, i) then [Slice(b, start, i)] else [];
    assert SplitFrom(b, sep, i, depth, start) == head + rest by { SplitStep(b, sep, i, depth, start, d, next); }
    assert SplitFrom(c, sep, n + i, depth, n + start) == head + rest by { SplitStep(c, sep, n + i, depth, n + start, d, n + next); }
  }

  /** Splitting goes on behind a prefix as it would without it. */
  lemma {:induction false} Shift(c: string, n: nat, b: string, sep: string, i: int, depth: int, start: int)
    requires Behind(c, n, b) && 0 <= i <= |b| && 0 <= start <= |b|
    ensures SplitFrom(c, sep, n + i, depth, n + start) == SplitFrom(b, sep, i, depth, start)
    decreases |b| - i
  {
    if i == |b| {
      SliceBehind(c, n, b, start, i);
    } else {
      var d := depth + Nest(b[i]);
      var next := if d == 0 && StartsAt(b, sep, i) then i + |sep| else start;
      Shift(c, n, b, sep, i + 1, d, next);
      ShiftStep(c, n, b, sep, i, depth, start, d, next, SplitFrom(b, sep, i + 1, d, next));
    }
  }

  lemma {:induction false} DepthPrefix(a: string, b: string, i: int)
    requires 0 <= i <= |a|
    ensures Depth(a + b, i) == Depth(a, i)
  {
    if i > 0 { DepthPrefix(a, b, i - 1); }
  }

  lemma {:induction false} DepthConcat(a: string, b: string, i: int)
    requires 0 <= i <= |b|
    ensures Depth(a + b, |a| + i) == Depth(a, |a|) + Depth(b, i)
  {
    if i == 0 {
      DepthPrefix(a, b, |a|);
    } else {
      DepthConcat(a, b, i - 1);
    }
  }

  function Pad(p: string): string {
    " " + p + " "
  }

  /** A part of a conjunction that the splitter keeps whole: trimmed, balanced, and without a
      separator outside parentheses even next to the spaces around it. */
  ghost predicate Piece(p: string) {
    Trim(p) && Depth(p, |p|) == 0 && forall k :: !Match(Pad(p), AND, k)
  }

  /** A separator that starts inside a piece would lie inside the padded piece. */
  lemma PieceClean(p: string, post: string, k: int)
    requires Piece(p) && 0 <= k < |p| && (post == "" || StartsAt(post, AND, 0))
    ensures !Match(p + post, AND, k)
  {
    var s := p + post;
    if StartsAt(s, AND, k) {
      if k + 5 > |p| {
        assert s[k..k + 5][|p| - k] == AND[|p| - k] == s[|p|] == post[0] == ' ';
      }
      DepthPrefix(p, post, k + 1);
      DepthConcat(" ", p + " ", k + 1);
      DepthPrefix(p, " ", k + 1);
      assert Pad(p) == " " + (p + " ");
      assert Pad(p)[k + 1..k + 6] == s[k..k + 5];
      assert !Match(Pad(p), AND, k + 1);
    }
  }

  lemma SplitLast(p: string)
    requires Piece(p)
    ensures SplitFrom(p, AND, 0, 0, 0) == [p]
  {
    forall k | 0 <= k < |p| ensures !Match(p, AND, k) {
      PieceClean(p, "", k);
      assert p + "" == p;
    }
    Skip(p, AND, 0, |p|, 0);
    assert p[0..|p|] == p;
  }

  /** The depth is zero behind a piece and all through the separator. */
  lemma SepDepth(p: string, rest: string, k: int)
    requires Depth(p, |p|) == 0 && 0 <= k <= 5
    ensures Depth(p + AND + rest, |p| + k) == 0
  {
    assert p + AND + rest == p + (AND + rest);
    DepthConcat(p, AND + rest, k);
    DepthPrefix(AND, rest, k);
    NoParensDepth(AND, k);
  }

  /** No separator overlaps the end of another one when the text behind it is no AND. */
  lemma NoOverlap(p: string, rest: string, k: int)
    requires |p| < k < |p| + 5 && !StartsAt(rest, "AND ", 0)
    ensures !StartsAt(p + AND + rest, AND, k)
  {
    var s := p + AND + rest;
    if StartsAt(s, AND, k) {
      assert s[k] == s[k..k + 5][0] == ' ';
      assert s[k] == AND[k - |p|];
      assert k == |p| + 4;
      assert rest[0..4] == s[k..k + 5][1..] == "AND ";
    }
  }

  lemma NoneInPiece(p: string, rest: string, s: string)
    requires Piece(p) && s == p + AND + rest
    ensures forall k :: 0 <= k < |p| ==> !Match(s, AND, k)
  {
    assert s == p + (AND + rest) && (AND + rest)[0..5] == AND;
    forall k | 0 <= k < |p| ensures !Match(s, AND, k) { PieceClean(p, AND + rest, k); }
  }

  lemma NoneInSeparator(p: string, rest: string, s: string)
    requires s == p + AND + rest && !StartsAt(rest, "AND ", 0)
    ensures forall k :: |p| + 1 <= k < |p| + 5 ==> !Match(s, AND, k)
  {
    forall k | |p| + 1 <= k < |p| + 5 ensures !Match(s, AND, k) { NoOverlap(p, rest, k); }
  }

  lemma BehindSeparator(p: string, rest: string, s: string)
    requires s == p + AND + rest
    ensures SplitFrom(s, AND, |p| + 5, 0, |p| + 5) == SplitFrom(rest, AND, 0, 0, 0)
  {
    assert Behind(s, |p| + 5, rest);
    Shift(s, |p| + 5, rest, AND, 0, 0, 0);
  }

  /** The separator behind a piece is the first place to split at. */
  lemma SplitFirst(p: string, rest: string)
    requires Piece(p) && !StartsAt(rest, "AND ", 0)
    ensures SplitFrom(p + AND + rest, AND, 0, 0, 0) == [p] + SplitFrom(rest, AND, 0, 0, 0)
  {
    var s := p + AND + rest;
    NoneInPiece(p, rest, s);
    NoneInSeparator(p, rest, s);
    SepDepth(p, rest, 0);
    SepDepth(p, rest, 1);
    SepDepth(p, rest, 5);
    SplitThere(p, rest, s);
    BehindSeparator(p, rest, s);
  }

  lemma SplitThere(p: string, rest: string, s: string)
    requires s == p + AND + rest
    requires (forall k :: 0 <= k < |p| ==> !Match(s, AND, k)) && forall k :: |p| + 1 <= k < |p| + 5 ==> !Match(s, AND, k)
    requires Depth(s, |p|) == 0 && Depth(s, |p| + 1) == 0 && Depth(s, |p| + 5) == 0
    ensures SplitFrom(s, AND, 0, 0, 0) == [p] + SplitFrom(s, AND, |p| + 5, 0, |p| + 5)
  {
    Skip(s, AND, 0, |p|, 0);
    SepFound(p, rest);
    SplitHere(s, |p|, 0);
    Skip(s, AND, |p| + 1, |p| + 5, |p| + 5);
  }

  lemma SepFound(p: string, rest: string)
    ensures var s := p + AND + rest;
            s[|p|] == ' ' && StartsAt(s, AND, |p|) && Slice(s, 0, |p|) == p
  {
    var s := p + AND + rest;
    assert s[|p|..|p| + 5] == AND && s[0..|p|] == p;
  }

  lemma SplitHere(s: string, i: int, start: int)
    requires 0 <= i < |s| && Nest(s[i]) == 0 && StartsAt(s, AND, i)
    ensures SplitFrom(s, AND, i, 0, start) == [Slice(s, start, i)] + SplitFrom(s, AND, i + 1, 0, i + 5)
  {
  }

  /** A piece does not start with the word AND. */
  lemma PieceHead(p: string, post: string)
    requires Piece(p) && (post == "" || StartsAt(post, AND, 0))
    ensures !StartsAt(p + post, "AND ", 0)
  {
    var s := p + post;
    if StartsAt(s, "AND ", 0) {
      assert s[0..4] == "AND ";
      if |p| < 4 {
        assert s[0..4][|p|] == "AND "[|p|] == s[|p|] == post[0] == ' ';
      }
      assert |p| >= 3;
      assert Pad(p)[1..5] == s[0..4];
      assert Pad(p)[0..5] == [Pad(p)[0]] + Pad(p)[1..5] == AND;
      assert Depth(Pad(p), 1) == 0;
      assert !Match(Pad(p), AND, 0);
    }
  }

  /** Splitting a conjunction of pieces gives the pieces back. */
  lemma {:induction false} SplitPieces(parts: seq<string>)
    requires parts != [] && forall k :: 0 <= k < |parts| ==> Piece(parts[k])
    ensures SplitTop(Join(parts, AND), AND) == parts
  {
    SplitFromPieces(parts);
    forall k | 0 <= k < |parts| ensures Strip(parts[k]) == parts[k] {
      StripTrim(parts[k]);
    }
  }

  lemma {:induction false} SplitFromPieces(parts: seq<string>)
    requires parts != [] && forall k :: 0 <= k < |parts| ==> Piece(parts[k])
    ensures SplitFrom(Join(parts, AND), AND, 0, 0, 0) == parts
  {
    if |parts| == 1 {
      SplitLast(parts[0]);
    } else {
      var rest := parts[1..];
      SplitFromPieces(rest);
      var tail := if |rest| == 1 then "" else AND + Join(rest[1..], AND);
      assert Join(rest, AND) == rest[0] + tail;
      PieceHead(rest[0], tail);
      SplitFirst(parts[0], Join(rest, AND));
      assert parts == [parts[0]] + rest;
    }
  }

  // ---- which strings are pieces ----

  predicate NoParens(s: string) {
    forall k :: 0 <= k < |s| ==> s[k] != '(' && s[k] != ')'
  }

  lemma {:induction false} NoParensDepth(s: string, i: int)
    requires NoParens(s) && 0 <= i <= |s|
    ensures Depth(s, i) == 0
  {
    if i > 0 { NoParensDepth(s, i - 1); }
  }

  lemma PlainPiece(p: string)
    requires Trim(p) && NoParens(p) && !Contains(Pad(p), AND)
    ensures Piece(p)
  {
    NoParensDepth(p, |p|);
  }

  /** Parentheses that close in order: the depth never drops below zero and ends there. */
  ghost predicate Balanced(s: string) {
    Depth(s, |s|) == 0 && forall k :: 0 <= k <= |s| ==> Depth(s, k) >= 0
  }

  lemma BalancedConcat(a: string, b: string)
    requires Balanced(a) && Balanced(b)
    ensures Balanced(a + b)
  {
    forall k | 0 <= k <= |a + b| ensures Depth(a + b, k) >= 0 {
      if k <= |a| { DepthPrefix(a, b, k); } else { DepthConcat(a, b, k - |a|); }
    }
    DepthConcat(a, b, |b|);
  }

  lemma NoParensBalanced(s: string)
    requires NoParens(s)
    ensures Balanced(s)
  {
    forall k | 0 <= k <= |s| ensures Depth(s, k) >= 0 { NoParensDepth(s, k); }
    NoParensDepth(s, |s|);
  }

  lemma WrappedDepth(q: string, k: int)
    requires 0 <= k <= |q| + 2
    ensures Depth("(" + q + ")", k) == if k == 0 then 0 else if k <= |q| + 1 then 1 + Depth(q, k - 1) else Depth(q, |q|)
  {
    var p := "(" + q + ")";
    assert p == "(" + (q + ")");
    assert Depth("(", 1) == 1;
    if 0 < k <= |q| + 1 {
      DepthConcat("(", q + ")", k - 1);
      DepthPrefix(q, ")", k - 1);
    } else if k == |q| + 2 {
      DepthConcat("(", q + ")", |q| + 1);
      DepthConcat(q, ")", 1);
      assert Depth(")", 1) == -1;
    }
  }

  lemma WrappedPiece(q: string)
    requires Balanced(q)
    ensures Piece("(" + q + ")") && Balanced("(" + q + ")")
  {
    var p := "(" + q + ")";
    forall k | 0 <= k <= |p| ensures Depth(p, k) >= 0 { WrappedDepth(q, k); }
    WrappedDepth(q, |p|);
    forall k ensures !Match(Pad(p), AND, k) {
      if 0 <= k < |Pad(p)| && StartsAt(Pad(p), AND, k) {
        assert Pad(p)[k] == Pad(p)[k..k + 5][0] == ' ' && Pad(p)[k + 1] == Pad(p)[k..k + 5][1] == 'A';
        assert 1 < k <= |q| + 1;
        DepthConcat(" ", p + " ", k);
        assert Pad(p) == " " + (p + " ");
        DepthPrefix(p, " ", k);
        WrappedDepth(q, k);
      }
    }
  }
}
