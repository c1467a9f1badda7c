/** Licences as cargo gives them: choices written with OR or with slashes, and a marker behind. */
module LicenceGiven {
  import opened Basics
  import opened Text
  import opened LicenceSplit
  import opened Licences
  import opened LicenceLaws
  import opened LicenceNormalise

  // ---- how a licence may be written ----

  ghost predicate Separators(seps: seq<string>) {
    forall k :: 0 <= k < |seps| ==> IsSeparator(seps[k])
  }

  /** A writing of the licence: each choice has its own separators, OR or slashes. */
  ghost predicate Writes(w: string, l: Licence)
    decreases l, 1
  {
    match l
    case Choice(options) => options != [] && exists seps :: Separators(seps) && |seps| == |options| - 1 && w == Spelled(options, seps)
    case All(parts) => exists ws :: w == Join(ws, AND) && |ws| == |parts| && forall k :: 0 <= k < |parts| ==> WritesPart(ws[k], parts[k])
  }

  /** A writing of a part of a conjunction: anything but a single licence stands in parentheses. */
  ghost predicate WritesPart(w: string, l: Licence)
    decreases l, 2
  {
    if l.Choice? && |l.options| == 1 then w == l.options[0]
    else exists u :: Writes(u, l) && w == "(" + u + ")"
  }

  /** No identifier of the licence has a slash in it. */
  ghost predicate SlashFree(l: Licence) {
    match l
    case Choice(options) => forall k :: 0 <= k < |options| ==> '/' !in options[k]
    case All(parts) => forall k :: 0 <= k < |parts| ==> SlashFree(parts[k])
  }

  /** What cargo may put behind a licence: nothing, or a marker with white space before it. */
  ghost predicate IsTail(tail: string) {
    tail == "" || exists blank :: AllBlank(blank) && (tail == blank + "(*)" || tail == blank + "(proc-macro)")
  }

  // ---- writing with slashes is rewriting ORs ----

  /** w is s with some of its ORs written as slashes: both are the same pieces, joined otherwise. */
  ghost predicate Rewritten(w: string, s: string) {
    exists xs, seps :: SpelledWell(xs, seps) && w == Spelled(xs, seps) && s == Join(xs, OR)
  }

  lemma RewrittenSame(s: string)
    requires Slashless(s)
    ensures Rewritten(s, s)
  {
    assert SpelledWell([s], []) && Spelled([s], []) == s && Join([s], OR) == s;
  }

  lemma Prefixed(pre: string, a: string, b: string, c: string)
    ensures (pre + a) + b + c == pre + (a + b + c)
  {
  }

  /** Text in front of the first piece. */
  lemma FirstPiece(pre: string, ys: seq<string>, zs: seq<string>, seps: seq<string>)
    requires ys != [] && |seps| == |ys| - 1 && |zs| == |ys| && zs[0] == pre + ys[0] && zs[1..] == ys[1..]
    ensures Spelled(zs, seps) == pre + Spelled(ys, seps) && Join(zs, OR) == pre + Join(ys, OR)
  {
    if |ys| > 1 {
      Prefixed(pre, ys[0], seps[0], Spelled(ys[1..], seps[1..]));
      Prefixed(pre, ys[0], OR, Join(ys[1..], OR));
    }
  }

  /** The pieces of two texts with the last of one and the first of the other grown together. */
  ghost function Grown(xs: seq<string>, mid: string, ys: seq<string>): seq<string>
    requires xs != [] && ys != []
  {
    if |xs| == 1 then [xs[0] + mid + ys[0]] + ys[1..] else [xs[0]] + Grown(xs[1..], mid, ys)
  }

  lemma {:induction false} GrownWell(xs: seq<string>, seps: seq<string>, mid: string, ys: seq<string>, more: seq<string>)
    requires SpelledWell(xs, seps) && SpelledWell(ys, more) && '/' !in mid
    ensures SpelledWell(Grown(xs, mid, ys), seps + more)
    decreases |xs|
  {
    if |xs| == 1 {
      assert seps + more == more;
      var z := xs[0] + mid + ys[0];
      assert Slashless(xs[0]) && Slashless(ys[0]);
      assert Slashless(z);
    } else {
      GrownWell(xs[1..], seps[1..], mid, ys, more);
      assert (seps + more)[1..] == seps[1..] + more;
      SpelledWellCons(xs[0], seps[0], Grown(xs[1..], mid, ys), seps[1..] + more);
      assert [seps[0]] + (seps[1..] + more) == seps + more;
    }
  }

  lemma SpelledWellCons(x: string, sep: string, xs: seq<string>, seps: seq<string>)
    requires Slashless(x) && IsSeparator(sep) && SpelledWell(xs, seps)
    ensures SpelledWell([x] + xs, [sep] + seps)
  {
  }

  lemma {:induction false} GrownSpells(xs: seq<string>, seps: seq<string>, mid: string, ys: seq<string>, more: seq<string>)
    requires xs != [] && |seps| == |xs| - 1 && ys != [] && |more| == |ys| - 1
    ensures |Grown(xs, mid, ys)| == |xs| + |ys| - 1
    ensures Spelled(Grown(xs, mid, ys), seps + more) == Spelled(xs, seps) + mid + Spelled(ys, more)
    ensures Join(Grown(xs, mid, ys), OR) == Join(xs, OR) + mid + Join(ys, OR)
    decreases |xs|
  {
    var zs := Grown(xs, mid, ys);
    if |xs| == 1 {
      assert seps + more == more;
      FirstPiece(xs[0] + mid, ys, zs, more);
    } else {
      GrownSpells(xs[1..], seps[1..], mid, ys, more);
      var rest := Grown(xs[1..], mid, ys);
      assert zs[1..] == rest && zs[0] == xs[0] && (seps + more)[1..] == seps[1..] + more;
      RegroupFive(xs[0], seps[0], Spelled(xs[1..], seps[1..]), mid, Spelled(ys, more));
      RegroupFive(xs[0], OR, Join(xs[1..], OR), mid, Join(ys, OR));
    }
  }

  lemma RewrittenJoin(a: string, s: string, mid: string, b: string, t: string)
    requires Rewritten(a, s) && Rewritten(b, t) && '/' !in mid
    ensures Rewritten(a + mid + b, s + mid + t)
  {
    var xs, seps :| SpelledWell(xs, seps) && a == Spelled(xs, seps) && s == Join(xs, OR);
    var ys, more :| SpelledWell(ys, more) && b == Spelled(ys, more) && t == Join(ys, OR);
    GrownWell(xs, seps, mid, ys, more);
    GrownSpells(xs, seps, mid, ys, more);
    assert SpelledWell(Grown(xs, mid, ys), seps + more);
  }

  lemma RewrittenParen(a: string, s: string)
    requires Rewritten(a, s)
    ensures Rewritten("(" + a + ")", "(" + s + ")")
  {
    RewrittenSame("(");
    RewrittenSame(")");
    RewrittenJoin("(", "(", "", a, s);
    assert "(" + "" + a == "(" + a && "(" + "" + s == "(" + s;
    RewrittenJoin("(" + a, "(" + s, "", ")", ")");
    assert "(" + a + "" + ")" == "(" + a + ")" && "(" + s + "" + ")" == "(" + s + ")";
  }

  lemma {:induction false} RewrittenAll(ws: seq<string>, ss: seq<string>)
    requires ws != [] && |ws| == |ss| && forall k :: 0 <= k < |ws| ==> Rewritten(ws[k], ss[k])
    ensures Rewritten(Join(ws, AND), Join(ss, AND))
    decreases |ws|
  {
    if |ws| > 1 {
      RewrittenAll(ws[1..], ss[1..]);
      RewrittenJoin(ws[0], ss[0], AND, Join(ws[1..], AND), Join(ss[1..], AND));
    }
  }

  /** Every writing of a licence is its plain spelling with some ORs written as slashes. */
  lemma {:induction false} WritesRewritten(w: string, l: Licence)
    requires Valid(l) && SlashFree(l) && Writes(w, l)
    ensures Rewritten(w, Show(l))
    decreases l, 1
  {
    match l
    case Choice(options) =>
      var seps :| Separators(seps) && |seps| == |options| - 1 && w == Spelled(options, seps);
      assert SpelledWell(options, seps);
    case All(parts) =>
      var ws :| w == Join(ws, AND) && |ws| == |parts| && forall k :: 0 <= k < |parts| ==> WritesPart(ws[k], parts[k]);
      forall k | 0 <= k < |ws| ensures Rewritten(ws[k], ShowParts(parts)[k]) { WritesPartRewritten(ws[k], parts[k]); }
      RewrittenAll(ws, ShowParts(parts));
  }

  lemma {:induction false} WritesPartRewritten(w: string, l: Licence)
    requires Valid(l) && SlashFree(l) && WritesPart(w, l)
    ensures Rewritten(w, ShowPart(l))
    decreases l, 2
  {
    if l.Choice? && |l.options| == 1 {
      RewrittenSame(w);
    } else {
      var u :| Writes(u, l) && w == "(" + u + ")";
      WritesRewritten(u, l);
      RewrittenParen(u, Show(l));
    }
  }

  // ---- no licence reads like a marker ----

  /** White space or a slash: no marker has one. */
  predicate Break(c: char) {
    Space(c) || c == '/'
  }

  /** Behind position k a break comes before any closing parenthesis. */
  ghost predicate BreaksFirst(s: string, k: int) {
    exists j :: 0 <= k <= j < |s| && Break(s[j]) && forall m :: k <= m < j ==> s[m] != ')'
  }

  /** Behind every opening parenthesis a break comes before a closing one. */
  ghost predicate Airy(s: string) {
    forall k :: 0 <= k < |s| && s[k] == '(' ==> BreaksFirst(s, k + 1)
  }

  lemma BreakInFront(a: string, b: string, k: int)
    requires 0 <= k <= |a| && BreaksFirst(a, k)
    ensures BreaksFirst(a + b, k)
  {
    var j :| k <= j < |a| && Break(a[j]) && forall m :: k <= m < j ==> a[m] != ')';
    assert (a + b)[j] == a[j];
  }

  lemma BreakBehind(a: string, b: string, k: int)
    requires 0 <= k <= |b| && BreaksFirst(b, k)
    ensures BreaksFirst(a + b, |a| + k)
  {
    var j :| k <= j < |b| && Break(b[j]) && forall m :: k <= m < j ==> b[m] != ')';
    assert (a + b)[|a| + j] == b[j];
    forall m | |a| + k <= m < |a| + j ensures (a + b)[m] != ')' { assert (a + b)[m] == b[m - |a|]; }
  }

  lemma AiryJoin(a: string, b: string)
    requires Airy(a) && Airy(b)
    ensures Airy(a + b)
  {
    forall k | 0 <= k < |a + b| && (a + b)[k] == '(' ensures BreaksFirst(a + b, k + 1) {
      if k < |a| {
        assert a[k] == '(';
        BreakInFront(a, b, k + 1);
      } else {
        assert b[k - |a|] == '(';
        BreakBehind(a, b, k - |a| + 1);
      }
    }
  }

  lemma NoParensAiry(s: string)
    requires NoParens(s)
    ensures Airy(s)
  {
  }

  lemma {:induction false} AiryAll(parts: seq<string>, sep: string)
    requires NoParens(sep) && forall k :: 0 <= k < |parts| ==> Airy(parts[k])
    ensures Airy(Join(parts, sep))
    decreases |parts|
  {
    if |parts| > 1 {
      AiryAll(parts[1..], sep);
      NoParensAiry(sep);
      AiryJoin(parts[0], sep);
      AiryJoin(parts[0] + sep, Join(parts[1..], sep));
    }
  }

  /** A parenthesis around text with a break before its first closing one. */
  lemma AiryParen(s: string)
    requires Airy(s) && BreaksFirst(s, 0)
    ensures Airy("(" + s + ")") && BreaksFirst("(" + s + ")", 0)
  {
    var p := "(" + s;
    BreakBehind("(", s, 0);
    forall k | 0 <= k < |p| && p[k] == '(' ensures BreaksFirst(p, k + 1) {
      if k > 0 {
        assert s[k - 1] == '(';
        BreakBehind("(", s, k);
      }
    }
    NoOpenAiry(")");
    AiryJoin(p, ")");
    var j :| 1 <= j < |p| && Break(p[j]) && forall m :: 1 <= m < j ==> p[m] != ')';
    assert p[0] != ')';
    assert BreaksFirst(p, 0);
    BreakInFront(p, ")", 0);
  }

  lemma NoOpenAiry(s: string)
    requires '(' !in s
    ensures Airy(s)
  {
  }

  /** A text without parentheses in front of a break. */
  lemma BreakAfter(a: string, b: string)
    requires NoParens(a) && b != "" && Break(b[0])
    ensures BreaksFirst(a + b, 0)
  {
    assert (a + b)[|a|] == b[0];
  }

  /** A licence in its own spelling: airy, and with a break in front when it has more than one name. */
  lemma {:induction false} ShowAiry(l: Licence)
    requires Valid(l)
    ensures Airy(Show(l)) && Airy(ShowPart(l))
    ensures (l.Choice? && |l.options| == 1) || (BreaksFirst(Show(l), 0) && BreaksFirst(ShowPart(l), 0))
    decreases l, 1
  {
    match l
    case Choice(options) =>
      TermNoParens(options);
      NoParensAiry(Show(l));
      if |options| > 1 {
        var rest := OR + Join(options[1..], OR);
        assert Show(l) == options[0] + rest;
        BreakAfter(options[0], rest);
        AiryParen(Show(l));
      }
    case All(parts) =>
      var shown := ShowParts(parts);
      forall k | 0 <= k < |shown| ensures Airy(shown[k]) { ShowAiry(parts[k]); }
      AiryAll(shown, AND);
      ShowAiry(parts[0]);
      var rest := AND + Join(shown[1..], AND);
      assert Show(l) == shown[0] + rest;
      if parts[0].Choice? && |parts[0].options| == 1 {
        BreakAfter(shown[0], rest);
      } else {
        BreakInFront(shown[0], rest, 0);
      }
      AiryParen(Show(l));
  }

  lemma {:induction false} RewrittenAiry(xs: seq<string>, seps: seq<string>)
    requires SpelledWell(xs, seps) && Airy(Join(xs, OR))
    ensures Airy(Spelled(xs, seps))
    decreases |xs|
  {
    if |xs| > 1 {
      var s, rest := Join(xs, OR), Join(xs[1..], OR);
      assert s == xs[0] + (OR + rest);
      AiryTail(xs[0] + OR, rest, s);
      RewrittenAiry(xs[1..], seps[1..]);
      var tail := Spelled(xs[1..], seps[1..]);
      SeparatorBreak(seps[0]);
      NoOpenAiry(seps[0]);
      AiryJoin(seps[0], tail);
      AiryCut(xs[0], OR + rest, seps[0] + tail);
      assert Spelled(xs, seps) == xs[0] + (seps[0] + tail);
    }
  }

  lemma AiryTail(a: string, b: string, s: string)
    requires s == a + b && Airy(s)
    ensures Airy(b)
  {
    forall k | 0 <= k < |b| && b[k] == '(' ensures BreaksFirst(b, k + 1) {
      assert s[|a| + k] == '(';
      var j :| |a| + k + 1 <= j < |s| && Break(s[j]) && forall m :: |a| + k + 1 <= m < j ==> s[m] != ')';
      assert b[j - |a|] == s[j];
      forall m | k + 1 <= m < j - |a| ensures b[m] != ')' { assert s[|a| + m] == b[m]; }
    }
  }

  lemma SeparatorBreak(sep: string)
    requires IsSeparator(sep)
    ensures sep != "" && Break(sep[0]) && '(' !in sep
  {
    SeparatorNoParen(sep);
    if sep != OR {
      var a, b :| AllBlank(a) && AllBlank(b) && sep == a + "/" + b;
      if a != "" { assert sep[0] == a[0]; }
    }
  }

  /** What follows a text may be exchanged for something else that starts with a break. */
  lemma AiryCut(a: string, b: string, c: string)
    requires Airy(a + b) && Airy(c) && c != "" && Break(c[0])
    ensures Airy(a + c)
  {
    forall k | 0 <= k < |a + c| && (a + c)[k] == '(' ensures BreaksFirst(a + c, k + 1) {
      if k < |a| {
        assert (a + b)[k] == '(';
        var j :| k + 1 <= j < |a + b| && Break((a + b)[j]) && forall m :: k + 1 <= m < j ==> (a + b)[m] != ')';
        var i := if j < |a| then j else |a|;
        assert Break((a + c)[i]);
        forall m | k + 1 <= m < i ensures (a + c)[m] != ')' { assert (a + b)[m] == a[m] == (a + c)[m]; }
      } else {
        assert c[k - |a|] == '(';
        BreakBehind(a, c, k - |a| + 1);
      }
    }
  }

  /** No marker starts inside airy text, whatever follows it. */
  lemma AiryUnmarked(body: string, tail: string, k: nat)
    requires Airy(body) && k < |body|
    ensures MarkerLength(body + tail, k) == 0
  {
    var s := body + tail;
    assert s[k] == body[k];
    if s[k] == '(' {
      BreakInFront(body, tail, k + 1);
      var j :| k + 1 <= j < |s| && Break(s[j]) && forall m :: k + 1 <= m < j ==> s[m] != ')';
      MarkerCloses(s, k, "(*)", j);
      MarkerCloses(s, k, "(proc-macro)", j);
    } else {
      NoMarker(s, k);
    }
  }

  lemma MarkerCloses(s: string, k: nat, marker: string, j: int)
    requires k < j < |s| && Break(s[j]) && (forall m :: k + 1 <= m < j ==> s[m] != ')') && (marker == "(*)" || marker == "(proc-macro)")
    ensures !StartsAt(s, marker, k)
  {
    if StartsAt(s, marker, k) {
      var e := k + |marker| - 1;
      assert s[e] == s[k..k + |marker|][|marker| - 1] == ')';
      assert s[j] == s[k..k + |marker|][j - k] == marker[j - k];
    }
  }

  // ---- normalising what cargo gives ----

  lemma TailParts(tail: string) returns (blank: string, marker: string)
    requires IsTail(tail)
    ensures tail == blank + marker && AllBlank(blank) && (marker == "(*)" || marker == "(proc-macro)" || (marker == "" && blank == ""))
  {
    if tail == "" {
      blank, marker := "", "";
    } else {
      blank :| AllBlank(blank) && (tail == blank + "(*)" || tail == blank + "(proc-macro)");
      marker := if tail == blank + "(*)" then "(*)" else "(proc-macro)";
    }
  }

  /** The marker goes, the licence stays. */
  lemma UnmarkGiven(w: string, tail: string)
    requires Trim(w) && Airy(w) && IsTail(tail)
    ensures Unmark(w + tail, 0, 0, Markers(w + tail)) == w
  {
    var blank, marker := TailParts(tail);
    var s := w + tail;
    assert s == w + blank + marker;
    forall t | 0 <= t < |w| ensures Markers(s)[t] == 0 { AiryUnmarked(w, tail, t); }
    var f: Reader := (t: nat, h: nat) => if h <= t <= |s| then Unmark(s, t, h, Markers(s)) else "";
    UnmarkBody(f, w, blank, marker, s);
    assert f(0, 0) == Unmark(s, 0, 0, Markers(s));
  }

  /** The slashes become ORs again. */
  lemma NormaliseGiven(w: string, tail: string, s: string)
    requires Rewritten(w, s) && Airy(s) && IsTail(tail)
    ensures Normalise(w + tail) == Tidy(s)
  {
    var xs, seps :| SpelledWell(xs, seps) && w == Spelled(xs, seps) && s == Join(xs, OR);
    SpelledTrim(xs, seps);
    RewrittenAiry(xs, seps);
    UnmarkGiven(w, tail);
    StripTrim(w);
    assert w[0..] == w;
    UnslashSpelled(w, 0, xs, seps);
  }

  /** A licence as cargo gives it: written as it stands or in parentheses, with a tail. */
  ghost predicate GivenAs(given: string, l: Licence) {
    Valid(l) && SlashFree(l) && exists w, tail :: (Writes(w, l) || WritesPart(w, l)) && IsTail(tail) && given == w + tail
  }

  /** Satisfied for the same accepted identifiers. */
  ghost predicate SameMeaning(n: Licence, l: Licence) {
    forall v: string -> bool :: Eval(n, v) <==> Eval(l, v)
  }

  /** The normalised text spells n, and n means what l means. */
  ghost predicate Reads(given: string, l: Licence, n: Licence) {
    Spells(Normalise(given), n) && SameMeaning(n, l)
  }

  lemma RewrittenReads(w: string, tail: string, s: string, l: Licence)
    requires Rewritten(w, s) && Spells(s, l) && Airy(s) && IsTail(tail)
    ensures Reads(w + tail, l, Normalised(s, l))
  {
    NormaliseGiven(w, tail, s);
    TidyKeeps(s, l, _ => true);
    forall v: string -> bool ensures Eval(Normalised(s, l), v) <==> Eval(l, v) { TidyKeeps(s, l, v); }
  }

  lemma WrittenReads(w: string, tail: string, l: Licence)
    requires Valid(l) && SlashFree(l) && (Writes(w, l) || WritesPart(w, l)) && IsTail(tail)
    ensures Reads(w + tail, l, Normalised(if Writes(w, l) then Show(l) else ShowPart(l), l))
  {
    ShowAiry(l);
    if Writes(w, l) {
      WritesRewritten(w, l);
      RewrittenReads(w, tail, Show(l), l);
    } else {
      WritesPartRewritten(w, l);
      RewrittenReads(w, tail, ShowPart(l), l);
    }
  }

  /** Normalising any licence as cargo gives it spells a licence with the same meaning. */
  lemma NormaliseKeeps(given: string, l: Licence)
    requires GivenAs(given, l)
    ensures exists n :: Reads(given, l, n)
  {
    var w, tail :| (Writes(w, l) || WritesPart(w, l)) && IsTail(tail) && given == w + tail;
    WrittenReads(w, tail, l);
  }

  ghost function Reading(given: string, l: Licence): (n: Licence)
    requires GivenAs(given, l)
    ensures Reads(given, l, n)
  {
    NormaliseKeeps(given, l);
    var n :| Reads(given, l, n);
    n
  }

  ghost predicate AllGiven(given: seq<string>, ls: seq<Licence>) {
    |given| == |ls| && forall i :: 0 <= i < |ls| ==> GivenAs(given[i], ls[i])
  }

  ghost function NormaliseAll(given: seq<string>): (r: seq<string>)
    ensures |r| == |given| && forall i :: 0 <= i < |given| ==> r[i] == Normalise(given[i])
  {
    seq(|given|, i requires 0 <= i < |given| => Normalise(given[i]))
  }

  ghost function Readings(given: seq<string>, ls: seq<Licence>): (r: seq<Licence>)
    requires AllGiven(given, ls)
    ensures |r| == |ls| && forall i :: 0 <= i < |ls| ==> Reads(given[i], ls[i], r[i])
  {
    seq(|ls|, i requires 0 <= i < |ls| => Reading(given[i], ls[i]))
  }

  lemma ReadingsMean(given: seq<string>, ls: seq<Licence>, ns: seq<Licence>, v: string -> bool)
    requires given != [] && |given| == |ls| == |ns| && forall i :: 0 <= i < |ls| ==> Reads(given[i], ls[i], ns[i])
    ensures var summary := Summary(Kept(Atoms(NormaliseAll(given))));
            && Spells(Expression(NormaliseAll(given)), summary)
            && (Eval(summary, v) <==> forall i :: 0 <= i < |ls| ==> Eval(ls[i], v))
  {
    forall i | 0 <= i < |ls| ensures Eval(ns[i], v) <==> Eval(ls[i], v) { assert Reads(given[i], ls[i], ns[i]); }
    Meaning(NormaliseAll(given), ns, v);
  }

  /** End to end: the expression of the normalised licences is satisfied exactly when all the licences
      as cargo gave them are, whatever identifiers are accepted. */
  lemma NormalisedMeaning(given: seq<string>, ls: seq<Licence>, v: string -> bool)
    requires given != [] && AllGiven(given, ls)
    ensures var summary := Summary(Kept(Atoms(NormaliseAll(given))));
            && Spells(Expression(NormaliseAll(given)), summary)
            && (Eval(summary, v) <==> forall i :: 0 <= i < |ls| ==> Eval(ls[i], v))
  {
    ReadingsMean(given, ls, Readings(given, ls), v);
  }
}
