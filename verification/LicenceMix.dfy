/** What the code does outside its grammar: choices joined by AND without parentheses, which it splits
    on AND first, whereas Annex D of the SPDX Specification 2.3 lets AND bind tighter; and a program
    without crates. */
module LicenceMix {
  import opened Basics
  import opened Text
  import opened LicenceSplit
  import opened Licences
  import opened LicenceLaws

  /** Choices, each a list of identifiers, in the order they are written. */
  type Mix = seq<seq<string>>

  ghost predicate IsMix(m: Mix) {
    m != [] && forall i :: 0 <= i < |m| ==> IsOptions(m[i])
  }

  // ---- the text and its two readings ----

  function ChoiceTexts(m: Mix): (r: seq<string>)
    ensures |r| == |m| && forall i :: 0 <= i < |r| ==> r[i] == Join(m[i], OR)
  {
    seq(|m|, i requires 0 <= i < |m| => Join(m[i], OR))
  }

  /** The mix as it is written. */
  function MixText(m: Mix): string {
    Join(ChoiceTexts(m), AND)
  }

  /** The text as alternatives: runs of identifiers with AND between them. */
  function Runs(m: Mix): (r: seq<seq<string>>)
    requires m != [] && forall i :: 0 <= i < |m| ==> m[i] != []
    ensures r != [] && forall i :: 0 <= i < |r| ==> r[i] != []
    decreases |m|, |m[0]|
  {
    if |m[0]| > 1 then [[m[0][0]]] + Runs([m[0][1..]] + m[1..])
    else if |m| == 1 then [m[0]]
    else
      var rest := Runs(m[1..]);
      [m[0] + rest[0]] + rest[1..]
  }

  function RunTexts(rs: seq<seq<string>>): (r: seq<string>)
    ensures |r| == |rs| && forall i :: 0 <= i < |r| ==> r[i] == Join(rs[i], AND)
  {
    seq(|rs|, i requires 0 <= i < |rs| => Join(rs[i], AND))
  }

  lemma TextTakesOption(m: Mix)
    requires m != [] && |m[0]| > 1
    ensures MixText(m) == m[0][0] + OR + MixText([m[0][1..]] + m[1..])
  {
    var n := [m[0][1..]] + m[1..];
    var x, y := ChoiceTexts(m), ChoiceTexts(n);
    assert x[1..] == y[1..] && x[0] == m[0][0] + OR + y[0];
    if |m| > 1 { RegroupFive(m[0][0], OR, y[0], AND, Join(y[1..], AND)); }
  }

  lemma TextTakesChoice(m: Mix)
    requires |m| > 1 && |m[0]| == 1
    ensures MixText(m) == m[0][0] + AND + MixText(m[1..])
  {
    assert ChoiceTexts(m)[1..] == ChoiceTexts(m[1..]);
  }

  lemma RunsTakeFirst(o: string, rest: seq<seq<string>>)
    requires rest != []
    ensures Join(RunTexts([[o]] + rest), OR) == o + OR + Join(RunTexts(rest), OR)
  {
    var x := RunTexts([[o]] + rest);
    assert x[1..] == RunTexts(rest) && x[0] == o;
  }

  lemma RunsGrowFirst(o: string, rest: seq<seq<string>>)
    requires rest != [] && rest[0] != []
    ensures Join(RunTexts([[o] + rest[0]] + rest[1..]), OR) == o + AND + Join(RunTexts(rest), OR)
  {
    var x, y := RunTexts([[o] + rest[0]] + rest[1..]), RunTexts(rest);
    JoinCons(o, rest[0], AND);
    assert x[1..] == y[1..] && x[0] == o + AND + y[0];
    if |rest| > 1 { RegroupFive(o, AND, y[0], OR, Join(y[1..], OR)); }
  }

  /** Both readings are of one text. */
  lemma {:induction false} SameText(m: Mix)
    requires m != [] && forall i :: 0 <= i < |m| ==> m[i] != []
    ensures Join(RunTexts(Runs(m)), OR) == MixText(m)
    decreases |m|, if m == [] then 0 else |m[0]|
  {
    if |m[0]| > 1 {
      var n := [m[0][1..]] + m[1..];
      SameText(n);
      TextTakesOption(m);
      RunsTakeFirst(m[0][0], Runs(n));
    } else if |m| > 1 {
      SameText(m[1..]);
      TextTakesChoice(m);
      assert m[0] == [m[0][0]];
      RunsGrowFirst(m[0][0], Runs(m[1..]));
    } else {
      assert m[0] == [m[0][0]] && RunTexts(Runs(m)) == [m[0][0]] && ChoiceTexts(m) == [m[0][0]];
    }
  }

  /** What the code makes of the text: its terms, all of them satisfied. */
  ghost predicate AsRead(m: Mix, v: string -> bool) {
    forall t :: t in Terms(MixText(m)) ==> TermTrue(t, v)
  }

  /** What the specification makes of it: some run with every identifier accepted. */
  ghost predicate AsMeant(m: Mix, v: string -> bool)
    requires IsMix(m)
  {
    exists i :: 0 <= i < |Runs(m)| && AllTrue(Runs(m)[i], v)
  }

  ghost predicate AllTrue(run: seq<string>, v: string -> bool) {
    forall k :: 0 <= k < |run| ==> v(run[k])
  }

  ghost predicate SomeTrue(options: seq<string>, v: string -> bool) {
    exists k :: 0 <= k < |options| && v(options[k])
  }

  // ---- the code's reading ----

  /** The code reads the mix as its choices, in order. */
  lemma MixTerms(m: Mix)
    requires IsMix(m)
    ensures Terms(MixText(m)) == ChoiceTexts(m)
  {
    var ts := ChoiceTexts(m);
    forall k | 0 <= k < |ts| ensures Piece(ts[k]) && OnePart(ts[k]) == [ts[k]] {
      TermPiece(m[k]);
      TermTerms(m[k]);
    }
    SplitPieces(ts);
    assert forall k :: 0 <= k < |ts| ==> ts[k] in SplitTop(MixText(m), AND);
    SinglePartTerms(ts, ts, 0, |MixText(m)|);
    assert ts[0..] == ts;
  }

  lemma ReadAsChoices(m: Mix, v: string -> bool)
    requires IsMix(m)
    ensures AsRead(m, v) <==> forall i :: 0 <= i < |m| ==> SomeTrue(m[i], v)
  {
    var ts := ChoiceTexts(m);
    MixTerms(m);
    forall i | 0 <= i < |m| ensures TermTrue(ts[i], v) <==> SomeTrue(m[i], v) { OptionsOfJoin(m[i]); }
    if AsRead(m, v) {
      forall i | 0 <= i < |m| ensures SomeTrue(m[i], v) { assert ts[i] in ts; }
    } else {
      var t :| t in ts && !TermTrue(t, v);
      var i :| 0 <= i < |ts| && ts[i] == t;
    }
  }

  // ---- when the readings agree ----

  /** Some identifier of the run is an option of the choice. */
  ghost predicate Meets(run: seq<string>, options: seq<string>) {
    exists k :: 0 <= k < |run| && run[k] in options
  }

  /** One option taken from each choice. */
  ghost predicate Selects(sel: seq<string>, m: Mix) {
    |sel| == |m| && forall i :: 0 <= i < |m| ==> sel[i] in m[i]
  }

  ghost predicate Within(run: seq<string>, sel: seq<string>) {
    forall k :: 0 <= k < |run| ==> run[k] in sel
  }

  /** Every run has something of every choice, and every selection holds a whole run. */
  ghost predicate Fitting(m: Mix)
    requires IsMix(m)
  {
    && (forall r, i :: 0 <= r < |Runs(m)| && 0 <= i < |m| ==> Meets(Runs(m)[r], m[i]))
    && forall sel :: Selects(sel, m) ==> exists r :: 0 <= r < |Runs(m)| && Within(Runs(m)[r], sel)
  }

  ghost function OneTrue(options: seq<string>, v: string -> bool): (o: string)
    requires SomeTrue(options, v)
    ensures o in options && v(o)
  {
    var k :| 0 <= k < |options| && v(options[k]);
    options[k]
  }

  ghost function Picked(m: Mix, v: string -> bool): (sel: seq<string>)
    requires forall i :: 0 <= i < |m| ==> SomeTrue(m[i], v)
    ensures Selects(sel, m) && forall i :: 0 <= i < |sel| ==> v(sel[i])
  {
    seq(|m|, i requires 0 <= i < |m| => OneTrue(m[i], v))
  }

  lemma MeetingTrue(run: seq<string>, options: seq<string>, v: string -> bool)
    requires AllTrue(run, v) && Meets(run, options)
    ensures SomeTrue(options, v)
  {
    var k :| 0 <= k < |run| && run[k] in options;
    var j :| 0 <= j < |options| && options[j] == run[k];
  }

  lemma WithinTrue(run: seq<string>, sel: seq<string>, v: string -> bool)
    requires Within(run, sel) && forall i :: 0 <= i < |sel| ==> v(sel[i])
    ensures AllTrue(run, v)
  {
    forall k | 0 <= k < |run| ensures v(run[k]) {
      var i :| 0 <= i < |sel| && sel[i] == run[k];
    }
  }

  lemma FittingAgrees(m: Mix, v: string -> bool)
    requires IsMix(m) && Fitting(m)
    ensures AsRead(m, v) <==> AsMeant(m, v)
  {
    ReadAsChoices(m, v);
    var runs := Runs(m);
    if r :| 0 <= r < |runs| && AllTrue(runs[r], v) {
      forall i | 0 <= i < |m| ensures SomeTrue(m[i], v) { MeetingTrue(runs[r], m[i], v); }
    }
    if forall i :: 0 <= i < |m| ==> SomeTrue(m[i], v) {
      var sel := Picked(m, v);
      var r :| 0 <= r < |runs| && Within(runs[r], sel);
      WithinTrue(runs[r], sel, v);
    }
  }

  lemma AgreeingMeets(m: Mix, r: nat, i: nat)
    requires IsMix(m) && r < |Runs(m)| && i < |m| && forall v: string -> bool :: AsRead(m, v) == AsMeant(m, v)
    ensures Meets(Runs(m)[r], m[i])
  {
    var run := Runs(m)[r];
    var v: string -> bool := x => x in run;
    assert AllTrue(run, v) && AsMeant(m, v) && AsRead(m, v);
    ReadAsChoices(m, v);
    assert SomeTrue(m[i], v);
    var k :| 0 <= k < |m[i]| && v(m[i][k]);
    var j :| 0 <= j < |run| && run[j] == m[i][k];
  }

  lemma AgreeingHolds(m: Mix, sel: seq<string>)
    requires IsMix(m) && Selects(sel, m) && forall v: string -> bool :: AsRead(m, v) == AsMeant(m, v)
    ensures exists r :: 0 <= r < |Runs(m)| && Within(Runs(m)[r], sel)
  {
    var v: string -> bool := x => x in sel;
    forall i | 0 <= i < |m| ensures SomeTrue(m[i], v) {
      assert sel[i] in m[i] && sel[i] in sel;
      var k :| 0 <= k < |m[i]| && m[i][k] == sel[i];
    }
    ReadAsChoices(m, v);
    assert AsRead(m, v) == AsMeant(m, v);
    var r :| 0 <= r < |Runs(m)| && AllTrue(Runs(m)[r], v);
    assert Within(Runs(m)[r], sel);
  }

  /** The two readings of an unparenthesised mix agree for every set of accepted identifiers if and only
      if every run meets every choice and every selection of one option from each choice holds a run. */
  lemma MixedPrecedence(m: Mix)
    requires IsMix(m)
    ensures (forall v: string -> bool :: AsRead(m, v) == AsMeant(m, v)) <==> Fitting(m)
  {
    if Fitting(m) {
      forall v: string -> bool ensures AsRead(m, v) == AsMeant(m, v) { FittingAgrees(m, v); }
    }
    if forall v: string -> bool :: AsRead(m, v) == AsMeant(m, v) {
      forall r, i | 0 <= r < |Runs(m)| && 0 <= i < |m| ensures Meets(Runs(m)[r], m[i]) { AgreeingMeets(m, r, i); }
      forall sel | Selects(sel, m) ensures exists r :: 0 <= r < |Runs(m)| && Within(Runs(m)[r], sel) { AgreeingHolds(m, sel); }
    }
  }

  // ---- examples ----

  /** A word without white space and parentheses, other than AND and OR, is an identifier. */
  lemma WordIsAtom(a: string)
    requires a != "" && NoParens(a) && (forall k :: 0 <= k < |a| ==> !Space(a[k])) && a != "AND" && a != "OR"
    ensures IsAtom(a)
  {
    var p := Pad(a);
    assert forall k :: 0 < k <= |a| ==> p[k] == a[k - 1];
    forall i | 0 <= i <= |p| ensures !StartsAt(p, AND, i) && !StartsAt(p, OR, i) {
      NoWordHere(a, "AND", i);
      NoWordHere(a, "OR", i);
    }
  }

  lemma NoWordHere(a: string, word: string, i: int)
    requires a != "" && (forall k :: 0 <= k < |a| ==> !Space(a[k])) && a != word && word != "" && 0 <= i
    ensures !StartsAt(Pad(a), " " + word + " ", i)
  {
    var p, w := Pad(a), " " + word + " ";
    if StartsAt(p, w, i) {
      assert p[i] == p[i..i + |w|][0] == ' ' && p[i + |w| - 1] == p[i..i + |w|][|w| - 1] == ' ';
      assert i == 0 || i == |a| + 1 by { if 0 < i <= |a| { assert p[i] == a[i - 1]; } }
      assert i + |w| - 1 == |a| + 1 by { if 0 < i + |w| - 1 <= |a| { assert p[i + |w| - 1] == a[i + |w| - 2]; } }
      assert p[i..i + |w|][1..|w| - 1] == a && w[1..|w| - 1] == word;
    }
  }

  const MIT := "MIT"
  const APACHE := "Apache-2.0"
  const BSD := "BSD-3-Clause"
  const GPL := "GPL-3.0-or-later"

  lemma Words()
    ensures IsAtom(MIT) && IsAtom(APACHE) && IsAtom(BSD) && IsAtom(GPL)
  {
    WordIsAtom(MIT);
    WordIsAtom(APACHE);
    WordIsAtom(BSD);
    WordIsAtom(GPL);
  }

  const MIXED: Mix := [[MIT, APACHE], [BSD]]

  lemma MixedIs()
    ensures IsMix(MIXED) && MixText(MIXED) == "MIT OR Apache-2.0 AND BSD-3-Clause" && Runs(MIXED)[0] == [MIT]
  {
    Words();
    assert IsOptions([MIT, APACHE]) && IsOptions([BSD]);
    var o := [MIT, APACHE];
    assert o[1..] == [APACHE] && Join([APACHE], OR) == APACHE;
    var t := Join(o, OR);
    assert t == MIT + OR + APACHE;
    assert t == "MIT OR Apache-2.0";
    assert Join([BSD], OR) == BSD;
    assert ChoiceTexts(MIXED) == [t, BSD] && [t, BSD][1..] == [BSD];
    assert Join([t, BSD], AND) == t + AND + BSD;
    assert "MIT OR Apache-2.0" + AND + BSD == "MIT OR Apache-2.0 AND BSD-3-Clause";
  }

  /** Whoever accepts MIT alone may use `MIT OR Apache-2.0 AND BSD-3-Clause`; the code says no. */
  lemma MixedExample()
    ensures IsMix(MIXED) && MixText(MIXED) == "MIT OR Apache-2.0 AND BSD-3-Clause"
    ensures AsMeant(MIXED, x => x == MIT) && !AsRead(MIXED, x => x == MIT)
  {
    MixedIs();
    var v: string -> bool := x => x == MIT;
    assert AllTrue(Runs(MIXED)[0], v);
    ReadAsChoices(MIXED, v);
    assert MIXED[1] == [BSD] && |BSD| != |MIT|;
    assert !SomeTrue(MIXED[1], v);
  }

  /** A program without crates next to the package's own licence: the two expressions differ. */
  lemma EmptyProgramExample()
    ensures Expression([GPL] + Summaries([[]])) != Expression([GPL] + Flatten([[]]))
  {
    Words();
    assert Valid(Choice([GPL])) && Show(Choice([GPL])) == GPL;
    assert Spells(GPL, Choice([GPL])) && Grammatical(GPL);
    var groups: seq<seq<string>> := [[]];
    assert groups[0] == [];
    Composition([GPL], groups);
  }
}
