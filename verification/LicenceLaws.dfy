/** What the licence expression keeps: the terms it prints are read back as they were, two levels of
    combining give what one level gives, and the truth value is that of all the input licences. */
module LicenceLaws {
  import opened Text
  import opened LicenceSplit
  import opened Licences

  // ---- reading a licence ----

  /** The choices of a licence, in order. */
  function Flat(l: Licence): (r: seq<string>)
    decreases l, 1
  {
    match l
    case Choice(options) => [Join(options, OR)]
    case All(parts) => FlatFrom(parts, 0)
  }

  function FlatFrom(parts: seq<Licence>, i: nat): (r: seq<string>)
    requires i <= |parts|
    decreases parts, 0, |parts| - i
  {
    if i == |parts| then [] else Flat(parts[i]) + FlatFrom(parts, i + 1)
  }

  lemma {:induction false} JoinBalanced(parts: seq<string>)
    requires forall k :: 0 <= k < |parts| ==> Balanced(parts[k])
    ensures Balanced(Join(parts, AND))
  {
    NoParensBalanced("");
    if |parts| > 1 {
      JoinBalanced(parts[1..]);
      NoParensBalanced(AND);
      BalancedConcat(parts[0], AND);
      BalancedConcat(parts[0] + AND, Join(parts[1..], AND));
    }
  }

  lemma {:induction false} ShowPieces(l: Licence)
    requires Valid(l)
    ensures Balanced(Show(l)) && Piece(ShowPart(l)) && Balanced(ShowPart(l))
  {
    match l
    case Choice(options) =>
      TermPiece(options);
      if |options| > 1 { WrappedPiece(Show(l)); }
    case All(parts) =>
      forall k | 0 <= k < |parts| ensures Balanced(ShowParts(parts)[k]) { ShowPieces(parts[k]); }
      JoinBalanced(ShowParts(parts));
      WrappedPiece(Show(l));
  }

  lemma SplitShown(parts: seq<Licence>)
    requires parts != [] && forall k :: 0 <= k < |parts| ==> Valid(parts[k])
    ensures SplitTop(Join(ShowParts(parts), AND), AND) == ShowParts(parts)
  {
    forall k | 0 <= k < |parts| ensures Piece(ShowParts(parts)[k]) { ShowPieces(parts[k]); }
    SplitPieces(ShowParts(parts));
  }

  /** An expression that is not split has the terms of its one part. */
  lemma OnlyPart(p: string)
    requires Piece(p)
    ensures SplitTop(p, AND) == [p] && Terms(p) == OnePart(p)
  {
    SplitPieces([p]);
    assert Join([p], AND) == p;
    assert PartTerms([p], 1, |p|) == [];
    assert OnePart(p) + [] == OnePart(p);
  }

  /** A choice is one term, alone or in parentheses. */
  lemma ChoiceTerms(t: string)
    requires Piece(t) && Balanced(t) && NoParens(t)
    ensures Terms(t) == [t] && OnePart(t) == [t] && OnePart("(" + t + ")") == [t]
  {
    OnlyPart(t);
    var p := "(" + t + ")";
    assert Inner(p) == t;
  }

  lemma TermTerms(options: seq<string>)
    requires IsOptions(options)
    ensures var t := Join(options, OR);
            Terms(t) == [t] && OnePart(t) == [t] && OnePart("(" + t + ")") == [t]
  {
    TermPiece(options);
    TermNoParens(options);
    ChoiceTerms(Join(options, OR));
  }

  /** Reading a licence as it is written, or as a part in parentheses, gives its choices in order. */
  lemma {:induction false} TermsOfShow(l: Licence)
    requires Valid(l)
    ensures Terms(Show(l)) == Flat(l) && OnePart(ShowPart(l)) == Flat(l)
    decreases l, 1
  {
    match l
    case Choice(options) =>
      TermTerms(options);
    case All(parts) =>
      SplitShown(parts);
      PartsOfShow(parts, 0, |Show(l)|);
      assert Inner(ShowPart(l)) == Show(l);
  }

  lemma {:induction false} PartsOfShow(parts: seq<Licence>, i: nat, bound: nat)
    requires i <= |parts| && forall k :: 0 <= k < |parts| ==> Valid(parts[k])
    requires forall k :: 0 <= k < |parts| ==> |ShowParts(parts)[k]| <= bound
    ensures PartTerms(ShowParts(parts), i, bound) == FlatFrom(parts, i)
    decreases parts, 0, |parts| - i
  {
    if i < |parts| {
      TermsOfShow(parts[i]);
      PartsOfShow(parts, i + 1, bound);
    }
  }

  lemma TermsOfSpelling(s: string, l: Licence)
    requires Spells(s, l)
    ensures Terms(s) == Flat(l)
  {
    TermsOfShow(l);
    if s == ShowPart(l) {
      ShowPieces(l);
      OnlyPart(s);
    }
  }

  lemma {:induction false} FlatTerms(l: Licence)
    requires Valid(l)
    ensures Flat(l) != [] && forall t :: t in Flat(l) ==> IsTerm(t)
    decreases l, 1
  {
    if l.All? { FlatFromTerms(l.parts, 0); }
  }

  lemma {:induction false} FlatFromTerms(parts: seq<Licence>, i: nat)
    requires i <= |parts| && forall k :: 0 <= k < |parts| ==> Valid(parts[k])
    ensures i < |parts| ==> FlatFrom(parts, i) != []
    ensures forall t :: t in FlatFrom(parts, i) ==> IsTerm(t)
    decreases parts, 0, |parts| - i
  {
    if i < |parts| {
      FlatTerms(parts[i]);
      FlatFromTerms(parts, i + 1);
    }
  }

  lemma GrammaticalTerms(s: string)
    requires Grammatical(s)
    ensures Terms(s) != [] && forall t :: t in Terms(s) ==> IsTerm(t)
  {
    var l :| Spells(s, l);
    TermsOfSpelling(s, l);
    FlatTerms(l);
  }

  // ---- printing and reading back ----

  ghost predicate AllTerms(k: set<string>) {
    forall t :: t in k ==> IsTerm(t)
  }

  lemma ParenTerm(t: string)
    requires IsTerm(t)
    ensures Piece(Paren(t)) && Piece(t) && OnePart(Paren(t)) == [t] && Terms(t) == [t]
  {
    var options :| IsOptions(options) && t == Join(options, OR);
    TermPiece(options);
    TermTerms(options);
    WrappedPiece(t);
  }

  /** When every part is one term, the terms of the parts are those. */
  lemma {:induction false} SinglePartTerms(parts: seq<string>, terms: seq<string>, i: nat, bound: nat)
    requires i <= |parts| == |terms| && forall k :: 0 <= k < |parts| ==> |parts[k]| <= bound
    requires forall k :: 0 <= k < |parts| ==> OnePart(parts[k]) == [terms[k]]
    ensures PartTerms(parts, i, bound) == terms[i..]
    decreases |parts| - i
  {
    if i < |parts| {
      SinglePartTerms(parts, terms, i + 1, bound);
      assert terms[i..] == [terms[i]] + terms[i + 1..];
    }
  }

  lemma TermsOfParens(terms: seq<string>)
    requires terms != [] && forall k :: 0 <= k < |terms| ==> IsTerm(terms[k])
    ensures Terms(Join(ParenAll(terms), AND)) == terms && Trim(Join(ParenAll(terms), AND))
  {
    forall k | 0 <= k < |terms| ensures Piece(ParenAll(terms)[k]) && OnePart(ParenAll(terms)[k]) == [terms[k]] {
      ParenTerm(terms[k]);
    }
    SplitPieces(ParenAll(terms));
    var s := Join(ParenAll(terms), AND);
    assert forall k :: 0 <= k < |terms| ==> ParenAll(terms)[k] in SplitTop(s, AND);
    SinglePartTerms(ParenAll(terms), terms, 0, |s|);
    assert terms[0..] == terms;
    JoinTrim(ParenAll(terms));
  }

  /** Reading a printed set of terms gives the set back, in order. */
  lemma TermsOfPrint(kept: set<string>)
    requires kept != {} && AllTerms(kept)
    ensures Terms(Print(kept)) == Sorted(kept)
    ensures Trim(Print(kept))
  {
    var terms := Sorted(kept);
    forall k | 0 <= k < |terms| ensures IsTerm(terms[k]) { assert terms[k] in terms; }
    var x :| x in kept;
    assert x in terms;
    if |terms| == 1 {
      ParenTerm(terms[0]);
      assert terms == [terms[0]];
    } else {
      TermsOfParens(terms);
    }
  }

  lemma {:induction false} JoinTrim(parts: seq<string>)
    requires parts != [] && forall k :: 0 <= k < |parts| ==> Trim(parts[k])
    ensures Trim(Join(parts, AND))
  {
    if |parts| > 1 { JoinTrim(parts[1..]); }
  }

  lemma EmptyPrint()
    ensures Print({}) == "" && Terms("") == [""]
  {
    assert Sorted({}) == [] by {
      if Sorted({}) != [] { assert Sorted({})[0] in Sorted({}); }
    }
    assert SplitTop("", AND) == [""];
    assert PartTerms([""], 1, 0) == [];
  }

  // ---- combining in two levels ----

  lemma AtomsTerms(licences: seq<string>)
    requires forall i :: 0 <= i < |licences| ==> Grammatical(licences[i])
    ensures AllTerms(Atoms(licences)) && (licences != [] ==> Atoms(licences) != {})
  {
    forall t | t in Atoms(licences) ensures IsTerm(t) {
      var l :| l in licences && t in Terms(l);
      GrammaticalTerms(l);
    }
    if licences != [] {
      var l := licences[0];
      GrammaticalTerms(l);
      var t := Terms(l)[0];
      assert l in licences && t in Terms(l);
      assert t in Atoms(licences);
    }
  }

  /** Every term is kept or absorbed by a plain one that is kept; so not all are dropped. */
  lemma KeptNonEmpty(atoms: set<string>, t: string) returns (k: string)
    requires t in atoms && IsTerm(t)
    ensures k in Kept(atoms) && k != ""
  {
    var options :| IsOptions(options) && t == Join(options, OR);
    OptionsOfJoin(options);
    TermTrim(options);
    if t in Kept(atoms) {
      k := t;
    } else {
      var i :| 0 <= i < |options| && Strip(options[i]) in Plain(atoms);
      StripTrim(options[i]);
      k := options[i];
    }
  }

  ghost function Union(sets: seq<set<string>>): set<string> {
    set i, x | 0 <= i < |sets| && x in sets[i] :: x
  }

  ghost function KeptEach(sets: seq<set<string>>): (r: seq<set<string>>)
    ensures |r| == |sets| && forall i :: 0 <= i < |r| ==> r[i] == Kept(sets[i])
  {
    seq(|sets|, i requires 0 <= i < |sets| => Kept(sets[i]))
  }

  /** Dropping absorbed choices in each part first changes nothing about what is kept of the whole. */
  lemma KeptTwice(first: set<string>, sets: seq<set<string>>)
    ensures Kept(first + Union(KeptEach(sets))) == Kept(first + Union(sets))
  {
    var a, b := first + Union(sets), first + Union(KeptEach(sets));
    forall x ensures x in Plain(a) <==> x in Plain(b) {
      if x in Plain(a) && x !in first {
        var i :| 0 <= i < |sets| && x in sets[i];
        assert x in KeptEach(sets)[i];
      }
      if x in Plain(b) && x !in first {
        var i :| 0 <= i < |sets| && x in KeptEach(sets)[i];
        assert x in sets[i];
      }
    }
    assert Plain(a) == Plain(b);
    forall x ensures x in Kept(a) <==> x in Kept(b) {
      if x in Kept(a) && x !in first {
        var i :| 0 <= i < |sets| && x in sets[i];
        if Absorbed(sets[i], x) {
          var k :| 0 <= k < |Options(x)| && Strip(Options(x)[k]) in Plain(sets[i]);
          assert Strip(Options(x)[k]) in Plain(a);
        }
        assert x in KeptEach(sets)[i];
      }
      if x in Kept(b) && x !in first {
        var i :| 0 <= i < |sets| && x in KeptEach(sets)[i];
        assert x in sets[i];
      }
    }
  }

  ghost function Summaries(groups: seq<seq<string>>): (r: seq<string>)
    ensures |r| == |groups| && forall i :: 0 <= i < |r| ==> r[i] == Expression(groups[i])
  {
    seq(|groups|, i requires 0 <= i < |groups| => Expression(groups[i]))
  }

  function Flatten(groups: seq<seq<string>>): (r: seq<string>)
    ensures forall l :: l in r <==> exists i :: 0 <= i < |groups| && l in groups[i]
  {
    if groups == [] then [] else
    assert forall i :: 0 < i < |groups| ==> groups[i] == groups[1..][i - 1];
    groups[0] + Flatten(groups[1..])
  }

  ghost function AtomsEach(groups: seq<seq<string>>): (r: seq<set<string>>)
    ensures |r| == |groups| && forall i :: 0 <= i < |r| ==> r[i] == Atoms(groups[i])
  {
    seq(|groups|, i requires 0 <= i < |groups| => Atoms(groups[i]))
  }

  ghost predicate GrammaticalAll(licences: seq<string>) {
    forall i :: 0 <= i < |licences| ==> Grammatical(licences[i])
  }

  lemma AtomsConcat(a: seq<string>, b: seq<string>)
    ensures Atoms(a + b) == Atoms(a) + Atoms(b)
  {
  }

  lemma AtomsFlatten(groups: seq<seq<string>>)
    ensures Atoms(Flatten(groups)) == Union(AtomsEach(groups))
  {
    forall t ensures t in Atoms(Flatten(groups)) <==> t in Union(AtomsEach(groups)) {
      if t in Atoms(Flatten(groups)) {
        var l :| l in Flatten(groups) && t in Terms(l);
        var i :| 0 <= i < |groups| && l in groups[i];
        assert t in AtomsEach(groups)[i];
      }
      if t in Union(AtomsEach(groups)) {
        var i :| 0 <= i < |groups| && t in AtomsEach(groups)[i];
        var l :| l in groups[i] && t in Terms(l);
        assert l in Flatten(groups);
      }
    }
  }

  /** The terms of a group's summary are the terms the group kept. */
  lemma SummaryTerms(group: seq<string>)
    requires GrammaticalAll(group)
    ensures group != [] ==> AllTerms(Kept(Atoms(group))) && Kept(Atoms(group)) != {}
    ensures group != [] ==> forall t :: t in Terms(Expression(group)) <==> t in Kept(Atoms(group))
  {
    AtomsTerms(group);
    if group != [] {
      var t :| t in Atoms(group);
      var k := KeptNonEmpty(Atoms(group), t);
      TermsOfPrint(Kept(Atoms(group)));
    }
  }

  lemma AtomsSummaries(groups: seq<seq<string>>)
    requires forall i :: 0 <= i < |groups| ==> groups[i] != [] && GrammaticalAll(groups[i])
    ensures Atoms(Summaries(groups)) == Union(KeptEach(AtomsEach(groups)))
  {
    forall t ensures t in Atoms(Summaries(groups)) <==> t in Union(KeptEach(AtomsEach(groups))) {
      if t in Atoms(Summaries(groups)) {
        var l :| l in Summaries(groups) && t in Terms(l);
        var i :| 0 <= i < |groups| && l == Summaries(groups)[i];
        SummaryTerms(groups[i]);
        assert t in KeptEach(AtomsEach(groups))[i];
      }
      if t in Union(KeptEach(AtomsEach(groups))) {
        var i :| 0 <= i < |groups| && t in KeptEach(AtomsEach(groups))[i];
        SummaryTerms(groups[i]);
        assert Summaries(groups)[i] in Summaries(groups);
      }
    }
  }

  lemma SameWhenNonEmpty(first: seq<string>, groups: seq<seq<string>>)
    requires GrammaticalAll(first)
    requires forall i :: 0 <= i < |groups| ==> groups[i] != [] && GrammaticalAll(groups[i])
    ensures Expression(first + Summaries(groups)) == Expression(first + Flatten(groups))
  {
    AtomsConcat(first, Summaries(groups));
    AtomsConcat(first, Flatten(groups));
    AtomsSummaries(groups);
    AtomsFlatten(groups);
    KeptTwice(Atoms(first), AtomsEach(groups));
  }

  /** A set with the empty term and another one is printed with a leading separator. */
  lemma EmptyTermShows(kept: set<string>, k: string)
    requires "" in kept && k in kept && k != ""
    ensures Print(kept) != "" && Print(kept)[0] == ' '
  {
    var terms := Sorted(kept);
    assert "" in terms && k in terms;
    var i :| 0 <= i < |terms| && terms[i] == "";
    var j :| 0 <= j < |terms| && terms[j] == k;
    if i > 0 { assert Less(terms[0], terms[i]); }
    assert |terms| > 1 && ParenAll(terms)[0] == "";
  }

  /** A program without crates has an empty summary, and it shows in the combined expression. */
  lemma DiffersWhenEmpty(first: seq<string>, groups: seq<seq<string>>, e: nat)
    requires first != [] && GrammaticalAll(first)
    requires forall i :: 0 <= i < |groups| ==> GrammaticalAll(groups[i])
    requires e < |groups| && groups[e] == []
    ensures Expression(first + Summaries(groups)) != Expression(first + Flatten(groups))
  {
    AtomsTerms(first);
    var t :| t in Atoms(first);
    var all := first + Summaries(groups);
    AtomsConcat(first, Summaries(groups));
    EmptyPrint();
    assert Atoms([]) == {} && Kept({}) == {};
    assert Summaries(groups)[e] == "" && "" in Summaries(groups);
    assert "" in Terms("");
    assert "" in Atoms(all) && !IsChoice("");
    var k := KeptNonEmpty(Atoms(all), t);
    EmptyTermShows(Kept(Atoms(all)), k);
    var flat := first + Flatten(groups);
    forall i | 0 <= i < |flat| ensures Grammatical(flat[i]) {
      if i >= |first| {
        assert flat[i] in Flatten(groups);
        var g :| 0 <= g < |groups| && flat[i] in groups[g];
      }
    }
    SummaryTerms(flat);
    TermsOfPrint(Kept(Atoms(flat)));
  }

  /** Composition. The expression built from the programs' summaries and the package's own licences
      equals, character for character, the one built from all their crates' licences at once, exactly
      when every program has crates. */
  lemma Composition(first: seq<string>, groups: seq<seq<string>>)
    requires first != [] && GrammaticalAll(first)
    requires forall i :: 0 <= i < |groups| ==> GrammaticalAll(groups[i])
    ensures Expression(first + Summaries(groups)) == Expression(first + Flatten(groups)) <==>
            forall i :: 0 <= i < |groups| ==> groups[i] != []
  {
    if forall i :: 0 <= i < |groups| ==> groups[i] != [] {
      SameWhenNonEmpty(first, groups);
    } else {
      var e :| 0 <= e < |groups| && groups[e] == [];
      DiffersWhenEmpty(first, groups, e);
    }
  }

  // ---- meaning ----

  /** Whether a licence is satisfied when the accepted identifiers are those of v. */
  ghost predicate Eval(l: Licence, v: string -> bool) {
    match l
    case Choice(options) => exists k :: 0 <= k < |options| && v(options[k])
    case All(parts) => forall k :: 0 <= k < |parts| ==> Eval(parts[k], v)
  }

  ghost predicate TermTrue(t: string, v: string -> bool) {
    exists k :: 0 <= k < |Options(t)| && v(Options(t)[k])
  }

  lemma {:induction false} FlatMeaning(l: Licence, v: string -> bool)
    requires Valid(l)
    ensures Eval(l, v) <==> forall t :: t in Flat(l) ==> TermTrue(t, v)
    decreases l, 1
  {
    match l
    case Choice(options) =>
      OptionsOfJoin(options);
      var t := Join(options, OR);
      assert forall u :: u in [t] <==> u == t;
      assert TermTrue(t, v) <==> Eval(l, v);
    case All(parts) => FlatFromMeaning(parts, 0, v);
  }

  lemma {:induction false} FlatFromMeaning(parts: seq<Licence>, i: nat, v: string -> bool)
    requires i <= |parts| && forall k :: 0 <= k < |parts| ==> Valid(parts[k])
    ensures (forall k :: i <= k < |parts| ==> Eval(parts[k], v)) <==> forall t :: t in FlatFrom(parts, i) ==> TermTrue(t, v)
    decreases parts, 0, |parts| - i
  {
    if i < |parts| {
      FlatMeaning(parts[i], v);
      FlatFromMeaning(parts, i + 1, v);
    }
  }

  /** Dropping a choice is always an absorption: what is kept implies what is dropped. */
  lemma KeptMeaning(atoms: set<string>, v: string -> bool)
    requires AllTerms(atoms)
    ensures (forall t :: t in Kept(atoms) ==> TermTrue(t, v)) <==> forall t :: t in atoms ==> TermTrue(t, v)
  {
    if forall t :: t in Kept(atoms) ==> TermTrue(t, v) {
      forall t | t in atoms ensures TermTrue(t, v) {
        if t !in Kept(atoms) { AbsorbedTrue(atoms, t, v); }
      }
    }
  }

  lemma AbsorbedTrue(atoms: set<string>, t: string, v: string -> bool)
    requires AllTerms(atoms) && t in atoms && t !in Kept(atoms)
    requires forall k :: k in Kept(atoms) ==> TermTrue(k, v)
    ensures TermTrue(t, v)
  {
    var options :| IsOptions(options) && t == Join(options, OR);
    OptionsOfJoin(options);
    var i :| 0 <= i < |options| && Strip(options[i]) in Plain(atoms);
    StripTrim(options[i]);
    var p := options[i];
    assert p in Kept(atoms);
    OptionsOfJoin([p]);
    assert Join([p], OR) == p;
    assert TermTrue(p, v);
  }

  ghost function Choices(terms: seq<string>): (r: seq<Licence>)
    ensures |r| == |terms| && forall k :: 0 <= k < |r| ==> r[k] == Choice(Options(terms[k]))
  {
    seq(|terms|, k requires 0 <= k < |terms| => Choice(Options(terms[k])))
  }

  /** The licence a printed set of terms spells. */
  ghost function Summary(kept: set<string>): Licence {
    var terms := Sorted(kept);
    if |terms| == 1 then Choice(Options(terms[0])) else All(Choices(terms))
  }

  lemma TermChoice(t: string, v: string -> bool)
    requires IsTerm(t)
    ensures var c := Choice(Options(t));
            Valid(c) && Show(c) == t && ShowPart(c) == Paren(t) && (Eval(c, v) <==> TermTrue(t, v))
  {
    var options :| IsOptions(options) && t == Join(options, OR);
    OptionsOfJoin(options);
    ChoiceIff(options);
  }

  lemma SummarySpells(kept: set<string>, v: string -> bool)
    requires kept != {} && AllTerms(kept)
    ensures Valid(Summary(kept)) && Show(Summary(kept)) == Print(kept)
    ensures Eval(Summary(kept), v) <==> forall t :: t in kept ==> TermTrue(t, v)
  {
    var terms := Sorted(kept);
    var x :| x in kept;
    assert x in terms;
    forall k | 0 <= k < |terms|
      ensures var c := Choices(terms)[k];
              && Valid(c) && Show(c) == terms[k] && ShowPart(c) == Paren(terms[k])
              && terms[k] in kept && (Eval(c, v) <==> TermTrue(terms[k], v))
    {
      assert terms[k] in terms;
      TermChoice(terms[k], v);
    }
    if |terms| > 1 {
      assert ShowParts(Choices(terms)) == ParenAll(terms);
    }
    if Eval(Summary(kept), v) {
      forall t | t in kept ensures TermTrue(t, v) {
        assert t in terms;
        var k :| 0 <= k < |terms| && terms[k] == t;
        assert Eval(Choices(terms)[k], v);
      }
    }
  }

  /** The terms of all the licences are true together exactly when the licences are. */
  lemma AtomsMeaning(licences: seq<string>, ls: seq<Licence>, v: string -> bool)
    requires |ls| == |licences| && forall i :: 0 <= i < |ls| ==> Spells(licences[i], ls[i])
    ensures (forall t :: t in Atoms(licences) ==> TermTrue(t, v)) <==> forall i :: 0 <= i < |ls| ==> Eval(ls[i], v)
  {
    var atoms := Atoms(licences);
    if forall t :: t in atoms ==> TermTrue(t, v) {
      forall i | 0 <= i < |ls| ensures Eval(ls[i], v) {
        TermsOfSpelling(licences[i], ls[i]);
        FlatMeaning(ls[i], v);
        assert licences[i] in licences;
        assert forall t :: t in Flat(ls[i]) ==> t in atoms;
      }
    }
    if forall i :: 0 <= i < |ls| ==> Eval(ls[i], v) {
      forall t | t in atoms ensures TermTrue(t, v) {
        var l :| l in licences && t in Terms(l);
        var i :| 0 <= i < |licences| && licences[i] == l;
        TermsOfSpelling(licences[i], ls[i]);
        FlatMeaning(ls[i], v);
      }
    }
  }

  /** Meaning. The printed expression spells a licence that is satisfied exactly when all the input
      licences are, whatever identifiers are accepted. */
  lemma Meaning(licences: seq<string>, ls: seq<Licence>, v: string -> bool)
    requires licences != [] && |ls| == |licences| && forall i :: 0 <= i < |ls| ==> Spells(licences[i], ls[i])
    ensures var summary := Summary(Kept(Atoms(licences)));
            && Spells(Expression(licences), summary)
            && (Eval(summary, v) <==> forall i :: 0 <= i < |ls| ==> Eval(ls[i], v))
  {
    forall i | 0 <= i < |licences| ensures Grammatical(licences[i]) { assert Spells(licences[i], ls[i]); }
    AtomsTerms(licences);
    SummaryTerms(licences);
    SummarySpells(Kept(Atoms(licences)), v);
    KeptMeaning(Atoms(licences), v);
    AtomsMeaning(licences, ls, v);
  }
}
