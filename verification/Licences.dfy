/** The licence expression of a program: the AND terms of every crate's licence, with each OR choice
    dropped that some plain licence already satisfies, printed in one canonical spelling. */
module Licences {
  import opened Text
  import opened LicenceSplit

  // ---- the terms of an expression ----

  predicate Wrapped(p: string) {
    p != "" && p[0] == '(' && p[|p| - 1] == ')'
  }

  function Inner(p: string): (r: string)
    requires Wrapped(p)
    ensures |r| < |p|
  {
    p[1..|p| - 1]
  }

  /** The AND terms of an expression, each a plain licence or an OR choice. */
  function Terms(s: string): (r: seq<string>)
    decreases |s|, 2, 0
  {
    PartTerms(SplitTop(s, AND), 0, |s|)
  }

  /** The terms of the parts from position i on. */
  function PartTerms(parts: seq<string>, i: nat, bound: nat): (r: seq<string>)
    requires i <= |parts| && forall k :: 0 <= k < |parts| ==> |parts[k]| <= bound
    decreases bound, 1, |parts| - i
  {
    if i == |parts| then [] else OnePart(parts[i]) + PartTerms(parts, i + 1, bound)
  }

  function OnePart(p: string): (r: seq<string>)
    decreases |p|, 0, 0
  {
    if Wrapped(p) && |SplitTop(Inner(p), AND)| > 1 then Terms(Inner(p))
    else if Wrapped(p) then [Inner(p)]
    else [p]
  }

  /** `terms` as the source runs it: a list that grows part by part. */
  method CollectTerms(s: string) returns (result: seq<string>)
    ensures result == Terms(s)
    decreases |s|, 2
  {
    var parts := SplitTopLevel(s, AND);
    result := CollectParts(parts, |s|);
  }

  method CollectParts(parts: seq<string>, ghost bound: nat) returns (result: seq<string>)
    requires forall k :: 0 <= k < |parts| ==> |parts[k]| <= bound
    ensures result == PartTerms(parts, 0, bound)
    decreases bound, 1
  {
    result := [];
    ghost var whole := PartTerms(parts, 0, bound);
    for i := 0 to |parts|
      invariant result + PartTerms(parts, i, bound) == whole
    {
      var more := CollectPart(parts[i]);
      ghost var rest := PartTerms(parts, i + 1, bound);
      assert result + (more + rest) == result + more + rest;
      result := result + more;
    }
  }

  method CollectPart(p: string) returns (result: seq<string>)
    ensures result == OnePart(p)
    decreases |p|, 0
  {
    if !Wrapped(p) { return [p]; }
    var inner := SplitTopLevel(Inner(p), AND);
    if |inner| > 1 {
      result := CollectTerms(Inner(p));
    } else {
      result := [Inner(p)];
    }
  }

  // ---- the combined expression ----

  /** Plain string splitting, as `str.split` does it. */
  function SplitOn(s: string, sep: string, i: nat): (r: seq<string>)
    requires i <= |s| && sep != ""
    ensures r != []
    decreases |s| - i
  {
    if i == |s| then [s]
    else if StartsAt(s, sep, i) then [s[..i]] + SplitOn(s[i + |sep|..], sep, 0)
    else SplitOn(s, sep, i + 1)
  }

  function Options(term: string): (r: seq<string>)
    ensures r != []
  {
    SplitOn(term, OR, 0)
  }

  function IsChoice(term: string): bool {
    Contains(term, OR)
  }

  ghost function Atoms(licences: seq<string>): set<string> {
    set l, t | l in licences && t in Terms(l) :: t
  }

  ghost function Plain(atoms: set<string>): set<string> {
    set a | a in atoms && !IsChoice(a)
  }

  /** Some option of the choice is a licence that applies anyway. */
  ghost predicate Absorbed(atoms: set<string>, choice: string) {
    exists k :: 0 <= k < |Options(choice)| && Strip(Options(choice)[k]) in Plain(atoms)
  }

  ghost function Kept(atoms: set<string>): set<string> {
    set a | a in atoms && (a in Plain(atoms) || !Absorbed(atoms, a))
  }

  function Paren(term: string): string {
    if IsChoice(term) then "(" + term + ")" else term
  }

  function ParenAll(terms: seq<string>): (r: seq<string>)
    ensures |r| == |terms| && forall k :: 0 <= k < |r| ==> r[k] == Paren(terms[k])
  {
    seq(|terms|, k requires 0 <= k < |terms| => Paren(terms[k]))
  }

  /** The kept terms in order, joined with AND; a choice stands in parentheses unless it is alone. */
  ghost function Print(kept: set<string>): string {
    var terms := Sorted(kept);
    Join(if |terms| > 1 then ParenAll(terms) else terms, AND)
  }

  ghost function Expression(licences: seq<string>): string {
    Print(Kept(Atoms(licences)))
  }

  // ---- licences as they are written ----

  /** A licence identifier: trimmed, without parentheses, and AND and OR are no words of it. */
  ghost predicate IsAtom(a: string) {
    Trim(a) && NoParens(a) && !Contains(Pad(a), AND) && !Contains(Pad(a), OR)
  }

  ghost predicate IsOptions(options: seq<string>) {
    options != [] && forall k :: 0 <= k < |options| ==> IsAtom(options[k])
  }

  /** A conjunction of choices, nested conjunctions in parentheses. */
  datatype Licence = Choice(options: seq<string>) | All(parts: seq<Licence>)

  ghost predicate Valid(l: Licence) {
    match l
    case Choice(options) => IsOptions(options)
    case All(parts) => |parts| > 1 && forall k :: 0 <= k < |parts| ==> Valid(parts[k])
  }

  function Show(l: Licence): string
    decreases l, 1
  {
    match l
    case Choice(options) => Join(options, OR)
    case All(parts) => Join(ShowParts(parts), AND)
  }

  /** A part of a conjunction: anything but a single licence stands in parentheses. */
  function ShowPart(l: Licence): string
    decreases l, 2
  {
    if l.Choice? && |l.options| == 1 then l.options[0] else "(" + Show(l) + ")"
  }

  function ShowParts(parts: seq<Licence>): (r: seq<string>)
    ensures |r| == |parts|
    ensures forall k :: 0 <= k < |r| ==> r[k] == ShowPart(parts[k])
    decreases parts, 0
  {
    if parts == [] then [] else [ShowPart(parts[0])] + ShowParts(parts[1..])
  }

  /** A spelling of a licence: as it stands, or as a part in parentheses. */
  ghost predicate Spells(s: string, l: Licence) {
    Valid(l) && (s == Show(l) || s == ShowPart(l))
  }

  ghost predicate Grammatical(s: string) {
    exists l :: Spells(s, l)
  }

  /** A choice of identifiers, written out. */
  ghost predicate IsTerm(t: string) {
    exists options :: IsOptions(options) && t == Join(options, OR)
  }

  // ---- choices ----

  /** Occurrences in a joined string lie in its first member or in the rest. */
  lemma {:induction false} JoinFree(options: seq<string>, c: char)
    requires options != [] && c != ' ' && c != 'O' && c != 'R'
    requires forall k :: 0 <= k < |options| ==> c !in options[k]
    ensures c !in Join(options, OR)
  {
    if |options| > 1 {
      JoinFree(options[1..], c);
    }
  }

  lemma TermNoParens(options: seq<string>)
    requires IsOptions(options)
    ensures NoParens(Join(options, OR))
  {
    JoinFree(options, '(');
    JoinFree(options, ')');
    var t := Join(options, OR);
    forall k | 0 <= k < |t| ensures t[k] != '(' && t[k] != ')' {
      assert t[k] in t;
    }
  }

  lemma {:induction false} TermTrim(options: seq<string>)
    requires IsOptions(options)
    ensures Trim(Join(options, OR))
  {
    if |options| > 1 {
      TermTrim(options[1..]);
    }
  }

  /** A word that no option holds and that shares no letter with OR is not in the choice either: an
      occurrence could not cross the word OR. */
  lemma {:induction false} TermNoWord(options: seq<string>, w: string)
    requires options != [] && w != "" && forall k :: 0 <= k < |options| ==> !Contains(Pad(options[k]), w)
    requires forall t :: 0 <= t < |w| ==> w[t] != 'O' && w[t] != 'R'
    ensures !Contains(Pad(Join(options, OR)), w)
  {
    if |options| > 1 {
      var a, rest := options[0], Join(options[1..], OR);
      TermNoWord(options[1..], w);
      var s := Pad(Join(options, OR));
      assert s == Pad(a) + "OR" + Pad(rest);
      forall i | 0 <= i <= |s| ensures !StartsAt(s, w, i) {
        if StartsAt(s, w, i) {
          if i + |w| <= |Pad(a)| {
            assert Pad(a)[i..i + |w|] == s[i..i + |w|];
            assert StartsAt(Pad(a), w, i);
          } else if i >= |Pad(a)| + 2 {
            var j := i - |Pad(a)| - 2;
            assert Pad(rest)[j..j + |w|] == s[i..i + |w|];
            assert StartsAt(Pad(rest), w, j);
          } else {
            var k := if i <= |Pad(a)| then |Pad(a)| else |Pad(a)| + 1;
            assert s[k] == 'O' || s[k] == 'R';
            assert s[k] == s[i..i + |w|][k - i] == w[k - i];
          }
        }
      }
    }
  }

  lemma TermPiece(options: seq<string>)
    requires IsOptions(options)
    ensures Piece(Join(options, OR)) && Balanced(Join(options, OR))
  {
    TermTrim(options);
    TermNoParens(options);
    TermNoWord(options, AND);
    PlainPiece(Join(options, OR));
    NoParensBalanced(Join(options, OR));
  }

  /** No OR starts inside an identifier that stands before a separator or at the end. */
  lemma AtomNoOr(a: string, post: string, i: int)
    requires IsAtom(a) && 0 <= i < |a| && (post == "" || StartsAt(post, OR, 0))
    ensures !StartsAt(a + post, OR, i)
  {
    var s := a + post;
    if StartsAt(s, OR, i) {
      if i + 4 > |a| {
        assert s[i..i + 4][|a| - i] == OR[|a| - i] == s[|a|] == post[0] == ' ';
      }
      assert Pad(a)[i + 1..i + 5] == s[i..i + 4];
      assert StartsAt(Pad(a), OR, i + 1);
    }
  }

  lemma {:induction false} SplitOnSkip(s: string, sep: string, i: nat, j: nat)
    requires i <= j <= |s| && sep != "" && forall k :: i <= k < j ==> !StartsAt(s, sep, k)
    ensures SplitOn(s, sep, i) == SplitOn(s, sep, j)
    decreases j - i
  {
    if i < j { SplitOnSkip(s, sep, i + 1, j); }
  }

  /** Splitting a choice gives its options back. */
  lemma {:induction false} OptionsOfJoin(options: seq<string>)
    requires IsOptions(options)
    ensures Options(Join(options, OR)) == options
  {
    var a := options[0];
    if |options| == 1 {
      forall k | 0 <= k < |a| ensures !StartsAt(a, OR, k) {
        AtomNoOr(a, "", k);
        assert a + "" == a;
      }
      SplitOnSkip(a, OR, 0, |a|);
    } else {
      var rest := Join(options[1..], OR);
      OptionsOfJoin(options[1..]);
      var s := a + OR + rest;
      var post := OR + rest;
      assert s == a + post && post[0..4] == OR;
      forall k | 0 <= k < |a| ensures !StartsAt(s, OR, k) {
        AtomNoOr(a, post, k);
      }
      SplitOnSkip(s, OR, 0, |a|);
      assert s[|a|..|a| + 4] == OR && s[..|a|] == a && s[|a| + 4..] == rest;
      assert options == [a] + options[1..];
    }
  }

  /** A term reads OR exactly when it offers more than one option. */
  lemma ChoiceIff(options: seq<string>)
    requires IsOptions(options)
    ensures IsChoice(Join(options, OR)) <==> |options| > 1
  {
    var a := options[0];
    if |options| == 1 {
      forall k | 0 <= k <= |a| ensures !StartsAt(a, OR, k) {
        if k < |a| {
          AtomNoOr(a, "", k);
          assert a + "" == a;
        }
      }
    } else {
      var s := a + OR + Join(options[1..], OR);
      assert s[|a|..|a| + 4] == OR;
      assert StartsAt(s, OR, |a|);
    }
  }
}
