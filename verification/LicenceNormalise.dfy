/** `normalise`: one spelling for the same licence choice, without cargo's markers. */
module LicenceNormalise {
  import opened Text
  import opened LicenceSplit
  import opened Licences
  import opened LicenceLaws

  const WITH := " WITH "

  /** The length of the marker that starts at position k, or 0. */
  function MarkerLength(s: string, k: nat): (n: nat)
    ensures k <= |s| ==> k + n <= |s|
  {
    if StartsAt(s, "(*)", k) then 3 else if StartsAt(s, "(proc-macro)", k) then 12 else 0
  }

  /** The length of the marker at each position, 0 where there is none. */
  ghost predicate MarkersFit(s: string, marks: seq<nat>) {
    |marks| == |s| && forall k :: 0 <= k < |s| ==> k + marks[k] <= |s|
  }

  function Markers(s: string): (r: seq<nat>)
    ensures MarkersFit(s, r)
  {
    seq(|s|, k requires 0 <= k < |s| => MarkerLength(s, k))
  }

  /** The text from position i on without markers and the white space before them; `held` white space
      characters before i wait for what follows them. */
  function Unmark(s: string, i: nat, held: nat, marks: seq<nat>): string
    requires held <= i <= |s| && MarkersFit(s, marks)
    decreases |s| - i
  {
    if i == |s| then s[i - held..i]
    else if Space(s[i]) then Unmark(s, i + 1, held + 1, marks)
    else if marks[i] > 0 then Unmark(s, i + marks[i], 0, marks)
    else s[i - held..i + 1] + Unmark(s, i + 1, 0, marks)
  }

  /** The text from position i on with OR for every slash and the white space around it; `held` white
      space characters before i wait for what follows them, and behind a slash they are dropped. */
  function Unslash(s: string, i: nat, held: nat, dropping: bool): string
    requires held <= i <= |s|
    decreases |s| - i
  {
    if i == |s| then s[i - held..i]
    else if Space(s[i]) then Unslash(s, i + 1, if dropping then 0 else held + 1, dropping)
    else if s[i] == '/' then OR + Unslash(s, i + 1, 0, true)
    else s[i - held..i + 1] + Unslash(s, i + 1, 0, false)
  }

  ghost function Members(xs: seq<string>): set<string> {
    set x | x in xs
  }

  /** The last step: the options of a lone choice in order, each once. */
  ghost function Tidy(e: string): string {
    if !Contains(e, AND) && '(' !in e && !Contains(e, WITH) then Join(Sorted(Members(SplitOn(e, OR, 0))), OR) else e
  }

  ghost function Normalise(s: string): string {
    Tidy(Unslash(Strip(Unmark(s, 0, 0, Markers(s))), 0, 0, false))
  }

  // ---- a lone choice in order ----

  lemma {:induction false} ShowTrim(l: Licence)
    requires Valid(l)
    ensures Trim(Show(l)) && Trim(ShowPart(l))
  {
    match l
    case Choice(options) => TermTrim(options);
    case All(parts) =>
      forall k | 0 <= k < |parts| ensures Trim(ShowParts(parts)[k]) { ShowTrim(parts[k]); }
      JoinTrim(ShowParts(parts));
  }

  /** The same options in order, each once. */
  lemma SortedOptions(options: seq<string>, v: string -> bool)
    requires IsOptions(options)
    ensures var sorted := Sorted(Members(options));
            Valid(Choice(sorted)) && (Eval(Choice(sorted), v) <==> Eval(Choice(options), v))
  {
    var sorted := Sorted(Members(options));
    assert options[0] in sorted;
    forall k | 0 <= k < |sorted| ensures IsAtom(sorted[k]) { assert sorted[k] in sorted; }
    if k :| 0 <= k < |options| && v(options[k]) {
      assert options[k] in sorted;
      var j :| 0 <= j < |sorted| && sorted[j] == options[k];
    }
    if k :| 0 <= k < |sorted| && v(sorted[k]) {
      assert sorted[k] in Members(options);
      var j :| 0 <= j < |options| && options[j] == sorted[k];
    }
  }

  /** A conjunction shows its AND, and a part in parentheses its parenthesis. */
  lemma ShowsItself(l: Licence, s: string)
    requires Spells(s, l) && !Contains(s, AND) && '(' !in s
    ensures l.Choice? && s == Join(l.options, OR)
  {
    if s == ShowPart(l) && s != Show(l) {
      assert s[0] == '(' && s[0] in s;
    }
    if l.All? {
      var parts := ShowParts(l.parts);
      assert s[|parts[0]|..|parts[0]| + 5] == AND;
      assert StartsAt(s, AND, |parts[0]|);
    }
  }

  /** The licence that the normalised spelling spells. */
  ghost function Normalised(s: string, l: Licence): Licence {
    if !Contains(s, AND) && '(' !in s && !Contains(s, WITH) && l.Choice? then Choice(Sorted(Members(l.options))) else l
  }

  /** Putting a lone choice in order keeps the meaning. */
  lemma TidyKeeps(s: string, l: Licence, v: string -> bool)
    requires Spells(s, l)
    ensures Spells(Tidy(s), Normalised(s, l)) && (Eval(Normalised(s, l), v) <==> Eval(l, v))
  {
    if !Contains(s, AND) && '(' !in s && !Contains(s, WITH) {
      ShowsItself(l, s);
      OptionsOfJoin(l.options);
      SortedOptions(l.options, v);
    }
  }

  // ---- the other spellings of a choice ----

  ghost predicate AllBlank(s: string) {
    forall k :: 0 <= k < |s| ==> Space(s[k])
  }

  /** A separator of options: OR, or a slash with any white space around it. */
  ghost predicate IsSeparator(sep: string) {
    sep == OR || exists a, b :: AllBlank(a) && AllBlank(b) && sep == a + "/" + b
  }

  /** A choice written with the given separators. */
  function Spelled(options: seq<string>, seps: seq<string>): string
    requires options != [] && |seps| == |options| - 1
  {
    if |options| == 1 then options[0] else options[0] + seps[0] + Spelled(options[1..], seps[1..])
  }

  ghost predicate Plainly(a: string) {
    IsAtom(a) && '/' !in a && !Contains(Pad(a), WITH)
  }

  predicate Slashless(a: string) {
    Trim(a) && '/' !in a
  }

  lemma UnslashStep(s: string, i: nat, held: nat)
    requires held <= i < |s| && s[i] != '/'
    ensures Unslash(s, i, held, false) ==
            if Space(s[i]) then Unslash(s, i + 1, held + 1, false) else s[i - held..i + 1] + Unslash(s, i + 1, 0, false)
  {
  }

  lemma SlicesJoin(s: string, a: nat, b: nat, c: nat, rest: string)
    requires a <= b <= c <= |s|
    ensures s[a..b] + (s[b..c] + rest) == s[a..c] + rest
  {
  }

  lemma CopyOn(whole: string, next: string, rest: string, s: string, a: nat, b: nat, c: nat)
    requires a <= b <= c <= |s| && whole == s[a..b] + next && next == s[b..c] + rest
    ensures whole == s[a..c] + rest
  {
  }

  /** A way to go on from a position with some white space held. */
  type Reader = (nat, nat) -> string

  /** At t the reader copies a character with what was held, or holds one more. */
  ghost predicate CopiesAt(f: Reader, s: string, t: nat, held: nat) {
    held <= t < |s| ==> f(t, held) == if Space(s[t]) then f(t + 1, held + 1) else s[t - held..t + 1] + f(t + 1, 0)
  }

  lemma {:induction false} CopiesOn(f: Reader, s: string, i: nat, held: nat, j: nat)
    requires held <= i < j <= |s| && !Space(s[j - 1]) && forall t: nat, h: nat :: i <= t < j ==> CopiesAt(f, s, t, h)
    ensures f(i, held) == s[i - held..j] + f(j, 0)
    decreases j - i
  {
    assert CopiesAt(f, s, i, held);
    if Space(s[i]) {
      CopiesOn(f, s, i + 1, held + 1, j);
      assert i + 1 - (held + 1) == i - held;
    } else if i + 1 < j {
      CopiesOn(f, s, i + 1, 0, j);
      CopyOn(f(i, held), f(i + 1, 0), f(j, 0), s, i - held, i + 1, j);
    }
  }

  ghost predicate HoldsAt(f: Reader, t: nat, held: nat) {
    held <= t ==> f(t, held) == f(t + 1, held + 1)
  }

  lemma {:induction false} HoldsOn(f: Reader, i: nat, held: nat, k: nat)
    requires held <= i <= k && forall t: nat, h: nat :: i <= t < k ==> HoldsAt(f, t, h)
    ensures f(i, held) == f(k, held + k - i)
    decreases k - i
  {
    if i < k {
      assert HoldsAt(f, i, held);
      HoldsOn(f, i + 1, held + 1, k);
    }
  }

  ghost function Unslasher(s: string): Reader {
    (t: nat, h: nat) => if h <= t <= |s| then Unslash(s, t, h, false) else ""
  }

  /** The reader that removes markers. */
  ghost predicate Unmarks(f: Reader, s: string, marks: seq<nat>) {
    && MarkersFit(s, marks)
    && forall t: nat, h: nat {:trigger Unmark(s, t, h, marks)} :: h <= t <= |s| ==> f(t, h) == Unmark(s, t, h, marks)
  }

  /** Text without slashes that does not end in white space is copied, with what was held before it. */
  lemma UnslashCopies(s: string, i: nat, held: nat, j: nat)
    requires held <= i < j <= |s| && !Space(s[j - 1]) && forall t :: i <= t < j ==> s[t] != '/'
    ensures Unslash(s, i, held, false) == s[i - held..j] + Unslash(s, j, 0, false)
  {
    forall t: nat, h: nat | i <= t < j ensures CopiesAt(Unslasher(s), s, t, h) {
      if h <= t { UnslashStep(s, t, h); }
    }
    CopiesOn(Unslasher(s), s, i, held, j);
  }

  lemma UnmarkStep(f: Reader, s: string, t: nat, held: nat, marks: seq<nat>)
    requires Unmarks(f, s, marks) && t < |s| && marks[t] == 0
    ensures CopiesAt(f, s, t, held)
  {
    if held <= t {
      assert f(t, held) == Unmark(s, t, held, marks);
      if Space(s[t]) {
        assert f(t + 1, held + 1) == Unmark(s, t + 1, held + 1, marks);
      } else {
        assert f(t + 1, 0) == Unmark(s, t + 1, 0, marks);
      }
    }
  }

  /** Text without markers that does not end in white space is copied. */
  lemma UnmarkCopies(f: Reader, s: string, i: nat, held: nat, j: nat, marks: seq<nat>)
    requires held <= i < j <= |s| && !Space(s[j - 1]) && Unmarks(f, s, marks) && forall t :: i <= t < j ==> marks[t] == 0
    ensures f(i, held) == s[i - held..j] + f(j, 0)
  {
    forall t: nat, h: nat | i <= t < j ensures CopiesAt(f, s, t, h) { UnmarkStep(f, s, t, h, marks); }
    CopiesOn(f, s, i, held, j);
  }

  lemma NoMarker(s: string, k: nat)
    requires k < |s| && s[k] != '('
    ensures MarkerLength(s, k) == 0
  {
    if StartsAt(s, "(*)", k) { assert s[k..k + 3][0] == '('; }
    if StartsAt(s, "(proc-macro)", k) { assert s[k..k + 12][0] == '('; }
  }

  /** White space before a slash is held, and dropped with it; so is the white space behind it. */
  lemma {:induction false} UnslashBlank(s: string, i: nat, held: nat, dropping: bool, k: nat)
    requires held <= i <= k <= |s| && forall t :: i <= t < k ==> Space(s[t])
    requires dropping ==> held == 0
    ensures Unslash(s, i, held, dropping) == Unslash(s, k, if dropping then 0 else held + k - i, dropping)
    decreases k - i
  {
    if i < k { UnslashBlank(s, i + 1, if dropping then 0 else held + 1, dropping, k); }
  }

  lemma UnmarkHolds(f: Reader, s: string, t: nat, held: nat, marks: seq<nat>)
    requires Unmarks(f, s, marks) && t < |s| && Space(s[t])
    ensures HoldsAt(f, t, held)
  {
    if held <= t {
      assert f(t, held) == Unmark(s, t, held, marks);
      assert f(t + 1, held + 1) == Unmark(s, t + 1, held + 1, marks);
    }
  }

  lemma UnmarkBlank(f: Reader, s: string, i: nat, held: nat, k: nat, marks: seq<nat>)
    requires held <= i <= k <= |s| && Unmarks(f, s, marks) && forall t :: i <= t < k ==> Space(s[t])
    ensures f(i, held) == f(k, held + k - i)
  {
    forall t: nat, h: nat | i <= t < k ensures HoldsAt(f, t, h) { UnmarkHolds(f, s, t, h, marks); }
    HoldsOn(f, i, held, k);
  }

  /** The text in front of a character that is neither white space nor a slash reads the same whether
      or not white space is being dropped. */
  lemma UnslashResume(s: string, i: nat)
    requires i < |s| && !Space(s[i]) && s[i] != '/'
    ensures Unslash(s, i, 0, true) == Unslash(s, i, 0, false)
  {
  }

  lemma UnslashOr(s: string, i: nat)
    requires StartsAt(s, OR, i) && i + 4 < |s| && !Space(s[i + 4]) && s[i + 4] != '/'
    ensures Unslash(s, i, 0, false) == OR + Unslash(s, i + 4, 0, false)
  {
    assert forall t :: 0 <= t < 4 ==> s[i + t] == s[i..i + 4][t] == OR[t];
    UnslashCopies(s, i, 0, i + 3);
    UnslashHeld(s, i + 3);
    assert s[i + 3..i + 4] == [' '];
    SlicesJoin(s, i, i + 3, i + 4, Unslash(s, i + 4, 0, false));
  }

  lemma UnslashHeld(s: string, i: nat)
    requires i + 1 < |s| && s[i] == ' ' && !Space(s[i + 1]) && s[i + 1] != '/'
    ensures Unslash(s, i, 0, false) == [' '] + Unslash(s, i + 1, 0, false)
  {
    assert Unslash(s, i, 0, false) == Unslash(s, i + 1, 1, false);
    assert s[i..i + 2] == [' '] + s[i + 1..i + 2];
  }

  lemma UnslashSlash(s: string, i: nat, n: nat, e: nat)
    requires i <= n < e < |s| && s[n] == '/' && !Space(s[e]) && s[e] != '/'
    requires (forall t :: i <= t < n ==> Space(s[t])) && forall t :: n < t < e ==> Space(s[t])
    ensures Unslash(s, i, 0, false) == OR + Unslash(s, e, 0, false)
  {
    UnslashBlank(s, i, 0, false, n);
    UnslashBlank(s, n + 1, 0, true, e);
    UnslashResume(s, e);
  }

  lemma UnslashSeparator(s: string, i: nat, sep: string)
    requires IsSeparator(sep) && StartsAt(s, sep, i)
    requires i + |sep| < |s| && !Space(s[i + |sep|]) && s[i + |sep|] != '/'
    ensures Unslash(s, i, 0, false) == OR + Unslash(s, i + |sep|, 0, false)
  {
    if sep == OR {
      UnslashOr(s, i);
    } else {
      var a, b :| AllBlank(a) && AllBlank(b) && sep == a + "/" + b;
      var n := i + |a|;
      assert forall t :: i <= t < i + |sep| ==> s[t] == s[i..i + |sep|][t - i] == sep[t - i];
      forall t | n < t < i + |sep| ensures Space(s[t]) { assert sep[t - i] == b[t - n - 1]; }
      UnslashSlash(s, i, n, i + |sep|);
    }
  }

  /** A written choice is trimmed and starts as its first option does. */
  lemma {:induction false} SpelledTrim(options: seq<string>, seps: seq<string>)
    requires options != [] && |seps| == |options| - 1
    requires forall k :: 0 <= k < |options| ==> Slashless(options[k])
    ensures Trim(Spelled(options, seps)) && Spelled(options, seps)[0] in options[0]
  {
    if |options| > 1 {
      SpelledTrim(options[1..], seps[1..]);
    }
  }

  /** An option at position i of the text is copied up to its separator. */
  lemma UnslashOption(s: string, i: nat, a: string)
    requires Slashless(a) && StartsAt(s, a, i)
    ensures Unslash(s, i, 0, false) == a + Unslash(s, i + |a|, 0, false)
  {
    forall t | i <= t < i + |a| ensures s[t] == a[t - i] && s[t] != '/' {
      assert s[t] == s[i..i + |a|][t - i];
      assert a[t - i] in a;
    }
    UnslashCopies(s, i, 0, i + |a|);
  }

  lemma InThree(s: string, i: nat, a: string, b: string, c: string)
    requires i <= |s| && s[i..] == a + b + c
    ensures StartsAt(s, a, i) && StartsAt(s, b, i + |a|) && i + |a| + |b| <= |s| && s[i + |a| + |b|..] == c
  {
    assert s[i..i + |a|] == s[i..][..|a|];
    assert s[i + |a|..i + |a| + |b|] == s[i..][|a|..|a| + |b|];
    assert s[i + |a| + |b|..] == s[i..][|a| + |b|..];
  }

  ghost predicate SpelledWell(options: seq<string>, seps: seq<string>) {
    && options != [] && |seps| == |options| - 1
    && (forall k :: 0 <= k < |options| ==> Slashless(options[k])) && forall k :: 0 <= k < |seps| ==> IsSeparator(seps[k])
  }

  lemma SpelledRest(options: seq<string>, seps: seq<string>)
    requires SpelledWell(options, seps) && |options| > 1
    ensures var rest := Spelled(options[1..], seps[1..]);
            && SpelledWell(options[1..], seps[1..]) && Spelled(options, seps) == options[0] + seps[0] + rest
            && rest != "" && !Space(rest[0]) && rest[0] != '/'
  {
    SpelledTrim(options[1..], seps[1..]);
    assert options[1..][0] == options[1] && Slashless(options[1]);
  }

  /** The first option with its separator, and what follows them. */
  lemma SpelledHead(s: string, i: nat, options: seq<string>, seps: seq<string>)
    requires SpelledWell(options, seps) && |options| > 1 && i <= |s| && s[i..] == Spelled(options, seps)
    ensures var a, n := options[0], i + |options[0]| + |seps[0]|;
            && n <= |s| && s[n..] == Spelled(options[1..], seps[1..])
            && Unslash(s, i, 0, false) == a + OR + Unslash(s, n, 0, false)
  {
    SpelledRest(options, seps);
    FirstOf(s, i, options[0], seps[0], Spelled(options[1..], seps[1..]));
  }

  lemma FirstOf(s: string, i: nat, a: string, sep: string, rest: string)
    requires i <= |s| && s[i..] == a + sep + rest && Slashless(a) && IsSeparator(sep)
    requires rest != "" && !Space(rest[0]) && rest[0] != '/'
    ensures var n := i + |a| + |sep|;
            n <= |s| && s[n..] == rest && Unslash(s, i, 0, false) == a + OR + Unslash(s, n, 0, false)
  {
    InThree(s, i, a, sep, rest);
    assert s[i + |a| + |sep|] == s[i + |a| + |sep|..][0];
    UnslashFirst(s, i, a, sep);
  }

  lemma {:induction false} UnslashSpelled(s: string, i: nat, options: seq<string>, seps: seq<string>)
    requires SpelledWell(options, seps) && i <= |s| && s[i..] == Spelled(options, seps)
    ensures Unslash(s, i, 0, false) == Join(options, OR)
    decreases |options|
  {
    var a := options[0];
    if |options| == 1 {
      UnslashOption(s, i, a);
      assert a + "" == a;
    } else {
      SpelledHead(s, i, options, seps);
      SpelledRest(options, seps);
      UnslashSpelled(s, i + |a| + |seps[0]|, options[1..], seps[1..]);
      assert [a] + options[1..] == options;
      JoinCons(a, options[1..], OR);
    }
  }

  /** One option and the separator behind it. */
  lemma UnslashFirst(s: string, i: nat, a: string, sep: string)
    requires Slashless(a) && StartsAt(s, a, i) && IsSeparator(sep) && StartsAt(s, sep, i + |a|)
    requires i + |a| + |sep| < |s| && !Space(s[i + |a| + |sep|]) && s[i + |a| + |sep|] != '/'
    ensures Unslash(s, i, 0, false) == a + OR + Unslash(s, i + |a| + |sep|, 0, false)
  {
    UnslashOption(s, i, a);
    UnslashSeparator(s, i + |a|, sep);
    Glue(Unslash(s, i, 0, false), a, Unslash(s, i + |a|, 0, false), Unslash(s, i + |a| + |sep|, 0, false));
  }

  lemma Glue(whole: string, a: string, behind: string, rest: string)
    requires whole == a + behind && behind == OR + rest
    ensures whole == a + OR + rest
  {
  }

  /** A marker at the end is removed with the white space before it. */
  lemma UnmarkEnd(f: Reader, s: string, i: nat, k: nat, marks: seq<nat>)
    requires i <= k < |s| && Unmarks(f, s, marks) && (forall t :: i <= t < k ==> Space(s[t]))
    requires !Space(s[k]) && marks[k] > 0 && k + marks[k] == |s|
    ensures f(i, 0) == ""
  {
    UnmarkBlank(f, s, i, 0, k, marks);
    var end := Unmark(s, |s|, 0, marks);
    assert end == s[|s|..|s|] == "";
    assert f(k, k - i) == Unmark(s, k, k - i, marks) == end;
  }

  lemma MarkerFound(s: string, k: nat, marker: string)
    requires k <= |s| && s[k..] == marker && (marker == "(*)" || marker == "(proc-macro)")
    ensures MarkerLength(s, k) == |marker| && k + |marker| == |s| && s[k] == '('
  {
    assert s[k..k + |marker|] == marker && s[k] == marker[0];
    if marker == "(proc-macro)" && StartsAt(s, "(*)", k) {
      assert s[k..k + 3][1] == s[k..][1];
    }
  }

  lemma SeparatorNoParen(sep: string)
    requires IsSeparator(sep)
    ensures '(' !in sep
  {
    if sep != OR {
      var a, b :| AllBlank(a) && AllBlank(b) && sep == a + "/" + b;
    }
  }

  lemma {:induction false} SpelledNoParen(options: seq<string>, seps: seq<string>)
    requires options != [] && |seps| == |options| - 1
    requires forall k :: 0 <= k < |options| ==> Plainly(options[k])
    requires forall k :: 0 <= k < |seps| ==> IsSeparator(seps[k])
    ensures '(' !in Spelled(options, seps)
  {
    if |options| > 1 {
      SpelledNoParen(options[1..], seps[1..]);
      SeparatorNoParen(seps[0]);
    }
  }

  /** However a choice is written, with OR or slashes between its options and with or without one of
      cargo's markers behind it, normalising gives its options once each, in order, with OR between. */
  lemma OneSpelling(options: seq<string>, seps: seq<string>, blank: string, marker: string)
    requires options != [] && |seps| == |options| - 1
    requires forall k :: 0 <= k < |options| ==> Plainly(options[k])
    requires forall k :: 0 <= k < |seps| ==> IsSeparator(seps[k])
    requires AllBlank(blank) && (marker == "(*)" || marker == "(proc-macro)" || (marker == "" && blank == ""))
    ensures Normalise(Spelled(options, seps) + blank + marker) == Join(Sorted(Members(options)), OR)
  {
    var body := Spelled(options, seps);
    assert body[0..] == body;
    UnslashSpelled(body, 0, options, seps);
    UnmarkSpelled(options, seps, blank, marker);
    SpelledTrim(options, seps);
    NormaliseTo(body + blank + marker, body, options);
  }

  lemma UnmarkSpelled(options: seq<string>, seps: seq<string>, blank: string, marker: string)
    requires options != [] && |seps| == |options| - 1
    requires forall k :: 0 <= k < |options| ==> Plainly(options[k])
    requires forall k :: 0 <= k < |seps| ==> IsSeparator(seps[k])
    requires AllBlank(blank) && (marker == "(*)" || marker == "(proc-macro)" || (marker == "" && blank == ""))
    ensures var s := Spelled(options, seps) + blank + marker;
            Unmark(s, 0, 0, Markers(s)) == Spelled(options, seps)
  {
    SpelledNoParen(options, seps);
    SpelledTrim(options, seps);
    var s := Spelled(options, seps) + blank + marker;
    forall t | 0 <= t < |Spelled(options, seps)| ensures Markers(s)[t] == 0 { BodyUnmarked(Spelled(options, seps), blank + marker, s, t); }
    var f: Reader := (t: nat, h: nat) => if h <= t <= |s| then Unmark(s, t, h, Markers(s)) else "";
    UnmarkBody(f, Spelled(options, seps), blank, marker, s);
    assert f(0, 0) == Unmark(s, 0, 0, Markers(s));
  }

  lemma UnmarkBody(f: Reader, body: string, blank: string, marker: string, s: string)
    requires Trim(body) && s == body + blank + marker && Unmarks(f, s, Markers(s)) && forall t :: 0 <= t < |body| ==> Markers(s)[t] == 0
    requires AllBlank(blank) && (marker == "(*)" || marker == "(proc-macro)" || (marker == "" && blank == ""))
    ensures f(0, 0) == body
  {
    var tail := blank + marker;
    assert s == body + tail;
    BodyCopied(f, body, tail, s);
    if marker == "" {
      assert tail == "" && f(|s|, 0) == Unmark(s, |s|, 0, Markers(s));
    } else {
      BlankMarker(f, s, |body|, blank, marker, Markers(s));
    }
    assert body + "" == body;
  }

  /** The text in front of the blanks and the marker is copied. */
  lemma BodyCopied(f: Reader, body: string, tail: string, s: string)
    requires Trim(body) && s == body + tail && Unmarks(f, s, Markers(s)) && forall t :: 0 <= t < |body| ==> Markers(s)[t] == 0
    ensures s[|body|..] == tail && f(0, 0) == body + f(|body|, 0)
  {
    var marks := Markers(s);
    assert s[0..|body|] == body;
    if body == "" {
      assert f(0, 0) == "" + f(0, 0);
    } else {
      assert s[|body| - 1] == body[|body| - 1];
      UnmarkCopies(f, s, 0, 0, |body|, marks);
    }
  }

  lemma BodyUnmarked(body: string, tail: string, s: string, t: nat)
    requires '(' !in body && s == body + tail && t < |body|
    ensures Markers(s)[t] == 0
  {
    assert s[t] == body[t] && body[t] in body;
    NoMarker(s, t);
  }

  lemma BlankMarker(f: Reader, s: string, i: nat, blank: string, marker: string, marks: seq<nat>)
    requires i <= |s| && s[i..] == blank + marker && marks == Markers(s) && Unmarks(f, s, marks)
    requires AllBlank(blank) && (marker == "(*)" || marker == "(proc-macro)")
    ensures f(i, 0) == ""
  {
    var k := i + |blank|;
    forall t | i <= t < k ensures Space(s[t]) { assert s[t] == s[i..][t - i] == blank[t - i]; }
    assert s[k..] == s[i..][|blank|..] == marker;
    MarkerFound(s, k, marker);
    UnmarkEnd(f, s, i, k, marks);
  }

  lemma NormaliseTo(s: string, body: string, options: seq<string>)
    requires Unmark(s, 0, 0, Markers(s)) == body && Trim(body) && Unslash(body, 0, 0, false) == Join(options, OR)
    requires options != [] && forall k :: 0 <= k < |options| ==> Plainly(options[k])
    ensures Normalise(s) == Join(Sorted(Members(options)), OR)
  {
    StripTrim(body);
    NoWord(options, AND);
    NoWord(options, WITH);
    TermNoParens(options);
    OptionsOfJoin(options);
  }

  lemma NoWord(options: seq<string>, w: string)
    requires options != [] && w != "" && forall k :: 0 <= k < |options| ==> !Contains(Pad(options[k]), w)
    requires forall t :: 0 <= t < |w| ==> w[t] != 'O' && w[t] != 'R'
    ensures !Contains(Join(options, OR), w)
  {
    TermNoWord(options, w);
    PadContains(Join(options, OR), w);
  }

  lemma PadContains(s: string, w: string)
    requires !Contains(Pad(s), w)
    ensures !Contains(s, w)
  {
    forall i | 0 <= i <= |s| ensures !StartsAt(s, w, i) {
      if StartsAt(s, w, i) {
        assert Pad(s)[i + 1..i + 1 + |w|] == s[i..i + |w|];
        assert StartsAt(Pad(s), w, i + 1);
      }
    }
  }
}
