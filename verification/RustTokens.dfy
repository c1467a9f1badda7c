/** The pieces of a Rust source file, as the copy check cuts it up. */
module RustTokens {
  import opened Basics

  /** What the check asks of the runtime: word characters, attributes that mark test code, and the
      character of a code point. */
  datatype Rules = Rules(word: char -> bool, isTest: string -> bool, chr: nat -> char)

  function Newlines(text: string, a: nat, b: nat): (r: nat)
    requires a <= b <= |text|
    ensures a == b ==> r == 0
    decreases b
  {
    if a == b then 0 else Newlines(text, a, b - 1) + if text[b - 1] == '\n' then 1 else 0
  }

  lemma {:induction false} NewlinesJoin(text: string, a: nat, b: nat, c: nat)
    requires a <= b <= c <= |text|
    ensures Newlines(text, a, c) == Newlines(text, a, b) + Newlines(text, b, c)
    decreases c
  {
    if b < c { NewlinesJoin(text, a, b, c - 1); }
  }

  lemma {:induction false} NoNewlines(text: string, a: nat, b: nat)
    requires a <= b <= |text| && forall k :: a <= k < b ==> text[k] != '\n'
    ensures Newlines(text, a, b) == 0
    decreases b
  {
    if a < b { NoNewlines(text, a, b - 1); }
  }

  predicate At(text: string, i: nat, s: string) {
    i + |s| <= |text| && text[i..i + |s|] == s
  }

  /** The first place from i on that has the character, or the end. */
  function Find(text: string, c: char, i: nat): (r: nat)
    requires i <= |text|
    ensures i <= r <= |text| && (forall k :: i <= k < r ==> text[k] != c) && (r < |text| ==> text[r] == c)
    decreases |text| - i
  {
    if i == |text| || text[i] == c then i else Find(text, c, i + 1)
  }

  function FindString(text: string, s: string, i: nat): (r: nat)
    requires i <= |text|
    ensures i <= r <= |text| && (forall k :: i <= k < r ==> !At(text, k, s)) && (r < |text| ==> At(text, r, s))
    decreases |text| - i
  {
    if i == |text| || At(text, i, s) then i else FindString(text, s, i + 1)
  }

  // ---- comments and strings ----

  /** Where a block comment ends; comments nest. */
  function BlockEnd(text: string, i: nat, level: nat): (r: nat)
    requires i <= |text|
    ensures i <= r <= |text|
    decreases |text| - i
  {
    if i == |text| || level == 0 then i
    else if At(text, i, "/*") then BlockEnd(text, i + 2, level + 1)
    else if At(text, i, "*/") then BlockEnd(text, i + 2, level - 1)
    else BlockEnd(text, i + 1, level)
  }

  function SkipBlank(text: string, j: nat): (r: nat)
    requires j <= |text|
    ensures j <= r <= |text|
    decreases |text| - j
  {
    if j < |text| && text[j] in " \t\n" then SkipBlank(text, j + 1) else j
  }

  predicate Hex(c: char) {
    '0' <= c <= '9' || 'a' <= c <= 'f' || 'A' <= c <= 'F'
  }

  function HexEnd(text: string, k: nat, limit: nat): (r: nat)
    requires k <= limit <= |text|
    ensures k <= r <= limit && forall m :: k <= m < r ==> Hex(text[m])
    decreases limit - k
  {
    if k < limit && Hex(text[k]) then HexEnd(text, k + 1, limit) else k
  }

  /** The length of a `u{…}` escape at k, or 0; it is looked for in eleven characters. */
  function Unicode(text: string, k: nat): (r: nat)
    requires k <= |text|
    ensures k + r <= |text| && (forall m :: k <= m < k + r ==> text[m] != '\n') && (r > 0 ==> r >= 4)
  {
    var limit := Min(|text|, k + 11);
    if k + 2 > limit || text[k] != 'u' || text[k + 1] != '{' then 0 else
    var e := HexEnd(text, k + 2, limit);
    if e > k + 2 && e < limit && text[e] == '}' then e + 1 - k else 0
  }

  /** The place of a string's closing quote, or the end. */
  function StringEnd(text: string, j: nat): (r: nat)
    requires j <= |text|
    ensures j <= r <= |text|
    decreases |text| - j
  {
    if j == |text| || text[j] == '"' then j
    else if text[j] == '\\' && j + 1 < |text| then
      if text[j + 1] == '\n' then StringEnd(text, SkipBlank(text, j + 2))
      else if Unicode(text, j + 1) > 0 then StringEnd(text, j + 1 + Unicode(text, j + 1))
      else StringEnd(text, j + 2)
    else StringEnd(text, j + 1)
  }

  function HexDigit(c: char): nat {
    if '0' <= c <= '9' then c as int - '0' as int
    else if 'a' <= c <= 'f' then c as int - 'a' as int + 10
    else if 'A' <= c <= 'F' then c as int - 'A' as int + 10
    else 0
  }

  function HexValue(text: string, k: nat, e: nat): nat
    requires k <= e <= |text|
  {
    if k == e then 0 else 16 * HexValue(text, k, e - 1) + HexDigit(text[e - 1])
  }

  /** What a backslash makes of the character behind it. */
  function Unescaped(c: char): char {
    if c == 'n' then '\n' else if c == 't' then '\t' else if c == 'r' then '\r' else if c == '0' then '\0' else c
  }

  /** The value of a string from j on. */
  function Decoded(text: string, j: nat, rules: Rules): string
    requires j <= |text|
    decreases |text| - j
  {
    if j == |text| || text[j] == '"' then ""
    else if text[j] == '\\' && j + 1 < |text| then
      if text[j + 1] == '\n' then Decoded(text, SkipBlank(text, j + 2), rules)
      else if Unicode(text, j + 1) > 0 then
        var k := j + 1 + Unicode(text, j + 1);
        [rules.chr(HexValue(text, j + 3, k - 1))] + Decoded(text, k, rules)
      else [Unescaped(text[j + 1])] + Decoded(text, j + 2, rules)
    else [text[j]] + Decoded(text, j + 1, rules)
  }

  /** The length of a raw string's opening, looked for in twelve characters, and its number of hashes. */
  function RawOpening(text: string, i: nat): (r: (nat, nat))
    requires i <= |text|
    ensures i + r.0 <= |text| && (r.0 > 0 ==> r.1 + 2 <= r.0 && forall m :: i <= m < i + r.0 ==> text[m] != '\n')
  {
    var limit := Min(|text|, i + 12);
    var k := if i < limit && text[i] == 'b' then i + 1 else i;
    if k >= limit || text[k] != 'r' then (0, 0) else
    var e := HashEnd(text, k + 1, limit);
    if e < limit && text[e] == '"' then (e + 1 - i, e - k - 1) else (0, 0)
  }

  function HashEnd(text: string, k: nat, limit: nat): (r: nat)
    requires k <= limit <= |text|
    ensures k <= r <= limit && forall m :: k <= m < r ==> text[m] == '#'
    decreases limit - k
  {
    if k < limit && text[k] == '#' then HashEnd(text, k + 1, limit) else k
  }

  function Hashes(n: nat): (r: string)
    ensures |r| == n && forall k :: 0 <= k < n ==> r[k] == '#'
  {
    seq(n, _ => '#')
  }

  // ---- tokens ----

  datatype Kind =
    | Newline | LineComment | BlockComment | Attribute(test: bool) | Character | Tick
    | Raw(start: nat, end: nat, value: string) | String(start: nat, end: nat, value: string)
    | Open | Close | Semicolon | Other

  datatype Token = Token(kind: Kind, to: nat)

  /** A token takes at least one character, and a literal's text lies inside it. */
  predicate Fits(text: string, i: nat, t: Token) {
    && i < t.to <= |text|
    && (t.kind.String? || t.kind.Raw? ==> i < t.kind.start <= t.kind.end <= t.to)
  }

  /** A way to cut a text up: the token that starts at each place. */
  type Lexer = nat -> Token

  ghost predicate Cuts(text: string, lexer: Lexer) {
    forall i: nat :: i < |text| ==> Fits(text, i, lexer(i))
  }

  /** The scan's way. */
  function ScanLexer(text: string, rules: Rules): (r: Lexer)
    ensures Cuts(text, r)
  {
    (i: nat) => if i < |text| then TokenAt(text, i, rules) else Token(Other, i)
  }

  /** The token that starts at i. */
  function TokenAt(text: string, i: nat, rules: Rules): (r: Token)
    requires i < |text|
    ensures Fits(text, i, r)
  {
    var c, n := text[i], |text|;
    if c == '\n' then Token(Newline, i + 1)
    else if At(text, i, "//") then Token(LineComment, Find(text, '\n', i + 1))
    else if At(text, i, "/*") then Token(BlockComment, BlockEnd(text, i + 2, 1))
    else if AttributeStart(text, i) > 0 then AttributeToken(text, AttributeStart(text, i), rules)
    else if c == '\'' then
      if i + 1 < n && text[i + 1] == '\\' then Token(Character, Min(Find(text, '\'', i + 2) + 1, n))
      else if i + 2 < n && text[i + 2] == '\'' then Token(Character, i + 3)
      else Token(Tick, i + 1)
    else if RawOpening(text, i).0 > 0 && (i == 0 || !rules.word(text[i - 1])) then RawToken(text, i)
    else if c == '"' then StringToken(text, i + 1, rules)
    else if c == 'b' && i + 1 < n && text[i + 1] == '"' then StringToken(text, i + 2, rules)
    else if c == '{' then Token(Open, i + 1)
    else if c == '}' then Token(Close, i + 1)
    else if c == ';' then Token(Semicolon, i + 1)
    else Token(Other, i + 1)
  }

  function AttributeToken(text: string, j: nat, rules: Rules): (r: Token)
    requires j < |text|
    ensures j < r.to <= |text| && r.kind.Attribute?
  {
    var end := Min(Find(text, ']', j) + 1, |text|);
    Token(Attribute(rules.isTest(text[j..end])), end)
  }

  function RawToken(text: string, i: nat): (r: Token)
    requires i < |text| && RawOpening(text, i).0 > 0
    ensures r.kind.Raw? && Fits(text, i, r)
  {
    var (length, hashes) := RawOpening(text, i);
    var end := FindString(text, "\"" + Hashes(hashes), i + length);
    Token(Raw(i + length, end, text[i + length..end]), Min(end + 1 + hashes, |text|))
  }

  /** The string whose text starts at the given place. */
  function StringToken(text: string, start: nat, rules: Rules): (r: Token)
    requires start <= |text|
    ensures r.kind.String? && start <= r.kind.start <= r.kind.end <= r.to <= |text|
  {
    var end := StringEnd(text, start);
    Token(String(start, end, Decoded(text, start, rules)), Min(end + 1, |text|))
  }

  /** The place of an attribute's bracket, or 0. */
  function AttributeStart(text: string, i: nat): (r: nat)
    requires i < |text|
    ensures r > 0 ==> i < r < |text| && text[r] == '[' && forall k :: i <= k < r ==> text[k] != '\n'
  {
    if text[i] != '#' || i + 1 >= |text| then 0
    else if text[i + 1] == '[' then i + 1
    else if text[i + 1] == '!' && i + 2 < |text| && text[i + 2] == '[' then i + 2
    else 0
  }

  // ---- what is expected of the scan ----

  /** A literal: the place it starts at, the line given for it, its value and the text before it. */
  datatype Literal = Literal(at: nat, line: int, value: string, before: string)

  /** The eighty characters before a literal; a byte string's starts behind its letter. */
  function Before(text: string, i: nat, kind: Kind): string
    requires i <= |text| && (kind.String? ==> i < kind.start <= |text|)
  {
    var at := if kind.String? then kind.start - 1 else i;
    text[if at < 80 then 0 else at - 80..at]
  }

  /** Where a literal's line is taken: a raw string's at its start, another's at its closing quote. */
  function LineAt(i: nat, kind: Kind): nat {
    if kind.String? then kind.end else i
  }

  /** The blocks open, outermost first, each with whether it is test code; and whether an attribute has
      announced one. */
  datatype Blocks = Blocks(open: seq<bool>, pending: bool)

  function Enter(b: Blocks, kind: Kind): Blocks {
    match kind
    case Attribute(test) => b.(pending := b.pending || test)
    case Open => Blocks(b.open + [b.pending], false)
    case Close => if b.open == [] then b else b.(open := b.open[..|b.open| - 1])
    case Semicolon => b.(pending := false)
    case _ => b
  }

  predicate InTest(b: Blocks) {
    exists k :: 0 <= k < |b.open| && b.open[k]
  }

  predicate IsLiteral(kind: Kind) {
    kind.Raw? || kind.String?
  }

  /** The newlines the scan does not count: those inside character literals. */
  function Uncounted(text: string, i: nat, t: Token): nat
    requires i <= t.to <= |text|
  {
    if t.kind.Character? then Newlines(text, i, t.to) else 0
  }

  /** The literals from i on that lie in no test block. */
  ghost function Expected(text: string, i: nat, b: Blocks, lost: nat, lexer: Lexer): seq<Literal>
    requires i <= |text| && Cuts(text, lexer)
    decreases |text| - i
  {
    if i == |text| then [] else
    var t := lexer(i);
    (if IsLiteral(t.kind) && !InTest(b) then
       [Literal(i, 1 + Newlines(text, 0, LineAt(i, t.kind)) - lost, t.kind.value, Before(text, i, t.kind))]
     else [])
    + Expected(text, t.to, Enter(b, t.kind), lost + Uncounted(text, i, t), lexer)
  }

  /** A token that is no literal and opens nothing leaves the literals behind it as they are. */
  lemma Passed(text: string, i: nat, t: Token, b: Blocks, lost: nat, lexer: Lexer)
    requires i < |text| && Cuts(text, lexer) && lexer(i) == t && (t.kind.Character? || t.kind.Tick? || t.kind.Other?)
    ensures Expected(text, i, b, lost, lexer) == Expected(text, t.to, b, lost + Uncounted(text, i, t), lexer)
  {
    assert Enter(b, t.kind) == b && !IsLiteral(t.kind);
    var next := Expected(text, t.to, b, lost + Uncounted(text, i, t), lexer);
    assert [] + next == next;
  }

  /** The uncounted newlines of the tokens from i on that start before p. */
  ghost function LostTo(text: string, i: nat, p: nat, lexer: Lexer): nat
    requires i <= |text| && Cuts(text, lexer)
    decreases |text| - i
  {
    if i == |text| || i >= p then 0 else Uncounted(text, i, lexer(i)) + LostTo(text, lexer(i).to, p, lexer)
  }

  /** Every literal's line is the true one less the newlines in the character literals before it. */
  lemma {:induction false} ExpectedLines(text: string, i: nat, b: Blocks, lost: nat, lexer: Lexer, l: Literal)
    requires i <= |text| && Cuts(text, lexer) && l in Expected(text, i, b, lost, lexer)
    ensures i <= l.at < |text| && IsLiteral(lexer(l.at).kind)
    ensures l.line == 1 + Newlines(text, 0, LineAt(l.at, lexer(l.at).kind)) - lost - LostTo(text, i, l.at, lexer)
    decreases |text| - i
  {
    var t := lexer(i);
    var next := Expected(text, t.to, Enter(b, t.kind), lost + Uncounted(text, i, t), lexer);
    if l in next {
      ExpectedLines(text, t.to, Enter(b, t.kind), lost + Uncounted(text, i, t), lexer, l);
    } else {
      assert l == Literal(i, 1 + Newlines(text, 0, LineAt(i, t.kind)) - lost, t.kind.value, Before(text, i, t.kind));
    }
  }

  /** A reported literal's line is right if and only if no character literal before it holds a newline. */
  lemma LineRightIff(text: string, lexer: Lexer, l: Literal)
    requires Cuts(text, lexer) && l in Expected(text, 0, Blocks([], false), 0, lexer)
    ensures l.at < |text|
    ensures l.line == 1 + Newlines(text, 0, LineAt(l.at, lexer(l.at).kind)) <==> NoneBefore(text, 0, l.at, lexer)
  {
    ExpectedLines(text, 0, Blocks([], false), 0, lexer, l);
    NoneIff(text, 0, l.at, lexer);
  }

  /** No character literal that starts before p holds a newline. */
  ghost predicate NoneBefore(text: string, i: nat, p: nat, lexer: Lexer)
    requires i <= |text| && Cuts(text, lexer)
    decreases |text| - i
  {
    i == |text| || i >= p ||
    ((lexer(i).kind.Character? ==> forall k :: i <= k < lexer(i).to ==> text[k] != '\n') && NoneBefore(text, lexer(i).to, p, lexer))
  }

  lemma {:induction false} SomeNewline(text: string, a: nat, b: nat, k: nat)
    requires a <= k < b <= |text| && text[k] == '\n'
    ensures Newlines(text, a, b) > 0
    decreases b
  {
    if k < b - 1 { SomeNewline(text, a, b - 1, k); }
  }

  lemma {:induction false} NoneIff(text: string, i: nat, p: nat, lexer: Lexer)
    requires i <= |text| && Cuts(text, lexer)
    ensures LostTo(text, i, p, lexer) == 0 <==> NoneBefore(text, i, p, lexer)
    decreases |text| - i
  {
    if i < |text| && i < p {
      var t := lexer(i);
      NoneIff(text, t.to, p, lexer);
      if t.kind.Character? {
        if k :| i <= k < t.to && text[k] == '\n' { SomeNewline(text, i, t.to, k); } else { NoNewlines(text, i, t.to); }
      }
    }
  }
}
