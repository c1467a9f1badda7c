/** Rust's own tokens, as the chapter "Tokens" of the Rust Reference lays them down: where strings,
    characters, raw strings and comments end, what a string's value is, and which tokens an attribute
    takes up. A file is cut into these, and into single characters otherwise. */
module RustSyntax {
  import opened Basics
  import opened RustTokens

  // ---- strings ----

  /** How many backslashes stand directly before k, not looking back beyond start. */
  function Backslashes(text: string, start: nat, k: nat): nat
    requires start <= k <= |text|
  {
    if k == start || text[k - 1] != '\\' then 0 else Backslashes(text, start, k - 1) + 1
  }

  /** A quote that ends a string: an even number of backslashes stands before it. */
  predicate Closes(text: string, start: nat, k: nat)
    requires start <= k < |text|
  {
    text[k] == '"' && Backslashes(text, start, k) % 2 == 0
  }

  /** The first closing quote of the string from k on, or the end of the file. */
  function ClosingQuote(text: string, start: nat, k: nat): (r: nat)
    requires start <= k <= |text|
    ensures k <= r <= |text| && (r < |text| ==> Closes(text, start, r)) && forall m :: k <= m < r ==> !Closes(text, start, m)
    decreases |text| - k
  {
    if k == |text| || Closes(text, start, k) then k else ClosingQuote(text, start, k + 1)
  }

  /** A backslash at a line's end takes the white space behind it along. */
  function BlankEnd(text: string, j: nat): (r: nat)
    requires j <= |text|
    ensures j <= r <= |text| && forall m :: j <= m < r ==> text[m] in " \t\n\r"
    decreases |text| - j
  {
    if j < |text| && text[j] in " \t\n\r" then BlankEnd(text, j + 1) else j
  }

  /** An escape of two hexadecimal digits. */
  predicate HexEscape(text: string, k: nat) {
    k + 2 < |text| && text[k] == 'x' && Hex(text[k + 1]) && Hex(text[k + 2])
  }

  /** The digits of a code point may have underscores between them. */
  function DigitsEnd(text: string, k: nat): (r: nat)
    requires k <= |text|
    ensures k <= r <= |text| && (forall m :: k <= m < r ==> Hex(text[m]) || text[m] == '_') && (r < |text| ==> !Hex(text[r]) && text[r] != '_')
    decreases |text| - k
  {
    if k < |text| && (Hex(text[k]) || text[k] == '_') then DigitsEnd(text, k + 1) else k
  }

  /** The length of a code point in braces at k, or 0. */
  function CodePoint(text: string, k: nat): (r: nat)
    requires k <= |text|
    ensures k + r <= |text| && (r > 0 ==> r >= 4)
  {
    if k + 2 >= |text| || text[k] != 'u' || text[k + 1] != '{' || !Hex(text[k + 2]) then 0 else
    var e := DigitsEnd(text, k + 2);
    if e < |text| && text[e] == '}' then e + 1 - k else 0
  }

  function DigitsValue(text: string, k: nat, e: nat): nat
    requires k <= e <= |text|
  {
    if k == e then 0
    else if text[e - 1] == '_' then DigitsValue(text, k, e - 1)
    else 16 * DigitsValue(text, k, e - 1) + HexDigit(text[e - 1])
  }

  /** The value of a string from j on. */
  function RustValue(text: string, j: nat, rules: Rules): string
    requires j <= |text|
    decreases |text| - j
  {
    if j == |text| || text[j] == '"' then ""
    else if text[j] == '\\' && j + 1 < |text| then
      if text[j + 1] == '\n' then RustValue(text, BlankEnd(text, j + 2), rules)
      else if HexEscape(text, j + 1) then [rules.chr(DigitsValue(text, j + 2, j + 4))] + RustValue(text, j + 4, rules)
      else if CodePoint(text, j + 1) > 0 then
        var k := j + 1 + CodePoint(text, j + 1);
        [rules.chr(DigitsValue(text, j + 3, k - 1))] + RustValue(text, k, rules)
      else [Unescaped(text[j + 1])] + RustValue(text, j + 2, rules)
    else [text[j]] + RustValue(text, j + 1, rules)
  }

  // ---- characters ----

  /** The end of a character literal at i: one character or one escape between two quotes. 0 if there is
      none, as at the quote of a lifetime. */
  function CharacterEnd(text: string, i: nat): (r: nat)
    requires i < |text|
    ensures r == 0 || i + 3 <= r <= |text|
  {
    var n := |text|;
    if i + 2 < n && text[i + 1] !in "'\\\n\r\t" && text[i + 2] == '\'' then i + 3
    else if i + 3 >= n || text[i + 1] != '\\' then 0
    else if text[i + 2] in "nrt\\0'\"" && text[i + 3] == '\'' then i + 4
    else if HexEscape(text, i + 2) && i + 5 < n && text[i + 5] == '\'' then i + 6
    else
      var k := i + 2 + CodePoint(text, i + 2);
      if k > i + 2 && k < n && text[k] == '\'' then k + 1 else 0
  }

  // ---- raw strings ----

  /** The length of a raw string's opening and its number of hashes: there may be a letter before the r,
      and any number of hashes. */
  function RustOpening(text: string, i: nat): (r: (nat, nat))
    requires i <= |text|
    ensures i + r.0 <= |text| && (r.0 > 0 ==> r.1 + 2 <= r.0)
  {
    var k := if i < |text| && (text[i] == 'b' || text[i] == 'c') then i + 1 else i;
    if k >= |text| || text[k] != 'r' then (0, 0) else
    var e := HashEnd(text, k + 1, |text|);
    if e < |text| && text[e] == '"' then (e + 1 - i, e - k - 1) else (0, 0)
  }

  /** A letter before a quote belongs to a literal only if no word runs into it. */
  predicate FreshWord(text: string, i: nat, rules: Rules)
    requires i <= |text|
  {
    i == 0 || !rules.word(text[i - 1])
  }

  function RustRaw(text: string, i: nat): (r: Token)
    requires i < |text| && RustOpening(text, i).0 > 0
    ensures r.kind.Raw? && Fits(text, i, r)
  {
    var (length, hashes) := RustOpening(text, i);
    var end := FindString(text, "\"" + Hashes(hashes), i + length);
    Token(Raw(i + length, end, text[i + length..end]), Min(end + 1 + hashes, |text|))
  }

  function RustString(text: string, start: nat, rules: Rules): (r: Token)
    requires start <= |text|
    ensures r.kind.String? && r.kind.start == start <= r.kind.end <= r.to <= |text|
  {
    var end := ClosingQuote(text, start, start);
    Token(String(start, end, RustValue(text, start, rules)), Min(end + 1, |text|))
  }

  // ---- tokens but for attributes ----

  predicate Pair(text: string, i: nat, a: char, b: char) {
    i + 1 < |text| && text[i] == a && text[i + 1] == b
  }

  function Plain(text: string, i: nat, rules: Rules): (r: Token)
    requires i < |text|
    ensures Fits(text, i, r)
  {
    var c := text[i];
    if c == '\n' then Token(Newline, i + 1)
    else if Pair(text, i, '/', '/') then Token(LineComment, Find(text, '\n', i))
    else if Pair(text, i, '/', '*') then Token(BlockComment, BlockEnd(text, i + 2, 1))
    else if c == '\'' then
      if CharacterEnd(text, i) > 0 then Token(Character, CharacterEnd(text, i)) else Token(Tick, i + 1)
    else if RustOpening(text, i).0 > 0 && FreshWord(text, i, rules) then RustRaw(text, i)
    else if c == '"' then RustString(text, i + 1, rules)
    else if Pair(text, i, 'b', '"') && FreshWord(text, i, rules) then RustString(text, i + 2, rules)
    else if c == '{' then Token(Open, i + 1)
    else if c == '}' then Token(Close, i + 1)
    else if c == ';' then Token(Semicolon, i + 1)
    else Token(Other, i + 1)
  }

  // ---- attributes ----

  /** The end of the white space and the comments at k. */
  function TriviaEnd(text: string, k: nat): (r: nat)
    requires k <= |text|
    ensures k <= r <= |text|
    decreases |text| - k
  {
    if k == |text| then k
    else if text[k] in " \t\n\r" then TriviaEnd(text, k + 1)
    else if Pair(text, k, '/', '/') then TriviaEnd(text, Find(text, '\n', k + 2))
    else if Pair(text, k, '/', '*') then TriviaEnd(text, BlockEnd(text, k + 2, 1))
    else k
  }

  /** The place of the bracket an attribute opens with, or 0: a hash, perhaps an exclamation mark, and the
      bracket, with white space and comments between them. */
  function AttributeOpening(text: string, i: nat): (r: nat)
    requires i < |text|
    ensures r > 0 ==> i < r < |text| && text[r] == '['
  {
    if text[i] != '#' then 0 else
    var k := TriviaEnd(text, i + 1);
    var j := if k < |text| && text[k] == '!' then TriviaEnd(text, k + 1) else k;
    if j < |text| && text[j] == '[' then j else 0
  }

  /** The end of an attribute: behind the bracket that matches the first. Brackets inside strings,
      characters and comments are no brackets. */
  function MatchingEnd(text: string, k: nat, depth: nat, rules: Rules): (r: nat)
    requires k <= |text|
    ensures k <= r <= |text| && (r < |text| ==> r > k && text[r - 1] == ']')
    decreases |text| - k
  {
    if k == |text| then k else
    var t := Plain(text, k, rules);
    if t.kind.Other? && text[k] == '[' then MatchingEnd(text, t.to, depth + 1, rules)
    else if t.kind.Other? && text[k] == ']' then
      if depth <= 1 then k + 1 else MatchingEnd(text, t.to, depth - 1, rules)
    else MatchingEnd(text, t.to, depth, rules)
  }

  /** A first line that starts with a hash and an exclamation mark and opens no attribute is for the shell. */
  predicate ShellLine(text: string, i: nat) {
    i == 0 && Pair(text, i, '#', '!') && AttributeOpening(text, i) == 0
  }

  /** The token that starts at i in Rust, an attribute taken as one. */
  function RustAt(text: string, i: nat, rules: Rules): (r: Token)
    requires i < |text|
    ensures Fits(text, i, r)
  {
    if ShellLine(text, i) then Token(LineComment, Find(text, '\n', i))
    else
      var j := AttributeOpening(text, i);
      if j > 0 then
        var end := MatchingEnd(text, j + 1, 1, rules);
        Token(Attribute(rules.isTest(text[j..end])), end)
      else Plain(text, i, rules)
  }

  function RustLexer(text: string, rules: Rules): (r: Lexer)
    ensures Cuts(text, r)
  {
    (i: nat) => if i < |text| then RustAt(text, i, rules) else Token(Other, i)
  }
}
