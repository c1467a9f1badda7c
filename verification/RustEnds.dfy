/** The scan's tokens against Rust's: where they end, what values they have, and exactly where a file makes
    the two differ. */
module RustEnds {
  import opened Basics
  import opened RustTokens
  import opened RustSyntax

  // ---- where strings end ----

  /** The walk without its special cases: a backslash hides the character behind it. */
  function PlainEnd(text: string, j: nat): (r: nat)
    requires j <= |text|
    ensures j <= r <= |text|
    decreases |text| - j
  {
    if j == |text| || text[j] == '"' then j
    else if text[j] == '\\' && j + 1 < |text| then PlainEnd(text, j + 2)
    else PlainEnd(text, j + 1)
  }

  /** Characters that neither end nor hide anything are walked over one by one. */
  lemma {:induction false} PlainSkip(text: string, j: nat, k: nat)
    requires j <= k <= |text| && forall m :: j <= m < k ==> text[m] != '"' && text[m] != '\\'
    ensures PlainEnd(text, j) == PlainEnd(text, k)
    decreases k - j
  {
    if j < k { PlainSkip(text, j + 1, k); }
  }

  lemma {:induction false} BlankRun(text: string, j: nat)
    requires j <= |text|
    ensures forall m :: j <= m < SkipBlank(text, j) ==> text[m] in " \t\n"
    decreases |text| - j
  {
    if j < |text| && text[j] in " \t\n" { BlankRun(text, j + 1); }
  }

  lemma UnicodeRun(text: string, k: nat)
    requires k <= |text|
    ensures forall m :: k <= m < k + Unicode(text, k) ==> text[m] != '"' && text[m] != '\\'
  {
  }

  /** Line continuations and code points in braces hide nothing, so they make no difference. */
  lemma {:induction false} StringEndIsPlain(text: string, j: nat)
    requires j <= |text|
    ensures StringEnd(text, j) == PlainEnd(text, j)
    decreases |text| - j
  {
    if j < |text| && text[j] != '"' {
      if text[j] == '\\' && j + 1 < |text| {
        if text[j + 1] == '\n' {
          var k := SkipBlank(text, j + 2);
          BlankRun(text, j + 2);
          StringEndIsPlain(text, k);
          PlainSkip(text, j + 2, k);
        } else if Unicode(text, j + 1) > 0 {
          var k := j + 1 + Unicode(text, j + 1);
          UnicodeRun(text, j + 1);
          StringEndIsPlain(text, k);
          PlainSkip(text, j + 2, k);
        } else {
          StringEndIsPlain(text, j + 2);
        }
      } else {
        StringEndIsPlain(text, j + 1);
      }
    }
  }

  lemma {:induction false} PlainEndCloses(text: string, start: nat, j: nat)
    requires start <= j <= |text| && Backslashes(text, start, j) % 2 == 0
    ensures var e := PlainEnd(text, j);
            (e < |text| ==> Closes(text, start, e)) && forall k :: j <= k < e ==> !Closes(text, start, k)
    decreases |text| - j
  {
    if j < |text| && text[j] != '"' {
      if text[j] == '\\' && j + 1 < |text| {
        assert Backslashes(text, start, j + 1) == Backslashes(text, start, j) + 1;
        PlainEndCloses(text, start, j + 2);
      } else {
        if text[j] == '\\' {
          assert PlainEnd(text, j + 1) == |text|;
        } else {
          PlainEndCloses(text, start, j + 1);
        }
      }
    }
  }

  /** A string ends at its first quote with an even number of backslashes before it, for every text. */
  lemma StringEndsRight(text: string, start: nat)
    requires start <= |text|
    ensures var e := StringEnd(text, start);
            && (e < |text| ==> Closes(text, start, e)) && (forall k :: start <= k < e ==> !Closes(text, start, k))
            && e == ClosingQuote(text, start, start)
  {
    StringEndIsPlain(text, start);
    PlainEndCloses(text, start, start);
  }

  // ---- what strings say ----

  /** An escape the scan reads otherwise than Rust: two hexadecimal digits; a code point with underscores or
      more than eight digits; white space behind a line's end that goes on with a carriage return. */
  predicate OddEscape(text: string, j: nat)
    requires j + 1 < |text|
  {
    if text[j + 1] == '\n' then BlankEnd(text, j + 2) != SkipBlank(text, j + 2)
    else HexEscape(text, j + 1) || CodePoint(text, j + 1) != Unicode(text, j + 1)
  }

  /** No escape of the string from j on is odd. */
  predicate PlainValue(text: string, j: nat)
    requires j <= |text|
    decreases |text| - j
  {
    if j == |text| || text[j] == '"' then true
    else if text[j] == '\\' && j + 1 < |text| then
      !OddEscape(text, j) &&
      PlainValue(text, if text[j + 1] == '\n' then BlankEnd(text, j + 2)
                       else if CodePoint(text, j + 1) > 0 then j + 1 + CodePoint(text, j + 1) else j + 2)
    else PlainValue(text, j + 1)
  }

  /** Characters that neither end a string nor escape anything are taken as they are. */
  lemma {:induction false} DecodedRun(text: string, j: nat, k: nat, rules: Rules)
    requires j <= k <= |text| && forall m :: j <= m < k ==> text[m] != '"' && text[m] != '\\'
    ensures Decoded(text, j, rules) == text[j..k] + Decoded(text, k, rules)
    decreases k - j
  {
    if j < k {
      DecodedRun(text, j + 1, k, rules);
      assert text[j..k] == [text[j]] + text[j + 1..k];
    }
  }

  lemma {:induction false} BlanksAgree(text: string, j: nat)
    requires j <= |text|
    ensures SkipBlank(text, j) <= BlankEnd(text, j)
    decreases |text| - j
  {
    if j < |text| && text[j] in " \t\n" { BlanksAgree(text, j + 1); }
  }

  lemma {:induction false} HexRun(text: string, k: nat, limit: nat)
    requires k <= limit <= |text|
    ensures HexEnd(text, k, limit) <= DigitsEnd(text, k)
    ensures HexEnd(text, k, limit) < limit && text[HexEnd(text, k, limit)] != '_' ==> HexEnd(text, k, limit) == DigitsEnd(text, k)
    decreases limit - k
  {
    if k < limit && Hex(text[k]) { HexRun(text, k + 1, limit); }
  }

  /** What the scan takes for a code point is one. */
  lemma UnicodeIsPoint(text: string, k: nat)
    requires k <= |text| && Unicode(text, k) > 0
    ensures CodePoint(text, k) == Unicode(text, k)
  {
    var limit := Min(|text|, k + 11);
    HexRun(text, k + 2, limit);
  }

  lemma {:induction false} DigitsSame(text: string, k: nat, e: nat)
    requires k <= e <= |text| && forall m :: k <= m < e ==> Hex(text[m])
    ensures DigitsValue(text, k, e) == HexValue(text, k, e)
    decreases e
  {
    if k < e { DigitsSame(text, k, e - 1); }
  }

  lemma PointDigits(text: string, k: nat)
    requires k <= |text| && Unicode(text, k) > 0
    ensures forall m :: k + 2 <= m < k + Unicode(text, k) - 1 ==> Hex(text[m])
  {
  }

  /** How the values compare behind one step: the scan's says no less, and the same exactly if nothing odd
      comes. */
  ghost predicate Compares(text: string, j: nat, rules: Rules)
    requires j <= |text|
  {
    && |Decoded(text, j, rules)| >= |RustValue(text, j, rules)|
    && (Decoded(text, j, rules) == RustValue(text, j, rules) <==> PlainValue(text, j))
  }

  lemma Longer(a: string, b: string, x: string, y: string)
    requires |a| > |b| && |x| >= |y|
    ensures |a + x| > |b + y| && a + x != b + y
  {
  }

  lemma SameHead(c: char, x: string, y: string)
    ensures [c] + x == [c] + y <==> x == y
  {
    if [c] + x == [c] + y { assert x == ([c] + x)[1..] && y == ([c] + y)[1..]; }
  }

  lemma LineEndCompares(text: string, j: nat, rules: Rules)
    requires j + 1 < |text| && text[j] == '\\' && text[j + 1] == '\n' && Compares(text, BlankEnd(text, j + 2), rules)
    ensures Compares(text, j, rules)
  {
    var s, e := SkipBlank(text, j + 2), BlankEnd(text, j + 2);
    BlanksAgree(text, j + 2);
    DecodedRun(text, s, e, rules);
    if s < e { Longer(text[s..e], "", Decoded(text, e, rules), RustValue(text, e, rules)); }
  }

  lemma HexCompares(text: string, j: nat, rules: Rules)
    requires j + 1 < |text| && text[j] == '\\' && HexEscape(text, j + 1) && Compares(text, j + 4, rules)
    ensures Compares(text, j, rules)
  {
    var c := rules.chr(DigitsValue(text, j + 2, j + 4));
    DecodedRun(text, j + 2, j + 4, rules);
    assert Decoded(text, j, rules) == ['x'] + text[j + 2..j + 4] + Decoded(text, j + 4, rules);
    Longer(['x'] + text[j + 2..j + 4], [c], Decoded(text, j + 4, rules), RustValue(text, j + 4, rules));
  }

  lemma SeenPointCompares(text: string, j: nat, rules: Rules)
    requires j + 1 < |text| && text[j] == '\\' && Unicode(text, j + 1) > 0 && Compares(text, j + 1 + CodePoint(text, j + 1), rules)
    ensures Compares(text, j, rules)
  {
    var k := j + 1 + CodePoint(text, j + 1);
    UnicodeIsPoint(text, j + 1);
    PointDigits(text, j + 1);
    DigitsSame(text, j + 3, k - 1);
    SameHead(rules.chr(DigitsValue(text, j + 3, k - 1)), Decoded(text, k, rules), RustValue(text, k, rules));
  }

  lemma PointRun(text: string, k: nat)
    requires k <= |text| && CodePoint(text, k) > 0
    ensures text[k] == 'u' && forall m :: k < m < k + CodePoint(text, k) ==> text[m] != '"' && text[m] != '\\'
  {
  }

  lemma DecodedEscape(text: string, j: nat, rules: Rules)
    requires j + 1 < |text| && text[j] == '\\' && text[j + 1] == 'u' && Unicode(text, j + 1) == 0
    ensures Decoded(text, j, rules) == ['u'] + Decoded(text, j + 2, rules)
  {
  }

  /** A code point the scan does not see as one is spelled out. */
  lemma UnseenPoint(text: string, j: nat, rules: Rules)
    requires j + 1 < |text| && text[j] == '\\' && CodePoint(text, j + 1) > 0 && Unicode(text, j + 1) == 0
    ensures var k := j + 1 + CodePoint(text, j + 1);
            Decoded(text, j, rules) == ['u'] + text[j + 2..k] + Decoded(text, k, rules)
  {
    PointRun(text, j + 1);
    DecodedEscape(text, j, rules);
    DecodedRun(text, j + 2, j + 1 + CodePoint(text, j + 1), rules);
  }

  lemma UnseenPointCompares(text: string, j: nat, rules: Rules)
    requires j + 1 < |text| && text[j] == '\\' && CodePoint(text, j + 1) > 0 && Unicode(text, j + 1) == 0
    requires Compares(text, j + 1 + CodePoint(text, j + 1), rules)
    ensures Compares(text, j, rules)
  {
    var k := j + 1 + CodePoint(text, j + 1);
    UnseenPoint(text, j, rules);
    Longer(['u'] + text[j + 2..k], [rules.chr(DigitsValue(text, j + 3, k - 1))], Decoded(text, k, rules), RustValue(text, k, rules));
  }

  lemma OtherCompares(text: string, j: nat, rules: Rules)
    requires j + 1 < |text| && text[j] == '\\' && text[j + 1] != '\n' && !HexEscape(text, j + 1) && CodePoint(text, j + 1) == 0
    requires Compares(text, j + 2, rules)
    ensures Compares(text, j, rules)
  {
    if Unicode(text, j + 1) > 0 { UnicodeIsPoint(text, j + 1); }
    SameHead(Unescaped(text[j + 1]), Decoded(text, j + 2, rules), RustValue(text, j + 2, rules));
  }

  /** The value the scan gives a string is Rust's if and only if none of its escapes is odd. */
  lemma {:induction false} ValueRightIff(text: string, j: nat, rules: Rules)
    requires j <= |text|
    ensures |Decoded(text, j, rules)| >= |RustValue(text, j, rules)|
    ensures Decoded(text, j, rules) == RustValue(text, j, rules) <==> PlainValue(text, j)
    decreases |text| - j
  {
    if j < |text| && text[j] != '"' {
      if text[j] == '\\' && j + 1 < |text| {
        if text[j + 1] == '\n' {
          ValueRightIff(text, BlankEnd(text, j + 2), rules);
          LineEndCompares(text, j, rules);
        } else if HexEscape(text, j + 1) {
          ValueRightIff(text, j + 4, rules);
          HexCompares(text, j, rules);
        } else if CodePoint(text, j + 1) > 0 {
          ValueRightIff(text, j + 1 + CodePoint(text, j + 1), rules);
          if Unicode(text, j + 1) > 0 { SeenPointCompares(text, j, rules); } else { UnseenPointCompares(text, j, rules); }
        } else {
          ValueRightIff(text, j + 2, rules);
          OtherCompares(text, j, rules);
        }
      } else {
        ValueRightIff(text, j + 1, rules);
        SameHead(text[j], Decoded(text, j + 1, rules), RustValue(text, j + 1, rules));
      }
    }
  }

  /** A string of one escape of two digits. */
  const HEX := "\"\\x41\""

  /** The scan spells the escape out. */
  lemma ValueExample(rules: Rules)
    ensures Decoded(HEX, 1, rules) == "x41" && RustValue(HEX, 1, rules) == [rules.chr(0x41)]
  {
    assert |HEX| == 6 && HEX[1] == '\\' && HEX[2] == 'x' && HEX[3] == '4' && HEX[4] == '1' && HEX[5] == '"';
    assert Decoded(HEX, 5, rules) == "" && RustValue(HEX, 5, rules) == "";
    assert Decoded(HEX, 3, rules) == "41";
    assert DigitsValue(HEX, 3, 4) == 4 && DigitsValue(HEX, 3, 5) == 0x41;
  }

  // ---- where the two differ ----

  lemma PlainStart(text: string, i: nat)
    requires i < |text|
    ensures At(text, i, "//") <==> Pair(text, i, '/', '/')
    ensures At(text, i, "/*") <==> Pair(text, i, '/', '*')
  {
    if i + 2 <= |text| { assert text[i..i + 2] == [text[i], text[i + 1]]; }
  }

  /** The character is an escaped quote. */
  predicate EscapedQuote(text: string, i: nat) {
    i + 3 < |text| && text[i] == '\'' && text[i + 1] == '\\' && text[i + 2] == '\'' && text[i + 3] == '\''
  }

  /** A quote that looks like a character's and is none, which Rust does not accept. */
  predicate NoCharacter(text: string, i: nat) {
    && i < |text| && text[i] == '\'' && CharacterEnd(text, i) == 0
    && ((i + 1 < |text| && text[i + 1] == '\\') || (i + 2 < |text| && text[i + 2] == '\''))
  }

  lemma ScanQuote(text: string, i: nat, rules: Rules)
    requires i < |text| && text[i] == '\''
    ensures TokenAt(text, i, rules) ==
            if i + 1 < |text| && text[i + 1] == '\\' then Token(Character, Min(Find(text, '\'', i + 2) + 1, |text|))
            else if i + 2 < |text| && text[i + 2] == '\'' then Token(Character, i + 3)
            else Token(Tick, i + 1)
  {
    PlainStart(text, i);
  }

  lemma RustQuote(text: string, i: nat, rules: Rules)
    requires i < |text| && text[i] == '\''
    ensures RustAt(text, i, rules) == if CharacterEnd(text, i) > 0 then Token(Character, CharacterEnd(text, i)) else Token(Tick, i + 1)
  {
  }

  /** Of an escape that is a character's, the first quote is the closing one unless it is what is escaped. */
  lemma EscapeQuote(text: string, i: nat)
    requires i + 1 < |text| && text[i] == '\'' && text[i + 1] == '\\' && CharacterEnd(text, i) > 0
    ensures Min(Find(text, '\'', i + 2) + 1, |text|) == CharacterEnd(text, i) <==> !EscapedQuote(text, i)
  {
    var e := CharacterEnd(text, i);
    if !EscapedQuote(text, i) {
      forall k | i + 2 <= k < e - 1 ensures text[k] != '\'' { }
    }
  }

  /** The scan's token is Rust's character, for every character literal, if and only if the character is no
      escaped quote. */
  lemma CharacterEndsRightIff(text: string, i: nat, rules: Rules)
    requires i < |text| && text[i] == '\'' && CharacterEnd(text, i) > 0
    ensures TokenAt(text, i, rules).kind == Character
    ensures TokenAt(text, i, rules).to == CharacterEnd(text, i) <==> !EscapedQuote(text, i)
  {
    ScanQuote(text, i, rules);
    if text[i + 1] == '\\' { EscapeQuote(text, i); }
  }

  /** An escaped quote: the scan stops one character short. */
  lemma EscapedQuoteExample(rules: Rules)
    ensures TokenAt("'\\''", 0, rules) == Token(Character, 3) && RustAt("'\\''", 0, rules) == Token(Character, 4)
  {
    var text := "'\\''";
    assert |text| == 4 && text[0] == '\'' && text[1] == '\\' && text[2] == '\'' && text[3] == '\'';
    ScanQuote(text, 0, rules);
    RustQuote(text, 0, rules);
  }

  lemma QuoteIff(text: string, i: nat, rules: Rules)
    requires i < |text| && text[i] == '\''
    ensures TokenAt(text, i, rules) == RustAt(text, i, rules) <==> !EscapedQuote(text, i) && !NoCharacter(text, i)
  {
    ScanQuote(text, i, rules);
    RustQuote(text, i, rules);
    if CharacterEnd(text, i) > 0 { CharacterEndsRightIff(text, i, rules); }
  }

  // ---- attributes ----

  /** The attribute has white space or a comment before its bracket. */
  predicate SpacedAttribute(text: string, i: nat) {
    i < |text| && AttributeOpening(text, i) > 0 && AttributeStart(text, i) == 0
  }

  /** A bracket closes before the one that ends the attribute: inside a string, a character or a comment, or
      for one that was opened in it. */
  predicate EarlyBracket(text: string, i: nat, rules: Rules) {
    && i < |text| && AttributeStart(text, i) > 0
    && var j := AttributeStart(text, i);
    exists k :: j < k < MatchingEnd(text, j + 1, 1, rules) - 1 && text[k] == ']'
  }

  lemma OpeningSeen(text: string, i: nat)
    requires i < |text| && AttributeStart(text, i) > 0
    ensures AttributeOpening(text, i) == AttributeStart(text, i)
  {
  }

  lemma ScanAttribute(text: string, i: nat, rules: Rules)
    requires i < |text| && text[i] == '#'
    ensures TokenAt(text, i, rules) ==
            if AttributeStart(text, i) > 0 then AttributeToken(text, AttributeStart(text, i), rules) else Token(Other, i + 1)
  {
    PlainStart(text, i);
  }

  /** The first bracket that closes is the matching one exactly if none closes earlier. */
  lemma BracketIff(text: string, j: nat, rules: Rules)
    requires j < |text| && text[j] == '['
    ensures var end := MatchingEnd(text, j + 1, 1, rules);
            Min(Find(text, ']', j) + 1, |text|) == end <==> !exists k :: j < k < end - 1 && text[k] == ']'
  {
    var end, first := MatchingEnd(text, j + 1, 1, rules), Find(text, ']', j);
    if k :| j < k < end - 1 && text[k] == ']' { assert first <= k; }
  }

  lemma AttributeIff(text: string, i: nat, rules: Rules)
    requires i < |text| && text[i] == '#'
    ensures TokenAt(text, i, rules) == RustAt(text, i, rules) <==>
            !ShellLine(text, i) && !SpacedAttribute(text, i) && !EarlyBracket(text, i, rules)
  {
    if AttributeStart(text, i) > 0 {
      SeenAttributeIff(text, i, rules);
    } else {
      UnseenAttribute(text, i, rules);
    }
  }

  lemma RustAttribute(text: string, i: nat, rules: Rules)
    requires i < |text| && AttributeOpening(text, i) > 0
    ensures var j := AttributeOpening(text, i);
            var end := MatchingEnd(text, j + 1, 1, rules);
            RustAt(text, i, rules) == Token(Attribute(rules.isTest(text[j..end])), end)
  {
  }

  lemma SeenAttributeIff(text: string, i: nat, rules: Rules)
    requires i < |text| && text[i] == '#' && AttributeStart(text, i) > 0
    ensures !ShellLine(text, i) && !SpacedAttribute(text, i)
    ensures TokenAt(text, i, rules) == RustAt(text, i, rules) <==> !EarlyBracket(text, i, rules)
  {
    ScanAttribute(text, i, rules);
    OpeningSeen(text, i);
    RustAttribute(text, i, rules);
    BracketIff(text, AttributeStart(text, i), rules);
  }

  lemma UnseenAttribute(text: string, i: nat, rules: Rules)
    requires i < |text| && text[i] == '#' && AttributeStart(text, i) == 0
    ensures TokenAt(text, i, rules) == RustAt(text, i, rules) <==> !ShellLine(text, i) && !SpacedAttribute(text, i)
  {
    ScanAttribute(text, i, rules);
  }

  // ---- raw strings ----

  /** A raw string the scan does not see: a C string, or one whose opening is longer than twelve characters. */
  predicate UnseenRaw(text: string, i: nat, rules: Rules) {
    i < |text| && RustOpening(text, i).0 > 0 && FreshWord(text, i, rules) && (text[i] == 'c' || RustOpening(text, i).0 > 12)
  }

  lemma {:induction false} HashesAnyLimit(text: string, k: nat, limit: nat)
    requires k <= limit <= |text|
    ensures HashEnd(text, k, limit) == Min(HashEnd(text, k, |text|), limit)
    decreases limit - k
  {
    if k < limit && text[k] == '#' { HashesAnyLimit(text, k + 1, limit); }
  }

  /** The scan looks at twelve characters and knows no C strings. */
  lemma RawSeen(text: string, i: nat)
    requires i < |text|
    ensures RawOpening(text, i) == if text[i] != 'c' && RustOpening(text, i).0 <= 12 then RustOpening(text, i) else (0, 0)
  {
    var limit := Min(|text|, i + 12);
    var k := if text[i] == 'b' then i + 1 else i;
    if k < limit && text[k] == 'r' { HashesAnyLimit(text, k + 1, limit); }
  }

  lemma ScanRaw(text: string, i: nat, rules: Rules)
    requires i < |text| && RustOpening(text, i).0 > 0
    ensures TokenAt(text, i, rules) ==
            if RawOpening(text, i).0 > 0 && FreshWord(text, i, rules) then RawToken(text, i) else Token(Other, i + 1)
    ensures RustAt(text, i, rules) == if FreshWord(text, i, rules) then RustRaw(text, i) else Token(Other, i + 1)
  {
    PlainStart(text, i);
  }

  lemma RawIff(text: string, i: nat, rules: Rules)
    requires i < |text| && RustOpening(text, i).0 > 0
    ensures TokenAt(text, i, rules) == RustAt(text, i, rules) <==> !UnseenRaw(text, i, rules)
  {
    RawSeen(text, i);
    ScanRaw(text, i, rules);
  }

  // ---- strings ----

  /** A string with an odd escape in it. */
  predicate OddString(text: string, i: nat, rules: Rules) {
    i < |text| &&
    ((text[i] == '"' && !PlainValue(text, i + 1)) || (Pair(text, i, 'b', '"') && FreshWord(text, i, rules) && !PlainValue(text, i + 2)))
  }

  /** A b before a quote that ends a word: two tokens in Rust, and an error since the edition of 2021. */
  predicate RunOnWord(text: string, i: nat, rules: Rules) {
    Pair(text, i, 'b', '"') && !FreshWord(text, i, rules)
  }

  lemma StringIff(text: string, start: nat, rules: Rules)
    requires start <= |text|
    ensures StringToken(text, start, rules) == RustString(text, start, rules) <==> PlainValue(text, start)
  {
    StringEndsRight(text, start);
    ValueRightIff(text, start, rules);
  }

  lemma ScanString(text: string, i: nat, rules: Rules)
    requires i < |text| && (text[i] == '"' || Pair(text, i, 'b', '"'))
    ensures TokenAt(text, i, rules) == StringToken(text, if text[i] == '"' then i + 1 else i + 2, rules)
    ensures RustAt(text, i, rules) ==
            if text[i] == '"' then RustString(text, i + 1, rules)
            else if FreshWord(text, i, rules) then RustString(text, i + 2, rules) else Token(Other, i + 1)
  {
    PlainStart(text, i);
    assert RawOpening(text, i).0 == 0 && RustOpening(text, i).0 == 0;
  }

  lemma QuotedIff(text: string, i: nat, rules: Rules)
    requires i < |text| && (text[i] == '"' || Pair(text, i, 'b', '"'))
    ensures TokenAt(text, i, rules) == RustAt(text, i, rules) <==> !OddString(text, i, rules) && !RunOnWord(text, i, rules)
  {
    ScanString(text, i, rules);
    StringIff(text, if text[i] == '"' then i + 1 else i + 2, rules);
  }

  // ---- all of them ----

  /** The places at which the scan cuts another token than Rust. */
  predicate Trap(text: string, i: nat, rules: Rules) {
    || EscapedQuote(text, i) || NoCharacter(text, i)
    || ShellLine(text, i) || SpacedAttribute(text, i) || EarlyBracket(text, i, rules)
    || UnseenRaw(text, i, rules) || OddString(text, i, rules) || RunOnWord(text, i, rules)
  }

  lemma PlainSame(text: string, i: nat, rules: Rules)
    requires i < |text| && text[i] !in "'#\"" && RustOpening(text, i).0 == 0 && !Pair(text, i, 'b', '"')
    ensures TokenAt(text, i, rules) == RustAt(text, i, rules)
  {
    PlainStart(text, i);
    RawSeen(text, i);
  }

  /** At every place of every text the scan's token is Rust's, in kind, end and value, if and only if the place
      is none of those. */
  lemma TrapIff(text: string, i: nat, rules: Rules)
    requires i < |text|
    ensures TokenAt(text, i, rules) == RustAt(text, i, rules) <==> !Trap(text, i, rules)
  {
    if text[i] == '\'' {
      QuoteIff(text, i, rules);
    } else if text[i] == '#' {
      AttributeIff(text, i, rules);
    } else if RustOpening(text, i).0 > 0 {
      RawIff(text, i, rules);
    } else if text[i] == '"' || Pair(text, i, 'b', '"') {
      QuotedIff(text, i, rules);
    } else {
      PlainSame(text, i, rules);
    }
  }

  /** The tokens from i on, with the places they start at. */
  function TokensFrom(text: string, i: nat, lexer: Lexer): seq<(nat, Token)>
    requires i <= |text| && Cuts(text, lexer)
    decreases |text| - i
  {
    if i == |text| then [] else [(i, lexer(i))] + TokensFrom(text, lexer(i).to, lexer)
  }

  /** No token of a Rust file from i on is at such a place. */
  predicate NoTraps(text: string, i: nat, rules: Rules)
    requires i <= |text|
  {
    forall t :: t in TokensFrom(text, i, RustLexer(text, rules)) ==> !Trap(text, t.0, rules)
  }

  lemma {:induction false} SameTokensFrom(text: string, i: nat, rules: Rules)
    requires i <= |text|
    ensures TokensFrom(text, i, ScanLexer(text, rules)) == TokensFrom(text, i, RustLexer(text, rules)) <==> NoTraps(text, i, rules)
    decreases |text| - i
  {
    if i < |text| {
      var scan, rust := ScanLexer(text, rules), RustLexer(text, rules);
      TrapIff(text, i, rules);
      var s, r := TokensFrom(text, i, scan), TokensFrom(text, i, rust);
      assert s[0] == (i, TokenAt(text, i, rules)) && r[0] == (i, RustAt(text, i, rules));
      if !Trap(text, i, rules) {
        var next := RustAt(text, i, rules).to;
        SameTokensFrom(text, next, rules);
        assert s[1..] == TokensFrom(text, next, scan) && r[1..] == TokensFrom(text, next, rust);
      }
    }
  }

  /** The scan cuts a file into Rust's tokens if and only if none of those is a character that is an escaped
      quote, an attribute with space before its bracket or an earlier closing bracket in it, a raw string
      that is a C string or opens with more than twelve characters, a string with an odd escape, a first
      line for the shell, or one of two things that Rust does not accept. */
  lemma SameTokensIff(text: string, rules: Rules)
    ensures TokensFrom(text, 0, ScanLexer(text, rules)) == TokensFrom(text, 0, RustLexer(text, rules)) <==> NoTraps(text, 0, rules)
  {
    SameTokensFrom(text, 0, rules);
  }

  lemma {:induction false} SameLiteralsFrom(text: string, i: nat, b: Blocks, lost: nat, one: Lexer, other: Lexer)
    requires i <= |text| && Cuts(text, one) && Cuts(text, other) && TokensFrom(text, i, one) == TokensFrom(text, i, other)
    ensures Expected(text, i, b, lost, one) == Expected(text, i, b, lost, other)
    decreases |text| - i
  {
    if i < |text| {
      var s, r := TokensFrom(text, i, one), TokensFrom(text, i, other);
      assert s[0] == (i, one(i)) && r[0] == (i, other(i));
      var t := one(i);
      assert s[1..] == TokensFrom(text, t.to, one) && r[1..] == TokensFrom(text, t.to, other);
      SameLiteralsFrom(text, t.to, Enter(b, t.kind), lost + Uncounted(text, i, t), one, other);
    }
  }

  /** The literals reported are then Rust's. */
  lemma RustLiterals(text: string, rules: Rules)
    requires NoTraps(text, 0, rules)
    ensures Expected(text, 0, Blocks([], false), 0, ScanLexer(text, rules)) == Expected(text, 0, Blocks([], false), 0, RustLexer(text, rules))
  {
    SameTokensFrom(text, 0, rules);
    SameLiteralsFrom(text, 0, Blocks([], false), 0, ScanLexer(text, rules), RustLexer(text, rules));
  }

  /** Two characters in brackets: an escaped quote and a double quote. */
  const QUOTES := "['\\'','\"']"

  lemma QuotesAre()
    ensures |QUOTES| == 10 && QUOTES[0] == '[' && QUOTES[1] == '\'' && QUOTES[2] == '\\' && QUOTES[3] == '\'' && QUOTES[4] == '\''
    ensures QUOTES[5] == ',' && QUOTES[6] == '\'' && QUOTES[7] == '"' && QUOTES[8] == '\'' && QUOTES[9] == ']'
  {
  }

  lemma QuotesScanned(rules: Rules)
    ensures TokenAt(QUOTES, 0, rules) == Token(Other, 1) && TokenAt(QUOTES, 1, rules) == Token(Character, 4)
    ensures TokenAt(QUOTES, 4, rules) == Token(Character, 7)
    ensures TokenAt(QUOTES, 7, rules).kind.String?
  {
    QuotesAre();
    PlainStart(QUOTES, 0);
    PlainStart(QUOTES, 1);
    PlainStart(QUOTES, 4);
    PlainStart(QUOTES, 7);
    assert Find(QUOTES, '\'', 3) == 3;
  }

  lemma QuotesRust(rules: Rules)
    ensures RustAt(QUOTES, 0, rules) == Token(Other, 1) && RustAt(QUOTES, 1, rules) == Token(Character, 5)
    ensures RustAt(QUOTES, 5, rules) == Token(Other, 6) && RustAt(QUOTES, 6, rules) == Token(Character, 9)
    ensures RustAt(QUOTES, 9, rules) == Token(Other, 10)
  {
    QuotesAre();
    PlainStart(QUOTES, 0);
    PlainStart(QUOTES, 5);
    PlainStart(QUOTES, 6);
    PlainStart(QUOTES, 9);
    assert Find(QUOTES, '\'', 4) == 4;
  }

  lemma PassedNoLine(text: string, i: nat, t: Token, b: Blocks, lexer: Lexer)
    requires i < |text| && Cuts(text, lexer) && lexer(i) == t && (t.kind.Character? || t.kind.Tick? || t.kind.Other?)
    requires forall k :: i <= k < t.to ==> text[k] != '\n'
    ensures Expected(text, i, b, 0, lexer) == Expected(text, t.to, b, 0, lexer)
  {
    NoNewlines(text, i, t.to);
    Passed(text, i, t, b, 0, lexer);
  }

  lemma QuotesInRust(rules: Rules)
    ensures Expected(QUOTES, 0, Blocks([], false), 0, RustLexer(QUOTES, rules)) == []
  {
    QuotesAre();
    QuotesRust(rules);
    var none, rust := Blocks([], false), RustLexer(QUOTES, rules);
    PassedNoLine(QUOTES, 0, Token(Other, 1), none, rust);
    PassedNoLine(QUOTES, 1, Token(Character, 5), none, rust);
    PassedNoLine(QUOTES, 5, Token(Other, 6), none, rust);
    PassedNoLine(QUOTES, 6, Token(Character, 9), none, rust);
    PassedNoLine(QUOTES, 9, Token(Other, 10), none, rust);
  }

  lemma StringBehind(text: string, lexer: Lexer, b: Blocks)
    requires |text| > 7 && Cuts(text, lexer) && lexer(0) == Token(Other, 1) && lexer(1) == Token(Character, 4) && lexer(4) == Token(Character, 7)
    requires lexer(7).kind.String? && !InTest(b) && forall k :: 0 <= k < 7 ==> text[k] != '\n'
    ensures Expected(text, 0, b, 0, lexer) != []
  {
    PassedNoLine(text, 0, Token(Other, 1), b, lexer);
    PassedNoLine(text, 1, Token(Character, 4), b, lexer);
    PassedNoLine(text, 4, Token(Character, 7), b, lexer);
  }

  lemma QuotesInScan(rules: Rules)
    ensures Expected(QUOTES, 0, Blocks([], false), 0, ScanLexer(QUOTES, rules)) != []
  {
    QuotesAre();
    QuotesScanned(rules);
    StringBehind(QUOTES, ScanLexer(QUOTES, rules), Blocks([], false));
  }

  /** The scan reports a string where Rust has none. */
  lemma QuotesExample(rules: Rules)
    ensures Expected(QUOTES, 0, Blocks([], false), 0, RustLexer(QUOTES, rules)) == []
    ensures Expected(QUOTES, 0, Blocks([], false), 0, ScanLexer(QUOTES, rules)) != []
  {
    QuotesInRust(rules);
    QuotesInScan(rules);
  }

  // ---- an attribute ----

  /** An attribute with a bracket inside a string. */
  const DOC := "#[doc=\"]\"]"

  lemma DocAre()
    ensures |DOC| == 10 && DOC[0] == '#' && DOC[1] == '[' && DOC[2] == 'd' && DOC[3] == 'o' && DOC[4] == 'c' && DOC[5] == '='
    ensures DOC[6] == '"' && DOC[7] == ']' && DOC[8] == '"' && DOC[9] == ']'
  {
  }

  lemma DocScanned(rules: Rules)
    ensures TokenAt(DOC, 0, rules).kind.Attribute? && TokenAt(DOC, 0, rules).to == 8 && TokenAt(DOC, 8, rules).kind.String?
  {
    DocAre();
    ScanAttribute(DOC, 0, rules);
    assert Find(DOC, ']', 1) == 7;
    ScanString(DOC, 8, rules);
  }

  lemma DocPlain(k: nat, rules: Rules)
    requires 2 <= k < 6 || k == 9
    ensures Plain(DOC, k, rules) == Token(Other, k + 1)
  {
    DocAre();
    assert RustOpening(DOC, k).0 == 0;
  }

  lemma DocEnds(rules: Rules)
    ensures MatchingEnd(DOC, 2, 1, rules) == 10
  {
    DocAre();
    DocPlain(2, rules);
    DocPlain(3, rules);
    DocPlain(4, rules);
    DocPlain(5, rules);
    DocPlain(9, rules);
    assert Closes(DOC, 7, 8) && !Closes(DOC, 7, 7);
    assert ClosingQuote(DOC, 7, 7) == 8;
    assert Plain(DOC, 6, rules).to == 9;
    assert MatchingEnd(DOC, 9, 1, rules) == 10;
    assert MatchingEnd(DOC, 6, 1, rules) == 10;
    assert MatchingEnd(DOC, 4, 1, rules) == 10;
  }

  lemma WholeAttribute(text: string, b: Blocks, lexer: Lexer)
    requires text != [] && Cuts(text, lexer) && lexer(0).kind.Attribute? && lexer(0).to == |text|
    ensures Expected(text, 0, b, 0, lexer) == []
  {
  }

  lemma StringNext(text: string, k: nat, b: Blocks, lexer: Lexer)
    requires k < |text| && Cuts(text, lexer) && lexer(0).kind.Attribute? && lexer(0).to == k && lexer(k).kind.String? && !InTest(b)
    ensures Expected(text, 0, b, 0, lexer) != []
  {
  }

  /** The scan reports the end of the attribute as a string; Rust has no string outside it. */
  lemma AttributeExample(rules: Rules)
    ensures Expected(DOC, 0, Blocks([], false), 0, RustLexer(DOC, rules)) == []
    ensures Expected(DOC, 0, Blocks([], false), 0, ScanLexer(DOC, rules)) != []
  {
    DocAre();
    DocEnds(rules);
    OpeningSeen(DOC, 0);
    WholeAttribute(DOC, Blocks([], false), RustLexer(DOC, rules));
    DocScanned(rules);
    StringNext(DOC, 8, Blocks([], false), ScanLexer(DOC, rules));
  }
}
