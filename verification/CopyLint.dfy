/** The scan for string literals outside test code: one pass with a brace depth, the depths at which
    test blocks opened, and a line counter. */
module CopyLint {
  import opened Basics
  import opened RustTokens

  // ---- cutting tokens, counting lines ----

  lemma OneMore(text: string, a: nat, i: nat)
    requires a <= i < |text|
    ensures Newlines(text, a, i + 1) == Newlines(text, a, i) + if text[i] == '\n' then 1 else 0
  {
  }

  /** One step through a block comment. */
  method StepComment(text: string, i: nat, level: nat) returns (k: nat, level': nat, lines: nat)
    requires i < |text| && level > 0
    ensures i < k <= |text| && BlockEnd(text, k, level') == BlockEnd(text, i, level) && lines == Newlines(text, i, k)
  {
    if At(text, i, "/*") {
      TwoPlain(text, i, i);
      k, level', lines := i + 2, level + 1, 0;
    } else if At(text, i, "*/") {
      TwoPlain(text, i, i);
      k, level', lines := i + 2, level - 1, 0;
    } else {
      OneMore(text, i, i);
      k, level', lines := i + 1, level, if text[i] == '\n' then 1 else 0;
    }
  }

  method SkipComment(text: string, start: nat) returns (i: nat, lines: nat)
    requires start <= |text|
    ensures i == BlockEnd(text, start, 1) && lines == Newlines(text, start, i)
  {
    var level := 1;
    i, lines := start, 0;
    while i < |text| && level > 0
      invariant start <= i <= |text| && level >= 0
      invariant BlockEnd(text, i, level) == BlockEnd(text, start, 1)
      invariant lines == Newlines(text, start, i)
      decreases |text| - i
    {
      var k, next, more := StepComment(text, i, level);
      NewlinesJoin(text, start, i, k);
      i, level, lines := k, next, lines + more;
    }
  }

  lemma TwoPlain(text: string, a: nat, i: nat)
    requires a <= i && (At(text, i, "/*") || At(text, i, "*/"))
    ensures Newlines(text, a, i + 2) == Newlines(text, a, i)
  {
    assert text[i..i + 2][0] == text[i] && text[i..i + 2][1] == text[i + 1];
    OneMore(text, a, i);
    OneMore(text, a, i + 1);
  }

  method SkipSpaces(text: string, start: nat) returns (j: nat, lines: nat)
    requires start <= |text|
    ensures j == SkipBlank(text, start) && lines == Newlines(text, start, j)
  {
    j, lines := start, 0;
    while j < |text| && text[j] in " \t\n"
      invariant start <= j <= |text| && SkipBlank(text, j) == SkipBlank(text, start)
      invariant lines == Newlines(text, start, j)
    {
      if text[j] == '\n' { lines := lines + 1; }
      j := j + 1;
    }
  }

  /** One step through a string: a character, or an escape with what it swallows. */
  method StepString(text: string, j: nat, rules: Rules) returns (k: nat, lines: nat, piece: string)
    requires j < |text| && text[j] != '"'
    ensures j < k <= |text| && StringEnd(text, k) == StringEnd(text, j) && lines == Newlines(text, j, k)
    ensures Decoded(text, j, rules) == piece + Decoded(text, k, rules)
  {
    OneMore(text, j, j);
    if text[j] == '\\' && j + 1 < |text| {
      OneMore(text, j, j + 1);
      if text[j + 1] == '\n' {
        var more;
        k, more := SkipSpaces(text, j + 2);
        NewlinesJoin(text, j, j + 2, k);
        lines, piece := 1 + more, "";
      } else if Unicode(text, j + 1) > 0 {
        k, lines := j + 1 + Unicode(text, j + 1), 0;
        piece := [rules.chr(HexValue(text, j + 3, k - 1))];
        NewlinesJoin(text, j, j + 1, k);
        NoNewlines(text, j + 1, k);
      } else {
        k, lines, piece := j + 2, 0, [Unescaped(text[j + 1])];
      }
    } else {
      k, lines, piece := j + 1, if text[j] == '\n' then 1 else 0, [text[j]];
    }
  }

  /** Walks to a string's closing quote. */
  method SkipString(text: string, start: nat, rules: Rules) returns (j: nat, lines: nat, value: string)
    requires start <= |text|
    ensures j == StringEnd(text, start) && lines == Newlines(text, start, j) && value == Decoded(text, start, rules)
  {
    j, lines, value := start, 0, "";
    while j < |text| && text[j] != '"'
      invariant start <= j <= |text| && StringEnd(text, j) == StringEnd(text, start)
      invariant lines == Newlines(text, start, j) && value + Decoded(text, j, rules) == Decoded(text, start, rules)
      decreases |text| - j
    {
      var k, more, piece := StepString(text, j, rules);
      NewlinesJoin(text, start, j, k);
      Regroup(value, piece, Decoded(text, k, rules));
      j, lines, value := k, lines + more, value + piece;
    }
    assert value + "" == value;
  }

  /** The newlines before a closing delimiter are all the newlines up to its end. */
  lemma RawLines(text: string, i: nat, start: nat, end: nat, hashes: nat, to: nat)
    requires i <= start <= end <= |text| && to == Min(end + 1 + hashes, |text|) && (forall m :: i <= m < start ==> text[m] != '\n')
    requires end < |text| ==> At(text, end, "\"" + Hashes(hashes))
    ensures end <= to && Newlines(text, i, to) == Newlines(text, i, end)
  {
    NewlinesJoin(text, i, end, to);
    if end < |text| {
      var s := "\"" + Hashes(hashes);
      forall m | end <= m < to ensures text[m] != '\n' { assert text[m] == text[end..end + |s|][m - end] == s[m - end]; }
    }
    NoNewlines(text, end, to);
  }

  lemma StringLines(text: string, i: nat, start: nat, end: nat)
    requires i <= start <= end <= |text| && (forall m :: i <= m < start ==> text[m] != '\n') && (end < |text| ==> text[end] == '"')
    ensures Newlines(text, i, end) == Newlines(text, start, end)
    ensures Newlines(text, i, Min(end + 1, |text|)) == Newlines(text, start, end)
  {
    NewlinesJoin(text, i, start, end);
    NoNewlines(text, i, start);
    if end < |text| { OneMore(text, i, end); }
  }

  lemma {:induction false} StringEndQuote(text: string, j: nat)
    requires j <= |text|
    ensures StringEnd(text, j) < |text| ==> text[StringEnd(text, j)] == '"'
    decreases |text| - j
  {
    if j < |text| && text[j] != '"' {
      if text[j] == '\\' && j + 1 < |text| {
        if text[j + 1] == '\n' { StringEndQuote(text, SkipBlank(text, j + 2)); }
        else if Unicode(text, j + 1) > 0 { StringEndQuote(text, j + 1 + Unicode(text, j + 1)); }
        else { StringEndQuote(text, j + 2); }
      } else { StringEndQuote(text, j + 1); }
    }
  }

  /** What cutting one token does to the line counter: it misses the newlines of character literals
      alone. `shown` is the line a literal is reported with. */
  ghost predicate Counted(text: string, i: nat, t: Token, line: nat, line': nat, shown: nat)
    requires i <= t.to <= |text|
  {
    && line' + Uncounted(text, i, t) == line + Newlines(text, i, t.to)
    && (IsLiteral(t.kind) ==> i <= LineAt(i, t.kind) <= |text| && shown == line + Newlines(text, i, LineAt(i, t.kind)))
  }

  method CutString(text: string, i: nat, start: nat, rules: Rules, line: nat) returns (t: Token, line': nat)
    requires i < start <= |text| && forall m :: i <= m < start ==> text[m] != '\n'
    ensures t == StringToken(text, start, rules) && Counted(text, i, t, line, line', line')
  {
    var j, lines, value := SkipString(text, start, rules);
    t, line' := Token(String(start, j, value), Min(j + 1, |text|)), line + lines;
    StringEndQuote(text, start);
    StringLines(text, i, start, j);
  }

  method CutRaw(text: string, i: nat, line: nat) returns (t: Token, line': nat)
    requires i < |text| && RawOpening(text, i).0 > 0
    ensures t == RawToken(text, i) && Counted(text, i, t, line, line', line)
  {
    var (length, hashes) := RawOpening(text, i);
    var end := FindString(text, "\"" + Hashes(hashes), i + length);
    t := Token(Raw(i + length, end, text[i + length..end]), Min(end + 1 + hashes, |text|));
    line' := line + Newlines(text, i, end);
    RawLines(text, i, i + length, end, hashes, t.to);
  }

  method CutAttribute(text: string, i: nat, rules: Rules, line: nat) returns (t: Token, line': nat)
    requires i < |text| && AttributeStart(text, i) > 0
    ensures t == AttributeToken(text, AttributeStart(text, i), rules) && Counted(text, i, t, line, line', line)
  {
    var j := AttributeStart(text, i);
    var end := Min(Find(text, ']', j) + 1, |text|);
    t, line' := Token(Attribute(rules.isTest(text[j..end])), end), line + Newlines(text, j, end);
    NewlinesJoin(text, i, j, end);
    NoNewlines(text, i, j);
  }

  /** Cuts the next token. */
  method Cut(text: string, i: nat, rules: Rules, line: nat) returns (t: Token, line': nat, shown: nat)
    requires i < |text|
    ensures t == TokenAt(text, i, rules) && Counted(text, i, t, line, line', shown)
  {
    var c, n := text[i], |text|;
    line', shown := line, line;
    OneMore(text, i, i);
    if c == '\n' {
      t, line' := Token(Newline, i + 1), line + 1;
    } else if At(text, i, "//") {
      t := Token(LineComment, Find(text, '\n', i + 1));
      NoNewlines(text, i, t.to);
    } else if At(text, i, "/*") {
      var j, lines := SkipComment(text, i + 2);
      t, line' := Token(BlockComment, j), line + lines;
      TwoPlain(text, i, i);
      NewlinesJoin(text, i, i + 2, j);
    } else if AttributeStart(text, i) > 0 {
      t, line' := CutAttribute(text, i, rules, line);
    } else if c == '\'' {
      if i + 1 < n && text[i + 1] == '\\' {
        t := Token(Character, Min(Find(text, '\'', i + 2) + 1, n));
      } else if i + 2 < n && text[i + 2] == '\'' {
        t := Token(Character, i + 3);
      } else {
        t := Token(Tick, i + 1);
      }
    } else if RawOpening(text, i).0 > 0 && (i == 0 || !rules.word(text[i - 1])) {
      t, line' := CutRaw(text, i, line);
    } else if c == '"' || (c == 'b' && i + 1 < n && text[i + 1] == '"') {
      t, line' := CutString(text, i, if c == 'b' then i + 2 else i + 1, rules, line);
      shown := line';
    } else {
      t := Token(if c == '{' then Open else if c == '}' then Close else if c == ';' then Semicolon else Other, i + 1);
    }
  }

  // ---- braces ----

  /** The depths at which the open test blocks opened, when the outermost block has depth base + 1. */
  ghost function Marks(open: seq<bool>, base: int): seq<int> {
    if open == [] then [] else
    var n := |open| - 1;
    Marks(open[..n], base) + if open[n] then [base + n + 1] else []
  }

  ghost predicate Rising(s: seq<int>, limit: int) {
    (forall k, l :: 0 <= k < l < |s| ==> s[k] < s[l]) && forall k :: 0 <= k < |s| ==> s[k] <= limit
  }

  lemma {:induction false} MarksRise(open: seq<bool>, base: int)
    ensures Rising(Marks(open, base), base + |open|)
    decreases |open|
  {
    if open != [] { MarksRise(open[..|open| - 1], base); }
  }

  lemma {:induction false} MarksAny(open: seq<bool>, base: int)
    ensures Marks(open, base) != [] <==> exists k :: 0 <= k < |open| && open[k]
    decreases |open|
  {
    if open != [] {
      var n := |open| - 1;
      MarksAny(open[..n], base);
      if k :| 0 <= k < |open| && open[k] { assert k < n ==> open[..n][k]; }
      if k :| 0 <= k < n && open[..n][k] { assert open[k]; }
    }
  }

  lemma MarksOpen(open: seq<bool>, test: bool, base: int)
    ensures Marks(open + [test], base) == Marks(open, base) + if test then [base + |open| + 1] else []
  {
    assert (open + [test])[..|open|] == open;
  }

  /** The newest mark is the current depth exactly when the innermost block is test code. */
  lemma MarksClose(open: seq<bool>, base: int)
    requires open != []
    ensures var m, n := Marks(open, base), |open| - 1;
            && (m != [] && m[|m| - 1] == base + |open| <==> open[n])
            && Marks(open[..n], base) == if open[n] then m[..|m| - 1] else m
  {
    MarksRise(open[..|open| - 1], base);
  }

  /** What the scan keeps of the braces, whatever the text: the depths at which test blocks opened rise
      and none is above the depth. */
  datatype Braces = Braces(depth: int, skip: seq<int>, pending: bool)

  ghost predicate Tracks(s: Braces, b: Blocks, base: int) {
    s.depth == base + |b.open| && s.skip == Marks(b.open, base) && s.pending == b.pending
  }

  function Step(s: Braces, kind: Kind): Braces {
    match kind
    case Attribute(test) => s.(pending := s.pending || test)
    case Open => Braces(s.depth + 1, if s.pending then s.skip + [s.depth + 1] else s.skip, false)
    case Close => Braces(s.depth - 1, if s.skip != [] && s.skip[|s.skip| - 1] == s.depth then s.skip[..|s.skip| - 1] else s.skip, s.pending)
    case Semicolon => s.(pending := false)
    case _ => s
  }

  lemma OpenTracks(s: Braces, b: Blocks, base: int)
    requires Tracks(s, b, base)
    ensures Tracks(Step(s, Open), Enter(b, Open), base)
  {
    MarksOpen(b.open, b.pending, base);
  }

  lemma CloseTracks(s: Braces, b: Blocks, base: int)
    requires Tracks(s, b, base)
    ensures Tracks(Step(s, Close), Enter(b, Close), if b.open == [] then base - 1 else base)
  {
    if b.open != [] { MarksClose(b.open, base); }
  }

  /** The depths that mark test blocks rise, none is above the depth, and there is one exactly inside
      an open test block. */
  lemma TracksTell(s: Braces, b: Blocks, base: int)
    requires Tracks(s, b, base)
    ensures Rising(s.skip, s.depth) && (s.skip != [] <==> InTest(b))
  {
    MarksRise(b.open, base);
    MarksAny(b.open, base);
  }

  /** The depths stand for the blocks after every token, also after braces that close nothing. */
  lemma StepTracks(s: Braces, b: Blocks, base: int, kind: Kind) returns (base': int)
    requires Tracks(s, b, base)
    ensures Tracks(Step(s, kind), Enter(b, kind), base')
  {
    base' := base;
    if kind.Open? {
      OpenTracks(s, b, base);
    } else if kind.Close? {
      CloseTracks(s, b, base);
      base' := if b.open == [] then base - 1 else base;
    }
  }

  // ---- the scan ----

  lemma ExpectedNext(text: string, i: nat, b: Blocks, lost: nat, lexer: Lexer, line: nat, line': nat, shown: nat)
    requires i < |text| && Cuts(text, lexer) && Counted(text, i, lexer(i), line, line', shown)
    requires line + lost == 1 + Newlines(text, 0, i)
    ensures var t := lexer(i);
            && line' + lost + Uncounted(text, i, t) == 1 + Newlines(text, 0, t.to)
            && Expected(text, i, b, lost, lexer) ==
               (if IsLiteral(t.kind) && !InTest(b) then [Literal(i, shown, t.kind.value, Before(text, i, t.kind))] else [])
               + Expected(text, t.to, Enter(b, t.kind), lost + Uncounted(text, i, t), lexer)
  {
    var t := lexer(i);
    NewlinesJoin(text, 0, i, t.to);
    if IsLiteral(t.kind) { NewlinesJoin(text, 0, i, LineAt(i, t.kind)); }
  }

  ghost predicate CutsRust(text: string, rules: Rules, lexer: Lexer) {
    Cuts(text, lexer) && forall i: nat {:trigger TokenAt(text, i, rules)} :: i < |text| ==> lexer(i) == TokenAt(text, i, rules)
  }

  method CutNext(text: string, i: nat, rules: Rules, line: nat, ghost lexer: Lexer) returns (t: Token, line': nat, shown: nat)
    requires i < |text| && CutsRust(text, rules, lexer)
    ensures t == lexer(i) && Counted(text, i, t, line, line', shown)
  {
    t, line', shown := Cut(text, i, rules, line);
  }

  /** The scan at position i: `b` are the open blocks, `lost` the newlines it did not count. */
  ghost predicate Scanning(text: string, lexer: Lexer, i: nat, line: nat, braces: Braces, found: seq<Literal>, b: Blocks, base: int, lost: nat) {
    && i <= |text| && Cuts(text, lexer) && Tracks(braces, b, base) && line + lost == 1 + Newlines(text, 0, i)
    && found + Expected(text, i, b, lost, lexer) == Expected(text, 0, Blocks([], false), 0, lexer)
  }

  /** What the token at i adds. */
  function Taken(text: string, i: nat, t: Token, braces: Braces, shown: int): seq<Literal>
    requires i <= |text| && (t.kind.String? ==> i < t.kind.start <= |text|)
  {
    if IsLiteral(t.kind) && braces.skip == [] then [Literal(i, shown, t.kind.value, Before(text, i, t.kind))] else []
  }

  lemma ScanStep(text: string, lexer: Lexer, i: nat, line: nat, braces: Braces, found: seq<Literal>, b: Blocks, base: int, lost: nat,
                 line': nat, shown: nat) returns (base': int)
    requires i < |text| && Scanning(text, lexer, i, line, braces, found, b, base, lost) && Counted(text, i, lexer(i), line, line', shown)
    ensures var t := lexer(i);
            Scanning(text, lexer, t.to, line', Step(braces, t.kind), found + Taken(text, i, t, braces, shown), Enter(b, t.kind), base',
                     lost + Uncounted(text, i, t))
  {
    var t := lexer(i);
    ExpectedNext(text, i, b, lost, lexer, line, line', shown);
    TracksTell(braces, b, base);
    Regroup(found, Taken(text, i, t, braces, shown), Expected(text, t.to, Enter(b, t.kind), lost + Uncounted(text, i, t), lexer));
    base' := StepTracks(braces, b, base, t.kind);
  }

  /** The scan stands right at position i. */
  ghost predicate ScanAt(text: string, lexer: Lexer, i: nat, line: nat, braces: Braces, found: seq<Literal>) {
    exists b: Blocks, base: int, lost: nat :: Scanning(text, lexer, i, line, braces, found, b, base, lost)
  }

  lemma ScanStart(text: string, lexer: Lexer)
    requires Cuts(text, lexer)
    ensures ScanAt(text, lexer, 0, 1, Braces(0, [], false), [])
  {
    assert Scanning(text, lexer, 0, 1, Braces(0, [], false), [], Blocks([], false), 0, 0);
  }

  lemma ScanMore(text: string, lexer: Lexer, i: nat, line: nat, braces: Braces, found: seq<Literal>, line': nat, shown: nat)
    requires i < |text| && ScanAt(text, lexer, i, line, braces, found) && Counted(text, i, lexer(i), line, line', shown)
    ensures var t := lexer(i);
            i < t.to <= |text| && ScanAt(text, lexer, t.to, line', Step(braces, t.kind), found + Taken(text, i, t, braces, shown))
  {
    var b: Blocks, base: int, lost: nat :| Scanning(text, lexer, i, line, braces, found, b, base, lost);
    var base' := ScanStep(text, lexer, i, line, braces, found, b, base, lost, line', shown);
  }

  lemma ScanEnd(text: string, lexer: Lexer, line: nat, braces: Braces, found: seq<Literal>)
    requires ScanAt(text, lexer, |text|, line, braces, found)
    ensures found == Expected(text, 0, Blocks([], false), 0, lexer)
  {
    assert found + [] == found;
  }

  /** One token of the scan. */
  method ScanNext(text: string, rules: Rules, ghost lexer: Lexer, i: nat, line: nat, braces: Braces, found: seq<Literal>)
    returns (i': nat, line': nat, braces': Braces, found': seq<Literal>)
    requires i < |text| && CutsRust(text, rules, lexer) && ScanAt(text, lexer, i, line, braces, found)
    ensures i < i' <= |text| && ScanAt(text, lexer, i', line', braces', found')
  {
    var t, next, shown := CutNext(text, i, rules, line, lexer);
    ScanMore(text, lexer, i, line, braces, found, next, shown);
    i', line', braces', found' := t.to, next, Step(braces, t.kind), found + Taken(text, i, t, braces, shown);
  }

  /** The scan, for whatever cuts the text up. */
  method Scan(text: string, rules: Rules, ghost lexer: Lexer) returns (found: seq<Literal>)
    requires CutsRust(text, rules, lexer)
    ensures found == Expected(text, 0, Blocks([], false), 0, lexer)
  {
    found := [];
    var i: nat, line: nat, braces := 0, 1, Braces(0, [], false);
    ScanStart(text, lexer);
    while i < |text|
      invariant i <= |text| && ScanAt(text, lexer, i, line, braces, found)
      decreases |text| - i
    {
      i, line, braces, found := ScanNext(text, rules, lexer, i, line, braces, found);
    }
    ScanEnd(text, lexer, line, braces, found);
  }

  /** The literals of a file outside comments, attributes and test blocks, with their lines. */
  method Literals(text: string, rules: Rules) returns (found: seq<Literal>)
    ensures found == Expected(text, 0, Blocks([], false), 0, ScanLexer(text, rules))
  {
    found := Scan(text, rules, ScanLexer(text, rules));
  }

  /** Arguments of a macro: an escaped quote, a line's end, a character and a string. */
  const WRONG := "m!['\\''\n'a'\"b\"]"

  lemma WrongAre()
    ensures |WRONG| == 15 && WRONG[0] == 'm' && WRONG[1] == '!' && WRONG[2] == '[' && WRONG[3] == '\'' && WRONG[4] == '\\'
    ensures WRONG[5] == '\'' && WRONG[6] == '\'' && WRONG[7] == '\n' && WRONG[8] == '\'' && WRONG[9] == 'a' && WRONG[10] == '\''
    ensures WRONG[11] == '"' && WRONG[12] == 'b' && WRONG[13] == '"' && WRONG[14] == ']'
  {
  }

  lemma NoCommentThere(i: nat)
    requires i < |WRONG|
    ensures !At(WRONG, i, "//") && !At(WRONG, i, "/*") && RawOpening(WRONG, i).0 == 0
  {
    WrongAre();
    if i + 2 <= |WRONG| { assert WRONG[i..i + 2][0] == WRONG[i]; }
  }

  lemma WrongTokens(rules: Rules)
    ensures TokenAt(WRONG, 0, rules) == Token(Other, 1) && TokenAt(WRONG, 1, rules) == Token(Other, 2) && TokenAt(WRONG, 2, rules) == Token(Other, 3)
    ensures TokenAt(WRONG, 3, rules) == Token(Character, 6) && TokenAt(WRONG, 6, rules) == Token(Character, 9)
    ensures TokenAt(WRONG, 9, rules) == Token(Other, 10) && TokenAt(WRONG, 10, rules) == Token(Tick, 11)
    ensures TokenAt(WRONG, 14, rules) == Token(Other, 15)
  {
    WrongAre();
    forall i: nat | i < 15 ensures !At(WRONG, i, "//") && !At(WRONG, i, "/*") && RawOpening(WRONG, i).0 == 0 { NoCommentThere(i); }
    assert Find(WRONG, '\'', 5) == 5;
  }

  lemma WrongString(rules: Rules)
    ensures TokenAt(WRONG, 11, rules) == Token(String(12, 13, "b"), 14)
  {
    WrongAre();
    NoCommentThere(11);
    assert StringEnd(WRONG, 13) == 13 && StringEnd(WRONG, 12) == 13;
    assert Decoded(WRONG, 13, rules) == "" && Decoded(WRONG, 12, rules) == "b";
  }

  lemma WrongNewlines()
    ensures forall k :: 0 <= k <= 7 ==> Newlines(WRONG, 0, k) == 0
    ensures forall k :: 8 <= k <= 15 ==> Newlines(WRONG, 0, k) == 1
    ensures Newlines(WRONG, 3, 6) == 0 && Newlines(WRONG, 6, 9) == 1
  {
    WrongAre();
    forall k: nat | k <= 7 ensures Newlines(WRONG, 0, k) == 0 { NoNewlines(WRONG, 0, k); }
    assert Newlines(WRONG, 7, 8) == 1;
    forall k: nat | 8 <= k <= 15 ensures Newlines(WRONG, 0, k) == 1 {
      NewlinesJoin(WRONG, 0, 7, k);
      NewlinesJoin(WRONG, 7, 8, k);
      NoNewlines(WRONG, 8, k);
    }
    NewlinesJoin(WRONG, 0, 3, 6);
    NewlinesJoin(WRONG, 0, 6, 9);
  }

  /** Five tokens, the last of which swallows a line's end. */
  lemma WrongStart(text: string, b: Blocks, lexer: Lexer)
    requires |text| == 15 && Cuts(text, lexer) && lexer(0) == Token(Other, 1) && lexer(1) == Token(Other, 2) && lexer(2) == Token(Other, 3)
    requires lexer(3) == Token(Character, 6) && lexer(6) == Token(Character, 9) && Newlines(text, 3, 6) == 0 && Newlines(text, 6, 9) == 1
    ensures Expected(text, 0, b, 0, lexer) == Expected(text, 9, b, 1, lexer)
  {
    Passed(text, 0, Token(Other, 1), b, 0, lexer);
    Passed(text, 1, Token(Other, 2), b, 0, lexer);
    Passed(text, 2, Token(Other, 3), b, 0, lexer);
    Passed(text, 3, Token(Character, 6), b, 0, lexer);
    Passed(text, 6, Token(Character, 9), b, 0, lexer);
  }

  /** Two tokens, a string and another one. */
  lemma WrongRest(text: string, b: Blocks, lexer: Lexer)
    requires |text| == 15 && Cuts(text, lexer) && lexer(9) == Token(Other, 10) && lexer(10) == Token(Tick, 11)
    requires lexer(11) == Token(String(12, 13, "b"), 14) && lexer(14) == Token(Other, 15) && !InTest(b) && Newlines(text, 0, 13) == 1
    ensures Expected(text, 9, b, 1, lexer) == [Literal(11, 1, "b", text[..11])]
  {
    Passed(text, 9, Token(Other, 10), b, 1, lexer);
    Passed(text, 10, Token(Tick, 11), b, 1, lexer);
    Passed(text, 14, Token(Other, 15), b, 1, lexer);
    assert text[0..11] == text[..11];
    assert Expected(text, 11, b, 1, lexer) == [Literal(11, 1, "b", text[..11])] + Expected(text, 14, b, 1, lexer);
  }

  /** A file in which the line given is wrong: cut short at the escaped quote, the scan takes the line's end for
      a character. The string is on line 2. */
  lemma WrongLineExample(rules: Rules)
    ensures Expected(WRONG, 0, Blocks([], false), 0, ScanLexer(WRONG, rules)) == [Literal(11, 1, "b", WRONG[..11])]
    ensures 1 + Newlines(WRONG, 0, 13) == 2
  {
    WrongAre();
    WrongTokens(rules);
    WrongString(rules);
    WrongNewlines();
    WrongStart(WRONG, Blocks([], false), ScanLexer(WRONG, rules));
    WrongRest(WRONG, Blocks([], false), ScanLexer(WRONG, rules));
  }
}
