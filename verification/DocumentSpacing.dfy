/** The formatting pass over a text document, on a small model of the toolkit's undo stack: an entry
    holds the contents before and after one edit block. */
module DocumentSpacing {

  datatype Format = Format(level: nat, line: int, proportional: bool, top: int, bottom: int, rest: int)

  datatype Block = Block(text: string, format: Format)

  type Content = seq<Block>

  datatype Entry = Entry(before: Content, after: Content)

  /** `undo` ends with the newest entry, `redo` with the one to redo next. */
  datatype Document = Document(content: Content, undo: seq<Entry>, redo: seq<Entry>, enabled: bool, modified: bool)

  // ---- the toolkit ----

  /** Turning undo off forgets every entry. */
  function SetEnabled(d: Document, on: bool): Document {
    if on then d.(enabled := true) else d.(enabled := false, undo := [], redo := [])
  }

  /** An edit block of its own. */
  function Change(d: Document, c: Content): Document {
    var d' := d.(content := c, modified := true);
    if d.enabled then d'.(undo := d.undo + [Entry(d.content, c)], redo := []) else d'
  }

  /** An edit block joined to the newest entry. */
  function Join(d: Document, c: Content): Document
    requires d.undo != []
  {
    var n := |d.undo| - 1;
    d.(content := c, modified := true, undo := d.undo[..n] + [d.undo[n].(after := c)], redo := [])
  }

  function Undo(d: Document, modified: bool): Document {
    if d.undo == [] then d else
    var e := d.undo[|d.undo| - 1];
    d.(content := e.before, undo := d.undo[..|d.undo| - 1], redo := d.redo + [e], modified := modified)
  }

  function Redo(d: Document, modified: bool): Document {
    if d.redo == [] then d else
    var e := d.redo[|d.redo| - 1];
    d.(content := e.after, redo := d.redo[..|d.redo| - 1], undo := d.undo + [e], modified := modified)
  }

  /** The entries fit together: each starts where the one before it ended, and the contents are where
      the newest ended and the next to redo starts. With undo turned off there are none. */
  ghost predicate Valid(d: Document) {
    && (forall i :: 0 < i < |d.undo| ==> d.undo[i - 1].after == d.undo[i].before)
    && (d.undo != [] ==> d.undo[|d.undo| - 1].after == d.content)
    && (forall i :: 0 < i < |d.redo| ==> d.redo[i].after == d.redo[i - 1].before)
    && (d.redo != [] ==> d.redo[|d.redo| - 1].before == d.content)
    && (!d.enabled ==> d.undo == [] && d.redo == [])
  }

  // ---- the pass ----

  function Spaced(f: Format, first: bool): Format {
    f.(line := 115, proportional := true,
       top := if f.level > 0 && !first then 14 else 0,
       bottom := if f.level > 0 then 8 else 0)
  }

  function SpacedAt(c: Content, i: nat): Block
    requires i < |c|
  {
    c[i].(format := Spaced(c[i].format, i == 0))
  }

  function SpacedAll(c: Content): (r: Content)
    ensures |r| == |c| && forall i :: 0 <= i < |c| ==> r[i] == SpacedAt(c, i)
  {
    seq(|c|, i requires 0 <= i < |c| => SpacedAt(c, i))
  }

  function Apply(d: Document): Document {
    var c := SpacedAll(d.content);
    if d.redo != [] || c == d.content then d
    else if d.undo == [] then
      SetEnabled(Change(SetEnabled(d, false), c), d.enabled).(modified := d.modified)
    else Join(d, c).(modified := d.modified)
  }

  /** A paragraph without its spacing. */
  datatype Bare = Bare(text: string, level: nat, rest: int)

  function Strip(c: Content): (r: seq<Bare>)
    ensures |r| == |c| && forall i :: 0 <= i < |c| ==> r[i] == Bare(c[i].text, c[i].format.level, c[i].format.rest)
  {
    seq(|c|, i requires 0 <= i < |c| => Bare(c[i].text, c[i].format.level, c[i].format.rest))
  }

  // ---- one pass ----

  lemma SpacedTwice(c: Content)
    ensures SpacedAll(SpacedAll(c)) == SpacedAll(c) && Strip(SpacedAll(c)) == Strip(c)
  {
  }

  /** The pass on a toolkit that could turn undo off without forgetting anything. */
  function ApplyForgettingNothing(d: Document): Document {
    var c := SpacedAll(d.content);
    if d.redo != [] || c == d.content then d
    else if d.undo == [] then
      Change(d.(enabled := false), c).(enabled := d.enabled, modified := d.modified)
    else Join(d, c).(modified := d.modified)
  }

  /** Turning undo off in the pass forgets nothing: with a toolkit that kept every entry the pass would
      do the same, on every document. */
  lemma NothingDiscarded(d: Document)
    ensures Apply(d) == ApplyForgettingNothing(d)
  {
  }

  /** The pass changes no text and no number of steps; it leaves the modified state alone and spaces
      every paragraph unless there is something to redo. A second pass changes nothing. */
  lemma ApplyKeeps(d: Document)
    ensures var d' := Apply(d);
            && Strip(d'.content) == Strip(d.content)
            && |d'.undo| == |d.undo| && |d'.redo| == |d.redo| && d'.enabled == d.enabled
            && d'.modified == d.modified
            && (d.redo == [] ==> d'.content == SpacedAll(d.content)) && (d.redo != [] ==> d' == d)
            && Apply(d') == d'
  {
    SpacedTwice(d.content);
  }

  // ---- runs ----

  datatype Op = Edit(edit: Content -> Content) | UndoOp(modified: bool) | RedoOp(modified: bool) | Pass

  function Do(d: Document, op: Op): Document {
    match op
    case Edit(f) => Change(d, f(d.content))
    case UndoOp(m) => Undo(d, m)
    case RedoOp(m) => Redo(d, m)
    case Pass => Apply(d)
  }

  function Run(d: Document, ops: seq<Op>): Document {
    if ops == [] then d else Do(Run(d, ops[..|ops| - 1]), ops[|ops| - 1])
  }

  /** The same run with the passes left out. */
  function Plain(ops: seq<Op>): seq<Op> {
    if ops == [] then [] else
    var before := Plain(ops[..|ops| - 1]);
    if ops[|ops| - 1].Pass? then before else before + [ops[|ops| - 1]]
  }

  /** What an edit does to the text does not depend on the spacing. */
  ghost predicate Blind(f: Content -> Content) {
    forall a, b {:trigger f(a), f(b)} :: Strip(a) == Strip(b) ==> Strip(f(a)) == Strip(f(b))
  }

  ghost predicate BlindOps(ops: seq<Op>) {
    forall i :: 0 <= i < |ops| && ops[i].Edit? ==> Blind(ops[i].edit)
  }

  ghost predicate SameEntries(a: seq<Entry>, b: seq<Entry>) {
    |a| == |b| && forall i :: 0 <= i < |a| ==> Strip(a[i].before) == Strip(b[i].before) && Strip(a[i].after) == Strip(b[i].after)
  }

  /** Two documents differ in spacing at most, now and anywhere in their history. */
  ghost predicate Same(a: Document, b: Document) {
    && Strip(a.content) == Strip(b.content) && SameEntries(a.undo, b.undo) && SameEntries(a.redo, b.redo)
    && a.enabled == b.enabled && a.modified == b.modified
  }

  lemma ChangeSame(a: Document, b: Document, f: Content -> Content)
    requires Same(a, b) && Blind(f)
    ensures Same(Change(a, f(a.content)), Change(b, f(b.content)))
  {
    ChangedSame(a, b, f(a.content), f(b.content));
  }

  lemma ChangedSame(a: Document, b: Document, c: Content, e: Content)
    requires Same(a, b) && Strip(c) == Strip(e)
    ensures Same(Change(a, c), Change(b, e))
  {
  }

  lemma UndoSame(a: Document, b: Document, modified: bool)
    requires Same(a, b)
    ensures Same(Undo(a, modified), Undo(b, modified))
  {
  }

  lemma RedoSame(a: Document, b: Document, modified: bool)
    requires Same(a, b)
    ensures Same(Redo(a, modified), Redo(b, modified))
  {
  }

  lemma DoSame(a: Document, b: Document, op: Op)
    requires Same(a, b) && !op.Pass? && (op.Edit? ==> Blind(op.edit))
    ensures Same(Do(a, op), Do(b, op))
  {
    match op
    case Edit(f) => ChangeSame(a, b, f);
    case UndoOp(m) => UndoSame(a, b, m);
    case RedoOp(m) => RedoSame(a, b, m);
  }

  lemma ApplySame(a: Document, b: Document)
    requires Same(a, b) && Valid(a)
    ensures Same(Apply(a), b)
  {
    SpacedTwice(a.content);
  }

  /** The history stays a history, whatever is done. */
  lemma DoValid(d: Document, op: Op)
    requires Valid(d)
    ensures Valid(Do(d, op))
  {
  }

  lemma {:induction false} RunValid(d: Document, ops: seq<Op>)
    requires Valid(d)
    ensures Valid(Run(d, ops))
    decreases |ops|
  {
    if ops != [] {
      RunValid(d, ops[..|ops| - 1]);
      DoValid(Run(d, ops[..|ops| - 1]), ops[|ops| - 1]);
    }
  }

  /** For every run of edits, undos and redos with passes anywhere in it, the text, the whole history's
      text, the steps to undo and redo and the modified state are those of the run without the passes. */
  lemma {:induction false} UndoTransparency(d: Document, ops: seq<Op>)
    requires Valid(d) && BlindOps(ops)
    ensures Same(Run(d, ops), Run(d, Plain(ops)))
    decreases |ops|
  {
    if ops != [] {
      var n := |ops| - 1;
      UndoTransparency(d, ops[..n]);
      var a, b := Run(d, ops[..n]), Run(d, Plain(ops[..n]));
      RunValid(d, ops[..n]);
      if ops[n].Pass? {
        ApplySame(a, b);
      } else {
        DoSame(a, b, ops[n]);
        assert Plain(ops)[..|Plain(ops)| - 1] == Plain(ops[..n]);
      }
    }
  }

  // ---- undo restores styled paragraphs ----

  ghost predicate Styled(c: Content) {
    SpacedAll(c) == c
  }

  ghost predicate AllStyled(es: seq<Entry>) {
    forall i :: 0 <= i < |es| ==> Styled(es[i].before) && Styled(es[i].after)
  }

  ghost predicate StyledThroughout(d: Document) {
    Styled(d.content) && AllStyled(d.undo) && AllStyled(d.redo)
  }

  /** Every edit is followed at once by a pass. */
  ghost predicate Followed(ops: seq<Op>) {
    forall i :: 0 <= i < |ops| && ops[i].Edit? ==> i + 1 < |ops| && ops[i + 1].Pass?
  }

  lemma AllStyledMore(es: seq<Entry>, e: Entry)
    requires AllStyled(es) && Styled(e.before) && Styled(e.after)
    ensures AllStyled(es + [e])
  {
  }

  /** The pass after an edit, in full. */
  lemma ApplyAfter(d: Document, c: Content)
    requires Valid(d)
    ensures var d' := Apply(Change(d, c));
            && d'.content == SpacedAll(c) && d'.redo == []
            && d'.undo == if d.enabled then d.undo + [Entry(d.content, SpacedAll(c))] else []
  {
    SpacedTwice(c);
    if d.enabled {
      var e := Change(d, c);
      assert e.undo[..|e.undo| - 1] == d.undo && e.undo[|e.undo| - 1] == Entry(d.content, c);
    }
  }

  lemma EditThenFormat(d: Document, f: Content -> Content)
    requires Valid(d) && StyledThroughout(d)
    ensures StyledThroughout(Apply(Change(d, f(d.content))))
  {
    ApplyAfter(d, f(d.content));
    SpacedTwice(f(d.content));
    AllStyledMore(d.undo, Entry(d.content, SpacedAll(f(d.content))));
  }

  lemma StyledStep(d: Document, op: Op)
    requires StyledThroughout(d) && !op.Edit?
    ensures StyledThroughout(Do(d, op))
  {
  }

  lemma RunTwo(d: Document, ops: seq<Op>)
    requires |ops| > 1
    ensures Run(d, ops) == Do(Do(Run(d, ops[..|ops| - 2]), ops[|ops| - 2]), ops[|ops| - 1])
  {
    assert ops[..|ops| - 1][..|ops| - 2] == ops[..|ops| - 2];
  }

  /** Undo and redo need no pass: with a pass after every edit, the paragraphs are spaced at every
      point of a run that is not between an edit and its pass, also while the pass holds back. */
  lemma {:induction false} StyledAlways(d: Document, ops: seq<Op>)
    requires Valid(d) && StyledThroughout(d) && Followed(ops)
    ensures StyledThroughout(Run(d, ops))
    decreases |ops|
  {
    var n := |ops| - 1;
    if ops != [] {
      if n > 0 && ops[n - 1].Edit? {
        var start := ops[..n - 1];
        RunTwo(d, ops);
        StyledAlways(d, start);
        RunValid(d, start);
        EditThenFormat(Run(d, start), ops[n - 1].edit);
      } else {
        StyledAlways(d, ops[..n]);
        StyledStep(Run(d, ops[..n]), ops[n]);
      }
    }
  }

  // ---- the timer ----

  /** What happens to a document with the pass behind a timer: something the user does, or the timer. */
  datatype Event = User(op: Op) | Timer

  datatype Timed = Timed(doc: Document, pending: bool)

  predicate CanHappen(s: Timed, e: Event) {
    match e
    case User(op) => !op.Pass?
    case Timer => s.pending
  }

  /** Whether the contents change, which sets the timer. */
  predicate Signals(d: Document, op: Op) {
    op.Edit? || (op.UndoOp? && d.undo != []) || (op.RedoOp? && d.redo != [])
  }

  function Happens(s: Timed, e: Event): Timed {
    match e
    case User(op) => Timed(Do(s.doc, op), s.pending || Signals(s.doc, op))
    case Timer => Timed(Apply(s.doc), false)
  }

  ghost predicate IsRun(ss: seq<Timed>, es: seq<Event>) {
    |ss| == |es| + 1 && forall k :: 0 <= k < |es| ==> CanHappen(ss[k], es[k]) && ss[k + 1] == Happens(ss[k], es[k])
  }

  /** With no timer out and nothing to redo, every paragraph is spaced. */
  ghost predicate IdleSpaced(s: Timed) {
    !s.pending && s.doc.redo == [] ==> Styled(s.doc.content)
  }

  lemma HappensSpaced(s: Timed, e: Event)
    requires CanHappen(s, e) && IdleSpaced(s)
    ensures IdleSpaced(Happens(s, e))
  {
    SpacedTwice(s.doc.content);
  }

  /** In every run of edits, undos and redos with the timer firing whenever it likes: whenever no timer
      is out and there is nothing to redo, every paragraph is spaced. */
  lemma {:induction false} SpacedWhenIdle(ss: seq<Timed>, es: seq<Event>, k: nat)
    requires IsRun(ss, es) && IdleSpaced(ss[0]) && k <= |es|
    ensures IdleSpaced(ss[k])
  {
    if k > 0 {
      SpacedWhenIdle(ss, es, k - 1);
      HappensSpaced(ss[k - 1], es[k - 1]);
    }
  }

  const PLAIN := Format(0, 100, true, 0, 0, 0)

  function Typed(c: Content): Content {
    c + [Block("x", PLAIN)]
  }

  /** With something to redo they need not be: two edits before the timer and an undo leave an unspaced
      paragraph on the screen with no timer out. */
  lemma UnspacedExample()
    ensures var start := Timed(Document([], [], [], true, false), false);
            var typed := Happens(Happens(start, User(Edit(Typed))), User(Edit(Typed)));
            var idle := Happens(Happens(typed, User(UndoOp(true))), Timer);
            && CanHappen(Happens(typed, User(UndoOp(true))), Timer)
            && IdleSpaced(start) && !idle.pending && idle.doc.redo != [] && !Styled(idle.doc.content)
  {
    var b := Block("x", PLAIN);
    var d := Document([], [], [], true, false);
    var one := Change(d, Typed([]));
    assert one.content == [b] && one.undo == [Entry([], [b])];
    var two := Change(one, Typed(one.content));
    assert two.content == [b, b] && two.undo == [Entry([], [b]), Entry([b], [b, b])];
    var back := Undo(two, true);
    assert back.content == [b] && back.redo == [Entry([b], [b, b])];
    assert SpacedAll([b])[0] == SpacedAt([b], 0) && SpacedAt([b], 0).format.line == 115;
  }

  // ---- exactly when they are spaced ----

  /** The paragraphs each edit of the history was made on. */
  datatype Grounds = Grounds(undo: seq<Content>, redo: seq<Content>)

  function Befores(es: seq<Entry>): (r: seq<Content>)
    ensures |r| == |es| && forall i :: 0 <= i < |es| ==> r[i] == es[i].before
  {
    seq(|es|, i requires 0 <= i < |es| => es[i].before)
  }

  /** They are noted when an edit is made; an undo and a redo move the note, and a pass leaves it alone. */
  function Noted(g: Grounds, s: Timed, e: Event): Grounds {
    match e
    case User(Edit(_)) => if s.doc.enabled then Grounds(g.undo + [s.doc.content], []) else g
    case User(UndoOp(_)) => if g.undo == [] then g else Grounds(g.undo[..|g.undo| - 1], g.redo + [g.undo[|g.undo| - 1]])
    case User(RedoOp(_)) => if g.redo == [] then g else Grounds(g.undo + [g.redo[|g.redo| - 1]], g.redo[..|g.redo| - 1])
    case _ => g
  }

  function GroundsAt(ss: seq<Timed>, es: seq<Event>, k: nat): Grounds
    requires k <= |es| && |ss| == |es| + 1
  {
    if k == 0 then Grounds(Befores(ss[0].doc.undo), Befores(ss[0].doc.redo)) else Noted(GroundsAt(ss, es, k - 1), ss[k - 1], es[k - 1])
  }

  ghost predicate Recalls(d: Document, g: Grounds) {
    Befores(d.undo) == g.undo && Befores(d.redo) == g.redo
  }

  lemma RecallsUser(d: Document, g: Grounds, s: Timed, op: Op)
    requires Recalls(d, g) && s.doc == d && Valid(d) && !op.Pass?
    ensures Recalls(Do(d, op), Noted(g, s, User(op)))
  {
  }

  lemma RecallsPass(d: Document, g: Grounds)
    requires Recalls(d, g) && Valid(d)
    ensures Recalls(Apply(d), g)
  {
  }

  lemma RecallsStep(s: Timed, g: Grounds, e: Event)
    requires Recalls(s.doc, g) && Valid(s.doc) && CanHappen(s, e)
    ensures Recalls(Happens(s, e).doc, Noted(g, s, e))
  {
    match e
    case User(op) => RecallsUser(s.doc, g, s, op);
    case Timer => RecallsPass(s.doc, g);
  }

  lemma {:induction false} RecallsAt(ss: seq<Timed>, es: seq<Event>, k: nat)
    requires IsRun(ss, es) && Valid(ss[0].doc) && k <= |es|
    ensures Recalls(ss[k].doc, GroundsAt(ss, es, k)) && Valid(ss[k].doc)
  {
    if k > 0 {
      RecallsAt(ss, es, k - 1);
      HappensValid(ss[k - 1], es[k - 1]);
      RecallsStep(ss[k - 1], GroundsAt(ss, es, k - 1), es[k - 1]);
    }
  }

  /** With something to redo, the paragraphs shown are those the edit to redo next was made on: no pass
      has touched them since. */
  lemma UndoShows(ss: seq<Timed>, es: seq<Event>, k: nat)
    requires IsRun(ss, es) && Valid(ss[0].doc) && k <= |es| && ss[k].doc.redo != []
    ensures var redo := GroundsAt(ss, es, k).redo;
            redo != [] && ss[k].doc.content == redo[|redo| - 1]
  {
    RecallsAt(ss, es, k);
  }

  /** Every paragraph is spaced whenever no timer is out. */
  ghost predicate SpacedThroughout(ss: seq<Timed>) {
    forall k :: 0 <= k < |ss| && !ss[k].pending ==> Styled(ss[k].doc.content)
  }

  /** No timer fires while the edit to redo next is one that was made on unspaced paragraphs. */
  ghost predicate NoneHeldBack(ss: seq<Timed>, es: seq<Event>)
    requires |ss| == |es| + 1
  {
    forall k: nat :: k < |es| && es[k].Timer? ==>
                       var redo := GroundsAt(ss, es, k).redo; redo == [] || Styled(redo[|redo| - 1])
  }

  lemma {:induction false} SpacedTo(ss: seq<Timed>, es: seq<Event>, k: nat)
    requires IsRun(ss, es) && Valid(ss[0].doc) && (ss[0].pending || Styled(ss[0].doc.content)) && NoneHeldBack(ss, es) && k <= |es|
    ensures ss[k].pending || Styled(ss[k].doc.content)
  {
    if k > 0 {
      SpacedTo(ss, es, k - 1);
      RecallsAt(ss, es, k - 1);
      SpacedTwice(ss[k - 1].doc.content);
      if es[k - 1].Timer? && ss[k - 1].doc.redo != [] { UndoShows(ss, es, k - 1); }
    }
  }

  /** For every run: the paragraphs are spaced whenever no timer is out if and only if no timer fires
      while the edit to redo next is one that was made on unspaced paragraphs. */
  lemma SpacedIff(ss: seq<Timed>, es: seq<Event>)
    requires IsRun(ss, es) && Valid(ss[0].doc) && (ss[0].pending || Styled(ss[0].doc.content))
    ensures SpacedThroughout(ss) <==> NoneHeldBack(ss, es)
  {
    if NoneHeldBack(ss, es) {
      forall k: nat | k <= |es| ensures ss[k].pending || Styled(ss[k].doc.content) { SpacedTo(ss, es, k); }
    }
    if SpacedThroughout(ss) {
      forall k: nat | k < |es| && es[k].Timer?
        ensures var redo := GroundsAt(ss, es, k).redo; redo == [] || Styled(redo[|redo| - 1])
      {
        RecallsAt(ss, es, k);
        if ss[k].doc.redo != [] {
          UndoShows(ss, es, k);
          assert ss[k + 1] == Timed(ss[k].doc, false);
        }
      }
    }
  }

  // ---- told from the order of events ----

  /** Which contents of the history no pass has reached since they were typed: the one before each entry
      to undo, the present one, and the one after each entry to redo. */
  datatype Order = Order(undo: seq<bool>, now: bool, redo: seq<bool>, pending: bool)

  /** The order of events alone decides: an edit leaves contents unreached, and the timer reaches the
      present ones unless there is something to redo. */
  function OrderStep(o: Order, e: Event, enabled: bool): Order {
    match e
    case User(Edit(_)) => Order(if enabled then o.undo + [o.now] else [], true, [], true)
    case User(UndoOp(_)) =>
      if o.undo == [] then o else Order(o.undo[..|o.undo| - 1], o.undo[|o.undo| - 1], o.redo + [o.now], true)
    case User(RedoOp(_)) =>
      if o.redo == [] then o else Order(o.undo + [o.now], o.redo[|o.redo| - 1], o.redo[..|o.redo| - 1], true)
    case User(Pass) => o
    case Timer => Order(o.undo, o.redo != [] && o.now, o.redo, false)
  }

  /** At the start the contents that are not spaced count as unreached. */
  ghost function OrderFrom(s: Timed): Order {
    Order(seq(|s.doc.undo|, i requires 0 <= i < |s.doc.undo| => !Styled(s.doc.undo[i].before)), !Styled(s.doc.content),
          seq(|s.doc.redo|, i requires 0 <= i < |s.doc.redo| => !Styled(s.doc.redo[i].after)), s.pending)
  }

  ghost function OrderAt(s: Timed, es: seq<Event>, k: nat): Order
    requires k <= |es|
  {
    if k == 0 then OrderFrom(s) else OrderStep(OrderAt(s, es, k - 1), es[k - 1], s.doc.enabled)
  }

  /** No timer fires on unreached contents with something to redo. */
  ghost predicate GoodOrder(s: Timed, es: seq<Event>) {
    forall k: nat :: k < |es| && es[k].Timer? ==> OrderAt(s, es, k).redo == [] || !OrderAt(s, es, k).now
  }

  /** Contents that a pass has reached are spaced; of `exact` marks the others are not. */
  ghost predicate Marked(c: Content, unreached: bool, exact: bool) {
    (!unreached ==> Styled(c)) && (exact && unreached ==> !Styled(c))
  }

  ghost predicate Told(s: Timed, o: Order, exact: bool) {
    && |o.undo| == |s.doc.undo| && (forall i :: 0 <= i < |o.undo| ==> Marked(s.doc.undo[i].before, o.undo[i], exact))
    && |o.redo| == |s.doc.redo| && (forall i :: 0 <= i < |o.redo| ==> Marked(s.doc.redo[i].after, o.redo[i], exact))
    && Marked(s.doc.content, o.now, exact) && o.pending == s.pending
  }

  lemma TypedUnspaced(c: Content)
    ensures !Styled(Typed(c))
  {
    assert SpacedAll(Typed(c))[|c|] == SpacedAt(Typed(c), |c|);
  }

  lemma ToldEdit(s: Timed, o: Order, f: Content -> Content, exact: bool)
    requires Told(s, o, exact) && Valid(s.doc) && (exact ==> f == Typed)
    ensures Told(Happens(s, User(Edit(f))), OrderStep(o, User(Edit(f)), s.doc.enabled), exact)
  {
    TypedUnspaced(s.doc.content);
  }

  lemma ToldUndo(s: Timed, o: Order, modified: bool, exact: bool)
    requires Told(s, o, exact) && Valid(s.doc)
    ensures Told(Happens(s, User(UndoOp(modified))), OrderStep(o, User(UndoOp(modified)), s.doc.enabled), exact)
  {
  }

  lemma ToldRedo(s: Timed, o: Order, modified: bool, exact: bool)
    requires Told(s, o, exact) && Valid(s.doc)
    ensures Told(Happens(s, User(RedoOp(modified))), OrderStep(o, User(RedoOp(modified)), s.doc.enabled), exact)
  {
  }

  lemma ToldTimer(s: Timed, o: Order, exact: bool)
    requires Told(s, o, exact) && Valid(s.doc)
    ensures Told(Happens(s, Timer), OrderStep(o, Timer, s.doc.enabled), exact)
  {
    SpacedTwice(s.doc.content);
  }

  lemma ToldStep(s: Timed, o: Order, e: Event, exact: bool)
    requires Told(s, o, exact) && Valid(s.doc) && CanHappen(s, e) && (exact && e.User? && e.op.Edit? ==> e.op.edit == Typed)
    ensures Told(Happens(s, e), OrderStep(o, e, s.doc.enabled), exact)
  {
    match e
    case User(Edit(f)) => ToldEdit(s, o, f, exact);
    case User(UndoOp(m)) => ToldUndo(s, o, m, exact);
    case User(RedoOp(m)) => ToldRedo(s, o, m, exact);
    case Timer => ToldTimer(s, o, exact);
  }

  lemma HappensValid(s: Timed, e: Event)
    requires Valid(s.doc)
    ensures Valid(Happens(s, e).doc) && Happens(s, e).doc.enabled == s.doc.enabled
  {
    match e
    case User(op) => DoValid(s.doc, op);
    case Timer => DoValid(s.doc, Pass);
  }

  /** The same order of events with edits of its own. */
  ghost predicate SameOrder(a: seq<Event>, b: seq<Event>) {
    |a| == |b| && forall k :: 0 <= k < |a| ==> SameKind(a[k], b[k])
  }

  ghost predicate SameKind(a: Event, b: Event) {
    if a.Timer? || b.Timer? then a == b
    else (a.op.Edit? && b.op.Edit?) || a == b
  }

  lemma {:induction false} OrderSame(s: Timed, a: seq<Event>, b: seq<Event>, k: nat)
    requires SameOrder(a, b) && k <= |a|
    ensures OrderAt(s, a, k) == OrderAt(s, b, k)
  {
    if k > 0 {
      OrderSame(s, a, b, k - 1);
      assert SameKind(a[k - 1], b[k - 1]);
    }
  }

  ghost predicate AllTyped(es: seq<Event>) {
    forall k :: 0 <= k < |es| && es[k].User? && es[k].op.Edit? ==> es[k].op.edit == Typed
  }

  lemma {:induction false} ToldAt(ss: seq<Timed>, es: seq<Event>, k: nat, exact: bool)
    requires IsRun(ss, es) && Valid(ss[0].doc) && k <= |es| && (exact ==> AllTyped(es))
    ensures Told(ss[k], OrderAt(ss[0], es, k), exact) && Valid(ss[k].doc) && ss[k].doc.enabled == ss[0].doc.enabled
  {
    if k > 0 {
      ToldAt(ss, es, k - 1, exact);
      HappensValid(ss[k - 1], es[k - 1]);
      ToldStep(ss[k - 1], OrderAt(ss[0], es, k - 1), es[k - 1], exact);
    }
  }

  lemma {:induction false} GoodOrderTo(ss: seq<Timed>, es: seq<Event>, k: nat)
    requires IsRun(ss, es) && Valid(ss[0].doc) && (ss[0].pending || Styled(ss[0].doc.content)) && GoodOrder(ss[0], es) && k <= |es|
    ensures ss[k].pending || !OrderAt(ss[0], es, k).now
  {
    if k > 0 {
      GoodOrderTo(ss, es, k - 1);
      ToldAt(ss, es, k - 1, false);
    }
  }

  /** A good order keeps the paragraphs spaced, whatever the edits are. */
  lemma GoodOrderSpaces(ss: seq<Timed>, es: seq<Event>)
    requires IsRun(ss, es) && Valid(ss[0].doc) && (ss[0].pending || Styled(ss[0].doc.content)) && GoodOrder(ss[0], es)
    ensures SpacedThroughout(ss)
  {
    forall k: nat | k <= |es| ensures ss[k].pending || Styled(ss[k].doc.content) {
      GoodOrderTo(ss, es, k);
      ToldAt(ss, es, k, false);
    }
  }

  /** Typing plain paragraphs in the same order of events. */
  function Retyped(es: seq<Event>): (r: seq<Event>)
    ensures |r| == |es| && forall k :: 0 <= k < |es| ==> r[k] == if es[k].User? && es[k].op.Edit? then User(Edit(Typed)) else es[k]
  {
    seq(|es|, k requires 0 <= k < |es| => if es[k].User? && es[k].op.Edit? then User(Edit(Typed)) else es[k])
  }

  /** The states from s on. */
  function StatesOf(s: Timed, es: seq<Event>, k: nat): (ss: seq<Timed>)
    requires k <= |es|
    ensures |ss| == k + 1 && ss[0] == s && forall j :: 0 <= j < k ==> ss[j + 1] == Happens(ss[j], es[j])
  {
    if k == 0 then [s] else
    var before := StatesOf(s, es, k - 1);
    before + [Happens(before[k - 1], es[k - 1])]
  }

  lemma {:induction false} RetypedTold(ss: seq<Timed>, es: seq<Event>, rs: seq<Timed>, k: nat)
    requires IsRun(ss, es) && Valid(ss[0].doc) && rs == StatesOf(ss[0], Retyped(es), |es|) && k <= |es|
    ensures Told(rs[k], OrderAt(ss[0], es, k), true) && Valid(rs[k].doc) && rs[k].doc.enabled == ss[0].doc.enabled
    ensures rs[k].pending == ss[k].pending
  {
    ToldAt(ss, es, k, false);
    if k > 0 {
      RetypedTold(ss, es, rs, k - 1);
      var e := Retyped(es)[k - 1];
      HappensValid(rs[k - 1], e);
      ToldStep(rs[k - 1], OrderAt(ss[0], es, k - 1), e, true);
      assert OrderStep(OrderAt(ss[0], es, k - 1), e, ss[0].doc.enabled) == OrderAt(ss[0], es, k);
    }
  }

  /** The order can be typed so that unreached contents are never spaced. */
  lemma RetypedRuns(ss: seq<Timed>, es: seq<Event>)
    requires IsRun(ss, es) && Valid(ss[0].doc)
    ensures var rs := StatesOf(ss[0], Retyped(es), |es|);
            IsRun(rs, Retyped(es)) && SameOrder(Retyped(es), es) && AllTyped(Retyped(es))
  {
    var rs := StatesOf(ss[0], Retyped(es), |es|);
    forall k | 0 <= k < |es| ensures CanHappen(rs[k], Retyped(es)[k]) { RetypedTold(ss, es, rs, k); }
  }

  lemma BadOrderShows(rs: seq<Timed>, es: seq<Event>, k: nat)
    requires IsRun(rs, es) && Valid(rs[0].doc) && AllTyped(es)
    requires k < |es| && es[k].Timer? && OrderAt(rs[0], es, k).redo != [] && OrderAt(rs[0], es, k).now
    ensures !SpacedThroughout(rs)
  {
    ToldAt(rs, es, k, true);
    assert rs[k + 1] == Timed(rs[k].doc, false);
  }

  /** For every order of events that can happen: with every choice of edits the paragraphs are spaced
      whenever no timer is out, if and only if no timer fires, with something to redo, on contents that
      were typed and undone or edited again before a timer fired on them. */
  lemma OrderIff(ss: seq<Timed>, es: seq<Event>)
    requires IsRun(ss, es) && Valid(ss[0].doc) && (ss[0].pending || Styled(ss[0].doc.content))
    ensures GoodOrder(ss[0], es) <==>
            forall rs: seq<Timed>, fs: seq<Event> :: IsRun(rs, fs) && rs[0] == ss[0] && SameOrder(fs, es) ==> SpacedThroughout(rs)
  {
    if GoodOrder(ss[0], es) {
      forall rs: seq<Timed>, fs: seq<Event> | IsRun(rs, fs) && rs[0] == ss[0] && SameOrder(fs, es) ensures SpacedThroughout(rs) {
        forall k: nat | k < |fs| && fs[k].Timer? ensures OrderAt(rs[0], fs, k).redo == [] || !OrderAt(rs[0], fs, k).now {
          OrderSame(ss[0], fs, es, k);
          assert SameKind(fs[k], es[k]);
        }
        GoodOrderSpaces(rs, fs);
      }
    } else {
      var k: nat :| k < |es| && es[k].Timer? && OrderAt(ss[0], es, k).redo != [] && OrderAt(ss[0], es, k).now;
      var fs := Retyped(es);
      RetypedRuns(ss, es);
      OrderSame(ss[0], fs, es, k);
      BadOrderShows(StatesOf(ss[0], fs, |es|), fs, k);
    }
  }

  /** In particular the paragraphs stay spaced if every edit waits for the timer. */
  ghost predicate EditsWait(ss: seq<Timed>, es: seq<Event>)
    requires |ss| == |es| + 1
  {
    forall k :: 0 <= k < |es| && es[k].User? && es[k].op.Edit? ==> !ss[k].pending
  }

  ghost predicate AllReached(marks: seq<bool>) {
    forall i :: 0 <= i < |marks| ==> !marks[i]
  }

  /** With edits that wait, only the newest contents of the history can be unreached. */
  ghost predicate NewestOnly(o: Order) {
    && AllReached(o.undo) && (o.redo != [] ==> !o.now && AllReached(o.redo[1..]))
    && (!o.pending ==> !o.now)
  }

  lemma WaitingStep(o: Order, e: Event, enabled: bool)
    requires NewestOnly(o) && (e.User? && e.op.Edit? ==> !o.pending)
    ensures NewestOnly(OrderStep(o, e, enabled))
  {
    var o' := OrderStep(o, e, enabled);
    if e.User? && e.op.UndoOp? && o.undo != [] && o.redo != [] {
      assert o'.redo[1..] == o.redo[1..] + [o.now];
    }
    if e.User? && e.op.RedoOp? && |o.redo| > 1 {
      assert o'.redo[1..] == o.redo[1..][..|o.redo| - 2];
      assert o.redo[|o.redo| - 1] == o.redo[1..][|o.redo| - 2];
    }
  }

  lemma {:induction false} WaitingAt(ss: seq<Timed>, es: seq<Event>, k: nat)
    requires IsRun(ss, es) && Valid(ss[0].doc) && k <= |es| && NewestOnly(OrderFrom(ss[0])) && EditsWait(ss, es)
    ensures NewestOnly(OrderAt(ss[0], es, k))
  {
    if k > 0 {
      WaitingAt(ss, es, k - 1);
      ToldAt(ss, es, k - 1, false);
      WaitingStep(OrderAt(ss[0], es, k - 1), es[k - 1], ss[0].doc.enabled);
    }
  }

  /** If every edit is made with no timer out, undos and redos may come at any time: the paragraphs are
      spaced whenever no timer is out. */
  lemma SpacedWhenEditsWait(ss: seq<Timed>, es: seq<Event>)
    requires IsRun(ss, es) && Valid(ss[0].doc) && StyledThroughout(ss[0].doc) && EditsWait(ss, es)
    ensures SpacedThroughout(ss)
  {
    assert NewestOnly(OrderFrom(ss[0]));
    forall k: nat | k < |es| && es[k].Timer? ensures OrderAt(ss[0], es, k).redo == [] || !OrderAt(ss[0], es, k).now {
      WaitingAt(ss, es, k);
    }
    GoodOrderSpaces(ss, es);
  }

  // ---- in place ----

  class TextDocument {
    var content: Content
    var undo: seq<Entry>
    var redo: seq<Entry>
    var enabled: bool
    var modified: bool

    function State(): Document reads this {
      Document(content, undo, redo, enabled, modified)
    }

    constructor (c: Content)
      ensures State() == Document(c, [], [], true, false)
    {
      content, undo, redo, enabled, modified := c, [], [], true, false;
    }

    method SetUndoRedoEnabled(on: bool)
      modifies this
      ensures State() == SetEnabled(old(State()), on)
    {
      enabled := on;
      if !on { undo, redo := [], []; }
    }

    /** The paragraphs whose format is not the wanted one, in order. */
    method Changes() returns (changes: seq<nat>)
      ensures forall k :: 0 <= k < |changes| ==> changes[k] < |content|
      ensures forall i :: 0 <= i < |content| ==> (i in changes <==> SpacedAt(content, i) != content[i])
      ensures changes == [] <==> SpacedAll(content) == content
    {
      changes := [];
      var i := 0;
      while i < |content|
        invariant i <= |content|
        invariant forall k :: 0 <= k < |changes| ==> changes[k] < i
        invariant forall j :: 0 <= j < i ==> (j in changes <==> SpacedAt(content, j) != content[j])
      {
        if SpacedAt(content, i) != content[i] { changes := changes + [i]; }
        i := i + 1;
      }
      if changes != [] { assert changes[0] in changes; }
    }

    /** Gives the listed paragraphs their format. */
    method SetFormats(changes: seq<nat>)
      requires forall i :: 0 <= i < |content| ==> (i in changes <==> SpacedAt(content, i) != content[i])
      requires forall k :: 0 <= k < |changes| ==> changes[k] < |content|
      modifies this`content
      ensures content == SpacedAll(old(content))
    {
      var k := 0;
      while k < |changes|
        invariant k <= |changes| && |content| == |old(content)|
        invariant forall j :: 0 <= j < |content| ==>
                                content[j] == if j in changes[..k] then SpacedAt(old(content), j) else old(content)[j]
      {
        var i := changes[k];
        assert SpacedAt(content, i) == SpacedAt(old(content), i);
        content := content[i := SpacedAt(content, i)];
        assert changes[..k + 1] == changes[..k] + [i];
        k := k + 1;
      }
      assert changes[..k] == changes;
    }

    /** The pass: nothing while there is something to redo, no entry on a document without history,
        and otherwise part of the newest entry. */
    method Space() returns (signals: nat)
      requires Valid(State())
      modifies this
      ensures State() == Apply(old(State())) && Valid(State())
      ensures signals == 0 <==> old(redo) != [] || Styled(old(content))
    {
      DoValid(State(), Pass);
      if redo != [] { return 0; }
      var changes := Changes();
      if changes == [] { return 0; }
      var wasModified, initial, undoEnabled := modified, undo == [], enabled;
      if initial {
        assert undo == [] && redo == [];  // nothing is forgotten
        SetUndoRedoEnabled(false);
      }
      SetFormats(changes);
      modified := true;
      if initial {
        SetUndoRedoEnabled(undoEnabled);
      } else {
        undo := undo[..|undo| - 1] + [undo[|undo| - 1].(after := content)];
      }
      modified := wasModified;
      return |changes|;
    }
  }

  /** The object that runs the pass: one timer at most is out, and the pass's own changes set none. */
  class Spacing {
    var document: TextDocument?
    var pending: bool
    var applying: bool
    ghost var timers: nat

    ghost predicate Idle() reads this {
      !applying && timers == if pending then 1 else 0
    }

    constructor ()
      ensures Idle() && !pending && document == null
    {
      document, pending, applying, timers := null, false, false, 0;
    }

    /** The contents changed: a timer is set unless one is out or the pass itself made the change. */
    method Schedule()
      modifies this`pending, this`timers
      ensures pending == (old(pending) || !applying)
      ensures timers == old(timers) + if pending && !old(pending) then 1 else 0
    {
      if pending || applying { return; }
      pending, timers := true, timers + 1;
    }

    method SetDocument(d: TextDocument?)
      requires Idle()
      modifies this
      ensures Idle() && document == d && pending == (old(pending) || (d != null && d != old(document)))
    {
      if d == document { return; }
      document := d;
      if d != null { Schedule(); }
    }

    /** The timer fires: one pass, and no timer is out afterwards. */
    method Fire()
      requires Idle() && pending && (document != null ==> Valid(document.State()))
      modifies this, document
      ensures Idle() && !pending && timers == 0 && document == old(document)
      ensures document != null ==> document.State() == Apply(old(document.State())) && Valid(document.State())
    {
      pending, timers := false, timers - 1;
      if document == null { return; }
      applying := true;
      var signals := document.Space();
      for i := 0 to signals
        invariant applying && !pending && timers == 0 && document == old(document)
        invariant document.State() == Apply(old(document.State()))
      {
        Schedule();
      }
      applying := false;
    }
  }
}
