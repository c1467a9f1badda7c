/** The client side of the audio meter: the meter list, the record streams it owns, the sweep and
    the orphan scan, and one function for each callback. A callback yields the new client and the
    queries it sends. Handles and stream numbers stand for the identity of allocated objects. */
module MeterModel {
  import opened Basics
  import opened Hysteresis

  const SWEEP_MS := 5000
  const ORPHAN_MAX := 64

  // ---- record streams ----

  datatype StreamState = Unconnected | Creating | Ready | Failed | Terminated {
    predicate Final() { Failed? || Terminated? }
  }

  /** A record stream with the callbacks set on it. `reader` is the meter its read callback points
      at, `watched` says that `dropped_state` is its state callback. `dropped` and `unrefs` record
      whether the client let go of it and how often it unreferenced it; `index` is the source
      output index the server gave it when it became ready. */
  datatype Stream = Stream(
    state: StreamState, index: nat, reader: Option<nat>, watched: bool,
    disconnecting: bool, dropped: bool, unrefs: nat)

  /** Disconnecting fails with "Bad state" unless the stream is ready. */
  function Disconnect(s: Stream): Stream {
    if s.state.Ready? then s.(disconnecting := true) else s
  }

  function Unref(s: Stream): Stream {
    s.(unrefs := s.unrefs + 1)
  }

  /** The state callback of a stream that was dropped while the server was creating it. */
  function DroppedState(s: Stream): Stream {
    match s.state
    case Ready => Disconnect(s)
    case Failed => Unref(s.(watched := false))
    case Terminated => Unref(s.(watched := false))
    case _ => s
  }

  /** What dropping does to the stream object. */
  function Release(s: Stream): Stream {
    var silent := s.(reader := None, dropped := true);
    if s.state.Creating? then silent.(watched := true) else Unref(Disconnect(silent))
  }

  /** The library moves a stream to a new state and runs its state callback, if there is one. */
  function Moved(s: Stream, to: StreamState, index: nat): Stream {
    var now := s.(state := to, index := if to.Ready? then index else s.index);
    if now.watched then DroppedState(now) else now
  }

  predicate CanMove(from: StreamState, to: StreamState) {
    match from
    case Creating => to.Ready? || to.Final()
    case Ready => to.Final()
    case _ => false
  }

  // ---- meters ----

  /** A peak compared with the two thresholds: below both, from HOLD_LEVEL, from ENTER_LEVEL. */
  datatype Level = Quiet | Held | Loud

  datatype Meter = Meter(
    handle: nat, id: nat, sink: nat, stream: Option<nat>,
    muted: bool, corked: bool, removed: bool, seen: bool,
    level: Level, sampled: nat, retryAt: nat, hyst: Hyst)

  /** What the server tells about one sink input. */
  datatype Input = Input(index: nat, sink: nat, muted: bool, corked: bool)

  datatype Request =
    | QueryInput(id: nat)
    | ListInputs(sweep: bool)
    | QuerySink(sink: nat, id: nat)
    | ListOutputs

  datatype Client = Client(
    meters: seq<Meter>, streams: map<nat, Stream>, nextHandle: nat, nextStream: nat,
    sweeping: bool, swept: nat,
    scanning: bool, scanned: nat, before: seq<nat>, found: seq<nat>)

  const START := Client([], map[], 0, 0, false, 0, false, 0, [], [])

  /** A callback's result: the client after it and the queries it sent. */
  datatype Out = Out(client: Client, sent: seq<Request>)

  /** The position of the first meter with this id, or the length of the list. */
  function IndexOf(ms: seq<Meter>, id: nat): (i: nat)
    ensures i <= |ms|
    ensures i < |ms| ==> ms[i].id == id
    ensures forall j :: 0 <= j < i ==> ms[j].id != id
  {
    if ms == [] || ms[0].id == id then 0 else 1 + IndexOf(ms[1..], id)
  }

  function SetMeter(c: Client, i: nat, m: Meter): Client
    requires i < |c.meters|
  {
    c.(meters := c.meters[i := m])
  }

  /** `drop_stream` on the meter at position i. */
  function DropStream(c: Client, i: nat): (r: Client)
    requires i < |c.meters|
    ensures |r.meters| == |c.meters| && r.meters == c.meters[i := r.meters[i]]
    ensures r == c.(meters := r.meters, streams := r.streams)
    ensures r.meters[i] == c.meters[i].(stream := None, level := r.meters[i].level)
  {
    var m := c.meters[i];
    if m.stream.None? then c else
    var s := m.stream.value;
    var dropped := SetMeter(c, i, m.(stream := None, level := Quiet));
    if s in c.streams then dropped.(streams := c.streams[s := Release(c.streams[s])]) else dropped
  }

  /** Drops the stream of the meter at position i and marks the meter removed. */
  function Retire(c: Client, i: nat): (r: Client)
    requires i < |c.meters|
    ensures |r.meters| == |c.meters|
    ensures r == c.(meters := r.meters, streams := r.streams)
  {
    var d := DropStream(c, i);
    SetMeter(d, i, d.meters[i].(removed := true, corked := true))
  }

  function RemoveMeter(c: Client, id: nat): (r: Client)
    ensures |r.meters| == |c.meters| - if IndexOf(c.meters, id) < |c.meters| then 1 else 0
    ensures r == c.(meters := r.meters, streams := r.streams)
  {
    var i := IndexOf(c.meters, id);
    if i == |c.meters| then c else
    var d := DropStream(c, i);
    d.(meters := d.meters[..i] + d.meters[i + 1..])
  }

  /** How opening a record stream can turn out. */
  datatype Outcome = NoObject | Refused | Connected

  /** Gives the meter at position i a new stream that reads into it. */
  function OpenStream(c: Client, i: nat, state: StreamState, now: nat): (r: Client)
    requires i < |c.meters|
    ensures |r.meters| == |c.meters|
  {
    var m, s := c.meters[i], c.nextStream;
    SetMeter(c, i, m.(stream := Some(s), sampled := now)).(
      streams := c.streams[s := Stream(state, 0, Some(m.handle), false, false, false, 0)],
      nextStream := s + 1)
  }

  function SinkInfo(c: Client, id: nat, sink: nat, outcome: Outcome, now: nat): (r: Client)
    ensures r == c.(meters := r.meters, streams := r.streams, nextStream := r.nextStream)
  {
    var i := IndexOf(c.meters, id);
    if i == |c.meters| || c.meters[i].stream.Some? || c.meters[i].sink != sink || outcome.NoObject? then c else
    if outcome.Refused? then DropStream(OpenStream(c, i, Unconnected, now), i)
    else OpenStream(c, i, Creating, now)
  }

  /** The retiring loop of `end_sweep`, from position i on. */
  function RetireUnseen(c: Client, i: nat): (r: Client)
    requires i <= |c.meters|
    ensures r == c.(meters := r.meters, streams := r.streams)
    decreases |c.meters| - i
  {
    if i == |c.meters| then c
    else if c.meters[i].seen || c.meters[i].removed then RetireUnseen(c, i + 1)
    else RetireUnseen(Retire(c, i), i + 1)
  }

  /** The end of a sweep's reply: only a complete listing retires meters. */
  function SweepEnd(c: Client, ok: bool): Client {
    var done := c.(sweeping := false);
    if ok then RetireUnseen(done, 0) else done
  }

  /** Brings the meter at position i up to date with what the server says. */
  function Refresh(c: Client, i: nat, info: Input, now: nat): (r: Out)
    requires i < |c.meters|
    ensures |r.client.meters| == |c.meters| && r.client.meters == c.meters[i := r.client.meters[i]]
    ensures r.client == c.(meters := r.client.meters, streams := r.client.streams)
    ensures var m := r.client.meters[i];
            m.handle == c.meters[i].handle && m.id == c.meters[i].id && m.hyst == c.meters[i].hyst && !m.removed && m.seen
  {
    var placed := if c.meters[i].sink != info.sink then DropStream(c, i) else c;
    var m := placed.meters[i].(sink := info.sink, muted := info.muted, corked := info.corked,
                               removed := false, seen := true);
    if m.stream.Some? then Out(SetMeter(placed, i, m), [])
    else Out(SetMeter(placed, i, m.(retryAt := now + 1000)), [QuerySink(info.sink, info.index)])
  }

  function NewMeter(c: Client, info: Input): (r: Client)
    ensures |r.meters| == |c.meters| + 1
  {
    var blank := Meter(c.nextHandle, info.index, info.sink, None, false, false, false, false, Quiet, 0, 0, IDLE);
    c.(meters := [blank] + c.meters, nextHandle := c.nextHandle + 1)
  }

  /** One sink input of a reply. `oom` says that a new meter could not be allocated. */
  function InputInfo(c: Client, info: Input, now: nat, oom: bool): (r: Out)
    ensures r.client == c.(meters := r.client.meters, streams := r.client.streams, nextHandle := r.client.nextHandle)
    ensures forall k :: 0 <= k < |r.sent| ==> r.sent[k].QuerySink?
  {
    var i := IndexOf(c.meters, info.index);
    if i < |c.meters| then Refresh(c, i, info, now)
    else if oom then Out(c, [])
    else Refresh(NewMeter(c, info), 0, info, now)
  }

  datatype Event = Changed(id: nat) | Removed(id: nat)

  function Subscribe(c: Client, e: Event): (r: Out)
  {
    match e
    case Changed(id) => Out(c, [QueryInput(id)])
    case Removed(id) =>
      var i := IndexOf(c.meters, id);
      if i == |c.meters| then Out(c, []) else Out(Retire(c, i), [])
  }

  /** A read callback: it writes through the meter pointer it was registered with. */
  function ReadPeak(c: Client, handle: nat, level: Level, now: nat): Client {
    c.(meters := seq(|c.meters|, i requires 0 <= i < |c.meters| =>
                   if c.meters[i].handle == handle then c.meters[i].(level := level, sampled := now) else c.meters[i]))
  }

  // ---- the tick ----

  predicate Stale(c: Client, m: Meter, now: nat) {
    && m.stream.Some? && m.stream.value in c.streams
    && (c.streams[m.stream.value].state.Final() || (!m.corked && now - m.sampled > 2000))
  }

  function SampleOf(m: Meter, now: nat): Sample {
    var live := !m.muted && !m.corked && now - m.sampled < 250;
    Sample(now, live && m.level.Loud?, live && !m.level.Quiet?)
  }

  /** What a tick does to the meter at position i, short of freeing it. */
  function TickMeter(c: Client, i: nat, now: nat, ready: bool): (r: Out)
    requires i < |c.meters|
    ensures |r.client.meters| == |c.meters|
    ensures r.client == c.(meters := r.client.meters, streams := r.client.streams)
    ensures forall k :: 0 <= k < |r.sent| ==> r.sent[k].QuerySink?
  {
    var d := if Stale(c, c.meters[i], now) then DropStream(c, i) else c;
    var m := d.meters[i];
    var retry := !m.removed && m.stream.None? && now >= m.retryAt && ready;
    var asked := if retry then m.(retryAt := now + 1000) else m;
    Out(SetMeter(d, i, asked.(hyst := Step(m.hyst, SampleOf(m, now)))),
        if retry then [QuerySink(m.sink, m.id)] else [])
  }

  /** One round of a tick's meter loop: the client after it and the position of the next meter. A
      meter that is removed and inactive is freed. */
  function TickRound(c: Client, i: nat, now: nat, ready: bool): (r: (Client, nat))
    requires i < |c.meters|
    ensures r.1 <= |r.0.meters| && |r.0.meters| - r.1 == |c.meters| - i - 1
    ensures r.0 == c.(meters := r.0.meters, streams := r.0.streams)
  {
    var d := TickMeter(c, i, now, ready).client;
    var m := d.meters[i];
    if m.removed && !m.hyst.active then (RemoveMeter(d, m.id), i) else (d, i + 1)
  }

  /** The meter loop of a tick from position i on. */
  function TickMeters(c: Client, i: nat, now: nat, ready: bool): (r: Out)
    requires i <= |c.meters|
    ensures r.client == c.(meters := r.client.meters, streams := r.client.streams)
    ensures forall k :: 0 <= k < |r.sent| ==> r.sent[k].QuerySink?
    decreases |c.meters| - i
  {
    if i == |c.meters| then Out(c, []) else
    var (d, next) := TickRound(c, i, now, ready);
    var rest := TickMeters(d, next, now, ready);
    Out(rest.client, TickMeter(c, i, now, ready).sent + rest.sent)
  }

  /** Clears the mark on every meter; a meter no reply names before the sweep ends is retired. */
  function ClearSeen(ms: seq<Meter>): (r: seq<Meter>)
    ensures |r| == |ms|
    ensures forall i :: 0 <= i < |ms| ==> r[i] == ms[i].(seen := false)
  {
    if ms == [] then [] else [ms[0].(seen := false)] + ClearSeen(ms[1..])
  }

  function StartSweep(c: Client, now: nat, ready: bool, sent: bool): Out {
    if c.sweeping || !ready || now - c.swept < SWEEP_MS then Out(c, [])
    else Out(c.(swept := now, sweeping := sent, meters := ClearSeen(c.meters)),
             if sent then [ListInputs(true)] else [])
  }

  function StartScan(c: Client, now: nat, ready: bool, sent: bool): Out {
    if c.scanning || !ready || now - c.scanned < SWEEP_MS then Out(c, [])
    else Out(c.(scanned := now, scanning := sent, found := []), if sent then [ListOutputs] else [])
  }

  /** A whole tick. `sweepSent` and `scanSent` say whether the two list queries could be sent. */
  function Tick(c: Client, now: nat, ready: bool, sweepSent: bool, scanSent: bool): Out {
    var ticked := TickMeters(c, 0, now, ready);
    var swept := StartSweep(ticked.client, now, ready, sweepSent);
    var scanned := StartScan(swept.client, now, ready, scanSent);
    Out(scanned.client, ticked.sent + swept.sent + scanned.sent)
  }

  // ---- the orphan scan ----

  /** Some meter owns a ready stream with this source output index. */
  predicate Accounted(c: Client, index: nat) {
    exists m :: m in c.meters && m.stream.Some? && m.stream.value in c.streams
                && c.streams[m.stream.value].state.Ready?
                && c.streams[m.stream.value].index == index
  }

  /** One source output of a scan's reply. */
  function OutputInfo(c: Client, index: nat, mine: bool): (r: Client)
  {
    if !mine || |c.found| == ORPHAN_MAX || Accounted(c, index) then c
    else c.(found := c.found + [index])
  }

  /** The entries of `xs` that lie in `ys`, in order; with `inside` false, those that do not. */
  function Select(xs: seq<nat>, ys: seq<nat>, inside: bool): (r: seq<nat>)
    ensures |r| <= |xs|
    ensures forall x :: x in r <==> x in xs && (x in ys <==> inside)
  {
    if xs == [] then [] else
    var rest := Select(xs[..|xs| - 1], ys, inside);
    if (xs[|xs| - 1] in ys) == inside then rest + [xs[|xs| - 1]] else rest
  }

  /** The end of a scan's reply: which indices are killed, and the client after it. */
  datatype Reaped = Reaped(client: Client, killed: seq<nat>)

  function OutputEnd(c: Client, ok: bool): (r: Reaped)
  {
    if !ok then Reaped(c.(scanning := false), [])
    else Reaped(c.(before := Select(c.found, c.before, false), found := [], scanning := false),
                Select(c.found, c.before, true))
  }
}
