/** The audio meter with the server and the connection between them as one transition system.
    Replies arrive in the order of the queries; events travel on their own and may overtake them.
    The last four fields record the history the theorems speak about. */
module MeterWorld {
  import opened Basics
  import opened Hysteresis
  import opened MeterModel
  import opened MeterStreams

  datatype Reply =
    | InputItem(info: Input)
    | SweepDone(ok: bool)
    | SinkItem(id: nat, sink: nat)
    | OutputItem(index: nat, mine: bool)
    | ScanDone(ok: bool)

  /** One completed orphan scan: when it began, the indices it listed as this client's that no
      ready stream accounted for, and the indices killed at its end. */
  datatype Scan = Scan(begun: nat, listed: seq<nat>, killed: seq<nat>)

  datatype World = World(
    client: Client,
    inputs: map<nat, Input>, nextIndex: nat,
    events: seq<Event>, requests: seq<Request>, replies: seq<Reply>, clock: nat,
    named: set<nat>, heard: seq<nat>, log: seq<Scan>, traces: map<nat, seq<Sample>>)

  /** The context has just become ready: the client subscribes and asks for the list once. The server
      may have sink inputs already, for which no event will come. */
  ghost predicate Initial(w: World) {
    && w == World(START, w.inputs, w.nextIndex, [], [ListInputs(false)], [], w.clock, {}, [], [], map[])
    && w.clock > 0 && forall id :: id in w.inputs ==> id < w.nextIndex && w.inputs[id].index == id
  }

  datatype Action =
    | Add(info: Input)
    | Change(info: Input)
    | Remove(id: nat)
    | Serve(listing: seq<nat>, outputs: seq<(nat, bool)>, found: bool, ok: bool)
    | Notice
    | Receive(now: nat, outcome: Outcome, oom: bool)
    | Peak(stream: nat, level: Level, now: nat)
    | StreamTo(stream: nat, to: StreamState, index: nat)
    | Ticks(now: nat, ready: bool, sweepSent: bool, scanSent: bool)

  ghost predicate Enabled(w: World, a: Action) {
    match a
    case Add(info) => info.index >= w.nextIndex                  // an index is never used twice
    case Change(info) => info.index in w.inputs
    case Remove(id) => id in w.inputs
    case Serve(listing, _, _, ok) =>
      && w.requests != []
      && (forall k :: 0 <= k < |listing| ==> listing[k] in w.inputs)
      && (ok ==> forall id :: id in w.inputs ==> id in listing)
    case Notice => w.events != []
    case Receive(now, _, _) => w.replies != [] && now >= w.clock
    case Peak(s, _, now) => s in w.client.streams && w.client.streams[s].reader.Some? && now >= w.clock
    case StreamTo(s, to, _) => s in w.client.streams && CanMove(w.client.streams[s].state, to)
    case Ticks(now, _, _, _) => now >= w.clock
  }

  function Items(inputs: map<nat, Input>, listing: seq<nat>): (r: seq<Reply>)
    requires forall k :: 0 <= k < |listing| ==> listing[k] in inputs
    ensures |r| == |listing|
    ensures forall k :: 0 <= k < |r| ==> r[k] == InputItem(inputs[listing[k]])
  {
    seq(|listing|, k requires 0 <= k < |listing| => InputItem(inputs[listing[k]]))
  }

  /** What the server replies to a query. Errors that the client ignores are left out. */
  function Answer(w: World, q: Request, listing: seq<nat>, outputs: seq<(nat, bool)>, found: bool, ok: bool): seq<Reply>
    requires forall k :: 0 <= k < |listing| ==> listing[k] in w.inputs
  {
    match q
    case QueryInput(id) => if id in w.inputs then [InputItem(w.inputs[id])] else []
    case ListInputs(sweep) => Items(w.inputs, listing) + if sweep then [SweepDone(ok)] else []
    case QuerySink(sink, id) => if found then [SinkItem(id, sink)] else []
    case ListOutputs =>
      seq(|outputs|, k requires 0 <= k < |outputs| => OutputItem(outputs[k].0, outputs[k].1)) + [ScanDone(ok)]
  }

  /** The meter a tick samples at position i: its stream has been dropped first if it went stale. */
  function Sampled(c: Client, i: nat, now: nat): Meter
    requires i < |c.meters|
  {
    if Stale(c, c.meters[i], now) then DropStream(c, i).meters[i] else c.meters[i]
  }

  function Past(traces: map<nat, seq<Sample>>, handle: nat): seq<Sample> {
    if handle in traces then traces[handle] else []
  }

  /** The samples a tick feeds to the meters from position i on, each appended to its meter's trace. */
  function TickTraces(c: Client, i: nat, now: nat, ready: bool, traces: map<nat, seq<Sample>>): map<nat, seq<Sample>>
    requires i <= |c.meters|
    decreases |c.meters| - i
  {
    if i == |c.meters| then traces else
    var m := Sampled(c, i, now);
    var (d, next) := TickRound(c, i, now, ready);
    TickTraces(d, next, now, ready, traces[m.handle := Past(traces, m.handle) + [SampleOf(m, now)]])
  }

  /** The client handles the reply at the head of the queue. */
  function Receives(w: World, now: nat, outcome: Outcome, oom: bool): World
    requires w.replies != []
  {
    var c := w.client;
    var got := w.(replies := w.replies[1..], clock := now);
    match w.replies[0]
    case InputItem(info) =>
      var o := InputInfo(c, info, now, oom);
      var fresh' := if o.client.nextHandle == c.nextHandle then w.traces else w.traces[c.nextHandle := []];
      got.(client := o.client, requests := w.requests + o.sent, named := w.named + {info.index}, traces := fresh')
    case SweepDone(ok) => got.(client := SweepEnd(c, ok))
    case SinkItem(id, sink) => got.(client := SinkInfo(c, id, sink, outcome, now))
    case OutputItem(index, mine) =>
      got.(client := OutputInfo(c, index, mine),
      heard := if mine && !Accounted(c, index) then w.heard + [index] else w.heard)
    case ScanDone(ok) =>
      var r := OutputEnd(c, ok);
      got.(client := r.client, log := if ok then w.log + [Scan(c.scanned, w.heard, r.killed)] else w.log)
  }

  function TickWorld(w: World, now: nat, ready: bool, sweepSent: bool, scanSent: bool): World {
    var o := Tick(w.client, now, ready, sweepSent, scanSent);
    w.(client := o.client, requests := w.requests + o.sent, clock := now,
    traces := TickTraces(w.client, 0, now, ready, w.traces),
    named := if o.client.swept != w.client.swept then {} else w.named,
    heard := if o.client.scanned != w.client.scanned then [] else w.heard)
  }

  ghost function Next(w: World, a: Action): World
    requires Enabled(w, a)
  {
    match a
    case Add(info) =>
      w.(inputs := w.inputs[info.index := info], nextIndex := info.index + 1, events := w.events + [Changed(info.index)])
    case Change(info) => w.(inputs := w.inputs[info.index := info], events := w.events + [Changed(info.index)])
    case Remove(id) => w.(inputs := w.inputs - {id}, events := w.events + [Removed(id)])
    case Serve(listing, outputs, found, ok) =>
      w.(requests := w.requests[1..], replies := w.replies + Answer(w, w.requests[0], listing, outputs, found, ok))
    case Notice =>
      var o := Subscribe(w.client, w.events[0]);
      w.(client := o.client, events := w.events[1..], requests := w.requests + o.sent)
    case Receive(now, outcome, oom) => Receives(w, now, outcome, oom)
    case Peak(s, level, now) =>
      w.(client := ReadPeak(w.client, w.client.streams[s].reader.value, level, now), clock := now)
    case StreamTo(s, to, index) =>
      w.(client := w.client.(streams := w.client.streams[s := Moved(w.client.streams[s], to, index)]))
    case Ticks(now, ready, sweepSent, scanSent) => TickWorld(w, now, ready, sweepSent, scanSent)
  }

  // ---- runs ----

  /** A run: each world follows from the one before it by the matching enabled action. */
  ghost predicate IsRun(ws: seq<World>, acts: seq<Action>) {
    && |ws| == |acts| + 1
    && forall k :: 0 <= k < |acts| ==> Enabled(ws[k], acts[k]) && ws[k + 1] == Next(ws[k], acts[k])
  }

  /** A world the system can get into. */
  ghost predicate Reachable(w: World) {
    exists ws, acts :: IsRun(ws, acts) && Initial(ws[0]) && ws[|acts|] == w
  }

  // ---- the stream life cycle over whole runs ----

  lemma NextClientOk(w: World, a: Action)
    requires Enabled(w, a) && ClientOk(w.client)
    ensures ClientOk(Next(w, a).client)
  {
    match a
    case Notice => SubscribeOk(w.client, w.events[0]);
    case Receive(now, outcome, oom) =>
      match w.replies[0] {
        case InputItem(info) => InputInfoOk(w.client, info, now, oom);
        case SweepDone(ok) =>
          assert ClientOk(w.client.(sweeping := false)) by { CopyOk(w.client, w.client.(sweeping := false)); }
          if ok { RetireUnseenOk(w.client.(sweeping := false), 0); }
        case SinkItem(id, sink) => SinkInfoOk(w.client, id, sink, outcome, now);
        case OutputItem(index, mine) => CopyOk(w.client, OutputInfo(w.client, index, mine));
        case ScanDone(ok) => CopyOk(w.client, OutputEnd(w.client, ok).client);
      }
    case Peak(s, level, now) => ReadPeakOk(w.client, w.client.streams[s].reader.value, level, now);
    case StreamTo(s, to, index) => MovedOk(w.client, s, to, index);
    case Ticks(now, ready, sweepSent, scanSent) => TickOk(w.client, now, ready, sweepSent, scanSent);
    case _ =>
  }

  lemma {:induction false} RunClientOk(ws: seq<World>, acts: seq<Action>, k: nat)
    requires IsRun(ws, acts) && Initial(ws[0]) && k <= |acts|
    ensures ClientOk(ws[k].client)
  {
    if k > 0 {
      RunClientOk(ws, acts, k - 1);
      NextClientOk(ws[k - 1], acts[k - 1]);
    }
  }

  /** In every run: a created stream is unreferenced at most once, and exactly once when it was
      dropped and has reached a final state; a dropped stream that became ready has been told to
      disconnect, so none is left behind on the server; a meter's stream is its own. */
  lemma StreamLifetime(w: World, s: nat)
    requires Reachable(w) && s in w.client.streams
    ensures w.client.streams[s].unrefs <= 1
    ensures w.client.streams[s].state.Final() ==>
              (w.client.streams[s].unrefs == 1 <==> w.client.streams[s].dropped)
    ensures w.client.streams[s].dropped && w.client.streams[s].state.Ready? ==> w.client.streams[s].disconnecting
    ensures w.client.streams[s].unrefs == 1 ==> forall i :: !Owns(w.client, i, s)
    ensures forall i, j :: Owns(w.client, i, s) && Owns(w.client, j, s) ==> i == j
  {
    ReachableClientOk(w);
    forall i, j | Owns(w.client, i, s) && Owns(w.client, j, s) ensures i == j {
      OneOwner(w.client, i, j, s);
    }
  }

  /** In every run a read callback that can still fire points at a meter on the list, never at a
      freed one, and that meter's stream is the one being read. */
  lemma ReadersAlive(w: World, s: nat)
    requires Reachable(w) && s in w.client.streams && w.client.streams[s].reader.Some?
    ensures exists i :: Owns(w.client, i, s) && Some(w.client.meters[i].handle) == w.client.streams[s].reader
  {
    ReachableClientOk(w);
    var i :| Owns(w.client, i, s);
  }

  lemma ReachableClientOk(w: World)
    requires Reachable(w)
    ensures ClientOk(w.client)
  {
    var ws, acts :| IsRun(ws, acts) && Initial(ws[0]) && ws[|acts|] == w;
    RunClientOk(ws, acts, |acts|);
  }
}
