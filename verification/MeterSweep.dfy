/** The sweep: why it is needed, what it retires, and that it makes the meters agree with the server. */
module MeterSweep {
  import opened MeterModel
  import opened MeterStreams
  import opened MeterWorld

  // ---- what the callbacks do to identity, removal and marks ----

  /** The part of a meter the sweep reasons about. */
  datatype View = View(handle: nat, id: nat, removed: bool, seen: bool)

  function ViewOf(m: Meter): View {
    View(m.handle, m.id, m.removed, m.seen)
  }

  ghost function Views(ms: seq<Meter>): set<View> {
    set i | 0 <= i < |ms| :: ViewOf(ms[i])
  }

  ghost predicate SameViews(a: seq<Meter>, b: seq<Meter>) {
    |a| == |b| && forall i :: 0 <= i < |a| ==> ViewOf(a[i]) == ViewOf(b[i])
  }

  lemma SameViewsEqual(a: seq<Meter>, b: seq<Meter>)
    requires SameViews(a, b)
    ensures Views(a) == Views(b)
  {
    forall v ensures v in Views(a) <==> v in Views(b) {
      if v in Views(a) {
        var i :| 0 <= i < |a| && v == ViewOf(a[i]);
        assert ViewOf(b[i]) in Views(b);
      }
      if v in Views(b) {
        var i :| 0 <= i < |b| && v == ViewOf(b[i]);
        assert ViewOf(a[i]) in Views(a);
      }
    }
  }

  /** b holds no view that a does not hold, and every view of a that is not marked removed. */
  ghost predicate Sheds(a: seq<Meter>, b: seq<Meter>) {
    && Views(b) <= Views(a)
    && forall v :: v in Views(a) && !v.removed ==> v in Views(b)
  }

  lemma UnlinkSheds(ms: seq<Meter>, i: nat)
    requires i < |ms| && ms[i].removed
    ensures Sheds(ms, ms[..i] + ms[i + 1..])
  {
    var r := ms[..i] + ms[i + 1..];
    forall v | v in Views(r) ensures v in Views(ms) {
      var j :| 0 <= j < |r| && v == ViewOf(r[j]);
      assert r[j] == ms[if j < i then j else j + 1];
    }
    forall v | v in Views(ms) && !v.removed ensures v in Views(r) {
      var j :| 0 <= j < |ms| && v == ViewOf(ms[j]);
      assert ms[j] == r[if j < i then j else j - 1];
    }
  }

  lemma DropStreamViews(c: Client, i: nat)
    requires i < |c.meters|
    ensures Views(DropStream(c, i).meters) == Views(c.meters)
  {
    SameViewsEqual(c.meters, DropStream(c, i).meters);
  }

  lemma TickMeterViews(c: Client, i: nat, now: nat, ready: bool)
    requires i < |c.meters|
    ensures Views(TickMeter(c, i, now, ready).client.meters) == Views(c.meters)
  {
    SameViewsEqual(c.meters, TickMeter(c, i, now, ready).client.meters);
  }

  lemma RemoveMeterSheds(c: Client, i: nat)
    requires ListOk(c) && i < |c.meters| && c.meters[i].removed
    ensures Sheds(c.meters, RemoveMeter(c, c.meters[i].id).meters)
  {
    assert IndexOf(c.meters, c.meters[i].id) == i;
    DropStreamViews(c, i);
    UnlinkSheds(DropStream(c, i).meters, i);
  }

  lemma TickRoundSheds(c: Client, i: nat, now: nat, ready: bool)
    requires ClientOk(c) && i < |c.meters|
    ensures Sheds(c.meters, TickRound(c, i, now, ready).0.meters)
  {
    TickMeterOk(c, i, now, ready);
    TickMeterViews(c, i, now, ready);
    var d := TickMeter(c, i, now, ready).client;
    if d.meters[i].removed { RemoveMeterSheds(d, i); }
  }

  /** A tick frees only meters marked removed, and changes no mark. */
  lemma {:induction false} TickMetersSheds(c: Client, i: nat, now: nat, ready: bool)
    requires ClientOk(c) && i <= |c.meters|
    ensures Sheds(c.meters, TickMeters(c, i, now, ready).client.meters)
    decreases |c.meters| - i
  {
    if i < |c.meters| {
      TickRoundOk(c, i, now, ready);
      TickRoundSheds(c, i, now, ready);
      var (d, next) := TickRound(c, i, now, ready);
      TickMetersSheds(d, next, now, ready);
    }
  }

  lemma {:induction false} RetireUnseenViews(c: Client, i: nat)
    requires i <= |c.meters|
    ensures var r := RetireUnseen(c, i).meters;
            && |r| == |c.meters|
            && forall j :: 0 <= j < |r| ==>
                 ViewOf(r[j]) == ViewOf(c.meters[j]).(removed := c.meters[j].removed || (i <= j && !c.meters[j].seen))
    decreases |c.meters| - i
  {
    if i < |c.meters| {
      if c.meters[i].seen || c.meters[i].removed {
        RetireUnseenViews(c, i + 1);
      } else {
        RetireUnseenViews(Retire(c, i), i + 1);
      }
    }
  }

  ghost function Without(vs: set<View>, id: nat): set<View> {
    set v | v in vs && v.id != id
  }

  lemma SetViews(ms: seq<Meter>, i: nat, m: Meter)
    requires i < |ms| && m.id == ms[i].id
    requires forall j :: 0 <= j < |ms| && j != i ==> ms[j].id != m.id
    ensures Views(ms[i := m]) == Without(Views(ms), m.id) + {ViewOf(m)}
  {
    var r := ms[i := m];
    assert r[i] == m;
    forall v | v in Without(Views(ms), m.id) ensures v in Views(r) {
      var j :| 0 <= j < |ms| && v == ViewOf(ms[j]);
      assert r[j] == ms[j];
    }
    forall v | v in Views(r) ensures v in Without(Views(ms), m.id) + {ViewOf(m)} {
      var j :| 0 <= j < |r| && v == ViewOf(r[j]);
      if j != i { assert ViewOf(ms[j]) in Views(ms); }
    }
  }

  lemma PrependViews(ms: seq<Meter>, m: Meter)
    requires IndexOf(ms, m.id) == |ms|
    ensures Views([m] + ms) == Without(Views(ms), m.id) + {ViewOf(m)}
  {
    var r := [m] + ms;
    assert r[0] == m;
    forall v | v in Without(Views(ms), m.id) ensures v in Views(r) {
      var j :| 0 <= j < |ms| && v == ViewOf(ms[j]);
      assert r[j + 1] == ms[j];
    }
    forall v | v in Views(r) ensures v in Without(Views(ms), m.id) + {ViewOf(m)} {
      var j :| 0 <= j < |r| && v == ViewOf(r[j]);
      if j != 0 { assert ViewOf(ms[j - 1]) in Views(ms); }
    }
  }

  lemma RefreshShape(c: Client, i: nat, info: Input, now: nat) returns (m: Meter)
    requires i < |c.meters|
    ensures Refresh(c, i, info, now).client.meters == c.meters[i := m]
    ensures ViewOf(m) == View(c.meters[i].handle, c.meters[i].id, false, true)
  {
    m := Refresh(c, i, info, now).client.meters[i];
  }

  lemma RefreshViews(c: Client, i: nat, info: Input, now: nat)
    requires i < |c.meters| && c.meters[i].id == info.index
    requires forall j :: 0 <= j < |c.meters| && j != i ==> c.meters[j].id != info.index
    ensures Views(Refresh(c, i, info, now).client.meters) ==
            Without(Views(c.meters), info.index) + {View(c.meters[i].handle, info.index, false, true)}
  {
    var m := RefreshShape(c, i, info, now);
    SetViews(c.meters, i, m);
  }

  /** A named sink input has one meter, marked and not removed; the other views stay as they are. */
  lemma InputInfoViews(c: Client, info: Input, now: nat, oom: bool) returns (handle: nat)
    requires ClientOk(c)
    ensures var r := InputInfo(c, info, now, oom).client;
            && r.sweeping == c.sweeping && r.swept == c.swept
            && (IndexOf(c.meters, info.index) == |c.meters| && oom ==> r == c)
            && (!(IndexOf(c.meters, info.index) == |c.meters| && oom) ==>
                  Views(r.meters) == Without(Views(c.meters), info.index) + {View(handle, info.index, false, true)})
  {
    var i := IndexOf(c.meters, info.index);
    if i < |c.meters| {
      handle := c.meters[i].handle;
      RefreshViews(c, i, info, now);
    } else {
      handle := c.nextHandle;
      var n := NewMeter(c, info);
      PrependViews(c.meters, n.meters[0]);
      RefreshViews(n, 0, info, now);
    }
  }

  /** A remove event marks only the meter it names. */
  lemma RemovedViews(c: Client, id: nat)
    ensures var r := Subscribe(c, Removed(id)).client;
            && (forall v :: v in Views(c.meters) && v.id != id ==> v in Views(r.meters))
            && (forall v :: v in Views(r.meters) ==>
                  v in Views(c.meters) || (v.id == id && v.removed && v.(removed := false) in Views(c.meters)))
  {
    var r := Subscribe(c, Removed(id)).client;
    var i := IndexOf(c.meters, id);
    if i < |c.meters| {
      forall v | v in Views(c.meters) && v.id != id ensures v in Views(r.meters) {
        var j :| 0 <= j < |c.meters| && v == ViewOf(c.meters[j]);
        assert r.meters[j] == c.meters[j];
      }
      forall v | v in Views(r.meters)
        ensures v in Views(c.meters) || (v.id == id && v.removed && v.(removed := false) in Views(c.meters))
      {
        var j :| 0 <= j < |r.meters| && v == ViewOf(r.meters[j]);
        assert ViewOf(c.meters[j]) in Views(c.meters);
      }
    }
  }

  // ---- messages in flight ----

  predicate IsSweepRequest(q: Request) { q == ListInputs(true) }
  predicate IsSweepDone(r: Reply) { r.SweepDone? }

  function Count<T>(xs: seq<T>, p: T -> bool): nat {
    if xs == [] then 0 else (if p(xs[0]) then 1 else 0) + Count(xs[1..], p)
  }

  lemma {:induction false} CountAppend<T>(xs: seq<T>, ys: seq<T>, p: T -> bool)
    ensures Count(xs + ys, p) == Count(xs, p) + Count(ys, p)
  {
    if xs == [] {
      assert xs + ys == ys;
    } else {
      assert (xs + ys)[1..] == xs[1..] + ys;
      CountAppend(xs[1..], ys, p);
    }
  }

  lemma {:induction false} CountNone<T>(xs: seq<T>, p: T -> bool)
    ensures Count(xs, p) == 0 <==> forall k :: 0 <= k < |xs| ==> !p(xs[k])
  {
    if xs != [] {
      CountNone(xs[1..], p);
      assert forall k :: 0 < k < |xs| ==> xs[k] == xs[1..][k - 1];
    }
  }

  ghost predicate SweepFlight(w: World) {
    Count(w.requests, IsSweepRequest) + Count(w.replies, IsSweepDone) == if w.client.sweeping then 1 else 0
  }

  /** A meter is marked exactly when a reply has named it since the last sweep began. */
  ghost predicate MarksOk(w: World) {
    forall v :: v in Views(w.client.meters) ==> (v.seen <==> v.id in w.named)
  }

  /** A remove event in flight names a sink input that is gone for good. */
  ghost predicate EventsOk(w: World) {
    && (forall id :: id in w.inputs ==> id < w.nextIndex && w.inputs[id].index == id)
    && (forall k :: 0 <= k < |w.events| && w.events[k].Removed? ==> w.events[k].id !in w.inputs && w.events[k].id < w.nextIndex)
  }

  ghost predicate SweepInv(w: World) {
    ClientOk(w.client) && SweepFlight(w) && MarksOk(w) && EventsOk(w) && w.client.swept <= w.clock
  }

  /** This action starts a sweep whose query is sent. */
  ghost predicate StartsSweep(w: World, a: Action) {
    && a.Ticks? && !w.client.sweeping && a.ready && a.sweepSent && a.now - w.client.swept >= SWEEP_MS
  }

  /** The marks of the meters after the meter loop of a tick, before a sweep clears them. */
  lemma TickViews(c: Client, now: nat, ready: bool, sweepSent: bool, scanSent: bool)
    requires ClientOk(c)
    ensures var r := Tick(c, now, ready, sweepSent, scanSent).client;
            var t := TickMeters(c, 0, now, ready).client;
            if !c.sweeping && ready && now - c.swept >= SWEEP_MS
            then r.meters == ClearSeen(t.meters) && r.sweeping == sweepSent && r.swept == now
            else r.meters == t.meters && r.sweeping == c.sweeping && r.swept == c.swept
  {
  }

  /** Sending queries that are no sweep leaves the count as it is. */
  lemma SendsNone(requests: seq<Request>, sent: seq<Request>)
    requires forall k :: 0 <= k < |sent| ==> !IsSweepRequest(sent[k])
    ensures Count(requests + sent, IsSweepRequest) == Count(requests, IsSweepRequest)
  {
    CountAppend(requests, sent, IsSweepRequest);
    CountNone(sent, IsSweepRequest);
  }

  lemma FlightServe(w: World, listing: seq<nat>, outputs: seq<(nat, bool)>, found: bool, ok: bool)
    requires w.requests != [] && forall k :: 0 <= k < |listing| ==> listing[k] in w.inputs
    ensures Count(w.replies + Answer(w, w.requests[0], listing, outputs, found, ok), IsSweepDone)
         == Count(w.replies, IsSweepDone) + if IsSweepRequest(w.requests[0]) then 1 else 0
  {
    var answer := Answer(w, w.requests[0], listing, outputs, found, ok);
    CountAppend(w.replies, answer, IsSweepDone);
    if IsSweepRequest(w.requests[0]) {
      CountAppend(Items(w.inputs, listing), [SweepDone(ok)], IsSweepDone);
      CountNone(Items(w.inputs, listing), IsSweepDone);
    } else {
      CountNone(answer, IsSweepDone);
    }
  }

  /** A tick sends sink queries, then perhaps the sweep's query, then perhaps the scan's. */
  lemma TickSends(c: Client, now: nat, ready: bool, sweepSent: bool, scanSent: bool, p: Request -> bool)
    requires forall q: Request :: q.QuerySink? ==> !p(q)
    ensures var swept := StartSweep(TickMeters(c, 0, now, ready).client, now, ready, sweepSent);
            var scanned := StartScan(swept.client, now, ready, scanSent);
            Count(Tick(c, now, ready, sweepSent, scanSent).sent, p) == Count(swept.sent, p) + Count(scanned.sent, p)
  {
    var t := TickMeters(c, 0, now, ready);
    var s := StartSweep(t.client, now, ready, sweepSent);
    var z := StartScan(s.client, now, ready, scanSent);
    CountAppend(t.sent + s.sent, z.sent, p);
    CountAppend(t.sent, s.sent, p);
    CountNone(t.sent, p);
  }

  lemma FlightTick(w: World, now: nat, ready: bool, sweepSent: bool, scanSent: bool)
    requires SweepFlight(w)
    ensures SweepFlight(TickWorld(w, now, ready, sweepSent, scanSent))
  {
    CountAppend(w.requests, Tick(w.client, now, ready, sweepSent, scanSent).sent, IsSweepRequest);
    TickSends(w.client, now, ready, sweepSent, scanSent, IsSweepRequest);
  }

  lemma FlightReceive(w: World, now: nat, outcome: Outcome, oom: bool)
    requires w.replies != [] && SweepFlight(w)
    ensures SweepFlight(Receives(w, now, outcome, oom))
  {
    match w.replies[0]
    case InputItem(info) => SendsNone(w.requests, InputInfo(w.client, info, now, oom).sent);
    case _ =>
  }

  lemma FlightNext(w: World, a: Action)
    requires Enabled(w, a) && SweepFlight(w)
    ensures SweepFlight(Next(w, a))
  {
    match a
    case Serve(listing, outputs, found, ok) => FlightServe(w, listing, outputs, found, ok);
    case Notice => SendsNone(w.requests, Subscribe(w.client, w.events[0]).sent);
    case Receive(now, outcome, oom) => FlightReceive(w, now, outcome, oom);
    case Ticks(now, ready, sweepSent, scanSent) => FlightTick(w, now, ready, sweepSent, scanSent);
    case _ =>
  }

  lemma MarksNext(w: World, a: Action)
    requires Enabled(w, a) && ClientOk(w.client) && MarksOk(w) && w.client.swept <= w.clock
    ensures MarksOk(Next(w, a)) && Next(w, a).client.swept <= Next(w, a).clock
  {
    match a
    case Notice =>
      if w.events[0].Removed? { RemovedViews(w.client, w.events[0].id); }
    case Receive(now, outcome, oom) => ReceiveMarks(w, now, outcome, oom);
    case Peak(s, level, now) => SameViewsEqual(w.client.meters, Next(w, a).client.meters);
    case Ticks(now, ready, sweepSent, scanSent) => MarksTick(w, now, ready, sweepSent, scanSent);
    case _ =>
  }

  lemma MarksTick(w: World, now: nat, ready: bool, sweepSent: bool, scanSent: bool)
    requires ClientOk(w.client) && MarksOk(w) && w.client.swept <= w.clock <= now
    ensures MarksOk(TickWorld(w, now, ready, sweepSent, scanSent))
    ensures Tick(w.client, now, ready, sweepSent, scanSent).client.swept <= now
  {
    TickMetersSheds(w.client, 0, now, ready);
    TickViews(w.client, now, ready, sweepSent, scanSent);
  }

  lemma InputItemMarks(w: World, info: Input, now: nat, oom: bool)
    requires ClientOk(w.client) && MarksOk(w)
    ensures forall v :: v in Views(InputInfo(w.client, info, now, oom).client.meters) ==>
                          (v.seen <==> v.id in w.named + {info.index})
  {
    var h := InputInfoViews(w.client, info, now, oom);
    if IndexOf(w.client.meters, info.index) == |w.client.meters| && oom {
      assert forall v :: v in Views(w.client.meters) ==> v.id != info.index;
    }
  }

  lemma SweepDoneMarks(w: World, ok: bool)
    requires MarksOk(w)
    ensures forall v :: v in Views(SweepEnd(w.client, ok).meters) ==> (v.seen <==> v.id in w.named)
  {
    RetireUnseenViews(w.client.(sweeping := false), 0);
    var ms := SweepEnd(w.client, ok).meters;
    forall v | v in Views(ms) ensures v.seen <==> v.id in w.named {
      var i :| 0 <= i < |ms| && v == ViewOf(ms[i]);
      assert ViewOf(w.client.meters[i]) in Views(w.client.meters);
    }
  }

  lemma ReceiveMarks(w: World, now: nat, outcome: Outcome, oom: bool)
    requires w.replies != [] && now >= w.clock && ClientOk(w.client) && MarksOk(w) && w.client.swept <= w.clock
    ensures MarksOk(Receives(w, now, outcome, oom))
    ensures Receives(w, now, outcome, oom).client.swept <= now
  {
    match w.replies[0]
    case InputItem(info) =>
      InputItemMarks(w, info, now, oom);
      var h := InputInfoViews(w.client, info, now, oom);
    case SweepDone(ok) => SweepDoneMarks(w, ok);
    case SinkItem(id, sink) => SinkInfoViews(w.client, id, sink, outcome, now);
    case _ =>
  }

  lemma SinkInfoViews(c: Client, id: nat, sink: nat, outcome: Outcome, now: nat)
    ensures var r := SinkInfo(c, id, sink, outcome, now);
            Views(r.meters) == Views(c.meters) && r.sweeping == c.sweeping && r.swept == c.swept
  {
    SameViewsEqual(c.meters, SinkInfo(c, id, sink, outcome, now).meters);
  }

  lemma EventsNext(w: World, a: Action)
    requires Enabled(w, a) && EventsOk(w)
    ensures EventsOk(Next(w, a))
  {
  }

  lemma SweepInvNext(w: World, a: Action)
    requires Enabled(w, a) && SweepInv(w)
    ensures SweepInv(Next(w, a))
  {
    NextClientOk(w, a);
    FlightNext(w, a);
    MarksNext(w, a);
    EventsNext(w, a);
  }

  lemma {:induction false} RunSweepInv(ws: seq<World>, acts: seq<Action>, k: nat)
    requires IsRun(ws, acts) && Initial(ws[0]) && k <= |acts|
    ensures SweepInv(ws[k])
  {
    if k == 0 {
      CountNone(ws[0].requests, IsSweepRequest);
    } else {
      RunSweepInv(ws, acts, k - 1);
      SweepInvNext(ws[k - 1], acts[k - 1]);
    }
  }
}
