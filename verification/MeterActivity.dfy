/** The hysteresis inside whole runs: each meter's activity is the one its own ticks produce. */
module MeterActivity {
  import opened Hysteresis
  import opened MeterModel
  import opened MeterStreams
  import opened MeterWorld

  /** The activity of every meter is the run of the samples its ticks took, none later than `now`. */
  ghost predicate TracesOk(ms: seq<Meter>, traces: map<nat, seq<Sample>>, now: nat) {
    && now > 0
    && forall i :: 0 <= i < |ms| ==> TraceOf(ms[i], traces, now)
  }

  ghost predicate TraceOf(m: Meter, traces: map<nat, seq<Sample>>, now: nat) {
    && m.handle in traces && m.hyst == Run(traces[m.handle]) && Trace(traces[m.handle])
    && forall k :: 0 <= k < |traces[m.handle]| ==> traces[m.handle][k].at <= now
  }

  ghost predicate SameActivity(a: seq<Meter>, b: seq<Meter>) {
    |a| == |b| && forall i :: 0 <= i < |a| ==> a[i].handle == b[i].handle && a[i].hyst == b[i].hyst
  }

  lemma TracesSame(a: seq<Meter>, b: seq<Meter>, traces: map<nat, seq<Sample>>, now: nat, later: nat)
    requires TracesOk(a, traces, now) && SameActivity(a, b) && now <= later
    ensures TracesOk(b, traces, later)
  {
    forall i | 0 <= i < |b| ensures TraceOf(b[i], traces, later) {
      assert TraceOf(a[i], traces, now);
    }
  }

  /** One more sample extends a meter's trace and steps its activity. */
  lemma TraceStep(past: seq<Sample>, s: Sample)
    requires Trace(past) && s.at > 0 && (s.enter ==> s.hold)
    requires forall k :: 0 <= k < |past| ==> past[k].at <= s.at
    ensures Trace(past + [s]) && Run(past + [s]) == Step(Run(past), s)
  {
    assert (past + [s])[..|past|] == past;
  }

  lemma TickMeterShape(c: Client, i: nat, now: nat, ready: bool)
    requires i < |c.meters|
    ensures var r := TickMeter(c, i, now, ready).client.meters;
            && r == c.meters[i := r[i]] && r[i].handle == c.meters[i].handle == Sampled(c, i, now).handle
            && r[i].hyst == Step(c.meters[i].hyst, SampleOf(Sampled(c, i, now), now))
  {
  }

  /** Extending one trace and stepping the meter it belongs to. */
  lemma GrowTrace(ms: seq<Meter>, i: nat, m: Meter, s: Sample, traces: map<nat, seq<Sample>>)
    requires i < |ms| && TracesOk(ms, traces, s.at) && (s.enter ==> s.hold)
    requires forall j :: 0 <= j < |ms| && j != i ==> ms[j].handle != ms[i].handle
    requires m.handle == ms[i].handle && m.hyst == Step(ms[i].hyst, s)
    ensures m.handle in traces
    ensures TracesOk(ms[i := m], traces[m.handle := traces[m.handle] + [s]], s.at)
  {
    assert TraceOf(ms[i], traces, s.at);
    TraceStep(traces[m.handle], s);
    var grown := traces[m.handle := traces[m.handle] + [s]];
    var r := ms[i := m];
    forall j | 0 <= j < |r| ensures TraceOf(r[j], grown, s.at) {
      assert TraceOf(ms[j], traces, s.at);
    }
  }

  lemma TickMeterTraces(c: Client, i: nat, now: nat, ready: bool, traces: map<nat, seq<Sample>>)
    requires ListOk(c) && i < |c.meters| && TracesOk(c.meters, traces, now)
    ensures var m := Sampled(c, i, now);
            && m.handle == c.meters[i].handle && m.handle in traces
            && TracesOk(TickMeter(c, i, now, ready).client.meters,
                        traces[m.handle := traces[m.handle] + [SampleOf(m, now)]], now)
  {
    TickMeterShape(c, i, now, ready);
    var r := TickMeter(c, i, now, ready).client.meters;
    GrowTrace(c.meters, i, r[i], SampleOf(Sampled(c, i, now), now), traces);
  }

  lemma RemoveMeterTraces(c: Client, id: nat, traces: map<nat, seq<Sample>>, now: nat)
    requires TracesOk(c.meters, traces, now)
    ensures TracesOk(RemoveMeter(c, id).meters, traces, now)
  {
    var i := IndexOf(c.meters, id);
    if i < |c.meters| {
      var r := RemoveMeter(c, id).meters;
      forall j | 0 <= j < |r| ensures TraceOf(r[j], traces, now) {
        assert TraceOf(c.meters[if j < i then j else j + 1], traces, now);
      }
    }
  }

  lemma TickRoundTraces(c: Client, i: nat, now: nat, ready: bool, traces: map<nat, seq<Sample>>)
    requires ListOk(c) && i < |c.meters| && TracesOk(c.meters, traces, now)
    ensures var m := Sampled(c, i, now);
            && m.handle == c.meters[i].handle && m.handle in traces
            && TracesOk(TickRound(c, i, now, ready).0.meters,
                        traces[m.handle := traces[m.handle] + [SampleOf(m, now)]], now)
  {
    TickMeterTraces(c, i, now, ready, traces);
    var m := Sampled(c, i, now);
    var d := TickMeter(c, i, now, ready).client;
    RemoveMeterTraces(d, d.meters[i].id, traces[m.handle := traces[m.handle] + [SampleOf(m, now)]], now);
  }

  lemma {:induction false} TickTracesOk(c: Client, i: nat, now: nat, ready: bool, traces: map<nat, seq<Sample>>)
    requires ClientOk(c) && i <= |c.meters| && TracesOk(c.meters, traces, now)
    ensures TracesOk(TickMeters(c, i, now, ready).client.meters, TickTraces(c, i, now, ready, traces), now)
    decreases |c.meters| - i
  {
    if i < |c.meters| {
      var m := Sampled(c, i, now);
      TickRoundTraces(c, i, now, ready, traces);
      TickRoundOk(c, i, now, ready);
      var (d, next) := TickRound(c, i, now, ready);
      TickTracesOk(d, next, now, ready, traces[m.handle := traces[m.handle] + [SampleOf(m, now)]]);
    }
  }

  function Handles(ms: seq<Meter>): (r: seq<nat>)
    ensures |r| == |ms| && forall i :: 0 <= i < |ms| ==> r[i] == ms[i].handle
  {
    if ms == [] then [] else [ms[0].handle] + Handles(ms[1..])
  }

  lemma RemoveHandles(c: Client, i: nat)
    requires ListOk(c) && i < |c.meters|
    ensures Handles(RemoveMeter(c, c.meters[i].id).meters)[i..] == Handles(c.meters)[i + 1..]
  {
    assert IndexOf(c.meters, c.meters[i].id) == i;
    var d := DropStream(c, i).meters;
    assert RemoveMeter(c, c.meters[i].id).meters == d[..i] + d[i + 1..];
  }

  lemma TickMeterHandles(c: Client, i: nat, now: nat, ready: bool)
    requires i < |c.meters|
    ensures Handles(TickMeter(c, i, now, ready).client.meters) == Handles(c.meters)
  {
    TickMeterShape(c, i, now, ready);
  }

  /** After one round the meters still to come are those behind position i. */
  lemma TickRoundHandles(c: Client, i: nat, now: nat, ready: bool)
    requires ClientOk(c) && i < |c.meters|
    ensures Handles(TickRound(c, i, now, ready).0.meters)[TickRound(c, i, now, ready).1..] == Handles(c.meters)[i + 1..]
  {
    TickMeterOk(c, i, now, ready);
    TickMeterHandles(c, i, now, ready);
    RemoveHandles(TickMeter(c, i, now, ready).client, i);
  }

  lemma HandleOnce(c: Client, i: nat)
    requires ListOk(c) && i < |c.meters|
    ensures c.meters[i].handle !in Handles(c.meters)[i + 1..]
    ensures Handles(c.meters)[i..] == [c.meters[i].handle] + Handles(c.meters)[i + 1..]
  {
  }

  /** A tick extends the trace of every meter still to come by one sample and leaves the others. */
  lemma {:induction false} TickExtends(c: Client, i: nat, now: nat, ready: bool, traces: map<nat, seq<Sample>>, h: nat)
    requires ClientOk(c) && i <= |c.meters| && TracesOk(c.meters, traces, now) && h in traces
    ensures h in TickTraces(c, i, now, ready, traces)
    ensures Grown(traces[h], TickTraces(c, i, now, ready, traces)[h], now, h in Handles(c.meters)[i..])
    decreases |c.meters| - i
  {
    if i < |c.meters| {
      var m := Sampled(c, i, now);
      TickRoundTraces(c, i, now, ready, traces);
      TickRoundOk(c, i, now, ready);
      TickRoundHandles(c, i, now, ready);
      HandleOnce(c, i);
      var (d, next) := TickRound(c, i, now, ready);
      var grown := traces[m.handle := traces[m.handle] + [SampleOf(m, now)]];
      assert Grown(traces[h], grown[h], now, h == m.handle);
      TickExtends(d, next, now, ready, grown, h);
    }
  }

  ghost predicate Grown(past: seq<Sample>, next: seq<Sample>, now: nat, ticked: bool) {
    if ticked then Extends(past, next, now) else next == past
  }

  /** The trace grew by the sample of one tick. */
  ghost predicate Extends(past: seq<Sample>, next: seq<Sample>, now: nat) {
    |next| == |past| + 1 && next[..|past|] == past && next[|past|].at == now
  }

  ghost predicate ActivityInv(w: World) {
    ClientOk(w.client) && TracesOk(w.client.meters, w.traces, w.clock)
  }

  lemma RefreshActivity(c: Client, i: nat, info: Input, now: nat)
    requires i < |c.meters|
    ensures SameActivity(c.meters, Refresh(c, i, info, now).client.meters)
    ensures Refresh(c, i, info, now).client.nextHandle == c.nextHandle
  {
  }

  lemma InputInfoTraces(w: World, info: Input, now: nat, oom: bool)
    requires ActivityInv(w) && now >= w.clock
    ensures var r := InputInfo(w.client, info, now, oom).client;
            TracesOk(r.meters, if r.nextHandle == w.client.nextHandle then w.traces else w.traces[w.client.nextHandle := []], now)
  {
    var c := w.client;
    TracesSame(c.meters, c.meters, w.traces, w.clock, now);
    var i := IndexOf(c.meters, info.index);
    if i < |c.meters| {
      RefreshActivity(c, i, info, now);
      TracesSame(c.meters, Refresh(c, i, info, now).client.meters, w.traces, now, now);
    } else if !oom {
      var n := NewMeter(c, info);
      var grown := w.traces[c.nextHandle := []];
      forall j | 0 <= j < |n.meters| ensures TraceOf(n.meters[j], grown, now) {
        if j > 0 { assert TraceOf(c.meters[j - 1], w.traces, now); }
      }
      RefreshActivity(n, 0, info, now);
      TracesSame(n.meters, Refresh(n, 0, info, now).client.meters, grown, now, now);
    }
  }

  lemma {:induction false} RetireUnseenActivity(c: Client, i: nat)
    requires i <= |c.meters|
    ensures SameActivity(c.meters, RetireUnseen(c, i).meters)
    decreases |c.meters| - i
  {
    if i < |c.meters| {
      if c.meters[i].seen || c.meters[i].removed {
        RetireUnseenActivity(c, i + 1);
      } else {
        RetireUnseenActivity(Retire(c, i), i + 1);
      }
    }
  }

  lemma SinkInfoActivity(c: Client, id: nat, sink: nat, outcome: Outcome, now: nat)
    ensures SameActivity(c.meters, SinkInfo(c, id, sink, outcome, now).meters)
  {
  }

  lemma ActivityReceive(w: World, a: Action)
    requires Enabled(w, a) && a.Receive? && ActivityInv(w)
    ensures ActivityInv(Next(w, a))
  {
    NextClientOk(w, a);
    var w' := Next(w, a);
    match w.replies[0]
    case InputItem(info) => InputInfoTraces(w, info, a.now, a.oom);
    case SweepDone(ok) =>
      RetireUnseenActivity(w.client.(sweeping := false), 0);
      TracesSame(w.client.meters, w'.client.meters, w.traces, w.clock, a.now);
    case SinkItem(id, sink) =>
      SinkInfoActivity(w.client, id, sink, a.outcome, a.now);
      TracesSame(w.client.meters, w'.client.meters, w.traces, w.clock, a.now);
    case _ => TracesSame(w.client.meters, w'.client.meters, w.traces, w.clock, a.now);
  }

  lemma ActivityTick(w: World, a: Action)
    requires Enabled(w, a) && a.Ticks? && ActivityInv(w)
    ensures ActivityInv(Next(w, a))
  {
    NextClientOk(w, a);
    TracesSame(w.client.meters, w.client.meters, w.traces, w.clock, a.now);
    TickTracesOk(w.client, 0, a.now, a.ready, w.traces);
    var t := TickMeters(w.client, 0, a.now, a.ready).client;
    TracesSame(t.meters, Next(w, a).client.meters, Next(w, a).traces, a.now, a.now);
  }

  lemma RetireActivity(c: Client, e: Event)
    ensures SameActivity(c.meters, Subscribe(c, e).client.meters)
  {
  }

  lemma ActivityNext(w: World, a: Action)
    requires Enabled(w, a) && ActivityInv(w)
    ensures ActivityInv(Next(w, a))
  {
    match a
    case Receive(_, _, _) => ActivityReceive(w, a);
    case Ticks(_, _, _, _) => ActivityTick(w, a);
    case Notice =>
      NextClientOk(w, a);
      RetireActivity(w.client, w.events[0]);
      TracesSame(w.client.meters, Next(w, a).client.meters, w.traces, w.clock, w.clock);
    case _ =>
      NextClientOk(w, a);
      TracesSame(w.client.meters, Next(w, a).client.meters, w.traces, w.clock, Next(w, a).clock);
  }

  lemma {:induction false} RunActivity(ws: seq<World>, acts: seq<Action>, k: nat)
    requires IsRun(ws, acts) && Initial(ws[0]) && k <= |acts|
    ensures ActivityInv(ws[k])
  {
    if k > 0 {
      RunActivity(ws, acts, k - 1);
      ActivityNext(ws[k - 1], acts[k - 1]);
    }
  }

  /** What a step of a trace says about the meter it belongs to. */
  lemma TraceRule(ticks: seq<Sample>, past: seq<Sample>, now: nat)
    requires Trace(ticks) && Extends(past, ticks, now)
    ensures var k := |past|;
            && (!Run(past).active && Run(ticks).active <==>
                exists s: nat :: EnterStretch(ticks, s, k) && now - ticks[s].at >= ATTACK_MS)
            && (Run(past).active && !Run(ticks).active <==>
                exists s: nat :: SilentStretch(ticks, s, k) && now - ticks[s].at >= RELEASE_MS)
  {
    assert ticks[..|ticks|] == ticks;
    TurnsOnIff(ticks, |past|);
    TurnsOffIff(ticks, |past|);
  }

  /** In every run, the trace of a meter that survives a tick grows by that tick's sample, and the
      meter's activity before and after the tick is the run of the trace before and after. */
  lemma ActivityFollowsTrace(w: World, a: Action, i: nat, j: nat)
    requires Reachable(w) && Enabled(w, a) && a.Ticks?
    requires i < |w.client.meters| && j < |Next(w, a).client.meters|
    requires w.client.meters[i].handle == Next(w, a).client.meters[j].handle
    ensures var h := w.client.meters[i].handle;
            && h in w.traces && h in Next(w, a).traces
            && Extends(w.traces[h], Next(w, a).traces[h], a.now) && Trace(Next(w, a).traces[h])
            && w.client.meters[i].hyst == Run(w.traces[h])
            && Next(w, a).client.meters[j].hyst == Run(Next(w, a).traces[h])
  {
    var ws, acts :| IsRun(ws, acts) && Initial(ws[0]) && ws[|acts|] == w;
    RunActivity(ws, acts, |acts|);
    ActivityNext(w, a);
    var h := w.client.meters[i].handle;
    TracesSame(w.client.meters, w.client.meters, w.traces, w.clock, a.now);
    assert TraceOf(w.client.meters[i], w.traces, a.now);
    assert TraceOf(Next(w, a).client.meters[j], Next(w, a).traces, a.now);
    assert Handles(w.client.meters)[0..] == Handles(w.client.meters) && Handles(w.client.meters)[i] == h;
    TickExtends(w.client, 0, a.now, a.ready, w.traces, h);
  }

  /** In every run, a tick that finds the meter at position i inactive leaves it (now at position j)
      active exactly when it ends a stretch of at least ATTACK_MS in which every tick of that meter
      found it inactive and at the enter level; a tick that finds it active leaves it inactive exactly
      when it ends a stretch of at least RELEASE_MS after its last sounding tick in which every tick
      found it below the hold level. */
  lemma ActivityRule(w: World, a: Action, i: nat, j: nat)
    requires Reachable(w) && Enabled(w, a) && a.Ticks?
    requires i < |w.client.meters| && j < |Next(w, a).client.meters|
    requires w.client.meters[i].handle == Next(w, a).client.meters[j].handle
    ensures w.client.meters[i].handle in Next(w, a).traces
    ensures var ticks := Next(w, a).traces[w.client.meters[i].handle];
            var was, now := w.client.meters[i].hyst.active, Next(w, a).client.meters[j].hyst.active;
            && |ticks| > 0
            && (!was && now <==>
                exists s: nat :: EnterStretch(ticks, s, |ticks| - 1) && a.now - ticks[s].at >= ATTACK_MS)
            && (was && !now <==>
                exists s: nat :: SilentStretch(ticks, s, |ticks| - 1) && a.now - ticks[s].at >= RELEASE_MS)
  {
    ActivityFollowsTrace(w, a, i, j);
    var h := w.client.meters[i].handle;
    TraceRule(Next(w, a).traces[h], w.traces[h], a.now);
  }
}
