/** The client keeps its times in unsigned 64-bit milliseconds and subtracts them from the current
    time. No such difference ever wraps around: no stored time lies ahead of the clock. */
module MeterClock {
  import opened MeterModel
  import opened MeterWorld

  ghost predicate Times(m: Meter, now: nat) {
    m.sampled <= now && m.hyst.candidate <= now && m.hyst.audible <= now
  }

  ghost predicate Timely(ms: seq<Meter>, now: nat) {
    forall i :: 0 <= i < |ms| ==> Times(ms[i], now)
  }

  ghost predicate ClockOk(w: World) {
    Timely(w.client.meters, w.clock) && w.client.swept <= w.clock && w.client.scanned <= w.clock
  }

  lemma {:induction false} RetireUnseenTimely(c: Client, i: nat, now: nat)
    requires i <= |c.meters| && Timely(c.meters, now)
    ensures Timely(RetireUnseen(c, i).meters, now)
    decreases |c.meters| - i
  {
    if i < |c.meters| {
      if c.meters[i].seen || c.meters[i].removed {
        RetireUnseenTimely(c, i + 1, now);
      } else {
        RetireUnseenTimely(Retire(c, i), i + 1, now);
      }
    }
  }

  lemma TickRoundTimely(c: Client, i: nat, now: nat, ready: bool)
    requires i < |c.meters| && Timely(c.meters, now)
    ensures Timely(TickRound(c, i, now, ready).0.meters, now)
  {
    var d := TickMeter(c, i, now, ready).client;
    assert forall j :: 0 <= j < |d.meters| && j != i ==> d.meters[j] == c.meters[j];
    assert Times(d.meters[i], now);
    assert Timely(d.meters, now);
  }

  lemma {:induction false} TickMetersTimely(c: Client, i: nat, now: nat, ready: bool)
    requires i <= |c.meters| && Timely(c.meters, now)
    ensures Timely(TickMeters(c, i, now, ready).client.meters, now)
    decreases |c.meters| - i
  {
    if i < |c.meters| {
      TickRoundTimely(c, i, now, ready);
      var (d, next) := TickRound(c, i, now, ready);
      TickMetersTimely(d, next, now, ready);
    }
  }

  lemma InputInfoTimely(c: Client, info: Input, now: nat, oom: bool)
    requires Timely(c.meters, now)
    ensures Timely(InputInfo(c, info, now, oom).client.meters, now)
  {
    var i := IndexOf(c.meters, info.index);
    if i < |c.meters| {
      RefreshTimely(c, i, info, now);
    } else if !oom {
      RefreshTimely(NewMeter(c, info), 0, info, now);
    }
  }

  lemma RefreshTimely(c: Client, i: nat, info: Input, now: nat)
    requires i < |c.meters| && Timely(c.meters, now)
    ensures Timely(Refresh(c, i, info, now).client.meters, now)
  {
    assert Refresh(c, i, info, now).client.meters[i].sampled == c.meters[i].sampled;
  }

  lemma ReceiveInputTimely(w: World, a: Action)
    requires Enabled(w, a) && a.Receive? && ClockOk(w) && w.replies[0].InputItem?
    ensures ClockOk(Next(w, a))
  {
    assert Timely(w.client.meters, a.now);
    InputInfoTimely(w.client, w.replies[0].info, a.now, a.oom);
  }

  lemma ReceiveSweepTimely(w: World, a: Action)
    requires Enabled(w, a) && a.Receive? && ClockOk(w) && w.replies[0].SweepDone?
    ensures ClockOk(Next(w, a))
  {
    assert Timely(w.client.meters, a.now);
    RetireUnseenTimely(w.client.(sweeping := false), 0, a.now);
  }

  lemma SinkInfoTimely(c: Client, id: nat, sink: nat, outcome: Outcome, now: nat)
    requires Timely(c.meters, now)
    ensures var d := SinkInfo(c, id, sink, outcome, now);
            Timely(d.meters, now) && d.swept == c.swept && d.scanned == c.scanned
  {
  }

  lemma ReceiveSinkTimely(w: World, a: Action)
    requires Enabled(w, a) && a.Receive? && ClockOk(w) && w.replies[0].SinkItem?
    ensures ClockOk(Next(w, a))
  {
    assert Timely(w.client.meters, a.now);
    SinkInfoTimely(w.client, w.replies[0].id, w.replies[0].sink, a.outcome, a.now);
  }

  lemma ReceiveOutputTimely(w: World, a: Action)
    requires Enabled(w, a) && a.Receive? && ClockOk(w) && (w.replies[0].OutputItem? || w.replies[0].ScanDone?)
    ensures ClockOk(Next(w, a))
  {
    assert Timely(w.client.meters, a.now);
  }

  lemma ReceiveTimely(w: World, a: Action)
    requires Enabled(w, a) && a.Receive? && ClockOk(w)
    ensures ClockOk(Next(w, a))
  {
    if w.replies[0].InputItem? { ReceiveInputTimely(w, a); }
    else if w.replies[0].SweepDone? { ReceiveSweepTimely(w, a); }
    else if w.replies[0].SinkItem? { ReceiveSinkTimely(w, a); }
    else { ReceiveOutputTimely(w, a); }
  }

  lemma StartsTimely(c: Client, now: nat, ready: bool, sweepSent: bool, scanSent: bool)
    requires Timely(c.meters, now) && c.swept <= now && c.scanned <= now
    ensures var d := StartScan(StartSweep(c, now, ready, sweepSent).client, now, ready, scanSent).client;
            Timely(d.meters, now) && d.swept <= now && d.scanned <= now
  {
  }

  lemma {:induction false} TickMetersTimes(c: Client, i: nat, now: nat, ready: bool)
    requires i <= |c.meters|
    ensures TickMeters(c, i, now, ready).client.swept == c.swept && TickMeters(c, i, now, ready).client.scanned == c.scanned
    decreases |c.meters| - i
  {
    if i < |c.meters| {
      var (d, next) := TickRound(c, i, now, ready);
      TickMetersTimes(d, next, now, ready);
    }
  }

  lemma TickTimely(w: World, now: nat, ready: bool, sweepSent: bool, scanSent: bool)
    requires w.clock <= now && ClockOk(w)
    ensures ClockOk(TickWorld(w, now, ready, sweepSent, scanSent))
  {
    assert Timely(w.client.meters, now);
    TickMetersTimely(w.client, 0, now, ready);
    TickMetersTimes(w.client, 0, now, ready);
    StartsTimely(TickMeters(w.client, 0, now, ready).client, now, ready, sweepSent, scanSent);
  }

  lemma ClockNext(w: World, a: Action)
    requires Enabled(w, a) && ClockOk(w)
    ensures ClockOk(Next(w, a))
  {
    match a
    case Receive(_, _, _) => ReceiveTimely(w, a);
    case Ticks(now, ready, sweepSent, scanSent) => TickTimely(w, now, ready, sweepSent, scanSent);
    case _ =>
  }

  /** In every run, no time a tick or callback subtracts from the clock lies ahead of it. */
  lemma {:induction false} NoWrapAround(ws: seq<World>, acts: seq<Action>, k: nat)
    requires IsRun(ws, acts) && Initial(ws[0]) && k <= |acts|
    ensures ClockOk(ws[k])
  {
    if k > 0 {
      NoWrapAround(ws, acts, k - 1);
      ClockNext(ws[k - 1], acts[k - 1]);
    }
  }
}
