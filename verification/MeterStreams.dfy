/** The stream life cycle: what every callback keeps about the meter list and its streams. */
module MeterStreams {
  import opened Basics
  import opened MeterModel

  ghost predicate ListOk(c: Client) {
    && (forall i :: 0 <= i < |c.meters| ==> c.meters[i].handle < c.nextHandle)
    && (forall i, j :: 0 <= i < j < |c.meters| ==>
                         c.meters[i].id != c.meters[j].id && c.meters[i].handle != c.meters[j].handle)
  }

  /** What holds of every stream ever created, whoever owns it. */
  ghost predicate StreamOk(s: Stream) {
    && (s.dropped <==> s.reader.None?)
    && (s.watched ==> s.dropped && (s.state.Creating? || s.state.Ready?))
    && s.unrefs == (if s.dropped && !s.watched then 1 else 0)
    && (s.dropped && s.state.Ready? ==> s.disconnecting)
    && (s.dropped && s.state.Creating? ==> s.watched)
  }

  ghost predicate Owns(c: Client, i: int, s: nat) {
    0 <= i < |c.meters| && c.meters[i].stream == Some(s)
  }

  /** Streams and meters point at each other: a meter's stream reads into that meter, and a stream
      that was not dropped is some meter's. */
  ghost predicate StreamsOk(c: Client) {
    && (forall s :: s in c.streams ==> s < c.nextStream && StreamOk(c.streams[s]))
    && (forall i, s: nat :: Owns(c, i, s) ==> s in c.streams && c.streams[s].reader == Some(c.meters[i].handle))
    && (forall s :: s in c.streams && !c.streams[s].dropped ==> exists i :: Owns(c, i, s))
  }

  ghost predicate ClientOk(c: Client) {
    ListOk(c) && StreamsOk(c)
  }

  /** Two meters never share a stream. */
  lemma OneOwner(c: Client, i: int, j: int, s: nat)
    requires ClientOk(c) && Owns(c, i, s) && Owns(c, j, s)
    ensures i == j
  {
    assert c.meters[i].handle == c.meters[j].handle;
  }

  lemma DropStreamOk(c: Client, i: nat)
    requires ClientOk(c) && i < |c.meters|
    ensures ClientOk(DropStream(c, i))
    ensures DropStream(c, i).meters[i].stream.None?
  {
    var r := DropStream(c, i);
    var m := c.meters[i];
    if m.stream.Some? {
      var s := m.stream.value;
      assert Owns(c, i, s);
      forall j, t: nat | Owns(r, j, t) ensures t in r.streams && r.streams[t].reader == Some(r.meters[j].handle) {
        assert Owns(c, j, t);
        if t == s { OneOwner(c, i, j, s); }
      }
      forall t | t in r.streams && !r.streams[t].dropped ensures exists j :: Owns(r, j, t) {
        var j :| Owns(c, j, t);
        assert Owns(r, j, t);
      }
    }
  }

  /** Changing the other fields of a meter keeps the invariant. */
  lemma SetMeterOk(c: Client, i: nat, m: Meter)
    requires ClientOk(c) && i < |c.meters|
    requires m.id == c.meters[i].id && m.handle == c.meters[i].handle && m.stream == c.meters[i].stream
    ensures ClientOk(SetMeter(c, i, m))
  {
    var r := SetMeter(c, i, m);
    assert forall j, s: nat :: Owns(r, j, s) <==> Owns(c, j, s);
  }

  lemma RetireOk(c: Client, i: nat)
    requires ClientOk(c) && i < |c.meters|
    ensures ClientOk(Retire(c, i))
  {
    DropStreamOk(c, i);
    var d := DropStream(c, i);
    SetMeterOk(d, i, d.meters[i].(removed := true, corked := true));
  }

  /** Taking a meter without a stream off the list keeps the invariant. */
  lemma UnlinkOk(c: Client, i: nat)
    requires ClientOk(c) && i < |c.meters| && c.meters[i].stream.None?
    ensures ClientOk(c.(meters := c.meters[..i] + c.meters[i + 1..]))
  {
    var r := c.(meters := c.meters[..i] + c.meters[i + 1..]);
    assert forall j :: 0 <= j < |r.meters| ==> r.meters[j] == c.meters[if j < i then j else j + 1];
    forall j, s: nat | Owns(r, j, s) ensures s in r.streams && r.streams[s].reader == Some(r.meters[j].handle) {
      assert Owns(c, if j < i then j else j + 1, s);
    }
    forall s | s in r.streams && !r.streams[s].dropped ensures exists j :: Owns(r, j, s) {
      var j :| Owns(c, j, s);
      assert Owns(r, if j < i then j else j - 1, s);
    }
  }

  lemma RemoveMeterOk(c: Client, id: nat)
    requires ClientOk(c)
    ensures ClientOk(RemoveMeter(c, id))
  {
    var i := IndexOf(c.meters, id);
    if i < |c.meters| {
      DropStreamOk(c, i);
      UnlinkOk(DropStream(c, i), i);
    }
  }

  lemma OpenStreamOk(c: Client, i: nat, state: StreamState, now: nat)
    requires ClientOk(c) && i < |c.meters| && c.meters[i].stream.None?
    ensures ClientOk(OpenStream(c, i, state, now))
  {
    var s := c.nextStream;
    var r := OpenStream(c, i, state, now);
    assert s !in c.streams;
    forall j, t: nat | Owns(r, j, t) ensures t in r.streams && r.streams[t].reader == Some(r.meters[j].handle) {
      if j != i { assert Owns(c, j, t); }
    }
    forall t | t in r.streams && !r.streams[t].dropped ensures exists j :: Owns(r, j, t) {
      if t == s {
        assert Owns(r, i, t);
      } else {
        var j :| Owns(c, j, t);
        assert Owns(r, j, t);
      }
    }
  }

  lemma SinkInfoOk(c: Client, id: nat, sink: nat, outcome: Outcome, now: nat)
    requires ClientOk(c)
    ensures ClientOk(SinkInfo(c, id, sink, outcome, now))
  {
    var i := IndexOf(c.meters, id);
    if !(i == |c.meters| || c.meters[i].stream.Some? || c.meters[i].sink != sink || outcome.NoObject?) {
      if outcome.Refused? {
        OpenStreamOk(c, i, Unconnected, now);
        DropStreamOk(OpenStream(c, i, Unconnected, now), i);
      } else {
        OpenStreamOk(c, i, Creating, now);
      }
    }
  }

  lemma {:induction false} RetireUnseenOk(c: Client, i: nat)
    requires ClientOk(c) && i <= |c.meters|
    ensures ClientOk(RetireUnseen(c, i))
    decreases |c.meters| - i
  {
    if i < |c.meters| {
      if c.meters[i].seen || c.meters[i].removed {
        RetireUnseenOk(c, i + 1);
      } else {
        RetireOk(c, i);
        RetireUnseenOk(Retire(c, i), i + 1);
      }
    }
  }

  lemma PrependOk(c: Client, m: Meter)
    requires ClientOk(c) && m.handle == c.nextHandle && m.stream.None? && IndexOf(c.meters, m.id) == |c.meters|
    ensures ClientOk(c.(meters := [m] + c.meters, nextHandle := c.nextHandle + 1))
  {
    var r := c.(meters := [m] + c.meters, nextHandle := c.nextHandle + 1);
    forall j, s: nat | Owns(r, j, s) ensures s in r.streams && r.streams[s].reader == Some(r.meters[j].handle) {
      assert Owns(c, j - 1, s);
    }
    forall s | s in r.streams && !r.streams[s].dropped ensures exists j :: Owns(r, j, s) {
      var j :| Owns(c, j, s);
      assert Owns(r, j + 1, s);
    }
  }

  lemma RefreshOk(c: Client, i: nat, info: Input, now: nat)
    requires ClientOk(c) && i < |c.meters|
    ensures ClientOk(Refresh(c, i, info, now).client)
  {
    if c.meters[i].sink != info.sink { DropStreamOk(c, i); }
    var placed := if c.meters[i].sink != info.sink then DropStream(c, i) else c;
    SetMeterOk(placed, i, Refresh(c, i, info, now).client.meters[i]);
  }

  lemma InputInfoOk(c: Client, info: Input, now: nat, oom: bool)
    requires ClientOk(c)
    ensures ClientOk(InputInfo(c, info, now, oom).client)
  {
    var i := IndexOf(c.meters, info.index);
    if i < |c.meters| {
      RefreshOk(c, i, info, now);
    } else if !oom {
      PrependOk(c, NewMeter(c, info).meters[0]);
      RefreshOk(NewMeter(c, info), 0, info, now);
    }
  }

  lemma SubscribeOk(c: Client, e: Event)
    requires ClientOk(c)
    ensures ClientOk(Subscribe(c, e).client)
  {
    if e.Removed? {
      var i := IndexOf(c.meters, e.id);
      if i < |c.meters| { RetireOk(c, i); }
    }
  }

  lemma ReadPeakOk(c: Client, handle: nat, level: Level, now: nat)
    requires ClientOk(c)
    ensures ClientOk(ReadPeak(c, handle, level, now))
  {
    CopyOk(c, ReadPeak(c, handle, level, now));
  }

  lemma MovedOk(c: Client, s: nat, to: StreamState, index: nat)
    requires ClientOk(c) && s in c.streams && CanMove(c.streams[s].state, to)
    ensures ClientOk(c.(streams := c.streams[s := Moved(c.streams[s], to, index)]))
  {
    var r := c.(streams := c.streams[s := Moved(c.streams[s], to, index)]);
    assert forall j, t: nat :: Owns(r, j, t) <==> Owns(c, j, t);
  }

  lemma TickMeterOk(c: Client, i: nat, now: nat, ready: bool)
    requires ClientOk(c) && i < |c.meters|
    ensures ClientOk(TickMeter(c, i, now, ready).client)
  {
    if Stale(c, c.meters[i], now) { DropStreamOk(c, i); }
    var d := if Stale(c, c.meters[i], now) then DropStream(c, i) else c;
    SetMeterOk(d, i, TickMeter(c, i, now, ready).client.meters[i]);
  }

  lemma TickRoundOk(c: Client, i: nat, now: nat, ready: bool)
    requires ClientOk(c) && i < |c.meters|
    ensures ClientOk(TickRound(c, i, now, ready).0)
  {
    TickMeterOk(c, i, now, ready);
    var d := TickMeter(c, i, now, ready).client;
    RemoveMeterOk(d, d.meters[i].id);
  }

  lemma {:induction false} TickMetersOk(c: Client, i: nat, now: nat, ready: bool)
    requires ClientOk(c) && i <= |c.meters|
    ensures ClientOk(TickMeters(c, i, now, ready).client)
    decreases |c.meters| - i
  {
    if i < |c.meters| {
      TickRoundOk(c, i, now, ready);
      var (d, next) := TickRound(c, i, now, ready);
      TickMetersOk(d, next, now, ready);
    }
  }

  /** The invariant depends on nothing but identities, ownership and the streams. */
  lemma CopyOk(c: Client, r: Client)
    requires ClientOk(c) && |r.meters| == |c.meters| && r.streams == c.streams
    requires r.nextHandle == c.nextHandle && r.nextStream == c.nextStream
    requires forall i :: 0 <= i < |c.meters| ==>
               r.meters[i].handle == c.meters[i].handle && r.meters[i].id == c.meters[i].id && r.meters[i].stream == c.meters[i].stream
    ensures ClientOk(r)
  {
    assert forall j, s: nat :: Owns(r, j, s) <==> Owns(c, j, s);
  }

  lemma TickOk(c: Client, now: nat, ready: bool, sweepSent: bool, scanSent: bool)
    requires ClientOk(c)
    ensures ClientOk(Tick(c, now, ready, sweepSent, scanSent).client)
  {
    TickMetersOk(c, 0, now, ready);
    var t := TickMeters(c, 0, now, ready).client;
    var s := StartSweep(t, now, ready, sweepSent).client;
    CopyOk(t, s);
    CopyOk(s, StartScan(s, now, ready, scanSent).client);
  }
}
