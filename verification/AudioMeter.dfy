/** The audio meter's callbacks as they run: globals updated in place, loops over the meter list and
    over the two orphan arrays. Every method refines the matching function of MeterModel. */
module AudioMeter {
  import opened Basics
  import opened Hysteresis
  import opened MeterModel
  import opened MeterStreams

  /** What is left of a tick's meter loop at position i, with the queries sent so far. */
  ghost function Resume(c: Client, i: nat, now: nat, ready: bool, sent: seq<Request>): Out
    requires i <= |c.meters|
  {
    var rest := TickMeters(c, i, now, ready);
    Out(rest.client, sent + rest.sent)
  }

  lemma ResumeRound(c: Client, i: nat, now: nat, ready: bool, sent: seq<Request>)
    requires i < |c.meters|
    ensures var (d, next) := TickRound(c, i, now, ready);
            Resume(c, i, now, ready, sent) == Resume(d, next, now, ready, sent + TickMeter(c, i, now, ready).sent)
  {
    var (d, next) := TickRound(c, i, now, ready);
    var more, rest := TickMeter(c, i, now, ready).sent, TickMeters(d, next, now, ready).sent;
    assert sent + (more + rest) == sent + more + rest;
  }

  class Daemon {
    var meters: seq<Meter>
    var streams: map<nat, Stream>
    var nextHandle: nat
    var nextStream: nat
    var sweeping: bool
    var swept: nat
    var scanning: bool
    var scanned: nat
    const orphansBefore: array<nat>
    const orphansNow: array<nat>
    var nBefore: nat
    var nNow: nat

    ghost predicate Valid()
      reads this
    {
      && orphansBefore != orphansNow
      && orphansBefore.Length == orphansNow.Length == ORPHAN_MAX
      && nBefore <= ORPHAN_MAX && nNow <= ORPHAN_MAX
    }

    ghost function State(): Client
      requires Valid()
      reads this, orphansBefore, orphansNow
    {
      Client(meters, streams, nextHandle, nextStream, sweeping, swept, scanning, scanned,
             orphansBefore[..nBefore], orphansNow[..nNow])
    }

    constructor ()
      ensures Valid() && fresh(orphansBefore) && fresh(orphansNow) && State() == START
    {
      meters, streams, nextHandle, nextStream := [], map[], 0, 0;
      sweeping, swept, scanning, scanned := false, 0, false, 0;
      orphansBefore := new nat[ORPHAN_MAX];
      orphansNow := new nat[ORPHAN_MAX];
      nBefore, nNow := 0, 0;
    }

    method Find(id: nat) returns (i: nat)
      ensures i == IndexOf(meters, id)
    {
      i := 0;
      while i < |meters|
        invariant i <= |meters|
        invariant forall j :: 0 <= j < i ==> meters[j].id != id
      {
        if meters[i].id == id { return; }
        i := i + 1;
      }
    }

    method DropStreamAt(i: nat)
      requires Valid() && i < |meters|
      modifies this`meters, this`streams
      ensures Valid() && State() == DropStream(old(State()), i)
    {
      var m := meters[i];
      if m.stream.None? { return; }
      meters := meters[i := m.(stream := None, level := Quiet)];
      if m.stream.value in streams {
        streams := streams[m.stream.value := Release(streams[m.stream.value])];
      }
    }

    method RetireAt(i: nat)
      requires Valid() && i < |meters|
      modifies this`meters, this`streams
      ensures Valid() && State() == Retire(old(State()), i)
    {
      DropStreamAt(i);
      meters := meters[i := meters[i].(removed := true, corked := true)];
    }

    method RemoveMeterById(id: nat)
      requires Valid()
      modifies this`meters, this`streams
      ensures Valid() && State() == RemoveMeter(old(State()), id)
    {
      var i := Find(id);
      if i == |meters| { return; }
      DropStreamAt(i);
      meters := meters[..i] + meters[i + 1..];
    }

    method OnSinkInfo(id: nat, sink: nat, outcome: Outcome, now: nat)
      requires Valid()
      modifies this`meters, this`streams, this`nextStream
      ensures Valid() && State() == SinkInfo(old(State()), id, sink, outcome, now)
    {
      var i := Find(id);
      if i == |meters| || meters[i].stream.Some? || meters[i].sink != sink || outcome.NoObject? { return; }
      var s := nextStream;
      var state := if outcome.Refused? then Unconnected else Creating;
      streams := streams[s := Stream(state, 0, Some(meters[i].handle), false, false, false, 0)];
      nextStream := s + 1;
      meters := meters[i := meters[i].(stream := Some(s), sampled := now)];
      if outcome.Refused? { DropStreamAt(i); }
    }

    /** A stream's state changes; a stream dropped while it was being created runs `dropped_state`. */
    method OnStreamState(s: nat, to: StreamState, index: nat)
      requires Valid() && s in streams
      modifies this`streams
      ensures Valid()
      ensures State() == old(State()).(streams := old(streams)[s := Moved(old(streams)[s], to, index)])
    {
      var stream := streams[s].(state := to, index := if to.Ready? then index else streams[s].index);
      if stream.watched {
        match stream.state
        case Ready => stream := Disconnect(stream);
        case Failed => stream := Unref(stream.(watched := false));
        case Terminated => stream := Unref(stream.(watched := false));
        case _ =>
      }
      streams := streams[s := stream];
    }

    /** `end_sweep`: retires every meter the sweep's replies did not name. */
    method EndSweep()
      requires Valid()
      modifies this`meters, this`streams, this`sweeping
      ensures Valid() && State() == SweepEnd(old(State()), true)
    {
      sweeping := false;
      var i := 0;
      while i < |meters|
        invariant Valid() && i <= |meters| && !sweeping
        invariant RetireUnseen(State(), i) == SweepEnd(old(State()), true)
        decreases |meters| - i
      {
        if !meters[i].seen && !meters[i].removed { RetireAt(i); }
        i := i + 1;
      }
    }

    method RefreshAt(i: nat, info: Input, now: nat) returns (sent: seq<Request>)
      requires Valid() && i < |meters|
      modifies this`meters, this`streams
      ensures Valid() && Out(State(), sent) == Refresh(old(State()), i, info, now)
    {
      if meters[i].sink != info.sink { DropStreamAt(i); }
      var m := meters[i].(sink := info.sink, muted := info.muted, corked := info.corked, removed := false, seen := true);
      sent := [];
      if m.stream.None? {
        m := m.(retryAt := now + 1000);
        sent := [QuerySink(info.sink, info.index)];
      }
      meters := meters[i := m];
    }

    method OnInputInfo(info: Input, now: nat, oom: bool) returns (sent: seq<Request>)
      requires Valid()
      modifies this`meters, this`streams, this`nextHandle
      ensures Valid() && Out(State(), sent) == InputInfo(old(State()), info, now, oom)
    {
      var i := Find(info.index);
      if i == |meters| {
        if oom { return []; }
        var blank := Meter(nextHandle, info.index, info.sink, None, false, false, false, false, Quiet, 0, 0, IDLE);
        meters, nextHandle, i := [blank] + meters, nextHandle + 1, 0;
        assert State() == NewMeter(old(State()), info);
      }
      sent := RefreshAt(i, info, now);
    }

    method OnEvent(e: Event) returns (sent: seq<Request>)
      requires Valid()
      modifies this`meters, this`streams
      ensures Valid() && Out(State(), sent) == Subscribe(old(State()), e)
    {
      sent := [];
      match e
      case Changed(id) => sent := [QueryInput(id)];
      case Removed(id) =>
        var i := Find(id);
        if i < |meters| { RetireAt(i); }
    }

    method TickMeterAt(i: nat, now: nat, ready: bool) returns (sent: seq<Request>)
      requires Valid() && i < |meters|
      modifies this`meters, this`streams
      ensures Valid() && Out(State(), sent) == TickMeter(old(State()), i, now, ready)
    {
      sent := [];
      var m := meters[i];
      if m.stream.Some? && m.stream.value in streams &&
         (streams[m.stream.value].state.Final() || (!m.corked && now - m.sampled > 2000)) {
        DropStreamAt(i);
        m := meters[i];
      }
      if !m.removed && m.stream.None? && now >= m.retryAt && ready {
        sent := [QuerySink(m.sink, m.id)];
        m := m.(retryAt := now + 1000);
      }
      var h := Listen(m, now);
      meters := meters[i := m.(hyst := h)];
    }

    /** The hysteresis of one tick on one meter. */
    static method Listen(m: Meter, now: nat) returns (h: Hyst)
      ensures h == Step(m.hyst, SampleOf(m, now))
    {
      var live := !m.muted && !m.corked && now - m.sampled < 250;
      var sound := live && (if m.hyst.active then !m.level.Quiet? else m.level.Loud?);
      h := m.hyst;
      if sound {
        h := h.(audible := now);
        if h.candidate == 0 { h := h.(candidate := now); }
        if !h.active && now - h.candidate >= ATTACK_MS { h := h.(active := true); }
      } else {
        h := h.(candidate := 0);
        if h.active && now - h.audible >= RELEASE_MS { h := h.(active := false); }
      }
    }

    /** One round of the tick's loop; `next` is the position of the next meter. */
    method TickRoundAt(i: nat, now: nat, ready: bool) returns (next: nat, sent: seq<Request>)
      requires Valid() && i < |meters|
      modifies this`meters, this`streams
      ensures Valid() && (State(), next) == TickRound(old(State()), i, now, ready)
      ensures sent == TickMeter(old(State()), i, now, ready).sent
    {
      sent := TickMeterAt(i, now, ready);
      if meters[i].removed && !meters[i].hyst.active {
        RemoveMeterById(meters[i].id);
        next := i;
      } else {
        next := i + 1;
      }
    }

    method TickAll(now: nat, ready: bool) returns (sent: seq<Request>)
      requires Valid()
      modifies this`meters, this`streams
      ensures Valid() && Out(State(), sent) == TickMeters(old(State()), 0, now, ready)
    {
      sent := [];
      var i: nat := 0;
      ghost var c := State();
      ghost var whole := Resume(c, 0, now, ready, []);
      while i < |meters|
        invariant Valid() && c == State() && i <= |c.meters|
        invariant Resume(c, i, now, ready, sent) == whole
        decreases |meters| - i
      {
        ResumeRound(c, i, now, ready, sent);
        var more;
        i, more := TickRoundAt(i, now, ready);
        c, sent := State(), sent + more;
      }
      assert sent + [] == sent;
      assert [] + TickMeters(old(State()), 0, now, ready).sent == TickMeters(old(State()), 0, now, ready).sent;
    }

    method ClearMarks()
      modifies this`meters
      ensures meters == ClearSeen(old(meters))
    {
      for i := 0 to |meters|
        invariant |meters| == |old(meters)|
        invariant forall j :: 0 <= j < i ==> meters[j] == old(meters)[j].(seen := false)
        invariant forall j :: i <= j < |meters| ==> meters[j] == old(meters)[j]
      {
        meters := meters[i := meters[i].(seen := false)];
      }
    }

    method BeginSweep(now: nat, ready: bool, ok: bool) returns (sent: seq<Request>)
      requires Valid()
      modifies this`meters, this`sweeping, this`swept
      ensures Valid() && Out(State(), sent) == StartSweep(old(State()), now, ready, ok)
    {
      if sweeping || !ready || now - swept < SWEEP_MS { return []; }
      swept, sweeping := now, ok;
      ClearMarks();
      sent := if ok then [ListInputs(true)] else [];
    }

    method BeginScan(now: nat, ready: bool, ok: bool) returns (sent: seq<Request>)
      requires Valid()
      modifies this`scanning, this`scanned, this`nNow
      ensures Valid() && Out(State(), sent) == StartScan(old(State()), now, ready, ok)
    {
      if scanning || !ready || now - scanned < SWEEP_MS { return []; }
      scanned, scanning, nNow := now, ok, 0;
      sent := if ok then [ListOutputs] else [];
    }

    method OnTick(now: nat, ready: bool, sweepSent: bool, scanSent: bool) returns (sent: seq<Request>)
      requires Valid()
      modifies this`meters, this`streams, this`sweeping, this`swept, this`scanning, this`scanned, this`nNow
      ensures Valid() && Out(State(), sent) == Tick(old(State()), now, ready, sweepSent, scanSent)
    {
      var ticked := TickAll(now, ready);
      var swept := BeginSweep(now, ready, sweepSent);
      var scanned := BeginScan(now, ready, scanSent);
      sent := ticked + swept + scanned;
    }

    /** One source output of a scan's reply. */
    method ReapItem(index: nat, mine: bool)
      requires Valid()
      modifies this`nNow, orphansNow
      ensures Valid() && State() == OutputInfo(old(State()), index, mine)
    {
      if !mine || nNow == ORPHAN_MAX { return; }
      var i := 0;
      while i < |meters|
        invariant i <= |meters|
        invariant forall m :: m in meters[..i] ==>
                    !(m.stream.Some? && m.stream.value in streams && streams[m.stream.value].state.Ready?
                      && streams[m.stream.value].index == index)
      {
        var m := meters[i];
        if m.stream.Some? && m.stream.value in streams && streams[m.stream.value].state.Ready?
           && streams[m.stream.value].index == index {
          assert Accounted(State(), index);
          return;
        }
        i := i + 1;
      }
      assert meters[..i] == meters;
      assert !Accounted(State(), index);
      orphansNow[nNow] := index;
      nNow := nNow + 1;
      assert orphansNow[..nNow] == old(orphansNow[..nNow]) + [index];
    }

    /** Whether an index is among the orphans of the scan before. */
    method Twice(x: nat) returns (twice: bool)
      requires Valid()
      ensures twice <==> x in orphansBefore[..nBefore]
    {
      twice := false;
      for j := 0 to nBefore
        invariant twice <==> x in orphansBefore[..j]
      {
        twice := twice || orphansBefore[j] == x;
      }
    }

    /** Splits the indices found into those the scan before found too and the rest. */
    method SplitFound() returns (killed: seq<nat>, still: array<nat>, kept: nat)
      requires Valid()
      ensures fresh(still) && kept <= still.Length == ORPHAN_MAX
      ensures still[..kept] == Select(orphansNow[..nNow], orphansBefore[..nBefore], false)
      ensures killed == Select(orphansNow[..nNow], orphansBefore[..nBefore], true)
    {
      killed, kept := [], 0;
      still := new nat[ORPHAN_MAX];
      ghost var prior := orphansBefore[..nBefore];
      for i := 0 to nNow
        invariant kept <= i
        invariant still[..kept] == Select(orphansNow[..i], prior, false)
        invariant killed == Select(orphansNow[..i], prior, true)
      {
        assert orphansNow[..i + 1][..i] == orphansNow[..i];
        var twice := Twice(orphansNow[i]);
        if twice {
          killed := killed + [orphansNow[i]];
        } else {
          ghost var was := still[..kept];
          still[kept] := orphansNow[i];
          kept := kept + 1;
          assert still[..kept] == was + [orphansNow[i]];
        }
      }
    }

    /** The end of a scan's reply; `killed` lists the indices sent to be killed. */
    method ReapEnd(ok: bool) returns (killed: seq<nat>)
      requires Valid()
      modifies this`nNow, this`nBefore, this`scanning, orphansBefore
      ensures Valid() && Reaped(State(), killed) == OutputEnd(old(State()), ok)
    {
      killed := [];
      scanning := false;
      if !ok { return; }
      var still, kept;
      killed, still, kept := SplitFound();
      for i := 0 to kept
        invariant orphansBefore[..i] == still[..i]
        modifies orphansBefore
      {
        orphansBefore[i] := still[i];
      }
      nBefore, nNow := kept, 0;
    }

    /** The end of the program: every meter is removed, and every stream has been let go of. */
    method Shutdown()
      requires Valid() && ClientOk(State())
      modifies this`meters, this`streams
      ensures Valid() && ClientOk(State()) && meters == []
      ensures forall s :: s in streams ==> streams[s].dropped && (streams[s].state.Final() ==> streams[s].unrefs == 1)
    {
      while meters != []
        invariant Valid() && ClientOk(State())
        decreases |meters|
      {
        RemoveMeterOk(State(), meters[0].id);
        RemoveMeterById(meters[0].id);
      }
      forall s | s in streams ensures streams[s].dropped {
        assert forall i :: !Owns(State(), i, s);
      }
    }
  }
}
