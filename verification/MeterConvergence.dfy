/** What a sweep achieves over whole runs: it retires exactly the meters no reply has named since it
    began, and once the server's set of sink inputs is stable it makes the meters agree with it. */
module MeterConvergence {
  import opened MeterModel
  import opened MeterStreams
  import opened MeterWorld
  import opened MeterSweep

  /** A complete sweep retires exactly the meters that no reply has named since it began. */
  lemma SweepRetiresExactly(w: World, i: nat)
    requires Reachable(w) && i < |w.client.meters|
    ensures var after := SweepEnd(w.client, true).meters;
            && |after| == |w.client.meters|
            && ViewOf(after[i]) ==
                 ViewOf(w.client.meters[i]).(removed := w.client.meters[i].removed || w.client.meters[i].id !in w.named)
  {
    var ws, acts :| IsRun(ws, acts) && Initial(ws[0]) && ws[|acts|] == w;
    RunSweepInv(ws, acts, |acts|);
    RetireUnseenViews(w.client.(sweeping := false), 0);
    assert ViewOf(w.client.meters[i]) in Views(w.client.meters);
  }

  /** The sink inputs that have a meter not marked removed. */
  ghost function LiveIds(c: Client): set<nat> {
    set v | v in Views(c.meters) && !v.removed :: v.id
  }

  /** No reply in flight names a sink input the server no longer has. */
  ghost predicate NoStaleReply(w: World) {
    forall k :: 0 <= k < |w.replies| && w.replies[k].InputItem? ==> w.replies[k].info.index in w.inputs
  }

  /** An action that leaves the server's set of sink inputs alone; meters can be allocated. */
  predicate Steady(a: Action) {
    !a.Add? && !a.Remove? && (a.Receive? ==> !a.oom)
  }

  /** Every sink input has been named, or will be before the successful end of a sweep arrives. */
  ghost predicate Covers(w: World) {
    forall k, id :: 0 <= k < |w.replies| && w.replies[k] == SweepDone(true) && id in w.inputs ==>
                      id in w.named || exists j :: 0 <= j < k && Names(w.replies[j], id)
  }

  ghost predicate Names(r: Reply, id: nat) {
    r.InputItem? && r.info.index == id
  }

  /** What holds from the start of a sweep that finds no stale reply in flight. */
  ghost predicate Settling(w: World) {
    && SweepInv(w) && NoStaleReply(w) && Covers(w)
    && (forall id :: id in w.named ==> id in w.inputs && id in LiveIds(w.client))
  }

  ghost predicate Agrees(w: World) {
    LiveIds(w.client) == w.inputs.Keys
  }

  lemma LiveSame(a: Client, b: Client)
    requires Views(a.meters) == Views(b.meters)
    ensures LiveIds(a) == LiveIds(b)
  {
  }

  lemma LiveSheds(a: seq<Meter>, b: seq<Meter>, c: Client, d: Client)
    requires Sheds(a, b) && c.meters == a && d.meters == b
    ensures LiveIds(c) == LiveIds(d)
  {
    forall id ensures id in LiveIds(c) <==> id in LiveIds(d) {
      if id in LiveIds(c) { var v :| v in Views(a) && !v.removed && v.id == id; assert v in Views(b); }
      if id in LiveIds(d) { var v :| v in Views(b) && !v.removed && v.id == id; assert v in Views(a); }
    }
  }

  ghost predicate LiveAt(ms: seq<Meter>, i: int, id: nat) {
    0 <= i < |ms| && ms[i].id == id && !ms[i].removed
  }

  lemma LiveIff(c: Client, id: nat)
    ensures id in LiveIds(c) <==> exists i :: LiveAt(c.meters, i, id)
  {
    if id in LiveIds(c) {
      var v :| v in Views(c.meters) && !v.removed && v.id == id;
      var i :| 0 <= i < |c.meters| && v == ViewOf(c.meters[i]);
      assert LiveAt(c.meters, i, id);
    }
    if i :| LiveAt(c.meters, i, id) {
      assert ViewOf(c.meters[i]) in Views(c.meters);
    }
  }

  lemma ClearSeenLive(c: Client, d: Client)
    requires d.meters == ClearSeen(c.meters)
    ensures LiveIds(c) == LiveIds(d)
  {
    forall id: nat ensures id in LiveIds(c) <==> id in LiveIds(d) {
      LiveIff(c, id);
      LiveIff(d, id);
      assert forall i :: LiveAt(c.meters, i, id) <==> LiveAt(d.meters, i, id);
    }
  }

  /** A tick leaves the live meters alone, whether or not it starts a sweep. */
  lemma TickLive(c: Client, now: nat, ready: bool, sweepSent: bool, scanSent: bool)
    requires ClientOk(c)
    ensures LiveIds(Tick(c, now, ready, sweepSent, scanSent).client) == LiveIds(c)
  {
    var t := TickMeters(c, 0, now, ready).client;
    var r := Tick(c, now, ready, sweepSent, scanSent).client;
    TickMetersSheds(c, 0, now, ready);
    LiveSheds(c.meters, t.meters, c, t);
    TickViews(c, now, ready, sweepSent, scanSent);
    if r.meters == t.meters {
      LiveSame(r, t);
    } else {
      ClearSeenLive(t, r);
    }
  }

  /** A sweep that starts with no stale reply in flight starts settling. */
  lemma SweepSettles(w: World, a: Action)
    requires SweepInv(w) && NoStaleReply(w) && Enabled(w, a) && StartsSweep(w, a)
    ensures Settling(Next(w, a))
  {
    SweepInvNext(w, a);
    var w' := Next(w, a);
    TickViews(w.client, a.now, a.ready, a.sweepSent, a.scanSent);
    assert w'.named == {};
    CountNone(w.replies, IsSweepDone);
    assert w'.replies == w.replies;
    assert Covers(w') by {
      forall k | 0 <= k < |w'.replies| && w'.replies[k] == SweepDone(true) ensures false {
        assert IsSweepDone(w.replies[k]);
      }
    }
  }

  lemma InputItemLive(w: World, info: Input, now: nat)
    requires ClientOk(w.client)
    ensures LiveIds(InputInfo(w.client, info, now, false).client) == LiveIds(w.client) + {info.index}
  {
    var r := InputInfo(w.client, info, now, false).client;
    var h := InputInfoViews(w.client, info, now, false);
    forall id ensures id in LiveIds(r) <==> id in LiveIds(w.client) + {info.index} {
      if id in LiveIds(w.client) && id != info.index {
        var v :| v in Views(w.client.meters) && !v.removed && v.id == id;
        assert v in Views(r.meters);
      }
      assert View(h, info.index, false, true) in Views(r.meters);
    }
  }

  /** At the successful end of a sweep the live meters are those named since it began. */
  lemma SweepDoneLive(w: World)
    requires MarksOk(w)
    ensures LiveIds(SweepEnd(w.client, true)) == set id | id in LiveIds(w.client) && id in w.named
  {
    var c := w.client;
    var r := SweepEnd(c, true);
    RetireUnseenViews(c.(sweeping := false), 0);
    forall id: nat ensures id in LiveIds(r) <==> id in LiveIds(c) && id in w.named {
      LiveIff(c, id);
      LiveIff(r, id);
      forall i ensures LiveAt(r.meters, i, id) <==> LiveAt(c.meters, i, id) && id in w.named {
        if 0 <= i < |c.meters| {
          assert ViewOf(c.meters[i]) in Views(c.meters);
          assert ViewOf(r.meters[i]).removed == r.meters[i].removed;
        }
      }
    }
  }

  /** The head of a reply queue that covers every sink input can be taken off. */
  lemma CoversTail(w: World, w': World)
    requires w.replies != [] && Covers(w) && w'.replies == w.replies[1..] && w'.inputs == w.inputs
    requires w.named <= w'.named
    requires w.replies[0].InputItem? ==> w.replies[0].info.index in w'.named
    ensures Covers(w')
  {
    forall k, id | 0 <= k < |w'.replies| && w'.replies[k] == SweepDone(true) && id in w'.inputs
      ensures id in w'.named || exists j :: 0 <= j < k && Names(w'.replies[j], id)
    {
      assert w.replies[k + 1] == SweepDone(true);
      if id !in w'.named {
        var j :| 0 <= j < k + 1 && Names(w.replies[j], id);
        assert j > 0;
        assert w'.replies[j - 1] == w.replies[j];
      }
    }
  }

  lemma CoversServe(w: World, a: Action)
    requires Enabled(w, a) && a.Serve? && EventsOk(w) && Covers(w)
    ensures Covers(Next(w, a))
  {
    var w' := Next(w, a);
    var answer := Answer(w, w.requests[0], a.listing, a.outputs, a.found, a.ok);
    forall k, id | 0 <= k < |w'.replies| && w'.replies[k] == SweepDone(true) && id in w'.inputs
      ensures id in w'.named || exists j :: 0 <= j < k && Names(w'.replies[j], id)
    {
      if k < |w.replies| {
        assert w.replies[k] == SweepDone(true);
        if id !in w.named {
          var j :| 0 <= j < k && Names(w.replies[j], id);
          assert w'.replies[j] == w.replies[j];
        }
      } else {
        assert answer[k - |w.replies|] == SweepDone(true);
        var j :| 0 <= j < |a.listing| && a.listing[j] == id;
        assert w'.replies[|w.replies| + j] == answer[j] == Items(w.inputs, a.listing)[j];
        assert Names(w'.replies[|w.replies| + j], id);
      }
    }
  }

  /** The reply at the head has been taken off; what is left to settle is the marks. */
  lemma SettlingTail(w: World, w': World)
    requires w.replies != [] && Settling(w) && SweepInv(w') && w'.replies == w.replies[1..] && w'.inputs == w.inputs
    requires w'.named == w.named + (if w.replies[0].InputItem? then {w.replies[0].info.index} else {})
    requires forall id :: id in w'.named ==> id in LiveIds(w'.client)
    ensures Settling(w')
  {
    CoversTail(w, w');
    assert forall k :: 0 <= k < |w'.replies| ==> w'.replies[k] == w.replies[k + 1];
  }

  lemma SettlingReceive(w: World, a: Action)
    requires Enabled(w, a) && a.Receive? && !a.oom && Settling(w)
    ensures Settling(Next(w, a))
    ensures Agrees(w) || w.replies[0] == SweepDone(true) ==> Agrees(Next(w, a))
  {
    SweepInvNext(w, a);
    var w' := Next(w, a);
    match w.replies[0]
    case InputItem(info) =>
      InputItemLive(w, info, a.now);
      SettlingTail(w, w');
    case SweepDone(ok) =>
      if ok {
        SweepDoneLive(w);
        assert w.replies[0] == SweepDone(true);
        assert forall id :: id in w.inputs ==> id in w.named;
      }
      SettlingTail(w, w');
    case SinkItem(id, sink) =>
      SinkInfoViews(w.client, id, sink, a.outcome, a.now);
      LiveSame(w.client, w'.client);
      SettlingTail(w, w');
    case _ =>
      LiveSame(w.client, w'.client);
      SettlingTail(w, w');
  }

  lemma SettlingNotice(w: World, a: Action)
    requires Enabled(w, a) && a.Notice? && Settling(w)
    ensures Settling(Next(w, a))
    ensures Agrees(w) ==> Agrees(Next(w, a))
  {
    SweepInvNext(w, a);
    var w' := Next(w, a);
    var e := w.events[0];
    if e.Removed? {
      RemovedViews(w.client, e.id);
      forall id ensures id in LiveIds(w.client) && id in w.inputs ==> id in LiveIds(w'.client) {
        if id in LiveIds(w.client) && id in w.inputs {
          var v :| v in Views(w.client.meters) && !v.removed && v.id == id;
          assert v in Views(w'.client.meters);
        }
      }
      assert LiveIds(w'.client) <= LiveIds(w.client);
    }
  }

  /** Steady actions keep settling going, and keep the agreement once it is reached; the successful
      end of a sweep reaches it. */
  lemma SettlingNext(w: World, a: Action)
    requires Enabled(w, a) && Steady(a) && Settling(w)
    ensures Settling(Next(w, a))
    ensures Agrees(w) || (a.Receive? && w.replies[0] == SweepDone(true)) ==> Agrees(Next(w, a))
    ensures Next(w, a).inputs.Keys == w.inputs.Keys
  {
    match a
    case Serve(_, _, _, _) => SettlingServe(w, a);
    case Notice => SettlingNotice(w, a);
    case Receive(_, _, _) => SettlingReceive(w, a);
    case Ticks(_, _, _, _) => SettlingTick(w, a);
    case _ => SettlingQuiet(w, a);
  }

  lemma SettlingServe(w: World, a: Action)
    requires Enabled(w, a) && a.Serve? && Settling(w)
    ensures Settling(Next(w, a))
    ensures Agrees(w) ==> Agrees(Next(w, a))
  {
    SweepInvNext(w, a);
    CoversServe(w, a);
    NoStaleServe(w, a);
  }

  lemma NoStaleServe(w: World, a: Action)
    requires Enabled(w, a) && a.Serve? && EventsOk(w) && NoStaleReply(w)
    ensures NoStaleReply(Next(w, a))
  {
    var answer := Answer(w, w.requests[0], a.listing, a.outputs, a.found, a.ok);
    assert forall k :: 0 <= k < |answer| && answer[k].InputItem? ==> answer[k].info.index in w.inputs;
  }

  /** Peaks, stream state changes and changes to a sink input touch nothing the sweep looks at. */
  lemma SettlingQuiet(w: World, a: Action)
    requires Enabled(w, a) && (a.Peak? || a.StreamTo? || a.Change?) && Settling(w)
    ensures Settling(Next(w, a))
    ensures Agrees(w) ==> Agrees(Next(w, a))
    ensures Next(w, a).inputs.Keys == w.inputs.Keys
  {
    SweepInvNext(w, a);
    var w' := Next(w, a);
    SameViewsEqual(w.client.meters, w'.client.meters);
    LiveSame(w.client, w'.client);
    assert w'.inputs.Keys == w.inputs.Keys;
    assert Covers(w');
  }

  lemma SettlingTick(w: World, a: Action)
    requires Enabled(w, a) && a.Ticks? && Settling(w)
    ensures Settling(Next(w, a))
    ensures Agrees(w) ==> Agrees(Next(w, a))
  {
    SweepInvNext(w, a);
    var w' := Next(w, a);
    TickLive(w.client, a.now, a.ready, a.sweepSent, a.scanSent);
    TickViews(w.client, a.now, a.ready, a.sweepSent, a.scanSent);
    if w'.client.swept != w.client.swept {
      CountNone(w.replies, IsSweepDone);
      forall k | 0 <= k < |w'.replies| && w'.replies[k] == SweepDone(true) ensures false {
        assert IsSweepDone(w.replies[k]);
      }
    }
  }

  lemma {:induction false} RunSettles(ws: seq<World>, acts: seq<Action>, start: nat, done: nat, k: nat)
    requires IsRun(ws, acts) && Initial(ws[0]) && start < k <= |acts|
    requires StartsSweep(ws[start], acts[start]) && NoStaleReply(ws[start])
    requires forall i :: start <= i < |acts| ==> Steady(acts[i])
    requires start < done < |acts| && acts[done].Receive? && ws[done].replies[0] == SweepDone(true)
    ensures Settling(ws[k]) && ws[k].inputs.Keys == ws[start].inputs.Keys
    ensures done < k ==> Agrees(ws[k])
  {
    if k == start + 1 {
      RunSweepInv(ws, acts, start);
      SweepSettles(ws[start], acts[start]);
    } else {
      RunSettles(ws, acts, start, done, k - 1);
      SettlingNext(ws[k - 1], acts[k - 1]);
    }
  }

  /** Convergence. In every run: once the server's set of sink inputs no longer changes and a sweep
      that starts with no stale reply in flight has completed, the meters not marked removed are
      exactly the server's sink inputs, from then on. */
  lemma Convergence(ws: seq<World>, acts: seq<Action>, start: nat, done: nat)
    requires IsRun(ws, acts) && Initial(ws[0])
    requires start < done < |acts|
    requires StartsSweep(ws[start], acts[start]) && NoStaleReply(ws[start])
    requires forall i :: start <= i < |acts| ==> Steady(acts[i])
    requires acts[done].Receive? && ws[done].replies[0] == SweepDone(true)
    ensures forall k :: done < k <= |acts| ==> LiveIds(ws[k].client) == ws[start].inputs.Keys
  {
    forall k | done < k <= |acts| ensures LiveIds(ws[k].client) == ws[start].inputs.Keys {
      RunSettles(ws, acts, start, done, k);
    }
  }

  // ---- one sweep flushes the stale replies ----

  ghost predicate StaleAt(w: World, k: int) {
    0 <= k < |w.replies| && w.replies[k].InputItem? && w.replies[k].info.index !in w.inputs
  }

  /** Every stale reply is ahead of every sweep's end. */
  ghost predicate StaleAhead(w: World) {
    forall i, k :: 0 <= i < k && StaleAt(w, k) ==> !IsSweepDone(w.replies[i])
  }

  lemma ServesCurrent(w: World, a: Action, k: nat)
    requires Enabled(w, a) && a.Serve? && EventsOk(w) && StaleAt(Next(w, a), k)
    ensures StaleAt(w, k) && forall i :: 0 <= i < k ==> Next(w, a).replies[i] == w.replies[i]
  {
    var answer := Answer(w, w.requests[0], a.listing, a.outputs, a.found, a.ok);
    assert forall j :: 0 <= j < |answer| && answer[j].InputItem? ==> answer[j].info.index in w.inputs;
  }

  /** Replies come and go at the ends of the queue; what else happens leaves them and the set alone. */
  lemma StaleNext(w: World, a: Action)
    requires Enabled(w, a) && Steady(a) && EventsOk(w) && StaleAhead(w)
    ensures StaleAhead(Next(w, a)) && Next(w, a).inputs.Keys == w.inputs.Keys
    ensures NoStaleReply(w) || (a.Receive? && IsSweepDone(w.replies[0])) ==> NoStaleReply(Next(w, a))
  {
    var w' := Next(w, a);
    if a.Serve? {
      forall k: nat | StaleAt(w', k) ensures StaleAt(w, k) && forall i :: 0 <= i < k ==> w'.replies[i] == w.replies[i] {
        ServesCurrent(w, a, k);
      }
    } else if a.Receive? {
      assert w'.replies == w.replies[1..] && w'.inputs == w.inputs;
      forall k: nat | StaleAt(w', k) ensures StaleAt(w, k + 1) { }
    } else {
      assert w'.replies == w.replies && w'.inputs.Keys == w.inputs.Keys;
      forall k: nat | StaleAt(w', k) ensures StaleAt(w, k) { }
    }
    StaleIff(w);
    StaleIff(w');
  }

  lemma StaleIff(w: World)
    ensures NoStaleReply(w) <==> forall k :: !StaleAt(w, k)
  {
    if forall k :: !StaleAt(w, k) {
      forall k | 0 <= k < |w.replies| && w.replies[k].InputItem? ensures w.replies[k].info.index in w.inputs { assert !StaleAt(w, k); }
    }
  }

  /** When a sweep starts none is under way. */
  lemma NoneUnderWay(w: World, a: Action)
    requires SweepInv(w) && StartsSweep(w, a)
    ensures StaleAhead(w)
  {
    CountNone(w.replies, IsSweepDone);
  }

  lemma {:induction false} RunFlushes(ws: seq<World>, acts: seq<Action>, start: nat, done: nat, k: nat)
    requires IsRun(ws, acts) && Initial(ws[0]) && start < done < |acts| && start <= k <= |acts|
    requires StartsSweep(ws[start], acts[start]) && acts[done].Receive? && ws[done].replies[0].SweepDone?
    requires forall i :: start <= i < |acts| ==> Steady(acts[i])
    ensures StaleAhead(ws[k]) && ws[k].inputs.Keys == ws[start].inputs.Keys
    ensures done < k ==> NoStaleReply(ws[k])
  {
    if k == start {
      RunSweepInv(ws, acts, k);
      NoneUnderWay(ws[k], acts[k]);
    } else {
      RunFlushes(ws, acts, start, done, k - 1);
      RunEventsOk(ws, acts, k - 1);
      StaleNext(ws[k - 1], acts[k - 1]);
    }
  }

  lemma RunEventsOk(ws: seq<World>, acts: seq<Action>, k: nat)
    requires IsRun(ws, acts) && Initial(ws[0]) && k <= |acts|
    ensures EventsOk(ws[k])
  {
    RunSweepInv(ws, acts, k);
  }

  /** In every run: once the set of sink inputs no longer changes, one sweep that has ended, well or
      badly, and another that ends well make the live meters the server's sink inputs, from then on.
      Nothing is asked of the replies in flight: the first sweep's end comes behind the stale ones. */
  lemma ConvergenceAfterTwo(ws: seq<World>, acts: seq<Action>, start: nat, done: nat, again: nat, end: nat)
    requires IsRun(ws, acts) && Initial(ws[0])
    requires start < done < again < end < |acts|
    requires StartsSweep(ws[start], acts[start]) && acts[done].Receive? && ws[done].replies[0].SweepDone?
    requires StartsSweep(ws[again], acts[again]) && acts[end].Receive? && ws[end].replies[0] == SweepDone(true)
    requires forall i :: start <= i < |acts| ==> Steady(acts[i])
    ensures forall k :: end < k <= |acts| ==> LiveIds(ws[k].client) == ws[start].inputs.Keys
  {
    RunFlushes(ws, acts, start, done, again);
    Convergence(ws, acts, again, end);
  }

  // ---- why the event stream alone is not enough ----

  /** A live meter whose sink input is gone, with no event left that would remove it. */
  ghost predicate GhostMeter(w: World, id: nat) {
    && EventsOk(w) && id !in w.inputs && id < w.nextIndex && id in LiveIds(w.client)
    && forall k :: 0 <= k < |w.events| ==> w.events[k] != Removed(id)
  }

  lemma GhostNext(w: World, a: Action, id: nat)
    requires Enabled(w, a) && ClientOk(w.client) && GhostMeter(w, id)
    requires a.Receive? ==> !a.oom && w.replies[0] != SweepDone(true)
    ensures GhostMeter(Next(w, a), id)
  {
    EventsNext(w, a);
    var w' := Next(w, a);
    match a
    case Notice =>
      if w.events[0].Removed? {
        RemovedViews(w.client, w.events[0].id);
        var v :| v in Views(w.client.meters) && !v.removed && v.id == id;
        assert v in Views(w'.client.meters);
      }
    case Receive(now, outcome, oom) =>
      match w.replies[0] {
        case InputItem(info) => InputItemLive(w, info, now);
        case SinkItem(sid, sink) =>
          SinkInfoViews(w.client, sid, sink, outcome, now);
          LiveSame(w.client, w'.client);
        case _ => LiveSame(w.client, w'.client);
      }
    case Peak(s, level, now) =>
      SameViewsEqual(w.client.meters, w'.client.meters);
      LiveSame(w.client, w'.client);
    case Ticks(now, ready, sweepSent, scanSent) => TickLive(w.client, now, ready, sweepSent, scanSent);
    case _ => LiveSame(w.client, w'.client);
  }

  /** Without a completed sweep, nothing ever removes such a meter. */
  lemma {:induction false} GhostMeterPersists(ws: seq<World>, acts: seq<Action>, from: nat, id: nat)
    requires IsRun(ws, acts) && Initial(ws[0]) && from <= |acts| && GhostMeter(ws[from], id)
    requires forall k :: from <= k < |acts| && acts[k].Receive? ==> !acts[k].oom && ws[k].replies[0] != SweepDone(true)
    ensures id in LiveIds(ws[|acts|].client) && id !in ws[|acts|].inputs
    decreases |acts| - from
  {
    if from < |acts| {
      RunClientOk(ws, acts, from);
      GhostNext(ws[from], acts[from], id);
      GhostMeterPersists(ws, acts, from + 1, id);
    }
  }

  /** A server without sink inputs. */
  const BARE := World(START, map[], 0, [], [ListInputs(false)], [], 1, {}, [], [], map[])

  const GUEST := Input(0, 3, false, false)

  /** A sink input has come up and the reply to the query about it is in flight. */
  const QUERIED := World(START, map[0 := GUEST], 1, [], [], [InputItem(GUEST)], 1, {}, [], [], map[])

  lemma ReplyInFlight() returns (ws: seq<World>, acts: seq<Action>)
    ensures IsRun(ws, acts) && Initial(ws[0]) && ws[|acts|] == QUERIED
  {
    acts := [Add(GUEST), Notice, Serve([], [], false, false), Serve([], [], false, false)];
    var w1 := Next(BARE, acts[0]);
    var w2 := Next(w1, acts[1]);
    assert w2.requests == [ListInputs(false), QueryInput(0)] && w2.client == START;
    var w3 := Next(w2, acts[2]);
    assert w3.requests == [QueryInput(0)] && w3.replies == [];
    ws := [BARE, w1, w2, w3, Next(w3, acts[3])];
  }

  lemma RunOn(ws: seq<World>, acts: seq<Action>, a: Action)
    requires IsRun(ws, acts) && Enabled(ws[|acts|], a)
    ensures IsRun(ws + [Next(ws[|acts|], a)], acts + [a])
  {
  }

  /** The remove event finds no meter, and the late reply then creates one. */
  lemma LateReply()
    ensures var gone := Next(QUERIED, Remove(0));
            var noticed := Next(gone, Notice);
            && Enabled(noticed, Receive(1, NoObject, false))
            && GhostMeter(Next(noticed, Receive(1, NoObject, false)), 0)
  {
    var noticed := Next(Next(QUERIED, Remove(0)), Notice);
    assert noticed.client == START && noticed.events == [];
    var w := Next(noticed, Receive(1, NoObject, false));
    assert LiveAt(w.client.meters, 0, 0);
    LiveIff(w.client, 0);
  }

  /** Such a meter does come up: the reply to a change query arrives after the remove event. */
  lemma GhostMeterArises() returns (ws: seq<World>, acts: seq<Action>)
    ensures IsRun(ws, acts) && Initial(ws[0]) && GhostMeter(ws[|acts|], 0)
  {
    ws, acts := ReplyInFlight();
    LateReply();
    var steps := [Remove(0), Notice, Receive(1, NoObject, false)];
    for i := 0 to 3
      invariant IsRun(ws, acts) && Initial(ws[0])
      invariant i == 0 ==> ws[|acts|] == QUERIED
      invariant i == 1 ==> ws[|acts|] == Next(QUERIED, Remove(0))
      invariant i == 2 ==> ws[|acts|] == Next(Next(QUERIED, Remove(0)), Notice)
      invariant i == 3 ==> ws[|acts|] == Next(Next(Next(QUERIED, Remove(0)), Notice), Receive(1, NoObject, false))
    {
      RunOn(ws, acts, steps[i]);
      ws, acts := ws + [Next(ws[|acts|], steps[i])], acts + [steps[i]];
    }
  }
}
