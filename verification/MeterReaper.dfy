/** The orphan reaper over whole runs: an index is killed only on the evidence of two scans. */
module MeterReaper {
  import opened MeterModel
  import opened MeterWorld
  import opened MeterSweep

  predicate IsScanRequest(q: Request) { q.ListOutputs? }
  predicate IsScanDone(r: Reply) { r.ScanDone? }

  /** The array holds the first ORPHAN_MAX indices of a listing. */
  function Kept(listed: seq<nat>): (r: seq<nat>) {
    if |listed| <= ORPHAN_MAX then listed else listed[..ORPHAN_MAX]
  }

  /** Scan k kept this index and did not kill it. */
  ghost predicate Spared(log: seq<Scan>, k: int, x: nat) {
    0 <= k < |log| && x in Kept(log[k].listed) && x !in log[k].killed
  }

  /** Scan k killed this index exactly if it kept it and the scan before it spared it. */
  ghost predicate KillRule(log: seq<Scan>, k: int, x: nat)
    requires 0 <= k < |log|
  {
    x in log[k].killed <==> x in Kept(log[k].listed) && Spared(log, k - 1, x)
  }

  ghost predicate LogOk(log: seq<Scan>) {
    && (forall k, x: nat {:trigger KillRule(log, k, x)} :: 0 <= k < |log| ==> KillRule(log, k, x))
    && (forall k, j :: 0 <= j < k < |log| && k == j + 1 ==> log[k].begun - log[j].begun >= SWEEP_MS)
  }

  /** At most one scan is under way, and its items are in flight only ahead of its end. */
  ghost predicate ScanFlight(w: World) {
    && Count(w.requests, IsScanRequest) + Count(w.replies, IsScanDone) == (if w.client.scanning then 1 else 0)
    && ItemsAhead(w.replies)
  }

  ghost predicate ItemsAhead(rs: seq<Reply>) {
    forall k :: 0 <= k < |rs| && rs[k].OutputItem? ==> exists j :: k < j < |rs| && rs[j].ScanDone?
  }

  lemma ItemsAheadAppend(rs: seq<Reply>, more: seq<Reply>)
    requires ItemsAhead(rs)
    requires (forall k :: 0 <= k < |more| ==> !more[k].OutputItem?) || (more != [] && more[|more| - 1].ScanDone?)
    ensures ItemsAhead(rs + more)
  {
    var all := rs + more;
    forall k | 0 <= k < |all| && all[k].OutputItem? ensures exists j :: k < j < |all| && all[j].ScanDone? {
      if k < |rs| {
        var j :| k < j < |rs| && rs[j].ScanDone?;
        assert all[j].ScanDone?;
      } else {
        assert more[k - |rs|].OutputItem?;
        assert all[|all| - 1].ScanDone?;
      }
    }
  }

  /** What the scan's variables hold: the array of the scan under way and that of the last completed one. */
  ghost predicate ArraysOk(c: Client, heard: seq<nat>, log: seq<Scan>) {
    && LogOk(log)
    && |c.before| <= ORPHAN_MAX && |c.found| <= ORPHAN_MAX
    && (forall x :: x in c.before <==> Spared(log, |log| - 1, x))
    && (c.scanning ==> c.found == Kept(heard))
    && (log != [] ==> c.scanned - log[|log| - 1].begun >= if c.scanning then SWEEP_MS else 0)
  }

  ghost predicate ScanInv(w: World) {
    ScanFlight(w) && ArraysOk(w.client, w.heard, w.log)
  }

  lemma SendsNoScan(requests: seq<Request>, sent: seq<Request>)
    requires forall k :: 0 <= k < |sent| ==> !sent[k].ListOutputs?
    ensures Count(requests + sent, IsScanRequest) == Count(requests, IsScanRequest)
  {
    CountAppend(requests, sent, IsScanRequest);
    CountNone(sent, IsScanRequest);
  }

  lemma AnswerScans(w: World, q: Request, listing: seq<nat>, outputs: seq<(nat, bool)>, found: bool, ok: bool)
    requires forall k :: 0 <= k < |listing| ==> listing[k] in w.inputs
    ensures Count(Answer(w, q, listing, outputs, found, ok), IsScanDone) == if q.ListOutputs? then 1 else 0
    ensures ItemsAhead(w.replies) ==> ItemsAhead(w.replies + Answer(w, q, listing, outputs, found, ok))
  {
    var answer := Answer(w, q, listing, outputs, found, ok);
    if q.ListOutputs? {
      CountAppend(answer[..|outputs|], [ScanDone(ok)], IsScanDone);
      CountNone(answer[..|outputs|], IsScanDone);
      assert answer == answer[..|outputs|] + [ScanDone(ok)];
    } else {
      CountNone(answer, IsScanDone);
    }
    if ItemsAhead(w.replies) { ItemsAheadAppend(w.replies, answer); }
  }

  lemma FlightServes(w: World, a: Action)
    requires Enabled(w, a) && a.Serve? && ScanFlight(w)
    ensures ScanFlight(Next(w, a))
  {
    var answer := Answer(w, w.requests[0], a.listing, a.outputs, a.found, a.ok);
    CountAppend(w.replies, answer, IsScanDone);
    AnswerScans(w, w.requests[0], a.listing, a.outputs, a.found, a.ok);
  }

  /** Taking the head off the reply queue keeps the rest in order. */
  lemma FlightTail(w: World, w': World)
    requires w.replies != [] && ScanFlight(w) && w'.replies == w.replies[1..]
    requires Count(w'.requests, IsScanRequest) == Count(w.requests, IsScanRequest)
    requires w'.client.scanning == (w.client.scanning && !w.replies[0].ScanDone?)
    ensures ScanFlight(w')
    ensures w.replies[0].ScanDone? || w.replies[0].OutputItem? ==> w.client.scanning
  {
    CountNone(w.replies, IsScanDone);
    forall k | 0 <= k < |w'.replies| && w'.replies[k].OutputItem?
      ensures exists j :: k < j < |w'.replies| && w'.replies[j].ScanDone?
    {
      var j :| k + 1 < j < |w.replies| && w.replies[j].ScanDone?;
      assert w'.replies[j - 1].ScanDone?;
    }
    if w.replies[0].OutputItem? {
      var j :| 0 < j < |w.replies| && w.replies[j].ScanDone?;
      assert IsScanDone(w.replies[j]);
    }
  }

  lemma KeptGrows(heard: seq<nat>, x: nat)
    ensures Kept(heard + [x]) == if |Kept(heard)| == ORPHAN_MAX then Kept(heard) else Kept(heard) + [x]
  {
  }

  lemma LogGrows(c: Client, heard: seq<nat>, log: seq<Scan>)
    requires ArraysOk(c, heard, log) && c.scanning
    ensures var r := OutputEnd(c, true);
            ArraysOk(r.client, heard, log + [Scan(c.scanned, heard, r.killed)])
  {
    var r := OutputEnd(c, true);
    var grown := log + [Scan(c.scanned, heard, r.killed)];
    forall k, x: nat | 0 <= k < |grown| ensures KillRule(grown, k, x) {
      assert Spared(grown, k - 1, x) <==> Spared(log, k - 1, x);
      if k < |log| {
        assert KillRule(log, k, x);
      }
    }
    forall k, j | 0 <= j < k < |grown| && k == j + 1 ensures grown[k].begun - grown[j].begun >= SWEEP_MS {
      assert grown[j] == log[j];
    }
  }

  lemma ReceiveOutput(w: World, a: Action)
    requires Enabled(w, a) && a.Receive? && ScanInv(w) && (w.replies[0].OutputItem? || w.replies[0].ScanDone?)
    ensures ScanInv(Next(w, a))
  {
    var w' := Next(w, a);
    FlightTail(w, w');
    match w.replies[0]
    case OutputItem(index, mine) => KeptGrows(w.heard, index);
    case ScanDone(ok) => if ok { LogGrows(w.client, w.heard, w.log); }
  }

  lemma ReceiveScan(w: World, a: Action)
    requires Enabled(w, a) && a.Receive? && ScanInv(w)
    ensures ScanInv(Next(w, a))
  {
    var w' := Next(w, a);
    match w.replies[0]
    case InputItem(info) =>
      SendsNoScan(w.requests, InputInfo(w.client, info, a.now, a.oom).sent);
      FlightTail(w, w');
      ArraysSame(w.client, w'.client, w.heard, w.log);
    case SweepDone(ok) =>
      FlightTail(w, w');
      ArraysSame(w.client, w'.client, w.heard, w.log);
    case SinkItem(id, sink) =>
      FlightTail(w, w');
      ArraysSame(w.client, w'.client, w.heard, w.log);
    case _ => ReceiveOutput(w, a);
  }

  lemma ArraysSame(c: Client, d: Client, heard: seq<nat>, log: seq<Scan>)
    requires ArraysOk(c, heard, log)
    requires d.before == c.before && d.found == c.found && d.scanning == c.scanning && d.scanned == c.scanned
    ensures ArraysOk(d, heard, log)
  {
  }

  lemma TickArrays(c: Client, a: Action, heard: seq<nat>, log: seq<Scan>)
    requires a.Ticks? && ArraysOk(c, heard, log)
    ensures var r := Tick(c, a.now, a.ready, a.sweepSent, a.scanSent).client;
            ArraysOk(r, if r.scanned != c.scanned then [] else heard, log)
  {
    var t := TickMeters(c, 0, a.now, a.ready).client;
    var s := StartSweep(t, a.now, a.ready, a.sweepSent).client;
    ArraysSame(c, s, heard, log);
  }

  lemma TickFlight(w: World, now: nat, ready: bool, sweepSent: bool, scanSent: bool)
    requires ScanFlight(w)
    ensures ScanFlight(TickWorld(w, now, ready, sweepSent, scanSent))
  {
    CountAppend(w.requests, Tick(w.client, now, ready, sweepSent, scanSent).sent, IsScanRequest);
    TickSends(w.client, now, ready, sweepSent, scanSent, IsScanRequest);
  }

  lemma ScanInvTick(w: World, a: Action)
    requires Enabled(w, a) && a.Ticks? && ScanInv(w)
    ensures ScanInv(Next(w, a))
  {
    TickFlight(w, a.now, a.ready, a.sweepSent, a.scanSent);
    TickArrays(w.client, a, w.heard, w.log);
  }

  lemma ScanInvNext(w: World, a: Action)
    requires Enabled(w, a) && ScanInv(w)
    ensures ScanInv(Next(w, a))
  {
    match a
    case Serve(_, _, _, _) => FlightServes(w, a);
    case Notice => SendsNoScan(w.requests, Subscribe(w.client, w.events[0]).sent);
    case Receive(_, _, _) => ReceiveScan(w, a);
    case Ticks(_, _, _, _) => ScanInvTick(w, a);
    case _ =>
  }

  lemma {:induction false} RunScanInv(ws: seq<World>, acts: seq<Action>, k: nat)
    requires IsRun(ws, acts) && Initial(ws[0]) && k <= |acts|
    ensures ScanInv(ws[k])
  {
    if k == 0 {
      CountNone(ws[0].requests, IsScanRequest);
    } else {
      RunScanInv(ws, acts, k - 1);
      ScanInvNext(ws[k - 1], acts[k - 1]);
    }
  }

  /** In every run: a completed scan kills an index exactly when it kept it and the completed scan
      before it kept it too and did not kill it, so only on the evidence of two scans begun at least
      SWEEP_MS apart, each of which listed it as this client's with no ready stream accounting for
      it. Both arrays stay within their bound, failed scans included, and no reply of an earlier scan
      is in flight when a scan can start. */
  lemma ReaperKillsTwice(w: World)
    requires Reachable(w)
    ensures forall k, x: nat {:trigger KillRule(w.log, k, x)} :: 0 <= k < |w.log| ==> KillRule(w.log, k, x)
    ensures forall k, j :: 0 <= j < k < |w.log| && k == j + 1 ==> w.log[k].begun - w.log[j].begun >= SWEEP_MS
    ensures |w.client.before| <= ORPHAN_MAX && |w.client.found| <= ORPHAN_MAX
    ensures !w.client.scanning ==>
              forall k :: 0 <= k < |w.replies| ==> !w.replies[k].OutputItem? && !w.replies[k].ScanDone?
  {
    var ws, acts :| IsRun(ws, acts) && Initial(ws[0]) && ws[|acts|] == w;
    RunScanInv(ws, acts, |acts|);
    if !w.client.scanning { QuietWire(w); }
  }

  lemma QuietWire(w: World)
    requires ScanFlight(w) && !w.client.scanning
    ensures forall k :: 0 <= k < |w.replies| ==> !w.replies[k].OutputItem? && !w.replies[k].ScanDone?
  {
    CountNone(w.replies, IsScanDone);
    forall k | 0 <= k < |w.replies| ensures !w.replies[k].OutputItem? && !w.replies[k].ScanDone? {
      assert forall j :: 0 <= j < |w.replies| ==> !IsScanDone(w.replies[j]) && !w.replies[j].ScanDone?;
    }
  }
}
