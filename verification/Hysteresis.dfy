/** The activity hysteresis of one meter: a meter turns active after it has sounded at the
    enter level for ATTACK_MS and inactive after it has been silent for RELEASE_MS.
    Time is in milliseconds; a candidate start of 0 means "no candidate". */
module Hysteresis {

  const ATTACK_MS := 250
  const RELEASE_MS := 1200

  datatype Hyst = Hyst(active: bool, candidate: nat, audible: nat)

  const IDLE := Hyst(false, 0, 0)

  /** What one tick reads: its time and whether the peak reaches the enter and the hold level
      on a meter that is neither muted nor corked and was sampled recently. */
  datatype Sample = Sample(at: nat, enter: bool, hold: bool)

  predicate Sounds(h: Hyst, s: Sample) {
    if h.active then s.hold else s.enter
  }

  function Step(h: Hyst, s: Sample): (r: Hyst) {
    if Sounds(h, s) then
      var start := if h.candidate == 0 then s.at else h.candidate;
      Hyst(h.active || s.at - start >= ATTACK_MS, start, s.at)
    else
      Hyst(h.active && s.at - h.audible < RELEASE_MS, 0, h.audible)
  }

  function Run(ticks: seq<Sample>): (h: Hyst)
  {
    if ticks == [] then IDLE else Step(Run(ticks[..|ticks| - 1]), ticks[|ticks| - 1])
  }

  /** The state a run is in just before its tick k. */
  function Before(ticks: seq<Sample>, k: nat): Hyst
    requires k <= |ticks|
  {
    Run(ticks[..k])
  }

  lemma BeforeStep(ticks: seq<Sample>, k: nat)
    requires k < |ticks|
    ensures Before(ticks, k + 1) == Step(Before(ticks, k), ticks[k])
  {
    assert ticks[..k + 1][..k] == ticks[..k];
  }

  /** A positive, nondecreasing clock; the enter level lies above the hold level. */
  ghost predicate Trace(ticks: seq<Sample>) {
    && (forall k :: 0 <= k < |ticks| ==> ticks[k].at > 0 && (ticks[k].enter ==> ticks[k].hold))
    && (forall j, k :: 0 <= j <= k < |ticks| ==> ticks[j].at <= ticks[k].at)
  }

  predicate SoundsAt(ticks: seq<Sample>, k: nat)
    requires k < |ticks|
  {
    Sounds(Before(ticks, k), ticks[k])
  }

  ghost predicate AllSound(ticks: seq<Sample>, j: nat, k: nat) {
    j <= k <= |ticks| && forall i :: j <= i < k ==> SoundsAt(ticks, i)
  }

  ghost predicate NoneSound(ticks: seq<Sample>, j: nat, k: nat) {
    j <= k <= |ticks| && forall i :: j <= i < k ==> !SoundsAt(ticks, i)
  }

  /** A running candidate marks the first tick of the current unbroken stretch of sound. */
  lemma {:induction false} CandidateStart(ticks: seq<Sample>, k: nat) returns (j: nat)
    requires Trace(ticks) && k <= |ticks|
    ensures j <= k && AllSound(ticks, j, k)
    ensures j == k <==> Before(ticks, k).candidate == 0
    ensures j < k ==> Before(ticks, k).candidate == ticks[j].at
    ensures 0 < j ==> !SoundsAt(ticks, j - 1)
  {
    if k == 0 {
      j := 0;
    } else {
      BeforeStep(ticks, k - 1);
      if SoundsAt(ticks, k - 1) {
        j := CandidateStart(ticks, k - 1);
      } else {
        j := k;
      }
    }
  }

  /** While active, `audible` is the time of the last sounding tick, and activity has lasted since. */
  lemma {:induction false} LastSounding(ticks: seq<Sample>, k: nat) returns (j: nat)
    requires Trace(ticks) && k <= |ticks| && Before(ticks, k).active
    ensures j < k && SoundsAt(ticks, j) && NoneSound(ticks, j + 1, k)
    ensures Before(ticks, k).audible == ticks[j].at
    ensures forall i :: j < i <= k ==> Before(ticks, i).active
  {
    assert k > 0;
    BeforeStep(ticks, k - 1);
    if SoundsAt(ticks, k - 1) {
      j := k - 1;
    } else {
      j := LastSounding(ticks, k - 1);
    }
  }

  /** Activity never ends during an unbroken stretch of sound. */
  lemma {:induction false} SoundKeepsActive(ticks: seq<Sample>, i: nat, k: nat)
    requires i <= k && AllSound(ticks, i, k) && Before(ticks, i).active
    ensures Before(ticks, k).active
  {
    if i < k {
      SoundKeepsActive(ticks, i, k - 1);
      BeforeStep(ticks, k - 1);
      assert SoundsAt(ticks, k - 1);
    }
  }

  ghost predicate TurnsOn(ticks: seq<Sample>, k: nat) {
    k < |ticks| && !Before(ticks, k).active && Before(ticks, k + 1).active
  }

  ghost predicate TurnsOff(ticks: seq<Sample>, k: nat) {
    k < |ticks| && Before(ticks, k).active && !Before(ticks, k + 1).active
  }

  /** Every tick from j to k found the meter inactive and at the enter level. */
  ghost predicate EnterStretch(ticks: seq<Sample>, j: nat, k: nat) {
    j <= k < |ticks| && forall i :: j <= i <= k ==> ticks[i].enter && !Before(ticks, i).active
  }

  /** Tick j sounded, and every later tick up to k found the meter active and below the hold level. */
  ghost predicate SilentStretch(ticks: seq<Sample>, j: nat, k: nat) {
    && j < k < |ticks| && SoundsAt(ticks, j)
    && forall i :: j < i <= k ==> !ticks[i].hold && Before(ticks, i).active
  }

  /** A meter turns active at tick k exactly when every tick across at least the last ATTACK_MS
      found it inactive and sounding at the enter level. */
  lemma TurnsOnIff(ticks: seq<Sample>, k: nat)
    requires Trace(ticks) && k < |ticks|
    ensures TurnsOn(ticks, k) <==>
            exists j: nat :: EnterStretch(ticks, j, k) && ticks[k].at - ticks[j].at >= ATTACK_MS
  {
    BeforeStep(ticks, k);
    if TurnsOn(ticks, k) {
      var j := CandidateStart(ticks, k);
      forall i | j <= i <= k ensures ticks[i].enter && !Before(ticks, i).active {
        if Before(ticks, i).active {
          SoundKeepsActive(ticks, i, k);
        }
        assert SoundsAt(ticks, i);
      }
      assert EnterStretch(ticks, j, k);
    }
    if j: nat :| EnterStretch(ticks, j, k) && ticks[k].at - ticks[j].at >= ATTACK_MS {
      var start := CandidateStart(ticks, k + 1);
      assert forall i :: j <= i <= k ==> SoundsAt(ticks, i);
      assert start == 0 || !SoundsAt(ticks, start - 1);
    }
  }

  /** A meter turns inactive at tick k exactly when it has been active and below the hold level
      at every tick for at least RELEASE_MS after the last sounding one. */
  lemma TurnsOffIff(ticks: seq<Sample>, k: nat)
    requires Trace(ticks) && k < |ticks|
    ensures TurnsOff(ticks, k) <==>
            exists j: nat :: SilentStretch(ticks, j, k) && ticks[k].at - ticks[j].at >= RELEASE_MS
  {
    BeforeStep(ticks, k);
    if Before(ticks, k).active {
      var last := LastSounding(ticks, k);
      if !SoundsAt(ticks, k) {
        forall i | last < i <= k ensures !ticks[i].hold && Before(ticks, i).active {
          assert !SoundsAt(ticks, i);
        }
        assert SilentStretch(ticks, last, k);
      }
      forall j: nat | SilentStretch(ticks, j, k) ensures j == last && !SoundsAt(ticks, k) {
        assert forall i :: j < i <= k ==> !SoundsAt(ticks, i);
        assert Before(ticks, k).active;
      }
    }
  }

  /** Every on-period lasts at least RELEASE_MS. */
  lemma OnPeriod(ticks: seq<Sample>, on: nat, off: nat)
    requires Trace(ticks) && TurnsOn(ticks, on) && TurnsOff(ticks, off) && on < off
    ensures ticks[off].at - ticks[on].at >= RELEASE_MS
  {
    TurnsOffIff(ticks, off);
    var j: nat :| SilentStretch(ticks, j, off) && ticks[off].at - ticks[j].at >= RELEASE_MS;
    assert on <= j;
  }

  /** A meter that went off comes back on no sooner than ATTACK_MS later. */
  lemma OffPeriod(ticks: seq<Sample>, off: nat, on: nat)
    requires Trace(ticks) && TurnsOff(ticks, off) && TurnsOn(ticks, on) && off < on
    ensures ticks[on].at - ticks[off].at >= ATTACK_MS
  {
    TurnsOnIff(ticks, on);
    var j: nat :| EnterStretch(ticks, j, on) && ticks[on].at - ticks[j].at >= ATTACK_MS;
    assert off < j;
  }
}
