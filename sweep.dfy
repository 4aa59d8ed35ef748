/** The measured sweep and the searches over it that every extraction
    method shares: the resonance locator (pandas idxmax / idxmin), the
    nearest-row selections (argsort of a distance) and first / last index
    searches used by the crossing scans. */
module Sweeps {
  import opened Wrappers
  import opened Formulas

  /** One measured point: Frequency(Hz), Transmission Loss(dB), Phase(deg).
      The loss column is stored with the sign that makes the series
      resonance its MAXIMUM. */
  datatype Row = Row(freq: real, loss: real, phase: real)

  /** A sweep as a 0-based table: row i has pandas label i. */
  type Sweep = seq<Row>

  /** Average of two samples, as (a + b) / 2. */
  function Mid(a: real, b: real): real { (a + b) / 2.0 }

  /** max(freq) - min(freq) of a two-slot list. */
  function Spread(a: real, b: real): (d: real)
    ensures d >= 0.0
    ensures d == Abs(a - b)
    ensures d == 0.0 <==> a == b
  {
    (if a >= b then a else b) - (if a <= b then a else b)
  }

  ghost predicate StrictlyIncreasing(s: Sweep) {
    forall i, j :: 0 <= i < j < |s| ==> s[i].freq < s[j].freq
  }

  /** The first index whose loss is the largest (pandas idxmax). */
  function ArgMaxLoss(s: Sweep): (k: nat)
    requires |s| > 0
    ensures k < |s|
    ensures forall j :: 0 <= j < |s| ==> s[j].loss <= s[k].loss
    ensures forall j :: 0 <= j < k ==> s[j].loss < s[k].loss
    decreases |s|
  {
    if |s| == 1 then 0
    else
      var k := ArgMaxLoss(s[..|s| - 1]);
      if s[|s| - 1].loss > s[k].loss then |s| - 1 else k
  }

  /** The first index whose loss is the smallest (pandas idxmin). */
  function ArgMinLoss(s: Sweep): (k: nat)
    requires |s| > 0
    ensures k < |s|
    ensures forall j :: 0 <= j < |s| ==> s[k].loss <= s[j].loss
    ensures forall j :: 0 <= j < k ==> s[k].loss < s[j].loss
    decreases |s|
  {
    if |s| == 1 then 0
    else
      var k := ArgMinLoss(s[..|s| - 1]);
      if s[|s| - 1].loss < s[k].loss then |s| - 1 else k
  }

  /** The point of a sweep that the locator derives. */
  datatype Resonance = Resonance(lossMin: real, fs: real, fp: real)

  /** loss_min = max(loss), fs = frequency at idxmax(loss),
      fp = frequency at idxmin(loss). */
  function Locate(s: Sweep): Resonance
    requires |s| > 0
  {
    Resonance(s[ArgMaxLoss(s)].loss, s[ArgMaxLoss(s)].freq, s[ArgMinLoss(s)].freq)
  }

  /** A sweep with a single largest loss at row i has its series resonance
      at that row's frequency. */
  lemma SingleMaximumIsSeriesResonance(s: Sweep, i: nat)
    requires i < |s|
    requires forall j :: 0 <= j < |s| && j != i ==> s[j].loss < s[i].loss
    ensures ArgMaxLoss(s) == i
    ensures Locate(s).fs == s[i].freq && Locate(s).lossMin == s[i].loss
  {
  }

  /** The largest frequency of the sweep, max(Frequency(Hz)). */
  function MaxFreq(s: Sweep): (f: real)
    requires |s| > 0
    ensures forall j :: 0 <= j < |s| ==> s[j].freq <= f
    ensures exists j :: 0 <= j < |s| && s[j].freq == f
    decreases |s|
  {
    if |s| == 1 then s[0].freq
    else
      var f := MaxFreq(s[..|s| - 1]);
      if s[|s| - 1].freq > f then s[|s| - 1].freq else f
  }

  /** Distance of a row's phase from a target angle, |phase - target|. */
  function PhaseDistance(r: Row, target: real): real { Abs(r.phase - target) }

  /** Row k is a row whose phase is closest to the target. */
  ghost predicate IsNearest(s: Sweep, target: real, k: int) {
    0 <= k < |s| && forall j :: 0 <= j < |s| ==>
      PhaseDistance(s[k], target) <= PhaseDistance(s[j], target)
  }

  /** One row whose phase is closest to the target: the first of
      argsort(|phase - target|). Among equally close rows this picks the
      lowest index. */
  function Nearest(s: Sweep, target: real): (k: nat)
    requires |s| > 0
    ensures IsNearest(s, target, k)
    decreases |s|
  {
    if |s| == 1 then 0
    else
      var k := Nearest(s[..|s| - 1], target);
      if PhaseDistance(s[|s| - 1], target) < PhaseDistance(s[k], target) then |s| - 1 else k
  }

  /** Rows a and b are two different rows and no other row is closer to
      the target than either of them: the first two of
      argsort(|phase - target|), in order. */
  ghost predicate IsNearestPair(s: Sweep, target: real, a: int, b: int) {
    0 <= a < |s| && 0 <= b < |s| && a != b &&
    PhaseDistance(s[a], target) <= PhaseDistance(s[b], target) &&
    forall j :: 0 <= j < |s| && j != a && j != b ==>
      PhaseDistance(s[b], target) <= PhaseDistance(s[j], target)
  }

  /** The two rows whose phase is closest to the target (argsort()[0:2]),
      ties broken by lowest index: two different rows of the sweep, and
      NearestTwoIsNearestPair shows that no other row is closer. */
  function NearestTwo(s: Sweep, target: real): (p: (nat, nat))
    requires |s| >= 2
    ensures p.0 < |s| && p.1 < |s| && p.0 != p.1
    decreases |s|
  {
    if |s| == 2 then
      if PhaseDistance(s[1], target) < PhaseDistance(s[0], target) then (1, 0) else (0, 1)
    else
      var p := NearestTwo(s[..|s| - 1], target);
      var n := |s| - 1;
      var d := PhaseDistance(s[n], target);
      if d < PhaseDistance(s[p.0], target) then (n, p.0)
      else if d < PhaseDistance(s[p.1], target) then (p.0, n)
      else p
  }

  /** NearestTwo selects a nearest pair: the first row is at least as close
      as the second, and no third row is closer than the second. */
  lemma {:induction false} NearestTwoIsNearestPair(s: Sweep, target: real)
    requires |s| >= 2
    ensures IsNearestPair(s, target, NearestTwo(s, target).0, NearestTwo(s, target).1)
    decreases |s|
  {
    if |s| > 2 {
      var t := s[..|s| - 1];
      NearestTwoIsNearestPair(t, target);
      var p := NearestTwo(t, target);
      assert forall j :: 0 <= j < |t| ==> t[j] == s[j];
    }
  }

  /** The first index whose flag is set, or |b| when none is. */
  function FirstTrue(b: seq<bool>): (k: nat)
    ensures k <= |b|
    ensures k < |b| ==> b[k]
    ensures forall i :: 0 <= i < k ==> !b[i]
  {
    if |b| == 0 then 0
    else if b[0] then 0
    else 1 + FirstTrue(b[1..])
  }

  /** The last index below k whose flag is set, if any: the slot that a
      scan overwriting on every set flag holds when it reaches k. */
  function LastTrueBefore(b: seq<bool>, k: nat): (r: Option<nat>)
    requires k <= |b|
    ensures r.Some? ==> r.value < k && b[r.value]
    ensures r.Some? ==> forall i :: r.value < i < k ==> !b[i]
    ensures r.None? ==> forall i :: 0 <= i < k ==> !b[i]
    decreases k
  {
    if k == 0 then None
    else if b[k - 1] then Some(k - 1)
    else LastTrueBefore(b, k - 1)
  }
}
