/** methods/threedb_method.py: the -3 dB method. It locates the
    resonances, scans for the -3 dB points of the series resonance against
    loss_min - 3, and derives R1, Q, L1, C1, C0 and ESR from the -3 dB
    bandwidth and the minimum transmission loss. */
module ThreeDbMethods {
  import opened Wrappers
  import opened Sweeps
  import opened Formulas

  /** db3_point = loss_min - 3. */
  function Threshold(lossMin: real): real { lossMin - 3.0 }

  /** The pair (m, m+1) rises through th: loss[m] <= th and loss[m+1] >= th. */
  predicate Rises(s: Sweep, m: int, th: real)
    requires 0 <= m < |s| - 1
  {
    s[m].loss <= th && s[m + 1].loss >= th
  }

  /** The pair (m, m+1) falls through th: loss[m] >= th and loss[m+1] <= th. */
  predicate Falls(s: Sweep, m: int, th: real)
    requires 0 <= m < |s| - 1
  {
    s[m].loss >= th && s[m + 1].loss <= th
  }

  /** The number of pairs (m, m+1) of the sweep. */
  function PairCount(s: Sweep): nat { if |s| == 0 then 0 else |s| - 1 }

  /** Pairs taken by the lower (first) branch. */
  function LowerFlags(s: Sweep, th: real): (b: seq<bool>)
    ensures |b| == PairCount(s)
  {
    seq(PairCount(s), m requires 0 <= m < PairCount(s) => Rises(s, m, th))
  }

  /** Pairs taken by the upper (elif) branch: only pairs the lower test
      rejected. */
  function UpperFlags(s: Sweep, th: real): (b: seq<bool>)
    ensures |b| == PairCount(s)
  {
    seq(PairCount(s), m requires 0 <= m < PairCount(s) => !Rises(s, m, th) && Falls(s, m, th))
  }

  /** The bandwidth one scan writes, if it writes one: at the first upper
      pair k, frequency[k] minus the lower slot, which holds the frequency of
      the last lower pair before k. None when the scan meets no upper pair
      (the lookup of label m+1 at the last row fails) or meets one while the
      lower slot is still None (the subtraction fails). */
  function BandwidthOf(s: Sweep, th: real): Option<real>
  {
    var k := FirstTrue(UpperFlags(s, th));
    if k == PairCount(s) then None
    else
      match LastTrueBefore(LowerFlags(s, th), k)
      case Some(j) => Some(s[k].freq - s[j].freq)
      case None => None
  }

  /** The scan loop of _analyseData: the for-m loop over the pairs
      (m, m+1), with db3_freq = [None, None]. It returns the bandwidth it
      assigns to self.db3_bandwidth, or None when it assigns none: the
      handler around it ends the loop at the failed lookup of label m+1 on
      the last row, or at the failed None subtraction. */
  method Scan(s: Sweep, th: real) returns (written: Option<real>)
    ensures written == BandwidthOf(s, th)
  {
    ghost var lo, up := LowerFlags(s, th), UpperFlags(s, th);
    var lower: Option<real> := None;
    written := None;
    var m := 0;
    while m < |s|
      invariant m <= PairCount(s)
      invariant forall i :: 0 <= i < m ==> !up[i]
      invariant lower == match LastTrueBefore(lo, m) case Some(j) => Some(s[j].freq) case None => None
      invariant written == None
    {
      if m + 1 == |s| {
        // the lookup of label m + 1 raises; the handler ends the scan
        break;
      }
      if s[m].loss <= th && s[m + 1].loss >= th {
        lower := Some(s[m].freq);
      } else if s[m].loss >= th && s[m + 1].loss <= th {
        assert up[m] && FirstTrue(up) == m;
        if lower.None? {
          // None subtracted from the upper frequency raises
          break;
        }
        written := Some(s[m].freq - lower.value);
        break;
      }
      m := m + 1;
    }
  }

  /** self.db3_bandwidth after a scan: the written value, or the previous
      one when the scan writes none. */
  function NewBandwidth(prev: Option<real>, s: Sweep): Option<real>
    requires |s| > 0
  {
    var w := BandwidthOf(s, Threshold(Locate(s).lossMin));
    if w.Some? then w else prev
  }

  /** A pair level with th on both sides is taken by the lower branch and
      is never the upper crossing. */
  lemma LevelPairIsLower(s: Sweep, m: nat, th: real)
    requires m < |s| - 1
    requires s[m].loss == th && s[m + 1].loss == th
    ensures LowerFlags(s, th)[m] && !UpperFlags(s, th)[m]
  {
  }

  /** The scan stops at the first upper pair k, and the bandwidth it writes
      is frequency[k] - frequency[j] for the last lower pair j before k. */
  lemma {:induction false} ScanBandwidthPairs(s: Sweep, th: real, j: nat, k: nat)
    requires j < k < |s| - 1
    requires Rises(s, j, th) && Falls(s, k, th) && !Rises(s, k, th)
    requires forall i :: j < i < k ==> !Rises(s, i, th)
    requires forall i :: 0 <= i < k ==> !(Falls(s, i, th) && !Rises(s, i, th))
    ensures BandwidthOf(s, th) == Some(s[k].freq - s[j].freq)
  {
    var up := UpperFlags(s, th);
    var lo := LowerFlags(s, th);
    assert up[k];
    assert forall i :: 0 <= i < k ==> !up[i];
    assert FirstTrue(up) == k;
    assert lo[j];
    assert forall i :: j < i < k ==> !lo[i];
    assert LastTrueBefore(lo, k) == Some(j);
  }

  /** The lower pair recorded lies below the upper one, so on a strictly
      increasing sweep a written bandwidth is positive. */
  lemma {:induction false} ScanBandwidthPositive(s: Sweep, th: real)
    requires StrictlyIncreasing(s)
    requires BandwidthOf(s, th).Some?
    ensures BandwidthOf(s, th).value > 0.0
  {
    var k := FirstTrue(UpperFlags(s, th));
    var j := LastTrueBefore(LowerFlags(s, th), k).value;
    assert j < k < |s|;
  }

  /** The scan writes no bandwidth, so the previous one stays, exactly
      when the sweep has no upper pair or no lower pair before its first
      upper pair. */
  lemma {:induction false} ScanKeepsBandwidth(s: Sweep, th: real)
    ensures BandwidthOf(s, th) == None <==>
      (FirstTrue(UpperFlags(s, th)) < PairCount(s) ==>
        forall j :: 0 <= j < FirstTrue(UpperFlags(s, th)) ==> !Rises(s, j, th))
  {
    var up, lo := UpperFlags(s, th), LowerFlags(s, th);
    var k := FirstTrue(up);
    if k < PairCount(s) {
      assert up[k];
      match LastTrueBefore(lo, k)
      case Some(j) =>
        assert lo[j] && Rises(s, j, th);
      case None =>
        assert BandwidthOf(s, th) == None;
        forall j | 0 <= j < k
          ensures !Rises(s, j, th)
        {
          assert !lo[j];
        }
    }
  }

  /** The divisions of the formulas have nonzero divisors once a bandwidth
      is there (Rl != 0 makes reff != 0). */
  predicate Computable(rl: real, res: Resonance, bw: Option<real>) {
    bw.Some? ==> rl != 0.0 && res.fs != 0.0 && bw.value != 0.0 && DistinctSquares(res.fs, res.fp)
  }

  /** _calcR, _calcQ, _calcL1, _calcC1 and _calcC0 in that order, on the
      bandwidth bw. */
  function Model(rl: real, res: Resonance, bw: real): Circuit
    requires rl != 0.0 && res.fs != 0.0 && bw != 0.0 && DistinctSquares(res.fs, res.fp)
  {
    AbsLossResistance(rl, res.lossMin);
    var r1 := MotionalResistance(rl, Abs(res.lossMin));
    var reff := EffectiveResistance(rl, r1);
    var q := BandwidthQuality(res.fs, bw);
    BandwidthL1(bw, res.fs, reff);
    var l1 := QualityL1(q, reff, res.fs);
    var c1 := ResonantPartner(res.fs, l1);
    Circuit(r1, reff, c1, l1, q, StaticC0(c1, res.fs, res.fp))
  }

  /** The -3 dB inductance is reff/(2*pi*bw), L1 and C1 resonate at fs, and
      Q turns L1 back into Q through 2*pi*fs*L1/reff. */
  lemma {:induction false} ModelResonates(rl: real, res: Resonance, bw: real)
    requires rl != 0.0 && res.fs != 0.0 && bw != 0.0 && DistinctSquares(res.fs, res.fp)
    ensures Model(rl, res, bw).l1 == PhaseL1(Model(rl, res, bw).reff, bw)
    ensures Model(rl, res, bw).l1 * Model(rl, res, bw).c1 * (4.0 * Pi * Pi * res.fs * res.fs) == 1.0
    ensures Quality(res.fs, Model(rl, res, bw).l1, Model(rl, res, bw).reff) == Model(rl, res, bw).q
  {
    AbsLossResistance(rl, res.lossMin);
    var m := Model(rl, res, bw);
    BandwidthL1(bw, res.fs, m.reff);
    ResonantPair(res.fs, m.l1);
    QualityInverse(m.q, m.reff, res.fs);
  }

  class ThreedbMethod {
    var data: Sweep
    var rl: real
    var c0: real
    var r1: Option<real>
    var c1: Option<real>
    var l1: Option<real>
    var q: Option<real>
    var fs: Option<real>
    var fp: Option<real>
    var esr: Option<real>
    var cl: Option<real>
    var reff: Option<real>
    var lossMin: Option<real>
    var db3Bandwidth: Option<real>

    /** The located resonance fields, as functions of the sweep. */
    ghost predicate Located()
      reads this`data, this`lossMin, this`fs, this`fp
      requires |data| > 0
    {
      var res := Locate(data);
      lossMin == Some(res.lossMin) && fs == Some(res.fs) && fp == Some(res.fp)
    }

    /** The derived fields hold the circuit m, and ESR is derived from it at
      the load capacitance cl. */
    ghost predicate Holds(m: Circuit, cl: real)
      reads this`r1, this`reff, this`q, this`l1, this`c1, this`c0, this`esr
    {
      && r1 == Some(m.r1) && reff == Some(m.reff) && q == Some(m.q) && l1 == Some(m.l1)
      && c1 == Some(m.c1) && c0 == m.c0 && esr == Some(Esr(m.r1, m.c0, cl))
    }

    /** A fresh object: no data, Rl = 12.5, C0 = 0.0, every other value None. */
    constructor ()
      ensures data == [] && rl == 12.5 && c0 == 0.0
      ensures r1 == c1 == l1 == q == fs == fp == esr == cl == reff == lossMin == db3Bandwidth == None
    {
      data := [];
      rl := 12.5;
      c0 := 0.0;
      r1, c1, l1, q, fs, fp, esr := None, None, None, None, None, None, None;
      cl, reff, lossMin, db3Bandwidth := None, None, None, None;
    }

    method UpdateData(d: Sweep)
      modifies this`data
      ensures data == d
    {
      data := d;
    }

    /** _analyseData. max() of an empty loss column raises before any field
      is written; otherwise the resonance fields are written and the scan
      runs under a handler that ends it on any failure. */
    method AnalyseData() returns (c: Completion)
      modifies this`lossMin, this`fs, this`fp, this`db3Bandwidth
      ensures c == Raised <==> |data| == 0
      ensures c == Raised ==> unchanged(this)
      ensures c == Completed ==> Located() && db3Bandwidth == NewBandwidth(old(db3Bandwidth), data)
    {
      if |data| == 0 {
        return Raised;
      }
      lossMin := Some(data[ArgMaxLoss(data)].loss);
      fs := Some(data[ArgMaxLoss(data)].freq);
      fp := Some(data[ArgMinLoss(data)].freq);
      var th := lossMin.value - 3.0;
      assert th == Threshold(Locate(data).lossMin);
      var written := Scan(data, th);
      if written.Some? {
        db3Bandwidth := written;
      }
      c := Completed;
    }

    method CalcR()
      requires lossMin.Some?
      modifies this`r1, this`reff
      ensures r1 == Some(MotionalResistance(rl, Abs(lossMin.value)))
      ensures reff == Some(EffectiveResistance(rl, r1.value))
    {
      r1 := Some(MotionalResistance(rl, Abs(lossMin.value)));
      reff := Some(EffectiveResistance(rl, r1.value));
    }

    /** _calcQ. Dividing by a db3_bandwidth that is still None raises. */
    method CalcQ() returns (c: Completion)
      requires fs.Some?
      requires db3Bandwidth.Some? ==> db3Bandwidth.value != 0.0
      modifies this`q
      ensures c == Raised <==> db3Bandwidth.None?
      ensures c == Raised ==> q == old(q)
      ensures c == Completed ==> q == Some(BandwidthQuality(fs.value, db3Bandwidth.value))
    {
      if db3Bandwidth.None? {
        return Raised;
      }
      q := Some(BandwidthQuality(fs.value, db3Bandwidth.value));
      c := Completed;
    }

    method CalcL1()
      requires q.Some? && reff.Some? && fs.Some? && fs.value != 0.0
      modifies this`l1
      ensures l1 == Some(QualityL1(q.value, reff.value, fs.value))
    {
      l1 := Some(QualityL1(q.value, reff.value, fs.value));
    }

    method CalcC1()
      requires fs.Some? && l1.Some? && fs.value != 0.0 && l1.value != 0.0
      modifies this`c1
      ensures c1 == Some(ResonantPartner(fs.value, l1.value))
    {
      c1 := Some(ResonantPartner(fs.value, l1.value));
    }

    method CalcC0()
      requires c1.Some? && fs.Some? && fp.Some? && DistinctSquares(fs.value, fp.value)
      modifies this`c0
      ensures c0 == StaticC0(c1.value, fs.value, fp.value)
    {
      c0 := StaticC0(c1.value, fs.value, fp.value);
    }

    method CalcEsr()
      requires r1.Some? && cl.Some?
      modifies this`esr
      ensures esr == Some(Esr(r1.value, c0, cl.value))
    {
      if cl.value == 0.0 {
        esr := Some(-1.0);
      } else {
        var k := 1.0 + c0 / cl.value;
        assert Esr(r1.value, c0, cl.value) == r1.value * Square(k);
        esr := Some(r1.value * Square(k));
      }
    }

    /** The steps of calcParameters after the analysis: _calcR, _calcQ,
      _calcL1, _calcC1, _calcC0 and _calcESR, on the analysed fields.
      _calcQ raises when no bandwidth has been written, after R1 and reff. */
    method Derive() returns (status: CalcStatus)
      requires lossMin.Some? && fs.Some? && fp.Some? && cl.Some?
      requires Computable(rl, Resonance(lossMin.value, fs.value, fp.value), db3Bandwidth)
      modifies this`r1, this`reff, this`q, this`l1, this`c1, this`c0, this`esr
      ensures var r := MotionalResistance(rl, Abs(lossMin.value));
        r1 == Some(r) && reff == Some(EffectiveResistance(rl, r))
      ensures db3Bandwidth.None? ==>
        status == ReturnedError(CalcError) && unchanged(this`q, this`l1, this`c1, this`c0, this`esr)
      ensures db3Bandwidth.Some? ==> (status == ReturnedZero
        && Holds(Model(rl, Resonance(lossMin.value, fs.value, fp.value), db3Bandwidth.value), cl.value))
    {
      CalcR();
      var c := CalcQ();
      if c == Raised {
        return ReturnedError(CalcError);
      }
      AbsLossResistance(rl, lossMin.value);
      BandwidthL1(db3Bandwidth.value, fs.value, reff.value);
      CalcL1();
      CalcC1();
      CalcC0();
      CalcEsr();
      status := ReturnedZero;
    }

    /** calcParameters(r_setup, cl): sets Rl and Cl = cl*1e-12, then
      analyse, R, Q, L1, C1, C0, ESR; any exception becomes the error
      string. An empty sweep fails in the analysis, a bandwidth that no scan
      has written fails in _calcQ, after R1 and reff are written. */
    method CalcParameters(rSetup: real, clPf: real) returns (status: CalcStatus)
      requires |data| > 0 ==> Computable(rSetup, Locate(data), NewBandwidth(db3Bandwidth, data))
      modifies this`rl, this`cl, this`lossMin, this`fs, this`fp, this`db3Bandwidth
      modifies this`r1, this`reff, this`q, this`l1, this`c1, this`c0, this`esr
      ensures rl == rSetup && cl == Some(clPf * 0.000000000001)
      ensures |data| == 0 ==> (status == ReturnedError(CalcError)
        && c0 == old(c0) && r1 == old(r1) && c1 == old(c1) && l1 == old(l1) && q == old(q)
        && fs == old(fs) && fp == old(fp) && esr == old(esr) && reff == old(reff)
        && lossMin == old(lossMin) && db3Bandwidth == old(db3Bandwidth))
      ensures |data| > 0 ==>
        var res := Locate(data);
        lossMin == Some(res.lossMin) && fs == Some(res.fs) && fp == Some(res.fp)
        && db3Bandwidth == NewBandwidth(old(db3Bandwidth), data)
      ensures |data| > 0 ==>
        var r := MotionalResistance(rl, Abs(lossMin.value));
        r1 == Some(r) && reff == Some(EffectiveResistance(rl, r))
      ensures |data| > 0 && db3Bandwidth.None? ==> (status == ReturnedError(CalcError)
        && c0 == old(c0) && c1 == old(c1) && l1 == old(l1) && q == old(q) && esr == old(esr))
      ensures |data| > 0 && db3Bandwidth.Some? ==> (status == ReturnedZero
        && Holds(Model(rl, Resonance(lossMin.value, fs.value, fp.value), db3Bandwidth.value), cl.value))
    {
      rl := rSetup;
      cl := Some(clPf * 0.000000000001);
      var c := AnalyseData();
      if c == Raised {
        return ReturnedError(CalcError);
      }
      assert Locate(data) == Resonance(lossMin.value, fs.value, fp.value);
      status := Derive();
    }

    /** (C0, C1, L1, R1, Q, fs, fp, ESR). */
    method GetResults() returns (r: (real, Option<real>, Option<real>, Option<real>, Option<real>, Option<real>, Option<real>, Option<real>))
      ensures r == (c0, c1, l1, r1, q, fs, fp, esr)
    {
      r := (c0, c1, l1, r1, q, fs, fp, esr);
    }
  }
}
