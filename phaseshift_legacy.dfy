/** phaseshift.py: the older phase-shift class. Its analysis and formulas
    are those of methods/phaseshift_method.py, except that nothing catches
    an exception (a failed lookup in the 45-degree scan propagates), Q
    divides by R1 instead of reff, and the results include fres. */
module PhaseShiftLegacy {
  import opened Wrappers
  import opened Sweeps
  import opened Formulas
  import PhaseCrossing

  /** The divisions of the formulas have nonzero divisors: fs, the 45-degree
      bandwidth, R1 (nonzero exactly when loss_min is, for Rl != 0), reff
      (nonzero for Rl != 0) and fp**2 - fs**2. */
  predicate Computable(rl: real, res: Resonance, bw: real) {
    rl != 0.0 && res.fs != 0.0 && bw != 0.0 && res.lossMin != 0.0 && DistinctSquares(res.fs, res.fp)
  }

  /** What calcParameters needs once the analysis completed with deltaF
      w: fs and reff (Rl != 0) nonzero for the numpy division of calcC1,
      and, when w is a numpy float, the divisors of Computable. An int 0
      deltaF needs no more: the L1 line raises on it. */
  predicate Admissible(rl: real, res: Resonance, w: PhaseCrossing.Width) {
    rl != 0.0 && res.fs != 0.0 && (w.Float? ==> Computable(rl, res, w.value))
  }

  /** calcR1, calcC1 and the L1, Q and C0 lines of calcParameters. */
  function Model(rl: real, res: Resonance, bw: real): Circuit
    requires Computable(rl, res, bw)
  {
    AbsLossResistance(rl, res.lossMin);
    var r1 := MotionalResistance(rl, Abs(res.lossMin));
    var reff := EffectiveResistance(rl, r1);
    var c1 := PhaseC1(bw, res.fs, reff);
    var l1 := PhaseL1(reff, bw);
    Circuit(r1, reff, c1, l1, Quality(res.fs, l1, r1), StaticC0(c1, res.fs, res.fp))
  }

  /** L1 and C1 resonate at fs, and Q*R1 == 2*pi*fs*L1. */
  lemma {:induction false} ModelResonates(rl: real, res: Resonance, bw: real)
    requires Computable(rl, res, bw)
    ensures Model(rl, res, bw).l1 * Model(rl, res, bw).c1 * (4.0 * Pi * Pi * res.fs * res.fs) == 1.0
    ensures Model(rl, res, bw).q * Model(rl, res, bw).r1 == 2.0 * Pi * res.fs * Model(rl, res, bw).l1
  {
    AbsLossResistance(rl, res.lossMin);
    var m := Model(rl, res, bw);
    PhaseResonance(bw, res.fs, m.reff);
  }

  /** Dividing by R1 instead of reff: for Rl > 0 and positive fs and
      bandwidth, Q == fs*reff/(deltaF*R1), which exceeds the fs/deltaF of
      the methods version because reff > R1. */
  lemma {:induction false} QualityExceedsBandwidthRatio(rl: real, res: Resonance, bw: real)
    requires Computable(rl, res, bw)
    requires rl > 0.0 && res.fs > 0.0 && bw > 0.0
    ensures Model(rl, res, bw).q == res.fs * Model(rl, res, bw).reff / (bw * Model(rl, res, bw).r1)
    ensures Model(rl, res, bw).q > res.fs / bw
  {
    AbsLossResistance(rl, res.lossMin);
    var m := Model(rl, res, bw);
    assert m.l1 == m.reff / (2.0 * Pi * bw);
    assert m.q == 2.0 * Pi * res.fs * m.l1 / m.r1;
    ResistanceQuality(res.fs, bw, m.reff, m.r1);
  }

  class PhaseShiftMethod {
    var data: Sweep
    var rl: real
    var c0: real
    var r1: Option<real>
    var c1: Option<real>
    var l1: Option<real>
    var q: Option<real>
    var fs: Option<real>
    var fp: Option<real>
    var reff: Option<real>
    var lossMin: Option<real>
    var deltaF: Option<PhaseCrossing.Width>
    var freqPhase0: Option<real>
    var lossPhase0: Option<real>
    var fres: Option<real>

    /** An object over a loaded sweep: Rl = 12.5, C0 = 0.0, every other value
      None. */
    constructor (d: Sweep)
      ensures data == d && rl == 12.5 && c0 == 0.0
      ensures r1 == c1 == l1 == q == fs == fp == reff == lossMin == None
      ensures freqPhase0 == lossPhase0 == fres == None && deltaF == None
    {
      data := d;
      rl := 12.5;
      c0 := 0.0;
      r1, c1, l1, q, fs, fp, reff, lossMin := None, None, None, None, None, None, None, None;
      deltaF, freqPhase0, lossPhase0, fres := None, None, None, None;
    }

    /** The locator section of analyseData: frequency resolution, loss_min
      and fs at the loss maximum, fp at the loss minimum. */
    method LocateResonances()
      requires |data| >= 2
      modifies this`fres, this`lossMin, this`fs, this`fp
      ensures fres == Some(data[1].freq - data[0].freq)
      ensures lossMin == Some(Locate(data).lossMin) && fs == Some(Locate(data).fs) && fp == Some(Locate(data).fp)
    {
      fres := Some(data[1].freq - data[0].freq);
      lossMin := Some(data[ArgMaxLoss(data)].loss);
      fs := Some(data[ArgMaxLoss(data)].freq);
      fp := Some(data[ArgMinLoss(data)].freq);
    }

    /** The 45-degree section of analyseData: the scan raises out of it when
      phase[0] <= 45, leaving deltaF as it was; otherwise deltaF is the
      max(freq) - min(freq) of the recorded slots. */
    method ScanBandwidth() returns (c: Completion)
      requires |data| >= 2
      modifies this`deltaF
      ensures c == Completed <==> data[0].phase > 45.0
      ensures c == Raised ==> deltaF == old(deltaF)
      ensures c == Completed ==> deltaF == Some(PhaseCrossing.Delta(data))
    {
      var slots, completed, plusWritten, minusWritten := PhaseCrossing.Scan(data);
      if !completed {
        return Raised;
      }
      deltaF := Some(PhaseCrossing.Difference(slots, plusWritten, minusWritten));
      c := Completed;
    }

    /** The last section of analyseData: the row whose phase is closest to
      0 degrees. */
    method LocatePhaseZero()
      requires |data| > 0
      modifies this`freqPhase0, this`lossPhase0
      ensures exists k :: IsNearest(data, 0.0, k) && freqPhase0 == Some(data[k].freq) && lossPhase0 == Some(data[k].loss)
    {
      var k := Nearest(data, 0.0);
      freqPhase0 := Some(data[k].freq);
      lossPhase0 := Some(data[k].loss);
      assert IsNearest(data, 0.0, k);
    }

    /** analyseData. tmp[1] raises for a sweep of fewer than two rows,
      before any write. The scan's lookup of label -1 raises when
      phase[0] <= 45 and propagates, after fres, loss_min, fs and fp are
      written. */
    method AnalyseData() returns (c: Completion)
      modifies this`fres, this`lossMin, this`fs, this`fp, this`deltaF, this`freqPhase0, this`lossPhase0
      ensures c == Completed <==> |data| >= 2 && data[0].phase > 45.0
      ensures |data| < 2 ==> (fres == old(fres) && lossMin == old(lossMin) && fs == old(fs) && fp == old(fp))
      ensures |data| >= 2 ==> (fres == Some(data[1].freq - data[0].freq)
        && lossMin == Some(Locate(data).lossMin) && fs == Some(Locate(data).fs) && fp == Some(Locate(data).fp))
      ensures c == Raised ==> deltaF == old(deltaF) && freqPhase0 == old(freqPhase0) && lossPhase0 == old(lossPhase0)
      ensures c == Completed ==> deltaF == Some(PhaseCrossing.Delta(data))
      ensures c == Completed ==>
        exists k :: IsNearest(data, 0.0, k) && freqPhase0 == Some(data[k].freq) && lossPhase0 == Some(data[k].loss)
    {
      if |data| < 2 {
        return Raised;
      }
      LocateResonances();
      c := ScanBandwidth();
      if c == Raised {
        return;
      }
      LocatePhaseZero();
    }

    method CalcR1()
      requires lossMin.Some?
      modifies this`r1, this`reff
      ensures r1 == Some(MotionalResistance(rl, Abs(lossMin.value)))
      ensures reff == Some(EffectiveResistance(rl, r1.value))
    {
      r1 := Some(MotionalResistance(rl, Abs(lossMin.value)));
      reff := Some(EffectiveResistance(rl, r1.value));
    }

    /** calcC1. Its divisor is a numpy float, so an int 0 deltaF gives
      C1 == 0.0. */
    method CalcC1()
      requires deltaF.Some? && fs.Some? && reff.Some? && fs.value != 0.0 && reff.value != 0.0
      modifies this`c1
      ensures c1 == Some(PhaseC1(PhaseCrossing.Magnitude(deltaF.value), fs.value, reff.value))
    {
      c1 := Some(PhaseC1(PhaseCrossing.Magnitude(deltaF.value), fs.value, reff.value));
    }

    /** The lines of calcParameters after the analysis: calcR1, calcC1, then
      L1, Q (divided by R1) and C0. reff is a Python float, so for an int 0
      deltaF the L1 line divides it by the float 0.0 and raises
      ZeroDivisionError, after R1, reff and C1 == 0.0 are written. */
    method Derive() returns (c: Completion)
      requires lossMin.Some? && fs.Some? && fp.Some? && deltaF.Some?
      requires Admissible(rl, Resonance(lossMin.value, fs.value, fp.value), deltaF.value)
      modifies this`r1, this`reff, this`c1, this`l1, this`q, this`c0
      ensures c == Raised <==> deltaF.value == PhaseCrossing.IntZero
      ensures c == Raised ==> (r1 == Some(MotionalResistance(rl, Abs(lossMin.value)))
        && reff == Some(EffectiveResistance(rl, r1.value)) && c1 == Some(0.0)
        && l1 == old(l1) && q == old(q) && c0 == old(c0))
      ensures c == Completed ==> (
        var m := Model(rl, Resonance(lossMin.value, fs.value, fp.value), deltaF.value.value);
        r1 == Some(m.r1) && reff == Some(m.reff) && c1 == Some(m.c1) && l1 == Some(m.l1)
        && q == Some(m.q) && c0 == m.c0)
    {
      AbsLossResistance(rl, lossMin.value);
      CalcR1();
      CalcC1();
      if deltaF.value == PhaseCrossing.IntZero {
        PhaseC1Zero(0.0, fs.value, reff.value);
        return Raised;
      }
      l1 := Some(PhaseL1(reff.value, deltaF.value.value));
      q := Some(Quality(fs.value, l1.value, r1.value));
      c0 := StaticC0(c1.value, fs.value, fp.value);
      c := Completed;
    }

    /** calcParameters: analyse, then the formulas; no handler, so a failed
      analysis and the division by an int 0 deltaF propagate. */
    method CalcParameters() returns (c: Completion)
      requires |data| >= 2 && data[0].phase > 45.0 ==>
        Admissible(rl, Locate(data), PhaseCrossing.Delta(data))
      modifies this`fres, this`lossMin, this`fs, this`fp, this`deltaF, this`freqPhase0, this`lossPhase0
      modifies this`r1, this`reff, this`c1, this`l1, this`q, this`c0
      ensures c == Completed <==> |data| >= 2 && data[0].phase > 45.0 && PhaseCrossing.Delta(data).Float?
      ensures |data| < 2 ==> (fres == old(fres) && lossMin == old(lossMin) && fs == old(fs) && fp == old(fp))
      ensures |data| >= 2 ==> (fres == Some(data[1].freq - data[0].freq)
        && lossMin == Some(Locate(data).lossMin) && fs == Some(Locate(data).fs) && fp == Some(Locate(data).fp))
      ensures !(|data| >= 2 && data[0].phase > 45.0) ==> (deltaF == old(deltaF)
        && freqPhase0 == old(freqPhase0) && lossPhase0 == old(lossPhase0)
        && r1 == old(r1) && reff == old(reff)
        && c1 == old(c1) && l1 == old(l1) && q == old(q) && c0 == old(c0))
      ensures |data| >= 2 && data[0].phase > 45.0 ==> (deltaF == Some(PhaseCrossing.Delta(data))
        && exists k :: IsNearest(data, 0.0, k) && freqPhase0 == Some(data[k].freq) && lossPhase0 == Some(data[k].loss))
      ensures |data| >= 2 && data[0].phase > 45.0 && PhaseCrossing.Delta(data) == PhaseCrossing.IntZero ==> (
        r1 == Some(MotionalResistance(rl, Abs(Locate(data).lossMin)))
        && reff == Some(EffectiveResistance(rl, r1.value)) && c1 == Some(0.0)
        && l1 == old(l1) && q == old(q) && c0 == old(c0))
      ensures c == Completed ==> (
        var m := Model(rl, Locate(data), PhaseCrossing.Delta(data).value);
        r1 == Some(m.r1) && reff == Some(m.reff) && c1 == Some(m.c1) && l1 == Some(m.l1)
        && q == Some(m.q) && c0 == m.c0)
    {
      c := AnalyseData();
      if c == Raised {
        return;
      }
      assert Locate(data) == Resonance(lossMin.value, fs.value, fp.value);
      c := Derive();
    }

    /** (C0, C1, L1, R1, Q, fs, fp, fres). */
    method GetResults() returns (r: (real, Option<real>, Option<real>, Option<real>, Option<real>, Option<real>, Option<real>, Option<real>))
      ensures r == (c0, c1, l1, r1, q, fs, fp, fres)
    {
      r := (c0, c1, l1, r1, q, fs, fp, fres);
    }
  }
}
