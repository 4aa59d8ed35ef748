/** methods/phaseshift_method.py: the phase-shift method. It locates the
    resonances, scans for the +/-45 degree points around the series
    resonance, and derives R1, C1, L1, Q and C0 from the 45-degree
    bandwidth and the minimum transmission loss, one field per step. */
module PhaseShiftMethods {
  import opened Wrappers
  import opened Sweeps
  import opened Formulas
  import PhaseCrossing

  /** self.deltaF of a sweep: max(freq) - min(freq) of the recorded slots,
      where a failed lookup at m = 0 is swallowed by the handler around the
      scan and leaves freq the int list [0, 0]. */
  function SweepWidth(s: Sweep): PhaseCrossing.Width
  {
    if |s| == 0 || s[0].phase > 45.0 then PhaseCrossing.Delta(s) else PhaseCrossing.IntZero
  }

  /** The numpy divisions of the formulas have nonzero divisors: fs and
      reff for C1 (Rl != 0 makes reff != 0) and, once deltaF is a numpy
      float, deltaF for L1 and fp**2 - fs**2 for C0. An int 0 deltaF needs
      no condition: the division by it raises. */
  predicate Computable(rl: real, s: Sweep)
    requires |s| >= 2
  {
    var res := Locate(s);
    var w := SweepWidth(s);
    rl != 0.0 && res.fs != 0.0 && (w.Float? ==> w.value != 0.0 && DistinctSquares(res.fs, res.fp))
  }

  /** With positive frequencies, calcParameters meets an int 0 deltaF
      exactly when the scan failed at m = 0 or wrote neither slot. */
  lemma {:induction false} IntZeroWithoutCrossing(s: Sweep)
    requires forall i :: 0 <= i < |s| ==> s[i].freq > 0.0
    requires |s| >= 2
    ensures SweepWidth(s) == PhaseCrossing.IntZero <==> s[0].phase <= 45.0 || !PhaseCrossing.Written(s)
  {
    PhaseCrossing.DeltaIntZero(s);
  }

  /** _calcR, _calcC1, _calcL1, _calcQ and _calcC0 in that order. */
  function Model(rl: real, res: Resonance, bw: real): Circuit
    requires rl != 0.0 && res.fs != 0.0 && bw != 0.0 && DistinctSquares(res.fs, res.fp)
  {
    AbsLossResistance(rl, res.lossMin);
    var r1 := MotionalResistance(rl, Abs(res.lossMin));
    var reff := EffectiveResistance(rl, r1);
    var c1 := PhaseC1(bw, res.fs, reff);
    var l1 := PhaseL1(reff, bw);
    Circuit(r1, reff, c1, l1, Quality(res.fs, l1, reff), StaticC0(c1, res.fs, res.fp))
  }

  /** L1 and C1 resonate at fs, L1*C1*4*pi**2*fs**2 == 1, and
      Q == fs/deltaF. */
  lemma {:induction false} ModelResonates(rl: real, res: Resonance, bw: real)
    requires rl != 0.0 && res.fs != 0.0 && bw != 0.0 && DistinctSquares(res.fs, res.fp)
    ensures Model(rl, res, bw).l1 * Model(rl, res, bw).c1 * (4.0 * Pi * Pi * res.fs * res.fs) == 1.0
    ensures Model(rl, res, bw).q == res.fs / bw
  {
    AbsLossResistance(rl, res.lossMin);
    PhaseResonance(bw, res.fs, Model(rl, res, bw).reff);
  }

  /** For a positive bandwidth, positive frequencies and Rl > 0, C1 > 0 and
      C0 is positive exactly when fp > fs. */
  lemma {:induction false} ModelC0Sign(rl: real, res: Resonance, bw: real)
    requires rl > 0.0 && res.fs > 0.0 && res.fp > 0.0 && bw > 0.0 && res.fp != res.fs
    ensures Model(rl, res, bw).c1 > 0.0
    ensures Model(rl, res, bw).c0 > 0.0 <==> res.fp > res.fs
  {
    AbsLossResistance(rl, res.lossMin);
    var reff := EffectiveResistance(rl, MotionalResistance(rl, Abs(res.lossMin)));
    var c1 := PhaseC1(bw, res.fs, reff);
    PhaseC1Positive(bw, res.fs, reff);
    assert Model(rl, res, bw).c1 == c1;
    assert Model(rl, res, bw).c0 == StaticC0(c1, res.fs, res.fp);
    StaticC0Sign(c1, res.fs, res.fp);
  }

  class PhaseShiftMethod {
    var data: Sweep
    var rl: real
    var c0: real
    var r1: Option<real>
    var c1: Option<real>
    var l1: Option<real>
    var q: Option<real>
    var fs: Option<real>
    var fp: Option<real>
    var reff: Option<real>
    var lossMin: Option<real>
    var fres: Option<real>
    var deltaF: Option<PhaseCrossing.Width>
    var freqPhase0: Option<real>
    var lossPhase0: Option<real>

    /** A fresh object: no data, Rl = 12.5, C0 = 0.0, every other value None. */
    constructor ()
      ensures data == [] && rl == 12.5 && c0 == 0.0
      ensures r1 == c1 == l1 == q == fs == fp == reff == lossMin == None
      ensures fres == freqPhase0 == lossPhase0 == None && deltaF == None
    {
      data := [];
      rl := 12.5;
      c0 := 0.0;
      r1, c1, l1, q, fs, fp, reff, lossMin := None, None, None, None, None, None, None, None;
      fres, deltaF, freqPhase0, lossPhase0 := None, None, None, None;
    }

    method UpdateData(d: Sweep)
      modifies this`data
      ensures data == d
    {
      data := d;
    }

    /** The locator section of _analyseData: frequency resolution, loss_min
      and fs at the loss maximum, fp at the loss minimum. */
    method LocateResonances()
      requires |data| >= 2
      modifies this`fres, this`lossMin, this`fs, this`fp
      ensures fres == Some(data[1].freq - data[0].freq)
      ensures lossMin == Some(Locate(data).lossMin) && fs == Some(Locate(data).fs) && fp == Some(Locate(data).fp)
    {
      fres := Some(data[1].freq - data[0].freq);
      lossMin := Some(data[ArgMaxLoss(data)].loss);
      fs := Some(data[ArgMaxLoss(data)].freq);
      fp := Some(data[ArgMinLoss(data)].freq);
    }

    /** The 45-degree section of _analyseData: the scan, whose failed lookup
      is caught so that the slots keep the int 0, then deltaF = max - min. */
    method ScanBandwidth()
      modifies this`deltaF
      ensures deltaF == Some(SweepWidth(data))
    {
      var slots, completed, plusWritten, minusWritten := PhaseCrossing.Scan(data);
      // a failed lookup inside the scan is caught here; no slot is written
      deltaF := Some(PhaseCrossing.Difference(slots, plusWritten, minusWritten));
    }

    /** The last section of _analyseData: the row whose phase is closest to
      0 degrees. */
    method LocatePhaseZero()
      requires |data| > 0
      modifies this`freqPhase0, this`lossPhase0
      ensures exists k :: IsNearest(data, 0.0, k) && freqPhase0 == Some(data[k].freq) && lossPhase0 == Some(data[k].loss)
    {
      var k := Nearest(data, 0.0);
      freqPhase0 := Some(data[k].freq);
      lossPhase0 := Some(data[k].loss);
      assert IsNearest(data, 0.0, k);
    }

    /** _analyseData. It raises (frequency list index out of range) unless
      the sweep has two rows, before writing any field. */
    method AnalyseData() returns (c: Completion)
      modifies this`fres, this`lossMin, this`fs, this`fp, this`deltaF, this`freqPhase0, this`lossPhase0
      ensures c == Raised <==> |data| < 2
      ensures c == Raised ==> (fres == old(fres) && lossMin == old(lossMin) && fs == old(fs) && fp == old(fp)
        && deltaF == old(deltaF) && freqPhase0 == old(freqPhase0) && lossPhase0 == old(lossPhase0))
      ensures c == Completed ==> (fres == Some(data[1].freq - data[0].freq)
        && lossMin == Some(Locate(data).lossMin) && fs == Some(Locate(data).fs) && fp == Some(Locate(data).fp)
        && deltaF == Some(SweepWidth(data)))
      ensures c == Completed ==>
        exists k :: IsNearest(data, 0.0, k) && freqPhase0 == Some(data[k].freq) && lossPhase0 == Some(data[k].loss)
    {
      if |data| < 2 {
        return Raised;
      }
      LocateResonances();
      ScanBandwidth();
      LocatePhaseZero();
      c := Completed;
    }

    method CalcR()
      requires lossMin.Some?
      modifies this`r1, this`reff
      ensures r1 == Some(MotionalResistance(rl, Abs(lossMin.value)))
      ensures reff == Some(EffectiveResistance(rl, r1.value))
    {
      r1 := Some(MotionalResistance(rl, Abs(lossMin.value)));
      reff := Some(EffectiveResistance(rl, r1.value));
    }

    method CalcQ()
      requires fs.Some? && l1.Some? && reff.Some? && reff.value != 0.0
      modifies this`q
      ensures q == Some(Quality(fs.value, l1.value, reff.value))
    {
      q := Some(Quality(fs.value, l1.value, reff.value));
    }

    /** _calcL1. reff is a Python float, so 2*pi*deltaF is the float 0.0
      for an int 0 deltaF and reff / 0.0 raises ZeroDivisionError. */
    method CalcL1() returns (c: Completion)
      requires reff.Some? && deltaF.Some? && (deltaF.value.Float? ==> deltaF.value.value != 0.0)
      modifies this`l1
      ensures c == Raised <==> deltaF.value == PhaseCrossing.IntZero
      ensures c == Raised ==> l1 == old(l1)
      ensures c == Completed ==> l1 == Some(PhaseL1(reff.value, deltaF.value.value))
    {
      if deltaF.value == PhaseCrossing.IntZero {
        return Raised;
      }
      l1 := Some(PhaseL1(reff.value, deltaF.value.value));
      c := Completed;
    }

    /** _calcC1. Its divisor is a numpy float, so an int 0 deltaF gives
      C1 == 0.0. */
    method CalcC1()
      requires deltaF.Some? && fs.Some? && reff.Some? && fs.value != 0.0 && reff.value != 0.0
      modifies this`c1
      ensures c1 == Some(PhaseC1(PhaseCrossing.Magnitude(deltaF.value), fs.value, reff.value))
    {
      c1 := Some(PhaseC1(PhaseCrossing.Magnitude(deltaF.value), fs.value, reff.value));
    }

    method CalcC0()
      requires c1.Some? && fs.Some? && fp.Some? && DistinctSquares(fs.value, fp.value)
      modifies this`c0
      ensures c0 == StaticC0(c1.value, fs.value, fp.value)
    {
      c0 := StaticC0(c1.value, fs.value, fp.value);
    }

    /** The five derivation steps of calcParameters after the analysis,
      _calcR, _calcC1, _calcL1, _calcQ and _calcC0, on the analysed fields.
      An int 0 deltaF makes _calcL1 raise after R1, reff and C1 == 0.0 are
      written. */
    method Derive() returns (c: Completion)
      requires lossMin.Some? && fs.Some? && fp.Some? && deltaF.Some?
      requires rl != 0.0 && fs.value != 0.0
      requires deltaF.value.Float? ==> deltaF.value.value != 0.0 && DistinctSquares(fs.value, fp.value)
      modifies this`r1, this`reff, this`c1, this`l1, this`q, this`c0
      ensures c == Raised <==> deltaF.value == PhaseCrossing.IntZero
      ensures c == Raised ==> (r1 == Some(MotionalResistance(rl, Abs(lossMin.value)))
        && reff == Some(EffectiveResistance(rl, r1.value)) && c1 == Some(0.0)
        && l1 == old(l1) && q == old(q) && c0 == old(c0))
      ensures c == Completed ==> (
        var m := Model(rl, Resonance(lossMin.value, fs.value, fp.value), deltaF.value.value);
        r1 == Some(m.r1) && reff == Some(m.reff) && c1 == Some(m.c1) && l1 == Some(m.l1)
        && q == Some(m.q) && c0 == m.c0)
    {
      CalcR();
      AbsLossResistance(rl, lossMin.value);
      CalcC1();
      c := CalcL1();
      if c == Raised {
        PhaseC1Zero(0.0, fs.value, reff.value);
        return;
      }
      CalcQ();
      CalcC0();
    }

    /** calcParameters: analyse, R, C1, L1, Q, C0. Any exception becomes the
      error string: the short-sweep failure at the start of the analysis,
      before any field is written, and the division by an int 0 deltaF in
      _calcL1. */
    method CalcParameters() returns (status: CalcStatus)
      requires |data| >= 2 ==> Computable(rl, data)
      modifies this`fres, this`lossMin, this`fs, this`fp, this`deltaF, this`freqPhase0, this`lossPhase0
      modifies this`r1, this`reff, this`c1, this`l1, this`q, this`c0
      ensures status == ReturnedError(CalcError) <==> |data| < 2 || SweepWidth(data) == PhaseCrossing.IntZero
      ensures status == ReturnedZero <==> |data| >= 2 && SweepWidth(data).Float?
      ensures |data| < 2 ==> (fres == old(fres) && lossMin == old(lossMin) && fs == old(fs) && fp == old(fp)
        && deltaF == old(deltaF) && freqPhase0 == old(freqPhase0) && lossPhase0 == old(lossPhase0)
        && r1 == old(r1) && reff == old(reff) && c1 == old(c1) && l1 == old(l1) && q == old(q) && c0 == old(c0))
      ensures |data| >= 2 ==> (fres == Some(data[1].freq - data[0].freq)
        && lossMin == Some(Locate(data).lossMin) && fs == Some(Locate(data).fs) && fp == Some(Locate(data).fp)
        && deltaF == Some(SweepWidth(data)))
      ensures |data| >= 2 ==>
        exists k :: IsNearest(data, 0.0, k) && freqPhase0 == Some(data[k].freq) && lossPhase0 == Some(data[k].loss)
      ensures |data| >= 2 && SweepWidth(data) == PhaseCrossing.IntZero ==> (
        r1 == Some(MotionalResistance(rl, Abs(Locate(data).lossMin)))
        && reff == Some(EffectiveResistance(rl, r1.value)) && c1 == Some(0.0)
        && l1 == old(l1) && q == old(q) && c0 == old(c0))
      ensures |data| >= 2 && SweepWidth(data).Float? ==> (
        var m := Model(rl, Locate(data), SweepWidth(data).value);
        r1 == Some(m.r1) && reff == Some(m.reff) && c1 == Some(m.c1) && l1 == Some(m.l1)
        && q == Some(m.q) && c0 == m.c0)
    {
      var c := AnalyseData();
      if c == Raised {
        return ReturnedError(CalcError);
      }
      assert Locate(data) == Resonance(lossMin.value, fs.value, fp.value);
      c := Derive();
      if c == Raised {
        return ReturnedError(CalcError);
      }
      status := ReturnedZero;
    }

    /** (C0, C1, L1, R1, Q, fs, fp). */
    method GetResults() returns (r: (real, Option<real>, Option<real>, Option<real>, Option<real>, Option<real>, Option<real>))
      ensures r == (c0, c1, l1, r1, q, fs, fp)
    {
      r := (c0, c1, l1, r1, q, fs, fp);
    }
  }
}
