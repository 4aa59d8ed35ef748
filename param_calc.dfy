/** param_calc.py: the oldest one-port phase-shift calculation. It takes
    fs as the largest frequency of the sweep, finds the 15-degree bandwidth
    from the two rows nearest to -15 and to +15 degrees, and derives Rm
    (from -loss_min), Cm and Lm with Rl = 50. */
module ParamCalc {
  import opened Wrappers
  import opened Sweeps
  import opened Formulas

  /** The angle of the bandwidth scan (15, although labelled 45 degrees). */
  const ScanPhase: real := 15.0

  /** The target angle of pass i for a scan angle phase: pass 0 sorts the
      rows by |Phase(deg) + phase|, pass 1 by |Phase(deg) - phase|. */
  function Target(i: nat, phase: real): real { if i == 0 then -phase else phase }

  /** (max(x) + min(x)) / 2 of a two-element list: the plain midpoint,
      whichever element is larger. */
  function Midrange(a: real, b: real): (m: real)
    ensures m == Mid(a, b) && m == Mid(b, a)
    ensures (if a <= b then a else b) <= m <= (if a <= b then b else a)
  {
    ((if a >= b then a else b) + (if a <= b then a else b)) / 2.0
  }

  /** freq[i] of pass i: the midpoint of the frequencies of the two rows
      closest in phase to the target. */
  function PairFreq(s: Sweep, target: real): real
    requires |s| >= 2
  {
    var p := NearestTwo(s, target);
    Midrange(s[p.0].freq, s[p.1].freq)
  }

  /** ampl[i] of pass i: the midpoint of the same two rows' losses. */
  function PairLoss(s: Sweep, target: real): real
    requires |s| >= 2
  {
    var p := NearestTwo(s, target);
    Midrange(s[p.0].loss, s[p.1].loss)
  }

  /** self.deltaF for a scan angle phase: max(freq) - min(freq) over the
      two passes. */
  function Bandwidth(s: Sweep, phase: real): real
    requires |s| >= 2
  {
    Spread(PairFreq(s, Target(0, phase)), PairFreq(s, Target(1, phase)))
  }

  /** The midpoints of a pass lie between the two nearest rows: there are
      two different rows a and b, no other row closer to the target, whose
      frequency and loss midpoints are freq[i] and ampl[i]. */
  lemma {:induction false} PairMidpoints(s: Sweep, target: real)
    requires |s| >= 2
    ensures exists a, b :: (IsNearestPair(s, target, a, b)
      && PairFreq(s, target) == Mid(s[a].freq, s[b].freq)
      && PairLoss(s, target) == Mid(s[a].loss, s[b].loss))
  {
    var p := NearestTwo(s, target);
    NearestTwoIsNearestPair(s, target);
    assert PairFreq(s, target) == Mid(s[p.0].freq, s[p.1].freq);
    assert PairLoss(s, target) == Mid(s[p.0].loss, s[p.1].loss);
  }

  /** deltaF is nonnegative, does not depend on which pass lies at the
      higher frequency, and is zero exactly when both passes give the same
      midpoint. */
  lemma BandwidthOrderFree(s: Sweep, phase: real)
    requires |s| >= 2
    ensures Bandwidth(s, phase) >= 0.0
    ensures Bandwidth(s, phase) == Spread(PairFreq(s, phase), PairFreq(s, -phase))
    ensures Bandwidth(s, phase) == 0.0 <==> PairFreq(s, -phase) == PairFreq(s, phase)
  {
  }

  /** On a two-row sweep both passes pick the same two rows, so the
      bandwidth is 0 and calcParameters raises on it. */
  lemma TwoRowSweepZeroBandwidth(s: Sweep, phase: real)
    requires |s| == 2
    ensures Bandwidth(s, phase) == 0.0
  {
    assert PairFreq(s, Target(0, phase)) == Mid(s[0].freq, s[1].freq);
    assert PairFreq(s, Target(1, phase)) == Mid(s[0].freq, s[1].freq);
  }

  /** On a sweep of increasing frequencies, self.fs is the last row's
      frequency, wherever the loss maximum lies. */
  lemma {:induction false} IncreasingSweepFs(s: Sweep)
    requires |s| > 0 && StrictlyIncreasing(s)
    ensures MaxFreq(s) == s[|s| - 1].freq
  {
    var f := MaxFreq(s);
    var j :| 0 <= j < |s| && s[j].freq == f;
    assert s[|s| - 1].freq <= f;
    if j < |s| - 1 {
      assert s[j].freq < s[|s| - 1].freq;
    }
  }

  /** The loop of analyseData over i in range(2) for a scan angle phase:
      freq[i] and ampl[i] are the frequency and loss midpoints of the two
      rows nearest to the target of pass i. */
  method Passes(s: Sweep, phase: real) returns (freq: array<real>, ampl: array<real>)
    requires |s| >= 2
    ensures fresh(freq) && fresh(ampl) && freq.Length == 2 && ampl.Length == 2
    ensures freq[0] == PairFreq(s, -phase) && freq[1] == PairFreq(s, phase)
    ensures ampl[0] == PairLoss(s, -phase) && ampl[1] == PairLoss(s, phase)
  {
    freq := new real[2];
    ampl := new real[2];
    for i := 0 to 2
      invariant i > 0 ==> freq[0] == PairFreq(s, -phase) && ampl[0] == PairLoss(s, -phase)
      invariant i > 1 ==> freq[1] == PairFreq(s, phase) && ampl[1] == PairLoss(s, phase)
    {
      var p;
      if i == 0 {
        p := NearestTwo(s, -phase);
      } else {
        p := NearestTwo(s, phase);
      }
      freq[i] := Midrange(s[p.0].freq, s[p.1].freq);
      ampl[i] := Midrange(s[p.0].loss, s[p.1].loss);
    }
  }

  /** The values calcParameters derives: Rm, the local Reff, Cm and Lm. */
  datatype Motional = Motional(rm: real, reff: real, cm: real, lm: real)

  /** The divisions of calcParameters have nonzero divisors: fs, deltaF and
      Reff (Rl != 0 makes Reff != 0). All three are Python floats, so a zero
      divisor raises ZeroDivisionError. */
  predicate Computable(rl: real, fs: real, bw: real) {
    rl != 0.0 && fs != 0.0 && bw != 0.0
  }

  /** The formulas of calcParameters, with Rm from -loss_min. */
  function Model(rl: real, lossMin: real, fs: real, bw: real): Motional
    requires Computable(rl, fs, bw)
  {
    SignedLossResistance(rl, lossMin);
    var rm := MotionalResistance(rl, -lossMin);
    var reff := EffectiveResistance(rl, rm);
    Motional(rm, reff, PhaseC1(bw, fs, reff), PhaseL1(reff, bw))
  }

  /** Lm and Cm resonate at fs: Lm*Cm*4*pi**2*fs**2 == 1. */
  lemma {:induction false} ModelResonates(rl: real, lossMin: real, fs: real, bw: real)
    requires Computable(rl, fs, bw)
    ensures Model(rl, lossMin, fs, bw).lm * Model(rl, lossMin, fs, bw).cm * (4.0 * Pi * Pi * fs * fs) == 1.0
  {
    SignedLossResistance(rl, lossMin);
    PhaseResonance(bw, fs, Model(rl, lossMin, fs, bw).reff);
  }

  /** With the sign of -loss_min, Rm >= 0 exactly when loss_min <= 0 (for
      Rl > 0), and Reff == 2*Rl*10^(-loss_min/20) is positive, so for a
      positive fs and deltaF both Cm and Lm are positive. */
  lemma {:induction false} ModelSigns(rl: real, lossMin: real, fs: real, bw: real)
    requires Computable(rl, fs, bw) && rl > 0.0
    ensures Model(rl, lossMin, fs, bw).rm >= 0.0 <==> lossMin <= 0.0
    ensures Model(rl, lossMin, fs, bw).reff == 2.0 * rl * Pow10(-lossMin / 20.0)
    ensures fs > 0.0 && bw > 0.0 ==> Model(rl, lossMin, fs, bw).cm > 0.0 && Model(rl, lossMin, fs, bw).lm > 0.0
  {
    SignedLossResistance(rl, lossMin);
    var m := Model(rl, lossMin, fs, bw);
    if fs > 0.0 && bw > 0.0 {
      PhaseC1Positive(bw, fs, m.reff);
      QuotientSign(m.reff, 2.0 * Pi * bw, m.lm);
    }
  }

  class PhaseShiftMethod {
    var data: Sweep
    var rl: real
    var rm: Option<real>
    var cm: Option<real>
    var lm: Option<real>
    var fs: Option<real>
    var lossMin: Option<real>
    var deltaF: Option<real>
    var freqPhase0: Option<real>
    var lossPhase0: Option<real>
    var fres: Option<real>

    /** An object over a loaded sweep: Rl = 50, every other value None. */
    constructor (d: Sweep)
      ensures data == d && rl == 50.0
      ensures rm == cm == lm == fs == lossMin == None
      ensures deltaF == freqPhase0 == lossPhase0 == fres == None
    {
      data := d;
      rl := 50.0;
      rm, cm, lm, fs, lossMin := None, None, None, None, None;
      deltaF, freqPhase0, lossPhase0, fres := None, None, None, None;
    }

    /** The first section of analyseData: frequency resolution, loss_min
      (the largest loss value) and fs (the largest frequency). */
    method LocateSeries()
      requires |data| >= 2
      modifies this`fres, this`lossMin, this`fs
      ensures fres == Some(data[1].freq - data[0].freq)
      ensures lossMin == Some(Locate(data).lossMin) && fs == Some(MaxFreq(data))
    {
      fres := Some(data[1].freq - data[0].freq);
      lossMin := Some(data[ArgMaxLoss(data)].loss);
      fs := Some(MaxFreq(data));
    }

    /** The bandwidth section of analyseData: the two passes at phase = 15,
      then deltaF = max(freq) - min(freq). */
    method ScanBandwidth()
      requires |data| >= 2
      modifies this`deltaF
      ensures deltaF == Some(Bandwidth(data, ScanPhase))
    {
      var freq, ampl := Passes(data, ScanPhase);
      // ampl is only logged
      deltaF := Some(Spread(freq[0], freq[1]));
    }

    /** The last section of analyseData: the row whose phase is closest to
      0 degrees. */
    method LocatePhaseZero()
      requires |data| >= 2
      modifies this`freqPhase0, this`lossPhase0
      ensures exists k :: IsNearest(data, 0.0, k) && freqPhase0 == Some(data[k].freq) && lossPhase0 == Some(data[k].loss)
    {
      var k := Nearest(data, 0.0);
      freqPhase0 := Some(data[k].freq);
      lossPhase0 := Some(data[k].loss);
      assert IsNearest(data, 0.0, k);
    }

    /** analyseData. tmp[1] raises for a sweep of fewer than two rows,
      before any write; otherwise every field of the analysis is written. */
    method AnalyseData() returns (c: Completion)
      modifies this`fres, this`lossMin, this`fs, this`deltaF, this`freqPhase0, this`lossPhase0
      ensures c == Raised <==> |data| < 2
      ensures c == Raised ==> (fres == old(fres) && lossMin == old(lossMin) && fs == old(fs) && deltaF == old(deltaF)
        && freqPhase0 == old(freqPhase0) && lossPhase0 == old(lossPhase0))
      ensures c == Completed ==> (fres == Some(data[1].freq - data[0].freq)
        && lossMin == Some(Locate(data).lossMin) && fs == Some(MaxFreq(data))
        && deltaF == Some(Bandwidth(data, ScanPhase)))
      ensures c == Completed ==>
        exists k :: IsNearest(data, 0.0, k) && freqPhase0 == Some(data[k].freq) && lossPhase0 == Some(data[k].loss)
    {
      if |data| < 2 {
        return Raised;
      }
      LocateSeries();
      ScanBandwidth();
      LocatePhaseZero();
      c := Completed;
    }

    /** The lines of calcParameters after the analysis: Rm, Reff, Cm, Lm.
      fs, deltaF and Reff are Python floats (max of a column, differences
      of list elements), so Cm raises ZeroDivisionError when fs or Reff is
      0, after Rm is written, and Lm raises when deltaF is 0, after Cm is
      written. */
    method Derive() returns (c: Completion)
      requires lossMin.Some? && fs.Some? && deltaF.Some?
      modifies this`rm, this`cm, this`lm
      ensures c == Raised <==> !Computable(rl, fs.value, deltaF.value)
      ensures rm == Some(MotionalResistance(rl, -lossMin.value))
      ensures rl == 0.0 || fs.value == 0.0 ==> cm == old(cm)
      ensures rl != 0.0 && fs.value != 0.0 ==>
        cm == Some(PhaseC1(deltaF.value, fs.value, EffectiveResistance(rl, rm.value)))
      ensures c == Raised ==> lm == old(lm)
      ensures c == Completed ==> (
        var m := Model(rl, lossMin.value, fs.value, deltaF.value);
        rm == Some(m.rm) && cm == Some(m.cm) && lm == Some(m.lm))
    {
      SignedLossResistance(rl, lossMin.value);
      rm := Some(MotionalResistance(rl, -lossMin.value));
      var reff := EffectiveResistance(rl, rm.value);
      if fs.value == 0.0 || reff == 0.0 {
        return Raised;
      }
      cm := Some(PhaseC1(deltaF.value, fs.value, reff));
      if deltaF.value == 0.0 {
        return Raised;
      }
      lm := Some(PhaseL1(reff, deltaF.value));
      c := Completed;
    }

    /** calcParameters: analyse, then the formulas, with no handler. A short
      sweep raises out of the analysis and a zero divisor out of the
      formulas; otherwise it returns 0. */
    method CalcParameters() returns (c: Completion)
      modifies this`fres, this`lossMin, this`fs, this`deltaF, this`freqPhase0, this`lossPhase0
      modifies this`rm, this`cm, this`lm
      ensures c == Raised <==>
        |data| < 2 || rl == 0.0 || MaxFreq(data) == 0.0 || Bandwidth(data, ScanPhase) == 0.0
      ensures |data| < 2 ==> (fres == old(fres) && lossMin == old(lossMin) && fs == old(fs) && deltaF == old(deltaF)
        && freqPhase0 == old(freqPhase0) && lossPhase0 == old(lossPhase0)
        && rm == old(rm) && cm == old(cm) && lm == old(lm))
      ensures |data| >= 2 ==> (fres == Some(data[1].freq - data[0].freq)
        && lossMin == Some(Locate(data).lossMin) && fs == Some(MaxFreq(data))
        && deltaF == Some(Bandwidth(data, ScanPhase)))
      ensures |data| >= 2 ==>
        exists k :: IsNearest(data, 0.0, k) && freqPhase0 == Some(data[k].freq) && lossPhase0 == Some(data[k].loss)
      ensures |data| >= 2 ==> rm == Some(MotionalResistance(rl, -Locate(data).lossMin))
      ensures |data| >= 2 && (rl == 0.0 || MaxFreq(data) == 0.0) ==> cm == old(cm) && lm == old(lm)
      ensures |data| >= 2 && rl != 0.0 && MaxFreq(data) != 0.0 ==>
        cm == Some(PhaseC1(Bandwidth(data, ScanPhase), MaxFreq(data), EffectiveResistance(rl, rm.value)))
      ensures |data| >= 2 && Bandwidth(data, ScanPhase) == 0.0 ==> lm == old(lm)
      ensures c == Completed ==> (
        var m := Model(rl, lossMin.value, fs.value, deltaF.value);
        rm == Some(m.rm) && cm == Some(m.cm) && lm == Some(m.lm))
    {
      c := AnalyseData();
      if c == Raised {
        return;
      }
      assert fs.value == MaxFreq(data) && deltaF.value == Bandwidth(data, ScanPhase);
      assert lossMin.value == Locate(data).lossMin;
      c := Derive();
    }
  }
}
