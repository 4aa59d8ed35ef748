/** methods/g3uur_variant_method.py: the G3UUR variant. It reads a resonance
    sweep and a stray (fixture) sweep, and derives C1 from the series and
    parallel resonance frequencies and the shunt capacitance C0 + Cstray,
    where C0 is the object's own field: _calcC1 reads the C0 that the
    previous calcParameters left, and _calcC0 overwrites it afterwards. */
module G3uurMethods {
  import opened Wrappers
  import opened Sweeps
  import opened Formulas

  /** The divisions of the formulas have nonzero divisors: fs for fp/fs,
      C1 (nonzero once fp != fs and C0 + Cstray != 0), fp**2 - fs**2 and
      reff (Rl != 0 makes reff != 0). */
  predicate Computable(rl: real, res: Resonance, c0: real) {
    rl != 0.0 && res.fs != 0.0 && DistinctSquares(res.fs, res.fp) && c0 + StrayCapacitance != 0.0
  }

  /** _calcR, _calcC1, _calcL1, _calcC0 and _calcQ in that order, where c0 is
      the C0 the object holds when the calculation starts. */
  function Model(rl: real, res: Resonance, c0: real): Circuit
    requires Computable(rl, res, c0)
  {
    AbsLossResistance(rl, res.lossMin);
    var r1 := MotionalResistance(rl, Abs(res.lossMin));
    var reff := EffectiveResistance(rl, r1);
    StrayC1Sign(res.fs, res.fp, c0, StrayCapacitance);
    var c1 := StrayC1(res.fs, res.fp, c0, StrayCapacitance);
    var l1 := ResonantPartner(res.fs, c1);
    Circuit(r1, reff, c1, l1, Quality(res.fs, l1, reff), StaticC0(c1, res.fs, res.fp))
  }

  /** L1 and C1 resonate at fs, and Q, computed last from this call's L1,
      is 1/(2*pi*fs*C1*reff). */
  lemma {:induction false} ModelResonates(rl: real, res: Resonance, c0: real)
    requires Computable(rl, res, c0)
    ensures Model(rl, res, c0).l1 * Model(rl, res, c0).c1 * (4.0 * Pi * Pi * res.fs * res.fs) == 1.0
    ensures Model(rl, res, c0).q * (2.0 * Pi * res.fs * Model(rl, res, c0).c1 * Model(rl, res, c0).reff) == 1.0
  {
    AbsLossResistance(rl, res.lossMin);
    StrayC1Sign(res.fs, res.fp, c0, StrayCapacitance);
    var m := Model(rl, res, c0);
    ResonantPair(res.fs, m.c1);
    PartnerQuality(res.fs, m.c1, m.reff);
  }

  /** For fs > 0 and C0 + Cstray > 0, C1 is positive exactly when fp > fs. */
  lemma {:induction false} ModelC1Sign(rl: real, res: Resonance, c0: real)
    requires Computable(rl, res, c0)
    requires res.fs > 0.0 && c0 + StrayCapacitance > 0.0
    ensures Model(rl, res, c0).c1 > 0.0 <==> res.fp > res.fs
  {
    StrayC1Sign(res.fs, res.fp, c0, StrayCapacitance);
  }

  /** On a fresh object C0 is 0.0, so C1 == 2*(fp/fs - 1)*Cstray. */
  lemma FreshC1(rl: real, res: Resonance)
    requires Computable(rl, res, 0.0)
    ensures Model(rl, res, 0.0).c1 == 2.0 * (res.fp / res.fs - 1.0) * StrayCapacitance
  {
  }

  /** The result depends on the C0 the object holds: two different former C0
      values give two different C1 values. */
  lemma {:induction false} C1DependsOnFormerC0(rl: real, res: Resonance, c0a: real, c0b: real)
    requires Computable(rl, res, c0a) && Computable(rl, res, c0b) && c0a != c0b
    ensures Model(rl, res, c0a).c1 != Model(rl, res, c0b).c1
  {
    StrayC1Injective(res.fs, res.fp, c0a, c0b, StrayCapacitance);
  }

  /** calcParameters is not idempotent: on a fresh object the first run
      leaves a nonzero C0, so a second run on the same sweeps derives a
      different C1. */
  lemma {:induction false} SecondRunDiffers(rl: real, res: Resonance)
    requires Computable(rl, res, 0.0)
    requires Computable(rl, res, Model(rl, res, 0.0).c0)
    ensures Model(rl, res, 0.0).c0 != 0.0
    ensures Model(rl, res, Model(rl, res, 0.0).c0).c1 != Model(rl, res, 0.0).c1
  {
    var m := Model(rl, res, 0.0);
    StrayC1Sign(res.fs, res.fp, 0.0, StrayCapacitance);
    StaticC0NonZero(m.c1, res.fs, res.fp);
    C1DependsOnFormerC0(rl, res, m.c0, 0.0);
  }

  class G3uurMethod {
    var dataResonance: Sweep
    var dataStray: Sweep
    var rl: real
    var c0: real
    var r1: Option<real>
    var c1: Option<real>
    var l1: Option<real>
    var q: Option<real>
    var cstray: Option<real>
    var fs: Option<real>
    var fp: Option<real>
    var reff: Option<real>
    var lossMin: Option<real>

    /** An object over the two sweeps: Rl = 12.5, C0 = 0.0, every other value
      None. */
    constructor (resonance: Sweep, stray: Sweep)
      ensures dataResonance == resonance && dataStray == stray && rl == 12.5 && c0 == 0.0
      ensures r1 == c1 == l1 == q == cstray == fs == fp == reff == lossMin == None
    {
      dataResonance, dataStray := resonance, stray;
      rl := 12.5;
      c0 := 0.0;
      r1, c1, l1, q, cstray, fs, fp, reff, lossMin := None, None, None, None, None, None, None, None, None;
    }

    /** _analyseData. max() of an empty resonance sweep raises before any
      write. Xc is read from the stray sweep at the label of the RESONANCE
      sweep's idxmax, which raises when the stray sweep has no such row, after
      loss_min, fs and fp are written. Cstray is then set to 600 fF, whatever
      Xc is. */
    method AnalyseData() returns (c: Completion)
      modifies this`lossMin, this`fs, this`fp, this`cstray
      ensures c == Completed <==> |dataResonance| > 0 && ArgMaxLoss(dataResonance) < |dataStray|
      ensures |dataResonance| == 0 ==> unchanged(this)
      ensures |dataResonance| > 0 ==>
        var res := Locate(dataResonance);
        lossMin == Some(res.lossMin) && fs == Some(res.fs) && fp == Some(res.fp)
      ensures c == Raised ==> cstray == old(cstray)
      ensures c == Completed ==> cstray == Some(StrayCapacitance)
    {
      if |dataResonance| == 0 {
        return Raised;
      }
      lossMin := Some(dataResonance[ArgMaxLoss(dataResonance)].loss);
      fs := Some(dataResonance[ArgMaxLoss(dataResonance)].freq);
      fp := Some(dataResonance[ArgMinLoss(dataResonance)].freq);
      if ArgMaxLoss(dataResonance) >= |dataStray| {
        return Raised;
      }
      var xc := dataStray[ArgMaxLoss(dataResonance)].loss;
      // the value -1/(2*pi*fs*Xc) derived from xc is overwritten at once
      cstray := Some(StrayCapacitance);
      c := Completed;
    }

    method CalcR()
      requires lossMin.Some?
      modifies this`r1, this`reff
      ensures r1 == Some(MotionalResistance(rl, Abs(lossMin.value)))
      ensures reff == Some(EffectiveResistance(rl, r1.value))
    {
      r1 := Some(MotionalResistance(rl, Abs(lossMin.value)));
      reff := Some(EffectiveResistance(rl, r1.value));
    }

    /** _calcC1, from the C0 field as it stands. */
    method CalcC1()
      requires fs.Some? && fp.Some? && cstray.Some? && fs.value != 0.0
      modifies this`c1
      ensures c1 == Some(StrayC1(fs.value, fp.value, c0, cstray.value))
    {
      c1 := Some(StrayC1(fs.value, fp.value, c0, cstray.value));
    }

    method CalcL1()
      requires fs.Some? && c1.Some? && fs.value != 0.0 && c1.value != 0.0
      modifies this`l1
      ensures l1 == Some(ResonantPartner(fs.value, c1.value))
    {
      l1 := Some(ResonantPartner(fs.value, c1.value));
    }

    /** _calcC0 overwrites the C0 field that _calcC1 read. */
    method CalcC0()
      requires c1.Some? && fs.Some? && fp.Some? && DistinctSquares(fs.value, fp.value)
      modifies this`c0
      ensures c0 == StaticC0(c1.value, fs.value, fp.value)
    {
      c0 := StaticC0(c1.value, fs.value, fp.value);
    }

    method CalcQ()
      requires fs.Some? && l1.Some? && reff.Some? && reff.value != 0.0
      modifies this`q
      ensures q == Some(Quality(fs.value, l1.value, reff.value))
    {
      q := Some(Quality(fs.value, l1.value, reff.value));
    }

    /** The steps of calcParameters after the analysis: _calcR, _calcC1,
      _calcL1, _calcC0 and _calcQ, on the analysed fields and the C0 the
      object held. */
    method Derive()
      requires lossMin.Some? && fs.Some? && fp.Some? && cstray == Some(StrayCapacitance)
      requires Computable(rl, Resonance(lossMin.value, fs.value, fp.value), c0)
      modifies this`r1, this`reff, this`c1, this`l1, this`c0, this`q
      ensures var m := Model(rl, Resonance(lossMin.value, fs.value, fp.value), old(c0));
        r1 == Some(m.r1) && reff == Some(m.reff) && c1 == Some(m.c1) && l1 == Some(m.l1)
        && c0 == m.c0 && q == Some(m.q)
    {
      AbsLossResistance(rl, lossMin.value);
      StrayC1Sign(fs.value, fp.value, c0, StrayCapacitance);
      CalcR();
      CalcC1();
      CalcL1();
      CalcC0();
      CalcQ();
    }

    /** calcParameters: analyse, R, C1, L1, C0, Q, with no handler, so a
      failed analysis propagates. */
    method CalcParameters() returns (c: Completion)
      requires |dataResonance| > 0 && ArgMaxLoss(dataResonance) < |dataStray| ==>
        Computable(rl, Locate(dataResonance), c0)
      modifies this`lossMin, this`fs, this`fp, this`cstray
      modifies this`r1, this`reff, this`c1, this`l1, this`c0, this`q
      ensures c == Completed <==> |dataResonance| > 0 && ArgMaxLoss(dataResonance) < |dataStray|
      ensures |dataResonance| == 0 ==> unchanged(this)
      ensures |dataResonance| > 0 ==>
        var res := Locate(dataResonance);
        lossMin == Some(res.lossMin) && fs == Some(res.fs) && fp == Some(res.fp)
      ensures c == Raised ==> (cstray == old(cstray)
        && r1 == old(r1) && reff == old(reff) && c1 == old(c1) && l1 == old(l1) && c0 == old(c0) && q == old(q))
      ensures c == Completed ==> (cstray == Some(StrayCapacitance)
        && var m := Model(rl, Resonance(lossMin.value, fs.value, fp.value), old(c0));
        r1 == Some(m.r1) && reff == Some(m.reff) && c1 == Some(m.c1) && l1 == Some(m.l1)
        && c0 == m.c0 && q == Some(m.q))
    {
      c := AnalyseData();
      if c == Raised {
        return;
      }
      assert Locate(dataResonance) == Resonance(lossMin.value, fs.value, fp.value);
      Derive();
    }

    /** (C0, C1, L1, R1, Q, fs, fp). */
    method GetResults() returns (r: (real, Option<real>, Option<real>, Option<real>, Option<real>, Option<real>, Option<real>))
      ensures r == (c0, c1, l1, r1, q, fs, fp)
    {
      r := (c0, c1, l1, r1, q, fs, fp);
    }
  }
}
