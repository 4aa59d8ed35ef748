/** The closed-form equivalent-circuit formulas shared by the extraction
    methods, over the reals. Every division states its nonzero denominator
    as a precondition; the callers decide what a zero denominator does
    (a raise for a Python float, inf or nan for a numpy float, which the
    model excludes). */
module Formulas {

  ghost predicate IsExp10(f: real -> real) {
    forall x: real :: f(x) > 0.0 && (f(x) < 1.0 <==> x < 0.0) && (f(x) > 1.0 <==> x > 0.0)
  }

  /** The functions that behave like x |-> 10^x as far as the model needs:
      positive, below 1 exactly for negative x, above 1 exactly for positive
      x (so 10^0 == 1). */
  type Exp10 = f: real -> real | IsExp10(f)
    witness (x: real) => if x <= 0.0 then 1.0 / (1.0 - x) else 1.0 + x

  /** 10 ** x. Left unspecified beyond the facts of Exp10. */
  const Pow10: Exp10

  /** np.pi. */
  const Pi: real := 3.141592653589793

  function Abs(x: real): real { if x < 0.0 then -x else x }

  /** Sign facts about products and quotients, stated on variables that
      name the product so that the solver can use them by name. */
  lemma PositiveProduct(a: real, b: real, p: real)
    requires a > 0.0 && b > 0.0 && p == a * b
    ensures p > 0.0
  {
  }

  lemma PositiveSquare(a: real, p: real)
    requires a != 0.0 && p == a * a
    ensures p > 0.0
  {
    if a > 0.0 { PositiveProduct(a, a, p); } else { PositiveProduct(-a, -a, p); }
  }

  lemma QuotientSign(n: real, d: real, q: real)
    requires n > 0.0 && d != 0.0 && q == n / d
    ensures q > 0.0 <==> d > 0.0
  {
  }

  /** The equivalent-circuit values one extraction derives, besides fs
      and fp: motional resistance, effective resistance, motional
      capacitance and inductance, quality factor and static capacitance. */
  datatype Circuit = Circuit(r1: real, reff: real, c1: real, l1: real, q: real, c0: real)

  /** Motional resistance from an attenuation of db decibels seen through
      source and load resistances rl: 2*Rl*(10^(db/20) - 1). */
  function MotionalResistance(rl: real, db: real): real {
    2.0 * rl * (Pow10(db / 20.0) - 1.0)
  }

  /** reff = 2*Rl + R1. */
  function EffectiveResistance(rl: real, r1: real): real { 2.0 * rl + r1 }

  /** Phase-shift method: C1 = deltaF / (2*pi*fs**2*reff). */
  function PhaseC1(bw: real, fs: real, reff: real): real
    requires fs != 0.0 && reff != 0.0
  {
    bw / (2.0 * Pi * fs * fs * reff)
  }

  /** Phase-shift method: L1 = reff / (2*pi*deltaF). */
  function PhaseL1(reff: real, bw: real): real
    requires bw != 0.0
  {
    reff / (2.0 * Pi * bw)
  }

  /** Q = 2*pi*fs*L1 / r, with r the resistance the method divides by. */
  function Quality(fs: real, l1: real, r: real): real
    requires r != 0.0
  {
    2.0 * Pi * fs * l1 / r
  }

  /** fp**2 != fs**2, the nonzero denominator of C0, stated without the
      squares. */
  predicate DistinctSquares(fs: real, fp: real) { fp != fs && fp != -fs }

  lemma DistinctSquaresDenominator(fs: real, fp: real)
    ensures DistinctSquares(fs, fp) <==> fp * fp - fs * fs != 0.0
  {
    var d := fp * fp - fs * fs;
    var a, b := fp - fs, fp + fs;
    assert d == a * b;
    if a != 0.0 && b != 0.0 {
      var s := a * b;
      if a > 0.0 && b > 0.0 { PositiveProduct(a, b, s); }
      else if a < 0.0 && b < 0.0 { PositiveProduct(-a, -b, s); }
      else if a > 0.0 { PositiveProduct(a, -b, -s); }
      else { PositiveProduct(-a, b, -s); }
    }
  }

  /** C0 = C1*fs**2 / (fp**2 - fs**2). */
  function StaticC0(c1: real, fs: real, fp: real): real
    requires DistinctSquares(fs, fp)
  {
    DistinctSquaresDenominator(fs, fp);
    c1 * fs * fs / (fp * fp - fs * fs)
  }

  /** The element that resonates with x at fs: 1 / (4*pi**2*fs**2*x). */
  function ResonantPartner(fs: real, x: real): real
    requires fs != 0.0 && x != 0.0
  {
    1.0 / (4.0 * (Pi * Pi) * fs * fs * x)
  }

  /** -3 dB method: Q = fs / bandwidth. */
  function BandwidthQuality(fs: real, bw: real): real
    requires bw != 0.0
  {
    fs / bw
  }

  /** -3 dB method: L1 = Q*reff / (2*pi*fs), the inductance that Quality
      turns back into q. */
  function QualityL1(q: real, reff: real, fs: real): real
    requires fs != 0.0
  {
    q * reff / (2.0 * Pi * fs)
  }

  /** ESR = R1*(1 + C0/Cl)**2, or the marker -1 for Cl == 0. */
  function Esr(r1: real, c0: real, cl: real): real {
    if cl == 0.0 then -1.0 else r1 * Square(1.0 + c0 / cl)
  }

  /** x**2. */
  function Square(x: real): real { x * x }

  /** G3UUR variant: the fixture's shunt capacitance, 600 fF. */
  const StrayCapacitance: real := 0.0000000000006

  /** G3UUR variant: C1 = (fp/fs - 1)*2*(C0 + Cstray). */
  function StrayC1(fs: real, fp: real, c0: real, cstray: real): real
    requires fs != 0.0
  {
    (fp / fs - 1.0) * 2.0 * (c0 + cstray)
  }

  /** The motional resistance the methods compute from |loss_min|, with its
      effective resistance: R1 >= 0 for Rl > 0, R1 == 0 exactly when
      loss_min == 0, and reff == 2*Rl*10^(|loss_min|/20), so reff > R1. */
  lemma AbsLossResistance(rl: real, lossMin: real)
    ensures var r1 := MotionalResistance(rl, Abs(lossMin));
      && (rl > 0.0 ==> r1 >= 0.0)
      && (lossMin == 0.0 ==> r1 == 0.0)
      && (rl > 0.0 && lossMin != 0.0 ==> r1 > 0.0)
      && (rl != 0.0 ==> (r1 == 0.0 <==> lossMin == 0.0))
      && EffectiveResistance(rl, r1) == 2.0 * rl * Pow10(Abs(lossMin) / 20.0)
      && (rl > 0.0 ==> EffectiveResistance(rl, r1) > r1 && EffectiveResistance(rl, r1) > 0.0)
      && (rl != 0.0 ==> EffectiveResistance(rl, r1) != 0.0)
  {
    var p := Pow10(Abs(lossMin) / 20.0);
    assert p >= 1.0;
    assert lossMin == 0.0 <==> p == 1.0;
    assert EffectiveResistance(rl, MotionalResistance(rl, Abs(lossMin))) == 2.0 * rl * p;
    if rl != 0.0 {
      assert 2.0 * rl * p != 0.0;
    }
  }

  /** The resistance the older one-port calculation derives from -loss_min
      (not |loss_min|): Rm >= 0 exactly when loss_min <= 0, for Rl > 0,
      and Reff == 2*Rl*10^(-loss_min/20) never vanishes for Rl != 0. */
  lemma SignedLossResistance(rl: real, lossMin: real)
    ensures var rm := MotionalResistance(rl, -lossMin);
      && (rl > 0.0 ==> (rm >= 0.0 <==> lossMin <= 0.0))
      && EffectiveResistance(rl, rm) == 2.0 * rl * Pow10(-lossMin / 20.0)
      && (rl > 0.0 ==> EffectiveResistance(rl, rm) > 0.0)
      && (rl != 0.0 ==> EffectiveResistance(rl, rm) != 0.0)
  {
    var p := Pow10(-lossMin / 20.0);
    assert p > 0.0;
    assert p >= 1.0 <==> lossMin <= 0.0;
    if rl > 0.0 {
      if p >= 1.0 {
        assert 2.0 * rl * (p - 1.0) >= 0.0;
      } else {
        assert 2.0 * rl * (p - 1.0) < 0.0;
      }
    }
    assert EffectiveResistance(rl, MotionalResistance(rl, -lossMin)) == 2.0 * rl * p;
    if rl != 0.0 {
      assert 2.0 * rl * p != 0.0;
    }
  }

  /** The phase-shift formulas make L1 and C1 resonate at fs,
      L1*C1*4*pi**2*fs**2 == 1, and give Q == fs/deltaF when Q divides by
      reff. */
  lemma {:induction false} PhaseResonance(bw: real, fs: real, reff: real)
    requires bw != 0.0 && fs != 0.0 && reff != 0.0
    ensures PhaseL1(reff, bw) * PhaseC1(bw, fs, reff) * (4.0 * Pi * Pi * fs * fs) == 1.0
    ensures Quality(fs, PhaseL1(reff, bw), reff) == fs / bw
  {
    var a := 2.0 * Pi * bw;
    var b := 2.0 * Pi * fs * fs * reff;
    var l1 := reff / a;
    var c1 := bw / b;
    assert a * b == 4.0 * Pi * Pi * fs * fs * (reff * bw);
    calc {
      l1 * c1 * (4.0 * Pi * Pi * fs * fs);
      (reff * bw) / (a * b) * (4.0 * Pi * Pi * fs * fs);
      1.0;
    }
    calc {
      Quality(fs, l1, reff);
      2.0 * Pi * fs * (reff / a) / reff;
      2.0 * Pi * fs / a;
      fs / bw;
    }
  }

  /** x and ResonantPartner(fs, x) resonate at fs:
      x * (1/(4*pi**2*fs**2*x)) * 4*pi**2*fs**2 == 1. */
  lemma ResonantPair(fs: real, x: real)
    requires fs != 0.0 && x != 0.0
    ensures x * ResonantPartner(fs, x) * (4.0 * Pi * Pi * fs * fs) == 1.0
  {
    var f2 := fs * fs;
    PositiveSquare(fs, f2);
    var d := 4.0 * (Pi * Pi) * fs * fs;
    assert d == 4.0 * (Pi * Pi) * f2;
    PositiveProduct(4.0 * (Pi * Pi), f2, d);
    assert ResonantPartner(fs, x) == 1.0 / (d * x);
    assert x * (1.0 / (d * x)) == 1.0 / d;
  }

  /** QualityL1 inverts Quality: the inductance it derives from q gives
      back q. */
  lemma {:induction false} QualityInverse(q: real, reff: real, fs: real)
    requires reff != 0.0 && fs != 0.0
    ensures Quality(fs, QualityL1(q, reff, fs), reff) == q
  {
    var a := 2.0 * Pi * fs;
    calc {
      Quality(fs, QualityL1(q, reff, fs), reff);
      a * (q * reff / a) / reff;
      q * reff / reff;
      q;
    }
  }

  /** With Q = fs/bw, the -3 dB inductance is the phase-shift inductance
      reff/(2*pi*bw), and it is nonzero. */
  lemma {:induction false} BandwidthL1(bw: real, fs: real, reff: real)
    requires bw != 0.0 && fs != 0.0 && reff != 0.0
    ensures QualityL1(BandwidthQuality(fs, bw), reff, fs) == PhaseL1(reff, bw)
    ensures PhaseL1(reff, bw) != 0.0
  {
    var a := 2.0 * Pi * fs;
    calc {
      QualityL1(BandwidthQuality(fs, bw), reff, fs);
      (fs / bw) * reff / a;
      (fs * reff) / (bw * a);
      (fs * reff) / ((2.0 * Pi * bw) * fs);
      reff / (2.0 * Pi * bw);
    }
    var b := 2.0 * Pi * bw;
    assert b != 0.0;
    assert PhaseL1(reff, bw) * b == reff;
  }

  /** ESR is the marker -1 exactly when Cl == 0, for R1 >= 0; otherwise it
      is non-negative. */
  lemma EsrSign(r1: real, c0: real, cl: real)
    requires r1 >= 0.0
    ensures Esr(r1, c0, cl) == -1.0 <==> cl == 0.0
    ensures cl != 0.0 ==> Esr(r1, c0, cl) >= 0.0
  {
    if cl != 0.0 {
      var k := 1.0 + c0 / cl;
      var k2 := Square(k);
      assert k2 >= 0.0 by {
        if k != 0.0 { PositiveSquare(k, k2); }
      }
      var e := r1 * k2;
      if r1 > 0.0 && k2 > 0.0 { PositiveProduct(r1, k2, e); }
      assert e >= 0.0;
    }
  }

  /** A positive bandwidth, frequency and resistance give a positive C1. */
  lemma PhaseC1Positive(bw: real, fs: real, reff: real)
    requires bw > 0.0 && fs > 0.0 && reff > 0.0
    ensures PhaseC1(bw, fs, reff) > 0.0
  {
    var f2 := fs * fs;
    PositiveSquare(fs, f2);
    var d := 2.0 * Pi * fs * fs * reff;
    assert d == (2.0 * Pi * f2) * reff;
    PositiveProduct(2.0 * Pi * f2, reff, d);
    QuotientSign(bw, d, PhaseC1(bw, fs, reff));
  }

  /** C1 is 0 exactly when the bandwidth is: an int 0 deltaF gives
      C1 == 0.0. */
  lemma PhaseC1Zero(bw: real, fs: real, reff: real)
    requires fs != 0.0 && reff != 0.0
    ensures PhaseC1(bw, fs, reff) == 0.0 <==> bw == 0.0
  {
    var f2 := fs * fs;
    PositiveSquare(fs, f2);
    var d := 2.0 * Pi * fs * fs * reff;
    assert d == (2.0 * Pi * f2) * reff;
    if reff > 0.0 {
      PositiveProduct(2.0 * Pi * f2, reff, d);
    } else {
      PositiveProduct(2.0 * Pi * f2, -reff, -d);
    }
    assert PhaseC1(bw, fs, reff) * d == bw;
  }

  /** For fs > 0 and C0 + Cstray > 0, the G3UUR C1 is positive exactly when
      fp > fs; it is nonzero whenever fp != fs and C0 + Cstray != 0. */
  lemma StrayC1Sign(fs: real, fp: real, c0: real, cstray: real)
    requires fs != 0.0
    ensures fs > 0.0 && c0 + cstray > 0.0 ==> (StrayC1(fs, fp, c0, cstray) > 0.0 <==> fp > fs)
    ensures fp != fs && c0 + cstray != 0.0 ==> StrayC1(fs, fp, c0, cstray) != 0.0
  {
    var r := fp / fs;
    assert r * fs == fp;
    var a := r - 1.0;
    var b := 2.0 * (c0 + cstray);
    assert StrayC1(fs, fp, c0, cstray) == a * b;
    if fs > 0.0 {
      assert fp > fs <==> r > 1.0;
    }
    if fp != fs {
      assert a != 0.0;
    }
    if fs > 0.0 && b > 0.0 {
      if a > 0.0 { PositiveProduct(a, b, a * b); }
      if a <= 0.0 { assert a * b <= 0.0; }
    }
    if a != 0.0 && b != 0.0 {
      var p := a * b;
      if a > 0.0 && b > 0.0 { PositiveProduct(a, b, p); }
      else if a < 0.0 && b < 0.0 { PositiveProduct(-a, -b, p); }
      else if a > 0.0 { PositiveProduct(a, -b, -p); }
      else { PositiveProduct(-a, b, -p); }
    }
  }

  /** C1 enters the G3UUR C1 affinely: two different former C0 values give
      two different C1 values whenever fp != fs. */
  lemma StrayC1Injective(fs: real, fp: real, c0a: real, c0b: real, cstray: real)
    requires fs != 0.0 && fp != fs && c0a != c0b
    ensures StrayC1(fs, fp, c0a, cstray) != StrayC1(fs, fp, c0b, cstray)
  {
    var r := fp / fs;
    assert r * fs == fp;
    var a := r - 1.0;
    assert a != 0.0;
    var d := StrayC1(fs, fp, c0a, cstray) - StrayC1(fs, fp, c0b, cstray);
    assert d == a * (2.0 * (c0a - c0b));
    var e := 2.0 * (c0a - c0b);
    assert e != 0.0;
    if a > 0.0 && e > 0.0 { PositiveProduct(a, e, d); }
    else if a < 0.0 && e < 0.0 { PositiveProduct(-a, -e, d); }
    else if a > 0.0 { PositiveProduct(a, -e, -d); }
    else { PositiveProduct(-a, e, -d); }
  }

  /** With L1 = 1/(4*pi**2*fs**2*C1), Q = 2*pi*fs*L1/reff is
      1/(2*pi*fs*C1*reff). */
  lemma {:induction false} PartnerQuality(fs: real, c1: real, reff: real)
    requires fs != 0.0 && c1 != 0.0 && reff != 0.0
    ensures Quality(fs, ResonantPartner(fs, c1), reff) * (2.0 * Pi * fs * c1 * reff) == 1.0
  {
    var l1 := ResonantPartner(fs, c1);
    ResonantPair(fs, c1);
    assert c1 * l1 * (4.0 * Pi * Pi * fs * fs) == 1.0;
    var q := Quality(fs, l1, reff);
    assert q * reff == 2.0 * Pi * fs * l1;
    calc {
      q * (2.0 * Pi * fs * c1 * reff);
      (q * reff) * (2.0 * Pi * fs * c1);
      (2.0 * Pi * fs * l1) * (2.0 * Pi * fs * c1);
      c1 * l1 * (4.0 * Pi * Pi * fs * fs);
      1.0;
    }
  }

  /** A nonzero C1 at a nonzero fs gives a nonzero C0. */
  lemma StaticC0NonZero(c1: real, fs: real, fp: real)
    requires c1 != 0.0 && fs != 0.0 && DistinctSquares(fs, fp)
    ensures StaticC0(c1, fs, fp) != 0.0
  {
    var f2 := fs * fs;
    PositiveSquare(fs, f2);
    DistinctSquaresDenominator(fs, fp);
    var n := c1 * fs * fs;
    assert n == c1 * f2;
    if c1 > 0.0 { PositiveProduct(c1, f2, n); } else { PositiveProduct(-c1, f2, -n); }
    var d := fp * fp - fs * fs;
    assert StaticC0(c1, fs, fp) * d == n;
  }

  /** With L1 = reff/(2*pi*bw) and Q dividing by a resistance r1 below
      reff, Q == fs*reff/(bw*r1), which exceeds fs/bw. */
  lemma {:induction false} ResistanceQuality(fs: real, bw: real, reff: real, r1: real)
    requires fs > 0.0 && bw > 0.0 && reff > r1 > 0.0
    ensures Quality(fs, PhaseL1(reff, bw), r1) == fs * reff / (bw * r1)
    ensures Quality(fs, PhaseL1(reff, bw), r1) > fs / bw
  {
    var a := 2.0 * Pi * bw;
    var br := bw * r1;
    PositiveProduct(bw, r1, br);
    calc {
      Quality(fs, PhaseL1(reff, bw), r1);
      2.0 * Pi * fs * (reff / a) / r1;
      (2.0 * Pi * fs * reff) / (a * r1);
      (2.0 * Pi * fs * reff) / ((2.0 * Pi) * br);
      fs * reff / br;
    }
    var ratio := fs / bw;
    QuotientSign(fs, bw, ratio);
    var k := reff / r1;
    assert k * r1 == reff;
    assert k > 1.0;
    assert fs * reff / br == ratio * k;
    var e := ratio * (k - 1.0);
    PositiveProduct(ratio, k - 1.0, e);
    assert ratio * k == ratio + e;
  }

  /** For positive C1 and frequencies, C0 is positive exactly when the
      parallel resonance lies above the series resonance. */
  lemma StaticC0Sign(c1: real, fs: real, fp: real)
    requires c1 > 0.0 && fs > 0.0 && fp > 0.0 && fp != fs
    ensures StaticC0(c1, fs, fp) > 0.0 <==> fp > fs
  {
    var f2 := fs * fs;
    PositiveSquare(fs, f2);
    var n := c1 * fs * fs;
    PositiveProduct(c1, f2, n);
    var p2 := fp * fp;
    var den := p2 - f2;
    if fp > fs {
      PositiveProduct(fp - fs, fp + fs, den);
    } else {
      PositiveProduct(fs - fp, fp + fs, -den);
    }
    QuotientSign(n, den, StaticC0(c1, fs, fp));
  }
}
