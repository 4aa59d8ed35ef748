# Crystal parameter extraction, modelled in Dafny

This project models the parameter-extraction core of the automated crystal
parameter measurement program (amcp). A network analyser measures a quartz
crystal in a transmission fixture and produces a sweep of (frequency,
transmission loss, phase) rows. From that sweep each method class computes
the series and parallel resonance frequencies fs and fp and the
Butterworth-Van Dyke equivalent circuit: motional resistance R1 (with the
effective resistance reff = 2·Rl + R1), motional capacitance C1 and
inductance L1, quality factor Q, package capacitance C0 and, in the -3 dB
method, the ESR at a load capacitance.

There are five classes, one Dafny module each, plus four shared modules:

- `Wrappers` (`wrappers.dfy`): `Option`, the error string, and the two
  outcome types described below.
- `Sweeps` (`sweep.dfy`): the sweep, and the searches every class shares.
  These are the resonance locator (first index of the largest and of the
  smallest loss, like pandas `idxmax`/`idxmin`), the largest frequency, the
  row or two rows nearest to a phase angle (argsort), and first / last
  flag searches.
- `Formulas` (`formulas.dfy`): the closed-form formulas over `real`, and
  lemmas about them. π is the concrete real 3.141592653589793. 10^x is
  `Pow10`, a constant of a subset type of functions that are positive,
  below 1 for negative arguments and above 1 for positive ones.
- `PhaseCrossing` (`phase_crossing.dfy`): the ±45° crossing scan shared by
  the two phase-shift classes.
- `PhaseShiftMethods` (`phaseshift_method.dfy`, modelling `methods/phaseshift_method.py`): the phase-shift method. It
  uses a handler that turns any failure into the error string.
- `ThreeDbMethods` (`threedb_method.dfy`, modelling `methods/threedb_method.py`): the -3 dB method. Its bandwidth
  comes from a scan against loss_min - 3, and it adds the ESR.
- `G3uurMethods` (`g3uur_variant_method.dfy`, modelling `methods/g3uur_variant_method.py`): the G3UUR variant. It takes
  C1 from fs, fp and the shunt capacitance C0 + Cstray, and reads the C0
  that the previous run left.
- `PhaseShiftLegacy` (`phaseshift_legacy.dfy`, modelling `phaseshift.py`): the older phase-shift class. It has
  no handler, and its Q divides by R1.
- `ParamCalc` (`param_calc.dfy`, modelling `param_calc.py`): the oldest calculation. It uses the
  largest frequency as fs, a ±15° nearest-two bandwidth, and Rm computed
  from -loss_min.

Each class is a Dafny `class` whose fields are the Python attributes.
Attributes that start as `None` are `Option<real>` fields. Each `_calc*`
step is a method that assigns its field and is specified by a formula
function. `calcParameters` runs the steps in the source's order and is
proved against a model function of the sweep (`Model`). Lemmas then prove
the model's properties: the resonance identity L1·C1·4π²·fs² = 1, the Q
relations, sign facts, and the G3UUR method's dependence on its own
previous state.

Exceptions are modelled as outcomes:

- `Completion` (`Completed` / `Raised`) is used where an exception escapes.
- `CalcStatus` (`ReturnedZero` / `ReturnedError(CalcError)`) is used where
  the source catches the exception and returns 0 or the error string.

Each outcome says which fields were written before the failing point.

## Model

| member | source | states |
|---|---|---|
| Sweeps.Spread | python3/methods/phaseshift_method.py:83 | max(freq) - min(freq) of two slots is nonnegative, equals their absolute difference, and is zero exactly when the slots are equal |
| Sweeps.ArgMaxLoss | python3/methods/phaseshift_method.py:54-57 | the idxmax row: an index in range whose loss is the largest, with every earlier row strictly smaller (first maximiser) |
| Sweeps.ArgMinLoss | python3/methods/phaseshift_method.py:58 | the idxmin row: an index in range whose loss is the smallest, with every earlier row strictly larger (first minimiser) |
| Sweeps.Locate | python3/methods/phaseshift_method.py:53-58 | the resonance locator every class uses: loss_min is the loss at the idxmax row, fs that row's frequency and fp the frequency at the idxmin row. It has no contract of its own; ArgMaxLoss and ArgMinLoss state which rows those are, and SingleMaximumIsSeriesResonance what it returns for a unique maximum |
| Sweeps.SingleMaximumIsSeriesResonance | python3/methods/phaseshift_method.py:54-57 | a row whose loss exceeds every other row's is the located series resonance: fs is its frequency and loss_min its loss |
| Sweeps.MaxFreq | python3/param_calc.py:59 | max of the frequency column: no row's frequency exceeds it, and some row attains it |
| Sweeps.Nearest | python3/methods/phaseshift_method.py:89-91 | argsort()[0:1] of abs(phase - target): a row whose phase distance to the target is minimal over the whole sweep |
| Sweeps.NearestTwo | python3/param_calc.py:68-70 | argsort()[0:2] selects two different rows of the sweep |
| Sweeps.NearestTwoIsNearestPair | python3/param_calc.py:68-70 | the first selected row is at least as close as the second, and no third row is closer than the second (proved by induction over the sweep) |
| Sweeps.FirstTrue | python3/methods/threedb_method.py:64-68 | the index of the first set flag, or the length when no flag is set; no earlier flag is set |
| Sweeps.LastTrueBefore | python3/methods/threedb_method.py:61-63 | the last set flag below k, with none set between it and k, or None when no flag below k is set |
| Formulas.DistinctSquaresDenominator | python3/methods/phaseshift_method.py:106-107 | fp² - fs² is nonzero exactly when fp is neither fs nor -fs |
| Formulas.MotionalResistance | python3/methods/phaseshift_method.py:94 | 2·Rl·(10^(db/20) - 1), used with db = abs(loss_min) by four classes and with db = -loss_min in `param_calc.py`; its properties are stated by AbsLossResistance and SignedLossResistance |
| Formulas.EffectiveResistance | python3/methods/phaseshift_method.py:95 | reff = 2·Rl + R1; AbsLossResistance and SignedLossResistance state its sign and that it equals 2·Rl·10^(db/20) |
| Formulas.PhaseC1 | python3/methods/phaseshift_method.py:104 | the phase-shift C1 = deltaF/(2π·fs²·reff); PhaseResonance and PhaseC1Positive state that it resonates with PhaseL1 at fs and is positive |
| Formulas.PhaseL1 | python3/methods/phaseshift_method.py:101 | the phase-shift L1 = reff/(2π·deltaF); PhaseResonance states the resonance and BandwidthL1 that the -3 dB L1 agrees with it |
| Formulas.Quality | python3/methods/phaseshift_method.py:98 | Q = 2π·fs·L1/r, with r the resistance the class divides by; PhaseResonance, QualityInverse, PartnerQuality and ResistanceQuality state what it equals in each method |
| Formulas.StaticC0 | python3/methods/phaseshift_method.py:107 | C0 = C1·fs²/(fp² - fs²); StaticC0NonZero and StaticC0Sign state that it is nonzero and its sign |
| Formulas.ResonantPartner | python3/methods/threedb_method.py:83 | 1/(4π²·fs²·x), the -3 dB C1 from L1 and the G3UUR L1 from C1; ResonantPair states that it resonates with x at fs |
| Formulas.BandwidthQuality | python3/methods/threedb_method.py:77 | the -3 dB Q = fs/db3_bandwidth; BandwidthL1 states that the L1 derived from it is the phase-shift L1 |
| Formulas.QualityL1 | python3/methods/threedb_method.py:80 | the -3 dB L1 = Q·reff/(2π·fs); QualityInverse states that the Q formula turns it back into Q |
| Formulas.Esr | python3/methods/threedb_method.py:88-92 | ESR = -1 for Cl == 0, else R1·(1 + C0/Cl)²; EsrSign states both branches |
| Formulas.StrayC1 | python3/methods/g3uur_variant_method.py:71 | the G3UUR C1 = (fp/fs - 1)·2·(C0 + Cstray), with Cstray the constant StrayCapacitance = 600 fF of line 57; StrayC1Sign and StrayC1Injective state its sign and its dependence on C0 |
| Formulas.AbsLossResistance | python3/methods/phaseshift_method.py:93-95 | R1 = 2·Rl·(10^(abs(loss_min)/20) - 1): R1 >= 0 for Rl > 0, R1 == 0 exactly when loss_min == 0 (for Rl != 0), reff == 2·Rl·10^(abs(loss_min)/20) and reff > R1, reff > 0 for Rl > 0 |
| Formulas.SignedLossResistance | python3/param_calc.py:93-94 | Rm = 2·Rl·(10^(-loss_min/20) - 1): Rm >= 0 exactly when loss_min <= 0 (Rl > 0), Reff == 2·Rl·10^(-loss_min/20) is positive for Rl > 0 and nonzero for Rl != 0 |
| Formulas.PhaseResonance | python3/methods/phaseshift_method.py:97-104 | with C1 = deltaF/(2π·fs²·reff) and L1 = reff/(2π·deltaF): L1·C1·4π²·fs² == 1 and Q = 2π·fs·L1/reff == fs/deltaF |
| Formulas.ResonantPair | python3/methods/threedb_method.py:82-83 | x and its resonant partner 1/(4π²·fs²·x) multiply, times 4π²·fs², to 1 |
| Formulas.QualityInverse | python3/methods/threedb_method.py:79-80 | L1 = Q·reff/(2π·fs) inverts Q = 2π·fs·L1/reff: feeding this L1 back into the Q formula gives Q again |
| Formulas.BandwidthL1 | python3/methods/threedb_method.py:76-80 | L1 from Q = fs/bw equals the phase-shift L1 reff/(2π·bw), and is nonzero |
| Formulas.EsrSign | python3/methods/threedb_method.py:88-92 | ESR == -1 exactly when Cl == 0; otherwise ESR = R1·(1 + C0/Cl)² >= 0 for R1 >= 0 |
| Formulas.PhaseC1Positive | python3/methods/phaseshift_method.py:103-104 | a positive bandwidth, fs and reff give a positive C1 |
| Formulas.PhaseC1Zero | python3/methods/phaseshift_method.py:103-104 | for nonzero fs and reff, C1 is 0 exactly when deltaF is |
| Formulas.StrayC1Sign | python3/methods/g3uur_variant_method.py:70-71 | C1 = (fp/fs - 1)·2·(C0 + Cstray): for fs > 0 and C0 + Cstray > 0, C1 > 0 exactly when fp > fs; C1 != 0 when fp != fs and C0 + Cstray != 0 |
| Formulas.StrayC1Injective | python3/methods/g3uur_variant_method.py:70-71 | for fp != fs, two different C0 values give two different C1 values |
| Formulas.PartnerQuality | python3/methods/g3uur_variant_method.py:64-68 | Q computed from L1 = 1/(4π²·fs²·C1) satisfies Q·2π·fs·C1·reff == 1 |
| Formulas.StaticC0NonZero | python3/methods/phaseshift_method.py:106-107 | C0 = C1·fs²/(fp² - fs²) is nonzero for C1, fs nonzero |
| Formulas.ResistanceQuality | python3/phaseshift.py:149-152 | Q dividing by R1 instead of reff: Q == fs·reff/(bw·R1), which exceeds fs/bw when reff > R1 > 0 |
| Formulas.StaticC0Sign | python3/methods/phaseshift_method.py:106-107 | for C1, fs, fp > 0 and fp != fs, C0 > 0 exactly when fp > fs |
| PhaseCrossing.PlusFlags | python3/methods/phaseshift_method.py:69 | one flag per row: pair (m-1, m) descends through +45° |
| PhaseCrossing.MinusFlags | python3/methods/phaseshift_method.py:74 | one flag per row: pair (m-1, m) descends through -45° and failed the +45° test (elif) |
| PhaseCrossing.Recorded | python3/methods/phaseshift_method.py:64-78 | the two slots a scan from m = 1 leaves: the midpoint of the last +45° pair before the stop, and the midpoint of the first -45° pair, each 0 when there is none; Scan is proved equal to it, and LastPlusPairRecorded, FirstMinusPairRecorded and RecordedNonNegative state its contents |
| PhaseCrossing.Bandwidth | python3/methods/phaseshift_method.py:83 | deltaF = max(freq) - min(freq) of the slots; the lemmas NoCrossingZeroBandwidth, SingleCrossingBandwidth and OrderedCrossingsBandwidth state its value in each case |
| PhaseCrossing.Scan | python3/methods/phaseshift_method.py:67-80 | the for-m loop with the two-slot list: it completes exactly when phase[0] > 45 (or the sweep is empty), since otherwise the lookup of label -1 at m = 0 fails. A completed scan leaves the last +45° midpoint before the stop and the midpoint at the first -45° pair, and reports exactly which of the two slots it wrote; a failed one writes neither slot and leaves both 0 |
| PhaseCrossing.PlusPairNeverStops | python3/methods/phaseshift_method.py:69-78 | a pair that passes the +45° test is never the -45° stop, even when its phase jumps through both angles |
| PhaseCrossing.LastPlusPairRecorded | python3/methods/phaseshift_method.py:69-72 | the +45° slot holds the midpoint of the last +45° pair before the stop (later pairs overwrite earlier ones) |
| PhaseCrossing.FirstMinusPairRecorded | python3/methods/phaseshift_method.py:74-78 | the scan breaks at the first -45° pair and records its midpoint |
| PhaseCrossing.NoCrossingZeroBandwidth | python3/methods/phaseshift_method.py:64-83 | with no crossing in the sweep both slots keep 0, deltaF == 0, and deltaF is the int 0 |
| PhaseCrossing.RecordedNonNegative | python3/methods/phaseshift_method.py:64-83 | for positive frequencies both slots are >= 0; the -45° slot is positive exactly when the scan stopped, the +45° slot exactly when a +45° pair came before the stop |
| PhaseCrossing.SingleCrossingBandwidth | python3/methods/phaseshift_method.py:83 | with positive frequencies and only one slot recorded, deltaF equals that slot's midpoint |
| PhaseCrossing.OrderedCrossingsBandwidth | python3/methods/phaseshift_method.py:83 | on a strictly increasing sweep with both crossings recorded, the +45° midpoint lies below the -45° one and deltaF is their difference |
| PhaseCrossing.Difference | python3/methods/phaseshift_method.py:64-83 | max(freq) - min(freq) where an unwritten slot is still the int 0: max and min keep the first of equal elements, so the result is the int 0 exactly when both return an unwritten slot, and a numpy float otherwise; DeltaMagnitude states its value and DeltaIntZero when it is the int 0 |
| PhaseCrossing.Delta | python3/methods/phaseshift_method.py:64-83 | self.deltaF after a completed scan: Difference of the recorded slots and of which of them the scan wrote; the Scan callers are proved to store it |
| PhaseCrossing.DeltaMagnitude | python3/methods/phaseshift_method.py:83 | whatever its type, deltaF is the number max(freq) - min(freq) of the recorded slots |
| PhaseCrossing.DeltaIntZero | python3/methods/phaseshift_method.py:64-83 | for positive frequencies deltaF is the int 0 exactly when the scan wrote neither slot |
| PhaseCrossing.ZeroMidpointIsIntZero | python3/methods/phaseshift_method.py:74-83 | when only the -45° slot is written and its midpoint is exactly 0, max and min both return the unwritten int slot, so deltaF is the int 0 although a slot was written |
| PhaseShiftMethods.ModelResonates | python3/methods/phaseshift_method.py:93-104 | the derived circuit has L1·C1·4π²·fs² == 1 and Q == fs/deltaF |
| PhaseShiftMethods.ModelC0Sign | python3/methods/phaseshift_method.py:103-107 | for Rl, fs, fp and deltaF positive and fp != fs: C1 > 0, and C0 > 0 exactly when fp > fs |
| PhaseShiftMethods.SweepWidth | python3/methods/phaseshift_method.py:62-83 | self.deltaF of a sweep: max(freq) - min(freq) of the recorded slots, or the int 0 when the handler swallows the failed m = 0 lookup; ScanBandwidth and CalcParameters are proved against it, and IntZeroWithoutCrossing states when it is the int 0 |
| PhaseShiftMethods.IntZeroWithoutCrossing | python3/methods/phaseshift_method.py:62-83 | for positive frequencies, deltaF is the int 0 exactly when phase[0] <= 45 or the scan wrote no slot |
| PhaseShiftMethods.Model | python3/methods/phaseshift_method.py:93-107 | the circuit _calcR, _calcC1, _calcL1, _calcQ and _calcC0 compute from Rl, the located resonance and deltaF; CalcParameters is proved equal to it, and ModelResonates and ModelC0Sign state its properties |
| PhaseShiftMethods.PhaseShiftMethod.constructor | python3/methods/phaseshift_method.py:31-45 | a fresh object has no data, Rl = 12.5, C0 = 0.0 and every other value None |
| PhaseShiftMethods.PhaseShiftMethod.UpdateData | python3/methods/phaseshift_method.py:136-142 | the sweep is replaced by the given one |
| PhaseShiftMethods.PhaseShiftMethod.LocateResonances | python3/methods/phaseshift_method.py:48-58 | fres is the first frequency step; loss_min, fs and fp are the located maximum loss, its frequency and the frequency of the minimum |
| PhaseShiftMethods.PhaseShiftMethod.ScanBandwidth | python3/methods/phaseshift_method.py:62-86 | deltaF is max(freq) - min(freq) of the recorded slots with its Python type, the int 0 when the handler swallowed the failed m = 0 lookup |
| PhaseShiftMethods.PhaseShiftMethod.LocatePhaseZero | python3/methods/phaseshift_method.py:88-91 | freq_phase0 and loss_phase0 come from one row whose phase is closest to 0 |
| PhaseShiftMethods.PhaseShiftMethod.AnalyseData | python3/methods/phaseshift_method.py:47-91 | raises exactly for a sweep of fewer than two rows, before any write; otherwise fres, loss_min, fs, fp, deltaF and the phase-0 row are all written as above |
| PhaseShiftMethods.PhaseShiftMethod.CalcR | python3/methods/phaseshift_method.py:93-95 | R1 and reff follow the abs(loss_min) formula |
| PhaseShiftMethods.PhaseShiftMethod.CalcQ | python3/methods/phaseshift_method.py:97-98 | Q = 2π·fs·L1/reff |
| PhaseShiftMethods.PhaseShiftMethod.CalcL1 | python3/methods/phaseshift_method.py:100-101 | raises exactly when deltaF is the int 0 (reff / 0.0), leaving L1 unchanged; otherwise L1 = reff/(2π·deltaF) |
| PhaseShiftMethods.PhaseShiftMethod.CalcC1 | python3/methods/phaseshift_method.py:103-104 | C1 = deltaF/(2π·fs²·reff), with the int 0 deltaF counting as 0 |
| PhaseShiftMethods.PhaseShiftMethod.CalcC0 | python3/methods/phaseshift_method.py:106-107 | C0 = C1·fs²/(fp² - fs²) |
| PhaseShiftMethods.PhaseShiftMethod.Derive | python3/methods/phaseshift_method.py:117-121 | raises exactly when deltaF is the int 0, after R1 and reff are written and C1 == 0.0, with L1, Q and C0 unchanged; otherwise R, C1, L1, Q and C0 in that order leave the fields equal to the model circuit of the analysed fields |
| PhaseShiftMethods.PhaseShiftMethod.CalcParameters | python3/methods/phaseshift_method.py:109-134 | returns the error string exactly for a sweep of fewer than two rows (nothing written) or an int 0 deltaF (R1, reff written, C1 == 0.0, L1, Q, C0 unchanged); otherwise returns 0 with the analysis fields set and R1, reff, C1, L1, Q, C0 equal to the model circuit of the sweep |
| PhaseShiftMethods.PhaseShiftMethod.GetResults | python3/methods/phaseshift_method.py:144-149 | (C0, C1, L1, R1, Q, fs, fp) |
| ThreeDbMethods.LowerFlags | python3/methods/threedb_method.py:61 | one flag per pair (m, m+1): loss[m] <= th and loss[m+1] >= th |
| ThreeDbMethods.UpperFlags | python3/methods/threedb_method.py:64 | one flag per pair: loss[m] >= th and loss[m+1] <= th, only where the lower test failed (elif) |
| ThreeDbMethods.Threshold | python3/methods/threedb_method.py:56 | db3_point = loss_min - 3, the level the -3 dB scan compares against; it has no contract of its own; NewBandwidth, and through it the AnalyseData and CalcParameters contracts, apply the scan at this level for the located loss_min |
| ThreeDbMethods.BandwidthOf | python3/methods/threedb_method.py:57-68 | the db3_bandwidth one scan writes, if any: frequency[k] minus the frequency of the last lower pair before the first upper pair k; Scan is proved equal to it, and ScanBandwidthPairs, ScanBandwidthPositive and ScanKeepsBandwidth state its value |
| ThreeDbMethods.NewBandwidth | python3/methods/threedb_method.py:57-70 | db3_bandwidth after the analysis: the written value, or the previous one when the scan writes none; AnalyseData and CalcParameters are proved against it |
| ThreeDbMethods.Scan | python3/methods/threedb_method.py:57-70 | the for-m loop against the threshold writes exactly the bandwidth BandwidthOf specifies: upper frequency minus the last lower frequency at the first upper pair, or nothing when the handler ends the loop |
| ThreeDbMethods.LevelPairIsLower | python3/methods/threedb_method.py:61-64 | a pair equal to the threshold on both sides is taken by the lower branch and is never the upper crossing |
| ThreeDbMethods.ScanBandwidthPairs | python3/methods/threedb_method.py:59-68 | the scan stops at the first upper pair k, and the bandwidth is frequency[k] - frequency[j] for the last lower pair j before k (left samples, no interpolation) |
| ThreeDbMethods.ScanBandwidthPositive | python3/methods/threedb_method.py:61-68 | on a strictly increasing sweep a written bandwidth is positive |
| ThreeDbMethods.ScanKeepsBandwidth | python3/methods/threedb_method.py:59-70 | the scan writes no bandwidth, so the previous one stays, exactly when the sweep has no upper pair or no lower pair before its first upper pair |
| ThreeDbMethods.Model | python3/methods/threedb_method.py:72-86 | the circuit _calcR, _calcQ, _calcL1, _calcC1 and _calcC0 compute from Rl, the located resonance and db3_bandwidth; Derive and CalcParameters are proved equal to it, and ModelResonates states its properties |
| ThreeDbMethods.ModelResonates | python3/methods/threedb_method.py:76-83 | L1 == reff/(2π·bw), L1·C1·4π²·fs² == 1, and the Q formula applied to L1 gives back Q |
| ThreeDbMethods.ThreedbMethod.constructor | python3/methods/threedb_method.py:33-49 | a fresh object has no data, Rl = 12.5, C0 = 0.0 and every other value None |
| ThreeDbMethods.ThreedbMethod.UpdateData | python3/methods/threedb_method.py:127-133 | the sweep is replaced by the given one |
| ThreeDbMethods.ThreedbMethod.AnalyseData | python3/methods/threedb_method.py:51-70 | raises exactly on an empty sweep, before any write; otherwise loss_min, fs, fp are the located resonance and db3_bandwidth is the written bandwidth or its previous value |
| ThreeDbMethods.ThreedbMethod.CalcR | python3/methods/threedb_method.py:72-74 | R1 and reff follow the abs(loss_min) formula |
| ThreeDbMethods.ThreedbMethod.CalcQ | python3/methods/threedb_method.py:76-77 | raises exactly when db3_bandwidth is still None, leaving Q; otherwise Q = fs/db3_bandwidth |
| ThreeDbMethods.ThreedbMethod.CalcL1 | python3/methods/threedb_method.py:79-80 | L1 = Q·reff/(2π·fs) |
| ThreeDbMethods.ThreedbMethod.CalcC1 | python3/methods/threedb_method.py:82-83 | C1 = 1/(4π²·fs²·L1) |
| ThreeDbMethods.ThreedbMethod.CalcC0 | python3/methods/threedb_method.py:85-86 | C0 = C1·fs²/(fp² - fs²) |
| ThreeDbMethods.ThreedbMethod.CalcEsr | python3/methods/threedb_method.py:88-92 | ESR = -1 for Cl == 0, else R1·(1 + C0/Cl)² |
| ThreeDbMethods.ThreedbMethod.Derive | python3/methods/threedb_method.py:105-111 | R then Q: without a bandwidth the error string, with R1 and reff written and the rest unchanged; with one, 0 and the model circuit and its ESR |
| ThreeDbMethods.ThreedbMethod.CalcParameters | python3/methods/threedb_method.py:94-125 | sets Rl = r_setup and Cl = cl·1e-12 first; returns the error string for an empty sweep or a missing bandwidth, and otherwise 0 with the fields equal to the model circuit of the located resonance and the bandwidth |
| ThreeDbMethods.ThreedbMethod.GetResults | python3/methods/threedb_method.py:135-140 | (C0, C1, L1, R1, Q, fs, fp, ESR) |
| G3uurMethods.ModelResonates | python3/methods/g3uur_variant_method.py:64-74 | L1·C1·4π²·fs² == 1, and Q, computed last from this run's L1, satisfies Q·2π·fs·C1·reff == 1 |
| G3uurMethods.ModelC1Sign | python3/methods/g3uur_variant_method.py:70-71 | for fs > 0 and C0 + Cstray > 0, C1 > 0 exactly when fp > fs |
| G3uurMethods.FreshC1 | python3/methods/g3uur_variant_method.py:70-71 | on a fresh object (C0 = 0.0) C1 == 2·(fp/fs - 1)·Cstray |
| G3uurMethods.C1DependsOnFormerC0 | python3/methods/g3uur_variant_method.py:70-74 | two different C0 values held before the run give two different C1 values |
| G3uurMethods.SecondRunDiffers | python3/methods/g3uur_variant_method.py:76-82 | not idempotent: the first run on a fresh object leaves C0 != 0, so a second run on the same sweeps derives a different C1 |
| G3uurMethods.Model | python3/methods/g3uur_variant_method.py:60-74 | the circuit _calcR, _calcC1, _calcL1, _calcC0 and _calcQ compute from Rl, the located resonance and the C0 held before the run; CalcParameters is proved equal to it, and ModelResonates, ModelC1Sign, FreshC1, C1DependsOnFormerC0 and SecondRunDiffers state its properties |
| G3uurMethods.G3uurMethod.constructor | python3/methods/g3uur_variant_method.py:29-46 | an object over the two sweeps, Rl = 12.5, C0 = 0.0, every other value None |
| G3uurMethods.G3uurMethod.AnalyseData | python3/methods/g3uur_variant_method.py:49-58 | raises on an empty resonance sweep before any write; raises after loss_min, fs, fp are written when the stray sweep has no row at the resonance sweep's idxmax; otherwise Cstray = 600 fF whatever Xc is |
| G3uurMethods.G3uurMethod.CalcR | python3/methods/g3uur_variant_method.py:60-62 | R1 and reff follow the abs(loss_min) formula |
| G3uurMethods.G3uurMethod.CalcC1 | python3/methods/g3uur_variant_method.py:70-71 | C1 = (fp/fs - 1)·2·(C0 + Cstray) from the C0 field as it stands |
| G3uurMethods.G3uurMethod.CalcL1 | python3/methods/g3uur_variant_method.py:67-68 | L1 = 1/(4π²·fs²·C1) |
| G3uurMethods.G3uurMethod.CalcC0 | python3/methods/g3uur_variant_method.py:73-74 | C0 is overwritten with C1·fs²/(fp² - fs²) |
| G3uurMethods.G3uurMethod.CalcQ | python3/methods/g3uur_variant_method.py:64-65 | Q = 2π·fs·L1/reff |
| G3uurMethods.G3uurMethod.Derive | python3/methods/g3uur_variant_method.py:78-82 | R, C1, L1, C0, Q in that order leave the model circuit of the located resonance and the C0 held before the run |
| G3uurMethods.G3uurMethod.CalcParameters | python3/methods/g3uur_variant_method.py:76-91 | raises exactly when the analysis raises, leaving the derived fields; otherwise the fields are the model circuit computed from the former C0 |
| G3uurMethods.G3uurMethod.GetResults | python3/methods/g3uur_variant_method.py:93-94 | (C0, C1, L1, R1, Q, fs, fp) |
| PhaseShiftLegacy.ModelResonates | python3/phaseshift.py:148-155 | L1·C1·4π²·fs² == 1 and Q·R1 == 2π·fs·L1 |
| PhaseShiftLegacy.QualityExceedsBandwidthRatio | python3/phaseshift.py:151-152 | for Rl, fs, deltaF positive and loss_min != 0, Q == fs·reff/(deltaF·R1) > fs/deltaF |
| PhaseShiftLegacy.Model | python3/phaseshift.py:142-176 | the circuit calcR1, calcC1 and the L1, Q (over R1) and C0 lines compute from Rl, the located resonance and deltaF; CalcParameters is proved equal to it, and ModelResonates and QualityExceedsBandwidthRatio state its properties |
| PhaseShiftLegacy.PhaseShiftMethod.constructor | python3/phaseshift.py:32-59 | an object over a loaded sweep: Rl = 12.5, C0 = 0.0, every other value None |
| PhaseShiftLegacy.PhaseShiftMethod.LocateResonances | python3/phaseshift.py:94-106 | fres is the first frequency step; loss_min, fs and fp are the located resonance |
| PhaseShiftLegacy.PhaseShiftMethod.ScanBandwidth | python3/phaseshift.py:108-130 | completes exactly when phase[0] > 45, then deltaF is max(freq) - min(freq) of the recorded slots with its Python type; otherwise the failed lookup escapes and deltaF is unchanged |
| PhaseShiftLegacy.PhaseShiftMethod.LocatePhaseZero | python3/phaseshift.py:132-135 | freq_phase0 and loss_phase0 come from one row whose phase is closest to 0 |
| PhaseShiftLegacy.PhaseShiftMethod.AnalyseData | python3/phaseshift.py:93-135 | completes exactly for two or more rows with phase[0] > 45; a short sweep raises before any write; a failed scan raises after fres, loss_min, fs and fp are written |
| PhaseShiftLegacy.PhaseShiftMethod.CalcR1 | python3/phaseshift.py:170-173 | R1 and reff follow the abs(loss_min) formula |
| PhaseShiftLegacy.PhaseShiftMethod.CalcC1 | python3/phaseshift.py:175-176 | C1 = deltaF/(2π·fs²·reff), with the int 0 deltaF counting as 0 |
| PhaseShiftLegacy.PhaseShiftMethod.Derive | python3/phaseshift.py:142-155 | raises exactly when deltaF is the int 0, at the L1 line, after R1 and reff are written and C1 == 0.0, with L1, Q and C0 unchanged; otherwise calcR1, calcC1, then L1, Q divided by R1, and C0 leave the model circuit of the analysed fields |
| PhaseShiftLegacy.PhaseShiftMethod.CalcParameters | python3/phaseshift.py:137-164 | no handler: completes exactly for two or more rows with phase[0] > 45 and a numpy-float deltaF. A short sweep or a failed scan raises out of the analysis with the derived fields unchanged; an int 0 deltaF raises at the L1 line after R1, reff and C1 == 0.0 are written; otherwise all fields equal the model circuit of the sweep |
| PhaseShiftLegacy.PhaseShiftMethod.GetResults | python3/phaseshift.py:166-167 | (C0, C1, L1, R1, Q, fs, fp, fres) |
| ParamCalc.Target | python3/param_calc.py:66-70 | the target angle of pass i: pass 0 sorts by abs(phase + 15), that is toward -15°, and pass 1 by abs(phase - 15), toward +15°; it has no contract of its own; Bandwidth uses it, and Passes states that slot 0 uses -phase and slot 1 +phase |
| ParamCalc.Midrange | python3/param_calc.py:73-74 | (max(x) + min(x))/2 of two values is their midpoint, in either order, and lies between them |
| ParamCalc.PairFreq | python3/param_calc.py:66-73 | freq[i] of a pass: the midrange of the frequencies of the two rows NearestTwo selects; PairMidpoints states that they are a nearest pair to the target |
| ParamCalc.PairLoss | python3/param_calc.py:66-74 | ampl[i] of a pass: the midrange of the same two rows' losses; PairMidpoints states its contents |
| ParamCalc.Bandwidth | python3/param_calc.py:61-77 | deltaF = max(freq) - min(freq) over the -phase and +phase passes; BandwidthOrderFree states that it is nonnegative, order-free and zero exactly for equal passes |
| ParamCalc.PairMidpoints | python3/param_calc.py:66-74 | freq[i] and ampl[i] are the frequency and loss midpoints of two different rows with no other row closer to the pass's target |
| ParamCalc.BandwidthOrderFree | python3/param_calc.py:77 | deltaF >= 0, it is the same whichever pass lies at the higher frequency, and it is 0 exactly when both passes give the same midpoint |
| ParamCalc.TwoRowSweepZeroBandwidth | python3/param_calc.py:66-77 | on a two-row sweep both passes select the same two rows, so deltaF == 0 and calcParameters raises |
| ParamCalc.IncreasingSweepFs | python3/param_calc.py:59 | on a strictly increasing sweep fs is the last row's frequency, wherever the loss maximum lies |
| ParamCalc.Passes | python3/param_calc.py:62-74 | the for-i loop over range(2) writes freq[0], ampl[0] for the target -phase (sorting by abs(phase + 15)) and freq[1], ampl[1] for +phase |
| ParamCalc.Model | python3/param_calc.py:92-100 | Rm from -loss_min, Reff, Cm and Lm computed from Rl, loss_min, fs and deltaF; Derive and CalcParameters are proved equal to it, and ModelResonates and ModelSigns state its properties |
| ParamCalc.ModelResonates | python3/param_calc.py:93-100 | Lm·Cm·4π²·fs² == 1 with Reff = 2·Rl + Rm |
| ParamCalc.ModelSigns | python3/param_calc.py:93-100 | for Rl > 0: Rm >= 0 exactly when loss_min <= 0, Reff == 2·Rl·10^(-loss_min/20), and Cm, Lm > 0 for positive fs and deltaF |
| ParamCalc.PhaseShiftMethod.constructor | python3/param_calc.py:12-25 | an object over a loaded sweep: Rl = 50, every other value None |
| ParamCalc.PhaseShiftMethod.LocateSeries | python3/param_calc.py:52-59 | fres is the first frequency step, loss_min the largest loss and fs the largest frequency |
| ParamCalc.PhaseShiftMethod.ScanBandwidth | python3/param_calc.py:61-80 | deltaF is the ±15° nearest-two bandwidth |
| ParamCalc.PhaseShiftMethod.LocatePhaseZero | python3/param_calc.py:82-85 | freq_phase0 and loss_phase0 come from one row whose phase is closest to 0 |
| ParamCalc.PhaseShiftMethod.AnalyseData | python3/param_calc.py:51-85 | raises exactly for a sweep of fewer than two rows, before any write; otherwise every analysis field is written as above |
| ParamCalc.PhaseShiftMethod.Derive | python3/param_calc.py:92-100 | raises exactly when Rl, fs or deltaF is 0, the Python-float divisions raising: Rm is always written, Cm only when Rl and fs are nonzero, Lm only when the calculation completes; on completion Rm, Cm and Lm are the model values of loss_min, fs and deltaF |
| ParamCalc.PhaseShiftMethod.CalcParameters | python3/param_calc.py:87-107 | raises exactly for a sweep of fewer than two rows (nothing written) or when Rl, the largest frequency or the ±15° bandwidth is 0; every longer sweep writes the analysis fields and Rm, Cm when Rl and fs are nonzero; otherwise it returns 0 with Rm, Cm, Lm equal to the model values |

## Left out

- Device, process and file I/O are not modelled: the analyser wrappers, the Java subprocess, CSV loading and saving, `loadData`, and the `example()`/`verify()` drivers. The constructors take the loaded sweep (or, for the G3UUR class, both sweeps) as an argument instead of a file name or port.
- `data = None` of the methods classes before `updateData` is modelled as the empty sweep. Both make the analysis raise at its first line, and the handler turns that raise into the error string.
- The GUI, plotting (`printTransmission`, `printAll`), logging and the `print` of Cstray are left out; they produce no value the model needs.
- What a division by zero does depends on the Python type of the divisor, and the model follows it.
  - A Python int or float divisor of 0 raises ZeroDivisionError, and the model has that raise as an outcome. This covers the int 0 deltaF of both phase-shift classes, which the L1 line turns into the float 0.0 under reff, and fs, Reff and deltaF of `param_calc.py`, which are all Python floats there.
  - A numpy float64 divisor of 0 gives inf or nan instead of raising. The model works over exact reals and makes those divisors preconditions (the `Computable` and `Admissible` predicates). Rounding and overflow are not modelled either.
- The numpy divisors, per class:
  - both phase-shift classes: fs and reff (through Rl != 0) for C1; once deltaF is a numpy float, also deltaF for L1 and fp² - fs² (as fp != fs and fp != -fs) for C0;
  - `phaseshift.py` also needs R1 != 0 (as loss_min != 0) once deltaF is a numpy float, because its Q divides by R1;
  - -3 dB: fs, db3_bandwidth, reff (through Rl != 0) and fp² - fs². The divisor L1 of C1 is then nonzero by BandwidthL1;
  - G3UUR: fs, reff (through Rl != 0) and fp² - fs², plus C0 + Cstray != 0. With fp != fs, that makes C1, the divisor of L1, nonzero (StrayC1Sign).
- 10^x is only constrained as far as the proofs need: positive, below 1 for negative arguments, above 1 for positive ones. No exact values and no monotonicity between two arguments are stated.
- The pandas label -1 lookup at m = 0 of the 45° scans is modelled exactly. It raises unless phase[0] > 45. The methods version catches it and keeps freq the int list [0, 0]; `phaseshift.py` lets it escape. The scan itself is specified from m = 1.
- argsort tie order: `Nearest` and `NearestTwo` break ties by lowest index. The contracts of `Nearest`, `NearestTwo`, `NearestTwoIsNearestPair` and `PairMidpoints` state only what holds for any tie order ("a row closest to the target", "two nearest rows"). The class contracts state freq_phase0 and loss_phase0 existentially.
- ParamCalc.Passes, ParamCalc.PhaseShiftMethod.ScanBandwidth and ParamCalc.PhaseShiftMethod.CalcParameters pin freq, ampl and deltaF to the pair that the lowest-index tie choice selects. numpy's default argsort is not stable, so where several rows are equally close to ±15° it may select another pair, and then a different deltaF.
- The `ampl` slots of the two ±45° scans hold phase midpoints that are only logged, so they are left out there. In `param_calc.py` the `ampl` list is kept, because `PairMidpoints` and `Passes` state its contents.
- The local two-slot lists `freq` and `db3_freq` of the ±45° and -3 dB scans are modelled as values: the `Slots` datatype with the scan's two written flags (the Python type of each slot), and the `lower` option. They are never aliased, so nothing observable is lost. The ±15° lists of `param_calc.py` are arrays.
- The Cstray value computed from Xc is not modelled. The next line overwrites it with 600 fF, and computing it would need numpy's division by a possibly zero Xc. The raise of the Xc lookup itself is modelled.
- The unused `db3_bandwidth` attribute of the phase-shift and G3UUR classes is left out, since nothing reads it.
- The default arguments of `calcParameters(r_setup=12.5, cl=0)` are not modelled as defaults; the method takes both values explicitly. 1e-12 is written as the exact decimal 0.000000000001.
- The G3UUR class is named `G3uurMethod`, because the source reuses the name `ThreedbMethod`.
- The code keeps these behaviours, and so does the model:
  - a ±45° scan that writes no slot leaves the int 0 deltaF, on which the methods version returns the error string and `phaseshift.py` raises at its L1 line; a -3 dB scan without a crossing pair leaves db3_bandwidth stale or None. Neither has a dedicated error;
  - every two-row sweep gives `param_calc.py` a 0 deltaF (TwoRowSweepZeroBandwidth), so its calcParameters raises on it;
  - fp == fs is not rejected by the analysis; it only becomes an excluded division;
  - a sweep whose frequencies do not increase is accepted.
- ThreeDbMethods.ThreedbMethod.CalcParameters, PhaseShiftMethods.PhaseShiftMethod.CalcParameters, PhaseShiftLegacy.PhaseShiftMethod.CalcParameters and G3uurMethods.G3uurMethod.CalcParameters: each requires the numpy divisors listed above to be nonzero whenever the calculation reaches their division. For the -3 dB and G3UUR methods that is when the analysis completes (for -3 dB, with a bandwidth present). For the phase-shift classes, fs != 0 and Rl != 0 are needed whenever the analysis completes; the deltaF, fp² - fs² and R1 conditions are needed only when deltaF is a numpy float. At a numpy zero divisor the source produces inf or nan; the model does not follow that path.
