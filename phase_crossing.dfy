/** The 45-degree phase-crossing scan that both phase-shift classes run
    (methods/phaseshift_method.py and phaseshift.py): one pass over the
    adjacent pairs (m-1, m), an if/elif crossing test, a two-slot list
    freq = [0, 0] that the +45 branch overwrites, and a break at the first
    -45 crossing. The bandwidth is max(freq) - min(freq). */
module PhaseCrossing {
  import opened Wrappers
  import opened Sweeps
  import opened Formulas

  /** The pair (m-1, m) descends through the angle:
      phase[m] <= angle and phase[m-1] >= angle. */
  predicate Descends(s: Sweep, m: int, angle: real)
    requires 0 < m < |s|
  {
    s[m].phase <= angle && s[m - 1].phase >= angle
  }

  /** Pairs taken by the +45 branch (index 0 is not a pair). */
  function PlusFlags(s: Sweep): (b: seq<bool>)
    ensures |b| == |s|
  {
    seq(|s|, m requires 0 <= m < |s| => 0 < m && Descends(s, m, 45.0))
  }

  /** Pairs taken by the -45 branch: an elif, so only pairs that the +45
      test rejected. */
  function MinusFlags(s: Sweep): (b: seq<bool>)
    ensures |b| == |s|
  {
    seq(|s|, m requires 0 <= m < |s| => 0 < m && !Descends(s, m, 45.0) && Descends(s, m, -45.0))
  }

  /** (freq[m] + freq[m-1]) / 2. */
  function PairMid(s: Sweep, m: int): real
    requires 0 < m < |s|
  {
    Mid(s[m].freq, s[m - 1].freq)
  }

  /** The m at which the scan breaks, or |s| when it runs to the end. */
  function StopIndex(s: Sweep): nat
  {
    FirstTrue(MinusFlags(s))
  }

  /** The +45 slot after the pairs below k: the midpoint of the last +45
      pair below k, or the initial 0. */
  function PlusSlot(s: Sweep, k: nat): real
    requires k <= |s|
  {
    match LastTrueBefore(PlusFlags(s), k)
    case Some(j) => PairMid(s, j)
    case None => 0.0
  }

  /** freq[0] (the +45 frequency) and freq[1] (the -45 frequency). */
  datatype Slots = Slots(plus: real, minus: real)

  /** What a scan from m = 1 leaves in the two slots. */
  function Recorded(s: Sweep): Slots
  {
    var k := StopIndex(s);
    Slots(PlusSlot(s, k), if k < |s| then PairMid(s, k) else 0.0)
  }

  /** self.deltaF = max(freq) - min(freq). */
  function Bandwidth(slots: Slots): real
  {
    Spread(slots.plus, slots.minus)
  }

  /** Whether the scan writes the +45 slot: a +45 pair comes before the
      stop. */
  predicate PlusWritten(s: Sweep) {
    LastTrueBefore(PlusFlags(s), StopIndex(s)).Some?
  }

  /** Whether the scan writes the -45 slot: a -45 pair stops it. */
  predicate MinusWritten(s: Sweep) {
    StopIndex(s) < |s|
  }

  /** Whether the scan writes a slot at all. */
  predicate Written(s: Sweep) {
    PlusWritten(s) || MinusWritten(s)
  }

  /** The Python type of self.deltaF. freq starts as the int list [0, 0]
      and a written slot holds the midpoint of two numpy frequencies, a
      numpy float. The difference matters to a division: a Python float
      divided by the int 0 (or by 2*pi*0 == 0.0) raises ZeroDivisionError,
      while a division by a numpy zero gives inf or nan. */
  datatype Width = IntZero | Float(value: real)

  /** The number a Width stands for. */
  function Magnitude(w: Width): real {
    match w
    case IntZero => 0.0
    case Float(x) => x
  }

  /** max(freq) - min(freq), where a slot that is not written still holds
      the int 0. max and min return the first of two equal elements (freq[0]
      unless freq[1] is strictly larger, or strictly smaller), and the
      difference is an int exactly when both return an int slot. */
  function Difference(slots: Slots, plusWritten: bool, minusWritten: bool): Width {
    var maxIsInt := if slots.minus > slots.plus then !minusWritten else !plusWritten;
    var minIsInt := if slots.minus < slots.plus then !minusWritten else !plusWritten;
    if maxIsInt && minIsInt then IntZero else Float(Spread(slots.plus, slots.minus))
  }

  /** self.deltaF after a scan that did not fail. */
  function Delta(s: Sweep): Width {
    Difference(Recorded(s), PlusWritten(s), MinusWritten(s))
  }

  /** The scan loop. At m = 0 the test reads phase[m - 1], the pandas label
      -1, which a 0-based sweep lacks: the lookup raises, unless phase[0] > 45
      keeps the `and` from reaching it. The caller decides what the failed
      lookup means (caught or propagated). */
  method Scan(s: Sweep) returns (slots: Slots, completed: bool, plusWritten: bool, minusWritten: bool)
    ensures completed <==> |s| == 0 || s[0].phase > 45.0
    ensures completed ==> slots == Recorded(s)
    ensures !completed ==> slots == Slots(0.0, 0.0)
    ensures plusWritten <==> completed && PlusWritten(s)
    ensures minusWritten <==> completed && MinusWritten(s)
  {
    slots := Slots(0.0, 0.0);
    completed, plusWritten, minusWritten := true, false, false;
    var m := 0;
    while m < |s|
      invariant 0 <= m <= |s|
      invariant m > 0 ==> s[0].phase > 45.0
      invariant forall i :: 0 <= i < m ==> !MinusFlags(s)[i]
      invariant slots == Slots(PlusSlot(s, m), 0.0)
      invariant plusWritten <==> LastTrueBefore(PlusFlags(s), m).Some?
      invariant !minusWritten
    {
      if m == 0 && s[m].phase <= 45.0 {
        completed := false;
        return;
      }
      if s[m].phase <= 45.0 && s[m - 1].phase >= 45.0 {
        slots := slots.(plus := (s[m].freq + s[m - 1].freq) / 2.0);
        plusWritten := true;
      } else if s[m].phase <= -45.0 && s[m - 1].phase >= -45.0 {
        slots := slots.(minus := (s[m].freq + s[m - 1].freq) / 2.0);
        minusWritten := true;
        assert MinusFlags(s)[m];
        assert StopIndex(s) == m;
        break;
      }
      m := m + 1;
    }
  }

  /** A pair that passes the +45 test is never the -45 stop, even when its
      phase jumps through both angles at once. */
  lemma PlusPairNeverStops(s: Sweep, m: nat)
    requires 0 < m < |s|
    requires s[m - 1].phase >= 45.0 && s[m].phase <= 45.0
    ensures StopIndex(s) != m
  {
  }

  /** The last +45 pair before the stop is the one recorded: later pairs
      overwrite earlier ones. */
  lemma {:induction false} LastPlusPairRecorded(s: Sweep, j: nat)
    requires 0 < j < StopIndex(s)
    requires Descends(s, j, 45.0)
    requires forall i :: j < i < StopIndex(s) ==> !Descends(s, i, 45.0)
    ensures Recorded(s).plus == PairMid(s, j)
  {
    var k := StopIndex(s);
    var r := LastTrueBefore(PlusFlags(s), k);
    assert PlusFlags(s)[j];
    assert forall i :: j < i < k ==> !PlusFlags(s)[i];
  }

  /** The scan breaks at the first -45 pair and records its midpoint. */
  lemma {:induction false} FirstMinusPairRecorded(s: Sweep, k: nat)
    requires 0 < k < |s|
    requires Descends(s, k, -45.0) && !Descends(s, k, 45.0)
    requires forall i :: 0 < i < k ==> !(Descends(s, i, -45.0) && !Descends(s, i, 45.0))
    ensures StopIndex(s) == k
    ensures Recorded(s).minus == PairMid(s, k)
  {
    var b := MinusFlags(s);
    assert b[k];
    assert forall i :: 0 <= i < k ==> !b[i];
  }

  /** With no crossing in the sweep both slots keep their 0, and the
      bandwidth is the int 0. */
  lemma NoCrossingZeroBandwidth(s: Sweep)
    requires forall m :: 0 < m < |s| ==> !Descends(s, m, 45.0) && !Descends(s, m, -45.0)
    ensures Recorded(s) == Slots(0.0, 0.0)
    ensures Bandwidth(Recorded(s)) == 0.0
    ensures Delta(s) == IntZero
  {
    assert forall i :: 0 <= i < |s| ==> !MinusFlags(s)[i];
    assert forall i :: 0 <= i < |s| ==> !PlusFlags(s)[i];
  }

  /** Midpoints of positive frequencies are positive, so a slot is 0
      exactly when nothing was recorded in it. */
  lemma {:induction false} RecordedNonNegative(s: Sweep)
    requires forall i :: 0 <= i < |s| ==> s[i].freq > 0.0
    ensures Recorded(s).plus >= 0.0 && Recorded(s).minus >= 0.0
    ensures Recorded(s).minus > 0.0 <==> MinusWritten(s)
    ensures Recorded(s).plus > 0.0 <==> PlusWritten(s)
  {
    var k := StopIndex(s);
    var r := LastTrueBefore(PlusFlags(s), k);
    if r.Some? {
      assert PlusFlags(s)[r.value];
      assert s[r.value].freq > 0.0 && s[r.value - 1].freq > 0.0;
    }
    if k < |s| {
      assert MinusFlags(s)[k];
      assert s[k].freq > 0.0 && s[k - 1].freq > 0.0;
    }
  }

  /** With positive frequencies and one crossing recorded, the bandwidth is
      that crossing's midpoint frequency. */
  lemma {:induction false} SingleCrossingBandwidth(s: Sweep)
    requires forall i :: 0 <= i < |s| ==> s[i].freq > 0.0
    requires Recorded(s).plus == 0.0 || Recorded(s).minus == 0.0
    ensures Bandwidth(Recorded(s)) == Recorded(s).plus + Recorded(s).minus
  {
    RecordedNonNegative(s);
  }

  /** When both crossings are recorded on a strictly increasing sweep, the
      +45 pair precedes the -45 pair, so max - min is the signed difference
      of the -45 and +45 frequencies. */
  lemma {:induction false} OrderedCrossingsBandwidth(s: Sweep)
    requires StrictlyIncreasing(s)
    requires MinusWritten(s) && PlusWritten(s)
    ensures Recorded(s).plus < Recorded(s).minus
    ensures Bandwidth(Recorded(s)) == Recorded(s).minus - Recorded(s).plus
  {
    var k := StopIndex(s);
    var j := LastTrueBefore(PlusFlags(s), k).value;
    assert PlusFlags(s)[j];
    assert MinusFlags(s)[k];
    assert s[j - 1].freq < s[k - 1].freq && s[j].freq < s[k].freq;
  }

  /** deltaF is the number max(freq) - min(freq) whatever its type. */
  lemma DeltaMagnitude(s: Sweep)
    ensures Magnitude(Delta(s)) == Bandwidth(Recorded(s))
  {
  }

  /** With positive frequencies, deltaF is the int 0 exactly when the scan
      wrote neither slot; otherwise it is a numpy float. */
  lemma {:induction false} DeltaIntZero(s: Sweep)
    requires forall i :: 0 <= i < |s| ==> s[i].freq > 0.0
    ensures Delta(s) == IntZero <==> !Written(s)
  {
    RecordedNonNegative(s);
  }

  /** When only the -45 slot is written and its midpoint is exactly 0, both
      max and min return the unwritten int slot and deltaF is the int 0
      although a slot was written. */
  lemma {:induction false} ZeroMidpointIsIntZero(s: Sweep)
    requires MinusWritten(s) && !PlusWritten(s) && Recorded(s).minus == 0.0
    ensures Written(s) && Delta(s) == IntZero
  {
  }
}
