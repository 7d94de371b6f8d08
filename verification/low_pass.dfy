/**
  Single-pole low-pass filter with a dead zone, `ADXL345_IIRLowPassFilter`.
  The filter's feedback memory, a function-local static in the driver, is the
  device's `filterMemory`.
 */
module LowPass {
  import opened Numeric
  import opened Sensor

  /** The driver's dead-zone test on the truncated block-filter value: it
      holds exactly on the open interval (-1, 1). */
  predicate InDeadZone(x: real): (b: bool)
    ensures b <==> -1.0 < x < 1.0
  {
    Trunc(x) > AccelLowerLimit && Trunc(x) < AccelUpperLimit
  }

  /** One axis: the block-filter value as left by the dead-zone reset, and
      the filter output (which is also the new feedback memory). */
  function FilterAxis(fir: real, memory: real, rate: real): (r: (real, real))
    ensures -1.0 < fir < 1.0 ==> r.0 == 0.0 && r.1 == 0.0
    ensures !(-1.0 < fir < 1.0) ==> r.0 == fir && r.1 == fir + rate * (memory - fir)
  {
    var zone := InDeadZone(fir);
    var input := if zone then 0.0 else fir;
    var feedback := if zone then 0.0 else memory;
    assert input * (1.0 - rate) + feedback * rate == input + rate * (feedback - input);
    (input, input * (1.0 - rate) + feedback * rate)
  }

  /** `ADXL345_IIRLowPassFilter`: a value in the dead zone (-1, 1) forces the
      block-filter value, the feedback and the output of its axis to zero;
      any other value moves the output from the block-filter value toward
      the previous output by the fraction `rate`. The output becomes the new
      feedback and the integrator's input. */
  function IIRLowPassFilter(d: Device, rate: real): (r: Device)
    ensures forall i | 0 <= i < 3 && -1.0 < d.fir[i] < 1.0 ::
      r.fir[i] == 0.0 && r.filterMemory[i] == 0.0 && r.iir[i] == 0.0
    ensures forall i | 0 <= i < 3 && !(-1.0 < d.fir[i] < 1.0) ::
      r.fir[i] == d.fir[i] && r.iir[i] == d.fir[i] + rate * (d.filterMemory[i] - d.fir[i])
    ensures r.filterMemory == r.iir && r.recent == r.iir
    ensures r == d.(fir := r.fir, iir := r.iir, recent := r.recent, filterMemory := r.filterMemory)
  {
    var input := seq(3, i requires 0 <= i < 3 => FilterAxis(d.fir[i], d.filterMemory[i], rate).0);
    var out := seq(3, i requires 0 <= i < 3 => FilterAxis(d.fir[i], d.filterMemory[i], rate).1);
    d.(fir := input, iir := out, recent := out, filterMemory := out)
  }

  /** With retention rate 0 the output is the (dead-zone adjusted) input. */
  lemma ZeroRatePassesThrough(d: Device)
    ensures IIRLowPassFilter(d, 0.0).iir == IIRLowPassFilter(d, 0.0).fir
  {
  }

  /** If the feedback already equals the input, the output is the input. */
  lemma SettledAxisStays(d: Device, rate: real, i: nat)
    requires i < 3
    requires !(-1.0 < d.fir[i] < 1.0)
    requires d.filterMemory[i] == d.fir[i]
    ensures IIRLowPassFilter(d, rate).iir[i] == d.fir[i]
  {
  }

  /** For a rate in [0, 1] the output of an axis outside the dead zone lies
      between the input and the previous output. */
  lemma OutputBetween(d: Device, rate: real, i: nat)
    requires i < 3
    requires 0.0 <= rate <= 1.0
    requires !(-1.0 < d.fir[i] < 1.0)
    ensures var out := IIRLowPassFilter(d, rate).iir[i];
      (d.fir[i] <= out <= d.filterMemory[i]) || (d.filterMemory[i] <= out <= d.fir[i])
  {
    var gap := d.filterMemory[i] - d.fir[i];
    assert IIRLowPassFilter(d, rate).iir[i] == d.fir[i] + rate * gap;
    ScaledGapBetween(gap, rate);
  }

  /** A fraction in [0, 1] of a gap lies between 0 and the gap. */
  lemma ScaledGapBetween(gap: real, rate: real)
    requires 0.0 <= rate <= 1.0
    ensures (0.0 <= rate * gap <= gap) || (gap <= rate * gap <= 0.0)
  {
    if gap >= 0.0 {
      assert (1.0 - rate) * gap >= 0.0;
    } else {
      assert (1.0 - rate) * -gap >= 0.0;
      assert rate * -gap >= 0.0;
    }
  }

  /** The filter applied `k` times to the same device record. */
  function Repeat(d: Device, rate: real, k: nat): Device
  {
    if k == 0 then d else IIRLowPassFilter(Repeat(d, rate, k - 1), rate)
  }

  /** The feedback after `k` runs on a constant input `a` outside the dead
      zone, starting from feedback `m`. */
  function Approach(a: real, m: real, rate: real, k: nat): real
  {
    if k == 0 then m else a + rate * (Approach(a, m, rate, k - 1) - a)
  }

  /** A constant input is approached geometrically: after `k` runs the
      feedback's distance to the input is `rate^k` times its initial distance. */
  lemma {:induction false} ApproachGap(a: real, m: real, rate: real, k: nat)
    ensures Approach(a, m, rate, k) - a == Pow(rate, k) * (m - a)
  {
    if k > 0 {
      ApproachGap(a, m, rate, k - 1);
      ScaleChain(Approach(a, m, rate, k) - a, Approach(a, m, rate, k - 1) - a,
                 rate, Pow(rate, k - 1), Pow(rate, k), m - a);
    }
  }

  lemma ScaleChain(next: real, prev: real, rate: real, p: real, pk: real, gap: real)
    requires next == rate * prev
    requires prev == p * gap
    requires pk == rate * p
    ensures next == pk * gap
  {
  }

  /** Repeated runs on an input outside the dead zone follow `Approach`. */
  lemma {:induction false} RepeatFollowsApproach(d: Device, rate: real, k: nat, i: nat)
    requires i < 3
    requires !(-1.0 < d.fir[i] < 1.0)
    ensures Repeat(d, rate, k).fir[i] == d.fir[i]
    ensures Repeat(d, rate, k).filterMemory[i] == Approach(d.fir[i], d.filterMemory[i], rate, k)
  {
    if k > 0 {
      RepeatFollowsApproach(d, rate, k - 1, i);
      StepTowardInput(Repeat(d, rate, k - 1), rate, i);
    }
  }

  /** One run outside the dead zone keeps the input and scales the feedback's
      distance to it by `rate`. */
  lemma StepTowardInput(d: Device, rate: real, i: nat)
    requires i < 3
    requires !(-1.0 < d.fir[i] < 1.0)
    ensures IIRLowPassFilter(d, rate).fir[i] == d.fir[i]
    ensures IIRLowPassFilter(d, rate).filterMemory[i] - d.fir[i] == rate * (d.filterMemory[i] - d.fir[i])
  {
  }
}
