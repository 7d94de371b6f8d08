/**
  Velocity integration, `ADXL345_SetVelocity`: trapezoidal integration of the
  low-pass output per axis, with one stall counter shared by the three axes
  that resets an axis once it exceeds `StallLimit`. The previous velocity and
  the counter, function-local statics in the driver, are device fields here.
 */
module Velocity {
  import opened Numeric
  import opened Sensor

  /** The driver's near-zero test on the truncated acceleration (the source
      writes the same conjunct twice): it holds exactly on (-1, 1). */
  predicate Stalled(x: real): (b: bool)
    ensures b <==> -1.0 < x < 1.0
  {
    Trunc(x) == 0 && Trunc(x) == 0
  }

  /** Whether integrating axis `i` resets it: the axis is stalled and the
      shared counter is already at the limit, so incrementing passes it. */
  predicate ResetsAxis(d: Device, i: nat)
    requires i < 3
  {
    -1.0 < d.recent[i] < 1.0 && d.stallCount >= StallLimit
  }

  /** The trapezoid area for interval `deltaT` in milliseconds between
      accelerations `a0` and `a1`. */
  function Trapezoid(a0: real, a1: real, deltaT: real): real
  {
    (a0 + a1) / 2.0 * deltaT / 1000.0
  }

  /** One iteration of the driver's axis loop. */
  function IntegrateAxis(d: Device, i: nat, deltaT: real): (r: Device)
    requires i < 3
    ensures ResetsAxis(d, i) ==> r.stallCount == 0 && r.velocity[i] == Trapezoid(0.0, d.recent[i], deltaT)
    ensures !ResetsAxis(d, i) ==>
      r.velocity[i] == d.previousVelocity[i] + Trapezoid(d.previousAccel[i], d.recent[i], deltaT)
    ensures !ResetsAxis(d, i) ==>
      r.stallCount == if -1.0 < d.recent[i] < 1.0 then d.stallCount + 1 else d.stallCount
    ensures 0 <= d.stallCount <= StallLimit ==> 0 <= r.stallCount <= StallLimit
    ensures r.previousVelocity[i] == r.velocity[i] && r.previousAccel[i] == d.recent[i]
    ensures forall j | 0 <= j < 3 && j != i ::
      r.velocity[j] == d.velocity[j] && r.previousVelocity[j] == d.previousVelocity[j]
      && r.previousAccel[j] == d.previousAccel[j]
    ensures r == d.(velocity := r.velocity, previousVelocity := r.previousVelocity,
                    previousAccel := r.previousAccel, stallCount := r.stallCount)
  {
    var stalled := Stalled(d.recent[i]);
    var count := if stalled then d.stallCount + 1 else d.stallCount;
    var d1 :=
      if stalled && count > StallLimit then
        d.(velocity := d.velocity[i := 0.0], previousVelocity := d.previousVelocity[i := 0.0],
           previousAccel := d.previousAccel[i := 0.0], stallCount := 0)
      else
        d.(stallCount := count);
    var a0 := d1.previousAccel[i];
    assert (a0 + (d1.recent[i] - a0) / 2.0) * (deltaT * MillisToSecond) == Trapezoid(a0, d1.recent[i], deltaT);
    var v := d1.previousVelocity[i] + (a0 + (d1.recent[i] - a0) / 2.0) * (deltaT * MillisToSecond);
    d1.(velocity := d1.velocity[i := v], previousVelocity := d1.previousVelocity[i := v],
        previousAccel := d1.previousAccel[i := d1.recent[i]])
  }

  /** The shared counter as axis `i` finds it: the call's starting value,
      bumped once by each earlier axis whose reading is near zero. */
  function CountBefore(d: Device, i: nat): int
    requires i <= 3
  {
    if i == 0 then d.stallCount
    else if -1.0 < d.recent[i - 1] < 1.0 then Bump(CountBefore(d, i - 1))
    else CountBefore(d, i - 1)
  }

  /** `ADXL345_SetVelocity`: the axis loop over X, Y and Z in order, sharing
      the stall counter. An axis is reset exactly when it is near zero and
      the counter it finds is already at the limit; otherwise it takes one
      trapezoid step from its previous velocity. Afterwards the integrator's
      previous acceleration is the current one, its feedback is the published
      velocity, and the counter has been bumped by every near-zero axis. */
  function SetVelocity(d: Device, deltaT: real): (r: Device)
    ensures forall i | 0 <= i < 3 ::
      r.velocity[i]
        == if -1.0 < d.recent[i] < 1.0 && CountBefore(d, i) >= StallLimit
           then Trapezoid(0.0, d.recent[i], deltaT)
           else d.previousVelocity[i] + Trapezoid(d.previousAccel[i], d.recent[i], deltaT)
    ensures r.stallCount == CountBefore(d, 3)
    ensures r.recent == d.recent && r.previousAccel == d.recent
    ensures r.previousVelocity == r.velocity
    ensures 0 <= d.stallCount <= StallLimit ==> 0 <= r.stallCount <= StallLimit
    ensures r == d.(velocity := r.velocity, previousVelocity := r.previousVelocity,
                    previousAccel := r.previousAccel, stallCount := r.stallCount)
  {
    var x := IntegrateAxis(d, 0, deltaT);
    var y := IntegrateAxis(x, 1, deltaT);
    assert x.stallCount == CountBefore(d, 1);
    assert y.stallCount == CountBefore(d, 2);
    IntegrateAxis(y, 2, deltaT)
  }

  /** `ds` is a run of consecutive calls, each made on the record the
      previous call left. */
  predicate IsRun(ds: seq<Device>, deltaT: real)
  {
    forall n | 0 < n < |ds| :: ds[n] == SetVelocity(ds[n - 1], deltaT)
  }

  /** Every prefix of a run is a run. */
  lemma RunPrefix(ds: seq<Device>, deltaT: real, m: nat)
    requires IsRun(ds, deltaT)
    requires m <= |ds|
    ensures IsRun(ds[..m], deltaT)
  {
  }

  /** Away from rest the counter is untouched and every axis takes one
      trapezoid step from its previous velocity. */
  lemma MovingStep(d: Device, deltaT: real)
    requires forall j | 0 <= j < 3 :: !(-1.0 < d.recent[j] < 1.0)
    ensures SetVelocity(d, deltaT).stallCount == d.stallCount
    ensures forall i | 0 <= i < 3 ::
      (SetVelocity(d, deltaT).velocity[i]
         == d.previousVelocity[i] + Trapezoid(d.previousAccel[i], d.recent[i], deltaT))
  {
  }

  /** Under a constant acceleration away from rest, each call of a run adds
      the same trapezoid (a rectangle, `a * deltaT / 1000`) to every axis's
      velocity, and the input and previous acceleration stay put. */
  lemma {:induction false} ConstantAcceleration(ds: seq<Device>, deltaT: real, i: nat)
    requires i < 3
    requires |ds| > 0 && IsRun(ds, deltaT)
    requires forall j | 0 <= j < 3 :: !(-1.0 < ds[0].recent[j] < 1.0)
    requires ds[0].previousAccel == ds[0].recent
    ensures ds[|ds| - 1].recent == ds[0].recent
    ensures ds[|ds| - 1].previousAccel == ds[0].recent
    ensures ds[|ds| - 1].previousVelocity[i]
         == Drift(ds[0].previousVelocity[i], Trapezoid(ds[0].recent[i], ds[0].recent[i], deltaT), |ds| - 1)
  {
    if |ds| > 1 {
      var prefix := ds[..|ds| - 1];
      RunPrefix(ds, deltaT, |ds| - 1);
      ConstantAcceleration(prefix, deltaT, i);
      MovingStep(ds[|ds| - 2], deltaT);
    }
  }

  /** For equal end points the trapezoid is a rectangle. */
  lemma TrapezoidOfConstant(a: real, deltaT: real)
    ensures Trapezoid(a, a, deltaT) == a * deltaT / 1000.0
  {
  }

  /** The driver's state before its first velocity call: the `static`
      initialisers zero the low-pass memory, the integrator's previous
      velocity and the shared counter, so the counter starts in its resting
      phase and within its bound. */
  function StartUp(d: Device): (r: Device)
    ensures r.filterMemory == [0.0, 0.0, 0.0] && r.previousVelocity == [0.0, 0.0, 0.0]
    ensures r.stallCount == 0
    ensures RestingPhase(r.stallCount) && 0 <= r.stallCount <= StallLimit
    ensures r == d.(filterMemory := r.filterMemory, previousVelocity := r.previousVelocity,
                    stallCount := r.stallCount)
  {
    d.(filterMemory := [0.0, 0.0, 0.0], previousVelocity := [0.0, 0.0, 0.0], stallCount := 0)
  }

  /** One stalled axis's effect on the shared counter: increment, and back to
      zero once the increment passes `StallLimit`. */
  function Bump(c: int): (r: int)
    ensures 0 <= c <= StallLimit ==> 0 <= r <= StallLimit
    ensures r == 0 <==> c + 1 > StallLimit || c == -1
    ensures r != 0 ==> r == c + 1
  {
    if c + 1 > StallLimit then 0 else c + 1
  }

  /** The counter after a call in which all three axes are stalled. */
  function RestingCount(c: int): int
  {
    Bump(Bump(Bump(c)))
  }

  /** With all three axes at rest a call bumps the shared counter once per
      axis, and X is reset exactly when the counter starts at the limit. */
  lemma RestingCall(d: Device, deltaT: real)
    requires forall j | 0 <= j < 3 :: -1.0 < d.recent[j] < 1.0
    ensures SetVelocity(d, deltaT).stallCount == RestingCount(d.stallCount)
    ensures d.stallCount < StallLimit ==>
      SetVelocity(d, deltaT).velocity[0]
        == d.previousVelocity[0] + Trapezoid(d.previousAccel[0], d.recent[0], deltaT)
    ensures d.stallCount >= StallLimit ==>
      SetVelocity(d, deltaT).velocity[0] == Trapezoid(0.0, d.recent[0], deltaT)
    ensures 0 <= d.stallCount < StallLimit - 1 ==>
      SetVelocity(d, deltaT).velocity[1]
        == d.previousVelocity[1] + Trapezoid(d.previousAccel[1], d.recent[1], deltaT)
  {
    var x := IntegrateAxis(d, 0, deltaT);
    var y := IntegrateAxis(x, 1, deltaT);
    assert x.stallCount == Bump(d.stallCount);
    assert y.stallCount == Bump(x.stallCount);
  }

  /** Z is the axis that sees the counter pass the limit: from 30, the call
      resets Z and restarts its integration from zero. */
  lemma RestingCallResetsZ(d: Device, deltaT: real)
    requires forall j | 0 <= j < 3 :: -1.0 < d.recent[j] < 1.0
    requires d.stallCount == 30
    ensures SetVelocity(d, deltaT).velocity[2] == Trapezoid(0.0, d.recent[2], deltaT)
    ensures SetVelocity(d, deltaT).stallCount == 0
  {
    var y := IntegrateAxis(IntegrateAxis(d, 0, deltaT), 1, deltaT);
    assert ResetsAxis(y, 2);
  }

  /** The counter values between resting calls that start from zero: the
      multiples of three up to 30. */
  predicate RestingPhase(c: int)
  {
    0 <= c <= 30 && c % 3 == 0
  }

  /** A resting call keeps the counter in its phase: Z's bump from 32 to 33
      returns it to zero, so X and Y never see it pass the limit. */
  lemma RestingPhaseKept(c: int)
    requires RestingPhase(c)
    ensures RestingPhase(RestingCount(c))
    ensures RestingCount(c) == if c == 30 then 0 else c + 3
  {
  }

  /** Hence, at rest from a counter in its phase (zero, say), neither X nor
      Y is ever reset: before its own bump X finds the counter at most 30
      and Y at most 31, so each keeps growing by one trapezoid per call
      however many near-zero readings it has seen, and the counter keeps its
      phase. */
  lemma {:induction false} RestingXYNeverReset(ds: seq<Device>, deltaT: real, i: nat)
    requires i < 2
    requires |ds| > 0 && IsRun(ds, deltaT)
    requires forall j | 0 <= j < 3 :: -1.0 < ds[0].recent[j] < 1.0
    requires RestingPhase(ds[0].stallCount)
    requires ds[0].previousAccel[i] == ds[0].recent[i]
    ensures ds[|ds| - 1].recent == ds[0].recent
    ensures ds[|ds| - 1].previousAccel[i] == ds[0].recent[i]
    ensures RestingPhase(ds[|ds| - 1].stallCount)
    ensures ds[|ds| - 1].previousVelocity[i]
         == Drift(ds[0].previousVelocity[i], Trapezoid(ds[0].recent[i], ds[0].recent[i], deltaT), |ds| - 1)
  {
    if |ds| > 1 {
      var prefix := ds[..|ds| - 1];
      RunPrefix(ds, deltaT, |ds| - 1);
      RestingXYNeverReset(prefix, deltaT, i);
      RestingCall(ds[|ds| - 2], deltaT);
      RestingPhaseKept(ds[|ds| - 2].stallCount);
    }
  }

  /** A device whose X axis carries a velocity of 1 m/s and then reads
      0.5 m/s^2 on every axis every 10 ms: however long the run, and so
      however many near-zero readings X and Y have seen, neither is ever
      reset; each grows by a trapezoid of 0.005 m/s per call. */
  lemma SharedCounterNeverResetsXY(ds: seq<Device>)
    requires |ds| > 0 && IsRun(ds, 10.0)
    requires ds[0].recent == [0.5, 0.5, 0.5] && ds[0].previousAccel == [0.5, 0.5, 0.5]
    requires ds[0].previousVelocity == [1.0, 0.0, 0.0] && ds[0].stallCount == 0
    ensures ds[|ds| - 1].previousVelocity[0] == 1.0 + (|ds| - 1) as real * 0.005
    ensures ds[|ds| - 1].previousVelocity[1] == (|ds| - 1) as real * 0.005
  {
    RestingXYNeverReset(ds, 10.0, 0);
    RestingXYNeverReset(ds, 10.0, 1);
    DriftIsLinear(1.0, Trapezoid(0.5, 0.5, 10.0), |ds| - 1);
    DriftIsLinear(0.0, Trapezoid(0.5, 0.5, 10.0), |ds| - 1);
  }

  /** The finding from the driver's own start: after the `static`
      initialisers, a resting run never resets X or Y, whose velocities grow
      by one trapezoid per call from zero, for as long as the run lasts. */
  lemma StartedRestingRunNeverResetsXY(d: Device, ds: seq<Device>, deltaT: real, i: nat)
    requires i < 2
    requires |ds| > 0 && IsRun(ds, deltaT) && ds[0] == StartUp(d)
    requires forall j | 0 <= j < 3 :: -1.0 < d.recent[j] < 1.0
    requires d.previousAccel[i] == d.recent[i]
    ensures ds[|ds| - 1].previousVelocity[i] == (|ds| - 1) as real * Trapezoid(d.recent[i], d.recent[i], deltaT)
  {
    RestingXYNeverReset(ds, deltaT, i);
    DriftIsLinear(0.0, Trapezoid(d.recent[i], d.recent[i], deltaT), |ds| - 1);
  }
}
