/**
  The velocity integrator with the stall counter kept per axis. The driver's
  comment on the counter is "if the acceleration is zero for a while, reset
  speed and previous accel", for each axis; with one counter per axis that
  holds. Each axis is integrated exactly as `ADXL345_SetVelocity` does, and
  a moving reading leaves the counter alone as there, so an axis is reset
  once more than `StallLimit` of its own near-zero readings have arrived
  since its last reset; the other axes' readings no longer count.
 */
module VelocityPerAxis {
  import opened Numeric
  import opened Sensor
  import Velocity

  /** The integrator state of one axis: the velocity fed back into the next
      step, the previous acceleration and the axis's own stall counter. */
  datatype AxisIntegrator = AxisIntegrator(velocity: real, previousAccel: real, stallCount: int)

  type Axes = s: seq<AxisIntegrator> | |s| == 3 witness [AxisIntegrator(0.0, 0.0, 0), AxisIntegrator(0.0, 0.0, 0), AxisIntegrator(0.0, 0.0, 0)]

  /** One integration step of one axis with acceleration `a`: a near-zero
      reading advances the counter, and passing `StallLimit` restarts the
      integration from zero. */
  function Integrate(s: AxisIntegrator, a: real, deltaT: real): (r: AxisIntegrator)
    ensures -1.0 < a < 1.0 && s.stallCount >= StallLimit ==>
      r.velocity == Velocity.Trapezoid(0.0, a, deltaT) && r.stallCount == 0
    ensures !(-1.0 < a < 1.0 && s.stallCount >= StallLimit) ==>
      r.velocity == s.velocity + Velocity.Trapezoid(s.previousAccel, a, deltaT)
      && r.stallCount == (if -1.0 < a < 1.0 then s.stallCount + 1 else s.stallCount)
    ensures r.previousAccel == a
  {
    var stalled := Velocity.Stalled(a);
    var count := if stalled then s.stallCount + 1 else s.stallCount;
    var s1 := if stalled && count > StallLimit then AxisIntegrator(0.0, 0.0, 0) else s.(stallCount := count);
    AxisIntegrator(s1.velocity + Velocity.Trapezoid(s1.previousAccel, a, deltaT), a, s1.stallCount)
  }

  /** One axis integrated over a run of readings, oldest first. */
  function Run(s: AxisIntegrator, xs: seq<real>, deltaT: real): AxisIntegrator
  {
    if |xs| == 0 then s else Integrate(Run(s, xs[..|xs| - 1], deltaT), xs[|xs| - 1], deltaT)
  }

  /** While its counter stays within the limit, every near-zero reading of
      an axis adds one to that axis's counter. */
  lemma {:induction false} StalledRunCounts(s: AxisIntegrator, xs: seq<real>, deltaT: real)
    requires forall k | 0 <= k < |xs| :: -1.0 < xs[k] < 1.0
    requires 0 <= s.stallCount && s.stallCount + |xs| <= StallLimit
    ensures Run(s, xs, deltaT).stallCount == s.stallCount + |xs|
  {
    if |xs| > 0 {
      StalledRunCounts(s, xs[..|xs| - 1], deltaT);
    }
  }

  /** An axis that has read `StallLimit + 1` near-zero values in a row from a
      cleared counter is reset on the last of them: its velocity restarts
      from zero with a single trapezoid and its counter is cleared. */
  lemma ResetAfterLimit(s: AxisIntegrator, xs: seq<real>, deltaT: real)
    requires |xs| == StallLimit + 1
    requires forall k | 0 <= k < |xs| :: -1.0 < xs[k] < 1.0
    requires s.stallCount == 0
    ensures Run(s, xs, deltaT).velocity == Velocity.Trapezoid(0.0, xs[StallLimit], deltaT)
    ensures Run(s, xs, deltaT).stallCount == 0
  {
    StalledRunCounts(s, xs[..StallLimit], deltaT);
  }

  /** `ADXL345_SetVelocity` with one counter per axis. */
  function SetVelocity(axes: Axes, input: Vec, deltaT: real): (r: Axes)
    ensures forall i | 0 <= i < 3 && -1.0 < input[i] < 1.0 && axes[i].stallCount >= StallLimit ::
      r[i].velocity == Velocity.Trapezoid(0.0, input[i], deltaT) && r[i].stallCount == 0
    ensures forall i | 0 <= i < 3 && !(-1.0 < input[i] < 1.0 && axes[i].stallCount >= StallLimit) ::
      r[i].velocity == axes[i].velocity + Velocity.Trapezoid(axes[i].previousAccel, input[i], deltaT)
      && r[i].stallCount == (if -1.0 < input[i] < 1.0 then axes[i].stallCount + 1 else axes[i].stallCount)
    ensures forall i | 0 <= i < 3 :: r[i].previousAccel == input[i]
  {
    seq(3, i requires 0 <= i < 3 => Integrate(axes[i], input[i], deltaT))
  }

  /** Each axis's result depends on nothing but its own state and reading:
      the other axes cannot advance or clear its counter. */
  lemma AxesIndependent(a1: Axes, a2: Axes, in1: Vec, in2: Vec, deltaT: real, i: nat)
    requires i < 3
    requires a1[i] == a2[i] && in1[i] == in2[i]
    ensures SetVelocity(a1, in1, deltaT)[i] == SetVelocity(a2, in2, deltaT)[i]
  {
  }

  /** The per-axis integrator run over a sequence of input vectors. */
  function RunAll(axes: Axes, inputs: seq<Vec>, deltaT: real): Axes
  {
    if |inputs| == 0 then axes else SetVelocity(RunAll(axes, inputs[..|inputs| - 1], deltaT), inputs[|inputs| - 1], deltaT)
  }

  /** The readings of one axis across a sequence of input vectors. */
  function Column(inputs: seq<Vec>, i: nat): (col: seq<real>)
    requires i < 3
    ensures |col| == |inputs|
    ensures forall k | 0 <= k < |inputs| :: col[k] == inputs[k][i]
  {
    seq(|inputs|, k requires 0 <= k < |inputs| => inputs[k][i])
  }

  /** Running the three axes together is running each axis on its own
      readings. */
  lemma {:induction false} RunAllIsPerAxis(axes: Axes, inputs: seq<Vec>, deltaT: real, i: nat)
    requires i < 3
    ensures RunAll(axes, inputs, deltaT)[i] == Run(axes[i], Column(inputs, i), deltaT)
  {
    if |inputs| > 0 {
      var prefix := inputs[..|inputs| - 1];
      RunAllIsPerAxis(axes, prefix, deltaT, i);
      assert Column(inputs, i)[..|inputs| - 1] == Column(prefix, i);
    }
  }

  /** The corrected counterpart of the shared-counter defect: whatever the
      other axes read, an axis whose own `StallLimit + 1` readings from a
      cleared counter are near zero is reset on the last of them. */
  lemma EveryAxisResetsAfterLimit(axes: Axes, inputs: seq<Vec>, deltaT: real, i: nat)
    requires i < 3
    requires |inputs| == StallLimit + 1
    requires forall k | 0 <= k < |inputs| :: -1.0 < inputs[k][i] < 1.0
    requires axes[i].stallCount == 0
    ensures RunAll(axes, inputs, deltaT)[i].velocity == Velocity.Trapezoid(0.0, inputs[StallLimit][i], deltaT)
    ensures RunAll(axes, inputs, deltaT)[i].stallCount == 0
  {
    RunAllIsPerAxis(axes, inputs, deltaT, i);
    ResetAfterLimit(axes[i], Column(inputs, i), deltaT);
  }

  /** One axis step of the per-axis design, started from the driver's state
      for that axis, is the driver's axis step: the same velocity, previous
      acceleration and counter, reset included. */
  lemma IntegrateMatchesDriver(d: Device, i: nat, deltaT: real)
    requires i < 3
    ensures Integrate(AxisIntegrator(d.previousVelocity[i], d.previousAccel[i], d.stallCount), d.recent[i], deltaT)
         == AxisIntegrator(Velocity.IntegrateAxis(d, i, deltaT).velocity[i],
                           Velocity.IntegrateAxis(d, i, deltaT).previousAccel[i],
                           Velocity.IntegrateAxis(d, i, deltaT).stallCount)
  {
  }

  /** The per-axis state of a driver record, every axis given the shared
      counter's value. */
  function AxesOf(d: Device): (r: Axes)
    ensures forall i | 0 <= i < 3 ::
      r[i] == AxisIntegrator(d.previousVelocity[i], d.previousAccel[i], d.stallCount)
  {
    seq(3, i requires 0 <= i < 3 => AxisIntegrator(d.previousVelocity[i], d.previousAccel[i], d.stallCount))
  }

  /** Away from rest the counters are never touched, and the per-axis
      design computes the same velocities as the driver. */
  lemma AgreesAwayFromRest(d: Device, deltaT: real)
    requires forall j | 0 <= j < 3 :: !(-1.0 < d.recent[j] < 1.0)
    ensures forall i | 0 <= i < 3 ::
      SetVelocity(AxesOf(d), d.recent, deltaT)[i].velocity == Velocity.SetVelocity(d, deltaT).velocity[i]
  {
    Velocity.MovingStep(d, deltaT);
  }
}
