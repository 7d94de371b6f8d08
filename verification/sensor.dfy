/**
  The per-device record of the ADXL345 driver and the constants every stage
  shares. The driver keeps three pieces of feedback in function-local
  `static` storage (the low-pass filter memory, the integrator's previous
  velocity and its stall counter); here they are explicit fields of the one
  device they belong to.
 */
module Sensor {
  import opened Numeric

  /** One real per axis, indexed 0 = X, 1 = Y, 2 = Z. */
  type Vec = s: seq<real> | |s| == 3 witness [0.0, 0.0, 0.0]

  /** One `int16_t` raw reading per axis. */
  type RawVec = s: seq<Int16> | |s| == 3 witness [0, 0, 0]

  /** The driver's two return codes (`FCSUCCESS`, `FCFAIL`). */
  datatype Status = Success | Failure

  /** The driver's `EARTH_GRAVITY` in m/s^2, as written (9.800665, not the
      standard 9.80665). */
  const EarthGravity: real := 9.800665

  /** Milliseconds to seconds, `MILIS_TO_SECOND`. */
  const MillisToSecond: real := 0.001

  /** Number of raw samples averaged by calibration, `CALIBRATION_SIZE`. */
  const CalibrationSize: nat := 1024

  /** Bounds of the low-pass filter's dead zone on the truncated value. */
  const AccelLowerLimit: int := -1
  const AccelUpperLimit: int := 1

  /** A stall counter above this value resets the stalled axis. */
  const StallLimit: int := 32

  datatype Device = Device(
    sensitivity: int,        // LSB per g, chosen by range selection
    raw: RawVec,             // accRaw: latest decoded burst
    offset: Vec,             // accOffset: calibration result
    accel: Vec,              // accVal: latest converted sample
    fir: Vec,                // FIRfilterAcc: block-average output
    iir: Vec,                // IIRfilterAcc: low-pass output
    recent: Vec,             // accRecent: low-pass output handed to the integrator
    previousAccel: Vec,      // accPrevious: integrator's previous acceleration
    velocity: Vec,           // accVelocity: integrated velocity
    filterMemory: Vec,       // low-pass feedback (static in the driver)
    previousVelocity: Vec,   // integrator feedback (static in the driver)
    stallCount: int          // near-zero reading counter shared by all axes (static in the driver)
  )
}
