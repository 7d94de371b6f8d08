# ADXL345 measurement pipeline, modelled in Dafny

This project models the measurement pipeline of the ADXL345 accelerometer
driver, `Core/Src/FC_ADXL345.c`. The pipeline has these stages:

- **Raw decode.** The six-byte DATAX0..DATAZ1 burst becomes three `int16_t`
  readings.
- **Bring-up.** Reset, then the power-control write, then range selection.
  Range selection writes DATA_FORMAT and records the range's sensitivity.
- **Calibration.** The per-axis mean of 1024 raw samples. Axis Z stores
  `255 - mean`.
- **Conversion.** `(raw - offset) / sensitivity * EARTH_GRAVITY`.
- **Block-average filter.** The mean of M converted samples.
- **Low-pass filter.** A single-pole filter with a dead zone on the truncated
  value.
- **Velocity integrator.** Trapezoidal integration with one stall counter
  shared by the three axes. Every near-zero axis bumps the counter, and
  whichever axis carries it past 32 is restarted from zero.

How the model represents the driver:

- **State.** The driver's record is the immutable datatype `Sensor.Device`.
- **Hidden statics.** The driver keeps three pieces of feedback in
  function-local `static` variables: the low-pass memory, the integrator's
  previous velocity and the stall counter. Here they are explicit fields of
  the device.
- **Numbers.** Doubles are modelled as `real`. C's `(int)` cast of a double
  is `Numeric.Trunc`, which truncates toward zero. The `int16_t` conversion
  of the 16-bit word is the modular `Numeric.WrapInt16`.
- **Bus.** Bus traffic is input:
  - each burst read is a `RawSampler.BusRead`, holding the HAL status and the
    six bytes;
  - each register write is a boolean acknowledgement in `Setup.WriteAcks`;
  - bring-up returns the writes it attempted, in order.
- **Loops.** Calibration and the block filter are methods whose loops mirror
  the driver's loops.
- **Other stages.** Every other stage is a pure function.

The files, each holding one module:

| file | module | content |
|---|---|---|
| numeric.dfy | `Numeric` | bytes, `int16_t`, truncation, sums, means, powers |
| sensor.dfy | `Sensor` | the device record and the shared constants |
| raw_sampler.dfy | `RawSampler` | burst decoding and its inverse |
| setup.dfy | `Setup` | reset, range selection and bring-up |
| conversion.dfy | `Conversion` | raw-to-m/s^2 conversion |
| calibration.dfy | `Calibration` | zero-offset calibration |
| block_filter.dfy | `BlockFilter` | the block-average filter |
| low_pass.dfy | `LowPass` | the low-pass filter with its dead zone |
| velocity.dfy | `Velocity` | the integrator as written, with the shared counter |
| velocity_per_axis.dfy | `VelocityPerAxis` | the integrator with one counter per axis |

## Model

| member | source | states |
|---|---|---|
| Numeric.WrapInt16 | Core/Src/FC_ADXL345.c:124-126 | The `int16_t` cast of a 16-bit word is congruent to the word modulo 2^16. The cast is negative exactly when the word's top bit is set. |
| Numeric.Trunc | Core/Src/FC_ADXL345.c:209 | C's `(int)` cast truncates toward zero, for either sign. It yields 0 exactly for values strictly between -1 and 1. |
| RawSampler.Word | Core/Src/FC_ADXL345.c:124-126 | `lo \| hi << 8` is a 16-bit word. Its low byte is `lo` and its high byte is `hi`. |
| RawSampler.DecodeAxis | Core/Src/FC_ADXL345.c:124-126 | An axis reading is the two's-complement value of the little-endian byte pair. The sign comes from the high byte's top bit. |
| RawSampler.Decode | Core/Src/FC_ADXL345.c:124-126 | Axis `i` is decoded from bytes `2i` and `2i+1` and from no other byte. |
| RawSampler.EncodeAxis | Core/Src/FC_ADXL345.c:124-126 | Every `int16_t` value has a byte pair that decodes to it. |
| RawSampler.Encode | Core/Src/FC_ADXL345.c:124-126 | Every raw vector has a burst that decodes to it. |
| RawSampler.EncodeDecodeAxis | Core/Src/FC_ADXL345.c:124-126 | Decoding a byte pair loses nothing: re-encoding gives back the same pair. |
| RawSampler.EncodeDecode | Core/Src/FC_ADXL345.c:124-126 | Decoding a burst loses nothing: re-encoding gives back the same six bytes. |
| RawSampler.ReadRaw | Core/Src/FC_ADXL345.c:119-129 | The read always reports success, whatever the HAL call returned. Only the raw readings change, and they become the decoded buffer. |
| Conversion.ConvertAxis | Core/Src/FC_ADXL345.c:162 | The converted value times the sensitivity equals `(raw - offset) * g`. The result is zero exactly when the raw reading equals the offset. |
| Conversion.Convert | Core/Src/FC_ADXL345.c:161-163 | The same linear relation and zero test hold on every axis. |
| Conversion.SetAccelerations | Core/Src/FC_ADXL345.c:160-164 | Every axis satisfies the linear relation with the device's raw readings, offsets and sensitivity. Nothing but the converted values changes. |
| Calibration.SetOffsetValues | Core/Src/FC_ADXL345.c:136-151 | Exactly 1024 reads are summed, since no read reports failure. The offsets are the X and Y means and `255 -` the Z mean. Raw readings end at the last burst, and nothing else changes. |
| Calibration.AccumulateRaw | Core/Src/FC_ADXL345.c:139-147 | The sampling loop ends after exactly 1024 successful reads. Each axis's sum is the sum of that axis's decoded readings, and only the raw readings change. |
| Calibration.CalibrateOnConstantBurst | Core/Src/FC_ADXL345.c:148-150 | Identical bursts with readings `v` give offsets `v`, `v` and `255 - v`. |
| Calibration.CalibratedRestIsZero | Core/Src/FC_ADXL345.c:148-149 | After calibrating on identical bursts, converting that burst gives zero on X and on Y. |
| BlockFilter.FIRAverageFilter | Core/Src/FC_ADXL345.c:173-193 | The output is each axis's mean converted value over the window. Raw and converted values end at the last burst, and nothing else changes. |
| BlockFilter.AccumulateConverted | Core/Src/FC_ADXL345.c:178-188 | The loop ends after one successful read per window slot. Each axis's sum is the sum of that axis's conversions. Raw and converted values end at the last burst. |
| BlockFilter.ConstantWindow | Core/Src/FC_ADXL345.c:178-192 | A window of identical bursts averages to that burst's single conversion. |
| BlockFilter.AverageWithinWindow | Core/Src/FC_ADXL345.c:178-192 | Each axis's average lies between any lower and upper bound of its converted samples. |
| BlockFilter.RestingWindowIsZero | Core/Src/FC_ADXL345.c:162 | A window whose readings equal the axis offset averages to exactly zero. |
| LowPass.InDeadZone | Core/Src/FC_ADXL345.c:209 | The truncated-value test holds exactly on the open interval (-1, 1). |
| LowPass.FilterAxis | Core/Src/FC_ADXL345.c:209-216 | Inside the dead zone (-1, 1), the input and the output are both zero. Outside it, the input is kept and the output is `fir + rate * (memory - fir)`. |
| LowPass.IIRLowPassFilter | Core/Src/FC_ADXL345.c:202-219 | In the dead zone, the block value, the feedback and the output all become 0. Otherwise the output is the convex update. The feedback and the integrator input both equal the output afterwards. Nothing else changes. |
| LowPass.ZeroRatePassesThrough | Core/Src/FC_ADXL345.c:215 | With rate 0, the output equals the (dead-zone adjusted) input. |
| LowPass.SettledAxisStays | Core/Src/FC_ADXL345.c:215 | If the feedback equals an input outside the dead zone, the output equals the input. |
| LowPass.OutputBetween | Core/Src/FC_ADXL345.c:215 | For a rate in [0, 1], the output lies between the input and the previous output. |
| LowPass.StepTowardInput | Core/Src/FC_ADXL345.c:215-216 | One run outside the dead zone keeps the input. It scales the feedback's distance to the input by `rate`. |
| LowPass.RepeatFollowsApproach | Core/Src/FC_ADXL345.c:204-216 | Repeated runs on a constant input outside the dead zone drive the feedback along the `Approach` recurrence. |
| LowPass.ApproachGap | Core/Src/FC_ADXL345.c:215-216 | After `k` runs, the feedback's distance to a constant input is `rate^k` times its initial distance. |
| Velocity.Stalled | Core/Src/FC_ADXL345.c:236 | The near-zero test on the truncated acceleration holds exactly on the open interval (-1, 1). |
| Velocity.Bump | Core/Src/FC_ADXL345.c:237-239 | One near-zero axis's counter step keeps the counter within 0..32. It adds one, except that passing 32 clears it to 0. |
| Velocity.StartUp | Core/Src/FC_ADXL345.c:229-231 | The `static` initialisers, including the low-pass memory at line 204, zero the feedback. The counter starts at exactly 0, which is in its resting phase and within 0..32. Nothing else changes. |
| Velocity.IntegrateAxis | Core/Src/FC_ADXL345.c:235-249 | Details below this table. |
| Velocity.SetVelocity | Core/Src/FC_ADXL345.c:229-251 | Details below this table. |
| Velocity.MovingStep | Core/Src/FC_ADXL345.c:236-249 | With no axis near zero, the counter is unchanged. Each axis takes one trapezoid step from its previous velocity. |
| Velocity.ConstantAcceleration | Core/Src/FC_ADXL345.c:247-249 | Under a constant acceleration away from rest, any run of consecutive calls adds the same trapezoid once per call. The input and the previous acceleration stay put. |
| Velocity.TrapezoidOfConstant | Core/Src/FC_ADXL345.c:247 | For a constant acceleration `a`, one step adds `a * deltaT / 1000`. |
| Velocity.RestingCall | Core/Src/FC_ADXL345.c:236-244 | With all axes near zero, a call bumps the shared counter once per axis. X is reset exactly when the counter starts at the limit. Y is not reset when the counter starts below 31. |
| Velocity.RestingCallResetsZ | Core/Src/FC_ADXL345.c:236-247 | From 30 at rest, Z is the axis that sees the counter pass 32. Z restarts from a single trapezoid, and the counter is cleared. |
| Velocity.RestingPhaseKept | Core/Src/FC_ADXL345.c:236-243 | At rest, the counter between calls stays a multiple of three up to 30. |
| Velocity.RestingXYNeverReset | Core/Src/FC_ADXL345.c:231-249 | At rest, from a counter in that phase, neither X nor Y is ever reset in any run of consecutive calls. Each one's velocity grows by one trapezoid per call, and the counter keeps its phase. |
| Velocity.SharedCounterNeverResetsXY | Core/Src/FC_ADXL345.c:231-249 | See Findings. Start X from 1 m/s and Y from 0 with a cleared counter, and read 0.5 m/s^2 on every axis every 10 ms. After `k` consecutive calls, X's velocity is `1 + 0.005 k` and Y's is `0.005 k`, for every `k`. |
| Velocity.StartedRestingRunNeverResetsXY | Core/Src/FC_ADXL345.c:229-249 | See Findings. From the driver's start-up state, at rest, X and Y are never reset in any run. Each one's velocity is `k` trapezoids after `k` calls. |
| VelocityPerAxis.Integrate | Core/Src/FC_ADXL345.c:235-249 | One axis step with its own counter. It has the same reset condition, velocity and counter effects as the driver's axis step. |
| VelocityPerAxis.IntegrateMatchesDriver | Core/Src/FC_ADXL345.c:235-249 | For every state and reading, the per-axis step started from the driver's state for an axis gives the driver's velocity, previous acceleration and counter for that axis. |
| VelocityPerAxis.StalledRunCounts | Core/Src/FC_ADXL345.c:236-237 | Below the limit, each near-zero reading adds one to the axis's own counter. |
| VelocityPerAxis.ResetAfterLimit | Core/Src/FC_ADXL345.c:236-244 | From a cleared counter, 33 near-zero readings reset the axis on the last one. The velocity is then a single trapezoid from zero, and the counter is cleared. |
| VelocityPerAxis.SetVelocity | Core/Src/FC_ADXL345.c:229-251 | Each axis is reset or integrated according to its own counter and reading. A reset clears that axis's counter. Otherwise a near-zero reading advances it by one and any other reading leaves it alone. |
| VelocityPerAxis.AxesIndependent | Core/Src/FC_ADXL345.c:235-244 | An axis's result depends only on its own state and reading. |
| VelocityPerAxis.RunAllIsPerAxis | Core/Src/FC_ADXL345.c:233-250 | Running the three axes together equals running each axis on its own readings. |
| VelocityPerAxis.EveryAxisResetsAfterLimit | Core/Src/FC_ADXL345.c:235-244 | Whatever the other axes read, 33 near-zero readings of an axis reset it on the last one. |
| VelocityPerAxis.AgreesAwayFromRest | Core/Src/FC_ADXL345.c:247-249 | Away from rest, the per-axis design computes the driver's velocities. |
| Setup.SensitivityFor | Core/Src/FC_ADXL345.c:26-33 | Every range code, known or not, yields a positive sensitivity. |
| Setup.DataFormatFor | Core/Src/FC_ADXL345.c:281-315 | The byte written is one of 0x00, 0x01, 0x10 and 0x11. It is 0x00 exactly for the 2 g code and for any unknown code. For a known code, the byte's high and low hex digits are the two bits of the code's index in 2, 4, 8, 16. So 4 g writes 0x01, 8 g writes 0x10 and 16 g writes 0x11. |
| Setup.SensitivityScalesWithRange | Core/Inc/FC_ADXL345.h:15-22 | For the codes 2, 4, 8 and 16, range times sensitivity is 512. The range is recovered as `512 / sensitivity`. |
| Setup.UnknownRangeIs2G | Core/Src/FC_ADXL345.c:309-315 | An unknown code writes and stores exactly what the 2 g code does. |
| Setup.DataFormatDistinguishesRanges | Core/Src/FC_ADXL345.c:281-307 | Distinct range codes write distinct DATA_FORMAT bytes. |
| Setup.Reset | Core/Src/FC_ADXL345.c:262-267 | The reset succeeds exactly when its POWER_CTL write is acknowledged. Its payload is the driver's null data pointer, kept opaque (`NullData`). |
| Setup.SelectSensitivityRange | Core/Src/FC_ADXL345.c:278-319 | The call succeeds exactly when the DATA_FORMAT write is acknowledged. The sensitivity is stored only then. A failed write leaves the device unchanged. |
| Setup.Init | Core/Src/FC_ADXL345.c:94-106 | Details below this table. |
| Setup.FailedResetWritesNoRange | Core/Src/FC_ADXL345.c:95-96 | A failed reset writes nothing but POWER_CTL and leaves the sensitivity untouched. |

`Velocity.IntegrateAxis` states:

- A near-zero axis with the shared counter at the limit is reset: its
  velocity is a single trapezoid from zero, and the counter is cleared.
- Otherwise, the velocity is the previous velocity plus the trapezoid. The
  counter grows only for a near-zero axis.
- The counter stays within 0..32.
- Afterwards the previous acceleration is the current one.
- The other axes are untouched.

`Velocity.SetVelocity` states:

- Axis `i` is reset exactly when it is near zero and the counter it finds
  (`CountBefore`) is at the limit. The counter it finds is the starting value,
  bumped by each earlier near-zero axis, with a pass beyond 32 back to 0.
  A reset axis's velocity is a single trapezoid from zero.
- Every other axis's velocity is its previous velocity plus the trapezoid.
- The final counter is the starting value bumped by every near-zero axis.
- The input is unchanged.
- Afterwards the previous accelerations are the inputs.
- The stored previous velocity equals the published velocity.
- The counter stays within 0..32.
- Only integrator fields change.

`Setup.Init` states:

- It succeeds exactly when all three writes are acknowledged.
- The writes attempted are the bring-up sequence, up to and including the
  first failing write.
- On failure the device is unchanged.
- On success the device holds the range's sensitivity, which is non-zero.

## Left out

- **HAL and I2C plumbing.** This covers `HAL_I2C_Mem_Read`, `I2C_Write`,
  `I2C_Read` and `HAL_Delay`, which are foreign calls with unseen
  definitions. Reads are input bursts. Writes are input acknowledgements.
- **`I2C_Write`'s return convention.** Reset tests the result for non-zero,
  and the other steps compare it with `FCFAIL`. Both are modelled as "not
  acknowledged", assuming `FCFAIL` is the only non-zero result.
  `ADXL345_Init` returns `SUCCESS` where the other steps return `FCSUCCESS`,
  and the model takes both to be `Success`.
- **The reset's data pointer.** Reset passes the literal `0x00` as the data
  pointer. It is modelled as an opaque write (`NullData`).
- **`ADXL345_IsWhoAmI`.** It is a bus probe and is not part of the pipeline.
- **`ADXL345_CreateObject` and `ADXL345_DeleteObject`.** These are
  allocation only.
- **The getters.** They are plain field reads.
- **Floating point.** The model uses exact reals: no rounding, no NaN or
  infinities. `EARTH_GRAVITY` is a `float` literal in the driver but is the
  exact value 9.800665 here.
- **Window size and sensitivity.** The source divides by both, and zero
  yields NaN or infinity, so the model requires a positive window size and a
  non-zero sensitivity.
- **Integer overflow.** Overflow of the C `(int)` cast for huge values and of
  the `int16_t` counter is not modelled. The counter provably stays within
  0..32, so it cannot overflow.
- **The retry branches.** Calibration and the block filter have retry
  branches. They are kept as an `if` on the read status, which is dead
  because the reader always reports success. Their possible non-termination
  is therefore not modelled.
- **Shared statics.** The driver shares its `static` feedback across all
  device instances. Each modelled device owns its feedback, so
  multi-instance interference is not modelled.
- **Undefined header declarations.** `ADXL345_MovingAvarageFilter`,
  `ADXL345_IsTheMovementStoped`, the zero-argument `ADXL345_SetVelocity` and
  the `GetRecentAccelValue*` accessors are declared in the header with no
  definition. Only the `.c` definitions are modelled.
- **Sampler failure.** The raw reader's doc comment
  (`Core/Src/FC_ADXL345.c:114-117`) documents a `1` return on failure. The
  code ignores the HAL status of its read (line 122), overwrites the readings
  and always returns `FCSUCCESS` (line 128). The model follows the code
  (`RawSampler.ReadRaw`).
- **Unknown range codes.** For a code other than 2, 4, 8 or 16, the range
  selection writes 0x00, stores the 2 g sensitivity 256 and succeeds
  (`Core/Src/FC_ADXL345.c:309-315`). The model does the same
  (`Setup.UnknownRangeIs2G`).
- **Unseen declarations.** The `ADXL345` struct is only forward-declared
  (`Core/Inc/FC_ADXL345.h:12-13`). `FCSUCCESS`, `FCFAIL` and `SUCCESS` come
  from `FC_UTILITY.h`, which is not part of this model. The model assumes
  two things about them:
  - The `sensivity` field is wide enough to hold 256. A `uint8_t` field
    would store 0 for the 2 g and default codes.
  - `FCSUCCESS` is 0, as the raw reader's doc comment says
    (`Core/Src/FC_ADXL345.c:114-116`). Otherwise the `!` success tests at
    lines 140 and 179 never hold, and calibration and the block filter would
    loop forever.
- **DATA_FORMAT bytes.** The bytes are recorded as the driver writes them
  (0x00, 0x01, 0x10, 0x11). They are not the range-bit encoding of the
  ADXL345 datasheet.

## Findings

| source | as written | input that shows it | evidently intended | confidence | as-written member | corrected member |
|---|---|---|---|---|---|---|
| Core/Src/FC_ADXL345.c:231-243 | One `static` counter is shared by the three axes. Every near-zero axis bumps it, and whichever axis carries it past 32 is reset. | All three axes read 0.5 m/s^2 on every call, starting from a cleared counter. Between calls the counter runs 0, 3, ..., 30, and only Z ever sees it pass 32. Before their own bumps, X finds it at most 30 and Y at most 31, so X and Y are never reset, however long they stay near zero, and their velocities keep growing. The same holds for any resting input from the driver's start-up state (`Velocity.StartedRestingRunNeverResetsXY`). | The comment at line 235 reads "if the acceleration is zero for a while, reset speed and previous accel", for each axis. That needs one counter per axis: an axis is reset once more than 32 of its own near-zero readings have arrived since its last reset. | medium; not executed | Velocity.SharedCounterNeverResetsXY | VelocityPerAxis.EveryAxisResetsAfterLimit |
