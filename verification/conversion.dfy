/**
  Raw-to-physical conversion, `ADXL345_SetAccelerations`: each axis becomes
  `(raw - offset) / sensitivity * EARTH_GRAVITY`, in m/s^2.
 */
module Conversion {
  import opened Numeric
  import opened Sensor

  /** One axis reading in m/s^2. */
  function ConvertAxis(raw: Int16, offset: real, sensitivity: int): (a: real)
    requires sensitivity != 0
    ensures a * sensitivity as real == (raw as real - offset) * EarthGravity
    ensures a == 0.0 <==> raw as real == offset
  {
    var x := raw as real - offset;
    var s := sensitivity as real;
    assert x / s * EarthGravity * s == x * EarthGravity;
    x / s * EarthGravity
  }

  /** All three axes; each is the linear map with slope `EarthGravity /
      sensitivity` through zero at the axis offset. */
  function Convert(raw: RawVec, offset: Vec, sensitivity: int): (acc: Vec)
    requires sensitivity != 0
    ensures forall i | 0 <= i < 3 ::
      acc[i] * sensitivity as real == (raw[i] as real - offset[i]) * EarthGravity
    ensures forall i | 0 <= i < 3 :: acc[i] == 0.0 <==> raw[i] as real == offset[i]
  {
    [ConvertAxis(raw[0], offset[0], sensitivity),
     ConvertAxis(raw[1], offset[1], sensitivity),
     ConvertAxis(raw[2], offset[2], sensitivity)]
  }

  /** `ADXL345_SetAccelerations`: only the converted values change. */
  function SetAccelerations(d: Device): (r: Device)
    requires d.sensitivity != 0
    ensures forall i | 0 <= i < 3 ::
      r.accel[i] * d.sensitivity as real == (d.raw[i] as real - d.offset[i]) * EarthGravity
    ensures r == d.(accel := r.accel)
  {
    d.(accel := Convert(d.raw, d.offset, d.sensitivity))
  }
}
