/**
  Decoding of the six-byte DATAX0..DATAZ1 burst into three `int16_t` axis
  readings, low byte first, and its inverse.
 */
module RawSampler {
  import opened Numeric
  import opened Sensor

  /** The six bytes the burst read leaves in the driver's buffer. */
  type Burst = s: seq<Byte> | |s| == 6 witness [0, 0, 0, 0, 0, 0]

  /** One burst read as the bus hands it over: whether the HAL call reported
      success, and the buffer contents after the call. */
  datatype BusRead = BusRead(halOk: bool, bytes: Burst)

  /** The 16-bit word `lo | hi << 8`; the two bytes occupy disjoint bits, so
      the bitwise or is the sum `lo + 256 * hi`. */
  function Word(lo: Byte, hi: Byte): (w: int)
    ensures 0 <= w < 0x1_0000
    ensures w % 256 == lo && w / 256 == hi
  {
    lo + 256 * hi
  }

  /** One axis: the two's-complement value of the little-endian byte pair; the
      high bit of `hi` is the sign. */
  function DecodeAxis(lo: Byte, hi: Byte): (v: Int16)
    ensures v == lo + 256 * hi - (if hi >= 0x80 then 0x1_0000 else 0)
  {
    WrapInt16(Word(lo, hi))
  }

  /** The three axis readings of a burst; axis `i` depends on bytes `2i` and
      `2i + 1` only. */
  function Decode(b: Burst): (raw: RawVec)
    ensures forall i | 0 <= i < 3 :: raw[i] == DecodeAxis(b[2 * i], b[2 * i + 1])
  {
    [DecodeAxis(b[0], b[1]), DecodeAxis(b[2], b[3]), DecodeAxis(b[4], b[5])]
  }

  /** The byte pair (low, high) that the sensor would send for `v`. */
  function EncodeAxis(v: Int16): (p: (Byte, Byte))
    ensures DecodeAxis(p.0, p.1) == v
  {
    var w: int := if v < 0 then v as int + 0x1_0000 else v as int;
    (w % 256, w / 256)
  }

  /** The burst that decodes to `raw`. */
  function Encode(raw: RawVec): (b: Burst)
    ensures Decode(b) == raw
  {
    var x := EncodeAxis(raw[0]);
    var y := EncodeAxis(raw[1]);
    var z := EncodeAxis(raw[2]);
    [x.0, x.1, y.0, y.1, z.0, z.1]
  }

  /** Decoding loses nothing: re-encoding a decoded pair gives the pair back. */
  lemma EncodeDecodeAxis(lo: Byte, hi: Byte)
    ensures EncodeAxis(DecodeAxis(lo, hi)) == (lo, hi)
  {
    var v := DecodeAxis(lo, hi);
    var w: int := if v < 0 then v as int + 0x1_0000 else v as int;
    assert w == Word(lo, hi);
  }

  /** Re-encoding a decoded burst gives the burst back. */
  lemma EncodeDecode(b: Burst)
    ensures Encode(Decode(b)) == b
  {
    var raw := Decode(b);
    EncodeDecodeAxis(b[0], b[1]);
    EncodeDecodeAxis(b[2], b[3]);
    EncodeDecodeAxis(b[4], b[5]);
  }

  /** `ADXL345_ReadRawValueFromAccel`: overwrite the raw readings with the
      decoded buffer and report success whatever the HAL call returned. */
  function ReadRaw(d: Device, read: BusRead): (r: (Status, Device))
    ensures r.0 == Success
    ensures r.1.raw == Decode(read.bytes)
    ensures r.1 == d.(raw := r.1.raw)
  {
    (Success, d.(raw := Decode(read.bytes)))
  }
}
