/**
  Bring-up of the sensor, `ADXL345_Init`: a reset, the power-control write
  that starts measuring, and range selection, which writes DATA_FORMAT and
  then records the sensitivity of the chosen range. Each register write is
  an input acknowledgement; the writes attempted are returned in order so
  that "later steps are not attempted" can be stated.
 */
module Setup {
  import opened Numeric
  import opened Sensor

  /** Register addresses, `ADXL345_POWER_CTL` and `ADXL345_DATA_FORMAT`. */
  const PowerControlRegister: Byte := 0x2D
  const DataFormatRegister: Byte := 0x31

  /** The POWER_CTL value that wakes the sensor and starts measuring. */
  const MeasureMode: Byte := 0x08

  /** The range codes of `ADXL345Sensivity`, in g. */
  const Range2G: Byte := 2
  const Range4G: Byte := 4
  const Range8G: Byte := 8
  const Range16G: Byte := 16

  predicate IsRangeCode(range: Byte)
  {
    range == Range2G || range == Range4G || range == Range8G || range == Range16G
  }

  /** The payload of a register write: a byte, or the reset's null data
      pointer, whose effect on the bus is not part of the model. */
  datatype Payload = Value(b: Byte) | NullData

  datatype BusWrite = BusWrite(register: Byte, payload: Payload)

  /** The outcome the bus reports for each of the three writes, in order. */
  datatype WriteAcks = WriteAcks(reset: bool, powerControl: bool, dataFormat: bool)

  /** The status, the device after the call, and the writes attempted. */
  datatype Configured = Configured(status: Status, device: Device, writes: seq<BusWrite>)

  /** The sensitivity (LSB per g) of a range code; an unknown code falls back
      to the 2 g sensitivity. */
  function SensitivityFor(range: Byte): (s: int)
    ensures s > 0
  {
    if range == Range2G then 256
    else if range == Range4G then 128
    else if range == Range8G then 64
    else if range == Range16G then 32
    else 256
  }

  /** The DATA_FORMAT byte written for a range code, as the driver writes it;
      an unknown code writes the 2 g byte. For the four codes, the byte's two
      hexadecimal digits are the two bits of the code's position in the list
      2 g, 4 g, 8 g, 16 g. */
  function DataFormatFor(range: Byte): (b: Byte)
    ensures b in {0x00, 0x01, 0x10, 0x11}
    ensures b == 0x00 <==> range == Range2G || !IsRangeCode(range)
    ensures IsRangeCode(range) ==> range == [Range2G, Range4G, Range8G, Range16G][b / 16 * 2 + b % 16]
  {
    if range == Range2G then 0x00
    else if range == Range4G then 0x01
    else if range == Range8G then 0x10
    else if range == Range16G then 0x11
    else 0x00
  }

  /** For every range code, range times sensitivity is the same 512: the
      sensitivity halves each time the range doubles, and the range can be
      recovered from it. */
  lemma SensitivityScalesWithRange(range: Byte)
    requires IsRangeCode(range)
    ensures SensitivityFor(range) * range == 512
    ensures 512 / SensitivityFor(range) == range
  {
  }

  /** An unknown range code behaves exactly as the 2 g code. */
  lemma UnknownRangeIs2G(range: Byte)
    requires !IsRangeCode(range)
    ensures SensitivityFor(range) == SensitivityFor(Range2G)
    ensures DataFormatFor(range) == DataFormatFor(Range2G)
  {
  }

  /** Distinct range codes are written as distinct DATA_FORMAT bytes. */
  lemma DataFormatDistinguishesRanges(r1: Byte, r2: Byte)
    requires IsRangeCode(r1) && IsRangeCode(r2)
    requires DataFormatFor(r1) == DataFormatFor(r2)
    ensures r1 == r2
  {
  }

  /** `ADXL345_Reset`: the opaque write to POWER_CTL. */
  function Reset(ack: bool): (r: (Status, BusWrite))
    ensures r.0 == Success <==> ack
    ensures r.1.register == PowerControlRegister && r.1.payload == NullData
  {
    (if ack then Success else Failure, BusWrite(PowerControlRegister, NullData))
  }

  /** `ADXL345_SelectSensivityRange`: writes the range's DATA_FORMAT byte and,
      only once that write succeeds, stores the range's sensitivity. */
  function SelectSensitivityRange(d: Device, range: Byte, ack: bool): (r: (Status, Device, BusWrite))
    ensures r.0 == Success <==> ack
    ensures r.2 == BusWrite(DataFormatRegister, Value(DataFormatFor(range)))
    ensures ack ==> r.1.sensitivity == SensitivityFor(range) && r.1 == d.(sensitivity := r.1.sensitivity)
    ensures !ack ==> r.1 == d
  {
    var val := DataFormatFor(range);
    var sensitivity := SensitivityFor(range);
    var write := BusWrite(DataFormatRegister, Value(val));
    if !ack then (Failure, d, write) else (Success, d.(sensitivity := sensitivity), write)
  }

  /** The writes a successful bring-up performs, in order. */
  function InitSequence(range: Byte): seq<BusWrite>
  {
    [BusWrite(PowerControlRegister, NullData),
     BusWrite(PowerControlRegister, Value(MeasureMode)),
     BusWrite(DataFormatRegister, Value(DataFormatFor(range)))]
  }

  /** `ADXL345_Init`: reset, power control, range selection, stopping at the
      first failing step. It succeeds exactly when all three writes are
      acknowledged; the writes attempted are the start of the bring-up
      sequence up to and including the failing one; on failure the device is
      untouched, and on success it holds the range's (non-zero) sensitivity,
      which is what conversion needs. */
  function Init(d: Device, range: Byte, acks: WriteAcks): (r: Configured)
    ensures r.status == Success <==> acks.reset && acks.powerControl && acks.dataFormat
    ensures r.writes == InitSequence(range)[..(if !acks.reset then 1 else if !acks.powerControl then 2 else 3)]
    ensures r.status == Failure ==> r.device == d
    ensures r.status == Success ==>
      r.device == d.(sensitivity := SensitivityFor(range)) && r.device.sensitivity != 0
  {
    var (resetStatus, resetWrite) := Reset(acks.reset);
    if resetStatus == Failure then
      Configured(Failure, d, [resetWrite])
    else
      var powerWrite := BusWrite(PowerControlRegister, Value(MeasureMode));
      if !acks.powerControl then
        Configured(Failure, d, [resetWrite, powerWrite])
      else
        var (rangeStatus, d1, rangeWrite) := SelectSensitivityRange(d, range, acks.dataFormat);
        if rangeStatus == Failure then
          Configured(Failure, d, [resetWrite, powerWrite, rangeWrite])
        else
          Configured(Success, d1, [resetWrite, powerWrite, rangeWrite])
  }

  /** A failed reset stops the bring-up before anything is written to
      DATA_FORMAT, so the sensitivity is never touched. */
  lemma FailedResetWritesNoRange(d: Device, range: Byte, acks: WriteAcks)
    requires !acks.reset
    ensures forall w | w in Init(d, range, acks).writes :: w.register == PowerControlRegister
    ensures Init(d, range, acks).device.sensitivity == d.sensitivity
  {
    assert Init(d, range, acks).writes == [BusWrite(PowerControlRegister, NullData)];
  }
}
