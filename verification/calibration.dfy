/**
  Zero-offset calibration, `ADXL345_SetOffsetValues`: the mean raw reading of
  `CalibrationSize` bursts per axis; axis Z stores `255 - mean` instead.
 */
module Calibration {
  import opened Numeric
  import opened Sensor
  import opened RawSampler
  import opened Conversion

  /** The raw readings of one axis across a run of burst samples. */
  function RawColumn(samples: seq<BusRead>, axis: nat): (col: seq<real>)
    requires axis < 3
    ensures |col| == |samples|
    ensures forall k | 0 <= k < |samples| :: col[k] == Decode(samples[k].bytes)[axis] as real
  {
    seq(|samples|, k requires 0 <= k < |samples| => Decode(samples[k].bytes)[axis] as real)
  }

  /** Calibration offsets: the mean for X and Y, `255 - mean` for Z. */
  function OffsetsOf(samples: seq<BusRead>): Vec
    requires |samples| > 0
  {
    [Mean(RawColumn(samples, 0)), Mean(RawColumn(samples, 1)), 255.0 - Mean(RawColumn(samples, 2))]
  }

  /** `ADXL345_SetOffsetValues`: samples `CalibrationSize` bursts, summing the
      raw readings per axis, and divides by the count. Every read reports
      success, so the retry branch never runs and each read is counted; the
      raw readings are left at the last burst. */
  method SetOffsetValues(d: Device, samples: seq<BusRead>) returns (r: Device)
    requires |samples| == CalibrationSize
    ensures r.offset == OffsetsOf(samples)
    ensures r.raw == Decode(samples[|samples| - 1].bytes)
    ensures r == d.(raw := r.raw, offset := r.offset)
  {
    var cur, cnt, sumX, sumY, sumZ := AccumulateRaw(d, samples);
    WholeColumns(samples);
    r := cur.(offset := [sumX / cnt as real, sumY / cnt as real, 255.0 - sumZ / cnt as real]);
  }

  /** The sampling loop of `ADXL345_SetOffsetValues`: reads until
      `CalibrationSize` reads have succeeded, summing each axis. */
  method AccumulateRaw(d: Device, samples: seq<BusRead>)
    returns (cur: Device, cnt: nat, sumX: real, sumY: real, sumZ: real)
    requires |samples| == CalibrationSize
    ensures cnt == CalibrationSize
    ensures cur == d.(raw := Decode(samples[cnt - 1].bytes))
    ensures sumX == Sum(RawColumn(samples, 0)[..cnt])
    ensures sumY == Sum(RawColumn(samples, 1)[..cnt])
    ensures sumZ == Sum(RawColumn(samples, 2)[..cnt])
  {
    sumX, sumY, sumZ := 0.0, 0.0, 0.0;
    cur := d;
    cnt := 0;
    while cnt < CalibrationSize
      invariant 0 <= cnt <= CalibrationSize
      invariant cur == d.(raw := cur.raw)
      invariant cnt > 0 ==> cur.raw == Decode(samples[cnt - 1].bytes)
      invariant sumX == Sum(RawColumn(samples, 0)[..cnt])
      invariant sumY == Sum(RawColumn(samples, 1)[..cnt])
      invariant sumZ == Sum(RawColumn(samples, 2)[..cnt])
    {
      var (status, next) := ReadRaw(cur, samples[cnt]);
      if status == Success {
        cur := next;
        ColumnSumsStep(samples, cnt);
        sumX := sumX + cur.raw[0] as real;
        sumY := sumY + cur.raw[1] as real;
        sumZ := sumZ + cur.raw[2] as real;
        cnt := cnt + 1;
      }
    }
  }

  /** Counting one more sample adds its decoded reading to each axis's sum. */
  lemma ColumnSumsStep(samples: seq<BusRead>, n: nat)
    requires n < |samples|
    ensures forall a | 0 <= a < 3 ::
      Sum(RawColumn(samples, a)[..n + 1]) == Sum(RawColumn(samples, a)[..n]) + Decode(samples[n].bytes)[a] as real
  {
    forall a | 0 <= a < 3
      ensures Sum(RawColumn(samples, a)[..n + 1]) == Sum(RawColumn(samples, a)[..n]) + Decode(samples[n].bytes)[a] as real
    {
      SumPrefixStep(RawColumn(samples, a), n);
    }
  }

  /** The prefix of every column that covers all samples is the column. */
  lemma WholeColumns(samples: seq<BusRead>)
    ensures forall a | 0 <= a < 3 :: RawColumn(samples, a)[..|samples|] == RawColumn(samples, a)
  {
  }

  /** Calibrating on `CalibrationSize` identical bursts gives offsets `v`, `v`
      and `255 - v` for the burst's readings `v`. */
  lemma CalibrateOnConstantBurst(samples: seq<BusRead>, b: Burst)
    requires |samples| > 0
    requires forall k | 0 <= k < |samples| :: samples[k].bytes == b
    ensures OffsetsOf(samples) == [Decode(b)[0] as real, Decode(b)[1] as real, 255.0 - Decode(b)[2] as real]
  {
    forall a | 0 <= a < 3 ensures Mean(RawColumn(samples, a)) == Decode(b)[a] as real {
      MeanOfConstant(RawColumn(samples, a), Decode(b)[a] as real);
    }
  }

  /** After calibrating on identical bursts, converting that same burst gives
      zero acceleration on X and Y. */
  lemma CalibratedRestIsZero(samples: seq<BusRead>, b: Burst, sensitivity: int)
    requires |samples| > 0
    requires sensitivity != 0
    requires forall k | 0 <= k < |samples| :: samples[k].bytes == b
    ensures Convert(Decode(b), OffsetsOf(samples), sensitivity)[0] == 0.0
    ensures Convert(Decode(b), OffsetsOf(samples), sensitivity)[1] == 0.0
  {
    CalibrateOnConstantBurst(samples, b);
  }
}
