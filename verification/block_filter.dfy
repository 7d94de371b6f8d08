/**
  Block-average filter, `ADXL345_FIRAvarageFilter`: reads and converts a
  window of M bursts and stores the per-axis mean of the converted values.
 */
module BlockFilter {
  import opened Numeric
  import opened Sensor
  import opened RawSampler
  import opened Conversion

  /** The converted acceleration of one axis across a window of burst reads. */
  function ConvertedColumn(samples: seq<BusRead>, offset: Vec, sensitivity: int, axis: nat): (col: seq<real>)
    requires sensitivity != 0
    requires axis < 3
    ensures |col| == |samples|
    ensures forall k | 0 <= k < |samples| ::
      col[k] == Convert(Decode(samples[k].bytes), offset, sensitivity)[axis]
  {
    seq(|samples|, k requires 0 <= k < |samples| => Convert(Decode(samples[k].bytes), offset, sensitivity)[axis])
  }

  /** The filter output: the mean converted value of each axis. */
  function WindowAverage(samples: seq<BusRead>, offset: Vec, sensitivity: int): Vec
    requires sensitivity != 0
    requires |samples| > 0
  {
    [Mean(ConvertedColumn(samples, offset, sensitivity, 0)),
     Mean(ConvertedColumn(samples, offset, sensitivity, 1)),
     Mean(ConvertedColumn(samples, offset, sensitivity, 2))]
  }

  /** `ADXL345_FIRAvarageFilter` with window size `|samples|`: every read
      reports success, so each burst is decoded, converted and summed once;
      the raw and converted values are left at the last burst. */
  method FIRAverageFilter(d: Device, samples: seq<BusRead>) returns (r: Device)
    requires |samples| > 0
    requires d.sensitivity != 0
    ensures r.fir == WindowAverage(samples, d.offset, d.sensitivity)
    ensures r.raw == Decode(samples[|samples| - 1].bytes)
    ensures r.accel == Convert(r.raw, d.offset, d.sensitivity)
    ensures r == d.(raw := r.raw, accel := r.accel, fir := r.fir)
  {
    var cur, cnt, sumX, sumY, sumZ := AccumulateConverted(d, samples);
    WholeColumns(samples, d.offset, d.sensitivity);
    r := cur.(fir := [sumX / cnt as real, sumY / cnt as real, sumZ / cnt as real]);
  }

  /** The sampling loop of `ADXL345_FIRAvarageFilter`: reads and converts
      until `|samples|` reads have succeeded, summing each axis. */
  method AccumulateConverted(d: Device, samples: seq<BusRead>)
    returns (cur: Device, cnt: nat, sumX: real, sumY: real, sumZ: real)
    requires |samples| > 0
    requires d.sensitivity != 0
    ensures cnt == |samples|
    ensures cur.raw == Decode(samples[cnt - 1].bytes)
    ensures cur == d.(raw := cur.raw, accel := Convert(cur.raw, d.offset, d.sensitivity))
    ensures sumX == Sum(ConvertedColumn(samples, d.offset, d.sensitivity, 0)[..cnt])
    ensures sumY == Sum(ConvertedColumn(samples, d.offset, d.sensitivity, 1)[..cnt])
    ensures sumZ == Sum(ConvertedColumn(samples, d.offset, d.sensitivity, 2)[..cnt])
  {
    sumX, sumY, sumZ := 0.0, 0.0, 0.0;
    cur := d;
    cnt := 0;
    while cnt < |samples|
      invariant 0 <= cnt <= |samples|
      invariant cur == d.(raw := cur.raw, accel := cur.accel)
      invariant cnt > 0 ==> cur.raw == Decode(samples[cnt - 1].bytes)
      invariant cnt > 0 ==> cur.accel == Convert(cur.raw, d.offset, d.sensitivity)
      invariant sumX == Sum(ConvertedColumn(samples, d.offset, d.sensitivity, 0)[..cnt])
      invariant sumY == Sum(ConvertedColumn(samples, d.offset, d.sensitivity, 1)[..cnt])
      invariant sumZ == Sum(ConvertedColumn(samples, d.offset, d.sensitivity, 2)[..cnt])
    {
      var (status, next) := ReadRaw(cur, samples[cnt]);
      if status == Success {
        cur := SetAccelerations(next);
        ConvertedSumsStep(samples, d.offset, d.sensitivity, cnt);
        sumX := sumX + cur.accel[0];
        sumY := sumY + cur.accel[1];
        sumZ := sumZ + cur.accel[2];
        cnt := cnt + 1;
      }
    }
  }

  /** Counting one more sample adds its conversion to each axis's sum. */
  lemma ConvertedSumsStep(samples: seq<BusRead>, offset: Vec, sensitivity: int, n: nat)
    requires sensitivity != 0
    requires n < |samples|
    ensures forall a | 0 <= a < 3 ::
      Sum(ConvertedColumn(samples, offset, sensitivity, a)[..n + 1])
        == Sum(ConvertedColumn(samples, offset, sensitivity, a)[..n])
           + Convert(Decode(samples[n].bytes), offset, sensitivity)[a]
  {
    forall a | 0 <= a < 3
      ensures Sum(ConvertedColumn(samples, offset, sensitivity, a)[..n + 1])
        == Sum(ConvertedColumn(samples, offset, sensitivity, a)[..n])
           + Convert(Decode(samples[n].bytes), offset, sensitivity)[a]
    {
      SumPrefixStep(ConvertedColumn(samples, offset, sensitivity, a), n);
    }
  }

  /** The prefix of every column that covers all samples is the column. */
  lemma WholeColumns(samples: seq<BusRead>, offset: Vec, sensitivity: int)
    requires sensitivity != 0
    ensures forall a | 0 <= a < 3 ::
      ConvertedColumn(samples, offset, sensitivity, a)[..|samples|] == ConvertedColumn(samples, offset, sensitivity, a)
  {
  }

  /** A window of identical bursts averages to that burst's single conversion. */
  lemma ConstantWindow(samples: seq<BusRead>, b: Burst, offset: Vec, sensitivity: int)
    requires sensitivity != 0
    requires |samples| > 0
    requires forall k | 0 <= k < |samples| :: samples[k].bytes == b
    ensures WindowAverage(samples, offset, sensitivity) == Convert(Decode(b), offset, sensitivity)
  {
    var c := Convert(Decode(b), offset, sensitivity);
    MeanOfConstant(ConvertedColumn(samples, offset, sensitivity, 0), c[0]);
    MeanOfConstant(ConvertedColumn(samples, offset, sensitivity, 1), c[1]);
    MeanOfConstant(ConvertedColumn(samples, offset, sensitivity, 2), c[2]);
  }

  /** The average of an axis lies between the least and the greatest converted
      sample of the window. */
  lemma AverageWithinWindow(samples: seq<BusRead>, offset: Vec, sensitivity: int, axis: nat, lo: real, hi: real)
    requires sensitivity != 0
    requires |samples| > 0
    requires axis < 3
    requires forall k | 0 <= k < |samples| ::
      lo <= Convert(Decode(samples[k].bytes), offset, sensitivity)[axis] <= hi
    ensures lo <= WindowAverage(samples, offset, sensitivity)[axis] <= hi
  {
    MeanBetween(ConvertedColumn(samples, offset, sensitivity, axis), lo, hi);
  }

  /** A window whose readings of an axis all equal that axis's offset averages
      to zero on that axis. */
  lemma RestingWindowIsZero(samples: seq<BusRead>, offset: Vec, sensitivity: int, axis: nat)
    requires sensitivity != 0
    requires |samples| > 0
    requires axis < 3
    requires forall k | 0 <= k < |samples| :: Decode(samples[k].bytes)[axis] as real == offset[axis]
    ensures WindowAverage(samples, offset, sensitivity)[axis] == 0.0
  {
    MeanOfConstant(ConvertedColumn(samples, offset, sensitivity, axis), 0.0);
  }
}
