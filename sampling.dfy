/**
 * The beam grid widget: how many points a spinning lidar produces per
 * revolution and per second from its channel count, azimuth step and scan
 * rate. The widget's `state` record is the class `BeamGrid`; its
 * parameters as a value are `ScanParams`.
 */
module Sampling {
  import opened Numeric

  datatype ScanParams = ScanParams(channels: real, azimuthStepDeg: real, scanRateHz: real)

  /** The Reset, "Dense preset" and "Sparse preset" buttons. */
  const DefaultScan := ScanParams(32.0, 0.2, 10.0)
  const DenseScan := ScanParams(64.0, 0.1, 15.0)
  const SparseScan := ScanParams(16.0, 0.8, 8.0)

  predicate InRange(p: ScanParams) {
    && 8.0 <= p.channels <= 128.0
    && 0.05 <= p.azimuthStepDeg <= 1.0
    && 5.0 <= p.scanRateHz <= 20.0
  }

  /** The clamping half of `setState`: each field is clamped to its slider's range. */
  function Clamped(next: ScanParams): (p: ScanParams)
    ensures InRange(p)
    ensures InRange(next) ==> p == next
    ensures 8.0 <= next.channels <= 128.0 ==> p.channels == next.channels
    ensures next.channels < 8.0 ==> p.channels == 8.0
    ensures 128.0 < next.channels ==> p.channels == 128.0
    ensures 0.05 <= next.azimuthStepDeg <= 1.0 ==> p.azimuthStepDeg == next.azimuthStepDeg
    ensures next.azimuthStepDeg < 0.05 ==> p.azimuthStepDeg == 0.05
    ensures 1.0 < next.azimuthStepDeg ==> p.azimuthStepDeg == 1.0
    ensures 5.0 <= next.scanRateHz <= 20.0 ==> p.scanRateHz == next.scanRateHz
    ensures next.scanRateHz < 5.0 ==> p.scanRateHz == 5.0
    ensures 20.0 < next.scanRateHz ==> p.scanRateHz == 20.0
  {
    ScanParams(
      Clamp(next.channels, 8.0, 128.0),
      Clamp(next.azimuthStepDeg, 0.05, 1.0),
      Clamp(next.scanRateHz, 5.0, 20.0))
  }

  /** `totalAzimuthBins`: `360 / step` rounded to the nearest whole number, at least 1. */
  function TotalAzimuthBins(stepDeg: real): (bins: int)
    requires stepDeg != 0.0
    ensures bins >= 1
    ensures 360.0 / stepDeg >= 0.5 ==>
      (bins as real) - 0.5 <= 360.0 / stepDeg < (bins as real) + 0.5
    ensures 360.0 / stepDeg < 0.5 ==> bins == 1
  {
    var rounded := Round(360.0 / stepDeg);
    if rounded >= 1 then rounded else 1
  }

  /**
   * `pointsPerFrame`: channels times azimuth bins. Over the slider ranges a
   * revolution holds 2880 to 921600 points.
   */
  function PointsPerFrame(p: ScanParams): (r: real)
    requires p.azimuthStepDeg != 0.0
    ensures InRange(p) ==> 2880.0 <= r <= 921600.0
  {
    var bins := TotalAzimuthBins(p.azimuthStepDeg);
    FrameCount(p.channels, p.azimuthStepDeg, bins);
    p.channels * bins as real
  }

  /** `pointsPerSecond`: points per revolution times the scan rate; 14400 to 18432000 over the slider ranges. */
  function PointsPerSecond(p: ScanParams): (r: real)
    requires p.azimuthStepDeg != 0.0
    ensures InRange(p) ==> 14400.0 <= r <= 18432000.0
  {
    var frame := PointsPerFrame(p);
    RateCount(frame, p.scanRateHz);
    frame * p.scanRateHz
  }

  /** With the step in its range, a revolution has between 360 and 7200 azimuth bins. */
  lemma AzimuthBinsRange(stepDeg: real)
    requires 0.05 <= stepDeg <= 1.0
    ensures 360 <= TotalAzimuthBins(stepDeg) <= 7200
  {
    var q := 360.0 / stepDeg;
    assert stepDeg * q == 360.0;
    MulMonotone(stepDeg, 1.0, q);
    assert stepDeg * q <= 1.0 * q;
    MulMonotone(0.05, stepDeg, q);
    assert 0.05 * q <= stepDeg * q;
    assert 360.0 <= q <= 7200.0;
  }

  /** Bounds of a revolution's points times the scan rate. */
  lemma RateCount(frame: real, rate: real)
    ensures 2880.0 <= frame <= 921600.0 && 5.0 <= rate <= 20.0 ==> 14400.0 <= frame * rate <= 18432000.0
  {
    if 2880.0 <= frame <= 921600.0 && 5.0 <= rate <= 20.0 {
      ProductBetween(frame, 2880.0, 921600.0, rate, 5.0, 20.0);
    }
  }

  /** Bounds of channels times bins, before it is named `PointsPerFrame`. */
  lemma FrameCount(channels: real, stepDeg: real, bins: int)
    requires stepDeg != 0.0 && bins == TotalAzimuthBins(stepDeg)
    ensures 8.0 <= channels <= 128.0 && 0.05 <= stepDeg <= 1.0 ==>
      2880.0 <= channels * bins as real <= 921600.0
  {
    if 8.0 <= channels <= 128.0 && 0.05 <= stepDeg <= 1.0 {
      AzimuthBinsRange(stepDeg);
      ProductBetween(channels, 8.0, 128.0, bins as real, 360.0, 7200.0);
    }
  }

  /** Whole channel counts and scan rates (the sliders step by 1) give whole point counts. */
  lemma WholeCounts(p: ScanParams)
    requires p.azimuthStepDeg != 0.0
    requires IsWhole(p.channels) && IsWhole(p.scanRateHz)
    ensures IsWhole(PointsPerFrame(p)) && IsWhole(PointsPerSecond(p))
  {
    var c, b, r := p.channels.Floor, TotalAzimuthBins(p.azimuthStepDeg), p.scanRateHz.Floor;
    assert PointsPerFrame(p) == (c * b) as real;
    assert PointsPerSecond(p) == (c * b * r) as real;
  }

  /** The figures the readout shows for the three presets. */
  lemma PresetCounts()
    ensures TotalAzimuthBins(0.2) == 1800
    ensures PointsPerFrame(DefaultScan) == 57600.0 && PointsPerSecond(DefaultScan) == 576000.0
    ensures TotalAzimuthBins(0.1) == 3600
    ensures PointsPerFrame(DenseScan) == 230400.0 && PointsPerSecond(DenseScan) == 3456000.0
    ensures TotalAzimuthBins(0.8) == 450
    ensures PointsPerFrame(SparseScan) == 7200.0 && PointsPerSecond(SparseScan) == 57600.0
  {
    assert 360.0 / 0.2 == 1800.0;
    assert Round(1800.0) == 1800;
    assert 360.0 / 0.1 == 3600.0;
    assert Round(3600.0) == 3600;
    assert 360.0 / 0.8 == 450.0;
    assert Round(450.0) == 450;
  }

  /** The presets lie inside the slider ranges, so `setState` keeps them as given. */
  lemma PresetsInRange()
    ensures Clamped(DefaultScan) == DefaultScan
    ensures Clamped(DenseScan) == DenseScan
    ensures Clamped(SparseScan) == SparseScan
  {
  }

  class BeamGrid {
    var channels: real
    var azimuthStepDeg: real
    var scanRateHz: real

    function Params(): ScanParams
      reads this
    {
      ScanParams(channels, azimuthStepDeg, scanRateHz)
    }

    ghost predicate Valid()
      reads this
    {
      InRange(Params())
    }

    /** Mounting ends with `setState` of the defaults. */
    constructor ()
      ensures Params() == DefaultScan
      ensures Valid()
    {
      channels, azimuthStepDeg, scanRateHz := 32.0, 0.2, 10.0;
      new;
      SetState(DefaultScan);
    }

    /** `setState(next)`; the slider handlers pass the current record with one field replaced. */
    method SetState(next: ScanParams)
      modifies this
      ensures Params() == Clamped(next)
      ensures Valid()
    {
      channels := Clamp(next.channels, 8.0, 128.0);
      azimuthStepDeg := Clamp(next.azimuthStepDeg, 0.05, 1.0);
      scanRateHz := Clamp(next.scanRateHz, 5.0, 20.0);
    }

    /** The counts `updateReadout` shows. */
    method Readout() returns (bins: int, frame: real, second: real)
      requires Valid()
      ensures bins == TotalAzimuthBins(azimuthStepDeg) && 360 <= bins <= 7200
      ensures frame == channels * bins as real && frame == PointsPerFrame(Params())
      ensures second == frame * scanRateHz && second == PointsPerSecond(Params())
      ensures 2880.0 <= frame <= 921600.0 && 14400.0 <= second <= 18432000.0
    {
      bins := TotalAzimuthBins(azimuthStepDeg);
      frame := channels * bins as real;
      second := frame * scanRateHz;
      AzimuthBinsRange(azimuthStepDeg);
    }
  }
}
