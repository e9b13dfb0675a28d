/**
 * The coverage/resolution widget: a fan of rays swept across the field of
 * view at a given angular step, drawn in two panels (coarse and fine), with
 * a count of the rays that land on a target. The widget's `state` record is
 * the class `CoverageView`; its parameters as a value are `CoverageParams`.
 *
 * `Math.cos`/`Math.sin` are not modelled: `DrawScene` takes a function
 * `trig` from an angle in degrees to its cosine and sine.
 */
module Coverage {
  import opened Numeric
  import opened Geometry

  datatype CoverageParams = CoverageParams(fovDeg: real, stepDeg: real, distanceM: real, widthM: real)

  /** The Reset, "Coarse example" and "Fine example" buttons. */
  const DefaultCoverage := CoverageParams(90.0, 0.35, 80.0, 1.2)
  const CoarseCoverage := CoverageParams(120.0, 1.0, 100.0, 0.8)
  const FineCoverage := CoverageParams(90.0, 0.1, 100.0, 0.8)

  predicate InRange(p: CoverageParams) {
    && 20.0 <= p.fovDeg <= 140.0
    && 0.05 <= p.stepDeg <= 1.5
    && 10.0 <= p.distanceM <= 160.0
    && 0.1 <= p.widthM <= 6.0
  }

  /** The clamping half of `setState`: each field is clamped to its slider's range. */
  function Clamped(next: CoverageParams): (p: CoverageParams)
    ensures InRange(p)
    ensures InRange(next) ==> p == next
    ensures 20.0 <= next.fovDeg <= 140.0 ==> p.fovDeg == next.fovDeg
    ensures next.fovDeg < 20.0 ==> p.fovDeg == 20.0
    ensures 140.0 < next.fovDeg ==> p.fovDeg == 140.0
    ensures 0.05 <= next.stepDeg <= 1.5 ==> p.stepDeg == next.stepDeg
    ensures next.stepDeg < 0.05 ==> p.stepDeg == 0.05
    ensures 1.5 < next.stepDeg ==> p.stepDeg == 1.5
    ensures 10.0 <= next.distanceM <= 160.0 ==> p.distanceM == next.distanceM
    ensures next.distanceM < 10.0 ==> p.distanceM == 10.0
    ensures 160.0 < next.distanceM ==> p.distanceM == 160.0
    ensures 0.1 <= next.widthM <= 6.0 ==> p.widthM == next.widthM
    ensures next.widthM < 0.1 ==> p.widthM == 0.1
    ensures 6.0 < next.widthM ==> p.widthM == 6.0
  {
    CoverageParams(
      Clamp(next.fovDeg, 20.0, 140.0),
      Clamp(next.stepDeg, 0.05, 1.5),
      Clamp(next.distanceM, 10.0, 160.0),
      Clamp(next.widthM, 0.1, 6.0))
  }

  lemma PresetsInRange()
    ensures Clamped(DefaultCoverage) == DefaultCoverage
    ensures Clamped(CoarseCoverage) == CoarseCoverage
    ensures Clamped(FineCoverage) == FineCoverage
  {
  }

  // ---------------------------------------------------------------------
  // Bins and the ray fan

  /** `Math.floor(fovDeg / stepDeg) + 1`: the number of step-spaced rays that fit in the field of view. */
  function RawBins(fovDeg: real, stepDeg: real): (bins: int)
    requires stepDeg > 0.0
    ensures (bins - 1) as real <= fovDeg / stepDeg < bins as real
    ensures 0.0 <= fovDeg ==> bins >= 1
  {
    QuotientNonNegative(fovDeg, stepDeg);
    (fovDeg / stepDeg).Floor + 1
  }

  lemma QuotientNonNegative(a: real, b: real)
    requires 0.0 < b
    ensures 0.0 <= a ==> 0.0 <= a / b
  {
  }

  lemma RawBinsRange(p: CoverageParams)
    requires InRange(p)
    ensures 14 <= RawBins(p.fovDeg, p.stepDeg) <= 2801
  {
    var q := p.fovDeg / p.stepDeg;
    assert p.stepDeg * q == p.fovDeg;
    MulMonotone(p.stepDeg, 1.5, q);
    assert p.stepDeg * q <= 1.5 * q;
    MulMonotone(0.05, p.stepDeg, q);
    assert 0.05 * q <= p.stepDeg * q;
    assert 13.0 < q <= 2800.0;
  }

  const CoarseRayCap: int := 140
  const FineRayCap: int := 260

  /** Rays drawn in a panel: the raw bins capped at 140 (coarse), or twice them capped at 260 (fine). */
  function DrawBins(rawBins: int, sparseMode: bool): (n: int)
    ensures sparseMode ==> n <= CoarseRayCap && n <= rawBins && (n == rawBins || n == CoarseRayCap)
    ensures !sparseMode ==> n <= FineRayCap && n <= 2 * rawBins && (n == 2 * rawBins || n == FineRayCap)
    ensures rawBins >= 1 ==> n >= 1
  {
    if sparseMode then MinInt(rawBins, CoarseRayCap) else MinInt(rawBins * 2, FineRayCap)
  }

  /** The fine panel never draws fewer rays than the coarse one. */
  lemma FineFanAtLeastCoarse(rawBins: int)
    ensures DrawBins(rawBins, true) <= DrawBins(rawBins, false) || rawBins < 0
  {
  }

  /** Angle in degrees of ray `i` of an `n`-ray fan: `start + i * step`. */
  function RayAngleDeg(fovDeg: real, n: int, i: int): real {
    -fovDeg / 2.0 + (i as real) * (fovDeg / MaxInt(n - 1, 1) as real)
  }

  /** The fan starts at -fov/2, ends at +fov/2 and stays inside the field of view. */
  lemma RayAnglesSpanFov(fovDeg: real, n: int, i: int)
    requires 0.0 <= fovDeg && 0 <= i < n
    ensures -fovDeg / 2.0 <= RayAngleDeg(fovDeg, n, i) <= fovDeg / 2.0
    ensures i == 0 ==> RayAngleDeg(fovDeg, n, i) == -fovDeg / 2.0
    ensures 2 <= n && i == n - 1 ==> RayAngleDeg(fovDeg, n, i) == fovDeg / 2.0
  {
    var gaps := MaxInt(n - 1, 1) as real;
    var step := fovDeg / gaps;
    assert step * gaps == fovDeg;
    MulMonotone(i as real, gaps, step);
    assert (i as real) * step <= gaps * step;
    WithinHalfSpan(fovDeg, (i as real) * step);
    if n == 1 {
      assert i == 0;
    } else {
      assert gaps == (n - 1) as real;
    }
  }

  /** An offset in [0, f] from -f/2 stays within [-f/2, f/2]. */
  lemma WithinHalfSpan(f: real, x: real)
    requires 0.0 <= x <= f
    ensures -f / 2.0 <= -f / 2.0 + x <= f / 2.0
  {
  }

  /** Rays are listed in ascending angular order. */
  lemma RayAnglesAscending(fovDeg: real, n: int, i: int, j: int)
    requires 0.0 < fovDeg && 0 <= i < j < n
    ensures RayAngleDeg(fovDeg, n, i) < RayAngleDeg(fovDeg, n, j)
  {
    var step := fovDeg / MaxInt(n - 1, 1) as real;
    assert step > 0.0;
    assert (j as real) * step - (i as real) * step == ((j - i) as real) * step;
    MulMonotone(1.0, (j - i) as real, step);
    assert 1.0 * step <= ((j - i) as real) * step;
  }

  // ---------------------------------------------------------------------
  // Ray / target-plane intersection

  /** Cosine and sine of a ray's angle. */
  datatype Trig = Trig(cos: real, sin: real)

  /**
   * One panel of `drawScene`: the sensor at (sx, sy), the target plane at
   * x = tx, the object's vertical extent [objTop, objTop + objH] on that
   * plane, and the horizontal and vertical reach of the ray endpoints.
   */
  datatype Scene = Scene(sx: real, sy: real, tx: real, objTop: real, objH: real, reachX: real, reachY: real)

  const ObjectHeightPx: real := 36.0

  /**
   * The scene of a panel at (x, y) of size w by h: the target plane lies
   * 0.71 w right of the sensor and the 36 px object is centred on the
   * sensor's height.
   */
  function PanelScene(x: real, y: real, w: real, h: real): (s: Scene)
    ensures s.tx - s.sx == w * 0.71
    ensures s.objH == ObjectHeightPx && s.objTop + s.objH / 2.0 == s.sy
  {
    var sy := y + h * 0.52;
    Scene(x + w * 0.14, sy, x + w * 0.85, sy - ObjectHeightPx / 2.0, ObjectHeightPx, w * 0.75, h * 0.45)
  }

  /** `(ex, ey)`: the far end of a ray; the straight-ahead ray ends `reachX` right of the sensor. */
  function RayEnd(s: Scene, dir: Trig): (e: Point)
    ensures dir == Trig(1.0, 0.0) ==> e == Point(s.sx + s.reachX, s.sy)
    ensures 0.0 < dir.cos && 0.0 < s.reachX ==> s.sx < e.x
  {
    Point(s.sx + dir.cos * s.reachX, s.sy + dir.sin * s.reachY)
  }

  /** `t = (tx - sx) / Math.max(ex - sx, 1e-6)`: where the ray meets the target plane. */
  function PlaneParam(s: Scene, e: Point): (t: real)
    // the ray's horizontal run, scaled by t, reaches the plane ...
    ensures e.x - s.sx > 0.000001 ==> (e.x - s.sx) * t == s.tx - s.sx
    // ... unless it is below the floor, which stands in for it
    ensures e.x - s.sx <= 0.000001 ==> 0.000001 * t == s.tx - s.sx
  {
    (s.tx - s.sx) / Max(e.x - s.sx, 0.000001)
  }

  /** The ray is drawn (and may count) only when `0 < t <= 1.6`. */
  predicate Accepted(s: Scene, e: Point) {
    0.0 < PlaneParam(s, e) <= 1.6
  }

  /** `iy = sy + (ey - sy) * t`. */
  function CrossingY(s: Scene, e: Point): (y: real)
    ensures y == LinePoint(Point(s.sx, s.sy), e, PlaneParam(s, e)).y
  {
    s.sy + (e.y - s.sy) * PlaneParam(s, e)
  }

  predicate IsHit(s: Scene, e: Point) {
    Accepted(s, e) && s.objTop <= CrossingY(s, e) <= s.objTop + s.objH
  }

  /** Number of rays, in order, that hit the object. */
  function HitCount(s: Scene, dirs: seq<Trig>): (n: nat)
    ensures n <= |dirs|
  {
    if dirs == [] then 0
    else HitCount(s, dirs[..|dirs| - 1]) + (if IsHit(s, RayEnd(s, dirs[|dirs| - 1])) then 1 else 0)
  }

  /** Extending the counted prefix by one ray adds one exactly when that ray hits. */
  lemma HitCountStep(s: Scene, dirs: seq<Trig>, i: int)
    requires 0 <= i < |dirs|
    ensures HitCount(s, dirs[..i + 1]) ==
      HitCount(s, dirs[..i]) + (if IsHit(s, RayEnd(s, dirs[i])) then 1 else 0)
  {
    assert dirs[..i + 1][..i] == dirs[..i];
  }

  /** The directions of an `n`-ray fan across `fovDeg`. */
  function Fan(fovDeg: real, n: nat, trig: real -> Trig): seq<Trig> {
    seq(n, i => trig(RayAngleDeg(fovDeg, n, i)))
  }

  lemma FanAt(fovDeg: real, n: nat, trig: real -> Trig, i: int, start: real, step: real)
    requires 0 <= i < n
    requires start == -fovDeg / 2.0 && step == fovDeg / MaxInt(n - 1, 1) as real
    ensures Fan(fovDeg, n, trig)[i] == trig(start + i as real * step)
  {
    assert Fan(fovDeg, n, trig)[i] == trig(RayAngleDeg(fovDeg, n, i));
    assert RayAngleDeg(fovDeg, n, i) == start + i as real * step;
  }

  function HitIndices(s: Scene, dirs: seq<Trig>): set<int> {
    set i | 0 <= i < |dirs| && IsHit(s, RayEnd(s, dirs[i]))
  }

  /** The hit count is exactly the number of rays that hit. */
  lemma {:induction false} HitCountCountsHits(s: Scene, dirs: seq<Trig>)
    ensures HitCount(s, dirs) == |HitIndices(s, dirs)|
    decreases |dirs|
  {
    if dirs != [] {
      var k := |dirs| - 1;
      var front := dirs[..k];
      HitCountCountsHits(s, front);
      var before := HitIndices(s, front);
      assert forall i :: 0 <= i < k ==> front[i] == dirs[i];
      if IsHit(s, RayEnd(s, dirs[k])) {
        assert HitIndices(s, dirs) == before + {k};
        assert k !in before;
      } else {
        assert HitIndices(s, dirs) == before;
      }
    }
  }

  /** "no hits" is shown exactly when no ray lands on the object. */
  lemma {:induction false} NoHitsIff(s: Scene, dirs: seq<Trig>)
    ensures HitCount(s, dirs) == 0 <==> forall i :: 0 <= i < |dirs| ==> !IsHit(s, RayEnd(s, dirs[i]))
    decreases |dirs|
  {
    if dirs != [] {
      var k := |dirs| - 1;
      NoHitsIff(s, dirs[..k]);
      assert forall i :: 0 <= i < k ==> dirs[..k][i] == dirs[i];
    }
  }

  /**
   * With the target plane more than 1.6e-6 to the right of the sensor, a ray
   * is drawn exactly when its endpoint gets at least 1/1.6 of the way to
   * the plane; the epsilon floor never lets a backward ray through.
   */
  lemma AcceptedIffReachesPlane(s: Scene, e: Point)
    requires s.tx - s.sx > 0.0000016
    ensures Accepted(s, e) <==> e.x - s.sx >= (s.tx - s.sx) / 1.6
  {
    var dist, dx := s.tx - s.sx, e.x - s.sx;
    if dx <= 0.000001 {
      assert PlaneParam(s, e) == dist / 0.000001;
      QuotientAtMost(dist, 0.000001, 1.6);
    } else {
      assert PlaneParam(s, e) == dist / dx;
      QuotientAtMost(dist, dx, 0.0);
      QuotientAtMost(dist, dx, 1.6);
    }
  }

  /** For a drawn ray, `(tx, iy)` is the point of the sensor-to-endpoint line at parameter `t`. */
  lemma AcceptedRayMeetsPlane(s: Scene, e: Point)
    requires s.tx - s.sx > 0.0000016
    requires Accepted(s, e)
    ensures LinePoint(Point(s.sx, s.sy), e, PlaneParam(s, e)) == Point(s.tx, CrossingY(s, e))
  {
    var dist, dx := s.tx - s.sx, e.x - s.sx;
    AcceptedIffReachesPlane(s, e);
    assert dx > 0.000001;
    var t := dist / dx;
    assert PlaneParam(s, e) == t;
    assert dx * t == dist;
  }

  /** The inline arithmetic of one ray in `drawScene` agrees with `RayEnd`, `PlaneParam` and `IsHit`. */
  lemma RayStep(s: Scene, dir: Trig, sx: real, sy: real, top: real, bottom: real, ex: real, ey: real, t: real)
    requires sx == s.sx && sy == s.sy && top == s.objTop && bottom == s.objTop + s.objH
    requires ex == sx + dir.cos * s.reachX && ey == sy + dir.sin * s.reachY
    requires t == (s.tx - sx) / Max(ex - sx, 0.000001)
    ensures RayEnd(s, dir) == Point(ex, ey) && PlaneParam(s, RayEnd(s, dir)) == t
    ensures IsHit(s, RayEnd(s, dir)) <==> 0.0 < t <= 1.6 && top <= sy + (ey - sy) * t <= bottom
  {
    var e := RayEnd(s, dir);
    assert e == Point(ex, ey);
    assert PlaneParam(s, e) == t;
    assert CrossingY(s, e) == sy + (ey - sy) * t;
  }

  // ---------------------------------------------------------------------
  // The widget

  class CoverageView {
    var fovDeg: real
    var stepDeg: real
    var distanceM: real
    var widthM: real

    function Params(): CoverageParams
      reads this
    {
      CoverageParams(fovDeg, stepDeg, distanceM, widthM)
    }

    ghost predicate Valid()
      reads this
    {
      InRange(Params())
    }

    /** Mounting ends with `setState` of the defaults. */
    constructor ()
      ensures Params() == DefaultCoverage
      ensures Valid()
    {
      fovDeg, stepDeg, distanceM, widthM := 90.0, 0.35, 80.0, 1.2;
      new;
      SetState(DefaultCoverage);
    }

    /** `setState(next)`; the slider handlers pass the current record with one field replaced. */
    method SetState(next: CoverageParams)
      modifies this
      ensures Params() == Clamped(next)
      ensures Valid()
    {
      fovDeg := Clamp(next.fovDeg, 20.0, 140.0);
      stepDeg := Clamp(next.stepDeg, 0.05, 1.5);
      distanceM := Clamp(next.distanceM, 10.0, 160.0);
      widthM := Clamp(next.widthM, 0.1, 6.0);
    }

    /** The number of rays `drawScene` casts in one panel. */
    function PanelRays(sparseMode: bool): (n: int)
      reads this
      requires Valid()
      ensures 1 <= n <= (if sparseMode then CoarseRayCap else FineRayCap)
    {
      DrawBins(RawBins(fovDeg, stepDeg), sparseMode)
    }

    /** The hit-counting loop of `drawScene` for the panel at (x, y) of size w by h. */
    method DrawScene(x: real, y: real, w: real, h: real, sparseMode: bool, trig: real -> Trig)
      returns (hits: nat)
      requires Valid()
      ensures hits == HitCount(PanelScene(x, y, w, h), Fan(fovDeg, PanelRays(sparseMode), trig))
      ensures hits <= PanelRays(sparseMode)
    {
      var sx := x + w * 0.14;
      var sy := y + h * 0.52;
      var tx := x + w * 0.85;
      var objH := 36.0;
      var objTop := sy - objH / 2.0;

      var rawBins := (fovDeg / stepDeg).Floor + 1;
      var drawBins := if sparseMode then MinInt(rawBins, 140) else MinInt(rawBins * 2, 260);
      var start := -fovDeg / 2.0;
      var step := fovDeg / MaxInt(drawBins - 1, 1) as real;

      ghost var scene := PanelScene(x, y, w, h);
      ghost var fan := Fan(fovDeg, drawBins, trig);
      assert scene == Scene(sx, sy, tx, objTop, objH, w * 0.75, h * 0.45);
      assert drawBins == PanelRays(sparseMode);
      hits := 0;
      var i := 0;
      while i < drawBins
        invariant 0 <= i <= drawBins
        invariant hits == HitCount(scene, fan[..i])
      {
        // ray i's angle in degrees: `drawScene` converts it to radians; `trig` takes degrees
        var dir := trig(start + i as real * step);
        var ex := sx + dir.cos * (w * 0.75);
        var ey := sy + dir.sin * (h * 0.45);
        var t := (tx - sx) / Max(ex - sx, 0.000001);
        FanAt(fovDeg, drawBins, trig, i, start, step);
        RayStep(scene, fan[i], sx, sy, objTop, objTop + objH, ex, ey, t);
        if t > 0.0 && t <= 1.6 {
          var iy := sy + (ey - sy) * t;
          if iy >= objTop && iy <= objTop + objH {
            hits := hits + 1;
          }
        }
        HitCountStep(scene, fan, i);
        i := i + 1;
      }
      assert fan[..drawBins] == fan;
    }

    /** `draw`: the coarse panel on the left, the fine one on the right. */
    method Draw(w: real, h: real, trig: real -> Trig) returns (leftHits: nat, rightHits: nat)
      requires Valid()
      ensures leftHits == HitCount(PanelScene(10.0, 10.0, (w - 30.0) / 2.0, h - 20.0), Fan(fovDeg, PanelRays(true), trig))
      ensures rightHits == HitCount(PanelScene(20.0 + (w - 30.0) / 2.0, 10.0, (w - 30.0) / 2.0, h - 20.0), Fan(fovDeg, PanelRays(false), trig))
      ensures leftHits <= CoarseRayCap && rightHits <= FineRayCap
    {
      var gap := 10.0;
      var paneW := (w - gap * 3.0) / 2.0;
      var paneH := h - 20.0;
      leftHits := DrawScene(gap, 10.0, paneW, paneH, true, trig);
      rightHits := DrawScene(gap * 2.0 + paneW, 10.0, paneW, paneH, false, trig);
    }
  }
}
