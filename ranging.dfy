/**
 * The round-trip timer widget: time-of-flight ranging. A delay in
 * nanoseconds is converted to the one-way distance of the reflecting
 * target, and a "Pulse once" animation sends a beam to the target and back.
 *
 * The widget's `state` record is the class `RoundTripTimer`; each of its
 * handlers is specified by a pure function over the value `PulseState`.
 * `performance.now()` and the animation-frame timestamp are parameters
 * (`now`), and the rescheduling of `tick` is reported, not performed.
 */
module Ranging {
  import opened Numeric
  import opened Geometry

  const SpeedOfLight: real := 299792458.0  // metres per second
  const DefaultDelayNs: real := 66.7
  const MinDelayNs: real := 5.0
  const MaxDelayNs: real := 2000.0

  // ---------------------------------------------------------------------
  // Delay <-> distance

  /** Distance to the target, given the round-trip delay (the light travels there and back). */
  function NsToOneWayMeters(delayNs: real): (m: real)
    ensures 0.0 < delayNs <==> 0.0 < m
    ensures delayNs == 0.0 ==> m == 0.0
  {
    (SpeedOfLight * delayNs * 0.000000001) / 2.0
  }

  /** Round-trip delay for a target at the given distance. */
  function MetersToRoundTripNs(distanceMeters: real): (ns: real)
    ensures NsToOneWayMeters(ns) == distanceMeters
  {
    ((2.0 * distanceMeters) / SpeedOfLight) * 1000000000.0
  }

  lemma OneWayRoundTrip(delayNs: real)
    ensures MetersToRoundTripNs(NsToOneWayMeters(delayNs)) == delayNs
  {
  }

  lemma OneWayStrictlyIncreasing(d1: real, d2: real)
    requires d1 < d2
    ensures NsToOneWayMeters(d1) < NsToOneWayMeters(d2)
  {
  }

  /** The default delay is the round trip to a target about 10 m away, the first chip. */
  lemma DefaultDelayIsAboutTenMeters()
    ensures 9.998 <= NsToOneWayMeters(DefaultDelayNs) <= 9.999
    ensures 66.71 <= MetersToRoundTripNs(10.0) <= 66.72
  {
  }

  /** The 50 m and 100 m chips give delays well inside the slider's range, so nothing is clamped. */
  lemma ChipDelays()
    ensures 333.56 <= MetersToRoundTripNs(50.0) <= 333.57
    ensures 667.12 <= MetersToRoundTripNs(100.0) <= 667.13
  {
  }

  /** The three distances the readout shows for a delay. */
  datatype RangeReadout = RangeReadout(oneWayMeters: real, roundTripMeters: real, noHalfMeters: real)

  function ReadoutFor(delayNs: real): (r: RangeReadout)
    // the round-trip path is twice the target distance ...
    ensures r.roundTripMeters == 2.0 * r.oneWayMeters
    // ... and is exactly what "forgetting the /2" reports as a distance
    ensures r.noHalfMeters == r.roundTripMeters
    ensures MetersToRoundTripNs(r.oneWayMeters) == delayNs
  {
    var oneWay := NsToOneWayMeters(delayNs);
    RangeReadout(oneWay, oneWay * 2.0, SpeedOfLight * delayNs * 0.000000001)
  }

  // ---------------------------------------------------------------------
  // The delay parameter

  /** The result of `Number(x)` for an input `x`: a number, or NaN. */
  datatype JsNumber = Num(value: real) | NaN

  /** `0` and `NaN` are the falsy numbers. */
  predicate Falsy(n: JsNumber) {
    n.NaN? || n.value == 0.0
  }

  /** `clamp(Number(x) || DEFAULT_DELAY_NS, 5, 2000)`. */
  function DelayFromInput(n: JsNumber): (d: real)
    ensures MinDelayNs <= d <= MaxDelayNs
    ensures Falsy(n) ==> d == DefaultDelayNs
    ensures n.Num? && MinDelayNs <= n.value <= MaxDelayNs ==> d == n.value
    ensures n.Num? && MaxDelayNs < n.value ==> d == MaxDelayNs
    ensures n.Num? && n.value != 0.0 && n.value < MinDelayNs ==> d == MinDelayNs
  {
    Clamp(if Falsy(n) then DefaultDelayNs else n.value, MinDelayNs, MaxDelayNs)
  }

  // ---------------------------------------------------------------------
  // The pulse animation

  datatype PulseState = PulseState(
    delayNs: real,
    beamProgress: real,
    beamAnimating: bool,
    beamDurationMs: real,
    pulseStartedAt: real)

  /**
   * What holds of the widget's state between handlers: the delay is in
   * range, progress is a fraction below 1 that is 0 whenever no pulse is
   * running, and the animation lasts between 0.9 and 2.6 seconds.
   */
  predicate WellFormed(s: PulseState) {
    && MinDelayNs <= s.delayNs <= MaxDelayNs
    && 0.0 <= s.beamProgress < 1.0
    && (!s.beamAnimating ==> s.beamProgress == 0.0)
    && 900.0 <= s.beamDurationMs <= 2600.0
  }

  /** Visual duration of one pulse, `clamp(800 + delayNs * 0.8, 900, 2600)`. */
  function PulseDuration(delayNs: real): (ms: real)
    ensures 900.0 <= ms <= 2600.0
    ensures 125.0 <= delayNs <= 2250.0 ==> ms == 800.0 + delayNs * 0.8
    ensures delayNs <= 125.0 ==> ms == 900.0
    ensures 2250.0 <= delayNs ==> ms == 2600.0
  {
    Clamp(800.0 + delayNs * 0.8, 900.0, 2600.0)
  }

  /** `setDelayNs`: only the delay changes. */
  function WithDelay(s: PulseState, n: JsNumber): (r: PulseState)
    ensures r.delayNs == DelayFromInput(n)
    ensures r.(delayNs := s.delayNs) == s
    ensures WellFormed(s) ==> WellFormed(r)
  {
    s.(delayNs := DelayFromInput(n))
  }

  /** `setPresetDistance`: the delay of a target at the given distance. */
  function WithPreset(s: PulseState, distanceMeters: real): (r: PulseState)
    ensures r.delayNs == DelayFromInput(Num(MetersToRoundTripNs(distanceMeters)))
    ensures r.(delayNs := s.delayNs) == s
    ensures WellFormed(s) ==> WellFormed(r)
  {
    WithDelay(s, Num(MetersToRoundTripNs(distanceMeters)))
  }

  /** `pulseOnce`: (re)start the animation at time `now`. */
  function Pulsed(s: PulseState, now: real): (r: PulseState)
    ensures r.beamAnimating && r.beamProgress == 0.0 && r.pulseStartedAt == now
    ensures r.beamDurationMs == PulseDuration(s.delayNs)
    ensures 900.0 <= r.beamDurationMs <= 2600.0
    ensures r.delayNs == s.delayNs
    ensures WellFormed(s) ==> WellFormed(r)
  {
    s.(beamAnimating := true, beamProgress := 0.0, pulseStartedAt := now,
       beamDurationMs := PulseDuration(s.delayNs))
  }

  /**
   * `tick(now)`: an idle state is left alone; otherwise progress becomes the
   * elapsed fraction of the duration, and reaching 1 ends the animation.
   */
  function Ticked(s: PulseState, now: real): (r: PulseState)
    requires s.beamDurationMs > 0.0
    ensures !s.beamAnimating ==> r == s
    ensures s.beamAnimating ==>
      (r.beamAnimating <==> (now - s.pulseStartedAt) / s.beamDurationMs < 1.0)
    ensures r.beamAnimating ==>
      r.beamProgress == Max(0.0, (now - s.pulseStartedAt) / s.beamDurationMs)
    ensures s.beamAnimating && !r.beamAnimating ==> r.beamProgress == 0.0
    ensures r.(beamAnimating := s.beamAnimating, beamProgress := s.beamProgress) == s
    ensures WellFormed(s) ==> WellFormed(r)
  {
    if !s.beamAnimating then s
    else
      var progress := Clamp((now - s.pulseStartedAt) / s.beamDurationMs, 0.0, 1.0);
      if progress >= 1.0 then s.(beamAnimating := false, beamProgress := 0.0)
      else s.(beamProgress := progress)
  }

  /** The Reset button: default delay, animation stopped. */
  function AfterReset(s: PulseState): (r: PulseState)
    ensures r.delayNs == DefaultDelayNs && !r.beamAnimating && r.beamProgress == 0.0
    ensures r.beamDurationMs == s.beamDurationMs && r.pulseStartedAt == s.pulseStartedAt
    ensures WellFormed(s) ==> WellFormed(r)
  {
    WithDelay(s, Num(DefaultDelayNs)).(beamAnimating := false, beamProgress := 0.0)
  }

  /** The state after mounting: defaults, `setDelayNs(DEFAULT_DELAY_NS)`, and a first pulse unless motion is reduced. */
  function Mounted(reduceMotion: bool, now: real): (s: PulseState)
    ensures WellFormed(s)
    ensures s.delayNs == DefaultDelayNs
    ensures s.beamAnimating == !reduceMotion
  {
    var initial := WithDelay(PulseState(DefaultDelayNs, 0.0, false, 1500.0, 0.0), Num(DefaultDelayNs));
    if reduceMotion then initial else Pulsed(initial, now)
  }

  /** The inputs the widget reacts to. */
  datatype Event =
    | SliderInput(value: real)
    | PresetClick(distanceMeters: real, now: real)
    | PulseClick(now: real)
    | Frame(now: real)
    | ResetClick

  function Step(s: PulseState, e: Event): (r: PulseState)
    requires WellFormed(s)
    ensures WellFormed(r)
  {
    match e
    case SliderInput(v) => WithDelay(s, Num(v))
    case PresetClick(m, now) => Pulsed(WithPreset(s, m), now)
    case PulseClick(now) => Pulsed(s, now)
    case Frame(now) => Ticked(s, now)
    case ResetClick => AfterReset(s)
  }

  /** Any sequence of events keeps the state well formed. */
  function Run(s: PulseState, events: seq<Event>): (r: PulseState)
    requires WellFormed(s)
    ensures WellFormed(r)
    decreases |events|
  {
    if events == [] then s else Run(Step(s, events[0]), events[1..])
  }

  /** Between two frames that both keep the animation running, progress does not go back. */
  lemma TickProgressMonotone(s: PulseState, now1: real, now2: real)
    requires WellFormed(s) && s.beamAnimating && now1 <= now2
    requires Ticked(s, now1).beamAnimating
    ensures Ticked(Ticked(s, now1), now2).beamAnimating ==>
      Ticked(s, now1).beamProgress <= Ticked(Ticked(s, now1), now2).beamProgress
  {
    var d, e1, e2 := s.beamDurationMs, now1 - s.pulseStartedAt, now2 - s.pulseStartedAt;
    assert e2 / d - e1 / d == (e2 - e1) / d;
  }

  /** A frame at or after the scheduled end stops the animation. */
  lemma TickAfterDurationStops(s: PulseState, now: real)
    requires WellFormed(s) && s.beamAnimating
    requires now >= s.pulseStartedAt + s.beamDurationMs
    ensures !Ticked(s, now).beamAnimating && Ticked(s, now).beamProgress == 0.0
  {
    var d, e := s.beamDurationMs, now - s.pulseStartedAt;
    assert e / d >= d / d;
  }

  /** A frame before the scheduled end keeps animating, at the elapsed fraction. */
  lemma TickBeforeDurationContinues(s: PulseState, now: real)
    requires WellFormed(s) && s.beamAnimating
    requires s.pulseStartedAt <= now < s.pulseStartedAt + s.beamDurationMs
    ensures Ticked(s, now).beamAnimating
    ensures Ticked(s, now).beamProgress == (now - s.pulseStartedAt) / s.beamDurationMs
  {
    var d, e := s.beamDurationMs, now - s.pulseStartedAt;
    assert e / d < d / d;
  }

  /** The 2600 ms cap is never reached from a delay in range. */
  lemma PulseDurationBelowCap(s: PulseState, now: real)
    requires WellFormed(s)
    ensures Pulsed(s, now).beamDurationMs <= 2400.0
  {
  }

  /** A preset distance inside the ranging range is read back exactly. */
  lemma PresetReadBack(s: PulseState, distanceMeters: real)
    requires 0.75 <= distanceMeters <= 299.79
    ensures NsToOneWayMeters(WithPreset(s, distanceMeters).delayNs) == distanceMeters
  {
  }

  // ---------------------------------------------------------------------
  // Beam position

  /** The beam head at progress `p`: out to the target in the first half, back in the second. */
  function BeamPosition(leftX: real, rightX: real, y: real, p: real): (pt: Point)
    ensures pt.y == y
    ensures p == 0.0 ==> pt.x == leftX
    ensures p == 0.5 ==> pt.x == rightX
    ensures p == 1.0 ==> pt.x == leftX
    ensures leftX <= rightX && 0.0 <= p <= 1.0 ==> leftX <= pt.x <= rightX
  {
    if p <= 0.5 then LinePoint(Point(leftX, y), Point(rightX, y), p * 2.0)
    else LinePoint(Point(rightX, y), Point(leftX, y), (p - 0.5) * 2.0)
  }

  datatype Marker = Hidden | Beam(at: Point)

  /** What `draw` shows of the beam on a canvas `w` by `h`: nothing unless a pulse is running. */
  function BeamMarker(s: PulseState, w: real, h: real): (m: Marker)
    ensures m.Beam? <==> s.beamAnimating
    ensures m.Beam? && 0.0 <= w && 0.0 <= s.beamProgress <= 1.0 ==>
      w * 0.14 <= m.at.x <= w * 0.86 && m.at.y == h * 0.54
  {
    if s.beamAnimating then Beam(BeamPosition(w * 0.14, w * 0.86, h * 0.54, s.beamProgress))
    else Hidden
  }

  // ---------------------------------------------------------------------
  // The widget

  class RoundTripTimer {
    var delayNs: real
    var beamProgress: real
    var beamAnimating: bool
    var beamDurationMs: real
    var pulseStartedAt: real

    function State(): PulseState
      reads this
    {
      PulseState(delayNs, beamProgress, beamAnimating, beamDurationMs, pulseStartedAt)
    }

    ghost predicate Valid()
      reads this
    {
      WellFormed(State())
    }

    constructor (reduceMotion: bool, now: real)
      ensures State() == Mounted(reduceMotion, now)
      ensures Valid()
    {
      delayNs := DefaultDelayNs;
      beamProgress := 0.0;
      beamAnimating := false;
      beamDurationMs := 1500.0;
      pulseStartedAt := 0.0;
      new;
      SetDelayNs(Num(DefaultDelayNs));
      if !reduceMotion {
        PulseOnce(now);
      }
    }

    method SetDelayNs(n: JsNumber)
      modifies this
      ensures State() == WithDelay(old(State()), n)
    {
      delayNs := DelayFromInput(n);
    }

    method SetPresetDistance(distanceMeters: real)
      modifies this
      ensures State() == WithPreset(old(State()), distanceMeters)
    {
      SetDelayNs(Num(MetersToRoundTripNs(distanceMeters)));
    }

    method PulseOnce(now: real)
      modifies this
      ensures State() == Pulsed(old(State()), now)
    {
      beamAnimating := true;
      beamProgress := 0.0;
      pulseStartedAt := now;
      beamDurationMs := Clamp(800.0 + delayNs * 0.8, 900.0, 2600.0);
    }

    /** One animation frame; `reschedule` says whether `tick` asks for another frame. */
    method Tick(now: real) returns (reschedule: bool)
      requires Valid()
      modifies this
      ensures State() == Ticked(old(State()), now)
      ensures reschedule == beamAnimating
      ensures Valid()
    {
      if !beamAnimating {
        return false;
      }
      var elapsed := now - pulseStartedAt;
      beamProgress := Clamp(elapsed / beamDurationMs, 0.0, 1.0);
      if beamProgress >= 1.0 {
        beamAnimating := false;
        beamProgress := 0.0;
        return false;
      }
      reschedule := true;
    }

    method Reset()
      modifies this
      ensures State() == AfterReset(old(State()))
    {
      SetDelayNs(Num(DefaultDelayNs));
      beamAnimating := false;
      beamProgress := 0.0;
    }

    /** A click on one of the 10 m / 50 m / 100 m chips. */
    method ChoosePreset(distanceMeters: real, now: real)
      modifies this
      ensures State() == Pulsed(WithPreset(old(State()), distanceMeters), now)
    {
      SetPresetDistance(distanceMeters);
      PulseOnce(now);
    }

    /** Any input event, as `Step` describes it. */
    method Handle(e: Event)
      requires Valid()
      modifies this
      ensures State() == Step(old(State()), e)
      ensures Valid()
    {
      match e
      case SliderInput(v) => SetDelayNs(Num(v));
      case PresetClick(m, now) => ChoosePreset(m, now);
      case PulseClick(now) => PulseOnce(now);
      case Frame(now) => { var _ := Tick(now); }
      case ResetClick => Reset();
    }
  }
}
