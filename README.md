# Lidar interactives: a verified model

The blog's `lidar-interactives.js` mounts three explanatory widgets. This
project models the computation behind each of them in Dafny. Numbers are
mathematical reals.

- **Round-trip timer** (module `Ranging`, class `RoundTripTimer`).
  - A time-of-flight delay in nanoseconds is converted to a one-way target distance, and a distance back to a delay.
  - The delay slider clamps its input to [5, 2000] ns. A falsy input (0 or NaN) falls back to 66.7 ns.
  - The 10 m / 50 m / 100 m chips set the delay of a target at that distance.
  - "Pulse once" starts a beam animation. `tick` advances it frame by frame and ends it when the elapsed time reaches the duration. Reset restores the default delay and stops it.
  - Each handler is a method of the class, specified by a pure function over the value `PulseState`.
  - `Step` and `Run` describe any sequence of inputs. They keep the invariant `WellFormed`: the delay is in range, progress lies in [0, 1), progress is 0 whenever no pulse is running, and the duration lies in [900, 2600] ms.
- **Beam grid** (module `Sampling`, class `BeamGrid`).
  - A spinning sensor with `channels` beams, an azimuth step and a scan rate.
  - The model gives its azimuth bins per revolution, points per revolution and points per second, with their bounds over the slider ranges and the exact figures for the three presets.
- **Coverage and resolution** (module `Coverage`, class `CoverageView`).
  - A fan of rays sweeps the field of view.
  - Coarse mode draws `floor(fov/step) + 1` rays, capped at 140. Fine mode draws twice that, capped at 260.
  - `DrawScene` is the ray loop of `drawScene`. Its result is the number of rays whose crossing with the target plane falls within the object's 36 px vertical span.
  - The count is proved equal to the size of the set of hitting rays, and it is 0 exactly when no ray hits.
  - `Math.cos`/`Math.sin` are an input: a function `trig` from an angle in degrees to its cosine and sine. The hit count therefore depends only on the field of view, the step and the panel geometry. The object's width and distance only set the size of the drawn rectangle.

`Numeric` holds `clamp` and `Math.round`. `Geometry` holds `linePoint`.

The predicates `Coverage.Accepted` (the `0 < t <= 1.6` test, line 646) and `Coverage.IsHit` (lines 647-648) have no contract of their own: `Coverage.AcceptedIffReachesPlane` and `Coverage.HitCountCountsHits` state what they mean. Likewise `Coverage.RayAngleDeg` and `Coverage.Fan` (lines 635-640) are described by `Coverage.RayAnglesSpanFov`, `Coverage.RayAnglesAscending` and `Coverage.FanAt`.

Some lemmas are facts about real arithmetic that the proofs use as steps, and they model no line of the widget code: `Numeric.MulMonotone`, `Numeric.ProductBetween`, `Sampling.FrameCount`, `Sampling.RateCount`, `Numeric.ScaledAtMost`, `Numeric.QuotientAtMost`, `Geometry.ScaledStaysBetween`, `Coverage.QuotientNonNegative` and `Coverage.WithinHalfSpan`.

## Model

| member | source | states |
|---|---|---|
| Numeric.Clamp | static/js/lidar-interactives.js:7-9 | with lo ≤ hi the result lies in [lo, hi]; a value in range is returned unchanged; below lo gives lo, above hi gives hi; with hi < lo the outer `Math.min` yields hi |
| Numeric.Round | static/js/lidar-interactives.js:377 | `Math.round(x)` is the integer r with r − 0.5 ≤ x < r + 0.5 (halves round up) |
| Geometry.LinePoint | static/js/lidar-interactives.js:137-142 | t = 0 gives a, t = 1 gives b, and for t in [0, 1] each coordinate lies between those of a and b |
| Ranging.NsToOneWayMeters | static/js/lidar-interactives.js:11-13 | a delay gives a positive distance exactly when it is positive, and a zero delay gives 0 m; `OneWayRoundTrip` and `OneWayStrictlyIncreasing` state its inverse and its monotonicity |
| Ranging.DefaultDelayIsAboutTenMeters | static/js/lidar-interactives.js:4-17 | the default 66.7 ns is the round trip to a target between 9.998 and 9.999 m away, and a 10 m target gives a delay between 66.71 and 66.72 ns |
| Ranging.ChipDelays | static/js/lidar-interactives.js:260-273 | the 50 m and 100 m chips give delays of about 333.56 ns and 667.12 ns, well inside [5, 2000], so nothing is clamped |
| Ranging.MetersToRoundTripNs | static/js/lidar-interactives.js:15-17 | converting the resulting delay back with `nsToOneWayMeters` gives the distance |
| Ranging.OneWayRoundTrip | static/js/lidar-interactives.js:11-17 | `metersToRoundTripNs(nsToOneWayMeters(d)) == d` for every delay d |
| Ranging.OneWayStrictlyIncreasing | static/js/lidar-interactives.js:11-13 | a longer delay means a strictly farther target |
| Ranging.ReadoutFor | static/js/lidar-interactives.js:102-111 | the round-trip path is twice the one-way distance; the "forget /2" figure equals the round-trip path; the one-way distance converts back to the delay |
| Ranging.DelayFromInput | static/js/lidar-interactives.js:114-116 | the delay lies in [5, 2000]; NaN or 0 yields 66.7; a value in range is kept; larger values give 2000; small non-zero values give 5 |
| Ranging.PulseDuration | static/js/lidar-interactives.js:225 | the duration lies in [900, 2600] ms: 900 for delays up to 125 ns (the default 66.7 ns among them), 800 + 0.8·delay for delays in [125, 2250], and 2600 from 2250 ns on |
| Ranging.WithDelay | static/js/lidar-interactives.js:114-119 | `setDelayNs` changes only the delay, to the clamped input, and keeps `WellFormed` |
| Ranging.WithPreset | static/js/lidar-interactives.js:121-123 | `setPresetDistance` sets the delay to the clamped round-trip delay of the distance, changes nothing else, and keeps `WellFormed` |
| Ranging.Pulsed | static/js/lidar-interactives.js:221-227 | `pulseOnce` sets animating, progress 0 and the start time; the duration becomes `PulseDuration` of the delay, in [900, 2600]; the delay is unchanged; `WellFormed` is kept |
| Ranging.Ticked | static/js/lidar-interactives.js:229-243 | an idle state is unchanged; otherwise the animation goes on exactly while elapsed/duration < 1, progress is the elapsed fraction (at least 0), stopping resets progress to 0; no other field changes; `WellFormed` is kept |
| Ranging.AfterReset | static/js/lidar-interactives.js:253-258 | Reset restores the default delay, stops the animation with progress 0, leaves duration and start time alone, and keeps `WellFormed` |
| Ranging.Mounted | static/js/lidar-interactives.js:282-286 | the mounted state is well formed with the default delay, and animating exactly when motion is not reduced |
| Ranging.Step | static/js/lidar-interactives.js:245-273 | every input handler (slider, pulse button, reset, preset chips, animation frame) keeps `WellFormed` |
| Ranging.Run | static/js/lidar-interactives.js:245-273 | any sequence of inputs from a well-formed state ends in a well-formed state |
| Ranging.TickProgressMonotone | static/js/lidar-interactives.js:229-234 | of two frames that both keep the animation running, the later shows no less progress |
| Ranging.TickAfterDurationStops | static/js/lidar-interactives.js:232-238 | a frame at or after start + duration ends the animation with progress 0 |
| Ranging.TickBeforeDurationContinues | static/js/lidar-interactives.js:232-242 | a frame before start + duration keeps animating, with progress the elapsed fraction |
| Ranging.PulseDurationBelowCap | static/js/lidar-interactives.js:225 | from a delay in [5, 2000] the duration never exceeds 2400 ms, so the 2600 cap is never reached |
| Ranging.PresetReadBack | static/js/lidar-interactives.js:260-273 | a preset distance in [0.75, 299.79] m, which includes the 10, 50 and 100 m chips, reads back exactly as the one-way distance |
| Ranging.BeamPosition | static/js/lidar-interactives.js:186-193 | the beam head is at leftX at p = 0 and p = 1 and at rightX at p = 0.5, and stays within [leftX, rightX] for p in [0, 1] |
| Ranging.BeamMarker | static/js/lidar-interactives.js:185-211 | the beam is drawn exactly when a pulse is running, between 0.14·w and 0.86·w on the line at 0.54·h |
| Ranging.RoundTripTimer.constructor | static/js/lidar-interactives.js:93-100 | the initial state is `Mounted`: defaults, `setDelayNs(66.7)`, and a first pulse unless motion is reduced |
| Ranging.RoundTripTimer.SetDelayNs | static/js/lidar-interactives.js:114-119 | the new state is `WithDelay` of the old |
| Ranging.RoundTripTimer.SetPresetDistance | static/js/lidar-interactives.js:121-123 | the new state is `WithPreset` of the old |
| Ranging.RoundTripTimer.PulseOnce | static/js/lidar-interactives.js:221-227 | the new state is `Pulsed` of the old |
| Ranging.RoundTripTimer.Tick | static/js/lidar-interactives.js:229-243 | the new state is `Ticked` of the old; another frame is requested exactly when the animation goes on; the invariant is kept |
| Ranging.RoundTripTimer.Reset | static/js/lidar-interactives.js:253-258 | the new state is `AfterReset` of the old |
| Ranging.RoundTripTimer.ChoosePreset | static/js/lidar-interactives.js:260-273 | a chip click sets the preset delay and then starts a pulse |
| Ranging.RoundTripTimer.Handle | static/js/lidar-interactives.js:245-273 | every input acts as `Step` says and keeps the invariant |
| Sampling.Clamped | static/js/lidar-interactives.js:480-488 | the grid `setState` clamps each field on its own: channels to [8, 128], step to [0.05, 1], rate to [5, 20]; a field in range is kept whatever the others are, and a field outside saturates at the nearer bound |
| Sampling.TotalAzimuthBins | static/js/lidar-interactives.js:376-378 | the bin count equals 360/step rounded to the nearest integer whenever that is at least 1, and is exactly 1 (the `Math.max` floor) when 360/step < 0.5 |
| Sampling.AzimuthBinsRange | static/js/lidar-interactives.js:376-378 | with the step in [0.05, 1] a revolution has between 360 and 7200 bins |
| Sampling.PointsPerFrame | static/js/lidar-interactives.js:380-382 | over the slider ranges a revolution holds between 2880 and 921600 points |
| Sampling.PointsPerSecond | static/js/lidar-interactives.js:384-386 | over the slider ranges the sensor produces between 14400 and 18432000 points per second |
| Sampling.WholeCounts | static/js/lidar-interactives.js:380-386 | whole channel counts and scan rates give whole point counts |
| Sampling.PresetCounts | static/js/lidar-interactives.js:514-524 | Reset: 1800 bins, 57600 points per revolution, 576000 per second; Dense: 3600 / 230400 / 3456000; Sparse: 450 / 7200 / 57600 |
| Sampling.PresetsInRange | static/js/lidar-interactives.js:514-524 | the three preset records pass through `setState` unchanged |
| Sampling.BeamGrid.constructor | static/js/lidar-interactives.js:533 | mounting leaves the Reset preset |
| Sampling.BeamGrid.SetState | static/js/lidar-interactives.js:480-488 | the new parameters are `Clamped(next)` and lie in range |
| Sampling.BeamGrid.Readout | static/js/lidar-interactives.js:462-471 | the readout's bins, points per revolution and points per second, with their bounds |
| Coverage.Clamped | static/js/lidar-interactives.js:713-720 | the coverage `setState` clamps each field on its own: fov to [20, 140], step to [0.05, 1.5], distance to [10, 160], width to [0.1, 6]; a field in range is kept whatever the others are, and a field outside saturates at the nearer bound |
| Coverage.PresetsInRange | static/js/lidar-interactives.js:749-757 | the Reset, Coarse and Fine records pass through `setState` unchanged |
| Coverage.RawBins | static/js/lidar-interactives.js:633 | the count is the least integer above fov/step, and at least 1 for a non-negative fov |
| Coverage.RawBinsRange | static/js/lidar-interactives.js:633 | over the slider ranges the raw bin count lies in [14, 2801] |
| Coverage.DrawBins | static/js/lidar-interactives.js:634 | coarse mode draws the raw bins capped at 140; fine mode draws twice the raw bins capped at 260; at least one ray is drawn |
| Coverage.FineFanAtLeastCoarse | static/js/lidar-interactives.js:634 | the fine panel never draws fewer rays than the coarse one |
| Coverage.RayAnglesSpanFov | static/js/lidar-interactives.js:635-640 | the first ray is at −fov/2, the last (with two or more) at +fov/2, and every ray lies within the field of view |
| Coverage.RayAnglesAscending | static/js/lidar-interactives.js:635-640 | ray angles strictly increase with the ray index |
| Coverage.FanAt | static/js/lidar-interactives.js:639-640 | ray i of the fan is taken at angle `start + i * step` |
| Coverage.PanelScene | static/js/lidar-interactives.js:612-628 | in a panel of width w the target plane lies 0.71·w right of the sensor, and the 36 px object is centred on the sensor's height |
| Coverage.RayEnd | static/js/lidar-interactives.js:641-642 | the straight-ahead ray ends `reachX` right of the sensor at the sensor's height; a ray with a positive cosine ends to the right of the sensor |
| Coverage.PlaneParam | static/js/lidar-interactives.js:645 | t scales the ray's horizontal run to exactly the distance to the plane, or scales the 1e-6 floor to it when the run is below the floor |
| Coverage.CrossingY | static/js/lidar-interactives.js:647 | `iy` is the y of `linePoint` from the sensor to the ray's end at parameter t |
| Coverage.HitCount | static/js/lidar-interactives.js:637-662 | the hit count never exceeds the number of rays |
| Coverage.HitCountStep | static/js/lidar-interactives.js:639-655 | casting one more ray adds one to the count exactly when that ray hits |
| Coverage.HitCountCountsHits | static/js/lidar-interactives.js:637-662 | the count equals the number of rays accepted with `0 < t ≤ 1.6` whose crossing lies in [objTop, objTop + objH] |
| Coverage.NoHitsIff | static/js/lidar-interactives.js:668 | the label reads "no hits" exactly when no ray hits |
| Coverage.AcceptedIffReachesPlane | static/js/lidar-interactives.js:645-646 | with the plane to the right of the sensor, a ray is drawn exactly when its end reaches at least 1/1.6 of the way to the plane; the 1e-6 floor never admits a backward ray |
| Coverage.AcceptedRayMeetsPlane | static/js/lidar-interactives.js:645-658 | the drawn segment ends at the point of the sensor-to-endpoint line at parameter t, which is (tx, iy) |
| Coverage.RayStep | static/js/lidar-interactives.js:640-649 | the loop's inline endpoint, t and crossing agree with `RayEnd`, `PlaneParam` and `IsHit` |
| Coverage.CoverageView.constructor | static/js/lidar-interactives.js:766 | mounting leaves the Reset record |
| Coverage.CoverageView.SetState | static/js/lidar-interactives.js:713-720 | the new parameters are `Clamped(next)` and lie in range |
| Coverage.CoverageView.PanelRays | static/js/lidar-interactives.js:633-634 | a panel casts at least one ray and at most 140 (coarse) or 260 (fine) |
| Coverage.CoverageView.DrawScene | static/js/lidar-interactives.js:606-672 | the returned count is `HitCount` of the panel's scene over its fan of rays, and at most the number of rays |
| Coverage.CoverageView.Draw | static/js/lidar-interactives.js:674-688 | the two panels are side by side with 10 px gaps; each count is that panel's `HitCount`, at most 140 on the left and 260 on the right |

## Left out

- DOM construction, event wiring, the canvas drawing calls, `resizeCanvas`, `innerHTML` readouts and `formatNumber`: these are presentation. Of the drawing, the model covers only the beam's position (`BeamMarker`), the two-panel layout (`Draw`) and where each accepted ray's segment ends (`AcceptedRayMeetsPlane`).
- `requestAnimationFrame` and `performance.now()`: the time is a parameter `now`. `Tick` reports in `reschedule` whether another frame is requested and does not schedule it.
- `prefers-reduced-motion` is a parameter of the `RoundTripTimer` constructor.
- Ranging.RoundTripTimer.Tick: inside `tick`, `draw()` runs once with progress 1 before the animation stops. That transient frame is not part of the modelled state.
- Clicking a chip or "Pulse once" during an animation starts a second `tick` chain beside the first. The model treats each frame as a single `Frame` input.
- `Math.cos`, `Math.sin` and the degree-to-radian conversion are the input function `trig`.
- `Math.tan` and everything that depends on it are not modelled, because they are transcendental: `visibleWidthAtDistance`, `raySpacingAtDistance`, the object's pixel width and the "likely to drop between rays" warning.
- The grid's "lateral spacing at 50 m", `50 · step · π / 180`, is an `innerHTML` readout and is left out as presentation.
- The grid's polar dot map is canvas drawing with `Math.cos`/`Math.sin` and is left out with the rest of the drawing.
- IEEE doubles: arithmetic is over the reals. In particular, the delay/distance round trip is exact over the reals but may be off by an ulp in JavaScript.
- `Number(...)` parsing: the grid and coverage `setState` take numbers. A NaN there would pass through `clamp` in JavaScript; the sliders never produce one.
- Sampling.TotalAzimuthBins: requires a non-zero step. At step 0 JavaScript divides to Infinity, which `setState` rules out anyway.
- Coverage.AcceptedIffReachesPlane and Coverage.AcceptedRayMeetsPlane: both require the target plane to lie more than 1.6e-6 px right of the sensor. In `drawScene` this holds for every panel wider than about 2.3e-6 px.
