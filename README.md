# SC.ScrollView scroll-offset engine in Dafny

This project models the scrolling core of SproutCore's `SC.ScrollView`
(`frameworks/desktop/views/scroll.js`) and proves properties of it.

A scroll view keeps three raw numbers: `_scroll_horizontalScrollOffset`,
`_scroll_verticalScrollOffset` and `_scale`. Its property setters clamp an
offset into `[0, maximum]` and the scale into `[minimumScale, maximumScale]`.
The maximum offset on an axis is how far the scaled content overflows the
container, and 0 when the axis cannot scroll. The public operations are
`scrollTo`, `scrollBy` and `scrollToVisible`, plus the line and page helpers
built on them. The model also covers:

- `tile`, which lays out the scrollers and the container;
- the scroll-wheel accumulator and its momentum drain;
- the touch gesture state machine: `touchStart`, `beginTouchesInContent`,
  `beginTouchTracking`, `updateTouchScroll`, `touchEnd` and `touchCancelled`,
  with the session record they keep;
- the edge-resistance and bounce helpers;
- one step of the deceleration animation;
- the reaction to a new content size (`contentViewFrameDidChange` and
  `forceDimensionsRecalculation`).

Files and modules:

- `numeric.dfy`: `Numeric` (min, max, abs on reals and integers) and `Optional`.
- `offsets.dfy`: `Offsets`, the geometry records, the maximum offsets, the
  clamps and the origin `scrollToVisible` shifts to.
- `physics.dfy`: `Physics`, `_adjustForEdgeResistance`, `bouncyBounce` and
  the abstract `Math.pow`.
- `wheel.dfy`: `Wheel`, the momentum decay of the vertical wheel delta.
- `tiling.dfy`: `Tiling`, the `tile` layout computation.
- `touch_session.dfy`: `TouchSessions`, the session record and the axis
  disambiguation, scroll lock and velocity sampling of `updateTouchScroll`.
- `scroll_view.dfy`: `ScrollViews`, the class `ScrollView` holding the view's
  state and every handler that changes it.

Inputs from outside the view are parameters:

- A `Geometry` value carries what the layout engine reports: the content
  view's frame, its `calculatedWidth`/`calculatedHeight`, the container's
  frame and the view's own frame.
- Time stamps, the averaged touch (`TouchSample`) and the view's global frame
  come in as arguments.
- `Math.pow` is a parameter `pow`. The predicate `IsPow` says what the model
  assumes of it: `0 < pow(c, e) <= 1` for `c` in (0, 1] and `e >= 0`, and
  strictly decreasing in `e` when `c < 1`.
- Timers become explicit calls. A method that would schedule a callback
  returns what it schedules: the generation for `beginTouchesInContent`,
  whether the wheel drain runs again, whether the deceleration goes on.

Where the code and its comments disagree, the model follows the code:

- `scrollRightLine`/`scrollLeftLine` scroll to an absolute position (see
  Findings).
- Every drain of the wheel momentum re-applies the horizontal delta (see Findings).
- `touchEnd` leaves the view tracking, so only the first tap after a cancel schedules a capture (see Findings).
- The scroll lock compares the signed delta, so only a positive delta
  locks the other axis.
- A deceleration step that stops does not write the clamped setters. Those
  lines are commented out in the source.

## Model

| member | source | states |
|---|---|---|
| Offsets.MaximumOffset | frameworks/desktop/views/scroll.js:70-107 | the maximum offset is never negative and is 0 when the axis cannot scroll |
| Offsets.OverflowExtentMeaning | frameworks/desktop/views/scroll.js:80-83 | the overflow plus the container extent is the scaled content extent when the content sticks out, and 0 when it fits |
| Offsets.MaximumOffsetFarEdge | frameworks/desktop/views/scroll.js:70-107 | at the maximum offset the far edge of the scaled content meets the container's far edge; a nonzero calculated extent overrides the frame; content that fits cannot scroll |
| Offsets.MaximumOffsetGrowsWithScale | frameworks/desktop/views/scroll.js:80-83 | zooming in never lowers the maximum offset of content with a nonnegative extent |
| Offsets.ClampOffset | frameworks/desktop/views/scroll.js:44-61 | the stored offset lies in [0, maximum]; an in-range value is stored unchanged; a negative one becomes 0; one past the maximum becomes the maximum |
| Offsets.ClampOffsetIdempotent | frameworks/desktop/views/scroll.js:356-364 | clamping twice, as `scrollTo` does before calling the setter, is the same as clamping once |
| Offsets.ClampOffsetRoundTrip | frameworks/desktop/views/scroll.js:379-389 | scrolling forward by an amount and back never ends past the start; it returns exactly when the far edge did not cut the forward move, and, from a positive start, ends short of the start when it did |
| Offsets.ClampScale | frameworks/desktop/views/scroll.js:659-664 | the stored scale is at most the maximum, at least the minimum when the range is well formed, unchanged when in range; the maximum wins when the bounds are inverted |
| Offsets.VisibleOrigin | frameworks/desktop/views/scroll.js:416-429 | a visible target moves nothing, and on an axis where the target is already within view that coordinate stays; a target that fits ends up inside the shifted rectangle; the shift is minimal, aligning a clipped leading edge or a clipped trailing edge; an oversized target aligns its trailing edge |
| Offsets.RevealsAxisUnique | frameworks/desktop/views/scroll.js:424-429 | the minimal-shift rules leave exactly one origin on each axis |
| Offsets.RevealsAxisShows | frameworks/desktop/views/scroll.js:424-429 | at that origin a target no larger than the window lies within it |
| Physics.EdgeResistanceBounds | frameworks/desktop/views/scroll.js:822-839 | the input is returned unchanged inside [min, max]; below it the result lies in (min − asymptote, min]; above it in [max, max + asymptote) |
| Physics.EdgeResistanceBelowBand | frameworks/desktop/views/scroll.js:822-839 | below the range the result is in (min − asymptote, min], and strictly below min when the power term is below 1 |
| Physics.EdgeResistanceAboveBand | frameworks/desktop/views/scroll.js:822-839 | above the range the result is in [max, max + asymptote), and strictly above max when the power term is below 1 |
| Physics.EdgeResistanceMonotone | frameworks/desktop/views/scroll.js:822-839 | with a coefficient below 1, resistance preserves the order of offsets, so a drag further out never shows the content further in |
| Physics.BouncyBounce | frameworks/desktop/views/scroll.js:987-996 | inside [min, max] the velocity is returned unchanged |
| Physics.BouncyBounceDirection | frameworks/desktop/views/scroll.js:987-996 | with positive constants an outward velocity slows down and any other one points back toward the range |
| Physics.ScaleSpringTowardRange | frameworks/desktop/views/scroll.js:1014-1017 | the scale spring moves an out-of-range scale toward the range without overshooting the nearer bound, and is 0 inside the range |
| Wheel.WheelDecay | frameworks/desktop/views/scroll.js:632-639 | the next vertical delta is 95% of the delta rounded toward zero: it never flips sign and is strictly smaller in magnitude |
| Wheel.MomentumTrain | frameworks/desktop/views/scroll.js:630-644 | the deltas of successive drains start at d, end at 0 after at most \|d\| decays, keep their sign and strictly shrink in magnitude, so the drain chain terminates |
| Tiling.Tile | frameworks/desktop/views/scroll.js:551-604 | a scroller gets a layout exactly when it is shown; the horizontal scroller ends one pixel short of the shown vertical one; the vertical scroller ends above the shown horizontal one and `verticalScrollerBottom`; the container is inset only by a shown scroller that does not overlay it, and then meets the scroller's inner edge; every existing scroller view is told whether it is shown |
| TouchSessions.StartSession | frameworks/desktop/views/scroll.js:764-813 | the new session record is valid, holds the gesture's constants, and the content point under the touch scaled back gives the touch's position in the frame plus the offset |
| TouchSessions.Disambiguate | frameworks/desktop/views/scroll.js:864-883 | an axis starts only when enabled and beyond its tolerance; starting one raises dragging, gives the other axis the secondary tolerance, re-bases the start point and zeroes the delta; no flag is cleared; validity is kept |
| TouchSessions.ApplyScrollLock | frameworks/desktop/views/scroll.js:886-894 | a scrolling axis keeps the other on the secondary tolerance; a signed delta above the lock disables the other axis while it is not scrolling; a disabled axis is never re-enabled and a nonpositive delta never locks |
| TouchSessions.SampleVelocity | frameworks/desktop/views/scroll.js:927-937 | when sampled, velocity times the elapsed time (at least 1) is the displacement and the velocity never exceeds it; otherwise the record is unchanged; only the sampling fields change |
| ScrollViews.ScrollView.constructor | frameworks/desktop/views/scroll.js:115-248 | a new view has the class defaults: offsets 0, scale 1 in [0.25, 2], scrollers kept, shown and autohiding, line scroll 20 |
| ScrollViews.ScrollView.MaximumHorizontalScrollOffset | frameworks/desktop/views/scroll.js:70-84 | the horizontal maximum is never negative and is 0 when the axis cannot scroll |
| ScrollViews.ScrollView.MaximumVerticalScrollOffset | frameworks/desktop/views/scroll.js:93-107 | the vertical maximum is never negative and is 0 when the axis cannot scroll |
| ScrollViews.ScrollView.ScrollerlessAxisStaysAtOrigin | frameworks/desktop/views/scroll.js:183-233 | an axis whose scroller is not kept, missing or hidden cannot scroll: whatever its setter is given, it stores 0 |
| ScrollViews.ScrollView.SetHorizontalScrollOffset | frameworks/desktop/views/scroll.js:44-50 | the horizontal offset becomes the clamp of the value into [0, maximum] |
| ScrollViews.ScrollView.SetVerticalScrollOffset | frameworks/desktop/views/scroll.js:55-61 | the vertical offset becomes the clamp of the value into [0, maximum] |
| ScrollViews.ScrollView.SetScale | frameworks/desktop/views/scroll.js:659-664 | the scale becomes the clamp of the value into the scale range: never above the maximum, and not below the minimum when the range is well formed |
| ScrollViews.ScrollView.ScrollTo | frameworks/desktop/views/scroll.js:347-365 | a missing coordinate leaves its axis alone; a given one is clamped into range |
| ScrollViews.ScrollView.ScrollBy | frameworks/desktop/views/scroll.js:379-389 | a missing or zero amount leaves its axis alone; otherwise the axis moves to the clamped sum |
| ScrollViews.ScrollView.ScrollToVisible | frameworks/desktop/views/scroll.js:399-437 | the origin is the minimal shift of the visible rectangle on each axis; it reports a change exactly when that origin differs from the offsets, and then scrolls there clamped; a visible target changes nothing; a target that fits is visible at the shifted origin |
| ScrollViews.ScrollView.ScrollDownLine | frameworks/desktop/views/scroll.js:446-449 | scrolls down by verticalLineScroll × lines (1 by default) |
| ScrollViews.ScrollView.ScrollUpLine | frameworks/desktop/views/scroll.js:458-461 | scrolls up by verticalLineScroll × lines |
| ScrollViews.ScrollView.ScrollRightLine | frameworks/desktop/views/scroll.js:470-473 | as written: moves to the absolute position horizontalLineScroll × lines |
| ScrollViews.ScrollView.ScrollLeftLine | frameworks/desktop/views/scroll.js:482-485 | as written: moves to the negative position −horizontalLineScroll × lines, which lands on 0 |
| ScrollViews.ScrollView.ScrollRightLineBy | frameworks/desktop/views/scroll.js:463-473 | as documented: scrolls right by horizontalLineScroll × lines |
| ScrollViews.ScrollView.ScrollLeftLineBy | frameworks/desktop/views/scroll.js:475-485 | as documented: scrolls left by horizontalLineScroll × lines |
| ScrollViews.ScrollView.ScrollDownPage | frameworks/desktop/views/scroll.js:496-499 | scrolls down by the frame height × pages |
| ScrollViews.ScrollView.ScrollUpPage | frameworks/desktop/views/scroll.js:510-513 | scrolls up by the frame height × pages |
| ScrollViews.ScrollView.ScrollRightPage | frameworks/desktop/views/scroll.js:524-527 | scrolls right by the frame width × pages |
| ScrollViews.ScrollView.ScrollLeftPage | frameworks/desktop/views/scroll.js:538-541 | scrolls left by the frame width × pages |
| ScrollViews.ScrollView.MouseWheel | frameworks/desktop/views/scroll.js:622-627 | the accumulators grow by the event's deltas; a drain is scheduled on every event; the event is handled iff some axis can scroll |
| ScrollViews.ScrollView.DrainWheel | frameworks/desktop/views/scroll.js:630-644 | both accumulated deltas are applied through scrollBy; with momentum and a vertical delta left, the drain runs again with the decayed vertical delta and the horizontal delta kept; otherwise both reset to 0 |
| ScrollViews.ScrollView.DrainWheelOnce | frameworks/desktop/views/scroll.js:630-644 | as evidently intended: the same drain, but the horizontal delta is spent by the drain that applies it |
| ScrollViews.ScrollView.TouchStart | frameworks/desktop/views/scroll.js:709-715 | the generation is bumped and a capture is scheduled only when not already tracking; then tracking starts as in `beginTouchTracking`: a pending deceleration is committed through the clamps, and the new session is taken from the entry offsets and the committed scale |
| ScrollViews.ScrollView.BeginTouchesInContent | frameworks/desktop/views/scroll.js:717-723 | a stale generation captures nothing; otherwise the touch is captured iff a gesture is tracked and is not a drag |
| ScrollViews.ScrollView.BeginTouchTracking | frameworks/desktop/views/scroll.js:733-820 | a pending deceleration is committed through the clamped setters; then a fresh session starts from the entry offsets and the committed scale, tracking and not dragging |
| ScrollViews.ScrollView.CommitDeceleration | frameworks/desktop/views/scroll.js:739-750 | the scale and both offsets are set through their clamps and the timer is cleared |
| ScrollViews.ScrollView.UpdateTouchScroll | frameworks/desktop/views/scroll.js:846-938 | the axis rules hold for the deltas of the content position; the gesture becomes a drag exactly when an axis starts or the pinch passes its tolerance, so a smaller move stays a tap; a disabled axis stays disabled; when something moves, the offsets are the resisted positions that keep the first-touched content point under the touch and lie within the resistance band, and a pinch sets the resisted scale; otherwise offsets and scale stay; the new session record is the disambiguated one and, when something moves, it is then locked on the remaining deltas and sampled at the placed offsets |
| ScrollViews.ScrollView.MoveContent | frameworks/desktop/views/scroll.js:886-937 | the record is the scroll-locked one sampled at the placed offsets; the gesture becomes a drag exactly when it was one or the pinch passes its tolerance; the scale is the pinched one and the offsets the placed ones, within the resistance band; the scrolling flags and validity are kept |
| ScrollViews.ScrollView.Pinch | frameworks/desktop/views/scroll.js:897-909 | beyond the scale tolerance the scale becomes the resisted start scale × (1 + dd/100) and the gesture becomes a drag; otherwise the scale and the drag flag stay |
| ScrollViews.ScrollView.PlaceContent | frameworks/desktop/views/scroll.js:911-923 | each offset becomes the resisted startTouchOffsetInContent × scale − touch-in-frame, within the resistance band |
| ScrollViews.PinchedScaleBounds | frameworks/desktop/views/scroll.js:897-909 | within the scale range a pinch is followed exactly; past it the scale stays within the resistance asymptote (320) of the range |
| ScrollViews.PlacedOffsetUnderTouch | frameworks/desktop/views/scroll.js:911-923 | within the scroll range the placed offset puts the touch back over the content point it first touched |
| ScrollViews.PlacedOffsetBounds | frameworks/desktop/views/scroll.js:911-923 | a placed offset overshoots [0, maximum] by less than the resistance asymptote |
| ScrollViews.ScrollView.TouchEnd | frameworks/desktop/views/scroll.js:940-960 | touches left restart tracking as in `beginTouchTracking`; else a drag seeds the deceleration at ten times the sampled velocity from the touch's end time and runs its first step, so each offset moves by ten times the velocity; else the tap is forwarded and nothing in the view changes |
| ScrollViews.ScrollView.TouchEndReleasing | frameworks/desktop/views/scroll.js:940-966 | `touchEnd` with a finished tap also ending the gesture as `touchCancelled` does: not tracking, not dragging, no session; touches left and drags behave as in `touchEnd` |
| ScrollViews.ScrollView.TouchCancelled | frameworks/desktop/views/scroll.js:962-966 | the gesture is forgotten: not tracking, not dragging, no session |
| ScrollViews.ScrollView.StartDecelerationAnimation | frameworks/desktop/views/scroll.js:968-976 | the deceleration starts at ten times the sampled velocity, and the state is that of one deceleration step from the seeded record: each offset moved by that much, the scale sprung, the velocity decayed and bounced, the timer pending unless it stopped |
| ScrollViews.ScrollView.DecelerateAnimation | frameworks/desktop/views/scroll.js:998-1051 | each offset advances by its velocity; the scale moves only when out of range, by the scale spring; the velocity is decayed and bounced at the old scale; it stops exactly when both velocities and the scale correction are below 0.01, and only then clears the timer without writing the setters |
| ScrollViews.ScaleSpring | frameworks/desktop/views/scroll.js:1014-1017 | a scale inside its range gets no correction |
| ScrollViews.VelocityDecayFactorBounds | frameworks/desktop/views/scroll.js:1021-1025 | the decay factor of a step lies in (0, 1); a gap under 1 ms counts as 1 ms; a longer gap decays more |
| ScrollViews.DeceleratedVelocityInRange | frameworks/desktop/views/scroll.js:1021-1029 | inside the scroll range a deceleration step strictly slows each nonzero velocity and keeps its sign |
| ScrollViews.ScrollView.ContentViewFrameDidChange | frameworks/desktop/views/scroll.js:1176-1233 | autohiding scrollers show exactly when the content overflows the view; each existing scroller is given content minus frame as its maximum (the vertical one less `verticalScrollerBottom`); a hidden autohiding axis goes to 0; then an offset beyond its maximum is put at the maximum and the other axis goes back, clamped, to where it was; no offset is left beyond its maximum; an in-range offset stays |
| ScrollViews.ScrollView.ShowScrollers | frameworks/desktop/views/scroll.js:1189-1206 | autohiding scrollers show exactly when the content overflows the view on their axis; the scroller maxima are as above |
| ScrollViews.ScrollView.ResetHiddenAxes | frameworks/desktop/views/scroll.js:1208-1219 | a hidden autohiding axis is reset to 0; others stay |
| ScrollViews.ScrollView.PullBackOffsets | frameworks/desktop/views/scroll.js:1221-1232 | an offset beyond its maximum is put at the maximum and the other axis goes back, clamped, to where it was; afterwards neither offset exceeds its maximum, and an in-range offset stays |
| ScrollViews.ScrollView.ForceDimensionsRecalculation | frameworks/desktop/views/scroll.js:1293-1306 | a forced axis ends at its maximum; the other returns, clamped, to its given offset; with neither forced both end at 0 |
| ScrollViews.RightLineFromMiddle | frameworks/desktop/views/scroll.js:470-473 | from offset 100 on 1000-wide content in a 100-wide view, `scrollRightLine()` as written lands on 20 |
| ScrollViews.LeftLineFromMiddle | frameworks/desktop/views/scroll.js:482-485 | from offset 100, `scrollLeftLine()` as written lands on 0 |
| ScrollViews.RightLineByFromMiddle | frameworks/desktop/views/scroll.js:463-473 | from offset 100, scrolling right by one line lands on 120 |
| ScrollViews.LeftLineByFromMiddle | frameworks/desktop/views/scroll.js:475-485 | from offset 100, scrolling left by one line lands on 80 |
| ScrollViews.WheelMomentumRepeatsHorizontal | frameworks/desktop/views/scroll.js:630-644 | after a wheel event of (10, 100), the second drain as written moves the view horizontally from 10 to 20 |
| ScrollViews.WheelMomentumAppliesHorizontalOnce | frameworks/desktop/views/scroll.js:630-644 | with the horizontal delta spent, the second drain leaves the view at 10 |
| ScrollViews.SecondTapSchedulesNoCapture | frameworks/desktop/views/scroll.js:709-715 | after one tap ended by `touchEnd`, a second `touchStart` schedules no capture, and the first tap's capture (generation 1) fires during the second tap |
| ScrollViews.SecondTapSchedulesCapture | frameworks/desktop/views/scroll.js:709-715 | with the tap ending the gesture, the second `touchStart` schedules generation 2, and the first tap's capture does not fire |

## Left out

- ScrollViews.ScrollView.MouseWheel: every event schedules a drain, with no check for one already pending. The model returns `scheduled` and leaves running it to the caller. It does not model several drain chains running at once over the shared accumulators.
- DOM and CSS output is not modelled. This covers `_applyCSSTransforms`, `updateScale`, `render` and `adjustElementScroll`; they only write styles.
- `proportion` on the scrollers is not modelled; it is a display value and divides by a possibly zero extent.
- Observers, property caching and framework lifecycle are not modelled: `.property().cacheable()`, `observes`, `createChildViews`, `init`, `contentViewDidChange` and autoscroll registration. A getter is read as its raw field.
- A missing content view is not modelled: the content view's frame always comes in through `Geometry`.
- Event-dispatch collaborators are inputs. The averaged touch, the global frame, `captureTouch` and forwarding a tap to `touchResponder` are replaced by parameters and by the `TapForwarded` outcome.
- Timers are not modelled: `invokeLater`, `setTimeout` and `clearTimeout` become explicit calls and returned flags. The run loop is left out.
- `Date.now()` is called twice by a deceleration step; the model takes one `now` for both.
- `Math.pow` is abstract. No convergence of the deceleration is claimed.
- Floating point is modelled as exact reals. The wheel deltas are integers, so `Math.floor(d*0.950)` is exact integer arithmetic.
- The hash form of `scrollTo`/`scrollBy` arguments is left out, and so is `scrollToVisible` with no argument, which defers to the superclass.
- The `contentClippingFrame` override of the container is left out; it depends on browser detection.
- The `dragging` entry that `touchEnd` clears on the session record is not modelled; the view's own `dragging` flag stays set, as in the source.
- `touchCancelled` does not stop a pending deceleration timer in the source; the model's `DecelerateAnimation` requires a session, which is the case in which the source's callback does not fail.
- ScrollViews.ScrollView.UpdateTouchScroll: requires a nonzero scale, because the source divides by `_scale`. Edge resistance lets the pinched scale go below the minimum by up to the asymptote (320), so 0 is reachable in the source.
- ScrollViews.ScrollView.BeginTouchTracking: requires a nonzero scale, or a pending deceleration that commits a clamped, positive scale, for the same division.
- ScrollViews.ScrollView.TouchStart: same requirement as BeginTouchTracking, which it calls.
- ScrollViews.ScrollView.TouchEnd: same requirement when touches remain.
- TouchSessions.StartSession: requires a nonzero scale, for the same division by `_scale` in `beginTouchTracking`.
- ScrollViews.ScrollView.Valid: assumes `0 < minimumScale <= maximumScale`; the source never checks the scale range, and `ClampScale` and `SetScale` do model an inverted one.
- The touch deltas compare a position in content coordinates with `startTouchOffset`, a global position; the model follows the code and does not model a corrected comparison.

## Findings

| source | as written | input that shows it | evidently intended | confidence | as-written member | corrected member |
|---|---|---|---|---|---|---|
| frameworks/desktop/views/scroll.js:470-473 | `scrollRightLine` calls `scrollTo(horizontalLineScroll*lines, null)`, an absolute position | content 1000 wide, view 100 wide, offset 100, `scrollRightLine()`: the offset becomes 20 | scroll right by one line, to 120, like `scrollDownLine` does with `scrollBy` | not executed | ScrollViews.RightLineFromMiddle | ScrollViews.RightLineByFromMiddle |
| frameworks/desktop/views/scroll.js:482-485 | `scrollLeftLine` calls `scrollTo(0-horizontalLineScroll*lines, null)`, a negative absolute position | same view at offset 100, `scrollLeftLine()`: the offset becomes 0 | scroll left by one line, to 80 | not executed | ScrollViews.LeftLineFromMiddle | ScrollViews.LeftLineByFromMiddle |
| frameworks/desktop/views/scroll.js:940-960 | `touchEnd` never clears `this.tracking`; only `touchCancelled` does, so after the first tap `touchStart` no longer bumps `touchGeneration` or schedules `beginTouchesInContent` | a tap at (10, 10) ended with no touches left, then a second tap: the second `touchStart` schedules nothing, and `beginTouchesInContent(1)` from the first tap captures during the second | a finished tap ends the gesture, so each tap gets its own capture | not executed | ScrollViews.SecondTapSchedulesNoCapture | ScrollViews.SecondTapSchedulesCapture |
| frameworks/desktop/views/scroll.js:630-644 | with momentum, `_scroll_mouseWheel` keeps `_scroll_wheelDeltaX` while it reschedules itself, so every drain of the momentum train applies the horizontal delta again | view 100 by 100 over content 1000 by 1000, one wheel event of (10, 100), two drains: the horizontal offset goes 0, 10, 20 | the horizontal delta is applied once and only the vertical one carries momentum | not executed | ScrollViews.WheelMomentumRepeatsHorizontal | ScrollViews.WheelMomentumAppliesHorizontalOnce |
