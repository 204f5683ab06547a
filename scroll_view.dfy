/** SC.ScrollView itself: the raw offset and scale fields, the clamped
    setters, scrolling by position, by amount and to a target rectangle, the
    line and page helpers, the wheel accumulator, the touch gesture handlers
    and one step of the deceleration animation. The layout engine's answers
    (content, container and own frames) come in as a `Geometry`; clocks come
    in as time stamps; `Math.pow` comes in as `pow`. */
module ScrollViews {
  import opened Numeric
  import opened Optional
  import opened Offsets
  import opened Physics
  import opened Wheel
  import opened TouchSessions

  /** The three ways `touchEnd` can go. */
  datatype TouchEndOutcome =
    | Retracked      // touches remain: tracking restarts from them
    | Decelerating   // the gesture was a drag: the deceleration animation starts
    | TapForwarded   // otherwise the touch is handed to the view under it

  /** The base `Math.pow` is raised to, per 10 ms, to decay a deceleration velocity. */
  const VelocityDecay: real := 0.95

  /** Below this magnitude a velocity or scale correction counts as stopped. */
  const StopSpeed: real := 0.01

  class ScrollView {
    // `_scroll_horizontalScrollOffset`, `_scroll_verticalScrollOffset`, `_scale`
    var horizontalOffset: real
    var verticalOffset: real
    var scale: real
    var minimumScale: real
    var maximumScale: real
    var canScale: bool

    // the scrollers: whether the view keeps one, whether its view exists,
    // whether it is visible and whether it hides itself when not needed
    var hasHorizontalScroller: bool
    var horizontalScrollerView: bool
    var isHorizontalScrollerVisible: bool
    var autohidesHorizontalScroller: bool
    var hasVerticalScroller: bool
    var verticalScrollerView: bool
    var isVerticalScrollerVisible: bool
    var autohidesVerticalScroller: bool
    var verticalScrollerBottom: real

    var verticalLineScroll: real
    var horizontalLineScroll: real

    // `_scroll_wheelDeltaX`, `_scroll_wheelDeltaY`
    var wheelDeltaX: int
    var wheelDeltaY: int

    var touchGeneration: nat
    var tracking: bool
    var dragging: bool
    var touch: Option<TouchSession>

    /** The scale range is a nonempty range of positive scales; a session
        record exists exactly while a gesture is tracked, and it is valid;
        only a tracked gesture can be a drag. */
    predicate Valid()
      reads this
    {
      && 0.0 < minimumScale <= maximumScale
      && (tracking <==> touch.Some?)
      && (dragging ==> tracking)
      && (touch.Some? ==> touch.value.Valid())
    }

    /** A view with the class defaults, both scroller views created. */
    constructor()
      ensures Valid()
      ensures horizontalOffset == 0.0 && verticalOffset == 0.0 && scale == 1.0
      ensures minimumScale == 0.25 && maximumScale == 2.0 && !canScale
      ensures hasHorizontalScroller && horizontalScrollerView && isHorizontalScrollerVisible
      ensures hasVerticalScroller && verticalScrollerView && isVerticalScrollerVisible
      ensures autohidesHorizontalScroller && autohidesVerticalScroller && verticalScrollerBottom == 0.0
      ensures verticalLineScroll == 20.0 && horizontalLineScroll == 20.0
      ensures wheelDeltaX == 0 && wheelDeltaY == 0
      ensures touchGeneration == 0 && !tracking && !dragging && touch.None?
    {
      horizontalOffset := 0.0;
      verticalOffset := 0.0;
      scale := 1.0;
      minimumScale := 0.25;
      maximumScale := 2.0;
      canScale := false;
      hasHorizontalScroller := true;
      horizontalScrollerView := true;
      isHorizontalScrollerVisible := true;
      autohidesHorizontalScroller := true;
      hasVerticalScroller := true;
      verticalScrollerView := true;
      isVerticalScrollerVisible := true;
      autohidesVerticalScroller := true;
      verticalScrollerBottom := 0.0;
      verticalLineScroll := 20.0;
      horizontalLineScroll := 20.0;
      wheelDeltaX := 0;
      wheelDeltaY := 0;
      touchGeneration := 0;
      tracking := false;
      dragging := false;
      touch := None;
    }

    /** `canScrollHorizontal`: a scroller is kept, exists and is visible. */
    predicate CanScrollHorizontal()
      reads this`hasHorizontalScroller, this`horizontalScrollerView, this`isHorizontalScrollerVisible
    {
      hasHorizontalScroller && horizontalScrollerView && isHorizontalScrollerVisible
    }

    /** `canScrollVertical`. */
    predicate CanScrollVertical()
      reads this`hasVerticalScroller, this`verticalScrollerView, this`isVerticalScrollerVisible
    {
      hasVerticalScroller && verticalScrollerView && isVerticalScrollerVisible
    }

    /** `maximumHorizontalScrollOffset` at the current scale. */
    function MaximumHorizontalScrollOffset(g: Geometry): (m: real)
      reads this`hasHorizontalScroller, this`horizontalScrollerView, this`isHorizontalScrollerVisible, this`scale
      ensures m >= 0.0
      // a disabled axis always reports 0
      ensures !CanScrollHorizontal() ==> m == 0.0
    {
      MaximumOffset(CanScrollHorizontal(), g.contentFrame.width, g.calculated.width, scale, g.container.width)
    }

    /** `maximumVerticalScrollOffset` at the current scale. */
    function MaximumVerticalScrollOffset(g: Geometry): (m: real)
      reads this`hasVerticalScroller, this`verticalScrollerView, this`isVerticalScrollerVisible, this`scale
      ensures m >= 0.0
      ensures !CanScrollVertical() ==> m == 0.0
    {
      MaximumOffset(CanScrollVertical(), g.contentFrame.height, g.calculated.height, scale, g.container.height)
    }

    /** An axis that cannot scroll has no room: whatever its setter is
        given, it stores 0. */
    lemma ScrollerlessAxisStaysAtOrigin(g: Geometry, x: real, y: real)
      ensures !CanScrollHorizontal() ==> ClampOffset(x, MaximumHorizontalScrollOffset(g)) == 0.0
      ensures !CanScrollVertical() ==> ClampOffset(y, MaximumVerticalScrollOffset(g)) == 0.0
    {
    }

    // ------------------------------------------------------------------
    // The clamped property setters

    /** Setting `horizontalScrollOffset`. */
    method SetHorizontalScrollOffset(g: Geometry, value: real)
      modifies this`horizontalOffset
      ensures horizontalOffset == ClampOffset(value, MaximumHorizontalScrollOffset(g))
      ensures 0.0 <= horizontalOffset <= MaximumHorizontalScrollOffset(g)
    {
      horizontalOffset := Max(0.0, Min(MaximumHorizontalScrollOffset(g), value));
    }

    /** Setting `verticalScrollOffset`. */
    method SetVerticalScrollOffset(g: Geometry, value: real)
      modifies this`verticalOffset
      ensures verticalOffset == ClampOffset(value, MaximumVerticalScrollOffset(g))
      ensures 0.0 <= verticalOffset <= MaximumVerticalScrollOffset(g)
    {
      verticalOffset := Max(0.0, Min(MaximumVerticalScrollOffset(g), value));
    }

    /** Setting `scale`. */
    method SetScale(value: real)
      modifies this`scale
      ensures scale == ClampScale(value, minimumScale, maximumScale)
      ensures scale <= maximumScale
      ensures minimumScale <= maximumScale ==> minimumScale <= scale
    {
      scale := Min(Max(minimumScale, value), maximumScale);
    }

    // ------------------------------------------------------------------
    // Scrolling

    /** `scrollTo(x, y)`: a missing coordinate leaves its axis alone; a
        given one is clamped into the scroll range. */
    method ScrollTo(g: Geometry, x: Option<real>, y: Option<real>)
      modifies this`horizontalOffset, this`verticalOffset
      ensures horizontalOffset ==
                if x.Some? then ClampOffset(x.value, MaximumHorizontalScrollOffset(g)) else old(horizontalOffset)
      ensures verticalOffset ==
                if y.Some? then ClampOffset(y.value, MaximumVerticalScrollOffset(g)) else old(verticalOffset)
    {
      if x.Some? {
        var cx := Max(0.0, Min(MaximumHorizontalScrollOffset(g), x.value));
        SetHorizontalScrollOffset(g, cx);
      }
      if y.Some? {
        var cy := Max(0.0, Min(MaximumVerticalScrollOffset(g), y.value));
        SetVerticalScrollOffset(g, cy);
      }
    }

    /** `scrollBy(x, y)`: a missing or zero amount leaves its axis alone;
        otherwise the axis moves to the clamped sum. */
    method ScrollBy(g: Geometry, x: Option<real>, y: Option<real>)
      modifies this`horizontalOffset, this`verticalOffset
      ensures horizontalOffset ==
                if x.Some? && x.value != 0.0
                then ClampOffset(old(horizontalOffset) + x.value, MaximumHorizontalScrollOffset(g))
                else old(horizontalOffset)
      ensures verticalOffset ==
                if y.Some? && y.value != 0.0
                then ClampOffset(old(verticalOffset) + y.value, MaximumVerticalScrollOffset(g))
                else old(verticalOffset)
    {
      var tx := if x.Some? && x.value != 0.0 then Some(horizontalOffset + x.value) else None;
      var ty := if y.Some? && y.value != 0.0 then Some(verticalOffset + y.value) else None;
      ScrollTo(g, tx, ty);
    }

    /** `scrollToVisible(view)`, with the view's frame already converted to
        content coordinates (`None` when it has no frame). The visible
        rectangle is the container's frame at the current offsets. */
    method ScrollToVisible(g: Geometry, target: Option<Rect>) returns (changed: bool, ghost origin: Vec)
      modifies this`horizontalOffset, this`verticalOffset
      // without a frame there is nothing to do
      ensures target.None? ==> !changed
      // it reports whether the shifted origin differs from the current offsets...
      ensures changed <==> target.Some? && origin != Vec(old(horizontalOffset), old(verticalOffset))
      // ...and scrolls to that origin, clamped, exactly when it does
      ensures changed ==>
                horizontalOffset == ClampOffset(origin.x, MaximumHorizontalScrollOffset(g)) &&
                verticalOffset == ClampOffset(origin.y, MaximumVerticalScrollOffset(g))
      ensures !changed ==> horizontalOffset == old(horizontalOffset) && verticalOffset == old(verticalOffset)
      // a target that is already visible changes nothing
      ensures target.Some? &&
              Rect(old(horizontalOffset), old(verticalOffset), g.container.width, g.container.height).Contains(target.value)
              ==> !changed
      // a target no larger than the container is visible at the shifted origin
      ensures target.Some? && target.value.width <= g.container.width && target.value.height <= g.container.height ==>
                Rect(origin.x, origin.y, g.container.width, g.container.height).Contains(target.value)
      // the origin is the minimal shift of the visible rectangle on each axis
      ensures target.Some? ==>
                && RevealsAxis(old(horizontalOffset), g.container.width, target.value.x, target.value.width, origin.x)
                && RevealsAxis(old(verticalOffset), g.container.height, target.value.y, target.value.height, origin.y)
    {
      origin := Vec(horizontalOffset, verticalOffset);
      if target.None? {
        return false, origin;
      }
      var visible := Rect(horizontalOffset, verticalOffset, g.container.width, g.container.height);
      var origX, origY := horizontalOffset, verticalOffset;
      var vo := VisibleOrigin(visible, target.value);
      origin := vo;
      if origX != vo.x || origY != vo.y {
        ScrollTo(g, Some(vo.x), Some(vo.y));
        changed := true;
      } else {
        changed := false;
      }
    }

    // ------------------------------------------------------------------
    // Line and page helpers; a missing count means 1

    /** `scrollDownLine(lines)`. */
    method ScrollDownLine(g: Geometry, lines: Option<real>)
      modifies this`horizontalOffset, this`verticalOffset
      ensures var amount := verticalLineScroll * lines.GetOr(1.0);
              verticalOffset ==
                if amount != 0.0 then ClampOffset(old(verticalOffset) + amount, MaximumVerticalScrollOffset(g))
                else old(verticalOffset)
      ensures horizontalOffset == old(horizontalOffset)
    {
      ScrollBy(g, None, Some(verticalLineScroll * lines.GetOr(1.0)));
    }

    /** `scrollUpLine(lines)`. */
    method ScrollUpLine(g: Geometry, lines: Option<real>)
      modifies this`horizontalOffset, this`verticalOffset
      ensures var amount := verticalLineScroll * lines.GetOr(1.0);
              verticalOffset ==
                if amount != 0.0 then ClampOffset(old(verticalOffset) - amount, MaximumVerticalScrollOffset(g))
                else old(verticalOffset)
      ensures horizontalOffset == old(horizontalOffset)
    {
      ScrollBy(g, None, Some(0.0 - verticalLineScroll * lines.GetOr(1.0)));
    }

    /** `scrollRightLine(lines)` as written: it calls `scrollTo`, so it moves
        to the absolute position `horizontalLineScroll * lines`, wherever the
        view was. */
    method ScrollRightLine(g: Geometry, lines: Option<real>)
      modifies this`horizontalOffset, this`verticalOffset
      ensures horizontalOffset ==
                ClampOffset(horizontalLineScroll * lines.GetOr(1.0), MaximumHorizontalScrollOffset(g))
      ensures verticalOffset == old(verticalOffset)
    {
      ScrollTo(g, Some(horizontalLineScroll * lines.GetOr(1.0)), None);
    }

    /** `scrollLeftLine(lines)` as written: `scrollTo` a negative position,
        which always lands on 0. */
    method ScrollLeftLine(g: Geometry, lines: Option<real>)
      modifies this`horizontalOffset, this`verticalOffset
      ensures horizontalOffset ==
                ClampOffset(0.0 - horizontalLineScroll * lines.GetOr(1.0), MaximumHorizontalScrollOffset(g))
      ensures horizontalLineScroll * lines.GetOr(1.0) >= 0.0 ==> horizontalOffset == 0.0
      ensures verticalOffset == old(verticalOffset)
    {
      ScrollTo(g, Some(0.0 - horizontalLineScroll * lines.GetOr(1.0)), None);
    }

    /** What `scrollRightLine` is documented to do: scroll right by
        `horizontalLineScroll * lines` from where the view is. */
    method ScrollRightLineBy(g: Geometry, lines: Option<real>)
      modifies this`horizontalOffset, this`verticalOffset
      ensures var amount := horizontalLineScroll * lines.GetOr(1.0);
              horizontalOffset ==
                if amount != 0.0 then ClampOffset(old(horizontalOffset) + amount, MaximumHorizontalScrollOffset(g))
                else old(horizontalOffset)
      ensures verticalOffset == old(verticalOffset)
    {
      ScrollBy(g, Some(horizontalLineScroll * lines.GetOr(1.0)), None);
    }

    /** What `scrollLeftLine` is documented to do: scroll left by
        `horizontalLineScroll * lines` from where the view is. */
    method ScrollLeftLineBy(g: Geometry, lines: Option<real>)
      modifies this`horizontalOffset, this`verticalOffset
      ensures var amount := horizontalLineScroll * lines.GetOr(1.0);
              horizontalOffset ==
                if amount != 0.0 then ClampOffset(old(horizontalOffset) - amount, MaximumHorizontalScrollOffset(g))
                else old(horizontalOffset)
      ensures verticalOffset == old(verticalOffset)
    {
      ScrollBy(g, Some(0.0 - horizontalLineScroll * lines.GetOr(1.0)), None);
    }

    /** `scrollDownPage(pages)`: a page is the view's own frame height. */
    method ScrollDownPage(g: Geometry, pages: Option<real>)
      modifies this`horizontalOffset, this`verticalOffset
      ensures var amount := g.frame.height * pages.GetOr(1.0);
              verticalOffset ==
                if amount != 0.0 then ClampOffset(old(verticalOffset) + amount, MaximumVerticalScrollOffset(g))
                else old(verticalOffset)
      ensures horizontalOffset == old(horizontalOffset)
    {
      ScrollBy(g, None, Some(g.frame.height * pages.GetOr(1.0)));
    }

    /** `scrollUpPage(pages)`. */
    method ScrollUpPage(g: Geometry, pages: Option<real>)
      modifies this`horizontalOffset, this`verticalOffset
      ensures var amount := g.frame.height * pages.GetOr(1.0);
              verticalOffset ==
                if amount != 0.0 then ClampOffset(old(verticalOffset) - amount, MaximumVerticalScrollOffset(g))
                else old(verticalOffset)
      ensures horizontalOffset == old(horizontalOffset)
    {
      ScrollBy(g, None, Some(0.0 - (g.frame.height * pages.GetOr(1.0))));
    }

    /** `scrollRightPage(pages)`: a page is the view's own frame width. */
    method ScrollRightPage(g: Geometry, pages: Option<real>)
      modifies this`horizontalOffset, this`verticalOffset
      ensures var amount := g.frame.width * pages.GetOr(1.0);
              horizontalOffset ==
                if amount != 0.0 then ClampOffset(old(horizontalOffset) + amount, MaximumHorizontalScrollOffset(g))
                else old(horizontalOffset)
      ensures verticalOffset == old(verticalOffset)
    {
      ScrollBy(g, Some(g.frame.width * pages.GetOr(1.0)), None);
    }

    /** `scrollLeftPage(pages)`. */
    method ScrollLeftPage(g: Geometry, pages: Option<real>)
      modifies this`horizontalOffset, this`verticalOffset
      ensures var amount := g.frame.width * pages.GetOr(1.0);
              horizontalOffset ==
                if amount != 0.0 then ClampOffset(old(horizontalOffset) - amount, MaximumHorizontalScrollOffset(g))
                else old(horizontalOffset)
      ensures verticalOffset == old(verticalOffset)
    {
      ScrollBy(g, Some(0.0 - (g.frame.width * pages.GetOr(1.0))), None);
    }

    // ------------------------------------------------------------------
    // The scroll wheel

    /** `mouseWheel(evt)`: accumulate the event's deltas, schedule a drain
        (on every event, whether or not one is already pending) and report
        whether the view can scroll. */
    method MouseWheel(deltaX: int, deltaY: int) returns (handled: bool, scheduled: bool)
      modifies this`wheelDeltaX, this`wheelDeltaY
      ensures wheelDeltaX == old(wheelDeltaX) + deltaX && wheelDeltaY == old(wheelDeltaY) + deltaY
      ensures handled <==> CanScrollHorizontal() || CanScrollVertical()
      ensures scheduled
    {
      wheelDeltaX := wheelDeltaX + deltaX;
      wheelDeltaY := wheelDeltaY + deltaY;
      scheduled := true;
      handled := CanScrollHorizontal() || CanScrollVertical();
    }

    /** `_scroll_mouseWheel`, one drain of the accumulators. With momentum
        (`SC.WHEEL_MOMENTUM`) and a vertical delta left, the vertical delta
        decays and another drain is due; the horizontal delta is then kept
        and applied again by that drain. Otherwise both are reset. */
    method DrainWheel(g: Geometry, momentum: bool) returns (rescheduled: bool)
      modifies this`horizontalOffset, this`verticalOffset, this`wheelDeltaX, this`wheelDeltaY
      ensures horizontalOffset ==
                if old(wheelDeltaX) != 0
                then ClampOffset(old(horizontalOffset) + old(wheelDeltaX) as real, MaximumHorizontalScrollOffset(g))
                else old(horizontalOffset)
      ensures verticalOffset ==
                if old(wheelDeltaY) != 0
                then ClampOffset(old(verticalOffset) + old(wheelDeltaY) as real, MaximumVerticalScrollOffset(g))
                else old(verticalOffset)
      ensures rescheduled <==> momentum && old(wheelDeltaY) != 0
      ensures rescheduled ==> wheelDeltaY == WheelDecay(old(wheelDeltaY)) && wheelDeltaX == old(wheelDeltaX)
      ensures !rescheduled ==> wheelDeltaX == 0 && wheelDeltaY == 0
      // each rescheduled drain leaves a strictly smaller vertical delta, so the chain ends
      ensures rescheduled ==> IntAbs(wheelDeltaY) < IntAbs(old(wheelDeltaY))
    {
      ScrollBy(g, Some(wheelDeltaX as real), Some(wheelDeltaY as real));
      if momentum && wheelDeltaY != 0 {
        wheelDeltaY := WheelDecay(wheelDeltaY);
        rescheduled := true;
      } else {
        wheelDeltaY := 0;
        wheelDeltaX := 0;
        rescheduled := false;
      }
    }

    /** What the drain evidently intends: both accumulated deltas are
        applied once; only the vertical one carries momentum into the next
        drain, and the horizontal one is spent. */
    method DrainWheelOnce(g: Geometry, momentum: bool) returns (rescheduled: bool)
      modifies this`horizontalOffset, this`verticalOffset, this`wheelDeltaX, this`wheelDeltaY
      ensures horizontalOffset ==
                if old(wheelDeltaX) != 0
                then ClampOffset(old(horizontalOffset) + old(wheelDeltaX) as real, MaximumHorizontalScrollOffset(g))
                else old(horizontalOffset)
      ensures verticalOffset ==
                if old(wheelDeltaY) != 0
                then ClampOffset(old(verticalOffset) + old(wheelDeltaY) as real, MaximumVerticalScrollOffset(g))
                else old(verticalOffset)
      ensures rescheduled <==> momentum && old(wheelDeltaY) != 0
      ensures wheelDeltaY == if rescheduled then WheelDecay(old(wheelDeltaY)) else 0
      // the horizontal delta is spent by the drain that applies it
      ensures wheelDeltaX == 0
    {
      ScrollBy(g, Some(wheelDeltaX as real), Some(wheelDeltaY as real));
      wheelDeltaX := 0;
      if momentum && wheelDeltaY != 0 {
        wheelDeltaY := WheelDecay(wheelDeltaY);
        rescheduled := true;
      } else {
        wheelDeltaY := 0;
        rescheduled := false;
      }
    }

    // ------------------------------------------------------------------
    // Touch gestures

    /** `touchStart`: a touch that starts a gesture gets a new generation,
        for which `beginTouchesInContent` is scheduled; tracking then
        (re)starts from the touches on the view. */
    method TouchStart(g: Geometry, sample: TouchSample, globalFrame: Rect) returns (scheduled: Option<nat>)
      requires Valid()
      requires scale != 0.0 || (touch.Some? && touch.value.timeout)
      modifies this`touchGeneration, this`tracking, this`dragging, this`touch,
               this`scale, this`horizontalOffset, this`verticalOffset
      ensures Valid()
      ensures touchGeneration == if old(tracking) then old(touchGeneration) else old(touchGeneration) + 1
      ensures scheduled == if old(tracking) then None else Some(touchGeneration)
      // the scheduled callback captures the touches unless something intervenes
      ensures tracking && !dragging && touch.Some?
      // tracking (re)starts as in `beginTouchTracking`
      ensures old(touch.Some? && touch.value.timeout) ==>
                && scale == ClampScale(old(scale), minimumScale, maximumScale)
                && verticalOffset == ClampOffset(old(verticalOffset), MaximumVerticalScrollOffset(g))
                && horizontalOffset == ClampOffset(old(horizontalOffset), MaximumHorizontalScrollOffset(g))
      ensures !old(touch.Some? && touch.value.timeout) ==>
                scale == old(scale) && verticalOffset == old(verticalOffset) &&
                horizontalOffset == old(horizontalOffset)
      ensures touch == Some(StartSession(sample, old(horizontalOffset), old(verticalOffset), scale,
                                         g.ContentSize(), g.container, canScale,
                                         minimumScale, maximumScale, globalFrame))
    {
      if !tracking {
        touchGeneration := touchGeneration + 1;
        scheduled := Some(touchGeneration);
      } else {
        scheduled := None;
      }
      BeginTouchTracking(g, sample, globalFrame);
    }

    /** `beginTouchesInContent(gen)`: the scheduled callback captures the
        touches for the content only for the current generation, while a
        gesture is tracked and has not become a drag. */
    method BeginTouchesInContent(gen: nat) returns (captured: bool)
      ensures gen != touchGeneration ==> !captured
      ensures captured <==> gen == touchGeneration && touch.Some? && tracking && !dragging
    {
      if gen != touchGeneration {
        return false;
      }
      captured := touch.Some? && tracking && !dragging;
    }

    /** `beginTouchTracking`: a deceleration still pending is finished by
        committing the scale and then the offsets through the clamped
        setters; then a fresh session record is taken, from the offsets as
        they were on entry and the (committed) scale. */
    method BeginTouchTracking(g: Geometry, sample: TouchSample, globalFrame: Rect)
      requires Valid()
      requires scale != 0.0 || (touch.Some? && touch.value.timeout)
      modifies this`scale, this`horizontalOffset, this`verticalOffset, this`touch, this`tracking, this`dragging
      ensures Valid()
      ensures tracking && !dragging
      ensures old(touch.Some? && touch.value.timeout) ==>
                && scale == ClampScale(old(scale), minimumScale, maximumScale)
                && verticalOffset == ClampOffset(old(verticalOffset), MaximumVerticalScrollOffset(g))
                && horizontalOffset == ClampOffset(old(horizontalOffset), MaximumHorizontalScrollOffset(g))
      ensures !old(touch.Some? && touch.value.timeout) ==>
                scale == old(scale) && verticalOffset == old(verticalOffset) &&
                horizontalOffset == old(horizontalOffset)
      ensures scale != 0.0
      ensures touch == Some(StartSession(sample, old(horizontalOffset), old(verticalOffset), scale,
                                         g.ContentSize(), g.container, canScale,
                                         minimumScale, maximumScale, globalFrame))
    {
      var v, h := verticalOffset, horizontalOffset;
      if touch.Some? && touch.value.timeout {
        CommitDeceleration(g);
      }
      touch := Some(StartSession(sample, h, v, scale, g.ContentSize(), g.container, canScale,
                                 minimumScale, maximumScale, globalFrame));
      tracking := true;
      dragging := false;
    }

    /** A deceleration still pending when a new gesture starts is finished
        by committing the scale and then the offsets through the clamped
        setters; its timer is cleared. */
    method CommitDeceleration(g: Geometry)
      requires Valid() && touch.Some? && touch.value.timeout
      modifies this`scale, this`horizontalOffset, this`verticalOffset, this`touch
      ensures Valid() && touch.Some? && !touch.value.timeout
      ensures scale == ClampScale(old(scale), minimumScale, maximumScale)
      ensures verticalOffset == ClampOffset(old(verticalOffset), MaximumVerticalScrollOffset(g))
      ensures horizontalOffset == ClampOffset(old(horizontalOffset), MaximumHorizontalScrollOffset(g))
      ensures scale != 0.0
    {
      var v, h := verticalOffset, horizontalOffset;
      SetScale(scale);
      SetVerticalScrollOffset(g, v);
      SetHorizontalScrollOffset(g, h);
      touch := Some(touch.value.(timeout := false));
    }

    /** `updateTouchScroll`, for a drag to (touchX, touchY) with the touches
        `distance` apart: disambiguate the axes; unless nothing scrolls or
        scales, apply the scroll lock, the pinch, put the content point
        first touched back under the touch, and sample the velocity. */
    method UpdateTouchScroll(touchX: real, touchY: real, distance: real, timeStamp: real, pow: Pow)
      requires Valid() && touch.Some? && scale != 0.0
      modifies this`dragging, this`scale, this`horizontalOffset, this`verticalOffset, this`touch
      ensures Valid() && touch.Some?
      // the axis rules: a flag is only ever set, by a delta beyond the tolerance
      ensures var t0 := old(touch.value);
              var dx := PositionInContent(old(horizontalOffset), touchX, t0.globalFrame.x, old(scale)) - t0.startTouchOffset.x;
              var dy := PositionInContent(old(verticalOffset), touchY, t0.globalFrame.y, old(scale)) - t0.startTouchOffset.y;
              && touch.value.scrolling.x == (t0.scrolling.x || StartsX(t0, dx))
              && touch.value.scrolling.y == (t0.scrolling.y || StartsY(t0, dx, dy))
              // the gesture becomes a drag exactly when an axis starts or the
              // pinch passes its tolerance; a smaller move stays a tap
              && dragging == (old(dragging) || StartsX(t0, dx) || StartsY(t0, dx, dy) || Pinches(t0, distance))
      // a disabled axis never comes back within the gesture
      ensures !old(touch.value.enableScrolling.x) ==> !touch.value.enableScrolling.x
      ensures !old(touch.value.enableScrolling.y) ==> !touch.value.enableScrolling.y
      // when something scrolls or scales, the offsets are the resisted
      // positions that keep the first-touched content point under the touch
      ensures Moves(touch.value) ==> PlacedAt(old(touch.value), touchX, touchY, pow)
      // ...which overshoot the scroll range by less than the resistance asymptote
      ensures Moves(touch.value) && IsPow(pow) ==> WithinResistance(old(touch.value))
      // a pinch beyond the scale tolerance sets the resisted scale
      ensures Moves(touch.value) ==> PinchedTo(old(touch.value), distance, old(scale), pow)
      ensures !Moves(touch.value) ==> scale == old(scale)
      // when nothing scrolls or scales, the offsets stay
      ensures !Moves(touch.value) ==>
                horizontalOffset == old(horizontalOffset) && verticalOffset == old(verticalOffset)
      // the new session record: disambiguated, and, when something moves,
      // locked on the remaining deltas and sampled at the new offsets
      ensures var t0 := old(touch.value);
              var dx := PositionInContent(old(horizontalOffset), touchX, t0.globalFrame.x, old(scale)) - t0.startTouchOffset.x;
              var dy := PositionInContent(old(verticalOffset), touchY, t0.globalFrame.y, old(scale)) - t0.startTouchOffset.y;
              var t1 := Disambiguated(t0, dx, dy, touchX, touchY);
              touch.value ==
                if Moves(t1)
                then Sampled(Locked(t1, if StartsX(t0, dx) then 0.0 else dx, if StartsY(t0, dx, dy) then 0.0 else dy),
                             horizontalOffset, verticalOffset, timeStamp)
                else t1
    {
      var t0 := touch.value;
      var t := t0;
      var deltaX := PositionInContent(horizontalOffset, touchX, t.globalFrame.x, scale) - t.startTouchOffset.x;
      var deltaY := PositionInContent(verticalOffset, touchY, t.globalFrame.y, scale) - t.startTouchOffset.y;

      var engaged;
      t, deltaX, deltaY, engaged := Disambiguate(t, deltaX, deltaY, touchX, touchY);
      if engaged {
        dragging := true;
      }
      if !t.scrolling.x && !t.scrolling.y && !t.canScale {
        touch := Some(t);
        return;
      }
      // the fields the pinch and the placement read are those of the record on entry
      assert SameGesture(t, t0);
      t := MoveContent(t0, t, deltaX, deltaY, touchX, touchY, distance, timeStamp, pow);
      touch := Some(t);
    }

    /** The second half of `updateTouchScroll`, once something scrolls or
        scales: the scroll lock on the session record `t`, the pinch, the
        placement of the content (both reading the gesture's fields from
        `t0`) and the velocity sample; the new record is returned. */
    method MoveContent(t0: TouchSession, t: TouchSession, deltaX: real, deltaY: real,
                       touchX: real, touchY: real, distance: real, timeStamp: real, pow: Pow)
      returns (t': TouchSession)
      modifies this`dragging, this`scale, this`horizontalOffset, this`verticalOffset
      ensures t.Valid() ==> t'.Valid()
      ensures t'.scrolling == t.scrolling && t'.canScale == t.canScale
      ensures !t.enableScrolling.x ==> !t'.enableScrolling.x
      ensures !t.enableScrolling.y ==> !t'.enableScrolling.y
      ensures PlacedAt(t0, touchX, touchY, pow)
      ensures IsPow(pow) ==> WithinResistance(t0)
      ensures PinchedTo(t0, distance, old(scale), pow)
      ensures dragging == (old(dragging) || Pinches(t0, distance))
      // the record is locked on the deltas and sampled at the placed offsets
      ensures t' == Sampled(Locked(t, deltaX, deltaY), horizontalOffset, verticalOffset, timeStamp)
    {
      t' := ApplyScrollLock(t, deltaX, deltaY);
      Pinch(t0, distance, pow);
      PlaceContent(t0, touchX, touchY, pow);
      t' := SampleVelocity(t', horizontalOffset, verticalOffset, timeStamp);
    }

    /** The scale after the pinch part of `updateTouchScroll`: beyond the
        scale tolerance the resisted pinched scale, and the gesture is a
        drag; otherwise the scale it had. */
    predicate PinchedTo(t: TouchSession, distance: real, scale0: real, pow: Pow)
      reads this`scale, this`dragging
    {
      if Pinches(t, distance) then scale == PinchedScale(t, distance, pow) && dragging
      else scale == scale0
    }

    /** The pinch: a change of distance beyond the tolerance sets the
        resisted scale and makes the gesture a drag. */
    method Pinch(t: TouchSession, distance: real, pow: Pow)
      modifies this`scale, this`dragging
      ensures PinchedTo(t, distance, old(scale), pow)
      ensures dragging == (old(dragging) || Pinches(t, distance))
    {
      if t.canScale {
        var dd := distance - t.startDistance;
        if Abs(dd) > t.scaleTolerance {
          dragging := true;
          scale := PinchedScale(t, distance, pow);
        }
      }
    }

    /** The offsets that keep the content point first touched under the
        touch at the current scale, each resisted against [0, maximum]. */
    predicate PlacedAt(t: TouchSession, touchX: real, touchY: real, pow: Pow)
      reads this`scale, this`horizontalOffset, this`verticalOffset
    {
      && horizontalOffset == PlacedOffset(t.startTouchOffsetInContent.x, touchX - t.globalFrame.x, scale,
                                          t.contentSize.width, t.containerSize.width, pow)
      && verticalOffset == PlacedOffset(t.startTouchOffsetInContent.y, touchY - t.globalFrame.y, scale,
                                        t.contentSize.height, t.containerSize.height, pow)
    }

    /** Both offsets lie within the resistance band around the scroll range. */
    predicate WithinResistance(t: TouchSession)
      reads this`scale, this`horizontalOffset, this`verticalOffset
    {
      && -ResistanceAsymptote < horizontalOffset
      && horizontalOffset <= OverflowExtent(t.contentSize.width, scale, t.containerSize.width) + ResistanceAsymptote
      && -ResistanceAsymptote < verticalOffset
      && verticalOffset <= OverflowExtent(t.contentSize.height, scale, t.containerSize.height) + ResistanceAsymptote
    }

    /** Placing the content under the touch. */
    method PlaceContent(t: TouchSession, touchX: real, touchY: real, pow: Pow)
      modifies this`horizontalOffset, this`verticalOffset
      ensures PlacedAt(t, touchX, touchY, pow)
      ensures IsPow(pow) ==> WithinResistance(t)
    {
      var touchXInFrame := touchX - t.globalFrame.x;
      var touchYInFrame := touchY - t.globalFrame.y;
      verticalOffset := PlacedOffset(t.startTouchOffsetInContent.y, touchYInFrame, scale,
                                     t.contentSize.height, t.containerSize.height, pow);
      horizontalOffset := PlacedOffset(t.startTouchOffsetInContent.x, touchXInFrame, scale,
                                       t.contentSize.width, t.containerSize.width, pow);
      if IsPow(pow) {
        PlacedOffsetBounds(t.startTouchOffsetInContent.x, touchXInFrame, scale,
                           t.contentSize.width, t.containerSize.width, pow);
        PlacedOffsetBounds(t.startTouchOffsetInContent.y, touchYInFrame, scale,
                           t.contentSize.height, t.containerSize.height, pow);
      }
    }

    /** `touchEnd`: with touches left, tracking restarts from them; after a
        drag the deceleration starts at `now`; otherwise the touch goes to
        the view under it. The view's own `dragging` flag is left set after
        a drag (the source clears a `dragging` entry of the session record
        instead). */
    method TouchEnd(g: Geometry, sample: TouchSample, globalFrame: Rect, now: real, pow: Pow)
      returns (outcome: TouchEndOutcome)
      requires Valid()
      requires sample.touchCount > 0 ==> scale != 0.0 || (touch.Some? && touch.value.timeout)
      modifies this`scale, this`horizontalOffset, this`verticalOffset, this`touch, this`tracking, this`dragging
      ensures Valid()
      ensures outcome == if sample.touchCount > 0 then Retracked
                         else if old(dragging) then Decelerating
                         else TapForwarded
      // touches left: tracking restarts as in `beginTouchTracking`
      ensures outcome == Retracked ==>
                && tracking && !dragging
                && (old(touch.Some? && touch.value.timeout) ==>
                      && scale == ClampScale(old(scale), minimumScale, maximumScale)
                      && verticalOffset == ClampOffset(old(verticalOffset), MaximumVerticalScrollOffset(g))
                      && horizontalOffset == ClampOffset(old(horizontalOffset), MaximumHorizontalScrollOffset(g)))
                && (!old(touch.Some? && touch.value.timeout) ==>
                      scale == old(scale) && verticalOffset == old(verticalOffset) &&
                      horizontalOffset == old(horizontalOffset))
                && touch == Some(StartSession(sample, old(horizontalOffset), old(verticalOffset), scale,
                                              g.ContentSize(), g.container, canScale,
                                              minimumScale, maximumScale, globalFrame))
      // after a drag: the deceleration is seeded at ten times the sampled
      // velocity, from the end time of the touch, and its first step runs
      ensures outcome == Decelerating ==>
                && tracking && dragging
                && horizontalOffset == old(horizontalOffset) + old(touch.value.scrollVelocity.x) * 10.0
                && verticalOffset == old(verticalOffset) + old(touch.value.scrollVelocity.y) * 10.0
                && SteppedFrom(Seeded(old(touch.value).(lastEventTime := sample.timeStamp)),
                               old(scale), old(horizontalOffset), old(verticalOffset), now, pow, !touch.value.timeout)
      ensures outcome == TapForwarded ==>
                touch == old(touch) && tracking == old(tracking) && dragging == old(dragging) &&
                scale == old(scale) && horizontalOffset == old(horizontalOffset) && verticalOffset == old(verticalOffset)
    {
      if sample.touchCount > 0 {
        BeginTouchTracking(g, sample, globalFrame);
        outcome := Retracked;
      } else if dragging {
        touch := Some(touch.value.(lastEventTime := sample.timeStamp));
        var _ := StartDecelerationAnimation(now, pow);
        outcome := Decelerating;
      } else {
        outcome := TapForwarded;
      }
    }

    /** `touchEnd` with a finished tap ending the gesture, as `touchCancelled`
        does, so that the next `touchStart` schedules a fresh capture. */
    method TouchEndReleasing(g: Geometry, sample: TouchSample, globalFrame: Rect, now: real, pow: Pow)
      returns (outcome: TouchEndOutcome)
      requires Valid()
      requires sample.touchCount > 0 ==> scale != 0.0 || (touch.Some? && touch.value.timeout)
      modifies this`scale, this`horizontalOffset, this`verticalOffset, this`touch, this`tracking, this`dragging
      ensures Valid()
      ensures outcome == if sample.touchCount > 0 then Retracked
                         else if old(dragging) then Decelerating
                         else TapForwarded
      // a finished tap is no longer tracked
      ensures tracking <==> outcome != TapForwarded
      ensures outcome == Retracked ==>
                && !dragging
                && (old(touch.Some? && touch.value.timeout) ==>
                      && scale == ClampScale(old(scale), minimumScale, maximumScale)
                      && verticalOffset == ClampOffset(old(verticalOffset), MaximumVerticalScrollOffset(g))
                      && horizontalOffset == ClampOffset(old(horizontalOffset), MaximumHorizontalScrollOffset(g)))
                && (!old(touch.Some? && touch.value.timeout) ==>
                      scale == old(scale) && verticalOffset == old(verticalOffset) &&
                      horizontalOffset == old(horizontalOffset))
                && touch == Some(StartSession(sample, old(horizontalOffset), old(verticalOffset), scale,
                                              g.ContentSize(), g.container, canScale,
                                              minimumScale, maximumScale, globalFrame))
      ensures outcome == Decelerating ==>
                && dragging
                && horizontalOffset == old(horizontalOffset) + old(touch.value.scrollVelocity.x) * 10.0
                && verticalOffset == old(verticalOffset) + old(touch.value.scrollVelocity.y) * 10.0
                && SteppedFrom(Seeded(old(touch.value).(lastEventTime := sample.timeStamp)),
                               old(scale), old(horizontalOffset), old(verticalOffset), now, pow, !touch.value.timeout)
      ensures outcome == TapForwarded ==>
                touch.None? && !dragging &&
                scale == old(scale) && horizontalOffset == old(horizontalOffset) && verticalOffset == old(verticalOffset)
    {
      outcome := TouchEnd(g, sample, globalFrame, now, pow);
      if outcome == TapForwarded {
        TouchCancelled();
      }
    }

    /** `touchCancelled`: the gesture is forgotten. */
    method TouchCancelled()
      requires Valid()
      modifies this`tracking, this`dragging, this`touch
      ensures Valid()
      ensures !tracking && !dragging && touch.None?
    {
      tracking := false;
      dragging := false;
      touch := None;
    }

    // ------------------------------------------------------------------
    // Deceleration

    /** `startDecelerationAnimation`: the deceleration starts at ten times
        the last sampled velocity, and its first step runs at once. */
    method StartDecelerationAnimation(now: real, pow: Pow) returns (stopped: bool)
      requires Valid() && touch.Some?
      modifies this`scale, this`horizontalOffset, this`verticalOffset, this`touch
      ensures Valid() && touch.Some? && touch.value.decelerationVelocity.Some?
      // the first step moves the content by ten times the sampled velocity
      ensures horizontalOffset == old(horizontalOffset) + old(touch.value.scrollVelocity.x) * 10.0
      ensures verticalOffset == old(verticalOffset) + old(touch.value.scrollVelocity.y) * 10.0
      ensures stopped <==> !touch.value.timeout
      // ...and leaves everything as a deceleration step from the seeded record does
      ensures SteppedFrom(Seeded(old(touch.value)), old(scale), old(horizontalOffset), old(verticalOffset),
                          now, pow, stopped)
    {
      var t := touch.value;
      touch := Some(t.(decelerationVelocity := Some(Vec(t.scrollVelocity.x * 10.0, t.scrollVelocity.y * 10.0))));
      stopped := DecelerateAnimation(now, pow);
    }

    /** The state one deceleration step leaves, from the session record
        `t0`, the scale and the offsets it started with: the offsets moved
        by the velocity, the scale sprung back toward its range, the
        velocity decayed and bounced, the timer pending exactly when the
        step did not stop, and nothing else in the record changed. */
    predicate SteppedFrom(t0: TouchSession, scale0: real, x0: real, y0: real, now: real, pow: Pow, stopped: bool)
      requires t0.decelerationVelocity.Some?
      reads this`scale, this`horizontalOffset, this`verticalOffset, this`touch
    {
      && touch.Some? && touch.value.decelerationVelocity.Some?
      && horizontalOffset == x0 + t0.decelerationVelocity.value.x
      && verticalOffset == y0 + t0.decelerationVelocity.value.y
      && scale == scale0 + ScaleSpring(scale0, t0.minimumScale, t0.maximumScale)
      && touch.value.decelerationVelocity.value ==
           DeceleratedVelocity(t0, now, Vec(horizontalOffset, verticalOffset), scale0, pow)
      && (stopped <==> && Abs(touch.value.decelerationVelocity.value.x) < StopSpeed
                       && Abs(touch.value.decelerationVelocity.value.y) < StopSpeed
                       && Abs(scale - scale0) < StopSpeed)
      && touch.value == t0.(decelerationVelocity := touch.value.decelerationVelocity,
                            timeout := !stopped,
                            lastEventTime := if stopped then t0.lastEventTime else now)
    }

    /** One `decelerateAnimation` step at time `now`: the raw offsets move by
        the velocity; a scale outside its range springs back; the velocity
        decays by `0.95^(t/10)` for the `t` ms since the last step (at least
        1) and is bounced against the scroll range at the old scale. The
        animation stops when both velocities and the scale correction are
        below 0.01; it does not write the clamped setters then. Otherwise
        the next step is pending (`timeout`). */
    method DecelerateAnimation(now: real, pow: Pow) returns (stopped: bool)
      requires Valid() && touch.Some? && touch.value.decelerationVelocity.Some?
      modifies this`scale, this`horizontalOffset, this`verticalOffset, this`touch
      ensures Valid() && touch.Some? && touch.value.decelerationVelocity.Some?
      // the offsets advance by the velocity
      ensures horizontalOffset == old(horizontalOffset) + old(touch.value.decelerationVelocity.value.x)
      ensures verticalOffset == old(verticalOffset) + old(touch.value.decelerationVelocity.value.y)
      // the scale only moves when it is out of range, and then toward the range
      ensures var t0 := old(touch.value);
              scale == old(scale) + ScaleSpring(old(scale), t0.minimumScale, t0.maximumScale)
      ensures var t0 := old(touch.value);
              t0.minimumScale <= old(scale) <= t0.maximumScale ==> scale == old(scale)
      // the new velocity: decayed, then bounced against the range at the old scale
      ensures touch.value.decelerationVelocity.value ==
                DeceleratedVelocity(old(touch.value), now, Vec(horizontalOffset, verticalOffset), old(scale), pow)
      // it stops exactly when everything has (nearly) come to rest
      ensures var v := touch.value.decelerationVelocity.value;
              stopped <==> Abs(v.x) < StopSpeed && Abs(v.y) < StopSpeed && Abs(scale - old(scale)) < StopSpeed
      ensures stopped ==> !touch.value.timeout && touch.value.lastEventTime == old(touch.value.lastEventTime)
      ensures !stopped ==> touch.value.timeout && touch.value.lastEventTime == now
      ensures touch.value == old(touch.value).(decelerationVelocity := touch.value.decelerationVelocity,
                                               timeout := touch.value.timeout,
                                               lastEventTime := touch.value.lastEventTime)
      ensures SteppedFrom(old(touch.value), old(scale), old(horizontalOffset), old(verticalOffset), now, pow, stopped)
    {
      var t := touch.value;
      var s := scale;
      var newX := horizontalOffset + t.decelerationVelocity.value.x;
      var newY := verticalOffset + t.decelerationVelocity.value.y;
      horizontalOffset := newX;
      verticalOffset := newY;

      var sv := ScaleSpring(s, t.minimumScale, t.maximumScale);
      scale := s + sv;

      var v := DeceleratedVelocity(t, now, Vec(newX, newY), s, pow);
      var vx, vy := v.x, v.y;
      t := t.(decelerationVelocity := Some(v));

      if Abs(vy) < StopSpeed && Abs(vx) < StopSpeed && Abs(sv) < StopSpeed {
        t := t.(timeout := false);
        touch := Some(t);
        return true;
      }
      t := t.(lastEventTime := now);
      t := t.(timeout := true);
      touch := Some(t);
      stopped := false;
    }

    // ------------------------------------------------------------------
    // Reacting to a new content size

    /** `contentViewFrameDidChange`: autohiding scrollers show exactly when
        the content is wider (taller) than the view; each scroller is given
        its maximum; an autohiding axis whose scroller is hidden goes back
        to 0; and an offset left beyond its new maximum is pulled back. */
    method ContentViewFrameDidChange(g: Geometry) returns (horizontalMaximum: Option<real>, verticalMaximum: Option<real>)
      modifies this`isHorizontalScrollerVisible, this`isVerticalScrollerVisible,
               this`horizontalOffset, this`verticalOffset
      ensures isHorizontalScrollerVisible ==
                if hasHorizontalScroller && horizontalScrollerView && autohidesHorizontalScroller
                then g.contentFrame.width > g.frame.width else old(isHorizontalScrollerVisible)
      ensures isVerticalScrollerVisible ==
                if hasVerticalScroller && verticalScrollerView && autohidesVerticalScroller
                then g.contentFrame.height > g.frame.height else old(isVerticalScrollerVisible)
      ensures horizontalMaximum ==
                if hasHorizontalScroller && horizontalScrollerView then Some(g.contentFrame.width - g.frame.width) else None
      ensures verticalMaximum ==
                if hasVerticalScroller && verticalScrollerView
                then Some(g.contentFrame.height - verticalScrollerBottom - g.frame.height) else None
      // no offset is left beyond its maximum
      ensures horizontalOffset <= MaximumHorizontalScrollOffset(g)
      ensures verticalOffset <= MaximumVerticalScrollOffset(g)
      // a hidden autohiding scroller leaves its axis at 0
      ensures !isHorizontalScrollerVisible && autohidesHorizontalScroller ==> horizontalOffset == 0.0
      ensures !isVerticalScrollerVisible && autohidesVerticalScroller ==> verticalOffset == 0.0
      // an offset within its range stays where it is
      ensures 0.0 <= old(horizontalOffset) <= MaximumHorizontalScrollOffset(g) &&
              !(!isHorizontalScrollerVisible && autohidesHorizontalScroller) ==>
                horizontalOffset == old(horizontalOffset)
      ensures 0.0 <= old(verticalOffset) <= MaximumVerticalScrollOffset(g) &&
              !(!isVerticalScrollerVisible && autohidesVerticalScroller) ==>
                verticalOffset == old(verticalOffset)
      // the new offsets: a hidden autohiding axis reset to 0, then an offset
      // beyond its maximum put at the maximum and the other axis re-clamped
      ensures var h := if !isHorizontalScrollerVisible && autohidesHorizontalScroller then 0.0 else old(horizontalOffset);
              var v := if !isVerticalScrollerVisible && autohidesVerticalScroller then 0.0 else old(verticalOffset);
              && horizontalOffset ==
                   (if h > MaximumHorizontalScrollOffset(g) then MaximumHorizontalScrollOffset(g)
                    else if v > MaximumVerticalScrollOffset(g) then ClampOffset(h, MaximumHorizontalScrollOffset(g))
                    else h)
              && verticalOffset ==
                   (if v > MaximumVerticalScrollOffset(g) then MaximumVerticalScrollOffset(g)
                    else if h > MaximumHorizontalScrollOffset(g) then ClampOffset(v, MaximumVerticalScrollOffset(g))
                    else v)
    {
      horizontalMaximum, verticalMaximum := ShowScrollers(g);
      ResetHiddenAxes(g);
      PullBackOffsets(g);
    }

    /** The first part of `contentViewFrameDidChange`: an autohiding
        scroller shows exactly when the content overflows the view on its
        axis; each existing scroller is given its maximum (the vertical one
        less the space kept below it). */
    method ShowScrollers(g: Geometry) returns (horizontalMaximum: Option<real>, verticalMaximum: Option<real>)
      modifies this`isHorizontalScrollerVisible, this`isVerticalScrollerVisible
      ensures isHorizontalScrollerVisible ==
                if hasHorizontalScroller && horizontalScrollerView && autohidesHorizontalScroller
                then g.contentFrame.width > g.frame.width else old(isHorizontalScrollerVisible)
      ensures isVerticalScrollerVisible ==
                if hasVerticalScroller && verticalScrollerView && autohidesVerticalScroller
                then g.contentFrame.height > g.frame.height else old(isVerticalScrollerVisible)
      ensures horizontalMaximum ==
                if hasHorizontalScroller && horizontalScrollerView then Some(g.contentFrame.width - g.frame.width) else None
      ensures verticalMaximum ==
                if hasVerticalScroller && verticalScrollerView
                then Some(g.contentFrame.height - verticalScrollerBottom - g.frame.height) else None
    {
      var width := g.contentFrame.width;
      var height := g.contentFrame.height;
      var dim := g.frame;

      horizontalMaximum := None;
      if hasHorizontalScroller && horizontalScrollerView {
        if autohidesHorizontalScroller {
          isHorizontalScrollerVisible := width > dim.width;
        }
        horizontalMaximum := Some(width - dim.width);
      }
      verticalMaximum := None;
      if hasVerticalScroller && verticalScrollerView {
        if autohidesVerticalScroller {
          isVerticalScrollerVisible := height > dim.height;
        }
        height := height - verticalScrollerBottom;
        verticalMaximum := Some(height - dim.height);
      }
    }

    /** The second part: an autohiding axis whose scroller is hidden goes
        back to 0 through the clamped setter. */
    method ResetHiddenAxes(g: Geometry)
      modifies this`horizontalOffset, this`verticalOffset
      ensures horizontalOffset ==
                if !isHorizontalScrollerVisible && autohidesHorizontalScroller then 0.0 else old(horizontalOffset)
      ensures verticalOffset ==
                if !isVerticalScrollerVisible && autohidesVerticalScroller then 0.0 else old(verticalOffset)
    {
      if !isVerticalScrollerVisible && verticalOffset != 0.0 && autohidesVerticalScroller {
        SetVerticalScrollOffset(g, 0.0);
      }
      if !isHorizontalScrollerVisible && horizontalOffset != 0.0 && autohidesHorizontalScroller {
        SetHorizontalScrollOffset(g, 0.0);
      }
    }

    /** The last part: an offset beyond its maximum forces the dimensions
        to be recalculated, which leaves each axis within its range. */
    method PullBackOffsets(g: Geometry)
      modifies this`horizontalOffset, this`verticalOffset
      ensures horizontalOffset <= MaximumHorizontalScrollOffset(g)
      ensures verticalOffset <= MaximumVerticalScrollOffset(g)
      ensures 0.0 <= old(horizontalOffset) <= MaximumHorizontalScrollOffset(g) ==> horizontalOffset == old(horizontalOffset)
      ensures 0.0 <= old(verticalOffset) <= MaximumVerticalScrollOffset(g) ==> verticalOffset == old(verticalOffset)
      // an offset beyond its maximum is put at the maximum; the other axis
      // then goes back, clamped, to where it was
      ensures horizontalOffset ==
                if old(horizontalOffset) > MaximumHorizontalScrollOffset(g) then MaximumHorizontalScrollOffset(g)
                else if old(verticalOffset) > MaximumVerticalScrollOffset(g)
                then ClampOffset(old(horizontalOffset), MaximumHorizontalScrollOffset(g))
                else old(horizontalOffset)
      ensures verticalOffset ==
                if old(verticalOffset) > MaximumVerticalScrollOffset(g) then MaximumVerticalScrollOffset(g)
                else if old(horizontalOffset) > MaximumHorizontalScrollOffset(g)
                then ClampOffset(old(verticalOffset), MaximumVerticalScrollOffset(g))
                else old(verticalOffset)
    {
      var mxVOffset, vOffset := MaximumVerticalScrollOffset(g), verticalOffset;
      var mxHOffset, hOffset := MaximumHorizontalScrollOffset(g), horizontalOffset;
      var forceHeight := mxVOffset < vOffset;
      var forceWidth := mxHOffset < hOffset;
      if forceHeight || forceWidth {
        ForceDimensionsRecalculation(g, forceWidth, forceHeight, vOffset, hOffset);
      }
    }

    /** `forceDimensionsRecalculation`: scroll to the origin, then to the
        maximum on each forced axis and back to the given offset on the
        other. */
    method ForceDimensionsRecalculation(g: Geometry, forceWidth: bool, forceHeight: bool,
                                        vOffset: real, hOffset: real)
      modifies this`horizontalOffset, this`verticalOffset
      ensures horizontalOffset ==
                if forceWidth then MaximumHorizontalScrollOffset(g)
                else if forceHeight then ClampOffset(hOffset, MaximumHorizontalScrollOffset(g))
                else 0.0
      ensures verticalOffset ==
                if forceHeight then MaximumVerticalScrollOffset(g)
                else if forceWidth then ClampOffset(vOffset, MaximumVerticalScrollOffset(g))
                else 0.0
    {
      var oldScrollHOffset := hOffset;
      var oldScrollVOffset := vOffset;
      ScrollTo(g, Some(0.0), Some(0.0));
      if forceWidth && forceHeight {
        ScrollTo(g, Some(MaximumHorizontalScrollOffset(g)), Some(MaximumVerticalScrollOffset(g)));
      }
      if forceWidth && !forceHeight {
        ScrollTo(g, Some(MaximumHorizontalScrollOffset(g)), Some(oldScrollVOffset));
      }
      if !forceWidth && forceHeight {
        ScrollTo(g, Some(oldScrollHOffset), Some(MaximumVerticalScrollOffset(g)));
      }
    }
  }

  // ------------------------------------------------------------------
  // The horizontal line helpers, as written and as documented, on one view:
  // 100 wide over content 1000 wide, scrolled to 100

  /** The view of the line-helper scenarios. */
  function LineScenario(): Geometry {
    Geometry(Size(1000.0, 100.0), Size(0.0, 0.0), Size(100.0, 100.0), Size(100.0, 100.0))
  }

  /** `scrollRightLine()` as written lands on 20, the line width, instead
      of one line right of 100. */
  method RightLineFromMiddle() returns (before: real, after: real)
    ensures before == 100.0 && after == 20.0
  {
    var view := new ScrollView();
    var g := LineScenario();
    view.ScrollTo(g, Some(100.0), None);
    before := view.horizontalOffset;
    view.ScrollRightLine(g, None);
    after := view.horizontalOffset;
  }

  /** `scrollLeftLine()` as written goes all the way back to 0. */
  method LeftLineFromMiddle() returns (before: real, after: real)
    ensures before == 100.0 && after == 0.0
  {
    var view := new ScrollView();
    var g := LineScenario();
    view.ScrollTo(g, Some(100.0), None);
    before := view.horizontalOffset;
    view.ScrollLeftLine(g, None);
    after := view.horizontalOffset;
  }

  /** Scrolling by a line, as documented, moves one line right... */
  method RightLineByFromMiddle() returns (before: real, after: real)
    ensures before == 100.0 && after == 120.0
  {
    var view := new ScrollView();
    var g := LineScenario();
    view.ScrollTo(g, Some(100.0), None);
    before := view.horizontalOffset;
    view.ScrollRightLineBy(g, None);
    after := view.horizontalOffset;
  }

  /** ...and one line left. */
  method LeftLineByFromMiddle() returns (before: real, after: real)
    ensures before == 100.0 && after == 80.0
  {
    var view := new ScrollView();
    var g := LineScenario();
    view.ScrollTo(g, Some(100.0), None);
    before := view.horizontalOffset;
    view.ScrollLeftLineBy(g, None);
    after := view.horizontalOffset;
  }

  // ------------------------------------------------------------------
  // The momentum drain, as written and as intended, on a view 100 by 100
  // over content 1000 by 1000, after one wheel event of (10, 100)

  /** The view of the wheel scenarios. */
  function WheelScenario(): Geometry {
    Geometry(Size(1000.0, 1000.0), Size(0.0, 0.0), Size(100.0, 100.0), Size(100.0, 100.0))
  }

  /** As written, the second drain of the momentum train applies the
      horizontal delta of 10 a second time. */
  method WheelMomentumRepeatsHorizontal() returns (first: real, second: real)
    ensures first == 10.0 && second == 20.0
  {
    var view := new ScrollView();
    var g := WheelScenario();
    var handled, scheduled := view.MouseWheel(10, 100);
    var again := view.DrainWheel(g, true);
    first := view.horizontalOffset;
    again := view.DrainWheel(g, true);
    second := view.horizontalOffset;
  }

  /** Spending the horizontal delta in the drain that applies it moves the
      view by 10 once. */
  method WheelMomentumAppliesHorizontalOnce() returns (first: real, second: real)
    ensures first == 10.0 && second == 10.0
  {
    var view := new ScrollView();
    var g := WheelScenario();
    var handled, scheduled := view.MouseWheel(10, 100);
    var again := view.DrainWheelOnce(g, true);
    first := view.horizontalOffset;
    again := view.DrainWheelOnce(g, true);
    second := view.horizontalOffset;
  }

  // Two taps in a row on a view 100 by 100 over content 1000 by 1000

  /** A touch at (10, 10) and a gesture frame at the origin. */
  function TapAt(touchCount: nat, timeStamp: real): TouchSample {
    TouchSample(10.0, 10.0, 0.0, touchCount, timeStamp)
  }

  /** As written, the second tap schedules no capture, and the capture still
      pending from the first tap fires during the second one. */
  method SecondTapSchedulesNoCapture() returns (first: Option<nat>, second: Option<nat>, stale: bool)
    ensures first == Some(1) && second == None && stale
  {
    var view := new ScrollView();
    var g := WheelScenario();
    var frame := Rect(0.0, 0.0, 100.0, 100.0);
    first := view.TouchStart(g, TapAt(1, 0.0), frame);
    var ended := view.TouchEnd(g, TapAt(0, 50.0), frame, 50.0, (b: real, e: real) => 1.0);
    second := view.TouchStart(g, TapAt(1, 100.0), frame);
    stale := view.BeginTouchesInContent(1);
  }

  /** Ending the gesture with the tap gives the second tap its own capture,
      and the first tap's capture no longer fires. */
  method SecondTapSchedulesCapture() returns (first: Option<nat>, second: Option<nat>, stale: bool)
    ensures first == Some(1) && second == Some(2) && !stale
  {
    var view := new ScrollView();
    var g := WheelScenario();
    var frame := Rect(0.0, 0.0, 100.0, 100.0);
    first := view.TouchStart(g, TapAt(1, 0.0), frame);
    var ended := view.TouchEndReleasing(g, TapAt(0, 50.0), frame, 50.0, (b: real, e: real) => 1.0);
    second := view.TouchStart(g, TapAt(1, 100.0), frame);
    stale := view.BeginTouchesInContent(1);
  }

  /** The record `startDecelerationAnimation` starts from: the deceleration
      velocity is ten times the last sampled velocity. */
  function Seeded(t: TouchSession): TouchSession {
    t.(decelerationVelocity := Some(Vec(t.scrollVelocity.x * 10.0, t.scrollVelocity.y * 10.0)))
  }

  /** Where a touch at `touch` (global coordinates) lies in the content:
      `(offset + (touch - frame origin)) / scale`. */
  function PositionInContent(offset: real, touch: real, origin: real, scale: real): real
    requires scale != 0.0
  {
    (offset + (touch - origin)) / scale
  }

  /** After disambiguation, `updateTouchScroll` goes on to move the content
      only when some axis scrolls or the gesture can scale. */
  predicate Moves(t: TouchSession) {
    t.scrolling.x || t.scrolling.y || t.canScale
  }

  /** The scale correction of a deceleration step, `bouncyBounce(0, scale, ...)`
      with the session's constants. */
  function ScaleSpring(scale: real, minimumScale: real, maximumScale: real): (r: real)
    ensures minimumScale <= scale <= maximumScale ==> r == 0.0
  {
    BouncyBounce(0.0, scale, minimumScale, maximumScale, DecelerationFromEdge, AccelerationToEdge)
  }

  /** Two session records of one gesture: the fields the pinch and the
      placement of the content read agree. */
  predicate SameGesture(t: TouchSession, t': TouchSession) {
    && t.canScale == t'.canScale
    && t.startDistance == t'.startDistance
    && t.scaleTolerance == t'.scaleTolerance
    && t.startScale == t'.startScale
    && t.minimumScale == t'.minimumScale
    && t.maximumScale == t'.maximumScale
    && t.resistanceCoefficient == t'.resistanceCoefficient
    && t.resistanceAsymptote == t'.resistanceAsymptote
    && t.startTouchOffsetInContent == t'.startTouchOffsetInContent
    && t.globalFrame == t'.globalFrame
    && t.contentSize == t'.contentSize
    && t.containerSize == t'.containerSize
  }

  /** Whether the pinch part of `updateTouchScroll` changes the scale: the
      gesture can scale and the distance moved beyond the scale tolerance. */
  predicate Pinches(t: TouchSession, distance: real) {
    t.canScale && Abs(distance - t.startDistance) > t.scaleTolerance
  }

  /** The pinched scale: the start scale changed by 1% per pixel the touches
      moved apart, resisted against the scale range. */
  function PinchedScale(t: TouchSession, distance: real, pow: Pow): real {
    EdgeResistance(t.startScale * (1.0 + (distance - t.startDistance) / 100.0),
                   t.minimumScale, t.maximumScale, t.resistanceCoefficient, t.resistanceAsymptote, pow)
  }

  /** Within the scale range a pinch is followed exactly; past it the pinch
      is resisted, and the scale stays within the asymptote of the range,
      an asymptote of 320 that lets it reach 0 and below. */
  lemma PinchedScaleBounds(t: TouchSession, distance: real, pow: Pow)
    requires IsPow(pow) && t.Valid() && t.minimumScale <= t.maximumScale
    ensures var pinched := t.startScale * (1.0 + (distance - t.startDistance) / 100.0);
            t.minimumScale <= pinched <= t.maximumScale ==> PinchedScale(t, distance, pow) == pinched
    ensures t.minimumScale - ResistanceAsymptote < PinchedScale(t, distance, pow) <= t.maximumScale + ResistanceAsymptote
  {
    EdgeResistanceBounds(t.startScale * (1.0 + (distance - t.startDistance) / 100.0), t.minimumScale, t.maximumScale,
                         t.resistanceCoefficient, t.resistanceAsymptote, pow);
  }

  /** The offset on one axis that puts the content point first touched
      (`startInContent`, unscaled) back under the touch at `touchInFrame`,
      resisted against [0, maximum offset at `scale`] with the session's
      constants. */
  function PlacedOffset(startInContent: real, touchInFrame: real, scale: real,
                        contentExtent: real, containerExtent: real, pow: Pow): real
  {
    EdgeResistance(startInContent * scale - touchInFrame, 0.0, OverflowExtent(contentExtent, scale, containerExtent),
                   ResistanceCoefficient, ResistanceAsymptote, pow)
  }

  /** Within the scroll range the placement is exact: at the placed offset
      the touch lies over the content point it first touched. */
  lemma PlacedOffsetUnderTouch(startInContent: real, touchInFrame: real, scale: real,
                               contentExtent: real, containerExtent: real, pow: Pow)
    requires scale != 0.0
    requires 0.0 <= startInContent * scale - touchInFrame <= OverflowExtent(contentExtent, scale, containerExtent)
    ensures PositionInContent(PlacedOffset(startInContent, touchInFrame, scale, contentExtent, containerExtent, pow),
                              touchInFrame, 0.0, scale) == startInContent
  {
    var r := PlacedOffset(startInContent, touchInFrame, scale, contentExtent, containerExtent, pow);
    assert r + touchInFrame == startInContent * scale;
  }

  /** With any admissible `pow`, the placed offset overshoots the scroll
      range by less than the asymptote. */
  lemma PlacedOffsetBounds(startInContent: real, touchInFrame: real, scale: real,
                           contentExtent: real, containerExtent: real, pow: Pow)
    requires IsPow(pow)
    ensures var r := PlacedOffset(startInContent, touchInFrame, scale, contentExtent, containerExtent, pow);
            -ResistanceAsymptote < r <= OverflowExtent(contentExtent, scale, containerExtent) + ResistanceAsymptote
  {
    ResistedOffsetBounds(startInContent * scale - touchInFrame, OverflowExtent(contentExtent, scale, containerExtent), pow);
  }

  /** The velocity decay of a deceleration step `elapsed` ms after the
      previous one (at least 1 ms): `0.95^(elapsed/10)`. */
  function VelocityDecayFactor(elapsed: real, pow: Pow): real {
    pow(VelocityDecay, Max(elapsed, 1.0) / 10.0)
  }

  /** With any admissible `pow` a step's decay factor lies in (0, 1), a gap
      under 1 ms counts as 1 ms, and a longer gap decays more. */
  lemma VelocityDecayFactorBounds(elapsed: real, elapsed': real, pow: Pow)
    requires IsPow(pow)
    ensures 0.0 < VelocityDecayFactor(elapsed, pow) < 1.0
    ensures elapsed <= 1.0 ==> VelocityDecayFactor(elapsed, pow) == VelocityDecayFactor(1.0, pow)
    ensures 1.0 <= elapsed < elapsed' ==> VelocityDecayFactor(elapsed', pow) < VelocityDecayFactor(elapsed, pow)
  {
    PowBelowOne(pow, VelocityDecay, Max(elapsed, 1.0) / 10.0);
    PowBounded(pow, VelocityDecay, Max(elapsed, 1.0) / 10.0);
    if 1.0 <= elapsed < elapsed' {
      PowDecreasing(pow, VelocityDecay, elapsed / 10.0, elapsed' / 10.0);
    }
  }

  /** The velocity after a deceleration step that moved the content to
      `offset`: decayed for the time since the last step, then bounced
      against [0, maximum offset at `scale`] with the session's constants. */
  function DeceleratedVelocity(t: TouchSession, now: real, offset: Vec, scale: real, pow: Pow): Vec
    requires t.decelerationVelocity.Some?
  {
    var decay := VelocityDecayFactor(now - t.lastEventTime, pow);
    var v := t.decelerationVelocity.value;
    Vec(BouncyBounce(v.x * decay, offset.x, 0.0, OverflowExtent(t.contentSize.width, scale, t.containerSize.width),
                     t.decelerationFromEdge, t.accelerationToEdge),
        BouncyBounce(v.y * decay, offset.y, 0.0, OverflowExtent(t.contentSize.height, scale, t.containerSize.height),
                     t.decelerationFromEdge, t.accelerationToEdge))
  }

  /** Inside the scroll range the deceleration only ever slows the content
      down, keeping each velocity's direction. */
  lemma DeceleratedVelocityInRange(t: TouchSession, now: real, offset: Vec, scale: real, pow: Pow)
    requires IsPow(pow) && t.decelerationVelocity.Some?
    requires 0.0 <= offset.x <= OverflowExtent(t.contentSize.width, scale, t.containerSize.width)
    requires 0.0 <= offset.y <= OverflowExtent(t.contentSize.height, scale, t.containerSize.height)
    ensures var v := t.decelerationVelocity.value;
            var v' := DeceleratedVelocity(t, now, offset, scale, pow);
            && (v.x > 0.0 ==> 0.0 < v'.x < v.x) && (v.x < 0.0 ==> v.x < v'.x < 0.0) && (v.x == 0.0 ==> v'.x == 0.0)
            && (v.y > 0.0 ==> 0.0 < v'.y < v.y) && (v.y < 0.0 ==> v.y < v'.y < 0.0) && (v.y == 0.0 ==> v'.y == 0.0)
  {
    var v := t.decelerationVelocity.value;
    var v' := DeceleratedVelocity(t, now, offset, scale, pow);
    var e := Max(now - t.lastEventTime, 1.0) / 10.0;
    PowBelowOne(pow, VelocityDecay, e);
    PowBounded(pow, VelocityDecay, e);
    var decay := VelocityDecayFactor(now - t.lastEventTime, pow);
    assert 0.0 < decay < 1.0;
    assert v'.x == v.x * decay && v'.y == v.y * decay;
    Decays(v.x, decay, v'.x);
    Decays(v.y, decay, v'.y);
  }

  /** Multiplying by a factor in (0, 1) strictly shrinks a nonzero value
      and keeps its sign. */
  lemma Decays(x: real, q: real, r: real)
    requires 0.0 < q < 1.0 && r == x * q
    ensures x > 0.0 ==> 0.0 < r < x
    ensures x < 0.0 ==> x < r < 0.0
    ensures x == 0.0 ==> r == 0.0
  {
    if x > 0.0 {
      ProductBelow(x, q, r);
      ProductPositive(x, q, r);
    } else if x < 0.0 {
      ProductBelow(-x, q, -r);
      ProductPositive(-x, q, -r);
    }
  }

  /** An offset resisted against [0, maximum] with the session's constants
      overshoots the range by less than the asymptote. */
  lemma ResistedOffsetBounds(offset: real, maximum: real, pow: Pow)
    requires IsPow(pow) && 0.0 <= maximum
    ensures var r := EdgeResistance(offset, 0.0, maximum, ResistanceCoefficient, ResistanceAsymptote, pow);
            -ResistanceAsymptote < r <= maximum + ResistanceAsymptote
  {
    EdgeResistanceBounds(offset, 0.0, maximum, ResistanceCoefficient, ResistanceAsymptote, pow);
  }
}
