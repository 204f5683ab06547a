/** The record SC.ScrollView keeps in `this.touch` while a gesture is
    tracked, and the in-place updates `updateTouchScroll` makes to it: axis
    disambiguation, the scroll lock and velocity sampling. */
module TouchSessions {
  import opened Numeric
  import opened Optional
  import opened Offsets

  // the constants every session record is created with
  const ResistanceCoefficient: real := 0.998
  const ResistanceAsymptote: real := 320.0
  const DecelerationFromEdge: real := 0.05
  const AccelerationToEdge: real := 0.08
  const ScrollTolerance: real := 5.0
  const ScaleTolerance: real := 5.0
  const SecondaryScrollTolerance: real := 20.0
  const ScrollLock: real := 100.0

  /** A pair of per-axis switches (`enableScrolling`, `scrolling`). */
  datatype Flags = Flags(x: bool, y: bool)

  /** What `averagedTouchesForView` reports for the touches on the view
      (their average position, average distance from that position and
      count), with the event's time stamp. */
  datatype TouchSample = TouchSample(x: real, y: real, d: real, touchCount: nat, timeStamp: real)

  /** `this.touch`. The DOM layer and the touch object it also caches are
      not part of the model. */
  datatype TouchSession = TouchSession(
    startTime: real,
    notCalculated: bool,
    enableScrolling: Flags,
    scrolling: Flags,
    lastScrollOffset: Vec,
    startTouchOffset: Vec,
    scrollVelocity: Vec,
    startTouchOffsetInContent: Vec,
    containerSize: Size,
    contentSize: Size,
    startScale: real,
    startDistance: real,
    canScale: bool,
    minimumScale: real,
    maximumScale: real,
    globalFrame: Rect,
    resistanceCoefficient: real,
    resistanceAsymptote: real,
    decelerationFromEdge: real,
    accelerationToEdge: real,
    scrollTolerance: Vec,
    scaleTolerance: real,
    secondaryScrollTolerance: real,
    scrollLock: real,
    lastEventTime: real,
    decelerationVelocity: Option<Vec>,
    timeout: bool)
  {
    /** The constants keep their values; a scrolling axis has widened the
        other axis's tolerance; the scroll lock has only ever disabled an
        axis that is not scrolling while the other one is; and a pending
        deceleration step has a velocity to work with. */
    predicate Valid() {
      && resistanceCoefficient == ResistanceCoefficient
      && resistanceAsymptote == ResistanceAsymptote
      && decelerationFromEdge == DecelerationFromEdge
      && accelerationToEdge == AccelerationToEdge
      && scaleTolerance == ScaleTolerance
      && secondaryScrollTolerance == SecondaryScrollTolerance
      && scrollLock == ScrollLock
      && (scrollTolerance.x == ScrollTolerance || scrollTolerance.x == SecondaryScrollTolerance)
      && (scrollTolerance.y == ScrollTolerance || scrollTolerance.y == SecondaryScrollTolerance)
      && (scrolling.x ==> scrollTolerance.y == SecondaryScrollTolerance)
      && (scrolling.y ==> scrollTolerance.x == SecondaryScrollTolerance)
      && (!enableScrolling.x ==> scrolling.y && !scrolling.x)
      && (!enableScrolling.y ==> scrolling.x && !scrolling.y)
      && (timeout ==> decelerationVelocity.Some?)
    }
  }

  /** The record `beginTouchTracking` stores: the touch's position in
      content coordinates is `(offset + (touch - globalFrame origin)) / scale`. */
  function StartSession(sample: TouchSample, horizontalOffset: real, verticalOffset: real, scale: real,
                        contentSize: Size, containerSize: Size, canScale: bool,
                        minimumScale: real, maximumScale: real, globalFrame: Rect): (t: TouchSession)
    requires scale != 0.0
    ensures t.Valid()
    // the content point under the touch, scaled back, is where the touch is in the frame
    ensures t.startTouchOffsetInContent.x * scale == horizontalOffset + (sample.x - globalFrame.x)
    ensures t.startTouchOffsetInContent.y * scale == verticalOffset + (sample.y - globalFrame.y)
    // a fresh gesture: nothing scrolling yet, both axes enabled, the narrow tolerance on both
    ensures t.scrolling == Flags(false, false) && t.enableScrolling == Flags(true, true)
    ensures t.scrollTolerance == Vec(ScrollTolerance, ScrollTolerance)
    ensures t.notCalculated && !t.timeout && t.decelerationVelocity.None?
    ensures t.scrollVelocity == Vec(0.0, 0.0)
    ensures t.lastScrollOffset == Vec(horizontalOffset, verticalOffset)
    ensures t.startTouchOffset == Vec(sample.x, sample.y)
    ensures t.startTime == t.lastEventTime == sample.timeStamp
    ensures t.startScale == scale && t.startDistance == sample.d
    ensures t.contentSize == contentSize && t.containerSize == containerSize && t.globalFrame == globalFrame
    ensures t.canScale == canScale && t.minimumScale == minimumScale && t.maximumScale == maximumScale
  {
    var positionInContentX := (horizontalOffset + (sample.x - globalFrame.x)) / scale;
    var positionInContentY := (verticalOffset + (sample.y - globalFrame.y)) / scale;
    DivideThenMultiply(horizontalOffset + (sample.x - globalFrame.x), scale);
    DivideThenMultiply(verticalOffset + (sample.y - globalFrame.y), scale);
    TouchSession(
      sample.timeStamp, true,
      Flags(true, true), Flags(false, false),
      Vec(horizontalOffset, verticalOffset), Vec(sample.x, sample.y), Vec(0.0, 0.0),
      Vec(positionInContentX, positionInContentY),
      containerSize, contentSize,
      scale, sample.d, canScale, minimumScale, maximumScale,
      globalFrame,
      ResistanceCoefficient, ResistanceAsymptote, DecelerationFromEdge, AccelerationToEdge,
      Vec(ScrollTolerance, ScrollTolerance), ScaleTolerance, SecondaryScrollTolerance, ScrollLock,
      sample.timeStamp,
      None, false)
  }

  lemma DivideThenMultiply(a: real, s: real)
    requires s != 0.0
    ensures (a / s) * s == a
  {
  }

  /** The horizontal axis starts scrolling in this call. */
  predicate StartsX(t: TouchSession, deltaX: real) {
    !t.scrolling.x && Abs(deltaX) > t.scrollTolerance.x && t.enableScrolling.x
  }

  /** The vertical axis starts scrolling in this call; once the horizontal
      axis has started in the same call, the vertical one needs the
      secondary tolerance. */
  predicate StartsY(t: TouchSession, deltaX: real, deltaY: real) {
    && !t.scrolling.y
    && Abs(deltaY) > (if StartsX(t, deltaX) then t.secondaryScrollTolerance else t.scrollTolerance.y)
    && t.enableScrolling.y
  }

  /** The record after the disambiguation: an axis that starts scrolling
      measures from the current touch and gives the other axis the
      secondary tolerance. */
  function Disambiguated(t: TouchSession, deltaX: real, deltaY: real, touchX: real, touchY: real): TouchSession {
    var startsX := StartsX(t, deltaX);
    var startsY := StartsY(t, deltaX, deltaY);
    t.(scrolling := Flags(t.scrolling.x || startsX, t.scrolling.y || startsY),
       startTouchOffset := Vec(if startsX then touchX else t.startTouchOffset.x,
                               if startsY then touchY else t.startTouchOffset.y),
       scrollTolerance := Vec(if startsY then t.secondaryScrollTolerance else t.scrollTolerance.x,
                              if startsX then t.secondaryScrollTolerance else t.scrollTolerance.y))
  }

  /** The record after the scroll lock: a scrolling axis gives the other
      one the secondary tolerance, and disables it when its signed delta
      passes `scrollLock` while the other axis is not scrolling. */
  function Locked(t: TouchSession, deltaX: real, deltaY: real): TouchSession {
    t.(scrollTolerance := Vec(if t.scrolling.y then t.secondaryScrollTolerance else t.scrollTolerance.x,
                              if t.scrolling.x then t.secondaryScrollTolerance else t.scrollTolerance.y),
       enableScrolling := Flags(t.enableScrolling.x && !(t.scrolling.y && deltaY > t.scrollLock && !t.scrolling.x),
                                t.enableScrolling.y && !(t.scrolling.x && deltaX > t.scrollLock && !t.scrolling.y)))
  }

  /** The record after the velocity sample at `timeStamp` with the content
      at the given offsets. */
  function Sampled(t: TouchSession, horizontalOffset: real, verticalOffset: real, timeStamp: real): TouchSession {
    if timeStamp - t.lastEventTime >= 1.0 || t.notCalculated then
      var elapsed := Max(1.0, timeStamp - t.lastEventTime);
      t.(notCalculated := false,
         scrollVelocity := Vec((horizontalOffset - t.lastScrollOffset.x) / elapsed,
                               (verticalOffset - t.lastScrollOffset.y) / elapsed),
         lastScrollOffset := Vec(horizontalOffset, verticalOffset),
         lastEventTime := timeStamp)
    else t
  }

  /** The axis disambiguation at the head of `updateTouchScroll`: an axis
      starts scrolling when it is enabled and its delta exceeds its
      tolerance; starting it widens the other axis's tolerance, re-bases the
      touch start on that axis and zeroes its delta. */
  method Disambiguate(t: TouchSession, deltaX: real, deltaY: real, touchX: real, touchY: real)
    returns (t': TouchSession, deltaX': real, deltaY': real, engaged: bool)
    // an axis scrolls afterwards iff it already did or it starts now; no flag is ever cleared
    ensures t'.scrolling.x == (t.scrolling.x || StartsX(t, deltaX))
    ensures t'.scrolling.y == (t.scrolling.y || StartsY(t, deltaX, deltaY))
    ensures StartsX(t, deltaX) ==> t.enableScrolling.x && Abs(deltaX) > t.scrollTolerance.x
    ensures t.Valid() && StartsY(t, deltaX, deltaY) ==> t.enableScrolling.y && Abs(deltaY) > t.scrollTolerance.y
    // the caller's `dragging` is raised exactly when an axis starts
    ensures engaged <==> StartsX(t, deltaX) || StartsY(t, deltaX, deltaY)
    // a started axis measures from the current touch, from a zero delta
    ensures deltaX' == (if StartsX(t, deltaX) then 0.0 else deltaX)
    ensures deltaY' == (if StartsY(t, deltaX, deltaY) then 0.0 else deltaY)
    ensures t'.startTouchOffset ==
              Vec(if StartsX(t, deltaX) then touchX else t.startTouchOffset.x,
                  if StartsY(t, deltaX, deltaY) then touchY else t.startTouchOffset.y)
    // a started axis gives the other one the secondary tolerance
    ensures t'.scrollTolerance ==
              Vec(if StartsY(t, deltaX, deltaY) then t.secondaryScrollTolerance else t.scrollTolerance.x,
                  if StartsX(t, deltaX) then t.secondaryScrollTolerance else t.scrollTolerance.y)
    // nothing else in the record changes
    ensures t' == t.(scrolling := t'.scrolling, startTouchOffset := t'.startTouchOffset,
                     scrollTolerance := t'.scrollTolerance)
    ensures t' == Disambiguated(t, deltaX, deltaY, touchX, touchY)
    ensures t.Valid() ==> t'.Valid()
  {
    t' := t;
    deltaX' := deltaX;
    deltaY' := deltaY;
    engaged := false;
    if !t'.scrolling.x && Abs(deltaX') > t'.scrollTolerance.x && t'.enableScrolling.x {
      engaged := true;
      t' := t'.(scrolling := t'.scrolling.(x := true));
      t' := t'.(scrollTolerance := t'.scrollTolerance.(y := t'.secondaryScrollTolerance));
      t' := t'.(startTouchOffset := t'.startTouchOffset.(x := touchX));
      deltaX' := 0.0;
    }
    if !t'.scrolling.y && Abs(deltaY') > t'.scrollTolerance.y && t'.enableScrolling.y {
      engaged := true;
      t' := t'.(scrolling := t'.scrolling.(y := true));
      t' := t'.(scrollTolerance := t'.scrollTolerance.(x := t'.secondaryScrollTolerance));
      t' := t'.(startTouchOffset := t'.startTouchOffset.(y := touchY));
      deltaY' := 0.0;
    }
  }

  /** The scroll lock of `updateTouchScroll`, run once some axis scrolls: a
      scrolling axis keeps the other axis on the secondary tolerance, and a
      delta beyond `scrollLock` on it, while the other axis is not
      scrolling, disables the other axis for the rest of the gesture. The
      comparison is on the signed delta. */
  method ApplyScrollLock(t: TouchSession, deltaX: real, deltaY: real) returns (t': TouchSession)
    ensures t'.scrollTolerance ==
              Vec(if t.scrolling.y then t.secondaryScrollTolerance else t.scrollTolerance.x,
                  if t.scrolling.x then t.secondaryScrollTolerance else t.scrollTolerance.y)
    // an axis is disabled iff it already was or the other axis locks it now
    ensures t'.enableScrolling.y <==>
              t.enableScrolling.y && !(t.scrolling.x && deltaX > t.scrollLock && !t.scrolling.y)
    ensures t'.enableScrolling.x <==>
              t.enableScrolling.x && !(t.scrolling.y && deltaY > t.scrollLock && !t.scrolling.x)
    // the lock never re-enables an axis, and a negative delta never locks
    ensures t.Valid() && deltaX <= 0.0 ==> t'.enableScrolling.y == t.enableScrolling.y
    ensures t.Valid() && deltaY <= 0.0 ==> t'.enableScrolling.x == t.enableScrolling.x
    ensures t' == t.(enableScrolling := t'.enableScrolling, scrollTolerance := t'.scrollTolerance)
    ensures t' == Locked(t, deltaX, deltaY)
    ensures t.Valid() ==> t'.Valid()
  {
    t' := t;
    if t'.scrolling.x {
      t' := t'.(scrollTolerance := t'.scrollTolerance.(y := t'.secondaryScrollTolerance));
      if deltaX > t'.scrollLock && !t'.scrolling.y {
        t' := t'.(enableScrolling := t'.enableScrolling.(y := false));
      }
    }
    if t'.scrolling.y {
      t' := t'.(scrollTolerance := t'.scrollTolerance.(x := t'.secondaryScrollTolerance));
      if deltaY > t'.scrollLock && !t'.scrolling.x {
        t' := t'.(enableScrolling := t'.enableScrolling.(x := false));
      }
    }
  }

  /** The velocity sampling at the end of `updateTouchScroll`: at least a
      millisecond after the last sample (or on the first call) the velocity
      becomes the displacement since the last sample over the elapsed time,
      the elapsed time being taken as at least 1. */
  method SampleVelocity(t: TouchSession, horizontalOffset: real, verticalOffset: real, timeStamp: real)
    returns (t': TouchSession)
    ensures var sampled := timeStamp - t.lastEventTime >= 1.0 || t.notCalculated;
            var elapsed := Max(1.0, timeStamp - t.lastEventTime);
            && (sampled ==>
                  // velocity times elapsed time is the displacement, and never exceeds it
                  && t'.scrollVelocity.x * elapsed == horizontalOffset - t.lastScrollOffset.x
                  && t'.scrollVelocity.y * elapsed == verticalOffset - t.lastScrollOffset.y
                  && Abs(t'.scrollVelocity.x) <= Abs(horizontalOffset - t.lastScrollOffset.x)
                  && Abs(t'.scrollVelocity.y) <= Abs(verticalOffset - t.lastScrollOffset.y)
                  && t' == t.(notCalculated := false, scrollVelocity := t'.scrollVelocity,
                              lastScrollOffset := Vec(horizontalOffset, verticalOffset),
                              lastEventTime := timeStamp))
            && (!sampled ==> t' == t)
    // only the sampling fields change
    ensures t' == t.(notCalculated := t'.notCalculated, scrollVelocity := t'.scrollVelocity,
                     lastScrollOffset := t'.lastScrollOffset, lastEventTime := t'.lastEventTime)
    ensures t' == Sampled(t, horizontalOffset, verticalOffset, timeStamp)
    ensures t.Valid() ==> t'.Valid()
  {
    t' := t;
    if timeStamp - t'.lastEventTime >= 1.0 || t'.notCalculated {
      t' := t'.(notCalculated := false);
      var elapsed := Max(1.0, timeStamp - t'.lastEventTime);
      var vx := (horizontalOffset - t'.lastScrollOffset.x) / elapsed;
      var vy := (verticalOffset - t'.lastScrollOffset.y) / elapsed;
      DivideByElapsed(horizontalOffset - t'.lastScrollOffset.x, elapsed);
      DivideByElapsed(verticalOffset - t'.lastScrollOffset.y, elapsed);
      t' := t'.(scrollVelocity := Vec(vx, vy));
      t' := t'.(lastScrollOffset := Vec(horizontalOffset, verticalOffset));
      t' := t'.(lastEventTime := timeStamp);
    }
  }

  lemma DivideByElapsed(a: real, m: real)
    requires m >= 1.0
    ensures (a / m) * m == a
    ensures Abs(a / m) <= Abs(a)
  {
    var x := a / m;
    DivideThenMultiply(a, m);
    MultiplyAtLeastOne(x, m);
    if x >= 0.0 {
      assert 0.0 <= x <= a;
    } else {
      assert a <= x < 0.0;
    }
  }

  lemma MultiplyAtLeastOne(x: real, m: real)
    requires m >= 1.0
    ensures x >= 0.0 ==> x <= x * m
    ensures x < 0.0 ==> x * m <= x
  {
  }
}
