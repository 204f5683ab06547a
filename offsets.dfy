/** The offset model of SC.ScrollView: the geometry it reads, the maxima it
    derives from that geometry, the clamps its property setters apply, and
    the origin `scrollToVisible` shifts to. */
module Offsets {
  import opened Numeric

  /** A point or a pair of per-axis quantities (offsets, velocities). */
  datatype Vec = Vec(x: real, y: real)

  datatype Size = Size(width: real, height: real)

  /** A frame rectangle; `MinX`/`MaxX`/`MinY`/`MaxY` are SC.minX and friends. */
  datatype Rect = Rect(x: real, y: real, width: real, height: real) {
    function MinX(): real { x }
    function MaxX(): real { x + width }
    function MinY(): real { y }
    function MaxY(): real { y + height }

    /** `other` lies entirely inside this rectangle. */
    predicate Contains(other: Rect) {
      MinX() <= other.MinX() && other.MaxX() <= MaxX() &&
      MinY() <= other.MinY() && other.MaxY() <= MaxY()
    }
  }

  /** What the layout engine reports: the content view's frame, its
      `calculatedWidth`/`calculatedHeight` (0 when it has none), the
      container view's frame and the scroll view's own frame. */
  datatype Geometry = Geometry(contentFrame: Size, calculated: Size, container: Size, frame: Size) {
    /** The content size the view scrolls over: a nonzero calculated extent
        overrides the measured frame. */
    function ContentSize(): Size {
      Size(ContentExtent(contentFrame.width, calculated.width),
           ContentExtent(contentFrame.height, calculated.height))
    }
  }

  function ContentExtent(frameExtent: real, calculatedExtent: real): real {
    if calculatedExtent != 0.0 then calculatedExtent else frameExtent
  }

  /** How far content of the given extent, drawn at `scale`, overflows the
      container: `Math.max(0, contentExtent*scale - containerExtent)`. */
  function OverflowExtent(contentExtent: real, scale: real, containerExtent: real): (m: real)
    ensures m >= 0.0
  {
    Max(0.0, contentExtent * scale - containerExtent)
  }

  /** The overflow is exactly what sticks out past the container, and
      nothing when the scaled content fits. */
  lemma OverflowExtentMeaning(contentExtent: real, scale: real, containerExtent: real)
    ensures contentExtent * scale > containerExtent ==>
              OverflowExtent(contentExtent, scale, containerExtent) + containerExtent == contentExtent * scale
    ensures contentExtent * scale <= containerExtent ==> OverflowExtent(contentExtent, scale, containerExtent) == 0.0
  {
  }

  /** `maximumHorizontalScrollOffset` / `maximumVerticalScrollOffset` for one
      axis: 0 when the axis cannot scroll, otherwise how far the (scaled)
      content overflows the container, a nonzero calculated extent
      overriding the measured one. */
  function MaximumOffset(canScroll: bool, frameExtent: real, calculatedExtent: real,
                         scale: real, containerExtent: real): (m: real)
    ensures m >= 0.0
    ensures !canScroll ==> m == 0.0
  {
    if !canScroll then 0.0
    else OverflowExtent(ContentExtent(frameExtent, calculatedExtent), scale, containerExtent)
  }

  /** At the maximum offset the far edge of the scaled content meets the far
      edge of the container; content that fits cannot scroll at all. */
  lemma MaximumOffsetFarEdge(canScroll: bool, frameExtent: real, calculatedExtent: real,
                             scale: real, containerExtent: real)
    ensures var m := MaximumOffset(canScroll, frameExtent, calculatedExtent, scale, containerExtent);
            && (canScroll && calculatedExtent != 0.0 && calculatedExtent * scale > containerExtent ==>
                  m + containerExtent == calculatedExtent * scale)
            && (canScroll && calculatedExtent == 0.0 && frameExtent * scale > containerExtent ==>
                  m + containerExtent == frameExtent * scale)
            && (ContentExtent(frameExtent, calculatedExtent) * scale <= containerExtent ==> m == 0.0)
  {
    OverflowExtentMeaning(ContentExtent(frameExtent, calculatedExtent), scale, containerExtent);
  }

  /** Zooming in never lowers the maximum offset of content with a
      nonnegative extent. */
  lemma MaximumOffsetGrowsWithScale(canScroll: bool, frameExtent: real, calculatedExtent: real,
                                      scale: real, scale': real, containerExtent: real)
    requires ContentExtent(frameExtent, calculatedExtent) >= 0.0 && scale <= scale'
    ensures MaximumOffset(canScroll, frameExtent, calculatedExtent, scale, containerExtent)
         <= MaximumOffset(canScroll, frameExtent, calculatedExtent, scale', containerExtent)
  {
    ScaleMonotone(ContentExtent(frameExtent, calculatedExtent), scale, scale');
  }

  lemma ScaleMonotone(extent: real, scale: real, scale': real)
    requires extent >= 0.0 && scale <= scale'
    ensures extent * scale <= extent * scale'
  {
  }

  /** The offset setters' clamp, `Math.max(0, Math.min(maximum, value))`. */
  function ClampOffset(value: real, maximum: real): (r: real)
    ensures 0.0 <= r
    ensures maximum >= 0.0 ==> r <= maximum
    ensures 0.0 <= value <= maximum ==> r == value
    ensures value < 0.0 ==> r == 0.0
    ensures 0.0 <= maximum < value ==> r == maximum
  {
    Max(0.0, Min(maximum, value))
  }

  /** Clamping is idempotent, so the setters accept a clamped value as it is. */
  lemma ClampOffsetIdempotent(value: real, maximum: real)
    requires maximum >= 0.0
    ensures ClampOffset(ClampOffset(value, maximum), maximum) == ClampOffset(value, maximum)
  {
  }

  /** Scrolling forward by an amount and back by the same amount never ends
      past the start; it returns there exactly when the far edge did not cut
      the forward move, and, from a positive start, ends short of it when it
      did. */
  lemma ClampOffsetRoundTrip(offset: real, amount: real, maximum: real)
    requires 0.0 <= offset <= maximum && 0.0 <= amount
    ensures ClampOffset(ClampOffset(offset + amount, maximum) - amount, maximum) <= offset
    ensures offset + amount <= maximum ==>
              ClampOffset(ClampOffset(offset + amount, maximum) - amount, maximum) == offset
    ensures maximum < offset + amount && 0.0 < offset ==>
              ClampOffset(ClampOffset(offset + amount, maximum) - amount, maximum) < offset
  {
  }

  /** The scale setter's clamp, `Math.min(Math.max(minimumScale, value), maximumScale)`:
      the maximum wins when the two bounds are inverted. */
  function ClampScale(value: real, minimumScale: real, maximumScale: real): (r: real)
    ensures r <= maximumScale
    ensures minimumScale <= maximumScale ==> minimumScale <= r
    ensures minimumScale <= value <= maximumScale ==> r == value
    ensures value < minimumScale <= maximumScale ==> r == minimumScale
    ensures maximumScale < minimumScale ==> r == maximumScale
  {
    Min(Max(minimumScale, value), maximumScale)
  }

  /** On one axis, `origin` is the minimal shift of the window
      [lo, lo + extent] that brings [targetLo, targetLo + targetExtent]
      into view, as `scrollToVisible` computes it. */
  predicate RevealsAxis(lo: real, extent: real, targetLo: real, targetExtent: real, origin: real) {
    // a target already within the window leaves it where it is
    && (lo <= targetLo && targetLo + targetExtent <= lo + extent ==> origin == lo)
    // a clipped leading edge of a target that fits is aligned with the window's leading edge
    && (targetExtent <= extent && targetLo < lo ==> origin == targetLo)
    // a clipped trailing edge is aligned with the window's trailing edge
    && (lo <= targetLo && lo + extent < targetLo + targetExtent ==> origin + extent == targetLo + targetExtent)
    // for a target larger than the window, its trailing edge wins
    && (extent < targetExtent ==> origin + extent == targetLo + targetExtent)
  }

  /** The rules of `RevealsAxis` leave exactly one origin. */
  lemma RevealsAxisUnique(lo: real, extent: real, targetLo: real, targetExtent: real, origin: real, origin': real)
    requires RevealsAxis(lo, extent, targetLo, targetExtent, origin)
    requires RevealsAxis(lo, extent, targetLo, targetExtent, origin')
    ensures origin == origin'
  {
  }

  /** At that origin a target no larger than the window lies within it. */
  lemma RevealsAxisShows(lo: real, extent: real, targetLo: real, targetExtent: real, origin: real)
    requires RevealsAxis(lo, extent, targetLo, targetExtent, origin)
    requires 0.0 <= targetExtent <= extent
    ensures origin <= targetLo && targetLo + targetExtent <= origin + extent
  {
  }

  /** The origin `scrollToVisible` moves the visible rectangle to: shift it
      back so the target's leading edges are visible, then forward so its
      trailing edges are. */
  method VisibleOrigin(visible: Rect, target: Rect) returns (origin: Vec)
    // a target that is already visible moves nothing
    ensures visible.Contains(target) ==> origin == Vec(visible.x, visible.y)
    // a target no larger than the visible area ends up inside it
    ensures target.width <= visible.width ==>
              origin.x <= target.MinX() && target.MaxX() <= origin.x + visible.width
    ensures target.height <= visible.height ==>
              origin.y <= target.MinY() && target.MaxY() <= origin.y + visible.height
    // the shift is minimal: a clipped leading edge is aligned with the
    // visible area's leading edge, a clipped trailing edge with its trailing edge
    ensures target.width <= visible.width && target.MinX() < visible.MinX() ==> origin.x == target.MinX()
    ensures visible.MinX() <= target.MinX() && visible.MaxX() < target.MaxX() ==>
              origin.x + visible.width == target.MaxX()
    ensures target.height <= visible.height && target.MinY() < visible.MinY() ==> origin.y == target.MinY()
    ensures visible.MinY() <= target.MinY() && visible.MaxY() < target.MaxY() ==>
              origin.y + visible.height == target.MaxY()
    // a target larger than the visible area: its trailing edge wins
    ensures visible.width < target.width ==> origin.x + visible.width == target.MaxX()
    ensures visible.height < target.height ==> origin.y + visible.height == target.MaxY()
    // on an axis where the target is already within the visible area, nothing moves
    ensures visible.MinX() <= target.MinX() && target.MaxX() <= visible.MaxX() ==> origin.x == visible.x
    ensures visible.MinY() <= target.MinY() && target.MaxY() <= visible.MaxY() ==> origin.y == visible.y
    // together: the minimal shift on each axis
    ensures RevealsAxis(visible.x, visible.width, target.x, target.width, origin.x)
    ensures RevealsAxis(visible.y, visible.height, target.y, target.height, origin.y)
  {
    var vo := visible;
    // if the top (left) edge is not visible, shift the origin back
    vo := vo.(y := vo.y - Max(0.0, vo.MinY() - target.MinY()));
    vo := vo.(x := vo.x - Max(0.0, vo.MinX() - target.MinX()));
    // if the bottom (right) edge is not visible, shift the origin forward
    vo := vo.(y := vo.y + Max(0.0, target.MaxY() - vo.MaxY()));
    vo := vo.(x := vo.x + Max(0.0, target.MaxX() - vo.MaxX()));
    origin := Vec(vo.x, vo.y);
  }
}
