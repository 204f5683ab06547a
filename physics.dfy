/** The pure edge helpers of SC.ScrollView: `_adjustForEdgeResistance`, the
    rubber band applied while a value is dragged past its bounds, and
    `bouncyBounce`, the velocity correction applied while decelerating. */
module Physics {
  import opened Numeric

  /** `Math.pow(base, exponent)`, left uninterpreted. */
  type Pow = (real, real) -> real

  /** What the model relies on about `Math.pow`: for a base in (0,1] and a
      nonnegative exponent the power lies in (0,1], and for a base below 1 it
      shrinks strictly as the exponent grows. */
  ghost predicate IsPow(pow: Pow) {
    && (forall c, e :: 0.0 < c <= 1.0 && 0.0 <= e ==> 0.0 < pow(c, e) <= 1.0)
    && (forall c, e, e' :: 0.0 < c < 1.0 && 0.0 <= e < e' ==> pow(c, e') < pow(c, e))
  }

  /** `_adjustForEdgeResistance`: inside [minOffset, maxOffset] the value is
      returned as is; past an edge by d it is moved back to
      `edge -/+ asymptote * (1 - coefficient^|d|)`. */
  function EdgeResistance(offset: real, minOffset: real, maxOffset: real,
                          coefficient: real, asymptote: real, pow: Pow): real
  {
    if offset < minOffset then
      var p := pow(coefficient, Abs(offset - minOffset)) * asymptote;
      Min(Max(minOffset, offset), maxOffset) + (p - asymptote)
    else if offset > maxOffset then
      var p := pow(coefficient, Abs(maxOffset - offset)) * asymptote;
      Min(Max(minOffset, offset), maxOffset) + (-p + asymptote)
    else
      offset
  }

  /** Inside the range the value is returned as is. */
  lemma EdgeResistanceInside(offset: real, minOffset: real, maxOffset: real,
                             coefficient: real, asymptote: real, pow: Pow)
    requires minOffset <= offset <= maxOffset
    ensures EdgeResistance(offset, minOffset, maxOffset, coefficient, asymptote, pow) == offset
  {
  }

  /** Below the range the rubber band hangs `asymptote * (1 - coefficient^d)` under the lower edge. */
  lemma EdgeResistanceBelow(offset: real, minOffset: real, maxOffset: real,
                            coefficient: real, asymptote: real, pow: Pow)
    requires offset < minOffset <= maxOffset
    ensures EdgeResistance(offset, minOffset, maxOffset, coefficient, asymptote, pow)
         == minOffset - (asymptote - pow(coefficient, minOffset - offset) * asymptote)
  {
    assert Abs(offset - minOffset) == minOffset - offset;
  }

  /** Above the range it stands `asymptote * (1 - coefficient^d)` over the upper edge. */
  lemma EdgeResistanceAbove(offset: real, minOffset: real, maxOffset: real,
                            coefficient: real, asymptote: real, pow: Pow)
    requires minOffset <= maxOffset < offset
    ensures EdgeResistance(offset, minOffset, maxOffset, coefficient, asymptote, pow)
         == maxOffset + (asymptote - pow(coefficient, offset - maxOffset) * asymptote)
  {
    assert Abs(maxOffset - offset) == offset - maxOffset;
  }

  /** Inside the range the value is untouched; past an edge the resisted
      value stays on that side of the edge and within `asymptote` of it,
      however far the raw value goes. */
  lemma EdgeResistanceBounds(offset: real, minOffset: real, maxOffset: real,
                             coefficient: real, asymptote: real, pow: Pow)
    requires IsPow(pow) && 0.0 < coefficient <= 1.0 && 0.0 < asymptote
    requires minOffset <= maxOffset
    ensures var r := EdgeResistance(offset, minOffset, maxOffset, coefficient, asymptote, pow);
            minOffset - asymptote < r <= maxOffset + asymptote &&
            (minOffset <= offset <= maxOffset ==> r == offset) &&
            (offset < minOffset ==> minOffset - asymptote < r <= minOffset) &&
            (offset > maxOffset ==> maxOffset <= r < maxOffset + asymptote)
  {
    if offset < minOffset {
      PowBounded(pow, coefficient, minOffset - offset);
      EdgeResistanceBelowBand(offset, minOffset, maxOffset, coefficient, asymptote, pow);
    } else if offset > maxOffset {
      PowBounded(pow, coefficient, offset - maxOffset);
      EdgeResistanceAboveBand(offset, minOffset, maxOffset, coefficient, asymptote, pow);
    }
  }

  lemma EdgeResistanceBelowBand(offset: real, minOffset: real, maxOffset: real,
                                coefficient: real, asymptote: real, pow: Pow)
    requires offset < minOffset <= maxOffset && 0.0 < asymptote
    requires 0.0 < pow(coefficient, minOffset - offset) <= 1.0
    ensures minOffset - asymptote < EdgeResistance(offset, minOffset, maxOffset, coefficient, asymptote, pow) <= minOffset
    ensures pow(coefficient, minOffset - offset) < 1.0 ==>
            EdgeResistance(offset, minOffset, maxOffset, coefficient, asymptote, pow) < minOffset
  {
    EdgeResistanceBelow(offset, minOffset, maxOffset, coefficient, asymptote, pow);
    HangBelow(EdgeResistance(offset, minOffset, maxOffset, coefficient, asymptote, pow),
              pow(coefficient, minOffset - offset), minOffset, asymptote);
  }

  lemma EdgeResistanceAboveBand(offset: real, minOffset: real, maxOffset: real,
                                coefficient: real, asymptote: real, pow: Pow)
    requires minOffset <= maxOffset < offset && 0.0 < asymptote
    requires 0.0 < pow(coefficient, offset - maxOffset) <= 1.0
    ensures maxOffset <= EdgeResistance(offset, minOffset, maxOffset, coefficient, asymptote, pow) < maxOffset + asymptote
    ensures pow(coefficient, offset - maxOffset) < 1.0 ==>
            maxOffset < EdgeResistance(offset, minOffset, maxOffset, coefficient, asymptote, pow)
  {
    EdgeResistanceAbove(offset, minOffset, maxOffset, coefficient, asymptote, pow);
    HangAbove(EdgeResistance(offset, minOffset, maxOffset, coefficient, asymptote, pow),
              pow(coefficient, offset - maxOffset), maxOffset, asymptote);
  }

  /** A value hanging `asymptote * (1 - q)` under an edge, for q in (0,1]. */
  lemma HangBelow(r: real, q: real, edge: real, asymptote: real)
    requires r == edge - (asymptote - q * asymptote)
    requires 0.0 < q <= 1.0 && 0.0 < asymptote
    ensures edge - asymptote < r <= edge
    ensures q < 1.0 ==> r < edge
  {
    MultiplyBounds(q, asymptote);
    if q < 1.0 {
      ShrinkPositive(q, asymptote);
    }
  }

  /** A value standing `asymptote * (1 - q)` over an edge, for q in (0,1]. */
  lemma HangAbove(r: real, q: real, edge: real, asymptote: real)
    requires r == edge + (asymptote - q * asymptote)
    requires 0.0 < q <= 1.0 && 0.0 < asymptote
    ensures edge <= r < edge + asymptote
    ensures q < 1.0 ==> edge < r
  {
    MultiplyBounds(q, asymptote);
    if q < 1.0 {
      ShrinkPositive(q, asymptote);
    }
  }

  /** With a coefficient below 1 the rubber band is strictly increasing: a
      larger raw value is never displayed at or before a smaller one. */
  lemma EdgeResistanceMonotone(a: real, b: real, minOffset: real, maxOffset: real,
                               coefficient: real, asymptote: real, pow: Pow)
    requires IsPow(pow) && 0.0 < coefficient < 1.0 && 0.0 < asymptote
    requires minOffset <= maxOffset
    requires a < b
    ensures EdgeResistance(a, minOffset, maxOffset, coefficient, asymptote, pow)
          < EdgeResistance(b, minOffset, maxOffset, coefficient, asymptote, pow)
  {
    if a < minOffset && b < minOffset {
      // both below: the nearer one hangs less far under the edge
      PowDecreasing(pow, coefficient, minOffset - b, minOffset - a);
      EdgeResistanceBelowOrdered(a, b, minOffset, maxOffset, coefficient, asymptote, pow);
    } else if a > maxOffset && b > maxOffset {
      // both above: the farther one stands further over the edge
      PowDecreasing(pow, coefficient, a - maxOffset, b - maxOffset);
      EdgeResistanceAboveOrdered(a, b, minOffset, maxOffset, coefficient, asymptote, pow);
    } else {
      // a and b lie on either side of an edge, or both inside the range
      if a < minOffset {
        PowBounded(pow, coefficient, minOffset - a);
        PowBelowOne(pow, coefficient, minOffset - a);
        EdgeResistanceBelowBand(a, minOffset, maxOffset, coefficient, asymptote, pow);
      }
      if b > maxOffset {
        PowBounded(pow, coefficient, b - maxOffset);
        PowBelowOne(pow, coefficient, b - maxOffset);
        EdgeResistanceAboveBand(b, minOffset, maxOffset, coefficient, asymptote, pow);
      }
      EdgeResistanceBounds(a, minOffset, maxOffset, coefficient, asymptote, pow);
      EdgeResistanceBounds(b, minOffset, maxOffset, coefficient, asymptote, pow);
    }
  }

  lemma EdgeResistanceBelowOrdered(a: real, b: real, minOffset: real, maxOffset: real,
                                   coefficient: real, asymptote: real, pow: Pow)
    requires a < b < minOffset <= maxOffset && 0.0 < asymptote
    requires pow(coefficient, minOffset - a) < pow(coefficient, minOffset - b)
    ensures EdgeResistance(a, minOffset, maxOffset, coefficient, asymptote, pow)
          < EdgeResistance(b, minOffset, maxOffset, coefficient, asymptote, pow)
  {
    EdgeResistanceBelow(a, minOffset, maxOffset, coefficient, asymptote, pow);
    EdgeResistanceBelow(b, minOffset, maxOffset, coefficient, asymptote, pow);
    MultiplyPositive(pow(coefficient, minOffset - a), pow(coefficient, minOffset - b), asymptote);
  }

  lemma EdgeResistanceAboveOrdered(a: real, b: real, minOffset: real, maxOffset: real,
                                   coefficient: real, asymptote: real, pow: Pow)
    requires minOffset <= maxOffset < a < b && 0.0 < asymptote
    requires pow(coefficient, b - maxOffset) < pow(coefficient, a - maxOffset)
    ensures EdgeResistance(a, minOffset, maxOffset, coefficient, asymptote, pow)
          < EdgeResistance(b, minOffset, maxOffset, coefficient, asymptote, pow)
  {
    EdgeResistanceAbove(a, minOffset, maxOffset, coefficient, asymptote, pow);
    EdgeResistanceAbove(b, minOffset, maxOffset, coefficient, asymptote, pow);
    MultiplyPositive(pow(coefficient, b - maxOffset), pow(coefficient, a - maxOffset), asymptote);
  }

  lemma ShrinkPositive(q: real, k: real)
    requires q < 1.0 && 0.0 < k
    ensures q * k < k
  {
  }

  /** A strictly positive exponent takes a base below 1 strictly below 1. */
  lemma PowBelowOne(pow: Pow, c: real, e: real)
    requires IsPow(pow) && 0.0 < c < 1.0 && 0.0 < e
    ensures pow(c, e) < 1.0
  {
    PowDecreasing(pow, c, 0.0, e);
    PowBounded(pow, c, 0.0);
  }

  lemma PowBounded(pow: Pow, c: real, e: real)
    requires IsPow(pow) && 0.0 < c <= 1.0 && 0.0 <= e
    ensures 0.0 < pow(c, e) <= 1.0
  {
  }

  lemma PowDecreasing(pow: Pow, c: real, e: real, e': real)
    requires IsPow(pow) && 0.0 < c < 1.0 && 0.0 <= e < e'
    ensures pow(c, e') < pow(c, e)
  {
  }

  lemma ProductBelow(x: real, q: real, r: real)
    requires q < 1.0 && 0.0 < x && r == x * q
    ensures r < x
  {
    ShrinkPositive(q, x);
  }

  lemma ProductPositive(x: real, q: real, r: real)
    requires 0.0 < q && 0.0 < x && r == x * q
    ensures 0.0 < r
  {
  }

  lemma MultiplyBounds(q: real, k: real)
    requires 0.0 < q <= 1.0 && 0.0 < k
    ensures 0.0 < q * k <= k
  {
  }

  lemma MultiplyPositive(x: real, y: real, k: real)
    requires x < y && 0.0 < k
    ensures x * k < y * k
  {
  }

  /** `bouncyBounce`: the velocity of a value that has left [minValue,
      maxValue] is damped by `de` times the overshoot while it still points
      outwards, and replaced by `ac` times the overshoot pointing back once
      it does not; inside the range the velocity is returned unchanged. */
  function BouncyBounce(velocity: real, value: real, minValue: real, maxValue: real,
                        de: real, ac: real): (r: real)
    ensures minValue <= value <= maxValue ==> r == velocity
  {
    if value < minValue then
      if velocity < 0.0 then velocity + (minValue - value) * de
      else (minValue - value) * ac
    else if value > maxValue then
      if velocity > 0.0 then velocity - (value - maxValue) * de
      else -((value - maxValue) * ac)
    else
      velocity
  }

  /** Outside the range: an outward velocity is damped in proportion to the
      overshoot, any other velocity is replaced by a pull back toward the
      range in proportion to the overshoot. */
  lemma BouncyBounceOutside(velocity: real, value: real, minValue: real, maxValue: real, de: real, ac: real)
    requires minValue <= maxValue
    ensures var r := BouncyBounce(velocity, value, minValue, maxValue, de, ac);
            // below the range
            && (value < minValue && velocity < 0.0 ==> r == velocity + (minValue - value) * de)
            && (value < minValue && velocity >= 0.0 ==> r == (minValue - value) * ac)
            // above the range
            && (maxValue < value && velocity > 0.0 ==> r == velocity - (value - maxValue) * de)
            && (maxValue < value && velocity <= 0.0 ==> r == -((value - maxValue) * ac))
  {
  }

  /** With positive constants, bouncing slows an outward velocity and turns
      any other one back toward the range. */
  lemma BouncyBounceDirection(velocity: real, value: real, minValue: real, maxValue: real, de: real, ac: real)
    requires minValue <= maxValue && 0.0 < de && 0.0 < ac
    ensures var r := BouncyBounce(velocity, value, minValue, maxValue, de, ac);
            && (value < minValue && velocity < 0.0 ==> velocity < r)
            && (value < minValue && velocity >= 0.0 ==> r > 0.0)
            && (maxValue < value && velocity > 0.0 ==> r < velocity)
            && (maxValue < value && velocity <= 0.0 ==> r < 0.0)
  {
    var r := BouncyBounce(velocity, value, minValue, maxValue, de, ac);
    if value < minValue {
      var k := minValue - value;
      if velocity < 0.0 {
        MultiplyPositive(0.0, k, de);
        assert r == velocity + k * de;
      } else {
        MultiplyPositive(0.0, k, ac);
        assert r == k * ac;
      }
    } else if maxValue < value {
      var k := value - maxValue;
      if velocity > 0.0 {
        MultiplyPositive(0.0, k, de);
        assert r == velocity - k * de;
      } else {
        MultiplyPositive(0.0, k, ac);
        assert r == -(k * ac);
      }
    }
  }

  /** The scale spring of a deceleration step, `bouncyBounce(0, scale, ...)`
      with an acceleration in (0, 1], moves an out-of-range scale toward the
      range without overshooting the nearer bound. */
  lemma ScaleSpringTowardRange(scale: real, minScale: real, maxScale: real, de: real, ac: real)
    requires minScale <= maxScale && 0.0 < ac <= 1.0
    ensures var sv := BouncyBounce(0.0, scale, minScale, maxScale, de, ac);
            && (scale < minScale ==> scale < scale + sv <= minScale)
            && (maxScale < scale ==> maxScale <= scale + sv < scale)
            && (minScale <= scale <= maxScale ==> sv == 0.0)
  {
    var sv := BouncyBounce(0.0, scale, minScale, maxScale, de, ac);
    if scale < minScale {
      PullBack(minScale - scale, ac, sv);
    } else if maxScale < scale {
      PullBack(scale - maxScale, ac, -sv);
    }
  }

  /** A pull of `ac` times the gap, with `ac` in (0, 1], is positive and
      closes at most the gap. */
  lemma PullBack(gap: real, ac: real, step: real)
    requires 0.0 < gap && 0.0 < ac <= 1.0 && step == gap * ac
    ensures 0.0 < step <= gap
  {
    MultiplyBounds(ac, gap);
  }
}
