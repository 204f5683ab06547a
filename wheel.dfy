/** The scroll-wheel momentum of SC.ScrollView: after each drain of the
    accumulated wheel deltas (`_scroll_mouseWheel`), a nonzero vertical delta
    is kept at 95% of itself, rounded toward zero, and drained again. */
module Wheel {
  import opened Numeric

  /** The vertical delta left for the next drain: `Math.floor(d*0.950)`
      clamped at 0 for a positive delta, `Math.ceil(d*0.950)` clamped at 0
      for a negative one. */
  function WheelDecay(d: int): (r: int)
    // never flips sign and always shrinks
    ensures d > 0 ==> 0 <= r < d
    ensures d < 0 ==> d < r <= 0
    ensures d == 0 ==> r == 0
    // 95% of the delta, rounded toward zero
    ensures d > 0 ==> r * 100 <= d * 95 < (r + 1) * 100
    ensures d < 0 ==> (r - 1) * 100 < d * 95 <= r * 100
  {
    if d > 0 then
      var f := (d * 95) / 100;
      if f >= 0 then f else 0
    else if d < 0 then
      var c := -(((-d) * 95) / 100);
      if c <= 0 then c else 0
    else 0
  }

  /** The vertical deltas applied by the successive drains of one wheel
      event while momentum runs, ending with the drain that applies 0 and
      resets the accumulators. */
  function MomentumTrain(d: int): (s: seq<int>)
    decreases IntAbs(d)
    ensures |s| >= 1 && s[0] == d && s[|s| - 1] == 0
    // the train ends after at most |d| decays
    ensures |s| <= IntAbs(d) + 1
    // every drain applies a delta of the same sign and strictly smaller magnitude
    ensures forall i :: 0 < i < |s| ==> IntAbs(s[i]) < IntAbs(s[i - 1])
    ensures forall i :: 0 <= i < |s| ==> (d >= 0 ==> s[i] >= 0) && (d <= 0 ==> s[i] <= 0)
    ensures forall i :: 0 <= i < |s| - 1 ==> s[i] != 0 && s[i + 1] == WheelDecay(s[i])
  {
    if d == 0 then [0] else [d] + MomentumTrain(WheelDecay(d))
  }
}
