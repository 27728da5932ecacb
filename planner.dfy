/** Duration planner: the random clip length and start offset chosen for one
    source file (script.js, getRandomClipLength and getRandomStartTime).
    Every Math.random() draw is a parameter `r` with 0 <= r < 1, durations
    are seconds as reals, and the clip-length bounds are whole percentages
    of the source duration, as parsed from the form. */
module Planner {

  /** `pct` percent of `duration` seconds. */
  function Share(pct: int, duration: real): real {
    (pct as real / 100.0) * duration
  }

  /** The uniform draw `Math.random() * width + low`: a value in
      [low, low + width) when the width is positive. */
  function Lerp(low: real, width: real, r: real): (x: real)
    requires 0.0 <= r < 1.0
    ensures width == 0.0 ==> x == low
    ensures width > 0.0 ==> low <= x < low + width
    ensures width >= 0.0 ==> low <= x <= low + width
    ensures width < 0.0 ==> x <= low
    ensures width < 0.0 && r > 0.0 ==> x < low
  {
    LerpBounds(low, width, r);
    r * width + low
  }

  lemma LerpBounds(low: real, width: real, r: real)
    requires 0.0 <= r < 1.0
    ensures width == 0.0 ==> r * width + low == low
    ensures width > 0.0 ==> low <= r * width + low < low + width
    ensures width >= 0.0 ==> low <= r * width + low <= low + width
    ensures width < 0.0 ==> r * width + low <= low
    ensures width < 0.0 && r > 0.0 ==> r * width + low < low
  {
    ScaledBelow(r, width);
  }

  /** A length drawn uniformly from [minPct% of duration, maxPct% of duration). */
  function ClipLength(minPct: int, maxPct: int, duration: real, r: real): (len: real)
    requires 0.0 <= r < 1.0
    ensures minPct == maxPct ==> len == Share(minPct, duration)
    ensures minPct < maxPct && duration > 0.0 ==>
      Share(minPct, duration) <= len < Share(maxPct, duration)
    ensures minPct <= maxPct && duration >= 0.0 ==>
      Share(minPct, duration) <= len <= Share(maxPct, duration)
  {
    var minLength := Share(minPct, duration);
    var maxLength := Share(maxPct, duration);
    ShareMonotone(minPct, maxPct, duration);
    Lerp(minLength, maxLength - minLength, r)
  }

  /** A start offset drawn uniformly from [0, duration - len); nothing clamps
      it, so a clip longer than its source gets a negative start. */
  function StartTime(duration: real, len: real, r: real): (start: real)
    requires 0.0 <= r < 1.0
    ensures len <= duration ==> 0.0 <= start && start + len <= duration
    ensures len > duration ==> start <= 0.0
    ensures len > duration && r > 0.0 ==> start < 0.0
  {
    Lerp(0.0, duration - len, r)
  }

  /** A larger percentage of a non-negative duration is a larger share. */
  lemma ShareMonotone(p: int, q: int, duration: real)
    ensures p <= q && duration >= 0.0 ==> Share(p, duration) <= Share(q, duration)
    ensures p < q && duration > 0.0 ==> Share(p, duration) < Share(q, duration)
  {
    if p <= q && duration >= 0.0 {
      var d := (q as real - p as real) / 100.0;
      assert Share(q, duration) - Share(p, duration) == d * duration;
    }
  }

  /** Scaling a non-negative width by a draw in [0,1) stays below the width. */
  lemma ScaledBelow(r: real, w: real)
    requires 0.0 <= r < 1.0
    ensures w >= 0.0 ==> 0.0 <= r * w <= w
    ensures w > 0.0 ==> r * w < w
    ensures w < 0.0 ==> r * w <= 0.0
    ensures w < 0.0 && r > 0.0 ==> r * w < 0.0
  {
    if w > 0.0 {
      assert w - r * w == (1.0 - r) * w;
    }
  }

  /** The clip-plan invariant: with bounds inside 0..100 percent, the planned
      clip lies entirely within its source file. */
  lemma PlannedClipFitsSource(minPct: int, maxPct: int, duration: real, rLen: real, rStart: real)
    requires 0 <= minPct <= maxPct <= 100 && duration > 0.0
    requires 0.0 <= rLen < 1.0 && 0.0 <= rStart < 1.0
    ensures var len := ClipLength(minPct, maxPct, duration, rLen);
      var start := StartTime(duration, len, rStart);
      0.0 <= len && 0.0 <= start && start + len <= duration
  {
    ShareMonotone(0, minPct, duration);
    ShareMonotone(maxPct, 100, duration);
  }

  /** With a maximum above 100 percent a clip can outrun its source, and then
      the start offset is negative for every non-zero draw. */
  lemma OverlongClipStartsBeforeZero(minPct: int, maxPct: int, duration: real, rLen: real, rStart: real)
    requires 100 < minPct <= maxPct && duration > 0.0
    requires 0.0 <= rLen < 1.0 && 0.0 < rStart < 1.0
    ensures StartTime(duration, ClipLength(minPct, maxPct, duration, rLen), rStart) < 0.0
  {
    ShareMonotone(100, minPct, duration);
  }
}
