/**
 * formatTime, written identically in screens/WalkingScreen.js and
 * screens/ProfileScreen.js (and inline in screens/StairScreen.js): whole
 * minutes by `Math.floor(seconds / 60)` and the rest by `seconds % 60`.
 *
 * JavaScript's `%` truncates toward zero while Dafny's is Euclidean, so the
 * remainder is written out for negative durations.
 */
module TimeDisplay {

  datatype MinSec = MinSec(minutes: int, seconds: int)

  /** JavaScript's `a % b` for b > 0: the sign follows `a`. */
  function JsRemainder(a: int, b: int): int
    requires b > 0
  {
    if a >= 0 then a % b else -((-a) % b)
  }

  /** A non-negative duration splits into whole minutes and a rest below 60 that
      add back up to it; a negative one gets the floor of the minutes and a
      non-positive rest, as JavaScript computes them. */
  function FormatTime(seconds: int): (r: MinSec)
    ensures seconds >= 0 ==> r.minutes * 60 + r.seconds == seconds && 0 <= r.seconds < 60 && r.minutes >= 0
    ensures seconds < 0 ==> r.minutes * 60 <= seconds < r.minutes * 60 + 60 && -60 < r.seconds <= 0
  {
    MinSec(seconds / 60, JsRemainder(seconds, 60))
  }
}
