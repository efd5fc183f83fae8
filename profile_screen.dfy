/**
 * The activity summary (screens/ProfileScreen.js): each activity's share of
 * the total time as a rounded percentage. The total falls back to 1 when the
 * tallies add up to 0 (`sum || 1`), so the division never divides by zero.
 */
module ProfileScreen {
  import opened ActivityContext

  function Sum(t: Tally): int {
    t.walking + t.running + t.upstairs
  }

  /** The sum of the three tallies, with 1 in place of a zero sum. */
  function TotalTime(t: Tally): (r: int)
    ensures r != 0
    ensures r == Sum(t) || (Sum(t) == 0 && r == 1)
  {
    if Sum(t) == 0 then 1 else Sum(t)
  }

  /** JavaScript's rounding: the nearest integer, halves rounded up. */
  function Round(x: real): (r: int)
    ensures r as real - 0.5 <= x < r as real + 0.5
  {
    (x + 0.5).Floor
  }

  /** The rounded percentage of the total that one activity's circle shows. */
  function Percent(t: Tally, value: int): (p: int)
    ensures 0 <= value <= TotalTime(t) ==> 0 <= p <= 100
    ensures value == 0 ==> p == 0
    ensures value == TotalTime(t) ==> p == 100
  {
    var total := TotalTime(t) as real;
    var x := value as real / total * 100.0;
    ShareBounds(value as real, total);
    Round(x)
  }

  lemma ShareBounds(v: real, total: real)
    requires total != 0.0
    ensures 0.0 <= v <= total ==> 0.0 <= v / total * 100.0 <= 100.0
    ensures v == total ==> v / total * 100.0 == 100.0
  {
    if 0.0 <= v <= total {
      var q := v / total;
      assert q * total == v;
      assert total > 0.0;
    }
  }

  /** With non-negative tallies the total is positive and no tally exceeds it. */
  lemma TotalBoundsTallies(t: Tally)
    requires t.walking >= 0 && t.running >= 0 && t.upstairs >= 0
    ensures TotalTime(t) >= 1
    ensures forall a :: 0 <= TimeOf(t, a) <= TotalTime(t)
  {
  }

  /** With non-negative tallies every circle shows a percentage between 0 and 100. */
  lemma PercentsInRange(t: Tally, a: Activity)
    requires t.walking >= 0 && t.running >= 0 && t.upstairs >= 0
    ensures 0 <= Percent(t, TimeOf(t, a)) <= 100
  {
    TotalBoundsTallies(t);
  }

  /** When nothing has been tallied every circle shows 0%. */
  lemma AllZeroShowsZero(a: Activity)
    ensures Percent(InitialTally, TimeOf(InitialTally, a)) == 0
  {
  }
}
