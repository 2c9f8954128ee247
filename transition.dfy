/**
 * The transition loop of main.py (run_light) and the adjustment it issues on
 * every tick (perform_light_adjust).
 *
 * The clock is the sequence of readings taken after each sleep; the loop
 * returns the instants it hands to the adjustment, in order. The two
 * concurrent voice commands of one adjustment are one event carrying the
 * brightness and temperature they set.
 */
module Transition {
  import opened Curve

  /** One adjustment: the brightness percentage and colour temperature sent to the light. */
  datatype Levels = Levels(brightness: int, temperature: int)

  /** The light fully on: what a sunrise ends in and a sunset starts from. */
  const Daylight := Levels(MaxBright, MaxTemp)

  /** The light fully dimmed: what a sunset ends in and a sunrise starts from. */
  const Night := Levels(MinBright, MinTemp)

  /** perform_light_adjust: the levels one tick sends, each within its range; past the window it is the end state. */
  function PerformLightAdjust(sin: real -> real, start: int, end: int, now: int): (l: Levels)
    requires SineLaws(sin)
    requires start != end
    ensures MinBright <= l.brightness <= MaxBright && MinTemp <= l.temperature <= MaxTemp
    ensures now == Min(start, end) ==> l == (if Inverted(start, end) then Daylight else Night)
    ensures now >= Max(start, end) ==> l == (if Inverted(start, end) then Night else Daylight)
  {
    Levels(GetLightBrightness(sin, start, end, now), GetLightTemperature(sin, start, end, now))
  }

  /** Some reading of the clock is at or past `hi`: the wall clock does reach the end of the window. */
  ghost predicate Reaches(clock: seq<int>, hi: int) {
    exists i :: 0 <= i < |clock| && clock[i] >= hi
  }

  /** The index of the first reading at or past `hi`. */
  function FirstReading(clock: seq<int>, hi: int): (k: nat)
    requires Reaches(clock, hi)
    ensures k < |clock| && clock[k] >= hi
    ensures forall j :: 0 <= j < k ==> clock[j] < hi
  {
    if clock[0] >= hi then 0
    else
      assert Reaches(clock[1..], hi) by {
        var i :| 0 <= i < |clock| && clock[i] >= hi;
        assert clock[1..][i - 1] == clock[i];
      }
      1 + FirstReading(clock[1..], hi)
  }

  /**
   * The instants a transition adjusts at: every reading up to and including
   * the first one at or past the later endpoint, then that reading once more
   * for the final state.
   */
  function AdjustedInstants(start: int, end: int, clock: seq<int>): seq<int>
    requires Reaches(clock, Max(start, end))
  {
    var k := FirstReading(clock, Max(start, end));
    clock[..k + 1] + [clock[k]]
  }

  /**
   * run_light: starting from the earlier endpoint, sleep, read the clock and
   * adjust until the reading is at or past the later endpoint, then adjust
   * once more at that reading.
   */
  method RunLight(start: int, end: int, clock: seq<int>) returns (instants: seq<int>)
    requires start != end
    requires Reaches(clock, Max(start, end))
    ensures instants == AdjustedInstants(start, end, clock)
    ensures |instants| >= 2
    ensures instants[..|instants| - 1] == clock[..|instants| - 1]
    ensures instants[|instants| - 1] == instants[|instants| - 2] >= Max(start, end)
    ensures forall j :: 0 <= j < |instants| - 2 ==> instants[j] < Max(start, end)
  {
    ghost var k := FirstReading(clock, Max(start, end));
    var now := Min(start, end);
    var i := 0;
    instants := [];
    while now < Max(start, end)
      invariant 0 <= i <= k + 1
      invariant i == 0 ==> now == Min(start, end)
      invariant i > 0 ==> now == clock[i - 1]
      invariant instants == clock[..i]
      decreases |clock| - i
    {
      now := clock[i];
      i := i + 1;
      instants := instants + [now];
    }
    assert i == k + 1;
    instants := instants + [now];
  }

  /**
   * The last adjustment of a transition sets the window's end state: full
   * daylight after a sunrise, full dim after a sunset, however far the last
   * tick overshot the end.
   */
  lemma FinalAdjustmentIsEndState(sin: real -> real, start: int, end: int, clock: seq<int>)
    requires SineLaws(sin)
    requires start != end
    requires Reaches(clock, Max(start, end))
    ensures var instants := AdjustedInstants(start, end, clock);
      PerformLightAdjust(sin, start, end, instants[|instants| - 1]) == (if Inverted(start, end) then Night else Daylight)
  {
    var k := FirstReading(clock, Max(start, end));
    var instants := AdjustedInstants(start, end, clock);
    assert instants[|instants| - 1] == clock[k];
  }
}
