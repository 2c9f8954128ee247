/**
 * The light curve of main.py: the half-sine progress ratio over a transition
 * window (get_ratio) and the two integer light levels derived from it
 * (get_light_brightness, get_light_temperature).
 *
 * Instants are integer timestamps. Floating point is replaced by exact reals;
 * `math.sin` is a parameter `sin` that is only known to obey SineLaws, and
 * `math.radians` multiplies by the rational constant Pi.
 */
module Curve {

  /** `math.pi` as CPython prints it. */
  const Pi: real := 3.141592653589793

  /** `math.radians`: degrees to radians. */
  function Radians(degrees: real): real {
    degrees * Pi / 180.0
  }

  /** What the model knows of `math.sin`: its range and its value at the three quarter-turns the curve touches. */
  ghost predicate SineLaws(sin: real -> real) {
    (forall x :: -1.0 <= sin(x) <= 1.0)
    && sin(Pi / 2.0) == 1.0
    && sin(3.0 * Pi / 2.0) == -1.0
    && sin(5.0 * Pi / 2.0) == 1.0
  }

  /** The sine does not decrease between angles a and b. */
  ghost predicate RisingOn(sin: real -> real, a: real, b: real) {
    forall x, y :: a <= x <= y <= b ==> sin(x) <= sin(y)
  }

  /** The sine does not increase between angles a and b. */
  ghost predicate FallingOn(sin: real -> real, a: real, b: real) {
    forall x, y :: a <= x <= y <= b ==> sin(y) <= sin(x)
  }

  function Min(a: int, b: int): int {
    if a <= b then a else b
  }

  function Max(a: int, b: int): int {
    if a <= b then b else a
  }

  /** A window whose start lies after its end runs the curve backwards (a sunset dims the light). */
  predicate Inverted(start: int, end: int) {
    start > end
  }

  /**
   * Normalised progress through the window: the elapsed time since the
   * earlier endpoint over the window's length, with `now` clamped from
   * above at the later endpoint and not clamped from below.
   */
  function Progress(start: int, end: int, now: int): (p: real)
    requires start != end
    ensures p <= 1.0
    ensures 0.0 <= p <==> Min(start, end) <= now
    ensures now == Min(start, end) ==> p == 0.0
    ensures now >= Max(start, end) ==> p == 1.0
  {
    var lo, hi := Min(start, end), Max(start, end);
    var elapsed, dur := (Min(now, hi) - lo) as real, (hi - lo) as real;
    QuotientBounds(elapsed, dur);
    elapsed / dur
  }

  lemma QuotientBounds(x: real, d: real)
    requires 0.0 < d && x <= d
    ensures x / d <= 1.0
    ensures 0.0 <= x / d <==> 0.0 <= x
    ensures x == d ==> x / d == 1.0
  {
    assert x / d * d == x;
  }

  /** The angle handed to `math.sin`: half a turn of progress, offset by 90 degrees when inverted and 270 degrees otherwise. */
  function Phase(start: int, end: int, now: int): real
    requires start != end
  {
    Progress(start, end, now) * Radians(180.0) + Radians(if Inverted(start, end) then 90.0 else 270.0)
  }

  /**
   * get_ratio: the eased progress `0.5 + sin(phase) / 2`. It stays in [0, 1]
   * for every `now`; it starts at 0 (at 1 when inverted) and ends at 1 (at 0
   * when inverted), and any `now` past the window gives the end value.
   */
  function GetRatio(sin: real -> real, start: int, end: int, now: int): (r: real)
    requires SineLaws(sin)
    requires start != end
    ensures 0.0 <= r <= 1.0
    ensures now == Min(start, end) ==> r == (if Inverted(start, end) then 1.0 else 0.0)
    ensures now >= Max(start, end) ==> r == (if Inverted(start, end) then 0.0 else 1.0)
  {
    PhaseAtEndpoints(start, end, now);
    0.5 + sin(Phase(start, end, now)) / 2.0
  }

  lemma PhaseAtEndpoints(start: int, end: int, now: int)
    requires start != end
    ensures now == Min(start, end) ==> Phase(start, end, now) == (if Inverted(start, end) then Pi / 2.0 else 3.0 * Pi / 2.0)
    ensures now >= Max(start, end) ==> Phase(start, end, now) == (if Inverted(start, end) then 3.0 * Pi / 2.0 else 5.0 * Pi / 2.0)
  {
  }

  /** Any `now` at or past the later endpoint is indistinguishable from the later endpoint itself. */
  lemma ClampedAbove(sin: real -> real, start: int, end: int, now: int)
    requires SineLaws(sin)
    requires start != end
    requires now >= Max(start, end)
    ensures Progress(start, end, now) == Progress(start, end, Max(start, end)) == 1.0
    ensures GetRatio(sin, start, end, now) == GetRatio(sin, start, end, Max(start, end))
  {
  }

  /**
   * Swapping the endpoints leaves the progress unchanged and only moves the
   * phase by half a turn: the inverted window runs 180 degrees behind.
   */
  lemma SwapChangesOnlyOffset(start: int, end: int, now: int)
    requires start != end
    ensures Progress(end, start, now) == Progress(start, end, now)
    ensures Inverted(end, start) == !Inverted(start, end)
    ensures Phase(end, start, now) == Phase(start, end, now) + (if Inverted(start, end) then Pi else -Pi)
  {
  }

  /** With the odd half-turn law of the sine, a window and its reverse give mirror-image ratios. */
  lemma ReversedWindowMirrors(sin: real -> real, start: int, end: int, now: int)
    requires SineLaws(sin)
    requires forall x :: sin(x + Pi) == -sin(x)
    requires start != end
    ensures GetRatio(sin, end, start, now) == 1.0 - GetRatio(sin, start, end, now)
  {
    SwapChangesOnlyOffset(start, end, now);
    if Inverted(start, end) {
      assert sin(Phase(start, end, now) + Pi) == -sin(Phase(start, end, now));
    } else {
      assert sin(Phase(end, start, now) + Pi) == -sin(Phase(end, start, now));
    }
  }

  lemma ProgressMonotone(start: int, end: int, n1: int, n2: int)
    requires start != end
    requires n1 <= n2
    ensures Progress(start, end, n1) <= Progress(start, end, n2)
  {
    var lo, hi := Min(start, end), Max(start, end);
    var e1, e2, dur := (Min(n1, hi) - lo) as real, (Min(n2, hi) - lo) as real, (hi - lo) as real;
    assert e1 <= e2;
    assert e2 / dur - e1 / dur == (e2 - e1) / dur;
  }

  /**
   * Inside the window, and given that the sine rises on [270, 450] degrees and
   * falls on [90, 270] degrees, a sunrise window brightens as time passes and
   * a sunset window dims.
   */
  lemma RatioFollowsTime(sin: real -> real, start: int, end: int, n1: int, n2: int)
    requires SineLaws(sin)
    requires RisingOn(sin, Radians(270.0), Radians(450.0)) && FallingOn(sin, Radians(90.0), Radians(270.0))
    requires start != end
    requires Min(start, end) <= n1 <= n2
    ensures !Inverted(start, end) ==> GetRatio(sin, start, end, n1) <= GetRatio(sin, start, end, n2)
    ensures Inverted(start, end) ==> GetRatio(sin, start, end, n2) <= GetRatio(sin, start, end, n1)
  {
    ProgressMonotone(start, end, n1, n2);
    var p1, p2 := Progress(start, end, n1), Progress(start, end, n2);
    var x1, x2 := Phase(start, end, n1), Phase(start, end, n2);
    var base := Radians(if Inverted(start, end) then 90.0 else 270.0);
    assert x1 == p1 * Pi + base && x2 == p2 * Pi + base;
    assert base <= x1 <= x2 <= base + Pi;
    if Inverted(start, end) {
      assert sin(x2) <= sin(x1);
    } else {
      assert sin(x1) <= sin(x2);
    }
  }

  /** Python's `int()` on a float: truncation toward zero. */
  function Trunc(x: real): (n: int)
    ensures 0.0 <= x ==> 0 <= n && n as real <= x < n as real + 1.0
    ensures x < 0.0 ==> n <= 0 && x <= n as real < x + 1.0
  {
    if x >= 0.0 then x.Floor else -((-x).Floor)
  }

  lemma TruncMonotone(x: real, y: real)
    requires x <= y
    ensures Trunc(x) <= Trunc(y)
  {
  }

  /** The affine map of a ratio onto the integer range [lo, hi], truncated as `int()` does. */
  function Level(lo: int, hi: int, r: real): int {
    Trunc((hi - lo) as real * r + lo as real)
  }

  /** A ratio in [0, 1] gives a level in [lo, hi]: the ends of the ratio range reach the ends of the level range. */
  lemma LevelInRange(lo: int, hi: int, r: real)
    requires lo <= hi
    requires 0.0 <= r <= 1.0
    ensures lo <= Level(lo, hi, r) <= hi
    ensures r == 0.0 ==> Level(lo, hi, r) == lo
    ensures r == 1.0 ==> Level(lo, hi, r) == hi
  {
    var w := (hi - lo) as real;
    assert 0.0 <= w * r <= w by {
      assert w * r <= w * 1.0;
    }
    var x := w * r + lo as real;
    assert lo as real <= x <= hi as real;
  }

  /** A larger ratio never gives a smaller level. */
  lemma LevelMonotone(lo: int, hi: int, r1: real, r2: real)
    requires lo <= hi
    requires r1 <= r2
    ensures Level(lo, hi, r1) <= Level(lo, hi, r2)
  {
    var w, d := (hi - lo) as real, r2 - r1;
    assert 0.0 <= w * d;
    assert w * r2 == w * r1 + w * d;
    TruncMonotone(w * r1 + lo as real, w * r2 + lo as real);
  }

  /** For a non-negative ratio the level is the affine value rounded down, never rounded up. */
  lemma LevelTruncates(lo: int, hi: int, r: real)
    requires 0 <= lo <= hi
    requires 0.0 <= r
    ensures Level(lo, hi, r) as real <= (hi - lo) as real * r + lo as real < Level(lo, hi, r) as real + 1.0
  {
    var w := (hi - lo) as real;
    assert 0.0 <= w * r;
  }

  const MinTemp := 1000
  const MaxTemp := 10000
  const MinBright := 1
  const MaxBright := 100

  /** get_light_temperature: the colour temperature in kelvin, in [1000, 10000]. */
  function GetLightTemperature(sin: real -> real, start: int, end: int, now: int): (t: int)
    requires SineLaws(sin)
    requires start != end
    ensures MinTemp <= t <= MaxTemp
    ensures now == Min(start, end) ==> t == (if Inverted(start, end) then MaxTemp else MinTemp)
    ensures now >= Max(start, end) ==> t == (if Inverted(start, end) then MinTemp else MaxTemp)
  {
    var r := GetRatio(sin, start, end, now);
    LevelInRange(MinTemp, MaxTemp, r);
    Level(MinTemp, MaxTemp, r)
  }

  /** get_light_brightness: the brightness percentage, in [1, 100]. */
  function GetLightBrightness(sin: real -> real, start: int, end: int, now: int): (b: int)
    requires SineLaws(sin)
    requires start != end
    ensures MinBright <= b <= MaxBright
    ensures now == Min(start, end) ==> b == (if Inverted(start, end) then MaxBright else MinBright)
    ensures now >= Max(start, end) ==> b == (if Inverted(start, end) then MinBright else MaxBright)
  {
    var r := GetRatio(sin, start, end, now);
    LevelInRange(MinBright, MaxBright, r);
    Level(MinBright, MaxBright, r)
  }

  /**
   * A ratio just under 1% gives brightness 1 and a ratio just under 0.01%
   * gives 1000 K: the levels are truncated where rounding would give 2 and
   * 1001.
   */
  lemma LevelsTruncateNotRound()
    ensures Level(MinBright, MaxBright, 0.01) == 1
    ensures Level(MinTemp, MaxTemp, 0.0001) == 1000
  {
    assert (MaxBright - MinBright) as real * 0.01 + MinBright as real == 1.99;
    assert (MaxTemp - MinTemp) as real * 0.0001 + MinTemp as real == 1000.9;
  }
}
