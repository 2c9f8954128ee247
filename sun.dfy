/**
 * The daily window selection of main.py: from today's and tomorrow's solar
 * instants and the current instant, the next dawn/sunrise pair and the next
 * sunset/dusk pair, and the two transition windows built from them.
 *
 * The astronomy provider is not modelled; its answer for one day is the
 * SunTimes record handed in.
 */
module SunWindow {
  import opened Curve

  /** The four solar instants of one day, as timestamps. */
  datatype SunTimes = SunTimes(dawn: int, sunrise: int, sunset: int, dusk: int)

  /** A transition window: the light curve runs from `start` to `end`. */
  datatype Window = Window(start: int, end: int)

  /** The order the four instants take on an ordinary day. */
  predicate DayOrdered(d: SunTimes) {
    d.dawn < d.sunrise < d.sunset < d.dusk
  }

  /** Every instant of `today` precedes the same instant of `tomorrow`. */
  predicate Precedes(today: SunTimes, tomorrow: SunTimes) {
    today.dawn < tomorrow.dawn && today.sunrise < tomorrow.sunrise
    && today.sunset < tomorrow.sunset && today.dusk < tomorrow.dusk
  }

  /**
   * The `_sun` record: dawn and sunrise come from the same day, today's
   * exactly when `now` is before today's dawn; sunset and dusk come from the
   * same day, today's exactly when `now` is before today's sunset (dusk does
   * not take part in the choice).
   */
  function NextSun(today: SunTimes, tomorrow: SunTimes, now: int): (next: SunTimes)
    ensures now < today.dawn ==> next.dawn == today.dawn && next.sunrise == today.sunrise
    ensures today.dawn <= now ==> next.dawn == tomorrow.dawn && next.sunrise == tomorrow.sunrise
    ensures now < today.sunset ==> next.sunset == today.sunset && next.dusk == today.dusk
    ensures today.sunset <= now ==> next.sunset == tomorrow.sunset && next.dusk == tomorrow.dusk
  {
    SunTimes(
      if now < today.dawn then today.dawn else tomorrow.dawn,
      if now < today.dawn then today.sunrise else tomorrow.sunrise,
      if now < today.sunset then today.sunset else tomorrow.sunset,
      if now < today.sunset then today.dusk else tomorrow.dusk)
  }

  /**
   * On ordinary days, and with `now` before tomorrow's dawn, the chosen dawn
   * and sunset are the earliest of the two days' that are still ahead, and
   * each chosen pair is itself in day order.
   */
  lemma NextSunIsUpcoming(today: SunTimes, tomorrow: SunTimes, now: int)
    requires DayOrdered(today) && DayOrdered(tomorrow) && Precedes(today, tomorrow)
    requires now < tomorrow.dawn
    ensures var next := NextSun(today, tomorrow, now);
      && now < next.dawn < next.sunrise
      && now < next.sunset < next.dusk
      && (now < today.dawn ==> next.dawn <= today.dawn) && next.dawn <= tomorrow.dawn
      && (now < today.sunset ==> next.sunset <= today.sunset) && next.sunset <= tomorrow.sunset
  {
  }

  /**
   * Between today's sunset and today's dusk the evening pair is already
   * tomorrow's, although today's dusk is still ahead: the choice is keyed on
   * sunset, the earlier endpoint of the evening window.
   */
  lemma EveningKeyedOnSunset(today: SunTimes, tomorrow: SunTimes, now: int)
    requires today.sunset <= now < today.dusk
    requires tomorrow.dusk != today.dusk
    ensures NextSun(today, tomorrow, now).dusk == tomorrow.dusk != today.dusk
    ensures NextSun(today, tomorrow, now).sunset == tomorrow.sunset
  {
  }

  /** The morning window runs from dawn to sunrise. */
  function SunriseWindow(next: SunTimes): (w: Window)
    ensures DayOrdered(next) ==> !Inverted(w.start, w.end)
    ensures DayOrdered(next) ==> Min(w.start, w.end) == next.dawn && Max(w.start, w.end) == next.sunrise
  {
    Window(next.dawn, next.sunrise)
  }

  /** The evening window runs from dusk to sunset: its start lies after its end, so the curve is inverted. */
  function SunsetWindow(next: SunTimes): (w: Window)
    ensures DayOrdered(next) ==> Inverted(w.start, w.end)
    ensures DayOrdered(next) ==> Min(w.start, w.end) == next.sunset && Max(w.start, w.end) == next.dusk
  {
    Window(next.dusk, next.sunset)
  }

  /**
   * The earlier endpoint of each window, where the transition loop starts,
   * is the selected dawn (for the morning window) or the selected sunset (for
   * the evening window), and it lies after `now`; the morning window
   * brightens and the evening window dims.
   */
  lemma WindowsStartAhead(today: SunTimes, tomorrow: SunTimes, now: int)
    requires DayOrdered(today) && DayOrdered(tomorrow) && Precedes(today, tomorrow)
    requires now < tomorrow.dawn
    ensures var next := NextSun(today, tomorrow, now);
      && Min(SunriseWindow(next).start, SunriseWindow(next).end) == next.dawn > now
      && Min(SunsetWindow(next).start, SunsetWindow(next).end) == next.sunset > now
      && !Inverted(SunriseWindow(next).start, SunriseWindow(next).end)
      && Inverted(SunsetWindow(next).start, SunsetWindow(next).end)
  {
    NextSunIsUpcoming(today, tomorrow, now);
  }
}
