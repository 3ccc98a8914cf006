/**
  Model of src/core/mod.rs: the time-of-day value `Time`, its `H:M` text codec, and
  the night-window predicate `is_between` / `is_night_time`.

  Both fields of `Time` are unchecked `i32`s: nothing restricts them to clock ranges,
  and the codec and the predicate work on whatever integers they hold.
 */
module Core {
  import opened Wrappers
  import opened RustText

  /** The field separator of the text form. */
  const DIVIDER: char := ':'

  datatype Time = Time(hours: Int32, minutes: Int32)

  /** A clock reading (`time::Tm`); only its hour and minute are ever consulted. */
  datatype Tm = Tm(tmHour: Int32, tmMin: Int32)

  /** `Time::new()`: the zero time. */
  function NewTime(): Time {
    Time(0, 0)
  }

  /** `Time::to_string`: decimal hours, the divider, decimal minutes, no padding. */
  function ToString(t: Time): string {
    FormatInt(t.hours) + [DIVIDER] + FormatInt(t.minutes)
  }

  /**
    `Time::from_string`. The text is split on the divider; three or more fields give the
    zero time; exactly two fields are parsed independently, an unparseable one becoming 0;
    a single field (no divider at all) makes the index `split_time[1]` panic.
   */
  function FromString(time: string): (r: Outcome<Time>)
    ensures r.Panicked? <==> DIVIDER !in time
    ensures r.Panicked? ==> r.cause == IndexOutOfBounds
    ensures Count(time, DIVIDER) >= 2 ==> r == Ok(Time(0, 0))
  {
    var splitTime := Split(time, DIVIDER);
    if |splitTime| > 2 then Ok(NewTime())
    else if |splitTime| < 2 then Panicked(IndexOutOfBounds)
    else
      var hours := ParseI32(splitTime[0]).GetOr(0);
      var minutes := ParseI32(splitTime[1]).GetOr(0);
      Ok(Time(hours, minutes))
  }

  /** The text form splits into exactly the two rendered numbers. */
  lemma ToStringFields(t: Time)
    ensures Split(ToString(t), DIVIDER) == [FormatInt(t.hours), FormatInt(t.minutes)]
  {
    SplitAfterField(FormatInt(t.hours), FormatInt(t.minutes), DIVIDER);
    SplitNoSeparator(FormatInt(t.minutes), DIVIDER);
  }

  /** Every `Time`, negative fields included, survives rendering and parsing. */
  lemma FromStringRoundTrip(t: Time)
    ensures FromString(ToString(t)) == Ok(t)
  {
    ToStringFields(t);
    ParseFormatRoundTrip(t.hours);
    ParseFormatRoundTrip(t.minutes);
  }

  /** With exactly two fields each one is parsed on its own; a bad field becomes 0 without touching the other. */
  lemma FromStringTwoFields(h: string, m: string)
    requires DIVIDER !in h && DIVIDER !in m
    ensures FromString(h + [DIVIDER] + m)
         == Ok(Time(ParseI32(h).GetOr(0), ParseI32(m).GetOr(0)))
  {
    SplitAfterField(h, m, DIVIDER);
    SplitNoSeparator(m, DIVIDER);
  }

  /** `"9:bad"` parses to 9 hours and 0 minutes, not to the zero time. */
  lemma FromStringBadMinutes()
    ensures FromString("9:bad") == Ok(Time(9, 0))
  {
    assert "9:bad" == "9" + [DIVIDER] + "bad";
    FromStringTwoFields("9", "bad");
    assert !IsDigit("bad"[0]);
    assert DigitsValue("9") == DigitsValue("") * 10 + 9;
  }

  /** `"21:xx"` parses to 21 hours and 0 minutes. */
  lemma FromStringBadMinutesTwoDigitHour()
    ensures FromString("21:xx") == Ok(Time(21, 0))
  {
    assert "21:xx" == "21" + [DIVIDER] + "xx";
    FromStringTwoFields("21", "xx");
    assert !IsDigit("xx"[0]);
    assert "21"[..1] == "2" && "2"[..0] == "";
    assert DigitsValue("2") == 2;
    assert DigitsValue("21") == 21;
    assert ParseI32("xx") == None;
    assert ParseI32("21") == Some(21);
  }

  /**
    `IsBetween::is_between` for `Tm`, reproduced branch by branch. The same-day branch
    (start hour not after end hour) checks the lower minute bound at the start hour, the
    upper one at the end hour, and both minute bounds at every other hour, whether that
    hour lies inside or outside the window. The wrap branch compares hours only.
   */
  predicate IsBetween(now: Tm, start: Time, end: Time) {
    if start.hours <= end.hours then
      if now.tmHour == start.hours && now.tmHour < end.hours then
        now.tmMin >= start.minutes
      else if now.tmHour > start.hours && now.tmHour == end.hours then
        now.tmMin <= end.minutes
      else
        now.tmMin >= start.minutes && now.tmMin <= end.minutes
    else
      start.hours > end.hours && (now.tmHour >= start.hours || now.tmHour <= end.hours)
  }

  /** `is_night_time`: a plain delegation to `is_between`. */
  predicate IsNightTime(now: Tm, start: Time, end: Time) {
    IsBetween(now, start, end)
  }

  lemma NightTimeIsBetween(now: Tm, start: Time, end: Time)
    ensures IsNightTime(now, start, end) <==> IsBetween(now, start, end)
  {
  }

  /** A window that wraps past midnight is decided by the hour alone. */
  lemma WrapBranch(now: Tm, start: Time, end: Time)
    requires start.hours > end.hours
    ensures IsBetween(now, start, end) <==> now.tmHour >= start.hours || now.tmHour <= end.hours
  {
  }

  /** In the wrap branch no minute value, of the clock or of either bound, changes the answer. */
  lemma WrapIgnoresMinutes(now: Tm, start: Time, end: Time, nowMin: Int32, startMin: Int32, endMin: Int32)
    requires start.hours > end.hours
    ensures IsBetween(Tm(now.tmHour, nowMin), Time(start.hours, startMin), Time(end.hours, endMin))
        == IsBetween(now, start, end)
  {
  }

  /** Same-day window, clock in the start hour (and the window spans more than that hour). */
  lemma SameDayStartHour(now: Tm, start: Time, end: Time)
    requires now.tmHour == start.hours < end.hours
    ensures IsBetween(now, start, end) <==> now.tmMin >= start.minutes
  {
  }

  /** Same-day window, clock in the end hour (and past the start hour). */
  lemma SameDayEndHour(now: Tm, start: Time, end: Time)
    requires start.hours < now.tmHour == end.hours
    ensures IsBetween(now, start, end) <==> now.tmMin <= end.minutes
  {
  }

  /**
    Same-day window, every other hour: before the start hour, after the end hour,
    strictly between them, or a window whose start and end hour coincide.
   */
  lemma SameDayOtherHours(now: Tm, start: Time, end: Time)
    requires start.hours <= end.hours
    requires !(now.tmHour == start.hours && start.hours < end.hours)
    requires !(start.hours < now.tmHour && now.tmHour == end.hours)
    ensures IsBetween(now, start, end) <==> start.minutes <= now.tmMin <= end.minutes
  {
  }

  /** Minutes since midnight, for the reference definition below. */
  function MinuteOfDay(hours: int, minutes: int): int {
    hours * 60 + minutes
  }

  /** A clock reading that names a real time of day. */
  predicate IsClockTime(hours: int, minutes: int) {
    0 <= hours < 24 && 0 <= minutes < 60
  }

  /**
    Reference definition: membership of the clock reading in the window read as an
    interval of minutes of the day, both ends included, wrapping past midnight when the
    start comes after the end.
   */
  predicate InMinuteWindow(now: Tm, start: Time, end: Time) {
    var n := MinuteOfDay(now.tmHour, now.tmMin);
    var s := MinuteOfDay(start.hours, start.minutes);
    var e := MinuteOfDay(end.hours, end.minutes);
    if s <= e then s <= n <= e else n >= s || n <= e
  }

  /**
    Where the literal predicate agrees with the minute-interval reading: for clock times
    in a same-day window spanning several hours, at the start hour and at the end hour;
    in a wrapping window, at every hour other than the two boundary hours.
   */
  lemma AgreesWithMinuteWindow(now: Tm, start: Time, end: Time)
    requires IsClockTime(now.tmHour, now.tmMin)
    requires IsClockTime(start.hours, start.minutes) && IsClockTime(end.hours, end.minutes)
    requires (start.hours < end.hours && (now.tmHour == start.hours || now.tmHour == end.hours))
          || (start.hours > end.hours && now.tmHour != start.hours && now.tmHour != end.hours)
    ensures IsBetween(now, start, end) <==> InMinuteWindow(now, start, end)
  {
  }

  /**
    Where it does not: inside the 09:00-17:00 window, 12:30 counts as outside, while
    03:00 and 12:00 count as inside; in the 22:30-06:15 window, 22:00 and 06:45 count
    as inside.
   */
  lemma DiffersFromMinuteWindow()
    ensures !IsBetween(Tm(12, 30), Time(9, 0), Time(17, 0)) && InMinuteWindow(Tm(12, 30), Time(9, 0), Time(17, 0))
    ensures IsBetween(Tm(3, 0), Time(9, 0), Time(17, 0)) && !InMinuteWindow(Tm(3, 0), Time(9, 0), Time(17, 0))
    ensures IsBetween(Tm(12, 0), Time(9, 0), Time(17, 0))
    ensures IsBetween(Tm(22, 0), Time(22, 30), Time(6, 15)) && !InMinuteWindow(Tm(22, 0), Time(22, 30), Time(6, 15))
    ensures IsBetween(Tm(6, 45), Time(22, 30), Time(6, 15)) && !InMinuteWindow(Tm(6, 45), Time(22, 30), Time(6, 15))
  {
  }

  /** The wrapping 22:00-06:00 window at 23:30, 12:00 and 06:00. */
  lemma WrapExamples()
    ensures IsBetween(Tm(23, 30), Time(22, 0), Time(6, 0))
    ensures !IsBetween(Tm(12, 0), Time(22, 0), Time(6, 0))
    ensures IsBetween(Tm(6, 0), Time(22, 0), Time(6, 0))
  {
  }
}
