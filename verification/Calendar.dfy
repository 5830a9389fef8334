/** Dates, times of day, datetimes with an offset from UTC, and the instants they denote. */
module Calendar {
  import opened Tables

  datatype Date = Date(year: nat, month: nat, day: nat)
  datatype Clock = Clock(hour: nat, minute: nat, second: nat, micro: nat)

  /** A datetime: the offset from UTC is in microseconds, and absent on a naive one. */
  datatype Timestamp = Timestamp(date: Date, clock: Clock, offset: Option<int>)

  const SECOND: int := 1_000_000
  const MINUTE: int := 60 * SECOND
  const HOUR: int := 60 * MINUTE
  const DAY: int := 24 * HOUR

  predicate IsLeap(year: nat) {
    year % 4 == 0 && (year % 100 != 0 || year % 400 == 0)
  }

  function DaysIn(year: nat, month: nat): nat {
    if month == 2 then if IsLeap(year) then 29 else 28
    else if month in {4, 6, 9, 11} then 30 else 31
  }

  predicate ValidDate(d: Date) {
    1 <= d.year <= 9999 && 1 <= d.month <= 12 && 1 <= d.day <= DaysIn(d.year, d.month)
  }

  predicate ValidClock(c: Clock) {
    c.hour < 24 && c.minute < 60 && c.second < 60 && c.micro < SECOND
  }

  predicate ValidOffset(o: Option<int>) {
    o.Some? ==> -DAY < o.value < DAY
  }

  predicate Valid(t: Timestamp) {
    ValidDate(t.date) && ValidClock(t.clock) && ValidOffset(t.offset)
  }

  // --- instants -------------------------------------------------------------------

  function DaysBeforeYear(year: nat): int
    requires year > 0
  {
    var y := year - 1;
    365 * y + y / 4 - y / 100 + y / 400
  }

  function DaysBeforeMonth(year: nat, month: nat): nat {
    if month <= 1 then 0 else DaysBeforeMonth(year, month - 1) + DaysIn(year, month - 1)
  }

  /** Days since the first day of year 1. */
  function Days(d: Date): int
    requires d.year > 0
  {
    DaysBeforeYear(d.year) + DaysBeforeMonth(d.year, d.month) + d.day - 1
  }

  function Micros(c: Clock): int {
    c.hour * HOUR + c.minute * MINUTE + c.second * SECOND + c.micro
  }

  /** Microseconds since the first day of year 1, UTC; a naive datetime is taken in the given zone. */
  function Instant(t: Timestamp, zone: int): int
    requires t.date.year > 0
  {
    Days(t.date) * DAY + Micros(t.clock) - if t.offset.Some? then t.offset.value else zone
  }

  // --- the day count is the calendar's --------------------------------------------------

  function Tomorrow(d: Date): Date {
    if d.day < DaysIn(d.year, d.month) then Date(d.year, d.month, d.day + 1)
    else if d.month < 12 then Date(d.year, d.month + 1, 1)
    else Date(d.year + 1, 1, 1)
  }

  lemma FourYears(y: nat)
    ensures y > 0 ==> y / 4 - (y - 1) / 4 == if y % 4 == 0 then 1 else 0
  {
  }

  lemma Century(y: nat)
    ensures y > 0 ==> y / 100 - (y - 1) / 100 == if y % 100 == 0 then 1 else 0
  {
  }

  lemma FourCenturies(y: nat)
    ensures y > 0 ==> y / 400 - (y - 1) / 400 == if y % 400 == 0 then 1 else 0
    ensures y % 400 == 0 ==> y % 100 == 0
    ensures y % 100 == 0 ==> y % 4 == 0
  {
  }

  function YearLength(year: nat): nat {
    if IsLeap(year) then 366 else 365
  }

  lemma YearsAddUp(year: nat)
    requires year > 0
    ensures DaysBeforeYear(year + 1) == DaysBeforeYear(year) + YearLength(year)
  {
    FourYears(year);
    Century(year);
    FourCenturies(year);
  }

  lemma MonthsAddUp(year: nat)
    ensures DaysBeforeMonth(year, 12) + DaysIn(year, 12) == YearLength(year)
  {
    var february := DaysIn(year, 2);
    assert DaysBeforeMonth(year, 2) == 31;
    assert DaysBeforeMonth(year, 4) == february + 62 && DaysBeforeMonth(year, 3) == february + 31;
    assert DaysBeforeMonth(year, 6) == february + 123 && DaysBeforeMonth(year, 5) == february + 92;
    assert DaysBeforeMonth(year, 8) == february + 184 && DaysBeforeMonth(year, 7) == february + 153;
    assert DaysBeforeMonth(year, 10) == february + 245 && DaysBeforeMonth(year, 9) == february + 215;
    assert DaysBeforeMonth(year, 11) == february + 276;
  }

  /** The day count starts at zero and grows by one from each date to the next. */
  lemma DaysCount(d: Date)
    requires ValidDate(d)
    ensures Days(Date(1, 1, 1)) == 0 && Days(Tomorrow(d)) == Days(d) + 1
  {
    if d.day == DaysIn(d.year, d.month) && d.month == 12 {
      YearsAddUp(d.year);
      MonthsAddUp(d.year);
    }
  }

  // --- order ----------------------------------------------------------------------------

  predicate DateBefore(d: Date, e: Date) {
    d.year < e.year || (d.year == e.year && (d.month < e.month || (d.month == e.month && d.day < e.day)))
  }

  predicate ClockBefore(c: Clock, e: Clock) {
    || c.hour < e.hour
    || (c.hour == e.hour && (c.minute < e.minute
        || (c.minute == e.minute && (c.second < e.second || (c.second == e.second && c.micro < e.micro)))))
  }

  /** Field by field, from the year down. */
  predicate Before(t: Timestamp, u: Timestamp) {
    DateBefore(t.date, u.date) || (t.date == u.date && ClockBefore(t.clock, u.clock))
  }

  lemma {:induction false} MonthsGrow(year: nat, m: nat, n: nat)
    requires 1 <= m < n
    ensures DaysBeforeMonth(year, m) + DaysIn(year, m) <= DaysBeforeMonth(year, n)
  {
    if m < n - 1 {
      MonthsGrow(year, m, n - 1);
    }
  }

  lemma {:induction false} YearsGrow(y: nat, z: nat)
    requires 0 < y < z
    ensures DaysBeforeYear(y) + YearLength(y) <= DaysBeforeYear(z)
  {
    YearsAddUp(z - 1);
    if y < z - 1 {
      YearsGrow(y, z - 1);
    }
  }

  lemma WithinYear(d: Date)
    requires ValidDate(d)
    ensures 0 <= DaysBeforeMonth(d.year, d.month) + d.day - 1 < YearLength(d.year)
  {
    MonthsAddUp(d.year);
    if d.month < 12 {
      MonthsGrow(d.year, d.month, 12);
    }
  }

  lemma DaysGrow(d: Date, e: Date)
    requires ValidDate(d) && ValidDate(e) && DateBefore(d, e)
    ensures Days(d) < Days(e)
  {
    WithinYear(d);
    WithinYear(e);
    if d.year < e.year {
      YearsGrow(d.year, e.year);
    } else if d.month < e.month {
      MonthsGrow(d.year, d.month, e.month);
    }
  }

  lemma MicrosGrow(c: Clock, e: Clock)
    requires ValidClock(c) && ValidClock(e)
    ensures 0 <= Micros(c) < DAY && (ClockBefore(c, e) ==> Micros(c) < Micros(e))
  {
  }

  lemma DayDecides(d: int, e: int, a: int, b: int)
    requires d < e && 0 <= a < DAY && 0 <= b < DAY
    ensures d * DAY + a < e * DAY + b
  {
  }

  lemma BeforeIsEarlier(t: Timestamp, u: Timestamp, zone: int)
    requires Valid(t) && Valid(u) && t.offset == u.offset && Before(t, u)
    ensures Instant(t, zone) < Instant(u, zone)
  {
    MicrosGrow(t.clock, u.clock);
    MicrosGrow(u.clock, t.clock);
    if DateBefore(t.date, u.date) {
      DaysGrow(t.date, u.date);
      DayDecides(Days(t.date), Days(u.date), Micros(t.clock), Micros(u.clock));
    } else {
      assert Days(t.date) == Days(u.date);
    }
  }

  /** At one offset, datetimes compare as their instants do; distinct ones denote distinct instants. */
  lemma InstantOrders(t: Timestamp, u: Timestamp, zone: int)
    requires Valid(t) && Valid(u) && t.offset == u.offset
    ensures Before(t, u) <==> Instant(t, zone) < Instant(u, zone)
    ensures t == u <==> Instant(t, zone) == Instant(u, zone)
  {
    if Before(t, u) {
      BeforeIsEarlier(t, u, zone);
    } else if Before(u, t) {
      BeforeIsEarlier(u, t, zone);
    }
  }

  // --- every instant has a rendering ----------------------------------------------------

  /** The date that many days after the first day of year 1. */
  function DateOf(days: nat): Date {
    if days == 0 then Date(1, 1, 1) else Tomorrow(DateOf(days - 1))
  }

  /** The days of the years 1 to 9999. */
  const LAST_DAY: int := 3_652_059

  lemma TomorrowIsValid(d: Date)
    requires ValidDate(d) && Days(d) + 1 < LAST_DAY
    ensures ValidDate(Tomorrow(d))
  {
    if d.year == 9999 && d.month == 12 && d.day == DaysIn(d.year, d.month) {
      MonthsAddUp(9999);
      assert DaysBeforeYear(9999) == 3_651_694;
    }
  }

  lemma {:induction false} DateOfDays(days: nat)
    requires days < LAST_DAY
    ensures ValidDate(DateOf(days)) && Days(DateOf(days)) == days
  {
    if days > 0 {
      DateOfDays(days - 1);
      DaysCount(DateOf(days - 1));
      TomorrowIsValid(DateOf(days - 1));
    } else {
      DaysCount(Date(1, 1, 1));
    }
  }

  function ClockOf(micros: nat): Clock {
    Clock(micros / HOUR, micros % HOUR / MINUTE, micros % HOUR % MINUTE / SECOND, micros % HOUR % MINUTE % SECOND)
  }

  lemma ClockOfMicros(micros: nat)
    requires micros < DAY
    ensures ValidClock(ClockOf(micros)) && Micros(ClockOf(micros)) == micros
  {
    var hours, rest := micros / HOUR, micros % HOUR;
    assert micros == hours * HOUR + rest;
    assert rest == rest / MINUTE * MINUTE + rest % MINUTE;
    assert rest % MINUTE == rest % MINUTE / SECOND * SECOND + rest % MINUTE % SECOND;
  }

  /** The instant falls into the years 1 to 9999 when read at this offset. */
  predicate Representable(at: int, offset: int) {
    -DAY < offset < DAY && 0 <= at + offset < LAST_DAY * DAY
  }

  /** The instant as a datetime at this offset. */
  function Stamp(at: int, offset: int): Timestamp {
    var local := if Representable(at, offset) then at + offset else 0;
    Timestamp(DateOf(local / DAY), ClockOf(local % DAY), Some(offset))
  }

  /** Every representable instant is that of a real date and time. */
  lemma StampRenders(at: int, offset: int, zone: int)
    requires Representable(at, offset)
    ensures Valid(Stamp(at, offset)) && Instant(Stamp(at, offset), zone) == at
  {
    var local := at + offset;
    assert local / DAY < LAST_DAY && local == local / DAY * DAY + local % DAY;
    DateOfDays(local / DAY);
    ClockOfMicros(local % DAY);
  }
}
