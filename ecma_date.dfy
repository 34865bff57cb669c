/**
 * The part of the ECMAScript `Date` object the membership routes use, with
 * the server in UTC: the day arithmetic of section 21.4.1 of ECMA-262
 * (DayFromYear, MakeDay, TimeClip), `setMonth`, `setDate`, the `>` comparison
 * and `toISOString` cut at the seconds.
 *
 * A date is held as its calendar fields rather than as a time value; MakeDay
 * maps the fields to the day number, and every operation is proved to agree
 * with the day arithmetic of the standard.
 */
module EcmaDate {
  import opened Wrappers
  import opened Text

  type SecondOfDay = s: int | 0 <= s < 86400

  // ---------------------------------------------------------------------------
  // Years

  predicate IsLeapYear(y: int) {
    y % 4 == 0 && (y % 100 != 0 || y % 400 == 0)
  }

  function DaysInYear(y: int): int {
    if IsLeapYear(y) then 366 else 365
  }

  /** DayFromYear: the day number of 1 January of year `y` (division is floor division). */
  function DayFromYear(y: int): int {
    365 * (y - 1970) + (y - 1969) / 4 - (y - 1901) / 100 + (y - 1601) / 400
  }

  /** Each year is as long as its leap-year rule says. */
  lemma DayFromYearStep(y: int)
    ensures DayFromYear(y + 1) == DayFromYear(y) + DaysInYear(y)
  {
    DivStep(y - 1969, 4);
    DivStep(y - 1901, 100);
    DivStep(y - 1601, 400);
  }

  /** Floor division steps up by one exactly when the dividend reaches a multiple of the divisor. */
  lemma DivStep(x: int, k: int)
    requires k > 0
    ensures (x + 1) / k == x / k + (if (x + 1) % k == 0 then 1 else 0)
  {
    var q, r := x / k, x % k;
    if r == k - 1 {
      DivUnique(x + 1, k, q + 1, 0);
    } else {
      DivUnique(x + 1, k, q, r + 1);
    }
  }

  /** Quotient and remainder are the only ones with the remainder in range. */
  lemma DivUnique(x: int, k: int, q: int, r: int)
    requires k > 0 && 0 <= r < k && x == q * k + r
    ensures x / k == q && x % k == r
  {
    var q', r' := x / k, x % k;
    if q' < q {
      MulAtLeast(q - q', k);
    } else if q' > q {
      MulAtLeast(q' - q, k);
    }
  }

  lemma {:induction false} MulAtLeast(a: int, k: int)
    requires a >= 1 && k > 0
    ensures a * k >= k
    decreases a
  {
    if a > 1 {
      MulAtLeast(a - 1, k);
      assert a * k == (a - 1) * k + k;
    }
  }

  /** A later year starts at least 365 days per year later. */
  lemma {:induction false} DayFromYearIncreasing(a: int, b: int)
    requires a < b
    ensures DayFromYear(a) + 365 * (b - a) <= DayFromYear(b)
    decreases b - a
  {
    DayFromYearStep(a);
    if a + 1 < b {
      DayFromYearIncreasing(a + 1, b);
    }
  }

  // ---------------------------------------------------------------------------
  // Months (numbered 0 to 11, as `getMonth` returns them)

  function CumulativeDays(m: int): int
    requires 0 <= m <= 12
  {
    [0, 31, 59, 90, 120, 151, 181, 212, 243, 273, 304, 334, 365][m]
  }

  /** The number of days of year `y` before the first of month `m`. */
  function DaysBeforeMonth(y: int, m: int): int
    requires 0 <= m <= 12
  {
    CumulativeDays(m) + if IsLeapYear(y) && m >= 2 then 1 else 0
  }

  function DaysInMonth(y: int, m: int): int
    requires 0 <= m < 12
  {
    DaysBeforeMonth(y, m + 1) - DaysBeforeMonth(y, m)
  }

  /** Months have 28 to 31 days and together make up the year. */
  lemma MonthLengths(y: int, m: int)
    requires 0 <= m < 12
    ensures 28 <= DaysInMonth(y, m) <= 31
    ensures DaysInMonth(y, 1) == if IsLeapYear(y) then 29 else 28
    ensures DaysBeforeMonth(y, 12) == DaysInYear(y)
  {
  }

  /** Later months start later in the year. */
  lemma {:induction false} DaysBeforeMonthIncreasing(y: int, a: int, b: int)
    requires 0 <= a < b <= 12
    ensures DaysBeforeMonth(y, a) + 28 * (b - a) <= DaysBeforeMonth(y, b)
    decreases b - a
  {
    MonthLengths(y, a);
    if a + 1 < b {
      DaysBeforeMonthIncreasing(y, a + 1, b);
    }
  }

  // ---------------------------------------------------------------------------
  // Calendar dates and MakeDay

  /** MakeDay: the day number of `date` of `month` of `year`, where a month outside 0..11 carries into the year and a date outside the month runs on into the neighbouring months. */
  function MakeDay(year: int, month: int, date: int): int {
    var ym := year + month / 12;
    var mn := month % 12;
    DayFromYear(ym) + DaysBeforeMonth(ym, mn) + date - 1
  }

  /** MakeDay on a month in 0..11 needs no carry. */
  lemma MakeDayInYear(y: int, m: int, dt: int)
    requires 0 <= m < 12
    ensures MakeDay(y, m, dt) == DayFromYear(y) + DaysBeforeMonth(y, m) + dt - 1
  {
    assert m / 12 == 0 && m % 12 == m;
  }

  /** MakeDay carries whole years out of the month number. */
  lemma MakeDayCarry(year: int, month: int, date: int)
    ensures MakeDay(year, month, date) == MakeDay(year + month / 12, month % 12, date)
  {
    MakeDayInYear(year + month / 12, month % 12, date);
  }

  /** A calendar date: `month` from 0 to 11 and `date` from 1, as `getMonth` and `getDate` give them. */
  datatype CivilDate = CivilDate(year: int, month: int, date: int)

  predicate IsCalendarDate(c: CivilDate) {
    0 <= c.month < 12 && 1 <= c.date <= DaysInMonth(c.year, c.month)
  }

  /** The day number of a date whose month is in 0..11 (its date may lie outside the month). */
  function DayOf(c: CivilDate): int
    requires 0 <= c.month < 12
  {
    DayFromYear(c.year) + DaysBeforeMonth(c.year, c.month) + c.date - 1
  }

  /** DayOf is MakeDay on months that need no carry. */
  lemma DayOfIsMakeDay(c: CivilDate)
    requires 0 <= c.month < 12
    ensures DayOf(c) == MakeDay(c.year, c.month, c.date)
  {
    MakeDayInYear(c.year, c.month, c.date);
  }

  /** The first of the month after month `m` of year `y`. */
  function NextMonth(y: int, m: int): (c: CivilDate)
    requires 0 <= m < 12
    ensures 0 <= c.month < 12 && c.date == 1
  {
    if m == 11 then CivilDate(y + 1, 0, 1) else CivilDate(y, m + 1, 1)
  }

  /** The first of the month before month `m` of year `y`. */
  function PreviousMonth(y: int, m: int): (c: CivilDate)
    requires 0 <= m < 12
    ensures 0 <= c.month < 12 && c.date == 1
  {
    if m == 0 then CivilDate(y - 1, 11, 1) else CivilDate(y, m - 1, 1)
  }

  /** The next month starts when this one ends. */
  lemma NextMonthDay(y: int, m: int)
    requires 0 <= m < 12
    ensures DayOf(NextMonth(y, m)) == DayOf(CivilDate(y, m, 1)) + DaysInMonth(y, m)
  {
    if m == 11 {
      DayFromYearStep(y);
      MonthLengths(y, m);
    }
  }

  /** The previous month ends when this one starts. */
  lemma PreviousMonthDay(y: int, m: int)
    requires 0 <= m < 12
    ensures DayOf(PreviousMonth(y, m)) + DaysInMonth(PreviousMonth(y, m).year, PreviousMonth(y, m).month) == DayOf(CivilDate(y, m, 1))
  {
    if m == 0 {
      DayFromYearStep(y - 1);
      MonthLengths(y - 1, 11);
    }
  }

  /**
   * The calendar date that day `d` of month `m` (0..11) of year `y` falls on,
   * for any `d`: surplus days run on into the following months and days
   * before the first run back into the preceding ones.
   */
  function Normalize(y: int, m: int, d: int): (c: CivilDate)
    requires 0 <= m < 12
    ensures IsCalendarDate(c)
    decreases if d < 1 then 1 else 0, if d < 1 then -d else d
  {
    MonthLengths(y, m);
    if d < 1 then
      var p := PreviousMonth(y, m);
      MonthLengths(p.year, p.month);
      Normalize(p.year, p.month, d + DaysInMonth(p.year, p.month))
    else if d <= DaysInMonth(y, m) then
      CivilDate(y, m, d)
    else
      var n := NextMonth(y, m);
      Normalize(n.year, n.month, d - DaysInMonth(y, m))
  }

  /** Normalising moves the date without moving the day it falls on. */
  lemma {:induction false} NormalizeDay(y: int, m: int, d: int)
    requires 0 <= m < 12
    ensures DayOf(Normalize(y, m, d)) == DayOf(CivilDate(y, m, d))
    decreases if d < 1 then 1 else 0, if d < 1 then -d else d
  {
    MonthLengths(y, m);
    if d < 1 {
      var p := PreviousMonth(y, m);
      MonthLengths(p.year, p.month);
      PreviousMonthDay(y, m);
      NormalizeDay(p.year, p.month, d + DaysInMonth(p.year, p.month));
    } else if d > DaysInMonth(y, m) {
      var n := NextMonth(y, m);
      NextMonthDay(y, m);
      NormalizeDay(n.year, n.month, d - DaysInMonth(y, m));
    }
  }

  /** A calendar date is already normal. */
  lemma NormalizeFixed(c: CivilDate)
    requires IsCalendarDate(c)
    ensures Normalize(c.year, c.month, c.date) == c
  {
  }

  /** A calendar date falls within its year. */
  lemma DayOfWithinYear(c: CivilDate)
    requires IsCalendarDate(c)
    ensures DayFromYear(c.year) <= DayOf(c) < DayFromYear(c.year + 1)
  {
    MonthLengths(c.year, c.month);
    if c.month < 11 {
      DaysBeforeMonthIncreasing(c.year, c.month + 1, 12);
    }
    DayFromYearStep(c.year);
  }

  /** Distinct calendar dates fall on distinct days, in calendar order. */
  lemma DayOfOrdered(a: CivilDate, b: CivilDate)
    requires IsCalendarDate(a) && IsCalendarDate(b)
    requires a.year < b.year || (a.year == b.year && (a.month < b.month || (a.month == b.month && a.date < b.date)))
    ensures DayOf(a) < DayOf(b)
  {
    if a.year < b.year {
      EarlierYear(a, b);
    } else if a.month < b.month {
      MonthLengths(a.year, a.month);
      DaysBeforeMonthIncreasing(a.year, a.month + 1, b.month + 1);
    }
  }

  /** Every date of an earlier year falls on an earlier day. */
  lemma EarlierYear(a: CivilDate, b: CivilDate)
    requires IsCalendarDate(a) && IsCalendarDate(b) && a.year < b.year
    ensures DayOf(a) < DayOf(b)
  {
    DayOfWithinYear(a);
    DayOfWithinYear(b);
    if a.year + 1 < b.year {
      DayFromYearIncreasing(a.year + 1, b.year);
    }
  }

  /** A day has exactly one calendar date. */
  lemma DayOfInjective(a: CivilDate, b: CivilDate)
    requires IsCalendarDate(a) && IsCalendarDate(b)
    ensures DayOf(a) == DayOf(b) <==> a == b
  {
    if a.year < b.year || (a.year == b.year && (a.month < b.month || (a.month == b.month && a.date < b.date))) {
      DayOfOrdered(a, b);
    } else if b.year < a.year || (a.year == b.year && (b.month < a.month || (a.month == b.month && b.date < a.date))) {
      DayOfOrdered(b, a);
    }
  }

  // ---------------------------------------------------------------------------
  // Date objects

  /** A `Date` read through its UTC getters, at one-second resolution. */
  datatype DateTime = DateTime(civil: CivilDate, second: SecondOfDay)

  /** TimeClip: a time value more than 8.64e15 ms (1e8 days) from the epoch is NaN. */
  const MaxDays: int := 100000000

  /** A day and second within the range TimeClip keeps. */
  predicate InTimeRange(day: int, second: SecondOfDay) {
    -MaxDays <= day && (day < MaxDays || (day == MaxDays && second == 0))
  }

  predicate InRange(t: DateTime) {
    IsCalendarDate(t.civil) && InTimeRange(DayOf(t.civil), t.second)
  }

  /** A `Date` object that is not an Invalid Date. */
  type ValidDate = t: DateTime | InRange(t) witness DateTime(CivilDate(1970, 0, 1), 0)

  /**
   * MakeDate and TimeClip of day `c.date` (any integer) of month `c.month`
   * (0..11) of year `c.year`, at `second`; `None` stands for NaN, an Invalid
   * Date.
   */
  function TimeClip(c: CivilDate, second: SecondOfDay): Option<ValidDate>
    requires 0 <= c.month < 12
  {
    var t := DateTime(Normalize(c.year, c.month, c.date), second);
    if InRange(t) then Some(t) else None
  }

  /** TimeClip keeps exactly the time values within 1e8 days of the epoch, on the same day. */
  lemma TimeClipDay(c: CivilDate, second: SecondOfDay)
    requires 0 <= c.month < 12
    ensures TimeClip(c, second).Some? <==> InTimeRange(DayOf(c), second)
    ensures TimeClip(c, second).Some? ==> DayOf(TimeClip(c, second).value.civil) == DayOf(c) && TimeClip(c, second).value.second == second
  {
    NormalizeDay(c.year, c.month, c.date);
  }

  /**
   * The month and year MakeDay uses for month number `month` of year `year`:
   * `year + floor(month / 12)` and `month modulo 12`.
   */
  function CarryMonth(year: int, month: int, date: int): (c: CivilDate)
    ensures 0 <= c.month < 12
  {
    CivilDate(year + month / 12, month % 12, date)
  }

  /** Carrying the month changes nothing about the day MakeDay names. */
  lemma CarryMonthDay(year: int, month: int, date: int)
    ensures DayOf(CarryMonth(year, month, date)) == MakeDay(year, month, date)
  {
  }

  /** `t.setMonth(month)`: the same date and time of day in `month` (which may lie outside 0..11) of the same year. */
  function SetMonth(t: ValidDate, month: int): Option<ValidDate> {
    TimeClip(CarryMonth(t.civil.year, month, t.civil.date), t.second)
  }

  /** `t.setDate(date)`: the same year, month and time of day with the given day of the month. */
  function SetDate(t: ValidDate, date: int): Option<ValidDate> {
    TimeClip(CivilDate(t.civil.year, t.civil.month, date), t.second)
  }

  /** `setMonth` lands on day MakeDay(year, month, date), or on NaN outside the range of time values. */
  lemma SetMonthDay(t: ValidDate, month: int)
    ensures SetMonth(t, month).Some? <==> InTimeRange(MakeDay(t.civil.year, month, t.civil.date), t.second)
    ensures SetMonth(t, month).Some? ==> DayOf(SetMonth(t, month).value.civil) == MakeDay(t.civil.year, month, t.civil.date)
  {
    var c := CarryMonth(t.civil.year, month, t.civil.date);
    TimeClipDay(c, t.second);
    CarryMonthDay(t.civil.year, month, t.civil.date);
  }

  /** `d.setMonth(d.getMonth() + n)`. */
  function AddMonths(t: ValidDate, n: int): Option<ValidDate> {
    SetMonth(t, t.civil.month + n)
  }

  /** `d.setDate(d.getDate() + 1)`. */
  function NextDay(t: ValidDate): Option<ValidDate> {
    SetDate(t, t.civil.date + 1)
  }

  /** `setMonth(getMonth() + n)` then `setDate(getDate() + 1)`: the expiry a payment buys; NaN stays NaN. */
  function ExtendBy(t: ValidDate, months: int): Option<ValidDate> {
    match AddMonths(t, months)
    case None => None
    case Some(u) => NextDay(u)
  }

  /** The relational comparison `a > b` of two dates, on their time values. */
  predicate Later(a: ValidDate, b: ValidDate) {
    DayOf(a.civil) > DayOf(b.civil) || (DayOf(a.civil) == DayOf(b.civil) && a.second > b.second)
  }

  /** `>` on time values is the calendar order of the fields. */
  lemma LaterIsCalendarOrder(a: ValidDate, b: ValidDate)
    ensures Later(a, b) <==>
      || a.civil.year > b.civil.year
      || (a.civil.year == b.civil.year && a.civil.month > b.civil.month)
      || (a.civil.year == b.civil.year && a.civil.month == b.civil.month && a.civil.date > b.civil.date)
      || (a.civil == b.civil && a.second > b.second)
  {
    var x, y := a.civil, b.civil;
    if x.year < y.year || (x.year == y.year && (x.month < y.month || (x.month == y.month && x.date < y.date))) {
      DayOfOrdered(x, y);
    } else if y.year < x.year || (x.year == y.year && (y.month < x.month || (x.month == y.month && y.date < x.date))) {
      DayOfOrdered(y, x);
    }
  }

  /** Adding a day with `setDate(getDate() + 1)` is exactly one day later, across month and year ends. */
  lemma NextDayIsOneDayLater(t: ValidDate)
    ensures NextDay(t).Some? <==> InTimeRange(DayOf(t.civil) + 1, t.second)
    ensures NextDay(t).Some? ==> DayOf(NextDay(t).value.civil) == DayOf(t.civil) + 1 && NextDay(t).value.second == t.second
  {
    TimeClipDay(CivilDate(t.civil.year, t.civil.month, t.civil.date + 1), t.second);
  }

  /**
   * Where a day of the month up to 31 lands in month `c.month`: that day when
   * the month is long enough, otherwise the surplus days into the next month.
   */
  function Settle(c: CivilDate): (r: CivilDate)
    requires 0 <= c.month < 12 && 1 <= c.date <= 31
    ensures IsCalendarDate(r)
  {
    MonthLengths(c.year, c.month);
    if c.date <= DaysInMonth(c.year, c.month) then c
    else
      var nm := NextMonth(c.year, c.month);
      MonthLengths(nm.year, nm.month);
      CivilDate(nm.year, nm.month, c.date - DaysInMonth(c.year, c.month))
  }

  /** For such a day, Normalize and Settle agree. */
  lemma NormalizeSettle(c: CivilDate)
    requires 0 <= c.month < 12 && 1 <= c.date <= 31
    ensures Normalize(c.year, c.month, c.date) == Settle(c)
  {
    var r := Settle(c);
    NormalizeFixed(r);
    MonthLengths(c.year, c.month);
    if c.date > DaysInMonth(c.year, c.month) {
      var nm := NextMonth(c.year, c.month);
      assert Normalize(c.year, c.month, c.date) == Normalize(nm.year, nm.month, r.date);
    }
  }

  /** TimeClip of a day of the month up to 31 lands on the date Settle gives. */
  lemma TimeClipSettle(c: CivilDate, second: SecondOfDay)
    requires 0 <= c.month < 12 && 1 <= c.date <= 31
    ensures TimeClip(c, second).Some? ==> TimeClip(c, second).value == DateTime(Settle(c), second)
  {
    NormalizeSettle(c);
  }

  /**
   * `setMonth(getMonth() + n)` lands in the month `getMonth() + n` names,
   * carried into the year, keeping the day of the month when that month is
   * long enough, and otherwise letting the surplus days run on into the
   * following month; the time of day is kept.
   */
  lemma AddMonthsCalendar(t: ValidDate, n: int)
    ensures AddMonths(t, n).Some? ==>
      AddMonths(t, n).value == DateTime(Settle(CarryMonth(t.civil.year, t.civil.month + n, t.civil.date)), t.second)
  {
    SetMonthSettles(t.civil, t.second, t.civil.month + n);
  }

  /** Extending by a non-negative number of months always ends strictly later than the date extended. */
  lemma ExtendByLater(t: ValidDate, n: nat)
    ensures ExtendBy(t, n).Some? ==> Later(ExtendBy(t, n).value, t)
  {
    if AddMonths(t, n).Some? {
      AddMonthsNotEarlier(t, n);
      NextDayIsOneDayLater(AddMonths(t, n).value);
    }
  }

  /** Moving a date on by a non-negative number of months never lands on an earlier day. */
  lemma AddMonthsNotEarlier(t: ValidDate, n: nat)
    ensures AddMonths(t, n).Some? ==> DayOf(AddMonths(t, n).value.civil) >= DayOf(t.civil)
  {
    AddMonthsCalendar(t, n);
    SettledNotEarlier(t.civil, n);
  }

  /** The date `n` months on from a calendar date, as setMonth settles it, is not an earlier day. */
  lemma SettledNotEarlier(c: CivilDate, n: nat)
    requires IsCalendarDate(c)
    ensures 1 <= c.date <= 31
    ensures DayOf(Settle(CarryMonth(c.year, c.month + n, c.date))) >= DayOf(c)
  {
    assert 1 <= c.date <= 31 by {
      MonthLengths(c.year, c.month);
    }
    var e := CarryMonth(c.year, c.month + n, c.date);
    SettleKeepsDay(e);
    CarryNotEarlier(c, n);
  }

  /** Settling a date does not move its day. */
  lemma SettleKeepsDay(c: CivilDate)
    requires 0 <= c.month < 12 && 1 <= c.date <= 31
    ensures DayOf(Settle(c)) == DayOf(c)
  {
    NormalizeSettle(c);
    NormalizeDay(c.year, c.month, c.date);
  }

  /** A non-negative number of months on, the same day of the month is not earlier. */
  lemma CarryNotEarlier(c: CivilDate, n: nat)
    requires 0 <= c.month < 12
    ensures DayOf(CarryMonth(c.year, c.month + n, c.date)) >= DayOf(c)
  {
    var e := CarryMonth(c.year, c.month + n, c.date);
    assert e.year > c.year || (e.year == c.year && e.month >= c.month);
    MonthsOrdered(c.year, c.month, e.year, e.month, c.date);
  }

  /** The same day of a month that is not earlier in the calendar is not an earlier day. */
  lemma MonthsOrdered(y: int, m: int, y2: int, m2: int, d: int)
    requires 0 <= m < 12 && 0 <= m2 < 12
    requires y2 > y || (y2 == y && m2 >= m)
    ensures DayOf(CivilDate(y2, m2, d)) >= DayOf(CivilDate(y, m, d))
  {
    if y2 != y || m2 != m {
      MonthLengths(y, m);
      MonthLengths(y2, m2);
      DayOfOrdered(CivilDate(y, m, 1), CivilDate(y2, m2, 1));
    }
  }


  /** TimeClip of a calendar date moved to any month settles the day of the month as Settle says. */
  lemma SetMonthSettles(c: CivilDate, second: SecondOfDay, month: int)
    requires IsCalendarDate(c)
    ensures 1 <= c.date <= 31
    ensures TimeClip(CarryMonth(c.year, month, c.date), second).Some? ==>
      TimeClip(CarryMonth(c.year, month, c.date), second).value == DateTime(Settle(CarryMonth(c.year, month, c.date)), second)
  {
    MonthLengths(c.year, c.month);
    TimeClipSettle(CarryMonth(c.year, month, c.date), second);
  }

  // ---------------------------------------------------------------------------
  // toISOString

  /** The year field of the date time string format: four digits, or a sign and six digits outside 0..9999. */
  function YearField(y: int): string {
    if 0 <= y <= 9999 then Digits(y, 4)
    else if y < 0 then "-" + Digits(-y, 6)
    else "+" + Digits(y, 6)
  }

  /** `t.toISOString().split('T')[0]`: "YYYY-MM-DD". */
  function IsoDate(t: DateTime): string
    requires IsCalendarDate(t.civil)
  {
    YearField(t.civil.year) + "-" + Digits(t.civil.month + 1, 2) + "-" + Digits(t.civil.date, 2)
  }

  /** The year field of "YYYY-MM-DD" is followed by a dash, whatever its width. */
  lemma YearThenDash(t: DateTime)
    requires IsCalendarDate(t.civil)
    ensures IsoDate(t)[|YearField(t.civil.year)|] == '-'
  {
    var rest := "-" + Digits(t.civil.month + 1, 2) + "-" + Digits(t.civil.date, 2);
    assert IsoDate(t) == YearField(t.civil.year) + rest;
  }

  /** "HH:mm:ss" of a second of the day. */
  function TimeOfDay(second: SecondOfDay): string {
    Digits(second / 3600, 2) + ":" + Digits(second / 60 % 60, 2) + ":" + Digits(second % 60, 2)
  }

  /** `t.toISOString().split(".")[0]`: "YYYY-MM-DDTHH:mm:ss", the milliseconds and the "Z" cut off. */
  function IsoSeconds(t: DateTime): string
    requires IsCalendarDate(t.civil)
  {
    IsoDate(t) + "T" + TimeOfDay(t.second)
  }

  /** "HH:mm:ss" reads back as the second of the day. */
  lemma TimeOfDayFields(second: SecondOfDay)
    ensures |TimeOfDay(second)| == 8 && TimeOfDay(second)[2] == ':' && TimeOfDay(second)[5] == ':'
    ensures DigitsValue(TimeOfDay(second)[0..2]) * 3600 + DigitsValue(TimeOfDay(second)[3..5]) * 60
            + DigitsValue(TimeOfDay(second)[6..8]) == second
  {
    var hh, mm, ss := second / 3600, second / 60 % 60, second % 60;
    SecondsSplit(second);
    SeparatedFields(Digits(hh, 2), Digits(mm, 2), Digits(ss, 2), ":");
    assert Pow10(2) == 100;
    DigitsRoundTrip(hh, 2);
    DigitsRoundTrip(mm, 2);
    DigitsRoundTrip(ss, 2);
  }

  /** Hours, minutes and seconds add back up to the second of the day. */
  lemma SecondsSplit(second: SecondOfDay)
    ensures second / 3600 < 24
    ensures second / 3600 * 3600 + second / 60 % 60 * 60 + second % 60 == second
  {
    var q, r := second / 60, second % 60;
    var mm := q % 60;
    DivUnique(second, 3600, q / 60, 60 * mm + r);
  }

  /** "YYYY-MM-DD" reads back as the date's fields when the year has four digits. */
  lemma IsoDateFields(t: DateTime)
    requires IsCalendarDate(t.civil) && 0 <= t.civil.year <= 9999
    ensures |IsoDate(t)| == 10 && IsoDate(t)[4] == '-' && IsoDate(t)[7] == '-'
    ensures DigitsValue(IsoDate(t)[0..4]) == t.civil.year
    ensures DigitsValue(IsoDate(t)[5..7]) == t.civil.month + 1
    ensures DigitsValue(IsoDate(t)[8..10]) == t.civil.date
  {
    MonthLengths(t.civil.year, t.civil.month);
    DateFields(t.civil.year, t.civil.month + 1, t.civil.date);
  }

  /** A four-digit year, a month number and a day number written "YYYY-MM-DD" read back field by field. */
  lemma DateFields(year: nat, month: nat, date: nat)
    requires year < 10000 && month < 100 && date < 100
    ensures |Digits(year, 4) + "-" + Digits(month, 2) + "-" + Digits(date, 2)| == 10
    ensures (Digits(year, 4) + "-" + Digits(month, 2) + "-" + Digits(date, 2))[4] == '-'
    ensures (Digits(year, 4) + "-" + Digits(month, 2) + "-" + Digits(date, 2))[7] == '-'
    ensures DigitsValue((Digits(year, 4) + "-" + Digits(month, 2) + "-" + Digits(date, 2))[0..4]) == year
    ensures DigitsValue((Digits(year, 4) + "-" + Digits(month, 2) + "-" + Digits(date, 2))[5..7]) == month
    ensures DigitsValue((Digits(year, 4) + "-" + Digits(month, 2) + "-" + Digits(date, 2))[8..10]) == date
  {
    SeparatedFields(Digits(year, 4), Digits(month, 2), Digits(date, 2), "-");
    assert Pow10(2) == 100 && Pow10(4) == 10000;
    DigitsRoundTrip(year, 4);
    DigitsRoundTrip(month, 2);
    DigitsRoundTrip(date, 2);
  }

  /** For a four-digit year the string reads back as the date's fields, at fixed positions. */
  lemma IsoSecondsFields(t: DateTime)
    requires IsCalendarDate(t.civil) && 0 <= t.civil.year <= 9999
    ensures |IsoSeconds(t)| == 19
    ensures IsoSeconds(t)[4] == '-' && IsoSeconds(t)[7] == '-' && IsoSeconds(t)[10] == 'T'
    ensures IsoSeconds(t)[13] == ':' && IsoSeconds(t)[16] == ':'
    ensures DigitsValue(IsoSeconds(t)[0..4]) == t.civil.year
    ensures DigitsValue(IsoSeconds(t)[5..7]) == t.civil.month + 1
    ensures DigitsValue(IsoSeconds(t)[8..10]) == t.civil.date
    ensures DigitsValue(IsoSeconds(t)[11..13]) * 3600 + DigitsValue(IsoSeconds(t)[14..16]) * 60
            + DigitsValue(IsoSeconds(t)[17..19]) == t.second
  {
    var d, h := IsoDate(t), TimeOfDay(t.second);
    IsoDateFields(t);
    TimeOfDayFields(t.second);
    JoinedHalves(d, h, "T", 0, 4, 0, 2);
    JoinedHalves(d, h, "T", 5, 7, 3, 5);
    JoinedHalves(d, h, "T", 8, 10, 6, 8);
  }

  // ---------------------------------------------------------------------------
  // Worked examples

  /** Day numbers of the dates the examples below land on, counted from 1 January 1970. */
  lemma ExampleDayNumbers()
    ensures DayOf(CivilDate(2024, 1, 31)) == 19784
    ensures DayOf(CivilDate(2025, 0, 15)) == 20103
  {
  }

  /** 31 January 2024 plus one month is 2 March 2024: February 2024 has 29 days and the two extra days roll on. */
  lemma JanuaryThirtyFirstPlusOneMonth(t: ValidDate)
    requires t.civil == CivilDate(2024, 0, 31)
    ensures AddMonths(t, 1).Some? && AddMonths(t, 1).value.civil == CivilDate(2024, 2, 2)
  {
    var target := CivilDate(2024, 1, 31);
    assert CarryMonth(t.civil.year, t.civil.month + 1, t.civil.date) == target;
    assert AddMonths(t, 1).Some? by {
      assert AddMonths(t, 1) == TimeClip(target, t.second);
      ExampleDayNumbers();
      TimeClipDay(target, t.second);
    }
    assert Settle(target) == CivilDate(2024, 2, 2) by {
      MonthLengths(2024, 1);
    }
    AddMonthsCalendar(t, 1);
  }

  /** A payment on 15 January 2024 with a twelve-month extension expires on 16 January 2025. */
  lemma TwelveMonthsAndADay(t: ValidDate)
    requires t.civil == CivilDate(2024, 0, 15)
    ensures ExtendBy(t, 12).Some? && ExtendBy(t, 12).value.civil == CivilDate(2025, 0, 16)
  {
    var target := CivilDate(2025, 0, 15);
    assert AddMonths(t, 12) == TimeClip(target, t.second);
    ExampleDayNumbers();
    TimeClipDay(target, t.second);
    AddMonthsCalendar(t, 12);
    var u := AddMonths(t, 12).value;
    assert u.civil == target;
    var next := CivilDate(2025, 0, 16);
    TimeClipDay(next, t.second);
    NormalizeFixed(next);
  }

  /** 16 January 2025 is written "2025-01-16". */
  lemma IsoDateExample()
    ensures IsoDate(DateTime(CivilDate(2025, 0, 16), 0)) == "2025-01-16"
  {
    ExampleFields();
  }

  /** The fields of 16 January 2025, zero-padded. */
  lemma ExampleFields()
    ensures Digits(2025, 4) == "2025" && Digits(1, 2) == "01" && Digits(16, 2) == "16"
  {
    assert Digits(2, 1) == "2";
    assert Digits(20, 2) == "20";
    assert Digits(202, 3) == "202";
  }

  /** Midnight is written "00:00:00". */
  lemma MidnightExample()
    ensures TimeOfDay(0) == "00:00:00"
  {
    assert Digits(0, 2) == "00";
  }

  /** Midnight UTC on 16 January 2025 is written "2025-01-16T00:00:00". */
  lemma IsoSecondsExample()
    ensures IsoSeconds(DateTime(CivilDate(2025, 0, 16), 0)) == "2025-01-16T00:00:00"
  {
    IsoDateExample();
    MidnightExample();
  }
}
