/**
 Civil dates. The closed formula for the number of days since 1970-01-01 is the number that one gets
 by counting years, months and days in the Gregorian calendar (RFC 3339, sections 5.6 and 5.7 and appendix C).
 */
module Calendar {

  predicate Leap(year: int) {
    year % 4 == 0 && (year % 100 != 0 || year % 400 == 0)
  }

  function MonthLength(year: int, month: int): int {
    if month == 2 then (if Leap(year) then 29 else 28)
    else if month == 4 || month == 6 || month == 9 || month == 11 then 30
    else 31
  }

  function YearLength(year: int): int {
    if Leap(year) then 366 else 365
  }

  // ---------------------------------------------------------------- counting

  /** The day number of January 1st, counted year by year from 1970 in both directions. */
  function YearStart(year: int): int
    decreases if year >= 1970 then year - 1970 else 1970 - year
  {
    if year == 1970 then 0
    else if year > 1970 then YearStart(year - 1) + YearLength(year - 1)
    else YearStart(year + 1) - YearLength(year)
  }

  /** Days of the year before the month. */
  function MonthStart(year: int, month: int): int
    requires 1 <= month
    decreases month
  {
    if month == 1 then 0 else MonthStart(year, month - 1) + MonthLength(year, month - 1)
  }

  datatype Date = Date(year: int, month: int, day: int)

  predicate ValidDate(d: Date) {
    1 <= d.month <= 12 && 1 <= d.day <= MonthLength(d.year, d.month)
  }

  function DayNumber(d: Date): int
    requires 1 <= d.month
  {
    YearStart(d.year) + MonthStart(d.year, d.month) + d.day - 1
  }

  function NextDay(d: Date): (n: Date)
    requires ValidDate(d)
    ensures ValidDate(n)
  {
    if d.day < MonthLength(d.year, d.month) then Date(d.year, d.month, d.day + 1)
    else if d.month < 12 then Date(d.year, d.month + 1, 1)
    else Date(d.year + 1, 1, 1)
  }

  lemma YearAfterYear(year: int)
    ensures YearStart(year + 1) == YearStart(year) + YearLength(year)
  {
  }

  lemma MonthsMakeAYear(year: int)
    ensures MonthStart(year, 12) + MonthLength(year, 12) == YearLength(year)
    ensures forall m :: 1 <= m <= 12 ==> MonthStart(year, m) == MonthTable(year, m)
  {
    assert MonthStart(year, 1) == 0;
    assert MonthStart(year, 2) == 31;
    assert MonthStart(year, 3) == 59 + LeapDay(year);
    assert MonthStart(year, 4) == 90 + LeapDay(year);
    assert MonthStart(year, 5) == 120 + LeapDay(year);
    assert MonthStart(year, 6) == 151 + LeapDay(year);
    assert MonthStart(year, 7) == 181 + LeapDay(year);
    assert MonthStart(year, 8) == 212 + LeapDay(year);
    assert MonthStart(year, 9) == 243 + LeapDay(year);
    assert MonthStart(year, 10) == 273 + LeapDay(year);
    assert MonthStart(year, 11) == 304 + LeapDay(year);
    assert MonthStart(year, 12) == 334 + LeapDay(year);
    forall m | 1 <= m <= 12 ensures MonthStart(year, m) == MonthTable(year, m) {
      assert m == 1 || m == 2 || m == 3 || m == 4 || m == 5 || m == 6 || m == 7 || m == 8 || m == 9 || m == 10 || m == 11 || m == 12;
    }
  }

  function LeapDay(year: int): int {
    if Leap(year) then 1 else 0
  }

  /** The days before a month, for a year that begins in March: Hinnant's (153 m + 2) / 5. */
  function MonthTable(year: int, month: int): int {
    if month <= 2 then (month - 1) * 31 else (153 * (month - 3) + 2) / 5 + 59 + LeapDay(year)
  }

  /** The count is right: the epoch is day 0 and every next day, over all month and year ends, is one more. */
  lemma NextDayIsOneMore(d: Date)
    requires ValidDate(d)
    ensures DayNumber(NextDay(d)) == DayNumber(d) + 1
    ensures DayNumber(Date(1970, 1, 1)) == 0
  {
    if d.month == 12 {
      MonthsMakeAYear(d.year);
      YearAfterYear(d.year);
    }
  }

  // ---------------------------------------------------------------- the closed formula

  function ClosedDays(year: int, month: int, day: int): int {
    var y := if month <= 2 then year - 1 else year;
    var m := if month <= 2 then month + 9 else month - 3;
    var era := y / 400;
    var yearOfEra := y - era * 400;
    var dayOfYear := (153 * m + 2) / 5 + day - 1;
    var dayOfEra := yearOfEra * 365 + yearOfEra / 4 - yearOfEra / 100 + dayOfYear;
    era * 146_097 + dayOfEra - 719_468
  }

  /** The formula's day number of March 1st of a year. */
  function March(year: int): int {
    var era := year / 400;
    var yearOfEra := year - era * 400;
    era * 146_097 + yearOfEra * 365 + yearOfEra / 4 - yearOfEra / 100 - 719_468
  }

  lemma LeapInEra(year: int)
    ensures var n := year - (year / 400) * 400;
            0 <= n < 400 && (Leap(year) <==> n % 4 == 0 && (n % 100 != 0 || n == 0))
  {
    var era, n := year / 400, year - (year / 400) * 400;
    assert year == 4 * (100 * era) + n && year == 100 * (4 * era) + n;
    assert n == year % 400;
  }

  /** From one March 1st to the next there is a leap day exactly if the later year has one. */
  lemma MarchToMarch(year: int)
    ensures March(year) == March(year - 1) + YearLength(year)
  {
    LeapInEra(year);
    var era, n := year / 400, year - (year / 400) * 400;
    if n == 0 {
      assert (year - 1) / 400 == era - 1;
    } else {
      assert (year - 1) / 400 == era;
      Quarters(n, 4);
      Quarters(n, 100);
    }
  }

  lemma Quarters(n: int, k: int)
    requires n > 0 && (k == 4 || k == 100)
    ensures n / k - (n - 1) / k == if n % k == 0 then 1 else 0
  {
  }

  lemma {:induction false} MarchCounts(year: int)
    ensures March(year) == YearStart(year) + 59 + LeapDay(year)
    decreases if year >= 1970 then year - 1970 else 1970 - year
  {
    if year > 1970 {
      MarchCounts(year - 1);
      MarchToMarch(year);
    } else if year < 1970 {
      MarchCounts(year + 1);
      MarchToMarch(year + 1);
    }
  }

  /** The formula is the count: for every year, month and day number, also a day past the end of its month. */
  lemma ClosedFormCounts(year: int, month: int, day: int)
    requires 1 <= month <= 12
    ensures ClosedDays(year, month, day) == YearStart(year) + MonthStart(year, month) + day - 1
    ensures ClosedDays(year, month, day) == DayNumber(Date(year, month, day))
  {
    hide ClosedDays, March, MonthStart, YearStart;
    ClosedFromMarch(year, month, day);
    MonthsMakeAYear(year);
    MarchCounts(year);
    MarchCounts(year - 1);
    YearAfterYear(year - 1);
  }

  lemma ClosedFromMarch(year: int, month: int, day: int)
    requires 1 <= month <= 12
    ensures month > 2 ==> ClosedDays(year, month, day) == March(year) + (153 * (month - 3) + 2) / 5 + day - 1
    ensures month <= 2 ==> ClosedDays(year, month, day) == March(year - 1) + 306 + 31 * (month - 1) + day - 1
  {
  }

  // ---------------------------------------------------------------- order

  predicate EarlierDate(a: Date, b: Date) {
    a.year < b.year || (a.year == b.year && (a.month < b.month || (a.month == b.month && a.day < b.day)))
  }

  lemma {:induction false} LaterMonthsAreLater(year: int, a: int, b: int)
    requires 1 <= a < b
    ensures MonthStart(year, a) + MonthLength(year, a) <= MonthStart(year, b)
    decreases b
  {
    if b > a + 1 { LaterMonthsAreLater(year, a, b - 1); }
  }

  lemma {:induction false} LaterYearsAreLater(a: int, b: int)
    requires a < b
    ensures YearStart(a) + YearLength(a) <= YearStart(b)
    decreases b - a
  {
    YearAfterYear(b - 1);
    if b > a + 1 { LaterYearsAreLater(a, b - 1); }
  }

  lemma DateInItsYear(d: Date)
    requires ValidDate(d)
    ensures YearStart(d.year) <= DayNumber(d) < YearStart(d.year) + YearLength(d.year)
    ensures 0 <= MonthStart(d.year, d.month)
  {
    MonthsMakeAYear(d.year);
    if d.month < 12 { LaterMonthsAreLater(d.year, d.month, 12); }
    if d.month > 1 { LaterMonthsAreLater(d.year, 1, d.month); }
  }

  lemma EarlierIsLess(a: Date, b: Date)
    requires ValidDate(a) && ValidDate(b) && EarlierDate(a, b)
    ensures DayNumber(a) < DayNumber(b)
  {
    DateInItsYear(a);
    DateInItsYear(b);
    if a.year < b.year {
      LaterYearsAreLater(a.year, b.year);
    } else if a.month < b.month {
      LaterMonthsAreLater(a.year, a.month, b.month);
    }
  }

  /** Day numbers order valid dates as the calendar does, and tell them apart. */
  lemma DatesKeepTheirOrder(a: Date, b: Date)
    requires ValidDate(a) && ValidDate(b)
    ensures DayNumber(a) < DayNumber(b) <==> EarlierDate(a, b)
    ensures DayNumber(a) == DayNumber(b) <==> a == b
  {
    if EarlierDate(a, b) {
      EarlierIsLess(a, b);
    } else if EarlierDate(b, a) {
      EarlierIsLess(b, a);
    } else {
      assert a == b;
    }
  }

  // ---------------------------------------------------------------- instants

  datatype Instant = Instant(date: Date, hour: int, minute: int, second: int, millis: int)

  function UnixMs(t: Instant): int {
    ((ClosedDays(t.date.year, t.date.month, t.date.day) * 86_400 + t.hour * 3_600 + t.minute * 60 + t.second) * 1_000) + t.millis
  }

  /** A valid instant that is not a leap second. */
  predicate ValidInstant(t: Instant) {
    ValidDate(t.date) && 0 <= t.hour <= 23 && 0 <= t.minute <= 59 && 0 <= t.second <= 59 && 0 <= t.millis <= 999
  }

  predicate EarlierInstant(a: Instant, b: Instant) {
    || EarlierDate(a.date, b.date)
    || (a.date == b.date
        && (|| a.hour < b.hour
            || (a.hour == b.hour
                && (|| a.minute < b.minute
                    || (a.minute == b.minute
                        && (a.second < b.second || (a.second == b.second && a.millis < b.millis)))))))
  }

  function TimeOfDay(t: Instant): int {
    ((t.hour * 3_600 + t.minute * 60 + t.second) * 1_000) + t.millis
  }

  lemma WithinADay(t: Instant)
    requires ValidInstant(t)
    ensures 0 <= TimeOfDay(t) < 86_400_000
    ensures UnixMs(t) == DayNumber(t.date) * 86_400_000 + TimeOfDay(t)
  {
    ClosedFormCounts(t.date.year, t.date.month, t.date.day);
  }

  /** Times are ordered exactly as their date and time fields, apart from leap seconds. */
  lemma InstantsKeepTheirOrder(a: Instant, b: Instant)
    requires ValidInstant(a) && ValidInstant(b)
    ensures UnixMs(a) < UnixMs(b) <==> EarlierInstant(a, b)
    ensures UnixMs(a) == UnixMs(b) <==> a == b
  {
    hide DayNumber, UnixMs, EarlierDate;
    WithinADay(a);
    WithinADay(b);
    DatesKeepTheirOrder(a.date, b.date);
    DatesKeepTheirOrder(b.date, a.date);
  }

  /** Why leap seconds are left out: second 60 is the same moment as the next minute's second 0. */
  lemma LeapSecondsCollide(date: Date, hour: int, minute: int, millis: int)
    ensures UnixMs(Instant(date, hour, minute, 60, millis)) == UnixMs(Instant(date, hour, minute + 1, 0, millis))
  {
  }

  // ---------------------------------------------------------------- every moment has valid fields

  lemma {:induction false} DaysLater(d: Date, days: nat) returns (r: Date)
    requires ValidDate(d)
    ensures ValidDate(r) && DayNumber(r) == DayNumber(d) + days
  {
    r := d;
    if days > 0 {
      var almost := DaysLater(d, days - 1);
      NextDayIsOneMore(almost);
      r := NextDay(almost);
    }
  }

  lemma {:induction false} EarlyYearsAreLow(year: int)
    requires year <= 1970
    ensures YearStart(year) <= year - 1970
    decreases 1970 - year
  {
    if year < 1970 { EarlyYearsAreLow(year + 1); }
  }

  lemma EveryDayHasADate(n: int) returns (d: Date)
    ensures ValidDate(d) && DayNumber(d) == n
  {
    var year := if n < 0 then 1970 + n else 1970;
    EarlyYearsAreLow(year);
    var first := Date(year, 1, 1);
    d := DaysLater(first, n - DayNumber(first));
  }

  lemma EveryMomentHasFields(ms: int) returns (t: Instant)
    ensures ValidInstant(t) && UnixMs(t) == ms
  {
    hide DayNumber, UnixMs;
    var date := EveryDayHasADate(ms / 86_400_000);
    var rest := ms % 86_400_000;
    t := Instant(date, rest / 3_600_000, rest / 60_000 % 60, rest / 1_000 % 60, rest % 1_000);
    SplitsTheDay(rest);
    WithinADay(t);
  }

  lemma SplitsTheDay(rest: int)
    requires 0 <= rest < 86_400_000
    ensures 0 <= rest / 3_600_000 <= 23
    ensures rest == ((rest / 3_600_000 * 3_600 + rest / 60_000 % 60 * 60 + rest / 1_000 % 60) * 1_000) + rest % 1_000
  {
    assert rest / 1_000 == rest / 60_000 * 60 + rest / 1_000 % 60;
    assert rest / 60_000 == rest / 3_600_000 * 60 + rest / 60_000 % 60;
  }

  /** The milliseconds of t compare with those of every valid instant as the fields do. */
  ghost predicate OrderedAmongValid(t: Instant) {
    forall u :: ValidInstant(u) ==>
      (UnixMs(t) < UnixMs(u) <==> EarlierInstant(t, u)) && (UnixMs(u) < UnixMs(t) <==> EarlierInstant(u, t))
  }

  lemma FieldsDiffer(a: Instant, b: Instant)
    requires a != b
    ensures EarlierInstant(a, b) || EarlierInstant(b, a)
  {
    if a.date == b.date && a.hour == b.hour && a.minute == b.minute && a.second == b.second {
      assert a.millis != b.millis;
    } else if a.date.year == b.date.year && a.date.month == b.date.month && a.date.day == b.date.day {
      assert a.date == b.date;
    }
  }

  /** Fields order an instant rightly among the valid ones exactly if they are valid: any others share a valid one's moment. */
  lemma ValidExactlyIfOrdered(t: Instant)
    ensures ValidInstant(t) <==> OrderedAmongValid(t)
  {
    hide UnixMs, EarlierInstant, ValidInstant;
    if ValidInstant(t) {
      forall u | ValidInstant(u)
        ensures (UnixMs(t) < UnixMs(u) <==> EarlierInstant(t, u)) && (UnixMs(u) < UnixMs(t) <==> EarlierInstant(u, t))
      {
        InstantsKeepTheirOrder(t, u);
        InstantsKeepTheirOrder(u, t);
      }
    } else {
      var u := EveryMomentHasFields(UnixMs(t));
      FieldsDiffer(t, u);
    }
  }

  /** Every moment has exactly one valid form, so that any other fields for it are not valid. */
  lemma OneValidForm(ms: int) returns (t: Instant)
    ensures ValidInstant(t) && UnixMs(t) == ms && forall u :: ValidInstant(u) && UnixMs(u) == ms ==> u == t
  {
    hide UnixMs, EarlierInstant, ValidInstant;
    t := EveryMomentHasFields(ms);
    forall u | ValidInstant(u) && UnixMs(u) == ms ensures u == t {
      InstantsKeepTheirOrder(t, u);
    }
  }
}
