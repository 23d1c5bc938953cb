/**
 * The UTC date arithmetic of ECMAScript `Date` that the pipeline relies on:
 * `Date.UTC` (MakeDay, MakeTime, MakeDate, TimeClip), `toISOString`, and the
 * proleptic Gregorian calendar behind them. Instants are integer milliseconds
 * since 1970-01-01T00:00:00.000Z.
 */
module Calendar {
  import opened Wrappers
  import opened Text

  const MsPerDay: int := 86_400_000
  const MsPerHour: int := 3_600_000
  const MsPerMinute: int := 60_000
  const MsPerSecond: int := 1_000

  /** Largest magnitude of a valid time value; beyond it a Date is an "Invalid Date". */
  const MaxTime: int := 8_640_000_000_000_000

  predicate IsLeapYear(y: int)
  {
    y % 4 == 0 && (y % 100 != 0 || y % 400 == 0)
  }

  function DaysInMonth(y: int, m: int): (n: int)
    requires 1 <= m <= 12
    ensures 28 <= n <= 31
  {
    if m == 2 then (if IsLeapYear(y) then 29 else 28)
    else if m == 4 || m == 6 || m == 9 || m == 11 then 30
    else 31
  }

  /**
   * Number of days from 1970-01-01 to the civil date y-m-d. Years are counted from
   * March so that the leap day ends a year; `/` and `%` by a positive constant are
   * floor division and its remainder.
   */
  function DaysFromCivil(y: int, m: int, d: int): int
    requires 1 <= m <= 12
  {
    var y' := if m <= 2 then y - 1 else y;
    var era := y' / 400;
    var yoe := y' % 400;
    var mp := if m > 2 then m - 3 else m + 9;
    var doy := (153 * mp + 2) / 5 + d - 1;
    var doe := yoe * 365 + yoe / 4 - yoe / 100 + doy;
    era * 146097 + doe - 719468
  }

  /** The civil date (year, month, day) of the day `z` days after 1970-01-01. */
  function CivilFromDays(z: int): (ymd: (int, int, int))
  {
    var z' := z + 719468;
    CivilOfEra(z' / 146097, z' % 146097)
  }

  /** The civil date of day `doe` (0..146096) of the 400-year era `era`, whose day 0 is 1 March of year 400 * era. */
  function CivilOfEra(era: int, doe: int): (ymd: (int, int, int))
    requires 0 <= doe < 146097
  {
    var yoe := (doe - doe / 1460 + doe / 36524 - doe / 146096) / 365;
    var doy := doe - (365 * yoe + yoe / 4 - yoe / 100);
    var mp := (5 * doy + 2) / 153;
    var d := doy - (153 * mp + 2) / 5 + 1;
    var m := if mp < 10 then mp + 3 else mp - 9;
    var y := yoe + era * 400;
    (if m <= 2 then y + 1 else y, m, d)
  }

  /**
   * ECMAScript MakeDay(year, month, date): `month` counts from 0 and may lie outside
   * 0..11 (it carries into the year); `date` may lie outside the month (it carries
   * into the neighbouring months, so date 0 is the last day of the previous month).
   */
  function MakeDay(year: int, month: int, date: int): int
  {
    var ym := year + month / 12;
    var mn := month % 12;
    DaysFromCivil(ym, mn + 1, 1) + date - 1
  }

  /** ECMAScript TimeClip: `None` is the NaN time value of an Invalid Date. */
  function TimeClip(t: int): (r: Option<int>)
    ensures r.Some? <==> -MaxTime <= t <= MaxTime
    ensures r.Some? ==> r.value == t
  {
    if -MaxTime <= t <= MaxTime then Some(t) else None
  }

  /** `Date.UTC(year, month, date, h, mi, s, ms)`; a year 0..99 means 1900..1999. */
  function DateUtc(year: int, month: int, date: int, h: int, mi: int, s: int, ms: int): Option<int>
  {
    TimeClip(MakeDay(FullYear(year), month, date) * MsPerDay + h * MsPerHour + mi * MsPerMinute + s * MsPerSecond + ms)
  }

  /** `Date.UTC` reads a year argument from 0 to 99 as 1900 plus that year. */
  function FullYear(year: int): (y: int)
    ensures 0 <= year <= 99 ==> y == 1900 + year
    ensures !(0 <= year <= 99) ==> y == year
  {
    if 0 <= year <= 99 then 1900 + year else year
  }

  /** `new Date(t).toISOString()` for a valid time value t. */
  function ToIsoString(t: int): string
  {
    var day := t / MsPerDay;
    var msOfDay := t % MsPerDay;
    var ymd := CivilFromDays(day);
    YearText(ymd.0) + "-" + Pad2(ymd.1) + "-" + Pad2(ymd.2) + "T"
    + Pad2(msOfDay / MsPerHour) + ":" + Pad2(msOfDay % MsPerHour / MsPerMinute) + ":"
    + Pad2(msOfDay % MsPerMinute / MsPerSecond) + "." + PadNat(msOfDay % MsPerSecond, 3) + "Z"
  }

  /** Four digits for years 0..9999, otherwise a sign and six digits. */
  function YearText(y: int): string
  {
    if 0 <= y <= 9999 then PadNat(y, 4)
    else if y < 0 then "-" + PadNat(-y, 6)
    else "+" + PadNat(y, 6)
  }

  function Pad2(n: int): string
  {
    if n < 0 then IntToString(n) else PadNat(n, 2)
  }

  // ---------------------------------------------------------------------------
  // Properties of the calendar arithmetic

  /** Day numbers count from the epoch. */
  lemma EpochIsDayZero()
    ensures DaysFromCivil(1970, 1, 1) == 0
  {
  }

  /** Within a month, date d is d - 1 days after the first. */
  lemma DayOffset(y: int, m: int, d: int)
    requires 1 <= m <= 12
    ensures DaysFromCivil(y, m, d) == DaysFromCivil(y, m, 1) + d - 1
  {
  }

  lemma StepDiv4(n: int)
    ensures (n + 1) / 4 - n / 4 == if (n + 1) % 4 == 0 then 1 else 0
  {
  }

  lemma StepDiv100(n: int)
    ensures (n + 1) / 100 - n / 100 == if (n + 1) % 100 == 0 then 1 else 0
  {
  }

  /** Being a leap year depends only on the year's place in its 400-year cycle. */
  lemma LeapCycle(y: int)
    ensures IsLeapYear(y) == IsLeapYear(y % 400)
  {
    var q, r := y / 400, y % 400;
    assert y == 400 * q + r;
    assert y % 4 == r % 4 by {
      assert y == 4 * (100 * q) + r;
    }
    assert y % 100 == r % 100 by {
      assert y == 100 * (4 * q) + r;
    }
  }

  lemma MarchFirst(y: int)
    ensures DaysFromCivil(y, 3, 1) == (y / 400) * 146097 + (y % 400) * 365 + (y % 400) / 4 - (y % 400) / 100 - 719468
  {
  }

  /** Every multiple of 100 is a multiple of 4. */
  lemma CenturyIsQuadrennial(n: int)
    requires n % 100 == 0
    ensures n % 4 == 0
  {
    assert n == 4 * (25 * (n / 100));
  }

  /** A March-to-March year inside one 400-year era: 365 days plus the leap day. */
  lemma MarchYearLengthInEra(y: int)
    requires y % 400 != 399
    ensures DaysFromCivil(y + 1, 3, 1) - DaysFromCivil(y, 3, 1) == if IsLeapYear(y + 1) then 366 else 365
  {
    var era, yoe := y / 400, y % 400;
    Div400(era, yoe + 1);
    assert y + 1 == 400 * era + (yoe + 1);
    MarchFirst(y);
    MarchFirst(y + 1);
    StepDiv4(yoe);
    StepDiv100(yoe);
    LeapCycle(y + 1);
    assert IsLeapYear(y + 1) == ((yoe + 1) % 4 == 0 && (yoe + 1) % 100 != 0);
    if (yoe + 1) % 100 == 0 {
      CenturyIsQuadrennial(yoe + 1);
    }
  }

  /** The March-to-March year that ends an era: 1 March of a year divisible by 400 follows a leap day. */
  lemma MarchYearLengthAtEraEnd(y: int)
    requires y % 400 == 399
    ensures DaysFromCivil(y + 1, 3, 1) - DaysFromCivil(y, 3, 1) == 366 && IsLeapYear(y + 1)
  {
    var era := y / 400;
    Div400(era + 1, 0);
    assert y + 1 == 400 * (era + 1) + 0;
    MarchFirst(y);
    MarchFirst(y + 1);
    LeapCycle(y + 1);
  }

  /** From 1 March of year y to 1 March of y + 1 there are 366 days exactly when y + 1 is a leap year. */
  lemma MarchYearLength(y: int)
    ensures DaysFromCivil(y + 1, 3, 1) - DaysFromCivil(y, 3, 1) == if IsLeapYear(y + 1) then 366 else 365
  {
    if y % 400 == 399 {
      MarchYearLengthAtEraEnd(y);
    } else {
      MarchYearLengthInEra(y);
    }
  }

  /** A date from March on lies a fixed number of days after 1 March of its year. */
  lemma LateMonth(y: int, m: int, d: int)
    requires 3 <= m <= 12
    ensures DaysFromCivil(y, m, d) == DaysFromCivil(y, 3, 1) + (153 * (m - 3) + 2) / 5 + d - 1
  {
  }

  /** A date in January or February lies a fixed number of days after 1 March of the year before. */
  lemma EarlyMonth(y: int, m: int, d: int)
    requires 1 <= m <= 2
    ensures DaysFromCivil(y, m, d) == DaysFromCivil(y - 1, 3, 1) + (153 * (m + 9) + 2) / 5 + d - 1
  {
  }

  /** Consecutive month starts, counting months from March, are a month length apart. */
  lemma MonthStarts(mp: int)
    requires 0 <= mp <= 10
    ensures (153 * (mp + 1) + 2) / 5 - (153 * mp + 2) / 5 == if mp == 1 || mp == 3 || mp == 6 || mp == 8 then 30 else 31
  {
    if mp == 0 {
    } else if mp == 1 {
    } else if mp == 2 {
    } else if mp == 3 {
    } else if mp == 4 {
    } else if mp == 5 {
    } else if mp == 6 {
    } else if mp == 7 {
    } else if mp == 8 {
    } else if mp == 9 {
    } else {
    }
  }

  lemma JanuaryLength(y: int)
    ensures DaysFromCivil(y, 2, 1) == DaysFromCivil(y, 1, 1) + 31
  {
    EarlyMonth(y, 1, 1);
    EarlyMonth(y, 2, 1);
  }

  lemma FebruaryLength(y: int)
    ensures DaysFromCivil(y, 3, 1) == DaysFromCivil(y, 2, 1) + DaysInMonth(y, 2)
  {
    EarlyMonth(y, 2, 1);
    MarchYearLength(y - 1);
  }

  lemma LaterMonthLength(y: int, m: int)
    requires 3 <= m <= 11
    ensures DaysFromCivil(y, m + 1, 1) == DaysFromCivil(y, m, 1) + DaysInMonth(y, m)
  {
    LateMonth(y, m, 1);
    LateMonth(y, m + 1, 1);
    MonthStarts(m - 3);
  }

  lemma DecemberLength(y: int)
    ensures DaysFromCivil(y + 1, 1, 1) == DaysFromCivil(y, 12, 1) + 31
  {
    LateMonth(y, 12, 1);
    EarlyMonth(y + 1, 1, 1);
  }

  /** The first of the next month follows the last day of this month. */
  lemma MonthLength(y: int, m: int)
    requires 1 <= m <= 12
    ensures m < 12 ==> DaysFromCivil(y, m + 1, 1) == DaysFromCivil(y, m, 1) + DaysInMonth(y, m)
    ensures m == 12 ==> DaysFromCivil(y + 1, 1, 1) == DaysFromCivil(y, 12, 1) + 31
  {
    if m == 1 {
      JanuaryLength(y);
    } else if m == 2 {
      FebruaryLength(y);
    } else if m == 12 {
      DecemberLength(y);
    } else {
      LaterMonthLength(y, m);
    }
  }

  /** The day after the last of a month is the first of the next month. */
  lemma DayAfterMonthEnd(y: int, m: int)
    requires 1 <= m < 12
    ensures DaysFromCivil(y, m, DaysInMonth(y, m) + 1) == DaysFromCivil(y, m + 1, 1)
  {
    MonthLength(y, m);
    DayOffset(y, m, DaysInMonth(y, m) + 1);
  }

  /** MakeDay on an in-range month is the civil day number: no carrying happens. */
  lemma MakeDayOfCalendarDate(year: int, month: int, date: int)
    requires 1 <= month <= 12
    ensures MakeDay(year, month - 1, date) == DaysFromCivil(year, month, date)
  {
    assert (month - 1) / 12 == 0 && (month - 1) % 12 == month - 1;
    DayOffset(year, month, date);
  }

  lemma YearOfEraBound(doe: int)
    requires 0 <= doe <= 146096
    ensures 0 <= (doe - doe / 1460 + doe / 36524 - doe / 146096) / 365 <= 399
  {
    if doe != 146096 {
      assert doe / 146096 == 0;
    }
  }

  lemma DayOfYearBound(doe: int, yoe: int)
    requires 0 <= doe <= 146096
    requires yoe == (doe - doe / 1460 + doe / 36524 - doe / 146096) / 365
    ensures 0 <= doe - (365 * yoe + yoe / 4 - yoe / 100) <= 365
  {
    if doe == 146096 {
      assert yoe == 399;
    } else {
      var b := doe / 36524;
      var r := doe % 36524;
      var q := r / 1461;
      var s := r % 1461;
      assert doe / 146096 == 0;
      assert 0 <= b <= 3 && 0 <= q <= 24;
      var e := (24 * b + q + s) / 1460;
      assert doe == 1460 * (25 * b + q) + (24 * b + q + s);
      assert doe / 1460 == 25 * b + q + e;
      var t := (s - e) / 365;
      assert 0 <= e <= 1 && (s == 1460 ==> e == 1);
      assert 0 <= t <= 3;
      assert yoe == 100 * b + 4 * q + t;
      assert yoe / 4 == 25 * b + q;
      assert yoe / 100 == b;
    }
  }

  /** MakeDay with date 0 of the following month index is the last day of month m. */
  lemma MakeDayZeroIsLastDay(y: int, m: int)
    requires 1 <= m <= 12
    ensures MakeDay(y, m, 0) == DaysFromCivil(y, m, DaysInMonth(y, m))
  {
    DayOffset(y, m, DaysInMonth(y, m));
    MonthLength(y, m);
    if m < 12 {
      MakeDayOfCalendarDate(y, m + 1, 0);
      DayOffset(y, m + 1, 0);
    } else {
      assert 12 / 12 == 1 && 12 % 12 == 0;
      DayOffset(y + 1, 1, 0);
    }
  }

  /** For an in-range month and a year outside 0..99, `Date.UTC` is the civil day's midnight plus the time of day. */
  lemma DateUtcOfCalendarDate(year: int, month: int, date: int, h: int, mi: int, s: int, ms: int)
    requires 1 <= month <= 12
    ensures DateUtc(year, month - 1, date, h, mi, s, ms)
         == TimeClip(DaysFromCivil(FullYear(year), month, date) * MsPerDay + h * MsPerHour + mi * MsPerMinute + s * MsPerSecond + ms)
  {
    MakeDayOfCalendarDate(FullYear(year), month, date);
  }

  /** A valid `Date.UTC` result for an in-range month, as a number. */
  lemma DateUtcValue(year: int, month: int, date: int, h: int, mi: int, s: int, ms: int)
    requires 1 <= month <= 12 && DateUtc(year, month - 1, date, h, mi, s, ms).Some?
    ensures DateUtc(year, month - 1, date, h, mi, s, ms).value
         == DaysFromCivil(FullYear(year), month, date) * MsPerDay + h * MsPerHour + mi * MsPerMinute + s * MsPerSecond + ms
  {
    DateUtcOfCalendarDate(year, month, date, h, mi, s, ms);
  }

  /** Splitting a number by 400 is undone by multiplying back. */
  lemma Div400(q: int, r: int)
    requires 0 <= r < 400
    ensures (400 * q + r) / 400 == q && (400 * q + r) % 400 == r
  {
  }

  /** The month index counted from March that a day of the year falls in. */
  lemma MonthOfDayBound(doy: int)
    requires 0 <= doy <= 365
    ensures 0 <= (5 * doy + 2) / 153 <= 11
    ensures 1 <= doy - (153 * ((5 * doy + 2) / 153) + 2) / 5 + 1
  {
  }

  /** DaysFromCivil of a date given by its 400-year era, its year in the era and its month counted from March. */
  lemma DaysFromCivilOfEra(era: int, yoe: int, mp: int, d: int)
    requires 0 <= yoe < 400 && 0 <= mp <= 11
    ensures var m := if mp < 10 then mp + 3 else mp - 9;
            var y := yoe + era * 400;
            DaysFromCivil(if m <= 2 then y + 1 else y, m, d)
              == era * 146097 + yoe * 365 + yoe / 4 - yoe / 100 + (153 * mp + 2) / 5 + d - 1 - 719468
  {
    Div400(era, yoe);
  }

  /** Within one era, CivilOfEra inverts DaysFromCivil. */
  lemma CivilOfEraRoundTrip(era: int, doe: int)
    requires 0 <= doe < 146097
    ensures 1 <= CivilOfEra(era, doe).1 <= 12
    ensures DaysFromCivil(CivilOfEra(era, doe).0, CivilOfEra(era, doe).1, CivilOfEra(era, doe).2)
         == era * 146097 + doe - 719468
  {
    var yoe := (doe - doe / 1460 + doe / 36524 - doe / 146096) / 365;
    YearOfEraBound(doe);
    var doy := doe - (365 * yoe + yoe / 4 - yoe / 100);
    DayOfYearBound(doe, yoe);
    var mp := (5 * doy + 2) / 153;
    MonthOfDayBound(doy);
    var d := doy - (153 * mp + 2) / 5 + 1;
    DaysFromCivilOfEra(era, yoe, mp, d);
  }

  /** CivilFromDays inverts DaysFromCivil: every day number names one valid civil date. */
  lemma CivilRoundTrip(z: int)
    ensures 1 <= CivilFromDays(z).1 <= 12
    ensures DaysFromCivil(CivilFromDays(z).0, CivilFromDays(z).1, CivilFromDays(z).2) == z
  {
    var z' := z + 719468;
    CivilOfEraRoundTrip(z' / 146097, z' % 146097);
  }
}
