/** Calendar arithmetic on day numbers: days since 1970-01-01 in the proleptic
    Gregorian calendar, and instants in microseconds since that day's midnight (UTC).
    These stand for Python's `date` and timezone-aware UTC `datetime` values. */
module Calendar {

  type Day = int
  type Instant = int

  const MicrosPerDay: int := 86_400_000_000
  const MicrosPerHour: real := 3_600_000_000.0

  /** `t.date()` for a UTC instant (floor division, also before 1970). */
  function DayOf(t: Instant): Day {
    t / MicrosPerDay
  }

  /** `(b - a).total_seconds() / 3600`. */
  function HoursBetween(a: Instant, b: Instant): real {
    (b - a) as real / MicrosPerHour
  }

  /** `date.weekday()`: Monday is 0 and Sunday is 6; 1970-01-01 was a Thursday. */
  function Weekday(d: Day): (w: int)
    ensures 0 <= w < 7
  {
    (d + 3) % 7
  }

  /** `d - timedelta(days=d.weekday())`: the Monday that starts the week of `d`. */
  function MondayOf(d: Day): (m: Day)
    ensures Weekday(m) == 0
    ensures m <= d < m + 7
  {
    d - Weekday(d)
  }

  /** Every day from a Monday to the following Sunday has that Monday as its week start. */
  lemma {:induction false} MondayOfWeek(m: Day, d: Day)
    requires Weekday(m) == 0 && m <= d < m + 7
    ensures MondayOf(d) == m
  {
    var q := (m + 3) / 7;
    assert m + 3 == 7 * q;
    assert d + 3 == 7 * q + (d - m);
    assert Weekday(d) == d - m;
  }

  datatype YearMonth = YearMonth(year: int, month: int)

  // ---------------------------------------------------------------------------
  // Civil year and month (`strftime("%Y-%m")`). Day numbers are shifted to
  // count from 0000-03-01 and split into 400-year eras of 146097 days; a year
  // is counted from March so that the leap day closes it.

  /** Days from 1 March of year 0 of a 400-year era to 1 March of year `y` of it. */
  function EraYearStart(y: int): int { 365 * y + y / 4 - y / 100 + y / 400 }

  /** A March-based year of an era has 366 days exactly when the calendar
      year holding its February is a Gregorian leap year. */
  lemma {:induction false} EraYearStartGrows(y: int)
    requires 0 <= y < 400
    ensures EraYearStart(y + 1) - EraYearStart(y) == (if (y + 1) % 4 == 0 && ((y + 1) % 100 != 0 || y + 1 == 400) then 366 else 365)
  {
    var n := y + 1;
    if n % 4 != 0 {
      assert n / 4 == y / 4 && n / 100 == y / 100 && n / 400 == y / 400;
    } else if n % 100 != 0 {
      assert n / 4 == y / 4 + 1 && n / 100 == y / 100 && n / 400 == y / 400;
    } else if n == 400 {
      assert n / 4 == y / 4 + 1 && n / 100 == y / 100 + 1 && n / 400 == y / 400 + 1;
    } else {
      assert n / 4 == y / 4 + 1 && n / 100 == y / 100 + 1 && n / 400 == y / 400;
    }
  }

  /** Later years of an era start later. */
  lemma {:induction false} EraYearStartMonotone(a: int, b: int)
    requires 0 <= a <= b <= 400
    ensures EraYearStart(a) <= EraYearStart(b)
    decreases b - a
  {
    if a < b {
      EraYearStartGrows(a);
      EraYearStartMonotone(a + 1, b);
    }
  }

  /** The year of the era that day `doe` of it falls in. */
  function YearOfEra(doe: int): int {
    (doe - doe / 1460 + doe / 36524 - doe / 146096) / 365
  }

  /** Day `doe` of an era lies in year `YearOfEra(doe)` of it. */
  lemma {:induction false} YearOfEraBracket(doe: int)
    requires 0 <= doe < 146097
    ensures var y := YearOfEra(doe); 0 <= y < 400 && EraYearStart(y) <= doe < EraYearStart(y + 1)
  {
    if doe < 146096 {
      var k := doe / 36524;
      var q := (doe % 36524) / 1461;
      var s := (doe % 36524) % 1461;
      var t := if s / 365 < 3 then s / 365 else 3;
      assert doe == 36524 * k + 1461 * q + s;
      FormulaYear(k, q, s, t);
      assert YearOfEra(doe) == 100 * k + 4 * q + t;
      CycleYearStart(k, q, s, t);
    }
  }

  /** The formula's year for day `s` of the `q`-th four-year cycle of century `k`. */
  lemma {:induction false} FormulaYear(k: int, q: int, s: int, t: int)
    requires 0 <= k < 4 && 0 <= q && 0 <= s < 1461 && 1461 * q + s < 36524
    requires t == if s / 365 < 3 then s / 365 else 3
    ensures YearOfEra(36524 * k + 1461 * q + s) == 100 * k + 4 * q + t
  {
    var doe := 36524 * k + 1461 * q + s;
    var e := 24 * k + q + s;
    assert doe / 1460 == 25 * k + q + (if e >= 1460 then 1 else 0);
    assert doe / 36524 == k;
  }

  /** Year `100k + 4q + t` of an era starts at day `36524k + 1461q + 365t`,
      and the next year starts after day `36524k + 1461q + s`. */
  lemma {:induction false} CycleYearStart(k: int, q: int, s: int, t: int)
    requires 0 <= k < 4 && 0 <= q && 0 <= s < 1461 && 1461 * q + s < 36524
    requires t == if s / 365 < 3 then s / 365 else 3
    ensures var y := 100 * k + 4 * q + t;
      EraYearStart(y) == 36524 * k + 1461 * q + 365 * t
      && 36524 * k + 1461 * q + s < EraYearStart(y + 1)
  {
    var y := 100 * k + 4 * q + t;
    assert y / 4 == 25 * k + q && y / 100 == k && y / 400 == 0;
    if t < 3 {
      assert (y + 1) / 4 == 25 * k + q && (y + 1) / 100 == k && (y + 1) / 400 == 0;
    } else if q < 24 {
      assert (y + 1) / 4 == 25 * k + q + 1 && (y + 1) / 100 == k && (y + 1) / 400 == 0;
    } else {
      assert (y + 1) / 4 == 25 * (k + 1) && (y + 1) / 100 == k + 1;
    }
  }

  /** Month index of day `doy` of a March-based year: 0 is March, 11 is
      February. The months before February have 31, 30, 31, 30, 31, 31, 30,
      31, 30, 31 and 31 days. */
  function MarchMonth(doy: int): (mp: int)
    ensures 0 <= mp < 12
  {
    if doy < 31 then 0 else if doy < 61 then 1 else if doy < 92 then 2
    else if doy < 122 then 3 else if doy < 153 then 4 else if doy < 184 then 5
    else if doy < 214 then 6 else if doy < 245 then 7 else if doy < 275 then 8
    else if doy < 306 then 9 else if doy < 337 then 10 else 11
  }

  /** The calendar year and month of day `doy` of the March-based year `y`
      (January and February belong to the following calendar year). */
  function FromMarchDate(y: int, doy: int): (ym: YearMonth)
    ensures 1 <= ym.month <= 12
  {
    var mp := MarchMonth(doy);
    var month := if mp < 10 then mp + 3 else mp - 9;
    YearMonth(y + (if month <= 2 then 1 else 0), month)
  }

  /** The day of its March-based year that day `doe` of an era is. */
  function DayOfEraYear(doe: int): int {
    doe - EraYearStart(YearOfEra(doe))
  }

  /** A day of an era is day 0 to 365 of one of its 400 years. */
  lemma {:induction false} DayOfEraYearRange(doe: int)
    requires 0 <= doe < 146097
    ensures 0 <= YearOfEra(doe) < 400 && 0 <= DayOfEraYear(doe) <= 365
  {
    YearOfEraBracket(doe);
    EraYearStartGrows(YearOfEra(doe));
  }

  /** The next day of an era is the next day of the same year, or the first
      day of the next year after the year's last day (364 or 365). */
  lemma {:induction false} EraDayStep(doe: int)
    requires 0 <= doe < 146096
    ensures || (YearOfEra(doe + 1) == YearOfEra(doe) && DayOfEraYear(doe + 1) == DayOfEraYear(doe) + 1)
            || (YearOfEra(doe + 1) == YearOfEra(doe) + 1 && DayOfEraYear(doe + 1) == 0 && DayOfEraYear(doe) >= 364)
  {
    var y, y' := YearOfEra(doe), YearOfEra(doe + 1);
    YearOfEraBracket(doe);
    YearOfEraBracket(doe + 1);
    EraYearStartGrows(y);
    if y' < y {
      EraYearStartMonotone(y' + 1, y);
    } else if y' > y + 1 {
      EraYearStartMonotone(y + 1, y');
    }
  }

  /** The calendar year and month of day `doe` of era `era`. */
  function EraYearMonth(era: int, doe: int): YearMonth {
    FromMarchDate(era * 400 + YearOfEra(doe), DayOfEraYear(doe))
  }

  /** The Gregorian year and month of a day number, as `strftime("%Y-%m")`
      prints them; day 0 is 1970-01-01, which is day 719468 counted from
      0000-03-01. */
  function CivilYearMonth(d: Day): (ym: YearMonth)
    ensures 1 <= ym.month <= 12
  {
    EraYearMonth((d + 719468) / 146097, (d + 719468) % 146097)
  }

  /** The calendar month after `ym`. */
  function NextMonth(ym: YearMonth): YearMonth {
    if ym.month == 12 then YearMonth(ym.year + 1, 1) else YearMonth(ym.year, ym.month + 1)
  }

  /** Within a March-based year the next day is in the same month or the next. */
  lemma {:induction false} MarchDateStep(y: int, doy: int)
    requires 0 <= doy < 365
    ensures FromMarchDate(y, doy + 1) == FromMarchDate(y, doy) || FromMarchDate(y, doy + 1) == NextMonth(FromMarchDate(y, doy))
  {
    assert MarchMonth(doy + 1) <= MarchMonth(doy) + 1;
  }

  /** The first day of a March-based year is in March. */
  lemma {:induction false} MarchFirstDay(y: int, doy: int)
    requires doy == 0
    ensures FromMarchDate(y, doy) == YearMonth(y, 3)
  {
  }

  /** The last day of a March-based year (the 365th or 366th) is in February
      of the following calendar year. */
  lemma {:induction false} MarchLastDay(y: int, doy: int)
    requires 364 <= doy <= 365
    ensures FromMarchDate(y, doy) == YearMonth(y + 1, 2)
  {
  }

  /** The last day of an era is the 366th day of its year 399. */
  lemma {:induction false} EraLastDay(doe: int)
    requires doe == 146096
    ensures YearOfEra(doe) == 399 && DayOfEraYear(doe) == 365
  {
  }

  /** The last day of an era falls in February of year `400 * (era + 1)`. */
  lemma {:induction false} EraLastMonth(era: int, last: int)
    requires last == 146096
    ensures EraYearMonth(era, last) == YearMonth(era * 400 + 400, 2)
  {
    EraLastDay(last);
    MarchLastDay(era * 400 + YearOfEra(last), DayOfEraYear(last));
  }

  /** The first day of an era falls in March of year `400 * era`. */
  lemma {:induction false} EraFirstMonth(era: int, first: int)
    requires first == 0
    ensures EraYearMonth(era, first) == YearMonth(era * 400, 3)
  {
  }

  /** Inside an era the next day is in the same month or the next. */
  lemma {:induction false} StepWithinEra(era: int, doe: int)
    requires 0 <= doe < 146096
    ensures EraYearMonth(era, doe + 1) == EraYearMonth(era, doe) || EraYearMonth(era, doe + 1) == NextMonth(EraYearMonth(era, doe))
  {
    EraDayStep(doe);
    DayOfEraYearRange(doe);
    DayOfEraYearRange(doe + 1);
    if YearOfEra(doe + 1) == YearOfEra(doe) {
      MarchDateStep(era * 400 + YearOfEra(doe), DayOfEraYear(doe));
    } else {
      MarchLastDay(era * 400 + YearOfEra(doe), DayOfEraYear(doe));
      MarchFirstDay(era * 400 + YearOfEra(doe + 1), DayOfEraYear(doe + 1));
    }
  }

  /** The next day is in the same calendar month or the next one. */
  lemma {:induction false} CivilYearMonthStep(d: Day)
    ensures CivilYearMonth(d + 1) == CivilYearMonth(d) || CivilYearMonth(d + 1) == NextMonth(CivilYearMonth(d))
  {
    var era := (d + 719468) / 146097;
    var doe := (d + 719468) % 146097;
    if doe == 146096 {
      assert (d + 1 + 719468) / 146097 == era + 1 && (d + 1 + 719468) % 146097 == 0;
      EraLastMonth(era, doe);
      EraFirstMonth(era + 1, 0);
    } else {
      assert (d + 1 + 719468) / 146097 == era && (d + 1 + 719468) % 146097 == doe + 1;
      StepWithinEra(era, doe);
    }
  }

  lemma EpochYear(doe: int)
    requires doe == 135080
    ensures YearOfEra(doe) == 369 && DayOfEraYear(doe) == 306
    ensures YearOfEra(doe - 1) == 369 && DayOfEraYear(doe - 1) == 305
  {
  }

  /** 1970-01-01 (day 0) is in January 1970, and the day before in December 1969. */
  lemma EpochMonths(d: Day)
    requires d == 0
    ensures CivilYearMonth(d) == YearMonth(1970, 1)
    ensures CivilYearMonth(d - 1) == YearMonth(1969, 12)
  {
    assert (d + 719468) / 146097 == 4 && (d + 719468) % 146097 == 135080;
    assert (d - 1 + 719468) / 146097 == 4 && (d - 1 + 719468) % 146097 == 135079;
    EpochYear(135080);
  }

  /** 2000-02-29 (day 11016) is in February 2000, and the next day in March. */
  lemma LeapDayMonths(d: Day)
    requires d == 11016
    ensures CivilYearMonth(d) == YearMonth(2000, 2)
    ensures CivilYearMonth(d + 1) == YearMonth(2000, 3)
  {
    assert (d + 719468) / 146097 == 4 && (d + 719468) % 146097 == 146096;
    assert (d + 1 + 719468) / 146097 == 5 && (d + 1 + 719468) % 146097 == 0;
    EraLastMonth(4, 146096);
    EraFirstMonth(5, 0);
  }
}
