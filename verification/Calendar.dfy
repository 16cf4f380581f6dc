/** Proleptic Gregorian dates, Singapore days and report buckets (src/service/usage.rs). */
module Calendar {
  import opened Numeric

  datatype Date = Date(year: int, month: int, day: int)

  predicate IsLeap(year: int) { year % 4 == 0 && (year % 100 != 0 || year % 400 == 0) }

  function MonthLength(year: int, month: int): (n: int)
    ensures 28 <= n <= 31
  {
    if month == 2 then (if IsLeap(year) then 29 else 28)
    else if month in {4, 6, 9, 11} then 30 else 31
  }

  predicate ValidDate(d: Date) { 1 <= d.month <= 12 && 1 <= d.day <= MonthLength(d.year, d.month) }

  function DaysBeforeYear(year: int): int {
    365 * (year - 1) + (year - 1) / 4 - (year - 1) / 100 + (year - 1) / 400
  }

  function DaysBeforeMonth(year: int, month: int): nat {
    if month <= 1 then 0 else DaysBeforeMonth(year, month - 1) + MonthLength(year, month - 1)
  }

  /** Days since 1970-01-01: `sg_day_from_date`. */
  function DayNumber(d: Date): int {
    DaysBeforeYear(d.year) + DaysBeforeMonth(d.year, d.month) + d.day - 1 - 719_162
  }

  const EPOCH := Date(1970, 1, 1)

  lemma EpochIsDayZero()
    ensures ValidDate(EPOCH) && DayNumber(EPOCH) == 0
  {}

  function NextDay(d: Date): Date {
    if d.day < MonthLength(d.year, d.month) then Date(d.year, d.month, d.day + 1)
    else if d.month < 12 then Date(d.year, d.month + 1, 1)
    else Date(d.year + 1, 1, 1)
  }

  function PreviousDay(d: Date): Date {
    if d.day > 1 then Date(d.year, d.month, d.day - 1)
    else if d.month > 1 then Date(d.year, d.month - 1, MonthLength(d.year, d.month - 1))
    else Date(d.year - 1, 12, 31)
  }

  lemma YearLength(year: int)
    ensures DaysBeforeYear(year + 1) == DaysBeforeYear(year) + (if IsLeap(year) then 366 else 365)
  {
    Quotient4(year);
    Quotient100(year);
    Quotient400(year);
    LeapDivisors(year);
  }

  lemma Quotient4(year: int)
    ensures year / 4 == (year - 1) / 4 + (if year % 4 == 0 then 1 else 0)
  {}

  lemma Quotient100(year: int)
    ensures year / 100 == (year - 1) / 100 + (if year % 100 == 0 then 1 else 0)
  {}

  lemma Quotient400(year: int)
    ensures year / 400 == (year - 1) / 400 + (if year % 400 == 0 then 1 else 0)
  {}

  lemma LeapDivisors(year: int)
    ensures year % 400 == 0 ==> year % 100 == 0
    ensures year % 100 == 0 ==> year % 4 == 0
  {}

  lemma MonthsOfYear(year: int)
    ensures DaysBeforeMonth(year, 12) == (if IsLeap(year) then 335 else 334)
  {
    var february := MonthLength(year, 2);
    assert DaysBeforeMonth(year, 2) == 31;
    assert DaysBeforeMonth(year, 4) == 62 + february;
    assert DaysBeforeMonth(year, 6) == 123 + february;
    assert DaysBeforeMonth(year, 8) == 184 + february;
    assert DaysBeforeMonth(year, 10) == 245 + february;
  }

  lemma NextDayNumber(d: Date)
    requires ValidDate(d)
    ensures ValidDate(NextDay(d)) && DayNumber(NextDay(d)) == DayNumber(d) + 1
  {
    if d.day == MonthLength(d.year, d.month) && d.month == 12 {
      YearLength(d.year);
      MonthsOfYear(d.year);
    }
  }

  lemma PreviousDayNumber(d: Date)
    requires ValidDate(d)
    ensures ValidDate(PreviousDay(d)) && NextDay(PreviousDay(d)) == d
    ensures DayNumber(PreviousDay(d)) == DayNumber(d) - 1
  {
    NextDayNumber(PreviousDay(d));
  }

  lemma {:induction false} MonthsAscend(year: int, a: int, b: int)
    requires 1 <= a < b <= 12
    ensures DaysBeforeMonth(year, a) + MonthLength(year, a) <= DaysBeforeMonth(year, b)
    decreases b
  {
    if a < b - 1 { MonthsAscend(year, a, b - 1); }
  }

  lemma {:induction false} YearsAscend(a: int, b: int)
    requires a < b
    ensures DaysBeforeYear(a + 1) <= DaysBeforeYear(b)
    decreases b - a
  {
    if a + 1 < b {
      YearsAscend(a, b - 1);
      YearLength(b - 1);
    }
  }

  predicate Before(a: Date, b: Date) {
    a.year < b.year || (a.year == b.year && (a.month < b.month || (a.month == b.month && a.day < b.day)))
  }

  /** Day numbers order dates as the calendar does, so equal numbers mean equal dates. */
  lemma DayNumberOrders(a: Date, b: Date)
    requires ValidDate(a) && ValidDate(b)
    ensures Before(a, b) <==> DayNumber(a) < DayNumber(b)
    ensures a == b <==> DayNumber(a) == DayNumber(b)
  {
    if Before(a, b) { EarlierIsSmaller(a, b); }
    if Before(b, a) { EarlierIsSmaller(b, a); }
  }

  /** `date_from_sg_day`: the epoch moved by a number of days. */
  function DateFromSgDay(day: int): Date
    decreases if day >= 0 then day else -day
  {
    if day == 0 then EPOCH else if day > 0 then NextDay(DateFromSgDay(day - 1)) else PreviousDay(DateFromSgDay(day + 1))
  }

  /** Counting days from the epoch and numbering dates undo each other, over months, leap years and both directions. */
  lemma SgDayRoundTrips(day: int, d: Date)
    ensures ValidDate(DateFromSgDay(day)) && DayNumber(DateFromSgDay(day)) == day
    ensures ValidDate(d) ==> DateFromSgDay(DayNumber(d)) == d
  {
    DateIsNumbered(day);
    DateIsNumbered(DayNumber(d));
    if ValidDate(d) { DayNumberOrders(DateFromSgDay(DayNumber(d)), d); }
  }

  lemma {:induction false} DateIsNumbered(day: int)
    ensures ValidDate(DateFromSgDay(day)) && DayNumber(DateFromSgDay(day)) == day
    decreases if day >= 0 then day else -day
  {
    hide DayNumber, NextDay, PreviousDay;
    EpochIsDayZero();
    if day > 0 {
      DateIsNumbered(day - 1);
      NextDayNumber(DateFromSgDay(day - 1));
    } else if day < 0 {
      DateIsNumbered(day + 1);
      PreviousDayNumber(DateFromSgDay(day + 1));
    }
  }

  lemma EarlierIsSmaller(a: Date, b: Date)
    requires ValidDate(a) && ValidDate(b) && Before(a, b)
    ensures DayNumber(a) < DayNumber(b)
  {
    if a.year < b.year {
      YearsAscend(a.year, b.year);
      YearLength(a.year);
      MonthsOfYear(a.year);
      if a.month < 12 { MonthsAscend(a.year, a.month, 12); }
    } else if a.month < b.month {
      MonthsAscend(a.year, a.month, b.month);
    }
  }

  // ---- buckets ----

  datatype Granularity = Day | Week | Month

  /** `num_days_from_monday`: day 0, 1970-01-01, is a Thursday. */
  function DaysFromMonday(d: Date): nat { (DayNumber(d) + 3) % 7 }

  function Back(d: Date, k: nat): Date { if k == 0 then d else PreviousDay(Back(d, k - 1)) }

  lemma {:induction false} BackNumber(d: Date, k: nat)
    requires ValidDate(d)
    ensures ValidDate(Back(d, k)) && DayNumber(Back(d, k)) == DayNumber(d) - k
  {
    if k > 0 {
      BackNumber(d, k - 1);
      PreviousDayNumber(Back(d, k - 1));
    }
  }

  function BucketStart(d: Date, g: Granularity): Date {
    match g
    case Day => d
    case Week => Back(d, DaysFromMonday(d))
    case Month => Date(d.year, d.month, 1)
  }

  /** A bucket starts at or before its days, its start is its own bucket, and later days never fall into earlier buckets. */
  lemma BucketStartMonotone(d: Date, g: Granularity)
    requires ValidDate(d)
    ensures ValidDate(BucketStart(d, g)) && ValidDate(BucketStart(NextDay(d), g))
    ensures DayNumber(BucketStart(d, g)) <= DayNumber(d)
    ensures BucketStart(BucketStart(d, g), g) == BucketStart(d, g)
    ensures DayNumber(BucketStart(d, g)) <= DayNumber(BucketStart(NextDay(d), g))
  {
    NextDayNumber(d);
    match g
    case Day =>
    case Week => WeekStartMonotone(d);
    case Month =>
      if d.day == MonthLength(d.year, d.month) {
        EarlierIsSmaller(Date(d.year, d.month, 1), NextDay(d));
      }
  }

  lemma WeekStartMonotone(d: Date)
    requires ValidDate(d)
    ensures ValidDate(BucketStart(d, Week)) && ValidDate(BucketStart(NextDay(d), Week))
    ensures DayNumber(BucketStart(d, Week)) <= DayNumber(d)
    ensures BucketStart(BucketStart(d, Week), Week) == BucketStart(d, Week)
    ensures DayNumber(BucketStart(d, Week)) <= DayNumber(BucketStart(NextDay(d), Week))
  {
    hide DayNumber, ValidDate, NextDay, PreviousDay;
    NextDayNumber(d);
    BackNumber(d, DaysFromMonday(d));
    BackNumber(NextDay(d), DaysFromMonday(NextDay(d)));
    assert DaysFromMonday(BucketStart(d, Week)) == 0;
  }

  /** Weeks start on the Monday at or before a date (day 0 is a Thursday, so Mondays are 4 modulo 7), months on the first. */
  lemma BucketStartIsNatural(d: Date, g: Granularity)
    requires ValidDate(d)
    ensures var start := BucketStart(d, g);
            match g
            case Day => start == d
            case Week => ValidDate(start) && DayNumber(d) - 6 <= DayNumber(start) <= DayNumber(d) && DayNumber(start) % 7 == 4
            case Month => start.year == d.year && start.month == d.month && start.day == 1
  {
    hide DayNumber, ValidDate, PreviousDay;
    BackNumber(d, DaysFromMonday(d));
  }

  // ---- instants, in nanoseconds since the Unix epoch ----

  const NANOS_PER_HOUR: int := 3_600_000_000_000
  const NANOS_PER_DAY: int := 86_400_000_000_000

  /** `sg_day_from_utc`: the calendar day at UTC+8. */
  function SgDay(instant: int): int { (instant + 8 * NANOS_PER_HOUR) / NANOS_PER_DAY }

  function SingaporeMidnight(d: Date): int { DayNumber(d) * NANOS_PER_DAY - 8 * NANOS_PER_HOUR }

  /** The half-open interval from the midnight of a to the midnight after b holds exactly the instants of days a to b. */
  lemma IntervalHoldsItsDays(a: Date, b: Date, instant: int)
    requires ValidDate(a) && ValidDate(b)
    ensures SingaporeMidnight(a) <= instant < SingaporeMidnight(NextDay(b))
            <==> DayNumber(a) <= SgDay(instant) <= DayNumber(b)
  {
    NextDayNumber(b);
  }

  /** Midnights are a day of 24 hours apart, and that of 1 January 1970 is eight hours before the Unix epoch. */
  lemma MidnightsAreEightHoursEarly(d: Date)
    requires ValidDate(d)
    ensures SingaporeMidnight(Date(1970, 1, 1)) == -8 * 60 * 60 * 1_000_000_000
    ensures SingaporeMidnight(NextDay(d)) == SingaporeMidnight(d) + 24 * 60 * 60 * 1_000_000_000
  {
    EpochIsDayZero();
    NextDayNumber(d);
    hide DayNumber;
  }
}
