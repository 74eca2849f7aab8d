/** Calendar arithmetic behind bucketing: Python's broken-down UTC datetimes, the instants
    PostgreSQL compares, and the monthly leaderboard periods. */
module Calendar {

  /** Microseconds since 0001-01-01T00:00:00Z. */
  type Instant = int

  const SECOND := 1_000_000
  const MINUTE := 60_000_000
  const HOUR := 3_600_000_000
  const DAY := 86_400_000_000

  datatype Granularity = Minute | Hour | Day

  function Width(g: Granularity): (w: int)
    ensures w > 0
  {
    match g
    case Minute => 60_000_000
    case Hour => 3_600_000_000
    case Day => 86_400_000_000
  }

  /** Which bucket of granularity g the instant t falls in, counting from year 1. */
  function BucketNumber(g: Granularity, t: Instant): int {
    match g
    case Minute => t / 60_000_000
    case Hour => t / 3_600_000_000
    case Day => t / 86_400_000_000
  }

  /** The start of the bucket of granularity g that contains t. */
  function Floor(g: Granularity, t: Instant): Instant {
    BucketNumber(g, t) * Width(g)
  }

  /** The first bucket start at or after t. */
  function Ceil(g: Granularity, t: Instant): Instant {
    if Floor(g, t) == t then t else Floor(g, t) + Width(g)
  }

  lemma FloorBounds(g: Granularity, t: Instant)
    ensures Floor(g, t) <= t < Floor(g, t) + Width(g)
  {
  }

  lemma FloorUnique(g: Granularity, t: Instant, n: int)
    requires n * Width(g) <= t < n * Width(g) + Width(g)
    ensures Floor(g, t) == n * Width(g)
  {
    assert BucketNumber(g, t) == n;
  }

  lemma FloorIdempotent(g: Granularity, t: Instant)
    ensures Floor(g, Floor(g, t)) == Floor(g, t)
  {
  }

  /** Truncating to a finer bucket first never changes the coarser bucket. */
  lemma FloorOfFiner(t: Instant)
    ensures Floor(Hour, Floor(Minute, t)) == Floor(Hour, t)
    ensures Floor(Day, Floor(Hour, t)) == Floor(Day, t)
  {
    FloorBounds(Minute, t);
    FloorBounds(Hour, t);
    FloorBounds(Day, t);
    FloorUnique(Hour, Floor(Minute, t), BucketNumber(Hour, t));
    FloorUnique(Day, Floor(Hour, t), BucketNumber(Day, t));
  }

  /** Distinct bucket starts lie at least one bucket width apart. */
  lemma BucketStartsApart(g: Granularity, s: Instant, t: Instant)
    requires Floor(g, s) < Floor(g, t)
    ensures Floor(g, s) + Width(g) <= Floor(g, t)
  {
  }

  /** `bucket BETWEEN start AND end` on bucket starts, read as a condition on the event's own instant. */
  lemma BetweenOnBuckets(g: Granularity, start: Instant, end: Instant, t: Instant)
    ensures start <= Floor(g, t) <= end <==> Ceil(g, start) <= t < Floor(g, end) + Width(g)
  {
    FloorBounds(g, t);
    FloorBounds(g, start);
    FloorBounds(g, end);
    if Floor(g, start) < Floor(g, t) {
      BucketStartsApart(g, start, t);
    } else if Floor(g, t) < Floor(g, start) {
      BucketStartsApart(g, t, start);
    }
    if Floor(g, end) < Floor(g, t) {
      BucketStartsApart(g, end, t);
    }
  }

  // ----- Broken-down datetimes -----

  datatype Fields = Fields(year: int, month: int, day: int,
                           hour: int, minute: int, second: int, microsecond: int)

  predicate IsLeap(year: int) {
    year % 4 == 0 && (year % 100 != 0 || year % 400 == 0)
  }

  function DaysInMonth(year: int, month: int): int {
    if month == 2 then (if IsLeap(year) then 29 else 28)
    else if month in {4, 6, 9, 11} then 30
    else 31
  }

  /** Days between 0001-01-01 and the first of January of the given year. */
  function DaysBeforeYear(year: int): int {
    var y := year - 1;
    365 * y + y / 4 - y / 100 + y / 400
  }

  function DaysBeforeMonth(year: int, month: int): int
    requires 1 <= month <= 12
  {
    if month == 1 then 0 else DaysBeforeMonth(year, month - 1) + DaysInMonth(year, month - 1)
  }

  predicate ValidFields(d: Fields) {
    && 1 <= d.year <= 9999
    && 1 <= d.month <= 12
    && 1 <= d.day <= DaysInMonth(d.year, d.month)
    && 0 <= d.hour < 24
    && 0 <= d.minute < 60
    && 0 <= d.second < 60
    && 0 <= d.microsecond < SECOND
  }

  /** A timezone-aware UTC datetime. */
  type DateTime = d: Fields | ValidFields(d) witness Fields(1, 1, 1, 0, 0, 0, 0)

  function DayNumber(d: DateTime): int {
    DaysBeforeYear(d.year) + DaysBeforeMonth(d.year, d.month) + d.day - 1
  }

  function ToInstant(d: DateTime): Instant {
    DayNumber(d) * DAY + d.hour * HOUR + d.minute * MINUTE + d.second * SECOND + d.microsecond
  }

  function MinuteBucket(ts: DateTime): DateTime {
    ts.(second := 0, microsecond := 0)
  }

  function HourBucket(ts: DateTime): DateTime {
    ts.(minute := 0, second := 0, microsecond := 0)
  }

  function DayBucket(ts: DateTime): DateTime {
    ts.(hour := 0, minute := 0, second := 0, microsecond := 0)
  }

  function Bucket(g: Granularity, ts: DateTime): DateTime {
    match g
    case Minute => MinuteBucket(ts)
    case Hour => HourBucket(ts)
    case Day => DayBucket(ts)
  }

  /** Zeroing the fields below g is exactly rounding the instant down to a multiple of g. */
  lemma BucketIsFloor(g: Granularity, ts: DateTime)
    ensures ToInstant(Bucket(g, ts)) == Floor(g, ToInstant(ts))
  {
    var n := DayNumber(ts);
    assert DayNumber(Bucket(g, ts)) == n;
    match g
    case Minute => FloorUnique(g, ToInstant(ts), n * 1440 + ts.hour * 60 + ts.minute);
    case Hour => FloorUnique(g, ToInstant(ts), n * 24 + ts.hour);
    case Day => FloorUnique(g, ToInstant(ts), n);
  }

  // ----- Monthly periods -----

  /** A leaderboard period, the two numbers of a "%Y-%m" key. */
  datatype Period = Period(year: int, month: int)

  predicate IsMonth(p: Period) {
    1 <= p.month <= 12
  }

  function PeriodKey(ts: DateTime): Period {
    Period(ts.year, ts.month)
  }

  function NextMonth(p: Period): Period {
    if p.month == 12 then Period(p.year + 1, 1) else Period(p.year, p.month + 1)
  }

  /** Days between 0001-01-01 and the first of the month. */
  function FirstDay(p: Period): int
    requires IsMonth(p)
  {
    DaysBeforeYear(p.year) + DaysBeforeMonth(p.year, p.month)
  }

  function PeriodStart(p: Period): Instant
    requires IsMonth(p)
  {
    FirstDay(p) * DAY
  }

  function PeriodEnd(p: Period): Instant
    requires IsMonth(p)
  {
    PeriodStart(NextMonth(p))
  }

  lemma DivisionSteps(n: int)
    ensures n / 4 - (n - 1) / 4 == if n % 4 == 0 then 1 else 0
    ensures n / 100 - (n - 1) / 100 == if n % 100 == 0 then 1 else 0
    ensures n / 400 - (n - 1) / 400 == if n % 400 == 0 then 1 else 0
  {
  }

  lemma CenturiesNest(n: int)
    ensures n % 400 == 0 ==> n % 100 == 0
    ensures n % 100 == 0 ==> n % 4 == 0
  {
  }

  lemma YearLength(year: int)
    ensures DaysBeforeYear(year + 1) == DaysBeforeYear(year) + (if IsLeap(year) then 366 else 365)
  {
    DivisionSteps(year);
    CenturiesNest(year);
  }

  lemma DaysBeforeDecember(year: int)
    ensures DaysBeforeMonth(year, 12) == if IsLeap(year) then 335 else 334
  {
    assert forall m | 2 <= m <= 12 ::
        DaysBeforeMonth(year, m) == DaysBeforeMonth(year, m - 1) + DaysInMonth(year, m - 1);
    assert DaysBeforeMonth(year, 4) == if IsLeap(year) then 91 else 90;
    assert DaysBeforeMonth(year, 8) == DaysBeforeMonth(year, 4) + 122;
  }

  lemma PeriodLength(p: Period)
    requires IsMonth(p)
    ensures FirstDay(NextMonth(p)) == FirstDay(p) + DaysInMonth(p.year, p.month)
  {
    if p.month == 12 {
      YearLength(p.year);
      DaysBeforeDecember(p.year);
    }
  }

  /** The Gregorian calendar: the twelve lengths, the leap years, the 146097 days of 400 years, and 1970-01-01 as day
      719162 after 0001-01-01. */
  lemma GregorianCalendar(year: int, month: int)
    requires 1 <= month <= 12
    ensures DaysInMonth(year, month)
         == [31, if IsLeap(year) then 29 else 28, 31, 30, 31, 30, 31, 31, 30, 31, 30, 31][month - 1]
    ensures IsLeap(year) <==> if year % 100 == 0 then year % 400 == 0 else year % 4 == 0
    ensures DaysBeforeYear(year + 400) == DaysBeforeYear(year) + 146097
    ensures FirstDay(Period(1, 1)) == 0 && FirstDay(Period(1970, 1)) == 719162
  {
    CenturiesNest(year);
    var y := year - 1;
    assert (y + 400) / 4 == y / 4 + 100 && (y + 400) / 100 == y / 100 + 4 && (y + 400) / 400 == y / 400 + 1;
  }

  ghost function MonthIndex(p: Period): int {
    12 * p.year + p.month
  }

  lemma {:induction false} MonthsInOrder(first: Period -> int, p: Period, q: Period)
    requires forall r :: IsMonth(r) ==> first(r) <= first(NextMonth(r))
    requires IsMonth(p) && IsMonth(q) && MonthIndex(p) <= MonthIndex(q)
    ensures first(p) <= first(q)
    decreases MonthIndex(q) - MonthIndex(p)
  {
    if p == q {
    } else {
      MonthsInOrder(first, NextMonth(p), q);
    }
  }

  lemma PeriodsInOrder(p: Period, q: Period)
    requires IsMonth(p) && IsMonth(q) && MonthIndex(p) <= MonthIndex(q)
    ensures FirstDay(p) <= FirstDay(q)
  {
    var first := (r: Period) => if IsMonth(r) then FirstDay(r) else 0;
    forall r | IsMonth(r)
      ensures first(r) <= first(NextMonth(r))
    {
      PeriodLength(r);
    }
    MonthsInOrder(first, p, q);
  }

  lemma WithinOwnPeriod(ts: DateTime)
    ensures FirstDay(PeriodKey(ts)) <= DayNumber(ts) < FirstDay(NextMonth(PeriodKey(ts)))
  {
    PeriodLength(PeriodKey(ts));
  }

  /** The month written into the Redis key is p exactly when the day bucket lies in p's month. */
  lemma PeriodKeyIffDayInMonth(ts: DateTime, p: Period)
    requires IsMonth(p)
    ensures PeriodKey(ts) == p <==> PeriodStart(p) <= Floor(Day, ToInstant(ts)) < PeriodEnd(p)
  {
    BucketIsFloor(Day, ts);
    assert Floor(Day, ToInstant(ts)) == DayNumber(ts) * DAY;
    WithinOwnPeriod(ts);
    var k := PeriodKey(ts);
    if MonthIndex(k) < MonthIndex(p) {
      PeriodsInOrder(NextMonth(k), p);
    } else if MonthIndex(p) < MonthIndex(k) {
      PeriodsInOrder(NextMonth(p), k);
    }
  }

  /** A month starts and ends on a day boundary, so the range query compares day buckets only. */
  lemma PeriodBoundsAreDays(p: Period)
    requires IsMonth(p)
    ensures Floor(Day, PeriodStart(p)) == PeriodStart(p)
    ensures Floor(Day, PeriodEnd(p)) == PeriodEnd(p)
    ensures PeriodStart(p) < PeriodEnd(p)
  {
    FloorUnique(Day, PeriodStart(p), FirstDay(p));
    FloorUnique(Day, PeriodEnd(p), FirstDay(NextMonth(p)));
    PeriodLength(p);
  }
}
