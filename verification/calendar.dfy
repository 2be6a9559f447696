/** Calendar dates of the proleptic Gregorian calendar, numbered the way Python's
    `datetime.date.toordinal` numbers them (0001-01-01 is day 1). The gateway subtracts two
    such dates to count the days of a rental. */
module Calendar {

  datatype Date = Date(year: int, month: int, day: int)

  /** The year range of Python's `datetime` (MINYEAR and MAXYEAR). */
  const MinYear: int := 1
  const MaxYear: int := 9999

  predicate IsLeap(y: int) {
    y % 4 == 0 && (y % 100 != 0 || y % 400 == 0)
  }

  function DaysInMonth(y: int, m: int): int
    requires 1 <= m <= 12
  {
    if m == 2 then (if IsLeap(y) then 29 else 28)
    else if m == 4 || m == 6 || m == 9 || m == 11 then 30
    else 31
  }

  /** A date of the calendar from year 1 on, with no upper bound on the year. */
  predicate WellFormed(d: Date) {
    MinYear <= d.year && 1 <= d.month <= 12 && 1 <= d.day <= DaysInMonth(d.year, d.month)
  }

  /** A date that `datetime.fromisoformat` accepts. */
  predicate IsValid(d: Date) {
    WellFormed(d) && d.year <= MaxYear
  }

  /** Days in the years before year `y`. */
  function DaysBeforeYear(y: int): int
    requires y >= MinYear
  {
    var p := y - 1;
    p * 365 + p / 4 - p / 100 + p / 400
  }

  /** Days in year `y` before the first day of month `m`. */
  function DaysBeforeMonth(y: int, m: int): int
    requires 1 <= m <= 12
  {
    [0, 31, 59, 90, 120, 151, 181, 212, 243, 273, 304, 334][m - 1]
      + (if m > 2 && IsLeap(y) then 1 else 0)
  }

  /** The day number of a date: 0001-01-01 is day 1. */
  function Ordinal(d: Date): (n: int)
    requires WellFormed(d)
    ensures n >= 1
  {
    DaysBeforeYear(d.year) + DaysBeforeMonth(d.year, d.month) + d.day
  }

  /** The calendar successor of a date, counted month by month: an independent
      definition of "one day later" that Ordinal must agree with. */
  function NextDay(d: Date): (e: Date)
    requires WellFormed(d)
    ensures WellFormed(e)
  {
    if d.day < DaysInMonth(d.year, d.month) then Date(d.year, d.month, d.day + 1)
    else if d.month < 12 then Date(d.year, d.month + 1, 1)
    else Date(d.year + 1, 1, 1)
  }

  /** The date `n` days after `d`. */
  function Later(d: Date, n: nat): (e: Date)
    requires WellFormed(d)
    ensures WellFormed(e)
    decreases n
  {
    if n == 0 then d else Later(NextDay(d), n - 1)
  }

  /** Lexicographic order on (year, month, day). */
  predicate Precedes(d: Date, e: Date) {
    d.year < e.year
    || (d.year == e.year && d.month < e.month)
    || (d.year == e.year && d.month == e.month && d.day < e.day)
  }

  /** Counting the multiples of 4, 100 and 400 up to `p + 1` instead of `p` adds one
      exactly for each of them that `p + 1` is. */
  lemma MultiplesStep(p: int)
    requires p >= 0
    ensures (p + 1) / 4 == p / 4 + (if (p + 1) % 4 == 0 then 1 else 0)
    ensures (p + 1) / 100 == p / 100 + (if (p + 1) % 100 == 0 then 1 else 0)
    ensures (p + 1) / 400 == p / 400 + (if (p + 1) % 400 == 0 then 1 else 0)
    ensures (p + 1) % 100 == 0 ==> (p + 1) % 4 == 0
    ensures (p + 1) % 400 == 0 ==> (p + 1) % 100 == 0
  {
  }

  /** A year has 365 days, 366 when it is a leap year. */
  lemma YearLength(y: int)
    requires y >= MinYear
    ensures DaysBeforeYear(y + 1) == DaysBeforeYear(y) + (if IsLeap(y) then 366 else 365)
  {
    MultiplesStep(y - 1);
  }

  /** The days of a date within its year run from 1 to the length of the year. */
  lemma DayOfYearBounds(d: Date)
    requires WellFormed(d)
    ensures 1 <= DaysBeforeMonth(d.year, d.month) + d.day
    ensures DaysBeforeMonth(d.year, d.month) + d.day <= DaysBeforeYear(d.year + 1) - DaysBeforeYear(d.year)
  {
    YearLength(d.year);
  }

  /** Later years start later. */
  lemma {:induction false} YearsIncrease(y: int, z: int)
    requires MinYear <= y <= z
    ensures DaysBeforeYear(y) <= DaysBeforeYear(z)
    decreases z - y
  {
    if y < z {
      YearLength(y);
      YearsIncrease(y + 1, z);
    }
  }

  /** The day number of the next day is one more: Ordinal agrees with NextDay. */
  lemma OrdinalNextDay(d: Date)
    requires WellFormed(d)
    ensures Ordinal(NextDay(d)) == Ordinal(d) + 1
  {
    if d.day == DaysInMonth(d.year, d.month) && d.month == 12 {
      YearLength(d.year);
    }
  }

  /** `n` days later is exactly `n` day numbers later. */
  lemma {:induction false} OrdinalLater(d: Date, n: nat)
    requires WellFormed(d)
    ensures Ordinal(Later(d, n)) == Ordinal(d) + n
    decreases n
  {
    if n > 0 {
      OrdinalNextDay(d);
      OrdinalLater(NextDay(d), n - 1);
    }
  }

  /** Ordinal is strictly increasing in calendar order. */
  lemma OrdinalMonotonic(d: Date, e: Date)
    requires WellFormed(d) && WellFormed(e)
    requires Precedes(d, e)
    ensures Ordinal(d) < Ordinal(e)
  {
    if d.year < e.year {
      DayOfYearBounds(d);
      DayOfYearBounds(e);
      YearsIncrease(d.year + 1, e.year);
    } else if d.month < e.month {
      assert DaysBeforeMonth(d.year, d.month) + DaysInMonth(d.year, d.month) <= DaysBeforeMonth(e.year, e.month);
    }
  }

  /** Distinct dates have distinct day numbers, and the order of day numbers is the
      calendar order. */
  lemma OrdinalOrder(d: Date, e: Date)
    requires WellFormed(d) && WellFormed(e)
    ensures Ordinal(d) < Ordinal(e) <==> Precedes(d, e)
    ensures Ordinal(d) == Ordinal(e) <==> d == e
  {
    if Precedes(d, e) {
      OrdinalMonotonic(d, e);
    } else if Precedes(e, d) {
      OrdinalMonotonic(e, d);
    }
  }
}
