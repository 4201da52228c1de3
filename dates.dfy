/**
 * Calendar arithmetic of java.time's LocalDateTime (ISO proleptic Gregorian
 * calendar), reduced to what the recurrence job needs: adding one week, one
 * month or one year. Time of day is kept at LocalDateTime's nanosecond
 * resolution.
 */
module Dates {

  /** Nanoseconds in a day: the range of `LocalTime.toNanoOfDay`. */
  const NanosPerDay: int := 86_400_000_000_000

  /** A calendar date and a time of day, `nanoOfDay` counting nanoseconds since midnight. */
  datatype DateTime = DateTime(year: int, month: int, day: int, nanoOfDay: int)

  predicate IsLeapYear(y: int) {
    y % 4 == 0 && (y % 100 != 0 || y % 400 == 0)
  }

  function DaysInMonth(y: int, m: int): int {
    if m == 2 then (if IsLeapYear(y) then 29 else 28)
    else if m == 4 || m == 6 || m == 9 || m == 11 then 30
    else 31
  }

  predicate Valid(d: DateTime) {
    && 1 <= d.month <= 12
    && 1 <= d.day <= DaysInMonth(d.year, d.month)
    && 0 <= d.nanoOfDay < NanosPerDay
  }

  /** A LocalDateTime can only hold an existing date. */
  type LocalDateTime = d: DateTime | Valid(d) witness DateTime(1970, 1, 1, 0)

  /** `a.isBefore(b)`: chronological order, lexicographic on the fields. */
  predicate IsBefore(a: DateTime, b: DateTime) {
    || a.year < b.year
    || (a.year == b.year && a.month < b.month)
    || (a.year == b.year && a.month == b.month && a.day < b.day)
    || (a.year == b.year && a.month == b.month && a.day == b.day && a.nanoOfDay < b.nanoOfDay)
  }

  /** The same time of day on the following calendar day. */
  function NextDay(d: LocalDateTime): (r: LocalDateTime) {
    if d.day < DaysInMonth(d.year, d.month) then d.(day := d.day + 1)
    else if d.month < 12 then DateTime(d.year, d.month + 1, 1, d.nanoOfDay)
    else DateTime(d.year + 1, 1, 1, d.nanoOfDay)
  }

  /** `n` calendar days later, one day at a time: the reference for `PlusWeek`. */
  function PlusDays(d: LocalDateTime, n: nat): LocalDateTime
    decreases n
  {
    if n == 0 then d else PlusDays(NextDay(d), n - 1)
  }

  /** `plusWeeks(1)`: seven days later; may roll into the next month and year. */
  function PlusWeek(d: LocalDateTime): (r: LocalDateTime)
    ensures IsBefore(d, r) && r.nanoOfDay == d.nanoOfDay
    ensures r == PlusDays(d, 7)
  {
    var dim := DaysInMonth(d.year, d.month);
    PlusDaysWithinNextMonth(d, 7);
    if d.day + 7 <= dim then d.(day := d.day + 7)
    else if d.month < 12 then DateTime(d.year, d.month + 1, d.day + 7 - dim, d.nanoOfDay)
    else DateTime(d.year + 1, 1, d.day + 7 - dim, d.nanoOfDay)
  }

  /**
   * Adding k <= 28 days either stays in the month or lands in the next one,
   * at day `d.day + k - DaysInMonth`.
   */
  lemma {:induction false} PlusDaysWithinNextMonth(d: LocalDateTime, k: nat)
    requires k <= 28
    ensures var dim := DaysInMonth(d.year, d.month);
      PlusDays(d, k) ==
        if d.day + k <= dim then d.(day := d.day + k)
        else if d.month < 12 then DateTime(d.year, d.month + 1, d.day + k - dim, d.nanoOfDay)
        else DateTime(d.year + 1, 1, d.day + k - dim, d.nanoOfDay)
    decreases k
  {
    if k > 0 {
      PlusDaysAfter(d, k - 1);
      PlusDaysWithinNextMonth(d, k - 1);
    }
  }

  /** One more day at the end: `PlusDays(d, n + 1) == NextDay(PlusDays(d, n))`. */
  lemma {:induction false} PlusDaysAfter(d: LocalDateTime, n: nat)
    ensures PlusDays(d, n + 1) == NextDay(PlusDays(d, n))
    decreases n
  {
    if n > 0 {
      PlusDaysAfter(NextDay(d), n - 1);
    }
  }

  /** Months counted from year 0, so that "one month later" is "+ 1". */
  function MonthIndex(d: DateTime): int {
    d.year * 12 + d.month - 1
  }

  /**
   * `plusMonths(1)`: the next calendar month, with the day of month clamped
   * to the last day of that month (January 31 becomes February 28 or 29).
   */
  function PlusMonth(d: LocalDateTime): (r: LocalDateTime)
    ensures MonthIndex(r) == MonthIndex(d) + 1
    ensures r.day == Min(d.day, DaysInMonth(r.year, r.month)) && r.nanoOfDay == d.nanoOfDay
    ensures IsBefore(d, r)
  {
    var (y, m) := if d.month == 12 then (d.year + 1, 1) else (d.year, d.month + 1);
    DateTime(y, m, Min(d.day, DaysInMonth(y, m)), d.nanoOfDay)
  }

  /** `plusYears(1)`: same month, day clamped (February 29 becomes February 28). */
  function PlusYear(d: LocalDateTime): (r: LocalDateTime)
    ensures r.year == d.year + 1 && r.month == d.month && r.nanoOfDay == d.nanoOfDay
    ensures r.day == Min(d.day, DaysInMonth(r.year, r.month))
    ensures IsBefore(d, r)
  {
    DateTime(d.year + 1, d.month, Min(d.day, DaysInMonth(d.year + 1, d.month)), d.nanoOfDay)
  }

  function Min(a: int, b: int): int {
    if a <= b then a else b
  }

  /** Month-length overflow follows java.time: clamp, never roll into March. */
  lemma MonthEndClamping()
    ensures PlusMonth(DateTime(2024, 1, 31, 36_000_000_000_000)) == DateTime(2024, 2, 29, 36_000_000_000_000)
    ensures PlusMonth(DateTime(2023, 1, 31, 36_000_000_000_000)) == DateTime(2023, 2, 28, 36_000_000_000_000)
    ensures PlusYear(DateTime(2024, 2, 29, 0)) == DateTime(2025, 2, 28, 0)
    ensures PlusWeek(DateTime(2024, 12, 28, 0)) == DateTime(2025, 1, 4, 0)
  {
  }
}
