// app/core/dates.py: shifting a date by months, clamped to the month's length.
module Dates {
  import opened Options

  datatype Date = Date(year: int, month: int, day: int)

  const MIN_YEAR := 1
  const MAX_YEAR := 9999

  predicate Leap(year: int) { year % 4 == 0 && (year % 100 != 0 || year % 400 == 0) }

  function MonthLength(year: int, month: int): (days: int)
    requires 1 <= month <= 12
    ensures 28 <= days <= 31
  {
    if month == 2 then (if Leap(year) then 29 else 28)
    else if month == 4 || month == 6 || month == 9 || month == 11 then 30
    else 31
  }

  predicate Valid(d: Date) {
    MIN_YEAR <= d.year <= MAX_YEAR && 1 <= d.month <= 12 && 1 <= d.day <= MonthLength(d.year, d.month)
  }

  // Months since the first month of year zero.
  function Index(d: Date): int { 12 * d.year + d.month - 1 }

  function Before(d: Date, e: Date): bool {
    d.year < e.year || (d.year == e.year && (d.month < e.month || (d.month == e.month && d.day < e.day)))
  }

  // None stands for the ValueError of a year the calendar does not have.
  function AddMonths(start: Date, months: int): Option<Date>
    requires Valid(start)
  {
    var zeroBased := start.month - 1 + months;
    var year, month := start.year + zeroBased / 12, zeroBased % 12 + 1;
    if year < MIN_YEAR || year > MAX_YEAR then None
    else
      var length := MonthLength(year, month);
      Some(Date(year, month, if start.day < length then start.day else length))
  }

  // The result is a date of the calendar exactly `months` months away, on the same day of the
  // month or its last; there is none only when the calendar runs out.
  lemma AddMonthsExact(start: Date, months: int)
    requires Valid(start)
    ensures AddMonths(start, months).Some? <==> 12 * MIN_YEAR <= Index(start) + months < 12 * (MAX_YEAR + 1)
    ensures AddMonths(start, months).Some? ==> var d := AddMonths(start, months).value;
      && Valid(d) && Index(d) == Index(start) + months
      && d.day <= start.day && (d.day == start.day || d.day == MonthLength(d.year, d.month))
  {
  }

  // A date is fixed by its month index and its day.
  lemma SameIndex(d: Date, e: Date)
    requires 1 <= d.month <= 12 && 1 <= e.month <= 12 && Index(d) == Index(e)
    ensures d.year == e.year && d.month == e.month
  {
  }

  lemma IndexOrders(d: Date, e: Date)
    requires 1 <= d.month <= 12 && 1 <= e.month <= 12 && Index(d) < Index(e)
    ensures Before(d, e)
  {
  }

  // Successive due dates never coincide and never go back.
  lemma StrictlyIncreasing(start: Date, m: int, n: int)
    requires Valid(start) && m < n && AddMonths(start, m).Some? && AddMonths(start, n).Some?
    ensures Before(AddMonths(start, m).value, AddMonths(start, n).value)
  {
    AddMonthsExact(start, m);
    AddMonthsExact(start, n);
    IndexOrders(AddMonths(start, m).value, AddMonths(start, n).value);
  }

  // Two shifts are one shift exactly when the first did not clamp further than the second would.
  lemma Additive(start: Date, m: int, n: int)
    requires Valid(start) && AddMonths(start, m).Some? && AddMonths(start, m + n).Some?
    ensures var mid := AddMonths(start, m).value; var end := AddMonths(start, m + n).value;
      && Valid(mid) && AddMonths(mid, n).Some? && Valid(end)
      && (AddMonths(mid, n).value == end <==>
           start.day <= MonthLength(mid.year, mid.month) || MonthLength(end.year, end.month) <= MonthLength(mid.year, mid.month))
  {
    AddMonthsExact(start, m);
    AddMonthsExact(start, m + n);
    var mid := AddMonths(start, m).value;
    AddMonthsExact(mid, n);
    SameIndex(AddMonths(mid, n).value, AddMonths(start, m + n).value);
  }

  // In particular for every start up to the 28th, leap years or not.
  lemma AdditiveUpToThe28th(start: Date, m: int, n: int)
    requires Valid(start) && start.day <= 28 && AddMonths(start, m).Some? && AddMonths(start, m + n).Some?
    ensures Valid(AddMonths(start, m).value) && AddMonths(AddMonths(start, m).value, n) == AddMonths(start, m + n)
  {
    Additive(start, m, n);
  }
}
