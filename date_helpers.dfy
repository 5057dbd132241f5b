/** The date helpers of src/utils/dateHelpers.js. A calendar date is either absent
    (the empty or missing form value) or an integer millisecond timestamp, which
    is what `new Date(s)` yields for a value the form produced. */
module DateHelpers {

  /** Milliseconds in a day: 1000 * 60 * 60 * 24. */
  const MsPerDay: nat := 1000 * 60 * 60 * 24

  datatype DateValue = NoDate | Date(ms: int)

  function Abs(x: int): (r: nat)
    ensures r == x || r == -x
  {
    if x < 0 then -x else x
  }

  /** `q` is the ceiling of `n / d`: the least number of `d`-sized steps covering `n`. */
  ghost predicate IsCeilQuotient(q: nat, n: nat, d: nat) {
    q * d >= n && (q == 0 || (q - 1) * d < n)
  }

  /** `Math.ceil(n / d)` for non-negative `n` and positive `d`. */
  function CeilDiv(n: nat, d: nat): (q: nat)
    requires d > 0
    ensures IsCeilQuotient(q, n, d)
  {
    if n % d == 0 then n / d else n / d + 1
  }

  /** Multiplication by a positive number preserves strict order backwards. */
  lemma MulCancel(a: int, b: int, d: nat)
    requires d > 0 && a * d < b * d
    ensures a < b
  {
  }

  /** The ceiling is determined by its defining inequalities. */
  lemma CeilQuotientUnique(q1: nat, q2: nat, n: nat, d: nat)
    requires d > 0
    requires IsCeilQuotient(q1, n, d) && IsCeilQuotient(q2, n, d)
    ensures q1 == q2
  {
    if q2 > 0 {
      MulCancel(q2 - 1, q1, d);
    }
    if q1 > 0 {
      MulCancel(q1 - 1, q2, d);
    }
  }

  /** calculateNights: 0 when either date is missing, otherwise the whole days
      (rounded up) between the two instants, in either order. */
  function CalculateNights(departure: DateValue, returnDate: DateValue): (n: nat)
    ensures departure == NoDate || returnDate == NoDate ==> n == 0
    ensures departure.Date? && returnDate.Date? ==>
              IsCeilQuotient(n, Abs(returnDate.ms - departure.ms), MsPerDay)
  {
    if departure == NoDate || returnDate == NoDate then 0
    else CeilDiv(Abs(returnDate.ms - departure.ms), MsPerDay)
  }

  lemma NightsSymmetric(a: DateValue, b: DateValue)
    ensures CalculateNights(a, b) == CalculateNights(b, a)
  {
  }

  lemma NightsSameDate(d: DateValue)
    ensures CalculateNights(d, d) == 0
  {
  }

  /** Between two midnights `k` days apart there are exactly |k| nights. */
  lemma NightsBetweenMidnights(day: int, k: int)
    ensures CalculateNights(Date(day * MsPerDay), Date(DayAfter(day, k) * MsPerDay)) == Abs(k)
  {
    var delta := DayAfter(day, k) * MsPerDay - day * MsPerDay;
    assert delta == k * MsPerDay;
    assert Abs(delta) == Abs(k) * MsPerDay;
    var n := CalculateNights(Date(day * MsPerDay), Date(DayAfter(day, k) * MsPerDay));
    if Abs(k) > 0 {
      assert (Abs(k) - 1) * MsPerDay < Abs(k) * MsPerDay;
    }
    assert IsCeilQuotient(Abs(k), Abs(delta), MsPerDay);
    CeilQuotientUnique(n, Abs(k), Abs(delta), MsPerDay);
  }

  /** formatDate: the empty string for a missing date, otherwise the rendering
      the locale library gives (here the parameter `render`). */
  function FormatDate(d: DateValue, render: int -> string): (s: string)
    ensures d == NoDate ==> s == ""
    ensures d.Date? ==> s == render(d.ms)
  {
    match d
    case NoDate => ""
    case Date(ms) => render(ms)
  }

  /** The day number reached from `day` after `days` days (negative goes back). */
  function DayAfter(day: int, days: int): int {
    day + days
  }

  /** A JavaScript `Date`, a mutable object, seen at day granularity. */
  class CalendarDate {
    var day: int

    constructor (day: int)
      ensures this.day == day
    {
      this.day := day;
    }

    /** `setDate`, which rolls over month and year boundaries; on day numbers it
        is a plain assignment. */
    method SetDay(day: int)
      modifies this
      ensures this.day == day
    {
      this.day := day;
    }
  }

  /** addDays: copies `date`, shifts the copy, and leaves `date` alone. */
  method AddDays(date: CalendarDate, days: int) returns (result: CalendarDate)
    ensures fresh(result)
    ensures result.day == DayAfter(date.day, days)
    ensures date.day == old(date.day)
  {
    result := new CalendarDate(date.day);
    result.SetDay(result.day + days);
  }

  lemma AddZeroDays(day: int)
    ensures DayAfter(day, 0) == day
  {
  }

  lemma AddDaysCompose(day: int, a: int, b: int)
    ensures DayAfter(DayAfter(day, a), b) == DayAfter(day, a + b)
  {
  }
}
