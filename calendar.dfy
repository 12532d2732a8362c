/** Civil dates and the date arithmetic the finance code gets from the
    JavaScript `Date` constructor.

    A date is a (year, month, day) triple with a 1-based month. The source
    builds dates with `new Date(year, monthIndex, day)`, which accepts a day or
    month outside its range and carries the excess into the neighbouring
    month or year; `FromParts` is that constructor, with a 1-based month, so
    the source's `now.getMonth() - i` is `now.month - i` here. Dates compare
    lexicographically, which for valid dates is chronological order. */
module Calendar {

  datatype Date = Date(year: int, month: int, day: int)

  /** Gregorian leap years (proleptic, so for every integer year). */
  predicate IsLeapYear(y: int) {
    y % 4 == 0 && (y % 100 != 0 || y % 400 == 0)
  }

  function DaysInMonth(y: int, m: int): (n: int)
    requires 1 <= m <= 12
    ensures 28 <= n <= 31
    ensures n == 29 <==> m == 2 && IsLeapYear(y)
  {
    if m == 2 then (if IsLeapYear(y) then 29 else 28)
    else if m == 4 || m == 6 || m == 9 || m == 11 then 30
    else 31
  }

  /** A date that names a real calendar day. */
  predicate ValidDate(d: Date) {
    1 <= d.month <= 12 && 1 <= d.day <= DaysInMonth(d.year, d.month)
  }

  /** Chronological `a <= b` on dates (`new Date(x) >= new Date(y)` in the source). */
  predicate OnOrBefore(a: Date, b: Date) {
    a.year < b.year
    || (a.year == b.year && a.month < b.month)
    || (a.year == b.year && a.month == b.month && a.day <= b.day)
  }

  /** Strictly earlier. */
  predicate Before(a: Date, b: Date) {
    OnOrBefore(a, b) && a != b
  }

  /** The first day of the month before (y, m). */
  function PrevMonth(y: int, m: int): (r: Date)
    requires 1 <= m <= 12
    ensures ValidDate(r) && r.day == 1
    ensures Before(r, Date(y, m, 1))
    ensures m == 1 ==> r.year == y - 1 && r.month == 12
    ensures m > 1 ==> r.year == y && r.month == m - 1
  {
    if m == 1 then Date(y - 1, 12, 1) else Date(y, m - 1, 1)
  }

  /** The first day of the month after (y, m). */
  function NextMonth(y: int, m: int): (r: Date)
    requires 1 <= m <= 12
    ensures ValidDate(r) && r.day == 1
    ensures Before(Date(y, m, 1), r)
    ensures m == 12 ==> r.year == y + 1 && r.month == 1
    ensures m < 12 ==> r.year == y && r.month == m + 1
  {
    if m == 12 then Date(y + 1, 1, 1) else Date(y, m + 1, 1)
  }

  /** Carries an out-of-range day into the neighbouring months, one month at a
      time, until it lands in range: day 0 is the last day of the month
      before, day `DaysInMonth + 1` the first of the month after. */
  function NormalizeDay(y: int, m: int, d: int): (r: Date)
    requires 1 <= m <= 12
    ensures ValidDate(r)
    ensures 1 <= d <= DaysInMonth(y, m) ==> r == Date(y, m, d)
    ensures d < 1 ==> Before(r, Date(y, m, 1))
    ensures d >= 1 ==> OnOrBefore(Date(y, m, 1), r)
    decreases if d < 1 then 1 - d else 0, if d < 1 then 0 else d
  {
    if d < 1 then
      var p := PrevMonth(y, m);
      NormalizeDay(p.year, p.month, d + DaysInMonth(p.year, p.month))
    else if d > DaysInMonth(y, m) then
      var n := NextMonth(y, m);
      NormalizeDay(n.year, n.month, d - DaysInMonth(y, m))
    else
      Date(y, m, d)
  }

  /** `new Date(year, month - 1, day)`: the month is first brought into 1..12
      by moving whole years, then the day is carried across months. */
  function FromParts(year: int, month: int, day: int): (r: Date)
    ensures ValidDate(r)
    ensures ValidDate(Date(year, month, day)) ==> r == Date(year, month, day)
  {
    NormalizeDay(year + (month - 1) / 12, (month - 1) % 12 + 1, day)
  }

  /** The first day of the month `i` months before the month of `now`. */
  function MonthsBack(now: Date, i: int): (r: Date)
    ensures 1 <= r.month <= 12 && r.day == 1
    ensures r.year * 12 + r.month == now.year * 12 + now.month - i
  {
    var k := now.month - 1 - i;
    Date(now.year + k / 12, k % 12 + 1, 1)
  }

  /** `MonthsBack` is the source's `new Date(now.getFullYear(),
      now.getMonth() - i, 1)`: the constructor moves the out-of-range month
      into the year, and day 1 is always in range. */
  lemma MonthsBackIsFromParts(now: Date, i: int)
    ensures MonthsBack(now, i) == FromParts(now.year, now.month - i, 1)
  {
  }

  /** Stepping one month back from `now` and then one month forward returns
      to the same month: consecutive `i` give consecutive calendar months. */
  lemma MonthsBackStep(now: Date, i: int)
    ensures var r := MonthsBack(now, i + 1);
      NextMonth(r.year, r.month) == MonthsBack(now, i)
  {
    var a, b := MonthsBack(now, i + 1), MonthsBack(now, i);
    assert b.year * 12 + b.month == a.year * 12 + a.month + 1;
  }

  /** For a valid `now`, zero months back is the first of `now`'s month. */
  lemma MonthsBackZero(now: Date)
    requires ValidDate(now)
    ensures MonthsBack(now, 0) == Date(now.year, now.month, 1)
  {
    var r := MonthsBack(now, 0);
    assert r.year * 12 + r.month == now.year * 12 + now.month;
  }

  /** `new Date(y, m, d - 7)` for a valid date: the same month when the day
      is past the 7th, otherwise the matching day near the end of the month
      before, so month and year boundaries are crossed. */
  lemma SevenDaysBack(now: Date)
    requires ValidDate(now)
    ensures var r := FromParts(now.year, now.month, now.day - 7);
      && (now.day > 7 ==> r == Date(now.year, now.month, now.day - 7))
      && (now.day <= 7 ==>
            var p := PrevMonth(now.year, now.month);
            r == Date(p.year, p.month, DaysInMonth(p.year, p.month) + now.day - 7))
      && Before(r, now)
  {
    var y, m := now.year + (now.month - 1) / 12, (now.month - 1) % 12 + 1;
    assert y == now.year && m == now.month;
    if now.day <= 7 {
      var p := PrevMonth(now.year, now.month);
      var d := DaysInMonth(p.year, p.month) + now.day - 7;
      assert 1 <= d <= DaysInMonth(p.year, p.month);
      assert NormalizeDay(p.year, p.month, d) == Date(p.year, p.month, d);
    }
  }
}
