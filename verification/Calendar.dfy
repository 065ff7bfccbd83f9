/** The billing period's month arithmetic on the Gregorian calendar, years 1 to 9999. */
module Calendar {
  import opened Prelude

  datatype Date = Date(year: int, month: int, day: int)

  predicate Leap(y: int) { y % 4 == 0 && (y % 100 != 0 || y % 400 == 0) }

  function DaysInMonth(y: int, m: int): int {
    if m == 2 then (if Leap(y) then 29 else 28) else if m == 4 || m == 6 || m == 9 || m == 11 then 30 else 31
  }

  predicate ValidDate(t: Date) {
    1 <= t.year <= 9999 && 1 <= t.month <= 12 && 1 <= t.day <= DaysInMonth(t.year, t.month)
  }

  // Months counted from year 0, and the date a month later: same day, or the month's last.
  function MonthIndex(t: Date): int { 12 * t.year + t.month - 1 }

  function AddMonth(t: Date): Option<Date> {
    var next := MonthIndex(t) + 1;
    var y, m := next / 12, next % 12 + 1;
    if y > 9999 then None else Some(Date(y, m, Min(t.day, DaysInMonth(y, m))))
  }

  // add_month as the source branches; past year 9999 replacing the year raises.
  method ComputeAddMonth(t: Date) returns (r: Option<Date>)
    requires ValidDate(t)
    ensures r == AddMonth(t)
    ensures r.None? <==> t.year == 9999 && t.month == 12
  {
    var y, m := t.year, t.month;
    if m == 12 {
      y, m := y + 1, 1;
    } else {
      m := m + 1;
    }
    if y > 9999 { return None; }
    var last := DaysInMonth(y, m);
    return Some(Date(y, m, if t.day < last then t.day else last));
  }

  // ---------- counting days ----------

  function DaysBeforeMonth(y: int, m: int): int
    decreases m
  {
    if m <= 1 then 0 else DaysBeforeMonth(y, m - 1) + DaysInMonth(y, m - 1)
  }

  function DaysBeforeYear(y: int): int
    decreases y
  {
    if y <= 1 then 0 else DaysBeforeYear(y - 1) + DaysBeforeMonth(y - 1, 13)
  }

  function DayNumber(t: Date): int { DaysBeforeYear(t.year) + DaysBeforeMonth(t.year, t.month) + t.day }

  predicate Earlier(a: Date, b: Date) {
    a.year < b.year || (a.year == b.year && (a.month < b.month || (a.month == b.month && a.day < b.day)))
  }

  lemma {:induction false} MonthsGrow(y: int, m: int, n: int)
    requires 1 <= m < n
    ensures DaysBeforeMonth(y, m) + DaysInMonth(y, m) <= DaysBeforeMonth(y, n)
    decreases n
  {
    if m + 1 < n { MonthsGrow(y, m, n - 1); }
  }

  // The lengths of the months: 30 and 31 days by turns, starting over in August, but for February.
  lemma MonthTable(y: int, m: int)
    requires 1 <= m <= 12 && m != 2
    ensures DaysInMonth(y, m) == 30 + (m + m / 8) % 2
  {
  }

  lemma FirstHalf(y: int)
    ensures DaysBeforeMonth(y, 7) == 153 + DaysInMonth(y, 2)
  {
    assert DaysBeforeMonth(y, 3) == 31 + DaysInMonth(y, 2);
    assert DaysBeforeMonth(y, 5) == DaysBeforeMonth(y, 3) + 61;
  }

  lemma SecondHalf(y: int)
    ensures DaysBeforeMonth(y, 13) == DaysBeforeMonth(y, 7) + 184
  {
    assert DaysBeforeMonth(y, 9) == DaysBeforeMonth(y, 7) + 62;
    assert DaysBeforeMonth(y, 11) == DaysBeforeMonth(y, 9) + 61;
  }

  function YearDays(y: int): int { if y % 400 == 0 || (y % 4 == 0 && y % 100 != 0) then 366 else 365 }

  // A year has 365 days, and one more every fourth year, but for centuries that 400 does not divide.
  lemma YearLength(y: int)
    ensures DaysBeforeMonth(y, 13) == YearDays(y)
  {
    FirstHalf(y);
    SecondHalf(y);
    Divides400(y);
  }

  lemma Divides400(y: int)
    ensures y % 400 == 0 ==> y % 4 == 0 && y % 100 == 0
    ensures y % 100 == 0 ==> y % 4 == 0
  {
    assert y == 400 * (y / 400) + y % 400 && y == 100 * (y / 100) + y % 100;
  }

  function LeapsBefore(n: int): int { n / 4 - n / 100 + n / 400 }

  lemma LeapStep(n: int)
    requires n >= 1
    ensures LeapsBefore(n) == LeapsBefore(n - 1) + if n % 400 == 0 || (n % 4 == 0 && n % 100 != 0) then 1 else 0
  {
    Quarter(n);
    Century(n);
    FourHundred(n);
    Divides400(n);
  }

  lemma Quarter(n: int)
    requires n >= 1
    ensures n / 4 == (n - 1) / 4 + if n % 4 == 0 then 1 else 0
  {
  }

  lemma Century(n: int)
    requires n >= 1
    ensures n / 100 == (n - 1) / 100 + if n % 100 == 0 then 1 else 0
  {
  }

  lemma FourHundred(n: int)
    requires n >= 1
    ensures n / 400 == (n - 1) / 400 + if n % 400 == 0 then 1 else 0
  {
  }

  function DaysByRule(y: int): int { 365 * (y - 1) + LeapsBefore(y - 1) }

  // The number of days before a year, in closed form.
  lemma {:induction false} DaysBefore(y: int)
    requires y >= 1
    ensures DaysBeforeYear(y) == DaysByRule(y)
  {
    if y > 1 {
      DaysBefore(y - 1);
      YearLength(y - 1);
      LeapStep(y - 1);
    }
  }

  // So 400 years have 146097 days, wherever they start.
  lemma FourCenturies(y: int)
    requires y >= 1
    ensures DaysBeforeYear(y + 400) - DaysBeforeYear(y) == 146_097
  {
    DaysBefore(y);
    DaysBefore(y + 400);
    RuleOf400(y);
  }

  lemma RuleOf400(y: int)
    ensures DaysByRule(y + 400) == DaysByRule(y) + 146_097
  {
    LeapsOf400(y - 1);
  }

  lemma LeapsOf400(n: int)
    ensures LeapsBefore(n + 400) == LeapsBefore(n) + 97
  {
    assert (n + 400) / 4 == n / 4 + 100;
    assert (n + 400) / 100 == n / 100 + 4;
    assert (n + 400) / 400 == n / 400 + 1;
  }

  lemma NextYear(z: int)
    requires z >= 2
    ensures DaysBeforeYear(z) == DaysBeforeYear(z - 1) + YearDays(z - 1)
  {
    YearLength(z - 1);
  }

  lemma {:induction false} YearsMonotone(y: int, z: int)
    requires 1 <= y <= z
    ensures DaysBeforeYear(y) <= DaysBeforeYear(z)
    decreases z
  {
    if y < z {
      NextYear(z);
      YearsMonotone(y, z - 1);
    }
  }

  lemma YearsGrow(y: int, z: int)
    requires 1 <= y < z
    ensures DaysBeforeYear(y) + YearDays(y) <= DaysBeforeYear(z)
  {
    NextYear(y + 1);
    YearsMonotone(y + 1, z);
  }

  // Day numbers follow the calendar's order.
  lemma DayNumberOrders(a: Date, b: Date)
    requires ValidDate(a) && ValidDate(b) && Earlier(a, b)
    ensures DayNumber(a) < DayNumber(b)
  {
    if a.year < b.year {
      YearsGrow(a.year, b.year);
      YearLength(a.year);
      MonthsGrow(a.year, a.month, 13);
      if b.month > 1 { MonthsGrow(b.year, 1, b.month); }
    } else if a.month < b.month {
      MonthsGrow(a.year, a.month, b.month);
    }
  }

  // ---------- what a month later is ----------

  lemma MonthLength(t: Date)
    requires ValidDate(t) && AddMonth(t).Some?
    ensures var u := AddMonth(t).value;
      ValidDate(u) && Earlier(t, u) && 28 <= DayNumber(u) - DayNumber(t) <= 31
    ensures DayNumber(AddMonth(t).value) - DayNumber(t) == DaysInMonth(t.year, t.month) - t.day + AddMonth(t).value.day
    ensures var u := AddMonth(t).value;
      && (if t.month == 12 then u.year == t.year + 1 && u.month == 1 else u.year == t.year && u.month == t.month + 1)
      && (u.day == t.day || (u.day < t.day && u.day == DaysInMonth(u.year, u.month)))
  {
    if t.month == 12 { assert DaysBeforeMonth(t.year, 13) == DaysBeforeMonth(t.year, 12) + 31; }
  }

  predicate Clipped(t: Date) { AddMonth(t).Some? && AddMonth(t).value.day < t.day }

  // Order is kept; two dates fall together exactly when they share the month and the later one is
  // clipped down to the earlier one's result.
  lemma MonotoneExactly(a: Date, b: Date)
    requires ValidDate(a) && ValidDate(b) && Earlier(a, b) && AddMonth(b).Some?
    ensures AddMonth(a).Some?
    ensures Earlier(AddMonth(a).value, AddMonth(b).value) || AddMonth(a) == AddMonth(b)
    ensures AddMonth(a) == AddMonth(b) <==>
            a.year == b.year && a.month == b.month && Clipped(b) && AddMonth(b).value.day <= a.day
  {
  }
}
