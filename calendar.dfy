/**
 * The proleptic Gregorian calendar, standing in for JavaScript `Date` values
 * that the schedule views build with `new Date(y, m, d)` and read back with
 * `getFullYear`/`getMonth`/`getDate`/`getDay`. Months are numbered 0..11, as
 * `getMonth` returns them; weekdays 0..6 from Sunday, as `getDay` returns them.
 */
module Calendar {
  datatype Date = Date(year: int, month: int, day: int)

  predicate IsLeap(y: int)
  {
    y % 4 == 0 && (y % 100 != 0 || y % 400 == 0)
  }

  function DaysInMonth(y: int, m: int): (n: int)
    requires 0 <= m < 12
    ensures 28 <= n <= 31
    ensures m == 1 ==> (n == 29 <==> IsLeap(y))
  {
    if m == 1 then (if IsLeap(y) then 29 else 28)
    else if m == 3 || m == 5 || m == 8 || m == 10 then 30
    else 31
  }

  /** A date that exists: a month 0..11 and a day within that month. */
  predicate Valid(d: Date)
  {
    0 <= d.month < 12 && 1 <= d.day <= DaysInMonth(d.year, d.month)
  }

  function YearLength(y: int): int
  {
    if IsLeap(y) then 366 else 365
  }

  /** Days from 1 January of year `y` to the first day of month `m`. */
  function DaysBeforeMonth(y: int, m: int): int
    requires 0 <= m <= 12
  {
    if m == 0 then 0 else DaysBeforeMonth(y, m - 1) + DaysInMonth(y, m - 1)
  }

  /** Days from 1 January of year 0 to 1 January of year `y` (negative before year 0). */
  function DaysBeforeYear(y: int): int
  {
    365 * y + (y + 3) / 4 - (y + 99) / 100 + (y + 399) / 400
  }

  /** Among the years `y` counted in `(y + k - 1) / k`, year `y` is a multiple of `k` or not. */
  lemma MultiplesStep4(y: int)
    ensures (y + 4) / 4 == (y + 3) / 4 + (if y % 4 == 0 then 1 else 0)
  {
  }

  lemma MultiplesStep100(y: int)
    ensures (y + 100) / 100 == (y + 99) / 100 + (if y % 100 == 0 then 1 else 0)
  {
  }

  lemma MultiplesStep400(y: int)
    ensures (y + 400) / 400 == (y + 399) / 400 + (if y % 400 == 0 then 1 else 0)
  {
  }

  lemma DaysBeforeNextYear(y: int)
    ensures DaysBeforeYear(y + 1) == DaysBeforeYear(y) + YearLength(y)
  {
    MultiplesStep4(y);
    MultiplesStep100(y);
    MultiplesStep400(y);
    DivisibilityChain(y);
    var a := if y % 4 == 0 then 1 else 0;
    var b := if y % 100 == 0 then 1 else 0;
    var c := if y % 400 == 0 then 1 else 0;
    assert YearLength(y) == 365 + a - b + c;
  }

  lemma DivisibilityChain(y: int)
    ensures y % 100 == 0 ==> y % 4 == 0
    ensures y % 400 == 0 ==> y % 100 == 0
  {
    if y % 100 == 0 {
      assert y == 100 * (y / 100);
      assert y == 4 * (25 * (y / 100));
    }
    if y % 400 == 0 {
      assert y == 400 * (y / 400);
      assert y == 100 * (4 * (y / 400));
    }
  }

  lemma YearIsTwelveMonths(y: int)
    ensures DaysBeforeMonth(y, 12) == YearLength(y)
  {
    var feb := DaysInMonth(y, 1);
    assert DaysBeforeMonth(y, 1) == 31;
    assert DaysBeforeMonth(y, 2) == 31 + feb;
    assert DaysBeforeMonth(y, 3) == 62 + feb;
    assert DaysBeforeMonth(y, 4) == 92 + feb;
    assert DaysBeforeMonth(y, 5) == 123 + feb;
    assert DaysBeforeMonth(y, 6) == 153 + feb;
    assert DaysBeforeMonth(y, 7) == 184 + feb;
    assert DaysBeforeMonth(y, 8) == 215 + feb;
    assert DaysBeforeMonth(y, 9) == 245 + feb;
    assert DaysBeforeMonth(y, 10) == 276 + feb;
    assert DaysBeforeMonth(y, 11) == 306 + feb;
    assert DaysBeforeMonth(y, 12) == 337 + feb;
  }

  /** Days since 1 January of year 0. */
  function DayNumber(d: Date): int
    requires Valid(d)
  {
    DaysBeforeYear(d.year) + DaysBeforeMonth(d.year, d.month) + d.day - 1
  }

  /** `getDay()`: 0 for Sunday up to 6 for Saturday; 1 January of year 0 was a Saturday. */
  function Weekday(d: Date): (w: int)
    requires Valid(d)
    ensures 0 <= w < 7
  {
    (DayNumber(d) + 6) % 7
  }

  /** The calendar day after `d`. */
  function NextDay(d: Date): (r: Date)
    requires Valid(d)
    ensures Valid(r)
    ensures DayNumber(r) == DayNumber(d) + 1
  {
    if d.day < DaysInMonth(d.year, d.month) then Date(d.year, d.month, d.day + 1)
    else if d.month < 11 then Date(d.year, d.month + 1, 1)
    else
      DaysBeforeNextYear(d.year);
      YearIsTwelveMonths(d.year);
      Date(d.year + 1, 0, 1)
  }

  lemma WeekdayOfNextDay(d: Date)
    requires Valid(d)
    ensures Weekday(NextDay(d)) == (Weekday(d) + 1) % 7
  {
    ShiftMod7(DayNumber(d) + 6, 1);
  }

  lemma ShiftMod7(a: int, n: int)
    ensures (a + n) % 7 == (a % 7 + n) % 7
  {
  }

  /** `new Date(y, m, d + n)` for a valid date and `n >= 0`. */
  function AddDays(d: Date, n: nat): (r: Date)
    requires Valid(d)
    ensures Valid(r)
    ensures DayNumber(r) == DayNumber(d) + n
  {
    if n == 0 then d else NextDay(AddDays(d, n - 1))
  }

  lemma WeekdayOfAddDays(d: Date, n: nat)
    requires Valid(d)
    ensures Weekday(AddDays(d, n)) == (Weekday(d) + n) % 7
  {
    ShiftMod7(DayNumber(d) + 6, n);
  }

  function FirstOfMonth(y: int, m: int): (r: Date)
    requires 0 <= m < 12
    ensures Valid(r)
  {
    Date(y, m, 1)
  }

  function LastOfMonth(y: int, m: int): (r: Date)
    requires 0 <= m < 12
    ensures Valid(r)
  {
    Date(y, m, DaysInMonth(y, m))
  }

  /** The month before (`y`, `m`), as `new Date(y, m - 1, …)` normalises it. */
  function PrevMonth(y: int, m: int): (r: (int, int))
    requires 0 <= m < 12
    ensures 0 <= r.1 < 12
    ensures NextDay(LastOfMonth(r.0, r.1)) == FirstOfMonth(y, m)
  {
    if m == 0 then (y - 1, 11) else (y, m - 1)
  }

  /** The month after (`y`, `m`), as `new Date(y, m + 1, …)` normalises it. */
  function NextMonth(y: int, m: int): (r: (int, int))
    requires 0 <= m < 12
    ensures 0 <= r.1 < 12
    ensures NextDay(LastOfMonth(y, m)) == FirstOfMonth(r.0, r.1)
  {
    if m == 11 then (y + 1, 0) else (y, m + 1)
  }
}
