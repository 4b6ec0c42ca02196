/** Days and Gregorian months on a fixed-offset clock. Instants are milliseconds,
    days and months are counted from 1 January of year 0. */
module Calendar {

  const DAY: nat := 86_400_000
  const MINUTE: nat := 60_000
  const HOUR: nat := 3_600_000

  function DayOf(t: nat): nat { t / DAY }

  predicate Leap(year: nat) { year % 4 == 0 && (year % 100 != 0 || year % 400 == 0) }

  /** The length of month number k, that is month k % 12 of year k / 12. */
  function MonthLength(k: nat): (days: nat)
    ensures 28 <= days <= 31
  {
    var m := k % 12;
    if m == 1 then (if Leap(k / 12) then 29 else 28)
    else if m == 3 || m == 5 || m == 8 || m == 10 then 30
    else 31
  }

  function FirstDay(k: nat): nat {
    if k == 0 then 0 else FirstDay(k - 1) + MonthLength(k - 1)
  }

  function MonthFrom(day: nat, k: nat): (month: nat)
    requires FirstDay(k) <= day
    ensures FirstDay(month) <= day < FirstDay(month + 1)
    decreases day - FirstDay(k)
  {
    if day < FirstDay(k + 1) then k else MonthFrom(day, k + 1)
  }

  function MonthOf(t: nat): (month: nat)
    ensures FirstDay(month) <= DayOf(t) < FirstDay(month + 1)
  {
    MonthFrom(DayOf(t), 0)
  }

  /** Month starts strictly increase. */
  lemma {:induction false} FirstDayIncreases(j: nat, k: nat)
    requires j < k
    ensures FirstDay(j) < FirstDay(k)
  {
    if j + 1 < k {
      FirstDayIncreases(j, k - 1);
    }
  }

  function MonthStart(k: nat): nat { FirstDay(k) * DAY }

  /** The last millisecond of month k, the 23:59:59.999 of the queries. */
  function MonthEnd(k: nat): nat
    ensures MonthEnd(k) + 1 == MonthStart(k + 1)
  {
    MonthStart(k + 1) - 1
  }

  /** An instant lies between the first and the last millisecond of month k
      exactly when k is its month: months partition the time line. */
  lemma MonthWindow(t: nat, k: nat)
    ensures MonthStart(k) <= t <= MonthEnd(k) <==> MonthOf(t) == k
  {
    var m := MonthOf(t);
    if m < k {
      if m + 1 < k { FirstDayIncreases(m + 1, k); }
    } else if k < m {
      if k + 1 < m { FirstDayIncreases(k + 1, m); }
    }
  }

  /** A day is 86 400 000 milliseconds. */
  lemma DayInMilliseconds(t: nat, day: nat)
    ensures DayOf(t) == day <==> 86_400_000 * day <= t < 86_400_000 * day + 86_400_000
  {
  }

  /** January to December of a common year. */
  const COMMON_YEAR: seq<nat> := [31, 28, 31, 30, 31, 30, 31, 31, 30, 31, 30, 31]

  lemma MonthNumber(year: nat, m: nat)
    requires m < 12
    ensures (12 * year + m) % 12 == m && (12 * year + m) / 12 == year
  {
  }

  lemma LengthByMonth(k: nat, year: nat, m: nat)
    requires m < 12 && k % 12 == m && k / 12 == year
    ensures MonthLength(k) == COMMON_YEAR[m] + (if m == 1 && Leap(year) then 1 else 0)
  {
  }

  /** The months of a year have their usual lengths, February one day more in leap years. */
  lemma MonthsOfTheYear(year: nat, m: nat)
    requires m < 12
    ensures FirstDay(12 * year + m + 1) - FirstDay(12 * year + m)
            == COMMON_YEAR[m] + (if m == 1 && Leap(year) then 1 else 0)
  {
    var k := 12 * year + m;
    MonthNumber(year, m);
    LengthByMonth(k, year, m);
    assert FirstDay(k + 1) == FirstDay(k) + MonthLength(k);
  }

  /** The days of a common year before each month, and of the whole year. */
  const DAYS_BEFORE: seq<nat> := [0, 31, 59, 90, 120, 151, 181, 212, 243, 273, 304, 334, 365]

  lemma {:induction false} DaysBeforeMonth(year: nat, m: nat)
    requires m <= 12
    ensures FirstDay(12 * year + m) - FirstDay(12 * year) == DAYS_BEFORE[m] + (if m >= 2 && Leap(year) then 1 else 0)
  {
    if m == 0 {
    } else {
      DaysBeforeMonth(year, m - 1);
      MonthsOfTheYear(year, m - 1);
    }
  }

  /** So a year has 365 or 366 days; among the centuries only every fourth is a leap year. */
  lemma YearInDays(year: nat)
    ensures FirstDay(12 * year + 12) - FirstDay(12 * year)
            == if year % 4 == 0 && (year % 100 != 0 || year % 400 == 0) then 366 else 365
  {
    DaysBeforeMonth(year, 12);
  }
}
