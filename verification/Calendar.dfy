/**
 * The Gregorian calendar in UTC, as billing periods are added to a date (packages/contracts/src/billing.ts).
 * Days are counted from the start of the year 0.
 */
module Calendar {
  predicate DivisibleBy(n: int, k: int)
    requires k > 0
  {
    n % k == 0
  }

  predicate IsLeap(year: int) { DivisibleBy(year, 4) && (!DivisibleBy(year, 100) || DivisibleBy(year, 400)) }

  function YearLength(year: int): (r: nat) { if IsLeap(year) then 366 else 365 }

  function MonthLength(year: int, month: int): (r: nat)
    requires 1 <= month <= 12
    ensures 28 <= r <= 31
  {
    if month == 2 then (if IsLeap(year) then 29 else 28)
    else if month == 4 || month == 6 || month == 9 || month == 11 then 30 else 31
  }

  /** Multiples of `k` from 0 up to and not including `n`. */
  function Multiples(n: int, k: int): (r: int)
    requires k > 0
  {
    (n + k - 1) / k
  }

  /** Days before a year began. */
  function BeforeYear(year: int): (r: int) { 365 * year + Multiples(year, 4) - Multiples(year, 100) + Multiples(year, 400) }

  /** Days of a year before a month began. */
  function BeforeMonth(year: int, month: int): (r: nat)
    requires 1 <= month <= 13
    decreases month
  {
    if month == 1 then 0 else BeforeMonth(year, month - 1) + MonthLength(year, month - 1)
  }

  datatype Date = Date(year: int, month: int, day: int)

  predicate Valid(date: Date) { 1 <= date.month <= 12 && 1 <= date.day <= MonthLength(date.year, date.month) }

  function DayNumber(date: Date): (r: int)
    requires Valid(date)
  {
    BeforeYear(date.year) + BeforeMonth(date.year, date.month) + date.day - 1
  }

  lemma YearsFollow(year: int)
    ensures BeforeYear(year + 1) == BeforeYear(year) + YearLength(year)
  {
    hide Multiples, DivisibleBy;
    Divisors(year);
    Carry(year, 4);
    Carry(year, 100);
    Carry(year, 400);
  }

  lemma Divisors(n: int)
    ensures DivisibleBy(n, 400) ==> DivisibleBy(n, 100)
    ensures DivisibleBy(n, 100) ==> DivisibleBy(n, 4)
  {
  }

  lemma Carry(n: int, k: int)
    requires k == 4 || k == 100 || k == 400
    ensures Multiples(n + 1, k) == Multiples(n, k) + if DivisibleBy(n, k) then 1 else 0
  {
    if k == 4 {
      assert (n + 4) / 4 == (n + 3) / 4 + if n % 4 == 0 then 1 else 0;
    } else if k == 100 {
      assert (n + 100) / 100 == (n + 99) / 100 + if n % 100 == 0 then 1 else 0;
    } else {
      assert (n + 400) / 400 == (n + 399) / 400 + if n % 400 == 0 then 1 else 0;
    }
  }

  lemma MonthsFillYear(year: int)
    ensures BeforeMonth(year, 13) == YearLength(year)
  {
    var m2, m3, m4 := BeforeMonth(year, 2), BeforeMonth(year, 3), BeforeMonth(year, 4);
    var m6, m8, m10 := BeforeMonth(year, 6), BeforeMonth(year, 8), BeforeMonth(year, 10);
    var m12 := BeforeMonth(year, 12);
  }

  // ----- The date of a day

  function Far(n: int, year: int): (r: nat) {
    if n < BeforeYear(year) then BeforeYear(year) - n else if n >= BeforeYear(year + 1) then n - BeforeYear(year) else 0
  }

  /** The year a day is in, searched for from any year. */
  function YearFrom(n: int, year: int): (r: int)
    ensures BeforeYear(r) <= n < BeforeYear(r + 1)
    decreases Far(n, year)
  {
    YearsFollow(year - 1);
    YearsFollow(year);
    YearsFollow(year + 1);
    if n < BeforeYear(year) then YearFrom(n, year - 1) else if n >= BeforeYear(year + 1) then YearFrom(n, year + 1) else year
  }

  function MonthFrom(year: int, day: int, month: int): (r: int)
    requires 1 <= month <= 12 && BeforeMonth(year, month) <= day < BeforeMonth(year, 13)
    ensures 1 <= r <= 12 && BeforeMonth(year, r) <= day < BeforeMonth(year, r) + MonthLength(year, r)
    decreases 12 - month
  {
    if day < BeforeMonth(year, month) + MonthLength(year, month) then month
    else
      assert month < 12;
      MonthFrom(year, day, month + 1)
  }

  function DateOf(n: int): (r: Date)
    ensures Valid(r) && DayNumber(r) == n
  {
    var year := YearFrom(n, 2000);
    YearsFollow(year);
    MonthsFillYear(year);
    var day := n - BeforeYear(year);
    var month := MonthFrom(year, day, 1);
    Date(year, month, day - BeforeMonth(year, month) + 1)
  }

  lemma {:induction false} YearsAscend(a: int, b: int)
    requires a <= b
    ensures BeforeYear(a) + 365 * (b - a) <= BeforeYear(b)
    decreases b - a
  {
    hide BeforeYear, IsLeap;
    if a < b {
      YearsFollow(b - 1);
      YearsAscend(a, b - 1);
    }
  }

  lemma {:induction false} MonthsAscend(year: int, a: int, b: int)
    requires 1 <= a <= b <= 13
    ensures BeforeMonth(year, a) <= BeforeMonth(year, b)
    ensures a < b ==> BeforeMonth(year, a) + MonthLength(year, a) <= BeforeMonth(year, b)
    decreases b - a
  {
    if a < b { MonthsAscend(year, a, b - 1); }
  }

  /** A day is in its year and month. */
  lemma DayWithin(date: Date)
    requires Valid(date)
    ensures BeforeYear(date.year) <= DayNumber(date) < BeforeYear(date.year + 1)
    ensures BeforeMonth(date.year, date.month) <= DayNumber(date) - BeforeYear(date.year) < BeforeMonth(date.year, date.month + 1)
  {
    hide BeforeYear, MonthLength;
    MonthsAscend(date.year, date.month + 1, 13);
    MonthsFillYear(date.year);
    YearsFollow(date.year);
  }

  /** No two dates are one day. */
  lemma OneDate(a: Date, b: Date)
    requires Valid(a) && Valid(b) && DayNumber(a) == DayNumber(b)
    ensures a == b
  {
    hide BeforeYear, BeforeMonth, MonthLength;
    DayWithin(a);
    DayWithin(b);
    if a.year < b.year { YearsAscend(a.year + 1, b.year); }
    if b.year < a.year { YearsAscend(b.year + 1, a.year); }
    if a.month < b.month { MonthsAscend(a.year, a.month + 1, b.month); }
    if b.month < a.month { MonthsAscend(a.year, b.month + 1, a.month); }
  }

  // ----- One period later

  datatype Period = Month | Year

  function Min(a: int, b: int): (r: int) { if a < b then a else b }

  /** The same day a month or a year later, or that month's last day when it is shorter. */
  function Later(date: Date, period: Period): (r: Date)
    requires Valid(date)
    ensures Valid(r)
  {
    match period
    case Year => Date(date.year + 1, date.month, Min(date.day, MonthLength(date.year + 1, date.month)))
    case Month =>
      var year, month := if date.month == 12 then date.year + 1 else date.year, if date.month == 12 then 1 else date.month + 1;
      Date(year, month, Min(date.day, MonthLength(year, month)))
  }

  /** Months before one in a year, by whether it is a leap year. */
  lemma MonthStarts(year: int, month: int)
    requires 1 <= month <= 12
    ensures BeforeMonth(year + 1, month) - BeforeMonth(year, month)
         == if month <= 2 then 0 else MonthLength(year + 1, 2) - MonthLength(year, 2)
    decreases month
  {
    if month > 1 { MonthStarts(year, month - 1); }
  }

  /** A month later is 28 to 31 days on, and a year later 365 or 366, whatever day it is counted from. */
  lemma LaterBy(date: Date, period: Period)
    requires Valid(date)
    ensures var days := DayNumber(Later(date, period)) - DayNumber(date);
            if period.Month? then 28 <= days <= 31 else 365 <= days <= 366
  {
    hide DayNumber, Later;
    match period
    case Year => YearLaterBy(date);
    case Month => MonthLaterBy(date);
  }

  lemma MonthLaterBy(date: Date)
    requires Valid(date)
    ensures 28 <= DayNumber(Later(date, Month)) - DayNumber(date) <= 31
  {
    hide BeforeYear, BeforeMonth, IsLeap;
    YearsFollow(date.year);
    if date.month == 12 { EndOfYear(date.year); } else { NextMonthStarts(date.year, date.month); }
  }

  lemma NextMonthStarts(year: int, month: int)
    requires 1 <= month <= 12
    ensures BeforeMonth(year, month + 1) == BeforeMonth(year, month) + MonthLength(year, month)
  {
  }

  lemma EndOfYear(year: int)
    ensures BeforeMonth(year, 12) + 31 == YearLength(year) && BeforeMonth(year + 1, 1) == 0
  {
    MonthsFillYear(year);
  }

  lemma YearLaterBy(date: Date)
    requires Valid(date)
    ensures 365 <= DayNumber(Later(date, Year)) - DayNumber(date) <= 366
  {
    hide BeforeYear, BeforeMonth;
    YearsFollow(date.year);
    MonthStarts(date.year, date.month);
    NoTwoLeaps(date.year);
  }

  lemma NoTwoLeaps(year: int)
    ensures !(IsLeap(year) && IsLeap(year + 1))
  {
  }

  // ----- Instants

  const DAY_MS := 86400000

  /** One billing period after an instant: the date moves, the time of day stays. */
  function AddBillingPeriod(at: int, period: Period): (r: int)
  {
    DayNumber(Later(DateOf(at / DAY_MS), period)) * DAY_MS + at % DAY_MS
  }

  lemma PeriodLength(at: int, period: Period)
    ensures var ms := AddBillingPeriod(at, period) - at;
            if period.Month? then 28 * DAY_MS <= ms <= 31 * DAY_MS else 365 * DAY_MS <= ms <= 366 * DAY_MS
  {
    hide DayNumber, DateOf, Later;
    LaterBy(DateOf(at / DAY_MS), period);
    var days := DayNumber(Later(DateOf(at / DAY_MS), period)) - DayNumber(DateOf(at / DAY_MS));
    SameDay(at);
    assert AddBillingPeriod(at, period) - at == days * DAY_MS;
  }

  lemma SameDay(at: int)
    ensures DayNumber(DateOf(at / DAY_MS)) == at / DAY_MS && (at / DAY_MS) * DAY_MS + at % DAY_MS == at
  {
    hide DayNumber, DateOf;
  }

  /** The year whose April opens the financial year an instant falls in, Indian time. */
  function FiscalYearOf(at: int): (r: int) {
    var date := DateOf((at + 330 * 60000) / DAY_MS);
    if date.month >= 4 then date.year else date.year - 1
  }

  /** A month or a year later is the same day of the next month, or of the month a year on, or its last day; at the same time. */
  lemma PeriodLater(at: int, period: Period)
    ensures var to, from := DateOf(AddBillingPeriod(at, period) / DAY_MS), DateOf(at / DAY_MS);
            && to.year * 12 + to.month == from.year * 12 + from.month + (if period.Month? then 1 else 12)
            && to.day == (if from.day <= MonthLength(to.year, to.month) then from.day else MonthLength(to.year, to.month))
            && AddBillingPeriod(at, period) % DAY_MS == at % DAY_MS
  {
    hide DayNumber, DateOf, MonthLength;
    var from := DateOf(at / DAY_MS);
    var day := DayNumber(Later(from, period));
    Midnights(day, at % DAY_MS);
    OneDate(DateOf(day), Later(from, period));
  }

  lemma Midnights(day: int, time: int)
    requires 0 <= time < DAY_MS
    ensures (day * DAY_MS + time) / DAY_MS == day && (day * DAY_MS + time) % DAY_MS == time
  {
  }

  /** Midnight in India when a financial year begins. */
  function YearOpens(year: int): (r: int) { DayNumber(Date(year, 4, 1)) * DAY_MS - 330 * 60000 }

  lemma AprilWithin(date: Date, year: int)
    requires Valid(date)
    ensures DayNumber(Date(year, 4, 1)) <= DayNumber(date) <==> year < date.year || (year == date.year && date.month >= 4)
  {
    hide BeforeYear, BeforeMonth, MonthLength;
    var april := Date(year, 4, 1);
    assert Valid(april) by { AprilIsValid(year); }
    DayWithin(date);
    DayWithin(april);
    if year < date.year { YearsAscend(year + 1, date.year); }
    if date.year < year { YearsAscend(date.year + 1, year); }
    if year == date.year {
      if date.month < 4 { MonthsAscend(year, date.month + 1, 4); }
      if date.month > 4 { MonthsAscend(year, 5, date.month); }
      FirstOf(april);
    }
  }

  lemma AprilIsValid(year: int)
    ensures Valid(Date(year, 4, 1))
  {
  }

  lemma FirstOf(date: Date)
    requires Valid(date) && date.day == 1
    ensures DayNumber(date) == BeforeYear(date.year) + BeforeMonth(date.year, date.month)
  {
  }

  /** An instant is in the financial year that opened last. */
  lemma FiscalYearIs(at: int)
    ensures var year := FiscalYearOf(at); YearOpens(year) <= at < YearOpens(year + 1)
  {
    hide DayNumber, DateOf;
    var ist := at + 330 * 60000;
    var date, year := DateOf(ist / DAY_MS), FiscalYearOf(at);
    AprilWithin(date, year);
    AprilWithin(date, year + 1);
    SameDay(ist);
    InDays(DayNumber(Date(year, 4, 1)), ist);
    InDays(DayNumber(Date(year + 1, 4, 1)), ist);
  }

  lemma InDays(day: int, at: int)
    ensures day <= at / DAY_MS <==> day * DAY_MS <= at
  {
    var q := at / DAY_MS;
    assert q * DAY_MS <= at < (q + 1) * DAY_MS;
  }
}
