/** Dates as day numbers (day 0 is 1 January of year 1, Gregorian), months counted
    from January of year 1, and the half-open month windows the ledger is summed over. */
module Calendar {

  const CYCLE_DAYS := 146097

  predicate IsLeap(year: nat) {
    year % 4 == 0 && (year % 100 != 0 || year % 400 == 0)
  }

  function DaysInMonth(year: nat, month: nat): (days: nat)
    requires month < 12
    ensures 28 <= days <= 31
  {
    if month == 1 then (if IsLeap(year) then 29 else 28)
    else if month == 3 || month == 5 || month == 8 || month == 10 then 30
    else 31
  }

  /** Days before the first of January of `year`, by the Gregorian leap rule. */
  function DaysBeforeYear(year: nat): nat
    requires year >= 1
  {
    var y := year - 1;
    365 * y + y / 4 - y / 100 + y / 400
  }

  function DaysBeforeMonth(year: nat, month: nat): (days: nat)
    requires month <= 12
  {
    if month == 0 then 0 else DaysBeforeMonth(year, month - 1) + DaysInMonth(year, month - 1)
  }

  /** Day number of the first day of the `m`-th month. */
  function MonthStart(m: nat): nat {
    DaysBeforeYear(m / 12 + 1) + DaysBeforeMonth(m / 12 + 1, m % 12)
  }

  function MonthLength(m: nat): (days: nat)
    ensures 28 <= days <= 31
  {
    DaysInMonth(m / 12 + 1, m % 12)
  }

  lemma TwoMonths(year: nat, month: nat)
    requires month <= 10
    ensures DaysBeforeMonth(year, month + 2)
         == DaysBeforeMonth(year, month) + DaysInMonth(year, month) + DaysInMonth(year, month + 1)
  {
    assert DaysBeforeMonth(year, month + 2) == DaysBeforeMonth(year, month + 1) + DaysInMonth(year, month + 1);
  }

  lemma MonthsOfYear(year: nat)
    ensures DaysBeforeMonth(year, 12) == (if IsLeap(year) then 366 else 365)
  {
    TwoMonths(year, 0);
    TwoMonths(year, 2);
    TwoMonths(year, 4);
    TwoMonths(year, 6);
    TwoMonths(year, 8);
    TwoMonths(year, 10);
  }

  lemma {:induction false} QuotientStep(y: nat, d: nat)
    requires y >= 1 && d >= 1
    ensures y / d == (y - 1) / d + (if y % d == 0 then 1 else 0)
  {
    var q, r := y / d, y % d;
    assert y == q * d + r;
    if r == 0 {
      assert y - 1 == (q - 1) * d + (d - 1);
      DivisionUnique(y - 1, d, q - 1, d - 1);
    } else {
      DivisionUnique(y - 1, d, q, r - 1);
    }
  }

  lemma {:induction false} DivisionUnique(y: int, d: int, q: int, r: int)
    requires d >= 1 && y == q * d + r && 0 <= r < d
    ensures y / d == q
  {
    var q', r' := y / d, y % d;
    assert y == q' * d + r';
    assert (q - q') * d == r' - r;
    AtLeastOneMultiple(q - q', d);
  }

  lemma AtLeastOneMultiple(k: int, d: int)
    requires d >= 1
    ensures k >= 1 ==> k * d >= d
    ensures k <= -1 ==> k * d <= -d
  {
  }

  lemma {:induction false} YearLength(year: nat)
    requires year >= 1
    ensures DaysBeforeYear(year + 1) == DaysBeforeYear(year) + (if IsLeap(year) then 366 else 365)
  {
    QuotientStep(year, 4);
    QuotientStep(year, 100);
    QuotientStep(year, 400);
    HundredsAreFours(year);
  }

  lemma {:induction false} Divides(y: nat, d: nat, q: nat)
    requires d >= 1 && y == q * d
    ensures y % d == 0
  {
    DivisionUnique(y, d, q, 0);
    assert y == (y / d) * d + y % d;
  }

  lemma {:induction false} HundredsAreFours(year: nat)
    ensures year % 400 == 0 ==> year % 100 == 0
    ensures year % 100 == 0 ==> year % 4 == 0
  {
    if year % 400 == 0 { Divides(year, 100, 4 * (year / 400)); }
    if year % 100 == 0 { Divides(year, 4, 25 * (year / 100)); }
  }

  /** The closed leap-year formula and the month lengths fit together: each window
      ends exactly where the next begins, across year and century boundaries. */
  lemma WindowsAbut(m: nat)
    ensures MonthStart(m + 1) == MonthStart(m) + MonthLength(m)
  {
    if m % 12 == 11 {
      YearLength(m / 12 + 1);
      MonthsOfYear(m / 12 + 1);
      assert (m + 1) / 12 == m / 12 + 1 && (m + 1) % 12 == 0;
    } else {
      assert (m + 1) / 12 == m / 12 && (m + 1) % 12 == m % 12 + 1;
    }
  }

  lemma {:induction false} MonthsOrdered(a: nat, b: nat)
    requires a <= b
    ensures MonthStart(a) + 28 * (b - a) <= MonthStart(b)
  {
    if a < b {
      MonthsOrdered(a, b - 1);
      WindowsAbut(b - 1);
    }
  }

  predicate InMonth(day: nat, m: nat) {
    MonthStart(m) <= day < MonthStart(m + 1)
  }

  /** The month a day falls in: counting up from a month that starts no later. */
  function MonthFrom(day: nat, m: nat): (month: nat)
    requires MonthStart(m) <= day
    ensures m <= month && InMonth(day, month)
    decreases day - MonthStart(m)
  {
    WindowsAbut(m);
    if day < MonthStart(m + 1) then m else MonthFrom(day, m + 1)
  }

  function MonthOf(day: nat): (month: nat)
    ensures InMonth(day, month)
  {
    MonthFrom(day, 0)
  }

  /** First-of-month windows partition the days: a day is in one window and no other. */
  lemma {:induction false} WindowIsUnique(day: nat, m: nat)
    ensures InMonth(day, m) <==> m == MonthOf(day)
  {
    var month := MonthOf(day);
    if m < month {
      MonthsOrdered(m + 1, month);
    } else if month < m {
      MonthsOrdered(month + 1, m);
    }
  }

  /** `date_trunc('month', day)`. */
  function TruncMonth(day: nat): nat {
    MonthStart(MonthOf(day))
  }

  /** `day + interval '1 month'`: the same day of the next month, or its last day. */
  function AddMonth(day: nat): nat {
    var m := MonthOf(day);
    var offset := day - MonthStart(m);
    MonthStart(m + 1) + (if offset < MonthLength(m + 1) then offset else MonthLength(m + 1) - 1)
  }

  lemma AddMonthToFirst(m: nat)
    ensures MonthOf(MonthStart(m)) == m
    ensures AddMonth(MonthStart(m)) == MonthStart(m + 1)
  {
    WindowsAbut(m);
    WindowIsUnique(MonthStart(m), m);
  }

  /** The window from the first of a month to a month later holds that month's days. */
  lemma WindowOfFirst(m: nat, day: nat)
    ensures MonthStart(m) <= day < AddMonth(MonthStart(m)) <==> MonthOf(day) == m
  {
    AddMonthToFirst(m);
    WindowIsUnique(day, m);
  }

  /** Truncation and `+ 1 month` bound exactly the days of the same month. */
  lemma {:induction false} WindowOfTrunc(today: nat, day: nat)
    ensures TruncMonth(today) <= day < AddMonth(TruncMonth(today)) <==> MonthOf(day) == MonthOf(today)
  {
    WindowOfFirst(MonthOf(today), day);
  }

  // ---- which day each month begins on, without the month lengths ----

  /** Days of a common year before each of its months. */
  const BEFORE: seq<nat> := [0, 31, 59, 90, 120, 151, 181, 212, 243, 273, 304, 334]

  /** The day a leap year has in February. */
  function LeapDay(year: nat, month: nat): nat {
    if month >= 2 && IsLeap(year) then 1 else 0
  }

  lemma {:induction false} DaysBeforeAre(year: nat, month: nat)
    requires month < 12
    ensures DaysBeforeMonth(year, month) == BEFORE[month] + LeapDay(year, month)
  {
    if month > 0 { DaysBeforeAre(year, month - 1); }
  }

  lemma MonthOfYear(y: nat, month: nat)
    requires month < 12
    ensures (12 * y + month) / 12 == y && (12 * y + month) % 12 == month
  {
  }

  /** The first of each month is 0, 31, 59, ... 334 days after the first of January, and one
      more from March on when the year's number is divisible by 4 and not by 100, or by 400. */
  lemma {:induction false} MonthsWithinYear(y: nat, month: nat)
    requires month < 12
    ensures MonthStart(12 * y + month) - MonthStart(12 * y)
         == BEFORE[month]
            + if month >= 2 && (((y + 1) % 4 == 0 && (y + 1) % 100 != 0) || (y + 1) % 400 == 0) then 1 else 0
  {
    DaysBeforeAre(y + 1, month);
    DaysBeforeAre(y + 1, 0);
    MonthOfYear(y, month);
    MonthOfYear(y, 0);
    HundredsAreFours(y + 1);
  }

  /** Days before the `k`-th month after March, in a year counted from March. */
  lemma MarchCount(month: nat)
    requires month < 12
    ensures (153 * ((month + 10) % 12) + 2) / 5 == BEFORE[month] + (if month < 2 then 306 else -59)
  {
  }

  /** With `y` years and then `k` months gone since the first of March of year 0, the leap day
      comes last in its year, and the months before hold a number of days that does not
      depend on the year. */
  lemma {:induction false} MonthStartIsCivil(m: nat)
    ensures var y := if m % 12 < 2 then m / 12 else m / 12 + 1;
      MonthStart(m) == 365 * y + y / 4 - y / 100 + y / 400 + (153 * ((m % 12 + 10) % 12) + 2) / 5 - 306
  {
    DaysBeforeAre(m / 12 + 1, m % 12);
    MarchCount(m % 12);
    YearLength(m / 12 + 1);
  }

  /** Month addition keeps the day of the month, or takes the next month's last day when that
      month has no such day. */
  lemma {:induction false} AddMonthClamps(day: nat)
    ensures var m := MonthOf(day);
      && MonthOf(AddMonth(day)) == m + 1
      && (if day - MonthStart(m) < MonthStart(m + 2) - MonthStart(m + 1)
          then AddMonth(day) - MonthStart(m + 1) == day - MonthStart(m)
          else AddMonth(day) + 1 == MonthStart(m + 2))
  {
    var m := MonthOf(day);
    WindowsAbut(m + 1);
    WindowIsUnique(AddMonth(day), m + 1);
  }

  /** The calendar repeats every 400 years, which are a whole number of weeks. */
  lemma GregorianCycle(m: nat)
    ensures MonthStart(m + 4800) == MonthStart(m) + CYCLE_DAYS
    ensures CYCLE_DAYS % 7 == 0
  {
    var y := m / 12;
    assert (m + 4800) / 12 == y + 400 && (m + 4800) % 12 == m % 12;
    assert (y + 400) / 4 == y / 4 + 100 && (y + 400) / 100 == y / 100 + 4 && (y + 400) / 400 == y / 400 + 1;
    LeapCycle(y + 1);
    SameMonths(y + 1, m % 12);
  }

  lemma {:induction false} SameRemainder(y: nat, d: nat, q: nat)
    requires d >= 1
    ensures (y + q * d) % d == y % d
  {
    var z := y + q * d;
    assert y == (y / d) * d + y % d;
    assert z == (y / d + q) * d + y % d;
    DivisionUnique(z, d, y / d + q, y % d);
    assert z == (z / d) * d + z % d;
  }

  lemma LeapCycle(year: nat)
    ensures IsLeap(year + 400) == IsLeap(year)
  {
    SameRemainder(year, 4, 100);
    SameRemainder(year, 100, 4);
    SameRemainder(year, 400, 1);
  }

  lemma {:induction false} SameMonths(year: nat, month: nat)
    requires month <= 12 && IsLeap(year + 400) == IsLeap(year)
    ensures DaysBeforeMonth(year + 400, month) == DaysBeforeMonth(year, month)
  {
    if month > 0 {
      SameMonths(year, month - 1);
    }
  }
}
