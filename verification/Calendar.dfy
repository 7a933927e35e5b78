/** The proleptic Gregorian calendar as Python's `datetime` uses it: a date and the
    number of days since 0001-01-01 determine each other. */
module Calendar {

  datatype Date = Date(year: nat, month: nat, day: nat)

  predicate IsLeap(y: nat) {
    y % 4 == 0 && (y % 100 != 0 || y % 400 == 0)
  }

  function DaysInMonth(y: nat, m: nat): (n: nat)
    requires 1 <= m <= 12
    ensures 28 <= n <= 31
  {
    if m == 2 then (if IsLeap(y) then 29 else 28)
    else if m == 4 || m == 6 || m == 9 || m == 11 then 30
    else 31
  }

  function DaysInYear(y: nat): nat {
    if IsLeap(y) then 366 else 365
  }

  predicate ValidDate(d: Date) {
    && 1 <= d.year
    && 1 <= d.month <= 12
    && 1 <= d.day <= DaysInMonth(d.year, d.month)
  }

  function NextDay(d: Date): (r: Date)
    requires ValidDate(d)
    ensures ValidDate(r)
  {
    if d.day < DaysInMonth(d.year, d.month) then d.(day := d.day + 1)
    else if d.month < 12 then Date(d.year, d.month + 1, 1)
    else Date(d.year + 1, 1, 1)
  }

  /** The date `n` days after 0001-01-01, by stepping one day at a time. */
  function DateOf(n: nat): (d: Date)
    ensures ValidDate(d)
  {
    if n == 0 then Date(1, 1, 1) else NextDay(DateOf(n - 1))
  }

  function DaysBeforeYear(y: nat): nat
    requires 1 <= y
  {
    if y == 1 then 0 else DaysBeforeYear(y - 1) + DaysInYear(y - 1)
  }

  function DaysBeforeMonth(y: nat, m: nat): nat
    requires 1 <= m <= 12
  {
    if m == 1 then 0 else DaysBeforeMonth(y, m - 1) + DaysInMonth(y, m - 1)
  }

  /** Days from 0001-01-01 to `d`, by summing years and months. */
  function Ordinal(d: Date): nat
    requires ValidDate(d)
  {
    DaysBeforeYear(d.year) + DaysBeforeMonth(d.year, d.month) + d.day - 1
  }

  lemma MonthsMakeAYear(y: nat)
    ensures DaysBeforeMonth(y, 12) + DaysInMonth(y, 12) == DaysInYear(y)
  {
    assert DaysBeforeMonth(y, 2) == 31;
    assert DaysBeforeMonth(y, 3) == DaysBeforeMonth(y, 2) + DaysInMonth(y, 2);
    assert DaysBeforeMonth(y, 4) == DaysBeforeMonth(y, 3) + DaysInMonth(y, 3);
    assert DaysBeforeMonth(y, 5) == DaysBeforeMonth(y, 4) + DaysInMonth(y, 4);
    assert DaysBeforeMonth(y, 6) == DaysBeforeMonth(y, 5) + DaysInMonth(y, 5);
    assert DaysBeforeMonth(y, 7) == DaysBeforeMonth(y, 6) + DaysInMonth(y, 6);
    assert DaysBeforeMonth(y, 8) == DaysBeforeMonth(y, 7) + DaysInMonth(y, 7);
    assert DaysBeforeMonth(y, 9) == DaysBeforeMonth(y, 8) + DaysInMonth(y, 8);
    assert DaysBeforeMonth(y, 10) == DaysBeforeMonth(y, 9) + DaysInMonth(y, 9);
    assert DaysBeforeMonth(y, 11) == DaysBeforeMonth(y, 10) + DaysInMonth(y, 10);
    assert DaysBeforeMonth(y, 12) == DaysBeforeMonth(y, 11) + DaysInMonth(y, 11);
  }

  lemma OrdinalOfNextDay(d: Date)
    requires ValidDate(d)
    ensures Ordinal(NextDay(d)) == Ordinal(d) + 1
  {
    MonthsMakeAYear(d.year);
  }

  lemma {:induction false} OrdinalOfDateOf(n: nat)
    ensures Ordinal(DateOf(n)) == n
  {
    if n > 0 {
      OrdinalOfDateOf(n - 1);
      OrdinalOfNextDay(DateOf(n - 1));
    }
  }

  function PreviousDay(d: Date): (r: Date)
    requires ValidDate(d) && d != Date(1, 1, 1)
    ensures ValidDate(r)
  {
    if d.day > 1 then d.(day := d.day - 1)
    else if d.month > 1 then Date(d.year, d.month - 1, DaysInMonth(d.year, d.month - 1))
    else Date(d.year - 1, 12, 31)
  }

  /** The calendar round trip: every date is the date of its own ordinal. */
  lemma {:induction false} DateOfOrdinal(d: Date)
    requires ValidDate(d)
    ensures DateOf(Ordinal(d)) == d
    decreases Ordinal(d)
  {
    if d == Date(1, 1, 1) {
      assert Ordinal(d) == 0;
    } else {
      var p := PreviousDay(d);
      assert NextDay(p) == d;
      OrdinalOfNextDay(p);
      DateOfOrdinal(p);
    }
  }

  lemma {:induction false} YearsAddUp(y: nat, k: nat)
    requires 1 <= y
    ensures DaysBeforeYear(y) + 365 * k <= DaysBeforeYear(y + k) <= DaysBeforeYear(y) + 366 * k
  {
    if k > 0 {
      YearsAddUp(y, k - 1);
    }
  }

  lemma {:induction false} MonthStartBounds(y: nat, m: nat)
    requires 1 <= m <= 12
    ensures 28 * (m - 1) <= DaysBeforeMonth(y, m) <= 31 * (m - 1)
  {
    if m > 1 {
      MonthStartBounds(y, m - 1);
    }
  }

  lemma LeapYearWithinEight(y: nat) returns (leap: nat)
    ensures y < leap <= y + 8 && IsLeap(leap)
  {
    leap := y + 4 - y % 4;
    if !IsLeap(leap) {
      leap := leap + 4;
    }
  }

  // ----- The Gregorian rules in closed form ---------------------------------------------------

  lemma LeapStep(n: nat)
    ensures (n + 1) / 4 - n / 4 == (if (n + 1) % 4 == 0 then 1 else 0)
    ensures (n + 1) / 100 - n / 100 == (if (n + 1) % 100 == 0 then 1 else 0)
    ensures (n + 1) / 400 - n / 400 == (if (n + 1) % 400 == 0 then 1 else 0)
    ensures (n + 1) % 400 == 0 ==> (n + 1) % 100 == 0
    ensures (n + 1) % 100 == 0 ==> (n + 1) % 4 == 0
  {
  }

  /** A year has 365 days, and one more every 4 years, but not every 100, but every 400. */
  lemma {:induction false} YearsInDays(y: nat)
    requires 1 <= y
    ensures DaysBeforeYear(y) == 365 * (y - 1) + (y - 1) / 4 - (y - 1) / 100 + (y - 1) / 400
  {
    if y > 1 {
      YearsInDays(y - 1);
      LeapStep(y - 2);
    }
  }

  /** Days from 0000-03-01, the usual closed form: counting years from March, the months have 153 days in five. */
  function CivilDay(d: Date): int {
    var y := if d.month <= 2 then d.year - 1 else d.year;
    var m := if d.month <= 2 then d.month + 9 else d.month - 3;
    365 * y + y / 4 - y / 100 + y / 400 + (153 * m + 2) / 5 + d.day - 1
  }

  lemma MonthsInDays(y: nat, m: nat)
    requires 1 <= m <= 12
    ensures DaysBeforeMonth(y, m) ==
      if m <= 2 then (153 * (m + 9) + 2) / 5 - 306
      else (153 * (m - 3) + 2) / 5 + (if IsLeap(y) then 60 else 59)
  {
    if m > 1 {
      MonthsInDays(y, m - 1);
    }
  }

  lemma OrdinalIsCivil(d: Date)
    requires ValidDate(d)
    ensures Ordinal(d) == CivilDay(d) - 306
  {
    YearsInDays(d.year);
    MonthsInDays(d.year, d.month);
    LeapStep(d.year - 1);
  }

  /** 1970-01-01 was day 719162, a Thursday. */
  lemma EpochDay()
    ensures ValidDate(Date(1970, 1, 1)) && Ordinal(Date(1970, 1, 1)) == 719162
  {
    OrdinalIsCivil(Date(1970, 1, 1));
  }
}
