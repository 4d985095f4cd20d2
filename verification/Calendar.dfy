/**
 The Gregorian calendar as far as recurring bills need it: months counted from
 January of year 0, days counted from the first of them.
 */
module Calendar {
  predicate Leap(year: int) { year % 4 == 0 && (year % 100 != 0 || year % 400 == 0) }

  function DaysInMonth(m: int): (n: int)
    ensures 28 <= n <= 31
  {
    var month := m % 12;
    if month == 1 then (if Leap(m / 12) then 29 else 28)
    else if month == 3 || month == 5 || month == 8 || month == 10 then 30
    else 31
  }

  /** The day number of the first of month m. */
  function MonthStart(m: int): int
    decreases if m < 0 then -m else m
  {
    if m == 0 then 0
    else if m > 0 then MonthStart(m - 1) + DaysInMonth(m - 1)
    else MonthStart(m + 1) - DaysInMonth(m)
  }

  datatype Date = Date(month: int, day: int)

  predicate Valid(d: Date) { 1 <= d.day <= DaysInMonth(d.month) }

  function DayNumber(d: Date): int { MonthStart(d.month) + d.day - 1 }

  lemma MonthStartStep(m: int)
    ensures MonthStart(m + 1) == MonthStart(m) + DaysInMonth(m)
  {
  }

  /** The first day of month p, counted from March, of a year that begins with March. */
  function Formula(year: int, p: int): int {
    365 * year + year / 4 - year / 100 + year / 400 + (153 * p + 2) / 5 + 60
  }

  /** The first day of a month by the usual formula. */
  function ByFormula(m: int): int { Formula((m - 2) / 12, (m - 2) % 12) }

  lemma NextQuotient(y: int, k: int)
    requires k == 4 || k == 100 || k == 400
    ensures (y + 1) / k == y / k + if (y + 1) % k == 0 then 1 else 0
  {
  }

  lemma FourDivides(x: int)
    ensures x % 100 == 0 ==> x % 4 == 0
  {
    if x % 100 == 0 {
      assert x == 4 * (25 * (x / 100));
    }
  }

  lemma HundredDivides(x: int)
    ensures x % 400 == 0 ==> x % 100 == 0
  {
    if x % 400 == 0 {
      assert x == 100 * (4 * (x / 400));
    }
  }

  /** Year numbers that begin in March count a leap day when their February comes. */
  lemma LeapDays(y: int)
    ensures (y + 1) / 4 - (y + 1) / 100 + (y + 1) / 400 ==
            y / 4 - y / 100 + y / 400 + if Leap(y + 1) then 1 else 0
  {
    NextQuotient(y, 4);
    NextQuotient(y, 100);
    NextQuotient(y, 400);
    FourDivides(y + 1);
    HundredDivides(y + 1);
  }

  lemma TwelveMonths(y: int, p: int)
    requires 0 <= p < 12
    ensures (12 * y + p) / 12 == y && (12 * y + p) % 12 == p
  {
  }

  /** The lengths of the months, from March on. */
  function LengthFromMarch(y: int, p: int): int {
    if p == 11 then (if Leap(y + 1) then 29 else 28)
    else if p == 1 || p == 3 || p == 6 || p == 8 then 30
    else 31
  }

  lemma LengthAgrees(y: int, p: int)
    requires 0 <= p < 12
    ensures DaysInMonth(12 * y + p + 2) == LengthFromMarch(y, p)
  {
    if p < 10 {
      TwelveMonths(y, p + 2);
    } else {
      TwelveMonths(y + 1, p - 10);
    }
  }

  lemma FormulaStep(y: int, p: int)
    requires 0 <= p < 12
    ensures Formula(y, p) + LengthFromMarch(y, p) == if p < 11 then Formula(y, p + 1) else Formula(y + 1, 0)
  {
    if p == 11 {
      LeapDays(y);
    }
  }

  lemma ByFormulaAt(y: int, p: int, m: int)
    requires 0 <= p < 12 && m == 12 * y + p + 2
    ensures ByFormula(m) == Formula(y, p)
  {
    assert m - 2 == 12 * y + p;
    TwelveMonths(y, p);
  }

  lemma MonthFromMarch(m: int) returns (y: int, p: int)
    ensures 0 <= p < 12 && m == 12 * y + p + 2
  {
    y, p := (m - 2) / 12, (m - 2) % 12;
  }

  lemma ByFormulaStep(m: int)
    ensures ByFormula(m + 1) == ByFormula(m) + DaysInMonth(m)
  {
    var y, p := MonthFromMarch(m);
    ByFormulaAt(y, p, m);
    LengthAgrees(y, p);
    FormulaStep(y, p);
    if p < 11 {
      ByFormulaAt(y, p + 1, m + 1);
    } else {
      ByFormulaAt(y + 1, 0, m + 1);
    }
  }

  /** Counting month by month gives the Gregorian calendar, leap days included. */
  lemma {:induction false} MonthStartByFormula(m: int)
    ensures MonthStart(m) == ByFormula(m)
    decreases if m < 0 then -m else m
  {
    if m > 0 {
      MonthStartByFormula(m - 1);
      ByFormulaStep(m - 1);
    } else if m < 0 {
      MonthStartByFormula(m + 1);
      ByFormulaStep(m);
    }
  }

  /** 1 January 1970, from which Unix time counts, is day 719528. */
  lemma UnixEpoch()
    ensures DayNumber(Date(1970 * 12, 1)) == 719528
  {
    MonthStartByFormula(23640);
    TwelveMonths(1969, 10);
  }

  lemma {:induction false} MonthStartMonotone(a: int, b: int)
    requires a <= b
    ensures MonthStart(a) + 28 * (b - a) <= MonthStart(b)
    decreases b - a
  {
    if a < b {
      MonthStartStep(b - 1);
      MonthStartMonotone(a, b - 1);
    }
  }

  /** Dates are ordered as their day numbers are. */
  lemma DateOrder(a: Date, b: Date)
    requires Valid(a) && Valid(b)
    ensures DayNumber(a) < DayNumber(b) <==> a.month < b.month || (a.month == b.month && a.day < b.day)
    ensures DayNumber(a) == DayNumber(b) ==> a == b
  {
    MonthStartStep(a.month);
    MonthStartStep(b.month);
    if a.month < b.month {
      MonthStartMonotone(a.month + 1, b.month);
    } else if b.month < a.month {
      MonthStartMonotone(b.month + 1, a.month);
    }
  }

  /** The date of a day counted from the first of a month, however far away. */
  function Normalise(month: int, day: int): (d: Date)
    ensures Valid(d) && DayNumber(d) == MonthStart(month) + day - 1
    decreases if day < 1 then 32 - day else day - 1
  {
    if day < 1 then
      MonthStartStep(month - 1);
      Normalise(month - 1, day + DaysInMonth(month - 1))
    else if day > DaysInMonth(month) then
      MonthStartStep(month);
      Normalise(month + 1, day - DaysInMonth(month))
    else Date(month, day)
  }

  function AddDays(d: Date, n: int): (r: Date)
    ensures Valid(r) && DayNumber(r) == DayNumber(d) + n
  {
    Normalise(d.month, d.day + n)
  }
}
