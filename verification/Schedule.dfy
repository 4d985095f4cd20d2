/**
 When a recurring row falls due: the cadences of
 internal/domain/recurring_advance.go and their expansion over a window in
 internal/accountview/details.go.
 */
module Schedule {
  import opened Wrappers
  import opened Calendar

  /** `Monthly` also stands for an unknown cadence, which the source treats as monthly. */
  datatype Cadence = Daily | Weekly | Biweekly | Semimonthly | Monthly | Quarterly | Yearly

  function Clamped(month: int, day: int): Date {
    Date(month, if day > DaysInMonth(month) then DaysInMonth(month) else day)
  }

  /** RecurringCadence.Next */
  function Next(c: Cadence, d: Date): Date {
    match c
    case Daily => AddDays(d, 1)
    case Weekly => AddDays(d, 7)
    case Biweekly => AddDays(d, 14)
    case Semimonthly => if d.day < 15 then Date(d.month, 15) else Clamped(d.month + 1, 1)
    case Quarterly => Clamped(d.month + 3, d.day)
    case Yearly => Clamped(d.month + 12, d.day)
    case Monthly => Clamped(d.month + 1, d.day)
  }

  function FixedCadenceDays(c: Cadence): nat {
    match c
    case Daily => 1
    case Weekly => 7
    case Biweekly => 14
    case _ => 0
  }

  function MonthStep(c: Cadence): nat {
    match c
    case Monthly => 1
    case Quarterly => 3
    case Yearly => 12
    case _ => 0
  }

  function StepCadence(c: Cadence, due: Date, anchorDay: int): Date {
    var next := Next(c, due);
    if FixedCadenceDays(c) > 0 || c == Semimonthly then next
    else Clamped(next.month, anchorDay)
  }

  function Iterate<T>(step: T -> T, x: T, j: nat): T {
    if j == 0 then x else step(Iterate(step, x, j - 1))
  }

  function Stepper(c: Cadence, anchorDay: int): Date -> Date { (d: Date) => StepCadence(c, d, anchorDay) }

  /** The j-th date after `due`, stepping one cadence at a time. */
  function Nth(c: Cadence, due: Date, j: nat): Date { Iterate(Stepper(c, due.day), due, j) }

  lemma StepForward(c: Cadence, due: Date, anchorDay: int)
    requires Valid(due) && 1 <= anchorDay
    ensures var next := StepCadence(c, due, anchorDay); Valid(next) && DayNumber(due) < DayNumber(next)
  {
    DateOrder(due, StepCadence(c, due, anchorDay));
  }

  lemma {:induction false} IterateClimbs<T(!new)>(step: T -> T, good: T -> bool, number: T -> int, x: T, j: nat)
    requires good(x) && forall y | good(y) :: good(step(y)) && number(y) < number(step(y))
    ensures good(Iterate(step, x, j)) && number(x) + j <= number(Iterate(step, x, j))
  {
    if j > 0 {
      IterateClimbs(step, good, number, x, j - 1);
    }
  }

  lemma NthValid(c: Cadence, due: Date, j: nat)
    requires Valid(due)
    ensures Valid(Nth(c, due, j)) && DayNumber(due) + j <= DayNumber(Nth(c, due, j))
  {
    var step := Stepper(c, due.day);
    forall d: Date | Valid(d)
      ensures Valid(step(d)) && DayNumber(d) < DayNumber(step(d))
    {
      StepForward(c, d, due.day);
    }
    IterateClimbs(step, d => Valid(d), d => DayNumber(d), due, j);
  }

  lemma NthStep(c: Cadence, due: Date, j: nat)
    requires Valid(due)
    ensures DayNumber(Nth(c, due, j)) < DayNumber(Nth(c, due, j + 1))
  {
    NthValid(c, due, j);
    StepForward(c, Nth(c, due, j), due.day);
  }

  lemma {:induction false} IterateAdds<T(!new)>(step: T -> T, number: T -> int, x: T, j: nat, length: int)
    requires forall y :: number(step(y)) == number(y) + length
    ensures number(Iterate(step, x, j)) == number(x) + j * length
  {
    if j > 0 {
      IterateAdds(step, number, x, j - 1, length);
      assert j * length == (j - 1) * length + length;
    }
  }

  /** A day-based cadence is an arithmetic progression. */
  lemma NthFixed(c: Cadence, due: Date, j: nat)
    requires Valid(due) && FixedCadenceDays(c) > 0
    ensures DayNumber(Nth(c, due, j)) == DayNumber(due) + j * FixedCadenceDays(c)
  {
    var step := Stepper(c, due.day);
    forall d: Date
      ensures DayNumber(step(d)) == DayNumber(d) + FixedCadenceDays(c)
    {
      FixedStep(c, d, due.day);
    }
    IterateAdds(step, d => DayNumber(d), due, j, FixedCadenceDays(c));
  }

  lemma FixedStep(c: Cadence, due: Date, anchorDay: int)
    requires FixedCadenceDays(c) > 0
    ensures DayNumber(StepCadence(c, due, anchorDay)) == DayNumber(due) + FixedCadenceDays(c)
  {
  }

  lemma NthFixedDate(c: Cadence, due: Date, j: nat)
    requires Valid(due) && FixedCadenceDays(c) > 0
    ensures Nth(c, due, j) == AddDays(due, j * FixedCadenceDays(c))
  {
    NthFixed(c, due, j);
    NthValid(c, due, j);
    DateOrder(Nth(c, due, j), AddDays(due, j * FixedCadenceDays(c)));
  }

  lemma MonthlyStep(c: Cadence, due: Date, anchorDay: int)
    requires MonthStep(c) > 0
    ensures StepCadence(c, due, anchorDay) == Clamped(due.month + MonthStep(c), anchorDay)
  {
  }

  /** A month-based cadence comes back to the day it started on, or to the last day of a month without it:
      no drift. */
  lemma NthMonthly(c: Cadence, due: Date, j: nat)
    requires Valid(due) && MonthStep(c) > 0
    ensures var d := Nth(c, due, j);
            && d.month == due.month + j * MonthStep(c)
            && (due.day <= DaysInMonth(d.month) ==> d.day == due.day)
            && (due.day > DaysInMonth(d.month) ==> d.day == DaysInMonth(d.month))
  {
    NthClamped(c, due, j);
  }

  lemma {:induction false} NthClamped(c: Cadence, due: Date, j: nat)
    requires Valid(due) && MonthStep(c) > 0
    ensures Nth(c, due, j) == Clamped(due.month + j * MonthStep(c), due.day)
  {
    if j > 0 {
      NthClamped(c, due, j - 1);
      MonthlyStep(c, Nth(c, due, j - 1), due.day);
      OneStepMore(j, MonthStep(c));
    }
  }

  lemma OneStepMore(j: int, step: int)
    ensures (j - 1) * step + step == j * step
  {
  }

  lemma NthEvery(c: Cadence, due: Date, j: nat, length: nat)
    requires Valid(due) && FixedCadenceDays(c) == length > 0
    ensures DayNumber(Nth(c, due, j)) == DayNumber(due) + length * j
  {
    NthFixed(c, due, j);
  }

  /** Daily means every day, weekly every seventh and biweekly every fourteenth. */
  lemma DaysAgree(due: Date, j: nat)
    requires Valid(due)
    ensures DayNumber(Nth(Daily, due, j)) == DayNumber(due) + j
    ensures DayNumber(Nth(Weekly, due, j)) == DayNumber(due) + 7 * j
    ensures DayNumber(Nth(Biweekly, due, j)) == DayNumber(due) + 14 * j
  {
    NthEvery(Daily, due, j, 1);
    NthEvery(Weekly, due, j, 7);
    NthEvery(Biweekly, due, j, 14);
  }

  /** Three months make a quarter and four quarters a year. */
  lemma MonthsAgree(due: Date, j: nat)
    requires Valid(due)
    ensures Nth(Quarterly, due, j) == Nth(Monthly, due, 3 * j)
    ensures Nth(Yearly, due, j) == Nth(Quarterly, due, 4 * j)
  {
    NthClamped(Monthly, due, 3 * j);
    NthClamped(Quarterly, due, j);
    NthClamped(Quarterly, due, 4 * j);
    NthClamped(Yearly, due, j);
  }

  /** A year ends in the same month a year on. */
  lemma YearsAgree(due: Date, j: nat)
    requires Valid(due)
    ensures Nth(Yearly, due, j).month / 12 == due.month / 12 + j && Nth(Yearly, due, j).month % 12 == due.month % 12
  {
    NthMonthly(Yearly, due, j);
    assert due.month + 12 * j == 12 * (due.month / 12 + j) + due.month % 12;
    TwelveMonths(due.month / 12 + j, due.month % 12);
  }

  /** A bill of 31 January comes on the last day of February and then on 31 March. */
  lemma EndOfJanuary(year: int)
    ensures var due := Date(12 * year, 31);
            && Nth(Monthly, due, 1) == Date(12 * year + 1, if Leap(year) then 29 else 28)
            && Nth(Monthly, due, 2) == Date(12 * year + 2, 31)
  {
    var due := Date(12 * year, 31);
    TwelveMonths(year, 0);
    TwelveMonths(year, 1);
    TwelveMonths(year, 2);
    NthClamped(Monthly, due, 1);
    NthClamped(Monthly, due, 2);
  }

  /** The n-th half-month begins on the 1st or the 15th. */
  function HalfMonth(n: int): Date { Date(n / 2, if n % 2 == 0 then 1 else 15) }

  function HalfMonthOf(d: Date): int { 2 * d.month + if d.day < 15 then 0 else 1 }

  lemma SemimonthlyStep(d: Date, anchorDay: int)
    ensures StepCadence(Semimonthly, d, anchorDay) == HalfMonth(HalfMonthOf(d) + 1)
    ensures HalfMonthOf(StepCadence(Semimonthly, d, anchorDay)) == HalfMonthOf(d) + 1
  {
  }

  /** A semimonthly cadence takes the beginnings of the half-months in turn, from the one after its first date. */
  lemma {:induction false} NthSemimonthly(due: Date, j: nat)
    ensures HalfMonthOf(Nth(Semimonthly, due, j)) == HalfMonthOf(due) + j
    ensures j > 0 ==> Nth(Semimonthly, due, j) == HalfMonth(HalfMonthOf(due) + j)
  {
    if j > 0 {
      NthSemimonthly(due, j - 1);
      SemimonthlyStep(Nth(Semimonthly, due, j - 1), due.day);
    }
  }

  /** From the first of a month on: the first and the fifteenth of every month. */
  lemma SemimonthlyFromFirst(month: int, k: nat)
    ensures Nth(Semimonthly, Date(month, 1), 2 * k) == Date(month + k, 1)
    ensures Nth(Semimonthly, Date(month, 1), 2 * k + 1) == Date(month + k, 15)
  {
    NthSemimonthly(Date(month, 1), 2 * k);
    NthSemimonthly(Date(month, 1), 2 * k + 1);
  }

  // ----- schedules as increasing day numbers -----

  /** The day numbers of the whole schedule. */
  function Days(c: Cadence, due: Date): nat -> int { Numbers(Stepper(c, due.day), DayNumber, due) }

  function Numbers<T>(step: T -> T, number: T -> int, x: T): nat -> int {
    (j: nat) => number(Iterate(step, x, j))
  }

  ghost predicate Increasing(at: nat -> int) {
    forall i: nat, j: nat | i < j :: at(i) < at(j)
  }

  lemma DaysAt(c: Cadence, due: Date, j: nat)
    ensures Days(c, due)(j) == DayNumber(Nth(c, due, j))
    ensures Nth(c, due, 0) == due && Nth(c, due, j + 1) == Stepper(c, due.day)(Nth(c, due, j))
  {
  }

  lemma DaysIncreasing(c: Cadence, due: Date)
    requires Valid(due)
    ensures Increasing(Days(c, due))
  {
    forall i: nat
      ensures Days(c, due)(i) < Days(c, due)(i + 1)
    {
      NthStep(c, due, i);
      DaysAt(c, due, i);
      DaysAt(c, due, i + 1);
    }
    StepsIncrease(Days(c, due));
  }

  lemma StepsIncrease(at: nat -> int)
    requires forall i: nat :: at(i) < at(i + 1)
    ensures Increasing(at)
  {
    forall i: nat, j: nat | i < j
      ensures at(i) < at(j)
    {
      StepsIncreaseTo(at, i, j);
    }
  }

  lemma {:induction false} StepsIncreaseTo(at: nat -> int, i: nat, j: nat)
    requires i < j && forall i: nat :: at(i) < at(i + 1)
    ensures at(i) < at(j)
    decreases j
  {
    if i < j - 1 {
      StepsIncreaseTo(at, i, j - 1);
    }
    assert at(j - 1) < at((j - 1) + 1);
  }

  /** Index of the first day on or after `startDay`. */
  ghost predicate FirstIndex(at: nat -> int, startDay: int, j: nat) {
    at(j) >= startDay && (j > 0 ==> at(j - 1) < startDay)
  }

  lemma FirstIndexIsFirst(at: nat -> int, startDay: int, j: nat, i: nat)
    requires Increasing(at) && FirstIndex(at, startDay, j)
    ensures at(i) >= startDay <==> j <= i
  {
  }

  /** Days from the j-th on, up to `endDay` and at most `fuel` of them. */
  function Upcoming(at: nat -> int, j: nat, endDay: int, fuel: nat): seq<int>
    decreases fuel
  {
    if fuel == 0 || at(j) > endDay then []
    else [at(j)] + Upcoming(at, j + 1, endDay, fuel - 1)
  }

  /** The index the listing starts from.  A cadence that is not day-based is followed for `bound` steps
      only, and then nothing is listed. */
  ghost predicate StartsAt(at: nat -> int, dayBased: bool, startDay: int, bound: nat, j: Option<nat>) {
    if at(0) >= startDay then j == Some(0)
    else if !dayBased && at(bound) < startDay then j == None
    else j.Some? && FirstIndex(at, startDay, j.value)
  }

  /** The overdue day once, then the schedule. */
  function Listing(at: nat -> int, startDay: int, endDay: int, bound: nat, j: Option<nat>): seq<int> {
    (if at(0) < startDay then [at(0)] else [])
    + (if j.None? then [] else Upcoming(at, j.value, endDay, bound))
  }

  ghost predicate IsListing(out: seq<int>, at: nat -> int, dayBased: bool, startDay: int, endDay: int, bound: nat) {
    exists j :: StartsAt(at, dayBased, startDay, bound, j) && out == Listing(at, startDay, endDay, bound, j)
  }

  lemma StartUnique(at: nat -> int, dayBased: bool, startDay: int, bound: nat, i: Option<nat>, j: Option<nat>)
    requires Increasing(at) && StartsAt(at, dayBased, startDay, bound, i) && StartsAt(at, dayBased, startDay, bound, j)
    ensures i == j
  {
    if i.Some? && j.Some? && at(0) < startDay {
      FirstIndexIsFirst(at, startDay, i.value, j.value);
      FirstIndexIsFirst(at, startDay, j.value, i.value);
    }
  }

  lemma {:induction false} UpcomingExactly(at: nat -> int, j: nat, endDay: int, fuel: nat)
    ensures var out := Upcoming(at, j, endDay, fuel);
            && |out| <= fuel
            && (forall i | 0 <= i < |out| :: out[i] == at(j + i) && out[i] <= endDay)
            && (|out| < fuel ==> at(j + |out|) > endDay)
    decreases fuel
  {
    if fuel > 0 && at(j) <= endDay {
      UpcomingExactly(at, j + 1, endDay, fuel - 1);
    }
  }

  /** Of the days from the j-th on, one is listed when it is in reach of the bound and of the window. */
  lemma UpcomingLists(at: nat -> int, j: nat, endDay: int, fuel: nat, i: nat)
    requires Increasing(at)
    ensures at(i) in Upcoming(at, j, endDay, fuel) <==> j <= i < j + fuel && at(i) <= endDay
  {
    var up := Upcoming(at, j, endDay, fuel);
    UpcomingExactly(at, j, endDay, fuel);
    if j <= i < j + |up| {
      assert up[i - j] == at(i);
    }
    if at(i) in up {
      var k :| 0 <= k < |up| && up[k] == at(i);
      assert i == j + k;
    }
  }

  /** The listing is strictly increasing, and it holds, besides the overdue day, exactly the days of the
      schedule in the window, up to the bound. */
  lemma ListingExactly(at: nat -> int, dayBased: bool, startDay: int, endDay: int, bound: nat, first: nat, i: nat)
    requires Increasing(at) && StartsAt(at, dayBased, startDay, bound, Some(first))
    ensures var out := Listing(at, startDay, endDay, bound, Some(first));
            && (forall x, y | 0 <= x < y < |out| :: out[x] < out[y])
            && (at(0) < startDay ==> |out| > 0 && out[0] == at(0))
    ensures at(i) in Upcoming(at, first, endDay, bound) <==> i < first + bound && startDay <= at(i) <= endDay
  {
    UpcomingLists(at, first, endDay, bound, i);
    FirstIndexIsFirst(at, startDay, first, i);
    var up := Upcoming(at, first, endDay, bound);
    UpcomingExactly(at, first, endDay, bound);
    if up != [] {
      assert up[0] == at(first);
    }
  }

  /** A schedule that is not followed as far as the window lists only the overdue day. */
  lemma ListingUnreached(at: nat -> int, startDay: int, endDay: int, bound: nat, i: nat)
    requires Increasing(at) && StartsAt(at, false, startDay, bound, None)
    ensures Listing(at, startDay, endDay, bound, None) == [at(0)]
    ensures i <= bound ==> at(i) < startDay
  {
  }

  // ----- the code -----

  lemma PositiveFactor(a: int, b: int)
    requires a > 0 && a * b > 0
    ensures b > 0
  {
  }

  lemma Ceiling(gap: int, length: int)
    requires gap > 0 && length > 0
    ensures var steps := (gap + length - 1) / length;
            steps > 0 && (steps - 1) * length < gap <= steps * length
  {
    var n := gap + length - 1;
    var steps := n / length;
    assert n == length * steps + n % length;
    PositiveFactor(length, steps);
    assert (steps - 1) * length == length * steps - length;
  }

  lemma FirstOfProgression(at: nat -> int, day: int, length: int, startDay: int)
    requires length > 0 && day < startDay && forall j: nat :: at(j) == day + j * length
    ensures var steps := (startDay - day + length - 1) / length;
            steps > 0 && FirstIndex(at, startDay, steps)
  {
    var steps := (startDay - day + length - 1) / length;
    Ceiling(startDay - day, length);
    assert at(steps) == day + steps * length;
    assert at(steps - 1) == day + (steps - 1) * length;
  }

  /** The arithmetic jump of a day-based cadence lands exactly where single steps would. */
  lemma JumpLands(c: Cadence, due: Date, startDay: int, length: int)
    requires Valid(due) && length == FixedCadenceDays(c) > 0 && DayNumber(due) < startDay
    ensures var steps := (startDay - DayNumber(due) + length - 1) / length;
            && steps > 0 && FirstIndex(Days(c, due), startDay, steps)
            && AddDays(due, steps * length) == Nth(c, due, steps)
  {
    forall j: nat
      ensures Days(c, due)(j) == DayNumber(due) + j * length
    {
      NthFixed(c, due, j);
      DaysAt(c, due, j);
    }
    FirstOfProgression(Days(c, due), DayNumber(due), length, startDay);
    NthFixedDate(c, due, (startDay - DayNumber(due) + length - 1) / length);
  }

  /** What a listing loop puts out: the numbers from `x` on, up to `endDay` and at most `fuel` of them. */
  function Expand<T>(step: T -> T, number: T -> int, x: T, endDay: int, fuel: nat): seq<int>
    decreases fuel
  {
    if fuel == 0 || number(x) > endDay then []
    else [number(x)] + Expand(step, number, step(x), endDay, fuel - 1)
  }

  lemma {:induction false} ExpandIsUpcoming<T>(step: T -> T, number: T -> int, x: T, j: nat, endDay: int, fuel: nat)
    ensures Expand(step, number, Iterate(step, x, j), endDay, fuel) ==
            Upcoming(Numbers(step, number, x), j, endDay, fuel)
    decreases fuel
  {
    if fuel > 0 {
      ExpandIsUpcoming(step, number, x, j + 1, endDay, fuel - 1);
      assert Numbers(step, number, x)(j) == number(Iterate(step, x, j));
    }
  }

  lemma ExpandStep<T>(out: seq<int>, step: T -> T, number: T -> int, x: T, endDay: int, fuel: nat)
    requires fuel > 0 && number(x) <= endDay
    ensures out + Expand(step, number, x, endDay, fuel) ==
            out + [number(x)] + Expand(step, number, step(x), endDay, fuel - 1)
  {
  }

  method ListUpcoming(c: Cadence, first: Date, anchorDay: int, endDay: int, bound: nat) returns (out: seq<int>)
    requires Valid(first) && 1 <= anchorDay
    ensures out == Expand(Stepper(c, anchorDay), DayNumber, first, endDay, bound)
  {
    ghost var step := Stepper(c, anchorDay);
    ghost var all := Expand(step, DayNumber, first, endDay, bound);
    var due := first;
    out := [];
    var i: nat := 0;
    while i < bound && DayNumber(due) <= endDay
      invariant i <= bound && Valid(due)
      invariant out + Expand(step, DayNumber, due, endDay, bound - i) == all
    {
      ExpandStep(out, step, DayNumber, due, endDay, bound - i);
      out := out + [DayNumber(due)];
      due := StepOnce(c, due, anchorDay);
      i := i + 1;
    }
  }

  /** One step.  The guard of the source against a cadence that does not move on is never met. */
  method StepOnce(c: Cadence, due: Date, anchorDay: int) returns (next: Date)
    requires Valid(due) && 1 <= anchorDay
    ensures next == Stepper(c, anchorDay)(due) && Valid(next)
  {
    StepForward(c, due, anchorDay);
    next := StepCadence(c, due, anchorDay);
    if DayNumber(next) <= DayNumber(due) {
      assert false;
    }
  }

  /** The stepping loop of firstOnOrAfter: it gives up after `bound` steps. */
  method StepUntil(c: Cadence, due: Date, startDay: int, bound: nat) returns (r: Option<Date>, ghost j: nat)
    requires Valid(due) && DayNumber(due) < startDay
    ensures r.Some? ==> FirstIndex(Days(c, due), startDay, j) && j > 0 && r.value == Nth(c, due, j)
    ensures r.None? <==> Days(c, due)(bound) < startDay
  {
    ghost var at := Days(c, due);
    DaysIncreasing(c, due);
    DaysAt(c, due, 0);
    var date := due;
    for i := 0 to bound
      invariant date == Nth(c, due, i) && Valid(date) && at(i) < startDay
    {
      DaysAt(c, due, i);
      DaysAt(c, due, i + 1);
      date := StepOnce(c, date, due.day);
      if DayNumber(date) >= startDay {
        FirstIndexIsFirst(at, startDay, i + 1, bound);
        return Some(date), i + 1;
      }
    }
    return None, 0;
  }

  /** The jump of a day-based cadence. */
  method Jump(c: Cadence, due: Date, startDay: int, length: int) returns (landed: Date, ghost j: nat)
    requires Valid(due) && length == FixedCadenceDays(c) > 0 && DayNumber(due) < startDay
    ensures FirstIndex(Days(c, due), startDay, j) && j > 0 && landed == Nth(c, due, j)
  {
    JumpLands(c, due, startDay, length);
    var gap := startDay - DayNumber(due);
    var steps := (gap + length - 1) / length;
    return AddDays(due, steps * length), steps;
  }

  /** firstOnOrAfter: where single steps would arrive.  A day-based cadence gets there in one jump, from
      any distance. */
  method FirstOnOrAfter(c: Cadence, due: Date, startDay: int, bound: nat) returns (r: Option<Date>, ghost j: nat)
    requires Valid(due) && DayNumber(due) < startDay
    ensures r.Some? ==> FirstIndex(Days(c, due), startDay, j) && j > 0 && r.value == Nth(c, due, j)
    ensures r.None? <==> FixedCadenceDays(c) == 0 && Days(c, due)(bound) < startDay
  {
    var length := FixedCadenceDays(c);
    if length > 0 {
      var landed;
      landed, j := Jump(c, due, startDay, length);
      return Some(landed), j;
    }
    r, j := StepUntil(c, due, startDay, bound);
  }

  /** occurrenceDates */
  method OccurrenceDates(c: Cadence, nextDue: Date, startDay: int, endDay: int, bound: nat)
    returns (out: seq<int>)
    requires Valid(nextDue)
    ensures IsListing(out, Days(c, nextDue), FixedCadenceDays(c) > 0, startDay, endDay, bound)
  {
    ghost var at := Days(c, nextDue);
    DaysAt(c, nextDue, 0);
    if DayNumber(nextDue) < startDay {
      var first, k := FirstOnOrAfter(c, nextDue, startDay, bound);
      if first.None? {
        assert StartsAt(at, FixedCadenceDays(c) > 0, startDay, bound, None);
        return [DayNumber(nextDue)];
      }
      NthValid(c, nextDue, k);
      var rest := ListUpcoming(c, first.value, nextDue.day, endDay, bound);
      ExpandIsUpcoming(Stepper(c, nextDue.day), DayNumber, nextDue, k, endDay, bound);
      StartAfterOverdue(at, FixedCadenceDays(c) > 0, startDay, bound, k);
      return [DayNumber(nextDue)] + rest;
    }
    out := ListUpcoming(c, nextDue, nextDue.day, endDay, bound);
    ExpandIsUpcoming(Stepper(c, nextDue.day), DayNumber, nextDue, 0, endDay, bound);
    assert StartsAt(at, FixedCadenceDays(c) > 0, startDay, bound, Some(0));
  }

  lemma StartAfterOverdue(at: nat -> int, dayBased: bool, startDay: int, bound: nat, k: nat)
    requires at(0) < startDay && FirstIndex(at, startDay, k)
    requires dayBased || at(bound) >= startDay
    ensures StartsAt(at, dayBased, startDay, bound, Some(k))
  {
  }
}
