/**
 One account's balance projected forward: internal/acctproject/acctproject.go and outlook.go.

 Calendar days are integers.  Everything read off a projection is compared with
 one reference curve: the start balance plus every driver that has landed by
 the end of the day.
 */
module Projections {
  import opened Wrappers
  import opened Money
  import opened Sequences

  datatype Driver = Driver(name: string, date: int, amount: int64)

  datatype Projection = Projection(start: int64, drivers: seq<Driver>, low: int64, lowDate: int, end: int64)

  datatype Point = Point(date: int, balance: int64, inflow: int64, outflow: int64)

  datatype Outlook = Rising | Low | Negative(on: int)

  // ----- the reference curve -----

  function Amount(): Driver -> int { (d: Driver) => d.amount }

  function LandedBy(asOf: int, day: int): Driver -> int {
    (d: Driver) => if d.date <= day && asOf <= day then d.amount else 0
  }

  /** The balance at the end of `day`, overdue drivers landing on `asOf`. */
  function DayBalance(start: int, drivers: seq<Driver>, asOf: int, day: int): int {
    start + SumBy(drivers, LandedBy(asOf, day))
  }

  ghost predicate IsLow(low: int, lowDate: int, start: int, drivers: seq<Driver>, asOf: int, end: int) {
    && low <= start
    && (forall day | asOf <= day <= end :: low <= DayBalance(start, drivers, asOf, day))
    && (low == start ==> lowDate == asOf)
    && (low < start ==>
          && asOf <= lowDate <= end && DayBalance(start, drivers, asOf, lowDate) == low
          && forall day | asOf <= day < lowDate :: DayBalance(start, drivers, asOf, day) > low)
  }

  // ----- date order -----

  predicate DriverLe(a: Driver, b: Driver) {
    a.date < b.date || (a.date == b.date && StringLe(a.name, b.name))
  }

  lemma DriverLeOrder()
    ensures TotalPreorder(DriverLe)
  {
    forall x: Driver, y: Driver
      ensures DriverLe(x, y) || DriverLe(y, x)
    {
      StringLeTotal(x.name, y.name);
    }
    forall x: Driver, y: Driver, z: Driver | DriverLe(x, y) && DriverLe(y, z)
      ensures DriverLe(x, z)
    {
      if x.date == y.date == z.date {
        StringLeTransitive(x.name, y.name, z.name);
      }
    }
  }

  ghost predicate ByDate(drivers: seq<Driver>) {
    forall i, j | 0 <= i < j < |drivers| :: drivers[i].date <= drivers[j].date
  }

  // ----- the drivers in the window -----

  function Land(d: Driver, asOf: int): Driver { if d.date < asOf then Driver(d.name, asOf, d.amount) else d }

  function InWindow(drivers: seq<Driver>, asOf: int, end: int): seq<Driver> {
    if drivers == [] then []
    else
      var d := Land(drivers[0], asOf);
      (if d.date > end then [] else [d]) + InWindow(drivers[1..], asOf, end)
  }

  function Kept(drivers: seq<Driver>, asOf: int, end: int): seq<Driver> {
    Sort(InWindow(drivers, asOf, end), DriverLe)
  }

  ghost predicate Within(drivers: seq<Driver>, asOf: int, end: int) {
    forall d | d in drivers :: asOf <= d.date <= end
  }

  lemma {:induction false} InWindowWithin(drivers: seq<Driver>, asOf: int, end: int)
    requires asOf <= end
    ensures Within(InWindow(drivers, asOf, end), asOf, end)
  {
    if drivers != [] {
      InWindowWithin(drivers[1..], asOf, end);
    }
  }

  lemma KeptWithin(drivers: seq<Driver>, asOf: int, end: int)
    requires asOf <= end
    ensures Within(Kept(drivers, asOf, end), asOf, end) && ByDate(Kept(drivers, asOf, end))
  {
    InWindowWithin(drivers, asOf, end);
    var w := InWindow(drivers, asOf, end);
    SortMultiset(w, DriverLe);
    forall d | d in Kept(drivers, asOf, end)
      ensures d in w
    {
      assert d in multiset(Kept(drivers, asOf, end));
    }
    DriverLeOrder();
    SortSorted(w, DriverLe);
  }

  /** Driver `d` is driver `e` on its day, or on `asOf` if it was overdue. */
  predicate LandsAs(e: Driver, d: Driver, asOf: int) {
    e.name == d.name && e.amount == d.amount && (e.date == d.date || (e.date < asOf && d.date == asOf))
  }

  lemma {:induction false} InWindowMembers(drivers: seq<Driver>, asOf: int, end: int, d: Driver)
    ensures d in InWindow(drivers, asOf, end) <==>
              asOf <= d.date <= end && exists e :: e in drivers && LandsAs(e, d, asOf)
  {
    if drivers != [] {
      InWindowMembers(drivers[1..], asOf, end, d);
      var first := Land(drivers[0], asOf);
      var head, rest := if first.date > end then [] else [first], InWindow(drivers[1..], asOf, end);
      assert d in head + rest <==> d in head || d in rest;
      assert forall e :: e in drivers <==> e == drivers[0] || e in drivers[1..];
      assert asOf <= d.date ==> (LandsAs(drivers[0], d, asOf) <==> d == first);
      assert d == first ==> asOf <= d.date;
    }
  }

  /** The drivers a projection keeps: those of the window under their names and amounts, the overdue ones moved up. */
  lemma KeptMembers(drivers: seq<Driver>, asOf: int, end: int, d: Driver)
    ensures d in Kept(drivers, asOf, end) <==>
              asOf <= d.date <= end && exists e :: e in drivers && LandsAs(e, d, asOf)
  {
    var w := InWindow(drivers, asOf, end);
    SortMultiset(w, DriverLe);
    InWindowMembers(drivers, asOf, end, d);
    assert d in Sort(w, DriverLe) <==> d in multiset(Sort(w, DriverLe));
    assert d in w <==> d in multiset(w);
  }

  lemma {:induction false} InWindowCurve(start: int, drivers: seq<Driver>, asOf: int, end: int, day: int)
    requires asOf <= day <= end
    ensures SumBy(InWindow(drivers, asOf, end), LandedBy(asOf, day)) == SumBy(drivers, LandedBy(asOf, day))
  {
    if drivers != [] {
      InWindowCurve(start, drivers[1..], asOf, end, day);
      var d := Land(drivers[0], asOf);
      var head := if d.date > end then [] else [d];
      SumAppend(head, InWindow(drivers[1..], asOf, end), LandedBy(asOf, day));
      assert head != [] ==> head[1..] == [];
    }
  }

  /** Dropping, moving and sorting the drivers leaves the reference curve as it was. */
  lemma KeptCurve(start: int, drivers: seq<Driver>, asOf: int, end: int, day: int)
    requires asOf <= day <= end
    ensures DayBalance(start, Kept(drivers, asOf, end), asOf, day) == DayBalance(start, drivers, asOf, day)
  {
    InWindowCurve(start, drivers, asOf, end, day);
    SortSum(InWindow(drivers, asOf, end), DriverLe, LandedBy(asOf, day));
  }

  // ----- walking the days -----

  datatype DayClose = DayClose(date: int, closing: int)

  /** The balance after the first k drivers. */
  function After(start: int, drivers: seq<Driver>, k: nat): int
    requires k <= |drivers|
  {
    start + SumBy(drivers[..k], Amount())
  }

  ghost predicate NoOverflow(start: int, drivers: seq<Driver>) {
    forall k | 0 <= k <= |drivers| :: Fits(After(start, drivers, k))
  }

  lemma AfterStep(start: int, drivers: seq<Driver>, k: nat)
    requires k < |drivers|
    ensures After(start, drivers, k + 1) == After(start, drivers, k) + drivers[k].amount
  {
    assert drivers[..k + 1] == drivers[..k] + [drivers[k]];
    SumAppend(drivers[..k], [drivers[k]], Amount());
    assert [drivers[k]][1..] == [];
  }

  /** Past the last driver of the day of driver `from`. */
  function NextDay(drivers: seq<Driver>, from: nat, i: nat): (k: nat)
    requires from <= i <= |drivers| && from < |drivers|
    requires forall j | from <= j < i :: drivers[j].date == drivers[from].date
    ensures i <= k <= |drivers| && (i == from ==> from < k)
    ensures forall j | from <= j < k :: drivers[j].date == drivers[from].date
    ensures k < |drivers| ==> drivers[k].date != drivers[from].date
    decreases |drivers| - i
  {
    if i < |drivers| && drivers[i].date == drivers[from].date then NextDay(drivers, from, i + 1) else i
  }

  /** Every day with a driver, from driver `from` on, with its closing balance. */
  function DayCloses(start: int, drivers: seq<Driver>, from: nat): seq<DayClose>
    requires from <= |drivers|
    decreases |drivers| - from
  {
    if from == |drivers| then []
    else
      var k := NextDay(drivers, from, from);
      [DayClose(drivers[from].date, After(start, drivers, k))] + DayCloses(start, drivers, k)
  }

  /** Add up one day. */
  method WalkDay(start: int64, drivers: seq<Driver>, from: nat, balance: int64)
    returns (ok: bool, k: nat, bal: int64)
    requires from < |drivers| && balance == After(start, drivers, from)
    ensures NoOverflow(start, drivers) ==> ok
    ensures ok ==> k == NextDay(drivers, from, from) && bal == After(start, drivers, k)
    ensures ok ==> forall j | from <= j <= k :: Fits(After(start, drivers, j))
  {
    ok, k, bal := true, from, balance;
    while k < |drivers| && drivers[k].date == drivers[from].date
      invariant from <= k <= |drivers| && bal == After(start, drivers, k)
      invariant forall j | from <= j < k :: drivers[j].date == drivers[from].date
      invariant NextDay(drivers, from, k) == NextDay(drivers, from, from)
      invariant forall j | from <= j <= k :: Fits(After(start, drivers, j))
    {
      AfterStep(start, drivers, k);
      var next := Add(bal, drivers[k].amount);
      if next.None? {
        ok := false;
        return;
      }
      bal := next.value;
      k := k + 1;
    }
  }

  /** Where a walk that stops at the first close below zero ends, if it is asked to stop there. */
  ghost predicate StopsAt(closes: seq<DayClose>, all: seq<DayClose>, stopBelowZero: bool) {
    && closes <= all
    && (!stopBelowZero ==> closes == all)
    && (forall i | 0 <= i < |closes| - 1 :: stopBelowZero ==> closes[i].closing >= 0)
    && (stopBelowZero && closes != all ==> closes != [] && closes[|closes| - 1].closing < 0)
  }

  /** walkDayCloses: the days visited, with their closes. */
  method WalkDayCloses(start: int64, drivers: seq<Driver>, stopBelowZero: bool)
    returns (ok: bool, closes: seq<DayClose>, bal: int64)
    ensures NoOverflow(start, drivers) ==> ok
    ensures ok && !stopBelowZero ==> NoOverflow(start, drivers) && bal == After(start, drivers, |drivers|)
    ensures ok ==> StopsAt(closes, DayCloses(start, drivers, 0), stopBelowZero)
    ensures ok ==> forall c | c in closes :: Fits(c.closing)
  {
    ok, closes, bal := true, [], start;
    var i: nat := 0;
    assert drivers[..0] == [];
    while i < |drivers|
      invariant i <= |drivers| && bal == After(start, drivers, i)
      invariant closes + DayCloses(start, drivers, i) == DayCloses(start, drivers, 0)
      invariant stopBelowZero ==> forall j | 0 <= j < |closes| :: closes[j].closing >= 0
      invariant forall j | 0 <= j <= i :: Fits(After(start, drivers, j))
      invariant forall c | c in closes :: Fits(c.closing)
      decreases |drivers| - i
    {
      var date := drivers[i].date;
      var k;
      ok, k, bal := WalkDay(start, drivers, i, bal);
      if !ok {
        return;
      }
      closes := closes + [DayClose(date, bal)];
      i := k;
      if stopBelowZero && bal < 0 {
        return;
      }
    }
  }

  // ----- the closes are the curve -----

  lemma {:induction false} SumNoneLanded(s: seq<Driver>, asOf: int, day: int)
    requires forall d | d in s :: d.date > day
    ensures SumBy(s, LandedBy(asOf, day)) == 0
  {
    if s != [] {
      SumNoneLanded(s[1..], asOf, day);
    }
  }

  /** If the first k drivers are the ones dated up to `day`, they make up that day's balance. */
  lemma CurveAt(start: int, drivers: seq<Driver>, asOf: int, day: int, k: nat)
    requires asOf <= day && k <= |drivers|
    requires forall i | 0 <= i < k :: drivers[i].date <= day
    requires forall i | k <= i < |drivers| :: drivers[i].date > day
    ensures DayBalance(start, drivers, asOf, day) == After(start, drivers, k)
  {
    assert drivers == drivers[..k] + drivers[k..];
    SumAppend(drivers[..k], drivers[k..], LandedBy(asOf, day));
    SumAgree(drivers[..k], Amount(), LandedBy(asOf, day));
    SumNoneLanded(drivers[k..], asOf, day);
  }

  /** Every close is the curve's value on its day, and the days go up. */
  lemma {:induction false} ClosesOnCurve(start: int, drivers: seq<Driver>, asOf: int, end: int, from: nat)
    requires ByDate(drivers) && Within(drivers, asOf, end) && from <= |drivers|
    requires 0 < from < |drivers| ==> drivers[from - 1].date < drivers[from].date
    ensures var closes := DayCloses(start, drivers, from);
            && (forall c | c in closes :: asOf <= c.date <= end && drivers[from].date <= c.date
                                          && c.closing == DayBalance(start, drivers, asOf, c.date))
            && (forall i, j | 0 <= i < j < |closes| :: closes[i].date < closes[j].date)
    decreases |drivers| - from
  {
    if from < |drivers| {
      var k := NextDay(drivers, from, from);
      assert drivers[from] in drivers;
      CurveAt(start, drivers, asOf, drivers[from].date, k);
      ClosesOnCurve(start, drivers, asOf, end, k);
    }
  }

  /** The balance on any day is the start balance or the latest close. */
  lemma {:induction false} DayHasClose(start: int, drivers: seq<Driver>, asOf: int, end: int, day: int, from: nat)
    requires ByDate(drivers) && Within(drivers, asOf, end) && from <= |drivers| && asOf <= day
    requires 0 < from < |drivers| ==> drivers[from - 1].date < drivers[from].date
    requires forall i | 0 <= i < from :: drivers[i].date <= day
    ensures || DayBalance(start, drivers, asOf, day) == After(start, drivers, from)
            || exists c :: c in DayCloses(start, drivers, from) && c.date <= day
                           && c.closing == DayBalance(start, drivers, asOf, day)
    decreases |drivers| - from
  {
    if from == |drivers| || drivers[from].date > day {
      CurveAt(start, drivers, asOf, day, from);
    } else {
      var k := NextDay(drivers, from, from);
      DayHasClose(start, drivers, asOf, end, day, k);
      var first := DayClose(drivers[from].date, After(start, drivers, k));
      var all := DayCloses(start, drivers, from);
      assert all[0] == first;
      assert forall c | c in DayCloses(start, drivers, k) :: c in all;
    }
  }

  /** `low` is first reached on `lowDate` among the closes. */
  ghost predicate FoldLow(closes: seq<DayClose>, start: int, asOf: int, low: int, lowDate: int) {
    && low <= start && (forall c | c in closes :: low <= c.closing)
    && (low == start ==> lowDate == asOf)
    && (low < start ==> exists i :: 0 <= i < |closes| && closes[i] == DayClose(lowDate, low)
                                    && forall j | 0 <= j < i :: closes[j].closing > low)
  }

  lemma LowOfCurve(start: int, drivers: seq<Driver>, asOf: int, end: int, low: int, lowDate: int)
    requires ByDate(drivers) && Within(drivers, asOf, end)
    requires FoldLow(DayCloses(start, drivers, 0), start, asOf, low, lowDate)
    ensures IsLow(low, lowDate, start, drivers, asOf, end)
  {
    var closes := DayCloses(start, drivers, 0);
    ClosesOnCurve(start, drivers, asOf, end, 0);
    forall day | asOf <= day <= end
      ensures low <= DayBalance(start, drivers, asOf, day)
      ensures low < start && day < lowDate ==> low < DayBalance(start, drivers, asOf, day)
    {
      DayHasClose(start, drivers, asOf, end, day, 0);
      assert After(start, drivers, 0) == start;
    }
  }

  // ----- Project -----

  function Flat(start: int64, asOf: int): Projection { Projection(start, [], start, asOf, start) }

  /** What a successful projection says. */
  ghost predicate Projects(p: Projection, start: int64, drivers: seq<Driver>, asOf: int, horizon: int) {
    if horizon <= 0 then p == Flat(start, asOf)
    else
      var end := asOf + horizon;
      && p.start == start && p.drivers == Kept(drivers, asOf, end)
      && NoOverflow(start, p.drivers)
      && IsLow(p.low, p.lowDate, start, drivers, asOf, end)
      && p.end == DayBalance(start, drivers, asOf, end)
  }

  lemma IsLowTransfer(low: int, lowDate: int, start: int, drivers: seq<Driver>, asOf: int, end: int)
    requires asOf <= end
    ensures IsLow(low, lowDate, start, Kept(drivers, asOf, end), asOf, end) <==>
            IsLow(low, lowDate, start, drivers, asOf, end)
  {
    forall day | asOf <= day <= end
      ensures DayBalance(start, Kept(drivers, asOf, end), asOf, day) == DayBalance(start, drivers, asOf, day)
    {
      KeptCurve(start, drivers, asOf, end, day);
    }
  }

  method FindLow(closes: seq<DayClose>, start: int64, asOf: int) returns (low: int64, lowDate: int)
    requires forall c | c in closes :: Fits(c.closing)
    ensures FoldLow(closes, start, asOf, low, lowDate)
  {
    low, lowDate := start, asOf;
    for i := 0 to |closes|
      invariant FoldLow(closes[..i], start, asOf, low, lowDate)
    {
      assert closes[..i + 1] == closes[..i] + [closes[i]];
      if closes[i].closing < low {
        low, lowDate := closes[i].closing, closes[i].date;
        assert closes[..i + 1][i] == DayClose(lowDate, low);
      }
    }
    assert closes[..|closes|] == closes;
  }

  method SelectDrivers(drivers: seq<Driver>, asOf: int, end: int) returns (out: seq<Driver>)
    ensures out == InWindow(drivers, asOf, end)
  {
    out := [];
    for i := 0 to |drivers|
      invariant out + InWindow(drivers[i..], asOf, end) == InWindow(drivers, asOf, end)
    {
      assert drivers[i..][1..] == drivers[i + 1..];
      var date := drivers[i].date;
      if date < asOf {
        date := asOf;
      }
      if date > end {
        continue;
      }
      out := out + [Driver(drivers[i].name, date, drivers[i].amount)];
    }
  }

  method Project(start: int64, asOf: int, drivers: seq<Driver>, horizon: int) returns (r: Option<Projection>)
    ensures r.Some? <==> horizon <= 0 || NoOverflow(start, Kept(drivers, asOf, asOf + horizon))
    ensures r.Some? ==> Projects(r.value, start, drivers, asOf, horizon)
  {
    if horizon <= 0 {
      return Some(Flat(start, asOf));
    }
    var end := asOf + horizon;
    var inWindow := SelectDrivers(drivers, asOf, end);
    inWindow := Sort(inWindow, DriverLe);
    var ok, closes, bal := WalkDayCloses(start, inWindow, false);
    if !ok {
      return None;
    }
    var low, lowDate := FindLow(closes, start, asOf);
    KeptWithin(drivers, asOf, end);
    LowOfCurve(start, inWindow, asOf, end, low, lowDate);
    IsLowTransfer(low, lowDate, start, drivers, asOf, end);
    CurveAt(start, inWindow, asOf, end, |inWindow|);
    KeptCurve(start, drivers, asOf, end, end);
    return Some(Projection(start, inWindow, low, lowDate, bal));
  }

  /** The curve does not depend on the order of the drivers. */
  lemma CurvePermuted(start: int, a: seq<Driver>, b: seq<Driver>, asOf: int, day: int)
    requires multiset(a) == multiset(b)
    ensures DayBalance(start, a, asOf, day) == DayBalance(start, b, asOf, day)
  {
    SumPermuted(a, b, LandedBy(asOf, day));
  }

  /** Permuting the drivers changes neither the low, its date nor the end. */
  lemma ProjectionPermuted(p: Projection, q: Projection, start: int64, a: seq<Driver>, b: seq<Driver>,
                           asOf: int, horizon: int)
    requires multiset(a) == multiset(b)
    requires Projects(p, start, a, asOf, horizon) && Projects(q, start, b, asOf, horizon)
    ensures p.low == q.low && p.lowDate == q.lowDate && p.end == q.end
  {
    if horizon > 0 {
      forall day
        ensures DayBalance(start, a, asOf, day) == DayBalance(start, b, asOf, day)
      {
        CurvePermuted(start, a, b, asOf, day);
      }
      assert p.low < start ==> DayBalance(start, b, asOf, p.lowDate) == p.low;
      assert q.low < start ==> DayBalance(start, a, asOf, q.lowDate) == q.low;
    }
  }

  // ----- the other readings -----

  /** FirstNegative, read against the curve the projection was made from. */
  method FirstNegative(p: Projection, asOf: int, ghost end: int) returns (ok: bool, found: bool, on: int)
    ensures NoOverflow(p.start, p.drivers) ==> ok
    ensures ok && ByDate(p.drivers) && Within(p.drivers, asOf, end) ==>
              && (found <==>
                    || p.start < 0
                    || exists day :: asOf <= day <= end && DayBalance(p.start, p.drivers, asOf, day) < 0)
              && (found && p.start < 0 ==> on == asOf)
              && (found && p.start >= 0 ==>
                    && asOf <= on <= end && DayBalance(p.start, p.drivers, asOf, on) < 0
                    && forall day | asOf <= day < on :: DayBalance(p.start, p.drivers, asOf, day) >= 0)
  {
    if p.start < 0 {
      return true, true, asOf;
    }
    var closes, bal;
    ok, closes, bal := WalkDayCloses(p.start, p.drivers, true);
    if !ok {
      return false, false, 0;
    }
    found := closes != [] && closes[|closes| - 1].closing < 0;
    on := if found then closes[|closes| - 1].date else 0;
    if ByDate(p.drivers) && Within(p.drivers, asOf, end) {
      FirstNegativeOnCurve(p.start, p.drivers, asOf, end, closes);
    }
  }

  lemma FirstNegativeOnCurve(start: int64, drivers: seq<Driver>, asOf: int, end: int, closes: seq<DayClose>)
    requires ByDate(drivers) && Within(drivers, asOf, end) && start >= 0
    requires StopsAt(closes, DayCloses(start, drivers, 0), true)
    ensures var found := closes != [] && closes[|closes| - 1].closing < 0;
            && (!found ==> forall day | asOf <= day <= end :: DayBalance(start, drivers, asOf, day) >= 0)
            && (found ==>
                  var on := closes[|closes| - 1].date;
                  && asOf <= on <= end && DayBalance(start, drivers, asOf, on) < 0
                  && forall day | asOf <= day < on :: DayBalance(start, drivers, asOf, day) >= 0)
  {
    var all := DayCloses(start, drivers, 0);
    ClosesOnCurve(start, drivers, asOf, end, 0);
    assert closes != [] ==> closes[|closes| - 1] == all[|closes| - 1];
    forall day | asOf <= day <= end
      ensures || DayBalance(start, drivers, asOf, day) >= 0
              || exists i :: |closes| - 1 <= i < |all| && closes != [] && all[i].date <= day
                             && closes[|closes| - 1].closing < 0
    {
      DayHasClose(start, drivers, asOf, end, day, 0);
      assert After(start, drivers, 0) == start;
    }
  }

  /** The outlook sorts projections by their low point alone. */
  method OutlookOf(p: Projection, asOf: int, ghost drivers: seq<Driver>, ghost horizon: int)
    returns (ok: bool, r: Outlook)
    requires Projects(p, p.start, drivers, asOf, horizon)
    ensures ok
    ensures r.Negative? <==> p.low < 0
    ensures r.Low? <==> 0 <= p.low < p.start
    ensures r.Rising? <==> p.low >= 0 && p.low == p.start
    ensures r.Negative? && p.start >= 0 ==>
              && asOf <= r.on <= p.lowDate && DayBalance(p.start, drivers, asOf, r.on) < 0
              && forall day | asOf <= day < r.on :: DayBalance(p.start, drivers, asOf, day) >= 0
  {
    ghost var end := if horizon <= 0 then asOf else asOf + horizon;
    ReadsCurve(p, drivers, asOf, horizon, end);
    var found, on;
    ok, found, on := FirstNegative(p, asOf, end);
    r := if found then Negative(on) else if p.low < p.start then Low else Rising;
  }

  lemma ReadsCurve(p: Projection, drivers: seq<Driver>, asOf: int, horizon: int, end: int)
    requires Projects(p, p.start, drivers, asOf, horizon)
    requires end == if horizon <= 0 then asOf else asOf + horizon
    ensures ByDate(p.drivers) && Within(p.drivers, asOf, end) && NoOverflow(p.start, p.drivers)
    ensures IsLow(p.low, p.lowDate, p.start, p.drivers, asOf, end)
    ensures horizon > 0 ==> forall day | asOf <= day <= end ::
              DayBalance(p.start, p.drivers, asOf, day) == DayBalance(p.start, drivers, asOf, day)
  {
    if horizon > 0 {
      KeptWithin(drivers, asOf, end);
      IsLowTransfer(p.low, p.lowDate, p.start, drivers, asOf, end);
      forall day | asOf <= day <= end
        ensures DayBalance(p.start, p.drivers, asOf, day) == DayBalance(p.start, drivers, asOf, day)
      {
        KeptCurve(p.start, drivers, asOf, end, day);
      }
    }
  }

  // ----- the daily series -----

  datatype DayFlow = DayFlow(inflow: int64, outflow: int64, next: int64)

  function ApplyOne(acc: DayFlow, d: Driver): Option<DayFlow> {
    var next := Add(acc.next, d.amount);
    if next.None? then None
    else if d.amount > 0 then
      var inflow := Add(acc.inflow, d.amount);
      if inflow.None? then None else Some(DayFlow(inflow.value, acc.outflow, next.value))
    else
      var magnitude := Abs(d.amount);
      if magnitude.None? then None
      else
        var outflow := Add(acc.outflow, magnitude.value);
        if outflow.None? then None else Some(DayFlow(acc.inflow, outflow.value, next.value))
  }

  function ApplyAll(acc: DayFlow, drivers: seq<Driver>): Option<DayFlow>
    decreases |drivers|
  {
    if drivers == [] then Some(acc)
    else
      var next := ApplyOne(acc, drivers[0]);
      if next.None? then None else ApplyAll(next.value, drivers[1..])
  }

  function Inflow(): Driver -> int { (d: Driver) => if d.amount > 0 then d.amount else 0 }

  function Outflow(): Driver -> int { (d: Driver) => if d.amount > 0 then 0 else -(d.amount as int) }

  /** A day that can be added up moves the balance by what came in less what went out. */
  lemma {:induction false} ApplyAllExact(acc: DayFlow, drivers: seq<Driver>)
    requires ApplyAll(acc, drivers).Some?
    ensures var r := ApplyAll(acc, drivers).value;
            && r.inflow == acc.inflow + SumBy(drivers, Inflow())
            && r.outflow == acc.outflow + SumBy(drivers, Outflow())
            && r.next == acc.next + SumBy(drivers, Amount())
            && r.next - acc.next == (r.inflow - acc.inflow) - (r.outflow - acc.outflow)
    decreases |drivers|
  {
    if drivers != [] {
      ApplyAllExact(ApplyOne(acc, drivers[0]).value, drivers[1..]);
    }
  }

  /** From this balance on, every running balance stays in 64 bits. */
  ghost predicate BalancesFit(balance: int, drivers: seq<Driver>)
    decreases |drivers|
  {
    Fits(balance) && (drivers != [] ==> BalancesFit(balance + drivers[0].amount, drivers[1..]))
  }

  ghost predicate PrefixesFit(balance: int, drivers: seq<Driver>) {
    forall k | 0 <= k <= |drivers| :: Fits(balance + SumBy(drivers[..k], Amount()))
  }

  lemma PrefixesFitRest(balance: int, drivers: seq<Driver>)
    requires drivers != [] && PrefixesFit(balance, drivers)
    ensures Fits(balance) && PrefixesFit(balance + drivers[0].amount, drivers[1..])
  {
    assert Fits(balance + SumBy(drivers[..0], Amount()));
    forall k | 0 <= k <= |drivers[1..]|
      ensures Fits(balance + drivers[0].amount + SumBy(drivers[1..][..k], Amount()))
    {
      PrefixCons(drivers, k);
      assert Fits(balance + SumBy(drivers[..k + 1], Amount()));
    }
  }

  lemma PrefixesFitCons(balance: int, drivers: seq<Driver>)
    requires drivers != [] && Fits(balance) && PrefixesFit(balance + drivers[0].amount, drivers[1..])
    ensures PrefixesFit(balance, drivers)
  {
    forall k | 0 <= k <= |drivers|
      ensures Fits(balance + SumBy(drivers[..k], Amount()))
    {
      if k > 0 {
        PrefixCons(drivers, k - 1);
        assert Fits(balance + drivers[0].amount + SumBy(drivers[1..][..k - 1], Amount()));
      }
    }
  }

  lemma {:induction false} BalancesFitMeans(balance: int, drivers: seq<Driver>)
    ensures BalancesFit(balance, drivers) <==> PrefixesFit(balance, drivers)
    decreases |drivers|
  {
    if drivers != [] {
      BalancesFitMeans(balance + drivers[0].amount, drivers[1..]);
      if PrefixesFit(balance, drivers) {
        PrefixesFitRest(balance, drivers);
      } else if BalancesFit(balance, drivers) {
        PrefixesFitCons(balance, drivers);
      }
    } else {
      assert forall k | 0 <= k <= |drivers| :: drivers[..k] == [];
      assert PrefixesFit(balance, drivers) ==> Fits(balance + SumBy(drivers[..0], Amount()));
    }
  }

  lemma PrefixCons(drivers: seq<Driver>, k: nat)
    requires k < |drivers|
    ensures SumBy(drivers[..k + 1], Amount()) == drivers[0].amount as int + SumBy(drivers[1..][..k], Amount())
  {
    assert drivers[..k + 1][1..] == drivers[1..][..k];
  }

  /** Every running balance, and what comes in and goes out in all, stays in 64 bits.  A driver of the least
      amount there is has no 64-bit magnitude, and so goes out over the limit by itself. */
  ghost predicate AddsUp(acc: DayFlow, drivers: seq<Driver>) {
    && BalancesFit(acc.next, drivers)
    && acc.inflow + SumBy(drivers, Inflow()) <= MAX_INT64
    && acc.outflow + SumBy(drivers, Outflow()) <= MAX_INT64
  }

  lemma {:induction false} SumNonNegative(drivers: seq<Driver>)
    ensures SumBy(drivers, Inflow()) >= 0 && SumBy(drivers, Outflow()) >= 0
  {
    if drivers != [] {
      SumNonNegative(drivers[1..]);
    }
  }

  /** The first driver can be added and the rest adds up from there, or the day does not add up. */
  lemma AddsUpStep(acc: DayFlow, drivers: seq<Driver>)
    requires drivers != [] && acc.inflow >= 0 && acc.outflow >= 0
    ensures AddsUp(acc, drivers) <==>
            ApplyOne(acc, drivers[0]).Some? && AddsUp(ApplyOne(acc, drivers[0]).value, drivers[1..])
  {
    var d, rest := drivers[0], drivers[1..];
    SumNonNegative(rest);
    assert BalancesFit(acc.next, drivers) <==> BalancesFit(acc.next as int + d.amount, rest);
    assert BalancesFit(acc.next as int + d.amount, rest) ==> Fits(acc.next as int + d.amount);
  }

  /** A day can be added up exactly if its sums fit. */
  lemma {:induction false} ApplyAllExactly(acc: DayFlow, drivers: seq<Driver>)
    requires acc.inflow >= 0 && acc.outflow >= 0
    ensures ApplyAll(acc, drivers).Some? <==> AddsUp(acc, drivers)
    decreases |drivers|
  {
    if drivers != [] {
      AddsUpStep(acc, drivers);
      if ApplyOne(acc, drivers[0]).Some? {
        ApplyAllExactly(ApplyOne(acc, drivers[0]).value, drivers[1..]);
      }
    }
  }

  method ApplyDay(balance: int64, drivers: seq<Driver>) returns (r: Option<DayFlow>)
    ensures r == ApplyAll(DayFlow(0, 0, balance), drivers)
    ensures r.Some? <==> AddsUp(DayFlow(0, 0, balance), drivers)
  {
    ApplyAllExactly(DayFlow(0, 0, balance), drivers);
    var inflow: int64, outflow: int64, next: int64 := 0, 0, balance;
    for i := 0 to |drivers|
      invariant ApplyAll(DayFlow(inflow, outflow, next), drivers[i..]) == ApplyAll(DayFlow(0, 0, balance), drivers)
    {
      assert drivers[i..][1..] == drivers[i + 1..];
      var sum := Add(next, drivers[i].amount);
      if sum.None? {
        return None;
      }
      next := sum.value;
      if drivers[i].amount > 0 {
        var more := Add(inflow, drivers[i].amount);
        if more.None? {
          return None;
        }
        inflow := more.value;
      } else {
        var magnitude := Abs(drivers[i].amount);
        if magnitude.None? {
          return None;
        }
        var more := Add(outflow, magnitude.value);
        if more.None? {
          return None;
        }
        outflow := more.value;
      }
    }
    r := Some(DayFlow(inflow, outflow, next));
  }

  function On(drivers: seq<Driver>, day: int): seq<Driver> {
    if drivers == [] then []
    else (if drivers[0].date == day then [drivers[0]] else []) + On(drivers[1..], day)
  }

  lemma {:induction false} OnAppend(a: seq<Driver>, b: seq<Driver>, day: int)
    ensures On(a + b, day) == On(a, day) + On(b, day)
  {
    if a == [] {
      assert a + b == b;
    } else {
      assert (a + b)[1..] == a[1..] + b;
      OnAppend(a[1..], b, day);
      Regroup(if a[0].date == day then [a[0]] else [], On(a[1..], day), On(b, day));
    }
  }

  lemma OnSnoc(drivers: seq<Driver>, i: nat, day: int)
    requires i < |drivers|
    ensures On(drivers[..i + 1], day) == On(drivers[..i], day) + if drivers[i].date == day then [drivers[i]] else []
  {
    assert drivers[..i + 1] == drivers[..i] + [drivers[i]];
    OnAppend(drivers[..i], [drivers[i]], day);
    assert [drivers[i]][1..] == [];
  }

  method GroupByDay(drivers: seq<Driver>) returns (byDay: map<int, seq<Driver>>)
    ensures forall day :: On(drivers, day) == if day in byDay then byDay[day] else []
  {
    byDay := map[];
    for i := 0 to |drivers|
      invariant forall day :: On(drivers[..i], day) == if day in byDay then byDay[day] else []
    {
      var d := drivers[i];
      forall day
        ensures On(drivers[..i + 1], day) == On(drivers[..i], day) + if d.date == day then [d] else []
      {
        OnSnoc(drivers, i, day);
      }
      byDay := byDay[d.date := (if d.date in byDay then byDay[d.date] else []) + [d]];
    }
    assert drivers[..|drivers|] == drivers;
  }

  function DatedWithin(from: int, to: int): Driver -> int {
    (d: Driver) => if from <= d.date <= to then d.amount else 0
  }

  /** The balance after the drivers dated from `asOf` to `day`. */
  function Drawn(p: Projection, asOf: int, day: int): int {
    p.start + SumBy(p.drivers, DatedWithin(asOf, day))
  }

  lemma {:induction false} NextDayDrawn(drivers: seq<Driver>, asOf: int, day: int)
    requires asOf <= day
    ensures SumBy(drivers, DatedWithin(asOf, day)) ==
            SumBy(drivers, DatedWithin(asOf, day - 1)) + SumBy(On(drivers, day), Amount())
  {
    if drivers != [] {
      NextDayDrawn(drivers[1..], asOf, day);
      var head := if drivers[0].date == day then [drivers[0]] else [];
      SumAppend(head, On(drivers[1..], day), Amount());
      assert head != [] ==> head[1..] == [];
    }
  }

  lemma {:induction false} NothingDrawn(drivers: seq<Driver>, asOf: int)
    ensures SumBy(drivers, DatedWithin(asOf, asOf - 1)) == 0
  {
    if drivers != [] {
      NothingDrawn(drivers[1..], asOf);
    }
  }

  /** Day i adds up from the balance of the day before. */
  ghost predicate DayFits(p: Projection, asOf: int, i: int) {
    var before := Drawn(p, asOf, asOf + i - 1);
    Fits(before) && AddsUp(DayFlow(0, 0, before), On(p.drivers, asOf + i))
  }

  ghost predicate IsPoint(pt: Point, p: Projection, asOf: int, i: int) {
    && pt.date == asOf + i
    && pt.balance == Drawn(p, asOf, asOf + i)
    && pt.inflow == SumBy(On(p.drivers, asOf + i), Inflow())
    && pt.outflow == SumBy(On(p.drivers, asOf + i), Outflow())
    && pt.balance - Drawn(p, asOf, asOf + i - 1) == pt.inflow as int - pt.outflow
  }

  lemma PointStep(p: Projection, asOf: int, i: nat, bal: int64, flow: DayFlow)
    requires bal == Drawn(p, asOf, asOf + i - 1)
    requires ApplyAll(DayFlow(0, 0, bal), On(p.drivers, asOf + i)) == Some(flow)
    ensures flow.next == Drawn(p, asOf, asOf + i)
    ensures IsPoint(Point(asOf + i, flow.next, flow.inflow, flow.outflow), p, asOf, i)
  {
    ApplyAllExact(DayFlow(0, 0, bal), On(p.drivers, asOf + i));
    NextDayDrawn(p.drivers, asOf, asOf + i);
  }

  /** One pass of the loop: the day's point, or nothing if the day does not add up. */
  method NextPoint(p: Projection, asOf: int, i: nat, bal: int64, day: seq<Driver>) returns (pt: Option<Point>)
    requires bal == Drawn(p, asOf, asOf + i - 1) && day == On(p.drivers, asOf + i)
    ensures pt.Some? <==> DayFits(p, asOf, i)
    ensures pt.Some? ==> IsPoint(pt.value, p, asOf, i)
  {
    var flow := ApplyDay(bal, day);
    if flow.None? {
      return None;
    }
    PointStep(p, asOf, i, bal, flow.value);
    return Some(Point(asOf + i, flow.value.next, flow.value.inflow, flow.value.outflow));
  }

  ghost predicate ArePoints(out: seq<Point>, p: Projection, asOf: int) {
    forall j | 0 <= j < |out| :: DayFits(p, asOf, j) && IsPoint(out[j], p, asOf, j)
  }

  lemma MorePoints(out: seq<Point>, pt: Point, p: Projection, asOf: int)
    requires ArePoints(out, p, asOf) && DayFits(p, asOf, |out|) && IsPoint(pt, p, asOf, |out|)
    ensures ArePoints(out + [pt], p, asOf)
  {
  }

  method Series(p: Projection, asOf: int, horizon: int) returns (r: Option<seq<Point>>)
    ensures r.Some? <==> forall i | 0 <= i <= horizon && 0 < horizon :: DayFits(p, asOf, i)
    ensures r.Some? ==> |r.value| == (if horizon <= 0 then 0 else horizon + 1)
    ensures r.Some? ==> forall i | 0 <= i < |r.value| :: IsPoint(r.value[i], p, asOf, i)
  {
    if horizon <= 0 {
      return Some([]);
    }
    var byDay := GroupByDay(p.drivers);
    var out: seq<Point> := [];
    var bal := p.start;
    NothingDrawn(p.drivers, asOf);
    for i := 0 to horizon + 1
      invariant |out| == i && bal == Drawn(p, asOf, asOf + i - 1)
      invariant ArePoints(out, p, asOf)
    {
      var date := asOf + i;
      var pt := NextPoint(p, asOf, i, bal, if date in byDay then byDay[date] else []);
      if pt.None? {
        return None;
      }
      MorePoints(out, pt.value, p, asOf);
      out := out + [pt.value];
      bal := pt.value.balance;
    }
    return Some(out);
  }

  /** The drivers fall into those of earlier days, those of the day, and others. */
  ghost predicate Splits(drivers: seq<Driver>, asOf: int, day: int, before: seq<Driver>, after: seq<Driver>) {
    && drivers == before + (On(drivers, day) + after)
    && SumBy(drivers, DatedWithin(asOf, day - 1)) == SumBy(before, Amount())
  }

  lemma OnCons(first: Driver, rest: seq<Driver>, day: int)
    ensures On([first] + rest, day) == (if first.date == day then [first] else []) + On(rest, day)
  {
    assert ([first] + rest)[1..] == rest;
  }

  lemma EarlierDriver(first: Driver, rest: seq<Driver>, asOf: int, day: int, before: seq<Driver>, after: seq<Driver>)
    requires asOf <= first.date < day && Splits(rest, asOf, day, before, after)
    ensures Splits([first] + rest, asOf, day, [first] + before, after)
  {
    OnCons(first, rest, day);
    assert On([first] + rest, day) == On(rest, day);
    assert SumBy([first] + rest, DatedWithin(asOf, day - 1)) == SumBy([first] + before, Amount()) by {
      SumCons(first, rest, DatedWithin(asOf, day - 1));
      SumCons(first, before, Amount());
    }
    Regroup([first], before, On(rest, day) + after);
  }

  lemma DriverOfTheDay(first: Driver, rest: seq<Driver>, asOf: int, day: int, after: seq<Driver>)
    requires first.date == day && Splits(rest, asOf, day, [], after)
    ensures Splits([first] + rest, asOf, day, [], after)
  {
    OnCons(first, rest, day);
    SumCons(first, rest, DatedWithin(asOf, day - 1));
    Regroup([first], On(rest, day), after);
  }

  lemma {:induction false} OnlyLaterDrivers(drivers: seq<Driver>, asOf: int, day: int)
    requires forall d | d in drivers :: day < d.date
    ensures Splits(drivers, asOf, day, [], drivers)
  {
    NobodyOn(drivers, day);
    if drivers != [] {
      assert drivers[0] in drivers && forall d | d in drivers[1..] :: d in drivers;
      OnlyLaterDrivers(drivers[1..], asOf, day);
    }
  }

  /** In date order, the drivers of a day stand together behind those of the days before. */
  lemma {:induction false} DayStandsTogether(drivers: seq<Driver>, asOf: int, day: int)
    returns (before: seq<Driver>, after: seq<Driver>)
    requires ByDate(drivers) && forall d | d in drivers :: asOf <= d.date
    ensures Splits(drivers, asOf, day, before, after)
    ensures before != [] ==> drivers[0].date < day
  {
    if drivers == [] {
      return [], [];
    }
    var first, rest := drivers[0], drivers[1..];
    assert drivers == [first] + rest;
    assert forall d | d in rest :: d in drivers && first.date <= d.date;
    if first.date > day {
      OnlyLaterDrivers(drivers, asOf, day);
      return [], drivers;
    }
    before, after := DayStandsTogether(rest, asOf, day);
    if first.date < day {
      EarlierDriver(first, rest, asOf, day, before, after);
      before := [first] + before;
    } else {
      DriverOfTheDay(first, rest, asOf, day, after);
    }
  }

  lemma {:induction false} NobodyOn(drivers: seq<Driver>, day: int)
    requires forall d | d in drivers :: d.date != day
    ensures On(drivers, day) == []
  {
    if drivers != [] {
      assert drivers[0] in drivers && forall d | d in drivers[1..] :: d in drivers;
      NobodyOn(drivers[1..], day);
    }
  }

  /** No day of a projection that succeeded takes a running balance out of range. */
  lemma RunningBalancesFit(p: Projection, asOf: int, i: int)
    requires ByDate(p.drivers) && (forall d | d in p.drivers :: asOf <= d.date) && NoOverflow(p.start, p.drivers)
    ensures BalancesFit(Drawn(p, asOf, asOf + i - 1), On(p.drivers, asOf + i))
  {
    var day := On(p.drivers, asOf + i);
    var before, after := DayStandsTogether(p.drivers, asOf, asOf + i);
    forall k | 0 <= k <= |day|
      ensures Fits(Drawn(p, asOf, asOf + i - 1) + SumBy(day[..k], Amount()))
    {
      PrefixOfThree(before, day, after, k);
      SumAppend(before, day[..k], Amount());
      assert Fits(After(p.start, p.drivers, |before| + k));
    }
    BalancesFitMeans(Drawn(p, asOf, asOf + i - 1), day);
  }

  lemma PrefixOfThree(before: seq<Driver>, day: seq<Driver>, after: seq<Driver>, k: nat)
    requires k <= |day|
    ensures (before + (day + after))[..|before| + k] == before + day[..k]
  {
  }

  /** The series of a projection fails only if some day's money in or money out does not fit in 64 bits. */
  lemma SeriesOfProjection(p: Projection, drivers: seq<Driver>, asOf: int, horizon: int, i: int)
    requires horizon > 0 && Projects(p, p.start, drivers, asOf, horizon)
    ensures var day := On(p.drivers, asOf + i);
            DayFits(p, asOf, i) <==> SumBy(day, Inflow()) <= MAX_INT64 && SumBy(day, Outflow()) <= MAX_INT64
  {
    ReadsCurve(p, drivers, asOf, horizon, asOf + horizon);
    RunningBalancesFit(p, asOf, i);
  }

  /** One curve, read four ways: the points are the curve, the low is its minimum with the start balance,
      the end is its last point, and each day moves by what came in less what went out. */
  lemma SeriesReadsCurve(p: Projection, drivers: seq<Driver>, asOf: int, horizon: int, points: seq<Point>)
    requires horizon > 0 && Projects(p, p.start, drivers, asOf, horizon)
    requires |points| == horizon + 1 && forall i | 0 <= i < |points| :: IsPoint(points[i], p, asOf, i)
    ensures forall i | 0 <= i <= horizon :: points[i].balance == DayBalance(p.start, drivers, asOf, asOf + i)
    ensures p.end == points[horizon].balance
    ensures forall i | 0 <= i <= horizon :: p.low <= points[i].balance
    ensures || p.low == p.start
            || exists i :: 0 <= i <= horizon && p.low == points[i].balance && p.lowDate == points[i].date
    ensures points[0].balance - p.start == points[0].inflow - points[0].outflow
    ensures forall i | 0 < i <= horizon ::
              points[i].balance - points[i - 1].balance == points[i].inflow - points[i].outflow
  {
    var end := asOf + horizon;
    ReadsCurve(p, drivers, asOf, horizon, end);
    forall i | 0 <= i <= horizon
      ensures points[i].balance == DayBalance(p.start, drivers, asOf, asOf + i)
    {
      SumAgree(p.drivers, DatedWithin(asOf, asOf + i), LandedBy(asOf, asOf + i));
    }
    NothingDrawn(p.drivers, asOf);
    assert IsPoint(points[0], p, asOf, 0);
    if p.low < p.start {
      assert points[p.lowDate - asOf].balance == p.low;
    }
    forall i | 0 < i <= horizon
      ensures points[i].balance - points[i - 1].balance == points[i].inflow - points[i].outflow
    {
      assert IsPoint(points[i - 1], p, asOf, i - 1);
      assert IsPoint(points[i], p, asOf, i);
    }
  }
}
