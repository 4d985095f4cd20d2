/**
 The order in which drivers are given to a projection (internal/acctproject/acctproject.go):
 drivers of one day and label are applied in that order, so it can decide whether a running
 balance overflows on the way.
 */
module ProjectionOrder {
  import opened Money
  import opened Sequences
  import opened Projections

  // ----- sorted arrangements -----

  type Order = (Driver, Driver) -> bool

  /** The amounts that come before all that is level with d. */
  function Below(le: Order, d: Driver): Driver -> int { (x: Driver) => if le(d, x) then 0 else x.amount }

  /** The chosen amounts among those level with d. */
  function Level(le: Order, d: Driver, first: Driver -> bool): Driver -> int {
    (x: Driver) => if le(d, x) && le(x, d) && first(x) then x.amount else 0
  }

  function In(): Driver -> bool { (x: Driver) => x.amount > 0 }

  function Out(): Driver -> bool { (x: Driver) => x.amount < 0 }

  function Any(): Driver -> bool { (x: Driver) => true }

  /** The balance after the drivers below d and the chosen ones level with it. */
  function Peak(start: int, drivers: seq<Driver>, le: Order, d: Driver, first: Driver -> bool): int {
    start + SumBy(drivers, Below(le, d)) + SumBy(drivers, Level(le, d, first))
  }

  /** On every day, for every label: the balance before, with all that comes in under the label, and with all
      that goes out under it, stays in 64 bits. */
  ghost predicate PeaksFit(start: int, drivers: seq<Driver>, le: Order) {
    forall d | d in drivers :: Fits(Peak(start, drivers, le, d, In())) && Fits(Peak(start, drivers, le, d, Out()))
  }

  ghost predicate Arranges(k: seq<Driver>, drivers: seq<Driver>, le: Order) {
    multiset(k) == multiset(drivers) && Sorted(k, le)
  }

  lemma PeakPermuted(start: int, a: seq<Driver>, b: seq<Driver>, le: Order, d: Driver, first: Driver -> bool)
    requires multiset(a) == multiset(b)
    ensures Peak(start, a, le, d, first) == Peak(start, b, le, d, first)
  {
    SumPermuted(a, b, Below(le, d));
    SumPermuted(a, b, Level(le, d, first));
  }

  /** A running balance lies between the peaks of the driver just applied. */
  lemma BetweenPeaks(start: int, k: seq<Driver>, le: Order, j: nat)
    requires TotalPreorder(le) && Sorted(k, le) && 0 < j <= |k|
    ensures Peak(start, k, le, k[j - 1], Out()) <= After(start, k, j) <= Peak(start, k, le, k[j - 1], In())
  {
    var d, before, after := k[j - 1], k[..j], k[j..];
    assert k == before + after;
    assert forall x | x in before :: le(x, d);
    assert forall x | x in after :: le(d, x);
    SumOfTwo(before, Amount(), Below(le, d), Level(le, d, Any()));
    SumAppend(before, after, Below(le, d));
    SumNothing(after, Below(le, d));
    SumAppend(before, after, Level(le, d, In()));
    SumAppend(before, after, Level(le, d, Out()));
    SumMonotone(before, Level(le, d, Any()), Level(le, d, In()));
    SumMonotone(before, Level(le, d, Out()), Level(le, d, Any()));
    NoneNegative(after, le, d);
  }

  lemma {:induction false} NoneNegative(s: seq<Driver>, le: Order, d: Driver)
    ensures SumBy(s, Level(le, d, In())) >= 0 && SumBy(s, Level(le, d, Out())) <= 0
  {
    if s != [] {
      NoneNegative(s[1..], le, d);
    }
  }

  // ----- the arrangement that reaches a peak -----

  /** The same order, the chosen ones first among those level with each other. */
  function Refined(le: Order, first: Driver -> bool): Order {
    (x: Driver, y: Driver) => le(x, y) && (le(y, x) ==> first(x) || !first(y))
  }

  lemma RefinedOrder(le: Order, first: Driver -> bool)
    requires TotalPreorder(le)
    ensures TotalPreorder(Refined(le, first))
  {
  }

  /** What is below d, or chosen and level with it. */
  function Early(le: Order, d: Driver, first: Driver -> bool): Driver -> bool {
    (x: Driver) => !le(d, x) || (le(x, d) && first(x))
  }

  lemma {:induction false} EarlyFirst(k: seq<Driver>, le: Order, d: Driver, first: Driver -> bool) returns (j: nat)
    requires TotalPreorder(le) && Sorted(k, Refined(le, first))
    ensures j <= |k| && (forall i | 0 <= i < j :: Early(le, d, first)(k[i]))
    ensures forall i | j <= i < |k| :: !Early(le, d, first)(k[i])
  {
    if k == [] || !Early(le, d, first)(k[0]) {
      return 0;
    }
    j := EarlyFirst(k[1..], le, d, first);
    j := j + 1;
  }

  /** Some arrangement comes to the peak. */
  lemma PeakReached(start: int, drivers: seq<Driver>, le: Order, d: Driver, first: Driver -> bool)
    returns (k: seq<Driver>, j: nat)
    requires TotalPreorder(le)
    ensures Arranges(k, drivers, le) && j <= |k| && After(start, k, j) == Peak(start, drivers, le, d, first)
  {
    var finer := Refined(le, first);
    RefinedOrder(le, first);
    k := Sort(drivers, finer);
    SortMultiset(drivers, finer);
    SortSorted(drivers, finer);
    j := EarlyFirst(k, le, d, first);
    PrefixIsPeak(start, k, le, d, first, j);
    PeakPermuted(start, k, drivers, le, d, first);
  }

  lemma PrefixIsPeak(start: int, k: seq<Driver>, le: Order, d: Driver, first: Driver -> bool, j: nat)
    requires TotalPreorder(le) && j <= |k|
    requires forall i | 0 <= i < j :: Early(le, d, first)(k[i])
    requires forall i | j <= i < |k| :: !Early(le, d, first)(k[i])
    ensures After(start, k, j) == Peak(start, k, le, d, first)
  {
    var before, after := k[..j], k[j..];
    assert k == before + after;
    SumOfTwo(before, Amount(), Below(le, d), Level(le, d, first));
    SumAppend(before, after, Below(le, d));
    SumAppend(before, after, Level(le, d, first));
    SumNothing(after, Below(le, d));
    SumNothing(after, Level(le, d, first));
  }

  /** Every arrangement can be added up exactly if the peaks fit. */
  lemma ArrangementsExactly(start: int64, drivers: seq<Driver>, le: Order)
    requires TotalPreorder(le)
    ensures (forall k | Arranges(k, drivers, le) :: NoOverflow(start, k)) <==> PeaksFit(start, drivers, le)
  {
    if PeaksFit(start, drivers, le) {
      forall k, j | Arranges(k, drivers, le) && 0 <= j <= |k|
        ensures Fits(After(start, k, j))
      {
        if j > 0 {
          var d := k[j - 1];
          assert d in multiset(k);
          BetweenPeaks(start, k, le, j);
          PeakPermuted(start, k, drivers, le, d, In());
          PeakPermuted(start, k, drivers, le, d, Out());
        }
      }
    } else {
      var d :| d in drivers && !(Fits(Peak(start, drivers, le, d, In())) && Fits(Peak(start, drivers, le, d, Out())));
      var first := if Fits(Peak(start, drivers, le, d, In())) then Out() else In();
      var k, j := PeakReached(start, drivers, le, d, first);
      assert !NoOverflow(start, k);
    }
  }

  // ----- orders of the drivers given -----

  /** What is kept of one driver. */
  function One(d: Driver, asOf: int, end: int): seq<Driver> {
    if Land(d, asOf).date > end then [] else [Land(d, asOf)]
  }

  lemma InWindowCons(d: Driver, rest: seq<Driver>, asOf: int, end: int)
    ensures InWindow([d] + rest, asOf, end) == One(d, asOf, end) + InWindow(rest, asOf, end)
  {
    assert ([d] + rest)[1..] == rest;
  }

  lemma {:induction false} InWindowAppend(a: seq<Driver>, b: seq<Driver>, asOf: int, end: int)
    ensures InWindow(a + b, asOf, end) == InWindow(a, asOf, end) + InWindow(b, asOf, end)
  {
    if a == [] {
      assert a + b == b;
    } else {
      var d, rest := a[0], a[1..];
      assert a == [d] + rest;
      Regroup([d], rest, b);
      InWindowAppend(rest, b, asOf, end);
      InWindowCons(d, rest, asOf, end);
      InWindowCons(d, rest + b, asOf, end);
      Regroup(One(d, asOf, end), InWindow(rest, asOf, end), InWindow(b, asOf, end));
    }
  }

  lemma InWindowMiddle(a: seq<Driver>, d: Driver, b: seq<Driver>, asOf: int, end: int)
    ensures InWindow(a + ([d] + b), asOf, end) ==
            InWindow(a, asOf, end) + (One(d, asOf, end) + InWindow(b, asOf, end))
    ensures multiset(InWindow(a + ([d] + b), asOf, end)) ==
            multiset(One(d, asOf, end)) + multiset(InWindow(a + b, asOf, end))
  {
    InWindowAppend(a, [d] + b, asOf, end);
    InWindowCons(d, b, asOf, end);
    InWindowAppend(a, b, asOf, end);
  }

  lemma {:induction false} InWindowPermuted(a: seq<Driver>, b: seq<Driver>, asOf: int, end: int)
    requires multiset(a) == multiset(b)
    ensures multiset(InWindow(a, asOf, end)) == multiset(InWindow(b, asOf, end))
    decreases |a|
  {
    if a == [] {
      assert |multiset(b)| == 0;
    } else {
      assert a[0] in multiset(b);
      var i :| 0 <= i < |b| && b[i] == a[0];
      var front, back := Middle(b, i);
      assert a == [a[0]] + a[1..];
      Cancel(a[0], multiset(a[1..]), multiset(front + back));
      InWindowPermuted(a[1..], front + back, asOf, end);
      InWindowMiddle(front, b[i], back, asOf, end);
      InWindowCons(a[0], a[1..], asOf, end);
    }
  }

  lemma SliceOfSum(a: seq<Driver>, b: seq<Driver>, i: nat)
    requires |a| <= i <= |a + b|
    ensures (a + b)[..i] == a + b[..i - |a|] && (a + b)[i..] == b[i - |a|..]
  {
  }

  /** Where the first i kept drivers end. */
  lemma {:induction false} Cut(b: seq<Driver>, asOf: int, end: int, i: nat)
    returns (front: seq<Driver>, back: seq<Driver>)
    requires i <= |InWindow(b, asOf, end)|
    ensures b == front + back
    ensures InWindow(front, asOf, end) == InWindow(b, asOf, end)[..i]
    ensures InWindow(back, asOf, end) == InWindow(b, asOf, end)[i..]
  {
    if i == 0 {
      return [], b;
    }
    var d, rest := b[0], b[1..];
    assert b == [d] + rest;
    InWindowCons(d, rest, asOf, end);
    SliceOfSum(One(d, asOf, end), InWindow(rest, asOf, end), i);
    front, back := Cut(rest, asOf, end, i - |One(d, asOf, end)|);
    InWindowCons(d, front, asOf, end);
    Regroup([d], front, back);
    front := [d] + front;
  }

  /** Whatever order the kept drivers are wanted in, some order of the given ones yields it. */
  lemma {:induction false} Rearrange(drivers: seq<Driver>, k: seq<Driver>, asOf: int, end: int) returns (b: seq<Driver>)
    requires multiset(k) == multiset(InWindow(drivers, asOf, end))
    ensures multiset(b) == multiset(drivers) && InWindow(b, asOf, end) == k
    decreases |drivers|, 1
  {
    if drivers == [] {
      assert |multiset(k)| == 0;
      return [];
    }
    var d, rest := drivers[0], drivers[1..];
    assert drivers == [d] + rest;
    InWindowCons(d, rest, asOf, end);
    if One(d, asOf, end) == [] {
      b := Rearrange(rest, k, asOf, end);
      InWindowCons(d, b, asOf, end);
      b := [d] + b;
    } else {
      b := InsertDriver(d, rest, k, asOf, end);
    }
  }

  lemma InsertDriver(d: Driver, rest: seq<Driver>, k: seq<Driver>, asOf: int, end: int) returns (b: seq<Driver>)
    requires Land(d, asOf).date <= end && multiset(k) == multiset{Land(d, asOf)} + multiset(InWindow(rest, asOf, end))
    ensures multiset(b) == multiset{d} + multiset(rest) && InWindow(b, asOf, end) == k
    decreases |rest| + 1, 0
  {
    assert Land(d, asOf) in multiset(k);
    var i :| 0 <= i < |k| && k[i] == Land(d, asOf);
    var early, late := Middle(k, i);
    Cancel(k[i], multiset(early + late), multiset(InWindow(rest, asOf, end)));
    var others := Rearrange(rest, early + late, asOf, end);
    SliceOfSum(early, late, i);
    var front, back := Cut(others, asOf, end, i);
    b := Placed(front, d, back, early, late, asOf, end);
  }

  lemma Placed(front: seq<Driver>, d: Driver, back: seq<Driver>, early: seq<Driver>, late: seq<Driver>,
               asOf: int, end: int)
    returns (b: seq<Driver>)
    requires Land(d, asOf).date <= end
    requires InWindow(front, asOf, end) == early + [] && InWindow(back, asOf, end) == late
    ensures multiset(b) == multiset{d} + multiset(front + back)
    ensures InWindow(b, asOf, end) == early + ([Land(d, asOf)] + late)
  {
    assert early + [] == early;
    InWindowMiddle(front, d, back, asOf, end);
    b := front + ([d] + back);
  }

  lemma PeaksSuffice(start: int64, drivers: seq<Driver>, asOf: int, end: int, b: seq<Driver>)
    requires PeaksFit(start, InWindow(drivers, asOf, end), DriverLe) && multiset(b) == multiset(drivers)
    ensures NoOverflow(start, Kept(b, asOf, end))
  {
    var kept := InWindow(drivers, asOf, end);
    DriverLeOrder();
    ArrangementsExactly(start, kept, DriverLe);
    InWindowPermuted(b, drivers, asOf, end);
    SortMultiset(InWindow(b, asOf, end), DriverLe);
    SortSorted(InWindow(b, asOf, end), DriverLe);
    assert Arranges(Kept(b, asOf, end), kept, DriverLe);
  }

  lemma PeaksNeeded(start: int64, drivers: seq<Driver>, asOf: int, end: int) returns (b: seq<Driver>)
    requires !PeaksFit(start, InWindow(drivers, asOf, end), DriverLe)
    ensures multiset(b) == multiset(drivers) && !NoOverflow(start, Kept(b, asOf, end))
  {
    var kept := InWindow(drivers, asOf, end);
    DriverLeOrder();
    ArrangementsExactly(start, kept, DriverLe);
    var k :| Arranges(k, kept, DriverLe) && !NoOverflow(start, k);
    b := Rearrange(drivers, k, asOf, end);
    SortOfSorted(k, DriverLe);
  }

  /** A projection succeeds for every order of its drivers exactly if the peaks of every day and label fit. */
  lemma AnyOrderExactly(start: int64, drivers: seq<Driver>, asOf: int, end: int)
    ensures (forall b | multiset(b) == multiset(drivers) :: NoOverflow(start, Kept(b, asOf, end)))
            <==> PeaksFit(start, InWindow(drivers, asOf, end), DriverLe)
  {
    if PeaksFit(start, InWindow(drivers, asOf, end), DriverLe) {
      forall b | multiset(b) == multiset(drivers)
        ensures NoOverflow(start, Kept(b, asOf, end))
      {
        PeaksSuffice(start, drivers, asOf, end, b);
      }
    } else {
      var b := PeaksNeeded(start, drivers, asOf, end);
    }
  }

  /** One order overflows on the way and the other does not. */
  lemma OrderDecides(name: string, day: int)
    ensures var up, down := Driver(name, day, MAX_INT64), Driver(name, day, -1);
            NoOverflow(1, Kept([down, up], day, day)) && !NoOverflow(1, Kept([up, down], day, day))
  {
    var up, down := Driver(name, day, MAX_INT64), Driver(name, day, -1);
    StringLeTotal(name, name);
    TwoKept(up, down, day);
    TwoKept(down, up, day);
    assert [up, down][..1] == [up] + [] && [down, up][..0] == [] && [down, up][..1] == [down] + [];
    assert [down, up][..2] == [down] + ([up] + []);
    SumCons(up, [], Amount());
    SumCons(down, [], Amount());
    SumCons(down, [up] + [], Amount());
    assert !Fits(After(1, [up, down], 1));
  }

  lemma TwoKept(a: Driver, b: Driver, day: int)
    requires a.date == day && b.date == day && a.name == b.name && StringLe(a.name, a.name)
    ensures Kept([a, b], day, day) == [a, b]
  {
    InWindowCons(b, [], day, day);
    InWindowCons(a, [b] + [], day, day);
    assert [a, b] == [a] + ([b] + []);
    SortOfSorted([a, b], DriverLe);
  }
}
