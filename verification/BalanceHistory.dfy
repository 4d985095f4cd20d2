/**
 Two ways to draw one account's end-of-day balances: the sweep of
 internal/accountflow/accountflow.go and the prepared prefix-sum index of
 internal/accountview/details.go.
 */
module BalanceHistory {
  import opened Money
  import opened Sequences

  const DAY: int := 86_400_000_000_000        // nanoseconds

  datatype Transaction = Transaction(id: string, accountId: string, date: int, amount: int64)

  datatype Account = Account(id: string, opening: int64)

  // ----- what both should compute -----

  predicate Own(account: Account, t: Transaction) { t.accountId == account.id }

  function OwnOnly(account: Account, all: seq<Transaction>): seq<Transaction> {
    if all == [] then []
    else (if Own(account, all[0]) then [all[0]] else []) + OwnOnly(account, all[1..])
  }

  /** The amounts dated before `end`. */
  function AmountBefore(end: int): Transaction -> int {
    (t: Transaction) => if t.date < end then t.amount else 0
  }

  function OwnAmountBefore(account: Account, end: int): Transaction -> int {
    (t: Transaction) => if Own(account, t) && t.date < end then t.amount else 0
  }

  /** The exact balance: the opening balance and every own transaction dated before `end`. */
  function BalanceBefore(account: Account, all: seq<Transaction>, end: int): int {
    account.opening + SumBy(all, OwnAmountBefore(account, end))
  }

  /** The first instant after the d-th day of the window of `days` days that ends on `asOfDay`. */
  function DayEnd(asOfDay: int, days: int, d: int): int { (asOfDay - (days - 1) + d + 1) * DAY }

  /** A transaction counts on that day exactly if its own day is not later. */
  lemma DayCounts(asOfDay: int, days: int, d: int, date: int)
    ensures date < DayEnd(asOfDay, days, d) <==> date / DAY <= asOfDay - (days - 1 - d)
  {
    var day, rest := date / DAY, date % DAY;
    assert date == DAY * day + rest;
  }

  ghost predicate IsSeries(account: Account, all: seq<Transaction>, asOfDay: int, days: int, out: seq<int64>) {
    && |out| == (if days <= 0 then 0 else days)
    && forall d | 0 <= d < |out| :: out[d] == Wrap(BalanceBefore(account, all, DayEnd(asOfDay, days, d)))
  }

  // ----- date order -----

  predicate DateLe(a: Transaction, b: Transaction) {
    a.date < b.date || (a.date == b.date && StringLe(a.id, b.id))
  }

  lemma DateLeOrder()
    ensures TotalPreorder(DateLe)
  {
    forall x: Transaction, y: Transaction
      ensures DateLe(x, y) || DateLe(y, x)
    {
      StringLeTotal(x.id, y.id);
    }
    forall x: Transaction, y: Transaction, z: Transaction | DateLe(x, y) && DateLe(y, z)
      ensures DateLe(x, z)
    {
      if x.date == y.date == z.date {
        StringLeTransitive(x.id, y.id, z.id);
      }
    }
  }

  function Ordered(account: Account, all: seq<Transaction>): seq<Transaction> {
    Sort(OwnOnly(account, all), DateLe)
  }

  lemma OrderedByDate(account: Account, all: seq<Transaction>)
    ensures var s := Ordered(account, all); forall i, j | 0 <= i < j < |s| :: s[i].date <= s[j].date
  {
    DateLeOrder();
    SortSorted(OwnOnly(account, all), DateLe);
  }

  function Amount(): Transaction -> int { (t: Transaction) => t.amount }

  lemma {:induction false} OwnSum(account: Account, all: seq<Transaction>, end: int)
    ensures SumBy(OwnOnly(account, all), AmountBefore(end)) == SumBy(all, OwnAmountBefore(account, end))
  {
    if all != [] {
      OwnSum(account, all[1..], end);
      var head := if Own(account, all[0]) then [all[0]] else [];
      SumAppend(head, OwnOnly(account, all[1..]), AmountBefore(end));
      assert SumBy(head, AmountBefore(end)) == OwnAmountBefore(account, end)(all[0]) by {
        if head != [] {
          assert head[1..] == [];
        }
      }
    }
  }

  lemma {:induction false} SumAllZero(s: seq<Transaction>, end: int)
    requires forall i | 0 <= i < |s| :: s[i].date >= end
    ensures SumBy(s, AmountBefore(end)) == 0
  {
    if s != [] {
      SumAllZero(s[1..], end);
    }
  }

  /** In date order, what is dated before `end` is a prefix. */
  lemma PrefixIsBefore(account: Account, all: seq<Transaction>, end: int, k: nat)
    requires var s := Ordered(account, all);
             && k <= |s| && (forall i | 0 <= i < k :: s[i].date < end)
             && (k < |s| ==> s[k].date >= end)
    ensures account.opening + SumBy(Ordered(account, all)[..k], Amount()) == BalanceBefore(account, all, end)
  {
    var s := Ordered(account, all);
    OrderedByDate(account, all);
    SortSum(OwnOnly(account, all), DateLe, AmountBefore(end));
    OwnSum(account, all, end);
    assert s == s[..k] + s[k..];
    SumAppend(s[..k], s[k..], AmountBefore(end));
    SumAgree(s[..k], Amount(), AmountBefore(end));
    forall i | 0 <= i < |s[k..]|
      ensures s[k..][i].date >= end
    {
      assert s[k..][i] == s[k + i];
    }
    SumAllZero(s[k..], end);
  }

  lemma SumSnoc(s: seq<Transaction>, i: nat)
    requires i < |s|
    ensures SumBy(s[..i + 1], Amount()) == SumBy(s[..i], Amount()) + s[i].amount
  {
    assert s[..i + 1] == s[..i] + [s[i]];
    SumAppend(s[..i], [s[i]], Amount());
    assert [s[i]][1..] == [];
  }

  // ----- the sweep -----

  method CollectOwn(account: Account, all: seq<Transaction>) returns (mine: seq<Transaction>)
    ensures mine == OwnOnly(account, all)
  {
    mine := [];
    for i := 0 to |all|
      invariant mine + OwnOnly(account, all[i..]) == OwnOnly(account, all)
    {
      assert all[i..][1..] == all[i + 1..];
      if all[i].accountId == account.id {
        mine := mine + [all[i]];
      }
    }
  }

  /** The wrapped running balance after the first k of `points`. */
  ghost function Running(opening: int64, points: seq<Transaction>, k: nat): int64
    requires k <= |points|
  {
    Wrap(opening + SumBy(points[..k], Amount()))
  }

  lemma RunningStep(opening: int64, points: seq<Transaction>, k: nat)
    requires k < |points|
    ensures Running(opening, points, k + 1) == Wrap(Running(opening, points, k) as int + points[k].amount)
  {
    SumSnoc(points, k);
    WrapAdd(opening + SumBy(points[..k], Amount()), points[k].amount);
  }

  /** Apply the transactions dated before `end`. */
  method Advance(opening: int64, points: seq<Transaction>, end: int, from: nat, balance: int64)
    returns (ti: nat, running: int64)
    requires from <= |points| && balance == Running(opening, points, from)
    requires forall i | 0 <= i < from :: points[i].date < end
    ensures ti <= |points| && running == Running(opening, points, ti)
    ensures forall i | 0 <= i < ti :: points[i].date < end
    ensures ti < |points| ==> points[ti].date >= end
  {
    ti, running := from, balance;
    while ti < |points| && points[ti].date < end
      invariant ti <= |points| && running == Running(opening, points, ti)
      invariant forall i | 0 <= i < ti :: points[i].date < end
    {
      RunningStep(opening, points, ti);
      running := Wrap(running as int + points[ti].amount);
      ti := ti + 1;
    }
  }

  /** accountflow.BalanceSeries */
  method BalanceSeries(account: Account, all: seq<Transaction>, asOfDay: int, days: int) returns (series: seq<int64>)
    ensures IsSeries(account, all, asOfDay, days, series)
  {
    if days <= 0 {
      return [];
    }
    var firstDay := asOfDay - (days - 1);
    var mine := CollectOwn(account, all);
    mine := Sort(mine, DateLe);
    var running: int64 := account.opening;
    var ti := 0;
    series := [];
    assert SumBy(mine[..0], Amount()) == 0;
    for d := 0 to days
      invariant |series| == d
      invariant 0 <= ti <= |mine| && forall i | 0 <= i < ti :: mine[i].date < (firstDay + d) * DAY
      invariant running == Running(account.opening, mine, ti)
      invariant forall e | 0 <= e < d :: series[e] == Wrap(BalanceBefore(account, all, DayEnd(asOfDay, days, e)))
    {
      var dayEnd := (firstDay + d + 1) * DAY;
      ti, running := Advance(account.opening, mine, dayEnd, ti, running);
      PrefixIsBefore(account, all, dayEnd, ti);
      assert dayEnd == DayEnd(asOfDay, days, d);
      series := series + [running];
    }
  }

  // ----- the index -----

  /** sort.Search: the first point dated at or after `end`. */
  method Search(points: seq<Transaction>, end: int) returns (k: nat)
    requires forall i, j | 0 <= i < j < |points| :: points[i].date <= points[j].date
    ensures k <= |points|
    ensures forall i | 0 <= i < k :: points[i].date < end
    ensures forall i | k <= i < |points| :: points[i].date >= end
  {
    var lo, hi := 0, |points|;
    while lo < hi
      invariant 0 <= lo <= hi <= |points|
      invariant forall i | 0 <= i < lo :: points[i].date < end
      invariant forall i | hi <= i < |points| :: points[i].date >= end
    {
      var mid := (lo + hi) / 2;
      if points[mid].date < end {
        lo := mid + 1;
      } else {
        hi := mid;
      }
    }
    k := lo;
  }

  /** Some running balance, in date order, leaves 64 bits. */
  ghost predicate Overflows(account: Account, points: seq<Transaction>, n: nat)
    requires n <= |points|
  {
    exists i :: 0 <= i <= n && !Fits(account.opening + SumBy(points[..i], Amount()))
  }

  method PrefixSums(account: Account, points: seq<Transaction>) returns (sums: seq<int64>, overflowed: bool)
    ensures |sums| == |points| + 1
    ensures forall i | 0 <= i < |sums| :: sums[i] == Running(account.opening, points, i)
    ensures overflowed <==> Overflows(account, points, |points|)
  {
    sums, overflowed := [account.opening], false;
    assert SumBy(points[..0], Amount()) == 0;
    for i := 0 to |points|
      invariant |sums| == i + 1
      invariant forall j | 0 <= j <= i :: sums[j] == Running(account.opening, points, j)
      invariant overflowed <==> Overflows(account, points, i)
    {
      RunningStep(account.opening, points, i);
      SumSnoc(points, i);
      var next := Add(sums[i], points[i].amount);
      OverflowStep(account, points, i);
      if next.None? {
        overflowed := true;
        sums := sums + [Wrap(sums[i] as int + points[i].amount)];
      } else {
        sums := sums + [next.value];
      }
    }
  }

  /** The first overflow is seen by the checked addition, whose operands are exact until then. */
  lemma OverflowStep(account: Account, points: seq<Transaction>, i: nat)
    requires i < |points|
    ensures Overflows(account, points, i) ==> Overflows(account, points, i + 1)
    ensures !Overflows(account, points, i) ==>
              (Overflows(account, points, i + 1) <==> Add(Running(account.opening, points, i), points[i].amount).None?)
  {
    SumSnoc(points, i);
    assert Overflows(account, points, i + 1) <==>
             Overflows(account, points, i) || !Fits(account.opening + SumBy(points[..i + 1], Amount()));
    if !Overflows(account, points, i) {
      assert Fits(account.opening + SumBy(points[..i], Amount()));
    }
  }

  class History {
    ghost const account: Account
    ghost const all: seq<Transaction>
    var points: seq<Transaction>
    var sums: seq<int64>
    var overflowed: bool

    ghost predicate Valid()
      reads this
    {
      && points == Ordered(account, all)
      && |sums| == |points| + 1
      && (forall i | 0 <= i < |sums| :: sums[i] == Running(account.opening, points, i))
      && (overflowed <==> Overflows(account, points, |points|))
    }

    /** PrepareHistory */
    constructor (account: Account, all: seq<Transaction>)
      ensures Valid() && this.account == account && this.all == all
    {
      this.account, this.all := account, all;
      var mine := CollectOwn(account, all);
      var ordered := Sort(mine, DateLe);
      var prefix, over := PrefixSums(account, ordered);
      points, sums, overflowed := ordered, prefix, over;
    }

    /** Series: the index gives the series of the sweep, and the exact balances unless it overflowed. */
    method Series(asOfDay: int, days: int) returns (out: seq<int64>)
      requires Valid()
      ensures IsSeries(account, all, asOfDay, days, out)
      ensures !overflowed ==>
                forall d | 0 <= d < |out| :: out[d] == BalanceBefore(account, all, DayEnd(asOfDay, days, d))
    {
      if days <= 0 {
        return [];
      }
      var first := asOfDay - (days - 1);
      OrderedByDate(account, all);
      out := [];
      for d := 0 to days
        invariant |out| == d
        invariant forall e | 0 <= e < d :: out[e] == Wrap(BalanceBefore(account, all, DayEnd(asOfDay, days, e)))
        invariant !overflowed ==>
                    forall e | 0 <= e < d :: out[e] == BalanceBefore(account, all, DayEnd(asOfDay, days, e))
      {
        var end := (first + d + 1) * DAY;
        var k := Search(points, end);
        PrefixIsBefore(account, all, end, k);
        out := out + [sums[k]];
      }
    }
  }

  /** The two readings of the same account agree point for point. */
  method SeriesAgree(account: Account, all: seq<Transaction>, asOfDay: int, days: int)
    returns (index: seq<int64>, sweep: seq<int64>)
    ensures index == sweep
    ensures IsSeries(account, all, asOfDay, days, sweep)
  {
    var history := new History(account, all);
    index := history.Series(asOfDay, days);
    sweep := BalanceSeries(account, all, asOfDay, days);
  }
}
