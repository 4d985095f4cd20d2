/**
 The age-of-money figure of internal/agemoney/agemoney.go.

 Income is a queue of lots consumed oldest first.  The specification counts
 single units of money instead: the k-th unit ever matched is aged against the
 k-th unit ever earned.
 */
module AgeOfMoney {
  import opened Money
  import opened WeightedSums

  const DEFAULT_WINDOW := 10
  const DEFAULT_MAX_AGE_DAYS: int := 365
  const DAY: int := 86_400_000_000_000        // nanoseconds

  /** One movement of money: an instant in nanoseconds, and a signed amount. */
  datatype Flow = Flow(date: int, amount: int64)

  datatype Opts = Opts(window: int, maxAgeDays: int64)

  datatype Lot = Lot(date: int, remaining: int64)

  datatype Spend = Spend(date: int, matched: nat, weighted: WeightedAmount, unmatched: bool)

  datatype Result = Result(days: int, ready: bool, overflow: bool, totalAgedMinor: int,
                           windowStart: int, windowEnd: int, windowCount: nat, capped: bool)

  /** time.Time.Sub, which saturates, and the division that truncates toward zero. */
  function WholeDays(spent: int, earned: int): int {
    var gap := spent - earned;
    var d := if gap > MAX_INT64 then MAX_INT64 else if gap < MIN_INT64 then MIN_INT64 else gap;
    if d >= 0 then d / DAY else -((-d) / DAY)
  }

  function Age(spent: int, earned: int, maxAge: int64): (r: int64)
    requires maxAge > 0
    ensures 0 <= r <= maxAge
  {
    var age := WholeDays(spent, earned);
    if age < 0 then 0 else if age > maxAge then maxAge else age
  }

  // ----- the specification, unit by unit -----

  function Repeat(x: int, n: nat): (r: seq<int>)
    ensures |r| == n && forall i | 0 <= i < n :: r[i] == x
  {
    seq(n, _ => x)
  }

  /** The date of every unit of income, in the order it was earned. */
  ghost function Earned(flows: seq<Flow>): seq<int> {
    if flows == [] then []
    else
      var f := flows[|flows| - 1];
      Earned(flows[..|flows| - 1]) + Repeat(f.date, if f.amount > 0 then f.amount else 0)
  }

  function Need(f: Flow): nat {
    var a: int := f.amount;
    if a < 0 then -a else 0
  }

  /** How many units have been matched after these flows. */
  ghost function Matched(flows: seq<Flow>): (m: nat)
    ensures m <= |Earned(flows)|
    decreases |flows|, 0
  {
    if flows == [] then 0
    else
      var before := flows[..|flows| - 1];
      Matched(before) + Take(before, flows[|flows| - 1])
  }

  /** How many units of `f` are matched when it follows `before`. */
  ghost function Take(before: seq<Flow>, f: Flow): nat
    decreases |before|, 1
  {
    var left := |Earned(before)| - Matched(before);
    if Need(f) < left then Need(f) else left
  }

  ghost function TotalAge(units: seq<int>, spent: int, maxAge: int64): int
    requires maxAge > 0
  {
    if units == [] then 0 else Age(spent, units[0], maxAge) + TotalAge(units[1..], spent, maxAge)
  }

  /** An outflow as it should be recorded: its matched units are the next ones of all income. */
  ghost predicate Records(sp: Spend, before: seq<Flow>, f: Flow, maxAge: int64)
    requires maxAge > 0
  {
    var from, take := Matched(before), Take(before, f);
    && sp.date == f.date && sp.matched == take
    && (sp.unmatched <==> take < Need(f))
    && sp.weighted.Valid()
    && sp.weighted.Value() == TotalAge(Earned(before)[from..from + take], f.date, maxAge)
  }

  /** The records of all outflows, in order. */
  ghost predicate AllRecorded(spends: seq<Spend>, flows: seq<Flow>, maxAge: int64)
    requires maxAge > 0
  {
    if flows == [] then spends == []
    else
      var before, f := flows[..|flows| - 1], flows[|flows| - 1];
      if f.amount < 0 then
        && spends != []
        && AllRecorded(spends[..|spends| - 1], before, maxAge)
        && Records(spends[|spends| - 1], before, f, maxAge)
      else AllRecorded(spends, before, maxAge)
  }

  lemma {:induction false} TotalAgeAppend(a: seq<int>, b: seq<int>, spent: int, maxAge: int64)
    requires maxAge > 0
    ensures TotalAge(a + b, spent, maxAge) == TotalAge(a, spent, maxAge) + TotalAge(b, spent, maxAge)
  {
    if a == [] {
      assert a + b == b;
    } else {
      assert (a + b)[1..] == a[1..] + b;
      TotalAgeAppend(a[1..], b, spent, maxAge);
    }
  }

  lemma {:induction false} TotalAgeRepeat(x: int, n: nat, spent: int, maxAge: int64)
    requires maxAge > 0
    ensures TotalAge(Repeat(x, n), spent, maxAge) == n * Age(spent, x, maxAge)
  {
    if n > 0 {
      assert Repeat(x, n)[1..] == Repeat(x, n - 1);
      TotalAgeRepeat(x, n - 1, spent, maxAge);
      var age := Age(spent, x, maxAge);
      assert n * age == age + (n - 1) * age;
    }
  }

  lemma {:induction false} TotalAgeBound(units: seq<int>, spent: int, maxAge: int64)
    requires maxAge > 0
    ensures 0 <= TotalAge(units, spent, maxAge) <= |units| * maxAge
  {
    if units != [] {
      TotalAgeBound(units[1..], spent, maxAge);
      assert |units| * maxAge == maxAge + (|units| - 1) * maxAge;
    }
  }

  // ----- the queue of lots -----

  ghost function Queue(lots: seq<Lot>): seq<int> {
    if lots == [] then []
    else Repeat(lots[0].date, if lots[0].remaining > 0 then lots[0].remaining else 0) + Queue(lots[1..])
  }

  ghost predicate Consumed(lots: seq<Lot>, head: nat) {
    && head <= |lots|
    && (forall i | 0 <= i < head :: lots[i].remaining == 0)
    && (forall i | head <= i < |lots| :: lots[i].remaining > 0)
  }

  /** The lots as they were earned. */
  ghost function Lots(flows: seq<Flow>): seq<Lot> {
    if flows == [] then []
    else
      var f := flows[|flows| - 1];
      Lots(flows[..|flows| - 1]) + if f.amount > 0 then [Lot(f.date, f.amount)] else []
  }

  /** Same lots with some of them drawn down: those past the head not at all. */
  ghost predicate DrawnFrom(lots: seq<Lot>, head: nat, original: seq<Lot>) {
    && |lots| == |original|
    && (forall i | 0 <= i < |lots| :: lots[i].date == original[i].date && lots[i].remaining <= original[i].remaining)
    && (forall i | head < i < |lots| :: lots[i] == original[i])
  }

  lemma {:induction false} QueueAppend(a: seq<Lot>, b: seq<Lot>)
    ensures Queue(a + b) == Queue(a) + Queue(b)
  {
    if a == [] {
      assert a + b == b;
    } else {
      assert (a + b)[1..] == a[1..] + b;
      QueueAppend(a[1..], b);
    }
  }

  /** Taking part of the first lot takes that many units off the front of the queue. */
  lemma QueueTake(lots: seq<Lot>, head: nat, take: int64)
    requires head < |lots| && 0 < take <= lots[head].remaining
    ensures var rest := lots[head := Lot(lots[head].date, lots[head].remaining - take)];
            var q := Queue(lots[head..]);
            && take <= |q| && q[..take] == Repeat(lots[head].date, take)
            && Queue(rest[head..]) == q[take..]
            && (take == lots[head].remaining ==> Queue(rest[head + 1..]) == q[take..])
  {
    var l := lots[head];
    var rest := lots[head := Lot(l.date, l.remaining - take)];
    assert lots[head..][1..] == lots[head + 1..];
    assert rest[head..][1..] == lots[head + 1..] == rest[head + 1..];
    var tail := Queue(lots[head + 1..]);
    var q := Queue(lots[head..]);
    assert q == Repeat(l.date, l.remaining) + tail;
    assert Queue(rest[head..]) == Repeat(l.date, l.remaining - take) + tail;
    assert q[take..] == Repeat(l.date, l.remaining - take) + tail;
  }

  lemma TakeStep(q: seq<int>, matched: nat, take: nat, earned: int, spent: int, maxAge: int64)
    requires maxAge > 0 && matched + take <= |q| && q[matched..][..take] == Repeat(earned, take)
    ensures q[matched..][take..] == q[matched + take..]
    ensures TotalAge(q[..matched + take], spent, maxAge) ==
            TotalAge(q[..matched], spent, maxAge) + take * Age(spent, earned, maxAge)
  {
    assert q[..matched + take] == q[..matched] + q[matched..][..take];
    TotalAgeAppend(q[..matched], Repeat(earned, take), spent, maxAge);
    TotalAgeRepeat(earned, take, spent, maxAge);
  }

  /** `matched` units of the queue `q` have been taken, and they aged to `aged`. */
  ghost predicate Consuming(lots0: seq<Lot>, q: seq<int>, lots: seq<Lot>, head: nat, matched: nat, aged: int,
                            spent: int, maxAge: int64)
    requires maxAge > 0
  {
    && Consumed(lots, head) && DrawnFrom(lots, head, lots0)
    && matched <= |q| && Queue(lots[head..]) == q[matched..]
    && aged == TotalAge(q[..matched], spent, maxAge)
  }

  /** Take what is needed, or all there is, from the oldest lot. */
  method TakeOldest(ghost lots0: seq<Lot>, ghost q: seq<int>, lots: seq<Lot>, head: nat, ghost matched: nat,
                    weighted: Accumulator, spent: int, maxAge: int64, need: nat)
    returns (take: nat, rest: seq<Lot>, next: nat)
    requires maxAge > 0 && need > 0 && head < |lots| && weighted.Valid()
    requires Consuming(lots0, q, lots, head, matched, weighted.Value(), spent, maxAge)
    modifies weighted
    ensures 0 < take <= need && weighted.Valid()
    ensures Consuming(lots0, q, rest, next, matched + take, weighted.Value(), spent, maxAge)
  {
    var l := lots[head];
    take := l.remaining;
    if take > need {
      take := need;
    }
    var age := Age(spent, l.date, maxAge);
    QueueTake(lots, head, take);
    TakeStep(q, matched, take, l.date, spent, maxAge);
    weighted.AddProduct(take, age);
    rest := lots[head := Lot(l.date, l.remaining - take)];
    next := if rest[head].remaining == 0 then head + 1 else head;
  }

  /** One outflow: consume from the oldest lots, ageing every unit taken. */
  method ConsumeLots(lots0: seq<Lot>, head0: nat, f: Flow, maxAge: int64)
    returns (lots: seq<Lot>, head: nat, sp: Spend)
    requires maxAge > 0 && f.amount < 0 && Consumed(lots0, head0)
    ensures sp.date == f.date && (sp.unmatched <==> sp.matched < Need(f)) && sp.weighted.Valid()
    ensures sp.matched == if Need(f) < |Queue(lots0[head0..])| then Need(f) else |Queue(lots0[head0..])|
    ensures Consuming(lots0, Queue(lots0[head0..]), lots, head, sp.matched, sp.weighted.Value(), f.date, maxAge)
  {
    lots, head := lots0, head0;
    var need: nat := Need(f);
    var matched: nat := 0;
    var weighted := new Accumulator();
    ghost var q := Queue(lots0[head0..]);
    assert q[..0] == [] && q[0..] == q;
    while need > 0 && head < |lots|
      invariant matched + need == Need(f) && weighted.Valid()
      invariant Consuming(lots0, q, lots, head, matched, weighted.Value(), f.date, maxAge)
      decreases need
    {
      var take;
      take, lots, head := TakeOldest(lots0, q, lots, head, matched, weighted, f.date, maxAge, need);
      matched := matched + take;
      need := need - take;
    }
    if need > 0 {
      assert lots[head..] == [];
    }
    sp := Spend(f.date, matched, weighted.Snapshot(), need > 0);
  }

  // ----- all flows -----

  /** The lots hold exactly the income not yet matched, in order. */
  ghost predicate Ledger(flows: seq<Flow>, lots: seq<Lot>, head: nat) {
    && Consumed(lots, head) && DrawnFrom(lots, head, Lots(flows))
    && Queue(lots[head..]) == Earned(flows)[Matched(flows)..]
  }

  lemma QueueSnoc(lots: seq<Lot>, head: nat, lot: Lot)
    requires head <= |lots| && lot.remaining > 0
    ensures Queue((lots + [lot])[head..]) == Queue(lots[head..]) + Repeat(lot.date, lot.remaining)
  {
    assert (lots + [lot])[head..] == lots[head..] + [lot];
    QueueAppend(lots[head..], [lot]);
    assert Queue([lot]) == Repeat(lot.date, lot.remaining) + Queue([]);
  }

  lemma EarnStep(before: seq<Flow>, f: Flow, lots: seq<Lot>, head: nat)
    requires f.amount > 0 && Ledger(before, lots, head)
    ensures Ledger(before + [f], lots + [Lot(f.date, f.amount)], head)
  {
    var lot := Lot(f.date, f.amount);
    var flows, more := before + [f], lots + [lot];
    assert flows[..|before|] == before;
    assert Lots(flows) == Lots(before) + [lot];
    assert Queue(more[head..]) == Earned(flows)[Matched(flows)..] by {
      QueueSnoc(lots, head, lot);
      assert Earned(flows) == Earned(before) + Repeat(f.date, f.amount);
      assert Matched(flows) == Matched(before);
    }
  }

  lemma IdleStep(before: seq<Flow>, f: Flow, lots: seq<Lot>, head: nat)
    requires f.amount == 0 && Ledger(before, lots, head)
    ensures Ledger(before + [f], lots, head)
  {
    assert (before + [f])[..|before|] == before;
    assert Earned(before + [f]) == Earned(before);
  }

  lemma OutflowSnoc(before: seq<Flow>, f: Flow)
    requires f.amount < 0
    ensures Earned(before + [f]) == Earned(before) && Lots(before + [f]) == Lots(before)
    ensures Matched(before + [f]) == Matched(before) + Take(before, f)
  {
    assert (before + [f])[..|before|] == before;
  }

  lemma DrawnTwice(lots0: seq<Lot>, head0: nat, lots: seq<Lot>, head: nat, original: seq<Lot>)
    requires Consumed(lots0, head0) && DrawnFrom(lots0, head0, original)
    requires Consumed(lots, head) && DrawnFrom(lots, head, lots0)
    ensures DrawnFrom(lots, head, original)
  {
    assert head < |lots| ==> lots[head].remaining <= lots0[head].remaining;
  }

  lemma SpendStep(before: seq<Flow>, f: Flow, lots0: seq<Lot>, head0: nat, lots: seq<Lot>, head: nat, sp: Spend,
                  maxAge: int64)
    requires maxAge > 0 && f.amount < 0 && Ledger(before, lots0, head0)
    requires sp.date == f.date && (sp.unmatched <==> sp.matched < Need(f)) && sp.weighted.Valid()
    requires var q := Queue(lots0[head0..]);
             && sp.matched == (if Need(f) < |q| then Need(f) else |q|)
             && Consuming(lots0, q, lots, head, sp.matched, sp.weighted.Value(), f.date, maxAge)
    ensures Records(sp, before, f, maxAge) && Ledger(before + [f], lots, head)
  {
    OutflowSnoc(before, f);
    DrawnTwice(lots0, head0, lots, head, Lots(before));
    var from, units := Matched(before), Earned(before);
    assert units[from..][..sp.matched] == units[from..from + sp.matched];
    assert units[from..][sp.matched..] == units[from + sp.matched..];
  }

  lemma RecordSpend(spends: seq<Spend>, before: seq<Flow>, f: Flow, sp: Spend, maxAge: int64)
    requires maxAge > 0 && AllRecorded(spends, before, maxAge) && f.amount < 0 && Records(sp, before, f, maxAge)
    ensures AllRecorded(spends + [sp], before + [f], maxAge)
  {
    assert (before + [f])[..|before|] == before;
    assert (spends + [sp])[..|spends|] == spends;
  }

  lemma RecordNothing(spends: seq<Spend>, before: seq<Flow>, f: Flow, maxAge: int64)
    requires maxAge > 0 && AllRecorded(spends, before, maxAge) && f.amount >= 0
    ensures AllRecorded(spends, before + [f], maxAge)
  {
    assert (before + [f])[..|before|] == before;
  }

  method SpendFlow(ghost before: seq<Flow>, f: Flow, lots0: seq<Lot>, head0: nat, maxAge: int64)
    returns (lots: seq<Lot>, head: nat, sp: Spend)
    requires maxAge > 0 && f.amount < 0 && Ledger(before, lots0, head0)
    ensures Records(sp, before, f, maxAge) && Ledger(before + [f], lots, head)
  {
    lots, head, sp := ConsumeLots(lots0, head0, f, maxAge);
    SpendStep(before, f, lots0, head0, lots, head, sp, maxAge);
  }

  lemma LedgerBalances(flows: seq<Flow>, lots: seq<Lot>, head: nat)
    requires Ledger(flows, lots, head)
    ensures |Earned(flows)| == |Queue(lots[head..])| + Matched(flows)
  {
  }

  /** The main loop of Compute. */
  method MatchFlows(flows: seq<Flow>, maxAge: int64) returns (lots: seq<Lot>, head: nat, spends: seq<Spend>)
    requires maxAge > 0
    ensures Ledger(flows, lots, head)
    ensures AllRecorded(spends, flows, maxAge)
    ensures |Earned(flows)| == |Queue(lots[head..])| + Matched(flows)
  {
    lots, head, spends := [], 0, [];
    assert Ledger([], [], 0);
    for i := 0 to |flows|
      invariant Ledger(flows[..i], lots, head)
      invariant AllRecorded(spends, flows[..i], maxAge)
    {
      var f := flows[i];
      assert flows[..i + 1] == flows[..i] + [f];
      if f.amount >= 0 {
        RecordNothing(spends, flows[..i], f, maxAge);
      }
      if f.amount > 0 {
        EarnStep(flows[..i], f, lots, head);
        lots := lots + [Lot(f.date, f.amount)];
      } else if f.amount < 0 {
        var sp;
        lots, head, sp := SpendFlow(flows[..i], f, lots, head, maxAge);
        RecordSpend(spends, flows[..i], f, sp, maxAge);
        spends := spends + [sp];
      } else {
        IdleStep(flows[..i], f, lots, head);
      }
    }
    assert flows[..|flows|] == flows;
    LedgerBalances(flows, lots, head);
  }

  // ----- the trailing window -----

  ghost function SumMatched(spends: seq<Spend>): nat {
    if spends == [] then 0 else SumMatched(spends[..|spends| - 1]) + spends[|spends| - 1].matched
  }

  ghost function SumWeighted(spends: seq<Spend>): int {
    if spends == [] then 0 else SumWeighted(spends[..|spends| - 1]) + spends[|spends| - 1].weighted.Value()
  }

  function Or(given: int64, fallback: int64): int64 { if given <= 0 then fallback else given }

  function Trailing(spends: seq<Spend>, window: int): seq<Spend>
    requires window > 0
  {
    if |spends| <= window then spends else spends[|spends| - window..]
  }

  /** The last records: `window` of them, or all if there are fewer. */
  lemma TrailingIsLast(before: seq<Spend>, last: seq<Spend>, window: int)
    requires window > 0 && |last| <= window && (|last| < window ==> before == [])
    ensures Trailing(before + last, window) == last
  {
  }

  /** The figure the records support: over the trailing window, in exact arithmetic. */
  ghost predicate Reports(res: Result, spends: seq<Spend>, window: int, maxAge: int64)
    requires window > 0 && maxAge > 0
  {
    var win := Trailing(spends, window);
    var total, weighted := SumMatched(win), SumWeighted(win);
    var known := (forall s | s in win :: !s.unmatched) && 0 < total <= MAX_INT64;
    && (res.ready <==> known)
    && (res.overflow <==> total > MAX_INT64)
    && res.totalAgedMinor == (if total <= MAX_INT64 then total else 0)
    && res.windowCount == |win|
    && (win == [] ==> res.windowStart == 0 && res.windowEnd == 0)
    && (win != [] ==> res.windowStart == win[0].date && res.windowEnd == win[|win| - 1].date)
    && (known ==> weighted >= 0 && res.days == RoundDiv(weighted, total) && 0 <= res.days <= maxAge)
    && (!known ==> res.days == 0)
    && (res.capped <==> known && res.days == maxAge)
  }

  /** A dollar-weighted mean of clamped ages is itself clamped, and so is its rounding. */
  lemma RoundBound(weighted: nat, total: nat, maxAge: nat)
    requires total > 0 && weighted <= total * maxAge
    ensures RoundDiv(weighted, total) <= maxAge
  {
    var q := RoundDiv(weighted, total);
    assert total * q <= weighted + total / 2;
    assert total * (maxAge + 1) == total * maxAge + total;
    if q > maxAge {
      MulMonotone(total, maxAge + 1, q);
    }
  }

  /** No record ages more than `maxAge` per unit. */
  ghost predicate Bounded(spends: seq<Spend>, maxAge: int64) {
    forall s | s in spends :: s.weighted.Valid() && 0 <= s.weighted.Value() <= s.matched * maxAge
  }

  lemma {:induction false} RecordsBounded(spends: seq<Spend>, flows: seq<Flow>, maxAge: int64)
    requires maxAge > 0 && AllRecorded(spends, flows, maxAge)
    ensures Bounded(spends, maxAge)
    decreases |flows|
  {
    if flows != [] {
      var before, f := flows[..|flows| - 1], flows[|flows| - 1];
      if f.amount < 0 {
        RecordsBounded(spends[..|spends| - 1], before, maxAge);
        var sp := spends[|spends| - 1];
        var from := Matched(before);
        TotalAgeBound(Earned(before)[from..from + sp.matched], f.date, maxAge);
        assert forall s | s in spends :: s in spends[..|spends| - 1] || s == sp;
      } else {
        RecordsBounded(spends, before, maxAge);
      }
    }
  }

  /** The records tile the matched units: each outflow takes up where the one before left off. */
  lemma {:induction false} RecordsTile(spends: seq<Spend>, flows: seq<Flow>, maxAge: int64)
    requires maxAge > 0 && AllRecorded(spends, flows, maxAge)
    ensures SumMatched(spends) == Matched(flows)
    decreases |flows|
  {
    if flows != [] {
      var before, f := flows[..|flows| - 1], flows[|flows| - 1];
      RecordsTile(if f.amount < 0 then spends[..|spends| - 1] else spends, before, maxAge);
    }
  }

  lemma Distributes(a: int, b: int, c: int)
    ensures (a + b) * c == a * c + b * c
  {
  }

  lemma {:induction false} SumsBounded(spends: seq<Spend>, maxAge: int64)
    requires maxAge > 0 && Bounded(spends, maxAge)
    ensures 0 <= SumWeighted(spends) <= SumMatched(spends) * maxAge
  {
    if spends != [] {
      var init, s := spends[..|spends| - 1], spends[|spends| - 1];
      assert s in spends && forall t | t in init :: t in spends;
      SumsBounded(init, maxAge);
      Distributes(SumMatched(init), s.matched, maxAge);
    }
  }

  lemma {:induction false} SumMatchedMonotone(spends: seq<Spend>, i: nat)
    requires i <= |spends|
    ensures SumMatched(spends[..i]) <= SumMatched(spends)
    decreases |spends| - i
  {
    if i == |spends| {
      assert spends[..i] == spends;
    } else {
      assert spends[..i + 1][..i] == spends[..i];
      SumMatchedMonotone(spends, i + 1);
    }
  }

  /** The window loop of Compute: `overflow` as soon as the matched total leaves 64 bits. */
  method SumWindow(win: seq<Spend>, ghost maxAge: int64)
    returns (overflow: bool, ready: bool, total: int64, weighted: Accumulator)
    requires maxAge > 0 && Bounded(win, maxAge)
    ensures overflow <==> SumMatched(win) > MAX_INT64
    ensures !overflow ==> && (ready <==> forall s | s in win :: !s.unmatched)
                          && total == SumMatched(win) && weighted.Value() == SumWeighted(win)
    ensures fresh(weighted) && weighted.Valid()
  {
    overflow, ready, total := false, true, 0;
    weighted := new Accumulator();
    for i := 0 to |win|
      invariant total == SumMatched(win[..i])
      invariant ready <==> forall s | s in win[..i] :: !s.unmatched
      invariant fresh(weighted) && weighted.Valid() && weighted.Value() == SumWeighted(win[..i])
    {
      var s := win[i];
      assert win[..i + 1][..i] == win[..i];
      assert win[..i + 1] == win[..i] + [s];
      if s.unmatched {
        ready := false;
      }
      if s.matched > MAX_INT64 - total {
        SumMatchedMonotone(win, i + 1);
        overflow := true;
        return;
      }
      total := total + s.matched;
      weighted.Add(s.weighted);
    }
    assert win[..|win|] == win;
  }

  /** The report of the first-in-first-out records of `flows`. */
  ghost predicate IsAge(res: Result, flows: seq<Flow>, window: int, maxAge: int64)
    requires window > 0 && maxAge > 0
  {
    exists spends :: AllRecorded(spends, flows, maxAge) && Reports(res, spends, window, maxAge)
  }

  /** The same to every reader, whichever form the accumulators have. */
  ghost predicate Alike(a: seq<Spend>, b: seq<Spend>) {
    && |a| == |b|
    && forall i | 0 <= i < |a| ::
         && a[i].date == b[i].date && a[i].matched == b[i].matched && a[i].unmatched == b[i].unmatched
         && a[i].weighted.Value() == b[i].weighted.Value()
  }

  lemma {:induction false} RecordsAlike(a: seq<Spend>, b: seq<Spend>, flows: seq<Flow>, maxAge: int64)
    requires maxAge > 0 && AllRecorded(a, flows, maxAge) && AllRecorded(b, flows, maxAge)
    ensures Alike(a, b)
    decreases |flows|
  {
    if flows != [] {
      var before, f := flows[..|flows| - 1], flows[|flows| - 1];
      if f.amount < 0 {
        var i, j := a[..|a| - 1], b[..|b| - 1];
        RecordsAlike(i, j, before, maxAge);
        assert a == i + [a[|a| - 1]] && b == j + [b[|b| - 1]];
      } else {
        RecordsAlike(a, b, before, maxAge);
      }
    }
  }

  lemma {:induction false} SumsAlike(a: seq<Spend>, b: seq<Spend>)
    requires Alike(a, b)
    ensures SumMatched(a) == SumMatched(b) && SumWeighted(a) == SumWeighted(b)
    decreases |a|
  {
    if a != [] {
      SumsAlike(a[..|a| - 1], b[..|b| - 1]);
    }
  }

  /** Flows and options determine the report. */
  lemma AgeUnique(r: Result, q: Result, flows: seq<Flow>, window: int, maxAge: int64)
    requires window > 0 && maxAge > 0 && IsAge(r, flows, window, maxAge) && IsAge(q, flows, window, maxAge)
    ensures r == q
  {
    var a :| AllRecorded(a, flows, maxAge) && Reports(r, a, window, maxAge);
    var b :| AllRecorded(b, flows, maxAge) && Reports(q, b, window, maxAge);
    RecordsAlike(a, b, flows, maxAge);
    ReportsAgree(r, q, a, b, window, maxAge);
  }

  lemma ReportsAgree(r: Result, q: Result, a: seq<Spend>, b: seq<Spend>, window: int, maxAge: int64)
    requires window > 0 && maxAge > 0 && Alike(a, b)
    requires Reports(r, a, window, maxAge) && Reports(q, b, window, maxAge)
    ensures r == q
  {
    var x, y := Trailing(a, window), Trailing(b, window);
    assert Alike(x, y);
    SumsAlike(x, y);
    assert (forall s | s in x :: !s.unmatched) <==> forall i | 0 <= i < |x| :: !x[i].unmatched;
    assert (forall s | s in y :: !s.unmatched) <==> forall i | 0 <= i < |y| :: !y[i].unmatched;
  }

  method Compute(flows: seq<Flow>, opts: Opts) returns (res: Result)
    ensures IsAge(res, flows, if opts.window <= 0 then 10 else opts.window,
                  if opts.maxAgeDays <= 0 then 365 else opts.maxAgeDays)
  {
    var window := if opts.window <= 0 then DEFAULT_WINDOW else opts.window;
    var maxAge := Or(opts.maxAgeDays, DEFAULT_MAX_AGE_DAYS);
    var lots, head, all := MatchFlows(flows, maxAge);
    res := Report(all, flows, window, maxAge);
  }

  /** The average over the trailing window. */
  method Report(all: seq<Spend>, ghost flows: seq<Flow>, window: int, maxAge: int64) returns (res: Result)
    requires window > 0 && maxAge > 0 && AllRecorded(all, flows, maxAge)
    ensures Reports(res, all, window, maxAge)
  {
    if |all| == 0 {
      return Result(0, false, false, 0, 0, 0, 0, false);
    }
    var start := |all| - window;
    if start < 0 {
      start := 0;
    }
    var win := all[start..];
    assert win == Trailing(all, window);
    RecordsBounded(all, flows, maxAge);
    assert Bounded(win, maxAge) by {
      assert forall s | s in win :: s in all;
    }
    res := Result(0, false, false, 0, win[0].date, win[|win| - 1].date, |win|, false);
    var overflow, ready, total, weighted := SumWindow(win, maxAge);
    if overflow {
      return res.(overflow := true);
    }
    res := res.(totalAgedMinor := total);
    if !ready || total == 0 {
      return;
    }
    SumsBounded(win, maxAge);
    RoundBound(weighted.Value(), total, maxAge);
    var days := weighted.Rounded(total);
    res := res.(ready := true, days := days);
    if res.days >= maxAge {
      res := res.(days := maxAge, capped := true);
    }
  }

  // ----- what the ages are -----

  /** Money spent before it was earned has no age. */
  lemma NoAge(spent: int, earned: int, maxAge: int64)
    requires maxAge > 0 && spent <= earned
    ensures Age(spent, earned, maxAge) == 0
  {
  }

  /** Spent k days and a part of a day after it was earned. */
  lemma AgeAfter(spent: int, earned: int, k: nat, part: nat, maxAge: int64)
    requires maxAge > 0 && part < DAY && spent - earned == DAY * k + part <= MAX_INT64
    ensures Age(spent, earned, maxAge) == if k < maxAge then k else maxAge
  {
    assert (spent - earned) / DAY == k;
  }

  /** Whole days from earning to spending, up to the cap. */
  lemma AgeInDays(spent: int, earned: int, maxAge: int64)
    requires maxAge > 0 && 0 <= spent - earned <= MAX_INT64
    ensures var r := Age(spent, earned, maxAge);
            DAY * r <= spent - earned && (r == maxAge || spent - earned < DAY * (r + 1))
  {
    var gap := spent - earned;
    AgeAfter(spent, earned, gap / DAY, gap % DAY, maxAge);
  }

  /** A span of time of more nanoseconds than 64 bits hold counts as the longest that they do. */
  lemma AgeSaturates(spent: int, earned: int, maxAge: int64)
    requires maxAge > 0 && spent - earned > MAX_INT64
    ensures Age(spent, earned, maxAge) == Age(earned + MAX_INT64, earned, maxAge)
  {
  }

  /** One income spent whole. */
  lemma OneLotRecorded(spends: seq<Spend>, income: Flow, outflow: Flow, maxAge: int64)
    requires maxAge > 0 && income.amount > 0 && outflow.amount == -(income.amount as int)
    requires AllRecorded(spends, [income, outflow], maxAge)
    ensures |spends| == 1 && spends[0].matched == income.amount && !spends[0].unmatched
    ensures spends[0].weighted.Value() == income.amount * Age(outflow.date, income.date, maxAge)
  {
    var flows := [income, outflow];
    assert flows[..1] == [income] && [income][..0] == [];
    var before, sp := spends[..|spends| - 1], spends[|spends| - 1];
    assert Records(sp, [income], outflow, maxAge) && AllRecorded(before, [income], maxAge);
    assert AllRecorded(before, [], maxAge) && before == [];
    EarnedOnce(income, outflow);
    TotalAgeRepeat(income.date, income.amount, outflow.date, maxAge);
  }

  lemma EarnedOnce(income: Flow, outflow: Flow)
    requires income.amount > 0 && outflow.amount == -(income.amount as int)
    ensures Matched([income]) == 0 && Take([income], outflow) == income.amount
    ensures Earned([income])[0..income.amount] == Repeat(income.date, income.amount)
  {
    assert [income][..0] == [];
    assert Earned([income]) == Repeat(income.date, income.amount);
  }

  lemma MeanOfEqual(amount: nat, age: nat)
    requires amount > 0
    ensures RoundDiv(amount * age, amount) == age
  {
    var r := RoundDiv(amount * age, amount);
    RoundsToNearest(amount * age, amount);
    if r > age {
      MulMonotone(amount, age + 1, r);
    } else if r < age {
      MulMonotone(amount, r + 1, age);
    }
  }

  /** One record: that many units, all of that age. */
  ghost predicate Flat(spends: seq<Spend>, amount: nat, weight: int) {
    |spends| == 1 && spends[0].matched == amount && !spends[0].unmatched && spends[0].weighted.Value() == weight
  }

  ghost predicate Tells(res: Result, amount: nat, age: nat, maxAge: int64) {
    res.ready && res.totalAgedMinor == amount && res.days == age && (res.capped <==> age == maxAge)
  }

  lemma ReportOfOne(res: Result, spends: seq<Spend>, window: int, maxAge: int64, amount: nat, age: nat)
    requires window > 0 && maxAge > 0 && Reports(res, spends, window, maxAge)
    requires Flat(spends, amount, amount * age) && 0 < amount <= MAX_INT64
    ensures Tells(res, amount, age, maxAge)
  {
    assert spends[..0] == [];
    assert SumMatched(spends) == amount && SumWeighted(spends) == amount * age;
    MeanOfEqual(amount, age);
  }

  /** If the records can only be one such, that is what is reported. */
  lemma ReportOfFlat(res: Result, flows: seq<Flow>, window: int, maxAge: int64, amount: nat, age: nat, weight: int)
    requires window > 0 && maxAge > 0 && IsAge(res, flows, window, maxAge) && 0 < amount <= MAX_INT64
    requires forall spends | AllRecorded(spends, flows, maxAge) :: Flat(spends, amount, weight)
    requires forall spends | Reports(res, spends, window, maxAge) && Flat(spends, amount, weight) ::
               Tells(res, amount, age, maxAge)
    ensures Tells(res, amount, age, maxAge)
  {
  }

  /** Money that is earned at once and spent at once, k days and a part of a day later, reports k, up to the cap. */
  lemma OneLotAge(income: Flow, outflow: Flow, k: nat, part: nat, window: int, maxAge: int64, res: Result)
    requires window > 0 && maxAge > 0 && income.amount > 0 && outflow.amount == -(income.amount as int)
    requires part < DAY && outflow.date - income.date == DAY * k + part <= MAX_INT64
    requires IsAge(res, [income, outflow], window, maxAge)
    ensures res.ready && res.totalAgedMinor == income.amount
    ensures res.days == (if k < maxAge then k else maxAge) && (res.capped <==> k >= maxAge)
  {
    var age: nat := if k < maxAge then k else maxAge;
    forall spends | AllRecorded(spends, [income, outflow], maxAge)
      ensures Flat(spends, income.amount, income.amount * age)
    {
      AgeAfter(outflow.date, income.date, k, part, maxAge);
      OneLotRecorded(spends, income, outflow, maxAge);
    }
    forall spends | Reports(res, spends, window, maxAge) && Flat(spends, income.amount, income.amount * age)
      ensures Tells(res, income.amount, age, maxAge)
    {
      ReportOfOne(res, spends, window, maxAge, income.amount, age);
    }
    ReportOfFlat(res, [income, outflow], window, maxAge, income.amount, age, income.amount * age);
  }
}
