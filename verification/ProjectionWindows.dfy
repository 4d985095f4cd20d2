/**
 Projecting an account over one window, or over two windows that share one
 expansion of the recurring rows: internal/accountview/details.go.

 `bound` is the number of cadence steps the source follows at most, 5000 there;
 the results hold for every bound.
 */
module ProjectionWindows {
  import opened Wrappers
  import opened Money
  import opened Calendar
  import opened Schedule
  import opened Projections
  import opened Sequences

  datatype Row = Row(name: string, accountId: string, amount: int64, currency: string,
                     cadence: Cadence, nextDue: Date, active: bool, service: bool)

  datatype Occurrence = Occurrence(driver: Driver, currency: string)

  datatype Balance = Balance(amount: int64, currency: string)

  datatype Window = Projected(projection: Projection) | CurrencyMismatch(name: string, currency: string) | Overflow

  // ----- the rows of an account -----

  predicate MovesCash(row: Row) { row.amount != 0 && row.active && !row.service }

  function RowsOf(recurring: seq<Row>, accountId: string): seq<Row> {
    if recurring == [] then []
    else
      (if MovesCash(recurring[0]) && recurring[0].accountId == accountId then [recurring[0]] else [])
      + RowsOf(recurring[1..], accountId)
  }

  lemma {:induction false} RowsOfSnoc(recurring: seq<Row>, row: Row, accountId: string)
    ensures RowsOf(recurring + [row], accountId) ==
            RowsOf(recurring, accountId) + if MovesCash(row) && row.accountId == accountId then [row] else []
  {
    var added := if MovesCash(row) && row.accountId == accountId then [row] else [];
    if recurring == [] {
      assert recurring + [row] == [row];
      assert RowsOf([row], accountId) == added + RowsOf([], accountId);
    } else {
      assert (recurring + [row])[1..] == recurring[1..] + [row];
      RowsOfSnoc(recurring[1..], row, accountId);
      var first := if MovesCash(recurring[0]) && recurring[0].accountId == accountId then [recurring[0]] else [];
      var rest := RowsOf(recurring[1..], accountId);
      assert first + (rest + added) == (first + rest) + added;
    }
  }

  /** PrepareProjectionInputs */
  method Prepare(recurring: seq<Row>) returns (byAccount: map<string, seq<Row>>)
    ensures forall id :: RowsOf(recurring, id) == if id in byAccount then byAccount[id] else []
  {
    byAccount := map[];
    for i := 0 to |recurring|
      invariant forall id :: RowsOf(recurring[..i], id) == if id in byAccount then byAccount[id] else []
    {
      var row := recurring[i];
      assert recurring[..i + 1] == recurring[..i] + [row];
      forall id {
        RowsOfSnoc(recurring[..i], row, id);
      }
      if row.amount != 0 && row.active && !row.service {
        var rows := if row.accountId in byAccount then byAccount[row.accountId] else [];
        byAccount := byAccount[row.accountId := rows + [row]];
      }
    }
    assert recurring[..|recurring|] == recurring;
  }

  // ----- expanding the rows -----

  lemma FirstIndexExists(at: nat -> int, startDay: int, n: nat) returns (j: nat)
    requires Increasing(at) && at(n) >= startDay
    ensures FirstIndex(at, startDay, j)
    decreases n
  {
    if n == 0 || at(n - 1) < startDay {
      return n;
    }
    j := FirstIndexExists(at, startDay, n - 1);
  }

  lemma {:induction false} GrowsByOne(at: nat -> int, n: nat)
    requires Increasing(at)
    ensures at(0) + n <= at(n)
  {
    if n > 0 {
      GrowsByOne(at, n - 1);
      assert at(n - 1) < at(n);
    }
  }

  lemma StartExists(at: nat -> int, dayBased: bool, startDay: int, bound: nat)
    requires Increasing(at)
    ensures exists j :: StartsAt(at, dayBased, startDay, bound, j)
  {
    if at(0) >= startDay {
      assert StartsAt(at, dayBased, startDay, bound, Some(0));
    } else if !dayBased && at(bound) < startDay {
      assert StartsAt(at, dayBased, startDay, bound, None);
    } else {
      GrowsByOne(at, startDay - at(0));
      var j := FirstIndexExists(at, startDay, startDay - at(0));
      assert StartsAt(at, dayBased, startDay, bound, Some(j));
    }
  }

  /** The days a schedule lists in a window. */
  ghost function DaysIn(at: nat -> int, dayBased: bool, startDay: int, endDay: int, bound: nat): seq<int>
    requires Increasing(at)
  {
    StartExists(at, dayBased, startDay, bound);
    var j :| StartsAt(at, dayBased, startDay, bound, j);
    Listing(at, startDay, endDay, bound, j)
  }

  ghost function RowDays(row: Row, startDay: int, endDay: int, bound: nat): seq<int>
    requires Valid(row.nextDue)
  {
    DaysIncreasing(row.cadence, row.nextDue);
    DaysIn(Days(row.cadence, row.nextDue), FixedCadenceDays(row.cadence) > 0, startDay, endDay, bound)
  }

  function Dated(row: Row, days: seq<int>): seq<Occurrence> {
    if days == [] then []
    else [Occurrence(Driver(row.name, days[0], row.amount), row.currency)] + Dated(row, days[1..])
  }

  ghost predicate AllValid(rows: seq<Row>) { forall r | r in rows :: Valid(r.nextDue) }

  ghost function Occurrences(rows: seq<Row>, startDay: int, endDay: int, bound: nat): seq<Occurrence>
    requires AllValid(rows)
  {
    if rows == [] then []
    else Dated(rows[0], RowDays(rows[0], startDay, endDay, bound)) + Occurrences(rows[1..], startDay, endDay, bound)
  }

  // ----- a shorter window is a filter of a longer one -----

  function UpTo(days: seq<int>, endDay: int): seq<int> {
    if days == [] then []
    else (if days[0] <= endDay then [days[0]] else []) + UpTo(days[1..], endDay)
  }

  function UpToDay(occ: seq<Occurrence>, endDay: int): seq<Occurrence> {
    if occ == [] then []
    else (if occ[0].driver.date <= endDay then [occ[0]] else []) + UpToDay(occ[1..], endDay)
  }

  lemma {:induction false} UpToNone(days: seq<int>, endDay: int)
    requires forall i | 0 <= i < |days| :: days[i] > endDay
    ensures UpTo(days, endDay) == []
  {
    if days != [] {
      UpToNone(days[1..], endDay);
    }
  }

  /** Past the shorter end, nothing of a longer listing is left. */
  lemma UpcomingPast(at: nat -> int, j: nat, shorter: int, longer: int, fuel: nat)
    requires Increasing(at) && at(j) > shorter
    ensures UpTo(Upcoming(at, j, longer, fuel), shorter) == []
  {
    var out := Upcoming(at, j, longer, fuel);
    UpcomingExactly(at, j, longer, fuel);
    forall i | 0 <= i < |out|
      ensures out[i] > shorter
    {
      assert i > 0 ==> at(j) < at(j + i);
    }
    UpToNone(out, shorter);
  }

  lemma {:induction false} UpcomingShorter(at: nat -> int, j: nat, shorter: int, longer: int, fuel: nat)
    requires Increasing(at) && shorter <= longer
    ensures UpTo(Upcoming(at, j, longer, fuel), shorter) == Upcoming(at, j, shorter, fuel)
    decreases fuel
  {
    if at(j) > shorter {
      UpcomingPast(at, j, shorter, longer, fuel);
    } else if fuel > 0 {
      var rest := Upcoming(at, j + 1, longer, fuel - 1);
      assert ([at(j)] + rest)[1..] == rest;
      UpcomingShorter(at, j + 1, shorter, longer, fuel - 1);
    }
  }

  lemma ListingShorter(at: nat -> int, startDay: int, shorter: int, longer: int, bound: nat, j: Option<nat>)
    requires Increasing(at) && startDay <= shorter <= longer
    ensures UpTo(Listing(at, startDay, longer, bound, j), shorter) == Listing(at, startDay, shorter, bound, j)
  {
    var up := if j.None? then [] else Upcoming(at, j.value, longer, bound);
    if j.Some? {
      UpcomingShorter(at, j.value, shorter, longer, bound);
    }
    if at(0) < startDay {
      assert ([at(0)] + up)[1..] == up;
    } else {
      assert [] + up == up;
    }
  }

  lemma RowDaysShorter(row: Row, startDay: int, shorter: int, longer: int, bound: nat)
    requires Valid(row.nextDue) && startDay <= shorter <= longer
    ensures UpTo(RowDays(row, startDay, longer, bound), shorter) == RowDays(row, startDay, shorter, bound)
  {
    DaysIncreasing(row.cadence, row.nextDue);
    DaysInShorter(Days(row.cadence, row.nextDue), FixedCadenceDays(row.cadence) > 0, startDay, shorter, longer, bound);
  }

  lemma DaysInShorter(at: nat -> int, dayBased: bool, startDay: int, shorter: int, longer: int, bound: nat)
    requires Increasing(at) && startDay <= shorter <= longer
    ensures UpTo(DaysIn(at, dayBased, startDay, longer, bound), shorter) ==
            DaysIn(at, dayBased, startDay, shorter, bound)
  {
    StartExists(at, dayBased, startDay, bound);
    var j :| StartsAt(at, dayBased, startDay, bound, j);
    DaysInIs(at, dayBased, startDay, longer, bound, j);
    DaysInIs(at, dayBased, startDay, shorter, bound, j);
    ListingShorter(at, startDay, shorter, longer, bound, j);
  }

  lemma ListingIsDaysIn(out: seq<int>, at: nat -> int, dayBased: bool, startDay: int, endDay: int, bound: nat)
    requires Increasing(at) && IsListing(out, at, dayBased, startDay, endDay, bound)
    ensures out == DaysIn(at, dayBased, startDay, endDay, bound)
  {
    var j :| StartsAt(at, dayBased, startDay, bound, j) && out == Listing(at, startDay, endDay, bound, j);
    DaysInIs(at, dayBased, startDay, endDay, bound, j);
  }

  lemma DaysInIs(at: nat -> int, dayBased: bool, startDay: int, endDay: int, bound: nat, j: Option<nat>)
    requires Increasing(at) && StartsAt(at, dayBased, startDay, bound, j)
    ensures DaysIn(at, dayBased, startDay, endDay, bound) == Listing(at, startDay, endDay, bound, j)
  {
    forall i | StartsAt(at, dayBased, startDay, bound, i)
      ensures i == j
    {
      StartUnique(at, dayBased, startDay, bound, i, j);
    }
  }

  lemma {:induction false} DatedShorter(row: Row, days: seq<int>, shorter: int)
    ensures UpToDay(Dated(row, days), shorter) == Dated(row, UpTo(days, shorter))
  {
    if days != [] {
      DatedShorter(row, days[1..], shorter);
      var head := Occurrence(Driver(row.name, days[0], row.amount), row.currency);
      assert ([head] + Dated(row, days[1..]))[1..] == Dated(row, days[1..]);
      if days[0] <= shorter {
        assert ([days[0]] + UpTo(days[1..], shorter))[1..] == UpTo(days[1..], shorter);
      } else {
        assert [] + UpTo(days[1..], shorter) == UpTo(days[1..], shorter);
      }
    }
  }

  lemma {:induction false} UpToDayAppend(a: seq<Occurrence>, b: seq<Occurrence>, endDay: int)
    ensures UpToDay(a + b, endDay) == UpToDay(a, endDay) + UpToDay(b, endDay)
  {
    if a == [] {
      assert a + b == b;
    } else {
      assert (a + b)[1..] == a[1..] + b;
      UpToDayAppend(a[1..], b, endDay);
      var first := if a[0].driver.date <= endDay then [a[0]] else [];
      var x, y := UpToDay(a[1..], endDay), UpToDay(b, endDay);
      assert first + (x + y) == (first + x) + y;
    }
  }

  /** Expanding to a longer horizon and cutting back is expanding to the shorter one. */
  lemma {:induction false} OccurrencesShorter(rows: seq<Row>, startDay: int, shorter: int, longer: int, bound: nat)
    requires AllValid(rows) && startDay <= shorter <= longer
    ensures UpToDay(Occurrences(rows, startDay, longer, bound), shorter) == Occurrences(rows, startDay, shorter, bound)
  {
    if rows != [] {
      OccurrencesShorter(rows[1..], startDay, shorter, longer, bound);
      UpToDayAppend(Dated(rows[0], RowDays(rows[0], startDay, longer, bound)),
                    Occurrences(rows[1..], startDay, longer, bound), shorter);
      DatedShorter(rows[0], RowDays(rows[0], startDay, longer, bound), shorter);
      RowDaysShorter(rows[0], startDay, shorter, longer, bound);
    }
  }

  // ----- the code -----

  method Stamp(row: Row, days: seq<int>) returns (out: seq<Occurrence>)
    ensures out == Dated(row, days)
  {
    out := [];
    for i := 0 to |days|
      invariant out + Dated(row, days[i..]) == Dated(row, days)
    {
      assert days[i..][1..] == days[i + 1..];
      out := out + [Occurrence(Driver(row.name, days[i], row.amount), row.currency)];
    }
  }

  method ExpandRow(row: Row, startDay: int, endDay: int, bound: nat) returns (out: seq<Occurrence>)
    requires Valid(row.nextDue)
    ensures out == Dated(row, RowDays(row, startDay, endDay, bound))
  {
    var days := OccurrenceDates(row.cadence, row.nextDue, startDay, endDay, bound);
    DaysIncreasing(row.cadence, row.nextDue);
    ListingIsDaysIn(days, Days(row.cadence, row.nextDue), FixedCadenceDays(row.cadence) > 0, startDay, endDay, bound);
    out := Stamp(row, days);
  }

  lemma OccurrencesFrom(rows: seq<Row>, i: nat, startDay: int, endDay: int, bound: nat,
                        out: seq<Occurrence>, occ: seq<Occurrence>)
    requires AllValid(rows) && i < |rows| && occ == Dated(rows[i], RowDays(rows[i], startDay, endDay, bound))
    ensures out + Occurrences(rows[i..], startDay, endDay, bound) ==
            (out + occ) + Occurrences(rows[i + 1..], startDay, endDay, bound)
  {
    assert rows[i..][1..] == rows[i + 1..];
    var rest := Occurrences(rows[i + 1..], startDay, endDay, bound);
    assert out + (occ + rest) == (out + occ) + rest;
  }

  /** occurrences */
  method ExpandRows(rows: seq<Row>, asOf: int, horizon: int, bound: nat) returns (out: seq<Occurrence>)
    requires AllValid(rows)
    ensures IsExpansion(out, rows, asOf, horizon, bound)
  {
    out := [];
    if horizon <= 0 {
      return;
    }
    var endDay := asOf + horizon;
    ghost var all := Occurrences(rows, asOf, endDay, bound);
    for i := 0 to |rows|
      invariant out + Occurrences(rows[i..], asOf, endDay, bound) == all
    {
      var occ := ExpandRow(rows[i], asOf, endDay, bound);
      OccurrencesFrom(rows, i, asOf, endDay, bound, out, occ);
      out := out + occ;
    }
  }

  function DriversOf(occ: seq<Occurrence>): seq<Driver> {
    if occ == [] then [] else [occ[0].driver] + DriversOf(occ[1..])
  }

  /** The first occurrence in a foreign currency. */
  function FirstForeign(occ: seq<Occurrence>, currency: string): Option<Occurrence> {
    if occ == [] then None
    else if occ[0].currency != currency then Some(occ[0])
    else FirstForeign(occ[1..], currency)
  }

  /** What a window over these occurrences must be; it is determined by them. */
  ghost predicate IsWindow(w: Window, start: Balance, asOf: int, occ: seq<Occurrence>, horizon: int) {
    if horizon <= 0 then w == Projected(Flat(start.amount, asOf))
    else
      var foreign := FirstForeign(occ, start.currency);
      var drivers := DriversOf(occ);
      if foreign.Some? then w == CurrencyMismatch(foreign.value.driver.name, foreign.value.currency)
      else if !NoOverflow(start.amount, Kept(drivers, asOf, asOf + horizon)) then w == Overflow
      else w.Projected? && Projects(w.projection, start.amount, drivers, asOf, horizon)
  }

  lemma WindowUnique(v: Window, w: Window, start: Balance, asOf: int, occ: seq<Occurrence>, horizon: int)
    requires IsWindow(v, start, asOf, occ, horizon) && IsWindow(w, start, asOf, occ, horizon)
    ensures v == w
  {
    if v.Projected? && w.Projected? {
      ProjectionPermuted(v.projection, w.projection, start.amount, DriversOf(occ), DriversOf(occ), asOf, horizon);
    }
  }

  /** The filter loop of projectWindow. */
  method SelectWindow(occ: seq<Occurrence>, currency: string, endDay: int)
    returns (foreign: Option<Occurrence>, drivers: seq<Driver>)
    ensures foreign == FirstForeign(UpToDay(occ, endDay), currency)
    ensures foreign.None? ==> drivers == DriversOf(UpToDay(occ, endDay))
  {
    foreign, drivers := None, [];
    for i := 0 to |occ|
      invariant FirstForeign(UpToDay(occ[i..], endDay), currency) == FirstForeign(UpToDay(occ, endDay), currency)
      invariant drivers + DriversOf(UpToDay(occ[i..], endDay)) == DriversOf(UpToDay(occ, endDay))
    {
      assert occ[i..][1..] == occ[i + 1..];
      var rest := UpToDay(occ[i + 1..], endDay);
      if occ[i].driver.date <= endDay {
        assert ([occ[i]] + rest)[1..] == rest;
        if occ[i].currency != currency {
          foreign := Some(occ[i]);
          return;
        }
        drivers := drivers + [occ[i].driver];
      } else {
        assert [] + rest == rest;
      }
    }
  }

  /** What is left of the occurrences in a window. */
  function Cut(occ: seq<Occurrence>, asOf: int, end: int): seq<Occurrence> {
    if end <= asOf then [] else UpToDay(occ, end)
  }

  /** projectWindow */
  method ProjectWindow(start: Balance, asOf: int, occ: seq<Occurrence>, horizon: int) returns (w: Window)
    ensures IsWindow(w, start, asOf, Cut(occ, asOf, asOf + horizon), horizon)
  {
    if horizon <= 0 {
      var flat := Project(start.amount, asOf, [], horizon);
      return Projected(flat.value);
    }
    var foreign, drivers := SelectWindow(occ, start.currency, asOf + horizon);
    if foreign.Some? {
      return CurrencyMismatch(foreign.value.driver.name, foreign.value.currency);
    }
    var p := Project(start.amount, asOf, drivers, horizon);
    return if p.Some? then Projected(p.value) else Overflow;
  }

  /** The occurrences of a window, by expanding the rows that far. */
  ghost function Expanded(rows: seq<Row>, asOf: int, end: int, bound: nat): seq<Occurrence>
    requires AllValid(rows)
  {
    if end <= asOf then [] else Occurrences(rows, asOf, end, bound)
  }

  /** What a window of these rows must be. */
  ghost predicate IsWindowOf(w: Window, rows: seq<Row>, start: Balance, asOf: int, horizon: int, bound: nat)
    requires AllValid(rows)
  {
    IsWindow(w, start, asOf, Expanded(rows, asOf, asOf + horizon, bound), horizon)
  }

  ghost predicate IsExpansion(occ: seq<Occurrence>, rows: seq<Row>, asOf: int, horizon: int, bound: nat)
    requires AllValid(rows)
  {
    occ == Expanded(rows, asOf, asOf + horizon, bound)
  }

  /** Projected over a longer expansion, a window is what it would be over its own. */
  method ProjectFromLonger(ghost rows: seq<Row>, start: Balance, asOf: int, horizon: int, occ: seq<Occurrence>,
                           ghost longest: int, ghost bound: nat) returns (w: Window)
    requires AllValid(rows) && horizon <= longest && IsExpansion(occ, rows, asOf, longest, bound)
    ensures IsWindowOf(w, rows, start, asOf, horizon, bound)
  {
    CutFromLonger(rows, asOf, asOf + horizon, occ, asOf + longest, bound);
    w := ProjectWindow(start, asOf, occ, horizon);
  }

  lemma CutFromLonger(rows: seq<Row>, asOf: int, shorter: int, occ: seq<Occurrence>, longer: int, bound: nat)
    requires AllValid(rows) && shorter <= longer && occ == Expanded(rows, asOf, longer, bound)
    ensures Cut(occ, asOf, shorter) == Expanded(rows, asOf, shorter, bound)
  {
    if asOf < shorter {
      OccurrencesShorter(rows, asOf, shorter, longer, bound);
    }
  }

  /** ProjectionInputs.Project */
  method ProjectAccount(rows: seq<Row>, start: Balance, asOf: int, horizon: int, bound: nat) returns (w: Window)
    requires AllValid(rows)
    ensures IsWindowOf(w, rows, start, asOf, horizon, bound)
  {
    var occ := ExpandRows(rows, asOf, horizon, bound);
    w := ProjectFromLonger(rows, start, asOf, horizon, occ, horizon, bound);
  }

  /** ProjectionInputs.ProjectPair: one expansion, two windows. */
  method ProjectPair(rows: seq<Row>, start: Balance, asOf: int, firstHorizon: int, secondHorizon: int, bound: nat)
    returns (first: Window, second: Window)
    requires AllValid(rows)
    ensures IsWindowOf(first, rows, start, asOf, firstHorizon, bound)
    ensures IsWindowOf(second, rows, start, asOf, secondHorizon, bound)
  {
    var longest := if firstHorizon > secondHorizon then firstHorizon else secondHorizon;
    var occ := ExpandRows(rows, asOf, longest, bound);
    first := ProjectFromLonger(rows, start, asOf, firstHorizon, occ, longest, bound);
    second := ProjectFromLonger(rows, start, asOf, secondHorizon, occ, longest, bound);
  }

  /** The pair is the two single projections, errors included, for all horizons. */
  method PairAgrees(rows: seq<Row>, start: Balance, asOf: int, firstHorizon: int, secondHorizon: int, bound: nat)
    returns (pair: (Window, Window), apart: (Window, Window))
    requires AllValid(rows)
    ensures pair == apart
    ensures IsWindowOf(pair.0, rows, start, asOf, firstHorizon, bound)
    ensures IsWindowOf(pair.1, rows, start, asOf, secondHorizon, bound)
  {
    var a, b := ProjectPair(rows, start, asOf, firstHorizon, secondHorizon, bound);
    var c := ProjectAccount(rows, start, asOf, firstHorizon, bound);
    var d := ProjectAccount(rows, start, asOf, secondHorizon, bound);
    WindowUnique(a, c, start, asOf, Expanded(rows, asOf, asOf + firstHorizon, bound), firstHorizon);
    WindowUnique(b, d, start, asOf, Expanded(rows, asOf, asOf + secondHorizon, bound), secondHorizon);
    return (a, b), (c, d);
  }

  // ----- what a window says of the rows -----

  /** An account's rows are the recurring ones that are its own, move money, are active, and are no service. */
  lemma {:induction false} RowsOfMembers(recurring: seq<Row>, id: string, row: Row)
    ensures row in RowsOf(recurring, id) <==>
              row in recurring && row.accountId == id && row.amount != 0 && row.active && !row.service
  {
    if recurring != [] {
      RowsOfMembers(recurring[1..], id, row);
      var first := if MovesCash(recurring[0]) && recurring[0].accountId == id then [recurring[0]] else [];
      assert row in first + RowsOf(recurring[1..], id) <==> row in first || row in RowsOf(recurring[1..], id);
      assert row in recurring <==> row == recurring[0] || row in recurring[1..];
    }
  }

  /** A window names a currency exactly if some occurrence is not in the account's, and then the first such. */
  lemma {:induction false} FirstForeignIs(occ: seq<Occurrence>, currency: string)
    ensures FirstForeign(occ, currency).None? <==> forall o | o in occ :: o.currency == currency
    ensures FirstForeign(occ, currency).Some? ==>
              exists i :: 0 <= i < |occ| && FirstForeign(occ, currency) == Some(occ[i]) && occ[i].currency != currency
                          && forall j | 0 <= j < i :: occ[j].currency == currency
  {
    if occ != [] {
      FirstForeignIs(occ[1..], currency);
      assert forall o :: o in occ <==> o == occ[0] || o in occ[1..];
      if occ[0].currency == currency && FirstForeign(occ[1..], currency).Some? {
        var i :| 0 <= i < |occ[1..]| && FirstForeign(occ[1..], currency) == Some(occ[1..][i])
                 && occ[1..][i].currency != currency && forall j | 0 <= j < i :: occ[1..][j].currency == currency;
        assert occ[i + 1] == occ[1..][i];
        assert forall j | 1 <= j < i + 1 :: occ[j] == occ[1..][j - 1];
      }
    }
  }

  /** Each row's amount, once for every date that has come by `day`. */
  ghost function DueBy(rows: seq<Row>, asOf: int, day: int, bound: nat): int
    requires AllValid(rows)
  {
    if rows == [] then 0 else rows[0].amount * |RowDays(rows[0], asOf, day, bound)| + DueBy(rows[1..], asOf, day, bound)
  }

  lemma {:induction false} DriversAppend(a: seq<Occurrence>, b: seq<Occurrence>)
    ensures DriversOf(a + b) == DriversOf(a) + DriversOf(b)
  {
    if a == [] {
      assert a + b == b;
    } else {
      assert (a + b)[1..] == a[1..] + b;
      DriversAppend(a[1..], b);
      Regroup([a[0].driver], DriversOf(a[1..]), DriversOf(b));
    }
  }

  lemma OneMore(amount: int, n: nat)
    ensures amount * (1 + n) == amount + amount * n
  {
  }

  lemma DatedCons(row: Row, days: seq<int>, f: Driver -> int)
    requires days != []
    ensures SumBy(DriversOf(Dated(row, days)), f) ==
            f(Driver(row.name, days[0], row.amount)) + SumBy(DriversOf(Dated(row, days[1..])), f)
  {
    var head, rest := Occurrence(Driver(row.name, days[0], row.amount), row.currency), Dated(row, days[1..]);
    assert ([head] + rest)[1..] == rest;
    assert ([head.driver] + DriversOf(rest))[1..] == DriversOf(rest);
  }

  lemma {:induction false} DatedSum(row: Row, days: seq<int>, asOf: int, day: int)
    requires asOf <= day
    ensures SumBy(DriversOf(Dated(row, days)), LandedBy(asOf, day)) == row.amount * |UpTo(days, day)|
  {
    if days != [] {
      DatedSum(row, days[1..], asOf, day);
      DatedCons(row, days, LandedBy(asOf, day));
      OneMore(row.amount, |UpTo(days[1..], day)|);
    }
  }

  lemma {:induction false} RowsSum(rows: seq<Row>, asOf: int, day: int, end: int, bound: nat)
    requires AllValid(rows) && asOf <= day <= end
    ensures SumBy(DriversOf(Occurrences(rows, asOf, end, bound)), LandedBy(asOf, day)) == DueBy(rows, asOf, day, bound)
  {
    if rows != [] {
      RowsSum(rows[1..], asOf, day, end, bound);
      var days := RowDays(rows[0], asOf, end, bound);
      var first, rest := Dated(rows[0], days), Occurrences(rows[1..], asOf, end, bound);
      DriversAppend(first, rest);
      SumAppend(DriversOf(first), DriversOf(rest), LandedBy(asOf, day));
      DatedSum(rows[0], days, asOf, day);
      RowDaysShorter(rows[0], asOf, day, end, bound);
    }
  }

  /** The projected balance at the end of any day of the window: the balance now, and every row's amount as often
      as it has come due by then. */
  lemma BalanceOnDay(rows: seq<Row>, start: int, asOf: int, day: int, end: int, bound: nat)
    requires AllValid(rows) && asOf <= day <= end
    ensures DayBalance(start, DriversOf(Occurrences(rows, asOf, end, bound)), asOf, day)
            == start + DueBy(rows, asOf, day, bound)
  {
    RowsSum(rows, asOf, day, end, bound);
  }

  /** What a window tells: where the balance ends, and that nowhere before it is below the low. */
  lemma WindowTells(p: Projection, rows: seq<Row>, start: Balance, asOf: int, horizon: int, bound: nat, day: int)
    requires AllValid(rows) && horizon > 0 && IsWindowOf(Projected(p), rows, start, asOf, horizon, bound)
    requires asOf <= day <= asOf + horizon
    ensures p.end == start.amount + DueBy(rows, asOf, asOf + horizon, bound)
    ensures p.low <= start.amount + DueBy(rows, asOf, day, bound)
    ensures p.low < start.amount ==>
              asOf <= p.lowDate <= asOf + horizon && p.low == start.amount + DueBy(rows, asOf, p.lowDate, bound)
  {
    var end := asOf + horizon;
    var drivers := DriversOf(Occurrences(rows, asOf, end, bound));
    assert IsLow(p.low, p.lowDate, start.amount, drivers, asOf, end);
    assert p.end == DayBalance(start.amount, drivers, asOf, end);
    BalanceOnDay(rows, start.amount, asOf, end, end, bound);
    BalanceOnDay(rows, start.amount, asOf, day, end, bound);
    if p.low < start.amount {
      BalanceOnDay(rows, start.amount, asOf, p.lowDate, end, bound);
    }
  }
}
