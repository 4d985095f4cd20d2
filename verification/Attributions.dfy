/**
 Which purchases explain an overspend: internal/anomalyattrib/anomalyattrib.go.

 The code takes the largest purchases one by one until they reach 60% of the
 overspend.  Percentages are exact rationals here; the running total is the
 64-bit one of the source, which wraps.
 */
module Attributions {
  import opened Money
  import opened Sequences

  const EXPLAINED_PCT: int := 60
  const MAX_CULPRITS: nat := 5

  datatype Purchase = Purchase(id: string, payee: string, minor: int64, larger: bool)

  datatype Attribution = Attribution(culprits: seq<Purchase>, explainedPct: real, concentrated: bool,
                                     unusuallyLarge: nat, everything: bool, known: bool)

  function Minor(): Purchase -> int { (p: Purchase) => p.minor }

  function Total(ps: seq<Purchase>): int { SumBy(ps, Minor()) }

  /** `sum` is at least `percent` percent of the overspend. */
  predicate Reaches(sum: int, over: int, percent: int) { 100 * sum >= percent * over }

  function Pct(part: int, whole: int): real {
    if whole <= 0 then 0.0 else part as real / whole as real * 100.0
  }

  lemma PctReaches(part: int, whole: int, percent: int)
    requires whole > 0
    ensures Pct(part, whole) >= percent as real <==> Reaches(part, whole, percent)
  {
    var p, w, q := part as real, whole as real, percent as real;
    var r := p / w;
    assert r * w == p;
    if r * 100.0 >= q {
      assert r * 100.0 * w >= q * w;
    } else {
      assert r * 100.0 * w < q * w;
    }
    assert r * 100.0 * w == 100.0 * p;
  }

  // ----- the order -----

  predicate LargestFirst(a: Purchase, b: Purchase) {
    a.minor > b.minor || (a.minor == b.minor && StringLe(a.id, b.id))
  }

  lemma LargestFirstOrder()
    ensures TotalPreorder(LargestFirst)
  {
    forall x: Purchase, y: Purchase
      ensures LargestFirst(x, y) || LargestFirst(y, x)
    {
      StringLeTotal(x.id, y.id);
    }
    forall x: Purchase, y: Purchase, z: Purchase | LargestFirst(x, y) && LargestFirst(y, z)
      ensures LargestFirst(x, z)
    {
      if x.minor == y.minor == z.minor {
        StringLeTransitive(x.id, y.id, z.id);
      }
    }
  }

  ghost predicate Descending(s: seq<Purchase>) {
    forall i, j | 0 <= i < j < |s| :: s[i].minor >= s[j].minor
  }

  ghost predicate NonNegative(s: seq<Purchase>) { forall p | p in s :: p.minor >= 0 }

  function Ranked(purchases: seq<Purchase>): seq<Purchase> { Sort(purchases, LargestFirst) }

  lemma RankedFacts(purchases: seq<Purchase>)
    ensures var s := Ranked(purchases);
            && multiset(s) == multiset(purchases) && |s| == |purchases| && Descending(s)
            && (NonNegative(purchases) ==> NonNegative(s))
  {
    var s := Ranked(purchases);
    SortMultiset(purchases, LargestFirst);
    LargestFirstOrder();
    SortSorted(purchases, LargestFirst);
    assert forall p | p in s :: p in multiset(s);
  }

  /** The k largest. */
  function Top(s: seq<Purchase>, k: nat): int
    requires k <= |s|
  {
    Total(s[..k])
  }

  lemma TopStep(s: seq<Purchase>, k: nat)
    requires k < |s|
    ensures Top(s, k + 1) == Top(s, k) + s[k].minor
  {
    assert s[..k + 1] == s[..k] + [s[k]];
    SumAppend(s[..k], [s[k]], Minor());
    assert [s[k]][1..] == [];
  }

  lemma {:induction false} TopMonotone(s: seq<Purchase>, i: nat, j: nat)
    requires NonNegative(s) && i <= j <= |s|
    ensures 0 <= Top(s, i) <= Top(s, j)
    decreases j
  {
    if i < j {
      TopMonotone(s, i, j - 1);
      TopStep(s, j - 1);
    } else if i > 0 {
      TopMonotone(s, i - 1, i - 1);
      TopStep(s, i - 1);
    }
  }

  // ----- no choice of as many purchases beats the largest -----

  /** Some of the purchases, each at most once. */
  ghost predicate Chosen(choice: seq<Purchase>, purchases: seq<Purchase>) {
    multiset(choice) <= multiset(purchases)
  }

  lemma TopCons(s: seq<Purchase>, k: nat)
    requires k < |s|
    ensures Top(s, k + 1) == s[0].minor + Top(s[1..], k)
  {
    assert s[..k + 1] == [s[0]] + s[1..][..k];
    assert ([s[0]] + s[1..][..k])[1..] == s[1..][..k];
  }

  lemma ChosenSize(choice: seq<Purchase>, s: seq<Purchase>)
    requires multiset(choice) <= multiset(s)
    ensures |choice| <= |s|
  {
    assert multiset(s) == multiset(choice) + (multiset(s) - multiset(choice));
    assert |multiset(s)| == |multiset(choice)| + |multiset(s) - multiset(choice)|;
  }

  /** Take the largest of all out of the choice, or failing that any one: the rest avoids the largest. */
  lemma SetAside(choice: seq<Purchase>, s: seq<Purchase>) returns (rest: seq<Purchase>, one: Purchase)
    requires choice != [] && s != [] && multiset(choice) <= multiset(s)
    ensures |rest| == |choice| - 1 && multiset(rest) <= multiset(s[1..])
    ensures one in s && Total(choice) == one.minor + Total(rest)
  {
    var i := if s[0] in choice then IndexOf(choice, s[0]) else 0;
    one := choice[i];
    rest := Without(choice, i, Minor());
    assert s == [s[0]] + s[1..];
    RestFits(multiset(choice), one, multiset(rest), multiset(s), s[0], multiset(s[1..]));
    assert one in multiset(s);
  }

  lemma RestFits(choice: multiset<Purchase>, one: Purchase, rest: multiset<Purchase>,
                 all: multiset<Purchase>, first: Purchase, others: multiset<Purchase>)
    requires choice == multiset{one} + rest && all == multiset{first} + others && choice <= all
    requires first in choice ==> one == first
    ensures rest <= others
  {
    forall x
      ensures rest[x] <= others[x]
    {
      assert choice[x] <= all[x];
    }
  }

  lemma {:induction false} TopIsLargest(choice: seq<Purchase>, s: seq<Purchase>)
    requires Descending(s) && multiset(choice) <= multiset(s)
    ensures |choice| <= |s| && Total(choice) <= Top(s, |choice|)
    decreases |s|
  {
    ChosenSize(choice, s);
    if choice != [] {
      var rest, one := SetAside(choice, s);
      TopIsLargest(rest, s[1..]);
      TopCons(s, |rest|);
    }
  }

  function IndexOf(s: seq<Purchase>, p: Purchase): (i: nat)
    requires p in s
    ensures i < |s| && s[i] == p
  {
    if s[0] == p then 0 else 1 + IndexOf(s[1..], p)
  }

  // ----- the greedy scan -----

  /** The loop over the ranked purchases: how many were taken, and the running total. */
  function Scan(s: seq<Purchase>, over: int, i: nat, running: int64): (r: (nat, int64))
    requires i <= |s|
    ensures i <= r.0 <= |s| && (i <= MAX_CULPRITS ==> r.0 <= MAX_CULPRITS)
    decreases |s| - i
  {
    if i >= MAX_CULPRITS || i == |s| then (i, running)
    else
      var next := Wrap(running as int + s[i].minor);
      if Reaches(next, over, EXPLAINED_PCT) then (i + 1, next) else Scan(s, over, i + 1, next)
  }

  function Minority(n: nat): nat { if n / 2 < 1 then 1 else n / 2 }

  /** The most purchases that can still be called the cause. */
  function Few(n: nat): nat { if Minority(n) < MAX_CULPRITS then Minority(n) else MAX_CULPRITS }

  function CountLarger(s: seq<Purchase>): nat {
    if s == [] then 0 else CountLarger(s[..|s| - 1]) + if s[|s| - 1].larger then 1 else 0
  }

  /** How many of the purchases are marked as unusually large. */
  lemma {:induction false} CountLargerIs(s: seq<Purchase>)
    ensures CountLarger(s) == |set i | 0 <= i < |s| && s[i].larger|
  {
    var all := set i | 0 <= i < |s| && s[i].larger;
    if s == [] {
      assert all == {};
    } else {
      var init, last := s[..|s| - 1], |s| - 1;
      CountLargerIs(init);
      var before := set i | 0 <= i < |init| && init[i].larger;
      assert all == before + if s[last].larger then {last} else {};
    }
  }

  method ScanRanked(s: seq<Purchase>, over: int64) returns (taken: nat, running: int64)
    requires over > 0
    ensures (taken, running) == Scan(s, over, 0, 0)
  {
    taken, running := 0, 0;
    while taken < |s|
      invariant taken <= |s|
      invariant Scan(s, over, taken, running) == Scan(s, over, 0, 0)
    {
      if taken >= MAX_CULPRITS {
        break;
      }
      running := Wrap(running as int + s[taken].minor);
      taken := taken + 1;
      PctReaches(running, over, EXPLAINED_PCT);
      if Pct(running, over) >= 60.0 {
        break;
      }
    }
  }

  method Explain(over: int64, purchases: seq<Purchase>) returns (a: Attribution)
    ensures a.known <==> over > 0 && purchases != []
    ensures !a.known ==> a == Attribution([], 0.0, false, 0, false, false)
    ensures a.known ==>
              var s := Ranked(purchases);
              var (taken, running) := Scan(s, over, 0, 0);
              && (a.concentrated <==> Reaches(running, over, EXPLAINED_PCT) && taken <= Minority(|s|))
              && (a.everything <==> Reaches(running, over, 100))
              && a.explainedPct == (if a.everything then 100.0 else Pct(running, over))
              && a.culprits == (if a.concentrated then s[..taken] else [])
              && a.unusuallyLarge == CountLarger(a.culprits)
    ensures a.known && NonNegative(purchases) ==>
              (RightVerdict(a.concentrated, a.culprits, over, purchases) <==> FirstReachFits(over, purchases))
  {
    a := Attribution([], 0.0, false, 0, false, false);
    if over <= 0 || |purchases| == 0 {
      return;
    }
    if NonNegative(purchases) {
      VerdictExactly(over, purchases);
    }
    var sorted := Sort(purchases, LargestFirst);
    var taken, running := ScanRanked(sorted, over);
    PctReaches(running, over, 100);
    PctReaches(running, over, EXPLAINED_PCT);
    var pct := Pct(running, over);
    var everything := false;
    if pct >= 100.0 {
      pct, everything := 100.0, true;
    }
    var minority := |sorted| / 2;
    if minority < 1 {
      minority := 1;
    }
    var concentrated := pct >= 60.0 && taken <= minority;
    if !concentrated {
      return Attribution([], pct, false, 0, everything, true);
    }
    var culprits := sorted[..taken];
    var large := 0;
    for i := 0 to |culprits|
      invariant large == CountLarger(culprits[..i])
    {
      assert culprits[..i + 1][..i] == culprits[..i];
      if culprits[i].larger {
        large := large + 1;
      }
    }
    assert culprits[..|culprits|] == culprits;
    return Attribution(culprits, pct, true, large, everything, true);
  }

  // ----- exactly when the verdict is right -----

  /** The right verdict: concentrated when few enough purchases explain 60% of the overspend, and then the
      culprits explain that much and no smaller choice does. */
  ghost predicate RightVerdict(concentrated: bool, culprits: seq<Purchase>, over: int, purchases: seq<Purchase>) {
    && (concentrated <==> exists c :: Chosen(c, purchases) && |c| <= Few(|purchases|) && Reaches(Total(c), over, 60))
    && (concentrated ==>
          && Chosen(culprits, purchases) && Reaches(Total(culprits), over, 60)
          && forall c | Chosen(c, purchases) && Reaches(Total(c), over, 60) :: |culprits| <= |c|)
  }

  /** Few enough: one, or up to five as long as they are at most half of all. */
  lemma FewIs(n: nat, k: nat)
    ensures k <= Few(n) <==> k <= 1 || (k <= 5 && 2 * k <= n)
  {
  }

  /** Without wrap-around the running total is that of the purchases taken. */
  lemma {:induction false} ScanExact(s: seq<Purchase>, over: int, i: nat)
    requires i <= |s| && NonNegative(s) && Total(s) <= MAX_INT64 && Fits(Top(s, i))
    ensures var r := Scan(s, over, i, Top(s, i)); r.1 == Top(s, r.0)
    decreases |s| - i
  {
    if i < |s| {
      TopStep(s, i);
      TopMonotone(s, i + 1, |s|);
      assert s[..|s|] == s;
      ScanExact(s, over, i + 1);
    }
  }

  /** The first k largest purchases that reach the share, if few enough, have a total of at most 64 bits. */
  ghost predicate FirstReachFits(over: int, purchases: seq<Purchase>) {
    var s := Ranked(purchases);
    forall k | 1 <= k <= Few(|purchases|) && k <= |s| && FirstReach(s, over, k) :: Top(s, k) <= MAX_INT64
  }

  ghost predicate FirstReach(s: seq<Purchase>, over: int, k: nat)
    requires k <= |s|
  {
    && Reaches(Top(s, k), over, EXPLAINED_PCT)
    && forall i | 0 <= i < k :: !Reaches(Top(s, i), over, EXPLAINED_PCT)
  }

  /** As long as the share is not reached the running total is exact. */
  lemma {:induction false} ScanTo(s: seq<Purchase>, over: int64, k: nat)
    requires over > 0 && NonNegative(s) && k <= |s| && k <= MAX_CULPRITS
    requires forall i | 0 <= i <= k :: !Reaches(Top(s, i), over, EXPLAINED_PCT)
    ensures Fits(Top(s, k)) && Scan(s, over, 0, 0) == Scan(s, over, k, Top(s, k))
  {
    TopMonotone(s, 0, k);
    if k > 0 {
      ScanTo(s, over, k - 1);
      TopStep(s, k - 1);
    }
  }

  /** Where the scan stops if the share is first reached at k. */
  lemma ScanReaching(s: seq<Purchase>, over: int64, k: nat)
    requires over > 0 && NonNegative(s) && 1 <= k <= |s| && k <= MAX_CULPRITS && FirstReach(s, over, k)
    ensures Top(s, k) <= MAX_INT64 ==> Scan(s, over, 0, 0) == (k, Top(s, k))
    ensures Top(s, k) > MAX_INT64 ==> var r := Scan(s, over, 0, 0); Reaches(r.1, over, EXPLAINED_PCT) ==> r.0 > k
  {
    ScanTo(s, over, k - 1);
    TopStep(s, k - 1);
    TopMonotone(s, 0, k - 1);
    var wrapped := Wrap(Top(s, k));
    assert Scan(s, over, 0, 0) ==
           if Reaches(wrapped, over, EXPLAINED_PCT) then (k, wrapped) else Scan(s, over, k, wrapped);
    if Top(s, k) > MAX_INT64 {
      WrapsBelow(Top(s, k - 1), s[k - 1].minor);
      ScanMoves(s, over, k, wrapped);
    }
  }

  /** The sum of two amounts that leaves 64 bits wraps to a negative one. */
  lemma WrapsBelow(a: int64, b: int64)
    requires a >= 0 && b >= 0 && a as int + b > MAX_INT64
    ensures Wrap(a as int + b) < 0
  {
    assert Wrap(a as int + b) == a as int + b - RANGE;
  }

  lemma ScanMoves(s: seq<Purchase>, over: int, i: nat, running: int64)
    requires i <= |s| && !Reaches(running, over, EXPLAINED_PCT)
    ensures var r := Scan(s, over, i, running); Reaches(r.1, over, EXPLAINED_PCT) ==> r.0 > i
  {
  }

  lemma FindFirstReach(s: seq<Purchase>, over: int, k: nat) returns (j: nat)
    requires k <= |s| && over > 0 && Reaches(Top(s, k), over, EXPLAINED_PCT)
    ensures 1 <= j <= k && FirstReach(s, over, j)
    decreases k
  {
    assert !Reaches(Top(s, 0), over, EXPLAINED_PCT);
    if i :| 0 <= i < k && Reaches(Top(s, i), over, EXPLAINED_PCT) {
      j := FindFirstReach(s, over, i);
    } else {
      j := k;
    }
  }

  /** No choice of at most k purchases reaches the share if the k largest do not. */
  lemma NoneReaches(over: int, purchases: seq<Purchase>, k: nat, choice: seq<Purchase>)
    requires NonNegative(purchases) && Chosen(choice, purchases) && |choice| <= k
    requires forall i | 0 <= i <= k && i <= |purchases| ::
               i <= |Ranked(purchases)| && !Reaches(Top(Ranked(purchases), i), over, EXPLAINED_PCT)
    ensures !Reaches(Total(choice), over, EXPLAINED_PCT)
  {
    RankedFacts(purchases);
    TopIsLargest(choice, Ranked(purchases));
    assert !Reaches(Top(Ranked(purchases), |choice|), over, EXPLAINED_PCT);
  }

  lemma TopIsChosen(purchases: seq<Purchase>, k: nat)
    requires k <= |Ranked(purchases)|
    ensures Chosen(Ranked(purchases)[..k], purchases)
  {
    var s := Ranked(purchases);
    RankedFacts(purchases);
    assert s == s[..k] + s[k..];
  }

  /** If the share is first reached by the k largest, and k is few: right exactly when their total fits. */
  lemma VerdictWhenReached(over: int64, purchases: seq<Purchase>, k: nat)
    requires over > 0 && purchases != [] && NonNegative(purchases)
    requires 1 <= k <= Few(|purchases|) && k <= |Ranked(purchases)| && FirstReach(Ranked(purchases), over, k)
    ensures var s := Ranked(purchases);
            var r := Scan(s, over, 0, 0);
            var concentrated := Reaches(r.1, over, EXPLAINED_PCT) && r.0 <= Minority(|s|);
            RightVerdict(concentrated, s[..r.0], over, purchases) <==> Top(s, k) <= MAX_INT64
  {
    var s := Ranked(purchases);
    RankedFacts(purchases);
    ScanReaching(s, over, k);
    TopIsChosen(purchases, k);
    assert Chosen(s[..k], purchases) && |s[..k]| == k && Reaches(Total(s[..k]), over, EXPLAINED_PCT);
    forall c | Chosen(c, purchases) && Reaches(Total(c), over, EXPLAINED_PCT)
      ensures k <= |c|
    {
      TopIsLargest(c, s);
    }
  }

  lemma VerdictWhenNotReached(over: int64, purchases: seq<Purchase>)
    requires over > 0 && purchases != [] && NonNegative(purchases)
    requires forall i | 0 <= i <= Few(|purchases|) && i <= |purchases| ::
               i <= |Ranked(purchases)| && !Reaches(Top(Ranked(purchases), i), over, EXPLAINED_PCT)
    ensures var s := Ranked(purchases);
            var r := Scan(s, over, 0, 0);
            var concentrated := Reaches(r.1, over, EXPLAINED_PCT) && r.0 <= Minority(|s|);
            !concentrated && RightVerdict(concentrated, s[..r.0], over, purchases)
  {
    var s := Ranked(purchases);
    RankedFacts(purchases);
    var few := if Few(|purchases|) < |s| then Few(|purchases|) else |s|;
    ScanTo(s, over, few);
    ScanMoves(s, over, few, Top(s, few));
    forall c | Chosen(c, purchases) && |c| <= Few(|purchases|)
      ensures !Reaches(Total(c), over, EXPLAINED_PCT)
    {
      NoneReaches(over, purchases, Few(|purchases|), c);
    }
  }

  /** For non-negative purchases the verdict is right exactly when the first total to reach the share,
      if few enough purchases make it up, fits in 64 bits. */
  lemma VerdictExactly(over: int64, purchases: seq<Purchase>)
    requires over > 0 && purchases != [] && NonNegative(purchases)
    ensures var s := Ranked(purchases);
            var r := Scan(s, over, 0, 0);
            var concentrated := Reaches(r.1, over, EXPLAINED_PCT) && r.0 <= Minority(|s|);
            RightVerdict(concentrated, s[..r.0], over, purchases) <==> FirstReachFits(over, purchases)
  {
    var s := Ranked(purchases);
    RankedFacts(purchases);
    if k :| 1 <= k <= Few(|purchases|) && k <= |s| && Reaches(Top(s, k), over, EXPLAINED_PCT) {
      var j := FindFirstReach(s, over, k);
      VerdictWhenReached(over, purchases, j);
      assert forall i | 1 <= i <= |s| && FirstReach(s, over, i) :: i == j;
    } else {
      assert Top(s, 0) == 0;
      VerdictWhenNotReached(over, purchases);
    }
  }

  /** A total of the few largest that fits in 64 bits is enough. */
  lemma SmallTotalsSuffice(over: int64, purchases: seq<Purchase>)
    requires over > 0 && NonNegative(purchases) && Total(purchases) <= MAX_INT64
    ensures FirstReachFits(over, purchases)
  {
    var s := Ranked(purchases);
    RankedFacts(purchases);
    SumPermuted(s, purchases, Minor());
    forall k | 1 <= k <= |s|
      ensures Top(s, k) <= MAX_INT64
    {
      TopMonotone(s, k, |s|);
      assert s[..|s|] == s;
    }
  }

  /** Two purchases of 5e18 among four, against the largest overspend there is. */
  function Hidden(): seq<Purchase> {
    var p := Purchase("a", "", 5_000_000_000_000_000_000, false);
    var none := Purchase("b", "", 0, false);
    [p, p, none, none]
  }

  lemma HiddenDoesNotFit()
    ensures NonNegative(Hidden()) && !FirstReachFits(MAX_INT64, Hidden())
  {
    var p, none := Hidden()[0], Hidden()[2];
    assert StringLe("a", "a") && StringLe("b", "b");
    assert Hidden()[1..] == [p, none, none] && [p, none, none][1..] == [none, none] && [none, none][1..] == [none];
    assert [none][1..] == [];
    assert Sort([none], LargestFirst) == [none];
    assert Sort([none, none], LargestFirst) == [none, none];
    assert Sort([p, none, none], LargestFirst) == [p, none, none];
    var s := Ranked(Hidden());
    assert s == Hidden();
    TopStep(s, 0);
    TopStep(s, 1);
    assert Top(s, 0) == 0;
    assert FirstReach(s, MAX_INT64, 2);
  }

  /** The two explain more than the whole overspend, and the wrapped running total hides them. */
  lemma WrappedVerdictIsWrong()
    ensures var s := Ranked(Hidden());
            var r := Scan(s, MAX_INT64, 0, 0);
            var concentrated := Reaches(r.1, MAX_INT64, EXPLAINED_PCT) && r.0 <= Minority(|s|);
            !RightVerdict(concentrated, s[..r.0], MAX_INT64, Hidden())
  {
    HiddenDoesNotFit();
    VerdictExactly(MAX_INT64, Hidden());
  }
}
