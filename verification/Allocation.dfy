/**
 Splitting money over ranked destinations: internal/allocate/allocate.go and actions.go.

 Scores are exact rationals.  Amounts are whole minor units; what is taken from the total wraps as in Go.
 */
module Allocation {
  import opened Money
  import opened Sequences

  datatype Candidate = Candidate(id: string, name: string, remainingToTarget: int)

  datatype Ranked = Ranked(candidate: Candidate, score: real)

  datatype Plan = Plan(candidate: Candidate, amount: int)

  function AmountOf(): Plan -> int { (p: Plan) => p.amount }

  function Allocated(plans: seq<Plan>): int { SumBy(plans, AmountOf()) }

  lemma AllocatedSnoc(plans: seq<Plan>, p: Plan)
    ensures Allocated(plans + [p]) == Allocated(plans) + p.amount
  {
    SumAppend(plans, [p], AmountOf());
    assert [p][1..] == [];
  }

  function Sum(xs: seq<int>): int {
    if xs == [] then 0 else Sum(xs[..|xs| - 1]) + xs[|xs| - 1]
  }

  function Max0(x: int): nat { if x < 0 then 0 else x }

  /** What there is to share out, computed in 64 bits. */
  function Available(total: int64, reserve: int64): (r: nat)
    ensures r <= MAX_INT64
  {
    Max0(Wrap(total as int - reserve))
  }

  /** It is what the total exceeds the reserve by exactly if the difference fits in 64 bits, and more than that
      exactly if the difference is too small for them. */
  lemma AvailableExactly(total: int64, reserve: int64)
    ensures Available(total, reserve) == Max0(total as int - reserve) <==> Fits(total as int - reserve)
    ensures Available(total, reserve) > Max0(total as int - reserve) <==> total as int - reserve < MIN_INT64
  {
    var d := total as int - reserve;
    if d > MAX_INT64 {
      assert Wrap(d) == d - RANGE;
    } else if d < MIN_INT64 {
      assert Wrap(d) == d + RANGE;
    }
  }

  /** The deepest debt there is, with one unit in reserve, looks like the largest amount there is. */
  lemma DebtLooksLikeMoney()
    ensures Available(MIN_INT64, 1) == MAX_INT64
  {
    assert Wrap(MIN_INT64 - 1) == MAX_INT64;
  }

  function Cap(x: int, maxPer: int): int { if maxPer > 0 && x > maxPer then maxPer else x }

  // ----- proportional shares -----

  function Positive(x: real): real { if x > 0.0 then x else 0.0 }

  function SumScores(ranked: seq<Ranked>): (r: real)
    ensures r >= 0.0
  {
    if ranked == [] then 0.0 else SumScores(ranked[..|ranked| - 1]) + Positive(ranked[|ranked| - 1].score)
  }

  /** One destination's exact share of `available`. */
  function Portion(available: nat, score: real, sum: real): real
    requires sum > 0.0
  {
    available as real * (Positive(score) / sum)
  }

  /** Its share in whole units: proportional to its score, or even when no score is positive. */
  function Share(available: nat, r: Ranked, ranked: seq<Ranked>): int
    requires ranked != []
  {
    var sum := SumScores(ranked);
    if sum > 0.0 then Portion(available, r.score, sum).Floor else available / |ranked|
  }

  lemma PortionSum(available: nat, x: real, y: real, sum: real)
    requires sum > 0.0
    ensures available as real * (x / sum) + available as real * (y / sum) == available as real * ((x + y) / sum)
  {
    assert x / sum + y / sum == (x + y) / sum;
  }

  function Shares(available: nat, ranked: seq<Ranked>, k: nat): seq<int>
    requires k <= |ranked|
    requires ranked != []
  {
    seq(k, i requires 0 <= i < k => Share(available, ranked[i], ranked))
  }

  lemma SharesSnoc(available: nat, ranked: seq<Ranked>, k: nat)
    requires k < |ranked|
    ensures Sum(Shares(available, ranked, k + 1)) ==
            Sum(Shares(available, ranked, k)) + Share(available, ranked[k], ranked)
  {
    var s := Shares(available, ranked, k + 1);
    assert s[..k] == Shares(available, ranked, k);
  }

  /** `got` whole units fall short of `exact` by less than k units. */
  predicate Tracks(got: int, exact: real, k: nat) {
    got as real <= exact && (if k == 0 then exact == got as real else exact < (got + k) as real)
  }

  lemma TracksStep(got: int, exact: real, k: nat, portion: real)
    requires Tracks(got, exact, k)
    ensures Tracks(got + portion.Floor, exact + portion, k + 1)
  {
    assert portion.Floor as real <= portion < portion.Floor as real + 1.0;
  }

  lemma TracksWhole(got: int, exact: int, k: nat)
    requires Tracks(got, exact as real, k) && k > 0
    ensures got <= exact < got + k
  {
  }

  function Exactly(available: nat, part: real, sum: real): real
    requires sum > 0.0
  {
    available as real * (part / sum)
  }

  function PortionUpTo(available: nat, ranked: seq<Ranked>, k: nat, sum: real): real
    requires sum > 0.0 && k <= |ranked|
  {
    if k == 0 then 0.0 else PortionUpTo(available, ranked, k - 1, sum) + Portion(available, ranked[k - 1].score, sum)
  }

  /** The first k shares lie within k units below their exact total. */
  lemma {:induction false} SharesTrack(available: nat, ranked: seq<Ranked>, k: nat, sum: real)
    requires ranked != [] && sum == SumScores(ranked) > 0.0 && k <= |ranked|
    ensures Tracks(Sum(Shares(available, ranked, k)), PortionUpTo(available, ranked, k, sum), k)
  {
    if k > 0 {
      SharesTrack(available, ranked, k - 1, sum);
      SharesSnoc(available, ranked, k - 1);
      TracksStep(Sum(Shares(available, ranked, k - 1)), PortionUpTo(available, ranked, k - 1, sum), k - 1,
                 Portion(available, ranked[k - 1].score, sum));
    }
  }

  /** The exact portions add up in proportion to the scores. */
  lemma {:induction false} PortionsAddUp(available: nat, ranked: seq<Ranked>, k: nat, sum: real)
    requires sum > 0.0 && k <= |ranked|
    ensures PortionUpTo(available, ranked, k, sum) == Exactly(available, SumScores(ranked[..k]), sum)
  {
    if k > 0 {
      PortionsAddUp(available, ranked, k - 1, sum);
      assert ranked[..k][..k - 1] == ranked[..k - 1];
      PortionSum(available, SumScores(ranked[..k - 1]), Positive(ranked[k - 1].score), sum);
    } else {
      assert 0.0 / sum == 0.0;
    }
  }

  lemma WholeIsExact(available: nat, sum: real)
    requires sum > 0.0
    ensures Exactly(available, sum, sum) == available as real
  {
    assert sum / sum == 1.0;
  }

  lemma EvenLeavesLittle(available: nat, n: nat)
    requires n > 0
    ensures n * (available / n) <= available < n * (available / n) + n
  {
    assert available == n * (available / n) + available % n;
  }

  lemma {:induction false} EvenTotal(available: nat, ranked: seq<Ranked>, k: nat)
    requires ranked != [] && SumScores(ranked) == 0.0 && k <= |ranked|
    ensures Sum(Shares(available, ranked, k)) == k * (available / |ranked|)
  {
    if k > 0 {
      EvenTotal(available, ranked, k - 1);
      SharesSnoc(available, ranked, k - 1);
      var q := available / |ranked|;
      assert k * q == (k - 1) * q + q;
    }
  }

  /** All of `available` is shared out, but for less than one unit per destination. */
  lemma SharesFit(available: nat, ranked: seq<Ranked>)
    requires ranked != []
    ensures var got := Sum(Shares(available, ranked, |ranked|));
            got <= available < got + |ranked|
  {
    var n := |ranked|;
    var sum := SumScores(ranked);
    if sum > 0.0 {
      SharesTrack(available, ranked, n, sum);
      PortionsAddUp(available, ranked, n, sum);
      assert ranked[..n] == ranked;
      WholeIsExact(available, sum);
      TracksWhole(Sum(Shares(available, ranked, n)), available, n);
    } else {
      EvenTotal(available, ranked, n);
      EvenLeavesLittle(available, n);
    }
  }

  lemma ShareNonNegative(available: nat, r: Ranked, ranked: seq<Ranked>)
    requires ranked != []
    ensures Share(available, r, ranked) >= 0
  {
    var sum := SumScores(ranked);
    if sum > 0.0 {
      assert Positive(r.score) / sum >= 0.0;
      assert Portion(available, r.score, sum) >= 0.0;
    }
  }

  lemma CrossMultiply(available: nat, a: real, b: real, sum: real)
    requires sum > 0.0
    ensures available as real * (a / sum) * b == available as real * (b / sum) * a
  {
    assert a / sum * b == b / sum * a;
  }

  lemma Scales(p: real, q: real, f: real)
    requires p <= q && f > 0.0
    ensures p * f <= q * f && (p < q ==> p * f < q * f)
  {
    assert q * f - p * f == (q - p) * f;
  }

  lemma Between(low: real, x: real, b: real, y: real, high: real, a: real)
    requires low <= x && y < high && a > 0.0 && b > 0.0 && x * b == y * a
    ensures low * b < high * a
  {
    Scales(low, x, b);
    Scales(y, high, a);
  }

  lemma RoundedBelow(x: real, y: real, a: real, b: real)
    requires a > 0.0 && b > 0.0 && x * b == y * a
    ensures x.Floor as real * b < (y.Floor + 1) as real * a
  {
    Between(x.Floor as real, x, b, y, (y.Floor + 1) as real, a);
  }

  /** Two positive scores are as their shares, but for the rounding of less than a unit; who has no positive score
      gets nothing as long as somebody has one, and if nobody has, all get the same. */
  lemma SharesInProportion(available: nat, ranked: seq<Ranked>, i: nat, j: nat)
    requires i < |ranked| && j < |ranked| && ranked[i].score > 0.0
    ensures var here, there := Share(available, ranked[i], ranked), Share(available, ranked[j], ranked);
            if ranked[j].score > 0.0 then
              && here as real * ranked[j].score < (there + 1) as real * ranked[i].score
              && there as real * ranked[i].score < (here + 1) as real * ranked[j].score
            else there == 0
  {
    SomeScore(ranked, i);
    var sum := SumScores(ranked);
    var a, b := ranked[i].score, ranked[j].score;
    if b > 0.0 {
      var x, y := Portion(available, a, sum), Portion(available, b, sum);
      CrossMultiply(available, a, b, sum);
      RoundedBelow(x, y, a, b);
      RoundedBelow(y, x, b, a);
    } else {
      assert 0.0 / sum == 0.0;
    }
  }

  lemma {:induction false} SomeScore(ranked: seq<Ranked>, i: nat)
    requires i < |ranked| && ranked[i].score > 0.0
    ensures SumScores(ranked) > 0.0
  {
    if i < |ranked| - 1 {
      SomeScore(ranked[..|ranked| - 1], i);
    }
  }

  lemma {:induction false} NoScore(ranked: seq<Ranked>)
    requires forall i | 0 <= i < |ranked| :: ranked[i].score <= 0.0
    ensures SumScores(ranked) == 0.0
  {
    if ranked != [] {
      NoScore(ranked[..|ranked| - 1]);
    }
  }

  lemma SharesEven(available: nat, ranked: seq<Ranked>, i: nat)
    requires i < |ranked| && forall j | 0 <= j < |ranked| :: ranked[j].score <= 0.0
    ensures Share(available, ranked[i], ranked) == available / |ranked|
  {
    NoScore(ranked);
  }

  // ----- Distribute -----

  function Distributed(available: nat, ranked: seq<Ranked>, maxPer: int, r: Ranked): int
    requires ranked != []
  {
    if available == 0 then 0 else Cap(Share(available, r, ranked), maxPer)
  }

  method TotalScore(ranked: seq<Ranked>) returns (sumScore: real)
    ensures sumScore == SumScores(ranked)
  {
    sumScore := 0.0;
    for i := 0 to |ranked|
      invariant sumScore == SumScores(ranked[..i])
    {
      assert ranked[..i + 1][..i] == ranked[..i];
      if ranked[i].score > 0.0 {
        sumScore := sumScore + ranked[i].score;
      }
    }
    assert ranked[..|ranked|] == ranked;
  }

  method AmountFor(available: nat, r: Ranked, ghost ranked: seq<Ranked>, n: nat, sumScore: real, maxPer: int)
    returns (amt: int)
    requires n == |ranked| > 0 && sumScore == SumScores(ranked)
    ensures amt == Cap(Share(available, r, ranked), maxPer)
  {
    if sumScore > 0.0 {
      var score := r.score;
      if score < 0.0 {
        score := 0.0;
      }
      amt := (available as real * (score / sumScore)).Floor;
    } else {
      amt := available / n;
    }
    if maxPer > 0 && amt > maxPer {
      amt := maxPer;
    }
  }

  method Distribute(ranked: seq<Ranked>, total: int64, reserve: int64, maxPer: int)
    returns (plans: seq<Plan>, remainder: int64)
    ensures |plans| == |ranked| && remainder == Wrap(total - Allocated(plans))
    ensures forall i | 0 <= i < |ranked| ::
              plans[i] == Plan(ranked[i].candidate, Distributed(Available(total, reserve), ranked, maxPer, ranked[i]))
  {
    var available := Available(total, reserve);
    var sumScore := TotalScore(ranked);
    plans := [];
    var spent: int64 := 0;
    for i := 0 to |ranked|
      invariant |plans| == i && spent == Wrap(Allocated(plans))
      invariant forall j | 0 <= j < i ::
                  plans[j] == Plan(ranked[j].candidate, Distributed(available, ranked, maxPer, ranked[j]))
    {
      var amt := 0;
      if available > 0 {
        amt := AmountFor(available, ranked[i], ranked, |ranked|, sumScore, maxPer);
      }
      spent := Spend(spent, plans, Plan(ranked[i].candidate, amt));
      plans := plans + [Plan(ranked[i].candidate, amt)];
    }
    remainder := Remainder(total, spent, plans);
  }

  method Spend(spent: int64, ghost plans: seq<Plan>, p: Plan) returns (more: int64)
    requires spent == Wrap(Allocated(plans))
    ensures more == Wrap(Allocated(plans + [p]))
  {
    AllocatedSnoc(plans, p);
    WrapAdd(Allocated(plans), p.amount);
    return Wrap(spent as int + p.amount);
  }

  method Remainder(total: int64, spent: int64, ghost plans: seq<Plan>) returns (remainder: int64)
    requires spent == Wrap(Allocated(plans))
    ensures remainder == Wrap(total - Allocated(plans))
  {
    WrapSubtract(total, Allocated(plans));
    return Wrap(total as int - spent);
  }

  function Sharing(available: nat, ranked: seq<Ranked>): Ranked -> int
    requires ranked != []
  {
    (r: Ranked) => Share(available, r, ranked)
  }

  lemma {:induction false} SharesAreSum(available: nat, ranked: seq<Ranked>, k: nat)
    requires ranked != [] && k <= |ranked|
    ensures SumBy(ranked[..k], Sharing(available, ranked)) == Sum(Shares(available, ranked, k))
  {
    if k > 0 {
      SharesAreSum(available, ranked, k - 1);
      SharesSnoc(available, ranked, k - 1);
      assert ranked[..k] == ranked[..k - 1] + [ranked[k - 1]];
      SumAppend(ranked[..k - 1], [ranked[k - 1]], Sharing(available, ranked));
      assert [ranked[k - 1]][1..] == [];
    }
  }

  /** Proportional distribution: within the cap, within what is available, and without a cap all of it
      but for less than one unit per destination. */
  lemma DistributeSound(ranked: seq<Ranked>, available: nat, maxPer: int, plans: seq<Plan>)
    requires ranked != [] && |plans| == |ranked|
    requires forall i | 0 <= i < |ranked| ::
               plans[i] == Plan(ranked[i].candidate, Distributed(available, ranked, maxPer, ranked[i]))
    ensures forall i | 0 <= i < |plans| :: 0 <= plans[i].amount && (maxPer > 0 ==> plans[i].amount <= maxPer)
    ensures Allocated(plans) <= available
    ensures maxPer <= 0 ==> available < Allocated(plans) + |ranked|
  {
    forall i | 0 <= i < |ranked|
      ensures 0 <= plans[i].amount <= Share(available, ranked[i], ranked)
      ensures maxPer <= 0 && available > 0 ==> plans[i].amount == Share(available, ranked[i], ranked)
    {
      ShareNonNegative(available, ranked[i], ranked);
    }
    SharesFit(available, ranked);
    PlansBelowShares(ranked, available, plans, |ranked|, maxPer <= 0 && available > 0);
    assert plans[..|ranked|] == plans;
    if available == 0 {
      PlansNonNegative(plans, |plans|);
    }
  }

  ghost predicate IsDistribution(plans: seq<Plan>, ranked: seq<Ranked>, available: nat, maxPer: int) {
    && |plans| == |ranked|
    && forall i | 0 <= i < |ranked| ::
         plans[i] == Plan(ranked[i].candidate, Distributed(available, ranked, maxPer, ranked[i]))
  }

  /** Whatever the ranking and the cap, no more is handed out than the total exceeds the reserve by, exactly if
      their difference is not below 64 bits. */
  lemma DistributeExactly(total: int64, reserve: int64)
    ensures (forall plans, ranked, maxPer | IsDistribution(plans, ranked, Available(total, reserve), maxPer) ::
               Allocated(plans) <= Max0(total as int - reserve))
            <==> total as int - reserve >= MIN_INT64
  {
    var available := Available(total, reserve);
    AvailableExactly(total, reserve);
    if total as int - reserve >= MIN_INT64 {
      forall plans, ranked, maxPer | IsDistribution(plans, ranked, available, maxPer)
        ensures Allocated(plans) <= Max0(total as int - reserve)
      {
        if ranked != [] {
          DistributeSound(ranked, available, maxPer, plans);
        }
      }
    } else {
      var ranked := [Ranked(Candidate("", "", 0), 0.0)];
      var plans := [Plan(ranked[0].candidate, Distributed(available, ranked, 0, ranked[0]))];
      DistributeSound(ranked, available, 0, plans);
      assert IsDistribution(plans, ranked, available, 0);
    }
  }

  lemma {:induction false} PlansNonNegative(plans: seq<Plan>, k: nat)
    requires k <= |plans| && forall i | 0 <= i < k :: plans[i].amount >= 0
    ensures Allocated(plans[..k]) >= 0
  {
    if k > 0 {
      PlansNonNegative(plans, k - 1);
      assert plans[..k] == plans[..k - 1] + [plans[k - 1]];
      AllocatedSnoc(plans[..k - 1], plans[k - 1]);
    }
  }

  lemma {:induction false} PlansBelowShares(ranked: seq<Ranked>, available: nat, plans: seq<Plan>, k: nat, exact: bool)
    requires ranked != [] && |plans| == |ranked| && k <= |ranked|
    requires forall i | 0 <= i < |ranked| :: plans[i].amount <= Share(available, ranked[i], ranked)
    requires exact ==> forall i | 0 <= i < |ranked| :: plans[i].amount == Share(available, ranked[i], ranked)
    ensures Allocated(plans[..k]) <= Sum(Shares(available, ranked, k))
    ensures exact ==> Allocated(plans[..k]) == Sum(Shares(available, ranked, k))
  {
    if k > 0 {
      PlansBelowShares(ranked, available, plans, k - 1, exact);
      SharesSnoc(available, ranked, k - 1);
      assert plans[..k] == plans[..k - 1] + [plans[k - 1]];
      AllocatedSnoc(plans[..k - 1], plans[k - 1]);
    }
  }

  // ----- filling goals first -----

  function Get(m: map<string, int>, id: string): int { if id in m then m[id] else 0 }

  /** What a goal can take at most. */
  function Goal(c: Candidate, maxPer: int): int { Cap(Max0(c.remainingToTarget), maxPer) }

  datatype Filled = Filled(given: map<string, int>, left: int)

  /** The fill pass: in ranked order, each goal up to its target, the cap and what is left. */
  function FillPass(ranked: seq<Ranked>, available: int, maxPer: int, given: map<string, int>): Filled
    decreases |ranked|
  {
    if ranked == [] || available <= 0 then Filled(given, available)
    else
      var c := ranked[0].candidate;
      if c.remainingToTarget <= 0 then FillPass(ranked[1..], available, maxPer, given)
      else
        var give := if Goal(c, maxPer) > available then available else Goal(c, maxPer);
        FillPass(ranked[1..], available - give, maxPer, given[c.id := give])
  }

  predicate HasRoom(r: Ranked, given: map<string, int>, maxPer: int) {
    maxPer <= 0 || maxPer - Get(given, r.candidate.id) > 0
  }

  function Roomy(ranked: seq<Ranked>, given: map<string, int>, maxPer: int): seq<Ranked> {
    if ranked == [] then []
    else (if HasRoom(ranked[0], given, maxPer) then [ranked[0]] else []) + Roomy(ranked[1..], given, maxPer)
  }

  /** A destination's part of the spread, clamped to the room it has left. */
  function SpreadOf(r: Ranked, roomy: seq<Ranked>, left: nat, given: map<string, int>, maxPer: int): int
    requires roomy != []
  {
    var amt := Share(left, r, roomy);
    if maxPer > 0 && amt > maxPer - Get(given, r.candidate.id) then maxPer - Get(given, r.candidate.id) else amt
  }

  function SpreadUpTo(roomy: seq<Ranked>, k: nat, left: nat, given: map<string, int>, maxPer: int): map<string, int>
    requires k <= |roomy|
  {
    if k == 0 then map[]
    else SpreadUpTo(roomy, k - 1, left, given, maxPer)
           [roomy[k - 1].candidate.id := SpreadOf(roomy[k - 1], roomy, left, given, maxPer)]
  }

  function SpreadPass(ranked: seq<Ranked>, filled: Filled, maxPer: int): map<string, int> {
    var roomy := Roomy(ranked, filled.given, maxPer);
    if filled.left <= 0 then map[] else SpreadUpTo(roomy, |roomy|, filled.left, filled.given, maxPer)
  }

  method FillGoals(ranked: seq<Ranked>, available0: nat, maxPer: int) returns (given: map<string, int>, available: int)
    ensures Filled(given, available) == FillPass(ranked, available0, maxPer, map[])
  {
    given, available := map[], available0;
    for i := 0 to |ranked|
      invariant FillPass(ranked[i..], available, maxPer, given) == FillPass(ranked, available0, maxPer, map[])
    {
      assert ranked[i..][1..] == ranked[i + 1..];
      var c := ranked[i].candidate;
      if available <= 0 {
        return;
      }
      if c.remainingToTarget <= 0 {
        continue;
      }
      var give := c.remainingToTarget;
      if maxPer > 0 && give > maxPer {
        give := maxPer;
      }
      if give > available {
        give := available;
      }
      given := given[c.id := give];
      available := available - give;
    }
  }

  method SelectRoomy(ranked: seq<Ranked>, given: map<string, int>, maxPer: int) returns (roomy: seq<Ranked>)
    ensures roomy == Roomy(ranked, given, maxPer)
  {
    roomy := [];
    for i := 0 to |ranked|
      invariant roomy + Roomy(ranked[i..], given, maxPer) == Roomy(ranked, given, maxPer)
    {
      assert ranked[i..][1..] == ranked[i + 1..];
      if maxPer > 0 && maxPer - Get(given, ranked[i].candidate.id) <= 0 {
        continue;
      }
      Regroup(roomy, [ranked[i]], Roomy(ranked[i + 1..], given, maxPer));
      roomy := roomy + [ranked[i]];
    }
  }

  method Spread(ranked: seq<Ranked>, given: map<string, int>, left: int, maxPer: int) returns (spread: map<string, int>)
    requires left <= MAX_INT64
    ensures spread == SpreadPass(ranked, Filled(given, left), maxPer)
  {
    spread := map[];
    if left > 0 {
      var roomy := SelectRoomy(ranked, given, maxPer);
      if |roomy| > 0 {
        var raw, rest := Distribute(roomy, left, 0, 0);
        for i := 0 to |roomy|
          invariant spread == SpreadUpTo(roomy, i, left, given, maxPer)
        {
          var amt := raw[i].amount;
          if maxPer > 0 {
            var room := maxPer - Get(given, raw[i].candidate.id);
            if amt > room {
              amt := room;
            }
          }
          spread := spread[raw[i].candidate.id := amt];
        }
      }
    }
  }

  ghost predicate IsFillPlan(plans: seq<Plan>, ranked: seq<Ranked>, total: int64, reserve: int64, maxPer: int) {
    && |plans| == |ranked|
    && if total <= 0 then forall i | 0 <= i < |ranked| :: plans[i] == Plan(ranked[i].candidate, 0)
       else
         var filled := FillPass(ranked, Available(total, reserve), maxPer, map[]);
         var spread := SpreadPass(ranked, filled, maxPer);
         forall i | 0 <= i < |ranked| ::
           var id := ranked[i].candidate.id;
           plans[i] == Plan(ranked[i].candidate, Get(filled.given, id) + Get(spread, id))
  }

  lemma {:induction false} FillLeavesNoMore(ranked: seq<Ranked>, available: int, maxPer: int, given: map<string, int>)
    ensures FillPass(ranked, available, maxPer, given).left <= available
    decreases |ranked|
  {
    if ranked != [] && available > 0 {
      var c, rest := ranked[0].candidate, ranked[1..];
      var give := if Goal(c, maxPer) > available then available else Goal(c, maxPer);
      if c.remainingToTarget <= 0 {
        FillLeavesNoMore(rest, available, maxPer, given);
      } else {
        FillLeavesNoMore(rest, available - give, maxPer, given[c.id := give]);
      }
    }
  }

  method DistributeFillToTarget(ranked: seq<Ranked>, total: int64, reserve: int64, maxPer: int)
    returns (plans: seq<Plan>, remainder: int64)
    ensures IsFillPlan(plans, ranked, total, reserve, maxPer)
    ensures remainder == Wrap(total - Allocated(plans))
  {
    var given, available := map[], 0;
    var spread := map[];
    if total > 0 && |ranked| > 0 {
      given, available := FillGoals(ranked, Available(total, reserve), maxPer);
      FillLeavesNoMore(ranked, Available(total, reserve), maxPer, map[]);
      spread := Spread(ranked, given, available, maxPer);
    }
    plans := [];
    var sum: int64 := 0;
    for i := 0 to |ranked|
      invariant |plans| == i && sum == Wrap(Allocated(plans))
      invariant forall j | 0 <= j < i ::
                  var id := ranked[j].candidate.id;
                  plans[j] == Plan(ranked[j].candidate, Get(given, id) + Get(spread, id))
    {
      var id := ranked[i].candidate.id;
      var p := Plan(ranked[i].candidate, Get(given, id) + Get(spread, id));
      sum := Spend(sum, plans, p);
      plans := plans + [p];
    }
    remainder := Remainder(total, sum, plans);
  }

  // ----- fill-then-spread is sound -----

  ghost predicate Distinct(ranked: seq<Ranked>) {
    forall i, j | 0 <= i < j < |ranked| :: ranked[i].candidate.id != ranked[j].candidate.id
  }

  function Given(m: map<string, int>): Ranked -> int { (r: Ranked) => Get(m, r.candidate.id) }

  /** The goals of `ranked` are filled in order: nobody gets anything before all above are full. */
  ghost predicate InOrder(ranked: seq<Ranked>, given: map<string, int>, maxPer: int) {
    && (forall i | 0 <= i < |ranked| ::
          0 <= Get(given, ranked[i].candidate.id) <= Goal(ranked[i].candidate, maxPer))
    && (forall i, j | 0 <= i < j < |ranked| && Get(given, ranked[j].candidate.id) > 0 ::
          Get(given, ranked[i].candidate.id) == Goal(ranked[i].candidate, maxPer))
  }

  ghost predicate AllFull(ranked: seq<Ranked>, given: map<string, int>, maxPer: int) {
    forall i | 0 <= i < |ranked| :: Get(given, ranked[i].candidate.id) == Goal(ranked[i].candidate, maxPer)
  }

  ghost predicate NotYet(ranked: seq<Ranked>, given: map<string, int>) {
    forall i | 0 <= i < |ranked| :: ranked[i].candidate.id !in given
  }

  lemma {:induction false} NothingGiven(ranked: seq<Ranked>, given: map<string, int>)
    requires NotYet(ranked, given)
    ensures SumBy(ranked, Given(given)) == 0
  {
    if ranked != [] {
      NothingGiven(ranked[1..], given);
    }
  }

  ghost predicate Names(ranked: seq<Ranked>, id: string) {
    exists i :: 0 <= i < |ranked| && ranked[i].candidate.id == id
  }

  lemma {:induction false} FillFrame(ranked: seq<Ranked>, available: int, maxPer: int, given: map<string, int>,
                                     id: string)
    requires !Names(ranked, id)
    ensures Get(FillPass(ranked, available, maxPer, given).given, id) == Get(given, id)
    decreases |ranked|
  {
    if ranked != [] && available > 0 {
      var c, rest := ranked[0].candidate, ranked[1..];
      assert !Names(rest, id) && c.id != id;
      var give := if Goal(c, maxPer) > available then available else Goal(c, maxPer);
      if c.remainingToTarget <= 0 {
        FillFrame(rest, available, maxPer, given, id);
      } else {
        FillFrame(rest, available - give, maxPer, given[c.id := give], id);
      }
    }
  }

  /** The state of the fill pass after the first of `ranked`, and what that one keeps for good. */
  lemma FillHead(ranked: seq<Ranked>, available: nat, maxPer: int, given: map<string, int>)
    returns (available': nat, given': map<string, int>)
    requires Distinct(ranked) && NotYet(ranked, given) && ranked != [] && available > 0
    ensures Distinct(ranked[1..]) && NotYet(ranked[1..], given')
    ensures FillPass(ranked, available, maxPer, given) == FillPass(ranked[1..], available', maxPer, given')
    ensures var c := ranked[0].candidate;
            var got := Get(FillPass(ranked, available, maxPer, given).given, c.id);
            && available' == available - got && 0 <= got <= Goal(c, maxPer)
            && (available' > 0 ==> got == Goal(c, maxPer))
  {
    var c, rest := ranked[0].candidate, ranked[1..];
    assert !Names(rest, c.id);
    assert forall i | 0 <= i < |rest| :: rest[i] == ranked[i + 1];
    if c.remainingToTarget <= 0 {
      available', given' := available, given;
    } else {
      var give := if Goal(c, maxPer) > available then available else Goal(c, maxPer);
      available', given' := available - give, given[c.id := give];
    }
    FillFrame(rest, available', maxPer, given', c.id);
  }

  lemma {:induction false} FillSum(ranked: seq<Ranked>, available: nat, maxPer: int, given: map<string, int>)
    requires Distinct(ranked) && NotYet(ranked, given)
    ensures var f := FillPass(ranked, available, maxPer, given);
            f.left >= 0 && SumBy(ranked, Given(f.given)) + f.left == available
    decreases |ranked|
  {
    if ranked == [] || available <= 0 {
      NothingGiven(ranked, given);
    } else {
      var available', given' := FillHead(ranked, available, maxPer, given);
      FillSum(ranked[1..], available', maxPer, given');
    }
  }

  lemma {:induction false} FillOrder(ranked: seq<Ranked>, available: nat, maxPer: int, given: map<string, int>)
    requires Distinct(ranked) && NotYet(ranked, given)
    ensures var f := FillPass(ranked, available, maxPer, given);
            && InOrder(ranked, f.given, maxPer)
            && (f.left > 0 ==> AllFull(ranked, f.given, maxPer))
            && (available == 0 ==> forall i | 0 <= i < |ranked| :: Get(f.given, ranked[i].candidate.id) == 0)
    decreases |ranked|
  {
    if ranked != [] && available > 0 {
      var available', given' := FillHead(ranked, available, maxPer, given);
      FillOrder(ranked[1..], available', maxPer, given');
      assert forall i | 1 <= i < |ranked| :: ranked[i] == ranked[1..][i - 1];
      FillSum(ranked[1..], available', maxPer, given');
    }
  }

  // ----- the spread -----

  lemma {:induction false} RoomyFacts(ranked: seq<Ranked>, given: map<string, int>, maxPer: int)
    requires Distinct(ranked)
    ensures var roomy := Roomy(ranked, given, maxPer);
            && Distinct(roomy)
            && (forall r | r in roomy :: r in ranked && HasRoom(r, given, maxPer))
            && (forall r | r in ranked && HasRoom(r, given, maxPer) :: r in roomy)
  {
    if ranked != [] {
      RoomyFacts(ranked[1..], given, maxPer);
      assert forall r | r in ranked[1..] :: r.candidate.id != ranked[0].candidate.id;
    }
  }

  lemma {:induction false} SpreadAt(roomy: seq<Ranked>, k: nat, left: nat, given: map<string, int>, maxPer: int)
    requires Distinct(roomy) && k <= |roomy|
    ensures var m := SpreadUpTo(roomy, k, left, given, maxPer);
            && (forall i | 0 <= i < k ::
                  && roomy[i].candidate.id in m
                  && m[roomy[i].candidate.id] == SpreadOf(roomy[i], roomy, left, given, maxPer))
            && (forall id | id in m :: exists i :: 0 <= i < k && roomy[i].candidate.id == id)
  {
    if k > 0 {
      SpreadAt(roomy, k - 1, left, given, maxPer);
    }
  }

  /** Every destination's spread is non-negative, within its share and within its room. */
  lemma SpreadBounds(r: Ranked, roomy: seq<Ranked>, left: nat, given: map<string, int>, maxPer: int)
    requires r in roomy && HasRoom(r, given, maxPer)
    ensures 0 <= SpreadOf(r, roomy, left, given, maxPer) <= Share(left, r, roomy)
    ensures maxPer > 0 ==> SpreadOf(r, roomy, left, given, maxPer) <= maxPer - Get(given, r.candidate.id)
  {
    ShareNonNegative(left, r, roomy);
  }

  /** Summed over everybody, the spread is no more than the shares of those with room. */
  lemma {:induction false} SpreadSum(ranked: seq<Ranked>, roomy: seq<Ranked>, spread: map<string, int>,
                                     given: map<string, int>, left: nat, maxPer: int)
    requires roomy != [] && Distinct(ranked)
    requires forall r | r in ranked && HasRoom(r, given, maxPer) ::
               Get(spread, r.candidate.id) <= Share(left, r, roomy)
    requires forall r | r in ranked && !HasRoom(r, given, maxPer) :: Get(spread, r.candidate.id) == 0
    ensures SumBy(ranked, Given(spread)) <= SumBy(Roomy(ranked, given, maxPer), Sharing(left, roomy))
  {
    if ranked != [] {
      assert forall r | r in ranked[1..] :: r in ranked;
      SpreadSum(ranked[1..], roomy, spread, given, left, maxPer);
      var head := if HasRoom(ranked[0], given, maxPer) then [ranked[0]] else [];
      SumAppend(head, Roomy(ranked[1..], given, maxPer), Sharing(left, roomy));
      assert head != [] ==> head[1..] == [];
    }
  }

  /** One destination's part of the spread: its clamped share if it has room, nothing otherwise. */
  lemma SpreadEach(ranked: seq<Ranked>, filled: Filled, maxPer: int, r: Ranked)
    requires Distinct(ranked) && r in ranked && filled.left > 0 && Roomy(ranked, filled.given, maxPer) != []
    ensures var got := Get(SpreadPass(ranked, filled, maxPer), r.candidate.id);
            var roomy := Roomy(ranked, filled.given, maxPer);
            if HasRoom(r, filled.given, maxPer) then
              && 0 <= got <= Share(filled.left, r, roomy)
              && (maxPer > 0 ==> got <= maxPer - Get(filled.given, r.candidate.id))
            else got == 0
  {
    var roomy := Roomy(ranked, filled.given, maxPer);
    var spread := SpreadPass(ranked, filled, maxPer);
    RoomyFacts(ranked, filled.given, maxPer);
    SpreadAt(roomy, |roomy|, filled.left, filled.given, maxPer);
    if HasRoom(r, filled.given, maxPer) {
      var i :| 0 <= i < |roomy| && roomy[i] == r;
      SpreadBounds(r, roomy, filled.left, filled.given, maxPer);
    } else if r.candidate.id in spread {
      var i :| 0 <= i < |roomy| && roomy[i].candidate.id == r.candidate.id;
      SameId(ranked, roomy[i], r);
    }
  }

  /** What the spread pass hands out: to those with room only, within it, and no more than is left. */
  lemma SpreadFacts(ranked: seq<Ranked>, filled: Filled, maxPer: int)
    requires Distinct(ranked) && filled.left >= 0
    ensures var spread := SpreadPass(ranked, filled, maxPer);
            && (forall r | r in ranked ::
                  && 0 <= Get(spread, r.candidate.id)
                  && (maxPer > 0 && Get(spread, r.candidate.id) > 0 ==>
                        Get(spread, r.candidate.id) <= maxPer - Get(filled.given, r.candidate.id)))
            && SumBy(ranked, Given(spread)) <= filled.left
  {
    var roomy := Roomy(ranked, filled.given, maxPer);
    var spread := SpreadPass(ranked, filled, maxPer);
    if filled.left == 0 || roomy == [] {
      assert spread == map[];
      NothingGiven(ranked, spread);
    } else {
      forall r | r in ranked {
        SpreadEach(ranked, filled, maxPer, r);
      }
      SpreadSum(ranked, roomy, spread, filled.given, filled.left, maxPer);
      SharesAreSum(filled.left, roomy, |roomy|);
      assert roomy[..|roomy|] == roomy;
      SharesFit(filled.left, roomy);
    }
  }

  lemma {:induction false} EverybodyRoomy(ranked: seq<Ranked>, given: map<string, int>, maxPer: int)
    requires maxPer <= 0
    ensures Roomy(ranked, given, maxPer) == ranked
  {
    if ranked != [] {
      EverybodyRoomy(ranked[1..], given, maxPer);
    }
  }

  /** Without a cap everybody gets their whole share. */
  lemma UncappedSpread(ranked: seq<Ranked>, filled: Filled, maxPer: int, r: Ranked)
    requires Distinct(ranked) && r in ranked && filled.left > 0 && maxPer <= 0
    ensures Get(SpreadPass(ranked, filled, maxPer), r.candidate.id) == Share(filled.left, r, ranked)
  {
    EverybodyRoomy(ranked, filled.given, maxPer);
    SpreadAt(ranked, |ranked|, filled.left, filled.given, maxPer);
    var i :| 0 <= i < |ranked| && ranked[i] == r;
  }

  lemma SharesSum(left: nat, ranked: seq<Ranked>)
    requires ranked != []
    ensures left < SumBy(ranked, Sharing(left, ranked)) + |ranked|
  {
    SharesAreSum(left, ranked, |ranked|);
    assert ranked[..|ranked|] == ranked;
    SharesFit(left, ranked);
  }

  /** Without a cap the spread hands out all that is left but for less than one unit per destination. */
  lemma SpreadLeavesLittle(ranked: seq<Ranked>, filled: Filled, maxPer: int)
    requires Distinct(ranked) && ranked != [] && filled.left >= 0 && maxPer <= 0
    ensures filled.left < SumBy(ranked, Given(SpreadPass(ranked, filled, maxPer))) + |ranked|
  {
    var spread := SpreadPass(ranked, filled, maxPer);
    if filled.left == 0 {
      NothingGiven(ranked, spread);
    } else {
      forall r | r in ranked
        ensures Given(spread)(r) == Sharing(filled.left, ranked)(r)
      {
        UncappedSpread(ranked, filled, maxPer, r);
      }
      SumAgree(ranked, Given(spread), Sharing(filled.left, ranked));
      SharesSum(filled.left, ranked);
    }
  }

  lemma SameId(ranked: seq<Ranked>, a: Ranked, b: Ranked)
    requires Distinct(ranked) && a in ranked && b in ranked && a.candidate.id == b.candidate.id
    ensures a == b
  {
  }

  lemma {:induction false} PlansSum(plans: seq<Plan>, ranked: seq<Ranked>, a: map<string, int>, b: map<string, int>)
    requires |plans| == |ranked|
    requires forall i | 0 <= i < |ranked| ::
               plans[i].amount == Get(a, ranked[i].candidate.id) + Get(b, ranked[i].candidate.id)
    ensures Allocated(plans) == SumBy(ranked, Given(a)) + SumBy(ranked, Given(b))
  {
    if ranked != [] {
      PlansSum(plans[1..], ranked[1..], a, b);
    }
  }

  /** With distinct ids, whatever the scores: every amount is non-negative and within the cap, together they
      stay within what is available after the reserve, and goals are filled strictly in ranked order. */
  lemma FillThenSpreadSound(plans: seq<Plan>, ranked: seq<Ranked>, total: int64, reserve: int64, maxPer: int)
    requires Distinct(ranked) && reserve >= 0 && IsFillPlan(plans, ranked, total, reserve, maxPer)
    ensures forall i | 0 <= i < |plans| :: 0 <= plans[i].amount && (maxPer > 0 ==> plans[i].amount <= maxPer)
    ensures 0 <= Allocated(plans) <= Max0(total as int - reserve)
    ensures Wrap(total - Allocated(plans)) == total - Allocated(plans)
    ensures maxPer <= 0 < total && ranked != [] ==> Max0(total as int - reserve) < Allocated(plans) + |ranked|
    ensures total > 0 ==>
            var filled := FillPass(ranked, Max0(total as int - reserve), maxPer, map[]);
            && InOrder(ranked, filled.given, maxPer)
            && (filled.left > 0 ==> AllFull(ranked, filled.given, maxPer))
            && forall i | 0 <= i < |plans| :: plans[i].amount >= Get(filled.given, ranked[i].candidate.id)
  {
    if total <= 0 {
      PlansSum(plans, ranked, map[], map[]);
      NothingGiven(ranked, map[]);
      return;
    }
    AvailableExactly(total, reserve);
    var available := Max0(total as int - reserve);
    var filled := FillPass(ranked, available, maxPer, map[]);
    var spread := SpreadPass(ranked, filled, maxPer);
    FillSum(ranked, available, maxPer, map[]);
    FillOrder(ranked, available, maxPer, map[]);
    SpreadFacts(ranked, filled, maxPer);
    PlansSum(plans, ranked, filled.given, spread);
    PlansNonNegative(plans, |plans|);
    assert plans[..|plans|] == plans;
    if maxPer <= 0 && ranked != [] {
      SpreadLeavesLittle(ranked, filled, maxPer);
    }
  }

  // ----- exactly when it stays within the money -----

  function Ids(ranked: seq<Ranked>): seq<string> {
    seq(|ranked|, i requires 0 <= i < |ranked| => ranked[i].candidate.id)
  }

  predicate DistinctIds(ids: seq<string>) { forall i, j | 0 <= i < j < |ids| :: ids[i] != ids[j] }

  /** Whatever the names, targets and scores behind these ids, the split stays within the money. */
  ghost predicate NeverOverspends(ids: seq<string>) {
    forall ranked: seq<Ranked>, total: int64, reserve: int64, maxPer, plans: seq<Plan> |
      Ids(ranked) == ids && reserve >= 0 && IsFillPlan(plans, ranked, total, reserve, maxPer) ::
      Allocated(plans) <= Max0(total as int - reserve)
  }

  /** The candidate at `target` alone has a goal, of 100. */
  function OneGoal(ids: seq<string>, target: nat): seq<Ranked> {
    seq(|ids|, k requires 0 <= k < |ids| => Ranked(Candidate(ids[k], "", if k == target then 100 else 0), 0.0))
  }

  lemma {:induction false} OneGoalFilled(ids: seq<string>, target: nat, k: nat)
    requires k <= target < |ids|
    ensures FillPass(OneGoal(ids, target)[k..], 100, 0, map[]) == Filled(map[ids[target] := 100], 0)
    decreases target - k
  {
    var rest := OneGoal(ids, target)[k..];
    assert rest[0] == OneGoal(ids, target)[k] && rest[1..] == OneGoal(ids, target)[k + 1..];
    if k < target {
      OneGoalFilled(ids, target, k + 1);
    }
  }

  function OneGoalPlans(ids: seq<string>, target: nat): seq<Plan>
    requires target < |ids|
  {
    seq(|ids|, k requires 0 <= k < |ids| =>
      Plan(OneGoal(ids, target)[k].candidate, if ids[k] == ids[target] then 100 else 0))
  }

  lemma OneGoalPlanned(ids: seq<string>, target: nat)
    requires target < |ids|
    ensures IsFillPlan(OneGoalPlans(ids, target), OneGoal(ids, target), 100, 0, 0)
  {
    var ranked := OneGoal(ids, target);
    OneGoalFilled(ids, target, 0);
    assert ranked[0..] == ranked;
    assert SpreadPass(ranked, Filled(map[ids[target] := 100], 0), 0) == map[];
  }

  lemma {:induction false} AtLeast(plans: seq<Plan>, i: nat)
    requires i < |plans| && forall k | 0 <= k < |plans| :: plans[k].amount >= 0
    ensures Allocated(plans) >= plans[i].amount
  {
    if i > 0 {
      AtLeast(plans[1..], i - 1);
    } else {
      PlansNonNegative(plans[1..], |plans| - 1);
      assert plans[1..][..|plans| - 1] == plans[1..];
    }
  }

  lemma {:induction false} AtLeastBoth(plans: seq<Plan>, i: nat, j: nat)
    requires i < j < |plans| && forall k | 0 <= k < |plans| :: plans[k].amount >= 0
    ensures Allocated(plans) >= plans[i].amount + plans[j].amount
  {
    if i > 0 {
      AtLeastBoth(plans[1..], i - 1, j - 1);
    } else {
      AtLeast(plans[1..], j - 1);
    }
  }

  /** The split stays within the money for every ranking with these ids exactly if the ids are distinct: the
      maps of the source keep one amount per id and hand it out to everybody who has that id. */
  lemma NeverOverspendsExactly(ids: seq<string>)
    ensures NeverOverspends(ids) <==> DistinctIds(ids)
  {
    if DistinctIds(ids) {
      forall ranked: seq<Ranked>, total: int64, reserve: int64, maxPer, plans: seq<Plan> |
        Ids(ranked) == ids && reserve >= 0 && IsFillPlan(plans, ranked, total, reserve, maxPer)
        ensures Allocated(plans) <= Max0(total as int - reserve)
      {
        assert forall i | 0 <= i < |ranked| :: ranked[i].candidate.id == ids[i];
        FillThenSpreadSound(plans, ranked, total, reserve, maxPer);
      }
    } else {
      var i, j :| 0 <= i < j < |ids| && ids[i] == ids[j];
      var ranked, plans := OneGoal(ids, j), OneGoalPlans(ids, j);
      OneGoalPlanned(ids, j);
      AtLeastBoth(plans, i, j);
      assert Ids(ranked) == ids;
      assert Allocated(plans) > Max0(100 - 0);
    }
  }

  /** An instance: both copies of "a" get the 90 of the later one. */
  lemma DuplicateIdsOverspend(plans: seq<Plan>)
    requires var a, b := Ranked(Candidate("a", "", 10), 1.0), Ranked(Candidate("a", "", 90), 1.0);
             IsFillPlan(plans, [a, b], 100, 0, 0)
    ensures Allocated(plans) == 180
  {
    var a, b := Ranked(Candidate("a", "", 10), 1.0), Ranked(Candidate("a", "", 90), 1.0);
    assert [a, b][1..] == [b] && [b][1..] == [];
    assert FillPass([b], 90, 0, map["a" := 10]) == FillPass([], 0, 0, map["a" := 10]["a" := 90]);
    assert FillPass([a, b], 100, 0, map[]) == FillPass([b], 90, 0, map[]["a" := 10]);
    var filled := FillPass([a, b], 100, 0, map[]);
    assert filled.left == 0 && Get(filled.given, "a") == 90;
    assert plans == [plans[0]] + [plans[1]];
    AllocatedSnoc([plans[0]], plans[1]);
    assert [plans[0]] == [] + [plans[0]];
    AllocatedSnoc([], plans[0]);
  }

  // ----- committing the plan -----

  datatype ActionKind = GoalContribution | AccountEarmark | DebtPaydownEarmark

  datatype Action = Action(kind: ActionKind, destinationId: string, destinationName: string, amount: int)

  const GOAL := "goal:"

  function ActionFor(p: Plan, isLiability: string -> bool): Action {
    var c := p.candidate;
    if GOAL <= c.id then Action(GoalContribution, c.id[|GOAL|..], c.name, p.amount)
    else Action(if isLiability(c.id) then DebtPaydownEarmark else AccountEarmark, c.id, c.name, p.amount)
  }

  function ActionsFor(plans: seq<Plan>, isLiability: string -> bool): seq<Action> {
    if plans == [] then []
    else
      (if plans[0].amount > 0 then [ActionFor(plans[0], isLiability)] else [])
      + ActionsFor(plans[1..], isLiability)
  }

  function Committed(): Action -> int { (a: Action) => a.amount }

  method MakeAction(p: Plan, isLiability: string -> bool) returns (a: Action)
    ensures a == ActionFor(p, isLiability)
  {
    var id := p.candidate.id;
    if GOAL <= id {
      return Action(GoalContribution, id[|GOAL|..], p.candidate.name, p.amount);
    }
    var kind := AccountEarmark;
    if isLiability(id) {
      kind := DebtPaydownEarmark;
    }
    return Action(kind, id, p.candidate.name, p.amount);
  }

  /** What a plan adds to the actions. */
  function ActionOf(p: Plan, isLiability: string -> bool): seq<Action> {
    if p.amount > 0 then [ActionFor(p, isLiability)] else []
  }

  lemma ActionsStep(out: seq<Action>, plans: seq<Plan>, i: nat, isLiability: string -> bool)
    requires i < |plans|
    ensures out + ActionsFor(plans[i..], isLiability) ==
            out + ActionOf(plans[i], isLiability) + ActionsFor(plans[i + 1..], isLiability)
  {
    assert plans[i..][1..] == plans[i + 1..];
    Regroup(out, ActionOf(plans[i], isLiability), ActionsFor(plans[i + 1..], isLiability));
  }

  method PlanActions(plans: seq<Plan>, isLiability: string -> bool) returns (out: seq<Action>)
    ensures out == ActionsFor(plans, isLiability)
  {
    out := [];
    ghost var all := ActionsFor(plans, isLiability);
    assert plans[0..] == plans;
    for i := 0 to |plans|
      invariant out + ActionsFor(plans[i..], isLiability) == all
    {
      ActionsStep(out, plans, i, isLiability);
      if plans[i].amount <= 0 {
        assert out + [] == out;
        continue;
      }
      var action := MakeAction(plans[i], isLiability);
      out := out + [action];
    }
  }

  /** The actions commit exactly what non-negative plans allot: total less remainder. */
  lemma {:induction false} ActionsCommitPlans(plans: seq<Plan>, isLiability: string -> bool)
    requires forall i | 0 <= i < |plans| :: plans[i].amount >= 0
    ensures SumBy(ActionsFor(plans, isLiability), Committed()) == Allocated(plans)
    ensures forall a | a in ActionsFor(plans, isLiability) :: a.amount > 0
  {
    if plans != [] {
      ActionsCommitPlans(plans[1..], isLiability);
      var head := if plans[0].amount > 0 then [ActionFor(plans[0], isLiability)] else [];
      SumAppend(head, ActionsFor(plans[1..], isLiability), Committed());
      assert head != [] ==> head[1..] == [];
    }
  }

  /** The actions of two lists of plans are those of the one and then those of the other. */
  lemma {:induction false} ActionsAppend(a: seq<Plan>, b: seq<Plan>, isLiability: string -> bool)
    ensures ActionsFor(a + b, isLiability) == ActionsFor(a, isLiability) + ActionsFor(b, isLiability)
  {
    if a == [] {
      assert a + b == b;
    } else {
      assert (a + b)[1..] == a[1..] + b;
      ActionsAppend(a[1..], b, isLiability);
      Regroup(ActionOf(a[0], isLiability), ActionsFor(a[1..], isLiability), ActionsFor(b, isLiability));
    }
  }

  /** A goal's plan contributes to the goal, any other plan earmarks money in an account or for a debt. */
  lemma ActionsOfOne(rest: string, id: string, name: string, target: int, amount: int, isLiability: string -> bool)
    requires amount > 0 && (|id| < 5 || id[..5] != "goal:")
    ensures ActionsFor([Plan(Candidate("goal:" + rest, name, target), amount)], isLiability)
            == [Action(GoalContribution, rest, name, amount)]
    ensures ActionsFor([Plan(Candidate(id, name, target), amount)], isLiability)
            == [Action(if isLiability(id) then DebtPaydownEarmark else AccountEarmark, id, name, amount)]
    ensures ActionsFor([Plan(Candidate(id, name, target), 0)], isLiability) == []
  {
    var goal := "goal:" + rest;
    assert goal[..5] == "goal:" && goal[5..] == rest;
    assert [Plan(Candidate(goal, name, target), amount)][1..] == [];
    assert [Plan(Candidate(id, name, target), amount)][1..] == [];
    assert [Plan(Candidate(id, name, target), 0)][1..] == [];
  }
}
