/**
 Dollar-days that stay in 64 bits until they no longer fit: internal/agemoney/weighted.go.
 */
module WeightedSums {
  import opened Wrappers
  import opened Money

  /** The rounded quotient (w + m/2) / m, in exact arithmetic. */
  function RoundDiv(w: nat, m: int): nat
    requires m > 0
  {
    (w + m / 2) / m
  }

  /** A copy of the accumulator, as the source passes and stores it. */
  datatype WeightedAmount = WeightedAmount(small: int64, wide: Option<nat>) {
    function Value(): int { if wide.None? then small else wide.value }
    predicate Valid() { 0 <= small }
  }

  lemma QuotientBound(amount: nat, age: nat, max: nat)
    requires age > 0
    ensures amount <= max / age <==> amount * age <= max
  {
    var q := max / age;
    assert q * age <= max < (q + 1) * age;
    if amount <= q {
      assert amount * age <= q * age;
    } else {
      assert (q + 1) * age <= amount * age;
    }
  }

  lemma RoundSplit(w: nat, m: int)
    requires m > 0
    ensures RoundDiv(w, m) == w / m + if w % m >= m - m / 2 then 1 else 0
  {
    var q, r := w / m, w % m;
    assert w == m * q + r;
    var extra := if r >= m - m / 2 then 1 else 0;
    var rest := r + m / 2 - extra * m;
    assert w + m / 2 == m * (q + extra) + rest by {
      assert m * (q + extra) == m * q + m * extra;
    }
    QuotientUnique(w + m / 2, m, q + extra, rest);
  }

  lemma MulMonotone(m: nat, a: int, b: int)
    requires a <= b
    ensures m * a <= m * b
  {
    assert m * b - m * a == m * (b - a);
  }

  lemma QuotientUnique(n: int, m: int, q: int, r: int)
    requires m > 0 && n == m * q + r && 0 <= r < m
    ensures n / m == q
  {
    var p := n / m;
    assert m * p <= n < m * p + m;
    if p < q {
      MulMonotone(m, p + 1, q);
    } else if q < p {
      MulMonotone(m, q + 1, p);
    }
  }

  /** The rounded quotient is the nearest one, the larger of two that are equally near. */
  lemma RoundsToNearest(w: nat, m: int)
    requires m > 0
    ensures -(m / 2) <= w - m * RoundDiv(w, m) < m - m / 2
  {
    var n := w + m / 2;
    assert n == m * (n / m) + n % m;
  }

  class Accumulator {
    var small: int64
    var wide: Option<nat>

    ghost predicate Valid() reads this { 0 <= small }

    function Value(): int reads this { if wide.None? then small else wide.value }

    constructor ()
      ensures Valid() && Value() == 0 && wide.None?
    {
      small := 0;
      wide := None;
    }

    function Snapshot(): WeightedAmount reads this { WeightedAmount(small, wide) }

    method Promote() returns (w: nat)
      requires Valid()
      modifies this
      ensures wide == Some(w) && w == old(Value()) && small == old(small)
    {
      if wide.None? {
        wide := Some(small);
      }
      w := wide.value;
    }

    /** Exact for every amount and age; promoted exactly when the sum leaves 64 bits. */
    method AddProduct(amount: int64, age: int64)
      requires Valid() && 0 <= amount && 0 <= age
      modifies this
      ensures Valid() && Value() == old(Value()) + amount * age
      ensures wide.None? <==> old(wide).None? && old(Value()) + amount * age <= MAX_INT64
    {
      assert 0 <= amount * age;
      if age > 0 {
        QuotientBound(amount, age, MAX_INT64);
      }
      if wide.None? && (age == 0 || amount <= MAX_INT64 / age) {
        var product := amount * age;
        if small <= MAX_INT64 - product {
          small := small + product;
          return;
        }
      }
      var w := Promote();
      wide := Some(w + amount * age);
    }

    method Add(value: WeightedAmount)
      requires Valid() && value.Valid()
      modifies this
      ensures Valid() && Value() == old(Value()) + value.Value()
    {
      if value.wide.None? {
        AddProduct(value.small, 1);
        return;
      }
      var w := Promote();
      wide := Some(w + value.wide.value);
    }

    /** Both branches are the exact rounded quotient, as long as that fits in 64 bits. */
    method Rounded(matched: int64) returns (r: int64)
      requires Valid() && matched > 0
      ensures RoundDiv(Value(), matched) <= MAX_INT64 ==> r == RoundDiv(Value(), matched)
    {
      if wide.None? {
        RoundSplit(small, matched);
        var whole, remainder := small / matched, small % matched;
        QuotientLeavesRoom(small, matched);
        if remainder >= matched - matched / 2 {
          whole := whole + 1;
        }
        return whole;
      }
      return Wrap((wide.value + matched / 2) / matched);
    }
  }

  /** Rounding a 64-bit quotient up stays in 64 bits. */
  lemma QuotientLeavesRoom(w: nat, m: int)
    requires m > 0
    ensures w / m <= w
    ensures w % m >= m - m / 2 ==> w / m < w
  {
    var q, r := w / m, w % m;
    assert w == m * q + r;
    MulMonotone(q, 1, m);
    assert m * q == q * m;
  }
}
