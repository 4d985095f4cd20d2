/**
 64-bit minor units: internal/money/arithmetic.go, and the wrap-around of Go's own operators.
 */
module Money {
  import opened Wrappers

  const MAX_INT64: int := 0x7FFF_FFFF_FFFF_FFFF
  const MIN_INT64: int := -MAX_INT64 - 1
  const RANGE: int := MAX_INT64 - MIN_INT64 + 1

  type int64 = x: int | MIN_INT64 <= x <= MAX_INT64

  predicate Fits(x: int) { MIN_INT64 <= x <= MAX_INT64 }

  /** The low 64 bits of x, read as a signed number. */
  function Wrap(x: int): (r: int64)
    ensures Fits(x) ==> r == x
  {
    (x - MIN_INT64) % RANGE + MIN_INT64
  }

  /** money.Add: the sum, or an overflow error. */
  function Add(a: int64, b: int64): (r: Option<int64>)
    ensures r.Some? <==> Fits(a as int + b)
    ensures r.Some? ==> r.value == a + b
  {
    if (b > 0 && a > MAX_INT64 - b) || (b < 0 && a < MIN_INT64 - b) then None
    else Some(a + b)
  }

  /** money.Abs */
  function Abs(a: int64): (r: Option<int64>)
    ensures r.Some? <==> Fits(-(a as int))
    ensures r.Some? ==> r.value >= 0 && (r.value == a || r.value + a == 0)
  {
    if a == MIN_INT64 then None
    else if a < 0 then Some(-(a as int))
    else Some(a)
  }

  /** Wrapping early or late makes no difference. */
  lemma WrapAdd(a: int, b: int)
    ensures Wrap(Wrap(a) + b) == Wrap(a + b)
  {
    var x := a - MIN_INT64;
    var q := x / RANGE;
    assert x == q * RANGE + x % RANGE;
    ModShift(x % RANGE + b, q);
  }

  lemma WrapSubtract(a: int, b: int)
    ensures Wrap(a - Wrap(b)) == Wrap(a - b)
  {
    var x := b - MIN_INT64;
    assert x == x / RANGE * RANGE + x % RANGE;
    ModShift(a - b - MIN_INT64, x / RANGE);
  }

  lemma {:induction false} ModShift(x: int, q: int)
    ensures (x + q * RANGE) % RANGE == x % RANGE
    decreases if q < 0 then -q else q
  {
    if q > 0 {
      ModShift(x, q - 1);
    } else if q < 0 {
      ModShift(x, q + 1);
    }
  }
}
