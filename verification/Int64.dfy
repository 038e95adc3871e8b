/** Go's int64 and uint64 arithmetic: wrap-around and division towards zero. */
module Int64 {

  const MAX_INT64: int := 0x7FFF_FFFF_FFFF_FFFF
  const MIN_INT64: int := -0x8000_0000_0000_0000
  const TWO_64: int := 0x1_0000_0000_0000_0000

  predicate InInt64(x: int) { MIN_INT64 <= x <= MAX_INT64 }

  /** Two's complement wrap-around of a 64-bit result. */
  function Wrap(x: int): (r: int)
    ensures InInt64(r)
    ensures InInt64(x) ==> r == x
  {
    (x - MIN_INT64) % TWO_64 + MIN_INT64
  }

  /** Go's division: towards zero. */
  function Quo(x: int, d: int): int
    requires d > 0
  {
    if x >= 0 then x / d else -((-x) / d)
  }

  lemma WrapAbove(x: int)
    requires x > MAX_INT64
    ensures Wrap(x) <= x - TWO_64
    ensures x <= MAX_INT64 + TWO_64 ==> Wrap(x) == x - TWO_64
  {
  }

  lemma WrapBelow(x: int)
    requires MIN_INT64 - TWO_64 <= x < MIN_INT64
    ensures Wrap(x) == x + TWO_64
  {
  }

  lemma WrapAdds(a: int, b: int)
    ensures Wrap(Wrap(a) + b) == Wrap(a + b)
  {
    var q := (a - MIN_INT64) / TWO_64;
    assert Wrap(a) == a - q * TWO_64;
    ModShift(a + b - MIN_INT64, q);
  }

  lemma ModStep(a: int, b: int)
    ensures (a % TWO_64 + b) % TWO_64 == (a + b) % TWO_64
  {
    var q := a / TWO_64;
    assert a % TWO_64 == a - q * TWO_64;
    ModShift(a + b, q);
  }

  lemma ModShift(x: int, q: int)
    ensures (x - q * TWO_64) % TWO_64 == x % TWO_64
  {
    var d, r := x / TWO_64, x % TWO_64;
    assert x - q * TWO_64 == (d - q) * TWO_64 + r;
    DivModUnique(x - q * TWO_64, d - q, r);
  }

  lemma DivModUnique(x: int, d: int, r: int)
    requires x == d * TWO_64 + r && 0 <= r < TWO_64
    ensures x % TWO_64 == r
  {
  }
}
