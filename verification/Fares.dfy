/** Percentage bounds of an offer in 64-bit arithmetic. */
module Fares {
  const MINIMUM_PERCENT: int := 90
  const MAXIMUM_PERCENT: int := 130

  /** Two's-complement wrap of a mathematical integer to int64. */
  function Wrap64(x: int): int {
    (x + 0x8000_0000_0000_0000) % 0x1_0000_0000_0000_0000 - 0x8000_0000_0000_0000
  }

  predicate Int64(x: int) {
    -0x8000_0000_0000_0000 <= x < 0x8000_0000_0000_0000
  }

  /** Division and remainder by 100 that truncate toward zero. */
  function Quo100(x: int): int {
    if x >= 0 then x / 100 else -(-x / 100)
  }

  function Rem100(x: int): int {
    x - 100 * Quo100(x)
  }

  function PercentFloor(value: int, percent: int): int {
    Wrap64(Wrap64(Quo100(value) * percent) + Quo100(Wrap64(Rem100(value) * percent)))
  }

  function PercentCeil(value: int, percent: int): int {
    var whole := Wrap64(Quo100(value) * percent);
    var fraction := Wrap64(Rem100(value) * percent);
    Wrap64(whole + Quo100(Wrap64(fraction + 99)))
  }

  function Minimum(proposed: int): int {
    PercentCeil(proposed, MINIMUM_PERCENT)
  }

  function Maximum(proposed: int): int {
    PercentFloor(proposed, MAXIMUM_PERCENT)
  }

  lemma WrapIsIdentity(x: int)
    requires Int64(x)
    ensures Wrap64(x) == x
  {
  }

  /** No step overflows below 2^62, and the floor is exact. */
  lemma PercentFloorIsExact(value: int, percent: int)
    requires 0 <= value <= 0x4000_0000_0000_0000 && 0 <= percent <= MAXIMUM_PERCENT
    ensures PercentFloor(value, percent) == value * percent / 100
  {
    var q, m := value / 100, value % 100;
    SplitProduct(value, q, m, percent);
    WrapIsIdentity(q * percent);
    WrapIsIdentity(m * percent);
    WrapIsIdentity(q * percent + (m * percent) / 100);
  }

  /** Likewise the ceiling. */
  lemma PercentCeilIsExact(value: int, percent: int)
    requires 0 <= value <= 0x4000_0000_0000_0000 && 0 <= percent <= MAXIMUM_PERCENT
    ensures PercentCeil(value, percent) == (value * percent + 99) / 100
  {
    var q, m := value / 100, value % 100;
    SplitProduct(value, q, m, percent);
    WrapIsIdentity(q * percent);
    WrapIsIdentity(m * percent);
    WrapIsIdentity(m * percent + 99);
    WrapIsIdentity(q * percent + (m * percent + 99) / 100);
  }

  lemma SplitProduct(value: int, q: int, m: int, percent: int)
    requires value == 100 * q + m && 0 <= m < 100 && 0 <= q
    requires 0 <= value <= 0x4000_0000_0000_0000 && 0 <= percent <= MAXIMUM_PERCENT
    ensures value * percent == 100 * (q * percent) + m * percent
    ensures 0 <= q * percent <= 130 * q && 0 <= m * percent <= 130 * m
  {
  }

  /** An amount is inside the bounds exactly when it is between 90% and 130% of the proposal. */
  lemma BoundsMeanPercentages(proposed: int, amount: int)
    requires 0 < proposed <= 0x4000_0000_0000_0000
    ensures Minimum(proposed) <= amount <= Maximum(proposed)
       <==> 90 * proposed <= 100 * amount <= 130 * proposed
    ensures Minimum(proposed) <= proposed <= Maximum(proposed)
    ensures 0 < Minimum(proposed)
  {
    PercentCeilIsExact(proposed, MINIMUM_PERCENT);
    PercentFloorIsExact(proposed, MAXIMUM_PERCENT);
  }
}
