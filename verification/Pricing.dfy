/** The rate charged to a peer and the cost of an interval. */
module Pricing {
  import opened Machine

  /** Milli-units per second and per unit; negative means the node pays. */
  datatype Price = Price(perSecond: i64, perUnit: i64)

  function TimeCost(price: Price, elapsedMs: u64): int { TruncDiv(elapsedMs * price.perSecond, 1000) }

  function UnitCost(price: Price, units: u64): int { units * price.perUnit }

  predicate InI64(x: int) { I64_MIN <= x <= I64_MAX }

  /** 128-bit arithmetic, then saturation to 64 bits. */
  function CostScaled(price: Price, elapsedMs: u64, units: u64): i64 {
    var total := WrapI128(TimeCost(price, elapsedMs) + UnitCost(price, units));
    if InI64(total) then total else if total > 0 then I64_MAX else I64_MIN
  }

  /** The computed cost is the true cost exactly when the true cost is a 64-bit number. */
  lemma CostExactIff(price: Price, elapsedMs: u64, units: u64)
    ensures CostScaled(price, elapsedMs, units) == TimeCost(price, elapsedMs) + UnitCost(price, units)
            <==> InI64(TimeCost(price, elapsedMs) + UnitCost(price, units))
  {
  }

  lemma ProductBound(x: int, n: int, y: int, lo: int, hi: int)
    requires 0 <= x <= n && lo <= y <= hi && lo <= 0 <= hi
    ensures n * lo <= x * y <= n * hi
  {
    if y >= 0 {
      assert 0 <= x * y <= n * y <= n * hi;
    } else {
      assert 0 <= x * (-y) <= n * (-y) <= n * (-lo);
    }
  }

  /** Below half of the counter range the 128-bit sum never wraps: out-of-range costs saturate with the right sign. */
  lemma CostSaturates(price: Price, elapsedMs: u64, units: u64)
    requires units <= I64_MAX
    ensures var cost := TimeCost(price, elapsedMs) + UnitCost(price, units);
            CostScaled(price, elapsedMs, units)
            == if InI64(cost) then cost else if cost > 0 then I64_MAX else I64_MIN
  {
    ProductBound(elapsedMs, U64_MAX, price.perSecond, I64_MIN, I64_MAX);
    ProductBound(units, I64_MAX, price.perUnit, I64_MIN, I64_MAX);
  }

  /** What becomes of every cost: a 64-bit one is kept, one beyond that stops at the end its sign points to, and one beyond 128
      bits, which takes a count of more than half the range, wraps around and stops at the other end. */
  lemma CostOfAnyReading(price: Price, elapsedMs: u64, units: u64)
    ensures var cost, charged := TimeCost(price, elapsedMs) + UnitCost(price, units), CostScaled(price, elapsedMs, units);
            && (-0x8000_0000_0000_0000 <= cost <= 0x7FFF_FFFF_FFFF_FFFF ==> charged == cost)
            && (0x7FFF_FFFF_FFFF_FFFF < cost < 0x8000_0000_0000_0000_0000_0000_0000_0000 ==> charged == 0x7FFF_FFFF_FFFF_FFFF)
            && (0x8000_0000_0000_0000_0000_0000_0000_0000 <= cost ==> charged == -0x8000_0000_0000_0000)
            && (-0x8000_0000_0000_0000_0000_0000_0000_0000 <= cost < -0x8000_0000_0000_0000 ==> charged == -0x8000_0000_0000_0000)
            && (cost < -0x8000_0000_0000_0000_0000_0000_0000_0000 ==> charged == 0x7FFF_FFFF_FFFF_FFFF)
  {
    ProductBound(elapsedMs, U64_MAX, price.perSecond, I64_MIN, I64_MAX);
    ProductBound(units, U64_MAX, price.perUnit, I64_MIN, I64_MAX);
    var time, total := TimeCost(price, elapsedMs), UnitCost(price, units);
    assert -0x100_0000_0000_0000_0000_0000_0000_0000 <= time <= 0x100_0000_0000_0000_0000_0000_0000_0000;
    WrapOnce(time + total);
  }

  lemma WrapOnce(x: int)
    requires -3 * I128_HALF <= x < 3 * I128_HALF
    ensures WrapI128(x) == if x < -I128_HALF then x + 2 * I128_HALF else if x < I128_HALF then x else x - 2 * I128_HALF
  {
  }

  /** The two parts of a cost: units at their rate, and a thousandth of the milliseconds at theirs, rounded toward zero. */
  lemma CostParts(price: Price, elapsedMs: u64, units: u64)
    ensures UnitCost(price, units) == price.perUnit * units
    ensures 0 <= price.perSecond ==> 0 <= price.perSecond * elapsedMs - 1000 * TimeCost(price, elapsedMs) < 1000
    ensures price.perSecond < 0 ==> -1000 < price.perSecond * elapsedMs - 1000 * TimeCost(price, elapsedMs) <= 0
  {
    ProductBound(elapsedMs, U64_MAX, price.perSecond, if price.perSecond < 0 then I64_MIN else 0,
                 if price.perSecond < 0 then 0 else I64_MAX);
  }

  /** Such a reading exists: at the highest rates the largest counts cost nothing. */
  lemma LargestReadingIsFree()
    ensures CostScaled(Price(I64_MAX, I64_MAX), U64_MAX, U64_MAX) == I64_MIN
  {
    assert I128_HALF <= TimeCost(Price(I64_MAX, I64_MAX), U64_MAX) + UnitCost(Price(I64_MAX, I64_MAX), U64_MAX);
    CostOfAnyReading(Price(I64_MAX, I64_MAX), U64_MAX, U64_MAX);
  }
}
