/**
 * Time-decay pricing of an inventory item and its day counter.
 *
 * Timestamps are whole milliseconds; the clock reading `now` is a parameter.
 * Prices are exact reals.
 */
module Pricing {

  /** Milliseconds in a day: 1000 * 60 * 60 * 24. */
  const MsPerDay: int := 86400000

  /** The lowest price an item can reach. */
  const MinPrice: real := 1.0

  /** An item loses 1/DecayDays of its original price per whole day. */
  const DecayDays: int := 7

  function Abs(x: int): nat {
    if x < 0 then -x else x
  }

  function Max(a: real, b: real): real {
    if a >= b then a else b
  }

  /** Whole days between `createdAt` and `now`, in either direction. */
  function ElapsedDays(createdAt: int, now: int): (d: nat)
    ensures d * MsPerDay <= Abs(now - createdAt) < (d + 1) * MsPerDay
  {
    Abs(now - createdAt) / MsPerDay
  }

  /** The linear price before the floor is applied; on day 0 it is the original price. */
  function RawPrice(originalPrice: real, days: nat): (r: real)
    ensures r == originalPrice * (DecayDays - days) as real / DecayDays as real
  {
    originalPrice - (originalPrice / DecayDays as real) * days as real
  }

  /** The displayed price of an item: the linear decay, never below MinPrice. */
  function CurrentPrice(originalPrice: real, createdAt: int, now: int): (p: real)
    ensures p >= MinPrice
    ensures p >= RawPrice(originalPrice, ElapsedDays(createdAt, now))
    ensures p == MinPrice || p == RawPrice(originalPrice, ElapsedDays(createdAt, now))
  {
    var current := RawPrice(originalPrice, ElapsedDays(createdAt, now));
    if current > MinPrice then current else MinPrice
  }

  /** The 1-based day label of an item: day 1 is its first 24 hours. */
  function DayCount(createdAt: int, now: int): (n: int)
    ensures n >= 1
    ensures (n - 1) * MsPerDay <= Abs(now - createdAt) < n * MsPerDay
  {
    Abs(now - createdAt) / MsPerDay + 1
  }

  /** The day label is the decay's whole-day count plus one. */
  lemma DayCountIsElapsedPlusOne(createdAt: int, now: int)
    ensures DayCount(createdAt, now) == ElapsedDays(createdAt, now) + 1
  {
  }

  /** Within the first 24 hours the price is the original one, or the floor if that is higher. */
  lemma PriceOnFirstDay(originalPrice: real, createdAt: int, now: int)
    requires Abs(now - createdAt) < MsPerDay
    ensures CurrentPrice(originalPrice, createdAt, now) == Max(originalPrice, MinPrice)
    ensures DayCount(createdAt, now) == 1
  {
    assert ElapsedDays(createdAt, now) == 0;
  }

  /** (originalPrice / 7) * d is at least originalPrice once d >= 7. */
  lemma DropCoversPrice(originalPrice: real, days: nat)
    requires originalPrice >= 0.0 && days >= DecayDays
    ensures (originalPrice / DecayDays as real) * days as real >= originalPrice
  {
    var step := originalPrice / DecayDays as real;
    assert step >= 0.0;
    assert step * days as real - step * DecayDays as real == step * (days - DecayDays) as real;
    assert step * (days - DecayDays) as real >= 0.0;
  }

  /** From the seventh whole day on, a non-negative price sits exactly at the floor. */
  lemma PriceFlooredAfterWeek(originalPrice: real, createdAt: int, now: int)
    requires originalPrice >= 0.0
    requires Abs(now - createdAt) >= DecayDays * MsPerDay
    ensures CurrentPrice(originalPrice, createdAt, now) == MinPrice
  {
    var d := ElapsedDays(createdAt, now);
    assert d >= DecayDays;
    DropCoversPrice(originalPrice, d);
  }

  /** More whole days never raise the linear price of a non-negative original price. */
  lemma RawPriceNonIncreasing(originalPrice: real, d1: nat, d2: nat)
    requires originalPrice >= 0.0 && d1 <= d2
    ensures RawPrice(originalPrice, d2) <= RawPrice(originalPrice, d1)
  {
    var step := originalPrice / DecayDays as real;
    assert step * d2 as real - step * d1 as real == step * (d2 - d1) as real;
    assert step * (d2 - d1) as real >= 0.0;
  }

  /** Whole days elapsed grow with the distance from the creation time. */
  lemma ElapsedDaysMonotonic(createdAt: int, now1: int, now2: int)
    requires Abs(now1 - createdAt) <= Abs(now2 - createdAt)
    ensures ElapsedDays(createdAt, now1) <= ElapsedDays(createdAt, now2)
  {
    var d1, d2 := ElapsedDays(createdAt, now1), ElapsedDays(createdAt, now2);
    assert d1 * MsPerDay < (d2 + 1) * MsPerDay;
  }

  /**
   * For a non-negative original price, the price never rises as the distance
   * between `now` and the creation time grows.
   */
  lemma PriceNonIncreasing(originalPrice: real, createdAt: int, now1: int, now2: int)
    requires originalPrice >= 0.0
    requires Abs(now1 - createdAt) <= Abs(now2 - createdAt)
    ensures CurrentPrice(originalPrice, createdAt, now2) <= CurrentPrice(originalPrice, createdAt, now1)
  {
    ElapsedDaysMonotonic(createdAt, now1, now2);
    RawPriceNonIncreasing(originalPrice, ElapsedDays(createdAt, now1), ElapsedDays(createdAt, now2));
  }

  /** A non-negative original price is an upper bound, except that the floor may lift it to MinPrice. */
  lemma PriceAtMostOriginal(originalPrice: real, createdAt: int, now: int)
    requires originalPrice >= 0.0
    ensures CurrentPrice(originalPrice, createdAt, now) <= Max(originalPrice, MinPrice)
  {
    RawPriceNonIncreasing(originalPrice, 0, ElapsedDays(createdAt, now));
  }

  /** While the linear price is still at least the floor, it is exactly originalPrice * (7 - d) / 7. */
  lemma PriceExactFormula(originalPrice: real, createdAt: int, now: int)
    requires RawPrice(originalPrice, ElapsedDays(createdAt, now)) >= MinPrice
    ensures var d := ElapsedDays(createdAt, now);
      CurrentPrice(originalPrice, createdAt, now) == originalPrice * (DecayDays - d) as real / DecayDays as real
  {
    var d := ElapsedDays(createdAt, now);
    var step := originalPrice / DecayDays as real;
    assert originalPrice == step * DecayDays as real;
    assert step * DecayDays as real - step * d as real == step * (DecayDays - d) as real;
  }

  /**
   * Price and day label depend only on the distance |now - createdAt|, so a
   * creation time in the future counts like one equally far in the past.
   */
  lemma OnlyDistanceMatters(originalPrice: real, createdAt1: int, now1: int, createdAt2: int, now2: int)
    requires Abs(now1 - createdAt1) == Abs(now2 - createdAt2)
    ensures CurrentPrice(originalPrice, createdAt1, now1) == CurrentPrice(originalPrice, createdAt2, now2)
    ensures DayCount(createdAt1, now1) == DayCount(createdAt2, now2)
  {
  }

  /** A creation time `k` ms ahead of `now` prices and labels the item as one `k` ms behind. */
  lemma FutureCreationLikePast(originalPrice: real, now: int, k: int)
    ensures CurrentPrice(originalPrice, now + k, now) == CurrentPrice(originalPrice, now - k, now)
    ensures DayCount(now + k, now) == DayCount(now - k, now)
  {
    OnlyDistanceMatters(originalPrice, now + k, now, now - k, now);
  }

  /**
   * Two readings of the clock inside the same whole day of distance from the
   * creation time, on either side of it, give the same price and day label.
   */
  lemma SameDaySamePrice(originalPrice: real, createdAt: int, now1: int, now2: int)
    requires Abs(now1 - createdAt) <= Abs(now2 - createdAt) < DayCount(createdAt, now1) * MsPerDay
    ensures CurrentPrice(originalPrice, createdAt, now1) == CurrentPrice(originalPrice, createdAt, now2)
    ensures DayCount(createdAt, now1) == DayCount(createdAt, now2)
  {
    var d1, d2 := ElapsedDays(createdAt, now1), ElapsedDays(createdAt, now2);
    ElapsedDaysMonotonic(createdAt, now1, now2);
    assert d2 * MsPerDay < (d1 + 1) * MsPerDay;
    assert d1 == d2;
  }

  /** An item of 70 is worth 40 after three days and 1 after ten. */
  lemma SeventyExample(createdAt: int)
    ensures CurrentPrice(70.0, createdAt, createdAt + 3 * MsPerDay) == 40.0
    ensures CurrentPrice(70.0, createdAt, createdAt + 10 * MsPerDay) == MinPrice
    ensures DayCount(createdAt, createdAt + 6 * MsPerDay) == 7
  {
    assert ElapsedDays(createdAt, createdAt + 3 * MsPerDay) == 3;
    assert ElapsedDays(createdAt, createdAt + 10 * MsPerDay) == 10;
  }

  /**
   * The floor wins before day 7 for small prices: an item of 3 on its
   * seventh day (six whole days) is worth 1, not 3 * (7 - 6) / 7.
   */
  lemma SmallPriceFloorsEarly(createdAt: int)
    ensures CurrentPrice(3.0, createdAt, createdAt + 6 * MsPerDay) == MinPrice
    ensures MinPrice != 3.0 * (DecayDays - 6) as real / DecayDays as real
  {
    assert ElapsedDays(createdAt, createdAt + 6 * MsPerDay) == 6;
  }
}
