/** The arithmetic of `purchase_skill` and `rate_skill`: the basis-point fee
    split and the truncating running average, written out with the source's
    integer widths, casts and checked operations. */
module Arith {
  import opened Types

  function Min(a: int, b: int): int { if a <= b then a else b }

  function Max(a: int, b: int): int { if a <= b then b else a }

  // ---------------------------------------------------------------------------
  // Fee split
  // ---------------------------------------------------------------------------

  /** What a purchase pays: `fee` goes to the treasury, `sellerAmount` to the seller. */
  datatype Split = Split(fee: u64, sellerAmount: u64)

  /** The fee split of `purchase_skill`: `(price as u128).checked_mul(fee_bps as u128)`,
      then `.checked_div(10_000)`, then `as u64` (which truncates to 64 bits),
      then `price.checked_sub(fee)`. `Overflow` is the panic of an `unwrap()`.
      Up to 100% the split never panics, the two parts add up to the price, and
      the fee is the floor of `price * fee_bps / 10_000`. */
  function FeeSplit(price: u64, feeBps: u16): (r: Checked<Split>)
    ensures r.Value? ==> r.value.fee as int + r.value.sellerAmount as int == price as int
    ensures feeBps as int <= BPS_DENOMINATOR ==>
      && r.Value?
      && r.value.fee as int * BPS_DENOMINATOR <= price as int * feeBps as int
      && price as int * feeBps as int < (r.value.fee as int + 1) * BPS_DENOMINATOR
  {
    ProductBound(price, feeBps);
    FloorWithinPrice(price, feeBps);
    var product := price as int * feeBps as int;
    if product >= U128_LIMIT then Overflow
    else
      var fee := (product / BPS_DENOMINATOR) % U64_LIMIT;
      if fee > price as int then Overflow
      else Value(Split(fee as u64, (price as int - fee) as u64))
  }

  /** The u128 product of a u64 price and a u16 rate never overflows. */
  lemma ProductBound(price: u64, feeBps: u16)
    ensures 0 <= price as int * feeBps as int < U128_LIMIT
  {
    var p, b := price as int, feeBps as int;
    assert p * b <= p * 0xFFFF by { MulMonotone(p, b, 0xFFFF); }
    assert p * 0xFFFF < U64_LIMIT * 0xFFFF by { MulStrict(p, U64_LIMIT, 0xFFFF); }
  }

  /** Up to 100%, the quotient fits in 64 bits (so `as u64` keeps it) and is
      the floor of the exact fee. */
  lemma FloorWithinPrice(price: u64, feeBps: u16)
    ensures feeBps as int <= BPS_DENOMINATOR ==>
      var q := price as int * feeBps as int / BPS_DENOMINATOR;
      && 0 <= q <= price as int
      && q % U64_LIMIT == q
      && q * BPS_DENOMINATOR <= price as int * feeBps as int < (q + 1) * BPS_DENOMINATOR
  {
    if feeBps as int <= BPS_DENOMINATOR {
      var p, b := price as int, feeBps as int;
      var t := p * b;
      MulMonotone(p, b, BPS_DENOMINATOR);
      DivBelow(t, p, BPS_DENOMINATOR);
      DivFloor(t, BPS_DENOMINATOR);
    }
  }

  /** A marketplace fee of at most 50% leaves the seller at least as much as
      the treasury: the fee is at most half the price. */
  lemma FeeAtMostHalf(price: u64, feeBps: u16)
    requires feeBps as int <= MAX_FEE_BPS
    ensures FeeSplit(price, feeBps).Value?
    ensures 2 * FeeSplit(price, feeBps).value.fee as int <= price as int
    ensures FeeSplit(price, feeBps).value.fee <= FeeSplit(price, feeBps).value.sellerAmount
  {
    var s := FeeSplit(price, feeBps).value;
    var p, b, f := price as int, feeBps as int, s.fee as int;
    MulMonotone(p, b, MAX_FEE_BPS);
    assert f * BPS_DENOMINATOR <= p * MAX_FEE_BPS;
    assert 2 * f * MAX_FEE_BPS <= p * MAX_FEE_BPS;
    MulCancel(2 * f, p, MAX_FEE_BPS);
  }

  /** The treasury transfer of `purchase_skill` (made only when `fee > 0`)
      happens exactly when `price * fee_bps` reaches one whole unit of 10 000. */
  lemma FeeChargedIff(price: u64, feeBps: u16)
    requires feeBps as int <= BPS_DENOMINATOR
    ensures FeeSplit(price, feeBps).value.fee > 0 <==> price as int * feeBps as int >= BPS_DENOMINATOR
  {
  }

  // ---------------------------------------------------------------------------
  // Running average of 1..5 star ratings
  // ---------------------------------------------------------------------------

  /** A stored average and the number of ratings it summarises. */
  datatype Rating = Rating(average: u8, count: u64)

  /** The running-average step of `rate_skill` (used for both `avg_rating` and
      the agent's `reputation_score`): `total = avg as u64 * n as u64 + rating`,
      `n' = n.checked_add(1)`, `avg' = (total / n') as u8`. `Overflow` is a
      panic of either the overflow-checked arithmetic or the `unwrap()`. On
      success the count grows by one and the new average is the floor of
      `total / n'`, so the `as u8` cast did not truncate. */
  function RunningAverage(average: u8, count: u64, rating: u8): (r: Checked<Rating>)
    ensures r.Value? <==>
      average as int * count as int + rating as int < U64_LIMIT && count as int + 1 < U64_LIMIT
    ensures r.Value? ==>
      && r.value.count as int == count as int + 1
      && r.value.average as int * r.value.count as int <= average as int * count as int + rating as int
      && average as int * count as int + rating as int < (r.value.average as int + 1) * r.value.count as int
  {
    var total := average as int * count as int + rating as int;
    if total >= U64_LIMIT || count as int + 1 >= U64_LIMIT then Overflow
    else
      var n := count as int + 1;
      AverageFloor(average as int, count as int, rating as int);
      Value(Rating(((total / n) % U8_LIMIT) as u8, n as u64))
  }

  /** The floor of `(a * n + x) / (n + 1)` lies between `min(a, x)` and
      `max(a, x)`; for u8 inputs it fits in a u8. */
  lemma AverageFloor(a: int, n: int, x: int)
    requires 0 <= a < U8_LIMIT && 0 <= n && 0 <= x < U8_LIMIT
    ensures var q := (a * n + x) / (n + 1);
      && Min(a, x) <= q <= Max(a, x)
      && q % U8_LIMIT == q
  {
    var lo, hi := Min(a, x), Max(a, x);
    var t := a * n + x;
    MulMonotone(n, lo, a);
    MulMonotone(n, a, hi);
    assert lo * (n + 1) == lo * n + lo;
    assert hi * (n + 1) == hi * n + hi;
    DivAbove(t, lo, n + 1);
    DivBelow(t, hi, n + 1);
  }

  /** The new average lies between the old average and the new rating. */
  lemma AverageStaysBetween(average: u8, count: u64, rating: u8)
    requires RunningAverage(average, count, rating).Value?
    ensures var a := RunningAverage(average, count, rating).value.average as int;
      Min(average as int, rating as int) <= a <= Max(average as int, rating as int)
  {
    AverageFloor(average as int, count as int, rating as int);
  }

  /** How the program uses a stored average: 0 while nothing has been rated,
      a star value 1..5 afterwards. */
  predicate StarsOk(average: u8, count: u64)
  {
    && (count == 0 ==> average == 0)
    && (count > 0 ==> MIN_STARS as u8 <= average <= MAX_STARS as u8)
  }

  /** Adding a 1..5 rating keeps an average in the star range, so the
      `as u8` cast of `rate_skill` is always safe. */
  lemma StarsKept(average: u8, count: u64, rating: u8)
    requires StarsOk(average, count)
    requires MIN_STARS as u8 <= rating <= MAX_STARS as u8
    requires RunningAverage(average, count, rating).Value?
    ensures StarsOk(RunningAverage(average, count, rating).value.average,
                    RunningAverage(average, count, rating).value.count)
  {
    var r := RunningAverage(average, count, rating).value;
    if count == 0 {
      assert r.average as int * 1 <= rating as int < (r.average as int + 1) * 1;
    } else {
      AverageStaysBetween(average, count, rating);
    }
  }

  /** The step keeps a stored value at or below the mean: if average × count
      was at most the stars given so far, the new product is at most those
      stars plus the new rating. */
  lemma AverageBelowSum(average: u8, count: u64, rating: u8, stars: int)
    requires average as int * count as int <= stars
    requires RunningAverage(average, count, rating).Value?
    ensures var r := RunningAverage(average, count, rating).value;
      r.average as int * r.count as int <= stars + rating as int
  {
  }

  // ---------------------------------------------------------------------------
  // The stored value is not the mean of the ratings
  // ---------------------------------------------------------------------------

  /** Each step truncates, and the loss is never made up: ratings 3, 4 and 5
      store 3, although their mean is 4. */
  lemma TruncationLosesStars()
    ensures RunningAverage(0, 0, 3) == Value(Rating(3, 1))
    ensures RunningAverage(3, 1, 4) == Value(Rating(3, 2))
    ensures RunningAverage(3, 2, 5) == Value(Rating(3, 3))
  {
  }

  /** After a thousand 5-star ratings one 4 stores 4, and a further 5 keeps it at 4. */
  lemma OneLowRatingSticks()
    ensures RunningAverage(5, 1000, 4) == Value(Rating(4, 1001))
    ensures RunningAverage(4, 1001, 5) == Value(Rating(4, 1002))
  {
  }

  /** Once four ratings are stored, no 1..5 rating raises the stored value:
      raising it by one star would need a rating of at least
      average + count + 1 stars. */
  lemma NoRiseAfterFour(average: u8, count: u64, rating: u8)
    requires StarsOk(average, count) && count >= 4
    requires MIN_STARS as u8 <= rating <= MAX_STARS as u8
    requires RunningAverage(average, count, rating).Value?
    ensures RunningAverage(average, count, rating).value.average <= average
  {
    var r := RunningAverage(average, count, rating).value;
    var a, n := average as int, count as int;
    assert r.average as int * (n + 1) <= a * n + rating as int;
    assert (a + 1) * (n + 1) == a * n + a + n + 1;
    MulBelow(r.average as int, a + 1, n + 1);
  }

  /** A rating below the stored value lowers it by at least one whole star. */
  lemma LowerRatingDropsAStar(average: u8, count: u64, rating: u8)
    requires rating < average
    requires RunningAverage(average, count, rating).Value?
    ensures RunningAverage(average, count, rating).value.average < average
  {
    var r := RunningAverage(average, count, rating).value;
    var a, n := average as int, count as int;
    assert r.average as int * (n + 1) <= a * n + rating as int;
    assert a * (n + 1) == a * n + a;
    MulBelow(r.average as int, a, n + 1);
  }

  // ---------------------------------------------------------------------------
  // Nonlinear helpers
  // ---------------------------------------------------------------------------

  lemma MulMonotone(a: int, b: int, c: int)
    requires 0 <= a && b <= c
    ensures a * b <= a * c
  {
    assert a * c - a * b == a * (c - b);
  }

  lemma MulStrict(a: int, b: int, c: int)
    requires 0 <= a < b && 0 < c
    ensures a * c < b * c
  {
    assert b * c - a * c == (b - a) * c;
  }

  lemma MulBelow(a: int, b: int, c: int)
    requires 0 < c && a * c < b * c
    ensures a < b
  {
    if a >= b { MulMonotone(c, b, a); }
  }

  lemma MulCancel(a: int, b: int, c: int)
    requires 0 < c && a * c <= b * c
    ensures a <= b
  {
    if a > b { MulStrict(b, a, c); }
  }

  /** The quotient is the floor of `t / d`. */
  lemma DivFloor(t: int, d: int)
    requires 0 <= t && 0 < d
    ensures (t / d) * d <= t < (t / d + 1) * d
  {
    var q, m := t / d, t % d;
    assert t == q * d + m;
    assert (q + 1) * d == q * d + d;
  }

  /** `t <= h * d` bounds the quotient by `h`. */
  lemma DivBelow(t: int, h: int, d: int)
    requires 0 <= t && 0 < d && t <= h * d
    ensures t / d <= h
  {
    var q := t / d;
    DivFloor(t, d);
    if q > h { MulStrict(h, q, d); }
  }

  /** `l * d <= t` bounds the quotient from below by `l`. */
  lemma DivAbove(t: int, l: int, d: int)
    requires 0 <= t && 0 < d && l * d <= t
    ensures l <= t / d
  {
    var q := t / d;
    DivFloor(t, d);
    if l > q { MulMonotone(d, q + 1, l); }
  }
}
