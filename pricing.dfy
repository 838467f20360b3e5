/**
 * Money arithmetic shared by every version of the booking app: the split of a
 * ticket total into GST, platform fee, theatre share and profit, the per-row
 * price of a movie seat, and the event pricing strategies.
 *
 * Python's int() of a float truncates toward zero; the floats involved
 * (t / 1.18, b * 0.10, b * 0.60, b * 1.5, b * 1.2) are modelled as exact
 * rationals over the integers, so int(x * k / d) becomes TruncDiv(x * k, d).
 */
module Pricing {
  import opened Arith

  /** int(a / d) for d > 0: division truncating toward zero. */
  function TruncDiv(a: int, d: int): (q: int)
    requires d > 0
    ensures a >= 0 ==> 0 <= q && q * d <= a < q * d + d
    ensures a < 0 ==> q <= 0 && q * d - d < a <= q * d
  {
    if a >= 0 then DivBounds(a, d); a / d
    else DivBounds(-a, d); -((-a) / d)
  }

  lemma TruncDivNeg(a: int, d: int)
    requires d > 0
    ensures TruncDiv(-a, d) == -TruncDiv(a, d)
  {
  }

  /** The five amounts of calculate_profit_breakdown. */
  datatype Breakdown = Breakdown(base: int, gst: int, platformFee: int, theatreShare: int, profit: int)

  /**
   * base = int(total / 1.18), gst = total - base, fee = int(base * 0.10),
   * share = int(base * 0.60), profit = base - fee - share.
   */
  function ProfitBreakdown(total: int): (r: Breakdown)
    ensures r.base + r.gst == total
    ensures r.platformFee + r.theatreShare + r.profit == r.base
    ensures total >= 0 ==>
      0 <= r.base && 0 <= r.gst && 0 <= r.platformFee && 0 <= r.theatreShare && 0 <= r.profit
    ensures total >= 0 ==> 118 * r.base <= 100 * total < 118 * (r.base + 1)
    ensures total >= 0 ==> 10 * r.platformFee <= r.base < 10 * r.platformFee + 10
    ensures total >= 0 ==> 10 * r.theatreShare <= 6 * r.base < 10 * r.theatreShare + 10
    ensures total >= 0 ==> 3 * r.base <= 10 * r.profit < 3 * r.base + 20
  {
    var base := TruncDiv(100 * total, 118);
    var fee := TruncDiv(base, 10);
    var share := TruncDiv(6 * base, 10);
    Breakdown(base, total - base, fee, share, base - fee - share)
  }

  /** Every part is bounded by the total: none of the shares can exceed what was paid. */
  lemma BreakdownBounded(total: int)
    requires total >= 0
    ensures var r := ProfitBreakdown(total);
      r.base <= total && r.gst <= total && r.platformFee <= r.base &&
      r.theatreShare <= r.base && r.profit <= r.base
  {
  }

  /** Truncation toward zero makes the split of a refund (negative total) the mirror image of the split of the charge. */
  lemma {:induction false} BreakdownOdd(total: int)
    ensures var p, n := ProfitBreakdown(total), ProfitBreakdown(-total);
      n.base == -p.base && n.gst == -p.gst && n.platformFee == -p.platformFee &&
      n.theatreShare == -p.theatreShare && n.profit == -p.profit
  {
    TruncDivNeg(100 * total, 118);
    var b := TruncDiv(100 * total, 118);
    assert TruncDiv(100 * -total, 118) == -b by {
      assert 100 * -total == -(100 * total);
    }
    TruncDivNeg(b, 10);
    TruncDivNeg(6 * b, 10);
    assert 6 * -b == -(6 * b);
  }

  /** int(base_price * multiplier) with the multiplier held in tenths (1.5 is 15). */
  function RowPrice(basePrice: int, multTenths: nat): (p: int)
    ensures basePrice >= 0 ==> 10 * p <= basePrice * multTenths < 10 * p + 10
    ensures basePrice >= 0 && multTenths >= 10 ==> p >= basePrice
    ensures basePrice >= 0 && multTenths <= 10 ==> p <= basePrice
  {
    TruncDiv(basePrice * multTenths, 10)
  }

  /** ComedyBookingStrategy.calculate_pricing: a flat base * seats. */
  function ComedyPrice(basePrice: int, seats: int): (p: int)
    ensures basePrice >= 0 && seats >= 0 ==> p >= 0
    ensures seats > 0 ==> p == ComedyPrice(basePrice, seats - 1) + basePrice
  {
    basePrice * seats
  }

  /**
   * ConcertBookingStrategy.calculate_pricing: int of the sum of `seats` copies
   * of base * 1.5; a non-positive seat count gives an empty array summing to 0.
   */
  function ConcertPrice(basePrice: int, seats: int): (p: int)
    ensures seats <= 0 ==> p == 0
    ensures seats > 0 && basePrice >= 0 ==>
      2 * p <= 3 * ComedyPrice(basePrice, seats) < 2 * p + 2 && p >= ComedyPrice(basePrice, seats)
  {
    if seats <= 0 then 0 else TruncDiv(15 * ComedyPrice(basePrice, seats), 10)
  }

  /**
   * MovieBookingStrategy.calculate_pricing: `seats` copies of the base price,
   * each raised by 20% at weekends (Saturday, Sunday), summed and truncated.
   */
  function MoviePrice(basePrice: int, seats: int, weekend: bool): (p: int)
    ensures seats <= 0 ==> p == 0
    ensures seats > 0 && !weekend ==> p == ComedyPrice(basePrice, seats)
    ensures seats > 0 && weekend && basePrice >= 0 ==>
      5 * p <= 6 * ComedyPrice(basePrice, seats) < 5 * p + 5 && p >= ComedyPrice(basePrice, seats)
  {
    if seats <= 0 then 0
    else if weekend then TruncDiv(12 * ComedyPrice(basePrice, seats), 10)
    else ComedyPrice(basePrice, seats)
  }
}
