/** The money split of an order: fees, commission floor and rounding (src/common/constants/pricing.constants.ts). */
module Pricing {
  const COMMISSION_RATE_BPS_STANDARD := 3000
  const COMMISSION_RATE_BPS_PREMIUM := 2500
  const COMMISSION_MIN_CENTS := 100

  /** The two environment overrides, any non-negative integers; by default 5 euros and 5 percent. */
  datatype Tariff = Tariff(deliveryFeeCents: nat, platformBuyerFeeBps: nat)

  datatype OrderTotals = OrderTotals(
    subtotalCents: int,
    fulfillmentFeeCents: int,
    commissionRateBps: nat,
    commissionCents: int,
    sellerEarningsCents: int,
    platformBuyerFeeCents: int,
    buyerTotalCents: int)

  /** `Math.round(cents * bps / 10_000)`, that is floor(x + 1/2), on integers. */
  function RoundBps(cents: int, bps: nat): int {
    (2 * (cents * bps) + 10_000) / 20_000
  }

  /** It is the integer nearest to the exact share, the larger one when two are equally near. */
  lemma RoundsToNearest(cents: int, bps: nat, r: int)
    ensures RoundBps(cents, bps) == r <==> -10_000 < 2 * (10_000 * r - cents * bps) <= 10_000
  {
    var n := 2 * (cents * bps) + 10_000;
    assert n == 20_000 * (n / 20_000) + n % 20_000;
  }

  function Max(a: int, b: int): int {
    if a < b then b else a
  }

  function CommissionRate(isPremium: bool): nat {
    if isPremium then COMMISSION_RATE_BPS_PREMIUM else COMMISSION_RATE_BPS_STANDARD
  }

  function PriceOrder(subtotal: int, isPremium: bool, isDelivery: bool, tariff: Tariff): OrderTotals {
    var fee := if isDelivery then tariff.deliveryFeeCents else 0;
    var rate := CommissionRate(isPremium);
    var commission := Max(RoundBps(subtotal, rate), COMMISSION_MIN_CENTS);
    var platformFee := RoundBps(subtotal + fee, tariff.platformBuyerFeeBps);
    OrderTotals(subtotal, fee, rate, commission, subtotal - commission, platformFee, subtotal + fee + platformFee)
  }

  /** The commission and the platform fee are within half a cent of the exact rate, unless the 1 euro floor binds;
      the floor binds exactly below 3.32 euros (standard) and 3.98 euros (premium). */
  lemma FeesAreExactUpToHalfACent(subtotal: int, isPremium: bool, isDelivery: bool, tariff: Tariff)
    ensures var t := PriceOrder(subtotal, isPremium, isDelivery, tariff);
      && -10_000 < 2 * (10_000 * t.platformBuyerFeeCents
                        - (subtotal + t.fulfillmentFeeCents) * tariff.platformBuyerFeeBps) <= 10_000
      && (subtotal < (if isPremium then 398 else 332)
          <==> RoundBps(subtotal, t.commissionRateBps) < COMMISSION_MIN_CENTS)
      && (subtotal < (if isPremium then 398 else 332) ==> t.commissionCents == COMMISSION_MIN_CENTS)
      && (subtotal >= (if isPremium then 398 else 332) ==>
            -10_000 < 2 * (10_000 * t.commissionCents - subtotal * t.commissionRateBps) <= 10_000)
      && t.commissionCents + t.sellerEarningsCents + t.fulfillmentFeeCents + t.platformBuyerFeeCents
         == t.buyerTotalCents
  {
    var fee := if isDelivery then tariff.deliveryFeeCents else 0;
    var platformFee := RoundBps(subtotal + fee, tariff.platformBuyerFeeBps);
    RoundsToNearest(subtotal + fee, tariff.platformBuyerFeeBps, platformFee);
    RoundsToNearest(subtotal, CommissionRate(isPremium), RoundBps(subtotal, CommissionRate(isPremium)));
  }

  lemma RoundingIsMonotone(a: int, b: int, bps: nat)
    requires a <= b
    ensures RoundBps(a, bps) <= RoundBps(b, bps)
  {
    assert a * bps <= b * bps;
    RoundsToNearest(a, bps, RoundBps(a, bps));
    RoundsToNearest(b, bps, RoundBps(b, bps));
  }

  /** A larger cart always costs the buyer strictly more and never earns the seller less. */
  lemma TotalsAreMonotone(a: int, b: int, isPremium: bool, isDelivery: bool, tariff: Tariff)
    requires a < b
    ensures PriceOrder(a, isPremium, isDelivery, tariff).buyerTotalCents
          < PriceOrder(b, isPremium, isDelivery, tariff).buyerTotalCents
    ensures PriceOrder(a, isPremium, isDelivery, tariff).sellerEarningsCents
         <= PriceOrder(b, isPremium, isDelivery, tariff).sellerEarningsCents
  {
    var fee := if isDelivery then tariff.deliveryFeeCents else 0;
    RoundingIsMonotone(a + fee, b + fee, tariff.platformBuyerFeeBps);
  }

  /** A premium seller never earns less than a standard one on the same cart, and a seller's earning is
      non-negative exactly from 1 euro upwards. */
  lemma PremiumEarnsAtLeastStandard(subtotal: int, isDelivery: bool, tariff: Tariff)
    ensures PriceOrder(subtotal, true, isDelivery, tariff).sellerEarningsCents
         >= PriceOrder(subtotal, false, isDelivery, tariff).sellerEarningsCents
    ensures forall isPremium :: PriceOrder(subtotal, isPremium, isDelivery, tariff).sellerEarningsCents >= 0
                                <==> subtotal >= COMMISSION_MIN_CENTS
  {
    forall isPremium: bool
      ensures PriceOrder(subtotal, isPremium, isDelivery, tariff).sellerEarningsCents >= 0
              <==> subtotal >= COMMISSION_MIN_CENTS
    {
      FeesAreExactUpToHalfACent(subtotal, isPremium, isDelivery, tariff);
    }
  }

  /** Splitting an amount in two changes a rounded fee by at most one cent. */
  lemma SplittingMovesAFeeByAtMostOneCent(a: int, b: int, bps: nat)
    ensures -1 <= RoundBps(a + b, bps) - RoundBps(a, bps) - RoundBps(b, bps) <= 1
  {
    assert (a + b) * bps == a * bps + b * bps;
  }

  function Positive(cents: int): int {
    if cents > 0 then cents else 0
  }

  /** What completing an order pays out (only positive amounts are booked) fits in what the buyer paid exactly when
      the subtotal plus the platform fee covers the commission floor; from a 1 euro subtotal it always does. */
  lemma PayoutFitsTotalExactlyWhen(subtotal: int, isPremium: bool, isDelivery: bool, tariff: Tariff)
    ensures var t := PriceOrder(subtotal, isPremium, isDelivery, tariff);
      && (Positive(t.sellerEarningsCents) + t.commissionCents + t.fulfillmentFeeCents <= t.buyerTotalCents
          <==> COMMISSION_MIN_CENTS <= subtotal + t.platformBuyerFeeCents)
      && (subtotal >= COMMISSION_MIN_CENTS ==> COMMISSION_MIN_CENTS <= subtotal + t.platformBuyerFeeCents)
  {
    var t := PriceOrder(subtotal, isPremium, isDelivery, tariff);
    FeesAreExactUpToHalfACent(subtotal, isPremium, isDelivery, tariff);
    if subtotal >= COMMISSION_MIN_CENTS {
      RoundingIsMonotone(0, subtotal + t.fulfillmentFeeCents, tariff.platformBuyerFeeBps);
    }
  }
}
