/** What each leg costs on each operator, and the fee the merchant absorbs. */
module Pricing {
  import opened MoneyTypes

  const BASIS: int := 10_000

  function CollectBps(provider: string): int {
    if provider == "VODACOM_MPESA_COD" then 250
    else if provider == "AIRTEL_COD" then 300
    else if provider == "ORANGE_COD" then 300
    else 300
  }

  function PayoutBps(provider: string): int {
    if provider == "VODACOM_MPESA_COD" then 200
    else if provider == "AIRTEL_COD" then 200
    else if provider == "ORANGE_COD" then 100
    else 200
  }

  // Python's floor division and Dafny's Euclidean division agree here: the divisor is positive.
  function CollectionCost(amount: Money, payerProvider: string): (cost: Money)
    ensures cost.currency == amount.currency
  {
    Money(amount.minor * CollectBps(payerProvider) / BASIS, amount.currency)
  }

  function PayoutCost(amount: Money, merchantProvider: string): (cost: Money)
    ensures cost.currency == amount.currency
  {
    Money(amount.minor * PayoutBps(merchantProvider) / BASIS, amount.currency)
  }

  function DefaultFee(amount: Money, payerProvider: string, merchantProvider: string): (fee: Money)
    ensures fee.currency == amount.currency
  {
    CollectionCost(amount, payerProvider).Plus(PayoutCost(amount, merchantProvider))
  }

  /** A leg cost is the exact rate rounded down, and below the amount: clearing never goes negative. */
  lemma CostBounds(amount: Money, provider: string)
    requires amount.IsPositive()
    ensures 0 <= CollectionCost(amount, provider).minor < amount.minor
    ensures 0 <= PayoutCost(amount, provider).minor < amount.minor
    ensures 0 <= amount.minor * CollectBps(provider) - BASIS * CollectionCost(amount, provider).minor < BASIS
    ensures 0 <= amount.minor * PayoutBps(provider) - BASIS * PayoutCost(amount, provider).minor < BASIS
    ensures 33 * CollectionCost(amount, provider).minor <= amount.minor
    ensures 50 * PayoutCost(amount, provider).minor <= amount.minor
  {
    FloorShare(amount.minor, CollectBps(provider));
    FloorShare(amount.minor, PayoutBps(provider));
  }

  lemma FloorShare(n: int, bps: int)
    requires n > 0 && 0 <= bps <= 300
    ensures var q := n * bps / BASIS;
      0 <= n * bps - BASIS * q < BASIS && 0 <= q && BASIS * q <= 300 * n && BASIS * q <= n * bps
  {
    var q, r := n * bps / BASIS, n * bps % BASIS;
    assert n * bps == BASIS * q + r;
    assert 0 <= n * bps <= n * 300;
  }

  /** The published rates, seen where nothing is rounded: on every multiple of a hundred, two and a half
      percent to collect over Vodacom and three over any other, one to pay out over Orange and two over any
      other. */
  lemma RatesAreExactOnHundreds(hundreds: int, c: Currency, provider: string)
    ensures var amount := Money(hundreds * 10_000, c);
      && CollectionCost(amount, provider).minor == hundreds * (if provider == "VODACOM_MPESA_COD" then 250 else 300)
      && PayoutCost(amount, provider).minor == hundreds * (if provider == "ORANGE_COD" then 100 else 200)
  {
    WholeShare(hundreds, CollectBps(provider));
    WholeShare(hundreds, PayoutBps(provider));
  }

  lemma WholeShare(hundreds: int, bps: int)
    ensures hundreds * 10_000 * bps / BASIS == hundreds * bps
  {
    assert hundreds * 10_000 * bps == BASIS * (hundreds * bps);
  }

  /** An operator that is not recognised is never charged less than any that is, on either leg. */
  lemma FallbackIsDearest(unknown: string, provider: string)
    requires unknown !in {"VODACOM_MPESA_COD", "AIRTEL_COD", "ORANGE_COD"}
    ensures CollectBps(provider) <= CollectBps(unknown) && PayoutBps(provider) <= PayoutBps(unknown)
  {
  }

  /** Every positive amount and every provider pair, known or not: the fee is a proper part of the
      amount and sits less than two minor units below the exact combined rate. */
  lemma FeeBounds(amount: Money, payer: string, merchant: string)
    requires amount.IsPositive()
    ensures var fee := DefaultFee(amount, payer, merchant).minor;
      && 0 <= fee < amount.minor
      && 0 <= amount.minor * (CollectBps(payer) + PayoutBps(merchant)) - BASIS * fee <= 2 * (BASIS - 1)
  {
    CostBounds(amount, payer);
    CostBounds(amount, merchant);
    assert amount.minor * (CollectBps(payer) + PayoutBps(merchant))
        == amount.minor * CollectBps(payer) + amount.minor * PayoutBps(merchant);
  }
}
