/** Money as integer minor units tagged with a currency. */
module MoneyTypes {

  datatype Currency = USD | CDF

  datatype Money = Money(minor: int, currency: Currency) {

    predicate IsPositive() {
      minor > 0
    }

    /** Same-currency arithmetic; the original raises on a mismatch. */
    function Plus(other: Money): Money
      requires currency == other.currency
    {
      Money(minor + other.minor, currency)
    }

    function Minus(other: Money): Money
      requires currency == other.currency
    {
      Money(minor - other.minor, currency)
    }
  }
}
