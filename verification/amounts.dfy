/** Monetary amounts as the IOU state uses them: a quantity of a currency's
    smallest unit together with the currency token it is counted in. */
module Amounts {

  /** A currency, identified by its ISO 4217 code. */
  datatype Currency = Currency(code: string)

  const USD: Currency := Currency("USD")

  /** A quantity of `token`, counted in the currency's smallest unit (cents
      for dollars); an amount is never negative. */
  datatype Amount = Amount(quantity: nat, token: Currency) {

    /** Adding two amounts is defined only when both are in the same currency. */
    predicate SameToken(other: Amount) {
      other.token == token
    }

    /** The sum of two amounts of one currency; the currency is kept. */
    function Plus(other: Amount): (r: Amount)
      requires SameToken(other)
      ensures r.token == token && r.token == other.token
      ensures r.quantity - quantity == other.quantity
    {
      Amount(quantity + other.quantity, token)
    }
  }

  /** Nothing of `token`. */
  function Zero(token: Currency): (r: Amount)
    ensures r.token == token && r.quantity == 0
  {
    Amount(0, token)
  }

  /** The order of two summands does not matter. */
  lemma PlusCommutes(a: Amount, b: Amount)
    requires a.SameToken(b)
    ensures a.Plus(b) == b.Plus(a)
  {
  }

  /** Nor does the grouping of three. */
  lemma PlusAssociates(a: Amount, b: Amount, c: Amount)
    requires a.SameToken(b) && b.SameToken(c)
    ensures a.Plus(b).Plus(c) == a.Plus(b.Plus(c))
  {
  }

  /** Adding nothing of the same currency changes nothing. */
  lemma ZeroIsNeutral(a: Amount)
    ensures a.Plus(Zero(a.token)) == a
  {
  }
}
