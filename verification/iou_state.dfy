/** The IOU ledger state: an immutable record saying that `borrower` owes
    `lender` the sum `amount`, of which `paid` has been repaid so far.
    Every new version of the obligation is a copy of the previous one with
    one field changed, and all versions share one `linearId`. */
module IOU {
  import opened Amounts

  /** A party on the network, known by its legal name. */
  datatype Party = Party(name: string)

  datatype Option<T> = None | Some(value: T)

  /** The identifier shared by all versions of one obligation: an optional
      external reference and an opaque identifier chosen at issuance. */
  datatype UniqueIdentifier = UniqueIdentifier(externalId: Option<string>, id: nat)

  datatype IOUState = IOUState(
    amount: Amount,
    lender: Party,
    borrower: Party,
    paid: Amount,
    linearId: UniqueIdentifier)
  {
    /** The parties that must agree to every change of this state: the
        lender first, then the borrower. */
    function Participants(): (r: seq<Party>)
      ensures |r| == 2 && r[0] == lender && r[1] == borrower
      ensures forall p :: p in r <==> p == lender || p == borrower
    {
      [lender, borrower]
    }

    /** A repayment `x` can be recorded only in the currency of `paid`. */
    predicate CanPay(x: Amount) {
      paid.SameToken(x)
    }

    /** The next version after a repayment of `x`: `paid` grows by `x` and
        nothing else changes. */
    function Pay(x: Amount): (r: IOUState)
      requires CanPay(x)
      ensures r.paid.token == paid.token
      ensures r.paid.quantity == paid.quantity + x.quantity
      ensures r.amount == amount && r.lender == lender && r.borrower == borrower
      ensures r.linearId == linearId
    {
      this.(paid := paid.Plus(x))
    }

    /** The next version after the obligation is handed to `newLender`:
        only the lender changes. */
    function WithNewLender(newLender: Party): (r: IOUState)
      ensures r.lender == newLender
      ensures r.amount == amount && r.borrower == borrower && r.paid == paid
      ensures r.linearId == linearId
    {
      this.(lender := newLender)
    }
  }

  /** A state built without an explicit `paid`: nothing has been repaid, and
      that nothing is counted in dollars whatever the currency of `amount`. */
  function Create(amount: Amount, lender: Party, borrower: Party, linearId: UniqueIdentifier): (r: IOUState)
    ensures r.paid.quantity == 0 && r.paid.token == USD
    ensures r.amount == amount && r.lender == lender && r.borrower == borrower
    ensures r.linearId == linearId
    ensures r.Participants() == [lender, borrower]
  {
    IOUState(amount, lender, borrower, Zero(USD), linearId)
  }

  /** The default `paid` evidently meant: nothing repaid, in the currency
      of `amount`, so that the obligation can be repaid in its own currency. */
  function CreateInCurrency(amount: Amount, lender: Party, borrower: Party, linearId: UniqueIdentifier): (r: IOUState)
    ensures r.paid.quantity == 0 && r.paid.token == amount.token
    ensures r.amount == amount && r.lender == lender && r.borrower == borrower
    ensures r.linearId == linearId
    ensures forall x: Amount :: r.CanPay(x) <==> x.token == amount.token
  {
    IOUState(amount, lender, borrower, Zero(amount.token), linearId)
  }

  /** With the default as written, an IOU in any currency other than
      dollars refuses every repayment in its own currency. */
  lemma CreateRefusesOwnCurrency(amount: Amount, lender: Party, borrower: Party, linearId: UniqueIdentifier, x: Amount)
    requires amount.token != USD && x.token == amount.token
    ensures !Create(amount, lender, borrower, linearId).CanPay(x)
  {
  }

  /** For an IOU in dollars the corrected default is the one as written. */
  lemma CreateAgreesForDollars(amount: Amount, lender: Party, borrower: Party, linearId: UniqueIdentifier)
    requires amount.token == USD
    ensures Create(amount, lender, borrower, linearId) == CreateInCurrency(amount, lender, borrower, linearId)
  {
  }

  /** A concrete instance: 10 pounds owed, 1 pound repaid. */
  lemma CreatePoundsCannotBeRepaidInPounds()
    ensures var gbp := Currency("GBP");
            var s := Create(Amount(1000, gbp), Party("A"), Party("B"), UniqueIdentifier(None, 1));
            !s.CanPay(Amount(100, gbp))
  {
  }

  /** Paying `a` and then `b` records the same state as paying `a + b` at once. */
  lemma PayAdditive(s: IOUState, a: Amount, b: Amount)
    requires s.CanPay(a) && s.CanPay(b)
    ensures s.Pay(a).CanPay(b)
    ensures s.Pay(a).Pay(b) == s.Pay(a.Plus(b))
  {
    PlusAssociates(s.paid, a, b);
  }

  /** Repayments may be recorded in either order. */
  lemma PayCommutes(s: IOUState, a: Amount, b: Amount)
    requires s.CanPay(a) && s.CanPay(b)
    ensures s.Pay(a).Pay(b) == s.Pay(b).Pay(a)
  {
    PayAdditive(s, a, b);
    PayAdditive(s, b, a);
    PlusCommutes(a, b);
  }

  /** Paying nothing, in the currency of `paid`, changes nothing. */
  lemma PayZero(s: IOUState)
    ensures s.Pay(Zero(s.paid.token)) == s
  {
    ZeroIsNeutral(s.paid);
  }

  /** Handing over to `p` and then to `q` is the same as handing over to `q`. */
  lemma WithNewLenderLastWins(s: IOUState, p: Party, q: Party)
    ensures s.WithNewLender(p).WithNewLender(q) == s.WithNewLender(q)
  {
  }

  /** Handing over to the same party twice is the same as handing over once,
      and handing over to the current lender changes nothing. */
  lemma WithNewLenderIdempotent(s: IOUState, p: Party)
    ensures s.WithNewLender(p).WithNewLender(p) == s.WithNewLender(p)
    ensures s.WithNewLender(s.lender) == s
  {
  }

  /** After a change of lender the new lender takes the old one's place
      among the participants, still ahead of the borrower. */
  lemma ParticipantsAfterNewLender(s: IOUState, p: Party)
    ensures s.WithNewLender(p).Participants() == [p, s.borrower]
  {
  }

  /** A repayment does not change who must sign. */
  lemma ParticipantsAfterPay(s: IOUState, x: Amount)
    requires s.CanPay(x)
    ensures s.Pay(x).Participants() == s.Participants()
  {
  }

  /** A repayment and a change of lender do not interfere. */
  lemma PayAndNewLenderCommute(s: IOUState, x: Amount, p: Party)
    requires s.CanPay(x)
    ensures s.WithNewLender(p).CanPay(x)
    ensures s.Pay(x).WithNewLender(p) == s.WithNewLender(p).Pay(x)
  {
  }
}
