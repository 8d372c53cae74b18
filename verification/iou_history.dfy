/** The versions an IOU goes through after issuance: each is produced from
    the previous one by a repayment or by a change of lender. */
module IOUHistory {
  import opened Amounts
  import opened IOU

  /** One step from a version of the obligation to the next. */
  datatype Change = Payment(x: Amount) | NewLender(p: Party)

  /** Every repayment in `changes` is counted in `token`. */
  predicate PaymentsIn(token: Currency, changes: seq<Change>) {
    forall i :: 0 <= i < |changes| ==> (changes[i].Payment? ==> changes[i].x.token == token)
  }

  /** The sum of the repayments in `changes`. */
  function TotalPaid(changes: seq<Change>): nat {
    if changes == [] then 0
    else (if changes[0].Payment? then changes[0].x.quantity else 0) + TotalPaid(changes[1..])
  }

  /** The lender after `changes`, starting from `lender`: the last one named wins. */
  function FinalLender(lender: Party, changes: seq<Change>): Party
    decreases |changes|
  {
    if changes == [] then lender
    else FinalLender(if changes[0].NewLender? then changes[0].p else lender, changes[1..])
  }

  /** The version after applying one change. */
  function Step(s: IOUState, c: Change): (r: IOUState)
    requires c.Payment? ==> s.CanPay(c.x)
    ensures r.paid.token == s.paid.token
  {
    match c
    case Payment(x) => s.Pay(x)
    case NewLender(p) => s.WithNewLender(p)
  }

  /** The version after applying `changes` in order. Amount, borrower,
      currency of `paid` and `linearId` are the same in every version. */
  function Evolve(s: IOUState, changes: seq<Change>): (r: IOUState)
    requires PaymentsIn(s.paid.token, changes)
    ensures r.amount == s.amount && r.borrower == s.borrower
    ensures r.paid.token == s.paid.token
    ensures r.linearId == s.linearId
    decreases |changes|
  {
    if changes == [] then s
    else Evolve(Step(s, changes[0]), changes[1..])
  }

  /** After any history of changes, `paid` has grown by exactly the sum of
      the repayments and the lender is the last one named. */
  lemma {:induction false} EvolvePaidAndLender(s: IOUState, changes: seq<Change>)
    requires PaymentsIn(s.paid.token, changes)
    ensures Evolve(s, changes).paid.quantity == s.paid.quantity + TotalPaid(changes)
    ensures Evolve(s, changes).lender == FinalLender(s.lender, changes)
    decreases |changes|
  {
    if changes != [] {
      EvolvePaidAndLender(Step(s, changes[0]), changes[1..]);
    }
  }

  /** Applying two histories one after the other is applying their concatenation. */
  lemma {:induction false} EvolveAppend(s: IOUState, a: seq<Change>, b: seq<Change>)
    requires PaymentsIn(s.paid.token, a + b)
    ensures PaymentsIn(s.paid.token, a) && PaymentsIn(Evolve(s, a).paid.token, b)
    ensures Evolve(s, a + b) == Evolve(Evolve(s, a), b)
    decreases |a|
  {
    assert forall i :: 0 <= i < |a| ==> a[i] == (a + b)[i];
    assert forall i :: 0 <= i < |b| ==> b[i] == (a + b)[|a| + i];
    if a == [] {
      assert a + b == b;
    } else {
      assert (a + b)[1..] == a[1..] + b;
      EvolveAppend(Step(s, a[0]), a[1..], b);
    }
  }

  /** A history of repayments only comes to the same version as one
      repayment of their total. */
  lemma {:induction false} PaymentsCollapse(s: IOUState, changes: seq<Change>)
    requires PaymentsIn(s.paid.token, changes)
    requires forall i :: 0 <= i < |changes| ==> changes[i].Payment?
    ensures Evolve(s, changes) == s.Pay(Amount(TotalPaid(changes), s.paid.token))
  {
    EvolvePaidAndLender(s, changes);
    FinalLenderWithoutTransfers(s.lender, changes);
  }

  /** Without a change of lender the lender stays. */
  lemma {:induction false} FinalLenderWithoutTransfers(lender: Party, changes: seq<Change>)
    requires forall i :: 0 <= i < |changes| ==> changes[i].Payment?
    ensures FinalLender(lender, changes) == lender
    decreases |changes|
  {
    if changes != [] {
      FinalLenderWithoutTransfers(lender, changes[1..]);
    }
  }

  /** An obligation issued with nothing repaid in its own currency, then
      repaid only in that currency, has `paid` equal to the sum of the
      repayments, in that currency. */
  lemma IssuedThenEvolved(amount: Amount, lender: Party, borrower: Party, linearId: UniqueIdentifier, changes: seq<Change>)
    requires PaymentsIn(amount.token, changes)
    ensures var r := Evolve(CreateInCurrency(amount, lender, borrower, linearId), changes);
            r.paid == Amount(TotalPaid(changes), amount.token) &&
            r.amount == amount && r.borrower == borrower && r.linearId == linearId &&
            r.Participants() == [FinalLender(lender, changes), borrower]
  {
    EvolvePaidAndLender(CreateInCurrency(amount, lender, borrower, linearId), changes);
  }
}
