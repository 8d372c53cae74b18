# IOU state of the Corda training CorDapp, in Dafny

This project models `IOUState`, the ledger state of the Corda training
CorDapp: an immutable record saying that a borrower owes a lender an amount
of money, how much of it has been repaid, and the `linearId` that every later
version of the same obligation keeps. The state has a derived list of
participants (the parties that must sign every change) and two ways to
produce the next version: `pay`, which adds a repayment to `paid`, and
`withNewLender`, which hands the obligation to another lender.

Files:

- `amounts.dfy` (module `Amounts`): Corda's `Amount<Currency>` reduced to a
  quantity in the currency's smallest unit and a currency token; adding two
  amounts is allowed only within one currency, as Corda's `Amount.plus`
  demands.
- `iou_state.dfy` (module `IOU`): the `IOUState` datatype with
  `Participants`, `Pay` and `WithNewLender`; the constructor with the
  default `paid`; the properties of each operation and of their
  combinations.
- `iou_history.dfy` (module `IOUHistory`): a history of versions, each made
  from the previous one by a repayment or a change of lender, and what any
  such history keeps and computes.

The state file enforces none of the IOU business rules (a positive
amount, distinct lender and borrower, `paid` not above `amount`); those
belong to the contract class, which is not part of this model. Nothing here
claims that `Pay` or `WithNewLender` keep them.

## Model

| member | source | states |
|---|---|---|
| `Amounts.Amount.Plus` | kotlin-source/src/main/kotlin/net/corda/training/state/IOUState.kt:26 | the `paid.plus(amount)` that `pay` calls: defined only when both amounts are in the same currency; the sum keeps that currency and its quantity is the sum of the two quantities |
| `Amounts.Zero` | kotlin-source/src/main/kotlin/net/corda/training/state/IOUState.kt:20 | the `0.DOLLARS` default: an amount of quantity zero in the given currency (dollars for the default) |
| `IOU.IOUState.Participants` | kotlin-source/src/main/kotlin/net/corda/training/state/IOUState.kt:24 | the participants are exactly two entries, lender first and borrower second, and a party is a participant iff it is the lender or the borrower |
| `IOU.IOUState.Pay` | kotlin-source/src/main/kotlin/net/corda/training/state/IOUState.kt:26 | allowed only for a repayment in the currency of `paid`; the new `paid` is the old one plus the repayment in the same currency, and amount, lender, borrower and linearId are unchanged |
| `IOU.IOUState.WithNewLender` | kotlin-source/src/main/kotlin/net/corda/training/state/IOUState.kt:28 | the new state has the given lender, and amount, borrower, paid and linearId are unchanged |
| `IOU.Create` | kotlin-source/src/main/kotlin/net/corda/training/state/IOUState.kt:16-21 | a state built without an explicit `paid` has `paid` equal to zero dollars whatever the currency of `amount`, keeps the given fields, and its participants are `[lender, borrower]` |
| `IOU.CreateAgreesForDollars` | kotlin-source/src/main/kotlin/net/corda/training/state/IOUState.kt:20 | for an IOU in dollars the corrected default and the one as written build the same state |
| `IOU.CreateRefusesOwnCurrency` | kotlin-source/src/main/kotlin/net/corda/training/state/IOUState.kt:20 | with the default `paid` as written, an IOU whose amount is not in dollars refuses every repayment in its own currency |
| `IOU.CreatePoundsCannotBeRepaidInPounds` | kotlin-source/src/main/kotlin/net/corda/training/state/IOUState.kt:20 | concrete case: an IOU of 10 pounds built with the default `paid` cannot take a repayment of 1 pound |
| `IOU.CreateInCurrency` | kotlin-source/src/main/kotlin/net/corda/training/state/IOUState.kt:20 | corrected default: `paid` is zero in the currency of `amount`, so a repayment is accepted iff it is in that currency |
| `IOU.PayAdditive` | kotlin-source/src/main/kotlin/net/corda/training/state/IOUState.kt:26 | paying `a` then `b` is possible and equals paying `a + b` at once |
| `IOU.PayCommutes` | kotlin-source/src/main/kotlin/net/corda/training/state/IOUState.kt:26 | two repayments give the same state in either order |
| `IOU.PayZero` | kotlin-source/src/main/kotlin/net/corda/training/state/IOUState.kt:26 | paying zero in the currency of `paid` returns an equal state |
| `IOU.WithNewLenderLastWins` | kotlin-source/src/main/kotlin/net/corda/training/state/IOUState.kt:28 | `withNewLender(p).withNewLender(q)` equals `withNewLender(q)` |
| `IOU.WithNewLenderIdempotent` | kotlin-source/src/main/kotlin/net/corda/training/state/IOUState.kt:28 | handing over twice to the same party equals handing over once; handing over to the current lender returns an equal state |
| `IOU.ParticipantsAfterNewLender` | kotlin-source/src/main/kotlin/net/corda/training/state/IOUState.kt:24-28 | after `withNewLender(p)` the participants are `[p, borrower]` |
| `IOU.ParticipantsAfterPay` | kotlin-source/src/main/kotlin/net/corda/training/state/IOUState.kt:24-26 | a repayment leaves the participants unchanged |
| `IOU.PayAndNewLenderCommute` | kotlin-source/src/main/kotlin/net/corda/training/state/IOUState.kt:26-28 | a repayment stays allowed after a change of lender, and the two operations commute |
| `IOUHistory.Step` | kotlin-source/src/main/kotlin/net/corda/training/state/IOUState.kt:26-28 | one repayment or change of lender keeps the currency of `paid` |
| `IOUHistory.Evolve` | kotlin-source/src/main/kotlin/net/corda/training/state/IOUState.kt:26-28 | every version reached by repayments in the currency of `paid` and changes of lender keeps amount, borrower, the currency of `paid` and linearId |
| `IOUHistory.EvolvePaidAndLender` | kotlin-source/src/main/kotlin/net/corda/training/state/IOUState.kt:26-28 | after any history, `paid` has grown by exactly the sum of the repayments and the lender is the last one named (the original one if none) |
| `IOUHistory.EvolveAppend` | kotlin-source/src/main/kotlin/net/corda/training/state/IOUState.kt:26-28 | applying two histories in turn is the same as applying their concatenation |
| `IOUHistory.PaymentsCollapse` | kotlin-source/src/main/kotlin/net/corda/training/state/IOUState.kt:26 | any number of repayments equals one `pay` of their total (additivity of `pay` extended to n repayments) |
| `IOUHistory.FinalLenderWithoutTransfers` | kotlin-source/src/main/kotlin/net/corda/training/state/IOUState.kt:26 | a history made only of repayments never changes the lender |
| `IOUHistory.IssuedThenEvolved` | kotlin-source/src/main/kotlin/net/corda/training/state/IOUState.kt:16-28 | an IOU issued with nothing repaid in its own currency and then evolved has `paid` equal to the sum of repayments in that currency, the original amount, borrower and linearId, and participants `[last lender, borrower]` |

## Left out

- The issuance flow and its responder (`IOUIssueFlow.kt`) are not part of this model: notary lookup, transaction building and verification, signing, session opening for the counterparties, signature collection, finality and the responder's single-output type check are network and session plumbing over Corda library calls.
- `UniqueIdentifier()` draws a random UUID when no `linearId` is given; here `linearId` is always passed in as an opaque value.
- The IOU business rules (positive amount, lender different from borrower, `paid` not above `amount`, `paid` zero at issuance, every participant signs) live in the contract class, which is not part of this model.
- `IOU.IOUState.Pay`: does not model the 64-bit overflow check of Corda's `Amount.plus` (library code, not part of this model); quantities are unbounded natural numbers.
- Corda's `Amount` carries a display token size, which for a currency is fixed by the currency; it is not modelled. Its refusal of negative quantities is modelled by making `quantity` a natural number, so no repayment can lower `paid`.
- `Party` is reduced to its name and carries no public key; the owning keys are used only by the flow.
- The conversion of whole dollars to cents inside the finance library's `DOLLARS` is not modelled; only zero dollars is used, which is zero cents.

## Findings

| source | as written | input that shows it | evidently intended | confidence | as-written member | corrected member |
|---|---|---|---|---|---|---|
| kotlin-source/src/main/kotlin/net/corda/training/state/IOUState.kt:20 | the default `paid` is `0.DOLLARS` whatever the currency of `amount`, and `pay` adds through `Amount.plus`, which refuses a different currency | an IOU of 10 GBP built without `paid`, then `pay(1 GBP)`: the currencies of `paid` (USD) and of the repayment (GBP) differ, so the repayment is refused | `paid` defaults to zero in the currency of `amount`: with the default as written, a non-dollar IOU can never take a repayment in its own currency, so `paid` could never grow towards `amount` | medium, not executed | `IOU.CreateRefusesOwnCurrency`, `IOU.CreatePoundsCannotBeRepaidInPounds` | `IOU.CreateInCurrency` (used by `IOUHistory.IssuedThenEvolved`) |
