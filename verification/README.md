# Verification of the money and concurrency core of the point-of-sale backend

The backend keeps sales, receivables, cash sessions and electronic tax documents for many companies.
Most of it reads and writes rows; a few services hold state machines over money or over concurrent
jobs. This project models those services in Dafny and proves what they promise over every run. Where
the code does not keep a promise, the lemma says exactly when it does.

Money is integer cents and instants are integer milliseconds. A database transaction is one step;
a method that awaits between separate writes is several steps that interleave freely with others.
Operations are functions from the rows before to the rows after. Where the source updates rows in
place, a class with the same fields has the methods as written, and each is proved to leave the rows
its function says.

| Files | What they model |
|---|---|
| `Receivable`, `ReceivableLaws`, `ReceivableRuns`, `ReceivableStates`, `ReceivableEffects`, `ReceivableService` | account, installments, payments, applications and cash rows of one sale: payment waterfall, annulment, accepted debit and credit notes, void request, restore and reversal |
| `ReceivableRaces`, `ReceivableNoteRaces` | an annulment and an accepted return that write from what they read, with any run of the others in between |
| `CashRegister` | cash sessions, movements, closing, totals per payment method |
| `BillingOutbox`, `OutboxStatus` | the emission outbox: any number of workers, an idempotent remote register, crashes, operator re-arms; the status a sale is left with |
| `DocumentMirror` | last-writer-wins mirror of a remote document on a row, and the series number |
| `WebhookInbox` | deduplication of webhook events with undo on failure |
| `DebitNoteEffects` | commercial effects of a debit note under concurrent deliveries |
| `VoidSaga`, `VoidStatus`, `VoidReversal` | the void of a sale, from the request to reversal or restoration, as interleaving processes; what a reversal leaves, and two at once |
| `CreditNotes`, `CreditedAmounts`, `DebitNotes`, `FiscalTotals`, `Rounding`, `Decimals` | returnable quantities over sequences of notes, proration and header totals, and the decimals behind them |
| `ResponseCache` | the in-memory cache with concurrent factories |
| `RefreshTokens` | refresh-token rotation, and a refresh in flight while others commit |
| `PlanLimits` | plan limits and the endpoints that consume them, the principal store |
| `Calendar`, `HistoryRange`, `TrendBuckets` | civil dates, the date filter, the chart buckets |
| `Sums`, `Wrappers` | sums over rows, Option and Outcome |

`DocumentMirror`, `BillingOutbox`, `WebhookInbox`, `DebitNoteEffects` and `VoidSaga` are protocols: their states are values and their
steps functions, because what matters there is the interleaving.

## Where the code falls short of its promise

Each of these is a proved lemma with the exact condition, or a proved run.

- A rejected void does not always give the account its state back: an account without an advance that
  had been partly collected comes back as pending (`RejectionRestoresEstadoIff`, `RejectionForgetsCollections`).
- The account's state is read and written back apart: it agrees with the balance afterwards exactly when the
  balance was zero at both instants or at neither, and an account annulled in between is no longer annulled
  (`SplitRestoreIff`).
- An annulled account stays annulled exactly while no debit note is accepted, no void request writes and no late
  restore does (`AnnulledStandsIff`, `LateDebitNoteReopens`, `LateRequestReopens`). A credit note accepted then takes the sale out of its annulled state, and the acceptance delivered again
  reverses it a second time (`ReversalsAreCounted`, `LateNoteReversesAgain`).
- A return accepted while a void is pending goes back to stock twice: stock returned is stock sold exactly when
  one reversal or the notes alone brought all of it (`StockReturnedIsSoldIff`).
- The finalising transaction locks nothing. With any run between its read and its writes, the open-session cash of
  a payment nets to zero exactly when it is what was read where the session is still open, a payment made since
  keeps its money in the drawer though it is made inactive, the ledger stays consistent exactly when nothing is
  written into a session closed since and the account was read or has no collections, and stock comes back once
  exactly when nothing else returned it (`StaleReversalOverRun`, `StaleFinaliseOverRun`, `PaymentUnderReversal`).
  Two of them at once take stock and money twice, and no row law shows it (`OverlappingReversals`).
- If the reversal of an accepted void fails, the failure is stamped with the local clock; unless the remote
  document changes after it, no delivery annuls the sale any more (`RetryAfterFailureIff`, `FailedAcceptanceIsLost`).
  Over any run the sale ends annulled exactly when an acceptance was mirrored and the last process carrying one
  did not fail or stop (`AnnulledIff`).
- A second void request between its checks and its write forgets the remote's answer and sends again
  (`RemoteAnswerIsKeptIff`).
- A total return that does not cover the balance leaves the account owing with every installment cancelled
  (`NotaTotalKeepsLedgerIff`); an accepted credit note lowers the sale total but not the initial balance,
  so the header identity is lost (`NotaBreaksCabeceraIff`).
- A pending void holds the account against payments only until an annulment, a debit note, a return, a restore, the
  reversal or a late status write falls on it; then payments are taken unless it annulled the account
  (`HoldStandsIff`, `LiftedHoldTakesPaymentsIff`, `AnnulLiftsVoidHold`, `NotesLiftVoidHold`).
- Annulments look at the collections to tell partial from pending, but a debit note, a restore and a return do not:
  the status tells whether something was paid exactly while none of these falls where it matters (`ParcialStandsIff`).
- A process that stops after mirroring an acceptance leaves a sale that shows an accepted void and is not annulled;
  exactly that, or a later note, does (`AcceptedIsCarriedIff`).
- A close adds up the movements and then writes: the cash laws survive exactly when the rows written into the
  session in between add up to nothing (`StaleCloseOverRun`).
- `annulPayment` reads before it locks. Whatever commits in between, the balance survives exactly when the
  installments its payment had paid owe together what they owed when read, the cash laws exactly when no session
  of the payment was closed, and the whole ledger exactly when those installments are as read and those sessions
  open (`StaleAnnulOverRun`). So a payment in the gap breaks the balance exactly when it reached one of those
  installments, another annulment exactly when the two share one, and annulling one payment twice always does
  (`PaymentInGapIff`, `OverlappingAnnulmentsIff`, `SamePaymentTwice`).
- An accepted return locks its own row, not the account, and sets every column from what it read: the balance
  survives exactly when the installments a partial one does not write owe what they owed, or a total one covers
  what was read; the whole ledger exactly when every installment also fits what was read; and a payment that
  commits meanwhile is always lost (`StaleNoteOverRun`, `PaymentUnderNoteIsLost`).
- A worker that stops half-way leaves its outbox job in processing for good: the expired-lock filter only
  looks at pending and retry jobs (`CrashLosesJob`, `QuietJobIsFinal`), and a job is stuck exactly when its last
  worker let it go and nobody armed it again (`LostJobIff`). A job has one worker at most exactly while no re-arm
  of it meets one (`OneWorkerPerJobIff`, `RearmAllowsTwoWorkers`); the idempotency key still keeps one document.
- The mirror's read and write are separate: the last write stays, so over any interleaving the newest version
  survives exactly when the last write carries it (`RaceKeepsNewestIff`, `OlderCanReplaceNewer`).
- Effects of a debit note are lost if its delivery stops between the mirror and the effects, and after a failed
  attempt only a remote document dated after it applies them (`LostEffectsStayLost`, `RetryAfterFailureIff`); over
  any run they are applied exactly when no failure met the last delivery committed to them (`AppliedIff`).
- A webhook event is lost exactly when a delivery that recorded it stops before it has applied it (`LostIff`,
  `LostEventIsNeverApplied`).
- Credit notes accept the same line twice in one note, reason 02 ignores what was already returned, a retried
  note takes its quantities back, and two requests at once read the same availability (`NewNoteFitsIff`,
  `ReactivationFitsIff`, `ConcurrentReturnsFitIff`, and over whole runs `NeverOverCreditedIff`).
- An amount prorated to exactly half a cent may go down instead of up, because the factor keeps twenty digits
  (`CodeProrates`, `HalfCanBeCutDown`).
- A debit note accepts amounts of zero, unless written with a minus sign, although its error asks for more
  (`ZeroAmountsAreAccepted`), and lines
  of other affectation codes leave its header out of balance (`HeaderAddsUpIff`).
- A factory in flight undoes a prefix deletion (`FlightUndoesDeletionIff`).
- A login or refresh in flight signs its user in again whatever was committed before its version write, a logout or
  password reset included (`StaleSignInUsableIff`, `StaleRefreshSignsIn`); one usable token per user survives it
  exactly when no session was opened in between (`StaleSignInKeepsAuthIff`, `ConcurrentRefreshForks`).
- Turning a store into an attendance site is refused at a full limit although the count would not change
  (`SameLimitTypeChangeRefusedIff`); naming a warehouse principal leaves no principal
  (`NamingPrincipalKeepsOneIff`); a status read outside its transaction can pass the employee limit
  (`StaleReadKeepsLimitIff`), and a branch read before its transaction the branch limits and the rule that only
  stores are principal (`StaleBranchKeepsLimitIff`, `StaleBranchKeepsPrincipalIff`).

## Model

| member | source | states |
|---|---|---|
| ReceivableLaws.ConflictUnreachable | src/modules/accounts-receivable/accounts-receivable.service.ts:362-366 | on rows the ledger keeps, the conflict "the schedule has no balance" cannot be reached: the open installments add up to the account balance |
| ReceivableLaws.RepartirSum | src/modules/accounts-receivable/accounts-receivable.service.ts:337-361 | the closed form of the waterfall takes exactly the payment off the first k balances, up to what they hold |
| ReceivableLaws.AplicarDePago | src/modules/accounts-receivable/accounts-receivable.service.ts:337-361 | the application rows of a payment add up to the payment, and to nothing for any other |
| ReceivableLaws.RegistrarKeepsLedger | src/modules/accounts-receivable/accounts-receivable.service.ts:337-395 | a payment keeps the ledger: per installment paid plus balance is the original and paid is the sum of its applications, per account the balance is the sum of the installments, per session the cash laws |
| ReceivableLaws.ClampNeverFires | src/modules/accounts-receivable/accounts-receivable.service.ts:462-478 | what an annulment gives back had been paid, so the clamp to zero is never used |
| ReceivableLaws.AnularKeepsLedger | src/modules/accounts-receivable/accounts-receivable.service.ts:451-520 | an annulment on fresh reads keeps the ledger |
| ReceivableLaws.AnularKeepsCash | src/modules/accounts-receivable/accounts-receivable.service.ts:441-520 | after an annulment on fresh reads the payment's cash movements add up to zero, and only open sessions were written |
| ReceivableLaws.NuevaCuotaIsFresh | src/modules/billing-integration/billing-debit-note.service.ts:497-500 | the installment number of a debit note is one no installment has |
| ReceivableLaws.DebitoKeepsLedger | src/modules/billing-integration/billing-debit-note.service.ts:483-552 | an accepted debit note, on an account or opening one, keeps the ledger |
| ReceivableLaws.NotaParcialKeepsLedger | src/modules/sunat-emission/sunat-credit-note-emission.service.ts:398-443 | an accepted partial return, taken off the last installments first, keeps the ledger |
| ReceivableLaws.NotaTotalKeepsLedgerIff | src/modules/sunat-emission/sunat-credit-note-emission.service.ts:418-454 | a total return keeps the whole ledger exactly when it covers the balance, or finds no account to change |
| ReceivableLaws.RevertirKeepsLedger | src/modules/billing-integration/billing-void.service.ts:529-601 | the commercial reversal keeps the ledger |
| ReceivableRuns.PasoKeepsLedgerIff | src/modules/sunat-emission/sunat-credit-note-emission.service.ts:388-456 | of all the transactions that write these rows each keeps the ledger, a total return exactly when it covers the balance |
| ReceivableRuns.RunKeepsLedger | src/modules/accounts-receivable/accounts-receivable.service.ts:235-530 | every run of all the transactions that write these rows, total returns that cover the balance and cash rows of other sales included, keeps the ledger |
| ReceivableRuns.LedgerStandsIff | src/modules/sunat-emission/sunat-credit-note-emission.service.ts:388-456 | the ledger is consistent at every point of a run exactly while every total return covers the balance it meets |
| ReceivableRuns.Conservation | src/modules/billing-integration/billing-void.service.ts:603-618 | from a fresh account, until a void is finalised, over any payments, annulments, debit notes, void requests and restores: balance = sum of installment balances = initial balance minus active collections, sale total = advance + initial balance, paid + balance = original with paid the sum of live applications |
| ReceivableRuns.BalanceLaw | src/modules/accounts-receivable/accounts-receivable.service.ts:368-378 | on any reachable rows the balance is the live originals minus the active collections |
| ReceivableRuns.PagadoIsCobrado | src/modules/accounts-receivable/accounts-receivable.service.ts:337-361 | what the live installments show as paid is what the active collections brought |
| ReceivableRuns.NotaBreaksCabeceraIff | src/modules/sunat-emission/sunat-credit-note-emission.service.ts:418-428 | an accepted return keeps the header identities exactly when its total is zero, or the sale total and the balance are, clamp included |
| ReceivableRuns.HeaderStandsIff | src/modules/sunat-emission/sunat-credit-note-emission.service.ts:418-428 | over any run ledger and header identities stand exactly while no return moves a header column nor falls short of the balance |
| ReceivableRuns.ClosedSessionIsFinal | src/modules/cash-register/cash-register.service.ts:184-206 | a closed session's expected amount is the sum of its movements in every later state, whatever this sale, other sales and the cash register do, and its opening amount that of its opening movements |
| ReceivableRuns.StaleCloseOverRun | src/modules/cash-register/cash-register.service.ts:184-206 | a close whose sum and write have any run in between keeps the cash laws exactly when the rows written into the session meanwhile add up to zero |
| ReceivableRuns.RepartirComposes | src/modules/accounts-receivable/accounts-receivable.service.ts:337-361 | paying a and then b leaves the installments as paying a + b |
| ReceivableRuns.PaymentsAreOneWaterfall | src/modules/accounts-receivable/accounts-receivable.service.ts:337-361 | any run of payments leaves the installments as one payment of everything collected |
| ReceivableRuns.PaymentsSettleInDueOrder | src/modules/accounts-receivable/accounts-receivable.service.ts:289-292 | without annulments an installment has money only if every earlier one is settled |
| ReceivableRuns.ReplayIsHarmless | src/modules/accounts-receivable/accounts-receivable.service.ts:249-253 | a request id seen before changes nothing, whatever else the request says |
| ReceivableRuns.AnnulmentsCommute | src/modules/accounts-receivable/accounts-receivable.service.ts:412-530 | two annulments in either order, each on fresh reads, leave the same rows, up to the order of the cash rows |
| ReceivableRuns.AnnulAllRestores | src/modules/accounts-receivable/accounts-receivable.service.ts:462-504 | annulling all live collections, in any order, returns every live installment to its original balance, pending, with nothing paid |
| ReceivableStates.EstadoFollowsBalance | src/modules/accounts-receivable/accounts-receivable.service.ts:368-378 | over any run of these transactions, restores on a fresh read included, the account is paid only when nothing is owed, and pending or partial only when something is |
| ReceivableStates.EstadoStandsIff | src/modules/accounts-receivable/accounts-receivable.service.ts:368-378 | over any run ledger and status law stand exactly while total returns cover, no debit note of zero falls on a settled account and no late restore writes a status the balance has left |
| ReceivableStates.RestoreKeepsEstadoIff | src/modules/billing-integration/billing-void.service.ts:603-618 | a restore whose read and write have any run in between keeps that law exactly when the balance was zero at both ends or at neither |
| ReceivableStates.ChangeIsExact | src/modules/accounts-receivable/accounts-receivable.service.ts:265-280 | what is handed over is the collection plus the change, and only methods that allow it give change |
| ReceivableStates.NotaIsFullyUsed | src/modules/sunat-emission/sunat-credit-note-emission.service.ts:418-443 | every cent of an accepted return lowers the balance or becomes the customer's credit, the latter only once nothing is owed |
| ReceivableStates.HoldStandsIff | src/modules/billing-integration/billing-void.service.ts:163-166 | a pending void stays on the account at every point of a run exactly while none of the listed transactions falls on it |
| ReceivableStates.LiftedHoldTakesPaymentsIff | src/modules/accounts-receivable/accounts-receivable.service.ts:299-310 | after one transaction on a held account a payment of what is owed is taken exactly when it lifted the hold and did not annul |
| ReceivableStates.AnnulLiftsVoidHold | src/modules/accounts-receivable/accounts-receivable.service.ts:458-504 | annulling a collection is one that does, and its rejection then restores nothing |
| ReceivableStates.NotesLiftVoidHold | src/modules/billing-integration/billing-debit-note.service.ts:512-520 | accepted debit notes and partial returns are others |
| ReceivableStates.AnnulledStandsIff | src/modules/billing-integration/billing-void.service.ts:163-166 | an annulled account is so at every point of a run exactly while no debit note, void request or late restore is in it |
| ReceivableEffects.PaymentIff | src/modules/accounts-receivable/accounts-receivable.service.ts:235-366 | exactly which payments are taken, whatever the rows, and the error of every other: a new request id for money the account owes, by a method that gives change if more is handed over, on an account no void holds, in a branch without cash mode or with an open session of the user |
| ReceivableEffects.ConflictIff | src/modules/accounts-receivable/accounts-receivable.service.ts:362-366 | on any rows, consistent or not, the conflict is met exactly when the open installments owe less than a payment that is otherwise in order |
| ReceivableEffects.PaymentWrites | src/modules/accounts-receivable/accounts-receivable.service.ts:323-378 | a new payment lowers the balance by its amount and no other column, settles the account exactly when it is all that was owed, and adds one active collection with its method, amount and change |
| ReceivableEffects.PaymentDrawer | src/modules/accounts-receivable/accounts-receivable.service.ts:546-583 | in cash mode a payment in order is taken exactly when the user has an open session in that branch; its one cash row, with its amount, method and payment, lies in such a session; without a branch or with cash mode off there is no row, and an absent branch refuses |
| ReceivableEffects.AnnulmentIff | src/modules/accounts-receivable/accounts-receivable.service.ts:412-459 | exactly which annulments are taken, and the error of every other |
| ReceivableEffects.AnnulmentWrites | src/modules/accounts-receivable/accounts-receivable.service.ts:480-505 | an annulment gives the balance the amount back and makes that one payment inactive; the account is partial exactly when there was an advance or some collection is still active |
| ReceivableEffects.AnnulmentMovesDrawer | src/modules/accounts-receivable/accounts-receivable.service.ts:506-522 | an annulment takes out of every session, method by method, exactly what the payment had put there |
| ReceivableEffects.ReversalMovesDrawer | src/modules/billing-integration/billing-void.service.ts:529-601 | the reversal takes out of every open session, method by method, exactly what the active payments had there, and nothing out of a closed one |
| ReceivableEffects.UndoingRows | src/modules/accounts-receivable/accounts-receivable.service.ts:506-522 | an annulment adds only rows that annul a collection, of its own payment, and the reversal of the sale only rows that annul it, of payments that were active |
| ReceivableEffects.RunKeepsMethods | src/modules/accounts-receivable/accounts-receivable.service.ts:379-395 | over any run every cash row of a payment carries the method of that payment |
| ReceivableEffects.StepMovesDrawer | src/modules/cash-register/cash-register.service.ts:371-381 | each transaction moves each session, in total and by every method, by exactly what it takes in or gives back there |
| ReceivableEffects.DrawerOverRun | src/modules/cash-register/cash-register.service.ts:371-381 | over any run a session holds, in total and by method, what it held plus all that was put in less all that was taken out |
| ReceivableEffects.CloseExpects | src/modules/cash-register/cash-register.service.ts:178-209 | over any run, what a close expects is the balances the session was opened with, plus deposits and collections into it, less withdrawals, annulments and reversals out of it, plus the rows of other sales |
| ReceivableEffects.DebitAddsInstallment | src/modules/billing-integration/billing-debit-note.service.ts:483-552 | an accepted debit note adds one installment due on its date and owed in full under a new highest number, leaves the others alone, and raises the three totals, or opens an account with them |
| ReceivableEffects.NoteWrites | src/modules/sunat-emission/sunat-credit-note-emission.service.ts:388-456 | the columns an accepted return leaves, balance first and customer credit with the rest, and partial, paid or annulled as it left something, nothing, or was total |
| ReceivableEffects.NotesAreConserved | src/modules/sunat-emission/sunat-credit-note-emission.service.ts:418-428 | over any run without a reversal, balance less customer credit is what it was, plus debit notes, less accepted returns and active collections |
| ReceivableEffects.TotalFollowsNotesIff | src/modules/sunat-emission/sunat-credit-note-emission.service.ts:418-428 | the account total is what it was plus debit notes less accepted returns exactly while no return is cut off at zero |
| ReceivableEffects.ParcialStandsIff | src/modules/accounts-receivable/accounts-receivable.service.ts:484-505 | at every point of a run the account is partial only when something was paid and pending only when nothing was, exactly while no transaction that ignores the collections falls where that shows |
| ReceivableService.Waterfall | src/modules/accounts-receivable/accounts-receivable.service.ts:337-366 | the loop computes the closed form, its applications and what is left over |
| ReceivableService.ReceivableTables.RegisterPayment | src/modules/accounts-receivable/accounts-receivable.service.ts:235-410 | the method, loop and cash session lookup included, leaves the rows and the answer of Registrar, whose drawer and columns PaymentDrawer and PaymentWrites tell |
| ReceivableService.ReceivableTables.GiveBack | src/modules/accounts-receivable/accounts-receivable.service.ts:462-478 | the annulment loop, one write per application from the row first read, gives each installment what the payment put in |
| ReceivableService.ReceivableTables.AnnulPayment | src/modules/accounts-receivable/accounts-receivable.service.ts:412-530 | undisturbed, the method leaves the rows and the answer of AnularPago |
| ReceivableService.Reduce | src/modules/sunat-emission/sunat-credit-note-emission.service.ts:399-417 | the reverse loop computes its closed form |
| ReceivableService.ReceivableTables.ApplyPartialCreditNote | src/modules/sunat-emission/sunat-credit-note-emission.service.ts:388-443 | the method leaves the rows of AcreditarNota for a partial return |
| ReceivableService.ReceivableTables.ApplyDebitNote | src/modules/billing-integration/billing-debit-note.service.ts:494-547 | the method, with its search for the highest number, leaves the rows of CargarDebito |
| ReceivableRaces.FreshReadIsAnular | src/modules/accounts-receivable/accounts-receivable.service.ts:420-520 | with nothing between read and transaction the separated writes are the annulment |
| ReceivableRaces.StaleAnnulWrites | src/modules/accounts-receivable/accounts-receivable.service.ts:451-505 | a stale annulment adds the amount to the balance as it is now and tells partial from pending by the collections active now |
| ReceivableRaces.StaleAnnulKeepsBalanceIff | src/modules/accounts-receivable/accounts-receivable.service.ts:420-504 | for any two consistent ledgers, read and current: balance = sum of installments after the writes exactly when the account refuses, or the installments the payment had paid owe together what they owed when read |
| ReceivableRaces.StaleAnnulKeepsCashIff | src/modules/accounts-receivable/accounts-receivable.service.ts:441-520 | the cash laws survive exactly when the account refuses, or no session that held a cash row of the payment was closed since |
| ReceivableRaces.StaleAnnulKeepsLedgerIff | src/modules/accounts-receivable/accounts-receivable.service.ts:420-520 | while the payment is still active the whole ledger survives exactly when the account refuses, or its installments show what was read and its sessions are open |
| ReceivableRaces.StaleAnnulOverRun | src/modules/accounts-receivable/accounts-receivable.service.ts:420-520 | the three conditions for an annulment whose read and transaction have any run of transactions in between |
| ReceivableRaces.OverlappingAnnulmentsIff | src/modules/accounts-receivable/accounts-receivable.service.ts:420-478 | two annulments read before either commits keep balance = installments exactly when no installment was paid by both |
| ReceivableRaces.PaymentInGapIff | src/modules/accounts-receivable/accounts-receivable.service.ts:462-478 | a payment between the read and the transaction keeps it exactly when it put nothing on an installment the annulled payment had paid |
| ReceivableRaces.SamePaymentTwice | src/modules/accounts-receivable/accounts-receivable.service.ts:438-504 | one payment annulled by two overlapping requests gives the account its amount twice and the installments once |
| ReceivableNoteRaces.FreshReadIsAcreditar | src/modules/sunat-emission/sunat-credit-note-emission.service.ts:388-455 | with nothing in between the separated writes are those of the accepted return, partial or total |
| ReceivableNoteRaces.StaleNoteWrites | src/modules/sunat-emission/sunat-credit-note-emission.service.ts:388-456 | a stale return sets total, balance and credit from what it read; advance and initial balance stay |
| ReceivableNoteRaces.StaleNoteKeepsBalanceIff | src/modules/sunat-emission/sunat-credit-note-emission.service.ts:388-455 | a return on a stale read keeps balance = installments exactly when: partial, the installments it does not write owe together what they owed when read; total, it covers the balance as read |
| ReceivableNoteRaces.StaleNoteKeepsLedgerIff | src/modules/sunat-emission/sunat-credit-note-emission.service.ts:388-455 | for any two consistent ledgers the whole ledger survives exactly when the account read was annulled, or besides the balance every installment fits: written ones show as paid what was read and applied, and nothing if cancelled meanwhile, and a total return leaves no part-paid one owing |
| ReceivableNoteRaces.StaleNoteOverRun | src/modules/sunat-emission/sunat-credit-note-emission.service.ts:354-455 | the same with any run of transactions between read and writes |
| ReceivableNoteRaces.PaymentUnderNoteIsLost | src/modules/sunat-emission/sunat-credit-note-emission.service.ts:388-443 | a payment that commits between them never leaves a consistent ledger |
| CashRegister.AbrirKeepsCaja | src/modules/cash-register/cash-register.service.ts:54-112 | opening keeps the cash laws: one open session per user and branch, opening amount = sum of opening movements although zero ones are dropped |
| CashRegister.CerrarKeepsCaja | src/modules/cash-register/cash-register.service.ts:178-209 | closing stores the sum of the movements, and declared minus expected |
| CashRegister.AppendKeepsCajaIff | src/modules/cash-register/cash-register.service.ts:133-176 | rows written into sessions read as open some time before keep the cash laws exactly when those meeting a closed session add up to zero there |
| CashRegister.StaleCloseKeepsCajaIff | src/modules/cash-register/cash-register.service.ts:184-206 | a close on a stale sum keeps them exactly when the sum still holds |
| CashRegister.OpenSessionIsUnique | src/modules/cash-register/cash-register.service.ts:346-369 | whichever open session of a user and branch is found is the only one |
| CashRegister.OpeningIff | src/modules/cash-register/cash-register.service.ts:54-112 | exactly which openings are accepted and how the others are refused; the new session is an open one of that user in that branch whose opening rows hold each method's declared balance |
| CashRegister.MovementMovesDrawer | src/modules/cash-register/cash-register.service.ts:133-176 | a deposit raises and a withdrawal lowers the sum of the user's open session in that branch by the amount, under the given method; every other session's sum and every opening sum stays; refused exactly without such a session, for no positive amount or an unknown method |
| CashRegister.CloseIff | src/modules/cash-register/cash-register.service.ts:178-209 | a close is accepted exactly when the user has an open session there, closes that one and no other, and stores sum, declared and difference |
| CashRegister.BuildTotalsByPaymentMethod | src/modules/cash-register/cash-register.service.ts:600-631 | one entry per method, each the sum of that method, all of them the sum of the movements |
| CashRegister.CashRegisterTables.Open | src/modules/cash-register/cash-register.service.ts:54-112 | the method leaves the rows and the answer of Abrir |
| CashRegister.CashRegisterTables.CreateMovement | src/modules/cash-register/cash-register.service.ts:133-176 | the method leaves the rows and the answer of Mover, whose sign, session and method MovementMovesDrawer tells, and keeps the cash laws |
| CashRegister.CashRegisterTables.Close | src/modules/cash-register/cash-register.service.ts:178-209 | the method leaves the rows and the answer of Cerrar |
| BillingOutbox.IdempotencyKeyInjective | src/modules/billing-integration/billing-emission.service.ts:134 | different sales or environments never share an idempotency key |
| BillingOutbox.DemoraBounds | src/modules/billing-integration/billing-emission.service.ts:479-482 | the delay is nondecreasing between 20 and 640 seconds, so the 15-minute cap never binds |
| BillingOutbox.OneFiscalDocument | src/modules/billing-integration/billing-emission.service.ts:407-474 | over every run, with crashes, lost answers, re-arms and double claims, at most one document exists per sale and environment |
| BillingOutbox.SaleNamesItsOwnDocument | src/modules/billing-integration/billing-emission.service.ts:369-405 | the document a sale names is the registered one of that sale and environment |
| BillingOutbox.DocumentoNeverChanges | src/modules/billing-integration/billing-emission.service.ts:380-405 | once a sale names a document it names it for ever, if always issued in one environment |
| BillingOutbox.ExclusivaIff | src/modules/billing-integration/billing-emission.service.ts:407-416 | whoever claims next a job has one worker at most exactly when it has one at most now, and none if it can be claimed |
| BillingOutbox.OneWorkerPerJobIff | src/modules/billing-integration/billing-emission.service.ts:407-416 | over any run that holds at every point exactly when no re-arm of the job met a worker on it |
| BillingOutbox.OneWorkerPerJob | src/modules/billing-integration/billing-emission.service.ts:407-416 | in particular two workers on one job are the same |
| BillingOutbox.AttemptsCountClaims | src/modules/billing-integration/billing-emission.service.ts:408-416 | attempts count the claims of a job over any run, re-arms included |
| BillingOutbox.ClaimsAreBounded | src/modules/billing-integration/billing-emission.service.ts:475-504 | without re-arms a job is claimed at most twelve times |
| BillingOutbox.FailureBacksOff | src/modules/billing-integration/billing-emission.service.ts:475-492 | a failed attempt waits 20 to 640 seconds, and is retried exactly when the error allows it and attempts are left |
| BillingOutbox.DeadJobIsQuiet | src/modules/billing-integration/billing-emission.service.ts:478-492 | nobody holds a dead job |
| BillingOutbox.QuietJobIsFinal | src/modules/billing-integration/billing-emission.service.ts:64-75 | a job nobody holds and that is not pending or in retry never changes again without a re-arm |
| BillingOutbox.CrashLosesJob | src/modules/billing-integration/billing-emission.service.ts:66-75 | a worker that stops before writing its job's status leaves such a job |
| BillingOutbox.NoCrashNoLostJob | src/modules/billing-integration/billing-emission.service.ts:407-505 | without crashes every job in processing has a worker that will still write its status, re-arms included |
| BillingOutbox.LostJobIff | src/modules/billing-integration/billing-emission.service.ts:407-505 | over any run a job is in processing with nobody on it exactly when its last worker let it go without a status and it was not armed again |
| BillingOutbox.FailedMirrorRevivesDoneJob | src/modules/billing-integration/billing-emission.service.ts:463-504 | a failed mirror write sends a done job to retry or dead, and no later post changes its document |
| BillingOutbox.RearmAllowsTwoWorkers | src/modules/billing-integration/billing-emission.service.ts:184-192 | after a re-arm a second worker can join whoever holds the job |
| BillingOutbox.ProcesarIsARun | src/modules/billing-integration/billing-emission.service.ts:407-505 | the straight-line call is the protocol run of one uninterrupted worker |
| OutboxStatus.AnsweredCallLeaves | src/modules/billing-integration/billing-emission.service.ts:407-476 | an undisturbed call answered with a document leaves the job done with one attempt more and the sale with exactly that status, instant and registered document, unless it shows a newer one |
| OutboxStatus.FailedCallLeaves | src/modules/billing-integration/billing-emission.service.ts:475-507 | any other call leaves the job due again within the bounded delay, or dead exactly when no try is left or allowed, and the sale saying so with its document kept |
| OutboxStatus.ClaimIff | src/modules/billing-integration/billing-emission.service.ts:407-417 | an idle worker takes a job exactly when it is pending or in retry, with one attempt more |
| OutboxStatus.EnqueueLeaves | src/modules/billing-integration/billing-emission.service.ts:125-156 | an enqueue leaves that job pending and due now with the key and attempts it had, and no other changed |
| OutboxStatus.IssueAndRearmLeave | src/modules/billing-integration/billing-emission.service.ts:158-190 | a sale without a document is queued together with its job, and re-armed on every job of it; one with a document is left alone |
| OutboxStatus.SaleShowsLastWrite | src/modules/billing-integration/billing-emission.service.ts:369-405 | over any run of issues, re-arms, workers, stops and deliveries the sale shows status, document and instant of the last write on it |
| OutboxStatus.SaleIsMirror | src/modules/billing-integration/billing-emission.service.ts:369-405 | between issues and failures the sale row is the document mirror of the versions that arrive, by worker, webhook or poll |
| OutboxStatus.NewestVersionStays | src/modules/billing-integration/billing-emission.service.ts:369-405 | so it ends with the status, instant and document of the newest version, whatever the order |
| BillingOutbox.OutboxTables.Process | src/modules/billing-integration/billing-emission.service.ts:407-505 | the method leaves the tables of Procesar, in every branch |
| BillingOutbox.OutboxTables.Enqueue | src/modules/billing-integration/billing-emission.service.ts:125-156 | the upsert re-arms an existing job and keeps its key and attempts, or creates one |
| BillingOutbox.OutboxTables.ApplyDocument | src/modules/billing-integration/billing-emission.service.ts:369-405 | the newer remote timestamp wins on the sale row; the method leaves the row of AplicarDocumento, which SaleIsMirror ties to the document mirror |
| DocumentMirror.ReflejoIsConsistent | src/modules/billing-integration/billing-emission.service.ts:380-404 | the mirrored tax state agrees with the billing status, and an error is kept exactly for rejected and failed documents |
| DocumentMirror.NewestWins | src/modules/billing-integration/billing-emission.service.ts:369-405 | after any deliveries the mirror is as if only the newest version had arrived |
| DocumentMirror.Convergence | src/modules/billing-integration/billing-credit-note.service.ts:284-326 | deliveries of the same versions, in any order and with any duplication, leave the same mirror |
| DocumentMirror.TieKeepsOrderIff | src/modules/billing-integration/billing-emission.service.ts:378 | two versions of one instant commute exactly when they mirror alike |
| DocumentMirror.MirrorNeverGoesBack | src/modules/billing-integration/billing-credit-note.service.ts:298-326 | the mirror's timestamp and the series number never decrease |
| DocumentMirror.RaceNeverPredatesStart | src/modules/billing-integration/billing-debit-note.service.ts:286-327 | with reads and writes interleaved the row is never older than when the deliveries began, nor the series number lower |
| DocumentMirror.LastWriteStays | src/modules/billing-integration/billing-emission.service.ts:369-405 | over any reads and writes the mirrored fields and timestamp are those of the last write |
| DocumentMirror.SeriesIsHighest | src/modules/billing-integration/billing-debit-note.service.ts:318-327 | over any reads and writes the series stands at the highest of its first number and the numbers written |
| DocumentMirror.RaceKeepsNewestIff | src/modules/billing-integration/billing-emission.service.ts:374-405 | over any interleaving the mirror ends with the newest version written exactly when the last write carries it |
| DocumentMirror.OlderCanReplaceNewer | src/modules/billing-integration/billing-emission.service.ts:374-405 | of two deliveries that both read before either writes the older, writing last, replaces the newer |
| DocumentMirror.SerialDeliveriesAreAplicar | src/modules/billing-integration/billing-emission.service.ts:369-405 | without overlap the two-step protocol is last-writer-wins |
| DocumentMirror.NoteRow.ApplyDocument | src/modules/billing-integration/billing-credit-note.service.ts:284-326 | the method leaves the row of Aplicar and moves neither timestamp nor number back |
| WebhookInbox.AppliedAtMostOnce | src/modules/billing-integration/billing-webhook.service.ts:156-202 | an event is applied once at most, however its deliveries overlap, fail or stop |
| WebhookInbox.LostIff | src/modules/billing-integration/billing-webhook.service.ts:156-202 | over any run an event is recorded, unapplied and with nobody applying it exactly when a delivery that recorded it stopped half-way |
| WebhookInbox.RedeliveryAppliesOnce | src/modules/billing-integration/billing-webhook.service.ts:193-200 | once all deliveries are over, the next one leaves the event applied once exactly when none stopped so |
| WebhookInbox.CrashLosesEvent | src/modules/billing-integration/billing-webhook.service.ts:161-171 | a delivery that stops while applying leaves its event recorded, unapplied and with nobody applying it |
| WebhookInbox.LostEventIsNeverApplied | src/modules/billing-integration/billing-webhook.service.ts:156-171 | an event recorded by a delivery that then stops is never applied |
| DebitNoteEffects.EffectsAtMostOnce | src/modules/billing-integration/billing-debit-note.service.ts:483-552 | over any interleaving the account goes through an ordinary run in which the note appears once if its flag was raised and not at all otherwise |
| DebitNoteEffects.EffectsRaiseAccount | src/modules/billing-integration/billing-debit-note.service.ts:497-547 | one application raises initial balance, balance and sale total by the note's total, or opens an account that owes it |
| DebitNoteEffects.NoteShowsLastWrite | src/modules/billing-integration/billing-debit-note.service.ts:281-327 | whatever interleaves, the note shows instant and acceptance of the last mirror or failure written |
| DebitNoteEffects.EffectsExactlyOnce | src/modules/billing-integration/billing-debit-note.service.ts:281-331 | with no failure, once an accepted document is mirrored and all deliveries are over, the effects were applied exactly once |
| DebitNoteEffects.AppliedIff | src/modules/billing-integration/billing-debit-note.service.ts:281-404 | over any run, failures and stops included, once deliveries are over the effects were applied exactly when one committed to them and no failure met the only one still committed |
| DebitNoteEffects.DeliveryAppliesIff | src/modules/billing-integration/billing-debit-note.service.ts:294-330 | an undisturbed delivery applies missing effects exactly when it is accepted, not older than the mirror, and the mirror was not accepted before |
| DebitNoteEffects.CrashBeforeEffectsLosesThem | src/modules/billing-integration/billing-debit-note.service.ts:328-330 | the only committed delivery stopping before its effects leaves a note mirrored as accepted that nobody will apply |
| DebitNoteEffects.LostEffectsStayLost | src/modules/billing-integration/billing-debit-note.service.ts:328-330 | after a stop between mirror and effects no accepted delivery applies them |
| DebitNoteEffects.RetryAfterFailureIff | src/modules/billing-integration/billing-debit-note.service.ts:375-404 | after a failed attempt a delivery applies the effects exactly when it is accepted and not older than the failure |
| VoidSaga.SagaIsLedgerRun | src/modules/billing-integration/billing-void.service.ts:141-618 | however requests, workers, deliveries, retries, failures, stops, credit notes and the account's own transactions interleave, the account goes through an ordinary run of its transactions |
| VoidSaga.SagaKeepsLedger | src/modules/billing-integration/billing-void.service.ts:331-618 | that run keeps the ledger |
| VoidSaga.VoidIsAllOrNothing | src/modules/billing-integration/billing-void.service.ts:299-360 | over any interleaving of requests, claims, stops, failures, retries and deliveries: either nothing of value moved, or exactly one reversal of the rows before the void did |
| VoidSaga.ReversalsAreCounted | src/modules/billing-integration/billing-void.service.ts:541-600 | over any run, reversals and total returns are together as many as the times the sale became annulled, one more for each later note that reopened it |
| VoidSaga.ReversedAtMostOnce | src/modules/billing-integration/billing-void.service.ts:541-600 | a sale no credit note reopens is reversed at most once, and once exactly when it ends annulled without a total return |
| VoidSaga.LateNoteReversesAgain | src/modules/sunat-emission/sunat-credit-note-emission.service.ts:455-468 | a note accepted after the reversal and the acceptance delivered again reverse the sale twice, stock included |
| VoidSaga.StockIsAccounted | src/modules/billing-integration/billing-void.service.ts:568-581 | over any run stock rises by what credit notes returned plus the whole sale for each reversal, variant by variant |
| VoidSaga.StockReturnedIsSoldIff | src/modules/sunat-emission/sunat-credit-note-emission.service.ts:364-378 | stock returned is stock sold exactly when one reversal and no note, or no reversal and the notes, brought all of it |
| VoidSaga.ReversalReturnsStock | src/modules/billing-integration/billing-void.service.ts:568-581 | without credit notes a sale that ends annulled has put back exactly what registering it took |
| VoidSaga.DeliveryIsAplicarBaja | src/modules/billing-integration/billing-void.service.ts:331-360 | the steps of one delivery in a row are apply as written |
| VoidSaga.DeliveryAnnulsIff | src/modules/billing-integration/billing-void.service.ts:331-356 | an undisturbed delivery leaves the sale annulled exactly when it was, or the delivery is an acceptance not older than the mirror |
| VoidSaga.RedeliveryCompletesAcceptance | src/modules/billing-integration/billing-void.service.ts:331-356 | an acceptance cut between mirror and effect is completed by delivering it again |
| VoidSaga.RetryAfterFailureIff | src/modules/billing-integration/billing-void.service.ts:299-329 | after a failed reversal the same acceptance annuls the sale exactly when it is not older than the failure |
| VoidSaga.FailedAcceptanceIsLost | src/modules/billing-integration/billing-void.service.ts:299-339 | if the reversal of an acceptance fails and no other process carries one, no run of older deliveries, polls, retries, requests and account transactions annuls the sale |
| VoidSaga.AnnulledIff | src/modules/billing-integration/billing-void.service.ts:299-360 | over any run, once no process carries an acceptance, the sale is annulled exactly when one was mirrored, or a total return accepted, and not abandoned since |
| VoidSaga.RequestNeverRepeats | src/modules/billing-integration/billing-void.service.ts:124-137 | once the remote answered and no request is between checks and write, the sale never sends another, whatever happens next |
| VoidSaga.RemoteAnswerIsKeptIff | src/modules/billing-integration/billing-void.service.ts:123-166 | the remote answer is kept over every run exactly when no request is between its checks and its write |
| VoidSaga.SplitRestoreIff | src/modules/billing-integration/billing-void.service.ts:603-618 | with any run between restoreAccount's read and write, status and balance agree exactly when the balance was zero at both or at neither; an account annulled meanwhile is no longer so |
| VoidSaga.RejectionRestoresEstadoIff | src/modules/billing-integration/billing-void.service.ts:603-618 | exactly when a rejected void gives the account back as it was |
| VoidSaga.RejectionForgetsCollections | src/modules/billing-integration/billing-void.service.ts:610-616 | a partly collected account without an advance comes back pending |
| VoidStatus.DeliveryStatus | src/modules/billing-integration/billing-void.service.ts:331-360 | a delivery that is not stale leaves accepted exactly for an acceptance; a retry is then open exactly to a failure, or to a rejection whose date can be recovered; a stale one changes nothing |
| VoidStatus.RequestIff | src/modules/billing-integration/billing-void.service.ts:69-171 | exactly which requests are taken, everything one writes, and that a second one after it is refused |
| VoidStatus.RetryWrites | src/modules/billing-integration/billing-void.service.ts:409-460 | exactly which retries are taken and everything an undisturbed one writes, before and after the remote has answered |
| VoidStatus.FailureStatus | src/modules/billing-integration/billing-void.service.ts:299-329 | a failed call is final exactly when it may not be tried again or the attempts are used up; exactly then the job is dead, the sale may be retried and the account gets its state back |
| VoidStatus.ClaimIff | src/modules/billing-integration/billing-emission.service.ts:407-417 | a claim takes a pending or retried job with one attempt more and leaves any other alone |
| VoidStatus.CallDone | src/modules/billing-integration/billing-emission.service.ts:421-431 | a call that went through leaves the job done and nothing else changed |
| VoidStatus.MissingStockRow | src/modules/billing-integration/billing-void.service.ts:560-575 | the reversal opens a stock row for a variant that has none, holding exactly what comes back |
| VoidStatus.NoteBlocksRequest | src/modules/billing-integration/billing-void.service.ts:96-100 | after an accepted note no void request passes |
| VoidStatus.AcceptedIsCarriedIff | src/modules/billing-integration/billing-void.service.ts:331-360 | at every point of a run a sale that shows an accepted void is annulled or about to be, exactly while the last process carrying the acceptance does not stop and no note reopens the sale |
| VoidStatus.AcceptedIsAnnulled | src/modules/billing-integration/billing-void.service.ts:331-360 | so without notes and stops it always is |
| VoidReversal.ReversalNetsCash | src/modules/billing-integration/billing-void.service.ts:542-566 | the open-session cash of every payment that was active nets to zero |
| VoidReversal.ReversalSettlesLedger | src/modules/billing-integration/billing-void.service.ts:582-600 | after the reversal nothing is owed, no payment is active, and neither payments nor annulments do anything |
| VoidReversal.LateDebitNoteReopens | src/modules/billing-integration/billing-debit-note.service.ts:497-520 | a debit note accepted after the reversal opens the account again: it owes the note and takes payments |
| VoidReversal.LateRequestReopens | src/modules/billing-integration/billing-void.service.ts:163-166 | a void request past its checks that writes after the reversal sets the annulled account back to pending void |
| VoidReversal.StaleFinaliseWrites | src/modules/billing-integration/billing-void.service.ts:529-601 | a stale finalise sets the annulled columns over the rows as they are now and returns to stock what it read |
| VoidReversal.StaleReversalCash | src/modules/billing-integration/billing-void.service.ts:531-566 | for any read and any current rows the open-session cash of a payment falls by what was read of it in sessions open at both, and not at all if it was not read as active |
| VoidReversal.StaleReversalKeepsCashIff | src/modules/billing-integration/billing-void.service.ts:542-566 | the cash laws survive exactly when in each session closed since the reversal rows add up to zero |
| VoidReversal.StaleReversalKeepsRowsIff | src/modules/billing-integration/billing-void.service.ts:582-600 | rows and balance survive exactly when the account was read, or has no active collection |
| VoidReversal.StaleReversalOverRun | src/modules/billing-integration/billing-void.service.ts:529-601 | the three with any run of transactions between the read and the writes |
| VoidReversal.StaleFinaliseOverRun | src/modules/billing-integration/billing-void.service.ts:529-601 | the whole transaction under any run of the void's processes: the ledger condition, and stock returned once exactly when no other reversal and no note returned any |
| VoidReversal.PaymentUnderReversal | src/modules/billing-integration/billing-void.service.ts:582-586 | a collection made in between is made inactive while its money stays in the drawer |
| VoidReversal.OverlappingReversals | src/modules/billing-integration/billing-void.service.ts:529-601 | two finalising transactions that both read the sale before either commits return stock twice and leave each payment as far below zero as it was above, and the ledger laws do not show it |
| VoidReversal.VoidTables.FinalizeCommercialAnnul | src/modules/billing-integration/billing-void.service.ts:529-601 | the method, with its loops over cash rows, lines and payments, leaves the rows of Finalizar |
| VoidReversal.VoidTables.Apply | src/modules/billing-integration/billing-void.service.ts:331-360 | the method leaves the rows of AplicarBaja: mirror, then reversal or restore; DeliveryStatus and DeliveryAnnulsIff tell what these are |
| CreditNotes.NeverOverCredited | src/modules/credit-notes/credit-notes.service.ts:556-584 | over any run with distinct items, reason 02 only on untouched sales and no reactivation, active notes never credit more than was sold, and credited plus available is what was sold |
| CreditNotes.NeverOverCreditedIff | src/modules/credit-notes/credit-notes.service.ts:556-584 | over any run the bound holds after every event exactly while every note and status change fits where it falls |
| CreditNotes.NewNoteFitsIff | src/modules/credit-notes/credit-notes.service.ts:499-554 | a new note keeps that bound exactly when: reason 02, nothing was credited; reason 07, the items of each line together fit |
| CreditNotes.RejectionGivesBack | src/modules/credit-notes/credit-notes.service.ts:105-112 | a rejected or failed note gives back exactly what it took, per line |
| CreditNotes.ReactivationFitsIff | src/modules/billing-integration/billing-credit-note.service.ts:147-167 | a retried note keeps the bound exactly when its quantities are still available |
| CreditNotes.TotalReturnLeavesNothing | src/modules/credit-notes/credit-notes.service.ts:518-533 | a total return leaves zero available everywhere and every later return is refused |
| CreditNotes.ConcurrentReturnsFitIff | src/modules/credit-notes/credit-notes.service.ts:173-182 | two requests of any reasons and items that read the same availability keep the bound exactly when on every line what both take fits at once |
| CreditNotes.FullQuantityIsExact | src/modules/credit-notes/credit-notes.service.ts:608-625 | a full-quantity line carries the sale line's amounts to the cent |
| CreditNotes.PartialReturnsDrift | src/modules/credit-notes/credit-notes.service.ts:608-625 | k amounts prorated from one that together return the whole quantity differ from it by at most k/2 cents; CreditedFollowsQuantity is the same of the lines of notes |
| CreditNotes.LineWithinOneCent | src/modules/credit-notes/credit-notes.service.ts:608-625 | value plus tax is within a cent of the total |
| CreditNotes.HeaderWithinOneCentPerLine | src/modules/credit-notes/credit-notes.service.ts:627-665 | the header of every accepted note falls short by the value on other affectation codes, within a cent per line, exactly for reasons 02 and 03 |
| CreditedAmounts.NoteIff | src/modules/credit-notes/credit-notes.service.ts:499-554 | exactly which notes are accepted by reason and items; a new one awaits emission and leaves the others alone |
| CreditedAmounts.LineAmounts | src/modules/credit-notes/credit-notes.service.ts:586-625 | every line of an accepted note carries its sale line's affectation and, of each of its five amounts, the nearest cent, halves up, to amount times quantity over quantity sold; one line an item under reason 07, all that is available under 06, whole lines under 02 and 03 |
| CreditedAmounts.StatusDecides | src/modules/credit-notes/credit-notes.service.ts:105-112 | a note counts against the sale exactly while it is not rejected, failed for good or exempt, and never under reason 03 |
| CreditedAmounts.CreditedFollowsQuantity | src/modules/credit-notes/credit-notes.service.ts:586-625 | over any run, for every line and each of its five amounts, what the active notes credit is the amount's part for the quantity they credit to half a cent per note line; once all of it is credited they differ from the amount by at most that |
| Decimals.CodeProrates | src/modules/credit-notes/credit-notes.service.ts:608-624 | the amount as the code computes it, factor and product each to twenty significant digits, is the exact part to the nearest cent, for every amount and quantity with eleven times their product below 10^19; at an exact half it may be the lower cent, and the whole quantity gives the whole amount |
| Decimals.HalfCanBeCutDown | src/modules/credit-notes/credit-notes.service.ts:608-624 | three of fourteen pieces of a line of 44.31 are credited at 9.49 where halves up would be 9.50 |
| Decimals.CodeSplits | src/modules/debit-notes/debit-notes.service.ts:202-203 | a taxed amount divided by 1.18 is never at a half, so twenty digits give the exact value to the nearest cent |
| CreditNotes.CreditNoteTables.Create | src/modules/credit-notes/credit-notes.service.ts:118-289 | the method leaves the notes of Crear, whose acceptance and amounts NoteIff and LineAmounts tell, and keeps the bound for notes the run theorem admits |
| DebitNotes.SplitIsExact | src/modules/debit-notes/debit-notes.service.ts:193-210 | value plus tax is the amount exactly; value is the nearest cent to amount / 1.18, halves up |
| DebitNotes.LinesCarryAdjustments | src/modules/debit-notes/debit-notes.service.ts:193-233 | an accepted note has one line for each adjustment, of its sale line's affectation and exactly its amount; the header's total is what was asked for |
| FiscalTotals.HeaderColumns | src/modules/credit-notes/credit-notes.service.ts:645-660 | each header column adds up its own lines: the value of one affectation, all the tax, all the totals |
| DebitNotes.HeaderAddsUpIff | src/modules/debit-notes/debit-notes.service.ts:212-233 | the header falls short by exactly the amounts on other affectation codes, so it adds up exactly when these are zero |
| DebitNotes.ZeroAmountsAreAccepted | src/modules/debit-notes/debit-notes.service.ts:125-201 | exactly which adjustments are accepted: at least one, distinct lines of the sale, no minus sign; zeros pass |
| Rounding.HalfUpIsNearest | src/modules/credit-notes/credit-notes.service.ts:620-624 | rounding to two decimals is to the nearest, the upper at a half |
| ResponseCache.HitsAreFresh | src/common/cache/response-cache.service.ts:13-25 | with concurrent factories every hit at t is a value of that key whose computation began later than t minus its time to live |
| ResponseCache.CleanupIsUnobservable | src/common/cache/response-cache.service.ts:39-48 | over any run the cache answers as a map with expiry that never cleans up |
| ResponseCache.HitIff | src/common/cache/response-cache.service.ts:13-25 | after any run a request is a hit exactly when the last value computed for its key and not deleted since has not expired, and answers it; otherwise it starts a factory |
| ResponseCache.ResolutionStores | src/common/cache/response-cache.service.ts:21-48 | what the store holds once a factory resolves: its value, less what a cleanup, once a minute at most, finds expired |
| ResponseCache.FlightAfter | src/common/cache/response-cache.service.ts:13-25 | a factory is in flight from its miss until it resolves or fails, and a failure stores nothing |
| ResponseCache.DeletionHolds | src/common/cache/response-cache.service.ts:27-33 | if no factory under the prefix is in flight, no later hit predates the deletion |
| ResponseCache.FlightUndoesDeletionIff | src/common/cache/response-cache.service.ts:13-33 | a factory in flight serves its older value after the deletion exactly until it expires |
| ResponseCache.ResponseCacheService.Get | src/common/cache/response-cache.service.ts:13-19 | a hit is an unexpired entry of the key |
| ResponseCache.ResponseCacheService.Set | src/common/cache/response-cache.service.ts:21-24 | after the await the store is that of Resolver |
| ResponseCache.ResponseCacheService.DeletePrefix | src/common/cache/response-cache.service.ts:27-33 | the loop removes exactly the keys with the prefix |
| ResponseCache.ResponseCacheService.Cleanup | src/common/cache/response-cache.service.ts:39-48 | the loop removes exactly the expired entries, once a minute at most |
| RefreshTokens.RunKeepsAuth | src/modules/auth/auth.service.ts:1285-1304 | over any run no token is ahead of its user and the versions of a user's tokens are distinct, increasing |
| RefreshTokens.OneUsableToken | src/modules/auth/auth.service.ts:834-876 | a user has one usable refresh token at most |
| RefreshTokens.RefreshRotates | src/modules/auth/auth.service.ts:834-876 | a refreshed token is never usable again on any continuation; the new one is, alone, until it expires |
| RefreshTokens.OutMeansOut | src/modules/auth/auth.service.ts:927-939 | once signed out, no token of the user works until the user signs in again |
| RefreshTokens.LogoutAndResetSignOut | src/modules/auth/auth.service.ts:763-800 | logout and password reset sign out |
| RefreshTokens.RefreshIff | src/modules/auth/auth.service.ts:808-910 | exactly which refreshes issue a token, membership included, what they write, when a stale token is revoked, and that any other changes nothing |
| RefreshTokens.SignInIff | src/modules/auth/auth.service.ts:487-600 | a login, change of profile or new company issues one token, one version up, exactly to a user admitted, and revokes nothing |
| RefreshTokens.SignOutIff | src/modules/auth/auth.service.ts:912-941 | a logout, new password or reset revokes exactly the user's tokens and raises the version once; only a password set within a session issues one; nobody else is touched |
| RefreshTokens.StaleSignInKeepsAuthIff | src/modules/auth/auth.service.ts:553-563 | a login, company creation or refresh with any run between its read and its version write, and any between that and its token, keeps the version laws exactly when no session was opened for the user in between |
| RefreshTokens.StaleSignInUsableIff | src/modules/auth/auth.service.ts:558-605 | its token is usable exactly while nothing has raised the version since its version write, it has not expired and the account is active |
| RefreshTokens.StaleRefreshKeepsAuthIff | src/modules/auth/auth.service.ts:814-876 | for a refresh whose writes come together: exactly when no session was opened for that user since its read |
| RefreshTokens.StaleRefreshSignsIn | src/modules/auth/auth.service.ts:865-910 | its new token is usable until it expires whatever the run did, logout and reset included, as long as the account is active |
| RefreshTokens.ConcurrentRefreshForks | src/modules/auth/auth.service.ts:865-876 | two requests that read the same token before either writes leave two usable tokens; one after the other the second is refused |
| RefreshTokens.AuthTables.RefreshSession | src/modules/auth/auth.service.ts:808-910 | the method leaves the rows of Refrescar and answers a usable token only for a usable one |
| RefreshTokens.AuthTables.LogoutSession | src/modules/auth/auth.service.ts:912-940 | the method leaves the rows of Salir |
| RefreshTokens.AuthTables.ChangeMyPassword | src/modules/auth/auth.service.ts:686-724 | the method revokes every token of the user, then issues the only usable one |
| PlanLimits.AssertResourceLimits | src/modules/plans/plans.service.ts:1020-1062 | no error exactly when the plan is active and every increment fits |
| PlanLimits.EmployeeEndpoints | src/modules/employees/employees.service.ts:262-320 | an active employee needs a free place when created or made active, never when removed; each endpoint writes that employee alone |
| PlanLimits.BranchCreated | src/modules/branches/branches.service.ts:146-212 | exactly which branches may be created, when the new one is principal, and that the others lose only that |
| PlanLimits.BranchChanged | src/modules/branches/branches.service.ts:214-319 | a change keeps what it does not mention; a type that is no store ends principal and cash register; only naming it principal touches others |
| PlanLimits.BranchRemoved | src/modules/branches/branches.service.ts:321-334 | a removed branch is neither active nor principal and still uses its place |
| PlanLimits.WithinIff | src/modules/plans/plans.service.ts:1348-1372 | being within the limits means stores and attendance sites, warehouses, and active employees each counted against its own column |
| PlanLimits.PlanChangeIff | src/modules/plans/plans.service.ts:1020-1062 | after a change of plan an active employee is taken exactly when the new plan is not expired and its limit has room |
| PlanLimits.ResourcesStayWithin | src/modules/plans/plans.service.ts:1348-1372 | while no limit shrinks, employees, stores plus attendance sites, and warehouses stay within their limits over any run |
| PlanLimits.ResourcesStayWithinIff | src/modules/plans/plans.service.ts:1348-1372 | over any run a resource stays within its limit exactly while no change of plan sets it below what is used |
| PlanLimits.SameLimitTypeChangeRefusedIff | src/modules/branches/branches.service.ts:288-294 | a type change within one limit is refused exactly when the plan expired or the limit is full, though the count would not change |
| PlanLimits.StaleReadKeepsLimitIff | src/modules/employees/employees.service.ts:262-281 | a reactivation on a stale read keeps the limit exactly when no check was wrongly skipped or there was room |
| PlanLimits.StaleBranchKeepsLimitIff | src/modules/branches/branches.service.ts:220-294 | a branch update on a stale read keeps its limit exactly when the branch keeps its kind, the check was made, or there was room |
| PlanLimits.StaleBranchKeepsPrincipalIff | src/modules/branches/branches.service.ts:220-284 | it keeps one principal, a store, and cash registers in stores only, exactly unless the branch was read as a store, is one no longer, and a request without a type names it principal or gives it a register |
| PlanLimits.StaleChangeKeepsRest | src/modules/branches/branches.service.ts:214-319 | with a stale read the columns a request does not mention stay as they are now, not as they were read |
| PlanLimits.OnePrincipalAtMost | src/modules/branches/branches.service.ts:171-205 | over any run at most one branch is principal, it is a store, and only stores run a cash register |
| PlanLimits.NamingPrincipalKeepsOneIff | src/modules/branches/branches.service.ts:296-309 | naming a branch principal leaves one exactly when the branch is or becomes a store |
| PlanLimits.BranchTables.Create | src/modules/branches/branches.service.ts:146-212 | the method leaves the rows and the answer of CrearSucursal |
| PlanLimits.BranchTables.Update | src/modules/branches/branches.service.ts:214-319 | the method leaves the rows and the answer of ActualizarSucursal |
| PlanLimits.BuildData | src/modules/branches/branches.service.ts:233-284 | the row built field by field is that of Cambiada |
| HistoryRange.EnsureDateIff | src/common/history-date-range.ts:27-36 | exactly the valid calendar dates of RFC 3339, sections 5.6 and 5.7, are accepted |
| HistoryRange.StringOrderIsChronological | src/common/history-date-range.ts:70-72 | on valid dates the string comparison is chronological (section 5.1 of RFC 3339) |
| HistoryRange.RefusedIff | src/common/history-date-range.ts:58-72 | a query is refused exactly when a date is invalid or they are the wrong way round |
| HistoryRange.PeriodChosen | src/common/history-date-range.ts:43-47 | the named period, or the dates as soon as one is not empty, or today |
| HistoryRange.CustomRangeIff | src/common/history-date-range.ts:61-78 | a query by dates is accepted exactly when a first date is given and valid and the last, if given, is valid and not earlier; the interval is theirs, and the new parameter names go before the old even when empty |
| HistoryRange.RangeIsWholeDays | src/common/history-date-range.ts:74-77 | an accepted range is non-empty and holds exactly the instants of the Lima days between its dates, 9999-12-31 included |
| HistoryRange.NamedPeriodsAreRight | src/common/history-date-range.ts:42-57 | named periods are never refused; today, week and month contain now and end with today; yesterday is the day before |
| HistoryRange.PeriodStarts | src/common/history-date-range.ts:53-57 | a week starts on the Monday on or before today, a month on its first |
| HistoryRange.ResolveHistoryDateRange | src/common/history-date-range.ts:38-78 | the function as written answers as Resolver |
| Calendar.FechaDeDia | src/common/history-date-range.ts:21-25 | a day number gives its date back exactly when the date is valid; past the end of a month it rolls over |
| Calendar.EpochIsThursday | src/common/history-date-range.ts:54 | the weekday of a day number is the one of the JavaScript calendar, Thursday on 1970-01-01 |
| TrendBuckets.GetTrendRange | src/modules/dashboard/dashboard.service.ts:269-314 | the loops end, with ordered, disjoint buckets of distinct keys up to now: the local hours of today begun so far, or the last 7, 14 or 30 local days, under their keys |
| TrendBuckets.BuildSalesTrend | src/modules/dashboard/dashboard.service.ts:316-339 | each value is the total of the sales within its bucket |
| TrendBuckets.SalesTrendAddsUp | src/modules/dashboard/dashboard.service.ts:316-339 | the values add up to the total of the range |
| TrendBuckets.PeriodIsCovered | src/modules/platform-admin/platform-admin.service.ts:1105-1169 | the buckets of the platform's period run without gap or overlap from its start to past its end |
| TrendBuckets.PeriodShows | src/modules/platform-admin/platform-admin.service.ts:1136-1170 | one, seven, fourteen or thirty days up to today, or the month from its first day, one bucket a day |
| TrendBuckets.YearShows | src/modules/platform-admin/platform-admin.service.ts:1117-1134 | the year from the first of January, one bucket a month up to this one |
| TrendBuckets.NextJanuary | src/modules/platform-admin/platform-admin.service.ts:1124 | month twelve of a year is the January of the next |
| TrendBuckets.CompanyTrendAddsUp | src/modules/platform-admin/platform-admin.service.ts:173-179 | the counts of the chart add up to the number of companies of the period |

## Left out

- Remote calls, mail, PDF, object storage, cron timing and secrets appear only as the result of a step.
- Access scope, search, pagination and response mapping are not modelled.
- Amounts are whole cents: requests with more decimals are not modelled. The other lemmas take a proration as an exact rational rounded half up; Decimals says when the code's twenty digits give the same cent.
- Lima is five hours behind UTC all year and the server a fixed offset behind; time-zone data is not modelled. Dates are those of years 1 to 9999 for the clock, and the day after 9999-12-31 reads back by the ECMAScript date-time format.
- The sales code that opens accounts and takes stock is outside the model: runs start from a fresh account, and stock changes add a delta. Stock costs and movements are not modelled.
- ReceivableRuns.Conservation: covers runs without accepted credit notes and before a void is finalised; HeaderStandsIff and RevertirKeepsLedger say what holds of those.
- ReceivableRuns.AnnulmentsCommute: the cash rows of the two orders are the same rows, not in the same order; OverlappingAnnulmentsIff has annulments that overlap.
- VoidSaga.ReversedAtMostOnce: takes the finalising transaction as one step; StaleFinaliseOverRun has any run between its read and its writes.
- VoidSaga.StockReturnedIsSoldIff: assumes the notes return at most what was sold, which NeverOverCredited is about.
- VoidReversal.VoidTables.Apply: runs undisturbed; DeliveryIsAplicarBaja ties it to the steps of the protocol.
- In the void each worker's failed attempts are a parameter of the failure, and claims of the outbox are those of BillingOutbox.
- ReceivableLaws.AnularKeepsLedger: takes the read and the transaction of an annulment as one step; StaleAnnulOverRun says what anything in between does.
- ReceivableLaws.AnularKeepsCash: likewise; StaleAnnulKeepsCashIff has the sessions closed in between.
- ReceivableService.ReceivableTables.AnnulPayment: runs undisturbed; FreshReadIsAnular ties it to the writes on a stale read.
- ReceivableRaces.StaleAnnulKeepsLedgerIff: covers a payment still active at the write; for one annulled or reversed meanwhile StaleAnnulKeepsBalanceIff and StaleAnnulKeepsCashIff hold.
- ReceivableRaces.StaleAnnulOverRun: the transactions in between are each on fresh reads; stale ones are covered by the lemmas on any two consistent ledgers.
- ReceivableStates.EstadoFollowsBalance: restores are on a fresh read; RestoreKeepsEstadoIff has the others.
- BillingOutbox.DocumentoNeverChanges: assumes the sale is always issued in one environment; a sale without a document may be moved to the other.
- BillingOutbox.OneWorkerPerJob: a re-arm that meets a worker is excluded, since OneWorkerPerJobIff and RearmAllowsTwoWorkers show it breaks the exclusion; locks older than ten minutes are not modelled because the claim does not look at them.
- DocumentMirror.Convergence: the series number depends on the order of arrival, and only its growth is stated; numbers formatted for display are not modelled.
- Decimals.CodeProrates: takes amounts and quantities with room for the digits; the columns hold amounts below 10^12 cents, so that is every line of up to 900,000 pieces.
- FiscalTotals.HeaderColumns: the subtotal and discount totals of a credit note are two more sums of the same kind.
- OutboxStatus.IssueAndRearmLeave: a retry of a sale without a document also re-arms its void job, which the void's model takes as another claim.
- CreditNotes.CreditNoteTables.Create: reads availability and writes the note as one step; ConcurrentReturnsFitIff has two requests at once.
- CreditNotes.NeverOverCredited: takes each creation as one step, with distinct items, reason 02 on untouched sales and no reactivation; the three lemmas beside it say when each of these matters.
- DebitNoteEffects.EffectsExactlyOnce: takes runs without failures; AppliedIff has every run, and LostEffectsStayLost and RetryAfterFailureIff what a failure leaves.
- WebhookInbox.AppliedAtMostOnce: signature, timestamp and payload checks come before the modelled steps, and applying an event is one step.
- RefreshTokens.RunKeepsAuth: takes each endpoint as one step; StaleSignInKeepsAuthIff has a login or refresh with any runs in between.
- RefreshTokens.OneUsableToken: takes each endpoint as one step; StaleSignInKeepsAuthIff says when a sign-in in flight keeps it.
- RefreshTokens.RefreshRotates: takes each endpoint as one step; ConcurrentRefreshForks has the same token presented twice at once.
- RefreshTokens.OutMeansOut: takes each endpoint as one step; StaleRefreshSignsIn has the refresh in flight that undoes it.
- RefreshTokens.StaleRefreshKeepsAuthIff: the writes of the refresh are one step; StaleSignInKeepsAuthIff has them apart.
- RefreshTokens.AuthTables.RefreshSession: runs undisturbed, as do LogoutSession and ChangeMyPassword.
- RefreshTokens.AuthTables.LogoutSession: runs undisturbed.
- RefreshTokens.AuthTables.ChangeMyPassword: runs undisturbed.
- ResponseCache.HitsAreFresh: how a cache key is spelled from its parts is not modelled.
- PlanLimits.OnePrincipalAtMost: takes each endpoint as one step; StaleBranchKeepsPrincipalIff has the stale read.
- PlanLimits.BranchTables.Update: the row it read is current; FreshReadIsActualizar ties it to the writes on a stale read.
- PlanLimits.ResourcesStayWithin: takes each endpoint as one step; StaleReadKeepsLimitIff and StaleBranchKeepsLimitIff have the stale reads; how the effective limits are computed from plan and add-ons is not modelled.
- The despatch-guide outbox is the emission protocol with another delay and a second remote call; it would repeat the same theorems.
- Module keys of a plan, plan pricing, overage prices, document allowances and audit logs: short case splits without state.
- Brands, colors, categories, clients, payment methods and attendance classification: name keys and soft deletion.
