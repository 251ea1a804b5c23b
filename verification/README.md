# DRC Pay: the payment spine, verified

DRC Pay takes a customer's mobile-money payment and settles it to a merchant. A routed payment has two
legs, a collection and a payout, with an automatic refund when the payout fails; a same-network ("on-net")
payment moves no money through the provider and waits for the merchant's word. Outcomes arrive by callback
or by reconciliation poll, in any order and any number of times. This project models that system in Dafny
and proves that its states, its double-entry books, its operation ids and its requests to the rail stay
consistent in every run.

Check it with `dafny verify dfyconfig.toml`.

## How it is laid out

The model has three layers, and each is proved equal to the one below it.

1. **One payment, on values.** `payments.dfy` says what each handler does to one transaction: the
   transaction it leaves, what it posts, what it asks of the rail, in what order it does that, what it
   raises. A payment is *canonical* when its history, books, calls, ids and the record of what was done
   when can all be read off its state; every handler keeps it so.
   `pricing.dfy`, `ledger.dfy`, `money.dfy`, `state_machine.dfy`, `transactions.dfy` and `status.dfy` are
   what it rests on.
2. **The whole system, on values.** `worlds.dfy` has a world of many transactions, the append-only books,
   the log of rail requests and one record of every save, posting and request in order, stepped by starts,
   callbacks, polls and confirmations. Each step carries what the rail would answer, so the rail's
   behaviour is the environment's choice throughout. On it stand `conservation.dfy` (every run),
   `confluence.dfy` (push against poll), `sweeps.dfy`, `healing.dfy` and `summary.dfy` (reconciliation),
   and `reports.dfy` (what a callback or a polled status comes to, told from its own text).
   `idempotent_start.dfy` breaks the start of a payment into its separate steps and interleaves any number
   of requests; `start_outcomes.dfy` (when a start raises), `concurrent_health.dfy` (what is promised of
   each payment there), `concurrent_totals.dfy` (and of the accounts), `concurrent_sessions.dfy` (a
   feature-phone session whose dials overlap) and `charge_runs.dfy` (one charge, many attempts) are about
   that finer system.
3. **The objects.** `memory.dfy`, `orchestrator.dfy`, `services.dfy`, `simulator.dfy`, and the classes in
   `charges.dfy` and `ledger.dfy` are the imperative code: mutable transactions in a store, an appending
   ledger, a rail that answers and remembers. `WorldOf` reads the objects as a world, and each method's contract says
   that the world afterwards is the one the function of layer 2 gives, and the reply is its reply.
   Contracts that ask for a well-indexed world ask for nothing beyond a valid store (`WorldIsIndexed`). The
   record is a ghost field of the store, written where the code saves, posts and asks.

Beside the spine: `ussd.dfy` with `merchants.dfy` (the feature-phone channel), `limiter.dfy` (its rate limiter),
`sql_ledger.dfy` (the ledger as rows), `throttle.dfy` (login), `amounts.dfy` (amounts as text).

## What was found

- The settlement posting balances if and only if the fee covers both leg costs. `start_transaction` accepts
  cheaper fees; `start_merchant_payment` never passes one. Under a cheaper fee a success still moves to
  paid and only then fails to post (`Payments.LockStep`, `Payments.SettlementRaisesIff`,
  `Payments.FreePaymentFailsToSettle`).
- The on-net handler posts before it checks the transition, so it is the endpoint's state guard that makes
  a payment count once (`Payments.UnguardedConfirmBreaksBooks`).
- On the simulator a callback or a poll that overtakes the play-out makes the start of a payment raise after
  the payment exists. No other start under a free key with a positive amount can raise
  (`StartOutcomes.StartRaisesIff`). Under an idempotency key nothing is collected twice even then
  (`IdempotentStart.OneCollectionPerKey`).
- A charge is paid without a key, and linked only after its start returns. So such a raise leaves it
  unlinked and payable with the customer already debited, and the retry debits again; and two pay requests
  that overlap debit twice on any rail, as there is no lock. The exact conditions are
  `ChargeRuns.CollectedTwiceIff`; short of them a charge is collected once (`ChargeRuns.ChargeCollectsOnce`).
- The play-out calls the handlers without the state guard, and the transition table lets them leave manual
  review. If failure reports have put a simulated payment there first, a refund played out gives it a
  history one state too long, and a declined collection leaves it declined with money on its books. The
  simulator never reports a failure itself, polled or otherwise (`Simulators.SimulatorNeverFails`); only a
  callback that names the payment's own ids can. Without one every payment on it keeps its promises,
  whatever its scenario (`ConcurrentHealth.SimulatorKeepsFit`). With callbacks free to say anything, the exact
  condition is `ConcurrentHealth.UnfitIff`; no other payment can ever get into such a state
  (`ConcurrentHealth.PaymentsStayFit`).
- The simulator, polled by the sweep, heals every payment of its own in three sweeps
  (`Simulators.SimulatorHeals`).
- A charge linked to a payment that is not stored shows as awaiting payment yet cannot be paid
  (`Charges.PayableMeansOpen`).
- The session's payment key is unambiguous only while till codes hold no colon
  (`Ussd.KeysAreDistinct`, `Ussd.ColonInTillCollides`). The codes handed out are numeric.
- A docstring says the simulator issues no operation ids (orchestrator.py:255-257, and sweep.py:36 suggests
  the same); the simulator does issue them (simulator.py:50-54). The model follows the code.
- `format_amount` prints a zero of more than six places in exponent form, which is not a plain amount;
  no operator has more than two places.

## Premises

- Transaction ids, posting ids and transaction-and-leg operation ids are fresh or distinct, as UUIDs are.
  The orchestrator's own theorems need no such thing of operation ids; confluence asks that a callback be
  truthful for whoever carries its id, which distinct ids give (`Healing.TruthfulIffOwner`).
- Operators are never empty once resolved (`Services.ResolveProvider`), so a missing operator is the
  empty string and its error path is in the model.
- Clocks are monotone, as the original's monotonic clock is. Timestamps are reals.
- Where three sweeps are said to settle a payment, every accepted request was given an id (`IdsIssued`), and
  each sweep's poller has a final word about the one operation that payment awaits by then (`KnownEach`); of
  anything else it may know nothing. A provider through with all its operations meets that
  (`Healing.DoneIsKnown`), and so does the simulator (`Simulators.SimulatorQualifies`).
- Where ends are compared, every stored id is the one a fixed rail issued for that leg (`Follows`); every run
  under that rail from an empty store has it (`Confluence.ReachedFollows`).

## Model

| member | source | states |
|---|---|---|
| Pricing.FeeBounds | backend/src/drc_pay_api/domains/transactions/pricing.py:35-55 | For every positive amount and every operator pair, known or not: 0 <= fee < amount, and the fee is less than two minor units below the exact combined rate, never above it. |
| Pricing.CostBounds | backend/src/drc_pay_api/domains/transactions/pricing.py:35-47 | Each leg's cost is the floor of its rate: non-negative, never above the exact share, less than one unit below it, and smaller than the amount. |
| Pricing.RatesAreExactOnHundreds | backend/src/drc_pay_api/domains/transactions/pricing.py:21-33 | The published rates, where nothing is rounded: on every multiple of a hundred, 2.5 percent to collect over Vodacom and 3 over any other, 1 to pay out over Orange and 2 over any other. |
| Pricing.FallbackIsDearest | backend/src/drc_pay_api/domains/transactions/pricing.py:31-33 | An unrecognised operator is never charged less than any recognised one. |
| Ledger.CheckBalanced | backend/src/drc_pay_api/domains/ledger/ledger.py:47-60 | The one-pass dictionary of running totals accepts exactly the postings with two entries or more whose debits equal their credits in every currency. |
| Ledger.BalancesMeans | backend/src/drc_pay_api/domains/ledger/ledger.py:47-60 | The check, told side by side: two entries or more, and in every currency the debits come to what the credits do. |
| Ledger.BooksSumToZero | backend/src/drc_pay_api/domains/ledger/ledger.py:41-60 | Books made of accepted postings sum to zero over the five accounts, in each currency. |
| Ledger.InMemoryLedger.Post | backend/src/drc_pay_api/adapters/memory.py:170-171 | Appends, and changes nothing else. |
| Ledger.InMemoryLedger.SelectForTransaction | backend/src/drc_pay_api/adapters/memory.py:173-174 | Returns the transaction's postings, all of them, in order. |
| StateMachine.MovesAre | backend/src/drc_pay_api/domains/transactions/state_machine.py:30-60 | Three states are final; every other can be put under review and only review leads back, to four named states; every other move goes one step along, save the on-net collection that settles at once. |
| Transactions.LegForState | backend/src/drc_pay_api/jobs/reconciliation/sweep.py:40-41 | The inverse of the awaiting-state table: defined on exactly the pending states, and it names the leg that state awaits. |
| Transactions.AwaitingState | backend/src/drc_pay_api/application/outcomes.py:16-23 | Each leg's awaiting state is one of the pending states. |
| Payments.SettlementBalances | backend/src/drc_pay_api/domains/transactions/orchestrator.py:194-210 | The settlement posting balances if and only if the fee covers both leg costs. |
| Payments.DefaultFeeCovers | backend/src/drc_pay_api/application/payments.py:129-133 | The production fee covers the costs for every positive amount and pair, with a margin of exactly zero, so the settlement balances; and it is below the amount. |
| Payments.CollectionBalances | backend/src/drc_pay_api/domains/transactions/orchestrator.py:147-156 | The collection posting balances for every positive amount and operator. |
| Payments.StartIsCanonical | backend/src/drc_pay_api/domains/transactions/orchestrator.py:98-131 | A newly opened payment, accepted or rejected by the rail, is in canonical form: history, books, calls, ids and the order of everything done are all read off its state. |
| Payments.DepositStep | backend/src/drc_pay_api/domains/transactions/orchestrator.py:134-179 | A collection result, with any answer of the rail to the payout and refund it may lead to, keeps that form, raises nothing, and ends in a state fixed by the outcome and the answers. |
| Payments.PayoutStep | backend/src/drc_pay_api/domains/transactions/orchestrator.py:182-231 | A payout result keeps the form; it raises exactly when it succeeds under a fee below cost. |
| Payments.RefundStep | backend/src/drc_pay_api/domains/transactions/orchestrator.py:233-252 | A refund result keeps the form and ends refunded or in manual review. |
| Payments.ApplyKeepsCanonical | backend/src/drc_pay_api/application/outcomes.py:35-49 | Any outcome, expected, late or repeated, keeps a payment canonical. |
| Payments.GuardedFaults | backend/src/drc_pay_api/application/outcomes.py:39-49 | Through the guard no handler attempts an illegal transition or misses an operator; it raises if and only if a settlement succeeds under a fee below cost. |
| Payments.SettlementRaisesIff | backend/src/drc_pay_api/domains/transactions/orchestrator.py:194-210 | A payment `start_transaction` accepts, collected and paid out, ends paid; its settlement raises, unbooked, if and only if its fee is below the two leg costs. |
| Payments.FreePaymentFailsToSettle | backend/src/drc_pay_api/domains/transactions/orchestrator.py:87-92 | One such payment: ten dollars without a fee is accepted, collected, marked paid and never settled. |
| Payments.HistorySound | backend/src/drc_pay_api/domains/transactions/state_machine.py:30-60 | A canonical history is a legal path to the current state, repeats no state and has at most seven entries. |
| Payments.CallsDisciplined | backend/src/drc_pay_api/domains/transactions/orchestrator.py:159-231 | No leg is asked twice; each request names the right party, operator and amount (less the fee for a payout, whole for a refund, which cites the stored deposit). |
| Payments.ActsInOrder | backend/src/drc_pay_api/domains/transactions/orchestrator.py:142-252 | In the record of everything done about a payment, a request comes after the move to the state that awaits it, the payout's request after the collection was booked, the refund's after the payout failed, and a posting after the move that calls for it. |
| Payments.NeverBothCredited | backend/src/drc_pay_api/domains/transactions/orchestrator.py:202-251 | No payment both credits the merchant and refunds the customer. |
| Payments.LockStepAt | backend/src/drc_pay_api/domains/transactions/orchestrator.py:133-252 | Each of the five balances of a well-kept payment is a function of its state, amount, fee and operators. |
| Payments.LockStep | backend/src/drc_pay_api/domains/transactions/orchestrator.py:194-210 | For a canonical payment under any fee: the books follow the state, for every account, if and only if it is not a success settled below cost. |
| Payments.BooksBalance | backend/src/drc_pay_api/domains/ledger/ledger.py:47-60 | Every posting of a well-kept payment passes the balance check and belongs to that payment. |
| Payments.ConfirmKeepsCanonical | backend/src/drc_pay_api/domains/transactions/on_net.py:95-120 | The guarded word of the merchant, either word, keeps an on-net payment in its own canonical form. |
| Payments.ConfirmEnds | backend/src/drc_pay_api/domains/transactions/on_net.py:95-120 | The owner's word on a payment that awaits it: received, it ends paid with one posting, customer to merchant, of the whole amount; not received, it ends failed with none. Any other word changes nothing. |
| Payments.ConfirmOnce | backend/src/drc_pay_api/http/merchant_api.py:184-192 | A second word, whoever gives it and whatever it says, changes nothing. |
| Payments.UnguardedConfirmBreaksBooks | backend/src/drc_pay_api/domains/transactions/on_net.py:105-120 | Without the endpoint's guard the handler posts first: on an on-net payment the five balances still follow the state, and its form is kept, if and only if it was still awaiting the word. |
| Payments.OutcomeLowersRank | backend/src/drc_pay_api/application/outcomes.py:39-49 | Every applied outcome strictly lowers the state's rank. |
| Payments.OutcomeLands | backend/src/drc_pay_api/domains/transactions/orchestrator.py:133-252 | An awaited leg's outcome lands in the state that the leg, the outcome and the rail's next answers determine, and puts that leg's mark on the history: its success or its failure, and never the other. |
| Payments.TruthfulOutcomeKeepsEnd | backend/src/drc_pay_api/application/outcomes.py:39-49 | Applying a true outcome, in any order and any number of times, does not change where the payment will end. |
| Payments.CompleteIsVerdict | backend/src/drc_pay_api/domains/transactions/orchestrator.py:74-252 | The end state of a new payment, as a table of what the rail answers and what comes true on each leg. |
| Payments.PlayOutIsComplete | backend/src/drc_pay_api/application/payments.py:58-70 | On a rail that accepts everything, a scenario drives a payment to exactly the end its truths determine, and raises nothing: paid for `success`, declined for `collection_fail`, under review for `refund_fail`, refunded for any other. |
| Payments.HandlersKeepTerms | backend/src/drc_pay_api/domains/transactions/models.py:24-47 | No handler changes the parties, amount, fee, key, operators or provenance. |
| Payments.HandlersAreProper | backend/src/drc_pay_api/domains/transactions/orchestrator.py:133-275 | Every handler, on any transaction in any state: it changes the state, the history and the later ids and nothing else; all it does is about that transaction; it asks for no collection; and the record it leaves holds exactly its moves, its postings and its requests. |
| Payments.HandlersAsAnswered | backend/src/drc_pay_api/domains/transactions/orchestrator.py:255-267 | Every id a handler stores is the one the rail just issued for that leg. |
| Payments.HandlersBookBalanced | backend/src/drc_pay_api/domains/transactions/orchestrator.py:133-252 | Whatever state a transaction is in, guarded or not, a handler books only postings that pass the balance check. |
| Transactions.Transaction.constructor | backend/src/drc_pay_api/domains/transactions/models.py:24-47 | The record holds what it was given. |
| Status.ParseCallback | backend/src/drc_pay_api/integrations/pawapay/callbacks.py:30-40 | An event is returned exactly when some id field names an operation and the status spells COMPLETED, FAILED or REJECTED in whatever case, a success exactly for the first; it is about the first leg, in the order deposit, payout, refund, whose own field names one, and carries that id. |
| Status.StatusReads | backend/src/drc_pay_api/integrations/pawapay/status.py:35-50 | A status is a success if and only if it spells COMPLETED, letter by letter in either case, a failure if and only if it spells FAILED or REJECTED, and pending otherwise or if there is none. A dotless i stands for an I, as it does when upper-cased. |
| Worlds.FirstWithKey | backend/src/drc_pay_api/adapters/memory.py:149-153 | Finds a holder of the key if there is one, and none only if there is none. |
| Worlds.FirstWithOpId | backend/src/drc_pay_api/adapters/memory.py:155-159 | Finds a transaction carrying the operation id if there is one, and none only if there is none. |
| Worlds.FirstCarrierIsFound | backend/src/drc_pay_api/adapters/memory.py:155-159 | Of several that carry it on any leg, the one found is the first in insertion order. |
| Worlds.CommitProjects | backend/src/drc_pay_api/adapters/memory.py:126-174 | An effect is absorbed by its own payment and invisible to every other. |
| Worlds.RoutedStart | backend/src/drc_pay_api/application/payments.py:132-147 | Starting a routed payment with the production fee, played out or not, leaves it canonical and raises nothing. |
| Worlds.StartedAsOrdered | backend/src/drc_pay_api/application/payments.py:112-147 | A payment that a start creates carries the order's parties, amount, key and operators; it is on-net without a fee if and only if payer and merchant share a facilitated network, and routed at the production fee otherwise. |
| Worlds.StartKeepsInv | backend/src/drc_pay_api/application/payments.py:103-155 | Starting a payment keeps the invariant, leaves every existing payment as it was, adds at most the new id, and can raise only for a non-positive amount. |
| Worlds.ConfirmKeepsInv | backend/src/drc_pay_api/http/merchant_api.py:180-192 | A confirmation keeps the invariant and touches at most the payment it names. |
| Worlds.CallbackKeepsInv | backend/src/drc_pay_api/application/webhooks.py:60-76 | So does any callback, matched or not, final or not. |
| Worlds.PolledKeepsInv | backend/src/drc_pay_api/jobs/reconciliation/sweep.py:123-148 | So does any polled status. |
| Worlds.StepKeepsInv | backend/src/drc_pay_api/domains/transactions/orchestrator.py:74-275 | Every event from any source, in any order, with any answer of the rail, keeps the whole-system invariant. |
| Worlds.StepOn | backend/src/drc_pay_api/application/webhooks.py:60-76 | What one event does to one payment, in any well-formed world, whatever state other payments are in: an outcome through the guard, a confirmation, or nothing. |
| Worlds.StepKeepsHealth | backend/src/drc_pay_api/domains/transactions/orchestrator.py:74-275 | No event makes a well-kept payment anything else, whatever state the rest of the world is in. |
| Worlds.StepKeepsTerms | backend/src/drc_pay_api/domains/transactions/models.py:24-47 | What was agreed about a payment (parties, their numbers and operators, amount, fee, key, provenance) is never changed by any event. |
| Worlds.TerminalIsFinal | backend/src/drc_pay_api/domains/transactions/state_machine.py:30-60 | A payment in a terminal state is left alone by every event. |
| Worlds.CarrierIsRouted | backend/src/drc_pay_api/adapters/memory.py:155-159 | Only routed payments ever carry an operation id. |
| Conservation.BooksFollowState | backend/src/drc_pay_api/domains/transactions/orchestrator.py:74-252 | In every run, every account balance of every payment is what its state says. |
| Conservation.HistoriesSound | backend/src/drc_pay_api/domains/transactions/state_machine.py:30-60 | In every run, every history is a legal path to the current state, without repeats, at most seven long. |
| Conservation.RailCallsDisciplined | backend/src/drc_pay_api/domains/transactions/orchestrator.py:115-231 | For every payment in every run: each leg asked at most once and rightly addressed, every request after the move it goes with, the payout's after the booked collection and the refund's after the failed payout, every posting after its move, and never both a merchant credit and a customer credit. |
| Conservation.TotalsFollowStates | backend/src/drc_pay_api/domains/ledger/ledger.py:47-60 | In every run, every account total over the whole store is the sum of the per-payment state functions. |
| Conservation.MoneyConserved | backend/src/drc_pay_api/domains/ledger/ledger.py:47-60 | In every run the five accounts sum to zero in each currency. |
| Conservation.ClearingExplained | backend/src/drc_pay_api/domains/transactions/orchestrator.py:142-156 | In every run, total clearing is what in-flight and manual-review payments hold, less the collection costs sunk in refunded ones. |
| Conservation.NoRevenue | backend/src/drc_pay_api/domains/transactions/orchestrator.py:200-209 | With the pass-through fee the revenue account is zero in every run. |
| Confluence.OnNetIsolated | backend/src/drc_pay_api/jobs/reconciliation/sweep.py:109-112 | No callback, poll or other payment ever changes an on-net payment; only a word about itself does. |
| Confluence.OnNetBooks | backend/src/drc_pay_api/domains/transactions/on_net.py:105-120 | In every run an on-net payment has one posting, customer to merchant, whole, if and only if it is paid, none otherwise; it has no operation id and no rail call. |
| Confluence.OnNetPaidIffReceived | backend/src/drc_pay_api/http/merchant_api.py:173-192 | In every run an on-net payment is paid if and only if the first word its own merchant gave about it was that the money came, failed if and only if it was that it did not, and waits as long as there is none, whatever anybody else says. |
| Confluence.AppliedOutcomeNeverRaises | backend/src/drc_pay_api/domains/transactions/orchestrator.py:269-275 | In every run, an outcome let through by the guard is handled without an exception. |
| Confluence.MoveLowersRank | backend/src/drc_pay_api/application/outcomes.py:39-49 | Any event that changes a routed payment at all lowers its rank. |
| Confluence.AtMostThreeMoves | backend/src/drc_pay_api/application/outcomes.py:39-49 | No run changes a routed payment more often than its rank, and that is at most three. |
| Confluence.StepKeepsFollows | backend/src/drc_pay_api/domains/transactions/orchestrator.py:255-267 | Every event handled under a fixed rail, starts on it or on the simulator included, leaves each stored id the one that rail issued for that very leg of that transaction. |
| Confluence.ReachedFollows | backend/src/drc_pay_api/domains/transactions/orchestrator.py:255-267 | So in every run under it from nothing: the premise of the theorems below is always met. |
| Confluence.PushPollConfluence | backend/src/drc_pay_api/application/outcomes.py:35-49 | Any two mixes of truthful callbacks and polls, duplicated, reordered, stale or non-final, that leave no leg pending agree on every row, every payment's postings and calls, and every account total. |
| Confluence.QuietIsComplete | backend/src/drc_pay_api/application/outcomes.py:35-49 | Reports that leave nothing pending have brought each payment to the end its truths determine. |
| Sweeps.FindPending | backend/src/drc_pay_api/adapters/memory.py:161-163 | The worklist is exactly the pending transactions. |
| Sweeps.WorklistKeepsOrder | backend/src/drc_pay_api/adapters/memory.py:161-163 | In insertion order: earlier transactions come earlier on it. |
| Sweeps.SweepCompletes | backend/src/drc_pay_api/jobs/reconciliation/sweep.py:94-148 | In every run a sweep ends without an exception, each pending transaction polled once and reported by its own line. |
| Sweeps.SweepIsRun | backend/src/drc_pay_api/jobs/reconciliation/sweep.py:94-120 | A sweep is a run of polls, so whatever holds of every run holds of sweeps among callbacks. |
| Sweeps.AwaitedIdStored | backend/src/drc_pay_api/domains/transactions/orchestrator.py:255-267 | On a rail that issues ids, every pending routed payment carries the id of the leg it awaits. |
| Sweeps.StepKeepsIdsIssued | backend/src/drc_pay_api/domains/transactions/orchestrator.py:115-131 | On such a rail no event, a start on the simulator included, ever leaves an accepted request without an id. |
| Sweeps.SweepLowersRank | backend/src/drc_pay_api/jobs/reconciliation/sweep.py:105-119 | One sweep takes a payment at least one rank down if the poller has a final word about the one operation that payment awaits; nothing is asked of it about any other. |
| Sweeps.ThreeSweepsSettle | backend/src/drc_pay_api/jobs/reconciliation/sweep.py:94-148 | Three sweeps or more, with any events at all between them, settle a routed payment, on a rail that issues ids, if at each sweep the provider has finished the operation that payment then awaits. |
| Healing.TruthfulIffOwner | backend/src/drc_pay_api/integrations/pawapay/rail.py:33-37 | With operation ids told apart, a callback is truthful exactly when it tells its own leg's outcome. |
| Healing.SweepIsDeliveries | backend/src/drc_pay_api/jobs/reconciliation/sweep.py:94-120 | A sweep with an honest poller is a sequence of truthful reports. |
| Healing.SweepsReachWhatCallbacksReach | backend/src/drc_pay_api/jobs/reconciliation/sweep.py:94-148 | Three sweeps, with true callbacks between them or none at all, end in the same rows, postings, calls and totals as any complete set of callbacks and polls. |
| Healing.DoneIsKnown | backend/src/drc_pay_api/jobs/reconciliation/sweep.py:105-119 | A poller with a final word for every id the rail has in it, and no other, knows at each sweep what every payment awaits, whatever runs in between. |
| Healing.RefundsCiteADeposit | backend/src/drc_pay_api/integrations/pawapay/rail.py:80-90 | On a rail that issues ids, every refund ever asked for cites a deposit id, so it is never refused for lack of one. |
| Simulators.SimulatorQualifies | backend/src/drc_pay_api/integrations/pawapay/simulator.py:32-64 | The simulator gives what those theorems ask of a rail and of its poller: an id for every leg, never the same twice; polled, it never misreports, and in every world it has a final word about the operation each payment awaits. |
| Simulators.SimulatorNeverFails | backend/src/drc_pay_api/integrations/pawapay/simulator.py:50-64 | A poll of the simulator reads as success for an id it issued, as unreadable for any other, and never as a failure. |
| Simulators.SimSweepIsSweep | backend/src/drc_pay_api/container.py:207-214 | A sweep polled from the simulator while the sweep itself makes requests of it is a sweep polled from what it had been asked before. |
| Simulators.SimulatorHeals | backend/src/drc_pay_api/container.py:207-214 | After any run on the simulator, whatever was held back, lost, repeated or misreported, three sweeps polled from it leave no routed payment pending: one waiting for its collection or payout is paid, one waiting for its refund refunded, and no other payment is touched. |
| Simulators.SimulatedPaymentRail.RequestCollection | backend/src/drc_pay_api/integrations/pawapay/simulator.py:32-36 | Records the request, accepts it under the leg's id, and its statuses are again exactly those of all it was asked. |
| Simulators.SimulatedPaymentRail.RequestPayout | backend/src/drc_pay_api/integrations/pawapay/simulator.py:38-42 | The same for a payout. |
| Simulators.SimulatedPaymentRail.RequestRefund | backend/src/drc_pay_api/integrations/pawapay/simulator.py:44-48 | The same for a refund. |
| Simulators.SimulatedPaymentRail.GetStatus | backend/src/drc_pay_api/integrations/pawapay/simulator.py:56-64 | A poll of any leg reads as success for an operation that was asked for, as unreadable otherwise. |
| Summaries.ResolvedCountsChanges | backend/src/drc_pay_api/jobs/reconciliation/sweep.py:65-75 | The summary's `resolved` is the number of payments the sweep changed, over the whole store, when nothing comes between its steps. |
| Summaries.ResolvedCountsOwnChanges | backend/src/drc_pay_api/jobs/reconciliation/sweep.py:65-75 | With any callbacks, confirmations and new payments before each look and between each look and its applying the answer, a sweep is part of a run, never raises, and its `resolved` counts exactly the payments its own polls changed. |
| Summaries.VisitAmid | backend/src/drc_pay_api/jobs/reconciliation/sweep.py:123-148 | A line reads resolved if and only if that poll changed its payment; it reads already applied only when somebody else had changed it since the sweep looked, and then the poll does nothing. |
| Summaries.SweepSeen | backend/src/drc_pay_api/jobs/reconciliation/sweep.py:105-119 | A sweep does to each payment of its worklist exactly its own poll, and nothing to any other. |
| Summaries.ResolvedMeansMoved | backend/src/drc_pay_api/jobs/reconciliation/sweep.py:146-148 | One line reads resolved if and only if its payment moved. |
| Reports.CallbackLands | backend/src/drc_pay_api/application/webhooks.py:60-76 | A callback that spells a final word about an operation some payment carries: if the payment awaits that leg, COMPLETED takes it where the leg's success leads, FAILED and REJECTED where its failure does, and it is answered as applied; if not, nothing happens and the answer tells the state found. |
| Reports.CallbackIgnored | backend/src/drc_pay_api/integrations/pawapay/callbacks.py:33-41 | One that spells no final word, or holds no operation id, is answered as not terminal and leaves the world as it was. |
| Reports.CallbackUnmatched | backend/src/drc_pay_api/application/webhooks.py:64-66 | One about an operation nobody carries is answered as unmatched and leaves it so too. |
| Reports.PollLands | backend/src/drc_pay_api/jobs/reconciliation/sweep.py:123-148 | A polled status, told from its text: unreadable, not final, about a leg no longer awaited, a success or a failure; the line's word for it, the state the payment ends in, and that nothing else is changed. |
| Reports.LineTellsOutcome | backend/src/drc_pay_api/jobs/reconciliation/sweep.py:105-148 | A line reads resolved as a success if and only if its poll put the awaited leg's success on the payment's history, as a failure if and only if it put the failure there; skipped, poll error and unresolved each exactly when, and every line but those two means that nothing happened. |
| Memory.TransactionStore.Save | backend/src/drc_pay_api/adapters/memory.py:133-144 | Refuses, untouched, a second transaction under a held key; otherwise stores the row and keeps the order; re-saving a stored object always succeeds. |
| Memory.TransactionStore.FindByIdempotencyKey | backend/src/drc_pay_api/adapters/memory.py:149-153 | The loop returns the first holder in insertion order, or none. |
| Memory.TransactionStore.FindByOpId | backend/src/drc_pay_api/adapters/memory.py:155-159 | The loop returns the first carrier in insertion order, or none. |
| Memory.TransactionStore.SelectPending | backend/src/drc_pay_api/adapters/memory.py:161-163 | The loop returns the stored objects of exactly the pending ids, in insertion order. |
| Memory.WorldIsIndexed | backend/src/drc_pay_api/adapters/memory.py:126-144 | A valid store always denotes a well-indexed world, so asking for one asks nothing more. |
| Orchestrators.Orchestrator.Transition | backend/src/drc_pay_api/domains/transactions/orchestrator.py:269-275 | Moves the object and its row, or raises and changes nothing; the world afterwards is the committed effect. |
| Orchestrators.Orchestrator.StoreOpId | backend/src/drc_pay_api/domains/transactions/orchestrator.py:255-267 | Stores the leg's id if one was issued, and nothing else. |
| Orchestrators.Orchestrator.BeginPayout | backend/src/drc_pay_api/domains/transactions/orchestrator.py:159-179 | Leaves the world the payout effect describes: the transition, the request, and on rejection the failed payout and the refund's opening. |
| Orchestrators.Orchestrator.BeginRefund | backend/src/drc_pay_api/domains/transactions/orchestrator.py:214-231 | Leaves the world the refund effect describes, manual review on rejection. |
| Orchestrators.Orchestrator.OnCollectionResult | backend/src/drc_pay_api/domains/transactions/orchestrator.py:134-157 | The mutating handler ends in the committed effect of the collection result, with the same exception if any; the effect's record has the collection booked before the payout is asked. |
| Orchestrators.Orchestrator.OnPayoutResult | backend/src/drc_pay_api/domains/transactions/orchestrator.py:182-211 | The same for the payout result. |
| Orchestrators.Orchestrator.OnRefundResult | backend/src/drc_pay_api/domains/transactions/orchestrator.py:233-252 | The same for the refund result. |
| Orchestrators.Orchestrator.FirstSave | backend/src/drc_pay_api/domains/transactions/orchestrator.py:111 | The save that creates a row is refused under a held key, with nothing changed. |
| Orchestrators.Orchestrator.StartTransaction | backend/src/drc_pay_api/domains/transactions/orchestrator.py:74-131 | The four refusals in the original's order, each leaving the world as it was; otherwise one new payment, saved before the rail is asked. |
| Orchestrators.OnNetOrchestrator.Start | backend/src/drc_pay_api/domains/transactions/on_net.py:54-92 | Refuses a non-positive amount or a held key; otherwise one new payment awaiting its word, no fee, nothing asked of the rail. |
| Orchestrators.OnNetOrchestrator.OnConfirmation | backend/src/drc_pay_api/domains/transactions/on_net.py:95-123 | The mutating handler ends in the committed effect of the merchant's word; on a payment that awaits it, paid with its one posting made if received, failed with none if not. |
| Services.ApplyLegOutcome | backend/src/drc_pay_api/application/outcomes.py:26-49 | Over the objects: applied through the guard or reported as already resolved with the state found. |
| Services.ProcessCallback | backend/src/drc_pay_api/application/webhooks.py:60-76 | Over the objects: a callback is one step of the system, and its answer is that of the parsed event; a status that spells no final word leaves everything as it was. |
| Services.CallbackAnswer | backend/src/drc_pay_api/application/webhooks.py:60-76 | Which of the three answers a callback gets, each exactly when. |
| Services.ResolveStatus | backend/src/drc_pay_api/jobs/reconciliation/sweep.py:123-148 | A polled status becomes its disposition; a text that spells no final word is still pending and changes nothing; a final one is applied exactly when the transaction still awaits that leg, resolved as a success exactly if it spells COMPLETED, and is otherwise reported as already applied. |
| Services.ReconcileOne | backend/src/drc_pay_api/jobs/reconciliation/sweep.py:105-119 | One iteration of the sweep over the objects: the world, the line and the exception of polling the transaction as it was read. |
| Services.ReconcilePending | backend/src/drc_pay_api/jobs/reconciliation/sweep.py:94-120 | The sweep's loop over mutable objects, on any store, ends in the world and the summary the loop function gives, or in the exception of the handler that cut it short. |
| Services.RunReconciliation | backend/src/drc_pay_api/jobs/reconciliation/sweep.py:151-163 | Without a poller nothing happens and the summary is empty; with one it is a sweep. |
| Services.ResolveProvider | backend/src/drc_pay_api/application/payments.py:47-55 | An operator explicitly chosen is the one, whatever is predicted; without one, the one predicted; without either, the demo operator. Never empty. |
| Services.StartedPays | backend/src/drc_pay_api/application/payments.py:117-147 | What a start creates: from the payer's number to the merchant's own settlement number, on-net and free if and only if both are on the same facilitated network, otherwise routed at the pair's fee; its one collection asked of the payer's number on the payer's operator, any payout of the merchant's on the merchant's. |
| Services.PlayOutScenario | backend/src/drc_pay_api/application/payments.py:58-70 | The simulated callbacks drive the same handlers, to the world the scenario describes. |
| Services.StartMerchantPayment | backend/src/drc_pay_api/application/payments.py:73-155 | Over the objects: pre-check, on-net or routed creation, recovery of the winner of a race; the world and the answer are those of the start function. |
| Services.CreateOrFind | backend/src/drc_pay_api/application/payments.py:112-155 | Everything after the pre-check, with the duplicate-key recovery. |
| Services.ConfirmOnNetPayment | backend/src/drc_pay_api/http/merchant_api.py:173-196 | Ownership, provenance, state: four replies, each exactly when its guard says. Only the last changes anything: received, the payment is paid and its one posting made; not received, it has failed and none was. |
| IdempotentStart.OneCollectionPerKey | backend/src/drc_pay_api/application/payments.py:103-155 | In every interleaving of any number of starting requests, live or simulated, with each other and with every other event, at most one transaction holds a key and at most one collection is ever asked for under it. |
| IdempotentStart.FinishedReturnsWinner | backend/src/drc_pay_api/application/payments.py:145-155 | In every interleaving a finished request with a key names the one transaction that holds the key. One raises only for a non-positive amount, with no effect, or for a routed payment played out on the simulator, and then the payment under its key is its own. |
| StartOutcomes.StartRaisesIff | backend/src/drc_pay_api/application/payments.py:145-155 | Some schedule of the interleaved system makes a request raise if and only if its key was free at the start and its amount is not positive, or its payment is routed and its outcomes are the simulator's to play out. |
| StartOutcomes.RaisingSchedule | backend/src/drc_pay_api/application/payments.py:145-146 | The schedules that do it: two turns for such an amount; for a simulated payment, five turns that open it, a report on its deposit, and the first outcome played. |
| StartOutcomes.HeldKeyReturns | backend/src/drc_pay_api/application/payments.py:107-110 | Under a key that is held a request never gets past its pre-check, in any interleaving. |
| IdempotentStart.FinishedAgree | backend/src/drc_pay_api/application/payments.py:148-155 | So any two finished requests with the same key that returned name the same transaction. |
| IdempotentStart.OwnStepIsProgress | backend/src/drc_pay_api/application/payments.py:107-155 | Every own step of a request that is not done brings it strictly nearer. |
| IdempotentStart.EightTurnsFinish | backend/src/drc_pay_api/application/payments.py:107-155 | A request given eight turns is done, whatever happens between them. |
| StartOutcomes.SoloIsAtomic | backend/src/drc_pay_api/application/payments.py:107-155 | Alone, the steps are exactly the atomic start that the sequential theorems use. |
| IdempotentStart.EnvStep | backend/src/drc_pay_api/application/outcomes.py:39-49 | No other event of the system ever disturbs a request in the middle of starting: every payment goes on under its own terms without a second collection, and those whose rail answer is not stored yet stay exactly as they are. |
| ConcurrentHealth.PaymentsStayFit | backend/src/drc_pay_api/domains/transactions/orchestrator.py:74-275 | In every interleaving of starting requests with each other and with every other event, at every moment, half started or not, every payment's books follow its state, its history is sound and its requests are disciplined. Of a payment being played out this asks that the scenario be success or refund_fail, or that no failure be reported about it meanwhile. |
| ConcurrentHealth.SimulatorKeepsFit | backend/src/drc_pay_api/integrations/pawapay/simulator.py:50-64 | On the simulator, as long as no callback reports a failure, that promise holds of every payment in every interleaving, whatever its scenario: the simulator's own reports never break it. |
| ConcurrentHealth.UnfitIff | backend/src/drc_pay_api/application/payments.py:58-70 | Whatever is reported, only the payment of a request that makes a routed payment, and for which the simulator plays out a declined collection or a refund that succeeds, can break that promise. And each such payment does under some schedule on the simulator, where polls never fail and only callbacks report failures, provided no other transaction carries its ids. |
| ConcurrentHealth.UnfitOnSimulatorIff | backend/src/drc_pay_api/application/payments.py:58-70 | On a server that has always run on the simulator the condition is exact without a proviso. |
| ConcurrentHealth.UnclaimedOnSimulator | backend/src/drc_pay_api/integrations/pawapay/simulator.py:32-54 | In any run on the simulator no transaction ever carries the ids the simulator gives to another. |
| ConcurrentHealth.BreakingSchedule | backend/src/drc_pay_api/application/payments.py:58-70 | The failing schedules, with callbacks that name the payment's own ids: they take it to manual review, and the unguarded play takes it out again. |
| ConcurrentHealth.RefundOutOfReview | backend/src/drc_pay_api/domains/transactions/orchestrator.py:233-252 | A refund played out over manual review refunds by a path of eight states. |
| ConcurrentHealth.DeclineOutOfReview | backend/src/drc_pay_api/domains/transactions/orchestrator.py:134-141 | A declined collection played out over manual review leaves a declined payment with the collection on its books. |
| ConcurrentTotals.MoneyConservedThroughout | backend/src/drc_pay_api/domains/ledger/ledger.py:47-60 | In every interleaving of starting requests with every other event, whatever is reported and whatever raises, the five accounts sum to zero in each currency at every moment. |
| ConcurrentTotals.StatesExplainTotals | backend/src/drc_pay_api/domains/transactions/orchestrator.py:133-252 | In every interleaving, at every moment, provided that a payment about which a failure is reported while it is played out has a harmless scenario: every account total is the sum of the per-payment state functions, clearing is what payments in flight or under review hold less the sunk refund costs, and revenue is zero. |
| Merchants.GetByShortCode | backend/src/drc_pay_api/adapters/memory.py:27-31 | Finds a merchant with the code if there is one, and none only if there is none. |
| Merchants.FirstTillAnswers | backend/src/drc_pay_api/adapters/memory.py:27-31 | Of several merchants under one code, the first registered answers to it. |
| Merchants.GetById | backend/src/drc_pay_api/adapters/memory.py:24-25 | Finds the merchant with the id if there is one, and none only if there is none. |
| Ussd.ParseAmount | backend/src/drc_pay_api/ussd/session.py:259-269 | What is accepted is positive and within the cap. |
| Ussd.AmountIsAsWritten | backend/src/drc_pay_api/ussd/session.py:259-269 | An entry is the amount n if and only if it writes n, with a point or a comma or neither, between any spaces, and n is from one cent to ten thousand dollars. |
| Ussd.SplitThenJoin | backend/src/drc_pay_api/ussd/session.py:147 | Splitting on the star loses nothing: joined again the pieces are the text, and none holds a star. |
| Ussd.TokensConcat | backend/src/drc_pay_api/ussd/session.py:147 | An entry appended to the accumulated text appends its tokens. |
| Ussd.Interpret | backend/src/drc_pay_api/ussd/session.py:146-208 | The stateless three-loop reading of the whole text is what a session automaton, stepped once per entry, comes to, and what the entries spell. |
| Ussd.ReadsAsSpelt | backend/src/drc_pay_api/ussd/session.py:146-208 | Without the automaton, every reading exactly when: a payment of n to m if and only if the entries are at most two unknown tills, the till of the active m, at most two that are no amount, one that is n, at most two that are neither answer, then 1, then anything; cancelled with 2 for 1; inactive till, too many tries and each prompt likewise. |
| Ussd.ReadTill | backend/src/drc_pay_api/ussd/session.py:156-171 | The till loop, against the automaton. |
| Ussd.ReadAmount | backend/src/drc_pay_api/ussd/session.py:173-186 | The amount loop, against the automaton from there on. |
| Ussd.ReadChoice | backend/src/drc_pay_api/ussd/session.py:188-208 | The confirm loop, against the automaton from there on; a yes if and only if the first answer among the next three entries is 1, a no if and only if it is 2. |
| Ussd.EndIsStable | backend/src/drc_pay_api/ussd/session.py:146-232 | Once ended, always ended, the same way and for the same payment, however many tokens follow. |
| Ussd.EndedTextStaysEnded | backend/src/drc_pay_api/ussd/session.py:146-232 | The same for texts: whatever is appended, the reading stays. |
| Ussd.NineTokensEnd | backend/src/drc_pay_api/ussd/session.py:156-202 | Nine entries always end a session. |
| Ussd.OpenSessionLengths | backend/src/drc_pay_api/ussd/session.py:156-206 | A session of n entries can still be open if and only if n <= 8. |
| Ussd.KeysAreDistinct | backend/src/drc_pay_api/ussd/session.py:244 | Sessions, customers, tills or amounts that differ never share a payment key, as long as numbers and tills hold no colon; the session id may. |
| Ussd.ColonInTillCollides | backend/src/drc_pay_api/ussd/session.py:244 | With a colon in a till they can: two sessions that meet on one key. |
| Ussd.ConfirmedPaymentStarts | backend/src/drc_pay_api/ussd/session.py:234-256 | Uninterrupted, a confirmed payment always starts or is found; the transaction named holds the session's key; one that is found is left alone; one that is made is from the dialling number to the merchant's settlement number, of the amount read, over the operators predicted, but the merchant's own registered one where there is one. |
| Ussd.PredictionIsMoot | backend/src/drc_pay_api/application/payments.py:47-55 | Where the merchant has registered an operator, what is predicted of its number changes nothing that a dial does. |
| Ussd.RepliesAsStored | backend/src/drc_pay_api/ussd/session.py:210-232 | The reply follows the payment stored under the session's key: on its way if routed; if on-net, to be paid on the merchant's operator till, or its settlement number where there is none. A text that confirms nothing changes nothing. |
| Ussd.Handle | backend/src/drc_pay_api/ussd/session.py:146-256 | Over the objects: the reply and the world are those of reading the text, starting or finding the payment, and looking up whether it went on-net. |
| Ussd.SessionPaysOnce | backend/src/drc_pay_api/ussd/session.py:234-256 | One dial at a time: however a session's texts grow, repeat or arrive again, and whatever else happens between dials, every dial that pays is told the same transaction, and at most the first created it. |
| ConcurrentSessions.OverlappingDialsPayOnce | backend/src/drc_pay_api/ussd/session.py:234-256 | With dials that overlap, in every interleaving with each other and with everything else: any two finished ones that confirmed stand for the same stored transaction, even one whose start raised; at most one collection is ever asked for under the session's key; and a payment any of them makes keeps its promises. |
| ConcurrentSessions.ConfirmedDialRaisesIff | backend/src/drc_pay_api/ussd/session.py:234-256 | Some schedule makes a confirmed dial's start raise if and only if nothing was under the session's key, the server is on the simulator and the payment is routed. |
| Limiter.SlidingWindowLimiter.Allow | backend/src/drc_pay_api/http/ussd_routes.py:69-90 | Under a monotone clock the answer is that of a limiter keeping the full log: admitted if and only if fewer than `limit` admitted hits of the key lie in the closed trailing window. The map never exceeds the keys live at the last sweep plus 1024. |
| Limiter.SlidingWindowLimiter.SweepIfDue | backend/src/drc_pay_api/http/ussd_routes.py:80-90 | Every 1024th call keeps exactly the live keys; otherwise nothing is dropped. |
| Limiter.SlidingWindowLimiter.Prune | backend/src/drc_pay_api/http/ussd_routes.py:72-74 | Popping from the front leaves exactly the hits in the window. |
| Limiter.PrunedCounts | backend/src/drc_pay_api/http/ussd_routes.py:73-76 | The length of the pruned deque is the number of logged hits in the window. |
| Limiter.StaleIffDead | backend/src/drc_pay_api/http/ussd_routes.py:88-90 | A deque is stale if and only if the key has no admitted hit in the window. |
| Limiter.SlidingWindowLimiter.CapHolds | backend/src/drc_pay_api/http/ussd_routes.py:55-78 | The same, as the limiter's own state keeps it for every key. |
| Limiter.RateIsCapped | backend/src/drc_pay_api/http/ussd_routes.py:55-78 | No window of that length, wherever it is laid, holds more than `limit` admitted hits of a key. |
| SqlLedgers.Group | backend/src/drc_pay_api/adapters/sql.py:309-317 | The grouping loop yields the posting ids in order of first appearance, and each one's entries in order. |
| SqlLedgers.Rebuild | backend/src/drc_pay_api/adapters/sql.py:309-318 | Rebuilding runs the balance check on each group and fails exactly when one does not balance. |
| SqlLedgers.FirstIdsInOrder | backend/src/drc_pay_api/adapters/sql.py:310-318 | Postings come out sorted by their first row. |
| SqlLedgers.AnyInterleavingRoundTrips | backend/src/drc_pay_api/adapters/sql.py:286-318 | However the rows of different balanced postings are interleaved, a transaction's postings come back: exactly those, each whole and in order, sorted by first row, never tripping the balance check. |
| SqlLedgers.WholePostingsReadBack | backend/src/drc_pay_api/adapters/sql.py:286-318 | Written posting by posting, they read back as the in-memory ledger's filter. |
| SqlLedgers.SqlLedger.Post | backend/src/drc_pay_api/adapters/sql.py:286-300 | Appends one row per entry under one fresh id. |
| SqlLedgers.SqlLedger.SelectForTransaction | backend/src/drc_pay_api/adapters/sql.py:302-318 | Answers as the in-memory ledger would and never raises. |
| Throttle.AttemptsAreBraked | backend/src/drc_pay_api/domains/auth/service.py:136-142 | Between two successes, the failed attempts that get past the lock within any interval of t seconds number at most 5 + floor(t / 60). |
| Throttle.AuthService.BrakeHolds | backend/src/drc_pay_api/domains/auth/service.py:83-142 | The same bound, as the service's own state keeps it for every username. |
| Throttle.BoundIsMet | backend/src/drc_pay_api/domains/auth/service.py:136-142 | For every t some run the throttle allows meets that bound. |
| Throttle.AuthService.Locked | backend/src/drc_pay_api/domains/auth/service.py:136-138 | The counter and the timestamp say exactly what the list of failures says: five or more, the last less than a minute ago. |
| Throttle.LockIsExact | backend/src/drc_pay_api/domains/auth/service.py:136-138 | The lock refuses nothing more than it must: an attempt gets past it exactly when, counted as a failure, it would keep the failures spaced as the brake demands. |
| Throttle.AuthService.RecordFailure | backend/src/drc_pay_api/domains/auth/service.py:140-142 | Records one failure of that username and touches no other. |
| Throttle.AuthService.Login | backend/src/drc_pay_api/domains/auth/service.py:83-115 | A locked attempt changes nothing; a failed one is recorded; a correct password clears the record, whether or not the merchant may have a session. |
| Charges.PayableMeansOpen | backend/src/drc_pay_api/domains/charges/models.py:42-52 | Payable if and only if shown as awaiting payment or declined, except that a link to a payment that is not stored shows as awaiting payment and is refused. |
| Charges.ChargeShowsTheBooks | backend/src/drc_pay_api/domains/charges/models.py:26-46 | Against the ledger, in every run: paid if and only if the merchant holds money of the payment, refunded if and only if some was credited back to the customer, processing if and only if a leg or the merchant's word is awaited, declined if and only if with nothing awaited nothing was booked, in review if and only if with nothing awaited the money went to neither. |
| Charges.Pay | backend/src/drc_pay_api/http/public_routes.py:189-240 | Over the objects: refused unless payable, then the charge's own merchant looked up, the payment started for the charge's own amount without a key, and linked only if started; the world, the link and the reply are those of the uninterrupted request. A linked payment is from the payer's number on the payer's network to the merchant's settlement number on its registered operator. |
| Charges.PayAnswers | backend/src/drc_pay_api/http/public_routes.py:195-240 | Each answer exactly when: refused if linked to a payment that did not decline, no merchant if none has the id, raised if the amount is not positive, linked to the new payment otherwise; every answer but the last leaves the world and the link as they were. |
| Charges.PredictionIsMoot | backend/src/drc_pay_api/application/payments.py:47-55 | Where the merchant has registered an operator, what is predicted of its number changes nothing that a request does: not the operator, not the fee, not whether it is on-net. |
| Charges.UnkeyedStart | backend/src/drc_pay_api/http/public_routes.py:225-237 | A start without a key creates exactly one new payment, of the amount asked, from the payer's number and network to the merchant's own number, its one collection asked of that number on that network; or nothing at all for a non-positive amount. |
| ChargeRuns.CalmRunKeeps | backend/src/drc_pay_api/http/public_routes.py:195-240 | Over every calm run of attempts stepped one by one, the payments a charge has moved on from are declined or were never made, and the linked one is well kept. |
| ChargeRuns.ChargeCollectsOnce | backend/src/drc_pay_api/http/public_routes.py:189-240 | A charge paid one attempt at a time, with nothing touching a payment while its outcomes are played out: all its payments but the current one have no posting, and together they debit the customer nothing, or the charge's amount once. |
| ChargeRuns.CollectedTwiceIff | backend/src/drc_pay_api/http/public_routes.py:225-240 | Some run of attempts debits the customer twice for one charge if and only if its merchant exists and its amount is positive; one that takes the attempts strictly one after another does if and only if, besides, the server plays outcomes out on the simulator. |
| ChargeRuns.OvertakenThenRetried | backend/src/drc_pay_api/http/public_routes.py:225-240 | The failing input, one attempt at a time: a report overtakes the play-out, the start raises, the charge is left unlinked and payable, and the retry collects again. |
| ChargeRuns.RetriedAttempt | backend/src/drc_pay_api/http/public_routes.py:225-240 | On the simulator, from any world and for any payable charge, a first attempt so overtaken and one retry, strictly one after the other, debit the customer twice. |
| ChargeRuns.OverlappingAttempts | backend/src/drc_pay_api/http/public_routes.py:195-240 | Two attempts that overlap both debit the customer. |
| ChargeRuns.AloneIsPayOn | backend/src/drc_pay_api/http/public_routes.py:189-240 | An attempt that nothing interrupts comes, step by step, to the world and the link of the uninterrupted request. |
| Amounts.FromMajorIsNearest | backend/src/drc_pay_api/domains/ledger/money.py:55-63 | Never more than half a minor unit off, ties away from zero, exact when two places suffice, refused exactly past 28 digits. |
| Amounts.UserInputIsExact | backend/src/drc_pay_api/domains/ledger/money.py:66-76 | Every accepted text is read exactly, without rounding; a text is accepted if and only if it is plain and within precision. |
| Amounts.ReadsWhatIsWritten | backend/src/drc_pay_api/domains/ledger/money.py:66-76 | A text is read as n minor units if and only if it writes n within precision: any spaces, digits, perhaps a point or a comma and one or two digits more, any spaces. |
| Amounts.AmountRoundTrip | backend/src/drc_pay_api/domains/ledger/money.py:66-82 | Parsing what was printed gives the amount back, for every non-negative amount within precision. |
| Amounts.FormatSucceedsIff | backend/src/drc_pay_api/integrations/pawapay/providers.py:47-60 | Formatting succeeds if and only if no precision is lost and the result fits. |
| Amounts.ProviderTakesIff | backend/src/drc_pay_api/integrations/pawapay/providers.py:29-60 | Every amount within precision can be sent to every provider, in particular every dollar amount, save a fraction of a franc to the provider that takes whole francs. |
| Amounts.FormatRoundTrip | backend/src/drc_pay_api/integrations/pawapay/providers.py:47-60 | What is sent reads back as the same amount. |

## Left out

- Services.ReconcileOne: one object-level iteration runs without interruption, so its already-applied line needs a transaction that moved on before it; the interrupted sweep is `Summaries.SweepAmid`, on values.
- Services.ProcessCallback: starts after the signature and the JSON checks, which rest on cryptographic and parsing libraries.
- Amounts.AmountRoundTrip: amounts of more than 28 digits are outside it, as the decimal context rounds or refuses them.
- Amounts.FormatSucceedsIff: the two kinds of refusal, lost precision and too many digits, are not told apart.
- Amounts.FormatRoundTrip: leaves out a zero of more than six places, which is printed in exponent form.
- Limiter.SlidingWindowLimiter.Allow: real-number time; rounding of floating-point differences at the edge of the window is not modelled.
- Throttle.AttemptsAreBraked: real-number time, in the same way.
- Ussd.Handle: the object method is one uninterrupted request; dials that overlap are `ConcurrentSessions`, on values.
- Charges.Pay: the object method is one uninterrupted request; racing and overtaken ones are the stepped system of `charge_runs.dfy`, on values.
- Crashes and thread races inside one handler: handlers are atomic, though the code has no transaction around them. The start of a payment, its play-out and the pay request of a charge are not.
- Rail failures other than a rejection (timeouts, HTTP errors) raise out of a handler and are not modelled.
- Exits from manual review by an operator: the transition table lists four. The play-out of a simulated payment can take two of them (`ConcurrentHealth.UnfitIff`); nothing else takes any.
- The provider's own API, the database sessions and every foreign library: replaced by a rail that accepts or rejects and by sequences of rows.
- Provider prediction, UUID generation, the hash that derives an operation id and password hashing: parameters.
- HTTP schemas, authentication, response bodies, the 512-character bound on a USSD text and the validation of numbers at the boundary.
- Narration by the recorder, the wording and the languages of USSD messages: replies are constructors.
- Currencies other than USD and CDF: the original refuses to build an amount in them.
- Upper-casing a provider status beyond the characters that could complete one of the three final words.
- Onboarding, staff accounts, session expiry, seeding, migrations, configuration and the front ends: easy members or plumbing.
