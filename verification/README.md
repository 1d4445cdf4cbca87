# Agent payments: the durable execution machine

A Dafny model of the payment system in `reference/implementation/src/agent_pay`, with proofs about
everything its transactions can do in any order.

The database is a value, `Domain.Db`: one sequence per table, a row's index its id. Each source
class is a Dafny class working on a `Connections.Connection`, whose open transaction an exception
rolls back. Each of its methods is proved to do what a specification function says
(`PrepareSpec`, `FinalizeSpec`, `BeginSpec`, `ResolveSpec`, `CaptureSpec`, `RefundSpec`,
`CreateSpec`, ...), and everything else is proved about those functions.

`Machine` puts them together. A step is one committed transaction, or one step of a worker between
its two transactions; a run is any finite sequence of steps. So runs cover every interleaving of
callers, events, repeated workers, and workers that stop for good after any step. What the provider
answers, the clock, and which rows a query meets locked are parameters of the steps.

The proof follows the data. `Rows` and `Consistency`: every row is filed under its own payment and no
key is used twice. `Views` and `Effects`: one payment's share of all tables as a few numbers, and
what each operation does to them. `Moves` and `Steps`: each step, seen from any payment, is one move
of a small machine, which keeps an invariant. `Safety`, `Guards`, `Rail`,
`Exposures`, `Unjournalled`, `Stranded`, `Refunds`, `Budgets`, `Gate`, `Uncommitted`,
`Approvals`, `TrialBalance`, `Announcements`, `Idempotency` and `Keys` draw the conclusions with no
assumption on the provider; `Stable` and `Refinement` add that the provider does not contradict
itself, which `Simulators` proves of the repository's own simulator.

Beside this stand four smaller parts: the policy evaluator (`Policies`), the leased outbox
(`Outboxes`, `OutboxRuns`), the in-memory service and ledger (`Services`, `MemoryLedgers`), and
settlement ingestion (`Settlements`).

What each call writes is stated apart from the functions that write it: `Flows` (journals, in the
accounts the step names), `Answers`, `Outcomes`, `Decisions` and `Terms` give every answer and every
row in terms of the rows found, and from them `Deliveries`, `Decisions`, `Terms` and `Recorded` conclude,
over runs, that events are applied once, decisions are final, payments start on terms that admit
them, and recorded outcomes are reused. `Leases` does the same for the outbox.

## What the proofs found

- **A payment can be captured twice in the books.** The worker files its capture as
  `tx:{id}:capture`, an event as `payment:{id}:capture:transaction`; the journal key is shared, so
  there is one journal but two POSTED captures, and refunds beyond the amount are then admitted. It
  takes no second worker and no contradicting provider: a refund of unknown outcome sets the payment
  back to UNKNOWN_EXTERNAL_OUTCOME, and the charge's own success event, arriving then, is applied.
  `Overcapture.LateEventOvercaptures` is such a run and `Overcapture.LateEventOverrefunds` refunds
  more than the amount after it; `Rail.CapturedWithinAmount` and `Rail.RefundedWithinCharged` say
  exactly when either happens.
- **A SUCCEEDED payment need not have a journal.** For CAPTURE, VOID and REFUND operations an event
  only moves the status (`Rail.EventJournals`), so a payment that started out AUTHORIZED can read
  SUCCEEDED with nothing in the ledger: `Unjournalled.ConfirmedCaptureIsUnjournalled` is a run and
  `Unjournalled.UnbackedExactlyWhen` the exact condition. `Safety.CapturedIsRecorded` is therefore
  about payments with a reservation.
- **More can leave the provider than was charged.** An event confirming a refund moves the operation
  and the payment status only; the refund's transaction stays PENDING and is not counted in what
  remains. `Exposures.ConfirmedRefundOverexposes` is a run, `Exposures.CoveredExactlyWhen` the exact
  condition.
- **A captured payment can read FAILED**, and is then beyond refunding: a failure event for its refund
  is enough. `Stranded.FailedRefundStrands` is a run, `Stranded.StrandedExactlyWhen` the exact
  condition.
- **Retries of failing events are not bounded.** `max_attempts` is looked at by lease recovery only
  (`OutboxRuns.FailuresAreRetriedForever`); an event passes it exactly when a failure is reported on
  its last allowed claim or a later one (`OutboxRuns.BeyondExactlyWhen`). The backoff's cap of 300
  seconds is never reached (`Outboxes.BackoffDoubles`).
- **Two updates never commit**: FAILED in `prepare` on an insufficient budget and EXPIRED in
  `approve_payment` are each followed by an exception in the same transaction. So no approval ever
  reads EXPIRED (`Uncommitted.NothingExpires`), and a late or unfunded approval leaves everything as
  it was (`Uncommitted.ApprovesExactlyWhen`, `Uncommitted.CreateStartsExactlyWhen`).
- The documentation describes the budget reservation as made before approval; the code reserves when
  the approval is given, and the model follows the code.

## Model

| member | source | states |
|---|---|---|
| Refinement.RunRefines | reference/implementation/src/agent_pay/orchestrator.py:70-155 | Every run whose provider answers never contradict each other about one charge is, step for step, a run of the abstract machine over (reservation, budget amounts, capture journal); each hold is captured or released exactly once if it ends decided and never otherwise |
| Refinement.StepRefines | reference/implementation/src/agent_pay/webhook_resolution.py:30-145 | Under a stable provider each transaction, worker step or event is one abstract action (add, hold, take, give) or a stutter, whichever of the three paths makes it |
| Refinement.DecidedOnce | reference/implementation/src/agent_pay/repositories.py:136-152 | In the abstract machine a decision is final: a captured or released hold never changes again |
| Stable.ConsumedMeansCaptured | reference/implementation/src/agent_pay/orchestrator.py:116-155 | Under a stable provider, at every point of every run a reservation is CONSUMED if and only if its payment has its one capture journal, and a RELEASED one has none |
| Stable.ChargeAgrees | reference/implementation/src/agent_pay/worker.py:39-64 | The outcome a worker carries into its last transaction, reused from the operation row or fetched, agrees with the provider's verdict |
| Stable.StepKeepsSteady | reference/implementation/src/agent_pay/webhook_resolution.py:71-137 | Recorded charge outcomes, holds and in-flight workers keep agreeing with the verdict at every step |
| Safety.CapturedIsRecorded | reference/implementation/src/agent_pay/orchestrator.py:84-155 | With no assumption on the provider: a charge payment that reads SUCCEEDED, REFUNDED or REFUND_FAILED has a POSTED capture of its amount and exactly one capture journal, moving exactly its amount |
| Safety.CaptureExcludesVoid | reference/implementation/src/agent_pay/lifecycle.py:88-179 | No reachable state has a POSTED capture and a POSTED void for one payment |
| Safety.AuthorizedIsNeverClaimed | reference/implementation/src/agent_pay/worker_runner.py:17-47 | A payment that is AUTHORIZED at some point never has a reservation afterwards, so no worker ever claims it |
| Safety.AuthorizedIsNotReentered | reference/implementation/src/agent_pay/lifecycle.py:88-250 | No step sets AUTHORIZED on a payment that does not read so |
| Safety.RefundsWithinCaptures | reference/implementation/src/agent_pay/lifecycle.py:181-250 | Over all runs of partial, replayed, failed and retried refunds POSTED refunds sum to at most the POSTED captures, and REFUNDED means the sums are equal |
| Refunds.RefundsAreJournalled | reference/implementation/src/agent_pay/lifecycle.py:211-250 | Every POSTED refund row is filed under a refund key of its payment and amount and has one journal; under each key there are exactly as many journals as POSTED refunds, at most one, and the journal moves exactly the refund's amount out of one account into another; which accounts is `Flows.StepFiles` |
| Refunds.RefundExcess | reference/implementation/src/agent_pay/lifecycle.py:197-242 | A refund call, fresh, replayed or retried after UNKNOWN, leaves journals minus posted refunds unchanged for every key |
| Rail.CapturedWithinAmount | reference/implementation/src/agent_pay/webhook_resolution.py:76-100 | Over a whole run POSTED captures stay within the amount if and only if no step recaptured: a worker holding a success while the event's capture row is there and the payment open, or an unprocessed genuine success event for the charge of an undecided payment while the worker's capture row is there |
| Rail.RecapturesExactlyWhen | reference/implementation/src/agent_pay/webhook_resolution.py:31-60 | Those guards, all of rows that can be looked up before the step, are met exactly when the step settles the charge over the other path's capture |
| Rail.StepOvercaptures | reference/implementation/src/agent_pay/orchestrator.py:127-136 | One step takes the captures past the amount if and only if it recaptures: both rows can be looked up before the step |
| Rail.RefundedWithinCharged | reference/implementation/src/agent_pay/worker.py:57-62 | Over every run POSTED refunds stay within the amount, and the POSTED refunds in minor units within the minor units charged, if and only if no step over-refunded the payment; over-refunding takes a recapture; the truncated charge falls short of the ledger amount by less than one minor unit |
| Exposures.CoveredExactlyWhen | reference/implementation/src/agent_pay/lifecycle.py:201-219 | Over every run POSTED refunds plus PENDING refunds whose operation an event confirmed stay within the amount at every point if and only if no step let out too much: a refund that goes through, or an event confirming a pending one, while what is out already leaves too little |
| Exposures.StepAdds | reference/implementation/src/agent_pay/webhook_resolution.py:61-119 | Every step lets out exactly what those guards, looked up before it, say, and otherwise nothing |
| Exposures.ExposureInMinorUnits | reference/implementation/src/agent_pay/lifecycle.py:19-25 | What is out is whole minor units, within those charged if and only if within the amount, and at least the POSTED refunds |
| Exposures.OverexposingNeedsUnrecorded | reference/implementation/src/agent_pay/lifecycle.py:201-219 | A refund call over-exposes a payment not captured past its amount only because a confirmed refund is still PENDING |
| Exposures.ConfirmedRefundOverexposes | reference/implementation/src/agent_pay/webhook_resolution.py:113-119 | A concrete run: a 5.00 refund answered UNKNOWN is confirmed by an event, a 10.00 refund then goes through, and 15.00 has left the provider for 10.00 charged, with one capture and POSTED refunds within the amount |
| Rail.StepOverrefunds | reference/implementation/src/agent_pay/lifecycle.py:190-219 | One step takes POSTED refunds past the amount if and only if it is a confirmed refund whose guards admit it and that, with the refunds before it, exceeds the amount; that needs captures past the amount |
| Rail.RefundedWithinAmount | reference/implementation/src/agent_pay/lifecycle.py:201-219 | The same over whole runs |
| Rail.OverrefundNeedsRecapture | reference/implementation/src/agent_pay/lifecycle.py:201-219 | A payment that no step recaptured is never over-refunded |
| Guards.PaysBackExactlyWhen | reference/implementation/src/agent_pay/lifecycle.py:181-250 | A refund call posts money back if and only if status, currency, exact cents and remaining amount admit it, no finished refund has its key, and the provider confirms |
| Guards.ResolvedExactlyWhen | reference/implementation/src/agent_pay/webhook_resolution.py:30-60 | A definite outcome is applied, and no exception can prevent it, if and only if the event is genuine and unprocessed and its operation's payment undecided |
| Rail.RefundsAreExact | reference/implementation/src/agent_pay/lifecycle.py:19-25 | POSTED refunds are whole minor units: a hundred times their minor units is their sum |
| Rail.EventJournals | reference/implementation/src/agent_pay/webhook_resolution.py:71-119 | A success event that applies leaves a capture journal if and only if its operation is the CHARGE or the journal was there before |
| Unjournalled.UnbackedExactlyWhen | reference/implementation/src/agent_pay/webhook_resolution.py:71-119 | After any run a payment reads SUCCEEDED without a capture journal if and only if some step applied a success event to an operation other than its charge while there was none; it then has no POSTED capture and no reservation |
| Unjournalled.ConfirmedCaptureIsUnjournalled | reference/implementation/src/agent_pay/webhook_resolution.py:113-119 | A concrete run: an AUTHORIZED payment whose capture is answered UNKNOWN and then confirmed by an event reads SUCCEEDED with no transaction and no journal |
| Stranded.StrandedExactlyWhen | reference/implementation/src/agent_pay/webhook_resolution.py:120-137 | After any run a payment reads FAILED with a capture journal if and only if some step applied a failure to it while it had one, a worker still holding one or a failure event for any operation, and no worker has started on it since |
| Stranded.FailedRefundStrands | reference/implementation/src/agent_pay/webhook_resolution.py:120-137 | A concrete run: a captured payment whose refund is answered UNKNOWN and failed by an event reads FAILED and can no longer be refunded |
| Uncommitted.NothingExpires | reference/implementation/src/agent_pay/api.py:329-334 | After any run no approval reads EXPIRED |
| Uncommitted.ApprovesExactlyWhen | reference/implementation/src/agent_pay/api.py:321-349 | In every reachable state approving what is pending succeeds if and only if it is in time and the bound budget has room; otherwise the call is refused and approval and payment stay as they were |
| Uncommitted.CreateStartsExactlyWhen | reference/implementation/src/agent_pay/orchestrator.py:45-51 | A create call admitted for execution at once starts its payment if and only if the selected budget has room |
| Uncommitted.RefusedCreateLeavesNothing | reference/implementation/src/agent_pay/unit_of_work.py:21-26 | A refused create call leaves no payment, status or event behind |
| Overcapture.LateEventOvercaptures | reference/implementation/src/agent_pay/webhook_resolution.py:84-92 | A concrete run with one worker and a provider that never contradicts itself in which the captures come to twice the amount: a refund of unknown outcome reopens the payment and the charge's late event files a second capture |
| Overcapture.LateEventOverrefunds | reference/implementation/src/agent_pay/lifecycle.py:201-219 | One more refund then gives back more than the amount and more minor units than were charged |
| Budgets.BudgetsConserved | reference/implementation/src/agent_pay/repositories.py:112-152 | In every reachable state each budget's reserved and consumed amounts are the sums of its RESERVED and CONSUMED reservations, neither negative, together within the limit |
| Budgets.HoldsSettleOnce | reference/implementation/src/agent_pay/repositories.py:136-152 | Consuming or releasing a hold a second time, in either order, changes nothing |
| Budgets.ReserveConserves | reference/implementation/src/agent_pay/repositories.py:112-130 | Reserving keeps the stored totals equal to the sums over reservations, within the limit |
| Budgets.HoldConserves | reference/implementation/src/agent_pay/repositories.py:136-152 | So do consuming and releasing |
| Budgets.StepBudgets | reference/implementation/src/agent_pay/repositories.py:112-152 | Every step does at most one reserve, consume or release to the budgets and reservations |
| Gate.NothingPassesUnchecked | reference/implementation/src/agent_pay/api.py:180-301 | In every reachable state a payment with a reservation, or PROCESSING, is bound to verified evidence covering its amount and currency and to a policy that did not deny it, and, where that policy asked for approval, to an approval given before expiry for the same eight fields |
| Gate.PendingMeansAwaiting | reference/implementation/src/agent_pay/api.py:321-349 | A pending approval and a payment that reads APPROVAL_REQUIRED coincide, one to one, in every reachable state |
| Gate.ControlGate | reference/implementation/src/agent_pay/control.py:27-56 | The control part of a create call reserves only under a policy that allows, and waits only under one that does not deny |
| Approvals.StepApprovals | reference/implementation/src/agent_pay/control.py:58-114 | Every step keeps one approval per request, pending exactly while its payment awaits it, with the digest of the request as it stands |
| Approvals.RunKeepsInv | reference/implementation/src/agent_pay/unit_of_work.py:21-26 | The invariant over rows, payments, workers in flight and approvals holds after every run |
| TrialBalance.EveryJournalBalances | reference/implementation/src/agent_pay/ledger.py:54-85 | After every run each stored journal balances in one currency with positive postings |
| TrialBalance.LedgerNetIsZero | reference/implementation/src/agent_pay/ledger.py:54-85 | After every run the net over all ledger accounts is zero in every currency |
| TrialBalance.AccountNetIsCapturesLessRefunds | reference/implementation/src/agent_pay/lifecycle.py:129-136 | Each account's net is its captures less its refunds as customer, and the mirror image as clearing side; an account that only ever is a customer's nets captures minus refunds; the two sides are those each journal names, which `Flows.StepMovesMoney` ties to the step |
| MemoryLedgers.MemoryLedgerBalances | reference/implementation/src/agent_pay/ledger.py:22-51 | After any sequence of in-memory posts every journal, of any number of postings, is valid, ids are not reused and the net over all accounts is zero per currency |
| MemoryLedgers.PostAnswers | reference/implementation/src/agent_pay/ledger.py:45-51 | Every answer of an in-memory post after any others: unbalanced refused, new id stored, a stored journal accepted again, another under its id refused |
| Announcements.OutboxTellsTheTruth | reference/implementation/src/agent_pay/orchestrator.py:45-60 | Committed PaymentStarted events and reservations correspond one to one; a PaymentSucceeded event is only ever committed for a payment with its capture journal, with its amount and currency |
| Announcements.StepTells | reference/implementation/src/agent_pay/outbox.py:37-44 | What each step appends to the outbox: at most one start or success, which is true, and otherwise events claiming neither |
| Idempotency.EachKeyOwnsOne | reference/implementation/src/agent_pay/api.py:225-247 | After any run, races included, each (account, key) owns at most one request, payment and reservation |
| Idempotency.SameKeySamePayment | reference/implementation/src/agent_pay/api.py:158-170 | Once a payment is created, its key answers with that payment for the same body and with a refusal for any other, after any further steps, whether the later call finds the key or loses the race |
| Idempotency.ReuseAnswers | reference/implementation/src/agent_pay/api.py:225-247 | Every answer of a call on a key in use, found or lost in the race: its payment if and only if the body is the recorded one or none was recorded, after the evidence check where the lookup had missed |
| Idempotency.ReuseAddsNothing | reference/implementation/src/agent_pay/api.py:225-247 | Reusing a key adds no request, payment, reservation, approval or event; in the lost race only the evidence row |
| Keys.OpTextIsInjective | reference/implementation/src/agent_pay/repositories.py:74-105 | The strings built for charge, capture, void and refund keys are equal if and only if payment, kind, refund amount text and currency are |
| Keys.TxTextIsInjective | reference/implementation/src/agent_pay/lifecycle.py:120-177 | So for transaction keys, over all three modules that build them |
| Keys.JournalTextIsInjective | reference/implementation/src/agent_pay/lifecycle.py:91-242 | So for journal keys |
| Keys.TextIsInjective | reference/implementation/src/agent_pay/lifecycle.py:184-197 | Two refund amounts have one text if and only if digits and scale are equal: 5.0 and 5.00 are different keys |
| Keys.OperationsAreNeverRebound | reference/implementation/src/agent_pay/repositories.py:74-105 | After any run no two operation rows share a key text, rows keep payment, kind and key at every step, and asking for any key's operation never reaches the conflict branch |
| Runners.RunDecidesAll | reference/implementation/src/agent_pay/worker_runner.py:17-47 | A run of the loop that finds every account leaves every payment it claimed SUCCEEDED, FAILED or UNKNOWN, counts them all, and leaves every other payment's status |
| Runners.RunStopsAtMissing | reference/implementation/src/agent_pay/worker_runner.py:17-47 | A missing account ends the loop with an error: the payments before it stay processed, it and those after it are left |
| Runners.ProcessOneDecides | reference/implementation/src/agent_pay/worker.py:14-79 | An undisturbed worker ends its payment in the status of the recorded outcome or, without one, of the provider's answer, and leaves every other payment's |
| Runners.ProcessOneIsThreeSteps | reference/implementation/src/agent_pay/worker.py:18-79 | process_one is three steps of the machine in a row |
| Simulators.DecisionsStay | reference/implementation/src/agent_pay/simulator.py:36-59 | What the simulator has decided about a charge it never changes |
| Simulators.SimulatorIsStable | reference/implementation/src/agent_pay/simulator.py:36-80 | Whatever is asked of the simulator in whatever order, no answer contradicts its verdict, though charges may be answered UNKNOWN; references are not shared |
| Steps.StepMoves | reference/implementation/src/agent_pay/worker.py:18-79 | Every step of the system, seen from any payment, is one allowed move of a small machine over that payment's status, hold, transactions, operations and journals |
| Steps.StepSound | reference/implementation/src/agent_pay/ledger.py:65-85 | Every step keeps each row filed under its own payment with the right kind, amount and currency, and no key used twice |
| Moves.GoodMoves | reference/implementation/src/agent_pay/orchestrator.py:84-155 | Every allowed move keeps the invariant of a payment, among it: a REFUND operation exists only for a captured payment |
| Moves.MovesGrow | reference/implementation/src/agent_pay/lifecycle.py:88-250 | Captures, refunds, voids and journals never shrink and a hold once made stays |
| Effects.SettleSuccessView | reference/implementation/src/agent_pay/orchestrator.py:116-155 | A successful finalize spends the hold, files one capture of the amount under the worker's key, keeps one journal and marks the charge SUCCEEDED; no other payment changes |
| Effects.SettleFailureView | reference/implementation/src/agent_pay/orchestrator.py:104-115 | A failed finalize releases the hold, marks the charge FAILED and files nothing |
| Effects.SettleUnknownView | reference/implementation/src/agent_pay/orchestrator.py:94-103 | An unknown outcome leaves hold, transactions and journals |
| Effects.EventSuccessView | reference/implementation/src/agent_pay/webhook_resolution.py:71-119 | What a successful event does to its payment, by kind of operation |
| Effects.EventFailureView | reference/implementation/src/agent_pay/webhook_resolution.py:120-137 | A failed event releases the hold of a charge and otherwise only moves the status |
| Effects.CaptureView | reference/implementation/src/agent_pay/lifecycle.py:105-138 | What a lifecycle capture of each outcome does to its payment |
| Effects.VoidView | reference/implementation/src/agent_pay/lifecycle.py:155-179 | What a void of each outcome does to its payment |
| Effects.RefundView | reference/implementation/src/agent_pay/lifecycle.py:190-250 | A refund call answers from the record or is within what remains and adds exactly its amount |
| Admission.CreateView | reference/implementation/src/agent_pay/api.py:142-301 | Creating leaves every older payment alone; a new one starts with no operations, transactions or journals |
| Admission.ApproveView | reference/implementation/src/agent_pay/api.py:341-349 | Approving starts exactly its payment, with a reservation |
| Admission.DenyView | reference/implementation/src/agent_pay/api.py:366-377 | Denying fails exactly its payment |
| Consistency.PrepareSound | reference/implementation/src/agent_pay/orchestrator.py:52-60 | A reservation and its request point at each other |
| Flows.StepMovesMoney | reference/implementation/src/agent_pay/lifecycle.py:129-136 | In every reachable state, what each step does to every account: the first capture of a payment adds its amount to the net of the customer account the step names and takes it from the clearing account it names, a refund that goes through does the opposite with the amount requested, and no other account, currency or step moves money |
| Flows.StepFiles | reference/implementation/src/agent_pay/lifecycle.py:236-242 | The journal of every step, its two postings written out: a capture debits the customer and credits clearing, a refund debits clearing and credits the customer, and no other step books anything |
| Flows.RefundIsUnfiled | reference/implementation/src/agent_pay/lifecycle.py:197-213 | A refund that goes through finds no journal under its key, so its journal is always a new one |
| Answers.RefundAnswers | reference/implementation/src/agent_pay/lifecycle.py:181-250 | Every answer of a refund call, by the payment, the row under its key and the provider: REFUNDED or SUCCEEDED for a posted one by what remains, REFUND_FAILED for a failed one, and each refusal |
| Answers.CaptureAnswers | reference/implementation/src/agent_pay/lifecycle.py:88-138 | Every answer of a lifecycle capture |
| Answers.VoidAnswers | reference/implementation/src/agent_pay/lifecycle.py:140-179 | Every answer of a void |
| Answers.FinishAnswers | reference/implementation/src/agent_pay/orchestrator.py:84-93 | Every answer of a worker's last transaction: an open payment takes its outcome, a decided one confirms its own and refuses any other |
| Answers.ResolveAnswers | reference/implementation/src/agent_pay/webhook_resolution.py:30-60 | Every answer of an event's delivery, with no exception left over in a reachable state |
| Answers.PrepareAnswers | reference/implementation/src/agent_pay/orchestrator.py:23-60 | Every answer of prepare on a request with no hold: the refusals in their order, and the reservation where the budget has room |
| Deliveries.DeliveryUsesUp | reference/implementation/src/agent_pay/webhook_resolution.py:30-145 | Whatever a delivery answers, unless it is refused its event reads processed afterwards and no other event changes; an applied one gives its operation the event's outcome, any other changes no row but the event's |
| Deliveries.EachEventIsAppliedOnce | reference/implementation/src/agent_pay/webhook_resolution.py:9-13 | Over every run an event is applied by at most one delivery, however often it is redelivered and whatever runs in between, and reads processed if and only if one has used it up |
| Deliveries.ProcessedIsForGood | reference/implementation/src/agent_pay/webhook_resolution.py:30-41 | A processed event stays processed, every later delivery of it answers DUPLICATE and changes nothing, and no event's signature verdict changes |
| Decisions.DecisionsAreFinal | reference/implementation/src/agent_pay/control.py:86-94 | In every reachable state an approval reads APPROVED if and only if its request has a reservation; over every further run an approved row stays as it is, a denied one too, and a denied request never gets a reservation |
| Decisions.DenialInFull | reference/implementation/src/agent_pay/api.py:353-378 | All that a denial does: exactly its row reads DENIED from now on, its payment FAILED, one event says so; and every refusal |
| Decisions.ApprovalInFull | reference/implementation/src/agent_pay/api.py:321-349 | All that a given approval does, in every table |
| Decisions.StartInFull | reference/implementation/src/agent_pay/orchestrator.py:45-60 | All that starting a payment does: one hold for the whole amount, its budget's total, the request's reservation, PROCESSING and one event |
| Decisions.CreateApprovals | reference/implementation/src/agent_pay/control.py:58-78 | A create call adds at most one approval: pending, fifteen minutes to go, binding the eight fields as the request has them |
| Terms.PaymentTerms | reference/implementation/src/agent_pay/control.py:27-56 | In every reachable state a payment with a reservation was started on terms that admit it, field by field: verified evidence of its own covering it; a policy version of its account whose limit, currencies, merchant domains and categories admit the payment's own amount and fields; a budget of its account and currency, free for that policy, the one its body named if it named one and the one its hold is on; and above the threshold an approval given in time |
| Terms.CreateInFull | reference/implementation/src/agent_pay/api.py:142-301 | All that a create call on a new key does, in every table: refused for its evidence, turned down by the policy or for want of a budget, held for approval, started with or without a notice, or refused by a short budget |
| Terms.DecisionInFull | reference/implementation/src/agent_pay/control.py:31-40 | The decision on a request in terms of its own amount, currency, merchant and category |
| Terms.ChoiceInFull | reference/implementation/src/agent_pay/control.py:42-53 | A budget is chosen if and only if it is the only one that suits: of the account and currency, active, tied to no other policy, and the named one where one is named |
| Terms.EvidenceInFull | reference/implementation/src/agent_pay/authorization.py:30-60 | Evidence is accepted if and only if its claims vouch, field by field, for this agent, account, amount and currency now |
| Outcomes.FinishInFull | reference/implementation/src/agent_pay/orchestrator.py:84-155 | All that a worker's last transaction does in a reachable state, every table's rows written out by outcome; on a payment that is not open, nothing |
| Outcomes.ResolveInFull | reference/implementation/src/agent_pay/webhook_resolution.py:61-145 | All that an applied event does, every table's rows written out by outcome and kind of operation |
| Outcomes.CaptureInFull | reference/implementation/src/agent_pay/lifecycle.py:88-138 | All that a lifecycle capture does, every table's rows written out by answer |
| Outcomes.VoidInFull | reference/implementation/src/agent_pay/lifecycle.py:140-179 | All that a void does, every table's rows written out by answer |
| Outcomes.RefundInFull | reference/implementation/src/agent_pay/lifecycle.py:181-250 | All that a refund does, every table's rows written out by answer, and that otherwise it does nothing |
| Outcomes.BeginInFull | reference/implementation/src/agent_pay/worker.py:18-37 | All that a worker's first transaction does, and when it is refused |
| Recorded.OutcomeIsRecorded | reference/implementation/src/agent_pay/worker.py:39-64 | In every reachable state the outcome a worker's last transaction acts on, or an event brings for a charge, is the payment's recorded outcome afterwards |
| Recorded.RecordedIsReused | reference/implementation/src/agent_pay/worker.py:39-64 | Once an outcome is recorded there is one after every further run, and a worker that charges then takes it whatever the provider would answer |
| Leases.StepInFull | reference/implementation/src/agent_pay/outbox.py:47-107 | What each step makes of an outbox event, column by column; recovery changes it if and only if its lease began more than the lease's length ago |
| Leases.LiveLeaseIsKept | reference/implementation/src/agent_pay/outbox.py:93-107 | An event claimed at t stays claimed, by that claim, through every run whose recoveries come within their lease of t |
| Leases.FailedEventWaits | reference/implementation/src/agent_pay/outbox.py:78-91 | An event that fails at a time with a delay is PENDING and available from their sum on, and is in no batch through every run whose claims all come before that |
| Leases.ProcessedInFull | reference/implementation/src/agent_pay/outbox_worker.py:34-72 | What one undisturbed call makes of every event: published, or PENDING with 2, 4, 8, ... 256 seconds to wait by its attempts |
| Leases.RecoveredAreCounted | reference/implementation/src/agent_pay/outbox.py:93-107 | Recovery returns the number of rows whose lease began more than its length ago |
| Leases.PublishedAreCounted | reference/implementation/src/agent_pay/outbox_worker.py:34-72 | The consumer returns the number of claimed events it can publish |
| Leases.PublishedHasAccount | reference/implementation/src/agent_pay/outbox_worker.py:52-61 | After any run a published notification has an account to go to |
| Policies.DecideInFull | reference/implementation/src/agent_pay/policy.py:48-118 | The decision, rule by rule in the policy's and the intent's own fields, window and empty texts included |
| Policies.EvaluateWithTrace | reference/implementation/src/agent_pay/policy.py:48-118 | The evaluator's decision, and its reasons exactly the violated constraints |
| Policies.NoViolationMeansAdmitted | reference/implementation/src/agent_pay/policy.py:65-106 | The decision is not DENY if and only if no constraint is violated, that is the limit is positive and every dimension admits the payment |
| Policies.RestrictionIsMonotone | reference/implementation/src/agent_pay/policy.py:48-118 | Narrowing any dimension or raising the amount never moves the decision towards permission |
| Policies.WindowIsCircular | reference/implementation/src/agent_pay/policy.py:174-181 | The time window, midnight wrap included, is the circular interval from start to end |
| Controls.SelectedBudgetIsTheOnlyOne | reference/implementation/src/agent_pay/control.py:42-53 | Without a name a budget is selected if and only if it is the only active one of the account and currency that is tied to no other policy |
| Controls.Validate | reference/implementation/src/agent_pay/authorization.py:30-60 | The claims are accepted if and only if they cover the payment and are still valid |
| Ledger.PostInFull | reference/implementation/src/agent_pay/ledger.py:54-85 | A journal is stored if and only if it is non-empty, of one currency, balanced above zero and of positive postings; a key that has one keeps it |
| Connections.Connection.End | reference/implementation/src/agent_pay/unit_of_work.py:21-26 | Success commits what was written, an exception restores what was saved |
| Repositories.PaymentRepository.PendingForExecution | reference/implementation/src/agent_pay/repositories.py:64-72 | The first unlocked PROCESSING payments with a reservation, in order of creation, up to the limit |
| Repositories.PaymentRepository.CreateProviderOperation | reference/implementation/src/agent_pay/repositories.py:74-105 | One row per key, reused for the same payment and kind, refused otherwise |
| Repositories.BudgetRepository.ReserveAmount | reference/implementation/src/agent_pay/repositories.py:112-134 | A hold for the whole amount where currency and availability allow, nothing otherwise, an exception on a second hold |
| Ledger.LedgerRepository.Post | reference/implementation/src/agent_pay/ledger.py:54-85 | Balanced postings in one currency are stored once per key |
| Ledger.LedgerRepository.InsertTransaction | reference/implementation/src/agent_pay/lifecycle.py:68-86 | Insert unless the key is there |
| Orchestrators.PaymentOrchestrator.Prepare | reference/implementation/src/agent_pay/orchestrator.py:23-60 | Every branch of prepare, including the FAILED update that the following exception undoes |
| Orchestrators.PaymentOrchestrator.SetCharge | reference/implementation/src/agent_pay/orchestrator.py:104-126 | Sets the status of exactly the payment's CHARGE operations |
| Orchestrators.PaymentOrchestrator.Finalize | reference/implementation/src/agent_pay/orchestrator.py:70-155 | Every branch of finalize: replays, refusals, and the rows each outcome writes |
| Workers.Worker.Begin | reference/implementation/src/agent_pay/worker.py:18-37 | The first transaction: registers the charge and sets PROCESSING whatever the status was |
| Workers.Worker.Charge | reference/implementation/src/agent_pay/worker.py:39-64 | A recorded outcome of the latest charge is reused; only without one does the provider decide |
| Workers.Worker.Finish | reference/implementation/src/agent_pay/worker.py:66-79 | The last transaction |
| Workers.Worker.ProcessOne | reference/implementation/src/agent_pay/worker.py:14-79 | The three steps with nothing in between |
| Runners.Runner.RunOnce | reference/implementation/src/agent_pay/worker_runner.py:17-47 | Claims, then processes one payment after another, stopping at a missing account |
| Resolvers.ProviderEventResolver.Resolve | reference/implementation/src/agent_pay/webhook_resolution.py:19-145 | Every branch of resolve, in one transaction |
| Resolvers.ProviderEventResolver.CaptureCharge | reference/implementation/src/agent_pay/webhook_resolution.py:72-112 | A successful charge event: budget, transaction and journal |
| Lifecycles.PaymentLifecycle.Capture | reference/implementation/src/agent_pay/lifecycle.py:88-138 | Every branch of capture |
| Lifecycles.PaymentLifecycle.Void | reference/implementation/src/agent_pay/lifecycle.py:140-179 | Every branch of void |
| Lifecycles.PaymentLifecycle.Refund | reference/implementation/src/agent_pay/lifecycle.py:181-250 | Every branch of refund, with its replay rules |
| Controls.ControlRepository.EvaluatePolicy | reference/implementation/src/agent_pay/control.py:27-40 | Binds the active policy version and decides |
| Controls.ControlRepository.RequestApproval | reference/implementation/src/agent_pay/control.py:58-78 | A pending approval that expires in fifteen minutes and binds the request's eight fields |
| Apis.PaymentApi.CreatePayment | reference/implementation/src/agent_pay/api.py:142-301 | Every branch of the create handler after authentication, in one transaction |
| Apis.PaymentApi.ApprovePayment | reference/implementation/src/agent_pay/api.py:321-349 | Every branch of the approve handler, including the EXPIRED update that the following exception undoes |
| Apis.PaymentApi.DenyPayment | reference/implementation/src/agent_pay/api.py:353-378 | Every branch of the deny handler |
| MemoryLedgers.InMemoryLedger.Validate | reference/implementation/src/agent_pay/ledger.py:27-38 | A journal is accepted if and only if it is non-empty, in one currency, positive and balanced |
| MemoryLedgers.InMemoryLedger.Post | reference/implementation/src/agent_pay/ledger.py:45-51 | A valid journal is stored once per id; another one under the same id is refused |
| OutboxRuns.EffectsHappenOnce | reference/implementation/src/agent_pay/outbox_worker.py:43-65 | Under any number of consumers, crashes, recoveries and late completions each event has at most one audit row and one notification, and a PUBLISHED one exactly the one its type asks for |
| OutboxRuns.FinalIsFinal | reference/implementation/src/agent_pay/outbox.py:69-107 | No event disappears, and PUBLISHED and DEAD_LETTER are final |
| OutboxRuns.StepFrame | reference/implementation/src/agent_pay/outbox.py:69-107 | Publishing, failing and recovering leave a finished event exactly as it is, and no step lowers an event's attempts |
| OutboxRuns.AtMostMaxReturns | reference/implementation/src/agent_pay/outbox.py:93-107 | With a fixed maximum m an event goes from an expired lease back to PENDING at most m - 1 times |
| OutboxRuns.CrashingIsDeadLettered | reference/implementation/src/agent_pay/outbox.py:93-107 | An event whose every claim crashes is dead-lettered after exactly m claims, not before and not without |
| OutboxRuns.AttemptsAreClaims | reference/implementation/src/agent_pay/outbox.py:53-66 | The attempts column counts the event's claims |
| OutboxRuns.BeyondExactlyWhen | reference/implementation/src/agent_pay/outbox.py:78-107 | With a fixed maximum m, over every run in which events fail, crash and are published in any order, an event passes the maximum if and only if a failure was reported on a claim that was already its m-th or later |
| OutboxRuns.FailuresAreRetriedForever | reference/implementation/src/agent_pay/outbox.py:78-91 | For every n a run fails an event n times and leaves it PENDING |
| Outboxes.BatchIsFirst | reference/implementation/src/agent_pay/outbox.py:53-66 | The claimed batch is available, in order of creation, within the limit, and passes no available unlocked event over |
| Outboxes.BackoffDoubles | reference/implementation/src/agent_pay/outbox_worker.py:66-71 | The wait doubles up to the eighth attempt and stays at 256 seconds, so the cap of 300 is never reached |
| Outboxes.BatchClaims | reference/implementation/src/agent_pay/outbox_worker.py:34-72 | Handling the claimed events one after another gives each its own published or returned state and records each due effect once |
| Outboxes.RecordedHolds | reference/implementation/src/agent_pay/audit.py:14-55 | After a batch the effects recorded are those there before and those of the events it published |
| Outboxes.OutboxStore.ClaimBatch | reference/implementation/src/agent_pay/outbox.py:47-66 | Leases the first available unlocked events in order of creation |
| Outboxes.OutboxStore.MarkFailed | reference/implementation/src/agent_pay/outbox.py:78-91 | Returns an event still PROCESSING to PENDING after a delay, and refuses a negative one |
| Outboxes.OutboxStore.RecoverStale | reference/implementation/src/agent_pay/outbox.py:93-107 | Returns or dead-letters exactly the expired leases and counts them |
| Outboxes.OutboxStore.RecordAudit | reference/implementation/src/agent_pay/audit.py:14-35 | One audit row per event, new or found |
| Outboxes.OutboxStore.EnqueueNotification | reference/implementation/src/agent_pay/audit.py:38-55 | One notification per event, new or found |
| Outboxes.OutboxStore.ProcessOnce | reference/implementation/src/agent_pay/outbox_worker.py:34-72 | Every claimed event published with its effects, or returned with its backoff; counts the published |
| Services.FundsConserved | reference/implementation/src/agent_pay/service.py:32-76 | After any sequence of calls budget.consumed is the sum of the remembered successes, budget.reserved the sum of the remembered unknowns, together within the limit, and each provider was called once per key it remembers |
| Services.FailedCallsChangeNothing | reference/implementation/src/agent_pay/service.py:32-53 | A call fails only on a reused key, a missing route or an amount that is not positive, and then changes nothing |
| Services.AnswersStay | reference/implementation/src/agent_pay/service.py:35-41 | An answered key gives the same answer for the same intent and a refusal for any other, after any further calls, and changes nothing |
| Services.ReservedIsSettled | reference/implementation/src/agent_pay/budget.py:19-39 | Releasing what was reserved restores the budget, consuming it takes the amount from what was available, and neither can be refused |
| Services.AnswersAreMemoised | reference/implementation/src/agent_pay/provider.py:35-41 | However often a key is run, with whatever answers for it and others in between, its first answer is repeated and counted once |
| Services.PaymentService.CreatePayment | reference/implementation/src/agent_pay/service.py:26-53 | Every branch of the in-memory create, charging the provider the router chose |
| Services.PaymentService.Execute | reference/implementation/src/agent_pay/service.py:55-76 | Charges, then settles the budget by the outcome |
| Services.NewCallInFull | reference/implementation/src/agent_pay/service.py:43-76 | All that a call with a new key comes to: turned down, awaiting approval, no provider, no positive amount, a short budget, or the charge's outcome with its effect on the budget |
| Settlements.IngestInFull | reference/implementation/src/agent_pay/settlement.py:18-124 | All that a report does: refused for a missing field, a DUPLICATE, or one settlement and one record with expectation, observation and the first difference between them |
| Settlements.OneRecordEach | reference/implementation/src/agent_pay/settlement.py:44-154 | After any sequence of reports each (provider, reference) has one settlement and each settlement exactly one record; RECONCILED if and only if MATCHED; none stays REPORTED |
| Settlements.OneRecordPerReport | specs/v1/migrations/008_reconciliation_multiple_settlements.sql:4-12 | Reports are deduplicated by settlement, never by operation: an operation has exactly as many records as settlements were reported about it |
| Settlements.CorrectionIsRecorded | reference/implementation/src/agent_pay/settlement.py:86-124 | A second report about a matched operation, under its own reference and for another amount, is recorded as a DISCREPANCY beside the MATCHED record |
| Settlements.KnownWhenReported | reference/implementation/src/agent_pay/settlement.py:44-64 | A settlement is there if and only if a well-formed report of it has arrived |
| Settlements.MatchedExactlyWhen | reference/implementation/src/agent_pay/reconciliation.py:5-14 | A report is MATCHED if and only if it is new and the latest operation it refers to has SUCCEEDED for the same amount and currency, whatever was recorded about that operation before |
| Settlements.MatchedWasTrue | reference/implementation/src/agent_pay/settlement.py:66-112 | Every MATCHED record comes from a report whose operation had SUCCEEDED, for equal amount and currency, when it arrived |
| Settlements.ReplayChangesNothing | reference/implementation/src/agent_pay/settlement.py:47-64 | Replaying an accepted report, however much later and even with other contents, is a DUPLICATE that changes nothing |
| Settlements.IngestKeeps | specs/v1/migrations/008_reconciliation_multiple_settlements.sql:9-12 | Each ingestion keeps one record per settlement, telling what both sides said |
| Settlements.SettlementRepository.Ingest | reference/implementation/src/agent_pay/settlement.py:18-124 | Every branch of ingest in one transaction; payments, budgets and journals are outside its frame |
| Simulators.FirstChargeDecides | reference/implementation/src/agent_pay/simulator.py:36-80 | The first charge of a payment settles what the simulator says about it for good: retries are answered as it was, and event and settlement tell its outcome, an unknown one having been a success |

## Left out

- HTTP, headers, bearer tokens, JWT verification, HMAC signatures, environment variables, psycopg connections and SQL isolation levels: each transaction is one atomic step, verified claims and signature results are inputs.
- SHA-256 digests and JSON canonicalisation: a digest is modelled as the fields it covers, so as injective.
- Letter case and surrounding blanks of currencies, domains and categories: texts are taken as already normalised. The refund operation key is built from the caller's currency text before normalisation, so two spellings of one currency make two operation rows for one transaction; the model has one.
- Decimal texts with an exponent or more than four decimals: amounts are coefficient and scale, with at most the four decimals the columns keep.
- `provider_reference`, `provider_operation_id`, `external_reference`, correlation ids, reasons, payloads and timestamps other than expiries and leases: written, never read by the modelled branches.
- Merchant rows: a request carries its merchant's domain and category.
- How the active policy row is chosen and how its rules are parsed (`active_policy`'s query, `from_rules`, `_parse_*`): the version found is an input of the step, accepted only for the right account and policy.
- Which ledger accounts a worker or event uses: any two account numbers; their lookup is an input of `Runners.RunSpec`.
- Nothing in the repository creates an AUTHORIZED payment; `Machine.BirthSpec` stands for that, with no reservation, operation or transaction.
- Event ingestion in webhooks.py beyond deduplication by `processing_status`: `resolve` is given any existing operation and any outcome.
- How the router chooses among providers (router.py): the chosen one is an input of the call.
- rails.py, instruments.py, observability.py, provider_events.py, `InMemoryOutbox`, `reference_for` and `SandboxProvider.plan`: short lookups that would only add easy members.
- Locks of the in-memory budget: its methods are atomic.
- Liveness: nothing says that a worker, an event or a retry ever comes; only counting bounds are proved.
- Outboxes.OutboxStore.ProcessOnce: states the call undisturbed by other consumers; interleavings are the subject of `OutboxRuns`.
- Runners.Runner.RunOnce: states the loop undisturbed by other callers; interleavings are runs of `Machine`.
