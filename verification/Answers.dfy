/** What each call answers, by the rows as they are before it and by the provider's answer. */
module Answers {
  import opened Domain
  import opened Sums
  import opened Repositories
  import opened Ledger
  import opened Orchestrators
  import opened Workers
  import opened Resolvers
  import opened Lifecycles
  import opened Rows
  import opened Consistency
  import opened Steps
  import opened Guards

  /** Every answer of a refund call. */
  lemma RefundAnswers(db: Db, p: nat, requested: Amount, currency: Currency, customer: nat, clearing: nat, answer: Outcome)
    requires Sound(db)
    ensures var r := ToResult(RefundSpec(db, p, requested, currency, customer, clearing, answer));
            if p >= |db.payments| then r == Err(NotFound)
            else
              var row := db.payments[p];
              var remaining := Posted(db, p, CaptureType) - Posted(db, p, RefundType);
              var i := Find(db.transactions, TxHasKey(TxRefund(p, requested, currency)));
              if row.status != Succeeded && row.status != RefundFailed && row.status != Refunded then r == Err(NotExecutable)
              else if Value(requested) == 0 then r == Err(InvalidAmount)
              else if currency != row.currency then r == Err(IntentMismatch)
              else if i >= 0 && db.transactions[i].status == TxPosted then
                r == Ok(if remaining == 0 then Refunded else Succeeded)
              else if i >= 0 && db.transactions[i].status == TxFailed then r == Ok(RefundFailed)
              else if Value(requested) > remaining then r == Err(ExceedsRefundable)
              else if Value(requested) % 100 != 0 then r == Err(InvalidAmount)
              else r == Ok(match answer case Success => Refunded case Failure => RefundFailed case Unknown => UnknownOutcome)
  {
    hide Sum, Find, TxRows, JournalRows, HoldRows, OpRows, OpenRefund, PostRefund;
    if p < |db.payments| {
      OpenIsDone(db, p, requested, currency);
      if AmountMinor(Value(requested)).Err? {
        OpenRefused(db, p, requested, currency);
      }
      var i := Find(db.transactions, TxHasKey(TxRefund(p, requested, currency)));
      if i >= 0 {
        assert db.transactions[i].status.TxPosted? || db.transactions[i].status.TxFailed? || db.transactions[i].status.TxPending?;
      }
      if currency == db.payments[p].currency && OpenRefund(db, p, requested, currency).Done? && Value(requested) > 0 {
        OpenRefundSound(db, p, requested, currency);
        var open := OpenRefund(db, p, requested, currency);
        PostRefundSound(open.db, p, open.value, requested, currency, customer, clearing,
                        Posted(db, p, CaptureType) - Posted(db, p, RefundType));
        PostAnswers(open.db, p, open.value, requested, currency, customer, clearing,
                    Posted(db, p, CaptureType) - Posted(db, p, RefundType));
      }
    }
  }

  lemma OpenRefused(db: Db, p: nat, requested: Amount, currency: Currency)
    requires Sound(db) && p < |db.payments| && AmountMinor(Value(requested)).Err?
    ensures OpenRefund(db, p, requested, currency) == Raised(InvalidAmount)
  {
    hide Sum, Find, TxRows, JournalRows, HoldRows, OpRows;
    SetStatusSound(db, p, RefundProcessing);
    RegisterSound(SetStatus(db, p, RefundProcessing), p, RefundKey(p, requested, currency));
  }

  lemma PostAnswers(db: Db, p: nat, t: nat, requested: Amount, currency: Currency, customer: nat, clearing: nat,
                    refundable: Money)
    requires p < |db.payments| && t < |db.transactions|
    ensures var a := PostRefund(db, p, t, requested, currency, customer, clearing, refundable);
            a.Done? ==> a.value == Refunded
  {
    hide Sum, Find;
  }

  /** Every answer of a lifecycle capture. */
  lemma CaptureAnswers(db: Db, p: nat, amount: Money, currency: Currency, customer: nat, clearing: nat, answer: Outcome)
    requires Sound(db)
    ensures var r := ToResult(CaptureSpec(db, p, amount, currency, customer, clearing, answer));
            if p >= |db.payments| then r == Err(NotFound)
            else
              var row := db.payments[p];
              var same := amount == row.amount && currency == row.currency;
              if row.status == Succeeded then r == if same then Ok(Succeeded) else Err(IntentMismatch)
              else if row.status != Authorized then r == Err(NotExecutable)
              else if !same then r == Err(IntentMismatch)
              else if amount % 100 != 0 then r == Err(InvalidAmount)
              else r == Ok(match answer case Success => Succeeded case Failure => Failed case Unknown => UnknownOutcome)
  {
    hide Sum, Find, TxRows, JournalRows, HoldRows, OpRows, PostJournal, CreateTransaction;
    if p < |db.payments| {
      RegisterSound(db, p, CaptureKey(p));
      var a := RegisterOperation(db, p, CaptureOp, CaptureKey(p));
      FileAnswers(a.db, p, db.payments[p].amount, currency, customer, clearing);
    }
  }

  lemma FileAnswers(db: Db, p: nat, amount: Money, currency: Currency, customer: nat, clearing: nat)
    requires p < |db.payments| && amount > 0
    ensures FileCapture(db, p, amount, currency, customer, clearing).Done?
    ensures FileCapture(db, p, amount, currency, customer, clearing).value == Succeeded
  {
    hide Sum, Find;
    TransferTotals(customer, clearing, amount, currency);
  }

  /** Every answer of a void. */
  lemma VoidAnswers(db: Db, p: nat, amount: Money, currency: Currency, answer: Outcome)
    requires Sound(db)
    ensures var r := ToResult(VoidSpec(db, p, amount, currency, answer));
            if p >= |db.payments| then r == Err(NotFound)
            else
              var row := db.payments[p];
              var same := amount == row.amount && currency == row.currency;
              if row.status == Voided then r == if same then Ok(Voided) else Err(IntentMismatch)
              else if row.status != Authorized then r == Err(NotExecutable)
              else if !same then r == Err(IntentMismatch)
              else if amount % 100 != 0 then r == Err(InvalidAmount)
              else r == Ok(match answer case Success => Voided case Failure => VoidFailed case Unknown => UnknownOutcome)
  {
    hide Sum, Find, TxRows, JournalRows, HoldRows, OpRows, CreateTransaction;
    if p < |db.payments| {
      SetStatusSound(db, p, VoidRequested);
      RegisterSound(SetStatus(db, p, VoidRequested), p, VoidKey(p));
    }
  }

  /** Every answer of the start of a payment, the refusals in their order. */
  lemma PrepareAnswers(db: Db, p: nat, request: nat, budget: nat, amount: Money, currency: Currency)
    requires amount > 0 && forall r :: 0 <= r < |db.reservations| ==> db.reservations[r].request != request
    ensures ToResult(PrepareSpec(db, p, request, budget, amount, currency))
            == if p >= |db.payments| || request >= |db.requests| || db.payments[p].request != request then Err(BindingInvalid)
               else
                 var rq, status := db.requests[request], db.payments[p].status;
                 if rq.evidence.None? || rq.evidence.value >= |db.evidence| || !db.evidence[rq.evidence.value].verified then
                   Err(EvidenceRequired)
                 else if amount != rq.amount || currency != rq.currency then Err(IntentMismatch)
                 else if status == Succeeded || status == Failed || status == Cancelled || status == Voided || status == Refunded
                 then Err(AlreadyTerminal)
                 else if budget >= |db.budgets| || db.budgets[budget].currency != currency
                         || db.budgets[budget].consumed + db.budgets[budget].reserved + amount > db.budgets[budget].limit
                 then Err(BudgetInsufficient)
                 else Ok(|db.reservations|)
  {
    hide Sum;
  }

  function StatusOf(outcome: Outcome): PaymentStatus {
    match outcome
    case Success => Succeeded
    case Failure => Failed
    case Unknown => UnknownOutcome
  }

  /** Every answer of a worker's last transaction: an open payment takes the outcome, a
      decided one confirms its own outcome and refuses any other. */
  lemma FinishAnswers(db: Db, e: Execution, customer: nat, clearing: nat, outcome: Outcome)
    requires Sound(db) && Faithful(db.requests, e)
    ensures var r := ToResult(FinishSpec(db, e, customer, clearing, outcome));
            var status := db.payments[e.payment].status;
            r == if status == Processing || status == UnknownOutcome || status == StatusOf(outcome) then Ok(StatusOf(outcome))
                 else Err(NotExecutable)
  {
    hide Sum, Find, TxRows, JournalRows, OpRows, HoldRows, SettleFailure, SettleSuccess;
    FaithfulInRange(db, e);
    SettleFailureSound(db, e.payment, e.reservation);
    SettleSuccessSound(db, e.payment, e.reservation, customer, clearing);
    SettleAnswers(db, e, customer, clearing);
  }

  lemma SettleAnswers(db: Db, e: Execution, customer: nat, clearing: nat)
    requires e.payment < |db.payments|
    ensures var failed := SettleFailure(db, e.payment, e.reservation); failed.Done? ==> failed.value == Failed
    ensures var settled := SettleSuccess(db, e.payment, e.reservation, e.amount, e.currency, customer, clearing);
            settled.Done? ==> settled.value == Succeeded
  {
    hide Sum, Find;
  }

  /** Every answer of an event's delivery, in a state that keeps the invariant. */
  lemma ResolveAnswers(db: Db, event: nat, op: nat, outcome: Outcome, customer: nat, clearing: nat)
    requires Sound(db) && AllGood(db)
    ensures var r := ToResult(ResolveSpec(db, event, op, outcome, customer, clearing));
            if event >= |db.events| then r == Err(NotFound)
            else if !db.events[event].signatureValid then r == Err(InvalidSignature)
            else if db.events[event].processed then r == Ok(Duplicate)
            else if op >= |db.operations| then r == Err(NotFound)
            else
              var p := db.operations[op].payment;
              && p < |db.payments|
              && var status := db.payments[p].status;
                 if status != Processing && status != UnknownOutcome && status != PaymentPending then r == Ok(Ignored)
                 else if outcome == Unknown then r == Err(UnsupportedOutcome)
                 else r == Ok(Resolved)
  {
    hide Sum, Find, TxRows, JournalRows, HoldRows, AllGood, EventSuccess, EventFailure;
    ResolvedExactlyWhen(db, event, op, outcome, customer, clearing);
    if op < |db.operations| {
      assert OpRow(|db.payments|, db.operations[op]);
    }
  }
}
