/** Reservation and finalization of a charge: reference/implementation/src/agent_pay/orchestrator.py. */
module Orchestrators {
  import opened Domain
  import opened Connections
  import opened Repositories
  import opened Ledger

  predicate Terminal(status: PaymentStatus) {
    status == Succeeded || status == Failed || status == Cancelled || status == Voided || status == Refunded
  }

  predicate Verified(db: Db, evidence: Option<nat>) {
    evidence.Some? && evidence.value < |db.evidence| && db.evidence[evidence.value].verified
  }

  /** Reserves budget for a bound, verified, unfinished payment and starts it. */
  function PrepareSpec(db: Db, p: nat, request: nat, budget: nat, amount: Money, currency: Currency): Attempt<nat> {
    if p >= |db.payments| || request >= |db.requests| || db.payments[p].request != request then Raised(BindingInvalid)
    else
      var rq := db.requests[request];
      if !Verified(db, rq.evidence) then Raised(EvidenceRequired)
      else if rq.amount != amount || rq.currency != currency then Raised(IntentMismatch)
      else if Terminal(db.payments[p].status) then Raised(AlreadyTerminal)
      else
        var (held, reservation) :- Reserve(db, budget, request, amount);
        if reservation.None? then Raised(BudgetInsufficient)
        else
          var bound := held.(requests := held.requests[request := held.requests[request].(reservation := reservation)]);
          Done(Enqueue(SetStatus(bound, p, Processing), p, PaymentStarted(reservation.value)), reservation.value)
  }

  function MarkCharge(o: Operation, p: nat, status: OpStatus): Operation {
    if o.payment == p && o.kind == ChargeOp then o.(status := status) else o
  }

  function MarkAll(ops: seq<Operation>, p: nat, status: OpStatus): (marked: seq<Operation>)
    ensures |marked| == |ops|
    ensures forall i :: 0 <= i < |ops| ==> marked[i] == MarkCharge(ops[i], p, status)
  {
    seq(|ops|, i requires 0 <= i < |ops| => MarkCharge(ops[i], p, status))
  }

  /** UPDATE provider_operations ... WHERE payment_id AND operation_type='CHARGE'. */
  function SetChargeStatus(db: Db, p: nat, status: OpStatus): Db {
    db.(operations := MarkAll(db.operations, p, status))
  }

  function CaptureRow(p: nat, amount: Money, currency: Currency, key: TxKey): Transaction {
    Transaction(p, CaptureType, TxPosted, amount, currency, key)
  }

  /** INSERT ... ON CONFLICT (idempotency_key) DO UPDATE SET status='POSTED'. */
  function UpsertCapture(db: Db, p: nat, amount: Money, currency: Currency): Db {
    var (created, t) := CreateTransaction(db, CaptureRow(p, amount, currency, TxCapture(p)));
    SetTxStatus(created, t, TxPosted)
  }

  function SettleUnknown(db: Db, p: nat): Db
    requires p < |db.payments|
  {
    Enqueue(SetStatus(SetChargeStatus(db, p, OpUnknown), p, UnknownOutcome), p, PaymentOutcomeUnknown)
  }

  function SettleFailure(db: Db, p: nat, reservation: nat): Attempt<PaymentStatus>
    requires p < |db.payments|
  {
    var (released, _) :- ReleaseHold(SetChargeStatus(db, p, OpFailed), reservation);
    Done(Enqueue(SetStatus(released, p, Failed), p, PaymentFailed), Failed)
  }

  function SettleSuccess(db: Db, p: nat, reservation: nat, amount: Money, currency: Currency,
                         customer: nat, clearing: nat): Attempt<PaymentStatus>
    requires p < |db.payments|
  {
    var (consumed, _) :- ConsumeHold(SetChargeStatus(db, p, OpSucceeded), reservation);
    var captured := UpsertCapture(consumed, p, amount, currency);
    var (posted, _) :- PostJournal(captured, JCapture(p), currency, Transfer(customer, clearing, amount, currency));
    Done(Enqueue(SetStatus(posted, p, Succeeded), p, PaymentSucceeded(amount, currency)), Succeeded)
  }

  /** A charge outcome, applied to a payment that is still open. */
  function FinalizeSpec(db: Db, p: nat, request: nat, reservation: nat, amount: Money, currency: Currency,
                        customer: nat, clearing: nat, outcome: Outcome): Attempt<PaymentStatus>
  {
    if p >= |db.payments| || db.payments[p].request != request then Raised(BindingInvalid)
    else if db.payments[p].amount != amount || db.payments[p].currency != currency then Raised(IntentMismatch)
    else
      var status := db.payments[p].status;
      if status == Succeeded && outcome == Success then Done(db, Succeeded)
      else if status == Failed && outcome == Failure then Done(db, Failed)
      else if status == UnknownOutcome && outcome == Unknown then Done(db, UnknownOutcome)
      else if status != Processing && status != UnknownOutcome then Raised(NotExecutable)
      else
        match outcome
        case Unknown => Done(SettleUnknown(db, p), UnknownOutcome)
        case Failure => SettleFailure(db, p, reservation)
        case Success => SettleSuccess(db, p, reservation, amount, currency, customer, clearing)
  }

  class PaymentOrchestrator {
    const conn: Connection
    const payments: PaymentRepository
    const budgets: BudgetRepository
    const ledger: LedgerRepository

    ghost predicate Valid() {
      payments.conn == conn && budgets.conn == conn && ledger.conn == conn
    }

    constructor (conn: Connection)
      ensures Valid() && this.conn == conn
    {
      this.conn := conn;
      payments := new PaymentRepository(conn);
      budgets := new BudgetRepository(conn);
      ledger := new LedgerRepository(conn);
    }

    /** On an insufficient budget the FAILED status and its event are written and
        then undone by the exception that follows. */
    method Prepare(p: nat, request: nat, budget: nat, amount: Money, currency: Currency) returns (r: Result<nat>)
      requires Valid()
      modifies conn`db
      ensures Agrees(PrepareSpec(old(conn.db), p, request, budget, amount, currency), conn.db, r)
    {
      if p >= |conn.db.payments| || request >= |conn.db.requests| || conn.db.payments[p].request != request {
        return Err(BindingInvalid);
      }
      var bound := conn.db.requests[request];
      if !Verified(conn.db, bound.evidence) {
        return Err(EvidenceRequired);
      }
      if bound.amount != amount || bound.currency != currency {
        return Err(IntentMismatch);
      }
      if Terminal(conn.db.payments[p].status) {
        return Err(AlreadyTerminal);
      }
      var reservation :- budgets.ReserveAmount(budget, request, amount);
      if reservation.None? {
        payments.UpdateStatus(p, Failed);
        payments.EnqueueFact(p, PaymentFailed);
        return Err(BudgetInsufficient);
      }
      conn.db := conn.db.(requests := conn.db.requests[request := conn.db.requests[request].(reservation := reservation)]);
      payments.UpdateStatus(p, Processing);
      payments.EnqueueFact(p, PaymentStarted(reservation.value));
      return Ok(reservation.value);
    }

    method SetCharge(p: nat, status: OpStatus)
      modifies conn`db
      ensures conn.db == SetChargeStatus(old(conn.db), p, status)
    {
      var rows := conn.db.operations;
      var i := 0;
      while i < |rows|
        invariant 0 <= i <= |rows| == |old(conn.db.operations)|
        invariant forall k :: 0 <= k < i ==> rows[k] == MarkCharge(old(conn.db.operations[k]), p, status)
        invariant forall k :: i <= k < |rows| ==> rows[k] == old(conn.db.operations[k])
        invariant conn.db == old(conn.db)
      {
        if rows[i].payment == p && rows[i].kind == ChargeOp {
          rows := rows[i := rows[i].(status := status)];
        }
        i := i + 1;
      }
      assert rows == MarkAll(conn.db.operations, p, status);
      conn.db := conn.db.(operations := rows);
    }

    method Finalize(p: nat, request: nat, reservation: nat, amount: Money, currency: Currency,
                    customer: nat, clearing: nat, outcome: Outcome) returns (r: Result<PaymentStatus>)
      requires Valid()
      modifies conn`db
      ensures Agrees(FinalizeSpec(old(conn.db), p, request, reservation, amount, currency, customer, clearing, outcome),
                     conn.db, r)
    {
      if p >= |conn.db.payments| || conn.db.payments[p].request != request {
        return Err(BindingInvalid);
      }
      var row := conn.db.payments[p];
      if row.amount != amount || row.currency != currency {
        return Err(IntentMismatch);
      }
      if row.status == Succeeded && outcome == Success {
        return Ok(Succeeded);
      }
      if row.status == Failed && outcome == Failure {
        return Ok(Failed);
      }
      if row.status == UnknownOutcome && outcome == Unknown {
        return Ok(UnknownOutcome);
      }
      if row.status != Processing && row.status != UnknownOutcome {
        return Err(NotExecutable);
      }
      if outcome == Unknown {
        SetCharge(p, OpUnknown);
        payments.UpdateStatus(p, UnknownOutcome);
        payments.EnqueueFact(p, PaymentOutcomeUnknown);
        return Ok(UnknownOutcome);
      }
      if outcome == Failure {
        SetCharge(p, OpFailed);
        var _ :- budgets.Release(reservation);
        payments.UpdateStatus(p, Failed);
        payments.EnqueueFact(p, PaymentFailed);
        return Ok(Failed);
      }
      SetCharge(p, OpSucceeded);
      var _ :- budgets.Consume(reservation);
      var t := ledger.InsertTransaction(CaptureRow(p, amount, currency, TxCapture(p)));
      ledger.MarkTransaction(t, TxPosted);
      var _ :- ledger.Post(JCapture(p), currency, Transfer(customer, clearing, amount, currency));
      payments.UpdateStatus(p, Succeeded);
      payments.EnqueueFact(p, PaymentSucceeded(amount, currency));
      return Ok(Succeeded);
    }
  }
}
