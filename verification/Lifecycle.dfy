/** Capture, void and refund: reference/implementation/src/agent_pay/lifecycle.py. The provider is
    called inside the transaction; its answer is a parameter. */
module Lifecycles {
  import opened Domain
  import opened Sums
  import opened Connections
  import opened Repositories
  import opened Ledger

  /** Refunds and captures go to the rail in exact minor units. */
  function AmountMinor(amount: Money): Result<int> {
    if amount <= 0 || amount % 100 != 0 then Err(InvalidAmount) else Ok(amount / 100)
  }

  predicate Matches(row: Payment, amount: Money, currency: Currency) {
    amount > 0 && amount == row.amount && currency == row.currency
  }

  function FileCapture(db: Db, p: nat, amount: Money, currency: Currency, customer: nat, clearing: nat):
    Attempt<PaymentStatus>
    requires p < |db.payments|
  {
    var row := Transaction(p, CaptureType, TxPosted, amount, currency, TxCapture(p));
    var (created, _) := CreateTransaction(db, row);
    var (posted, _) :- PostJournal(created, JCapture(p), currency, Transfer(customer, clearing, amount, currency));
    Done(SetStatus(posted, p, Succeeded), Succeeded)
  }

  function CaptureSpec(db: Db, p: nat, amount: Money, currency: Currency, customer: nat, clearing: nat,
                       answer: Outcome): Attempt<PaymentStatus>
  {
    if p >= |db.payments| then Raised(NotFound)
    else if db.payments[p].status == Succeeded then
      if Matches(db.payments[p], amount, currency) then Done(db, Succeeded) else Raised(IntentMismatch)
    else if db.payments[p].status != Authorized then Raised(NotExecutable)
    else if !Matches(db.payments[p], amount, currency) then Raised(IntentMismatch)
    else
      var (registered, _) :- RegisterOperation(db, p, CaptureOp, CaptureKey(p));
      if AmountMinor(amount).Err? then Raised(InvalidAmount)
      else
        match answer
        case Unknown => Done(SetStatus(registered, p, UnknownOutcome), UnknownOutcome)
        case Failure =>
          var row := Transaction(p, CaptureType, TxFailed, amount, currency, TxCaptureFailed(p));
          Done(CreateTransaction(SetStatus(registered, p, Failed), row).0, Failed)
        case Success => FileCapture(registered, p, amount, currency, customer, clearing)
  }

  function VoidSpec(db: Db, p: nat, amount: Money, currency: Currency, answer: Outcome): Attempt<PaymentStatus> {
    if p >= |db.payments| then Raised(NotFound)
    else if db.payments[p].status == Voided then
      if Matches(db.payments[p], amount, currency) then Done(db, Voided) else Raised(IntentMismatch)
    else if db.payments[p].status != Authorized then Raised(NotExecutable)
    else if !Matches(db.payments[p], amount, currency) then Raised(IntentMismatch)
    else
      var (registered, _) :- RegisterOperation(SetStatus(db, p, VoidRequested), p, VoidOp, VoidKey(p));
      if AmountMinor(amount).Err? then Raised(InvalidAmount)
      else
        match answer
        case Unknown => Done(SetStatus(registered, p, UnknownOutcome), UnknownOutcome)
        case Failure =>
          var row := Transaction(p, VoidType, TxFailed, amount, currency, TxVoidFailed(p));
          Done(CreateTransaction(SetStatus(registered, p, VoidFailed), row).0, VoidFailed)
        case Success =>
          var row := Transaction(p, VoidType, TxPosted, amount, currency, TxVoid(p));
          Done(SetStatus(CreateTransaction(registered, row).0, p, Voided), Voided)
  }

  function PostedOf(p: nat, kind: TxType): Transaction -> int {
    (t: Transaction) => if t.payment == p && t.kind == kind && t.status == TxPosted then t.amount else 0
  }

  /** SELECT COALESCE(SUM(amount),0) ... WHERE payment_id, type AND status='POSTED'. */
  function Posted(db: Db, p: nat, kind: TxType): Money {
    Sum(db.transactions, PostedOf(p, kind))
  }

  predicate Refundable(status: PaymentStatus) {
    status == Succeeded || status == RefundFailed || status == Refunded
  }

  /** A finished refund answers again without acting; a pending one is retried. */
  function ReplayStatus(status: TxStatus, refundable: Money): Option<PaymentStatus> {
    match status
    case TxPosted => Some(if refundable == 0 then Refunded else Succeeded)
    case TxFailed => Some(RefundFailed)
    case TxPending => None
  }

  /** The rows of a refund before the provider answers. */
  function OpenRefund(db: Db, p: nat, requested: Amount, currency: Currency): (begun: Attempt<nat>)
    requires p < |db.payments|
    ensures begun.Done? ==> begun.value < |begun.db.transactions| && |begun.db.payments| == |db.payments|
  {
    var (registered, _) :- RegisterOperation(SetStatus(db, p, RefundProcessing), p, RefundOp,
                                             RefundKey(p, requested, currency));
    var row := Transaction(p, RefundType, TxPending, Value(requested), currency, TxRefund(p, requested, currency));
    var (created, t) := CreateTransaction(registered, row);
    if AmountMinor(Value(requested)).Err? then Raised(InvalidAmount) else Done(created, t)
  }

  function PostRefund(db: Db, p: nat, t: nat, requested: Amount, currency: Currency, customer: nat, clearing: nat,
                      refundable: Money): Attempt<PaymentStatus>
    requires p < |db.payments| && t < |db.transactions|
  {
    var amount := Value(requested);
    var (posted, _) :- PostJournal(SetTxStatus(db, t, TxPosted), JRefund(p, requested, currency), currency,
                                   Transfer(clearing, customer, amount, currency));
    Done(SetStatus(posted, p, if refundable - amount == 0 then Refunded else Succeeded), Refunded)
  }

  /** The refund itself, once it is known to fit in what remains. */
  function ApplyRefund(db: Db, p: nat, requested: Amount, currency: Currency, customer: nat, clearing: nat,
                       answer: Outcome, refundable: Money): Attempt<PaymentStatus>
    requires p < |db.payments|
  {
    var (begun, t) :- OpenRefund(db, p, requested, currency);
    match answer
    case Unknown => Done(SetStatus(begun, p, UnknownOutcome), UnknownOutcome)
    case Failure => Done(SetStatus(SetTxStatus(begun, t, TxFailed), p, RefundFailed), RefundFailed)
    case Success => PostRefund(begun, p, t, requested, currency, customer, clearing, refundable)
  }

  function RefundSpec(db: Db, p: nat, requested: Amount, currency: Currency, customer: nat, clearing: nat,
                      answer: Outcome): Attempt<PaymentStatus>
  {
    if p >= |db.payments| then Raised(NotFound)
    else if !Refundable(db.payments[p].status) then Raised(NotExecutable)
    else if Value(requested) <= 0 then Raised(InvalidAmount)
    else if currency != db.payments[p].currency then Raised(IntentMismatch)
    else
      var amount := Value(requested);
      var existing := Find(db.transactions, TxHasKey(TxRefund(p, requested, currency)));
      var captured, refunded := Posted(db, p, CaptureType), Posted(db, p, RefundType);
      var replay := if existing >= 0 then ReplayStatus(db.transactions[existing].status, captured - refunded) else None;
      if replay.Some? then Done(db, replay.value)
      else if amount > captured - refunded then Raised(ExceedsRefundable)
      else ApplyRefund(db, p, requested, currency, customer, clearing, answer, captured - refunded)
  }

  class PaymentLifecycle {
    const conn: Connection
    const payments: PaymentRepository
    const ledger: LedgerRepository

    ghost predicate Valid() {
      payments.conn == conn && ledger.conn == conn
    }

    constructor (conn: Connection)
      ensures Valid() && this.conn == conn
    {
      this.conn := conn;
      payments := new PaymentRepository(conn);
      ledger := new LedgerRepository(conn);
    }

    method Capture(p: nat, amount: Money, currency: Currency, customer: nat, clearing: nat, answer: Outcome)
      returns (r: Result<PaymentStatus>)
      requires Valid()
      modifies conn`db
      ensures Agrees(CaptureSpec(old(conn.db), p, amount, currency, customer, clearing, answer), conn.db, r)
    {
      if p >= |conn.db.payments| {
        return Err(NotFound);
      }
      var row := conn.db.payments[p];
      if row.status == Succeeded {
        return if Matches(row, amount, currency) then Ok(Succeeded) else Err(IntentMismatch);
      }
      if row.status != Authorized {
        return Err(NotExecutable);
      }
      if !Matches(row, amount, currency) {
        return Err(IntentMismatch);
      }
      var _ :- payments.CreateProviderOperation(p, CaptureOp, CaptureKey(p));
      if AmountMinor(amount).Err? {
        return Err(InvalidAmount);
      }
      match answer {
        case Unknown =>
          payments.UpdateStatus(p, UnknownOutcome);
          return Ok(UnknownOutcome);
        case Failure =>
          payments.UpdateStatus(p, Failed);
          var _ := ledger.InsertTransaction(Transaction(p, CaptureType, TxFailed, amount, currency, TxCaptureFailed(p)));
          return Ok(Failed);
        case Success =>
          var _ := ledger.InsertTransaction(Transaction(p, CaptureType, TxPosted, amount, currency, TxCapture(p)));
          var _ :- ledger.Post(JCapture(p), currency, Transfer(customer, clearing, amount, currency));
          payments.UpdateStatus(p, Succeeded);
          return Ok(Succeeded);
      }
    }

    method Void(p: nat, amount: Money, currency: Currency, answer: Outcome) returns (r: Result<PaymentStatus>)
      requires Valid()
      modifies conn`db
      ensures Agrees(VoidSpec(old(conn.db), p, amount, currency, answer), conn.db, r)
    {
      if p >= |conn.db.payments| {
        return Err(NotFound);
      }
      var row := conn.db.payments[p];
      if row.status == Voided {
        return if Matches(row, amount, currency) then Ok(Voided) else Err(IntentMismatch);
      }
      if row.status != Authorized {
        return Err(NotExecutable);
      }
      if !Matches(row, amount, currency) {
        return Err(IntentMismatch);
      }
      payments.UpdateStatus(p, VoidRequested);
      var _ :- payments.CreateProviderOperation(p, VoidOp, VoidKey(p));
      if AmountMinor(amount).Err? {
        return Err(InvalidAmount);
      }
      match answer {
        case Unknown =>
          payments.UpdateStatus(p, UnknownOutcome);
          return Ok(UnknownOutcome);
        case Failure =>
          payments.UpdateStatus(p, VoidFailed);
          var _ := ledger.InsertTransaction(Transaction(p, VoidType, TxFailed, amount, currency, TxVoidFailed(p)));
          return Ok(VoidFailed);
        case Success =>
          var _ := ledger.InsertTransaction(Transaction(p, VoidType, TxPosted, amount, currency, TxVoid(p)));
          payments.UpdateStatus(p, Voided);
          return Ok(Voided);
      }
    }

    method Refund(p: nat, requested: Amount, currency: Currency, customer: nat, clearing: nat, answer: Outcome)
      returns (r: Result<PaymentStatus>)
      requires Valid()
      modifies conn`db
      ensures Agrees(RefundSpec(old(conn.db), p, requested, currency, customer, clearing, answer), conn.db, r)
    {
      if p >= |conn.db.payments| {
        return Err(NotFound);
      }
      var row := conn.db.payments[p];
      if !Refundable(row.status) {
        return Err(NotExecutable);
      }
      var amount := Value(requested);
      if amount <= 0 {
        return Err(InvalidAmount);
      }
      if currency != row.currency {
        return Err(IntentMismatch);
      }
      var existing := Find(conn.db.transactions, TxHasKey(TxRefund(p, requested, currency)));
      var captured := Posted(conn.db, p, CaptureType);
      var refunded := Posted(conn.db, p, RefundType);
      if existing >= 0 {
        var replay := ReplayStatus(conn.db.transactions[existing].status, captured - refunded);
        if replay.Some? {
          return Ok(replay.value);
        }
      }
      if amount > captured - refunded {
        return Err(ExceedsRefundable);
      }
      r := MoveRefund(p, requested, currency, customer, clearing, answer, captured - refunded);
    }

    method MoveRefund(p: nat, requested: Amount, currency: Currency, customer: nat, clearing: nat, answer: Outcome,
                      refundable: Money) returns (r: Result<PaymentStatus>)
      requires Valid() && p < |conn.db.payments|
      modifies conn`db
      ensures Agrees(ApplyRefund(old(conn.db), p, requested, currency, customer, clearing, answer, refundable), conn.db, r)
    {
      var amount := Value(requested);
      payments.UpdateStatus(p, RefundProcessing);
      var _ :- payments.CreateProviderOperation(p, RefundOp, RefundKey(p, requested, currency));
      var t := ledger.InsertTransaction(
        Transaction(p, RefundType, TxPending, amount, currency, TxRefund(p, requested, currency)));
      if AmountMinor(amount).Err? {
        return Err(InvalidAmount);
      }
      match answer {
        case Unknown =>
          payments.UpdateStatus(p, UnknownOutcome);
          return Ok(UnknownOutcome);
        case Failure =>
          ledger.MarkTransaction(t, TxFailed);
          payments.UpdateStatus(p, RefundFailed);
          return Ok(RefundFailed);
        case Success =>
          ledger.MarkTransaction(t, TxPosted);
          var _ :- ledger.Post(JRefund(p, requested, currency), currency,
                               Transfer(clearing, customer, amount, currency));
          payments.UpdateStatus(p, if refundable - amount == 0 then Refunded else Succeeded);
          return Ok(Refunded);
      }
    }
  }
}
