/** Provider events: reference/implementation/src/agent_pay/webhook_resolution.py. */
module Resolvers {
  import opened Domain
  import opened Connections
  import opened Repositories
  import opened Ledger
  import opened Orchestrators

  datatype Resolution = Duplicate | Ignored | Resolved

  predicate Undecided(status: PaymentStatus) {
    status == UnknownOutcome || status == Processing || status == PaymentPending
  }

  function MarkProcessed(db: Db, event: nat): Db
    requires event < |db.events|
  {
    db.(events := db.events[event := db.events[event].(processed := true)])
  }

  function SetOpStatus(db: Db, op: nat, status: OpStatus): Db
    requires op < |db.operations|
  {
    db.(operations := db.operations[op := db.operations[op].(status := status)])
  }

  /** A successful charge: budget, transaction and journal, for CHARGE operations only. */
  function CaptureByEvent(db: Db, p: nat, reservation: Option<nat>, amount: Money, currency: Currency,
                          customer: nat, clearing: nat): Attempt<()>
  {
    if reservation.None? then Raised(NoReservation)
    else
      var (consumed, _) :- ConsumeHold(db, reservation.value);
      var (created, t) := CreateTransaction(consumed, CaptureRow(p, amount, currency, TxCaptureByEvent(p)));
      var (posted, _) :- PostJournal(created, JCapture(p), currency, Transfer(customer, clearing, amount, currency));
      if t >= |posted.transactions| then Raised(NotFound)
      else Done(SetTxStatus(posted, t, TxPosted), ())
  }

  function EventSuccess(db: Db, op: nat, customer: nat, clearing: nat): Attempt<()>
    requires op < |db.operations|
    requires db.operations[op].payment < |db.payments|
    requires db.payments[db.operations[op].payment].request < |db.requests|
  {
    var o := db.operations[op];
    var row := db.payments[o.payment];
    var marked := SetOpStatus(db, op, OpSucceeded);
    if o.kind == ChargeOp then
      var (captured, _) :- CaptureByEvent(marked, o.payment, db.requests[row.request].reservation, row.amount, row.currency,
                                          customer, clearing);
      Done(SetStatus(captured, o.payment, Succeeded), ())
    else Done(SetStatus(marked, o.payment, Succeeded), ())
  }

  function EventFailure(db: Db, op: nat): Attempt<()>
    requires op < |db.operations|
    requires db.operations[op].payment < |db.payments|
    requires db.payments[db.operations[op].payment].request < |db.requests|
  {
    var o := db.operations[op];
    var reservation := db.requests[db.payments[o.payment].request].reservation;
    var marked := SetOpStatus(db, op, OpFailed);
    if o.kind == ChargeOp && reservation.Some? then
      var (released, _) :- ReleaseHold(marked, reservation.value);
      Done(SetStatus(released, o.payment, Failed), ())
    else Done(SetStatus(marked, o.payment, Failed), ())
  }

  function ApplyEvent(db: Db, op: nat, outcome: Outcome, customer: nat, clearing: nat): Attempt<()>
    requires op < |db.operations|
    requires db.operations[op].payment < |db.payments|
    requires db.payments[db.operations[op].payment].request < |db.requests|
  {
    match outcome
    case Success => EventSuccess(db, op, customer, clearing)
    case Failure => EventFailure(db, op)
    case Unknown => Raised(UnsupportedOutcome)
  }

  /** `Unknown` stands for any outcome text other than SUCCEEDED and FAILED. */
  function ResolveSpec(db: Db, event: nat, op: nat, outcome: Outcome, customer: nat, clearing: nat): Attempt<Resolution> {
    if event >= |db.events| then Raised(NotFound)
    else if !db.events[event].signatureValid then Raised(InvalidSignature)
    else if db.events[event].processed then Done(db, Duplicate)
    else if op >= |db.operations| || db.operations[op].payment >= |db.payments|
            || db.payments[db.operations[op].payment].request >= |db.requests| then Raised(NotFound)
    else if !Undecided(db.payments[db.operations[op].payment].status) then Done(MarkProcessed(db, event), Ignored)
    else
      var (applied, _) :- ApplyEvent(db, op, outcome, customer, clearing);
      Done(MarkProcessed(applied, event), Resolved)
  }

  class ProviderEventResolver {
    const conn: Connection
    const orchestrator: PaymentOrchestrator  // for its repositories

    ghost predicate Valid() {
      orchestrator.conn == conn && orchestrator.Valid()
    }

    constructor (conn: Connection)
      ensures Valid() && this.conn == conn
    {
      this.conn := conn;
      orchestrator := new PaymentOrchestrator(conn);
    }

    method Resolve(event: nat, op: nat, outcome: Outcome, customer: nat, clearing: nat) returns (r: Result<Resolution>)
      requires Valid()
      modifies conn
      ensures conn.db == conn.saved
              == Commit(old(conn.db), ResolveSpec(old(conn.db), event, op, outcome, customer, clearing))
      ensures r == ToResult(ResolveSpec(old(conn.db), event, op, outcome, customer, clearing))
    {
      conn.Begin();
      r := ResolveInTransaction(event, op, outcome, customer, clearing);
      conn.End(r.Ok?);
    }

    method CaptureCharge(p: nat, reservation: Option<nat>, amount: Money, currency: Currency, customer: nat, clearing: nat)
      returns (r: Result<()>)
      requires Valid()
      modifies conn`db
      ensures Agrees(CaptureByEvent(old(conn.db), p, reservation, amount, currency, customer, clearing), conn.db, r)
    {
      if reservation.None? {
        return Err(NoReservation);
      }
      var _ :- orchestrator.budgets.Consume(reservation.value);
      var t := orchestrator.ledger.InsertTransaction(CaptureRow(p, amount, currency, TxCaptureByEvent(p)));
      var _ :- orchestrator.ledger.Post(JCapture(p), currency, Transfer(customer, clearing, amount, currency));
      orchestrator.ledger.MarkTransaction(t, TxPosted);
      return Ok(());
    }

    method ResolveInTransaction(event: nat, op: nat, outcome: Outcome, customer: nat, clearing: nat)
      returns (r: Result<Resolution>)
      requires Valid()
      modifies conn`db
      ensures Agrees(ResolveSpec(old(conn.db), event, op, outcome, customer, clearing), conn.db, r)
    {
      if event >= |conn.db.events| {
        return Err(NotFound);
      }
      if !conn.db.events[event].signatureValid {
        return Err(InvalidSignature);
      }
      if conn.db.events[event].processed {
        return Ok(Duplicate);
      }
      if op >= |conn.db.operations| || conn.db.operations[op].payment >= |conn.db.payments|
         || conn.db.payments[conn.db.operations[op].payment].request >= |conn.db.requests| {
        return Err(NotFound);
      }
      var o := conn.db.operations[op];
      var row := conn.db.payments[o.payment];
      var reservation := conn.db.requests[row.request].reservation;
      if !Undecided(row.status) {
        conn.db := MarkProcessed(conn.db, event);
        return Ok(Ignored);
      }
      if outcome == Success {
        conn.db := SetOpStatus(conn.db, op, OpSucceeded);
        if o.kind == ChargeOp {
          var _ :- CaptureCharge(o.payment, reservation, row.amount, row.currency, customer, clearing);
        }
        orchestrator.payments.UpdateStatus(o.payment, Succeeded);
      } else if outcome == Failure {
        conn.db := SetOpStatus(conn.db, op, OpFailed);
        if o.kind == ChargeOp && reservation.Some? {
          var _ :- orchestrator.budgets.Release(reservation.value);
        }
        orchestrator.payments.UpdateStatus(o.payment, Failed);
      } else {
        return Err(UnsupportedOutcome);
      }
      conn.db := MarkProcessed(conn.db, event);
      return Ok(Resolved);
    }
  }
}
