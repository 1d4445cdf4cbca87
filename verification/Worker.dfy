/** One worker's execution of one payment: reference/implementation/src/agent_pay/worker.py.
    Other transactions may run between its three steps. */
module Workers {
  import opened Domain
  import opened Sums
  import opened Connections
  import opened Repositories
  import opened Orchestrators

  /** What the worker remembers between its steps. */
  datatype Execution = Execution(payment: nat, request: nat, amount: Money, currency: Currency, reservation: nat)

  function BeginSpec(db: Db, p: nat): Attempt<Execution> {
    if p >= |db.payments| || db.payments[p].request >= |db.requests| then Raised(NotFound)
    else
      var row := db.payments[p];
      var reservation := db.requests[row.request].reservation;
      if reservation.None? then Raised(NoReservation)
      else
        var (registered, _) :- RegisterOperation(db, p, ChargeOp, ChargeKey(p));
        Done(SetStatus(registered, p, Processing),
             Execution(p, row.request, row.amount, row.currency, reservation.value))
  }

  function IsChargeOf(p: nat): Operation -> bool {
    (o: Operation) => o.payment == p && o.kind == ChargeOp
  }

  /** The recorded outcome of the payment's charge, if there is a definite record. */
  function DurableOutcome(db: Db, p: nat): Option<Outcome> {
    var i := FindLast(db.operations, IsChargeOf(p));
    if i < 0 then None
    else
      match db.operations[i].status
      case OpSucceeded => Some(Success)
      case OpFailed => Some(Failure)
      case OpUnknown => Some(Unknown)
      case OpPending => None
  }

  /** A recorded outcome is reused; only without one does the provider decide. */
  function ChargeOutcome(db: Db, p: nat, answer: Outcome): Outcome {
    var durable := DurableOutcome(db, p);
    if durable.Some? then durable.value else answer
  }

  /** The minor units the provider is asked to charge: int(amount * 100), which truncates. */
  function ChargeMinor(amount: Money): int {
    if amount >= 0 then amount / 100 else -(-amount / 100)
  }

  function FinishSpec(db: Db, e: Execution, customer: nat, clearing: nat, outcome: Outcome): Attempt<PaymentStatus> {
    FinalizeSpec(db, e.payment, e.request, e.reservation, e.amount, e.currency, customer, clearing, outcome)
  }

  /** The three steps with nothing in between. */
  function ProcessSpec(db: Db, p: nat, customer: nat, clearing: nat, answer: Outcome): (Db, Result<PaymentStatus>) {
    var begun := BeginSpec(db, p);
    if begun.Raised? then (db, Err(begun.error))
    else
      var finished := FinishSpec(begun.db, begun.value, customer, clearing, ChargeOutcome(begun.db, p, answer));
      (Commit(begun.db, finished), ToResult(finished))
  }

  class Worker {
    const conn: Connection
    const orchestrator: PaymentOrchestrator

    ghost predicate Valid() {
      orchestrator.conn == conn && orchestrator.Valid()
    }

    constructor (conn: Connection)
      ensures Valid() && this.conn == conn
    {
      this.conn := conn;
      orchestrator := new PaymentOrchestrator(conn);
    }

    /** The first transaction. It sets PROCESSING whatever the status was. */
    method Begin(p: nat) returns (r: Result<Execution>)
      requires Valid()
      modifies conn
      ensures conn.db == conn.saved == Commit(old(conn.db), BeginSpec(old(conn.db), p))
      ensures r == ToResult(BeginSpec(old(conn.db), p))
    {
      conn.Begin();
      r := BeginInTransaction(p);
      conn.End(r.Ok?);
    }

    method BeginInTransaction(p: nat) returns (r: Result<Execution>)
      requires Valid()
      modifies conn`db
      ensures Agrees(BeginSpec(old(conn.db), p), conn.db, r)
    {
      if p >= |conn.db.payments| || conn.db.payments[p].request >= |conn.db.requests| {
        return Err(NotFound);
      }
      var row := conn.db.payments[p];
      var reservation := conn.db.requests[row.request].reservation;
      if reservation.None? {
        return Err(NoReservation);
      }
      var _ :- orchestrator.payments.CreateProviderOperation(p, ChargeOp, ChargeKey(p));
      orchestrator.payments.UpdateStatus(p, Processing);
      return Ok(Execution(p, row.request, row.amount, row.currency, reservation.value));
    }

    /** Outside any transaction: the latest recorded charge, or else the provider. `answer`
        is what the provider would say. */
    method Charge(p: nat, answer: Outcome) returns (outcome: Outcome)
      ensures outcome == ChargeOutcome(conn.db, p, answer)
    {
      var ops := conn.db.operations;
      var n := |ops|;
      assert ops[..n] == ops;
      while n > 0 && !(ops[n - 1].payment == p && ops[n - 1].kind == ChargeOp)
        invariant 0 <= n <= |ops|
        invariant FindLast(ops, IsChargeOf(p)) == FindLast(ops[..n], IsChargeOf(p))
      {
        assert ops[..n][..n - 1] == ops[..n - 1];
        n := n - 1;
      }
      if n == 0 {
        return answer;
      }
      match ops[n - 1].status {
        case OpSucceeded => return Success;
        case OpFailed => return Failure;
        case OpUnknown => return Unknown;
        case OpPending => return answer;
      }
    }

    method ProcessOne(p: nat, customer: nat, clearing: nat, answer: Outcome) returns (r: Result<PaymentStatus>)
      requires Valid()
      modifies conn
      ensures (conn.db, r) == ProcessSpec(old(conn.db), p, customer, clearing, answer)
    {
      var e :- Begin(p);
      var outcome := Charge(p, answer);
      r := Finish(e, customer, clearing, outcome);
    }

    /** The last transaction. */
    method Finish(e: Execution, customer: nat, clearing: nat, outcome: Outcome) returns (r: Result<PaymentStatus>)
      requires Valid()
      modifies conn
      ensures conn.db == conn.saved == Commit(old(conn.db), FinishSpec(old(conn.db), e, customer, clearing, outcome))
      ensures r == ToResult(FinishSpec(old(conn.db), e, customer, clearing, outcome))
    {
      conn.Begin();
      r := orchestrator.Finalize(e.payment, e.request, e.reservation, e.amount, e.currency, customer, clearing, outcome);
      conn.End(r.Ok?);
    }
  }
}
