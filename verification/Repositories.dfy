/** Payment and budget rows: reference/implementation/src/agent_pay/repositories.py
    and outbox.py:37-44. Each method works on the open transaction and agrees with
    the function that specifies it. */
module Repositories {
  import opened Domain
  import opened Sums
  import opened Connections

  function SetStatus(db: Db, p: nat, status: PaymentStatus): Db
    requires p < |db.payments|
  {
    db.(payments := db.payments[p := db.payments[p].(status := status)])
  }

  function Enqueue(db: Db, p: nat, fact: Fact): Db {
    db.(outbox := db.outbox + [OutboxRow(p, fact)])
  }

  function OpHasKey(key: OpKey): Operation -> bool {
    (o: Operation) => o.key == key
  }

  /** One row per key: an existing row is reused when payment and kind match, and
      refused otherwise. */
  function RegisterOperation(db: Db, p: nat, kind: OpKind, key: OpKey): Attempt<nat> {
    var i := Find(db.operations, OpHasKey(key));
    if i < 0 then
      Done(db.(operations := db.operations + [Operation(p, kind, key, OpPending)]), |db.operations|)
    else if db.operations[i].payment != p || db.operations[i].kind != kind then Raised(OperationKeyConflict)
    else Done(db, i)
  }

  function HoldFor(budget: nat, request: nat): Reservation -> bool {
    (r: Reservation) => r.budget == budget && r.request == request
  }

  /** A hold on the budget for the whole amount, or nothing. */
  function Reserve(db: Db, budget: nat, request: nat, amount: Money): Attempt<Option<nat>> {
    if budget >= |db.budgets| || request >= |db.requests| then Done(db, None)
    else
      var b := db.budgets[budget];
      if b.currency != db.requests[request].currency then Done(db, None)
      else if b.limit - b.consumed - b.reserved < amount then Done(db, None)
      else if Find(db.reservations, HoldFor(budget, request)) >= 0 then Raised(UniqueViolation)
      else if amount <= 0 then Raised(CheckViolation)
      else
        var held := db.(reservations := db.reservations + [Reservation(budget, request, amount, Reserved)],
                        budgets := db.budgets[budget := b.(reserved := b.reserved + amount)]);
        Done(held, Some(|db.reservations|))
  }

  /** Moves a held amount to spent; a hold that is no longer held is left alone. */
  function ConsumeHold(db: Db, r: nat): Attempt<()> {
    if r >= |db.reservations| || db.reservations[r].budget >= |db.budgets| then Raised(NoReservation)
    else
      var hold := db.reservations[r];
      if hold.status != Reserved then Done(db, ())
      else
        var b := db.budgets[hold.budget];
        Done(db.(reservations := db.reservations[r := hold.(status := Consumed)],
                 budgets := db.budgets[hold.budget := b.(reserved := b.reserved - hold.amount,
                                                         consumed := b.consumed + hold.amount)]), ())
  }

  function ReleaseHold(db: Db, r: nat): Attempt<()> {
    if r >= |db.reservations| || db.reservations[r].budget >= |db.budgets| then Raised(NoReservation)
    else
      var hold := db.reservations[r];
      if hold.status != Reserved then Done(db, ())
      else
        var b := db.budgets[hold.budget];
        Done(db.(reservations := db.reservations[r := hold.(status := Released)],
                 budgets := db.budgets[hold.budget := b.(reserved := b.reserved - hold.amount)]), ())
  }

  /** The payments a worker may claim: PROCESSING, with a reservation. */
  predicate Claimable(db: Db, p: nat) {
    && p < |db.payments| && db.payments[p].request < |db.requests|
    && db.payments[p].status == Processing
    && db.requests[db.payments[p].request].reservation.Some?
  }

  class PaymentRepository {
    const conn: Connection

    constructor (conn: Connection)
      ensures this.conn == conn
    {
      this.conn := conn;
    }

    method UpdateStatus(p: nat, status: PaymentStatus)
      requires p < |conn.db.payments|
      modifies conn`db
      ensures conn.db == SetStatus(old(conn.db), p, status)
    {
      var row := conn.db.payments[p];
      conn.db := conn.db.(payments := conn.db.payments[p := row.(status := status)]);
    }

    method EnqueueFact(p: nat, fact: Fact)
      modifies conn`db
      ensures conn.db == Enqueue(old(conn.db), p, fact)
    {
      conn.db := conn.db.(outbox := conn.db.outbox + [OutboxRow(p, fact)]);
    }

    method CreateProviderOperation(p: nat, kind: OpKind, key: OpKey) returns (r: Result<nat>)
      modifies conn`db
      ensures Agrees(RegisterOperation(old(conn.db), p, kind, key), conn.db, r)
    {
      var i := Find(conn.db.operations, OpHasKey(key));
      if i < 0 {
        r := Ok(|conn.db.operations|);
        conn.db := conn.db.(operations := conn.db.operations + [Operation(p, kind, key, OpPending)]);
        return;
      }
      var existing := conn.db.operations[i];
      if existing.payment != p || existing.kind != kind {
        return Err(OperationKeyConflict);
      }
      return Ok(i);
    }

    /** Scans the payments in creation order, past the rows that other transactions hold,
        and stops at the limit. */
    method PendingForExecution(limit: nat, locked: set<nat>) returns (claimed: seq<nat>)
      ensures |claimed| <= limit
      ensures forall i :: 0 <= i < |claimed| ==> Claimable(conn.db, claimed[i]) && claimed[i] !in locked
      ensures forall i, j :: 0 <= i < j < |claimed| ==> claimed[i] < claimed[j]
      ensures forall i :: 0 <= i < |claimed| ==>
                && claimed[i] < |conn.db.payments| && conn.db.payments[claimed[i]].status == Processing
                && conn.db.payments[claimed[i]].request < |conn.db.requests|
                && conn.db.requests[conn.db.payments[claimed[i]].request].reservation.Some?
      ensures |claimed| < limit ==>
                forall p: nat :: p < |conn.db.payments| && p !in locked && p !in claimed
                                 && conn.db.payments[p].status == Processing
                                 && conn.db.payments[p].request < |conn.db.requests| ==>
                  conn.db.requests[conn.db.payments[p].request].reservation.None?
      ensures |claimed| < limit ==> forall p :: Claimable(conn.db, p) && p !in locked ==> p in claimed
      ensures forall p, q :: p < q && q in claimed && Claimable(conn.db, p) && p !in locked ==> p in claimed
    {
      claimed := [];
      var p := 0;
      while p < |conn.db.payments| && |claimed| < limit
        invariant 0 <= p <= |conn.db.payments|
        invariant |claimed| <= limit
        invariant forall i :: 0 <= i < |claimed| ==>
                    Claimable(conn.db, claimed[i]) && claimed[i] !in locked && claimed[i] < p
        invariant forall i, j :: 0 <= i < j < |claimed| ==> claimed[i] < claimed[j]
        invariant forall q :: 0 <= q < p && Claimable(conn.db, q) && q !in locked ==> q in claimed
      {
        var row := conn.db.payments[p];
        if row.request < |conn.db.requests| && row.status == Processing
           && conn.db.requests[row.request].reservation.Some? && p !in locked {
          claimed := claimed + [p];
        }
        p := p + 1;
      }
    }
  }

  class BudgetRepository {
    const conn: Connection

    constructor (conn: Connection)
      ensures this.conn == conn
    {
      this.conn := conn;
    }

    method ReserveAmount(budget: nat, request: nat, amount: Money) returns (r: Result<Option<nat>>)
      modifies conn`db
      ensures Agrees(Reserve(old(conn.db), budget, request, amount), conn.db, r)
    {
      if budget >= |conn.db.budgets| || request >= |conn.db.requests| {
        return Ok(None);
      }
      var b := conn.db.budgets[budget];
      if b.currency != conn.db.requests[request].currency {
        return Ok(None);
      }
      var available := b.limit - b.consumed - b.reserved;
      if available < amount {
        return Ok(None);
      }
      var taken := Find(conn.db.reservations, HoldFor(budget, request));
      if taken >= 0 {
        return Err(UniqueViolation);
      }
      if amount <= 0 {
        return Err(CheckViolation);
      }
      r := Ok(Some(|conn.db.reservations|));
      conn.db := conn.db.(reservations := conn.db.reservations + [Reservation(budget, request, amount, Reserved)]);
      conn.db := conn.db.(budgets := conn.db.budgets[budget := b.(reserved := b.reserved + amount)]);
    }

    method Consume(r: nat) returns (done: Result<()>)
      modifies conn`db
      ensures Agrees(ConsumeHold(old(conn.db), r), conn.db, done)
    {
      if r >= |conn.db.reservations| || conn.db.reservations[r].budget >= |conn.db.budgets| {
        return Err(NoReservation);
      }
      var hold := conn.db.reservations[r];
      if hold.status != Reserved {
        return Ok(());
      }
      conn.db := conn.db.(reservations := conn.db.reservations[r := hold.(status := Consumed)]);
      var b := conn.db.budgets[hold.budget];
      conn.db := conn.db.(budgets := conn.db.budgets[hold.budget := b.(reserved := b.reserved - hold.amount,
                                                                         consumed := b.consumed + hold.amount)]);
      return Ok(());
    }

    method Release(r: nat) returns (done: Result<()>)
      modifies conn`db
      ensures Agrees(ReleaseHold(old(conn.db), r), conn.db, done)
    {
      if r >= |conn.db.reservations| || conn.db.reservations[r].budget >= |conn.db.budgets| {
        return Err(NoReservation);
      }
      var hold := conn.db.reservations[r];
      if hold.status != Reserved {
        return Ok(());
      }
      conn.db := conn.db.(reservations := conn.db.reservations[r := hold.(status := Released)]);
      var b := conn.db.budgets[hold.budget];
      conn.db := conn.db.(budgets := conn.db.budgets[hold.budget := b.(reserved := b.reserved - hold.amount)]);
      return Ok(());
    }
  }
}
