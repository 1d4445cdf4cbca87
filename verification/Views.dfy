/** One payment's share of the database in numbers, table by table, and what each
    row operation does to it. */
module Views {
  import opened Domain
  import opened Sums
  import opened Ledger
  import opened Orchestrators
  import opened Lifecycles
  import opened Rows

  /** The payment's transactions. */
  datatype Filing = Filing(
    byWorker: int,    // captures filed by finalize or capture
    byEvent: int,     // captures filed by a provider event
    captured: Money,  // SUM over POSTED CAPTURE
    refunded: Money,  // SUM over POSTED REFUND
    voids: int)       // POSTED VOID rows

  /** The payment's provider operations. */
  datatype Calls = Calls(
    charges: int,
    cardOps: int,     // CAPTURE and VOID
    refunds: int,
    won: int,         // CHARGE rows recorded as SUCCEEDED
    lost: int)        // CHARGE rows recorded as FAILED

  datatype View = View(status: PaymentStatus, hold: Option<HoldStatus>, amount: Money,
                       filing: Filing, calls: Calls, journals: int)

  function ChargeIn(p: nat, status: OpStatus): Operation -> int {
    (o: Operation) => if o.key == ChargeKey(p) && o.status == status then 1 else 0
  }

  function RefundOpsOf(p: nat): Operation -> int {
    (o: Operation) => if o.payment == p && o.kind == RefundOp then 1 else 0
  }

  function FilingOf(txs: seq<Transaction>, p: nat): Filing {
    Filing(Sum(txs, TxCount(TxCapture(p))), Sum(txs, TxCount(TxCaptureByEvent(p))),
           Sum(txs, PostedOf(p, CaptureType)), Sum(txs, PostedOf(p, RefundType)), Sum(txs, TxCount(TxVoid(p))))
  }

  function CallsOf(ops: seq<Operation>, p: nat): Calls {
    Calls(Sum(ops, OpKeyCount(ChargeKey(p))),
          Sum(ops, OpKeyCount(CaptureKey(p))) + Sum(ops, OpKeyCount(VoidKey(p))),
          Sum(ops, RefundOpsOf(p)), Sum(ops, ChargeIn(p, OpSucceeded)), Sum(ops, ChargeIn(p, OpFailed)))
  }

  function HoldOf(requests: seq<Request>, reservations: seq<Reservation>, p: nat): Option<HoldStatus> {
    if p < |requests| && requests[p].reservation.Some? && requests[p].reservation.value < |reservations|
    then Some(reservations[requests[p].reservation.value].status)
    else None
  }

  function ViewOf(db: Db, p: nat): View
    requires p < |db.payments|
  {
    View(db.payments[p].status, HoldOf(db.requests, db.reservations, p), db.payments[p].amount,
         FilingOf(db.transactions, p), CallsOf(db.operations, p), Sum(db.journals, JournalCount(JCapture(p))))
  }

  function One(b: bool): int {
    if b then 1 else 0
  }

  function Spend(hold: Option<HoldStatus>): Option<HoldStatus> {
    if hold == Some(Reserved) then Some(Consumed) else hold
  }

  function LetGo(hold: Option<HoldStatus>): Option<HoldStatus> {
    if hold == Some(Reserved) then Some(Released) else hold
  }

  // --- transactions ---

  function WithTx(f: Filing, t: Transaction, q: nat): Filing {
    Filing(f.byWorker + TxCount(TxCapture(q))(t), f.byEvent + TxCount(TxCaptureByEvent(q))(t),
           f.captured + PostedOf(q, CaptureType)(t), f.refunded + PostedOf(q, RefundType)(t),
           f.voids + TxCount(TxVoid(q))(t))
  }

  function WithoutTx(f: Filing, t: Transaction, q: nat): Filing {
    Filing(f.byWorker - TxCount(TxCapture(q))(t), f.byEvent - TxCount(TxCaptureByEvent(q))(t),
           f.captured - PostedOf(q, CaptureType)(t), f.refunded - PostedOf(q, RefundType)(t),
           f.voids - TxCount(TxVoid(q))(t))
  }

  lemma AppendTx(txs: seq<Transaction>, row: Transaction, q: nat)
    ensures FilingOf(txs + [row], q) == WithTx(FilingOf(txs, q), row, q)
  {
    SumAppend(txs, row, TxCount(TxCapture(q)));
    SumAppend(txs, row, TxCount(TxCaptureByEvent(q)));
    SumAppend(txs, row, PostedOf(q, CaptureType));
    SumAppend(txs, row, PostedOf(q, RefundType));
    SumAppend(txs, row, TxCount(TxVoid(q)));
  }

  lemma ReplaceTx(txs: seq<Transaction>, t: nat, row: Transaction, q: nat)
    requires t < |txs|
    ensures FilingOf(txs[t := row], q) == WithTx(WithoutTx(FilingOf(txs, q), txs[t], q), row, q)
  {
    SumUpdate(txs, t, row, TxCount(TxCapture(q)));
    SumUpdate(txs, t, row, TxCount(TxCaptureByEvent(q)));
    SumUpdate(txs, t, row, PostedOf(q, CaptureType));
    SumUpdate(txs, t, row, PostedOf(q, RefundType));
    SumUpdate(txs, t, row, TxCount(TxVoid(q)));
  }

  // --- operations ---

  function WithOp(c: Calls, o: Operation, q: nat): Calls {
    Calls(c.charges + OpKeyCount(ChargeKey(q))(o),
          c.cardOps + OpKeyCount(CaptureKey(q))(o) + OpKeyCount(VoidKey(q))(o),
          c.refunds + RefundOpsOf(q)(o), c.won + ChargeIn(q, OpSucceeded)(o), c.lost + ChargeIn(q, OpFailed)(o))
  }

  lemma AppendOp(ops: seq<Operation>, row: Operation, q: nat)
    ensures CallsOf(ops + [row], q) == WithOp(CallsOf(ops, q), row, q)
  {
    SumAppend(ops, row, OpKeyCount(ChargeKey(q)));
    SumAppend(ops, row, OpKeyCount(CaptureKey(q)));
    SumAppend(ops, row, OpKeyCount(VoidKey(q)));
    SumAppend(ops, row, RefundOpsOf(q));
    SumAppend(ops, row, ChargeIn(q, OpSucceeded));
    SumAppend(ops, row, ChargeIn(q, OpFailed));
  }

  lemma MarkOp(ops: seq<Operation>, op: nat, status: OpStatus, q: nat)
    requires op < |ops|
    ensures var c := CallsOf(ops, q);
            CallsOf(ops[op := ops[op].(status := status)], q)
            == if ops[op].key != ChargeKey(q) then c
               else c.(won := c.won - One(ops[op].status == OpSucceeded) + One(status == OpSucceeded),
                       lost := c.lost - One(ops[op].status == OpFailed) + One(status == OpFailed))
  {
    var row := ops[op].(status := status);
    SumUpdate(ops, op, row, OpKeyCount(ChargeKey(q)));
    SumUpdate(ops, op, row, OpKeyCount(CaptureKey(q)));
    SumUpdate(ops, op, row, OpKeyCount(VoidKey(q)));
    SumUpdate(ops, op, row, RefundOpsOf(q));
    SumUpdate(ops, op, row, ChargeIn(q, OpSucceeded));
    SumUpdate(ops, op, row, ChargeIn(q, OpFailed));
  }

  lemma MarkCharges(ops: seq<Operation>, n: nat, p: nat, status: OpStatus, q: nat)
    requires forall i :: 0 <= i < |ops| ==> OpRow(n, ops[i])
    ensures var c := CallsOf(ops, q);
            CallsOf(MarkAll(ops, p, status), q)
            == if q != p then c
               else c.(won := if status == OpSucceeded then c.charges else 0,
                       lost := if status == OpFailed then c.charges else 0)
  {
    MarkingKeepsKeys(ops, p, status, ChargeKey(q));
    MarkingKeepsKeys(ops, p, status, CaptureKey(q));
    MarkingKeepsKeys(ops, p, status, VoidKey(q));
    SumSame(ops, RefundOpsOf(q), MarkAll(ops, p, status), RefundOpsOf(q));
    ChargeInAfter(ops, n, p, status, q, OpSucceeded);
    ChargeInAfter(ops, n, p, status, q, OpFailed);
  }

  lemma MarkingKeepsKeys(ops: seq<Operation>, p: nat, status: OpStatus, key: OpKey)
    ensures Sum(MarkAll(ops, p, status), OpKeyCount(key)) == Sum(ops, OpKeyCount(key))
  {
    SumSame(ops, OpKeyCount(key), MarkAll(ops, p, status), OpKeyCount(key));
  }

  lemma ChargeInAfter(ops: seq<Operation>, n: nat, p: nat, status: OpStatus, q: nat, seen: OpStatus)
    requires forall i :: 0 <= i < |ops| ==> OpRow(n, ops[i])
    ensures Sum(MarkAll(ops, p, status), ChargeIn(q, seen))
            == if q != p then Sum(ops, ChargeIn(q, seen))
               else if status == seen then Sum(ops, OpKeyCount(ChargeKey(q))) else 0
  {
    var after := MarkAll(ops, p, status);
    if q != p {
      SumSame(ops, ChargeIn(q, seen), after, ChargeIn(q, seen));
    } else if status == seen {
      SumSame(ops, OpKeyCount(ChargeKey(q)), after, ChargeIn(q, seen));
    } else {
      SumZero(after, ChargeIn(q, seen));
    }
  }

  // --- journals ---

  lemma TransferAccepted(db: Db, key: JournalKey, debit: nat, credit: nat, amount: Money, currency: Currency)
    requires amount > 0
    ensures PostJournal(db, key, currency, Transfer(debit, credit, amount, currency)).Done?
  {
    TransferTotals(debit, credit, amount, currency);
  }

  lemma PostCounts(db: Db, key: JournalKey, currency: Currency, postings: seq<Posting>, k: JournalKey)
    requires PostJournal(db, key, currency, postings).Done?
    ensures var n := Sum(db.journals, JournalCount(k));
            Sum(PostJournal(db, key, currency, postings).db.journals, JournalCount(k))
            == if key == k && n == 0 then 1 else n
  {
    JournalLookup(db, key);
    SumAppend(db.journals, Journal(key, currency, postings), JournalCount(k));
  }

  /** A payment that no row mentions yet. */
  lemma FreshView(db: Db, p: nat)
    requires Sound(db) && p >= |db.requests|
    ensures FilingOf(db.transactions, p) == Filing(0, 0, 0, 0, 0)
    ensures CallsOf(db.operations, p) == Calls(0, 0, 0, 0, 0)
    ensures Sum(db.journals, JournalCount(JCapture(p))) == 0
  {
    FreshFiling(db, p);
    FreshCalls(db, p);
    SumZero(db.journals, JournalCount(JCapture(p)));
  }

  lemma FreshFiling(db: Db, p: nat)
    requires TxRows(db.requests, db.transactions) && p >= |db.requests|
    ensures FilingOf(db.transactions, p) == Filing(0, 0, 0, 0, 0)
  {
    SumZero(db.transactions, TxCount(TxCapture(p)));
    SumZero(db.transactions, TxCount(TxCaptureByEvent(p)));
    SumZero(db.transactions, PostedOf(p, CaptureType));
    SumZero(db.transactions, PostedOf(p, RefundType));
    SumZero(db.transactions, TxCount(TxVoid(p)));
  }

  lemma FreshCalls(db: Db, p: nat)
    requires OpRows(|db.requests|, db.operations) && p >= |db.requests|
    ensures CallsOf(db.operations, p) == Calls(0, 0, 0, 0, 0)
  {
    SumZero(db.operations, OpKeyCount(ChargeKey(p)));
    SumZero(db.operations, OpKeyCount(CaptureKey(p)));
    SumZero(db.operations, OpKeyCount(VoidKey(p)));
    SumZero(db.operations, RefundOpsOf(p));
    SumZero(db.operations, ChargeIn(p, OpSucceeded));
    SumZero(db.operations, ChargeIn(p, OpFailed));
  }
}
