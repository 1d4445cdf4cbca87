/** What has left the provider for a payment: its POSTED refunds, and those still PENDING
    whose operation an event has confirmed. Such an event moves the operation and the
    payment status only, so the money is out while no transaction says so. */
module Exposures {
  import opened Domain
  import opened Sums
  import opened Repositories
  import opened Ledger
  import opened Orchestrators
  import opened Workers
  import opened Resolvers
  import opened Lifecycles
  import opened Controls
  import opened Apis
  import opened Machine
  import opened Rows
  import opened Consistency
  import opened Views
  import opened Effects
  import opened Moves
  import opened Steps
  import opened Safety
  import opened Frames
  import opened Guards
  import opened Rail
  import Overcapture

  function ConfirmedAs(key: OpKey): Operation -> bool {
    (o: Operation) => o.key == key && o.status == OpSucceeded
  }

  /** An event has confirmed the refund operation. */
  predicate Confirmed(ops: seq<Operation>, key: OpKey) {
    Find(ops, ConfirmedAs(key)) >= 0
  }

  function OpOf(key: TxKey): OpKey
    requires key.TxRefund?
  {
    RefundKey(key.payment, key.amount, key.currency)
  }

  function TxOf(key: OpKey): TxKey
    requires key.RefundKey?
  {
    TxRefund(key.payment, key.amount, key.currency)
  }

  function GivenBack(ops: seq<Operation>, p: nat): Transaction -> int {
    (t: Transaction) =>
      if t.payment == p && t.kind == RefundType
         && (t.status == TxPosted || (t.status == TxPending && t.key.TxRefund? && Confirmed(ops, OpOf(t.key))))
      then t.amount else 0
  }

  function Exposure(db: Db, p: nat): Money {
    Sum(db.transactions, GivenBack(db.operations, p))
  }

  /** Every refund operation has its transaction row. */
  ghost predicate NoOrphans(db: Db) {
    forall i :: 0 <= i < |db.operations| && db.operations[i].key.RefundKey? ==>
      Find(db.transactions, TxHasKey(TxOf(db.operations[i].key))) >= 0
  }

  // --- steps that leave refunds alone ---

  predicate RefundRowsSame(before: seq<Transaction>, after: seq<Transaction>) {
    && |before| <= |after|
    && (forall i :: 0 <= i < |before| ==>
          after[i].key == before[i].key && (before[i].kind == RefundType || after[i].kind == RefundType ==> after[i] == before[i]))
    && (forall i :: |before| <= i < |after| ==> after[i].kind != RefundType)
  }

  predicate RefundOpsSame(before: seq<Operation>, after: seq<Operation>) {
    && |before| <= |after|
    && (forall i :: 0 <= i < |before| ==>
          after[i].key == before[i].key && (before[i].key.RefundKey? ==> after[i] == before[i]))
    && (forall i :: |before| <= i < |after| ==> !after[i].key.RefundKey?)
  }

  predicate RefundsSame(before: Db, after: Db) {
    RefundRowsSame(before.transactions, after.transactions) && RefundOpsSame(before.operations, after.operations)
  }

  lemma SameConfirmed(before: seq<Operation>, after: seq<Operation>, key: OpKey)
    requires RefundOpsSame(before, after) && key.RefundKey?
    ensures Confirmed(before, key) <==> Confirmed(after, key)
  {
    var i, j := Find(before, ConfirmedAs(key)), Find(after, ConfirmedAs(key));
    if i >= 0 {
      assert ConfirmedAs(key)(after[i]);
    }
    if j >= 0 {
      assert ConfirmedAs(key)(before[j]);
    }
  }

  lemma {:induction false} SumExtends(before: seq<Transaction>, f: Transaction -> int, after: seq<Transaction>, g: Transaction -> int)
    requires |before| <= |after|
    requires forall i :: 0 <= i < |before| ==> g(after[i]) == f(before[i])
    requires forall i :: |before| <= i < |after| ==> g(after[i]) == 0
    ensures Sum(after, g) == Sum(before, f)
    decreases |after|
  {
    if |before| == |after| {
      SumSame(before, f, after, g);
    } else {
      SumExtends(before, f, after[..|after| - 1], g);
    }
  }

  lemma SameExposure(before: Db, after: Db, p: nat)
    requires RefundsSame(before, after)
    ensures Exposure(after, p) == Exposure(before, p)
  {
    hide Sum, Confirmed;
    var f, g := GivenBack(before.operations, p), GivenBack(after.operations, p);
    forall i | 0 <= i < |before.transactions|
      ensures g(after.transactions[i]) == f(before.transactions[i])
    {
      if before.transactions[i].key.TxRefund? {
        SameConfirmed(before.operations, after.operations, OpOf(before.transactions[i].key));
      }
    }
    SumExtends(before.transactions, f, after.transactions, g);
  }

  lemma SameOrphans(before: Db, after: Db)
    requires RefundsSame(before, after) && NoOrphans(before)
    ensures NoOrphans(after)
  {
    forall i | 0 <= i < |after.operations| && after.operations[i].key.RefundKey?
      ensures Find(after.transactions, TxHasKey(TxOf(after.operations[i].key))) >= 0
    {
      assert after.operations[i] == before.operations[i];
      var j := Find(before.transactions, TxHasKey(TxOf(before.operations[i].key)));
      assert TxHasKey(TxOf(after.operations[i].key))(after.transactions[j]);
    }
  }

  /** Filing a capture, or finding it filed, leaves the refund rows alone. */
  lemma CaptureRowsSame(db: Db, row: Transaction)
    requires TxRows(db.requests, db.transactions) && TxRow(db.requests, row)
    requires row.key.TxCapture? || row.key.TxCaptureByEvent?
    ensures var (created, t) := CreateTransaction(db, row);
            && RefundRowsSame(db.transactions, created.transactions) && created.operations == db.operations
            && SetTxStatus(created, t, TxPosted) == created
  {
    hide Sum;
    var (created, t) := CreateTransaction(db, row);
    CreateTxRows(db, row);
    RepostFiling(created, t, 0);
  }

  lemma MarkOpsSame(ops: seq<Operation>, n: nat, p: nat, status: OpStatus)
    requires OpRows(n, ops)
    ensures RefundOpsSame(ops, MarkAll(ops, p, status))
  {
    hide Sum;
    forall i | 0 <= i < |ops|
      ensures ops[i].key.RefundKey? ==> MarkCharge(ops[i], p, status) == ops[i]
    {
      assert OpRow(n, ops[i]);
    }
  }

  lemma SettleSame(db: Db, p: nat, reservation: nat, customer: nat, clearing: nat)
    requires Sound(db) && p < |db.payments|
    ensures RefundsSame(db, SettleUnknown(db, p))
    ensures RefundsSame(db, Commit(db, SettleFailure(db, p, reservation)))
    ensures RefundsSame(db, Commit(db, SettleSuccess(db, p, reservation, db.payments[p].amount, db.payments[p].currency,
                                                     customer, clearing)))
  {
    hide Sum, Find, TxRows, JournalRows, OpRows, HoldRows, CreateTransaction;
    MarkOpsSame(db.operations, |db.payments|, p, OpUnknown);
    MarkOpsSame(db.operations, |db.payments|, p, OpFailed);
    MarkOpsSame(db.operations, |db.payments|, p, OpSucceeded);
    var amount, currency := db.payments[p].amount, db.payments[p].currency;
    var marked := SetChargeStatus(db, p, OpSucceeded);
    if ConsumeHold(marked, reservation).Done? {
      CaptureRowsSame(ConsumeHold(marked, reservation).db, CaptureRow(p, amount, currency, TxCapture(p)));
    }
  }

  lemma FinishSame(db: Db, e: Execution, customer: nat, clearing: nat, outcome: Outcome)
    requires Sound(db) && Faithful(db.requests, e)
    ensures RefundsSame(db, Commit(db, FinishSpec(db, e, customer, clearing, outcome)))
  {
    hide Sum, Find, TxRows, JournalRows, OpRows, HoldRows, SettleUnknown, SettleFailure, SettleSuccess;
    SettleSame(db, e.payment, e.reservation, customer, clearing);
  }

  /** An event changes refund rows only through the refund operation it names. */
  lemma ResolveSame(db: Db, event: nat, op: nat, outcome: Outcome, customer: nat, clearing: nat)
    requires Sound(db)
    ensures var a := ResolveSpec(db, event, op, outcome, customer, clearing);
            a.Done? ==>
              if a.value == Resolved && op < |db.operations| && db.operations[op].key.RefundKey?
              then && a.db.transactions == db.transactions
                   && a.db.operations
                      == db.operations[op := db.operations[op].(status := if outcome == Success then OpSucceeded else OpFailed)]
              else RefundsSame(db, a.db)
  {
    hide Sum, Find, TxRows, JournalRows, HoldRows, CaptureByEvent, ReleaseHold;
    if op < |db.operations| {
      var o := db.operations[op];
      assert OpRow(|db.payments|, o);
      ReleaseKeepsRows(SetOpStatus(db, op, OpFailed), db.requests[o.payment].reservation);
      SetOpSound(db, op, OpSucceeded);
      EventCaptureSame(SetOpStatus(db, op, OpSucceeded), o.payment, db.requests[o.payment].reservation, customer, clearing);
    }
  }

  lemma ReleaseKeepsRows(db: Db, reservation: Option<nat>)
    ensures reservation.Some? && ReleaseHold(db, reservation.value).Done? ==>
              var after := ReleaseHold(db, reservation.value).db;
              after.transactions == db.transactions && after.operations == db.operations
  {
  }

  lemma EventCaptureSame(db: Db, p: nat, reservation: Option<nat>, customer: nat, clearing: nat)
    requires Sound(db) && p < |db.payments|
    ensures var a := CaptureByEvent(db, p, reservation, db.payments[p].amount, db.payments[p].currency, customer, clearing);
            a.Done? ==> RefundRowsSame(db.transactions, a.db.transactions) && a.db.operations == db.operations
  {
    hide Sum, Find, TxRows, JournalRows, OpRows, HoldRows, CreateTransaction;
    if reservation.Some? && ConsumeHold(db, reservation.value).Done? {
      CaptureRowsSame(ConsumeHold(db, reservation.value).db,
                      CaptureRow(p, db.payments[p].amount, db.payments[p].currency, TxCaptureByEvent(p)));
    }
  }

  lemma OtherRowSame(db: Db, row: Transaction)
    requires row.kind != RefundType
    ensures var created := CreateTransaction(db, row).0;
            RefundRowsSame(db.transactions, created.transactions) && created.operations == db.operations
  {
    hide Find;
  }

  lemma RegisterSame(db: Db, p: nat, kind: OpKind, key: OpKey)
    requires !key.RefundKey?
    ensures RefundsSame(db, Commit(db, RegisterOperation(db, p, kind, key)))
  {
    hide Find;
  }

  lemma CardCaptureSame(db: Db, p: nat, amount: Money, currency: Currency, customer: nat, clearing: nat, answer: Outcome)
    ensures RefundsSame(db, Commit(db, CaptureSpec(db, p, amount, currency, customer, clearing, answer)))
  {
    hide Sum, Find, CreateTransaction;
    RegisterSame(db, p, CaptureOp, CaptureKey(p));
    var a := RegisterOperation(db, p, CaptureOp, CaptureKey(p));
    if a.Done? && p < |a.db.payments| {
      OtherRowSame(SetStatus(a.db, p, Failed), Transaction(p, CaptureType, TxFailed, amount, currency, TxCaptureFailed(p)));
      OtherRowSame(a.db, Transaction(p, CaptureType, TxPosted, amount, currency, TxCapture(p)));
    }
  }

  lemma CardVoidSame(db: Db, p: nat, amount: Money, currency: Currency, answer: Outcome)
    ensures RefundsSame(db, Commit(db, VoidSpec(db, p, amount, currency, answer)))
  {
    hide Sum, Find, CreateTransaction;
    if p < |db.payments| {
      RegisterSame(SetStatus(db, p, VoidRequested), p, VoidOp, VoidKey(p));
      var a := RegisterOperation(SetStatus(db, p, VoidRequested), p, VoidOp, VoidKey(p));
      if a.Done? && p < |a.db.payments| {
        OtherRowSame(SetStatus(a.db, p, VoidFailed), Transaction(p, VoidType, TxFailed, amount, currency, TxVoidFailed(p)));
        OtherRowSame(a.db, Transaction(p, VoidType, TxPosted, amount, currency, TxVoid(p)));
      }
    }
  }

  lemma BeginSame(db: Db, p: nat)
    ensures RefundsSame(db, Commit(db, BeginSpec(db, p)))
  {
    hide Sum, Find, RegisterOperation;
    RegisterSame(db, p, ChargeOp, ChargeKey(p));
  }

  // --- steps on refunds ---

  lemma {:induction false} SumChanges(txs: seq<Transaction>, f: Transaction -> int, g: Transaction -> int, j: nat)
    requires j < |txs| && forall i :: 0 <= i < |txs| && i != j ==> f(txs[i]) == g(txs[i])
    ensures Sum(txs, g) == Sum(txs, f) - f(txs[j]) + g(txs[j])
  {
    var last := |txs| - 1;
    if j == last {
      SumSame(txs[..last], f, txs[..last], g);
    } else {
      SumChanges(txs[..last], f, g, j);
    }
  }

  lemma OneOpPerKey(ops: seq<Operation>, n: nat, i: nat, j: nat)
    requires OpRows(n, ops) && i < |ops| && j < |ops| && ops[i].key == ops[j].key
    ensures i == j
  {
    hide Sum;
    if i != j {
      SumAtLeastTwo(ops, OpKeyCount(ops[i].key), if i < j then i else j, if i < j then j else i);
    }
  }

  lemma OneTxPerKey(requests: seq<Request>, txs: seq<Transaction>, i: nat, j: nat)
    requires TxRows(requests, txs) && i < |txs| && j < |txs| && txs[i].key == txs[j].key
    ensures i == j
  {
    hide Sum;
    if i != j {
      SumAtLeastTwo(txs, TxCount(txs[i].key), if i < j then i else j, if i < j then j else i);
    }
  }

  lemma MarkedConfirmed(ops: seq<Operation>, n: nat, op: nat, status: OpStatus, key: OpKey)
    requires OpRows(n, ops) && op < |ops|
    ensures var after := ops[op := ops[op].(status := status)];
            Confirmed(after, key) <==> if key == ops[op].key then status == OpSucceeded else Confirmed(ops, key)
  {
    hide Sum, OpRows;
    var after := ops[op := ops[op].(status := status)];
    var i, j := Find(ops, ConfirmedAs(key)), Find(after, ConfirmedAs(key));
    if i >= 0 && key != ops[op].key {
      assert ConfirmedAs(key)(after[i]);
    }
    if j >= 0 {
      if key == ops[op].key {
        OneOpPerKey(ops, n, op, j);
      } else {
        assert ConfirmedAs(key)(ops[j]);
      }
    }
    assert key == ops[op].key && status == OpSucceeded ==> ConfirmedAs(key)(after[op]);
  }

  /** What the refund behind an operation adds while only the operation says it went out. */
  function Unrecorded(db: Db, key: OpKey): Money
    requires key.RefundKey?
  {
    var j := Find(db.transactions, TxHasKey(TxOf(key)));
    if j >= 0 && db.transactions[j].status == TxPending then Value(key.amount) else 0
  }

  lemma EventExposure(db: Db, op: nat, status: OpStatus, q: nat)
    requires Sound(db) && NoOrphans(db) && op < |db.operations| && db.operations[op].key.RefundKey?
    ensures var o := db.operations[op];
            Exposure(SetOpStatus(db, op, status), q)
            == Exposure(db, q) + if q != o.payment then 0
                                 else (if status == OpSucceeded then Unrecorded(db, o.key) else 0)
                                      - (if o.status == OpSucceeded then Unrecorded(db, o.key) else 0)
    ensures NoOrphans(SetOpStatus(db, op, status))
  {
    hide Sum, Find, TxRows, JournalRows, HoldRows, OpRows, Confirmed;
    var o := db.operations[op];
    assert OpRow(|db.payments|, o) by { OpRowsHold(db, op); }
    var after := SetOpStatus(db, op, status);
    var f, g := GivenBack(db.operations, q), GivenBack(after.operations, q);
    var j := Find(db.transactions, TxHasKey(TxOf(o.key)));
    forall i | 0 <= i < |db.transactions| && i != j
      ensures f(db.transactions[i]) == g(db.transactions[i])
    {
      var key := db.transactions[i].key;
      if key.TxRefund? {
        MarkedConfirmed(db.operations, |db.payments|, op, status, OpOf(key));
        if key == TxOf(o.key) {
          OneTxPerKey(db.requests, db.transactions, i, j);
        }
      }
    }
    SumChanges(db.transactions, f, g, j);
    MarkedConfirmed(db.operations, |db.payments|, op, status, o.key);
    MarkedConfirmed(db.operations, |db.payments|, op, o.status, o.key);
    assert db.operations[op := o.(status := o.status)] == db.operations;
    TxRowHolds(db, j);
    forall i | 0 <= i < |after.operations| && after.operations[i].key.RefundKey?
      ensures Find(after.transactions, TxHasKey(TxOf(after.operations[i].key))) >= 0
    {
      assert after.operations[i].key == db.operations[i].key;
    }
  }

  lemma OpRowsHold(db: Db, op: nat)
    requires Sound(db) && op < |db.operations|
    ensures OpRow(|db.payments|, db.operations[op])
  {
  }

  lemma TxRowHolds(db: Db, t: nat)
    requires Sound(db) && t < |db.transactions|
    ensures TxRow(db.requests, db.transactions[t])
  {
  }

  lemma PendingIsUnconfirmed(ops: seq<Operation>, row: Operation, key: OpKey)
    requires row.status == OpPending
    ensures Confirmed(ops + [row], key) <==> Confirmed(ops, key)
  {
    assert (ops + [row])[..|ops|] == ops;
  }

  /** The rows of a refund once opened. */
  lemma OpenShape(db: Db, p: nat, requested: Amount, currency: Currency)
    requires p < |db.payments| && OpenRefund(db, p, requested, currency).Done?
    ensures var a := OpenRefund(db, p, requested, currency);
            var j := Find(db.transactions, TxHasKey(TxRefund(p, requested, currency)));
            var row := Transaction(p, RefundType, TxPending, Value(requested), currency, TxRefund(p, requested, currency));
            var key := RefundKey(p, requested, currency);
            && a.db.transactions == (if j >= 0 then db.transactions else db.transactions + [row])
            && a.value == (if j >= 0 then j else |db.transactions|)
            && a.db.operations == if Find(db.operations, OpHasKey(key)) >= 0 then db.operations
                                  else db.operations + [Operation(p, RefundOp, key, OpPending)]
  {
    hide Find;
  }

  lemma PostKeepsRows(db: Db, key: JournalKey, currency: Currency, postings: seq<Posting>)
    ensures var after := Commit(db, PostJournal(db, key, currency, postings));
            after.transactions == db.transactions && after.operations == db.operations
  {
  }

  /** Where a refund call that acts leaves its transaction. */
  function AnsweredAs(answer: Outcome): TxStatus {
    match answer
    case Success => TxPosted
    case Failure => TxFailed
    case Unknown => TxPending
  }

  lemma RefundShape(db: Db, p: nat, requested: Amount, currency: Currency, customer: nat, clearing: nat, answer: Outcome)
    requires Sound(db) && RefundSpec(db, p, requested, currency, customer, clearing, answer).Done?
    requires RefundSpec(db, p, requested, currency, customer, clearing, answer).db != db
    ensures var after := RefundSpec(db, p, requested, currency, customer, clearing, answer).db;
            && p < |db.payments| && currency == db.payments[p].currency && OpenRefund(db, p, requested, currency).Done?
            && var open := OpenRefund(db, p, requested, currency);
               var row := Transaction(p, RefundType, TxPending, Value(requested), currency, TxRefund(p, requested, currency));
               && open.db.transactions[open.value] == row
               && after.operations == open.db.operations
               && after.transactions == open.db.transactions[open.value := row.(status := AnsweredAs(answer))]
  {
    hide Sum, Find, TxRows, JournalRows, HoldRows, OpRows, OpenRefund, PostJournal;
    OpenRefundTables(db, p, requested, currency, p);
    var open := OpenRefund(db, p, requested, currency);
    var marked := SetTxStatus(open.db, open.value, TxPosted);
    PostKeepsRows(marked, JRefund(p, requested, currency), currency, Transfer(clearing, customer, Value(requested), currency));
    assert open.db.transactions[open.value := open.db.transactions[open.value]] == open.db.transactions;
  }

  lemma RefundExposure(db: Db, p: nat, requested: Amount, currency: Currency, customer: nat, clearing: nat, answer: Outcome,
                       q: nat)
    requires Sound(db) && NoOrphans(db)
    requires RefundSpec(db, p, requested, currency, customer, clearing, answer).Done?
    requires RefundSpec(db, p, requested, currency, customer, clearing, answer).db != db
    ensures var after := RefundSpec(db, p, requested, currency, customer, clearing, answer).db;
            var amount := if q == p then Value(requested) else 0;
            var was := Confirmed(db.operations, RefundKey(p, requested, currency));
            Exposure(after, q) == Exposure(db, q)
                                  + (if answer == Success || (answer == Unknown && was) then amount else 0)
                                  - (if was then amount else 0)
  {
    hide Sum, Find, TxRows, JournalRows, HoldRows, OpRows, Confirmed, RefundSpec, OpenRefund;
    var key := RefundKey(p, requested, currency);
    var after := RefundSpec(db, p, requested, currency, customer, clearing, answer).db;
    RefundShape(db, p, requested, currency, customer, clearing, answer);
    OpenShape(db, p, requested, currency);
    var f, g := GivenBack(db.operations, q), GivenBack(after.operations, q);
    SameConfirmations(db.operations, after.operations, Operation(p, RefundOp, key, OpPending), after.transactions, q);
    SumSame(after.transactions, f, after.transactions, g);
    var j := Find(db.transactions, TxHasKey(TxRefund(p, requested, currency)));
    var row := Transaction(p, RefundType, AnsweredAs(answer), Value(requested), currency, TxRefund(p, requested, currency));
    if j >= 0 {
      SumUpdate(db.transactions, j, row, f);
    } else {
      NothingConfirmed(db, key);
      assert after.transactions == db.transactions + [row];
      SumAppend(db.transactions, row, f);
    }
  }

  lemma SameConfirmations(before: seq<Operation>, after: seq<Operation>, row: Operation, txs: seq<Transaction>, q: nat)
    requires row.status == OpPending && (after == before || after == before + [row])
    ensures forall i :: 0 <= i < |txs| ==> GivenBack(before, q)(txs[i]) == GivenBack(after, q)(txs[i])
  {
    hide Confirmed;
    forall i | 0 <= i < |txs|
      ensures GivenBack(before, q)(txs[i]) == GivenBack(after, q)(txs[i])
    {
      if txs[i].key.TxRefund? {
        PendingIsUnconfirmed(before, row, OpOf(txs[i].key));
      }
    }
  }

  lemma NothingConfirmed(db: Db, key: OpKey)
    requires NoOrphans(db) && key.RefundKey? && Find(db.transactions, TxHasKey(TxOf(key))) < 0
    ensures !Confirmed(db.operations, key)
  {
  }

  lemma RefundOrphans(db: Db, p: nat, requested: Amount, currency: Currency, customer: nat, clearing: nat, answer: Outcome)
    requires Sound(db) && NoOrphans(db)
    ensures NoOrphans(Commit(db, RefundSpec(db, p, requested, currency, customer, clearing, answer)))
  {
    hide Sum, TxRows, JournalRows, HoldRows, OpRows, RefundSpec, OpenRefund;
    var a := RefundSpec(db, p, requested, currency, customer, clearing, answer);
    if a.Done? && a.db != db {
      RefundShape(db, p, requested, currency, customer, clearing, answer);
      OpenShape(db, p, requested, currency);
      var t := OpenRefund(db, p, requested, currency).value;
      forall i | 0 <= i < |a.db.operations| && a.db.operations[i].key.RefundKey?
        ensures Find(a.db.transactions, TxHasKey(TxOf(a.db.operations[i].key))) >= 0
      {
        var mine := TxHasKey(TxOf(a.db.operations[i].key));
        if i < |db.operations| {
          var j := Find(db.transactions, mine);
          assert a.db.operations[i] == db.operations[i];
          assert mine(a.db.transactions[j]);
        } else {
          assert mine(a.db.transactions[t]);
        }
      }
    }
  }

  // --- every step ---

  /** What the step lets out anew: a refund that goes through and was not out already, or an
      event that confirms a refund still pending. */
  function Added(db: Db, s: Step, p: nat): Money
    requires p < |db.payments|
  {
    if RefundGoesThrough(db, s, p) && !Confirmed(db.operations, RefundKey(p, s.requested, s.currency)) then Value(s.requested)
    else if s.Resolve? && s.outcome == Success && EventApplies(db, s.event, s.operation)
            && db.operations[s.operation].payment == p && db.operations[s.operation].key.RefundKey?
            && db.operations[s.operation].status != OpSucceeded
    then Unrecorded(db, db.operations[s.operation].key)
    else 0
  }

  lemma RefundAdds(w: World, s: Step, p: nat)
    requires Inv(w) && NoOrphans(w.db) && s.Refund? && p < |w.db.payments|
    ensures var after := Commit(w.db, RefundSpec(w.db, s.payment, s.requested, s.currency, s.customer, s.clearing, s.answer));
            && (Added(w.db, s, p) > 0 ==> Exposure(after, p) == Exposure(w.db, p) + Added(w.db, s, p))
            && (Added(w.db, s, p) == 0 ==> Exposure(after, p) <= Exposure(w.db, p))
    ensures Added(w.db, s, p) >= 0
  {
    hide Sum, Find, Sound, AllGood, AllFaithful, ApprovalRows, RefundSpec, Confirmed, Exposure, RefundGoesThrough, NoOrphans;
    var a := RefundSpec(w.db, s.payment, s.requested, s.currency, s.customer, s.clearing, s.answer);
    PaysBackExactlyWhen(w, s, p);
    GoesThroughIsSuccess(w.db, s, p);
    if RefundGoesThrough(w.db, s, p) {
      RefundIsPosted(w.db, p, s.requested, s.currency, s.customer, s.clearing);
    }
    if a.Done? && a.db != w.db {
      RefundExposure(w.db, s.payment, s.requested, s.currency, s.customer, s.clearing, s.answer, p);
    }
  }

  lemma GoesThroughIsSuccess(db: Db, s: Step, p: nat)
    requires p < |db.payments|
    ensures RefundGoesThrough(db, s, p) ==> s.Refund? && s.payment == p && s.answer == Success
  {
    hide Sum, Find;
  }

  lemma EventAdds(w: World, s: Step, p: nat)
    requires Inv(w) && NoOrphans(w.db) && s.Resolve? && p < |w.db.payments|
    ensures var after := Commit(w.db, ResolveSpec(w.db, s.event, s.operation, s.outcome, s.customer, s.clearing));
            && (Added(w.db, s, p) > 0 ==> Exposure(after, p) == Exposure(w.db, p) + Added(w.db, s, p))
            && (Added(w.db, s, p) == 0 ==> Exposure(after, p) <= Exposure(w.db, p))
            && NoOrphans(after)
    ensures Added(w.db, s, p) >= 0
  {
    hide Sum, Find, Sound, AllGood, AllFaithful, ApprovalRows, ResolveSpec, Confirmed, Exposure, NoOrphans;
    var db := w.db;
    var a := ResolveSpec(db, s.event, s.operation, s.outcome, s.customer, s.clearing);
    ResolvedExactlyWhen(db, s.event, s.operation, s.outcome, s.customer, s.clearing);
    ResolveSame(db, s.event, s.operation, s.outcome, s.customer, s.clearing);
    if a.Done? && a.value == Resolved && db.operations[s.operation].key.RefundKey? {
      var status := if s.outcome == Success then OpSucceeded else OpFailed;
      OpRowsHold(db, s.operation);
      EventExposure(db, s.operation, status, p);
      SameTables(SetOpStatus(db, s.operation, status), a.db, p);
    } else if a.Done? {
      SameExposure(db, a.db, p);
      SameOrphans(db, a.db);
    }
  }

  lemma SameTables(a: Db, b: Db, p: nat)
    requires a.transactions == b.transactions && a.operations == b.operations
    ensures Exposure(a, p) == Exposure(b, p) && (NoOrphans(a) <==> NoOrphans(b))
  {
  }

  lemma OtherStepsSame(catalog: seq<PolicyVersion>, w: World, s: Step)
    requires Inv(w) && !s.Refund? && !s.Resolve?
    ensures RefundsSame(w.db, Apply(catalog, w, s).db)
  {
    hide Sum, Find, Sound, AllGood, ApprovalRows, CreateSpec, BirthSpec, ApproveSpec, DenySpec, BeginSpec, FinishSpec,
      CaptureSpec, VoidSpec;
    match s
    case Begin(p) => BeginSame(w.db, p);
    case Charge(_, _) =>
    case ReceiveEvent(_) =>
    case Finish(k, customer, clearing) =>
      if k < |w.workers| && w.workers[k].outcome.Some? {
        FinishSame(w.db, w.workers[k].execution, customer, clearing, w.workers[k].outcome.value);
      }
    case Capture(p, amount, currency, customer, clearing, answer) =>
      CardCaptureSame(w.db, p, amount, currency, customer, clearing, answer);
    case Void(p, amount, currency, answer) => CardVoidSame(w.db, p, amount, currency, answer);
    case _ => AdmissionFrame(catalog, w, s);
  }

  /** Every step lets out exactly what it adds, or, adding nothing, takes back or leaves. */
  lemma StepAdds(catalog: seq<PolicyVersion>, w: World, s: Step, p: nat)
    requires Inv(w) && NoOrphans(w.db) && p < |w.db.payments|
    ensures var after := Apply(catalog, w, s).db;
            && Added(w.db, s, p) >= 0
            && (Added(w.db, s, p) > 0 ==> Exposure(after, p) == Exposure(w.db, p) + Added(w.db, s, p))
            && (Added(w.db, s, p) == 0 ==> Exposure(after, p) <= Exposure(w.db, p))
  {
    hide Sum, Find, Inv, Exposure, NoOrphans, RefundsSame, CreateSpec, BirthSpec, ApproveSpec, DenySpec, BeginSpec, FinishSpec,
      CaptureSpec, VoidSpec, RefundSpec, ResolveSpec;
    if s.Refund? {
      RefundAdds(w, s, p);
    } else if s.Resolve? {
      EventAdds(w, s, p);
    } else {
      GoesThroughIsSuccess(w.db, s, p);
      OtherStepsSame(catalog, w, s);
      SameExposure(w.db, Apply(catalog, w, s).db, p);
    }
  }

  lemma StepOrphans(catalog: seq<PolicyVersion>, w: World, s: Step)
    requires Inv(w) && NoOrphans(w.db)
    ensures NoOrphans(Apply(catalog, w, s).db)
  {
    hide Sum, Find, Exposure, NoOrphans, RefundsSame, CreateSpec, BirthSpec, ApproveSpec, DenySpec, BeginSpec, FinishSpec,
      CaptureSpec, VoidSpec, RefundSpec, ResolveSpec, AllGood, AllFaithful, ApprovalRows;
    match s
    case Refund(p, requested, currency, customer, clearing, answer) =>
      RefundOrphans(w.db, p, requested, currency, customer, clearing, answer);
    case Resolve(event, op, outcome, customer, clearing) =>
      if |w.db.payments| > 0 {
        EventAdds(w, s, 0);
      } else {
        NothingToResolve(w.db, event, op, outcome, customer, clearing);
      }
    case _ =>
      OtherStepsSame(catalog, w, s);
      SameOrphans(w.db, Apply(catalog, w, s).db);
  }

  lemma NothingToResolve(db: Db, event: nat, op: nat, outcome: Outcome, customer: nat, clearing: nat)
    requires db.payments == []
    ensures Commit(db, ResolveSpec(db, event, op, outcome, customer, clearing)) == db
  {
  }

  lemma {:induction false} RunOrphans(catalog: seq<PolicyVersion>, start: World, steps: seq<Step>)
    requires Init(start)
    ensures NoOrphans(Execute(catalog, start, steps).db)
  {
    hide Apply, Inv;
    if steps != [] {
      RunOrphans(catalog, start, steps[..|steps| - 1]);
      Reached(catalog, start, steps[..|steps| - 1]);
      StepOrphans(catalog, Execute(catalog, start, steps[..|steps| - 1]), steps[|steps| - 1]);
    }
  }

  // --- the exposure bound ---

  /** The step lets out something that, with what is out already, exceeds the amount. */
  predicate Overexposes(db: Db, s: Step, p: nat) {
    p < |db.payments| && Added(db, s, p) > 0 && Exposure(db, p) + Added(db, s, p) > db.payments[p].amount
  }

  predicate RunOverexposes(catalog: seq<PolicyVersion>, w: World, steps: seq<Step>, p: nat) {
    steps != []
    && (|| RunOverexposes(catalog, w, steps[..|steps| - 1], p)
        || Overexposes(Execute(catalog, w, steps[..|steps| - 1]).db, steps[|steps| - 1], p))
  }

  /** At every point of the run no more is out than the payment's amount. */
  predicate StaysCovered(catalog: seq<PolicyVersion>, w: World, steps: seq<Step>, p: nat) {
    && (steps != [] ==> StaysCovered(catalog, w, steps[..|steps| - 1], p))
    && var db := Execute(catalog, w, steps).db;
       (p < |db.payments| ==> Exposure(db, p) <= db.payments[p].amount)
  }

  lemma NewIsUnexposed(catalog: seq<PolicyVersion>, w: World, s: Step, p: nat)
    requires Inv(w) && |w.db.payments| <= p < |Apply(catalog, w, s).db.payments|
    ensures var db := Apply(catalog, w, s).db; Exposure(db, p) == 0 < db.payments[p].amount
  {
    hide Sum, Find, Apply, Confirmed, AllGood, AllFaithful, ApprovalRows, JournalRows, OpRows, HoldRows;
    if Executes(s) {
      ExecutionFrame(catalog, w, s);
    }
    AdmissionFrame(catalog, w, s);
    StepSound(catalog, w, s);
    forall i | 0 <= i < |w.db.transactions|
      ensures w.db.transactions[i].payment != p
    {
      assert TxRow(w.db.requests, w.db.transactions[i]);
    }
    SumZero(w.db.transactions, GivenBack(w.db.operations, p));
  }

  lemma AmountStays(catalog: seq<PolicyVersion>, w: World, s: Step, p: nat)
    requires Inv(w) && p < |w.db.payments|
    ensures var after := Apply(catalog, w, s).db; p < |after.payments| && after.payments[p].amount == w.db.payments[p].amount
  {
    hide Sum, Apply, Inv, ViewOf, MoveFor, Moved, Allowed, Good;
    StepMoves(catalog, w, s, p);
    GoodHere(w, p);
    MovesGrow(ViewOf(w.db, p), MoveFor(w, s, p));
    ViewAmount(w.db, p);
    ViewAmount(Apply(catalog, w, s).db, p);
  }

  lemma GoodHere(w: World, p: nat)
    requires Inv(w) && p < |w.db.payments|
    ensures Good(ViewOf(w.db, p))
  {
  }

  lemma ViewAmount(db: Db, p: nat)
    requires p < |db.payments|
    ensures ViewOf(db, p).amount == db.payments[p].amount
  {
  }

  lemma {:induction false} NotYetOverexposed(catalog: seq<PolicyVersion>, start: World, steps: seq<Step>, p: nat)
    requires Init(start) && p >= |Execute(catalog, start, steps).db.payments|
    ensures !RunOverexposes(catalog, start, steps, p) && StaysCovered(catalog, start, steps, p)
  {
    hide Sum, Apply, Inv, Added, Exposure;
    if steps != [] {
      var before := steps[..|steps| - 1];
      Reached(catalog, start, before);
      StepKeepsPayments(catalog, Execute(catalog, start, before), steps[|steps| - 1]);
      NotYetOverexposed(catalog, start, before, p);
    }
  }

  /** Over every run: what has left the provider for a payment, POSTED or only confirmed by an
      event, stays within its amount at every point if and only if no step over-exposed it. */
  lemma {:induction false} CoveredExactlyWhen(catalog: seq<PolicyVersion>, start: World, steps: seq<Step>, p: nat)
    requires Init(start)
    ensures p < |Execute(catalog, start, steps).db.payments| ==>
              (StaysCovered(catalog, start, steps, p) <==> !RunOverexposes(catalog, start, steps, p))
  {
    hide Sum, Apply, Inv, Added, Exposure;
    if steps != [] {
      var before := steps[..|steps| - 1];
      var w := Execute(catalog, start, before);
      var s := steps[|steps| - 1];
      Reached(catalog, start, before);
      RunOrphans(catalog, start, before);
      if p < |w.db.payments| {
        CoveredExactlyWhen(catalog, start, before, p);
        StepAdds(catalog, w, s, p);
        AmountStays(catalog, w, s, p);
        if StaysCovered(catalog, start, before, p) {
          CoveredNow(catalog, start, before, p);
        }
      } else {
        NotYetOverexposed(catalog, start, before, p);
        if p < |Apply(catalog, w, s).db.payments| {
          NewIsUnexposed(catalog, w, s, p);
        }
      }
    }
  }

  lemma CoveredNow(catalog: seq<PolicyVersion>, start: World, steps: seq<Step>, p: nat)
    requires StaysCovered(catalog, start, steps, p) && p < |Execute(catalog, start, steps).db.payments|
    ensures Exposure(Execute(catalog, start, steps).db, p) <= Execute(catalog, start, steps).db.payments[p].amount
  {
    hide Sum, Apply, Exposure;
  }

  /** In minor units: what is out is whole minor units, so it is covered by the amount exactly
      when its minor units are covered by those charged; and it is at least the POSTED refunds. */
  lemma ExposureInMinorUnits(catalog: seq<PolicyVersion>, start: World, steps: seq<Step>, p: nat)
    requires Init(start)
    ensures var db := Execute(catalog, start, steps).db;
            p < |db.payments| ==>
              && Exposure(db, p) % 100 == 0 && Posted(db, p, RefundType) <= Exposure(db, p)
              && (Exposure(db, p) <= db.payments[p].amount <==>
                    Exposure(db, p) / 100 <= ChargeMinor(db.payments[p].amount))
  {
    hide Sum, Apply, Confirmed;
    Reached(catalog, start, steps);
    var db := Execute(catalog, start, steps).db;
    if p < |db.payments| {
      WholeUnits(db.requests, db.transactions, GivenBack(db.operations, p));
      forall i | 0 <= i < |db.transactions|
        ensures PostedOf(p, RefundType)(db.transactions[i]) <= GivenBack(db.operations, p)(db.transactions[i])
      {
        TxRowHolds(db, i);
      }
      SumBelow(db.transactions, PostedOf(p, RefundType), GivenBack(db.operations, p));
      GoodHere(Execute(catalog, start, steps), p);
    }
  }

  lemma {:induction false} WholeUnits(requests: seq<Request>, txs: seq<Transaction>, f: Transaction -> int)
    requires forall i :: 0 <= i < |txs| ==> TxRow(requests, txs[i])
    requires forall i :: 0 <= i < |txs| ==> f(txs[i]) == 0 || (txs[i].kind == RefundType && f(txs[i]) == txs[i].amount)
    ensures Sum(txs, f) % 100 == 0
  {
    if txs != [] {
      WholeUnits(requests, txs[..|txs| - 1], f);
    }
  }

  /** A refund call over-exposes a payment that was not captured past its amount only because
      a confirmed refund is still PENDING, and so not counted in what remains. */
  lemma OverexposingNeedsUnrecorded(db: Db, s: Step, p: nat)
    requires s.Refund? && Overexposes(db, s, p) && Posted(db, p, CaptureType) <= db.payments[p].amount
    ensures Exposure(db, p) > Posted(db, p, RefundType)
  {
    hide Sum, Find;
  }

  // --- a run that does it ---

  const CONFIRM := Resolve(0, 1, Success, 0, 1)
  const AGAIN := Refund(0, Amount(10, 0), "USD", 0, 1, Success)

  const CONFIRMED := Overcapture.NOTIFIED.(
    payments := [Payment(0, 100000, "USD", Succeeded)],
    operations := [Overcapture.CHARGE.(status := OpSucceeded),
                   Operation(0, RefundOp, RefundKey(0, Amount(5, 0), "USD"), OpSucceeded)],
    events := [ProviderEvent(true, true)])

  lemma Confirms()
    ensures Apply(Overcapture.CATALOG, World(Overcapture.NOTIFIED, Overcapture.FINISHED), CONFIRM)
            == World(CONFIRMED, Overcapture.FINISHED)
  {
    hide CaptureByEvent;
    assert SetOpStatus(Overcapture.NOTIFIED, 1, OpSucceeded).operations == CONFIRMED.operations;
  }

  lemma ConfirmedTotals()
    ensures Posted(CONFIRMED, 0, CaptureType) == 100000 && Posted(CONFIRMED, 0, RefundType) == 0
    ensures Exposure(CONFIRMED, 0) == 50000
  {
    var txs := CONFIRMED.transactions;
    var one := [] + [Overcapture.BY_WORKER];
    assert txs == one + [Overcapture.ASKED];
    var g := GivenBack(CONFIRMED.operations, 0);
    assert ConfirmedAs(RefundKey(0, Amount(5, 0), "USD"))(CONFIRMED.operations[1]);
    assert Sum([], g) == 0 && Sum([], PostedOf(0, CaptureType)) == 0 && Sum([], PostedOf(0, RefundType)) == 0;
    SumAppend([], Overcapture.BY_WORKER, g);
    SumAppend([], Overcapture.BY_WORKER, PostedOf(0, CaptureType));
    SumAppend([], Overcapture.BY_WORKER, PostedOf(0, RefundType));
    SumAppend(one, Overcapture.ASKED, g);
    SumAppend(one, Overcapture.ASKED, PostedOf(0, CaptureType));
    SumAppend(one, Overcapture.ASKED, PostedOf(0, RefundType));
  }

  lemma AgainOverexposes()
    ensures Overexposes(CONFIRMED, AGAIN, 0) && Added(CONFIRMED, AGAIN, 0) == 100000
  {
    hide Sum, Posted, Exposure;
    ConfirmedTotals();
    assert Find(CONFIRMED.transactions, TxHasKey(TxRefund(0, Amount(10, 0), "USD"))) == -1;
    assert Find(CONFIRMED.operations, ConfirmedAs(RefundKey(0, Amount(10, 0), "USD"))) == -1;
  }

  /** A refund of 5.00 is answered UNKNOWN and confirmed by an event; a further refund of 10.00
      then goes through for a payment of 10.00. Nothing was captured twice and the POSTED
      refunds are within the amount, but 15.00 has left the provider. */
  lemma ConfirmedRefundOverexposes()
    ensures Init(World(Overcapture.EMPTY, []))
    ensures var db := Execute(Overcapture.CATALOG, World(Overcapture.EMPTY, []), Overcapture.STEPS[..6] + [CONFIRM, AGAIN]).db;
            && |db.payments| > 0 && db.payments[0].amount == 100000
            && Exposure(db, 0) == 150000 && Exposure(db, 0) / 100 > ChargeMinor(db.payments[0].amount)
            && Posted(db, 0, CaptureType) <= 100000 && Posted(db, 0, RefundType) <= 100000
  {
    hide Apply, Sum, Posted, Exposure, Added, RefundGoesThrough;
    var start := World(Overcapture.EMPTY, []);
    var first := Overcapture.STEPS[..6];
    var run := first + [CONFIRM, AGAIN];
    var w := World(CONFIRMED, Overcapture.FINISHED);
    Overcapture.RunNotifies();
    Confirms();
    ConfirmedTotals();
    AgainOverexposes();
    assert run[..|run| - 1] == first + [CONFIRM] && run[|run| - 1] == AGAIN;
    assert (first + [CONFIRM])[..|first|] == first;
    assert Execute(Overcapture.CATALOG, start, first + [CONFIRM]) == w;
    Reached(Overcapture.CATALOG, start, first + [CONFIRM]);
    RunOrphans(Overcapture.CATALOG, start, first + [CONFIRM]);
    StepAdds(Overcapture.CATALOG, w, AGAIN, 0);
    AmountStays(Overcapture.CATALOG, w, AGAIN, 0);
    StepOvercaptures(Overcapture.CATALOG, w, AGAIN, 0);
    StepOverrefunds(Overcapture.CATALOG, w, AGAIN, 0);
  }
}
