/** What each committed operation does to the view of its payment; every other
    payment's view stays as it was. */
module Effects {
  import opened Domain
  import opened Sums
  import opened Repositories
  import opened Ledger
  import opened Orchestrators
  import opened Workers
  import opened Resolvers
  import opened Lifecycles
  import opened Rows
  import opened Consistency
  import opened Views

  // --- row by row ---

  lemma RegisterCalls(db: Db, p: nat, key: OpKey, q: nat)
    requires key.payment == p
    ensures var isNew := Sum(db.operations, OpKeyCount(key)) == 0;
            var a := RegisterOperation(db, p, KindOf(key), key);
            a.Done? ==> CallsOf(a.db.operations, q)
                        == if isNew then WithOp(CallsOf(db.operations, q), Operation(p, KindOf(key), key, OpPending), q)
                           else CallsOf(db.operations, q)
  {
    hide Sum, Find;
    OpLookup(db, key);
    AppendOp(db.operations, Operation(p, KindOf(key), key, OpPending), q);
  }

  lemma CreateFiling(db: Db, row: Transaction, q: nat)
    ensures FilingOf(CreateTransaction(db, row).0.transactions, q)
            == if Sum(db.transactions, TxCount(row.key)) == 0 then WithTx(FilingOf(db.transactions, q), row, q)
               else FilingOf(db.transactions, q)
  {
    hide Sum, Find;
    TxLookup(db, row.key);
    AppendTx(db.transactions, row, q);
  }

  /** A capture row already filed under the key is POSTED, so posting it again
      changes nothing. */
  lemma RepostFiling(db: Db, t: nat, q: nat)
    requires TxRows(db.requests, db.transactions) && t < |db.transactions|
    requires db.transactions[t].key.TxCapture? || db.transactions[t].key.TxCaptureByEvent?
    ensures SetTxStatus(db, t, TxPosted) == db
  {
    assert TxRow(db.requests, db.transactions[t]);
    assert db.transactions[t := db.transactions[t].(status := TxPosted)] == db.transactions;
  }

  function WorkerFiled(f: Filing, amount: Money): Filing {
    if f.byWorker == 0 then f.(byWorker := 1, captured := f.captured + amount) else f
  }

  function EventFiled(f: Filing, amount: Money): Filing {
    if f.byEvent == 0 then f.(byEvent := 1, captured := f.captured + amount) else f
  }

  lemma UpsertFiling(db: Db, p: nat, currency: Currency, q: nat)
    requires TxRows(db.requests, db.transactions) && p < |db.requests| && currency == db.requests[p].currency
    ensures FilingOf(UpsertCapture(db, p, db.requests[p].amount, currency).transactions, q)
            == if q == p then WorkerFiled(FilingOf(db.transactions, q), db.requests[p].amount) else FilingOf(db.transactions, q)
  {
    hide Sum, Find;
    var row := CaptureRow(p, db.requests[p].amount, currency, TxCapture(p));
    CreateFiling(db, row, q);
    CreateTxRows(db, row);
    var (created, t) := CreateTransaction(db, row);
    RepostFiling(created, t, q);
  }

  lemma EventFiling(db: Db, p: nat, currency: Currency, q: nat)
    requires TxRows(db.requests, db.transactions) && p < |db.requests| && currency == db.requests[p].currency
    ensures var row := CaptureRow(p, db.requests[p].amount, currency, TxCaptureByEvent(p));
            var (created, t) := CreateTransaction(db, row);
            FilingOf(SetTxStatus(created, t, TxPosted).transactions, q)
            == if q == p then EventFiled(FilingOf(db.transactions, q), db.requests[p].amount) else FilingOf(db.transactions, q)
  {
    hide Sum, Find;
    var row := CaptureRow(p, db.requests[p].amount, currency, TxCaptureByEvent(p));
    CreateFiling(db, row, q);
    CreateTxRows(db, row);
    var (created, t) := CreateTransaction(db, row);
    RepostFiling(created, t, q);
  }

  lemma ConsumedHold(db: Db, p: nat, q: nat)
    requires HoldRows(db.requests, db.reservations, |db.budgets|) && p < |db.requests| && db.requests[p].reservation.Some?
    ensures var a := ConsumeHold(db, db.requests[p].reservation.value);
            var hold := HoldOf(db.requests, db.reservations, q);
            a.Done? && HoldOf(db.requests, a.db.reservations, q) == if q == p then Spend(hold) else hold
  {
  }

  lemma ReleasedHold(db: Db, p: nat, q: nat)
    requires HoldRows(db.requests, db.reservations, |db.budgets|) && p < |db.requests| && db.requests[p].reservation.Some?
    ensures var a := ReleaseHold(db, db.requests[p].reservation.value);
            var hold := HoldOf(db.requests, db.reservations, q);
            a.Done? && HoldOf(db.requests, a.db.reservations, q) == if q == p then LetGo(hold) else hold
  {
  }

  // --- operation by operation ---

  function AfterBegin(v: View): View {
    v.(status := Processing, calls := v.calls.(charges := if v.calls.charges == 0 then 1 else v.calls.charges))
  }

  lemma BeginView(db: Db, p: nat, q: nat)
    requires Sound(db) && q < |db.payments| && BeginSpec(db, p).Done?
    ensures var a := BeginSpec(db, p);
            && Sound(a.db)
            && db.requests[p].reservation == Some(a.value.reservation)
            && a.value == Execution(p, p, db.payments[p].amount, db.payments[p].currency, a.value.reservation)
            && ViewOf(a.db, q) == if q == p then AfterBegin(ViewOf(db, q)) else ViewOf(db, q)
  {
    hide Sum, Find;
    RegisterSound(db, p, ChargeKey(p));
    RegisterCalls(db, p, ChargeKey(p), q);
    SetStatusSound(RegisterOperation(db, p, ChargeOp, ChargeKey(p)).db, p, Processing);
  }

  function AfterUnknown(v: View): View {
    v.(status := UnknownOutcome, calls := v.calls.(won := 0, lost := 0))
  }

  lemma SettleUnknownView(db: Db, p: nat, q: nat)
    requires Sound(db) && p < |db.payments| && q < |db.payments|
    ensures ViewOf(SettleUnknown(db, p), q) == if q == p then AfterUnknown(ViewOf(db, q)) else ViewOf(db, q)
  {
    hide Sum, Find;
    MarkCharges(db.operations, |db.payments|, p, OpUnknown, q);
  }

  function AfterFailure(v: View): View {
    v.(status := Failed, hold := LetGo(v.hold), calls := v.calls.(won := 0, lost := v.calls.charges))
  }

  lemma SettleFailureView(db: Db, p: nat, q: nat)
    requires Sound(db) && p < |db.payments| && q < |db.payments| && db.requests[p].reservation.Some?
    ensures var a := SettleFailure(db, p, db.requests[p].reservation.value);
            && a.Done?
            && ViewOf(a.db, q) == if q == p then AfterFailure(ViewOf(db, q)) else ViewOf(db, q)
  {
    hide Sum, Find;
    MarkCharges(db.operations, |db.payments|, p, OpFailed, q);
    ReleasedHold(SetChargeStatus(db, p, OpFailed), p, q);
  }

  function FileJournal(journals: int): int {
    if journals == 0 then 1 else journals
  }

  /** The capture as the worker files it: under its own transaction key, and under
      the journal key that all paths share. */
  function AfterSuccess(v: View): View {
    View(Succeeded, Spend(v.hold), v.amount, WorkerFiled(v.filing, v.amount),
         v.calls.(won := v.calls.charges, lost := 0), FileJournal(v.journals))
  }

  /** The rows a successful finalize writes once the charge is marked. */
  lemma FiledSuccess(db: Db, p: nat, customer: nat, clearing: nat, q: nat)
    requires Sound(db) && p < |db.payments| && q < |db.payments| && db.requests[p].reservation.Some?
    ensures var amount, currency := db.payments[p].amount, db.payments[p].currency;
            var consumed := ConsumeHold(db, db.requests[p].reservation.value);
            && consumed.Done?
            && var captured := UpsertCapture(consumed.db, p, amount, currency);
               var a := PostJournal(captured, JCapture(p), currency, Transfer(customer, clearing, amount, currency));
               var v := ViewOf(db, q);
               && a.Done? && a.db.payments == db.payments
               && ViewOf(a.db, q) == if q != p then v
                                     else v.(hold := Spend(v.hold), filing := WorkerFiled(v.filing, v.amount),
                                             journals := FileJournal(v.journals))
  {
    hide Sum, Find, JournalRows, OpRows, CallsOf;
    var amount, currency := db.payments[p].amount, db.payments[p].currency;
    ConsumedHold(db, p, q);
    var consumed := ConsumeHold(db, db.requests[p].reservation.value).db;
    UpsertFiling(consumed, p, currency, q);
    var captured := UpsertCapture(consumed, p, amount, currency);
    TransferAccepted(captured, JCapture(p), customer, clearing, amount, currency);
    PostCounts(captured, JCapture(p), currency, Transfer(customer, clearing, amount, currency), JCapture(q));
  }

  lemma SettleSuccessView(db: Db, p: nat, customer: nat, clearing: nat, q: nat)
    requires Sound(db) && p < |db.payments| && q < |db.payments| && db.requests[p].reservation.Some?
    ensures var a := SettleSuccess(db, p, db.requests[p].reservation.value, db.payments[p].amount, db.payments[p].currency,
                                   customer, clearing);
            && a.Done?
            && ViewOf(a.db, q) == if q == p then AfterSuccess(ViewOf(db, q)) else ViewOf(db, q)
  {
    hide Sum, Find, JournalRows, TxRows, HoldRows, ConsumeHold, UpsertCapture, PostJournal, FilingOf, CallsOf, HoldOf;
    MarkCharges(db.operations, |db.payments|, p, OpSucceeded, q);
    SetChargeSound(db, p, OpSucceeded);
    FiledSuccess(SetChargeStatus(db, p, OpSucceeded), p, customer, clearing, q);
  }

  /** What an event records on the operation it names; `was` is what stood there. */
  function Recorded(c: Calls, was: OpStatus, status: OpStatus): Calls {
    c.(won := c.won - One(was == OpSucceeded) + One(status == OpSucceeded),
       lost := c.lost - One(was == OpFailed) + One(status == OpFailed))
  }

  function AfterEventSuccess(v: View, was: OpStatus): View {
    View(Succeeded, Spend(v.hold), v.amount, EventFiled(v.filing, v.amount), Recorded(v.calls, was, OpSucceeded),
         FileJournal(v.journals))
  }

  function AfterEventFailure(v: View, was: OpStatus): View {
    v.(status := Failed, hold := LetGo(v.hold), calls := Recorded(v.calls, was, OpFailed))
  }

  lemma CaptureByEventTables(db: Db, p: nat, customer: nat, clearing: nat, q: nat)
    requires Sound(db) && p < |db.payments| && q < |db.payments| && db.requests[p].reservation.Some?
    ensures var a := CaptureByEvent(db, p, db.requests[p].reservation, db.payments[p].amount, db.payments[p].currency,
                                    customer, clearing);
            var v := ViewOf(db, q);
            && a.Done? && a.db.payments == db.payments
            && ViewOf(a.db, q) == if q != p then v
                                  else View(v.status, Spend(v.hold), v.amount, EventFiled(v.filing, v.amount), v.calls,
                                            FileJournal(v.journals))
  {
    hide Sum, Find;
    var amount, currency := db.payments[p].amount, db.payments[p].currency;
    ConsumedHold(db, p, q);
    var consumed := ConsumeHold(db, db.requests[p].reservation.value).db;
    EventFiling(consumed, p, currency, q);
    var created := CreateTransaction(consumed, CaptureRow(p, amount, currency, TxCaptureByEvent(p))).0;
    TransferAccepted(created, JCapture(p), customer, clearing, amount, currency);
    PostCounts(created, JCapture(p), currency, Transfer(customer, clearing, amount, currency), JCapture(q));
  }

  /** A successful event: for a charge it captures; for any other operation it
      moves the payment status and nothing else. */
  lemma EventSuccessView(db: Db, op: nat, p: nat, customer: nat, clearing: nat, q: nat)
    requires op < |db.operations| && db.operations[op].payment == p < |db.payments| && p < |db.requests|
    requires db.payments[p].request == p
    requires Sound(db) && q < |db.payments|
    requires EventSuccess(db, op, customer, clearing).Done?
    ensures var o := db.operations[op];
            var v := ViewOf(db, q);
            ViewOf(EventSuccess(db, op, customer, clearing).db, q)
            == if q != p then v
               else if o.kind == ChargeOp then AfterEventSuccess(v, o.status)
               else v.(status := Succeeded)
  {
    hide Sum, Find;
    var o := db.operations[op];
    assert OpRow(|db.payments|, o);
    SetOpSound(db, op, OpSucceeded);
    MarkOp(db.operations, op, OpSucceeded, q);
    if o.kind == ChargeOp {
      CaptureByEventTables(SetOpStatus(db, op, OpSucceeded), p, customer, clearing, q);
    }
  }

  lemma EventFailureView(db: Db, op: nat, q: nat)
    requires Sound(db) && op < |db.operations| && q < |db.payments|
    ensures EventFailure(db, op).Done?
    ensures var o := db.operations[op];
            var v := ViewOf(db, q);
            ViewOf(EventFailure(db, op).db, q)
            == if q != o.payment then v
               else if o.kind == ChargeOp then AfterEventFailure(v, o.status)
               else v.(status := Failed)
  {
    hide Sum, Find;
    var o := db.operations[op];
    assert OpRow(|db.payments|, o);
    MarkOp(db.operations, op, OpFailed, q);
    if o.kind == ChargeOp && db.requests[o.payment].reservation.Some? {
      ReleasedHold(SetOpStatus(db, op, OpFailed), o.payment, q);
    }
  }

  function AfterCapture(v: View, answer: Outcome): View {
    var called := v.(calls := v.calls.(cardOps := v.calls.cardOps + 1));
    match answer
    case Unknown => called.(status := UnknownOutcome)
    case Failure => called.(status := Failed)
    case Success =>
      called.(status := Succeeded, filing := WorkerFiled(v.filing, v.amount), journals := FileJournal(v.journals))
  }

  lemma CaptureView(db: Db, p: nat, amount: Money, currency: Currency, customer: nat, clearing: nat, answer: Outcome, q: nat)
    requires Sound(db) && p < |db.payments| && q < |db.payments|
    requires db.payments[p].status == Authorized && CallsOf(db.operations, p).cardOps == 0
    requires CaptureSpec(db, p, amount, currency, customer, clearing, answer).Done?
    ensures ViewOf(CaptureSpec(db, p, amount, currency, customer, clearing, answer).db, q)
            == if q == p then AfterCapture(ViewOf(db, q), answer) else ViewOf(db, q)
  {
    hide Sum, Find, TxRows, JournalRows, HoldRows, OpRows, HoldOf, FileCapture;
    OpLookup(db, CaptureKey(p));
    OpLookup(db, VoidKey(p));
    RegisterCalls(db, p, CaptureKey(p), q);
    var registered := RegisterOperation(db, p, CaptureOp, CaptureKey(p)).db;
    match answer
    case Unknown =>
    case Failure =>
      CreateFiling(SetStatus(registered, p, Failed),
                   Transaction(p, CaptureType, TxFailed, amount, currency, TxCaptureFailed(p)), q);
    case Success =>
      FileCaptureView(registered, p, amount, currency, customer, clearing, q);
  }

  lemma FileCaptureView(db: Db, p: nat, amount: Money, currency: Currency, customer: nat, clearing: nat, q: nat)
    requires p < |db.payments| && q < |db.payments| && amount > 0
    ensures FileCapture(db, p, amount, currency, customer, clearing).Done?
    ensures var v := ViewOf(db, q);
            ViewOf(FileCapture(db, p, amount, currency, customer, clearing).db, q)
            == if q != p then v
               else v.(status := Succeeded, filing := WorkerFiled(v.filing, amount), journals := FileJournal(v.journals))
  {
    hide Sum, Find;
    var row := Transaction(p, CaptureType, TxPosted, amount, currency, TxCapture(p));
    CreateFiling(db, row, q);
    var created := CreateTransaction(db, row).0;
    TransferAccepted(created, JCapture(p), customer, clearing, amount, currency);
    PostCounts(created, JCapture(p), currency, Transfer(customer, clearing, amount, currency), JCapture(q));
  }

  function AfterVoid(v: View, answer: Outcome): View {
    var called := v.(calls := v.calls.(cardOps := v.calls.cardOps + 1));
    match answer
    case Unknown => called.(status := UnknownOutcome)
    case Failure => called.(status := VoidFailed)
    case Success =>
      called.(status := Voided, filing := v.filing.(voids := if v.filing.voids == 0 then 1 else v.filing.voids))
  }

  lemma VoidView(db: Db, p: nat, amount: Money, currency: Currency, answer: Outcome, q: nat)
    requires Sound(db) && p < |db.payments| && q < |db.payments|
    requires db.payments[p].status == Authorized && CallsOf(db.operations, p).cardOps == 0
    requires VoidSpec(db, p, amount, currency, answer).Done?
    ensures ViewOf(VoidSpec(db, p, amount, currency, answer).db, q)
            == if q == p then AfterVoid(ViewOf(db, q), answer) else ViewOf(db, q)
  {
    hide Sum, Find, TxRows, JournalRows, HoldRows, OpRows, HoldOf;
    OpLookup(db, CaptureKey(p));
    OpLookup(db, VoidKey(p));
    var asked := SetStatus(db, p, VoidRequested);
    RegisterCalls(asked, p, VoidKey(p), q);
    var registered := RegisterOperation(asked, p, VoidOp, VoidKey(p)).db;
    match answer
    case Unknown =>
    case Failure =>
      CreateFiling(SetStatus(registered, p, VoidFailed),
                   Transaction(p, VoidType, TxFailed, amount, currency, TxVoidFailed(p)), q);
    case Success =>
      TxLookup(db, TxVoid(p));
      CreateFiling(registered, Transaction(p, VoidType, TxPosted, amount, currency, TxVoid(p)), q);
  }

  /** A refund adds at most one operation row and, if posted, its amount. */
  function AfterRefund(v: View, amount: Money, isNew: bool, answer: Outcome): View {
    var called := v.(calls := v.calls.(refunds := v.calls.refunds + One(isNew)));
    match answer
    case Unknown => called.(status := UnknownOutcome)
    case Failure => called.(status := RefundFailed)
    case Success =>
      called.(status := if v.filing.captured - v.filing.refunded - amount == 0 then Refunded else Succeeded,
              filing := v.filing.(refunded := v.filing.refunded + amount))
  }

  /** The refund's transaction row, found or new, is pending and weighs nothing yet. */
  lemma OpenRefundTables(db: Db, p: nat, requested: Amount, currency: Currency, q: nat)
    requires Sound(db) && p < |db.payments| && q < |db.payments| && currency == db.payments[p].currency
    requires OpenRefund(db, p, requested, currency).Done?
    requires var i := Find(db.transactions, TxHasKey(TxRefund(p, requested, currency)));
             i < 0 || db.transactions[i].status == TxPending
    ensures var a := OpenRefund(db, p, requested, currency);
            var v := ViewOf(db, q);
            var isNew := Sum(db.operations, OpKeyCount(RefundKey(p, requested, currency))) == 0;
            && Value(requested) > 0
            && a.db.transactions[a.value] == Transaction(p, RefundType, TxPending, Value(requested), currency,
                                                         TxRefund(p, requested, currency))
            && ViewOf(a.db, q) == if q != p then v
                                  else v.(status := RefundProcessing,
                                          calls := v.calls.(refunds := v.calls.refunds + One(isNew)))
  {
    hide Sum, Find, HoldRows, OpRows, JournalRows, TxRows;
    var key := RefundKey(p, requested, currency);
    var asked := SetStatus(db, p, RefundProcessing);
    RegisterCalls(asked, p, key, q);
    var registered := RegisterOperation(asked, p, RefundOp, key).db;
    var row := Transaction(p, RefundType, TxPending, Value(requested), currency, TxRefund(p, requested, currency));
    CreateFiling(registered, row, q);
    OpenRefundSound(db, p, requested, currency);
    var a := OpenRefund(db, p, requested, currency);
    assert TxRow(db.requests, a.db.transactions[a.value].(status := TxPosted));
  }

  lemma ApplyRefundView(db: Db, p: nat, requested: Amount, currency: Currency, customer: nat, clearing: nat,
                        answer: Outcome, q: nat)
    requires Sound(db) && p < |db.payments| && q < |db.payments| && currency == db.payments[p].currency
    requires var i := Find(db.transactions, TxHasKey(TxRefund(p, requested, currency)));
             i < 0 || db.transactions[i].status == TxPending
    requires ApplyRefund(db, p, requested, currency, customer, clearing, answer,
                         Posted(db, p, CaptureType) - Posted(db, p, RefundType)).Done?
    ensures var refundable := Posted(db, p, CaptureType) - Posted(db, p, RefundType);
            var isNew := Sum(db.operations, OpKeyCount(RefundKey(p, requested, currency))) == 0;
            ViewOf(ApplyRefund(db, p, requested, currency, customer, clearing, answer, refundable).db, q)
            == if q == p then AfterRefund(ViewOf(db, q), Value(requested), isNew, answer) else ViewOf(db, q)
  {
    hide Sum, Find, PostRefund, OpenRefund, TxRows, JournalRows, HoldRows, OpRows;
    OpenRefundTables(db, p, requested, currency, q);
    var a := OpenRefund(db, p, requested, currency);
    var row := a.db.transactions[a.value];
    match answer
    case Unknown =>
    case Failure => ReplaceTx(a.db.transactions, a.value, row.(status := TxFailed), q);
    case Success =>
      PostRefundView(a.db, p, a.value, requested, currency, customer, clearing,
                     Posted(db, p, CaptureType) - Posted(db, p, RefundType), q);
  }

  lemma PostRefundView(db: Db, p: nat, t: nat, requested: Amount, currency: Currency, customer: nat, clearing: nat,
                       refundable: Money, q: nat)
    requires p < |db.payments| && q < |db.payments| && t < |db.transactions| && Value(requested) > 0
    requires db.transactions[t] == Transaction(p, RefundType, TxPending, Value(requested), currency,
                                               TxRefund(p, requested, currency))
    ensures PostRefund(db, p, t, requested, currency, customer, clearing, refundable).Done?
    ensures var v := ViewOf(db, q);
            ViewOf(PostRefund(db, p, t, requested, currency, customer, clearing, refundable).db, q)
            == if q != p then v
               else v.(status := if refundable - Value(requested) == 0 then Refunded else Succeeded,
                       filing := v.filing.(refunded := v.filing.refunded + Value(requested)))
  {
    hide Sum, Find;
    ReplaceTx(db.transactions, t, db.transactions[t].(status := TxPosted), q);
    var amount := Value(requested);
    var marked := SetTxStatus(db, t, TxPosted);
    TransferAccepted(marked, JRefund(p, requested, currency), clearing, customer, amount, currency);
    PostCounts(marked, JRefund(p, requested, currency), currency, Transfer(clearing, customer, amount, currency), JCapture(q));
  }

  /** A refund call either answers from the record or is within what remains. */
  lemma RefundView(db: Db, p: nat, requested: Amount, currency: Currency, customer: nat, clearing: nat, answer: Outcome, q: nat)
    requires Sound(db) && p < |db.payments| && q < |db.payments|
    requires RefundSpec(db, p, requested, currency, customer, clearing, answer).Done?
    ensures var a := RefundSpec(db, p, requested, currency, customer, clearing, answer);
            var isNew := Sum(db.operations, OpKeyCount(RefundKey(p, requested, currency))) == 0;
            || a.db == db
            || (&& Refundable(db.payments[p].status)
                && 0 < Value(requested) <= Posted(db, p, CaptureType) - Posted(db, p, RefundType)
                && ViewOf(a.db, q)
                   == if q == p then AfterRefund(ViewOf(db, q), Value(requested), isNew, answer) else ViewOf(db, q))
  {
    hide Sum, Find;
    var a := RefundSpec(db, p, requested, currency, customer, clearing, answer);
    var existing := Find(db.transactions, TxHasKey(TxRefund(p, requested, currency)));
    if existing >= 0 && db.transactions[existing].status != TxPending {
      assert a.db == db;
    } else {
      assert a == ApplyRefund(db, p, requested, currency, customer, clearing, answer,
                              Posted(db, p, CaptureType) - Posted(db, p, RefundType));
      ApplyRefundView(db, p, requested, currency, customer, clearing, answer, q);
    }
  }
}
