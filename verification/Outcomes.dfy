/** What each outcome of a charge, an event, a capture, a void or a refund leaves in every
    table, given the rows it found. The rows are written out, not the operations that write them. */
module Outcomes {
  import opened Domain
  import opened Sums
  import opened Repositories
  import opened Ledger
  import opened Orchestrators
  import opened Workers
  import opened Resolvers
  import opened Lifecycles
  import opened Rows
  import opened Consistency
  import opened Steps
  import opened Guards
  import opened Flows

  /** The rows with this one among them, in the place of the row under its key if there is one. */
  function Refiled(txs: seq<Transaction>, row: Transaction): (after: seq<Transaction>) {
    if exists i :: 0 <= i < |txs| && txs[i].key == row.key
    then seq(|txs|, i requires 0 <= i < |txs| => if txs[i].key == row.key then row else txs[i])
    else txs + [row]
  }

  /** The operation under the key, pending if it is new. */
  function Asked(ops: seq<Operation>, p: nat, kind: OpKind, key: OpKey): seq<Operation> {
    if exists i :: 0 <= i < |ops| && ops[i].key == key then ops else ops + [Operation(p, kind, key, OpPending)]
  }

  /** The payment's charges in this status, all other operations as they were. */
  function Charged(ops: seq<Operation>, p: nat, status: OpStatus): seq<Operation> {
    seq(|ops|, i requires 0 <= i < |ops| =>
      if ops[i].payment == p && ops[i].kind == ChargeOp then Operation(p, ChargeOp, ops[i].key, status) else ops[i])
  }

  /** A hold that is still held, spent or let go; any other is left alone. */
  function Ended(db: Db, r: nat, spent: bool): Db
    requires r < |db.reservations| && db.reservations[r].budget < |db.budgets|
  {
    var hold := db.reservations[r];
    var b := db.budgets[hold.budget];
    if hold.status != Reserved then db
    else db.(reservations := db.reservations[r := Reservation(hold.budget, hold.request, hold.amount,
                                                              if spent then Consumed else Released)],
             budgets := db.budgets[hold.budget := Budget(b.account, b.currency, b.active, b.policy, b.limit,
                                                         if spent then b.consumed + hold.amount else b.consumed,
                                                         b.reserved - hold.amount)])
  }

  lemma HoldEnds(db: Db, r: nat)
    requires r < |db.reservations| && db.reservations[r].budget < |db.budgets|
    ensures ConsumeHold(db, r) == Done(Ended(db, r, true), ())
    ensures ReleaseHold(db, r) == Done(Ended(db, r, false), ())
  {
  }

  lemma CreateRefiles(db: Db, row: Transaction, status: TxStatus)
    requires Sound(db)
    requires forall i :: 0 <= i < |db.transactions| && db.transactions[i].key == row.key ==>
                           db.transactions[i].(status := row.status) == row
    ensures var (created, t) := CreateTransaction(db, row);
            SetTxStatus(created, t, status) == db.(transactions := Refiled(db.transactions, row.(status := status)))
  {
    hide Sum, JournalRows, HoldRows, OpRows;
    var i := Find(db.transactions, TxHasKey(row.key));
    var txs := db.transactions;
    if i < 0 {
      assert forall k :: 0 <= k < |txs| ==> !TxHasKey(row.key)(txs[k]);
    } else {
      assert txs[i].key == row.key;
      forall k | 0 <= k < |txs| && txs[k].key == row.key
        ensures k == i
      {
        if k != i {
          SumAtLeastTwo(txs, TxCount(row.key), if k < i then k else i, if k < i then i else k);
        }
      }
    }
  }

  lemma RegisterAsks(db: Db, p: nat, key: OpKey)
    requires Sound(db) && p < |db.payments| && key.payment == p
    ensures var a := RegisterOperation(db, p, KindOf(key), key);
            a.Done? && a.db == db.(operations := Asked(db.operations, p, KindOf(key), key))
  {
    hide Sum, TxRows, JournalRows, HoldRows;
    RegisterSound(db, p, key);
    var i := Find(db.operations, OpHasKey(key));
    if i >= 0 {
      assert db.operations[i].key == key;
    } else {
      assert forall k :: 0 <= k < |db.operations| ==> !OpHasKey(key)(db.operations[k]);
    }
  }

  // --- a worker's finalize ---

  /** A worker's outcome on a payment that is open. */
  function Finalized(db: Db, e: Execution, customer: nat, clearing: nat, outcome: Outcome): Db
    requires e.payment < |db.payments| && e.reservation < |db.reservations|
    requires db.reservations[e.reservation].budget < |db.budgets|
  {
    var p := e.payment;
    var row := db.payments[p];
    match outcome
    case Unknown =>
      db.(operations := Charged(db.operations, p, OpUnknown),
          payments := db.payments[p := row.(status := UnknownOutcome)],
          outbox := db.outbox + [OutboxRow(p, PaymentOutcomeUnknown)])
    case Failure =>
      Ended(db, e.reservation, false).(
        operations := Charged(db.operations, p, OpFailed),
        payments := db.payments[p := row.(status := Failed)],
        outbox := db.outbox + [OutboxRow(p, PaymentFailed)])
    case Success =>
      Ended(db, e.reservation, true).(
        operations := Charged(db.operations, p, OpSucceeded),
        transactions := Refiled(db.transactions, Transaction(p, CaptureType, TxPosted, row.amount, row.currency, TxCapture(p))),
        journals := Filed(db.journals, JCapture(p), row.currency, customer, clearing, row.amount),
        payments := db.payments[p := row.(status := Succeeded)],
        outbox := db.outbox + [OutboxRow(p, PaymentSucceeded(row.amount, row.currency))])
  }

  /** All that a worker's last transaction does: on an open payment its outcome's rows, else nothing. */
  lemma FinishInFull(db: Db, e: Execution, customer: nat, clearing: nat, outcome: Outcome)
    requires Sound(db) && Faithful(db.requests, e)
    ensures e.reservation < |db.reservations| && db.reservations[e.reservation].budget < |db.budgets|
    ensures var status := db.payments[e.payment].status;
            Commit(db, FinishSpec(db, e, customer, clearing, outcome))
            == if status == Processing || (status == UnknownOutcome && outcome != Unknown)
               then Finalized(db, e, customer, clearing, outcome) else db
  {
    hide Sum, Find, TxRows, JournalRows, OpRows, SettleUnknown, SettleFailure, SettleSuccess, Ended, Charged, Refiled, Filed;
    UnknownInFull(db, e, customer, clearing);
    FailureInFull(db, e, customer, clearing);
    SuccessInFull(db, e, customer, clearing);
  }

  lemma MarkedIsCharged(ops: seq<Operation>, p: nat, status: OpStatus)
    ensures MarkAll(ops, p, status) == Charged(ops, p, status)
  {
  }

  lemma UnknownInFull(db: Db, e: Execution, customer: nat, clearing: nat)
    requires Sound(db) && Faithful(db.requests, e)
    requires e.reservation < |db.reservations| && db.reservations[e.reservation].budget < |db.budgets|
    ensures SettleUnknown(db, e.payment) == Finalized(db, e, customer, clearing, Unknown)
  {
    hide Sum, Find, TxRows, JournalRows, OpRows, HoldRows, MarkAll, Charged, Refiled, Filed;
    MarkedIsCharged(db.operations, e.payment, OpUnknown);
  }

  lemma FailureInFull(db: Db, e: Execution, customer: nat, clearing: nat)
    requires Sound(db) && Faithful(db.requests, e)
    requires e.reservation < |db.reservations| && db.reservations[e.reservation].budget < |db.budgets|
    ensures SettleFailure(db, e.payment, e.reservation) == Done(Finalized(db, e, customer, clearing, Failure), Failed)
  {
    hide Sum, Find, TxRows, JournalRows, OpRows, HoldRows, MarkAll, Charged, Refiled, Filed, ReleaseHold;
    MarkedIsCharged(db.operations, e.payment, OpFailed);
    HoldEnds(SetChargeStatus(db, e.payment, OpFailed), e.reservation);
  }

  lemma SuccessInFull(db: Db, e: Execution, customer: nat, clearing: nat)
    requires Sound(db) && Faithful(db.requests, e)
    requires e.reservation < |db.reservations| && db.reservations[e.reservation].budget < |db.budgets|
    ensures SettleSuccess(db, e.payment, e.reservation, e.amount, e.currency, customer, clearing)
            == Done(Finalized(db, e, customer, clearing, Success), Succeeded)
  {
    hide Sum, Find, TxRows, JournalRows, OpRows, HoldRows, MarkAll, Charged, Refiled, Filed, ConsumeHold, CreateTransaction,
      PostJournal;
    var p := e.payment;
    var row := db.payments[p];
    MarkedIsCharged(db.operations, p, OpSucceeded);
    var marked := SetChargeStatus(db, p, OpSucceeded);
    HoldEnds(marked, e.reservation);
    SetChargeSound(db, p, OpSucceeded);
    HoldsSound(marked, e.reservation);
    var consumed := ConsumeHold(marked, e.reservation).db;
    CaptureRefiles(consumed, p, TxCapture(p));
    PostFiles(UpsertCapture(consumed, p, row.amount, row.currency), JCapture(p), row.currency, customer, clearing, row.amount);
  }

  lemma CaptureRefiles(db: Db, p: nat, key: TxKey)
    requires Sound(db) && p < |db.payments| && (key == TxCapture(p) || key == TxCaptureByEvent(p))
    ensures var row := Transaction(p, CaptureType, TxPosted, db.payments[p].amount, db.payments[p].currency, key);
            var (created, t) := CreateTransaction(db, row);
            && SetTxStatus(created, t, TxPosted) == db.(transactions := Refiled(db.transactions, row))
            && created == db.(transactions := Refiled(db.transactions, row))
  {
    hide Sum, JournalRows, OpRows, HoldRows, Refiled, CreateTransaction;
    var row := Transaction(p, CaptureType, TxPosted, db.payments[p].amount, db.payments[p].currency, key);
    forall i | 0 <= i < |db.transactions| && db.transactions[i].key == key
      ensures db.transactions[i] == row
    {
      assert TxRow(db.requests, db.transactions[i]);
    }
    CreateRefiles(db, row, TxPosted);
    CreatedHasRow(db, row);
  }

  lemma CreatedHasRow(db: Db, row: Transaction)
    requires forall i :: 0 <= i < |db.transactions| && db.transactions[i].key == row.key ==> db.transactions[i] == row
    ensures var (created, t) := CreateTransaction(db, row); SetTxStatus(created, t, row.status) == created
  {
  }

  /** All that a worker's first transaction does: one charge operation, and PROCESSING from
      whatever the status was. */
  lemma BeginInFull(db: Db, p: nat)
    requires Sound(db)
    ensures BeginSpec(db, p)
            == if p >= |db.payments| then Raised(NotFound)
               else if db.requests[p].reservation.None? then Raised(NoReservation)
               else Done(db.(operations := Asked(db.operations, p, ChargeOp, ChargeKey(p)),
                             payments := db.payments[p := db.payments[p].(status := Processing)]),
                         Execution(p, p, db.payments[p].amount, db.payments[p].currency, db.requests[p].reservation.value))
  {
    hide Sum, Find, TxRows, JournalRows, HoldRows, OpRows, RegisterOperation, Asked;
    if p < |db.payments| {
      RegisterAsks(db, p, ChargeKey(p));
    }
  }

  // --- a provider event ---

  /** A definite outcome for an operation of an undecided payment. */
  function Heard(db: Db, event: nat, op: nat, outcome: Outcome, customer: nat, clearing: nat): Db
    requires event < |db.events| && op < |db.operations| && db.operations[op].payment < |db.payments|
    requires db.operations[op].payment < |db.requests|
    requires db.operations[op].kind == ChargeOp ==>
               var r := db.requests[db.operations[op].payment].reservation;
               r.Some? && r.value < |db.reservations| && db.reservations[r.value].budget < |db.budgets|
  {
    var o := db.operations[op];
    var p := o.payment;
    var row := db.payments[p];
    var won := outcome == Success;
    var charge := o.kind == ChargeOp;
    (if charge then Ended(db, db.requests[p].reservation.value, won) else db).(
      events := db.events[event := ProviderEvent(true, true)],
      operations := db.operations[op := Operation(p, o.kind, o.key, if won then OpSucceeded else OpFailed)],
      payments := db.payments[p := row.(status := if won then Succeeded else Failed)],
      transactions := if charge && won
        then Refiled(db.transactions, Transaction(p, CaptureType, TxPosted, row.amount, row.currency, TxCaptureByEvent(p)))
        else db.transactions,
      journals := if charge && won then Filed(db.journals, JCapture(p), row.currency, customer, clearing, row.amount)
        else db.journals)
  }

  lemma HearingIsDefined(db: Db, event: nat, op: nat)
    requires Sound(db) && AllGood(db) && EventApplies(db, event, op)
    ensures db.operations[op].payment < |db.requests|
    ensures db.operations[op].kind == ChargeOp ==>
              var r := db.requests[db.operations[op].payment].reservation;
              r.Some? && r.value < |db.reservations| && db.reservations[r.value].budget < |db.budgets|
  {
    hide Sum, TxRows, JournalRows, OpRows, AllGood;
    if db.operations[op].kind == ChargeOp {
      ChargeIsReserved(db, op);
    }
  }

  /** All that a delivery does: an applied event's rows, or the event used up and nothing else. */
  lemma ResolveInFull(db: Db, event: nat, op: nat, outcome: Outcome, customer: nat, clearing: nat)
    requires Sound(db) && AllGood(db) && EventApplies(db, event, op) && outcome != Unknown
    ensures db.operations[op].payment < |db.requests|
    ensures db.operations[op].kind == ChargeOp ==>
              var r := db.requests[db.operations[op].payment].reservation;
              r.Some? && r.value < |db.reservations| && db.reservations[r.value].budget < |db.budgets|
    ensures ResolveSpec(db, event, op, outcome, customer, clearing)
            == Done(Heard(db, event, op, outcome, customer, clearing), Resolved)
  {
    hide Sum, Find, TxRows, JournalRows, OpRows, HoldRows, AllGood, EventSuccess, EventFailure, Heard;
    HearingIsDefined(db, event, op);
    ResolvedExactlyWhen(db, event, op, outcome, customer, clearing);
    if outcome == Success {
      EventSuccessInFull(db, event, op, customer, clearing);
    } else {
      EventFailureInFull(db, event, op, customer, clearing);
    }
  }

  lemma EventFailureInFull(db: Db, event: nat, op: nat, customer: nat, clearing: nat)
    requires Sound(db) && AllGood(db) && EventApplies(db, event, op)
    requires db.operations[op].payment < |db.requests|
    requires db.operations[op].kind == ChargeOp ==>
               var r := db.requests[db.operations[op].payment].reservation;
               r.Some? && r.value < |db.reservations| && db.reservations[r.value].budget < |db.budgets|
    ensures var a := EventFailure(db, op);
            a.Done? && MarkProcessed(a.db, event) == Heard(db, event, op, Failure, customer, clearing)
  {
    hide Sum, Find, TxRows, JournalRows, OpRows, HoldRows, AllGood, Ended, ReleaseHold, Refiled, Filed;
    var o := db.operations[op];
    if o.kind == ChargeOp {
      HoldEnds(SetOpStatus(db, op, OpFailed), db.requests[o.payment].reservation.value);
      EndedTouches(db, db, db.requests[o.payment].reservation.value, false);
      EndedTouches(SetOpStatus(db, op, OpFailed), db, db.requests[o.payment].reservation.value, false);
    }
  }

  /** Ending a hold touches its two tables and depends on no other. */
  lemma EndedTouches(a: Db, b: Db, r: nat, spent: bool)
    requires a.reservations == b.reservations && a.budgets == b.budgets
    requires r < |a.reservations| && a.reservations[r].budget < |a.budgets|
    ensures Ended(a, r, spent)
            == a.(reservations := Ended(b, r, spent).reservations, budgets := Ended(b, r, spent).budgets)
  {
  }

  lemma EventSuccessInFull(db: Db, event: nat, op: nat, customer: nat, clearing: nat)
    requires Sound(db) && AllGood(db) && EventApplies(db, event, op)
    requires db.operations[op].payment < |db.requests|
    requires db.operations[op].kind == ChargeOp ==>
               var r := db.requests[db.operations[op].payment].reservation;
               r.Some? && r.value < |db.reservations| && db.reservations[r.value].budget < |db.budgets|
    ensures var a := EventSuccess(db, op, customer, clearing);
            a.Done? && MarkProcessed(a.db, event) == Heard(db, event, op, Success, customer, clearing)
  {
    hide Sum, Find, TxRows, JournalRows, OpRows, HoldRows, AllGood, Ended, CaptureByEvent, Refiled, Filed;
    var o := db.operations[op];
    if o.kind == ChargeOp {
      var marked := SetOpStatus(db, op, OpSucceeded);
      SetOpSound(db, op, OpSucceeded);
      HeardCapture(marked, o.payment, db.requests[o.payment].reservation.value, customer, clearing);
      EndedTouches(marked, db, db.requests[o.payment].reservation.value, true);
      EndedTouches(db, db, db.requests[o.payment].reservation.value, true);
    }
  }

  lemma HeardCapture(db: Db, p: nat, r: nat, customer: nat, clearing: nat)
    requires Sound(db) && p < |db.payments| && r < |db.reservations| && db.reservations[r].budget < |db.budgets|
    ensures var row := db.payments[p];
            CaptureByEvent(db, p, Some(r), row.amount, row.currency, customer, clearing)
            == Done(Ended(db, r, true).(
                      transactions := Refiled(db.transactions, Transaction(p, CaptureType, TxPosted, row.amount, row.currency,
                                                                           TxCaptureByEvent(p))),
                      journals := Filed(db.journals, JCapture(p), row.currency, customer, clearing, row.amount)), ())
  {
    hide Sum, Find, TxRows, JournalRows, OpRows, HoldRows, Ended, ConsumeHold, CreateTransaction, PostJournal, Refiled, Filed;
    var row := db.payments[p];
    HoldEnds(db, r);
    EndedTouches(db, db, r, true);
    HoldsSound(db, r);
    var consumed := ConsumeHold(db, r).db;
    CaptureRefiles(consumed, p, TxCaptureByEvent(p));
    var capture := Transaction(p, CaptureType, TxPosted, row.amount, row.currency, TxCaptureByEvent(p));
    PostFiles(consumed.(transactions := Refiled(db.transactions, capture)), JCapture(p), row.currency, customer, clearing, row.amount);
    FoundPosted(consumed, p);
  }

  /** The capture filed by an event is POSTED already, so marking it so changes nothing. */
  lemma FoundPosted(db: Db, p: nat)
    requires Sound(db) && p < |db.payments|
    ensures var row := CaptureRow(p, db.payments[p].amount, db.payments[p].currency, TxCaptureByEvent(p));
            var (created, t) := CreateTransaction(db, row); created.transactions[t].status == TxPosted
  {
    hide Sum, JournalRows, OpRows, HoldRows;
    var row := CaptureRow(p, db.payments[p].amount, db.payments[p].currency, TxCaptureByEvent(p));
    var i := Find(db.transactions, TxHasKey(row.key));
    if i >= 0 {
      assert TxRow(db.requests, db.transactions[i]);
    }
  }

  // --- the card lifecycle ---

  /** All that a capture of an AUTHORIZED payment does. */
  lemma CaptureInFull(db: Db, p: nat, amount: Money, currency: Currency, customer: nat, clearing: nat, answer: Outcome)
    requires Sound(db)
    ensures Commit(db, CaptureSpec(db, p, amount, currency, customer, clearing, answer))
            == if p >= |db.payments| || db.payments[p].status != Authorized || amount != db.payments[p].amount
                  || currency != db.payments[p].currency || amount % 100 != 0 then db
               else
                 var row := db.payments[p];
                 var asked := db.(operations := Asked(db.operations, p, CaptureOp, CaptureKey(p)));
                 match answer
                 case Unknown => asked.(payments := db.payments[p := row.(status := UnknownOutcome)])
                 case Failure =>
                   asked.(payments := db.payments[p := row.(status := Failed)],
                          transactions := Inserted(db.transactions,
                                               Transaction(p, CaptureType, TxFailed, amount, currency, TxCaptureFailed(p))))
                 case Success =>
                   asked.(payments := db.payments[p := row.(status := Succeeded)],
                          transactions := Inserted(db.transactions,
                                               Transaction(p, CaptureType, TxPosted, amount, currency, TxCapture(p))),
                          journals := Filed(db.journals, JCapture(p), currency, customer, clearing, amount))
  {
    hide Sum, Find, TxRows, JournalRows, OpRows, HoldRows, Asked, RegisterOperation, CreateTransaction, PostJournal, Filed,
      Inserted;
    if p < |db.payments| {
      RegisterAsks(db, p, CaptureKey(p));
      var asked := RegisterOperation(db, p, CaptureOp, CaptureKey(p)).db;
      var posted := Transaction(p, CaptureType, TxPosted, amount, currency, TxCapture(p));
      CreateKeeps(SetStatus(asked, p, Failed), Transaction(p, CaptureType, TxFailed, amount, currency, TxCaptureFailed(p)));
      CreateKeeps(asked, posted);
      if amount > 0 {
        PostFiles(CreateTransaction(asked, posted).0, JCapture(p), currency, customer, clearing, amount);
      }
    }
  }

  /** The rows with this one among them, unless its key is there already. */
  function Inserted(txs: seq<Transaction>, row: Transaction): seq<Transaction> {
    if exists i :: 0 <= i < |txs| && txs[i].key == row.key then txs else txs + [row]
  }

  lemma CreateKeeps(db: Db, row: Transaction)
    ensures CreateTransaction(db, row).0 == db.(transactions := Inserted(db.transactions, row))
  {
    var i := Find(db.transactions, TxHasKey(row.key));
    if i >= 0 {
      assert db.transactions[i].key == row.key;
    } else {
      assert forall k :: 0 <= k < |db.transactions| ==> !TxHasKey(row.key)(db.transactions[k]);
    }
  }

  /** All that a void of an AUTHORIZED payment does. */
  lemma VoidInFull(db: Db, p: nat, amount: Money, currency: Currency, answer: Outcome)
    requires Sound(db)
    ensures Commit(db, VoidSpec(db, p, amount, currency, answer))
            == if p >= |db.payments| || db.payments[p].status != Authorized || amount != db.payments[p].amount
                  || currency != db.payments[p].currency || amount % 100 != 0 then db
               else
                 var row := db.payments[p];
                 var asked := db.(operations := Asked(db.operations, p, VoidOp, VoidKey(p)));
                 match answer
                 case Unknown => asked.(payments := db.payments[p := row.(status := UnknownOutcome)])
                 case Failure =>
                   asked.(payments := db.payments[p := row.(status := VoidFailed)],
                          transactions := Inserted(db.transactions,
                                               Transaction(p, VoidType, TxFailed, amount, currency, TxVoidFailed(p))))
                 case Success =>
                   asked.(payments := db.payments[p := row.(status := Voided)],
                          transactions := Inserted(db.transactions,
                                               Transaction(p, VoidType, TxPosted, amount, currency, TxVoid(p))))
  {
    hide Sum, Find, TxRows, JournalRows, OpRows, HoldRows, Asked, RegisterOperation, CreateTransaction, Inserted;
    if p < |db.payments| {
      var requested := SetStatus(db, p, VoidRequested);
      SetStatusSound(db, p, VoidRequested);
      RegisterAsks(requested, p, VoidKey(p));
      var asked := RegisterOperation(requested, p, VoidOp, VoidKey(p)).db;
      CreateKeeps(SetStatus(asked, p, VoidFailed), Transaction(p, VoidType, TxFailed, amount, currency, TxVoidFailed(p)));
      CreateKeeps(asked, Transaction(p, VoidType, TxPosted, amount, currency, TxVoid(p)));
    }
  }

  /** The refund is allowed, exact, fits in what is left and has not been answered before. */
  predicate RefundActs(db: Db, p: nat, requested: Amount, currency: Currency) {
    && p < |db.payments|
    && (db.payments[p].status == Succeeded || db.payments[p].status == RefundFailed || db.payments[p].status == Refunded)
    && currency == db.payments[p].currency
    && Value(requested) > 0 && Value(requested) % 100 == 0
    && Value(requested) <= Posted(db, p, CaptureType) - Posted(db, p, RefundType)
    && forall i :: 0 <= i < |db.transactions| && db.transactions[i].key == TxRefund(p, requested, currency) ==>
                     db.transactions[i].status == TxPending
  }

  /** All that a refund does. */
  lemma RefundInFull(db: Db, p: nat, requested: Amount, currency: Currency, customer: nat, clearing: nat, answer: Outcome)
    requires Sound(db)
    ensures Commit(db, RefundSpec(db, p, requested, currency, customer, clearing, answer))
            == if !RefundActs(db, p, requested, currency) then db
               else
                 var amount, row := Value(requested), db.payments[p];
                 var left := Posted(db, p, CaptureType) - Posted(db, p, RefundType) - amount;
                 var (status, txStatus) :=
                   match answer
                   case Unknown => (UnknownOutcome, TxStatus.TxPending)
                   case Failure => (RefundFailed, TxStatus.TxFailed)
                   case Success => (if left == 0 then Refunded else Succeeded, TxPosted);
                 db.(operations := Asked(db.operations, p, RefundOp, RefundKey(p, requested, currency)),
                     transactions := Refiled(db.transactions, Transaction(p, RefundType, txStatus, amount, currency,
                                                                          TxRefund(p, requested, currency))),
                     payments := db.payments[p := row.(status := status)],
                     journals := if answer == Success
                       then Filed(db.journals, JRefund(p, requested, currency), currency, clearing, customer, amount)
                       else db.journals)
  {
    hide Sum, Find, TxRows, JournalRows, OpRows, HoldRows, Asked, Refiled, Filed, OpenRefund, PostRefund;
    if p < |db.payments| {
      ActsExactlyWhen(db, p, requested, currency);
      OpenIsDone(db, p, requested, currency);
      if RefundActs(db, p, requested, currency) {
        AppliedInFull(db, p, requested, currency, customer, clearing, answer);
      }
    }
  }

  /** The lookup that answers again finds a row that is not pending, or the refund acts. */
  lemma ActsExactlyWhen(db: Db, p: nat, requested: Amount, currency: Currency)
    requires Sound(db) && p < |db.payments|
    ensures var i := Find(db.transactions, TxHasKey(TxRefund(p, requested, currency)));
            (i < 0 || db.transactions[i].status == TxPending) <==>
              forall k :: 0 <= k < |db.transactions| && db.transactions[k].key == TxRefund(p, requested, currency) ==>
                            db.transactions[k].status == TxPending
  {
    hide Sum, JournalRows, OpRows, HoldRows;
    var key := TxRefund(p, requested, currency);
    var i := Find(db.transactions, TxHasKey(key));
    var txs := db.transactions;
    if i < 0 {
      assert forall k :: 0 <= k < |txs| ==> !TxHasKey(key)(txs[k]);
    } else {
      assert txs[i].key == key;
      forall k | 0 <= k < |txs| && txs[k].key == key
        ensures k == i
      {
        if k != i {
          SumAtLeastTwo(txs, TxCount(key), if k < i then k else i, if k < i then i else k);
        }
      }
    }
  }

  lemma OpenInFull(db: Db, p: nat, requested: Amount, currency: Currency, status: TxStatus)
    requires Sound(db) && RefundActs(db, p, requested, currency)
    ensures var row := Transaction(p, RefundType, TxPending, Value(requested), currency, TxRefund(p, requested, currency));
            var a := OpenRefund(db, p, requested, currency);
            && a.Done?
            && a.db == db.(operations := Asked(db.operations, p, RefundOp, RefundKey(p, requested, currency)),
                           payments := db.payments[p := db.payments[p].(status := RefundProcessing)],
                           transactions := Refiled(db.transactions, row))
            && SetTxStatus(a.db, a.value, status)
               == a.db.(transactions := Refiled(db.transactions, row.(status := status)))
  {
    hide Sum, Find, JournalRows, OpRows, HoldRows, Asked, Refiled, RegisterOperation, CreateTransaction;
    var row := Transaction(p, RefundType, TxPending, Value(requested), currency, TxRefund(p, requested, currency));
    var asked := SetStatus(db, p, RefundProcessing);
    SetStatusSound(db, p, RefundProcessing);
    RegisterAsks(asked, p, RefundKey(p, requested, currency));
    RegisterSound(asked, p, RefundKey(p, requested, currency));
    var registered := RegisterOperation(asked, p, RefundOp, RefundKey(p, requested, currency)).db;
    forall i | 0 <= i < |db.transactions| && db.transactions[i].key == row.key
      ensures db.transactions[i] == row
    {
      assert TxRow(db.requests, db.transactions[i]);
    }
    CreateRefiles(registered, row, TxPending);
    CreateRefiles(registered, row, status);
    CreatedHasRow(registered, row);
  }

  lemma AppliedInFull(db: Db, p: nat, requested: Amount, currency: Currency, customer: nat, clearing: nat, answer: Outcome)
    requires Sound(db) && RefundActs(db, p, requested, currency)
    ensures var amount, row := Value(requested), db.payments[p];
            var refundable := Posted(db, p, CaptureType) - Posted(db, p, RefundType);
            var (status, txStatus) :=
              match answer
              case Unknown => (UnknownOutcome, TxStatus.TxPending)
              case Failure => (RefundFailed, TxStatus.TxFailed)
              case Success => (if refundable - amount == 0 then Refunded else Succeeded, TxPosted);
            var a := ApplyRefund(db, p, requested, currency, customer, clearing, answer, refundable);
            && a.Done?
            && a.db == db.(operations := Asked(db.operations, p, RefundOp, RefundKey(p, requested, currency)),
                           transactions := Refiled(db.transactions, Transaction(p, RefundType, txStatus, amount, currency,
                                                                                TxRefund(p, requested, currency))),
                           payments := db.payments[p := row.(status := status)],
                           journals := if answer == Success
                             then Filed(db.journals, JRefund(p, requested, currency), currency, clearing, customer, amount)
                             else db.journals)
  {
    hide Sum, Find, Sound, Asked, Refiled, Filed, OpenRefund, PostJournal, RefundActs;
    var status := match answer case Unknown => TxStatus.TxPending case Failure => TxStatus.TxFailed case Success => TxPosted;
    OpenInFull(db, p, requested, currency, status);
    ActsPositive(db, p, requested, currency);
    var open := OpenRefund(db, p, requested, currency);
    if answer == Success {
      PostFiles(SetTxStatus(open.db, open.value, TxPosted), JRefund(p, requested, currency), currency, clearing, customer,
                Value(requested));
    }
  }

  lemma ActsPositive(db: Db, p: nat, requested: Amount, currency: Currency)
    requires RefundActs(db, p, requested, currency)
    ensures p < |db.payments| && Value(requested) > 0
  {
    hide Sum;
  }
}
