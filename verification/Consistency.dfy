/** Every step keeps the rows consistent and the keys unique. */
module Consistency {
  import opened Domain
  import opened Sums
  import opened Repositories
  import opened Ledger
  import opened Orchestrators
  import opened Resolvers
  import opened Lifecycles
  import opened Policies
  import opened Controls
  import opened Apis
  import opened Rows

  lemma SetStatusSound(db: Db, p: nat, status: PaymentStatus)
    requires Sound(db) && p < |db.payments|
    ensures Sound(SetStatus(db, p, status))
  {
  }

  lemma RegisterSound(db: Db, p: nat, key: OpKey)
    requires Sound(db) && p < |db.payments| && key.payment == p
    ensures var a := RegisterOperation(db, p, KindOf(key), key); a.Done? && Sound(a.db)
  {
    hide Sum, Find;
    OpLookup(db, key);
    var row := Operation(p, KindOf(key), key, OpPending);
    if Find(db.operations, OpHasKey(key)) < 0 {
      forall k: OpKey
        ensures Sum(db.operations + [row], OpKeyCount(k)) <= 1
      {
        SumAppend(db.operations, row, OpKeyCount(k));
      }
    }
  }

  lemma SetOpSound(db: Db, op: nat, status: OpStatus)
    requires Sound(db) && op < |db.operations|
    ensures Sound(SetOpStatus(db, op, status))
  {
    forall k: OpKey
      ensures Sum(SetOpStatus(db, op, status).operations, OpKeyCount(k)) <= 1
    {
      SumUpdate(db.operations, op, db.operations[op].(status := status), OpKeyCount(k));
    }
  }

  lemma SetChargeSound(db: Db, p: nat, status: OpStatus)
    requires Sound(db)
    ensures Sound(SetChargeStatus(db, p, status))
  {
    forall k: OpKey
      ensures Sum(SetChargeStatus(db, p, status).operations, OpKeyCount(k)) <= 1
    {
      SumSame(db.operations, OpKeyCount(k), MarkAll(db.operations, p, status), OpKeyCount(k));
    }
  }

  lemma HoldsSound(db: Db, r: nat)
    requires Sound(db) && r < |db.reservations|
    ensures var a := ConsumeHold(db, r); a.Done? && Sound(a.db)
    ensures var a := ReleaseHold(db, r); a.Done? && Sound(a.db)
  {
  }

  lemma CreateTxRows(db: Db, row: Transaction)
    requires TxRows(db.requests, db.transactions) && TxRow(db.requests, row)
    ensures TxRows(db.requests, CreateTransaction(db, row).0.transactions)
  {
    hide Sum, Find;
    TxLookup(db, row.key);
    if Find(db.transactions, TxHasKey(row.key)) < 0 {
      forall k: TxKey
        ensures Sum(db.transactions + [row], TxCount(k)) <= 1
      {
        SumAppend(db.transactions, row, TxCount(k));
      }
    }
  }

  lemma CreateTxSound(db: Db, row: Transaction)
    requires Sound(db) && TxRow(db.requests, row)
    ensures Sound(CreateTransaction(db, row).0)
  {
    CreateTxRows(db, row);
  }

  lemma SetTxSound(db: Db, t: nat, status: TxStatus)
    requires Sound(db) && t < |db.transactions| && TxRow(db.requests, db.transactions[t].(status := status))
    ensures Sound(SetTxStatus(db, t, status))
  {
    forall k: TxKey
      ensures Sum(SetTxStatus(db, t, status).transactions, TxCount(k)) <= 1
    {
      SumUpdate(db.transactions, t, db.transactions[t].(status := status), TxCount(k));
    }
  }

  /** A transfer of the key's own amount is always accepted. */
  lemma PostSound(db: Db, key: JournalKey, debit: nat, credit: nat, amount: Money, currency: Currency)
    requires Sound(db) && key.payment < |db.payments|
    requires currency == db.payments[key.payment].currency && amount == JournalAmount(db.requests, key) > 0
    ensures var a := PostJournal(db, key, currency, Transfer(debit, credit, amount, currency)); a.Done? && Sound(a.db)
  {
    hide Sum, Find;
    TransferTotals(debit, credit, amount, currency);
    JournalLookup(db, key);
    var row := Journal(key, currency, Transfer(debit, credit, amount, currency));
    if Find(db.journals, JournalHasKey(key)) < 0 {
      forall k: JournalKey
        ensures Sum(db.journals + [row], JournalCount(k)) <= 1
      {
        SumAppend(db.journals, row, JournalCount(k));
      }
    }
  }

  /** Rewriting a request's bindings leaves its terms, and so the rows about it. */
  lemma RebindSound(db: Db, requests: seq<Request>)
    requires Sound(db) && |requests| == |db.requests|
    requires forall p: nat :: p < |requests| ==> SameTerms(requests[p], db.requests[p])
    ensures PaymentRows(db.payments, requests)
    ensures TxRows(requests, db.transactions)
    ensures JournalRows(requests, db.journals)
  {
    forall i | 0 <= i < |db.transactions|
      ensures TxRow(requests, db.transactions[i])
    {
      assert TxRow(db.requests, db.transactions[i]);
    }
    forall i | 0 <= i < |db.journals|
      ensures JournalRow(requests, db.journals[i])
    {
      assert JournalRow(db.requests, db.journals[i]);
    }
  }

  /** So does any rewriting that also keeps the reservation. */
  lemma RelabelSound(db: Db, requests: seq<Request>)
    requires Sound(db) && |requests| == |db.requests|
    requires forall p: nat :: p < |requests| ==>
               SameTerms(requests[p], db.requests[p]) && requests[p].reservation == db.requests[p].reservation
    ensures Sound(db.(requests := requests))
  {
    RebindSound(db, requests);
  }

  predicate SameTerms(a: Request, b: Request) {
    a.amount == b.amount && a.currency == b.currency
  }

  /** A payment whose request has no reservation yet; preparing it cannot clash. */
  lemma PrepareSound(db: Db, p: nat, budget: nat, amount: Money, currency: Currency)
    requires Sound(db) && p < |db.payments| && db.requests[p].reservation.None?
    requires PrepareSpec(db, p, p, budget, amount, currency).Done?
    ensures Sound(PrepareSpec(db, p, p, budget, amount, currency).db)
  {
    hide Sum, Find, TxRows, JournalRows, OpRows;
    var after := PrepareSpec(db, p, p, budget, amount, currency).db;
    assert after.requests == db.requests[p := db.requests[p].(reservation := Some(|db.reservations|))];
    RebindSound(db, after.requests);
    assert after.reservations == db.reservations + [Reservation(budget, p, amount, Reserved)];
    assert HoldRows(after.requests, after.reservations, |after.budgets|);
  }

  lemma SettleUnknownSound(db: Db, p: nat)
    requires Sound(db) && p < |db.payments|
    ensures Sound(SettleUnknown(db, p))
  {
    SetChargeSound(db, p, OpUnknown);
    SetStatusSound(SetChargeStatus(db, p, OpUnknown), p, UnknownOutcome);
  }

  lemma SettleFailureSound(db: Db, p: nat, reservation: nat)
    requires Sound(db) && p < |db.payments| && reservation < |db.reservations|
    ensures var a := SettleFailure(db, p, reservation); a.Done? && Sound(a.db)
  {
    SetChargeSound(db, p, OpFailed);
    var marked := SetChargeStatus(db, p, OpFailed);
    HoldsSound(marked, reservation);
    SetStatusSound(ReleaseHold(marked, reservation).db, p, Failed);
  }

  lemma SettleSuccessSound(db: Db, p: nat, reservation: nat, customer: nat, clearing: nat)
    requires Sound(db) && p < |db.payments| && reservation < |db.reservations|
    ensures var a := SettleSuccess(db, p, reservation, db.payments[p].amount, db.payments[p].currency, customer, clearing);
            a.Done? && Sound(a.db)
  {
    hide Sum, Find;
    SetChargeSound(db, p, OpSucceeded);
    var marked := SetChargeStatus(db, p, OpSucceeded);
    HoldsSound(marked, reservation);
    FileCaptureSound(ConsumeHold(marked, reservation).db, p, customer, clearing);
  }

  lemma FileCaptureSound(db: Db, p: nat, customer: nat, clearing: nat)
    requires Sound(db) && p < |db.payments|
    ensures var amount, currency := db.payments[p].amount, db.payments[p].currency;
            var captured := UpsertCapture(db, p, amount, currency);
            var a := PostJournal(captured, JCapture(p), currency, Transfer(customer, clearing, amount, currency));
            && a.Done? && |a.db.payments| == |db.payments|
            && Sound(Enqueue(SetStatus(a.db, p, Succeeded), p, PaymentSucceeded(amount, currency)))
  {
    hide Sum, Find;
    var amount, currency := db.payments[p].amount, db.payments[p].currency;
    UpsertSound(db, p);
    var captured := UpsertCapture(db, p, amount, currency);
    PostSound(captured, JCapture(p), customer, clearing, amount, currency);
    SetStatusSound(PostJournal(captured, JCapture(p), currency, Transfer(customer, clearing, amount, currency)).db,
                   p, Succeeded);
  }

  lemma FinalizeSound(db: Db, p: nat, reservation: nat, amount: Money, currency: Currency, customer: nat, clearing: nat,
                      outcome: Outcome)
    requires Sound(db) && reservation < |db.reservations|
    ensures Sound(Commit(db, FinalizeSpec(db, p, p, reservation, amount, currency, customer, clearing, outcome)))
  {
    if p < |db.payments| {
      SettleUnknownSound(db, p);
      SettleFailureSound(db, p, reservation);
      SettleSuccessSound(db, p, reservation, customer, clearing);
    }
  }

  lemma UpsertSound(db: Db, p: nat)
    requires Sound(db) && p < |db.payments|
    ensures Sound(UpsertCapture(db, p, db.payments[p].amount, db.payments[p].currency))
  {
    hide Sum, Find;
    var row := CaptureRow(p, db.payments[p].amount, db.payments[p].currency, TxCapture(p));
    CreateTxSound(db, row);
    var (created, t) := CreateTransaction(db, row);
    SetTxSound(created, t, TxPosted);
  }

  lemma CaptureByEventSound(db: Db, p: nat, r: nat, customer: nat, clearing: nat)
    requires Sound(db) && p < |db.payments| && r < |db.reservations|
    ensures var a := CaptureByEvent(db, p, Some(r), db.payments[p].amount, db.payments[p].currency, customer, clearing);
            a.Done? && Sound(a.db)
  {
    hide Sum, Find;
    var amount, currency := db.payments[p].amount, db.payments[p].currency;
    HoldsSound(db, r);
    var consumed := ConsumeHold(db, r).db;
    var row := CaptureRow(p, amount, currency, TxCaptureByEvent(p));
    CreateTxSound(consumed, row);
    var (created, t) := CreateTransaction(consumed, row);
    PostSound(created, JCapture(p), customer, clearing, amount, currency);
    var posted := PostJournal(created, JCapture(p), currency, Transfer(customer, clearing, amount, currency)).db;
    SetTxSound(posted, t, TxPosted);
  }

  lemma EventSuccessSound(db: Db, op: nat, customer: nat, clearing: nat)
    requires Sound(db) && op < |db.operations|
    ensures Sound(Commit(db, EventSuccess(db, op, customer, clearing)))
  {
    var o := db.operations[op];
    var reservation := db.requests[o.payment].reservation;
    SetOpSound(db, op, OpSucceeded);
    var marked := SetOpStatus(db, op, OpSucceeded);
    if o.kind != ChargeOp {
      SetStatusSound(marked, o.payment, Succeeded);
    } else if reservation.Some? {
      CaptureByEventSound(marked, o.payment, reservation.value, customer, clearing);
      var captured := CaptureByEvent(marked, o.payment, reservation, db.payments[o.payment].amount,
                                     db.payments[o.payment].currency, customer, clearing).db;
      SetStatusSound(captured, o.payment, Succeeded);
    }
  }

  lemma EventFailureSound(db: Db, op: nat)
    requires Sound(db) && op < |db.operations|
    ensures Sound(Commit(db, EventFailure(db, op)))
  {
    var o := db.operations[op];
    var reservation := db.requests[o.payment].reservation;
    SetOpSound(db, op, OpFailed);
    var marked := SetOpStatus(db, op, OpFailed);
    if o.kind == ChargeOp && reservation.Some? {
      HoldsSound(marked, reservation.value);
      SetStatusSound(ReleaseHold(marked, reservation.value).db, o.payment, Failed);
    } else {
      SetStatusSound(marked, o.payment, Failed);
    }
  }

  lemma ResolveSound(db: Db, event: nat, op: nat, outcome: Outcome, customer: nat, clearing: nat)
    requires Sound(db)
    ensures Sound(Commit(db, ResolveSpec(db, event, op, outcome, customer, clearing)))
  {
    var attempt := ResolveSpec(db, event, op, outcome, customer, clearing);
    if attempt.Done? && attempt.value == Resolved {
      EventSuccessSound(db, op, customer, clearing);
      EventFailureSound(db, op);
    }
  }

  lemma CaptureSound(db: Db, p: nat, amount: Money, currency: Currency, customer: nat, clearing: nat, answer: Outcome)
    requires Sound(db)
    ensures Sound(Commit(db, CaptureSpec(db, p, amount, currency, customer, clearing, answer)))
  {
    hide Sum, Find, HoldRows, OpRows, FileCapture;
    var attempt := CaptureSpec(db, p, amount, currency, customer, clearing, answer);
    if attempt.Done? && db.payments[p].status == Authorized {
      RegisterSound(db, p, CaptureKey(p));
      var registered := RegisterOperation(db, p, CaptureOp, CaptureKey(p)).db;
      match answer
      case Unknown =>
      case Failure =>
        SetStatusSound(registered, p, Failed);
        CreateTxSound(SetStatus(registered, p, Failed),
                      Transaction(p, CaptureType, TxFailed, amount, currency, TxCaptureFailed(p)));
      case Success => FiledCaptureSound(registered, p, customer, clearing);
    }
  }

  lemma FiledCaptureSound(db: Db, p: nat, customer: nat, clearing: nat)
    requires Sound(db) && p < |db.payments|
    ensures Sound(Commit(db, FileCapture(db, p, db.payments[p].amount, db.payments[p].currency, customer, clearing)))
  {
    hide Sum, Find, HoldRows, OpRows;
    var amount, currency := db.payments[p].amount, db.payments[p].currency;
    var row := Transaction(p, CaptureType, TxPosted, amount, currency, TxCapture(p));
    CreateTxSound(db, row);
    var created := CreateTransaction(db, row).0;
    PostSound(created, JCapture(p), customer, clearing, amount, currency);
    var posted := PostJournal(created, JCapture(p), currency, Transfer(customer, clearing, amount, currency)).db;
    SetStatusSound(posted, p, Succeeded);
  }

  lemma VoidSound(db: Db, p: nat, amount: Money, currency: Currency, answer: Outcome)
    requires Sound(db)
    ensures Sound(Commit(db, VoidSpec(db, p, amount, currency, answer)))
  {
    hide Sum, Find, HoldRows, OpRows;
    var attempt := VoidSpec(db, p, amount, currency, answer);
    if attempt.Done? && db.payments[p].status == Authorized {
      SetStatusSound(db, p, VoidRequested);
      RegisterSound(SetStatus(db, p, VoidRequested), p, VoidKey(p));
      var registered := RegisterOperation(SetStatus(db, p, VoidRequested), p, VoidOp, VoidKey(p)).db;
      match answer
      case Unknown =>
      case Failure =>
        SetStatusSound(registered, p, VoidFailed);
        CreateTxSound(SetStatus(registered, p, VoidFailed),
                      Transaction(p, VoidType, TxFailed, amount, currency, TxVoidFailed(p)));
      case Success =>
        CreateTxSound(registered, Transaction(p, VoidType, TxPosted, amount, currency, TxVoid(p)));
    }
  }

  lemma RefundSound(db: Db, p: nat, requested: Amount, currency: Currency, customer: nat, clearing: nat, answer: Outcome)
    requires Sound(db)
    ensures Sound(Commit(db, RefundSpec(db, p, requested, currency, customer, clearing, answer)))
  {
    hide Sum, Find;
    var attempt := RefundSpec(db, p, requested, currency, customer, clearing, answer);
    if attempt.Done? && attempt.db != db {
      var refundable := Posted(db, p, CaptureType) - Posted(db, p, RefundType);
      assert attempt == ApplyRefund(db, p, requested, currency, customer, clearing, answer, refundable);
      ApplyRefundSound(db, p, requested, currency, customer, clearing, answer, refundable);
    }
  }

  lemma OpenRefundSound(db: Db, p: nat, requested: Amount, currency: Currency)
    requires Sound(db) && p < |db.payments| && currency == db.payments[p].currency
    requires OpenRefund(db, p, requested, currency).Done?
    ensures var a := OpenRefund(db, p, requested, currency);
            && Sound(a.db) && a.db.requests == db.requests
            && TxRow(db.requests, a.db.transactions[a.value].(status := TxPosted))
            && TxRow(db.requests, a.db.transactions[a.value].(status := TxFailed))
            && a.db.transactions[a.value].key == TxRefund(p, requested, currency)
  {
    hide Sum, Find;
    var key := RefundKey(p, requested, currency);
    SetStatusSound(db, p, RefundProcessing);
    RegisterSound(SetStatus(db, p, RefundProcessing), p, key);
    var registered := RegisterOperation(SetStatus(db, p, RefundProcessing), p, RefundOp, key).db;
    var row := Transaction(p, RefundType, TxPending, Value(requested), currency, TxRefund(p, requested, currency));
    CreateTxSound(registered, row);
    var (created, t) := CreateTransaction(registered, row);
    assert TxRow(created.requests, created.transactions[t]);
  }

  lemma PostRefundSound(db: Db, p: nat, t: nat, requested: Amount, currency: Currency, customer: nat, clearing: nat,
                        refundable: Money)
    requires Sound(db) && p < |db.payments| && t < |db.transactions| && currency == db.payments[p].currency
    requires TxRow(db.requests, db.transactions[t].(status := TxPosted)) && Value(requested) > 0
    ensures var a := PostRefund(db, p, t, requested, currency, customer, clearing, refundable); a.Done? && Sound(a.db)
  {
    hide Sum, Find;
    var amount := Value(requested);
    SetTxSound(db, t, TxPosted);
    var marked := SetTxStatus(db, t, TxPosted);
    PostSound(marked, JRefund(p, requested, currency), clearing, customer, amount, currency);
    var posted := PostJournal(marked, JRefund(p, requested, currency), currency,
                              Transfer(clearing, customer, amount, currency)).db;
    SetStatusSound(posted, p, if refundable - amount == 0 then Refunded else Succeeded);
  }

  lemma ApplyRefundSound(db: Db, p: nat, requested: Amount, currency: Currency, customer: nat, clearing: nat,
                         answer: Outcome, refundable: Money)
    requires Sound(db) && p < |db.payments| && currency == db.payments[p].currency
    ensures Sound(Commit(db, ApplyRefund(db, p, requested, currency, customer, clearing, answer, refundable)))
  {
    hide Sum, Find;
    var a := OpenRefund(db, p, requested, currency);
    if a.Done? {
      OpenRefundSound(db, p, requested, currency);
      match answer
      case Unknown => SetStatusSound(a.db, p, UnknownOutcome);
      case Failure =>
        SetTxSound(a.db, a.value, TxFailed);
        SetStatusSound(SetTxStatus(a.db, a.value, TxFailed), p, RefundFailed);
      case Success => PostRefundSound(a.db, p, a.value, requested, currency, customer, clearing, refundable);
    }
  }

  /** A new request and its payment; older rows keep referring to older payments. */
  lemma InsertSound(db: Db, request: Request, payment: Payment)
    requires Sound(db)
    requires request.reservation.None? && request.amount > 0
    requires payment.request == |db.requests| && payment.amount == request.amount && payment.currency == request.currency
    ensures Sound(db.(requests := db.requests + [request], payments := db.payments + [payment]))
  {
    var requests := db.requests + [request];
    forall i | 0 <= i < |db.transactions|
      ensures TxRow(requests, db.transactions[i])
    {
      assert TxRow(db.requests, db.transactions[i]);
    }
    forall i | 0 <= i < |db.journals|
      ensures JournalRow(requests, db.journals[i])
    {
      assert JournalRow(db.requests, db.journals[i]);
    }
  }

  lemma ControlSound(db: Db, catalog: seq<PolicyVersion>, p: nat, body: Body, version: Option<nat>, now: int)
    requires Sound(db) && p < |db.payments| && db.requests[p].reservation.None?
    ensures Sound(Commit(db, ControlSpec(db, catalog, p, p, body, version, now)))
  {
    hide Sum, Find, HoldRows, OpRows, TxRows, JournalRows, PrepareSpec;
    var attempt := ControlSpec(db, catalog, p, p, body, version, now);
    var bound := ActivePolicy(catalog, body.account, body.policy, version);
    if attempt.Done? && bound.Some? {
      var judged := BindPolicy(db, p, bound.value);
      RelabelSound(db, judged.requests);
      var budget := SelectBudget(judged, body.account, body.budget, body.currency, catalog[bound.value].policy);
      var decision := Decide(catalog[bound.value].rules, IntentOf(db.requests[p]));
      if decision != Decision.Deny && budget.Some? {
        var ready := BindBudget(judged, p, budget.value);
        RelabelSound(judged, ready.requests);
        if decision != RequireApproval {
          PrepareSound(ready, p, budget.value, Value(body.amount), body.currency);
        }
      }
    }
  }

  lemma CreateSound(db: Db, catalog: seq<PolicyVersion>, body: Body, key: string, stale: bool, version: Option<nat>, now: int)
    requires Sound(db)
    ensures Sound(Commit(db, CreateSpec(db, catalog, body, key, stale, version, now)))
  {
    hide Sum, Find;
    var owner := Find(db.requests, OwnedBy(body.account, key));
    var checked := CheckEvidence(body, now);
    if owner < 0 && checked.Ok? {
      var e := |db.evidence|;
      var recorded := RecordEvidence(db, body, checked.value);
      var inserted := InsertPayment(recorded, body, key, e);
      InsertSound(recorded, NewRequest(body, key, e), Payment(|db.requests|, Value(body.amount), body.currency, PolicyCheck));
      assert Sound(inserted);
      ControlSound(inserted, catalog, |db.payments|, body, version, now);
    }
  }

  lemma ApproveSound(db: Db, a: nat, now: int)
    requires Sound(db)
    requires ApproveSpec(db, a, now).Done? ==> db.requests[db.approvals[a].request].reservation.None?
    ensures Sound(Commit(db, ApproveSpec(db, a, now)))
  {
    hide Sum, Find;
    if ApproveSpec(db, a, now).Done? {
      var r := db.approvals[a].request;
      PayerIsSelf(db, r);
      var decided := SetApproval(db, a, ApprovalStatus.Approved, now);
      assert Sound(decided);
      PrepareSound(decided, r, db.requests[r].budget.value, db.requests[r].amount, db.requests[r].currency);
    }
  }

  /** The payment of a request has the request's own number. */
  lemma PayerIsSelf(db: Db, r: nat)
    requires Sound(db)
    ensures Find(db.payments, PaysFor(r)) == if r < |db.payments| then r else -1
  {
    var p := Find(db.payments, PaysFor(r));
    if r < |db.payments| {
      assert PaysFor(r)(db.payments[r]);
    }
  }
}
