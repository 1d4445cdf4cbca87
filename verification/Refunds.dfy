/** Every POSTED refund has exactly one refund journal, of its amount, and every refund
    journal its POSTED refund, over all runs of partial, replayed, failed and retried refunds. */
module Refunds {
  import opened Domain
  import opened Sums
  import opened Repositories
  import opened Ledger
  import opened Orchestrators
  import opened Workers
  import opened Resolvers
  import opened Lifecycles
  import opened Controls
  import opened Apis
  import opened Machine
  import opened Rows
  import opened Consistency
  import opened Views
  import opened Effects
  import opened Steps
  import opened Safety
  import opened Frames

  type RefundJournal = k: JournalKey | k.JRefund? witness JRefund(0, Amount(0, 0), "")

  function KeyOf(k: RefundJournal): TxKey {
    TxRefund(k.payment, k.amount, k.currency)
  }

  function PostedRefund(k: RefundJournal): Transaction -> int {
    (t: Transaction) => if t.key == KeyOf(k) && t.status == TxPosted then 1 else 0
  }

  /** How many more journals than posted refunds there are under one key. */
  function Excess(db: Db, k: RefundJournal): int {
    Sum(db.journals, JournalCount(k)) - Sum(db.transactions, PostedRefund(k))
  }

  ghost predicate Paired(db: Db) {
    forall k: RefundJournal :: Excess(db, k) == 0
  }

  lemma CreateExcess(db: Db, row: Transaction, k: RefundJournal)
    requires row.status != TxPosted || !row.key.TxRefund?
    ensures Excess(CreateTransaction(db, row).0, k) == Excess(db, k)
  {
    SumAppend(db.transactions, row, PostedRefund(k));
  }

  lemma MarkExcess(db: Db, t: nat, status: TxStatus, k: RefundJournal)
    requires t < |db.transactions|
    ensures Excess(SetTxStatus(db, t, status), k)
            == Excess(db, k) - if db.transactions[t].key != KeyOf(k) then 0
                               else One(status == TxPosted) - One(db.transactions[t].status == TxPosted)
  {
    SumUpdate(db.transactions, t, db.transactions[t].(status := status), PostedRefund(k));
  }

  /** Captures, by whatever path, leave the refunds of every key as they were. */
  lemma SettleExcess(db: Db, p: nat, r: nat, amount: Money, currency: Currency, customer: nat, clearing: nat, k: RefundJournal)
    requires p < |db.payments| && SettleSuccess(db, p, r, amount, currency, customer, clearing).Done?
    ensures Excess(SettleSuccess(db, p, r, amount, currency, customer, clearing).db, k) == Excess(db, k)
  {
    hide Sum, Find;
    var consumed := ConsumeHold(SetChargeStatus(db, p, OpSucceeded), r).db;
    var row := CaptureRow(p, amount, currency, TxCapture(p));
    CreateExcess(consumed, row, k);
    var (created, t) := CreateTransaction(consumed, row);
    MarkExcess(created, t, TxPosted, k);
    var captured := UpsertCapture(consumed, p, amount, currency);
    PostCounts(captured, JCapture(p), currency, Transfer(customer, clearing, amount, currency), k);
  }

  lemma FinishExcess(db: Db, e: Execution, customer: nat, clearing: nat, outcome: Outcome, k: RefundJournal)
    ensures Excess(Commit(db, FinishSpec(db, e, customer, clearing, outcome)), k) == Excess(db, k)
  {
    hide Sum, Find, SettleSuccess;
    if e.payment < |db.payments| && SettleSuccess(db, e.payment, e.reservation, e.amount, e.currency, customer, clearing).Done? {
      SettleExcess(db, e.payment, e.reservation, e.amount, e.currency, customer, clearing, k);
    }
  }

  lemma EventExcess(db: Db, p: nat, reservation: Option<nat>, amount: Money, currency: Currency, customer: nat, clearing: nat,
                    k: RefundJournal)
    ensures Excess(Commit(db, CaptureByEvent(db, p, reservation, amount, currency, customer, clearing)), k) == Excess(db, k)
  {
    hide Sum, Find;
    if CaptureByEvent(db, p, reservation, amount, currency, customer, clearing).Done? {
      var consumed := ConsumeHold(db, reservation.value).db;
      var row := CaptureRow(p, amount, currency, TxCaptureByEvent(p));
      CreateExcess(consumed, row, k);
      var (created, t) := CreateTransaction(consumed, row);
      PostCounts(created, JCapture(p), currency, Transfer(customer, clearing, amount, currency), k);
      MarkExcess(created, t, TxPosted, k);
    }
  }

  lemma ResolveExcess(db: Db, event: nat, op: nat, outcome: Outcome, customer: nat, clearing: nat, k: RefundJournal)
    ensures Excess(Commit(db, ResolveSpec(db, event, op, outcome, customer, clearing)), k) == Excess(db, k)
  {
    hide Sum, Find, CaptureByEvent;
    if op < |db.operations| && db.operations[op].payment < |db.payments|
       && db.payments[db.operations[op].payment].request < |db.requests| {
      var o := db.operations[op];
      var row := db.payments[o.payment];
      EventExcess(SetOpStatus(db, op, OpSucceeded), o.payment, db.requests[row.request].reservation, row.amount, row.currency,
                  customer, clearing, k);
    }
  }

  lemma CaptureExcess(db: Db, p: nat, amount: Money, currency: Currency, customer: nat, clearing: nat, answer: Outcome,
                      k: RefundJournal)
    ensures Excess(Commit(db, CaptureSpec(db, p, amount, currency, customer, clearing, answer)), k) == Excess(db, k)
  {
    hide Sum, Find, CreateTransaction, PostJournal;
    var a := CaptureSpec(db, p, amount, currency, customer, clearing, answer);
    if a.Done? && db.payments[p].status == Authorized {
      var registered := RegisterOperation(db, p, CaptureOp, CaptureKey(p)).db;
      match answer
      case Unknown =>
      case Failure =>
        CreateExcess(SetStatus(registered, p, Failed),
                     Transaction(p, CaptureType, TxFailed, amount, currency, TxCaptureFailed(p)), k);
      case Success =>
        var row := Transaction(p, CaptureType, TxPosted, amount, currency, TxCapture(p));
        CreateExcess(registered, row, k);
        PostExcess(CreateTransaction(registered, row).0, JCapture(p), currency,
                   Transfer(customer, clearing, amount, currency), k);
    }
  }

  lemma PostExcess(db: Db, key: JournalKey, currency: Currency, postings: seq<Posting>, k: RefundJournal)
    requires PostJournal(db, key, currency, postings).Done?
    ensures Excess(PostJournal(db, key, currency, postings).db, k)
            == Excess(db, k) + One(key == k && Sum(db.journals, JournalCount(k)) == 0)
  {
    hide Sum, Find;
    PostCounts(db, key, currency, postings, k);
  }

  lemma VoidExcess(db: Db, p: nat, amount: Money, currency: Currency, answer: Outcome, k: RefundJournal)
    ensures Excess(Commit(db, VoidSpec(db, p, amount, currency, answer)), k) == Excess(db, k)
  {
    hide Sum, Find, CreateTransaction;
    var a := VoidSpec(db, p, amount, currency, answer);
    if a.Done? && db.payments[p].status == Authorized {
      var registered := RegisterOperation(SetStatus(db, p, VoidRequested), p, VoidOp, VoidKey(p)).db;
      CreateExcess(SetStatus(registered, p, VoidFailed),
                   Transaction(p, VoidType, TxFailed, amount, currency, TxVoidFailed(p)), k);
      CreateExcess(registered, Transaction(p, VoidType, TxPosted, amount, currency, TxVoid(p)), k);
    }
  }

  /** A row that is not posted leaves no posted refund under its key. */
  lemma PendingIsAlone(requests: seq<Request>, txs: seq<Transaction>, t: nat, k: RefundJournal)
    requires TxRows(requests, txs) && t < |txs| && txs[t].key == KeyOf(k) && txs[t].status != TxPosted
    ensures Sum(txs, PostedRefund(k)) == 0
  {
    var posted := txs[t].(status := TxPosted);
    SumUpdate(txs, t, posted, PostedRefund(k));
    SumUpdate(txs, t, posted, TxCount(KeyOf(k)));
    SumBelow(txs[t := posted], PostedRefund(k), TxCount(KeyOf(k)));
    SumNonNegative(txs, PostedRefund(k));
  }

  lemma PostRefundExcess(db: Db, p: nat, t: nat, requested: Amount, currency: Currency, customer: nat, clearing: nat,
                         refundable: Money, k: RefundJournal)
    requires p < |db.payments| && t < |db.transactions| && TxRows(db.requests, db.transactions)
    requires db.transactions[t].key == TxRefund(p, requested, currency) && db.transactions[t].status != TxPosted
    requires Excess(db, JRefund(p, requested, currency)) == 0
    requires PostRefund(db, p, t, requested, currency, customer, clearing, refundable).Done?
    ensures Excess(PostRefund(db, p, t, requested, currency, customer, clearing, refundable).db, k) == Excess(db, k)
  {
    hide Sum, Find, TxRows, PostJournal;
    PendingIsAlone(db.requests, db.transactions, t, JRefund(p, requested, currency));
    MarkExcess(db, t, TxPosted, k);
    PostExcess(SetTxStatus(db, t, TxPosted), JRefund(p, requested, currency), currency,
               Transfer(clearing, customer, Value(requested), currency), k);
  }

  lemma RefundExcess(db: Db, p: nat, requested: Amount, currency: Currency, customer: nat, clearing: nat, answer: Outcome,
                     k: RefundJournal)
    requires Sound(db) && Excess(db, JRefund(p, requested, currency)) == 0
    ensures Excess(Commit(db, RefundSpec(db, p, requested, currency, customer, clearing, answer)), k) == Excess(db, k)
  {
    hide Sum, Find, TxRows, JournalRows, HoldRows, OpRows, OpenRefund, PostRefund, Excess;
    var a := RefundSpec(db, p, requested, currency, customer, clearing, answer);
    if a.Done? && a.db != db {
      OpenExcess(db, p, requested, currency, k);
      OpenExcess(db, p, requested, currency, JRefund(p, requested, currency));
      OpenRefundTables(db, p, requested, currency, p);
      OpenRefundSound(db, p, requested, currency);
      var open := OpenRefund(db, p, requested, currency);
      match answer
      case Unknown => SameExcess(open.db, a.db, k);
      case Failure =>
        MarkExcess(open.db, open.value, TxFailed, k);
        SameExcess(SetTxStatus(open.db, open.value, TxFailed), a.db, k);
      case Success =>
        PostRefundExcess(open.db, p, open.value, requested, currency, customer, clearing,
                         Posted(db, p, CaptureType) - Posted(db, p, RefundType), k);
    }
  }

  lemma SameExcess(a: Db, b: Db, k: RefundJournal)
    requires a.journals == b.journals && a.transactions == b.transactions
    ensures Excess(a, k) == Excess(b, k)
  {
  }

  lemma OpenExcess(db: Db, p: nat, requested: Amount, currency: Currency, k: RefundJournal)
    requires p < |db.payments| && OpenRefund(db, p, requested, currency).Done?
    ensures Excess(OpenRefund(db, p, requested, currency).db, k) == Excess(db, k)
  {
    hide Sum, Find, CreateTransaction;
    var registered := RegisterOperation(SetStatus(db, p, RefundProcessing), p, RefundOp, RefundKey(p, requested, currency)).db;
    CreateExcess(registered,
                 Transaction(p, RefundType, TxPending, Value(requested), currency, TxRefund(p, requested, currency)), k);
  }

  lemma StepExcess(catalog: seq<PolicyVersion>, w: World, s: Step, k: RefundJournal)
    requires Inv(w) && Paired(w.db)
    ensures Excess(Apply(catalog, w, s).db, k) == 0
  {
    hide Sum, Find, TxRows, JournalRows, OpRows, HoldRows, ViewOf, ApprovalRows, CreateSpec, BirthSpec, ApproveSpec,
      DenySpec, FinishSpec, ResolveSpec, CaptureSpec, VoidSpec, RefundSpec;
    assert Excess(w.db, k) == 0;
    match s
    case Begin(_) =>
    case Charge(_, _) =>
    case ReceiveEvent(_) =>
    case Finish(i, customer, clearing) =>
      if i < |w.workers| && w.workers[i].outcome.Some? {
        FinishExcess(w.db, w.workers[i].execution, customer, clearing, w.workers[i].outcome.value, k);
      }
    case Resolve(event, op, outcome, customer, clearing) => ResolveExcess(w.db, event, op, outcome, customer, clearing, k);
    case Capture(p, amount, currency, customer, clearing, answer) =>
      CaptureExcess(w.db, p, amount, currency, customer, clearing, answer, k);
    case Void(p, amount, currency, answer) => VoidExcess(w.db, p, amount, currency, answer, k);
    case Refund(p, requested, currency, customer, clearing, answer) =>
      RefundExcess(w.db, p, requested, currency, customer, clearing, answer, k);
    case _ =>
      AdmissionFrame(catalog, w, s);
      SameExcess(w.db, Apply(catalog, w, s).db, k);
  }

  lemma {:induction false} RunKeepsPaired(catalog: seq<PolicyVersion>, start: World, steps: seq<Step>)
    requires Init(start)
    ensures Paired(Execute(catalog, start, steps).db)
  {
    hide Sum, Apply, Inv, Excess;
    if steps == [] {
      forall k: RefundJournal
        ensures Excess(start.db, k) == 0
      {
        NoRefundsAtFirst(start, k);
      }
    } else {
      var before := Execute(catalog, start, steps[..|steps| - 1]);
      RunKeepsPaired(catalog, start, steps[..|steps| - 1]);
      Reached(catalog, start, steps[..|steps| - 1]);
      var s := steps[|steps| - 1];
      var after := Apply(catalog, before, s).db;
      forall k: RefundJournal
        ensures Excess(after, k) == 0
      {
        StepExcess(catalog, before, s, k);
      }
    }
  }

  lemma NoRefundsAtFirst(start: World, k: RefundJournal)
    requires Init(start)
    ensures Excess(start.db, k) == 0
  {
  }

  lemma PostedIsJournalled(db: Db, i: nat)
    requires Paired(db) && TxRows(db.requests, db.transactions) && i < |db.transactions|
    requires db.transactions[i].key.TxRefund? && db.transactions[i].status == TxPosted
    ensures var key := db.transactions[i].key;
            Sum(db.journals, JournalCount(JRefund(key.payment, key.amount, key.currency))) == 1
  {
    hide Sum;
    var key := db.transactions[i].key;
    var k: RefundJournal := JRefund(key.payment, key.amount, key.currency);
    assert Excess(db, k) == 0;
    SumBelow(db.transactions, PostedRefund(k), TxCount(KeyOf(k)));
    SumAtLeast(db.transactions, PostedRefund(k), i);
  }

  /** After every run every POSTED refund of any payment is filed under a refund key, with one
      journal; and under every refund key there is at most one POSTED refund, exactly as many
      journals, and each journal moves the refund's amount from clearing to the customer. */
  lemma RefundsAreJournalled(catalog: seq<PolicyVersion>, start: World, steps: seq<Step>, k: RefundJournal)
    requires Init(start)
    ensures var db := Execute(catalog, start, steps).db;
            && Sum(db.journals, JournalCount(k)) == Sum(db.transactions, PostedRefund(k)) <= 1
            && (forall i :: 0 <= i < |db.transactions| && db.transactions[i].key == KeyOf(k)
                            && db.transactions[i].status == TxPosted ==>
                  Sum(db.journals, JournalCount(k)) == 1 && db.transactions[i].amount == Value(k.amount))
            && (forall j :: 0 <= j < |db.journals| && db.journals[j].key == k ==>
                  && Sum(db.transactions, PostedRefund(k)) == 1
                  && exists clearing: nat, customer: nat ::
                       db.journals[j].postings == Transfer(clearing, customer, Value(k.amount), k.currency))
    ensures var db := Execute(catalog, start, steps).db;
            forall i :: 0 <= i < |db.transactions| && db.transactions[i].kind == RefundType
                        && db.transactions[i].status == TxPosted ==>
              var key := db.transactions[i].key;
              && key.TxRefund? && key.payment == db.transactions[i].payment && Value(key.amount) == db.transactions[i].amount
              && Sum(db.journals, JournalCount(JRefund(key.payment, key.amount, key.currency))) == 1
  {
    hide Sum;
    RunKeepsPaired(catalog, start, steps);
    Reached(catalog, start, steps);
    var db := Execute(catalog, start, steps).db;
    assert Excess(db, k) == 0;
    SumBelow(db.transactions, PostedRefund(k), TxCount(KeyOf(k)));
    forall i | 0 <= i < |db.transactions| && db.transactions[i].key == KeyOf(k) && db.transactions[i].status == TxPosted
      ensures Sum(db.journals, JournalCount(k)) == 1 && db.transactions[i].amount == Value(k.amount)
    {
      SumAtLeast(db.transactions, PostedRefund(k), i);
      assert TxRow(db.requests, db.transactions[i]);
    }
    forall i | 0 <= i < |db.transactions| && db.transactions[i].kind == RefundType && db.transactions[i].status == TxPosted
      ensures var key := db.transactions[i].key;
              && key.TxRefund? && key.payment == db.transactions[i].payment && Value(key.amount) == db.transactions[i].amount
              && Sum(db.journals, JournalCount(JRefund(key.payment, key.amount, key.currency))) == 1
    {
      assert TxRow(db.requests, db.transactions[i]);
      PostedIsJournalled(db, i);
    }
    forall j | 0 <= j < |db.journals| && db.journals[j].key == k
      ensures Sum(db.transactions, PostedRefund(k)) == 1
      ensures exists clearing: nat, customer: nat ::
                db.journals[j].postings == Transfer(clearing, customer, Value(k.amount), k.currency)
    {
      SumAtLeast(db.journals, JournalCount(k), j);
      assert JournalRow(db.requests, db.journals[j]);
      var i := SumPositive(db.transactions, PostedRefund(k));
      assert TxRow(db.requests, db.transactions[i]);
    }
  }
}
