/** Which account is debited and which is credited: every step's journal, in the accounts the
    step was given. */
module Flows {
  import opened Domain
  import opened Sums
  import opened Repositories
  import opened Ledger
  import opened Orchestrators
  import opened Workers
  import opened Resolvers
  import opened Lifecycles
  import opened Controls
  import opened Apis
  import opened Machine
  import opened Rows
  import opened Consistency
  import opened Steps
  import opened Safety
  import opened Frames
  import opened Guards
  import opened Refunds
  import opened TrialBalance

  /** The payment a step may book something for. */
  function Subject(w: World, s: Step): nat {
    match s
    case Finish(k, _, _) => if k < |w.workers| then w.workers[k].execution.payment else |w.db.payments|
    case Resolve(_, op, _, _, _) => if op < |w.db.operations| then w.db.operations[op].payment else |w.db.payments|
    case Capture(p, _, _, _, _, _) => p
    case Refund(p, _, _, _, _, _) => p
    case _ => |w.db.payments|
  }

  /** The step captures the payment: a worker that holds a success for an open payment, a
      success event for its charge, or a confirmed capture of what was authorized. */
  predicate Captures(w: World, s: Step, p: nat)
    requires p < |w.db.payments|
  {
    var row := w.db.payments[p];
    match s
    case Finish(k, _, _) =>
      && k < |w.workers| && w.workers[k].execution.payment == p
      && w.workers[k].outcome == Some(Success) && !w.workers[k].finished
      && (row.status == Processing || row.status == UnknownOutcome)
    case Resolve(event, op, outcome, _, _) =>
      && EventApplies(w.db, event, op) && outcome == Success
      && w.db.operations[op].payment == p && w.db.operations[op].kind == ChargeOp
    case Capture(q, amount, currency, _, _, answer) =>
      && q == p && answer == Success && row.status == Authorized
      && amount == row.amount && currency == row.currency && amount % 100 == 0
    case _ => false
  }

  /** One journal under the key, if there is none: the first account debited, the second credited. */
  function Filed(journals: seq<Journal>, key: JournalKey, currency: Currency, debit: nat, credit: nat, amount: Money):
    seq<Journal>
  {
    if exists i :: 0 <= i < |journals| && journals[i].key == key then journals
    else journals + [Journal(key, currency, [Posting(debit, Debit, amount, currency), Posting(credit, Credit, amount, currency)])]
  }

  lemma PostFiles(db: Db, key: JournalKey, currency: Currency, debit: nat, credit: nat, amount: Money)
    requires amount > 0
    ensures var a := PostJournal(db, key, currency, Transfer(debit, credit, amount, currency));
            && a.Done? && a.db == db.(journals := Filed(db.journals, key, currency, debit, credit, amount))
  {
    hide Sum;
    TransferTotals(debit, credit, amount, currency);
    var i := Find(db.journals, JournalHasKey(key));
    if i >= 0 {
      assert db.journals[i].key == key;
    }
    if exists k :: 0 <= k < |db.journals| && db.journals[k].key == key {
      var k :| 0 <= k < |db.journals| && db.journals[k].key == key;
      assert JournalHasKey(key)(db.journals[k]);
    }
  }

  lemma SettleFiles(db: Db, p: nat, reservation: nat, customer: nat, clearing: nat)
    requires Sound(db) && p < |db.payments| && reservation < |db.reservations|
    ensures SettleUnknown(db, p).journals == db.journals
    ensures Commit(db, SettleFailure(db, p, reservation)).journals == db.journals
    ensures var amount, currency := db.payments[p].amount, db.payments[p].currency;
            var a := SettleSuccess(db, p, reservation, amount, currency, customer, clearing);
            && a.Done? && a.db.journals == Filed(db.journals, JCapture(p), currency, customer, clearing, amount)
  {
    hide Sum, Find, TxRows, JournalRows, OpRows, HoldRows, PostJournal, Filed, CreateTransaction;
    var amount, currency := db.payments[p].amount, db.payments[p].currency;
    SettleSuccessSound(db, p, reservation, customer, clearing);
    var consumed := ConsumeHold(SetChargeStatus(db, p, OpSucceeded), reservation).db;
    CreateKeepsJournals(consumed, CaptureRow(p, amount, currency, TxCapture(p)));
    PostFiles(UpsertCapture(consumed, p, amount, currency), JCapture(p), currency, customer, clearing, amount);
  }

  lemma CreateKeepsJournals(db: Db, row: Transaction)
    ensures CreateTransaction(db, row).0 == db.(transactions := CreateTransaction(db, row).0.transactions)
  {
    hide Find;
  }

  lemma EventFiles(db: Db, p: nat, r: nat, customer: nat, clearing: nat)
    requires Sound(db) && p < |db.payments| && r < |db.reservations|
    ensures var amount, currency := db.payments[p].amount, db.payments[p].currency;
            var a := CaptureByEvent(db, p, Some(r), amount, currency, customer, clearing);
            && a.Done? && a.db.journals == Filed(db.journals, JCapture(p), currency, customer, clearing, amount)
  {
    hide Sum, Find, TxRows, JournalRows, OpRows, HoldRows, PostJournal, Filed, CreateTransaction;
    var amount, currency := db.payments[p].amount, db.payments[p].currency;
    CaptureByEventSound(db, p, r, customer, clearing);
    var row := CaptureRow(p, amount, currency, TxCaptureByEvent(p));
    var consumed := ConsumeHold(db, r).db;
    CreateKeepsJournals(consumed, row);
    PostFiles(CreateTransaction(consumed, row).0, JCapture(p), currency, customer, clearing, amount);
  }

  lemma FinishFiles(w: World, k: nat, customer: nat, clearing: nat)
    requires Inv(w) && k < |w.workers| && w.workers[k].outcome.Some? && !w.workers[k].finished
    ensures var e := w.workers[k].execution;
            var db := w.db;
            && e.payment < |db.payments|
            && Commit(db, FinishSpec(db, e, customer, clearing, w.workers[k].outcome.value)).journals
               == if Captures(w, Finish(k, customer, clearing), e.payment)
                  then Filed(db.journals, JCapture(e.payment), db.payments[e.payment].currency, customer, clearing,
                             db.payments[e.payment].amount)
                  else db.journals
  {
    hide Sum, Find, TxRows, JournalRows, OpRows, HoldRows, SettleUnknown, SettleFailure, SettleSuccess, Filed, AllGood,
      ApprovalRows;
    var e := w.workers[k].execution;
    FaithfulInRange(w.db, e);
    SettleFiles(w.db, e.payment, e.reservation, customer, clearing);
  }

  lemma ResolveFiles(w: World, event: nat, op: nat, outcome: Outcome, customer: nat, clearing: nat)
    requires Inv(w)
    ensures var db := w.db;
            var s := Resolve(event, op, outcome, customer, clearing);
            var after := Commit(db, ResolveSpec(db, event, op, outcome, customer, clearing)).journals;
            if op < |db.operations| && db.operations[op].payment < |db.payments| && Captures(w, s, db.operations[op].payment)
            then var p := db.operations[op].payment;
                 after == Filed(db.journals, JCapture(p), db.payments[p].currency, customer, clearing, db.payments[p].amount)
            else after == db.journals
  {
    hide Sum, Find, TxRows, JournalRows, OpRows, HoldRows, AllGood, AllFaithful, ApprovalRows, CaptureByEvent, Filed,
      ResolveSpec;
    var db := w.db;
    ResolvedExactlyWhen(db, event, op, outcome, customer, clearing);
    ResolveShape(db, event, op, outcome, customer, clearing);
    if EventApplies(db, event, op) && db.operations[op].kind == ChargeOp {
      var p := db.operations[op].payment;
      ChargeIsReserved(db, op);
      SetOpSound(db, op, OpSucceeded);
      EventFiles(SetOpStatus(db, op, OpSucceeded), p, db.requests[p].reservation.value, customer, clearing);
    }
  }

  lemma CardFiles(w: World, p: nat, amount: Money, currency: Currency, customer: nat, clearing: nat, answer: Outcome)
    requires Inv(w)
    ensures var db := w.db;
            Commit(db, CaptureSpec(db, p, amount, currency, customer, clearing, answer)).journals
            == if p < |db.payments| && Captures(w, Capture(p, amount, currency, customer, clearing, answer), p)
               then Filed(db.journals, JCapture(p), currency, customer, clearing, amount)
               else db.journals
    ensures Commit(w.db, VoidSpec(w.db, p, amount, currency, answer)).journals == w.db.journals
  {
    hide Sum, Find, TxRows, JournalRows, OpRows, HoldRows, AllGood, AllFaithful, ApprovalRows, Filed, PostJournal,
      CreateTransaction, RegisterOperation;
    var db := w.db;
    VoidKeepsJournals(db, p, amount, currency, answer);
    if p < |db.payments| {
      RegisterSound(db, p, CaptureKey(p));
      var a := RegisterOperation(db, p, CaptureOp, CaptureKey(p));
      RegisterKeepsRest(db, p, CaptureOp, CaptureKey(p));
      CreateKeepsJournals(a.db, Transaction(p, CaptureType, TxPosted, amount, currency, TxCapture(p)));
      CreateKeepsJournals(SetStatus(a.db, p, Failed),
                          Transaction(p, CaptureType, TxFailed, amount, currency, TxCaptureFailed(p)));
      if amount > 0 {
        PostFiles(CreateTransaction(a.db, Transaction(p, CaptureType, TxPosted, amount, currency, TxCapture(p))).0,
                  JCapture(p), currency, customer, clearing, amount);
      }
    }
  }

  lemma VoidKeepsJournals(db: Db, p: nat, amount: Money, currency: Currency, answer: Outcome)
    ensures Commit(db, VoidSpec(db, p, amount, currency, answer)).journals == db.journals
  {
    hide Sum, Find;
  }

  lemma RegisterKeepsRest(db: Db, p: nat, kind: OpKind, key: OpKey)
    ensures var a := RegisterOperation(db, p, kind, key);
            a.Done? ==> a.db == db.(operations := a.db.operations)
  {
    hide Find;
  }

  lemma OpenKeepsJournals(db: Db, p: nat, requested: Amount, currency: Currency)
    requires p < |db.payments|
    ensures var a := OpenRefund(db, p, requested, currency); a.Done? ==> a.db.journals == db.journals
  {
    hide Find;
  }

  lemma RefundFiles(w: World, s: Step)
    requires Inv(w) && s.Refund?
    ensures var db := w.db;
            var a := RefundSpec(db, s.payment, s.requested, s.currency, s.customer, s.clearing, s.answer);
            Commit(db, a).journals
            == if s.payment < |db.payments| && RefundGoesThrough(db, s, s.payment)
               then Filed(db.journals, JRefund(s.payment, s.requested, s.currency), s.currency, s.clearing, s.customer,
                          Value(s.requested))
               else db.journals
  {
    hide Sum, Find, TxRows, JournalRows, OpRows, HoldRows, AllGood, AllFaithful, ApprovalRows, Filed, PostJournal, OpenRefund,
      RefundGoesThrough;
    var db := w.db;
    var a := RefundSpec(db, s.payment, s.requested, s.currency, s.customer, s.clearing, s.answer);
    if s.payment < |db.payments| {
      PaysBackExactlyWhen(w, s, s.payment);
      OpenKeepsJournals(db, s.payment, s.requested, s.currency);
      if RefundGoesThrough(db, s, s.payment) {
        GoesThroughIsAnswered(db, s);
        RefundIsPosted(db, s.payment, s.requested, s.currency, s.customer, s.clearing);
      }
      if a.Done? && a.db != db {
        var open := OpenRefund(db, s.payment, s.requested, s.currency);
        PostFiles(SetTxStatus(open.db, open.value, TxPosted), JRefund(s.payment, s.requested, s.currency), s.currency,
                  s.clearing, s.customer, Value(s.requested));
      }
    }
  }

  lemma GoesThroughIsAnswered(db: Db, s: Step)
    requires s.Refund? && s.payment < |db.payments|
    ensures RefundGoesThrough(db, s, s.payment) ==> s.answer == Success
  {
    hide Sum, Find;
  }

  /** What every step books, in the accounts it was given: a capture debits the customer and
      credits clearing, a refund debits clearing and credits the customer, and nothing else
      books anything. */
  lemma StepFiles(catalog: seq<PolicyVersion>, w: World, s: Step)
    requires Inv(w)
    ensures var db := w.db;
            var p := Subject(w, s);
            Apply(catalog, w, s).db.journals
            == if p < |db.payments| && Captures(w, s, p)
               then Filed(db.journals, JCapture(p), db.payments[p].currency, s.customer, s.clearing, db.payments[p].amount)
               else if p < |db.payments| && RefundGoesThrough(db, s, p)
               then Filed(db.journals, JRefund(p, s.requested, s.currency), s.currency, s.clearing, s.customer,
                          Value(s.requested))
               else db.journals
  {
    hide Sum, Find, Sound, AllGood, AllFaithful, ApprovalRows, Filed, CreateSpec, BirthSpec, ApproveSpec, DenySpec,
      FinishSpec, ResolveSpec, CaptureSpec, VoidSpec, RefundSpec, RegisterOperation;
    match s
    case Begin(p) => RegisterKeepsRest(w.db, p, ChargeOp, ChargeKey(p));
    case Charge(_, _) =>
    case ReceiveEvent(_) =>
    case Finish(k, customer, clearing) =>
      if k < |w.workers| && w.workers[k].outcome.Some? && !w.workers[k].finished {
        FinishFiles(w, k, customer, clearing);
      }
    case Resolve(event, op, outcome, customer, clearing) => ResolveFiles(w, event, op, outcome, customer, clearing);
    case Capture(p, amount, currency, customer, clearing, answer) =>
      CardFiles(w, p, amount, currency, customer, clearing, answer);
    case Void(p, amount, currency, answer) => CardFiles(w, p, amount, currency, 0, 0, answer);
    case Refund(_, _, _, _, _, _) => RefundFiles(w, s);
    case _ => AdmissionFrame(catalog, w, s);
  }

  predicate HasJournal(db: Db, key: JournalKey) {
    exists i :: 0 <= i < |db.journals| && db.journals[i].key == key
  }

  /** The effect on an account of moving an amount: the debited account gains, the credited loses. */
  function Flow(x: nat, debit: nat, credit: nat, amount: Money): Money {
    (if x == debit then amount else 0) - (if x == credit then amount else 0)
  }

  lemma FiledNet(db: Db, key: JournalKey, currency: Currency, debit: nat, credit: nat, amount: Money, x: nat, c: Currency)
    ensures Sum(Filed(db.journals, key, currency, debit, credit, amount), JournalNet(x, c))
            == AccountNet(db, x, c)
               + if HasJournal(db, key) || currency != c then 0 else Flow(x, debit, credit, amount)
  {
    hide Sum;
    if !HasJournal(db, key) {
      var one, two := Posting(debit, Debit, amount, currency), Posting(credit, Credit, amount, currency);
      SumAppend(db.journals, Journal(key, currency, [one, two]), JournalNet(x, c));
      var f := Signed(x, c);
      assert [one, two] == [] + [one] + [two];
      SumZero([], f);
      SumAppend([], one, f);
      SumAppend([] + [one], two, f);
    }
  }

  /** A refund that goes through finds no journal under its key. */
  lemma RefundIsUnfiled(db: Db, s: Step, p: nat)
    requires Sound(db) && Paired(db) && p < |db.payments| && RefundGoesThrough(db, s, p)
    ensures !HasJournal(db, JRefund(p, s.requested, s.currency))
  {
    hide Sum, JournalRows, OpRows, HoldRows, TxRows;
    var k: RefundJournal := JRefund(p, s.requested, s.currency);
    assert Excess(db, k) == 0;
    var i := Find(db.transactions, TxHasKey(KeyOf(k)));
    if i >= 0 {
      PendingIsAlone(db.requests, db.transactions, i, k);
    } else {
      SumZero(db.transactions, PostedRefund(k));
    }
    JournalLookup(db, k);
    assert forall j :: 0 <= j < |db.journals| ==> !JournalHasKey(k)(db.journals[j]);
  }

  /** What every step does to every account, in every reachable state. The payment's first
      capture adds its amount to the customer's net and takes it from clearing's; a refund
      that goes through does the opposite with the amount requested; no other account is
      touched, in no other currency, and no other step moves money. */
  lemma StepMovesMoney(catalog: seq<PolicyVersion>, start: World, steps: seq<Step>, s: Step, x: nat, c: Currency)
    requires Init(start)
    ensures var w := Execute(catalog, start, steps);
            var p := Subject(w, s);
            AccountNet(Apply(catalog, w, s).db, x, c)
            == AccountNet(w.db, x, c)
               + if p < |w.db.payments| && Captures(w, s, p)
                 then if HasJournal(w.db, JCapture(p)) || w.db.payments[p].currency != c then 0
                      else Flow(x, s.customer, s.clearing, w.db.payments[p].amount)
                 else if p < |w.db.payments| && RefundGoesThrough(w.db, s, p) && s.currency == c
                 then Flow(x, s.clearing, s.customer, Value(s.requested))
                 else 0
  {
    hide Sum, Find, Apply, Inv, Captures, RefundGoesThrough, Filed, HasJournal;
    var w := Execute(catalog, start, steps);
    var db := w.db;
    Reached(catalog, start, steps);
    RunKeepsPaired(catalog, start, steps);
    StepFiles(catalog, w, s);
    var p := Subject(w, s);
    if p < |db.payments| && Captures(w, s, p) {
      CapturesIs(w, s, p);
      FiledNet(db, JCapture(p), db.payments[p].currency, s.customer, s.clearing, db.payments[p].amount, x, c);
    } else if p < |db.payments| && RefundGoesThrough(db, s, p) {
      GoesThroughIsRefund(db, s, p);
      SoundInv(w);
      RefundIsUnfiled(db, s, p);
      FiledNet(db, JRefund(p, s.requested, s.currency), s.currency, s.clearing, s.customer, Value(s.requested), x, c);
    }
  }

  lemma CapturesIs(w: World, s: Step, p: nat)
    requires p < |w.db.payments|
    ensures Captures(w, s, p) ==> s.Finish? || s.Resolve? || s.Capture?
  {
  }

  lemma GoesThroughIsRefund(db: Db, s: Step, p: nat)
    requires p < |db.payments|
    ensures RefundGoesThrough(db, s, p) ==> s.Refund? && s.payment == p
  {
    hide Sum, Find;
  }

  lemma SoundInv(w: World)
    requires Inv(w)
    ensures Sound(w.db)
  {
  }
}
