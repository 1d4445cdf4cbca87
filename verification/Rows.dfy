/** What every row says about its payment, kept by every step: keys name the
    payment they are filed under, and no key is used twice. */
module Rows {
  import opened Domain
  import opened Sums
  import opened Repositories
  import opened Ledger

  function KindOf(key: OpKey): OpKind {
    match key
    case ChargeKey(_) => ChargeOp
    case CaptureKey(_) => CaptureOp
    case VoidKey(_) => VoidOp
    case RefundKey(_, _, _) => RefundOp
  }

  predicate OpRow(payments: nat, o: Operation) {
    o.key.payment == o.payment < payments && KindOf(o.key) == o.kind
  }

  predicate TxRow(requests: seq<Request>, t: Transaction) {
    && t.key.payment == t.payment < |requests|
    && t.currency == requests[t.payment].currency
    && match t.key
       case TxCapture(p) => t.kind == CaptureType && t.status == TxPosted && t.amount == requests[p].amount
       case TxCaptureByEvent(p) => t.kind == CaptureType && t.status == TxPosted && t.amount == requests[p].amount
       case TxCaptureFailed(_) => t.kind == CaptureType && t.status == TxFailed
       case TxVoid(_) => t.kind == VoidType && t.status == TxPosted
       case TxVoidFailed(_) => t.kind == VoidType && t.status == TxFailed
       case TxRefund(_, a, c) =>
         t.kind == RefundType && t.amount == Value(a) && t.amount > 0 && t.amount % 100 == 0 && t.currency == c
  }

  function JournalAmount(requests: seq<Request>, key: JournalKey): Money
    requires key.payment < |requests|
  {
    match key
    case JCapture(p) => requests[p].amount
    case JRefund(_, a, _) => Value(a)
  }

  predicate JournalRow(requests: seq<Request>, j: Journal) {
    && j.key.payment < |requests|
    && j.currency == requests[j.key.payment].currency
    && JournalAmount(requests, j.key) > 0
    && |j.postings| == 2
    && j.postings == Transfer(j.postings[0].account, j.postings[1].account, JournalAmount(requests, j.key), j.currency)
  }

  /** One payment per request, for the request's amount and currency. */
  ghost predicate PaymentRows(payments: seq<Payment>, requests: seq<Request>) {
    && |payments| == |requests|
    && forall p: nat :: p < |payments| ==>
         && payments[p].request == p
         && payments[p].amount == requests[p].amount > 0
         && payments[p].currency == requests[p].currency
  }

  /** Requests and reservations point at each other. */
  ghost predicate HoldRows(requests: seq<Request>, reservations: seq<Reservation>, budgets: nat) {
    && (forall p: nat :: p < |requests| && requests[p].reservation.Some? ==>
          && requests[p].reservation.value < |reservations|
          && reservations[requests[p].reservation.value].request == p)
    && (forall r: nat :: r < |reservations| ==>
          && reservations[r].request < |requests|
          && requests[reservations[r].request].reservation == Some(r)
          && reservations[r].amount == requests[reservations[r].request].amount
          && reservations[r].budget < budgets)
  }

  ghost predicate OpRows(payments: nat, ops: seq<Operation>) {
    && (forall i :: 0 <= i < |ops| ==> OpRow(payments, ops[i]))
    && (forall key: OpKey :: Sum(ops, OpKeyCount(key)) <= 1)
  }

  ghost predicate TxRows(requests: seq<Request>, txs: seq<Transaction>) {
    && (forall i :: 0 <= i < |txs| ==> TxRow(requests, txs[i]))
    && (forall key: TxKey :: Sum(txs, TxCount(key)) <= 1)
  }

  ghost predicate JournalRows(requests: seq<Request>, journals: seq<Journal>) {
    && (forall i :: 0 <= i < |journals| ==> JournalRow(requests, journals[i]))
    && (forall key: JournalKey :: Sum(journals, JournalCount(key)) <= 1)
  }

  ghost predicate Sound(db: Db) {
    && PaymentRows(db.payments, db.requests)
    && HoldRows(db.requests, db.reservations, |db.budgets|)
    && OpRows(|db.payments|, db.operations)
    && TxRows(db.requests, db.transactions)
    && JournalRows(db.requests, db.journals)
  }

  function TxCount(key: TxKey): Transaction -> int {
    (t: Transaction) => if t.key == key then 1 else 0
  }

  function JournalCount(key: JournalKey): Journal -> int {
    (j: Journal) => if j.key == key then 1 else 0
  }

  function OpKeyCount(key: OpKey): Operation -> int {
    (o: Operation) => if o.key == key then 1 else 0
  }

  /** A lookup misses exactly when the key's count is zero. */
  lemma FindIsCount<T>(rows: seq<T>, f: T -> bool, count: T -> int)
    requires forall row: T :: count(row) == if f(row) then 1 else 0
    ensures Find(rows, f) < 0 <==> Sum(rows, count) == 0
    ensures Sum(rows, count) >= 0
  {
    SumNonNegative(rows, count);
    if Find(rows, f) < 0 {
      SumZero(rows, count);
    } else {
      SumAtLeast(rows, count, Find(rows, f));
    }
  }

  lemma TxLookup(db: Db, key: TxKey)
    ensures Find(db.transactions, TxHasKey(key)) < 0 <==> Sum(db.transactions, TxCount(key)) == 0
    ensures Sum(db.transactions, TxCount(key)) >= 0
  {
    FindIsCount(db.transactions, TxHasKey(key), TxCount(key));
  }

  lemma JournalLookup(db: Db, key: JournalKey)
    ensures Find(db.journals, JournalHasKey(key)) < 0 <==> Sum(db.journals, JournalCount(key)) == 0
    ensures Sum(db.journals, JournalCount(key)) >= 0
  {
    FindIsCount(db.journals, JournalHasKey(key), JournalCount(key));
  }

  lemma OpLookup(db: Db, key: OpKey)
    ensures Find(db.operations, OpHasKey(key)) < 0 <==> Sum(db.operations, OpKeyCount(key)) == 0
    ensures Sum(db.operations, OpKeyCount(key)) >= 0
  {
    FindIsCount(db.operations, OpHasKey(key), OpKeyCount(key));
  }
}
