/** When a call takes effect, in terms of rows that can be looked up before it. */
module Guards {
  import opened Domain
  import opened Sums
  import opened Repositories
  import opened Ledger
  import opened Resolvers
  import opened Lifecycles
  import opened Machine
  import opened Rows
  import opened Consistency
  import opened Views
  import opened Effects
  import opened Moves
  import opened Steps

  /** The event is genuine and not processed, and its operation's payment is undecided. */
  predicate EventApplies(db: Db, event: nat, op: nat) {
    && event < |db.events| && db.events[event].signatureValid && !db.events[event].processed
    && op < |db.operations| && db.operations[op].payment < |db.payments|
    && Undecided(db.payments[db.operations[op].payment].status)
  }

  lemma ChargeIsReserved(db: Db, op: nat)
    requires Sound(db) && AllGood(db) && op < |db.operations| && db.operations[op].kind == ChargeOp
    ensures var p := db.operations[op].payment;
            p < |db.requests| && db.payments[p].request == p && db.requests[p].reservation.Some?
            && db.requests[p].reservation.value < |db.reservations|
  {
    hide Sum, TxRows, JournalRows;
    OperationCounts(db.operations, |db.payments|, op);
    assert Good(ViewOf(db, db.operations[op].payment));
    HoldMeansReservation(db, db.operations[op].payment);
  }

  /** A definite outcome is applied, and nothing prevents it, exactly when the event applies. */
  lemma ResolvedExactlyWhen(db: Db, event: nat, op: nat, outcome: Outcome, customer: nat, clearing: nat)
    requires Sound(db) && AllGood(db)
    ensures var a := ResolveSpec(db, event, op, outcome, customer, clearing);
            a.Done? && a.value == Resolved <==> EventApplies(db, event, op) && outcome != Unknown
  {
    hide Sum, Find, TxRows, JournalRows, HoldRows, AllGood, CaptureByEvent, ReleaseHold;
    if EventApplies(db, event, op) {
      var o := db.operations[op];
      assert OpRow(|db.payments|, o);
      SetOpSound(db, op, OpSucceeded);
      EventFailureView(db, op, o.payment);
      if o.kind == ChargeOp {
        ChargeIsReserved(db, op);
        CaptureByEventSound(SetOpStatus(db, op, OpSucceeded), o.payment, db.requests[o.payment].reservation.value,
                            customer, clearing);
      }
    }
  }

  /** The refund is allowed, fits what remains, is not answered from the record, and the
      provider confirms it. */
  predicate RefundGoesThrough(db: Db, s: Step, p: nat)
    requires p < |db.payments|
  {
    && s.Refund? && s.payment == p && s.answer == Success
    && Refundable(db.payments[p].status) && s.currency == db.payments[p].currency
    && AmountMinor(Value(s.requested)).Ok?
    && Value(s.requested) <= Posted(db, p, CaptureType) - Posted(db, p, RefundType)
    && var i := Find(db.transactions, TxHasKey(TxRefund(p, s.requested, s.currency)));
       (i < 0 || db.transactions[i].status == TxPending)
  }

  lemma RefundIsPosted(db: Db, p: nat, requested: Amount, currency: Currency, customer: nat, clearing: nat)
    requires Sound(db) && p < |db.payments|
    requires RefundGoesThrough(db, Refund(p, requested, currency, customer, clearing, Success), p)
    ensures var a := RefundSpec(db, p, requested, currency, customer, clearing, Success); a.Done? && a.db != db
  {
    hide Sum, Find, TxRows, JournalRows, HoldRows, OpRows, PostRefund, OpenRefund;
    OpenIsDone(db, p, requested, currency);
    OpenRefundSound(db, p, requested, currency);
    OpenRefundTables(db, p, requested, currency, p);
    var open := OpenRefund(db, p, requested, currency);
    var refundable := Posted(db, p, CaptureType) - Posted(db, p, RefundType);
    PostRefundSound(open.db, p, open.value, requested, currency, customer, clearing, refundable);
    assert RefundSpec(db, p, requested, currency, customer, clearing, Success)
           == ApplyRefund(db, p, requested, currency, customer, clearing, Success, refundable);
    ApplyRefundView(db, p, requested, currency, customer, clearing, Success, p);
  }

  lemma OpenIsDone(db: Db, p: nat, requested: Amount, currency: Currency)
    requires Sound(db) && p < |db.payments|
    ensures OpenRefund(db, p, requested, currency).Done? <==> AmountMinor(Value(requested)).Ok?
  {
    hide Sum, Find, TxRows, JournalRows, HoldRows, OpRows;
    SetStatusSound(db, p, RefundProcessing);
    RegisterSound(SetStatus(db, p, RefundProcessing), p, RefundKey(p, requested, currency));
  }

  /** A step pays money back exactly when it is a refund that goes through. */
  lemma PaysBackExactlyWhen(w: World, s: Step, p: nat)
    requires Sound(w.db) && p < |w.db.payments|
    ensures var m := MoveFor(w, s, p);
            && (m.PayBack? && m.answer == Success <==> RefundGoesThrough(w.db, s, p))
            && (m.PayBack? ==> s.Refund? && m.amount == Value(s.requested))
  {
    hide Sum, Find, TxRows, JournalRows, HoldRows, OpRows, ViewOf, OpenRefund, PostRefund;
    if s.Refund? {
      OpenIsDoneIfInRange(w.db, s);
      if RefundGoesThrough(w.db, s, p) {
        RefundIsPosted(w.db, p, s.requested, s.currency, s.customer, s.clearing);
      }
    }
  }

  lemma OpenIsDoneIfInRange(db: Db, s: Step)
    requires Sound(db) && s.Refund?
    ensures s.payment < |db.payments| ==>
              (OpenRefund(db, s.payment, s.requested, s.currency).Done? <==> AmountMinor(Value(s.requested)).Ok?)
  {
    hide Sum, Find, TxRows, JournalRows, HoldRows, OpRows, OpenRefund;
    if s.payment < |db.payments| {
      OpenIsDone(db, s.payment, s.requested, s.currency);
    }
  }
}
