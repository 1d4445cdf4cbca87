/** The rail and the ledger: what the provider is asked to charge and refund against
    what the books record. Two paths file a capture under different transaction keys,
    and a payment is over-captured exactly when both have filed. */
module Rail {
  import opened Domain
  import opened Sums
  import opened Ledger
  import opened Workers
  import opened Resolvers
  import opened Lifecycles
  import opened Controls
  import opened Machine
  import opened Rows
  import opened Views
  import opened Moves
  import opened Steps
  import opened Guards
  import opened Safety

  ghost predicate HasTx(db: Db, key: TxKey) {
    exists i :: 0 <= i < |db.transactions| && db.transactions[i].key == key
  }

  lemma HasTxCounts(db: Db, key: TxKey)
    ensures HasTx(db, key) <==> Sum(db.transactions, TxCount(key)) > 0
  {
    TxLookup(db, key);
    if HasTx(db, key) {
      var i :| 0 <= i < |db.transactions| && db.transactions[i].key == key;
      assert TxHasKey(key)(db.transactions[i]);
    }
    if Sum(db.transactions, TxCount(key)) > 0 {
      var i := SumPositive(db.transactions, TxCount(key));
    }
  }

  /** The step applies a success to the payment whose capture the other path has already
      filed: a worker that holds one while the event's capture is there, or a success event
      for the charge while the worker's is. */
  ghost predicate Recaptures(w: World, s: Step, p: nat) {
    && p < |w.db.payments|
    && match s
       case Finish(k, _, _) =>
         && k < |w.workers| && w.workers[k].execution.payment == p
         && w.workers[k].outcome == Some(Success) && !w.workers[k].finished
         && Open(w.db.payments[p].status) && HasTx(w.db, TxCaptureByEvent(p))
       case Resolve(event, op, outcome, _, _) =>
         && EventApplies(w.db, event, op) && outcome == Success
         && w.db.operations[op].kind == ChargeOp && w.db.operations[op].payment == p
         && HasTx(w.db, TxCapture(p))
       case _ => false
  }

  /** These guards are met exactly when the step settles the charge and finds the other
      path's capture. */
  lemma RecapturesExactlyWhen(w: World, s: Step, p: nat)
    requires Inv(w) && p < |w.db.payments|
    ensures var m := MoveFor(w, s, p);
            Recaptures(w, s, p) <==>
              || (s.Finish? && m == Settle(Success) && HasTx(w.db, TxCaptureByEvent(p)))
              || (s.Resolve? && m.Hear? && m.kind == ChargeOp && m.outcome == Success && HasTx(w.db, TxCapture(p)))
  {
    hide Sum, Find, Sound, AllGood, AllFaithful, ApprovalRows, ResolveSpec, HasTx, FilingOf, CallsOf, HoldOf;
    if s.Resolve? {
      ResolvedExactlyWhen(w.db, s.event, s.operation, s.outcome, s.customer, s.clearing);
    }
  }

  /** Some step of the run recaptures the payment. */
  ghost predicate RunRecaptures(catalog: seq<PolicyVersion>, w: World, steps: seq<Step>, p: nat) {
    steps != []
    && (|| RunRecaptures(catalog, w, steps[..|steps| - 1], p)
        || Recaptures(Execute(catalog, w, steps[..|steps| - 1]), steps[|steps| - 1], p))
  }

  /** One step over-captures exactly when it recaptures. */
  lemma StepOvercaptures(catalog: seq<PolicyVersion>, w: World, s: Step, p: nat)
    requires Inv(w) && p < |w.db.payments|
    ensures var after := Apply(catalog, w, s).db;
            && p < |after.payments| && after.payments[p].amount == w.db.payments[p].amount
            && (Posted(after, p, CaptureType) <= after.payments[p].amount <==>
                  Posted(w.db, p, CaptureType) <= w.db.payments[p].amount && !Recaptures(w, s, p))
  {
    hide Sum, Apply, CallsOf, Sound, ApprovalRows, HasTx, Recaptures;
    StepMoves(catalog, w, s, p);
    RecapturesExactlyWhen(w, s, p);
    HasTxCounts(w.db, TxCapture(p));
    HasTxCounts(w.db, TxCaptureByEvent(p));
    assert Good(ViewOf(w.db, p));
    MoveOfSuccess(w, s, p);
    OvercaptureOfMove(ViewOf(w.db, p), MoveFor(w, s, p));
  }

  lemma MoveOfSuccess(w: World, s: Step, p: nat)
    requires p < |w.db.payments|
    ensures var m := MoveFor(w, s, p);
            && (m.Settle? ==> s.Finish?)
            && (m.Hear? ==> s.Resolve? && m.outcome == s.outcome)
            && (m.CardCapture? ==> w.db.payments[p].status == Authorized)
  {
    hide Sum, CallsOf, FilingOf;
  }

  /** Which moves take the captured total past the payment's amount. */
  lemma OvercaptureOfMove(v: View, m: Move)
    requires Good(v) && Allowed(v, m)
    ensures Moved(v, m).filing.captured <= v.amount <==>
              && v.filing.captured <= v.amount
              && !(m == Settle(Success) && v.filing.byEvent > 0)
              && !(m.Hear? && m.kind == ChargeOp && m.outcome == Success && v.filing.byWorker > 0)
  {
  }

  /** Over a whole run, captures stay within the payment's amount exactly when no step
      recaptured it. */
  lemma {:induction false} CapturedWithinAmount(catalog: seq<PolicyVersion>, start: World, steps: seq<Step>, p: nat)
    requires Init(start)
    ensures var db := Execute(catalog, start, steps).db;
            p < |db.payments| ==>
              (Posted(db, p, CaptureType) <= db.payments[p].amount <==> !RunRecaptures(catalog, start, steps, p))
  {
    hide Sum, Apply, Recaptures, Sound, AllGood, AllFaithful, ApprovalRows;
    if steps != [] {
      var w := Execute(catalog, start, steps[..|steps| - 1]);
      var s := steps[|steps| - 1];
      CapturedWithinAmount(catalog, start, steps[..|steps| - 1], p);
      Reached(catalog, start, steps[..|steps| - 1]);
      if p < |w.db.payments| {
        StepOvercaptures(catalog, w, s, p);
      } else {
        NotYetRecaptured(catalog, start, steps, p);
        if p < |Apply(catalog, w, s).db.payments| {
          NewIsUncaptured(catalog, w, s, p);
        }
      }
    }
  }

  lemma NewIsUncaptured(catalog: seq<PolicyVersion>, w: World, s: Step, p: nat)
    requires Inv(w) && |w.db.payments| <= p < |Apply(catalog, w, s).db.payments|
    ensures var db := Apply(catalog, w, s).db; Posted(db, p, CaptureType) == 0 < db.payments[p].amount
  {
    hide Sum, Apply, Sound, AllGood, AllFaithful, ApprovalRows;
    StepCreates(catalog, w, s, p);
  }

  /** A payment that does not exist before the last step was never recaptured. */
  lemma {:induction false} NotYetRecaptured(catalog: seq<PolicyVersion>, start: World, steps: seq<Step>, p: nat)
    requires Init(start) && steps != []
    requires p >= |Execute(catalog, start, steps[..|steps| - 1]).db.payments|
    ensures !RunRecaptures(catalog, start, steps, p)
  {
    hide Sum, Apply, Inv, MoveFor, HasTx;
    var before := steps[..|steps| - 1];
    if before != [] {
      var w := Execute(catalog, start, before[..|before| - 1]);
      Reached(catalog, start, before[..|before| - 1]);
      StepKeepsPayments(catalog, w, before[|before| - 1]);
      NotYetRecaptured(catalog, start, before, p);
    }
  }

  /** A refund that goes through and, with the refunds before it, exceeds the payment's amount. */
  predicate Overrefunds(db: Db, s: Step, p: nat) {
    && p < |db.payments| && RefundGoesThrough(db, s, p)
    && Posted(db, p, RefundType) + Value(s.requested) > db.payments[p].amount
  }

  /** Some step of the run over-refunds the payment. */
  predicate RunOverrefunds(catalog: seq<PolicyVersion>, w: World, steps: seq<Step>, p: nat) {
    steps != []
    && (|| RunOverrefunds(catalog, w, steps[..|steps| - 1], p)
        || Overrefunds(Execute(catalog, w, steps[..|steps| - 1]).db, steps[|steps| - 1], p))
  }

  /** One step takes POSTED refunds past the amount exactly when it is such a refund, which
      goes through only for a payment captured past its amount. */
  lemma StepOverrefunds(catalog: seq<PolicyVersion>, w: World, s: Step, p: nat)
    requires Inv(w) && p < |w.db.payments|
    ensures var after := Apply(catalog, w, s).db;
            && p < |after.payments| && after.payments[p].amount == w.db.payments[p].amount
            && (Posted(after, p, RefundType) <= after.payments[p].amount <==>
                  Posted(w.db, p, RefundType) <= w.db.payments[p].amount && !Overrefunds(w.db, s, p))
    ensures Overrefunds(w.db, s, p) ==> Posted(w.db, p, CaptureType) > w.db.payments[p].amount
  {
    hide Sum, Apply, CallsOf, Sound, ApprovalRows, MoveFor, RefundGoesThrough;
    StepMoves(catalog, w, s, p);
    PaysBackExactlyWhen(w, s, p);
    assert Good(ViewOf(w.db, p));
    RefundsOfMove(ViewOf(w.db, p), MoveFor(w, s, p));
    FitsWhatRemains(w.db, s, p);
  }

  lemma FitsWhatRemains(db: Db, s: Step, p: nat)
    requires p < |db.payments|
    ensures RefundGoesThrough(db, s, p) ==> Value(s.requested) <= Posted(db, p, CaptureType) - Posted(db, p, RefundType)
  {
    hide Sum, Find;
  }

  /** Only money paid back adds to the refunds. */
  lemma RefundsOfMove(v: View, m: Move)
    requires Good(v) && Allowed(v, m)
    ensures Moved(v, m).amount == v.amount
    ensures Moved(v, m).filing.refunded
            == v.filing.refunded + if m.PayBack? && m.answer == Success then m.amount else 0
    ensures m.PayBack? ==> m.amount > 0
  {
  }

  /** Over a whole run, refunds stay within the payment's amount exactly when no step
      over-refunded it. */
  lemma {:induction false} RefundedWithinAmount(catalog: seq<PolicyVersion>, start: World, steps: seq<Step>, p: nat)
    requires Init(start)
    ensures var db := Execute(catalog, start, steps).db;
            p < |db.payments| ==>
              (Posted(db, p, RefundType) <= db.payments[p].amount <==> !RunOverrefunds(catalog, start, steps, p))
  {
    hide Sum, Apply, Overrefunds, Sound, AllGood, AllFaithful, ApprovalRows;
    if steps != [] {
      var w := Execute(catalog, start, steps[..|steps| - 1]);
      var s := steps[|steps| - 1];
      RefundedWithinAmount(catalog, start, steps[..|steps| - 1], p);
      Reached(catalog, start, steps[..|steps| - 1]);
      if p < |w.db.payments| {
        StepOverrefunds(catalog, w, s, p);
      } else {
        NotYetOverrefunded(catalog, start, steps, p);
        if p < |Apply(catalog, w, s).db.payments| {
          NewIsUnrefunded(catalog, w, s, p);
        }
      }
    }
  }

  lemma NewIsUnrefunded(catalog: seq<PolicyVersion>, w: World, s: Step, p: nat)
    requires Inv(w) && |w.db.payments| <= p < |Apply(catalog, w, s).db.payments|
    ensures var db := Apply(catalog, w, s).db; Posted(db, p, RefundType) == 0 < db.payments[p].amount
  {
    hide Sum, Apply, Sound, AllGood, AllFaithful, ApprovalRows;
    StepCreates(catalog, w, s, p);
  }

  lemma {:induction false} NotYetOverrefunded(catalog: seq<PolicyVersion>, start: World, steps: seq<Step>, p: nat)
    requires Init(start) && steps != []
    requires p >= |Execute(catalog, start, steps[..|steps| - 1]).db.payments|
    ensures !RunOverrefunds(catalog, start, steps, p)
  {
    hide Sum, Apply, Inv, RefundGoesThrough, Posted;
    var before := steps[..|steps| - 1];
    if before != [] {
      var w := Execute(catalog, start, before[..|before| - 1]);
      Reached(catalog, start, before[..|before| - 1]);
      StepKeepsPayments(catalog, w, before[|before| - 1]);
      NotYetOverrefunded(catalog, start, before, p);
    }
  }

  /** Nobody is over-refunded who was not recaptured before. */
  lemma {:induction false} OverrefundNeedsRecapture(catalog: seq<PolicyVersion>, start: World, steps: seq<Step>, p: nat)
    requires Init(start) && RunOverrefunds(catalog, start, steps, p)
    ensures RunRecaptures(catalog, start, steps, p)
  {
    hide Sum, Apply, Recaptures, Inv, Posted, RefundGoesThrough;
    var before := steps[..|steps| - 1];
    if RunOverrefunds(catalog, start, before, p) {
      OverrefundNeedsRecapture(catalog, start, before, p);
    } else {
      Reached(catalog, start, before);
      StepOverrefunds(catalog, Execute(catalog, start, before), steps[|steps| - 1], p);
      CapturedWithinAmount(catalog, start, before, p);
    }
  }

  function MinorOf(p: nat): Transaction -> int {
    (t: Transaction) => PostedOf(p, RefundType)(t) / 100
  }

  /** The POSTED refunds in minor units. */
  function RefundedMinor(db: Db, p: nat): int {
    Sum(db.transactions, MinorOf(p))
  }

  /** Refunds go out in exact minor units, so nothing is lost in converting them. */
  lemma RefundsAreExact(db: Db, p: nat)
    requires TxRows(db.requests, db.transactions)
    ensures 100 * RefundedMinor(db, p) == Posted(db, p, RefundType)
  {
    forall i | 0 <= i < |db.transactions|
      ensures PostedOf(p, RefundType)(db.transactions[i]) % 100 == 0
    {
      assert TxRow(db.requests, db.transactions[i]);
    }
    MinorSum(db.transactions, p);
  }

  lemma {:induction false} MinorSum(txs: seq<Transaction>, p: nat)
    requires forall i :: 0 <= i < |txs| ==> PostedOf(p, RefundType)(txs[i]) % 100 == 0
    ensures 100 * Sum(txs, MinorOf(p)) == Sum(txs, PostedOf(p, RefundType))
  {
    if txs != [] {
      MinorSum(txs[..|txs| - 1], p);
    }
  }

  /** The rail bound for POSTED refunds, exactly: they stay within the payment's amount, and
      their minor units within the minor units charged, if and only if no step over-refunded
      the payment, which takes a step that recaptured it. Charging truncates and falls short
      of the books by less than one minor unit. */
  lemma RefundedWithinCharged(catalog: seq<PolicyVersion>, start: World, steps: seq<Step>, p: nat)
    requires Init(start)
    ensures var db := Execute(catalog, start, steps).db;
            p < |db.payments| ==>
              && (Posted(db, p, RefundType) <= db.payments[p].amount <==> !RunOverrefunds(catalog, start, steps, p))
              && (RefundedMinor(db, p) <= ChargeMinor(db.payments[p].amount) <==> !RunOverrefunds(catalog, start, steps, p))
              && (RunOverrefunds(catalog, start, steps, p) ==> RunRecaptures(catalog, start, steps, p))
              && 0 <= db.payments[p].amount - 100 * ChargeMinor(db.payments[p].amount) < 100
  {
    hide Sum, Apply, RunRecaptures, RunOverrefunds;
    Reached(catalog, start, steps);
    RefundedWithinAmount(catalog, start, steps, p);
    if RunOverrefunds(catalog, start, steps, p) {
      OverrefundNeedsRecapture(catalog, start, steps, p);
    }
    var db := Execute(catalog, start, steps).db;
    if p < |db.payments| {
      RefundsAreExact(db, p);
      assert Good(ViewOf(db, p));
    }
  }

  /** What a success event that applies leaves behind: a capture journal if the operation is
      the charge, and for any other operation only if it was already there. */
  lemma EventJournals(catalog: seq<PolicyVersion>, w: World, event: nat, op: nat, customer: nat, clearing: nat)
    requires Inv(w) && EventApplies(w.db, event, op)
    ensures var p := w.db.operations[op].payment;
            var after := Apply(catalog, w, Resolve(event, op, Success, customer, clearing)).db;
            && p < |after.payments| && after.payments[p].status == Succeeded
            && (Sum(after.journals, JournalCount(JCapture(p))) == 1 <==>
                  || w.db.operations[op].kind == ChargeOp
                  || Sum(w.db.journals, JournalCount(JCapture(p))) == 1)
  {
    hide Sum, Apply, CallsOf, Sound, ApprovalRows, ResolveSpec;
    var p := w.db.operations[op].payment;
    ResolvedExactlyWhen(w.db, event, op, Success, customer, clearing);
    StepMoves(catalog, w, Resolve(event, op, Success, customer, clearing), p);
    assert Good(ViewOf(w.db, p));
  }
}
