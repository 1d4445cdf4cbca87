/** Safety of every run, with no assumption on what the provider answers. */
module Safety {
  import opened Domain
  import opened Sums
  import opened Repositories
  import opened Ledger
  import opened Lifecycles
  import opened Controls
  import opened Machine
  import opened Rows
  import opened Views
  import opened Moves
  import opened Steps
  import opened Approvals

  predicate PostedRow(t: Transaction, p: nat, kind: TxType) {
    t.payment == p && t.kind == kind && t.status == TxPosted
  }

  /** The state after a run from an initial state satisfies the invariant. */
  lemma Reached(catalog: seq<PolicyVersion>, start: World, steps: seq<Step>)
    requires Init(start)
    ensures Inv(Execute(catalog, start, steps))
  {
    InitInv(start);
    RunKeepsInv(catalog, start, steps);
  }

  /** In every reachable state a charge payment that reads SUCCEEDED, REFUNDED or
      REFUND_FAILED has a POSTED capture of its amount, and exactly one capture
      journal, which moves exactly its amount. */
  lemma CapturedIsRecorded(catalog: seq<PolicyVersion>, start: World, steps: seq<Step>, p: nat)
    requires Init(start)
    ensures var db := Execute(catalog, start, steps).db;
            p < |db.payments| && p < |db.requests| && db.requests[p].reservation.Some?
            && Refundable(db.payments[p].status)
            ==> && (exists i :: 0 <= i < |db.transactions| && PostedRow(db.transactions[i], p, CaptureType)
                                && db.transactions[i].amount == db.payments[p].amount)
                && Sum(db.journals, JournalCount(JCapture(p))) == 1
                && (forall j :: 0 <= j < |db.journals| && db.journals[j].key == JCapture(p) ==>
                      exists customer: nat, clearing: nat ::
                        db.journals[j].postings
                        == Transfer(customer, clearing, db.payments[p].amount, db.payments[p].currency))
  {
    hide Sum;
    Reached(catalog, start, steps);
    var db := Execute(catalog, start, steps).db;
    if p < |db.payments| && db.requests[p].reservation.Some? && Refundable(db.payments[p].status) {
      HoldMeansReservation(db, p);
      assert Good(ViewOf(db, p));
      var i := SumPositive(db.transactions, PostedOf(p, CaptureType));
      assert TxRow(db.requests, db.transactions[i]);
      assert PostedRow(db.transactions[i], p, CaptureType);
      forall j | 0 <= j < |db.journals| && db.journals[j].key == JCapture(p)
        ensures exists customer: nat, clearing: nat ::
                  db.journals[j].postings == Transfer(customer, clearing, db.payments[p].amount, db.payments[p].currency)
      {
        assert JournalRow(db.requests, db.journals[j]);
      }
    }
  }

  /** No payment has both a POSTED capture and a POSTED void, in any reachable state. */
  lemma CaptureExcludesVoid(catalog: seq<PolicyVersion>, start: World, steps: seq<Step>, p: nat, i: nat, j: nat)
    requires Init(start)
    ensures var txs := Execute(catalog, start, steps).db.transactions;
            i < |txs| && j < |txs| ==> !(PostedRow(txs[i], p, CaptureType) && PostedRow(txs[j], p, VoidType))
  {
    hide Sum;
    Reached(catalog, start, steps);
    var db := Execute(catalog, start, steps).db;
    var txs := db.transactions;
    if i < |txs| && j < |txs| && PostedRow(txs[i], p, CaptureType) && PostedRow(txs[j], p, VoidType) {
      assert TxRow(db.requests, txs[i]) && TxRow(db.requests, txs[j]);
      assert Good(ViewOf(db, p));
      assert db.requests[p].amount > 0;
      forall k | 0 <= k < |txs|
        ensures PostedOf(p, CaptureType)(txs[k]) >= 0
      {
        assert TxRow(db.requests, txs[k]);
      }
      SumAtLeast(txs, PostedOf(p, CaptureType), i);
      SumAtLeast(txs, TxCount(TxVoid(p)), j);
    }
  }

  /** Never AUTHORIZED again, and never more than imported: a payment that is AUTHORIZED
      at some point stays without a reservation, so no worker ever claims it. */
  lemma {:induction false} AuthorizedIsNeverClaimed(catalog: seq<PolicyVersion>, w: World, steps: seq<Step>, p: nat)
    requires Inv(w) && p < |w.db.payments| && w.db.payments[p].status == Authorized
    ensures var db := Execute(catalog, w, steps).db;
            && p < |db.payments| && !Claimable(db, p)
            && HoldOf(db.requests, db.reservations, p) == None && db.payments[p].status != ApprovalRequired
  {
    hide Sum, Apply, MoveFor, StepsBy, FilingOf, CallsOf, Moved, Allowed, TxRows, JournalRows, OpRows;
    RunKeepsInv(catalog, w, steps);
    if steps == [] {
      assert Good(ViewOf(w.db, p));
    } else {
      var before := Execute(catalog, w, steps[..|steps| - 1]);
      var s := steps[|steps| - 1];
      AuthorizedIsNeverClaimed(catalog, w, steps[..|steps| - 1], p);
      RunKeepsInv(catalog, w, steps[..|steps| - 1]);
      StepMoves(catalog, before, s, p);
      assert Good(ViewOf(before.db, p));
      UnheldStaysUnheld(before.db, Apply(catalog, before, s).db, p, MoveFor(before, s, p));
    }
    var db := Execute(catalog, w, steps).db;
    HoldMeansReservation(db, p);
  }

  lemma UnheldStaysUnheld(before: Db, after: Db, p: nat, m: Move)
    requires p < |before.payments| && StepsBy(before, after, p, m)
    requires HoldOf(before.requests, before.reservations, p) == None && before.payments[p].status != ApprovalRequired
    requires Good(ViewOf(before, p))
    ensures p < |after.payments|
    ensures HoldOf(after.requests, after.reservations, p) == None && after.payments[p].status != ApprovalRequired
  {
    hide Sum, FilingOf, CallsOf;
  }

  /** No step re-enters AUTHORIZED. */
  lemma AuthorizedIsNotReentered(catalog: seq<PolicyVersion>, start: World, steps: seq<Step>, s: Step, p: nat)
    requires Init(start)
    ensures var w := Execute(catalog, start, steps);
            var after := Apply(catalog, w, s).db;
            p < |w.db.payments| ==>
              p < |after.payments| && (after.payments[p].status == Authorized ==> w.db.payments[p].status == Authorized)
  {
    hide Sum, Apply, MoveFor, FilingOf, CallsOf, Moved, Allowed, Sound, ApprovalRows;
    Reached(catalog, start, steps);
    var w := Execute(catalog, start, steps);
    if p < |w.db.payments| {
      StepMoves(catalog, w, s, p);
      MovesGrow(ViewOf(w.db, p), MoveFor(w, s, p));
    }
  }

  /** Over every run, POSTED refunds stay within POSTED captures, and a payment that
      reads REFUNDED has given back everything it captured. */
  lemma RefundsWithinCaptures(catalog: seq<PolicyVersion>, start: World, steps: seq<Step>, p: nat)
    requires Init(start)
    ensures var db := Execute(catalog, start, steps).db;
            p < |db.payments| ==>
              && 0 <= Posted(db, p, RefundType) <= Posted(db, p, CaptureType)
              && (db.payments[p].status == Refunded ==> Posted(db, p, RefundType) == Posted(db, p, CaptureType))
  {
    hide Sum;
    Reached(catalog, start, steps);
    var db := Execute(catalog, start, steps).db;
    if p < |db.payments| {
      assert Good(ViewOf(db, p));
    }
  }
}
