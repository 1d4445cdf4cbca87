/** A charge's outcome is recorded once and then reused: the provider is not asked again. */
module Recorded {
  import opened Domain
  import opened Sums
  import opened Workers
  import opened Resolvers
  import opened Lifecycles
  import opened Controls
  import opened Apis
  import opened Machine
  import opened Rows
  import opened Steps
  import opened Approvals
  import opened Safety
  import opened Frames
  import opened Guards
  import opened Deliveries
  import opened Flows
  import opened Outcomes

  /** The record of a payment's charge is its one charge operation. */
  lemma RecordIsTheCharge(db: Db, p: nat, i: nat)
    requires Sound(db) && i < |db.operations| && db.operations[i].key == ChargeKey(p)
    ensures DurableOutcome(db, p)
            == match db.operations[i].status
               case OpSucceeded => Some(Success)
               case OpFailed => Some(Failure)
               case OpUnknown => Some(Unknown)
               case OpPending => None
  {
    hide Sum, TxRows, JournalRows, HoldRows;
    var ops := db.operations;
    var last := FindLast(ops, IsChargeOf(p));
    assert OpRow(|db.payments|, ops[i]);
    assert IsChargeOf(p)(ops[i]);
    assert OpRow(|db.payments|, ops[last]);
    if last != i {
      SumAtLeastTwo(ops, OpKeyCount(ChargeKey(p)), if last < i then last else i, if last < i then i else last);
    }
  }

  /** A row there keeps its key, and a record once made is never taken back to pending. */
  ghost predicate RecordsStay(before: seq<Operation>, after: seq<Operation>) {
    && |before| <= |after|
    && forall i :: 0 <= i < |before| ==>
         && after[i].key == before[i].key
         && (before[i].status != OpPending ==> after[i].status != OpPending)
  }

  lemma StepKeepsRecords(catalog: seq<PolicyVersion>, w: World, s: Step)
    requires Inv(w)
    ensures RecordsStay(w.db.operations, Apply(catalog, w, s).db.operations)
  {
    hide Sum, Find, AllGood, TxRows, JournalRows, OpRows, ApprovalRows, CreateSpec, ApproveSpec, DenySpec, BirthSpec, BeginSpec,
      FinishSpec, ResolveSpec, CaptureSpec, VoidSpec, RefundSpec, Ended, Refiled, RefundActs;
    match s
    case Begin(p) => BeginInFull(w.db, p);
    case Charge(_, _) =>
    case ReceiveEvent(_) =>
    case Finish(k, customer, clearing) =>
      if k < |w.workers| && w.workers[k].outcome.Some? && !w.workers[k].finished {
        FinishInFull(w.db, w.workers[k].execution, customer, clearing, w.workers[k].outcome.value);
      }
    case Resolve(event, op, outcome, customer, clearing) => DeliveryUsesUp(w.db, event, op, outcome, customer, clearing);
    case Capture(p, amount, currency, customer, clearing, answer) =>
      CaptureInFull(w.db, p, amount, currency, customer, clearing, answer);
    case Void(p, amount, currency, answer) => VoidInFull(w.db, p, amount, currency, answer);
    case Refund(p, requested, currency, customer, clearing, answer) =>
      RefundInFull(w.db, p, requested, currency, customer, clearing, answer);
    case _ => AdmissionFrame(catalog, w, s);
  }

  lemma {:induction false} RunKeepsRecords(catalog: seq<PolicyVersion>, w: World, steps: seq<Step>)
    requires Inv(w)
    ensures RecordsStay(w.db.operations, Execute(catalog, w, steps).db.operations)
  {
    hide Apply, Inv;
    if steps != [] {
      RunKeepsRecords(catalog, w, steps[..|steps| - 1]);
      RunKeepsInv(catalog, w, steps[..|steps| - 1]);
      StepKeepsRecords(catalog, Execute(catalog, w, steps[..|steps| - 1]), steps[|steps| - 1]);
    }
  }

  predicate HasCharge(db: Db, p: nat) {
    exists i :: 0 <= i < |db.operations| && db.operations[i].key == ChargeKey(p)
  }

  /** Every worker that has begun has its charge operation. */
  ghost predicate WorkersHaveCharges(w: World) {
    forall k: nat :: k < |w.workers| ==> HasCharge(w.db, w.workers[k].execution.payment)
  }

  lemma RecordsKeepCharges(before: Db, after: Db, p: nat)
    requires RecordsStay(before.operations, after.operations) && HasCharge(before, p)
    ensures HasCharge(after, p)
  {
    var i: nat :| i < |before.operations| && before.operations[i].key == ChargeKey(p);
    assert after.operations[i].key == ChargeKey(p);
  }

  lemma StepWorkers(catalog: seq<PolicyVersion>, w: World, s: Step)
    requires Inv(w) && WorkersHaveCharges(w)
    ensures WorkersHaveCharges(Apply(catalog, w, s))
  {
    hide Sum, Find, Sound, AllGood, ApprovalRows, CreateSpec, ApproveSpec, DenySpec, BirthSpec, BeginSpec, FinishSpec,
      ResolveSpec, CaptureSpec, VoidSpec, RefundSpec, RecordsStay, HasCharge;
    var after := Apply(catalog, w, s);
    StepKeepsRecords(catalog, w, s);
    forall k: nat | k < |after.workers|
      ensures HasCharge(after.db, after.workers[k].execution.payment)
    {
      if k < |w.workers| {
        RecordsKeepCharges(w.db, after.db, w.workers[k].execution.payment);
      } else {
        BegunHasCharge(w.db, s.payment);
      }
    }
  }

  lemma BegunHasCharge(db: Db, p: nat)
    requires Sound(db) && BeginSpec(db, p).Done?
    ensures BeginSpec(db, p).value.payment == p && HasCharge(BeginSpec(db, p).db, p)
  {
    hide Sum, Find, TxRows, JournalRows, OpRows, HoldRows, BeginSpec;
    BeginInFull(db, p);
    var ops := db.operations;
    var after := BeginSpec(db, p).db.operations;
    if exists i :: 0 <= i < |ops| && ops[i].key == ChargeKey(p) {
      var i :| 0 <= i < |ops| && ops[i].key == ChargeKey(p);
      assert after[i].key == ChargeKey(p);
    } else {
      assert after[|ops|].key == ChargeKey(p);
    }
  }

  lemma {:induction false} RunHasCharges(catalog: seq<PolicyVersion>, start: World, steps: seq<Step>)
    requires Init(start)
    ensures WorkersHaveCharges(Execute(catalog, start, steps))
  {
    hide Apply, Inv, HasCharge;
    if steps != [] {
      RunHasCharges(catalog, start, steps[..|steps| - 1]);
      Reached(catalog, start, steps[..|steps| - 1]);
      StepWorkers(catalog, Execute(catalog, start, steps[..|steps| - 1]), steps[|steps| - 1]);
    }
  }

  /** In every reachable state, whatever outcome a worker's last transaction acts on, and
      whatever outcome an event brings for a charge, is the recorded one afterwards. */
  lemma OutcomeIsRecorded(catalog: seq<PolicyVersion>, start: World, steps: seq<Step>, s: Step)
    requires Init(start)
    ensures var w := Execute(catalog, start, steps);
            var after := Apply(catalog, w, s).db;
            && (s.Finish? && s.worker < |w.workers| && w.workers[s.worker].outcome.Some? && !w.workers[s.worker].finished ==>
                  var p := w.workers[s.worker].execution.payment;
                  p < |w.db.payments|
                  && (w.db.payments[p].status == Processing ==>
                        DurableOutcome(after, p) == w.workers[s.worker].outcome))
            && (s.Resolve? && EventApplies(w.db, s.event, s.operation) && s.outcome != Unknown
                && w.db.operations[s.operation].kind == ChargeOp ==>
                  DurableOutcome(after, w.db.operations[s.operation].payment) == Some(s.outcome))
  {
    hide Sum, Find, Sound, AllGood, ApprovalRows, FinishSpec, ResolveSpec, DurableOutcome, EventApplies, Apply, HasCharge;
    var w := Execute(catalog, start, steps);
    Reached(catalog, start, steps);
    RunHasCharges(catalog, start, steps);
    StepKeepsInv(catalog, w, s);
    if s.Finish? && s.worker < |w.workers| && w.workers[s.worker].outcome.Some? && !w.workers[s.worker].finished {
      FinishRecords(catalog, w, s);
    }
    if s.Resolve? && EventApplies(w.db, s.event, s.operation) {
      ResolveRecords(catalog, w, s);
    }
  }

  lemma FinishRecords(catalog: seq<PolicyVersion>, w: World, s: Step)
    requires Inv(w) && WorkersHaveCharges(w) && Sound(Apply(catalog, w, s).db)
    requires s.Finish? && s.worker < |w.workers| && w.workers[s.worker].outcome.Some? && !w.workers[s.worker].finished
    ensures var p := w.workers[s.worker].execution.payment;
            && p < |w.db.payments|
            && (w.db.payments[p].status == Processing ==>
                  DurableOutcome(Apply(catalog, w, s).db, p) == w.workers[s.worker].outcome)
  {
    hide Sum, Find, TxRows, JournalRows, HoldRows, OpRows, AllGood, ApprovalRows, FinishSpec, DurableOutcome, Ended, Refiled,
      Filed;
    var e := w.workers[s.worker].execution;
    FinishInFull(w.db, e, s.customer, s.clearing, w.workers[s.worker].outcome.value);
    assert HasCharge(w.db, e.payment);
    var i: nat :| i < |w.db.operations| && w.db.operations[i].key == ChargeKey(e.payment);
    ChargeRow(w.db, i);
    if w.db.payments[e.payment].status == Processing {
      RecordIsTheCharge(Apply(catalog, w, s).db, e.payment, i);
    }
  }

  lemma ChargeRow(db: Db, i: nat)
    requires Sound(db) && i < |db.operations|
    ensures var o := db.operations[i];
            (o.key.ChargeKey? <==> o.kind == ChargeOp) && o.key.payment == o.payment < |db.payments|
  {
    hide Sum, TxRows, JournalRows, HoldRows;
    assert OpRow(|db.payments|, db.operations[i]);
  }

  lemma ResolveRecords(catalog: seq<PolicyVersion>, w: World, s: Step)
    requires Inv(w) && Sound(Apply(catalog, w, s).db)
    requires s.Resolve? && EventApplies(w.db, s.event, s.operation)
    ensures s.outcome != Unknown && w.db.operations[s.operation].kind == ChargeOp ==>
              DurableOutcome(Apply(catalog, w, s).db, w.db.operations[s.operation].payment) == Some(s.outcome)
  {
    hide Sum, Find, TxRows, JournalRows, HoldRows, OpRows, AllGood, AllFaithful, ApprovalRows, ResolveSpec, DurableOutcome;
    ResolvedExactlyWhen(w.db, s.event, s.operation, s.outcome, s.customer, s.clearing);
    DeliveryUsesUp(w.db, s.event, s.operation, s.outcome, s.customer, s.clearing);
    ChargeRow(w.db, s.operation);
    if s.outcome != Unknown && w.db.operations[s.operation].kind == ChargeOp {
      RecordIsTheCharge(Apply(catalog, w, s).db, w.db.operations[s.operation].payment, s.operation);
    }
  }

  /** Once there is a recorded outcome there is one after every further run, and a worker that
      charges then takes it, whatever the provider would answer. */
  lemma RecordedIsReused(catalog: seq<PolicyVersion>, start: World, steps: seq<Step>, more: seq<Step>, p: nat, answer: Outcome)
    requires Init(start)
    ensures var w := Execute(catalog, start, steps);
            var later := Execute(catalog, w, more).db;
            DurableOutcome(w.db, p).Some? ==>
              DurableOutcome(later, p) == Some(ChargeOutcome(later, p, answer))
  {
    hide Sum, Apply, TxRows, JournalRows, HoldRows, AllGood, AllFaithful, ApprovalRows, DurableOutcome;
    var w := Execute(catalog, start, steps);
    Reached(catalog, start, steps);
    RunKeepsRecords(catalog, w, more);
    RunKeepsInv(catalog, w, more);
    var later := Execute(catalog, w, more).db;
    if DurableOutcome(w.db, p).Some? {
      var i := ChargeOfRecord(w.db, p);
      RecordIsTheCharge(w.db, p, i);
      RecordIsTheCharge(later, p, i);
      var status := later.operations[i].status;
      assert status.OpSucceeded? || status.OpFailed? || status.OpUnknown? || status.OpPending?;
    }
  }

  lemma ChargeOfRecord(db: Db, p: nat) returns (i: nat)
    requires Sound(db) && DurableOutcome(db, p).Some?
    ensures i < |db.operations| && db.operations[i].key == ChargeKey(p)
  {
    hide Sum, TxRows, JournalRows, HoldRows;
    i := FindLast(db.operations, IsChargeOf(p));
    assert OpRow(|db.payments|, db.operations[i]);
  }
}
