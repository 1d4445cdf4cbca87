/** A provider event is used up by the call that acts on it. */
module Deliveries {
  import opened Domain
  import opened Sums
  import opened Repositories
  import opened Ledger
  import opened Workers
  import opened Resolvers
  import opened Lifecycles
  import opened Controls
  import opened Apis
  import opened Machine
  import opened Rows
  import opened Steps
  import opened Approvals
  import opened Safety
  import opened Frames
  import opened Answers

  /** Whatever a delivery answers, if it is not refused its event reads processed afterwards
      and no other event changes. An applied event gives its operation the event's outcome; any
      other delivery changes no row but the event's. */
  lemma DeliveryUsesUp(db: Db, event: nat, op: nat, outcome: Outcome, customer: nat, clearing: nat)
    ensures var a := ResolveSpec(db, event, op, outcome, customer, clearing);
            a.Done? ==>
              && event < |db.events|
              && a.db.events == db.events[event := ProviderEvent(true, true)]
              && if a.value == Resolved then
                   && op < |db.operations|
                   && a.db.operations
                      == db.operations[op := db.operations[op].(status := if outcome == Success then OpSucceeded else OpFailed)]
                 else a.db == db.(events := a.db.events)
  {
    hide Sum, Find, PostJournal, ConsumeHold, ReleaseHold, CreateTransaction, CaptureByEvent;
    if event < |db.events| && op < |db.operations| && db.operations[op].payment < |db.payments|
       && db.payments[db.operations[op].payment].request < |db.requests| {
      var o := db.operations[op];
      var row := db.payments[o.payment];
      var marked := SetOpStatus(db, op, OpSucceeded);
      CaptureLeavesEvents(marked, o.payment, db.requests[row.request].reservation, row.amount, row.currency, customer, clearing);
      var failed := SetOpStatus(db, op, OpFailed);
      if db.requests[row.request].reservation.Some? {
        ReleaseLeavesEvents(failed, db.requests[row.request].reservation.value);
      }
    }
  }

  lemma CaptureLeavesEvents(db: Db, p: nat, reservation: Option<nat>, amount: Money, currency: Currency, customer: nat,
                            clearing: nat)
    ensures var a := CaptureByEvent(db, p, reservation, amount, currency, customer, clearing);
            a.Done? ==> a.db.events == db.events && a.db.operations == db.operations && |a.db.payments| == |db.payments|
  {
    hide Sum, Find;
  }

  lemma ReleaseLeavesEvents(db: Db, r: nat)
    ensures var a := ReleaseHold(db, r);
            a.Done? ==> a.db.events == db.events && a.db.operations == db.operations && |a.db.payments| == |db.payments|
  {
  }

  // --- no other step writes events ---

  lemma BeginLeavesEvents(db: Db, p: nat)
    ensures Commit(db, BeginSpec(db, p)).events == db.events
  {
    hide Sum, Find;
  }

  lemma FinishLeavesEvents(db: Db, e: Execution, customer: nat, clearing: nat, outcome: Outcome)
    ensures Commit(db, FinishSpec(db, e, customer, clearing, outcome)).events == db.events
  {
    hide Sum, Find;
  }

  lemma CaptureCallLeavesEvents(db: Db, p: nat, amount: Money, currency: Currency, customer: nat, clearing: nat, answer: Outcome)
    ensures Commit(db, CaptureSpec(db, p, amount, currency, customer, clearing, answer)).events == db.events
  {
    hide Sum, Find;
  }

  lemma VoidLeavesEvents(db: Db, p: nat, amount: Money, currency: Currency, answer: Outcome)
    ensures Commit(db, VoidSpec(db, p, amount, currency, answer)).events == db.events
  {
    hide Sum, Find;
  }

  lemma RefundLeavesEvents(db: Db, p: nat, requested: Amount, currency: Currency, customer: nat, clearing: nat, answer: Outcome)
    ensures Commit(db, RefundSpec(db, p, requested, currency, customer, clearing, answer)).events == db.events
  {
    hide Sum, Find;
  }

  /** The delivery is not refused and finds its event unprocessed: it is genuine, and either
      its payment is decided or its outcome is definite. */
  predicate UsesUp(w: World, s: Step, e: nat) {
    && s.Resolve? && s.event == e
    && e < |w.db.events| && w.db.events[e].signatureValid && !w.db.events[e].processed
    && s.operation < |w.db.operations| && w.db.operations[s.operation].payment < |w.db.payments|
    && var status := w.db.payments[w.db.operations[s.operation].payment].status;
       (s.outcome != Unknown || (status != Processing && status != UnknownOutcome && status != PaymentPending))
  }

  /** The delivery is applied: its payment is open and its outcome definite. */
  predicate IsApplied(w: World, s: Step, e: nat) {
    && UsesUp(w, s, e) && s.outcome != Unknown
    && var status := w.db.payments[w.db.operations[s.operation].payment].status;
       (status == Processing || status == UnknownOutcome || status == PaymentPending)
  }

  /** What every step does to the events: one more that is unprocessed, or one that is used up. */
  lemma StepEvents(catalog: seq<PolicyVersion>, w: World, s: Step)
    requires Inv(w)
    ensures Apply(catalog, w, s).db.events
            == if s.ReceiveEvent? then w.db.events + [ProviderEvent(s.signatureValid, false)]
               else if s.Resolve? && UsesUp(w, s, s.event) then w.db.events[s.event := ProviderEvent(true, true)]
               else w.db.events
  {
    hide Sum, Find, AllGood, AllFaithful, ApprovalRows, TxRows, JournalRows, HoldRows, OpRows, CreateSpec, ApproveSpec, DenySpec,
      BirthSpec, BeginSpec, FinishSpec, ResolveSpec, CaptureSpec, VoidSpec, RefundSpec;
    match s
    case Begin(p) => BeginLeavesEvents(w.db, p);
    case Charge(_, _) =>
    case ReceiveEvent(_) =>
    case Finish(k, customer, clearing) =>
      if k < |w.workers| && w.workers[k].outcome.Some? {
        FinishLeavesEvents(w.db, w.workers[k].execution, customer, clearing, w.workers[k].outcome.value);
      }
    case Resolve(event, op, outcome, customer, clearing) =>
      DeliveryUsesUp(w.db, event, op, outcome, customer, clearing);
      ResolveAnswers(w.db, event, op, outcome, customer, clearing);
    case Capture(p, amount, currency, customer, clearing, answer) =>
      CaptureCallLeavesEvents(w.db, p, amount, currency, customer, clearing, answer);
    case Void(p, amount, currency, answer) => VoidLeavesEvents(w.db, p, amount, currency, answer);
    case Refund(p, requested, currency, customer, clearing, answer) =>
      RefundLeavesEvents(w.db, p, requested, currency, customer, clearing, answer);
    case _ => AdmissionFrame(catalog, w, s);
  }

  /** How many steps of the run used the event up. */
  function UsedUpIn(catalog: seq<PolicyVersion>, start: World, steps: seq<Step>, e: nat): int {
    if steps == [] then 0
    else
      var before := steps[..|steps| - 1];
      UsedUpIn(catalog, start, before, e)
      + if UsesUp(Execute(catalog, start, before), steps[|steps| - 1], e) then 1 else 0
  }

  function AppliedIn(catalog: seq<PolicyVersion>, start: World, steps: seq<Step>, e: nat): int {
    if steps == [] then 0
    else
      var before := steps[..|steps| - 1];
      AppliedIn(catalog, start, before, e)
      + if IsApplied(Execute(catalog, start, before), steps[|steps| - 1], e) then 1 else 0
  }

  /** Exactly once, over every run: an event is used up by at most one delivery and applied
      by at most one, however often it is redelivered and whatever runs in between; and it
      reads processed exactly when some delivery has used it up. */
  lemma {:induction false} EachEventIsAppliedOnce(catalog: seq<PolicyVersion>, start: World, steps: seq<Step>, e: nat)
    requires Init(start)
    ensures 0 <= AppliedIn(catalog, start, steps, e) <= UsedUpIn(catalog, start, steps, e) <= 1
    ensures var events := Execute(catalog, start, steps).db.events;
            UsedUpIn(catalog, start, steps, e) == 1 <==> e < |events| && events[e].processed
  {
    hide Apply, Inv, UsesUp;
    if steps != [] {
      var before := steps[..|steps| - 1];
      EachEventIsAppliedOnce(catalog, start, before, e);
      Reached(catalog, start, before);
      UsedUpReads(catalog, Execute(catalog, start, before), steps[|steps| - 1], e);
    }
  }

  lemma UsedUpReads(catalog: seq<PolicyVersion>, w: World, s: Step, e: nat)
    requires Inv(w)
    ensures var after := Apply(catalog, w, s).db.events;
            && (e < |after| && after[e].processed <==> UsesUp(w, s, e) || (e < |w.db.events| && w.db.events[e].processed))
            && (UsesUp(w, s, e) ==> !w.db.events[e].processed)
  {
    hide Apply, Inv;
    StepEvents(catalog, w, s);
  }

  /** An event never changes back: once processed it stays processed and every delivery of it
      answers DUPLICATE, and no event's signature verdict changes. */
  lemma {:induction false} ProcessedIsForGood(catalog: seq<PolicyVersion>, w: World, steps: seq<Step>, e: nat, op: nat,
                                              outcome: Outcome, customer: nat, clearing: nat)
    requires Inv(w) && e < |w.db.events|
    ensures var db := Execute(catalog, w, steps).db;
            && e < |db.events| && db.events[e].signatureValid == w.db.events[e].signatureValid
            && (w.db.events[e].processed && w.db.events[e].signatureValid ==>
                  && db.events[e].processed
                  && ResolveSpec(db, e, op, outcome, customer, clearing) == Done(db, Duplicate))
  {
    hide Apply, Inv, ApplyEvent;
    if steps != [] {
      var before := steps[..|steps| - 1];
      ProcessedIsForGood(catalog, w, before, e, op, outcome, customer, clearing);
      RunKeepsInv(catalog, w, before);
      StepEvents(catalog, Execute(catalog, w, before), steps[|steps| - 1]);
    }
  }
}
