/** The outbox tells the truth: what its committed events say has happened. */
module Announcements {
  import opened Domain
  import opened Sums
  import opened Repositories
  import opened Orchestrators
  import opened Workers
  import opened Resolvers
  import opened Lifecycles
  import opened Policies
  import opened Controls
  import opened Apis
  import opened Machine
  import opened Rows
  import opened Consistency
  import opened Views
  import opened Admission
  import opened Moves
  import opened Steps
  import opened Approvals
  import opened Safety
  import opened Budgets

  function StartOf(r: nat): OutboxRow -> int {
    (row: OutboxRow) => if row.fact == PaymentStarted(r) then 1 else 0
  }

  /** An event that claims neither a start nor a success. */
  predicate Plain(fact: Fact) {
    !fact.PaymentStarted? && !fact.PaymentSucceeded?
  }

  /** PaymentStarted events and reservations correspond one to one. */
  ghost predicate StartsMatch(db: Db) {
    && (forall r: nat :: r < |db.reservations| ==> Sum(db.outbox, StartOf(r)) == 1)
    && (forall i: nat :: i < |db.outbox| && db.outbox[i].fact.PaymentStarted? ==>
          && db.outbox[i].fact.reservation < |db.reservations|
          && db.reservations[db.outbox[i].fact.reservation].request == db.outbox[i].payment)
  }

  ghost predicate Captured(db: Db, p: nat, amount: Money, currency: Currency) {
    && p < |db.payments| && db.payments[p].amount == amount && db.payments[p].currency == currency
    && Sum(db.journals, JournalCount(JCapture(p))) == 1
  }

  /** Every PaymentSucceeded event is about a payment with its capture journal. */
  ghost predicate SuccessesHold(db: Db) {
    forall i: nat :: i < |db.outbox| && db.outbox[i].fact.PaymentSucceeded? ==>
      Captured(db, db.outbox[i].payment, db.outbox[i].fact.amount, db.outbox[i].fact.currency)
  }

  /** What a step's first new event says. */
  datatype Tale =
    | Nothing
    | Starts(payment: nat)
    | Succeeds(payment: nat, amount: Money, currency: Currency)

  ghost predicate SameHolders(before: seq<Reservation>, after: seq<Reservation>) {
    |before| <= |after| && forall r: nat :: r < |before| ==> after[r].request == before[r].request
  }

  function Opening(before: Db, t: Tale): seq<OutboxRow> {
    match t
    case Nothing => []
    case Starts(p) => [OutboxRow(p, PaymentStarted(|before.reservations|))]
    case Succeeds(p, amount, currency) => [OutboxRow(p, PaymentSucceeded(amount, currency))]
  }

  /** The step appends this tale and then only plain events, and the tale is true. */
  ghost predicate Tells(before: Db, after: Db, t: Tale, rest: seq<OutboxRow>) {
    && after.outbox == before.outbox + Opening(before, t) + rest
    && (forall i :: 0 <= i < |rest| ==> Plain(rest[i].fact))
    && SameHolders(before.reservations, after.reservations)
    && |after.reservations| == |before.reservations| + (if t.Starts? then 1 else 0)
    && (t.Starts? ==> after.reservations[|before.reservations|].request == t.payment)
    && (t.Succeeds? ==> Captured(after, t.payment, t.amount, t.currency))
  }

  lemma {:induction false} StartsAppend(rows: seq<OutboxRow>, rest: seq<OutboxRow>, r: nat)
    requires forall i :: 0 <= i < |rest| ==> Plain(rest[i].fact)
    ensures Sum(rows + rest, StartOf(r)) == Sum(rows, StartOf(r))
  {
    if rest == [] {
      assert rows + rest == rows;
    } else {
      var last := |rest| - 1;
      StartsAppend(rows, rest[..last], r);
      assert rows + rest == (rows + rest[..last]) + [rest[last]];
      SumAppend(rows + rest[..last], rest[last], StartOf(r));
    }
  }

  lemma TellingKeepsStarts(before: Db, after: Db, t: Tale, rest: seq<OutboxRow>)
    requires Tells(before, after, t, rest) && StartsMatch(before)
    ensures StartsMatch(after)
  {
    hide Sum;
    var told := before.outbox + Opening(before, t);
    forall r: nat | r < |after.reservations|
      ensures Sum(after.outbox, StartOf(r)) == 1
    {
      StartsAppend(told, rest, r);
      if t != Nothing {
        SumAppend(before.outbox, Opening(before, t)[0], StartOf(r));
      } else {
        assert told == before.outbox;
      }
      if r == |before.reservations| {
        SumZero(before.outbox, StartOf(r));
      }
    }
  }

  lemma TellingKeepsSuccesses(before: Db, after: Db, t: Tale, rest: seq<OutboxRow>)
    requires Tells(before, after, t, rest) && SuccessesHold(before)
    requires forall p: nat, amount, currency :: Captured(before, p, amount, currency) ==> Captured(after, p, amount, currency)
    ensures SuccessesHold(after)
  {
    hide Sum, Captured;
    var told := before.outbox + Opening(before, t);
    forall i | |told| <= i < |after.outbox|
      ensures Plain(after.outbox[i].fact)
    {
      assert after.outbox[i] == rest[i - |told|];
    }
    forall i: nat | i < |after.outbox| && after.outbox[i].fact.PaymentSucceeded?
      ensures Captured(after, after.outbox[i].payment, after.outbox[i].fact.amount, after.outbox[i].fact.currency)
    {
      if i < |before.outbox| {
        assert after.outbox[i] == before.outbox[i];
      } else {
        assert after.outbox[i] == Opening(before, t)[0];
      }
    }
  }

  // --- what each step tells ---

  lemma PrepareTells(db: Db, p: nat, budget: nat, amount: Money, currency: Currency)
    requires PrepareSpec(db, p, p, budget, amount, currency).Done?
    ensures Tells(db, PrepareSpec(db, p, p, budget, amount, currency).db, Starts(p), [])
  {
    hide Sum, Find;
  }

  lemma MoreTold(before: Db, between: Db, after: Db, t: Tale, rest: seq<OutboxRow>, row: OutboxRow)
    requires Tells(before, between, t, rest) && Plain(row.fact) && !t.Succeeds?
    requires after.outbox == between.outbox + [row] && after.reservations == between.reservations
    ensures Tells(before, after, t, rest + [row])
  {
  }

  lemma ControlTells(db: Db, catalog: seq<PolicyVersion>, p: nat, body: Body, version: Option<nat>, now: int)
    returns (t: Tale, rest: seq<OutboxRow>)
    requires p < |db.payments| && p < |db.requests| && ControlSpec(db, catalog, p, p, body, version, now).Done?
    ensures Tells(db, ControlSpec(db, catalog, p, p, body, version, now).db, t, rest)
  {
    hide Sum, Find, PrepareSpec;
    var after := ControlSpec(db, catalog, p, p, body, version, now).db;
    var bound := ActivePolicy(catalog, body.account, body.policy, version);
    t, rest := Nothing, [OutboxRow(p, PaymentFailed)];
    if bound.Some? {
      var judged := BindPolicy(db, p, bound.value);
      var budget := SelectBudget(judged, body.account, body.budget, body.currency, catalog[bound.value].policy);
      var decision := Decide(catalog[bound.value].rules, IntentOf(db.requests[p]));
      if decision != Decision.Deny && budget.Some? {
        var ready := BindBudget(judged, p, budget.value);
        if decision == RequireApproval {
          rest := [OutboxRow(p, ApprovalRequested(|db.approvals|))];
        } else {
          PrepareTells(ready, p, budget.value, Value(body.amount), body.currency);
          var started := PrepareSpec(ready, p, p, budget.value, Value(body.amount), body.currency).db;
          t, rest := Starts(p), [];
          if decision == AllowNotify {
            MoreTold(ready, started, after, t, rest, OutboxRow(p, NotificationRequested));
            rest := [OutboxRow(p, NotificationRequested)];
          }
        }
      }
    }
  }

  lemma CreateTells(db: Db, catalog: seq<PolicyVersion>, body: Body, key: string, stale: bool, version: Option<nat>, now: int)
    returns (t: Tale, rest: seq<OutboxRow>)
    requires Sound(db) && CreateSpec(db, catalog, body, key, stale, version, now).Done?
    ensures Tells(db, CreateSpec(db, catalog, body, key, stale, version, now).db, t, rest)
  {
    hide Sum, Find, ControlSpec, TxRows, JournalRows, HoldRows, OpRows;
    t, rest := Nothing, [];
    if Find(db.requests, OwnedBy(body.account, key)) < 0 {
      var recorded := RecordEvidence(db, body, CheckEvidence(body, now).value);
      var inserted := InsertPayment(recorded, body, key, |db.evidence|);
      t, rest := ControlTells(inserted, catalog, |db.payments|, body, version, now);
    }
  }

  lemma ApproveTells(db: Db, a: nat, now: int) returns (t: Tale, rest: seq<OutboxRow>)
    requires Sound(db) && ApproveSpec(db, a, now).Done?
    ensures Tells(db, ApproveSpec(db, a, now).db, t, rest)
  {
    hide Sum, Find, PrepareSpec, TxRows, JournalRows, HoldRows, OpRows;
    var p := db.approvals[a].request;
    PayerIsSelf(db, p);
    var rq := db.requests[p];
    var decided := SetApproval(db, a, ApprovalStatus.Approved, now);
    PrepareTells(decided, p, rq.budget.value, rq.amount, rq.currency);
    var started := PrepareSpec(decided, p, p, rq.budget.value, rq.amount, rq.currency).db;
    MoreTold(decided, started, ApproveSpec(db, a, now).db, Starts(p), [], OutboxRow(p, PaymentApproved(a)));
    t, rest := Starts(p), [OutboxRow(p, PaymentApproved(a))];
  }

  /** All steps but finalizing and admitting leave the outbox alone. */
  lemma QuietSteps(catalog: seq<PolicyVersion>, w: World, s: Step)
    requires Executes(s) && !s.Finish?
    ensures Apply(catalog, w, s).db.outbox == w.db.outbox
  {
    hide Sum, Find, CaptureSpec, VoidSpec, RefundSpec, ResolveSpec;
    match s
    case Resolve(event, op, outcome, customer, clearing) => ResolveIsQuiet(w.db, event, op, outcome, customer, clearing);
    case Capture(p, amount, currency, customer, clearing, answer) =>
      CaptureIsQuiet(w.db, p, amount, currency, customer, clearing, answer);
    case Void(p, amount, currency, answer) => VoidIsQuiet(w.db, p, amount, currency, answer);
    case Refund(p, requested, currency, customer, clearing, answer) =>
      RefundIsQuiet(w.db, p, requested, currency, customer, clearing, answer);
    case _ =>
  }

  lemma ResolveIsQuiet(db: Db, event: nat, op: nat, outcome: Outcome, customer: nat, clearing: nat)
    ensures Commit(db, ResolveSpec(db, event, op, outcome, customer, clearing)).outbox == db.outbox
  {
    hide Sum, Find;
  }

  lemma CaptureIsQuiet(db: Db, p: nat, amount: Money, currency: Currency, customer: nat, clearing: nat, answer: Outcome)
    ensures Commit(db, CaptureSpec(db, p, amount, currency, customer, clearing, answer)).outbox == db.outbox
  {
    hide Sum, Find;
  }

  lemma VoidIsQuiet(db: Db, p: nat, amount: Money, currency: Currency, answer: Outcome)
    ensures Commit(db, VoidSpec(db, p, amount, currency, answer)).outbox == db.outbox
  {
    hide Sum, Find;
  }

  lemma RefundIsQuiet(db: Db, p: nat, requested: Amount, currency: Currency, customer: nat, clearing: nat, answer: Outcome)
    ensures Commit(db, RefundSpec(db, p, requested, currency, customer, clearing, answer)).outbox == db.outbox
  {
    hide Sum, Find;
  }

  lemma FinishOutbox(db: Db, e: Execution, customer: nat, clearing: nat, outcome: Outcome)
    ensures var a := FinishSpec(db, e, customer, clearing, outcome);
            a.Done? ==>
              || a.db == db
              || (&& outcome == Success && e.payment < |a.db.payments| && a.db.payments[e.payment].status == Succeeded
                  && a.db.outbox == db.outbox + [OutboxRow(e.payment, PaymentSucceeded(e.amount, e.currency))])
              || (outcome != Success && exists fact :: Plain(fact) && a.db.outbox == db.outbox + [OutboxRow(e.payment, fact)])
  {
    hide Sum, Find;
    assert Plain(PaymentFailed) && Plain(PaymentOutcomeUnknown);
  }

  lemma FinishTells(catalog: seq<PolicyVersion>, w: World, s: Step) returns (t: Tale, rest: seq<OutboxRow>)
    requires Inv(w) && s.Finish?
    ensures Tells(w.db, Apply(catalog, w, s).db, t, rest)
  {
    hide Sum, FinishSpec, TxRows, JournalRows, OpRows, ViewOf, Good, ApprovalRows, ConsumeHold, ReleaseHold, Extends;
    var after := Apply(catalog, w, s).db;
    t, rest := Nothing, [];
    var m := StepBudgets(catalog, w, s);
    HoldersKept(w.db, after, m);
    if after != w.db {
      var e := w.workers[s.worker].execution;
      FinishOutbox(w.db, e, s.customer, s.clearing, w.workers[s.worker].outcome.value);
      if w.workers[s.worker].outcome.value == Success {
        t := Succeeds(e.payment, e.amount, e.currency);
        SucceededIsCaptured(catalog, w, s, e.payment);
      } else {
        rest := after.outbox[|w.db.outbox|..];
      }
    }
  }

  lemma HoldersKept(before: Db, after: Db, m: BudgetMove)
    requires BudgetStep(before, after, m) && !m.ReserveMove?
    ensures SameHolders(before.reservations, after.reservations) && |after.reservations| == |before.reservations|
  {
  }

  lemma SucceededIsCaptured(catalog: seq<PolicyVersion>, w: World, s: Step, p: nat)
    requires Inv(w) && p < |w.db.payments| && w.db.requests[p].reservation.Some?
    requires p < |Apply(catalog, w, s).db.payments| && Apply(catalog, w, s).db.payments[p].status == Succeeded
    ensures Captured(Apply(catalog, w, s).db, p, w.db.requests[p].amount, w.db.requests[p].currency)
  {
    hide Sum, Apply, TxRows, JournalRows, OpRows, FilingOf, CallsOf, ApprovalRows;
    var after := Apply(catalog, w, s).db;
    StepKeepsInv(catalog, w, s);
    StepExtends(catalog, w, s);
    assert Good(ViewOf(after, p));
    assert Kept(w.db.requests[p], after.requests[p]);
    HoldMeansReservation(after, p);
  }

  lemma StepTells(catalog: seq<PolicyVersion>, w: World, s: Step) returns (t: Tale, rest: seq<OutboxRow>)
    requires Inv(w)
    ensures Tells(w.db, Apply(catalog, w, s).db, t, rest)
  {
    hide Sum, Find, TxRows, JournalRows, OpRows, HoldRows, ViewOf, Good, ApprovalRows, CreateSpec, ApproveSpec, FinishSpec,
      ResolveSpec, CaptureSpec, VoidSpec, RefundSpec, BeginSpec;
    t, rest := Nothing, [];
    match s
    case Create(body, key, stale, version, now) =>
      if CreateSpec(w.db, catalog, body, key, stale, version, now).Done? {
        t, rest := CreateTells(w.db, catalog, body, key, stale, version, now);
      }
    case Approve(a, now) =>
      if ApproveSpec(w.db, a, now).Done? {
        t, rest := ApproveTells(w.db, a, now);
      }
    case Deny(a, now) =>
      if DenySpec(w.db, a, now).Done? {
        rest := [OutboxRow(DenySpec(w.db, a, now).value, PaymentFailed)];
      }
    case BirthAuthorized(_, _, _, _, _) =>
    case Finish(_, _, _) => t, rest := FinishTells(catalog, w, s);
    case _ =>
      QuietSteps(catalog, w, s);
      var m := StepBudgets(catalog, w, s);
      QuietHolders(catalog, w, s, m);
  }

  lemma QuietHolders(catalog: seq<PolicyVersion>, w: World, s: Step, m: BudgetMove)
    requires Inv(w) && Executes(s) && BudgetStep(w.db, Apply(catalog, w, s).db, m)
    requires m.ReserveMove? ==> !Executes(s)
    ensures SameHolders(w.db.reservations, Apply(catalog, w, s).db.reservations)
    ensures |Apply(catalog, w, s).db.reservations| == |w.db.reservations|
  {
    hide Apply, Inv, ConsumeHold, ReleaseHold;
    HoldersKept(w.db, Apply(catalog, w, s).db, m);
  }

  lemma CapturedStays(catalog: seq<PolicyVersion>, w: World, s: Step, p: nat, amount: Money, currency: Currency)
    requires Inv(w) && Captured(w.db, p, amount, currency)
    ensures Captured(Apply(catalog, w, s).db, p, amount, currency)
  {
    hide Sum, Apply, MoveFor, Moved, Allowed, TxRows, JournalRows, OpRows, FilingOf, CallsOf, ApprovalRows;
    StepKeepsInv(catalog, w, s);
    StepExtends(catalog, w, s);
    StepMoves(catalog, w, s, p);
    assert Good(ViewOf(w.db, p)) && Good(ViewOf(Apply(catalog, w, s).db, p));
    MovesGrow(ViewOf(w.db, p), MoveFor(w, s, p));
    assert Kept(w.db.requests[p], Apply(catalog, w, s).db.requests[p]);
  }

  /** After every run: one PaymentStarted event per reservation and one reservation per
      such event, for the same payment; and a PaymentSucceeded event only for a payment
      with its one capture journal, stating its amount and currency. */
  lemma {:induction false} OutboxTellsTheTruth(catalog: seq<PolicyVersion>, start: World, steps: seq<Step>)
    requires Init(start)
    ensures var db := Execute(catalog, start, steps).db; StartsMatch(db) && SuccessesHold(db)
  {
    hide Sum, Apply, Inv, Tells, Captured;
    if steps != [] {
      var w := Execute(catalog, start, steps[..|steps| - 1]);
      var s := steps[|steps| - 1];
      OutboxTellsTheTruth(catalog, start, steps[..|steps| - 1]);
      Reached(catalog, start, steps[..|steps| - 1]);
      var t, rest := StepTells(catalog, w, s);
      var after := Apply(catalog, w, s).db;
      TellingKeepsStarts(w.db, after, t, rest);
      forall p: nat, amount, currency | Captured(w.db, p, amount, currency)
        ensures Captured(after, p, amount, currency)
      {
        CapturedStays(catalog, w, s, p, amount, currency);
      }
      TellingKeepsSuccesses(w.db, after, t, rest);
    }
  }
}
