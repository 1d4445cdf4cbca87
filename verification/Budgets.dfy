/** Budget conservation: reserve, consume and release over every run. */
module Budgets {
  import opened Domain
  import opened Sums
  import opened Repositories
  import opened Ledger
  import opened Orchestrators
  import opened Workers
  import opened Resolvers
  import opened Lifecycles
  import opened Policies
  import opened Controls
  import opened Apis
  import opened Machine
  import opened Rows
  import opened Consistency
  import opened Views
  import opened Admission
  import opened Steps
  import opened Safety

  /** What a step does to budgets and reservations. */
  datatype BudgetMove =
    | NoMove
    | ReserveMove(budget: nat, request: nat, amount: Money)
    | ConsumeMove(reservation: nat)
    | ReleaseMove(reservation: nat)

  ghost predicate SameBudgets(a: Db, b: Db) {
    a.budgets == b.budgets && a.reservations == b.reservations
  }

  ghost predicate BudgetStep(a: Db, b: Db, m: BudgetMove) {
    match m
    case NoMove => SameBudgets(a, b)
    case ReserveMove(i, request, amount) =>
      && i < |a.budgets| && amount > 0
      && a.budgets[i].reserved + a.budgets[i].consumed + amount <= a.budgets[i].limit
      && b.reservations == a.reservations + [Reservation(i, request, amount, Reserved)]
      && b.budgets == a.budgets[i := a.budgets[i].(reserved := a.budgets[i].reserved + amount)]
    case ConsumeMove(r) => ConsumeHold(a, r).Done? && SameBudgets(b, ConsumeHold(a, r).db)
    case ReleaseMove(r) => ReleaseHold(a, r).Done? && SameBudgets(b, ReleaseHold(a, r).db)
  }

  function InStatus(budget: nat, status: HoldStatus): Reservation -> int {
    (r: Reservation) => if r.budget == budget && r.status == status then r.amount else 0
  }

  /** The stored totals are the sums of the holds, within the limit. */
  ghost predicate Conserved(db: Db) {
    forall b: nat :: b < |db.budgets| ==>
      && db.budgets[b].reserved == Sum(db.reservations, InStatus(b, Reserved))
      && db.budgets[b].consumed == Sum(db.reservations, InStatus(b, Consumed))
      && db.budgets[b].reserved + db.budgets[b].consumed <= db.budgets[b].limit
  }

  lemma ReserveConserves(a: Db, b: Db, m: BudgetMove)
    requires m.ReserveMove? && BudgetStep(a, b, m) && Conserved(a)
    ensures Conserved(b)
  {
    hide Sum;
    var row := Reservation(m.budget, m.request, m.amount, Reserved);
    forall k: nat | k < |b.budgets|
      ensures Sum(b.reservations, InStatus(k, Reserved))
              == Sum(a.reservations, InStatus(k, Reserved)) + if k == m.budget then m.amount else 0
      ensures Sum(b.reservations, InStatus(k, Consumed)) == Sum(a.reservations, InStatus(k, Consumed))
    {
      SumAppend(a.reservations, row, InStatus(k, Reserved));
      SumAppend(a.reservations, row, InStatus(k, Consumed));
    }
  }

  /** Moving a held amount to spent, or letting it go, changes one row and one budget. */
  lemma HoldConserves(a: Db, b: Db, m: BudgetMove)
    requires m.ConsumeMove? || m.ReleaseMove?
    requires BudgetStep(a, b, m) && Conserved(a)
    requires forall r: nat :: r < |a.reservations| ==> a.reservations[r].amount > 0
    ensures Conserved(b)
  {
    hide Sum;
    var r := m.reservation;
    var hold := a.reservations[r];
    if hold.status == Reserved {
      var row := hold.(status := if m.ConsumeMove? then Consumed else Released);
      forall k: nat | k < |b.budgets|
        ensures Sum(b.reservations, InStatus(k, Reserved))
                == Sum(a.reservations, InStatus(k, Reserved)) - if k == hold.budget then hold.amount else 0
        ensures Sum(b.reservations, InStatus(k, Consumed))
                == Sum(a.reservations, InStatus(k, Consumed)) + if k == hold.budget && m.ConsumeMove? then hold.amount else 0
      {
        SumUpdate(a.reservations, r, row, InStatus(k, Reserved));
        SumUpdate(a.reservations, r, row, InStatus(k, Consumed));
      }
    }
  }

  /** A hold is settled once: whatever settles it, consuming or releasing it again changes
      nothing, and neither undoes the other. */
  lemma HoldsSettleOnce(db: Db, r: nat, consume: bool)
    requires ConsumeHold(db, r).Done?
    ensures var settled := (if consume then ConsumeHold(db, r) else ReleaseHold(db, r)).db;
            && settled.reservations[r].status != Reserved
            && ConsumeHold(settled, r) == Done(settled, ()) && ReleaseHold(settled, r) == Done(settled, ())
            && (db.reservations[r].status != Reserved ==> settled == db)
  {
  }

  // --- which budget move a step makes ---

  lemma ReserveBudgets(db: Db, budget: nat, request: nat, amount: Money)
    requires Reserve(db, budget, request, amount).Done? && Reserve(db, budget, request, amount).value.Some?
    ensures BudgetStep(db, Reserve(db, budget, request, amount).db, ReserveMove(budget, request, amount))
  {
    hide Sum, Find, ConsumeHold, ReleaseHold;
  }

  lemma PrepareBudgets(db: Db, p: nat, budget: nat, amount: Money, currency: Currency)
    requires PrepareSpec(db, p, p, budget, amount, currency).Done?
    ensures BudgetStep(db, PrepareSpec(db, p, p, budget, amount, currency).db, ReserveMove(budget, p, amount))
  {
    hide Sum, Find, ConsumeHold, ReleaseHold, Reserve;
    var held := Reserve(db, budget, p, amount);
    ReserveBudgets(db, budget, p, amount);
    assert SameBudgets(PrepareSpec(db, p, p, budget, amount, currency).db, held.db);
  }

  lemma ControlBudgets(db: Db, catalog: seq<PolicyVersion>, p: nat, body: Body, version: Option<nat>, now: int)
    returns (m: BudgetMove)
    requires p < |db.payments| && p < |db.requests| && ControlSpec(db, catalog, p, p, body, version, now).Done?
    ensures BudgetStep(db, ControlSpec(db, catalog, p, p, body, version, now).db, m)
    ensures m == NoMove || (m.ReserveMove? && m.request == p)
  {
    hide Sum, Find, PrepareSpec;
    m := NoMove;
    var bound := ActivePolicy(catalog, body.account, body.policy, version);
    if bound.Some? {
      var judged := BindPolicy(db, p, bound.value);
      var budget := SelectBudget(judged, body.account, body.budget, body.currency, catalog[bound.value].policy);
      var decision := Decide(catalog[bound.value].rules, IntentOf(db.requests[p]));
      if decision != Decision.Deny && decision != RequireApproval && budget.Some? {
        var ready := BindBudget(judged, p, budget.value);
        PrepareBudgets(ready, p, budget.value, Value(body.amount), body.currency);
        m := ReserveMove(budget.value, p, Value(body.amount));
      }
    }
  }

  lemma CreateBudgets(db: Db, catalog: seq<PolicyVersion>, body: Body, key: string, stale: bool, version: Option<nat>, now: int)
    returns (m: BudgetMove)
    requires Sound(db) && CreateSpec(db, catalog, body, key, stale, version, now).Done?
    ensures BudgetStep(db, CreateSpec(db, catalog, body, key, stale, version, now).db, m)
    ensures m == NoMove || (m.ReserveMove? && m.request == |db.payments|)
    ensures m.ReserveMove? ==>
              |CreateSpec(db, catalog, body, key, stale, version, now).db.payments| == |db.payments| + 1
  {
    hide Sum, Find, ControlSpec, TxRows, JournalRows, HoldRows, OpRows;
    m := NoMove;
    if Find(db.requests, OwnedBy(body.account, key)) < 0 {
      var recorded := RecordEvidence(db, body, CheckEvidence(body, now).value);
      var inserted := InsertPayment(recorded, body, key, |db.evidence|);
      m := ControlBudgets(inserted, catalog, |db.payments|, body, version, now);
      CreatedSize(inserted, catalog, |db.payments|, body, version, now);
    }
  }

  lemma ApproveBudgets(db: Db, a: nat, now: int) returns (m: BudgetMove)
    requires Sound(db) && ApproveSpec(db, a, now).Done?
    ensures BudgetStep(db, ApproveSpec(db, a, now).db, m)
    ensures m.ReserveMove? && m.request == ApproveSpec(db, a, now).value
  {
    hide Sum, Find, PrepareSpec, TxRows, JournalRows, HoldRows, OpRows;
    var p := db.approvals[a].request;
    PayerIsSelf(db, p);
    var rq := db.requests[p];
    PrepareBudgets(SetApproval(db, a, ApprovalStatus.Approved, now), p, rq.budget.value, rq.amount, rq.currency);
    m := ReserveMove(rq.budget.value, p, rq.amount);
  }

  lemma FinishBudgets(db: Db, e: Execution, customer: nat, clearing: nat, outcome: Outcome) returns (m: BudgetMove)
    ensures BudgetStep(db, Commit(db, FinishSpec(db, e, customer, clearing, outcome)), m)
    ensures !m.ReserveMove?
  {
    hide Sum, Find, PostJournal, CreateTransaction;
    var a := FinishSpec(db, e, customer, clearing, outcome);
    m := NoMove;
    if a.Done? && a.db != db && outcome == Success {
      SettleBudgets(db, e.payment, e.reservation, e.amount, e.currency, customer, clearing);
      m := ConsumeMove(e.reservation);
    } else if a.Done? && a.db != db && outcome == Failure {
      m := ReleaseMove(e.reservation);
    }
  }

  lemma SettleBudgets(db: Db, p: nat, r: nat, amount: Money, currency: Currency, customer: nat, clearing: nat)
    requires p < |db.payments| && SettleSuccess(db, p, r, amount, currency, customer, clearing).Done?
    ensures BudgetStep(db, SettleSuccess(db, p, r, amount, currency, customer, clearing).db, ConsumeMove(r))
  {
    hide Sum, Find;
  }

  lemma ResolveBudgets(db: Db, event: nat, op: nat, outcome: Outcome, customer: nat, clearing: nat) returns (m: BudgetMove)
    ensures BudgetStep(db, Commit(db, ResolveSpec(db, event, op, outcome, customer, clearing)), m)
    ensures !m.ReserveMove?
  {
    hide Sum, Find, EventSuccess, EventFailure;
    var a := ResolveSpec(db, event, op, outcome, customer, clearing);
    m := NoMove;
    if a.Done? && a.value == Resolved {
      m := EventBudgets(db, op, outcome, customer, clearing);
    }
  }

  lemma EventCaptureBudgets(db: Db, p: nat, reservation: Option<nat>, amount: Money, currency: Currency, customer: nat,
                            clearing: nat)
    requires CaptureByEvent(db, p, reservation, amount, currency, customer, clearing).Done?
    ensures reservation.Some?
    ensures BudgetStep(db, CaptureByEvent(db, p, reservation, amount, currency, customer, clearing).db,
                       ConsumeMove(reservation.value))
  {
    hide Sum, Find, ConsumeHold, ReleaseHold;
  }

  lemma EventBudgets(db: Db, op: nat, outcome: Outcome, customer: nat, clearing: nat) returns (m: BudgetMove)
    requires op < |db.operations| && db.operations[op].payment < |db.payments|
    requires db.payments[db.operations[op].payment].request < |db.requests|
    ensures BudgetStep(db, Commit(db, ApplyEvent(db, op, outcome, customer, clearing)), m)
    ensures !m.ReserveMove?
  {
    hide Sum, Find, CaptureByEvent;
    var o := db.operations[op];
    var row := db.payments[o.payment];
    var reservation := db.requests[row.request].reservation;
    m := NoMove;
    if o.kind == ChargeOp && outcome == Success {
      var marked := SetOpStatus(db, op, OpSucceeded);
      if CaptureByEvent(marked, o.payment, reservation, row.amount, row.currency, customer, clearing).Done? {
        EventCaptureBudgets(marked, o.payment, reservation, row.amount, row.currency, customer, clearing);
        m := ConsumeMove(reservation.value);
      }
    } else if o.kind == ChargeOp && outcome == Failure && reservation.Some? {
      m := if ReleaseHold(db, reservation.value).Done? then ReleaseMove(reservation.value) else NoMove;
    }
  }

  lemma CaptureBudgets(db: Db, p: nat, amount: Money, currency: Currency, customer: nat, clearing: nat, answer: Outcome)
    ensures SameBudgets(db, Commit(db, CaptureSpec(db, p, amount, currency, customer, clearing, answer)))
  {
    hide Sum, Find;
  }

  lemma VoidBudgets(db: Db, p: nat, amount: Money, currency: Currency, answer: Outcome)
    ensures SameBudgets(db, Commit(db, VoidSpec(db, p, amount, currency, answer)))
  {
    hide Sum, Find;
  }

  lemma RefundBudgets(db: Db, p: nat, requested: Amount, currency: Currency, customer: nat, clearing: nat, answer: Outcome)
    ensures SameBudgets(db, Commit(db, RefundSpec(db, p, requested, currency, customer, clearing, answer)))
  {
    hide Sum, Find;
  }

  lemma StepBudgets(catalog: seq<PolicyVersion>, w: World, s: Step) returns (m: BudgetMove)
    requires Inv(w)
    ensures BudgetStep(w.db, Apply(catalog, w, s).db, m)
    ensures m.ReserveMove? ==> |Apply(catalog, w, s).db.payments|
                               == if m.request < |w.db.payments| then |w.db.payments| else |w.db.payments| + 1
    ensures m.ReserveMove? ==> !Executes(s)
    ensures m.ConsumeMove? || m.ReleaseMove? ==> Executes(s)
  {
    hide Sum, Find, TxRows, JournalRows, OpRows, HoldRows, ViewOf, ApprovalRows, ConsumeHold, ReleaseHold,
      CreateSpec, ApproveSpec, FinishSpec, ResolveSpec, CaptureSpec, VoidSpec, RefundSpec;
    m := NoMove;
    match s
    case Create(body, key, stale, version, now) =>
      if CreateSpec(w.db, catalog, body, key, stale, version, now).Done? {
        m := CreateBudgets(w.db, catalog, body, key, stale, version, now);
      }
    case Approve(a, now) =>
      if ApproveSpec(w.db, a, now).Done? {
        m := ApproveBudgets(w.db, a, now);
        AwaitingHasNoHold(w.db, a, now);
        DecisionInRange(w.db, a, now);
        ApproveView(w.db, a, now, ApproveSpec(w.db, a, now).value);
      }
    case Finish(k, customer, clearing) =>
      if k < |w.workers| && w.workers[k].outcome.Some? && !w.workers[k].finished {
        m := FinishBudgets(w.db, w.workers[k].execution, customer, clearing, w.workers[k].outcome.value);
      }
    case Resolve(event, op, outcome, customer, clearing) =>
      m := ResolveBudgets(w.db, event, op, outcome, customer, clearing);
    case Capture(p, amount, currency, customer, clearing, answer) =>
      CaptureBudgets(w.db, p, amount, currency, customer, clearing, answer);
    case Void(p, amount, currency, answer) => VoidBudgets(w.db, p, amount, currency, answer);
    case Refund(p, requested, currency, customer, clearing, answer) =>
      RefundBudgets(w.db, p, requested, currency, customer, clearing, answer);
    case _ =>
  }

  lemma StepConserves(catalog: seq<PolicyVersion>, w: World, s: Step)
    requires Inv(w) && Conserved(w.db)
    ensures Conserved(Apply(catalog, w, s).db)
  {
    hide Sum, Apply, TxRows, JournalRows, OpRows;
    var m := StepBudgets(catalog, w, s);
    if m.ReserveMove? {
      ReserveConserves(w.db, Apply(catalog, w, s).db, m);
    } else if m != NoMove {
      HoldConserves(w.db, Apply(catalog, w, s).db, m);
    }
  }

  /** In every reachable state each budget's totals are the sums of its holds, neither is
      negative, and together they stay within the limit. */
  lemma {:induction false} BudgetsConserved(catalog: seq<PolicyVersion>, start: World, steps: seq<Step>)
    requires Init(start)
    ensures var db := Execute(catalog, start, steps).db;
            Conserved(db) && forall b: nat :: b < |db.budgets| ==> 0 <= db.budgets[b].reserved && 0 <= db.budgets[b].consumed
  {
    hide Sum, Apply, TxRows, JournalRows, OpRows;
    Reached(catalog, start, steps);
    if steps != [] {
      BudgetsConserved(catalog, start, steps[..|steps| - 1]);
      Reached(catalog, start, steps[..|steps| - 1]);
      StepConserves(catalog, Execute(catalog, start, steps[..|steps| - 1]), steps[|steps| - 1]);
    } else {
      forall b: nat, status | b < |start.db.budgets|
        ensures Sum(start.db.reservations, InStatus(b, status)) == 0
      {
        SumZero(start.db.reservations, InStatus(b, status));
      }
    }
    var db := Execute(catalog, start, steps).db;
    forall b: nat | b < |db.budgets|
      ensures 0 <= db.budgets[b].reserved && 0 <= db.budgets[b].consumed
    {
      SumNonNegative(db.reservations, InStatus(b, Reserved));
      SumNonNegative(db.reservations, InStatus(b, Consumed));
    }
  }
}
