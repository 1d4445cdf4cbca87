/** Updates that never commit: EXPIRED on an approval that comes too late, and FAILED on a
    payment whose budget is short. Each is followed by an exception in its transaction. */
module Uncommitted {
  import opened Domain
  import opened Sums
  import opened Orchestrators
  import opened Policies
  import opened Controls
  import opened Apis
  import opened Machine
  import opened Rows
  import opened Consistency
  import opened Views
  import opened Moves
  import opened Steps
  import opened Approvals
  import opened Safety
  import opened Gate

  ghost predicate NoneExpired(approvals: seq<Approval>) {
    forall a: nat :: a < |approvals| ==> approvals[a].status != Expired
  }

  lemma CreateExpiresNone(db: Db, catalog: seq<PolicyVersion>, body: Body, key: string, stale: bool, version: Option<nat>,
                          now: int)
    requires Sound(db) && NoneExpired(db.approvals)
    ensures NoneExpired(Commit(db, CreateSpec(db, catalog, body, key, stale, version, now)).approvals)
  {
    hide Sum, Find, ControlSpec, TxRows, JournalRows, OpRows, HoldRows;
    if CreateSpec(db, catalog, body, key, stale, version, now).Done? && Find(db.requests, OwnedBy(body.account, key)) < 0 {
      var inserted := InsertPayment(RecordEvidence(db, body, CheckEvidence(body, now).value), body, key, |db.evidence|);
      ControlApprovals(inserted, catalog, |db.payments|, body, version, now);
    }
  }

  lemma StepExpiresNone(catalog: seq<PolicyVersion>, w: World, s: Step)
    requires Inv(w) && NoneExpired(w.db.approvals)
    ensures NoneExpired(Apply(catalog, w, s).db.approvals)
  {
    hide Sum, Find, Sound, AllGood, AllFaithful, ApprovalRows, CreateSpec, ApproveSpec;
    match s
    case Create(body, key, stale, version, now) => CreateExpiresNone(w.db, catalog, body, key, stale, version, now);
    case Approve(a, now) =>
      if ApproveSpec(w.db, a, now).Done? {
        ApprovedRow(w.db, a, now);
      }
    case Deny(_, _) =>
    case _ => ApprovalsFixed(catalog, w, s);
  }

  /** No approval ever reads EXPIRED, after any run. */
  lemma {:induction false} NothingExpires(catalog: seq<PolicyVersion>, start: World, steps: seq<Step>)
    requires Init(start)
    ensures NoneExpired(Execute(catalog, start, steps).db.approvals)
  {
    hide Apply, Inv;
    if steps != [] {
      NothingExpires(catalog, start, steps[..|steps| - 1]);
      Reached(catalog, start, steps[..|steps| - 1]);
      StepExpiresNone(catalog, Execute(catalog, start, steps[..|steps| - 1]), steps[|steps| - 1]);
    }
  }

  /** The budget has room for the whole amount, in the request's currency. */
  predicate HasRoom(db: Db, rq: Request) {
    && rq.budget.Some? && rq.budget.value < |db.budgets|
    && var b := db.budgets[rq.budget.value];
       b.currency == rq.currency && b.limit - b.consumed - b.reserved >= rq.amount
  }

  lemma PreparesExactlyWhen(db: Db, p: nat)
    requires Sound(db) && p < |db.payments| && db.requests[p].reservation.None?
    requires Verified(db, db.requests[p].evidence) && !Terminal(db.payments[p].status) && db.requests[p].budget.Some?
    ensures var rq := db.requests[p];
            var a := PrepareSpec(db, p, p, rq.budget.value, rq.amount, rq.currency);
            if HasRoom(db, rq) then a.Done? else a == Raised(BudgetInsufficient)
  {
    hide Sum, TxRows, JournalRows, OpRows;
    var rq := db.requests[p];
    assert forall r: nat :: r < |db.reservations| ==> db.reservations[r].request != p;
  }

  /** In every reachable state, approving what is pending succeeds exactly when it is in time
      and the bound budget has room. Too late or with too little room, the call is refused
      and nothing changes: the approval stays PENDING, the payment APPROVAL_REQUIRED. */
  lemma ApprovesExactlyWhen(catalog: seq<PolicyVersion>, start: World, steps: seq<Step>, a: nat, now: int)
    requires Init(start)
    ensures var w := Execute(catalog, start, steps);
            var db := w.db;
            a < |db.approvals| && db.approvals[a].status == ApprovalPending ==>
              var row := db.approvals[a];
              && row.request < |db.requests| && row.request < |db.payments|
              && db.payments[row.request].status == ApprovalRequired
              && (ApproveSpec(db, a, now).Done? <==> now < row.expires && HasRoom(db, db.requests[row.request]))
              && (now >= row.expires ==> ApproveSpec(db, a, now) == Raised(ApprovalExpired))
              && (now < row.expires && !HasRoom(db, db.requests[row.request]) ==>
                    ApproveSpec(db, a, now) == Raised(BudgetInsufficient))
              && (ApproveSpec(db, a, now).Raised? ==> Apply(catalog, w, Approve(a, now)) == w)
  {
    hide Sum, Find, TxRows, JournalRows, OpRows, HoldRows, FilingOf, CallsOf, PrepareSpec, Decide;
    Reached(catalog, start, steps);
    RunGuarded(catalog, start, steps);
    var db := Execute(catalog, start, steps).db;
    if a < |db.approvals| && db.approvals[a].status == ApprovalPending {
      var p := db.approvals[a].request;
      assert Good(ViewOf(db, p)) && Guarded(db, catalog, p);
      HoldMeansReservation(db, p);
      PayerIsSelf(db, p);
      PreparesExactlyWhen(SetApproval(db, a, ApprovalStatus.Approved, now), p);
    }
  }

  /** A create call that is otherwise admitted for execution at once starts its payment
      exactly when the selected budget has room, and is refused when it has not. */
  lemma CreateStartsExactlyWhen(db: Db, catalog: seq<PolicyVersion>, body: Body, key: string, stale: bool, version: Option<nat>,
                                now: int, b: nat)
    requires Sound(db) && Find(db.requests, OwnedBy(body.account, key)) < 0 && CheckEvidence(body, now).Ok?
    requires var bound := ActivePolicy(catalog, body.account, body.policy, version);
             && bound.Some?
             && Decide(catalog[bound.value].rules, IntentOf(NewRequest(body, key, |db.evidence|))).Rank() <= AllowNotify.Rank()
             && SelectBudget(db, body.account, body.budget, body.currency, catalog[bound.value].policy) == Some(b)
    ensures var a := CreateSpec(db, catalog, body, key, stale, version, now);
            && b < |db.budgets|
            && if db.budgets[b].limit - db.budgets[b].consumed - db.budgets[b].reserved >= Value(body.amount)
               then a.Done? && a.value == Started(|db.payments|) else a == Raised(BudgetInsufficient)
  {
    hide Sum, Find, FindLast, TxRows, JournalRows, OpRows, HoldRows, Decide, PrepareSpec;
    var e, p := |db.evidence|, |db.payments|;
    var bound := ActivePolicy(catalog, body.account, body.policy, version);
    var recorded := RecordEvidence(db, body, CheckEvidence(body, now).value);
    var inserted := InsertPayment(recorded, body, key, e);
    InsertSound(recorded, NewRequest(body, key, e), Payment(p, Value(body.amount), body.currency, PolicyCheck));
    var judged := BindPolicy(inserted, p, bound.value);
    RelabelSound(inserted, judged.requests);
    var ready := BindBudget(judged, p, b);
    RelabelSound(judged, ready.requests);
    PreparesExactlyWhen(ready, p);
  }

  /** A create call that is refused, for a short budget or anything else, leaves no payment,
      no FAILED status and no event behind. */
  lemma RefusedCreateLeavesNothing(catalog: seq<PolicyVersion>, w: World, s: Step)
    requires s.Create? && CreateSpec(w.db, catalog, s.body, s.key, s.stale, s.version, s.now).Raised?
    ensures Apply(catalog, w, s) == w
  {
  }
}
