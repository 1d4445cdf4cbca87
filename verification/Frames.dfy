/** What admission leaves alone, and what each step adds to the outbox. */
module Frames {
  import opened Domain
  import opened Sums
  import opened Orchestrators
  import opened Controls
  import opened Apis
  import opened Machine

  /** Admitting a payment leaves the rows that executing payments writes alone. */
  predicate SameExecution(a: Db, b: Db) {
    a.operations == b.operations && a.transactions == b.transactions && a.journals == b.journals && a.events == b.events
  }

  lemma PrepareFrame(db: Db, p: nat, request: nat, budget: nat, amount: Money, currency: Currency)
    ensures SameExecution(Commit(db, PrepareSpec(db, p, request, budget, amount, currency)), db)
  {
    hide Sum, Find;
  }

  lemma CreateFrame(db: Db, catalog: seq<PolicyVersion>, body: Body, key: string, stale: bool, version: Option<nat>, now: int)
    ensures SameExecution(Commit(db, CreateSpec(db, catalog, body, key, stale, version, now)), db)
  {
    hide Sum, Find, ControlSpec;
    var checked := CheckEvidence(body, now);
    if Find(db.requests, OwnedBy(body.account, key)) < 0 && checked.Ok? {
      var inserted := InsertPayment(RecordEvidence(db, body, checked.value), body, key, |db.evidence|);
      ControlFrame(inserted, catalog, |db.payments|, |db.requests|, body, version, now);
    }
  }

  lemma ControlFrame(db: Db, catalog: seq<PolicyVersion>, p: nat, r: nat, body: Body, version: Option<nat>, now: int)
    requires p < |db.payments| && r < |db.requests|
    ensures SameExecution(Commit(db, ControlSpec(db, catalog, p, r, body, version, now)), db)
  {
    hide Sum, Find, PrepareSpec;
    var bound := ActivePolicy(catalog, body.account, body.policy, version);
    if bound.Some? {
      var judged := BindPolicy(db, r, bound.value);
      var budget := SelectBudget(judged, body.account, body.budget, body.currency, catalog[bound.value].policy);
      if budget.Some? {
        PrepareFrame(BindBudget(judged, r, budget.value), p, r, budget.value, Value(body.amount), body.currency);
      }
    }
  }

  lemma ApproveFrame(db: Db, a: nat, now: int)
    ensures SameExecution(Commit(db, ApproveSpec(db, a, now)), db)
  {
    hide Sum, Find, PrepareSpec;
    if a < |db.approvals| && db.approvals[a].request < |db.requests| {
      var rq := db.requests[db.approvals[a].request];
      var p := Find(db.payments, PaysFor(db.approvals[a].request));
      if p >= 0 && rq.budget.Some? {
        PrepareFrame(SetApproval(db, a, ApprovalStatus.Approved, now), p, db.approvals[a].request, rq.budget.value, rq.amount,
                     rq.currency);
      }
    }
  }

  predicate Admits(s: Step) {
    s.Create? || s.Approve? || s.Deny? || s.BirthAuthorized?
  }

  lemma AdmissionFrame(catalog: seq<PolicyVersion>, w: World, s: Step)
    requires Admits(s)
    ensures SameExecution(Apply(catalog, w, s).db, w.db) && Apply(catalog, w, s).workers == w.workers
  {
    hide Sum, Find, CreateSpec, ApproveSpec;
    match s
    case Create(body, key, stale, version, now) => CreateFrame(w.db, catalog, body, key, stale, version, now);
    case Approve(a, now) => ApproveFrame(w.db, a, now);
    case Deny(_, _) =>
    case BirthAuthorized(_, _, _, _, _) =>
  }
}
