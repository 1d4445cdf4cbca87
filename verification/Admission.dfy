/** What creating, approving and denying do to requests and views. */
module Admission {
  import opened Domain
  import opened Sums
  import opened Orchestrators
  import opened Policies
  import opened Controls
  import opened Apis
  import opened Machine
  import opened Rows
  import opened Consistency
  import opened Views

  const Blank := Filing(0, 0, 0, 0, 0)
  const Silent := Calls(0, 0, 0, 0, 0)

  /** A new payment as each way of creating it leaves it. */
  predicate NewView(v: View) {
    && v.amount > 0 && v.filing == Blank && v.calls == Silent && v.journals == 0
    && ((v.status == Processing && v.hold == Some(Reserved))
        || ((v.status == Failed || v.status == ApprovalRequired || v.status == Authorized) && v.hold == None))
  }

  /** A request keeps everything but its reservation, and that once it has one. */
  predicate Kept(a: Request, b: Request) {
    b == a || (a.reservation.None? && b == a.(reservation := b.reservation))
  }

  ghost predicate Extends(before: seq<Request>, after: seq<Request>) {
    && |before| <= |after|
    && forall p: nat :: p < |before| ==> Kept(before[p], after[p])
  }

  lemma PrepareView(db: Db, p: nat, budget: nat, amount: Money, currency: Currency, q: nat)
    requires Sound(db) && p < |db.payments| && db.requests[p].reservation.None? && q < |db.payments|
    requires PrepareSpec(db, p, p, budget, amount, currency).Done?
    ensures var a := PrepareSpec(db, p, p, budget, amount, currency);
            && ViewOf(a.db, q) == (if q == p then ViewOf(db, q).(status := Processing, hold := Some(Reserved))
                                   else ViewOf(db, q))
            && Extends(db.requests, a.db.requests) && |a.db.requests| == |db.requests|
  {
    hide Sum, Find, TxRows, JournalRows, OpRows;
  }

  /** The control part of a create call touches its own payment only. */
  lemma ControlView(db: Db, catalog: seq<PolicyVersion>, p: nat, body: Body, version: Option<nat>, now: int,
                    a: Attempt<Created>, q: nat)
    requires q < |db.payments| && p < |db.payments| && p < |db.requests|
    requires a.Done? && |a.db.payments| == |db.payments| && |a.db.requests| == |db.requests|
    requires a == ControlSpec(db, catalog, p, p, body, version, now)
    requires Sound(db) && db.requests[p].reservation.None?
    ensures var v := ViewOf(db, q);
            && (q != p ==> ViewOf(a.db, q) == v)
            && (q == p ==> || ViewOf(a.db, q) == v.(status := Failed)
                           || ViewOf(a.db, q) == v.(status := ApprovalRequired)
                           || ViewOf(a.db, q) == v.(status := Processing, hold := Some(Reserved)))
            && (forall r: nat :: r < |db.requests| && r != p ==> a.db.requests[r] == db.requests[r])
  {
    hide Sum, Find, TxRows, JournalRows, OpRows, HoldRows, PrepareSpec;
    var bound := ActivePolicy(catalog, body.account, body.policy, version);
    if bound.Some? {
      var judged := BindPolicy(db, p, bound.value);
      RelabelSound(db, judged.requests);
      var budget := SelectBudget(judged, body.account, body.budget, body.currency, catalog[bound.value].policy);
      var decision := Decide(catalog[bound.value].rules, IntentOf(db.requests[p]));
      if decision != Decision.Deny && budget.Some? {
        var ready := BindBudget(judged, p, budget.value);
        RelabelSound(judged, ready.requests);
        if decision != RequireApproval {
          PrepareView(ready, p, budget.value, Value(body.amount), body.currency, q);
          PreparedRequests(ready, p, budget.value, Value(body.amount), body.currency);
        }
      }
    }
  }

  lemma PreparedRequests(db: Db, p: nat, budget: nat, amount: Money, currency: Currency)
    requires p < |db.payments| && p < |db.requests|
    requires PrepareSpec(db, p, p, budget, amount, currency).Done?
    ensures var a := PrepareSpec(db, p, p, budget, amount, currency);
            a.db.requests == db.requests[p := db.requests[p].(reservation := Some(a.value))]
  {
  }

  /** Creating leaves every older payment and request alone; a new payment starts blank. */
  lemma CreateView(db: Db, catalog: seq<PolicyVersion>, body: Body, key: string, stale: bool, version: Option<nat>, now: int,
                   q: nat)
    requires Sound(db)
    requires CreateSpec(db, catalog, body, key, stale, version, now).Done?
    ensures var a := CreateSpec(db, catalog, body, key, stale, version, now);
            && |db.payments| <= |a.db.payments| <= |db.payments| + 1
            && (q < |db.payments| ==> ViewOf(a.db, q) == ViewOf(db, q))
            && (|db.payments| <= q < |a.db.payments| ==> NewView(ViewOf(a.db, q)))
            && Extends(db.requests, a.db.requests)
  {
    hide Sum, Find, ControlSpec;
    var owner := Find(db.requests, OwnedBy(body.account, key));
    if owner < 0 {
      var claims := CheckEvidence(body, now).value;
      var e, p := |db.evidence|, |db.payments|;
      var recorded := RecordEvidence(db, body, claims);
      var inserted := InsertPayment(recorded, body, key, e);
      InsertSound(recorded, NewRequest(body, key, e), Payment(p, Value(body.amount), body.currency, PolicyCheck));
      assert Sound(inserted);
      FreshView(db, p);
      CreatedSize(inserted, catalog, p, body, version, now);
      var a := ControlSpec(inserted, catalog, p, p, body, version, now);
      ControlView(inserted, catalog, p, body, version, now, a, if q <= p then q else p);
    }
  }

  lemma CreatedSize(db: Db, catalog: seq<PolicyVersion>, p: nat, body: Body, version: Option<nat>, now: int)
    requires p < |db.payments| && p < |db.requests|
    ensures var a := ControlSpec(db, catalog, p, p, body, version, now);
            a.Done? ==> |a.db.payments| == |db.payments| && |a.db.requests| == |db.requests|
  {
    hide Sum, Find;
  }

  lemma BirthView(db: Db, account: string, agent: string, key: string, amount: Money, currency: Currency, q: nat)
    requires Sound(db) && BirthSpec(db, account, agent, key, amount, currency).Done?
    ensures var a := BirthSpec(db, account, agent, key, amount, currency);
            && Sound(a.db) && |a.db.payments| == |db.payments| + 1
            && (q < |db.payments| ==> ViewOf(a.db, q) == ViewOf(db, q))
            && (q == |db.payments| ==> NewView(ViewOf(a.db, q)))
            && Extends(db.requests, a.db.requests)
  {
    hide Sum, Find;
    var a := BirthSpec(db, account, agent, key, amount, currency);
    InsertSound(db, a.db.requests[|db.requests|], a.db.payments[|db.payments|]);
    FreshView(db, |db.payments|);
  }

  lemma ApproveView(db: Db, a: nat, now: int, q: nat)
    requires Sound(db) && q < |db.payments| && ApproveSpec(db, a, now).Done?
    requires db.requests[db.approvals[a].request].reservation.None?
    ensures var after := ApproveSpec(db, a, now).db;
            var p := db.approvals[a].request;
            && ApproveSpec(db, a, now).value == p < |db.payments| && db.payments[p].status == ApprovalRequired
            && ViewOf(after, q) == (if q == p then ViewOf(db, q).(status := Processing, hold := Some(Reserved))
                                    else ViewOf(db, q))
            && |after.payments| == |db.payments| && Extends(db.requests, after.requests)
  {
    hide Sum, Find, TxRows, JournalRows, OpRows, HoldRows, PrepareSpec;
    var p := db.approvals[a].request;
    PayerIsSelf(db, p);
    var decided := SetApproval(db, a, ApprovalStatus.Approved, now);
    PrepareView(decided, p, db.requests[p].budget.value, db.requests[p].amount, db.requests[p].currency, q);
    PrepareSound(decided, p, db.requests[p].budget.value, db.requests[p].amount, db.requests[p].currency);
  }

  lemma DenyView(db: Db, a: nat, now: int, q: nat)
    requires Sound(db) && q < |db.payments| && DenySpec(db, a, now).Done?
    ensures var after := DenySpec(db, a, now).db;
            var p := db.approvals[a].request;
            && DenySpec(db, a, now).value == p < |db.payments|
            && Sound(after) && after.requests == db.requests && |after.payments| == |db.payments|
            && ViewOf(after, q) == if q == p then ViewOf(db, q).(status := Failed) else ViewOf(db, q)
  {
    hide Sum, Find;
    PayerIsSelf(db, db.approvals[a].request);
  }
}
