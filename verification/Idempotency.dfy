/** Idempotency of the create call, over any sequence of steps. A call whose lookup missed
    before another caller's insert committed is a `stale` one, held back by the unique
    constraint alone. */
module Idempotency {
  import opened Domain
  import opened Sums
  import opened Orchestrators
  import opened Controls
  import opened Apis
  import opened Machine
  import opened Rows
  import opened Consistency
  import opened Views
  import opened Admission
  import opened Steps
  import opened Approvals
  import opened Safety

  predicate SameOwner(a: Request, b: Request) {
    a.account == b.account && a.key == b.key
  }

  /** UNIQUE (account_id, idempotency_key). */
  ghost predicate OwnedOnce(requests: seq<Request>) {
    forall i: nat, j: nat :: i < j < |requests| ==> !SameOwner(requests[i], requests[j])
  }

  lemma ExtendsIsTransitive(a: seq<Request>, b: seq<Request>, c: seq<Request>)
    requires Extends(a, b) && Extends(b, c)
    ensures Extends(a, c)
  {
    forall p: nat | p < |a|
      ensures Kept(a[p], c[p])
    {
      assert Kept(a[p], b[p]) && Kept(b[p], c[p]);
    }
  }

  lemma {:induction false} RunExtends(catalog: seq<PolicyVersion>, w: World, steps: seq<Step>)
    requires Inv(w)
    ensures Extends(w.db.requests, Execute(catalog, w, steps).db.requests)
  {
    hide Apply, Inv, Kept;
    if steps == [] {
      ExtendsItself(w.db.requests);
    } else {
      var before := Execute(catalog, w, steps[..|steps| - 1]);
      RunExtends(catalog, w, steps[..|steps| - 1]);
      RunKeepsInv(catalog, w, steps[..|steps| - 1]);
      StepExtends(catalog, before, steps[|steps| - 1]);
      ExtendsIsTransitive(w.db.requests, before.db.requests, Apply(catalog, before, steps[|steps| - 1]).db.requests);
    }
  }

  lemma ExtendsItself(requests: seq<Request>)
    ensures Extends(requests, requests)
  {
  }

  /** A step adds at most one request, whose account and key no older request has. */
  lemma StepInserts(catalog: seq<PolicyVersion>, w: World, s: Step)
    requires Inv(w)
    ensures var after := Apply(catalog, w, s).db.requests;
            && |after| <= |w.db.requests| + 1
            && (|after| > |w.db.requests| ==>
                  forall i: nat :: i < |w.db.requests| ==> !SameOwner(w.db.requests[i], after[|w.db.requests|]))
  {
    hide Sum, TxRows, JournalRows, OpRows, HoldRows, ViewOf, ApprovalRows, CreateSpec, BirthSpec, ApproveSpec, DenySpec;
    match s
    case Create(body, key, stale, version, now) =>
      if CreateSpec(w.db, catalog, body, key, stale, version, now).Done? {
        CreateInserts(w.db, catalog, body, key, stale, version, now);
      }
    case BirthAuthorized(account, agent, key, amount, currency) => BirthInserts(w.db, account, agent, key, amount, currency);
    case Approve(a, now) =>
      if ApproveSpec(w.db, a, now).Done? {
        AwaitingHasNoHold(w.db, a, now);
        DecisionInRange(w.db, a, now);
        ApproveSound(w.db, a, now);
        ApproveView(w.db, a, now, ApproveSpec(w.db, a, now).value);
      }
    case Deny(a, now) =>
      if DenySpec(w.db, a, now).Done? {
        DecisionInRange(w.db, a, now);
        DenyView(w.db, a, now, DenySpec(w.db, a, now).value);
      }
    case _ => ExecutionFrame(catalog, w, s);
  }

  lemma CreateInserts(db: Db, catalog: seq<PolicyVersion>, body: Body, key: string, stale: bool, version: Option<nat>, now: int)
    requires Sound(db) && CreateSpec(db, catalog, body, key, stale, version, now).Done?
    ensures var a := CreateSpec(db, catalog, body, key, stale, version, now);
            var r := |db.requests|;
            if Find(db.requests, OwnedBy(body.account, key)) >= 0 then a.db.requests == db.requests && a.value.Replayed?
            else && |a.db.requests| == r + 1 && a.db.requests[r].account == body.account && a.db.requests[r].key == key
                 && a.db.requests[r].fingerprint == Some(body) && a.value.payment == r && !a.value.Replayed?
  {
    hide Sum, TxRows, JournalRows, OpRows, HoldRows, ControlSpec;
    if Find(db.requests, OwnedBy(body.account, key)) < 0 {
      var inserted := InsertPayment(RecordEvidence(db, body, CheckEvidence(body, now).value), body, key, |db.evidence|);
      ControlKeepsOwner(inserted, catalog, |db.payments|, body, version, now);
    }
  }

  lemma ControlKeepsOwner(db: Db, catalog: seq<PolicyVersion>, p: nat, body: Body, version: Option<nat>, now: int)
    requires p < |db.payments| && p < |db.requests|
    requires ControlSpec(db, catalog, p, p, body, version, now).Done?
    ensures var a := ControlSpec(db, catalog, p, p, body, version, now);
            && |a.db.requests| == |db.requests| && SameOwner(a.db.requests[p], db.requests[p])
            && a.db.requests[p].fingerprint == db.requests[p].fingerprint
            && a.value.payment == p && !a.value.Replayed?
  {
    hide Sum, Find, SelectBudget, PrepareSpec;
    var bound := ActivePolicy(catalog, body.account, body.policy, version);
    if bound.Some? {
      var judged := BindPolicy(db, p, bound.value);
      var budget := SelectBudget(judged, body.account, body.budget, body.currency, catalog[bound.value].policy);
      if budget.Some? {
        var ready := BindBudget(judged, p, budget.value);
        if PrepareSpec(ready, p, p, budget.value, Value(body.amount), body.currency).Done? {
          PreparedRequests(ready, p, budget.value, Value(body.amount), body.currency);
        }
      }
    }
  }

  lemma BirthInserts(db: Db, account: string, agent: string, key: string, amount: Money, currency: Currency)
    ensures var after := Commit(db, BirthSpec(db, account, agent, key, amount, currency)).requests;
            && |db.requests| <= |after| <= |db.requests| + 1
            && (|after| > |db.requests| ==>
                  forall i: nat :: i < |db.requests| ==> !SameOwner(db.requests[i], after[|db.requests|]))
  {
  }

  lemma InsertingKeepsOwners(before: seq<Request>, after: seq<Request>)
    requires OwnedOnce(before) && Extends(before, after) && |after| <= |before| + 1
    requires |after| > |before| ==> forall i: nat :: i < |before| ==> !SameOwner(before[i], after[|before|])
    ensures OwnedOnce(after)
  {
    forall i: nat, j: nat | i < j < |after|
      ensures !SameOwner(after[i], after[j])
    {
      assert Kept(before[i], after[i]);
      if j < |before| {
        assert Kept(before[j], after[j]);
      }
    }
  }

  lemma {:induction false} RunOwnedOnce(catalog: seq<PolicyVersion>, start: World, steps: seq<Step>)
    requires Init(start)
    ensures OwnedOnce(Execute(catalog, start, steps).db.requests)
  {
    hide Apply, Inv, Extends, SameOwner;
    if steps != [] {
      var before := Execute(catalog, start, steps[..|steps| - 1]);
      var s := steps[|steps| - 1];
      RunOwnedOnce(catalog, start, steps[..|steps| - 1]);
      Reached(catalog, start, steps[..|steps| - 1]);
      StepExtends(catalog, before, s);
      StepInserts(catalog, before, s);
      InsertingKeepsOwners(before.db.requests, Apply(catalog, before, s).db.requests);
    }
  }

  lemma OwnerIsUnique(requests: seq<Request>, i: nat, j: nat)
    requires OwnedOnce(requests) && i < |requests| && j < |requests| && SameOwner(requests[i], requests[j])
    ensures i == j
  {
    assert SameOwner(requests[j], requests[i]);
  }

  /** After every run each (account, key) owns at most one request, one payment and one
      reservation, whatever races the create calls ran. */
  lemma EachKeyOwnsOne(catalog: seq<PolicyVersion>, start: World, steps: seq<Step>)
    requires Init(start)
    ensures var db := Execute(catalog, start, steps).db;
            && (forall i: nat, j: nat :: i < |db.requests| && j < |db.requests| && SameOwner(db.requests[i], db.requests[j]) ==>
                  i == j)
            && (forall p: nat, q: nat ::
                  p < |db.payments| && q < |db.payments| && db.payments[p].request == db.payments[q].request ==> p == q)
            && (forall r: nat, t: nat ::
                  r < |db.reservations| && t < |db.reservations| && db.reservations[r].request == db.reservations[t].request ==>
                  r == t)
  {
    hide Sum, TxRows, JournalRows, OpRows;
    RunOwnedOnce(catalog, start, steps);
    Reached(catalog, start, steps);
    var db := Execute(catalog, start, steps).db;
    forall i: nat, j: nat | i < |db.requests| && j < |db.requests| && SameOwner(db.requests[i], db.requests[j])
      ensures i == j
    {
      OwnerIsUnique(db.requests, i, j);
    }
    forall r: nat, t: nat | r < |db.reservations| && t < |db.reservations|
                            && db.reservations[r].request == db.reservations[t].request
      ensures r == t
    {
      assert db.requests[db.reservations[r].request].reservation == Some(r);
    }
  }

  /** Reusing a key adds nothing but, in the race, the evidence presented. */
  lemma ReuseAddsNothing(db: Db, catalog: seq<PolicyVersion>, body: Body, key: string, stale: bool, version: Option<nat>,
                         now: int, r: nat)
    requires r < |db.requests| && OwnedBy(body.account, key)(db.requests[r])
    ensures var after := Commit(db, CreateSpec(db, catalog, body, key, stale, version, now));
            after == db.(evidence := after.evidence) && db.evidence <= after.evidence && (!stale ==> after == db)
  {
    hide Sum, ControlSpec;
  }

  /** The rows after a reuse: in the lost race the evidence presented is recorded first. */
  function Reused(db: Db, body: Body, stale: bool, now: int): Db {
    if stale && CheckEvidence(body, now).Ok? then RecordEvidence(db, body, CheckEvidence(body, now).value) else db
  }

  /** What a call on a key in use answers, found by its lookup or only by losing the race:
      the key's payment, exactly for its own body or for a request that recorded none, and a
      refusal for any other body. A call whose lookup missed has its evidence checked first. */
  lemma ReuseAnswers(db: Db, catalog: seq<PolicyVersion>, body: Body, key: string, stale: bool, version: Option<nat>, now: int,
                     r: nat)
    requires Sound(db) && OwnedOnce(db.requests)
    requires r < |db.requests| && OwnedBy(body.account, key)(db.requests[r])
    ensures var checked := CheckEvidence(body, now);
            CreateSpec(db, catalog, body, key, stale, version, now)
            == if body.evidence.None? then Raised(EvidenceRequired)
               else if stale && checked.Err? then Raised(checked.error)
               else if db.requests[r].fingerprint.None? || db.requests[r].fingerprint == Some(body)
               then Done(Reused(db, body, stale, now), Replayed(r))
               else Raised(KeyReused)
  {
    hide Sum, ControlSpec, TxRows, JournalRows, OpRows, HoldRows, Grants, Stated;
    var owner := Find(db.requests, OwnedBy(body.account, key));
    OwnerIsUnique(db.requests, owner, r);
    PayerIsSelf(db, r);
  }

  /** Whatever happens after a payment is created, and whether a later call finds its key or
      loses the race for it, the key keeps answering with that payment for the same body,
      and with a refusal for any other. */
  lemma SameKeySamePayment(catalog: seq<PolicyVersion>, start: World, before: seq<Step>, first: Step, between: seq<Step>,
                           body: Body, stale: bool, version: Option<nat>, now: int)
    requires Init(start) && first.Create? && body.account == first.body.account && body.evidence.Some?
    requires stale ==> CheckEvidence(body, now).Ok?
    requires var db := Execute(catalog, start, before).db;
             var a := CreateSpec(db, catalog, first.body, first.key, first.stale, first.version, first.now);
             a.Done? && !a.value.Replayed?
    ensures var db := Execute(catalog, start, before).db;
            var p := CreateSpec(db, catalog, first.body, first.key, first.stale, first.version, first.now).value.payment;
            var later := Execute(catalog, start, before + [first] + between).db;
            CreateSpec(later, catalog, body, first.key, stale, version, now)
            == if body == first.body then Done(Reused(later, body, stale, now), Replayed(p)) else Raised(KeyReused)
  {
    hide Sum, CreateSpec, TxRows, JournalRows, OpRows, HoldRows, AllGood, AllFaithful, ApprovalRows, CheckEvidence;
    var w := Execute(catalog, start, before);
    Reached(catalog, start, before);
    CreateInserts(w.db, catalog, first.body, first.key, first.stale, first.version, first.now);
    var created := Apply(catalog, w, first);
    StepKeepsInv(catalog, w, first);
    RunExtends(catalog, created, between);
    ExecuteJoins(catalog, start, before, first, between);
    var later := Execute(catalog, start, before + [first] + between).db;
    Reached(catalog, start, before + [first] + between);
    RunOwnedOnce(catalog, start, before + [first] + between);
    var r := |w.db.requests|;
    assert Kept(created.db.requests[r], later.requests[r]);
    ReuseAnswers(later, catalog, body, first.key, stale, version, now, r);
  }

  lemma {:induction false} ExecuteJoins(catalog: seq<PolicyVersion>, start: World, before: seq<Step>, s: Step, rest: seq<Step>)
    ensures Execute(catalog, start, before + [s] + rest)
            == Execute(catalog, Apply(catalog, Execute(catalog, start, before), s), rest)
  {
    hide Apply;
    var all := before + [s] + rest;
    if rest == [] {
      assert all[..|all| - 1] == before && all[|all| - 1] == s;
    } else {
      var last := |rest| - 1;
      assert all[..|all| - 1] == before + [s] + rest[..last] && all[|all| - 1] == rest[last];
      ExecuteJoins(catalog, start, before, s, rest[..last]);
    }
  }
}
