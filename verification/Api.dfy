/** The API handlers that change rows: reference/implementation/src/agent_pay/api.py. */
module Apis {
  import opened Domain
  import opened Sums
  import opened Connections
  import opened Repositories
  import opened Orchestrators
  import opened Policies
  import opened Controls

  /** The answer of a create call whose transaction committed. */
  datatype Created =
    | Replayed(payment: nat)
    | Rejected(payment: nat)
    | AwaitingApproval(payment: nat, approval: nat)
    | Started(payment: nat)

  function OwnedBy(account: string, key: string): Request -> bool {
    (rq: Request) => rq.account == account && rq.key == key
  }

  /** Reuse of a key: the same body gets its payment, another body is refused. */
  function ReplaySpec(db: Db, r: nat, body: Body): Attempt<Created>
    requires r < |db.requests|
  {
    var fingerprint := db.requests[r].fingerprint;
    if fingerprint.Some? && fingerprint.value != body then Raised(KeyReused)
    else
      var p := Find(db.payments, PaysFor(r));
      if p < 0 then Raised(IncompleteRequest) else Done(db, Replayed(p))
  }

  predicate Stated(doc: EvidenceDocument, c: Claims) {
    && (doc.id != "" ==> doc.id == c.evidenceId)
    && (doc.version.Some? && doc.version.value != "" ==> doc.version.value == c.version)
    && (doc.issuer != "" ==> doc.issuer == c.issuer)
  }

  /** The claims of a genuine assertion that grants this payment now. */
  function CheckEvidence(body: Body, now: int): Result<Claims> {
    if body.evidence.None? then Err(EvidenceRequired)
    else
      var doc := body.evidence.value;
      if doc.assertion.None? then Err(EvidenceRequired)
      else if doc.assertion.value.None? then Err(EvidenceRejected)
      else
        var c := doc.assertion.value.value;
        if Grants(c, body.agent, body.account, Value(body.amount), body.currency, now) && Stated(doc, c) then Ok(c)
        else Err(EvidenceRejected)
  }

  function NewRequest(body: Body, key: string, evidence: nat): Request {
    Request(body.account, body.agent, Value(body.amount), body.currency, body.merchant, body.category,
            key, Some(body), Some(evidence), None, None, None)
  }

  function RecordEvidence(db: Db, body: Body, c: Claims): Db {
    db.(evidence := db.evidence + [Evidence(body.account, body.agent, c, true, None)])
  }

  /** The request, its evidence link and its payment, inserted together. */
  function InsertPayment(db: Db, body: Body, key: string, e: nat): Db
    requires e < |db.evidence|
  {
    var r := |db.requests|;
    db.(requests := db.requests + [NewRequest(body, key, e)],
        evidence := db.evidence[e := db.evidence[e].(request := Some(r))],
        payments := db.payments + [Payment(r, Value(body.amount), body.currency, PolicyCheck)])
  }

  function FailPayment(db: Db, p: nat): Db
    requires p < |db.payments|
  {
    Enqueue(SetStatus(db, p, Failed), p, PaymentFailed)
  }

  /** Policy, budget, then approval or execution. */
  function ControlSpec(db: Db, catalog: seq<PolicyVersion>, p: nat, r: nat, body: Body, version: Option<nat>, now: int):
    Attempt<Created>
    requires p < |db.payments| && r < |db.requests|
  {
    var bound := ActivePolicy(catalog, body.account, body.policy, version);
    if bound.None? then Done(FailPayment(db, p), Rejected(p))
    else
      var decision := Decide(catalog[bound.value].rules, IntentOf(db.requests[r]));
      var judged := BindPolicy(db, r, bound.value);
      if decision == Deny then Done(FailPayment(judged, p), Rejected(p))
      else
        var budget := SelectBudget(judged, body.account, body.budget, body.currency, catalog[bound.value].policy);
        if budget.None? then Done(FailPayment(judged, p), Rejected(p))
        else AdmitSpec(BindBudget(judged, r, budget.value), p, r, body, budget.value, decision, now)
  }

  function AdmitSpec(db: Db, p: nat, r: nat, body: Body, budget: nat, decision: Decision, now: int): Attempt<Created>
    requires p < |db.payments| && r < |db.requests|
  {
    if decision == RequireApproval then
      var a := |db.approvals|;
      var waiting := SetStatus(CreateApproval(db, r, now), p, ApprovalRequired);
      Done(Enqueue(waiting, p, ApprovalRequested(a)), AwaitingApproval(p, a))
    else
      var (started, _) :- PrepareSpec(db, p, r, budget, Value(body.amount), body.currency);
      Done(if decision == AllowNotify then Enqueue(started, p, NotificationRequested) else started, Started(p))
  }

  /** `stale` says that the lookup missed in an earlier state, so only the unique
      constraint stands between two callers of one key. */
  function CreateSpec(db: Db, catalog: seq<PolicyVersion>, body: Body, key: string, stale: bool,
                      version: Option<nat>, now: int): Attempt<Created>
  {
    var owner := Find(db.requests, OwnedBy(body.account, key));
    if !stale && body.evidence.Some? && owner >= 0 then ReplaySpec(db, owner, body)
    else
      var checked := CheckEvidence(body, now);
      if checked.Err? then Raised(checked.error)
      else
        var e := |db.evidence|;
        var recorded := RecordEvidence(db, body, checked.value);
        if owner >= 0 then ReplaySpec(recorded, owner, body)
        else ControlSpec(InsertPayment(recorded, body, key, e), catalog, |db.payments|, |db.requests|, body, version, now)
  }

  function ApproveSpec(db: Db, a: nat, now: int): Attempt<nat> {
    if a >= |db.approvals| then Raised(NotFound)
    else
      var row := db.approvals[a];
      if row.status != ApprovalPending then Raised(NotPending)
      else if now >= row.expires then Raised(ApprovalExpired)
      else
        var p := Find(db.payments, PaysFor(row.request));
        if p < 0 || row.request >= |db.requests| then Raised(NotFound)
        else
          var rq := db.requests[row.request];
          if db.payments[p].status != ApprovalRequired then Raised(NotAwaitingApproval)
          else if rq.budget.None? then Raised(NoBudget)
          else if row.digest != BindingOf(db, row.request) then Raised(BindingChanged)
          else
            var (started, _) :- PrepareSpec(SetApproval(db, a, Approved, now), p, row.request, rq.budget.value,
                                            rq.amount, rq.currency);
            Done(Enqueue(started, p, PaymentApproved(a)), p)
  }

  function DenySpec(db: Db, a: nat, now: int): Attempt<nat> {
    if a >= |db.approvals| then Raised(NotFound)
    else
      var row := db.approvals[a];
      if row.status != ApprovalPending then Raised(NotPending)
      else
        var p := Find(db.payments, PaysFor(row.request));
        if p < 0 then Raised(NotFound)
        else Done(FailPayment(SetApproval(db, a, Denied, now), p), p)
  }

  class PaymentApi {
    const conn: Connection
    const control: ControlRepository
    const orchestrator: PaymentOrchestrator

    ghost predicate Valid() {
      control.conn == conn && orchestrator.conn == conn && orchestrator.Valid()
    }

    constructor (conn: Connection)
      ensures Valid() && this.conn == conn
    {
      this.conn := conn;
      control := new ControlRepository(conn);
      orchestrator := new PaymentOrchestrator(conn);
    }

    method CreatePayment(catalog: seq<PolicyVersion>, body: Body, key: string, stale: bool, version: Option<nat>, now: int)
      returns (r: Result<Created>)
      requires Valid()
      modifies conn
      ensures conn.db == conn.saved == Commit(old(conn.db), CreateSpec(old(conn.db), catalog, body, key, stale, version, now))
      ensures r == ToResult(CreateSpec(old(conn.db), catalog, body, key, stale, version, now))
    {
      conn.Begin();
      r := CreateInTransaction(catalog, body, key, stale, version, now);
      conn.End(r.Ok?);
    }

    method CreateInTransaction(catalog: seq<PolicyVersion>, body: Body, key: string, stale: bool, version: Option<nat>,
                               now: int) returns (r: Result<Created>)
      requires Valid()
      modifies conn`db
      ensures Agrees(CreateSpec(old(conn.db), catalog, body, key, stale, version, now), conn.db, r)
    {
      if body.evidence.None? {
        return Err(EvidenceRequired);
      }
      if !stale {
        var existing := Find(conn.db.requests, OwnedBy(body.account, key));
        if existing >= 0 {
          return ToResult(ReplaySpec(conn.db, existing, body));
        }
      }
      var doc := body.evidence.value;
      if doc.assertion.None? {
        return Err(EvidenceRequired);
      }
      if doc.assertion.value.None? {
        return Err(EvidenceRejected);
      }
      var claims := doc.assertion.value.value;
      var _ :- Validate(claims, body.agent, body.account, Value(body.amount), body.currency, now);
      if !Stated(doc, claims) {
        return Err(EvidenceRejected);
      }
      var e := |conn.db.evidence|;
      conn.db := RecordEvidence(conn.db, body, claims);
      var owner := Find(conn.db.requests, OwnedBy(body.account, key));
      if owner >= 0 {
        return ToResult(ReplaySpec(conn.db, owner, body));
      }
      var request, p := |conn.db.requests|, |conn.db.payments|;
      conn.db := InsertPayment(conn.db, body, key, e);
      r := ApplyControl(catalog, p, request, body, version, now);
    }

    method ApplyControl(catalog: seq<PolicyVersion>, p: nat, request: nat, body: Body, version: Option<nat>, now: int)
      returns (r: Result<Created>)
      requires Valid() && p < |conn.db.payments| && request < |conn.db.requests|
      modifies conn`db
      ensures Agrees(ControlSpec(old(conn.db), catalog, p, request, body, version, now), conn.db, r)
    {
      var decision, bound := control.EvaluatePolicy(catalog, body.account, body.policy, version, request);
      if decision == Deny {
        Fail(p);
        return Ok(Rejected(p));
      }
      var budget := SelectBudget(conn.db, body.account, body.budget, body.currency, catalog[bound.value].policy);
      if budget.None? {
        Fail(p);
        return Ok(Rejected(p));
      }
      control.Bind(request, budget.value);
      r := Admit(p, request, body, budget.value, decision, now);
    }

    method Admit(p: nat, request: nat, body: Body, budget: nat, decision: Decision, now: int) returns (r: Result<Created>)
      requires Valid() && p < |conn.db.payments| && request < |conn.db.requests|
      modifies conn`db
      ensures Agrees(AdmitSpec(old(conn.db), p, request, body, budget, decision, now), conn.db, r)
    {
      if decision == RequireApproval {
        var a := control.RequestApproval(request, now);
        orchestrator.payments.UpdateStatus(p, ApprovalRequired);
        orchestrator.payments.EnqueueFact(p, ApprovalRequested(a));
        return Ok(AwaitingApproval(p, a));
      }
      var _ :- orchestrator.Prepare(p, request, budget, Value(body.amount), body.currency);
      if decision == AllowNotify {
        orchestrator.payments.EnqueueFact(p, NotificationRequested);
      }
      return Ok(Started(p));
    }

    method Fail(p: nat)
      requires Valid() && p < |conn.db.payments|
      modifies conn`db
      ensures conn.db == FailPayment(old(conn.db), p)
    {
      orchestrator.payments.UpdateStatus(p, Failed);
      orchestrator.payments.EnqueueFact(p, PaymentFailed);
    }

    method ApprovePayment(a: nat, now: int) returns (r: Result<nat>)
      requires Valid()
      modifies conn
      ensures conn.db == conn.saved == Commit(old(conn.db), ApproveSpec(old(conn.db), a, now))
      ensures r == ToResult(ApproveSpec(old(conn.db), a, now))
    {
      conn.Begin();
      r := ApproveInTransaction(a, now);
      conn.End(r.Ok?);
    }

    /** An expired approval is marked EXPIRED and the exception then undoes the mark. */
    method ApproveInTransaction(a: nat, now: int) returns (r: Result<nat>)
      requires Valid()
      modifies conn`db
      ensures Agrees(ApproveSpec(old(conn.db), a, now), conn.db, r)
    {
      if a >= |conn.db.approvals| {
        return Err(NotFound);
      }
      var row := conn.db.approvals[a];
      if row.status != ApprovalPending {
        return Err(NotPending);
      }
      if now >= row.expires {
        control.DecideApproval(a, Expired, now);
        return Err(ApprovalExpired);
      }
      var p := Find(conn.db.payments, PaysFor(row.request));
      if p < 0 || row.request >= |conn.db.requests| {
        return Err(NotFound);
      }
      var rq := conn.db.requests[row.request];
      if conn.db.payments[p].status != ApprovalRequired {
        return Err(NotAwaitingApproval);
      }
      if rq.budget.None? {
        return Err(NoBudget);
      }
      if row.digest != BindingOf(conn.db, row.request) {
        return Err(BindingChanged);
      }
      control.DecideApproval(a, Approved, now);
      var _ :- orchestrator.Prepare(p, row.request, rq.budget.value, rq.amount, rq.currency);
      orchestrator.payments.EnqueueFact(p, PaymentApproved(a));
      return Ok(p);
    }

    method DenyPayment(a: nat, now: int) returns (r: Result<nat>)
      requires Valid()
      modifies conn
      ensures conn.db == conn.saved == Commit(old(conn.db), DenySpec(old(conn.db), a, now))
      ensures r == ToResult(DenySpec(old(conn.db), a, now))
    {
      conn.Begin();
      if a >= |conn.db.approvals| {
        r := Err(NotFound);
      } else if conn.db.approvals[a].status != ApprovalPending {
        r := Err(NotPending);
      } else {
        var p := Find(conn.db.payments, PaysFor(conn.db.approvals[a].request));
        if p < 0 {
          r := Err(NotFound);
        } else {
          control.DecideApproval(a, Denied, now);
          Fail(p);
          r := Ok(p);
        }
      }
      conn.End(r.Ok?);
    }
  }
}
