/** Authorization, policy, budget selection and approvals: reference/implementation/src/agent_pay/control.py,
    authorization.py and approval.py. */
module Controls {
  import opened Domain
  import opened Sums
  import opened Connections
  import opened Policies

  datatype PolicyVersion = PolicyVersion(policy: nat, account: string, rules: Policy)

  const APPROVAL_LIFETIME := 15 * 60 * 1_000_000  // microseconds

  /** The claims cover the payment: identity, scope, amount, currency and time. */
  predicate Covers(c: Claims, agent: string, account: string, amount: Money, currency: Currency) {
    && c.evidenceId != "" && c.issuer != ""
    && c.agent == agent && c.account == account
    && "PAYMENT" in c.scope
    && 0 < amount
    && c.maxAmount.Some? && amount <= c.maxAmount.value
    && c.currency == Some(currency)
  }

  /** AuthorizationContext.validate, check by check. */
  method Validate(c: Claims, agent: string, account: string, amount: Money, currency: Currency, now: int)
    returns (r: Result<()>)
    ensures r.Ok? <==> Grants(c, agent, account, amount, currency, now)
    ensures r.Err? ==> r.error == EvidenceRejected
  {
    if c.evidenceId == "" || c.issuer == "" {
      return Err(EvidenceRejected);
    }
    if c.agent == "" || c.account == "" {
      return Err(EvidenceRejected);
    }
    if c.agent != agent || c.account != account {
      return Err(EvidenceRejected);
    }
    if c.scope == {} || "PAYMENT" !in c.scope {
      return Err(EvidenceRejected);
    }
    if amount <= 0 {
      return Err(EvidenceRejected);
    }
    if c.maxAmount.None? || c.maxAmount.value <= 0 {
      return Err(EvidenceRejected);
    }
    if amount > c.maxAmount.value {
      return Err(EvidenceRejected);
    }
    if c.currency.None? || c.currency.value == "" {
      return Err(EvidenceRejected);
    }
    if c.currency.value != currency {
      return Err(EvidenceRejected);
    }
    if c.validUntil.None? {
      return Err(EvidenceRejected);
    }
    if now >= c.validUntil.value {
      return Err(EvidenceRejected);
    }
    return Ok(());
  }

  predicate Grants(c: Claims, agent: string, account: string, amount: Money, currency: Currency, now: int) {
    && Covers(c, agent, account, amount, currency)
    && agent != "" && account != "" && currency != ""
    && c.validUntil.Some? && now < c.validUntil.value
  }

  function IntentOf(rq: Request): Intent {
    Intent(rq.amount, rq.currency, rq.merchant.Or(""), rq.category.Or(""), "", "", None)
  }

  /** The row the active-policy query returned, if it is one it may return. */
  function ActivePolicy(catalog: seq<PolicyVersion>, account: string, policy: Option<nat>, version: Option<nat>): Option<nat> {
    if version.Some? && version.value < |catalog| && catalog[version.value].account == account
       && (policy.Some? ==> catalog[version.value].policy == policy.value)
    then version else None
  }

  function UsableBudget(account: string, currency: Currency, policy: nat): Budget -> bool {
    (b: Budget) => b.account == account && b.currency == currency && b.active && (b.policy.None? || b.policy.value == policy)
  }

  /** The named budget if usable; without a name, the only usable one. */
  function SelectBudget(db: Db, account: string, wanted: Option<nat>, currency: Currency, policy: nat): Option<nat> {
    var usable := UsableBudget(account, currency, policy);
    if wanted.Some? then
      if wanted.value < |db.budgets| && usable(db.budgets[wanted.value]) then wanted else None
    else
      var first, last := Find(db.budgets, usable), FindLast(db.budgets, usable);
      if first >= 0 && first == last then Some(first) else None
  }

  /** A budget is chosen without a name exactly when one and only one is usable. */
  lemma SelectedBudgetIsTheOnlyOne(db: Db, account: string, currency: Currency, policy: nat, b: nat)
    ensures SelectBudget(db, account, None, currency, policy) == Some(b) <==>
              && b < |db.budgets|
              && forall i :: 0 <= i < |db.budgets| ==>
                   (i == b <==>
                      && db.budgets[i].account == account && db.budgets[i].currency == currency && db.budgets[i].active
                      && (db.budgets[i].policy == None || db.budgets[i].policy == Some(policy)))
  {
    var usable := UsableBudget(account, currency, policy);
    var first, last := Find(db.budgets, usable), FindLast(db.budgets, usable);
    FirstAndLast(db.budgets, usable);
    if SelectBudget(db, account, None, currency, policy) == Some(b) {
      forall i | 0 <= i < |db.budgets|
        ensures usable(db.budgets[i]) <==> i == b
      {
      }
    } else if b < |db.budgets| && usable(db.budgets[b]) {
      assert first < b || b < last;
    }
  }

  lemma {:induction false} FirstAndLast<T>(rows: seq<T>, f: T -> bool)
    ensures forall i :: 0 <= i < |rows| && f(rows[i]) ==> Find(rows, f) <= i <= FindLast(rows, f)
  {
    if rows != [] {
      FirstAndLast(rows[..|rows| - 1], f);
    }
  }

  function BindingOf(db: Db, r: nat): Binding
    requires r < |db.requests|
  {
    var rq := db.requests[r];
    Binding(r, rq.account, rq.agent, rq.amount, rq.currency, rq.merchant, rq.policyVersion, rq.evidence)
  }

  function PaysFor(r: nat): Payment -> bool {
    (p: Payment) => p.request == r
  }

  function BindPolicy(db: Db, r: nat, version: nat): Db
    requires r < |db.requests|
  {
    db.(requests := db.requests[r := db.requests[r].(policyVersion := Some(version))])
  }

  function BindBudget(db: Db, r: nat, budget: nat): Db
    requires r < |db.requests|
  {
    db.(requests := db.requests[r := db.requests[r].(budget := Some(budget))])
  }

  function CreateApproval(db: Db, r: nat, now: int): Db
    requires r < |db.requests|
  {
    db.(approvals := db.approvals + [Approval(r, ApprovalPending, now + APPROVAL_LIFETIME, BindingOf(db, r), None)])
  }

  function SetApproval(db: Db, a: nat, status: ApprovalStatus, now: int): Db
    requires a < |db.approvals|
  {
    db.(approvals := db.approvals[a := db.approvals[a].(status := status, decided := Some(now))])
  }

  class ControlRepository {
    const conn: Connection

    constructor (conn: Connection)
      ensures this.conn == conn
    {
      this.conn := conn;
    }

    method EvaluatePolicy(catalog: seq<PolicyVersion>, account: string, policy: Option<nat>, version: Option<nat>, r: nat)
      returns (decision: Decision, bound: Option<nat>)
      requires r < |conn.db.requests|
      modifies conn`db
      ensures bound == ActivePolicy(catalog, account, policy, version)
      ensures bound.None? ==> decision == Deny && conn.db == old(conn.db)
      ensures bound.Some? ==>
                && conn.db == BindPolicy(old(conn.db), r, bound.value)
                && var rq := old(conn.db.requests[r]);
                   decision == Decide(catalog[bound.value].rules,
                                      Intent(rq.amount, rq.currency, if rq.merchant.Some? then rq.merchant.value else "",
                                             if rq.category.Some? then rq.category.value else "", "", "", None))
    {
      bound := ActivePolicy(catalog, account, policy, version);
      if bound.None? {
        return Deny, bound;
      }
      var trace := EvaluateWithTrace(catalog[bound.value].rules, IntentOf(conn.db.requests[r]));
      conn.db := BindPolicy(conn.db, r, bound.value);
      return trace.decision, bound;
    }

    method Bind(r: nat, budget: nat)
      requires r < |conn.db.requests|
      modifies conn`db
      ensures conn.db == BindBudget(old(conn.db), r, budget)
    {
      var rq := conn.db.requests[r];
      conn.db := conn.db.(requests := conn.db.requests[r := rq.(budget := Some(budget))]);
    }

    method RequestApproval(r: nat, now: int) returns (a: nat)
      requires r < |conn.db.requests|
      modifies conn`db
      ensures conn.db == CreateApproval(old(conn.db), r, now)
      ensures a == |old(conn.db.approvals)|
    {
      a := |conn.db.approvals|;
      var row := Approval(r, ApprovalPending, now + APPROVAL_LIFETIME, BindingOf(conn.db, r), None);
      conn.db := conn.db.(approvals := conn.db.approvals + [row]);
    }

    method DecideApproval(a: nat, status: ApprovalStatus, now: int)
      requires a < |conn.db.approvals|
      modifies conn`db
      ensures conn.db == SetApproval(old(conn.db), a, status, now)
    {
      var row := conn.db.approvals[a];
      conn.db := conn.db.(approvals := conn.db.approvals[a := row.(status := status, decided := Some(now))]);
    }
  }
}
