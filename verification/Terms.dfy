/** The terms a payment is started on, field by field: evidence, policy, budget and approval. */
module Terms {
  import opened Domain
  import opened Sums
  import opened Repositories
  import opened Orchestrators
  import opened Policies
  import opened Controls
  import opened Apis
  import opened Machine
  import opened Rows
  import opened Consistency
  import opened Steps
  import opened Safety
  import opened Budgets
  import opened Gate
  import opened Uncommitted
  import opened Idempotency
  import opened Decisions

  /** The rules admit a payment of this amount, currency, merchant and category. A payment has
      no region, instrument or time, so rules that ask for one admit nothing. */
  predicate Permits(rules: Policy, amount: Money, currency: Currency, merchant: Option<string>, category: Option<string>) {
    var domain := if merchant.Some? then merchant.value else "";
    && 0 < rules.limit && amount <= rules.limit
    && currency !in rules.currencies.denied
    && (rules.currencies.allowed.Some? ==> currency in rules.currencies.allowed.value)
    && domain !in rules.domains.denied
    && (rules.domains.allowed.Some? ==> domain in rules.domains.allowed.value)
    && (category.Some? && category.value != "" ==> category.value !in rules.categories.denied)
    && (rules.categories.allowed.Some? ==>
          category.Some? && category.value != "" && category.value in rules.categories.allowed.value)
    && rules.regions.allowed.None? && rules.instruments.allowed.None?
    && rules.schedule.weekdays.None? && rules.schedule.start.None? && rules.schedule.end.None?
  }

  predicate Exceeds(amount: Money, threshold: Option<Money>) {
    threshold.Some? && amount > threshold.value
  }

  /** The decision on a request, by the request's own fields. */
  lemma DecisionInFull(rules: Policy, rq: Request)
    ensures Decide(rules, IntentOf(rq))
            == if !Permits(rules, rq.amount, rq.currency, rq.merchant, rq.category) then Decision.Deny
               else if Exceeds(rq.amount, rules.approvalAbove) then RequireApproval
               else if Exceeds(rq.amount, rules.notifyAbove) then AllowNotify
               else AllowAuto
  {
  }

  /** The budget belongs to the account, is active, in the payment's currency, and is tied to
      no other policy; a budget that was named is the one. */
  predicate Suits(db: Db, body: Body, policy: nat, b: nat) {
    && b < |db.budgets|
    && db.budgets[b].account == body.account && db.budgets[b].currency == body.currency && db.budgets[b].active
    && (db.budgets[b].policy == None || db.budgets[b].policy == Some(policy))
    && (body.budget.Some? ==> body.budget.value == b)
  }

  /** A budget is chosen exactly when it is the only one that suits. */
  lemma ChoiceInFull(db: Db, body: Body, policy: nat, b: nat)
    ensures SelectBudget(db, body.account, body.budget, body.currency, policy) == Some(b) <==>
              Suits(db, body, policy, b) && forall k: nat :: Suits(db, body, policy, k) ==> k == b
  {
    if body.budget.None? {
      SelectedBudgetIsTheOnlyOne(db, body.account, body.currency, policy, b);
      var usable := UsableBudget(body.account, body.currency, policy);
      assert forall k: nat :: Suits(db, body, policy, k) <==> k < |db.budgets| && usable(db.budgets[k]);
    }
  }

  /** The claims vouch for this body now. */
  predicate Vouches(c: Claims, doc: EvidenceDocument, body: Body, now: int) {
    && c.evidenceId != "" && c.issuer != ""
    && c.agent == body.agent && body.agent != ""
    && c.account == body.account && body.account != ""
    && "PAYMENT" in c.scope
    && 0 < Value(body.amount)
    && c.maxAmount.Some? && Value(body.amount) <= c.maxAmount.value
    && c.currency == Some(body.currency) && body.currency != ""
    && c.validUntil.Some? && now < c.validUntil.value
    && (doc.id != "" ==> doc.id == c.evidenceId)
    && (doc.issuer != "" ==> doc.issuer == c.issuer)
    && (doc.version.Some? && doc.version.value != "" ==> doc.version.value == c.version)
  }

  lemma EvidenceInFull(body: Body, now: int)
    ensures CheckEvidence(body, now)
            == if body.evidence.None? || body.evidence.value.assertion.None? then Err(EvidenceRequired)
               else
                 var doc := body.evidence.value;
                 var claims := doc.assertion.value;
                 if claims.Some? && Vouches(claims.value, doc, body, now) then Ok(claims.value) else Err(EvidenceRejected)
  {
  }

  /** The policy version in force is one of the account's, and of the policy the body names. */
  predicate InForce(catalog: seq<PolicyVersion>, body: Body, v: nat) {
    v < |catalog| && catalog[v].account == body.account && (body.policy.Some? ==> catalog[v].policy == body.policy.value)
  }

  /** The request's row, with what the control part bound to it. */
  function Ordered(body: Body, key: string, e: nat, v: Option<nat>, b: Option<nat>, r: Option<nat>): Request {
    Request(body.account, body.agent, Value(body.amount), body.currency, body.merchant, body.category, key, Some(body),
            Some(e), v, b, r)
  }

  /** The rows that a create call inserts with its payment. */
  function Placed(db: Db, row: Request, claims: Claims, status: PaymentStatus, facts: seq<Fact>): Db {
    var p := |db.payments|;
    db.(requests := db.requests + [row],
        payments := db.payments + [Payment(p, row.amount, row.currency, status)],
        evidence := db.evidence + [Evidence(row.account, row.agent, claims, true, Some(p))],
        outbox := db.outbox + seq(|facts|, i requires 0 <= i < |facts| => OutboxRow(p, facts[i])))
  }

  /** What a create call with a new key and these claims comes to: `v` is the version in
      force, `b` the budget chosen. */
  predicate Concludes(db: Db, catalog: seq<PolicyVersion>, body: Body, key: string, now: int, claims: Claims,
                      v: Option<nat>, b: Option<nat>, a: Attempt<Created>)
    requires v.Some? ==> v.value < |catalog|
    requires v.Some? && b.Some? ==> b.value < |db.budgets|
  {
    var p, e, r, amount := |db.payments|, |db.evidence|, |db.reservations|, Value(body.amount);
    if v.None? || b.None? || !Permits(catalog[v.value].rules, amount, body.currency, body.merchant, body.category) then
      a == Done(Placed(db, Ordered(body, key, e, v, None, None), claims, Failed, [PaymentFailed]), Rejected(p))
    else
      var rules, budget := catalog[v.value].rules, db.budgets[b.value];
      if Exceeds(amount, rules.approvalAbove) then
        var waiting := Placed(db, Ordered(body, key, e, v, b, None), claims, ApprovalRequired,
                              [ApprovalRequested(|db.approvals|)]);
        var binding := Binding(p, body.account, body.agent, amount, body.currency, body.merchant, v, Some(e));
        a == Done(waiting.(approvals := db.approvals + [Approval(p, ApprovalPending, now + 900_000_000, binding, None)]),
                  AwaitingApproval(p, |db.approvals|))
      else if budget.reserved + budget.consumed + amount > budget.limit then a == Raised(BudgetInsufficient)
      else
        var started := Placed(db, Ordered(body, key, e, v, b, Some(r)), claims, Processing,
                              if Exceeds(amount, rules.notifyAbove) then [PaymentStarted(r), NotificationRequested]
                              else [PaymentStarted(r)]);
        a == Done(started.(reservations := db.reservations + [Reservation(b.value, p, amount, Reserved)],
                           budgets := db.budgets[b.value := budget.(reserved := budget.reserved + amount)]), Started(p))
  }

  /** Is this the budget chosen, or the lack of one? */
  ghost predicate Chosen(db: Db, body: Body, policy: nat, b: Option<nat>) {
    match b
    case Some(one) => Suits(db, body, policy, one) && forall k: nat :: Suits(db, body, policy, k) ==> k == one
    case None => forall k: nat :: Suits(db, body, policy, k) ==> exists m: nat :: m != k && Suits(db, body, policy, m)
  }

  lemma ChoiceIsSelected(db: Db, body: Body, policy: nat, b: Option<nat>)
    requires Chosen(db, body, policy, b)
    ensures SelectBudget(db, body.account, body.budget, body.currency, policy) == b
  {
    hide SelectBudget, Suits;
    var selected := SelectBudget(db, body.account, body.budget, body.currency, policy);
    if selected.Some? {
      ChoiceInFull(db, body, policy, selected.value);
    }
    if b.Some? {
      ChoiceInFull(db, body, policy, b.value);
    }
  }

  /** No request of the account has the key. */
  predicate IsNew(requests: seq<Request>, body: Body, key: string) {
    forall i :: 0 <= i < |requests| ==> requests[i].account != body.account || requests[i].key != key
  }

  /** All that a create call with a new key does: refused for its evidence, turned down by the
      policy or for want of a budget, held for approval, or started. */
  lemma CreateInFull(db: Db, catalog: seq<PolicyVersion>, body: Body, key: string, stale: bool, version: Option<nat>,
                     now: int, v: Option<nat>, b: Option<nat>)
    requires Sound(db) && IsNew(db.requests, body, key)
    requires v == if version.Some? && InForce(catalog, body, version.value) then version else None
    requires v.Some? ==> Chosen(db, body, catalog[v.value].policy, b)
    ensures v.Some? && b.Some? ==> b.value < |db.budgets|
    ensures var a := CreateSpec(db, catalog, body, key, stale, version, now);
            var checked := CheckEvidence(body, now);
            if checked.Err? then a == Raised(checked.error)
            else Concludes(db, catalog, body, key, now, checked.value, v, b, a)
  {
    hide Sum, Find, TxRows, JournalRows, OpRows, HoldRows, ControlSpec, CheckEvidence, SelectBudget, Chosen, Concludes;
    NewKey(db, body, key);
    EvidenceInFull(body, now);
    if v.Some? {
      ChosenInRange(db, body, catalog[v.value].policy, b);
    }
    if CheckEvidence(body, now).Ok? {
      ControlInFull(db, catalog, body, key, version, now, v, b, CheckEvidence(body, now).value);
    }
  }

  lemma ChosenInRange(db: Db, body: Body, policy: nat, b: Option<nat>)
    requires Chosen(db, body, policy, b)
    ensures b.Some? ==> b.value < |db.budgets| && db.budgets[b.value].currency == body.currency
  {
  }

  lemma NewKey(db: Db, body: Body, key: string)
    requires IsNew(db.requests, body, key)
    ensures Find(db.requests, OwnedBy(body.account, key)) < 0
  {
  }

  lemma ControlInFull(db: Db, catalog: seq<PolicyVersion>, body: Body, key: string, version: Option<nat>, now: int,
                      v: Option<nat>, b: Option<nat>, claims: Claims)
    requires Sound(db)
    requires v == if version.Some? && InForce(catalog, body, version.value) then version else None
    requires v.Some? ==> Chosen(db, body, catalog[v.value].policy, b)
    requires v.Some? && b.Some? ==> b.value < |db.budgets| && db.budgets[b.value].currency == body.currency
    requires Value(body.amount) > 0
    ensures var inserted := InsertPayment(RecordEvidence(db, body, claims), body, key, |db.evidence|);
            Concludes(db, catalog, body, key, now, claims, v, b,
                      ControlSpec(inserted, catalog, |db.payments|, |db.requests|, body, version, now))
  {
    hide Sum, Find, TxRows, JournalRows, OpRows, HoldRows, SelectBudget, Chosen, Decide, Permits, AdmitSpec;
    var p, e := |db.payments|, |db.evidence|;
    var inserted := InsertPayment(RecordEvidence(db, body, claims), body, key, e);
    if v.Some? {
      ChoiceIsSelected(db, body, catalog[v.value].policy, b);
      DecisionInFull(catalog[v.value].rules, NewRequest(body, key, e));
      SameBudgetsSameChoice(db, BindPolicy(inserted, p, v.value), body, catalog[v.value].policy);
      if b.Some? && Permits(catalog[v.value].rules, Value(body.amount), body.currency, body.merchant, body.category) {
        AdmitInFull(db, catalog, body, key, now, v, b, claims);
      }
    }
  }

  /** The rows before the payment is admitted: inserted, judged and bound to its budget. */
  function Ready(db: Db, body: Body, key: string, v: nat, b: nat, claims: Claims): Db {
    var p := |db.payments|;
    db.(requests := db.requests + [Ordered(body, key, |db.evidence|, Some(v), Some(b), None)],
        payments := db.payments + [Payment(p, Value(body.amount), body.currency, PolicyCheck)],
        evidence := db.evidence + [Evidence(body.account, body.agent, claims, true, Some(p))])
  }

  lemma ReadyInFull(db: Db, body: Body, key: string, v: nat, b: nat, claims: Claims)
    requires Sound(db) && Value(body.amount) > 0
    ensures var p, e := |db.payments|, |db.evidence|;
            var inserted := InsertPayment(RecordEvidence(db, body, claims), body, key, e);
            && p == |db.requests|
            && BindBudget(BindPolicy(inserted, p, v), p, b) == Ready(db, body, key, v, b, claims)
    ensures Sound(Ready(db, body, key, v, b, claims))
  {
    hide Sum, Find, TxRows, JournalRows, OpRows, HoldRows;
    var p, e := |db.payments|, |db.evidence|;
    var recorded := RecordEvidence(db, body, claims);
    var inserted := InsertPayment(recorded, body, key, e);
    InsertSound(recorded, NewRequest(body, key, e), Payment(p, Value(body.amount), body.currency, PolicyCheck));
    var judged := BindPolicy(inserted, p, v);
    RelabelSound(inserted, judged.requests);
    RelabelSound(judged, BindBudget(judged, p, b).requests);
  }

  lemma AdmitInFull(db: Db, catalog: seq<PolicyVersion>, body: Body, key: string, now: int, v: Option<nat>, b: Option<nat>,
                    claims: Claims)
    requires Sound(db) && v.Some? && v.value < |catalog| && b.Some? && b.value < |db.budgets| && Value(body.amount) > 0
    requires db.budgets[b.value].currency == body.currency
    requires Permits(catalog[v.value].rules, Value(body.amount), body.currency, body.merchant, body.category)
    ensures var p, e := |db.payments|, |db.evidence|;
            var inserted := InsertPayment(RecordEvidence(db, body, claims), body, key, e);
            var ready := BindBudget(BindPolicy(inserted, p, v.value), p, b.value);
            Concludes(db, catalog, body, key, now, claims, v, b,
                      AdmitSpec(ready, p, p, body, b.value,
                                Decide(catalog[v.value].rules, IntentOf(NewRequest(body, key, e))), now))
  {
    hide Sound, Decide, Permits, InsertPayment, BindPolicy, BindBudget, Concludes, AdmitSpec;
    DecisionInFull(catalog[v.value].rules, NewRequest(body, key, |db.evidence|));
    ReadyInFull(db, body, key, v.value, b.value, claims);
    if Exceeds(Value(body.amount), catalog[v.value].rules.approvalAbove) {
      WaitsInFull(db, catalog, body, key, now, v, b, claims);
    } else {
      BeginsInFull(db, catalog, body, key, now, v, b, claims);
    }
  }

  lemma WaitsInFull(db: Db, catalog: seq<PolicyVersion>, body: Body, key: string, now: int, v: Option<nat>, b: Option<nat>,
                    claims: Claims)
    requires |db.payments| == |db.requests| && v.Some? && v.value < |catalog| && b.Some? && b.value < |db.budgets|
    requires Permits(catalog[v.value].rules, Value(body.amount), body.currency, body.merchant, body.category)
    requires Exceeds(Value(body.amount), catalog[v.value].rules.approvalAbove)
    ensures Concludes(db, catalog, body, key, now, claims, v, b,
                      AdmitSpec(Ready(db, body, key, v.value, b.value, claims), |db.payments|, |db.payments|, body, b.value,
                                RequireApproval, now))
  {
    hide Permits, PrepareSpec;
  }

  lemma BeginsInFull(db: Db, catalog: seq<PolicyVersion>, body: Body, key: string, now: int, v: Option<nat>, b: Option<nat>,
                     claims: Claims)
    requires |db.payments| == |db.requests| && v.Some? && v.value < |catalog| && b.Some? && b.value < |db.budgets|
    requires Permits(catalog[v.value].rules, Value(body.amount), body.currency, body.merchant, body.category)
    requires !Exceeds(Value(body.amount), catalog[v.value].rules.approvalAbove)
    requires db.budgets[b.value].currency == body.currency && Sound(Ready(db, body, key, v.value, b.value, claims))
    ensures var notify := Exceeds(Value(body.amount), catalog[v.value].rules.notifyAbove);
            Concludes(db, catalog, body, key, now, claims, v, b,
                      AdmitSpec(Ready(db, body, key, v.value, b.value, claims), |db.payments|, |db.payments|, body, b.value,
                                if notify then AllowNotify else AllowAuto, now))
  {
    hide Permits, PrepareSpec, Sound, Concludes;
    var p, amount := |db.payments|, Value(body.amount);
    var ready := Ready(db, body, key, v.value, b.value, claims);
    PreparesExactlyWhen(ready, p);
    if PrepareSpec(ready, p, p, b.value, amount, body.currency).Done? {
      StartInFull(ready, p, b.value, amount, body.currency);
      StartedInFull(db, catalog, body, key, now, v, b, claims, PrepareSpec(ready, p, p, b.value, amount, body.currency).db);
    } else {
      ShortInFull(db, catalog, body, key, now, v, b, claims);
    }
  }

  lemma ShortInFull(db: Db, catalog: seq<PolicyVersion>, body: Body, key: string, now: int, v: Option<nat>, b: Option<nat>,
                    claims: Claims)
    requires v.Some? && v.value < |catalog| && b.Some? && b.value < |db.budgets|
    requires Permits(catalog[v.value].rules, Value(body.amount), body.currency, body.merchant, body.category)
    requires !Exceeds(Value(body.amount), catalog[v.value].rules.approvalAbove)
    requires var budget := db.budgets[b.value]; budget.limit - budget.consumed - budget.reserved < Value(body.amount)
    ensures Concludes(db, catalog, body, key, now, claims, v, b, Raised(BudgetInsufficient))
  {
    hide Permits;
  }

  lemma StartedInFull(db: Db, catalog: seq<PolicyVersion>, body: Body, key: string, now: int, v: Option<nat>, b: Option<nat>,
                      claims: Claims, started: Db)
    requires v.Some? && v.value < |catalog| && b.Some? && b.value < |db.budgets| && |db.requests| == |db.payments|
    requires Permits(catalog[v.value].rules, Value(body.amount), body.currency, body.merchant, body.category)
    requires !Exceeds(Value(body.amount), catalog[v.value].rules.approvalAbove)
    requires var budget := db.budgets[b.value]; budget.limit - budget.consumed - budget.reserved >= Value(body.amount)
    requires var p, r := |db.payments|, |db.reservations|;
             var ready := Ready(db, body, key, v.value, b.value, claims);
             var budget := db.budgets[b.value];
             started == ready.(reservations := db.reservations + [Reservation(b.value, p, Value(body.amount), Reserved)],
                               budgets := db.budgets[b.value := budget.(reserved := budget.reserved + Value(body.amount))],
                               requests := ready.requests[p := ready.requests[p].(reservation := Some(r))],
                               payments := ready.payments[p := ready.payments[p].(status := Processing)],
                               outbox := db.outbox + [OutboxRow(p, PaymentStarted(r))])
    ensures var p := |db.payments|;
            Concludes(db, catalog, body, key, now, claims, v, b,
                      Done(if Exceeds(Value(body.amount), catalog[v.value].rules.notifyAbove)
                           then Enqueue(started, p, NotificationRequested) else started, Started(p)))
  {
    hide Permits;
  }

  lemma SameBudgetsSameChoice(a: Db, b: Db, body: Body, policy: nat)
    requires a.budgets == b.budgets
    ensures SelectBudget(a, body.account, body.budget, body.currency, policy)
            == SelectBudget(b, body.account, body.budget, body.currency, policy)
  {
  }

  lemma SelectedIsChosen(db: Db, body: Body, policy: nat)
    ensures Chosen(db, body, policy, SelectBudget(db, body.account, body.budget, body.currency, policy))
  {
    hide SelectBudget, Suits;
    var b := SelectBudget(db, body.account, body.budget, body.currency, policy);
    if b.Some? {
      ChoiceInFull(db, body, policy, b.value);
    } else {
      forall k: nat | Suits(db, body, policy, k)
        ensures exists m: nat :: m != k && Suits(db, body, policy, m)
      {
        ChoiceInFull(db, body, policy, k);
      }
    }
  }

  // --- over runs ---

  /** The request says what its body said, and is bound to a policy version and a budget that
      were its account's to use. */
  predicate BoundTo(db: Db, catalog: seq<PolicyVersion>, p: nat)
    requires p < |db.requests|
  {
    var rq := db.requests[p];
    && rq.fingerprint.Some? && rq.policyVersion.Some? && rq.budget.Some?
    && var body := rq.fingerprint.value;
       && rq.account == body.account && rq.agent == body.agent
       && rq.amount == Value(body.amount) && rq.currency == body.currency
       && rq.merchant == body.merchant && rq.category == body.category
       && InForce(catalog, body, rq.policyVersion.value)
       && Suits(db, body, catalog[rq.policyVersion.value].policy, rq.budget.value)
  }

  ghost predicate AllBound(db: Db, catalog: seq<PolicyVersion>) {
    forall p: nat :: p < |db.requests| ==>
      && (db.requests[p].budget.Some? ==> BoundTo(db, catalog, p))
      && (db.requests[p].reservation.Some? ==>
            && db.requests[p].reservation.value < |db.reservations|
            && db.requests[p].budget == Some(db.reservations[db.requests[p].reservation.value].budget))
  }

  /** Budgets change only their totals, reservations only their status. */
  ghost predicate OnlyTotalsChange(before: Db, after: Db) {
    && |after.budgets| == |before.budgets|
    && (forall b :: 0 <= b < |before.budgets| ==>
          after.budgets[b].(consumed := before.budgets[b].consumed, reserved := before.budgets[b].reserved) == before.budgets[b])
    && |before.reservations| <= |after.reservations|
    && (forall r :: 0 <= r < |before.reservations| ==>
          after.reservations[r].(status := before.reservations[r].status) == before.reservations[r])
  }

  lemma StepKeepsTerms(catalog: seq<PolicyVersion>, w: World, s: Step)
    requires Inv(w)
    ensures OnlyTotalsChange(w.db, Apply(catalog, w, s).db)
  {
    hide Inv, Apply;
    var m := StepBudgets(catalog, w, s);
  }

  lemma BoundStays(before: Db, after: Db, catalog: seq<PolicyVersion>, p: nat)
    requires OnlyTotalsChange(before, after) && p < |before.requests| && p < |after.requests|
    requires BoundTo(before, catalog, p) && after.requests[p].(reservation := None) == before.requests[p].(reservation := None)
    ensures BoundTo(after, catalog, p)
  {
  }

  lemma CreateBinds(catalog: seq<PolicyVersion>, w: World, s: Step)
    requires Inv(w) && s.Create? && AllBound(w.db, catalog)
    ensures AllBound(Apply(catalog, w, s).db, catalog)
  {
    hide Sum, Find, TxRows, JournalRows, OpRows, HoldRows, AllGood, AllFaithful, ApprovalRows, CheckEvidence, SelectBudget,
      Chosen, BoundTo, Permits, CreateSpec, Concludes;
    var db := w.db;
    var after := Apply(catalog, w, s).db;
    StepKeepsTerms(catalog, w, s);
    if IsNew(db.requests, s.body, s.key) {
      var v := if s.version.Some? && InForce(catalog, s.body, s.version.value) then s.version else None;
      var b := if v.None? then None
               else SelectBudget(db, s.body.account, s.body.budget, s.body.currency, catalog[v.value].policy);
      if v.Some? {
        SelectedIsChosen(db, s.body, catalog[v.value].policy);
      }
      CreateInFull(db, catalog, s.body, s.key, s.stale, s.version, s.now, v, b);
      if CheckEvidence(s.body, s.now).Ok? {
        CreatedIsBound(db, catalog, s, CheckEvidence(s.body, s.now).value, v, b);
      }
    } else {
      var i: nat :| i < |db.requests| && OwnedBy(s.body.account, s.key)(db.requests[i]);
      ReuseAddsNothing(db, catalog, s.body, s.key, s.stale, s.version, s.now, i);
      AllStayBound(db, after, catalog);
    }
  }

  lemma AllStayBound(before: Db, after: Db, catalog: seq<PolicyVersion>)
    requires OnlyTotalsChange(before, after) && AllBound(before, catalog) && after.requests == before.requests
    ensures AllBound(after, catalog)
  {
    hide BoundTo;
    forall p: nat | p < |after.requests| && after.requests[p].budget.Some?
      ensures BoundTo(after, catalog, p)
    {
      BoundStays(before, after, catalog, p);
    }
  }

  lemma CreatedIsBound(db: Db, catalog: seq<PolicyVersion>, s: Step, claims: Claims, v: Option<nat>, b: Option<nat>)
    requires s.Create? && AllBound(db, catalog) && |db.payments| == |db.requests|
    requires v.Some? ==> InForce(catalog, s.body, v.value) && Chosen(db, s.body, catalog[v.value].policy, b)
    requires v.Some? && b.Some? ==> b.value < |db.budgets|
    requires Concludes(db, catalog, s.body, s.key, s.now, claims, v, b,
                       CreateSpec(db, catalog, s.body, s.key, s.stale, s.version, s.now))
    requires OnlyTotalsChange(db, Commit(db, CreateSpec(db, catalog, s.body, s.key, s.stale, s.version, s.now)))
    ensures AllBound(Commit(db, CreateSpec(db, catalog, s.body, s.key, s.stale, s.version, s.now)), catalog)
  {
    hide CreateSpec, Permits, BoundTo, Suits;
    var after := Commit(db, CreateSpec(db, catalog, s.body, s.key, s.stale, s.version, s.now));
    forall p: nat | p < |after.requests|
      ensures after.requests[p].budget.Some? ==> BoundTo(after, catalog, p)
    {
      if p < |db.requests| {
        if db.requests[p].budget.Some? {
          BoundStays(db, after, catalog, p);
        }
      } else if after.requests[p].budget.Some? {
        OrderedIsBound(db, after, catalog, p, s.body, v.value, b.value);
      }
    }
  }

  lemma OrderedIsBound(db: Db, after: Db, catalog: seq<PolicyVersion>, p: nat, body: Body, v: nat, b: nat)
    requires InForce(catalog, body, v) && Suits(db, body, catalog[v].policy, b) && OnlyTotalsChange(db, after)
    requires p < |after.requests|
    requires var rq := after.requests[p];
             rq == Ordered(body, rq.key, if rq.evidence.Some? then rq.evidence.value else 0, Some(v), Some(b), rq.reservation).(
                     evidence := rq.evidence)
    ensures BoundTo(after, catalog, p)
  {
  }

  lemma StepBinds(catalog: seq<PolicyVersion>, w: World, s: Step)
    requires Inv(w) && AllBound(w.db, catalog)
    ensures AllBound(Apply(catalog, w, s).db, catalog)
  {
    hide Sum, Find, Sound, AllGood, AllFaithful, ApprovalRows, CreateSpec, ApproveSpec, DenySpec, BoundTo;
    var after := Apply(catalog, w, s).db;
    StepKeepsTerms(catalog, w, s);
    match s
    case Create(_, _, _, _, _) => CreateBinds(catalog, w, s);
    case Approve(a, now) =>
      if ApproveSpec(w.db, a, now).Done? {
        ApprovalInFull(w, a, now);
        StartedIsBound(w.db, after, catalog, w.db.approvals[a].request);
      }
    case Deny(a, now) =>
      DenialInFull(w, a, now);
      AllStayBound(w.db, after, catalog);
    case BirthAuthorized(_, _, _, _, _) =>
      forall p: nat | p < |w.db.requests| && w.db.requests[p].budget.Some?
        ensures BoundTo(after, catalog, p)
      {
        BoundStays(w.db, after, catalog, p);
      }
    case _ =>
      ExecutionSame(catalog, w, s);
      AllStayBound(w.db, after, catalog);
  }

  lemma ExecutionSame(catalog: seq<PolicyVersion>, w: World, s: Step)
    requires Inv(w) && Executes(s)
    ensures Apply(catalog, w, s).db.requests == w.db.requests
  {
    hide Sound, AllGood, AllFaithful, ApprovalRows, Apply;
    ExecutionFrame(catalog, w, s);
  }

  lemma StartedIsBound(before: Db, after: Db, catalog: seq<PolicyVersion>, p: nat)
    requires OnlyTotalsChange(before, after) && AllBound(before, catalog) && p < |before.requests|
    requires before.requests[p].budget.Some?
    requires |after.reservations| == |before.reservations| + 1
    requires after.reservations[|before.reservations|].budget == before.requests[p].budget.value
    requires after.requests == before.requests[p := before.requests[p].(reservation := Some(|before.reservations|))]
    ensures AllBound(after, catalog)
  {
    hide BoundTo;
    forall q: nat | q < |after.requests| && after.requests[q].budget.Some?
      ensures BoundTo(after, catalog, q)
    {
      BoundStays(before, after, catalog, q);
    }
  }

  lemma {:induction false} RunBinds(catalog: seq<PolicyVersion>, start: World, steps: seq<Step>)
    requires Init(start)
    ensures AllBound(Execute(catalog, start, steps).db, catalog)
  {
    hide Apply, Inv, BoundTo;
    if steps != [] {
      RunBinds(catalog, start, steps[..|steps| - 1]);
      Reached(catalog, start, steps[..|steps| - 1]);
      StepBinds(catalog, Execute(catalog, start, steps[..|steps| - 1]), steps[|steps| - 1]);
    }
  }

  /** Verified evidence of the request's own that covers it. */
  predicate Attested(db: Db, p: nat)
    requires p < |db.requests|
  {
    var rq := db.requests[p];
    && rq.evidence.Some? && rq.evidence.value < |db.evidence|
    && var row := db.evidence[rq.evidence.value];
       && row.verified && row.request == Some(p)
       && row.claims.evidenceId != "" && row.claims.issuer != ""
       && row.claims.agent == rq.agent && row.claims.account == rq.account && "PAYMENT" in row.claims.scope
       && row.claims.maxAmount.Some? && 0 < rq.amount <= row.claims.maxAmount.value
       && row.claims.currency == Some(rq.currency)
  }

  /** An approval that was given before it expired. */
  predicate GivenInTime(db: Db, a: nat, p: nat) {
    && a < |db.approvals| && db.approvals[a].request == p && db.approvals[a].status == ApprovalStatus.Approved
    && db.approvals[a].decided.Some? && db.approvals[a].decided.value < db.approvals[a].expires
  }

  /** In every reachable state a payment that has a reservation was started on terms that admit
      it, field by field: evidence that covers the request, a policy version of its account
      whose every rule admits the payment's own amount, currency, merchant and category, a
      budget of its account and currency that was free for that policy, the very one its body
      named if it named one and the one its hold is on; and above the policy's threshold an
      approval given in time. */
  lemma PaymentTerms(catalog: seq<PolicyVersion>, start: World, steps: seq<Step>, p: nat)
    requires Init(start)
    ensures var db := Execute(catalog, start, steps).db;
            p < |db.payments| && p < |db.requests| && db.requests[p].reservation.Some? ==>
              var rq := db.requests[p];
              && Attested(db, p) && BoundTo(db, catalog, p)
              && db.payments[p].amount == rq.amount && db.payments[p].currency == rq.currency
              && rq.reservation.value < |db.reservations|
              && db.reservations[rq.reservation.value].budget == rq.budget.value
              && db.reservations[rq.reservation.value].amount == rq.amount
              && var rules := catalog[rq.policyVersion.value].rules;
                 && Permits(rules, db.payments[p].amount, db.payments[p].currency, rq.merchant, rq.category)
                 && (Exceeds(db.payments[p].amount, rules.approvalAbove) ==> exists a: nat :: GivenInTime(db, a, p))
  {
    hide Sum, TxRows, JournalRows, OpRows, AllGood, AllFaithful, ApprovalRows, BoundTo, Permits, Decide, Covers;
    Reached(catalog, start, steps);
    RunBinds(catalog, start, steps);
    NothingPassesUnchecked(catalog, start, steps, p);
    var db := Execute(catalog, start, steps).db;
    if p < |db.payments| && p < |db.requests| && db.requests[p].reservation.Some? {
      var rq := db.requests[p];
      DecisionInFull(catalog[rq.policyVersion.value].rules, rq);
      CoversInFull(db.evidence[rq.evidence.value].claims, rq);
      if ApprovedFor(db, p) {
        var a: nat :| a < |db.approvals| && Approves(db, a, p);
        assert GivenInTime(db, a, p);
      }
    }
  }

  lemma CoversInFull(c: Claims, rq: Request)
    requires Covers(c, rq.agent, rq.account, rq.amount, rq.currency)
    ensures c.evidenceId != "" && c.issuer != "" && c.agent == rq.agent && c.account == rq.account && "PAYMENT" in c.scope
    ensures c.maxAmount.Some? && 0 < rq.amount <= c.maxAmount.value && c.currency == Some(rq.currency)
  {
  }
}
