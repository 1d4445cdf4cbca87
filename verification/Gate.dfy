/** The control gate, over whole runs: what stands behind every payment that holds a
    reservation or is PROCESSING. */
module Gate {
  import opened Domain
  import opened Sums
  import opened Orchestrators
  import opened Policies
  import opened Controls
  import opened Apis
  import opened Machine
  import opened Rows
  import opened Consistency
  import opened Views
  import opened Admission
  import opened Moves
  import opened Steps
  import opened Approvals
  import opened Safety

  /** The request is bound to verified evidence that covers its amount and currency. */
  predicate Evidenced(rq: Request, r: nat, evidence: seq<Evidence>) {
    && rq.evidence.Some? && rq.evidence.value < |evidence|
    && var row := evidence[rq.evidence.value];
       row.verified && row.request == Some(r) && Covers(row.claims, rq.agent, rq.account, rq.amount, rq.currency)
  }

  predicate Judged(rq: Request, catalog: seq<PolicyVersion>) {
    rq.policyVersion.Some? && rq.policyVersion.value < |catalog| && catalog[rq.policyVersion.value].account == rq.account
  }

  function DecisionOn(rq: Request, catalog: seq<PolicyVersion>): Decision
    requires Judged(rq, catalog)
  {
    Decide(catalog[rq.policyVersion.value].rules, IntentOf(rq))
  }

  /** An approval given in time, for the eight bound fields as they are. */
  ghost predicate ApprovedFor(db: Db, r: nat)
    requires r < |db.requests|
  {
    exists a: nat :: a < |db.approvals| && Approves(db, a, r)
  }

  predicate Approves(db: Db, a: nat, r: nat)
    requires a < |db.approvals| && r < |db.requests|
  {
    var row := db.approvals[a];
    && row.request == r && row.status == ApprovalStatus.Approved && row.digest == BindingOf(db, r)
    && row.decided.Some? && row.decided.value < row.expires
  }

  /** Evidence and policy admit the request and a budget is bound to it; the policy may
      still ask for approval. */
  predicate Cleared(db: Db, catalog: seq<PolicyVersion>, r: nat)
    requires r < |db.requests|
  {
    var rq := db.requests[r];
    Evidenced(rq, r, db.evidence) && Judged(rq, catalog) && DecisionOn(rq, catalog) != Decision.Deny && rq.budget.Some?
  }

  ghost predicate Gated(db: Db, catalog: seq<PolicyVersion>, r: nat)
    requires r < |db.requests|
  {
    && Cleared(db, catalog, r)
    && (DecisionOn(db.requests[r], catalog) == RequireApproval ==> ApprovedFor(db, r))
  }

  ghost predicate Guarded(db: Db, catalog: seq<PolicyVersion>, p: nat)
    requires p < |db.requests| && p < |db.payments|
  {
    && (db.requests[p].reservation.Some? ==> Gated(db, catalog, p))
    && (db.payments[p].status == ApprovalRequired ==> Cleared(db, catalog, p))
  }

  ghost predicate AllGuarded(db: Db, catalog: seq<PolicyVersion>) {
    |db.payments| == |db.requests| && forall p: nat :: p < |db.payments| ==> Guarded(db, catalog, p)
  }

  /** The parts of a payment's gate that a step may touch. */
  ghost predicate SameGate(before: Db, after: Db, p: nat) {
    && p < |before.requests| && p < |after.requests|
    && after.requests[p].(reservation := None) == before.requests[p].(reservation := None)
    && before.evidence <= after.evidence
    && forall a: nat :: a < |before.approvals| && before.approvals[a].request == p ==>
         a < |after.approvals| && after.approvals[a] == before.approvals[a]
  }

  lemma GateKept(before: Db, after: Db, catalog: seq<PolicyVersion>, p: nat)
    requires SameGate(before, after, p)
    ensures Cleared(before, catalog, p) ==> Cleared(after, catalog, p)
    ensures Gated(before, catalog, p) ==> Gated(after, catalog, p)
  {
    if Gated(before, catalog, p) && DecisionOn(before.requests[p], catalog) == RequireApproval {
      var a: nat :| a < |before.approvals| && Approves(before, a, p);
      assert Approves(after, a, p);
    }
  }

  lemma ExecutionGuarded(catalog: seq<PolicyVersion>, w: World, s: Step)
    requires Inv(w) && AllGuarded(w.db, catalog) && Executes(s)
    ensures AllGuarded(Apply(catalog, w, s).db, catalog)
  {
    hide Sum, Find, ViewOf, Good, Moved, Allowed, TxRows, JournalRows, OpRows, HoldRows, ApprovalRows, Apply, MoveFor,
      Cleared, Gated;
    var after := Apply(catalog, w, s).db;
    ExecutionFrame(catalog, w, s);
    forall p: nat | p < |after.payments|
      ensures Guarded(after, catalog, p)
    {
      assert Guarded(w.db, catalog, p);
      StepMoves(catalog, w, s, p);
      MovesGrow(ViewOf(w.db, p), MoveFor(w, s, p));
      ViewStatus(w.db, p);
      ViewStatus(after, p);
      GateKept(w.db, after, catalog, p);
    }
  }

  /** The control part of a create call: what it decides is what the gate asks for. */
  lemma ControlGate(db: Db, catalog: seq<PolicyVersion>, p: nat, body: Body, version: Option<nat>, now: int)
    requires p < |db.payments| && p < |db.requests|
    requires db.requests[p].reservation.None? && db.payments[p].status == PolicyCheck
    requires db.requests[p].account == body.account
    requires ControlSpec(db, catalog, p, p, body, version, now).Done?
    ensures var after := ControlSpec(db, catalog, p, p, body, version, now).db;
            && |after.requests| == |db.requests| && |after.payments| == |db.payments| && after.evidence == db.evidence
            && after.requests[p].evidence == db.requests[p].evidence
            && SameIdentity(after.requests[p], db.requests[p])
            && (after.requests[p].reservation.Some? || after.payments[p].status == ApprovalRequired ==>
                  && Judged(after.requests[p], catalog) && DecisionOn(after.requests[p], catalog) != Decision.Deny
                  && after.requests[p].budget.Some?)
            && (after.requests[p].reservation.Some? ==> DecisionOn(after.requests[p], catalog) != RequireApproval)
  {
    hide Sum, Find, SelectBudget, Decide, PrepareSpec;
    var bound := ActivePolicy(catalog, body.account, body.policy, version);
    if bound.Some? {
      var judged := BindPolicy(db, p, bound.value);
      var budget := SelectBudget(judged, body.account, body.budget, body.currency, catalog[bound.value].policy);
      if budget.Some? {
        var ready := BindBudget(judged, p, budget.value);
        if PrepareSpec(ready, p, p, budget.value, Value(body.amount), body.currency).Done? {
          PreparedRequests(ready, p, budget.value, Value(body.amount), body.currency);
          PreparedRest(ready, p, budget.value, Value(body.amount), body.currency);
        }
      }
    }
  }

  lemma PreparedRest(db: Db, p: nat, budget: nat, amount: Money, currency: Currency)
    requires PrepareSpec(db, p, p, budget, amount, currency).Done?
    ensures var after := PrepareSpec(db, p, p, budget, amount, currency).db;
            after.evidence == db.evidence && |after.payments| == |db.payments|
  {
    hide Sum, Find;
  }

  predicate SameIdentity(a: Request, b: Request) {
    && a.account == b.account && a.agent == b.agent && a.amount == b.amount && a.currency == b.currency
    && a.merchant == b.merchant && a.category == b.category
  }

  lemma CreatedGuarded(db: Db, catalog: seq<PolicyVersion>, body: Body, key: string, stale: bool, version: Option<nat>, now: int)
    requires CreateSpec(db, catalog, body, key, stale, version, now).Done?
    requires |db.payments| == |db.requests| && Find(db.requests, OwnedBy(body.account, key)) < 0
    ensures var after := CreateSpec(db, catalog, body, key, stale, version, now).db;
            var p := |db.payments|;
            p < |after.payments| && p < |after.requests| && Guarded(after, catalog, p)
  {
    hide Sum, Find, ControlSpec, Decide;
    var claims := CheckEvidence(body, now).value;
    var inserted := InsertPayment(RecordEvidence(db, body, claims), body, key, |db.evidence|);
    ControlGate(inserted, catalog, |db.payments|, body, version, now);
  }

  /** Creating only adds approvals and evidence. */
  lemma CreateAdds(db: Db, catalog: seq<PolicyVersion>, body: Body, key: string, stale: bool, version: Option<nat>, now: int)
    requires CreateSpec(db, catalog, body, key, stale, version, now).Done? && |db.payments| == |db.requests|
    ensures var after := CreateSpec(db, catalog, body, key, stale, version, now).db;
            db.approvals <= after.approvals && db.evidence <= after.evidence
  {
    hide Sum, Find, ControlSpec;
    if Find(db.requests, OwnedBy(body.account, key)) < 0 {
      var claims := CheckEvidence(body, now).value;
      var inserted := InsertPayment(RecordEvidence(db, body, claims), body, key, |db.evidence|);
      ControlApprovals(inserted, catalog, |db.payments|, body, version, now);
      ControlKeepsEvidence(inserted, catalog, |db.payments|, |db.requests|, body, version, now);
    }
  }

  lemma ControlKeepsEvidence(db: Db, catalog: seq<PolicyVersion>, p: nat, r: nat, body: Body, version: Option<nat>, now: int)
    requires p < |db.payments| && r < |db.requests|
    ensures Commit(db, ControlSpec(db, catalog, p, r, body, version, now)).evidence == db.evidence
  {
    hide Sum, Find, SelectBudget, Decide;
  }

  /** Payments a step does not decide keep their gate. */
  lemma OthersGuarded(before: Db, after: Db, catalog: seq<PolicyVersion>, p: nat)
    requires p < |before.payments| && p < |after.payments| && Sound(before) && Sound(after)
    requires Guarded(before, catalog, p) && SameGate(before, after, p)
    requires ViewOf(after, p) == ViewOf(before, p)
    ensures Guarded(after, catalog, p)
  {
    hide Sum, TxRows, JournalRows, OpRows, FilingOf, CallsOf, Cleared, Gated, SameGate;
    GateKept(before, after, catalog, p);
    HoldMeansReservation(before, p);
    HoldMeansReservation(after, p);
    ViewStatus(before, p);
    ViewStatus(after, p);
  }

  lemma CreateGuarded(w: World, catalog: seq<PolicyVersion>, body: Body, key: string, stale: bool, version: Option<nat>, now: int)
    requires Inv(w) && AllGuarded(w.db, catalog) && CreateSpec(w.db, catalog, body, key, stale, version, now).Done?
    ensures AllGuarded(CreateSpec(w.db, catalog, body, key, stale, version, now).db, catalog)
  {
    hide Sum, Find, ViewOf, TxRows, JournalRows, OpRows, HoldRows, ApprovalRows, CreateSpec, Guarded, NewView, AllGood;
    var after := CreateSpec(w.db, catalog, body, key, stale, version, now).db;
    CreateSound(w.db, catalog, body, key, stale, version, now);
    CreateAdds(w.db, catalog, body, key, stale, version, now);
    forall p: nat | p < |after.payments|
      ensures Guarded(after, catalog, p)
    {
      CreateView(w.db, catalog, body, key, stale, version, now, p);
      if p < |w.db.payments| {
        OthersGuarded(w.db, after, catalog, p);
      } else {
        ReusedAddsNothing(w.db, catalog, body, key, stale, version, now);
        CreatedGuarded(w.db, catalog, body, key, stale, version, now);
      }
    }
  }

  /** A key in use adds no payment. */
  lemma ReusedAddsNothing(db: Db, catalog: seq<PolicyVersion>, body: Body, key: string, stale: bool, version: Option<nat>,
                          now: int)
    requires CreateSpec(db, catalog, body, key, stale, version, now).Done?
    ensures Find(db.requests, OwnedBy(body.account, key)) >= 0 ==>
              |CreateSpec(db, catalog, body, key, stale, version, now).db.payments| == |db.payments|
  {
    hide Sum, ControlSpec;
  }

  lemma ApproveKeepsEvidence(db: Db, a: nat, now: int)
    ensures Commit(db, ApproveSpec(db, a, now)).evidence == db.evidence
  {
    hide Sum, Find;
  }

  lemma ApproveGuarded(w: World, catalog: seq<PolicyVersion>, a: nat, now: int)
    requires Inv(w) && AllGuarded(w.db, catalog) && ApproveSpec(w.db, a, now).Done?
    ensures AllGuarded(ApproveSpec(w.db, a, now).db, catalog)
  {
    hide Sum, Find, ViewOf, TxRows, JournalRows, OpRows, HoldRows, ApproveSpec, AllGood, Cleared;
    ApprovedRow(w.db, a, now);
    var after := ApproveSpec(w.db, a, now).db;
    var p := w.db.approvals[a].request;
    AwaitingHasNoHold(w.db, a, now);
    ApproveSound(w.db, a, now);
    ApproveKeepsEvidence(w.db, a, now);
    forall q: nat | q < |after.payments|
      ensures Guarded(after, catalog, q)
    {
      ApproveView(w.db, a, now, if q < |w.db.payments| then q else p);
      assert Guarded(w.db, catalog, q);
      if q != p {
        OthersGuarded(w.db, after, catalog, q);
      } else {
        ClearedIsKept(w.db, after, catalog, p);
        ExtendsKeepsBinding(w.db, after, p);
        ViewStatus(after, p);
        assert Approves(after, a, p);
      }
    }
  }

  /** A reservation adds nothing to what the gate asked for. */
  lemma ClearedIsKept(before: Db, after: Db, catalog: seq<PolicyVersion>, p: nat)
    requires p < |before.requests| && Extends(before.requests, after.requests) && after.evidence == before.evidence
    requires Cleared(before, catalog, p)
    ensures Cleared(after, catalog, p)
  {
  }

  lemma DenyGuarded(w: World, catalog: seq<PolicyVersion>, a: nat, now: int)
    requires Inv(w) && AllGuarded(w.db, catalog) && DenySpec(w.db, a, now).Done?
    ensures AllGuarded(DenySpec(w.db, a, now).db, catalog)
  {
    hide Sum, Find, TxRows, JournalRows, OpRows, HoldRows, Cleared, Gated, FilingOf, CallsOf;
    var after := DenySpec(w.db, a, now).db;
    var p := w.db.approvals[a].request;
    PayerIsSelf(w.db, p);
    HoldMeansReservation(w.db, p);
    assert Good(ViewOf(w.db, p));
    forall q: nat | q < |after.payments|
      ensures Guarded(after, catalog, q)
    {
      assert Guarded(w.db, catalog, q);
      if q != p {
        GateKept(w.db, after, catalog, q);
      }
    }
  }

  lemma BirthGuarded(w: World, catalog: seq<PolicyVersion>, s: Step)
    requires Inv(w) && AllGuarded(w.db, catalog) && s.BirthAuthorized?
    ensures AllGuarded(Apply(catalog, w, s).db, catalog)
  {
    hide Sum, Find, TxRows, JournalRows, OpRows, HoldRows, ApprovalRows, Cleared, Gated, ViewOf;
    var after := Apply(catalog, w, s).db;
    forall q: nat | q < |after.payments|
      ensures Guarded(after, catalog, q)
    {
      if q < |w.db.payments| {
        assert Guarded(w.db, catalog, q);
        GateKept(w.db, after, catalog, q);
      }
    }
  }

  lemma StepGuarded(catalog: seq<PolicyVersion>, w: World, s: Step)
    requires Inv(w) && AllGuarded(w.db, catalog)
    ensures AllGuarded(Apply(catalog, w, s).db, catalog)
  {
    hide Sum, Find, Inv, AllGuarded, CreateSpec, ApproveSpec, DenySpec;
    match s
    case Create(body, key, stale, version, now) =>
      if CreateSpec(w.db, catalog, body, key, stale, version, now).Done? {
        CreateGuarded(w, catalog, body, key, stale, version, now);
      }
    case Approve(a, now) =>
      if ApproveSpec(w.db, a, now).Done? {
        ApproveGuarded(w, catalog, a, now);
      }
    case Deny(a, now) =>
      if DenySpec(w.db, a, now).Done? {
        DenyGuarded(w, catalog, a, now);
      }
    case BirthAuthorized(_, _, _, _, _) => BirthGuarded(w, catalog, s);
    case _ => ExecutionGuarded(catalog, w, s);
  }

  lemma {:induction false} RunGuarded(catalog: seq<PolicyVersion>, start: World, steps: seq<Step>)
    requires Init(start)
    ensures AllGuarded(Execute(catalog, start, steps).db, catalog)
  {
    hide Apply, Inv, Guarded;
    if steps != [] {
      RunGuarded(catalog, start, steps[..|steps| - 1]);
      Reached(catalog, start, steps[..|steps| - 1]);
      StepGuarded(catalog, Execute(catalog, start, steps[..|steps| - 1]), steps[|steps| - 1]);
    }
  }

  /** In every reachable state a payment that has a reservation, or is PROCESSING, is bound
      to verified evidence covering its amount and currency and to a policy that did not
      deny it; and if that policy asked for approval, one was given, before it expired and
      for the same eight fields. */
  lemma NothingPassesUnchecked(catalog: seq<PolicyVersion>, start: World, steps: seq<Step>, p: nat)
    requires Init(start)
    ensures var db := Execute(catalog, start, steps).db;
            p < |db.payments| && p < |db.requests|
            && (db.requests[p].reservation.Some? || db.payments[p].status == Processing)
            ==> Gated(db, catalog, p)
  {
    hide Sum, TxRows, JournalRows, OpRows, FilingOf, CallsOf, Gated, Cleared;
    RunGuarded(catalog, start, steps);
    Reached(catalog, start, steps);
    var db := Execute(catalog, start, steps).db;
    if p < |db.payments| && p < |db.requests| {
      assert Good(ViewOf(db, p));
      HoldMeansReservation(db, p);
      assert Guarded(db, catalog, p);
    }
  }

  /** In every reachable state a pending approval and a payment awaiting approval are the
      same thing: each payment that reads APPROVAL_REQUIRED has exactly one approval, and
      an approval is PENDING exactly while its payment reads so. */
  lemma PendingMeansAwaiting(catalog: seq<PolicyVersion>, start: World, steps: seq<Step>, a: nat, p: nat)
    requires Init(start)
    ensures var db := Execute(catalog, start, steps).db;
            && (a < |db.approvals| ==>
                  && db.approvals[a].request < |db.payments|
                  && (db.approvals[a].status == ApprovalPending <==>
                      db.payments[db.approvals[a].request].status == ApprovalRequired))
            && (p < |db.payments| && db.payments[p].status == ApprovalRequired ==>
                  exists b: nat :: b < |db.approvals| && db.approvals[b].request == p
                                   && db.approvals[b].status == ApprovalPending
                                   && forall c: nat :: c < |db.approvals| && db.approvals[c].request == p ==> c == b)
  {
    hide Sum, Sound, AllGood, AllFaithful;
    Reached(catalog, start, steps);
    var db := Execute(catalog, start, steps).db;
    if p < |db.payments| && db.payments[p].status == ApprovalRequired {
      var b := SumPositive(db.approvals, ApprovalsFor(p));
      forall c: nat | c < |db.approvals| && db.approvals[c].request == p
        ensures c == b
      {
        if c != b {
          SumAtLeastTwo(db.approvals, ApprovalsFor(p), if c < b then c else b, if c < b then b else c);
        }
      }
    }
  }
}
