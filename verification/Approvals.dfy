/** A pending approval and a payment awaiting approval are the same thing, after
    every step; with that, the whole invariant is kept by every run. */
module Approvals {
  import opened Domain
  import opened Sums
  import opened Workers
  import opened Resolvers
  import opened Lifecycles
  import opened Controls
  import opened Apis
  import opened Machine
  import opened Rows
  import opened Consistency
  import opened Views
  import opened Admission
  import opened Moves
  import opened Steps

  lemma ExtendsKeepsBinding(before: Db, after: Db, r: nat)
    requires Extends(before.requests, after.requests) && r < |before.requests|
    ensures BindingOf(after, r) == BindingOf(before, r)
  {
  }

  /** Approvals untouched, and no payment enters or leaves the wait. */
  lemma SameApprovals(before: Db, after: Db)
    requires ApprovalRows(before)
    requires after.approvals == before.approvals && |after.payments| == |after.requests|
    requires Extends(before.requests, after.requests)
    requires forall p: nat :: p < |before.payments| ==>
               (after.payments[p].status == ApprovalRequired <==> before.payments[p].status == ApprovalRequired)
    requires forall p: nat :: |before.payments| <= p < |after.payments| ==> after.payments[p].status != ApprovalRequired
    ensures ApprovalRows(after)
  {
    hide Sum;
    forall a: nat | a < |after.approvals|
      ensures after.approvals[a].digest == BindingOf(after, after.approvals[a].request)
    {
      ExtendsKeepsBinding(before, after, after.approvals[a].request);
    }
    forall p: nat | |before.payments| <= p < |after.payments|
      ensures Sum(after.approvals, ApprovalsFor(p)) == 0
    {
      SumZero(after.approvals, ApprovalsFor(p));
    }
  }

  lemma ExecutionKeepsApprovals(catalog: seq<PolicyVersion>, w: World, s: Step)
    requires Inv(w) && (Executes(s) || s.BirthAuthorized?)
    ensures ApprovalRows(Apply(catalog, w, s).db)
  {
    hide Sum, Find, ViewOf, Good, Moved, Allowed, TxRows, JournalRows, OpRows, HoldRows, ApprovalRows, Kept;
    var after := Apply(catalog, w, s).db;
    StepSound(catalog, w, s);
    StepExtends(catalog, w, s);
    ApprovalsFixed(catalog, w, s);
    forall p: nat | p < |w.db.payments|
      ensures after.payments[p].status == ApprovalRequired <==> w.db.payments[p].status == ApprovalRequired
    {
      StepMoves(catalog, w, s, p);
      MovesGrow(ViewOf(w.db, p), MoveFor(w, s, p));
      ViewStatus(w.db, p);
      ViewStatus(after, p);
    }
    forall p: nat | |w.db.payments| <= p < |after.payments|
      ensures after.payments[p].status != ApprovalRequired
    {
      BornAuthorized(catalog, w, s, p);
    }
    SameApprovals(w.db, after);
  }

  lemma ApprovalsFixed(catalog: seq<PolicyVersion>, w: World, s: Step)
    requires Inv(w) && (Executes(s) || s.BirthAuthorized?)
    ensures Apply(catalog, w, s).db.approvals == w.db.approvals
  {
    hide Sum, Find, ViewOf, TxRows, JournalRows, OpRows, HoldRows, ApprovalRows,
      BeginSpec, FinishSpec, ResolveSpec, CaptureSpec, VoidSpec, RefundSpec;
    if Executes(s) {
      ExecutionFrame(catalog, w, s);
    }
  }

  lemma BornAuthorized(catalog: seq<PolicyVersion>, w: World, s: Step, p: nat)
    requires Inv(w) && (Executes(s) || s.BirthAuthorized?)
    requires |w.db.payments| <= p < |Apply(catalog, w, s).db.payments|
    ensures Apply(catalog, w, s).db.payments[p].status == Authorized
  {
    hide Sum, Find, ViewOf, TxRows, JournalRows, OpRows, HoldRows, ApprovalRows,
      BeginSpec, FinishSpec, ResolveSpec, CaptureSpec, VoidSpec, RefundSpec;
    if Executes(s) {
      ExecutionFrame(catalog, w, s);
    }
  }

  /** The approvals after the control part: unchanged, or one more for this payment. */
  lemma ControlApprovals(db: Db, catalog: seq<PolicyVersion>, p: nat, body: Body, version: Option<nat>, now: int)
    requires p < |db.payments| && p < |db.requests|
    ensures var a := ControlSpec(db, catalog, p, p, body, version, now);
            a.Done? ==>
              && |a.db.payments| == |db.payments| && |a.db.requests| == |db.requests|
              && (|| (a.db.approvals == db.approvals && a.db.payments[p].status != ApprovalRequired)
                  || (&& a.db.payments[p].status == ApprovalRequired
                      && a.db.approvals == db.approvals + [Approval(p, ApprovalPending, now + APPROVAL_LIFETIME,
                                                                    BindingOf(a.db, p), None)]))
  {
    hide Sum, Find, SelectBudget, ActivePolicy;
  }

  lemma CreateKeepsApprovals(db: Db, catalog: seq<PolicyVersion>, body: Body, key: string, stale: bool,
                             version: Option<nat>, now: int)
    requires Sound(db) && ApprovalRows(db)
    requires CreateSpec(db, catalog, body, key, stale, version, now).Done?
    ensures ApprovalRows(CreateSpec(db, catalog, body, key, stale, version, now).db)
  {
    hide Sum, Find, TxRows, JournalRows, OpRows, HoldRows, ControlSpec, CheckEvidence;
    var a := CreateSpec(db, catalog, body, key, stale, version, now);
    var p := |db.payments|;
    if Find(db.requests, OwnedBy(body.account, key)) < 0 {
      var e := |db.evidence|;
      var recorded := RecordEvidence(db, body, CheckEvidence(body, now).value);
      var inserted := InsertPayment(recorded, body, key, e);
      ControlApprovals(inserted, catalog, p, body, version, now);
      CreatedRow(db, catalog, body, key, stale, version, now);
      SumZero(db.approvals, ApprovalsFor(p));
      if a.db.approvals == db.approvals {
        SameApprovals(db, a.db);
      } else {
        var row := a.db.approvals[|db.approvals|];
        forall q: nat | q < |a.db.payments|
          ensures Sum(a.db.approvals, ApprovalsFor(q)) == Sum(db.approvals, ApprovalsFor(q)) + if q == p then 1 else 0
        {
          SumAppend(db.approvals, row, ApprovalsFor(q));
        }
        forall k: nat | k < |db.approvals|
          ensures a.db.approvals[k].digest == BindingOf(a.db, a.db.approvals[k].request)
        {
          ExtendsKeepsBinding(db, a.db, db.approvals[k].request);
        }
      }
    }
  }

  /** Creating leaves older statuses alone. */
  lemma CreatedRow(db: Db, catalog: seq<PolicyVersion>, body: Body, key: string, stale: bool, version: Option<nat>, now: int)
    requires Sound(db) && CreateSpec(db, catalog, body, key, stale, version, now).Done?
    ensures var after := CreateSpec(db, catalog, body, key, stale, version, now).db;
            && |db.payments| <= |after.payments| == |after.requests|
            && Extends(db.requests, after.requests)
            && forall q: nat :: q < |db.payments| ==> after.payments[q].status == db.payments[q].status
  {
    hide Sum, Find, TxRows, JournalRows, OpRows, HoldRows, CreateSpec, ViewOf;
    var after := CreateSpec(db, catalog, body, key, stale, version, now).db;
    CreateView(db, catalog, body, key, stale, version, now, 0);
    CreateSound(db, catalog, body, key, stale, version, now);
    forall q: nat | q < |db.payments|
      ensures after.payments[q].status == db.payments[q].status
    {
      CreateView(db, catalog, body, key, stale, version, now, q);
      ViewStatus(db, q);
      ViewStatus(after, q);
    }
  }

  /** Deciding one approval ends its payment's wait, and no other's. */
  lemma DecisionKeepsApprovals(before: Db, after: Db, a: nat, row: Approval)
    requires ApprovalRows(before) && a < |before.approvals|
    requires before.approvals[a].status == ApprovalPending && row.status != ApprovalPending
    requires row.request == before.approvals[a].request && row.digest == before.approvals[a].digest
    requires after.approvals == before.approvals[a := row]
    requires |after.payments| == |after.requests| == |before.requests| && Extends(before.requests, after.requests)
    requires forall q: nat :: q < |before.payments| ==>
               if q == row.request then after.payments[q].status != ApprovalRequired
               else after.payments[q].status == before.payments[q].status
    ensures ApprovalRows(after)
  {
    hide Sum;
    forall q: nat | q < |after.payments|
      ensures Sum(after.approvals, ApprovalsFor(q)) == Sum(before.approvals, ApprovalsFor(q))
    {
      SumUpdate(before.approvals, a, row, ApprovalsFor(q));
    }
    forall k: nat | k < |after.approvals|
      ensures after.approvals[k].digest == BindingOf(after, after.approvals[k].request)
      ensures k != a ==> after.approvals[k].request != row.request
    {
      ExtendsKeepsBinding(before, after, after.approvals[k].request);
      if k != a && after.approvals[k].request == row.request {
        SumAtLeastTwo(before.approvals, ApprovalsFor(row.request), if k < a then k else a, if k < a then a else k);
      }
    }
  }

  lemma ApproveKeepsApprovals(w: World, a: nat, now: int)
    requires Inv(w) && ApproveSpec(w.db, a, now).Done?
    ensures ApprovalRows(ApproveSpec(w.db, a, now).db)
  {
    hide Sum, Find, TxRows, JournalRows, OpRows, HoldRows, ViewOf, ApproveSpec, ApprovalRows;
    var after := ApproveSpec(w.db, a, now).db;
    AwaitingHasNoHold(w.db, a, now);
    ApprovedRow(w.db, a, now);
    ApproveSound(w.db, a, now);
    DecisionInRange(w.db, a, now);
    ApproveView(w.db, a, now, ApproveSpec(w.db, a, now).value);
    forall q: nat | q < |w.db.payments|
      ensures after.payments[q].status
              == if q == ApproveSpec(w.db, a, now).value then Processing else w.db.payments[q].status
    {
      ApproveView(w.db, a, now, q);
      ViewStatus(w.db, q);
      ViewStatus(after, q);
    }
    DecisionKeepsApprovals(w.db, after, a, after.approvals[a]);
  }

  lemma ApprovedRow(db: Db, a: nat, now: int)
    requires ApproveSpec(db, a, now).Done?
    ensures a < |db.approvals| && db.approvals[a].status == ApprovalPending && now < db.approvals[a].expires
    ensures ApproveSpec(db, a, now).db.approvals
            == db.approvals[a := db.approvals[a].(status := ApprovalStatus.Approved, decided := Some(now))]
  {
    hide Sum, Find;
  }

  lemma DenyKeepsApprovals(w: World, a: nat, now: int)
    requires Inv(w) && DenySpec(w.db, a, now).Done?
    ensures ApprovalRows(DenySpec(w.db, a, now).db)
  {
    hide Sum, Find, TxRows, JournalRows, OpRows, HoldRows, ApprovalRows;
    var after := DenySpec(w.db, a, now).db;
    PayerIsSelf(w.db, w.db.approvals[a].request);
    DecisionKeepsApprovals(w.db, after, a, after.approvals[a]);
  }

  lemma StepApprovals(catalog: seq<PolicyVersion>, w: World, s: Step)
    requires Inv(w)
    ensures ApprovalRows(Apply(catalog, w, s).db)
  {
    hide Sum, Find, Sound, ApprovalRows, CreateSpec, ApproveSpec, DenySpec, AllGood, AllFaithful;
    match s
    case Create(body, key, stale, version, now) =>
      if CreateSpec(w.db, catalog, body, key, stale, version, now).Done? {
        CreateKeepsApprovals(w.db, catalog, body, key, stale, version, now);
      }
    case Approve(a, now) =>
      if ApproveSpec(w.db, a, now).Done? {
        ApproveKeepsApprovals(w, a, now);
      }
    case Deny(a, now) =>
      if DenySpec(w.db, a, now).Done? {
        DenyKeepsApprovals(w, a, now);
      }
    case _ => ExecutionKeepsApprovals(catalog, w, s);
  }

  lemma StepKeepsInv(catalog: seq<PolicyVersion>, w: World, s: Step)
    requires Inv(w)
    ensures Inv(Apply(catalog, w, s))
  {
    hide Sound, AllGood, AllFaithful, ApprovalRows, Apply;
    StepSound(catalog, w, s);
    StepGood(catalog, w, s);
    StepFaithful(catalog, w, s);
    StepApprovals(catalog, w, s);
  }

  /** The invariant holds after every run. */
  lemma {:induction false} RunKeepsInv(catalog: seq<PolicyVersion>, w: World, steps: seq<Step>)
    requires Inv(w)
    ensures Inv(Execute(catalog, w, steps))
  {
    hide Inv, Apply;
    if steps != [] {
      RunKeepsInv(catalog, w, steps[..|steps| - 1]);
      StepKeepsInv(catalog, Execute(catalog, w, steps[..|steps| - 1]), steps[|steps| - 1]);
    }
  }

  lemma InitInv(w: World)
    requires Init(w)
    ensures Inv(w)
  {
  }
}
