/** What is decided on an approval, and that it stays decided. */
module Decisions {
  import opened Domain
  import opened Sums
  import opened Repositories
  import opened Orchestrators
  import opened Controls
  import opened Apis
  import opened Machine
  import opened Rows
  import opened Consistency
  import opened Views
  import opened Admission
  import opened Moves
  import opened Steps
  import opened Approvals
  import opened Safety

  /** Everything a denial changes: its approval reads DENIED from now on, its payment FAILED,
      and one event says so. It is refused only where there is nothing pending to deny. */
  lemma DenialInFull(w: World, a: nat, now: int)
    requires Inv(w)
    ensures var db := w.db;
            DenySpec(db, a, now)
            == if a >= |db.approvals| then Raised(NotFound)
               else if db.approvals[a].status != ApprovalPending then Raised(NotPending)
               else
                 var p := db.approvals[a].request;
                 Done(db.(approvals := db.approvals[a := db.approvals[a].(status := ApprovalStatus.Denied, decided := Some(now))],
                          payments := db.payments[p := db.payments[p].(status := Failed)],
                          outbox := db.outbox + [OutboxRow(p, PaymentFailed)]), p)
  {
    hide Sum, Find, AllGood, AllFaithful, TxRows, JournalRows, OpRows, HoldRows;
    if a < |w.db.approvals| {
      PayerIsSelf(w.db, w.db.approvals[a].request);
    }
  }

  /** Everything a payment's start changes: the budget holds the amount, the request has the
      new reservation, the payment reads PROCESSING, and one event says so. */
  lemma StartInFull(db: Db, p: nat, b: nat, amount: Money, currency: Currency)
    requires PrepareSpec(db, p, p, b, amount, currency).Done?
    ensures p < |db.requests| && p < |db.payments| && b < |db.budgets|
    ensures var r := |db.reservations|;
            PrepareSpec(db, p, p, b, amount, currency)
            == Done(db.(reservations := db.reservations + [Reservation(b, p, amount, Reserved)],
                        budgets := db.budgets[b := db.budgets[b].(reserved := db.budgets[b].reserved + amount)],
                        requests := db.requests[p := db.requests[p].(reservation := Some(r))],
                        payments := db.payments[p := db.payments[p].(status := Processing)],
                        outbox := db.outbox + [OutboxRow(p, PaymentStarted(r))]), r)
  {
    hide Sum, Find, Reserve, Verified, Terminal;
    ReserveInFull(db, b, p, amount);
  }

  /** A hold is one new row for the whole amount, in a budget of the request's currency that
      has room for it; otherwise nothing changes. */
  lemma ReserveInFull(db: Db, b: nat, request: nat, amount: Money)
    requires Reserve(db, b, request, amount).Done?
    ensures var a := Reserve(db, b, request, amount);
            if b < |db.budgets| && request < |db.requests| && db.budgets[b].currency == db.requests[request].currency
               && db.budgets[b].reserved + db.budgets[b].consumed + amount <= db.budgets[b].limit
            then a == Done(db.(reservations := db.reservations + [Reservation(b, request, amount, Reserved)],
                               budgets := db.budgets[b := db.budgets[b].(reserved := db.budgets[b].reserved + amount)]),
                           Some(|db.reservations|))
            else a == Done(db, None)
  {
    hide Sum, Find;
  }

  /** Everything an approval that is given changes: its row reads APPROVED from now on, the
      bound budget holds the amount, the request has the new reservation, the payment reads
      PROCESSING, and two events say so. */
  lemma ApprovalInFull(w: World, a: nat, now: int)
    requires Inv(w) && ApproveSpec(w.db, a, now).Done?
    ensures var db := w.db;
            && a < |db.approvals| && db.approvals[a].status == ApprovalPending && now < db.approvals[a].expires
            && var p := db.approvals[a].request;
            && p < |db.requests| && p < |db.payments| && db.requests[p].budget.Some?
            && var b := db.requests[p].budget.value;
            && var r := |db.reservations|;
            && b < |db.budgets|
            && ApproveSpec(db, a, now)
               == Done(db.(approvals := db.approvals[a := db.approvals[a].(status := ApprovalStatus.Approved,
                                                                           decided := Some(now))],
                           reservations := db.reservations + [Reservation(b, p, db.payments[p].amount, Reserved)],
                           budgets := db.budgets[b := db.budgets[b].(reserved := db.budgets[b].reserved + db.payments[p].amount)],
                           requests := db.requests[p := db.requests[p].(reservation := Some(r))],
                           payments := db.payments[p := db.payments[p].(status := Processing)],
                           outbox := db.outbox + [OutboxRow(p, PaymentStarted(r)), OutboxRow(p, PaymentApproved(a))]), p)
  {
    hide Sum, Find, AllGood, AllFaithful, TxRows, JournalRows, OpRows, HoldRows, PrepareSpec;
    var p := w.db.approvals[a].request;
    PayerIsSelf(w.db, p);
    var rq := w.db.requests[p];
    StartInFull(SetApproval(w.db, a, ApprovalStatus.Approved, now), p, rq.budget.value, rq.amount, rq.currency);
  }

  /** The request of an approval that is not PENDING has a reservation exactly when it was
      approved; the request of a pending one has none. */
  ghost predicate Matched(db: Db) {
    forall a: nat :: a < |db.approvals| ==>
      && db.approvals[a].request < |db.requests|
      && (db.approvals[a].status == ApprovalStatus.Approved <==> db.requests[db.approvals[a].request].reservation.Some?)
      && db.approvals[a].status != Expired
  }

  /** What a step does to the approvals: at most one row is added, PENDING, or one PENDING row
      is decided. */
  ghost predicate Decides(before: seq<Approval>, after: seq<Approval>) {
    && |before| <= |after|
    && (forall a: nat :: a < |before| && before[a].status != ApprovalPending ==> after[a] == before[a])
    && (forall a: nat :: |before| <= a < |after| ==> after[a].status == ApprovalPending)
  }

  lemma PendingHasNoHold(w: World, a: nat)
    requires Inv(w) && a < |w.db.approvals| && w.db.approvals[a].status == ApprovalPending
    ensures var p := w.db.approvals[a].request; p < |w.db.requests| && w.db.requests[p].reservation.None?
  {
    hide Sum, TxRows, JournalRows, OpRows, HoldRows, FilingOf, CallsOf, AllFaithful;
    var p := w.db.approvals[a].request;
    assert Good(ViewOf(w.db, p));
    HoldMeansReservation(w.db, p);
  }

  lemma CreateDecides(catalog: seq<PolicyVersion>, w: World, s: Step)
    requires Inv(w) && Matched(w.db) && s.Create?
    ensures Matched(Apply(catalog, w, s).db) && Decides(w.db.approvals, Apply(catalog, w, s).db.approvals)
  {
    hide Sum, Find, ViewOf, TxRows, JournalRows, OpRows, HoldRows, CreateSpec, AllGood, AllFaithful, ControlSpec;
    var a := CreateSpec(w.db, catalog, s.body, s.key, s.stale, s.version, s.now);
    if a.Done? {
      CreateApprovals(w.db, catalog, s.body, s.key, s.stale, s.version, s.now);
      StepKeepsInv(catalog, w, s);
      CreateView(w.db, catalog, s.body, s.key, s.stale, s.version, s.now, 0);
      forall k: nat | k < |a.db.approvals|
        ensures a.db.approvals[k].request < |a.db.requests|
        ensures a.db.approvals[k].status == ApprovalStatus.Approved
                <==> a.db.requests[a.db.approvals[k].request].reservation.Some?
      {
        var p := a.db.approvals[k].request;
        if k < |w.db.approvals| {
          CreateView(w.db, catalog, s.body, s.key, s.stale, s.version, s.now, p);
          HoldUnchanged(w, Apply(catalog, w, s), p);
        } else {
          PendingHasNoHold(Apply(catalog, w, s), k);
        }
      }
    }
  }

  lemma HoldUnchanged(v: World, w: World, p: nat)
    requires Inv(v) && Inv(w) && p < |v.db.payments| && p < |w.db.payments|
    requires ViewOf(w.db, p) == ViewOf(v.db, p)
    ensures p < |v.db.requests| && p < |w.db.requests|
    ensures w.db.requests[p].reservation.Some? <==> v.db.requests[p].reservation.Some?
  {
    hide Sum, TxRows, JournalRows, OpRows, HoldRows, AllGood, AllFaithful, ApprovalRows;
    ViewStatus(v.db, p);
    ViewStatus(w.db, p);
    HoldMeansReservation(v.db, p);
    HoldMeansReservation(w.db, p);
  }

  /** A create call adds at most one approval: pending, fifteen minutes to go, binding what
      the request says. */
  lemma CreateApprovals(db: Db, catalog: seq<PolicyVersion>, body: Body, key: string, stale: bool, version: Option<nat>,
                        now: int)
    requires Sound(db) && CreateSpec(db, catalog, body, key, stale, version, now).Done?
    ensures var after := CreateSpec(db, catalog, body, key, stale, version, now).db;
            || after.approvals == db.approvals
            || (&& |db.payments| < |after.requests|
                && var p := |db.payments|;
                   var rq := after.requests[p];
                   after.approvals
                   == db.approvals
                      + [Approval(p, ApprovalPending, now + 900_000_000,
                                  Binding(p, rq.account, rq.agent, rq.amount, rq.currency, rq.merchant, rq.policyVersion,
                                          rq.evidence), None)])
  {
    hide Sum, Find, ControlSpec, TxRows, JournalRows, OpRows, HoldRows;
    if Find(db.requests, OwnedBy(body.account, key)) < 0 {
      var inserted := InsertPayment(RecordEvidence(db, body, CheckEvidence(body, now).value), body, key, |db.evidence|);
      ControlApprovals(inserted, catalog, |db.payments|, body, version, now);
    }
  }

  lemma StepDecides(catalog: seq<PolicyVersion>, w: World, s: Step)
    requires Inv(w) && Matched(w.db)
    ensures Matched(Apply(catalog, w, s).db) && Decides(w.db.approvals, Apply(catalog, w, s).db.approvals)
  {
    hide Sum, Find, Sound, AllGood, AllFaithful, CreateSpec, ApproveSpec, DenySpec;
    match s
    case Create(_, _, _, _, _) => CreateDecides(catalog, w, s);
    case Approve(a, now) =>
      if ApproveSpec(w.db, a, now).Done? {
        ApprovalInFull(w, a, now);
        OnlyApproval(w, a);
      }
    case Deny(a, now) =>
      DenialInFull(w, a, now);
      if a < |w.db.approvals| && w.db.approvals[a].status == ApprovalPending {
        PendingHasNoHold(w, a);
        OnlyApproval(w, a);
      }
    case _ =>
      ApprovalsFixed(catalog, w, s);
      RequestsFixed(catalog, w, s);
  }

  lemma OnlyApproval(w: World, a: nat)
    requires Inv(w) && a < |w.db.approvals|
    ensures forall k: nat :: k < |w.db.approvals| && w.db.approvals[k].request == w.db.approvals[a].request ==> k == a
  {
    hide Sum, Sound, AllGood, AllFaithful;
    forall k: nat | k < |w.db.approvals| && w.db.approvals[k].request == w.db.approvals[a].request
      ensures k == a
    {
      if k != a {
        SumAtLeastTwo(w.db.approvals, ApprovalsFor(w.db.approvals[a].request), if k < a then k else a, if k < a then a else k);
      }
    }
  }

  lemma RequestsFixed(catalog: seq<PolicyVersion>, w: World, s: Step)
    requires Inv(w) && (Executes(s) || s.BirthAuthorized?)
    ensures w.db.requests <= Apply(catalog, w, s).db.requests
  {
    hide Sum, Find, AllGood, AllFaithful, ApprovalRows, TxRows, JournalRows, OpRows, HoldRows;
    if Executes(s) {
      hide Apply;
      ExecutionFrame(catalog, w, s);
    }
  }

  lemma {:induction false} RunDecides(catalog: seq<PolicyVersion>, start: World, steps: seq<Step>)
    requires Init(start)
    ensures Matched(Execute(catalog, start, steps).db)
  {
    hide Apply, Inv, Matched;
    if steps != [] {
      RunDecides(catalog, start, steps[..|steps| - 1]);
      Reached(catalog, start, steps[..|steps| - 1]);
      StepDecides(catalog, Execute(catalog, start, steps[..|steps| - 1]), steps[|steps| - 1]);
    } else {
      InitMatched(start);
    }
  }

  lemma InitMatched(w: World)
    requires Init(w)
    ensures Matched(w.db)
  {
  }

  lemma {:induction false} DecidedFrom(catalog: seq<PolicyVersion>, w: World, steps: seq<Step>, a: nat)
    requires Inv(w) && Matched(w.db)
    requires a < |w.db.approvals| && w.db.approvals[a].status != ApprovalPending
    ensures var after := Execute(catalog, w, steps);
            && Inv(after) && Matched(after.db) && a < |after.db.approvals| && after.db.approvals[a] == w.db.approvals[a]
  {
    hide Apply, Inv, Matched;
    if steps != [] {
      var before := Execute(catalog, w, steps[..|steps| - 1]);
      DecidedFrom(catalog, w, steps[..|steps| - 1], a);
      StepKeepsInv(catalog, before, steps[|steps| - 1]);
      StepDecides(catalog, before, steps[|steps| - 1]);
    }
  }

  /** In every reachable state an approval reads APPROVED exactly when its request has a
      reservation, and once it is decided nothing changes it: over every further run an
      approved row stays APPROVED, a denied one stays DENIED, and a request that was denied
      never gets a reservation. */
  lemma DecisionsAreFinal(catalog: seq<PolicyVersion>, start: World, steps: seq<Step>, more: seq<Step>, a: nat)
    requires Init(start)
    ensures var w := Execute(catalog, start, steps);
            var later := Execute(catalog, w, more).db;
            a < |w.db.approvals| ==>
              var row := w.db.approvals[a];
              && row.request < |w.db.requests|
              && (row.status == ApprovalStatus.Approved <==> w.db.requests[row.request].reservation.Some?)
              && (row.status != ApprovalPending ==>
                    && a < |later.approvals| && later.approvals[a] == row && row.request < |later.requests|
                    && (row.status == ApprovalStatus.Approved || row.status == ApprovalStatus.Denied)
                    && (row.status == ApprovalStatus.Denied ==> later.requests[row.request].reservation.None?))
  {
    hide Apply, Inv;
    var w := Execute(catalog, start, steps);
    Reached(catalog, start, steps);
    RunDecides(catalog, start, steps);
    if a < |w.db.approvals| {
      var row := w.db.approvals[a];
      assert row.status.ApprovalPending? || row.status.Approved? || row.status.Denied? || row.status.Expired?;
      if row.status != ApprovalPending {
        DecidedFrom(catalog, w, more, a);
      }
    }
  }
}
