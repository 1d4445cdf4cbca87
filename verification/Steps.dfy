/** Every step of the system, seen from any payment, is a move; and what holds of
    the rows, the views, the workers and the approvals holds after every run. */
module Steps {
  import opened Domain
  import opened Sums
  import opened Orchestrators
  import opened Workers
  import opened Resolvers
  import opened Lifecycles
  import opened Controls
  import opened Apis
  import opened Machine
  import opened Rows
  import opened Consistency
  import opened Views
  import opened Effects
  import opened Admission
  import opened Moves

  /** A worker remembers its payment's own terms and reservation. */
  predicate Faithful(requests: seq<Request>, e: Execution) {
    && e.payment < |requests|
    && e == Execution(e.payment, e.payment, requests[e.payment].amount, requests[e.payment].currency, e.reservation)
    && requests[e.payment].reservation == Some(e.reservation)
  }

  ghost predicate AllGood(db: Db) {
    forall p: nat :: p < |db.payments| ==> Good(ViewOf(db, p))
  }

  ghost predicate AllFaithful(requests: seq<Request>, workers: seq<WorkerState>) {
    forall k: nat :: k < |workers| ==> Faithful(requests, workers[k].execution)
  }

  function ApprovalsFor(p: nat): Approval -> int {
    (a: Approval) => if a.request == p then 1 else 0
  }

  /** A payment has at most one approval; the approval is pending exactly while the
      payment awaits it, and binds the payment as it is. */
  ghost predicate ApprovalRows(db: Db) {
    && |db.payments| == |db.requests|
    && (forall a: nat :: a < |db.approvals| ==>
          && db.approvals[a].request < |db.payments|
          && (db.approvals[a].status == ApprovalPending <==>
              db.payments[db.approvals[a].request].status == ApprovalRequired)
          && db.approvals[a].digest == BindingOf(db, db.approvals[a].request))
    && (forall p: nat :: p < |db.payments| ==> Sum(db.approvals, ApprovalsFor(p)) <= 1)
    && (forall p: nat :: p < |db.payments| && db.payments[p].status == ApprovalRequired ==>
          Sum(db.approvals, ApprovalsFor(p)) == 1)
  }

  ghost predicate Inv(w: World) {
    && Sound(w.db) && AllGood(w.db) && AllFaithful(w.db.requests, w.workers) && ApprovalRows(w.db)
  }

  /** Executing a payment leaves its request, its evidence and its approvals alone. */
  predicate SameControl(a: Db, b: Db) {
    a.requests == b.requests && a.approvals == b.approvals && a.evidence == b.evidence && |a.payments| == |b.payments|
  }

  // --- one step, seen from one payment ---

  ghost function MoveFor(w: World, s: Step, q: nat): Move
    requires q < |w.db.payments|
  {
    var db := w.db;
    var v := ViewOf(db, q);
    match s
    case Create(_, _, _, _, _) => Stay
    case BirthAuthorized(_, _, _, _, _) => Stay
    case Charge(_, _) => Stay
    case ReceiveEvent(_) => Stay
    case Approve(a, now) =>
      if ApproveSpec(db, a, now).Done? && ApproveSpec(db, a, now).value == q then Admit else Stay
    case Deny(a, now) =>
      if DenySpec(db, a, now).Done? && DenySpec(db, a, now).value == q then Turn else Stay
    case Begin(p) => if BeginSpec(db, p).Done? && p == q then Start else Stay
    case Finish(k, _, _) =>
      if k < |w.workers| && w.workers[k].outcome.Some? && !w.workers[k].finished && w.workers[k].execution.payment == q
         && Open(v.status) && !(v.status == UnknownOutcome && w.workers[k].outcome.value == Unknown)
      then Settle(w.workers[k].outcome.value) else Stay
    case Resolve(event, op, outcome, customer, clearing) =>
      if ResolveSpec(db, event, op, outcome, customer, clearing).Done?
         && ResolveSpec(db, event, op, outcome, customer, clearing).value == Resolved
         && db.operations[op].payment == q
      then Hear(db.operations[op].kind, db.operations[op].status, outcome) else Stay
    case Capture(p, amount, currency, customer, clearing, answer) =>
      if p == q && v.status == Authorized && CaptureSpec(db, p, amount, currency, customer, clearing, answer).Done?
      then CardCapture(answer) else Stay
    case Void(p, amount, currency, answer) =>
      if p == q && v.status == Authorized && VoidSpec(db, p, amount, currency, answer).Done?
      then CardVoid(answer) else Stay
    case Refund(p, requested, currency, customer, clearing, answer) =>
      if p == q && Commit(db, RefundSpec(db, p, requested, currency, customer, clearing, answer)) != db
      then PayBack(Value(requested), Sum(db.operations, OpKeyCount(RefundKey(p, requested, currency))) == 0, answer)
      else Stay
  }

  ghost predicate StepsBy(before: Db, after: Db, q: nat, m: Move)
    requires q < |before.payments|
  {
    && q < |after.payments| && Allowed(ViewOf(before, q), m)
    && ViewOf(after, q) == Moved(ViewOf(before, q), m)
  }

  lemma HoldMeansReservation(db: Db, p: nat)
    requires Sound(db) && p < |db.requests|
    ensures HoldOf(db.requests, db.reservations, p).Some? <==> db.requests[p].reservation.Some?
  {
    hide TxRows, JournalRows, OpRows;
  }

  /** An operation row counts for its payment. */
  lemma OperationCounts(ops: seq<Operation>, n: nat, op: nat)
    requires OpRows(n, ops) && op < |ops|
    ensures var o := ops[op];
            var c := CallsOf(ops, o.payment);
            && o.payment < n
            && (o.kind == ChargeOp ==> c.charges > 0 && o.key == ChargeKey(o.payment))
            && (o.kind == CaptureOp || o.kind == VoidOp ==> c.cardOps > 0)
            && (o.kind == RefundOp ==> c.refunds > 0)
            && (o.kind == ChargeOp ==> c.won >= One(o.status == OpSucceeded) && c.lost >= One(o.status == OpFailed))
  {
    var o := ops[op];
    assert OpRow(n, o);
    SumNonNegative(ops, OpKeyCount(CaptureKey(o.payment)));
    SumNonNegative(ops, OpKeyCount(VoidKey(o.payment)));
    SumAtLeast(ops, OpKeyCount(o.key), op);
    SumAtLeast(ops, RefundOpsOf(o.payment), op);
    SumAtLeast(ops, ChargeIn(o.payment, OpSucceeded), op);
    SumAtLeast(ops, ChargeIn(o.payment, OpFailed), op);
  }

  lemma BeginMoves(w: World, p: nat, q: nat)
    requires Sound(w.db) && q < |w.db.payments|
    ensures StepsBy(w.db, Commit(w.db, BeginSpec(w.db, p)), q, MoveFor(w, Begin(p), q))
  {
    hide Sum, Find, TxRows, JournalRows, OpRows, HoldRows;
    if BeginSpec(w.db, p).Done? {
      BeginView(w.db, p, q);
      HoldMeansReservation(w.db, p);
    }
  }

  lemma SettlesAs(db: Db, e: Execution, customer: nat, clearing: nat, outcome: Outcome, q: nat)
    requires Sound(db) && Faithful(db.requests, e) && q < |db.payments|
    ensures var status := db.payments[e.payment].status;
            var acts := q == e.payment && Open(status) && !(status == UnknownOutcome && outcome == Unknown);
            StepsBy(db, Commit(db, FinishSpec(db, e, customer, clearing, outcome)), q, if acts then Settle(outcome) else Stay)
  {
    hide Sum, Find, TxRows, JournalRows, OpRows, HoldRows, SettleUnknown, SettleFailure, SettleSuccess, ViewOf;
    HoldMeansReservation(db, e.payment);
    ViewStatus(db, q);
    SettleUnknownView(db, e.payment, q);
    SettleFailureView(db, e.payment, q);
    SettleSuccessView(db, e.payment, customer, clearing, q);
    SettleSizes(db, e, customer, clearing);
  }

  lemma ViewStatus(db: Db, q: nat)
    requires q < |db.payments|
    ensures ViewOf(db, q).status == db.payments[q].status
    ensures ViewOf(db, q).hold == HoldOf(db.requests, db.reservations, q)
  {
  }

  lemma SettleSizes(db: Db, e: Execution, customer: nat, clearing: nat)
    requires e.payment < |db.payments|
    ensures SameControl(SettleUnknown(db, e.payment), db)
    ensures SameControl(Commit(db, SettleFailure(db, e.payment, e.reservation)), db)
    ensures SameControl(Commit(db, SettleSuccess(db, e.payment, e.reservation, e.amount, e.currency, customer, clearing)), db)
  {
    hide Sum, Find;
  }

  /** An event is applied to an undecided payment or leaves all but the events alone. */
  lemma ResolveShape(db: Db, event: nat, op: nat, outcome: Outcome, customer: nat, clearing: nat)
    ensures var a := ResolveSpec(db, event, op, outcome, customer, clearing);
            a.Done? ==>
              if a.value == Resolved then
                && op < |db.operations| && db.operations[op].payment < |db.payments|
                && db.payments[db.operations[op].payment].request < |db.requests|
                && Undecided(db.payments[db.operations[op].payment].status) && outcome != Unknown
                && var applied := if outcome == Success then EventSuccess(db, op, customer, clearing) else EventFailure(db, op);
                   applied.Done? && a.db == applied.db.(events := a.db.events)
              else a.db == db.(events := a.db.events)
  {
    hide Sum, Find, EventSuccess, EventFailure;
  }

  lemma ResolveMoves(w: World, event: nat, op: nat, outcome: Outcome, customer: nat, clearing: nat, q: nat)
    requires Sound(w.db) && AllGood(w.db) && q < |w.db.payments|
    ensures StepsBy(w.db, Commit(w.db, ResolveSpec(w.db, event, op, outcome, customer, clearing)), q,
                    MoveFor(w, Resolve(event, op, outcome, customer, clearing), q))
  {
    hide Sum, Find, TxRows, JournalRows, HoldRows, ResolveSpec, EventSuccess, EventFailure, CallsOf, FilingOf;
    var a := ResolveSpec(w.db, event, op, outcome, customer, clearing);
    ResolveShape(w.db, event, op, outcome, customer, clearing);
    if a.Done? && a.value == Resolved {
      OperationCounts(w.db.operations, |w.db.payments|, op);
      var p := w.db.operations[op].payment;
      assert Good(ViewOf(w.db, p));
      if outcome == Success {
        EventSuccessView(w.db, op, p, customer, clearing, q);
      } else {
        EventFailureView(w.db, op, q);
      }
      EventSizes(w.db, op, customer, clearing);
    }
  }

  lemma EventSizes(db: Db, op: nat, customer: nat, clearing: nat)
    requires op < |db.operations| && db.operations[op].payment < |db.payments|
    requires db.payments[db.operations[op].payment].request < |db.requests|
    ensures var after := Commit(db, EventSuccess(db, op, customer, clearing));
            SameControl(after, db) && |after.events| == |db.events|
    ensures var after := Commit(db, EventFailure(db, op));
            SameControl(after, db) && |after.events| == |db.events|
  {
    hide Sum, Find;
  }

  /** Only an AUTHORIZED payment is captured; otherwise the answer is a replay. */
  lemma CaptureReplays(db: Db, p: nat, amount: Money, currency: Currency, customer: nat, clearing: nat, answer: Outcome)
    ensures var a := CaptureSpec(db, p, amount, currency, customer, clearing, answer);
            a.Done? ==> p < |db.payments| && (db.payments[p].status != Authorized ==> a.db == db)
  {
    hide Sum, Find;
  }

  lemma CaptureMoves(w: World, p: nat, amount: Money, currency: Currency, customer: nat, clearing: nat, answer: Outcome,
                     q: nat)
    requires Sound(w.db) && AllGood(w.db) && q < |w.db.payments|
    ensures StepsBy(w.db, Commit(w.db, CaptureSpec(w.db, p, amount, currency, customer, clearing, answer)), q,
                    MoveFor(w, Capture(p, amount, currency, customer, clearing, answer), q))
  {
    hide Sum, Find, TxRows, JournalRows, HoldRows, OpRows, CallsOf, FilingOf, CaptureSpec;
    var a := CaptureSpec(w.db, p, amount, currency, customer, clearing, answer);
    CaptureReplays(w.db, p, amount, currency, customer, clearing, answer);
    if a.Done? && w.db.payments[p].status == Authorized {
      assert Good(ViewOf(w.db, p));
      CaptureView(w.db, p, amount, currency, customer, clearing, answer, q);
      CaptureSizes(w.db, p, amount, currency, customer, clearing, answer);
    }
  }

  lemma CaptureSizes(db: Db, p: nat, amount: Money, currency: Currency, customer: nat, clearing: nat, answer: Outcome)
    ensures SameControl(Commit(db, CaptureSpec(db, p, amount, currency, customer, clearing, answer)), db)
  {
    hide Sum, Find;
  }

  lemma VoidSizes(db: Db, p: nat, amount: Money, currency: Currency, answer: Outcome)
    ensures SameControl(Commit(db, VoidSpec(db, p, amount, currency, answer)), db)
  {
    hide Sum, Find;
  }

  /** Only an AUTHORIZED payment is voided; otherwise the answer is a replay. */
  lemma VoidReplays(db: Db, p: nat, amount: Money, currency: Currency, answer: Outcome)
    ensures var a := VoidSpec(db, p, amount, currency, answer);
            a.Done? ==> p < |db.payments| && (db.payments[p].status != Authorized ==> a.db == db)
  {
    hide Sum, Find;
  }

  lemma VoidMoves(w: World, p: nat, amount: Money, currency: Currency, answer: Outcome, q: nat)
    requires Sound(w.db) && AllGood(w.db) && q < |w.db.payments|
    ensures StepsBy(w.db, Commit(w.db, VoidSpec(w.db, p, amount, currency, answer)), q,
                    MoveFor(w, Void(p, amount, currency, answer), q))
  {
    hide Sum, Find, TxRows, JournalRows, HoldRows, OpRows, CallsOf, FilingOf, VoidSpec;
    var a := VoidSpec(w.db, p, amount, currency, answer);
    VoidReplays(w.db, p, amount, currency, answer);
    if a.Done? && w.db.payments[p].status == Authorized {
      assert Good(ViewOf(w.db, p));
      VoidView(w.db, p, amount, currency, answer, q);
      VoidSizes(w.db, p, amount, currency, answer);
    }
  }

  lemma RefundSizes(db: Db, p: nat, requested: Amount, currency: Currency, customer: nat, clearing: nat, answer: Outcome)
    ensures SameControl(Commit(db, RefundSpec(db, p, requested, currency, customer, clearing, answer)), db)
  {
    hide Sum, Find;
  }

  lemma RefundMoves(w: World, p: nat, requested: Amount, currency: Currency, customer: nat, clearing: nat, answer: Outcome,
                    q: nat)
    requires Sound(w.db) && AllGood(w.db) && q < |w.db.payments|
    ensures StepsBy(w.db, Commit(w.db, RefundSpec(w.db, p, requested, currency, customer, clearing, answer)), q,
                    MoveFor(w, Refund(p, requested, currency, customer, clearing, answer), q))
  {
    hide Sum, Find, TxRows, JournalRows, HoldRows, OpRows, CallsOf, RefundSpec;
    RefundSizes(w.db, p, requested, currency, customer, clearing, answer);
    if RefundSpec(w.db, p, requested, currency, customer, clearing, answer).Done? {
      RefundInRange(w.db, p, requested, currency, customer, clearing, answer);
      RefundView(w.db, p, requested, currency, customer, clearing, answer, q);
    }
  }

  lemma RefundInRange(db: Db, p: nat, requested: Amount, currency: Currency, customer: nat, clearing: nat, answer: Outcome)
    ensures RefundSpec(db, p, requested, currency, customer, clearing, answer).Done? ==> p < |db.payments|
  {
  }

  /** Approving needs the payment to be awaiting it, which a reserved payment is not. */
  lemma AwaitingHasNoHold(db: Db, a: nat, now: int)
    requires Sound(db) && AllGood(db) && ApproveSpec(db, a, now).Done?
    ensures var p := db.approvals[a].request; p < |db.requests| && db.requests[p].reservation.None?
  {
    hide Sum, Find, TxRows, JournalRows, OpRows, CallsOf, FilingOf, PrepareSpec;
    var p := db.approvals[a].request;
    PayerIsSelf(db, p);
    assert Good(ViewOf(db, p));
    HoldMeansReservation(db, p);
  }

  lemma ApproveMoves(w: World, a: nat, now: int, q: nat)
    requires Sound(w.db) && AllGood(w.db) && q < |w.db.payments|
    ensures StepsBy(w.db, Commit(w.db, ApproveSpec(w.db, a, now)), q, MoveFor(w, Approve(a, now), q))
    ensures Extends(w.db.requests, Commit(w.db, ApproveSpec(w.db, a, now)).requests)
  {
    hide Sum, Find, TxRows, JournalRows, OpRows, HoldRows, CallsOf, FilingOf, ApproveSpec;
    if ApproveSpec(w.db, a, now).Done? {
      AwaitingHasNoHold(w.db, a, now);
      ApproveView(w.db, a, now, q);
      assert Good(ViewOf(w.db, q));
    }
  }

  lemma DenyMoves(w: World, a: nat, now: int, q: nat)
    requires Inv(w) && q < |w.db.payments|
    ensures StepsBy(w.db, Commit(w.db, DenySpec(w.db, a, now)), q, MoveFor(w, Deny(a, now), q))
  {
    hide Sum, Find, TxRows, JournalRows, OpRows, HoldRows, CallsOf, FilingOf;
    if DenySpec(w.db, a, now).Done? {
      DenyView(w.db, a, now, q);
    }
  }

  /** Each step moves each payment as `MoveFor` says. */
  lemma StepMoves(catalog: seq<PolicyVersion>, w: World, s: Step, q: nat)
    requires Inv(w) && q < |w.db.payments|
    ensures StepsBy(w.db, Apply(catalog, w, s).db, q, MoveFor(w, s, q))
  {
    hide Sum, Find, TxRows, JournalRows, OpRows, HoldRows, PaymentRows, CallsOf, FilingOf, ApprovalRows,
      CreateSpec, BirthSpec, ApproveSpec, DenySpec, BeginSpec, FinishSpec, ResolveSpec, CaptureSpec, VoidSpec, RefundSpec;
    match s
    case Create(body, key, stale, version, now) =>
      if CreateSpec(w.db, catalog, body, key, stale, version, now).Done? {
        CreateView(w.db, catalog, body, key, stale, version, now, q);
      }
    case Approve(a, now) => ApproveMoves(w, a, now, q);
    case Deny(a, now) => DenyMoves(w, a, now, q);
    case BirthAuthorized(account, agent, key, amount, currency) =>
      if BirthSpec(w.db, account, agent, key, amount, currency).Done? {
        BirthView(w.db, account, agent, key, amount, currency, q);
      }
    case Begin(p) => BeginMoves(w, p, q);
    case Charge(_, _) =>
    case Finish(k, customer, clearing) =>
      if k < |w.workers| && w.workers[k].outcome.Some? && !w.workers[k].finished {
        ViewStatus(w.db, q);
        SettlesAs(w.db, w.workers[k].execution, customer, clearing, w.workers[k].outcome.value, q);
      }
    case ReceiveEvent(_) =>
    case Resolve(event, op, outcome, customer, clearing) => ResolveMoves(w, event, op, outcome, customer, clearing, q);
    case Capture(p, amount, currency, customer, clearing, answer) =>
      CaptureMoves(w, p, amount, currency, customer, clearing, answer, q);
    case Void(p, amount, currency, answer) => VoidMoves(w, p, amount, currency, answer, q);
    case Refund(p, requested, currency, customer, clearing, answer) =>
      RefundMoves(w, p, requested, currency, customer, clearing, answer, q);
  }

  // --- one step, over all rows ---

  predicate Executes(s: Step) {
    !s.Create? && !s.BirthAuthorized? && !s.Approve? && !s.Deny?
  }

  /** Steps that execute payments leave the control rows alone. */
  lemma ExecutionFrame(catalog: seq<PolicyVersion>, w: World, s: Step)
    requires Sound(w.db) && Executes(s)
    ensures SameControl(Apply(catalog, w, s).db, w.db)
  {
    hide Sum, Find, TxRows, JournalRows, OpRows, HoldRows, CaptureSpec, VoidSpec, RefundSpec, EventSuccess, EventFailure,
      SettleUnknown, SettleFailure, SettleSuccess;
    match s
    case Begin(p) =>
    case Charge(_, _) =>
    case Finish(k, customer, clearing) =>
      if k < |w.workers| && w.workers[k].execution.payment < |w.db.payments| {
        SettleSizes(w.db, w.workers[k].execution, customer, clearing);
      }
    case ReceiveEvent(_) =>
    case Resolve(event, op, outcome, customer, clearing) =>
      if ResolveSpec(w.db, event, op, outcome, customer, clearing).Done? && op < |w.db.operations|
         && w.db.operations[op].payment < |w.db.payments|
         && w.db.payments[w.db.operations[op].payment].request < |w.db.requests| {
        EventSizes(w.db, op, customer, clearing);
      }
    case Capture(p, amount, currency, customer, clearing, answer) =>
      CaptureSizes(w.db, p, amount, currency, customer, clearing, answer);
    case Void(p, amount, currency, answer) => VoidSizes(w.db, p, amount, currency, answer);
    case Refund(p, requested, currency, customer, clearing, answer) =>
      RefundSizes(w.db, p, requested, currency, customer, clearing, answer);
  }

  lemma StepSound(catalog: seq<PolicyVersion>, w: World, s: Step)
    requires Inv(w)
    ensures Sound(Apply(catalog, w, s).db)
  {
    hide Sum, Find, TxRows, JournalRows, OpRows, HoldRows, PaymentRows, ViewOf, ApprovalRows,
      CreateSpec, BirthSpec, ApproveSpec, DenySpec, BeginSpec, ResolveSpec, CaptureSpec, VoidSpec, RefundSpec, FinalizeSpec;
    var db := w.db;
    match s
    case Create(body, key, stale, version, now) => CreateSound(db, catalog, body, key, stale, version, now);
    case Approve(a, now) =>
      if ApproveSpec(db, a, now).Done? {
        AwaitingHasNoHold(db, a, now);
      }
      ApproveSound(db, a, now);
    case Deny(a, now) =>
      if DenySpec(db, a, now).Done? {
        DenySound(db, a, now);
      }
    case BirthAuthorized(account, agent, key, amount, currency) =>
      if BirthSpec(db, account, agent, key, amount, currency).Done? {
        BirthView(db, account, agent, key, amount, currency, 0);
      }
    case Begin(p) => BeginSound(db, p);
    case Charge(_, _) =>
    case Finish(k, customer, clearing) =>
      if k < |w.workers| && w.workers[k].outcome.Some? {
        var e := w.workers[k].execution;
        FaithfulInRange(db, e);
        FinalizeSound(db, e.payment, e.reservation, e.amount, e.currency, customer, clearing, w.workers[k].outcome.value);
      }
    case ReceiveEvent(_) =>
    case Resolve(event, op, outcome, customer, clearing) => ResolveSound(db, event, op, outcome, customer, clearing);
    case Capture(p, amount, currency, customer, clearing, answer) =>
      CaptureSound(db, p, amount, currency, customer, clearing, answer);
    case Void(p, amount, currency, answer) => VoidSound(db, p, amount, currency, answer);
    case Refund(p, requested, currency, customer, clearing, answer) =>
      RefundSound(db, p, requested, currency, customer, clearing, answer);
  }

  lemma DecisionInRange(db: Db, a: nat, now: int)
    ensures ApproveSpec(db, a, now).Done? ==> ApproveSpec(db, a, now).value < |db.payments|
    ensures DenySpec(db, a, now).Done? ==> DenySpec(db, a, now).value < |db.payments|
  {
    hide Sum, PrepareSpec;
  }

  lemma FaithfulInRange(db: Db, e: Execution)
    requires Sound(db) && Faithful(db.requests, e)
    ensures e.reservation < |db.reservations|
  {
    hide TxRows, JournalRows, OpRows;
  }

  lemma DenySound(db: Db, a: nat, now: int)
    requires Sound(db) && DenySpec(db, a, now).Done?
    ensures Sound(DenySpec(db, a, now).db)
  {
    hide Sum, Find, TxRows, JournalRows, OpRows, HoldRows;
  }

  lemma BeginSound(db: Db, p: nat)
    requires Sound(db)
    ensures Sound(Commit(db, BeginSpec(db, p)))
  {
    hide Sum, Find, TxRows, JournalRows, HoldRows;
    if BeginSpec(db, p).Done? {
      RegisterSound(db, p, ChargeKey(p));
    }
  }

  /** Old requests keep their contents, and a reservation once made. */
  lemma StepExtends(catalog: seq<PolicyVersion>, w: World, s: Step)
    requires Inv(w)
    ensures Extends(w.db.requests, Apply(catalog, w, s).db.requests)
  {
    hide Sum, Find, TxRows, JournalRows, OpRows, HoldRows, PaymentRows, ViewOf, ApprovalRows,
      CreateSpec, BirthSpec, ApproveSpec, DenySpec;
    var db := w.db;
    match s
    case Create(body, key, stale, version, now) =>
      if CreateSpec(db, catalog, body, key, stale, version, now).Done? {
        CreateView(db, catalog, body, key, stale, version, now, 0);
      }
    case Approve(a, now) =>
      if ApproveSpec(db, a, now).Done? {
        AwaitingHasNoHold(db, a, now);
        DecisionInRange(db, a, now);
        ApproveView(db, a, now, ApproveSpec(db, a, now).value);
      }
    case Deny(a, now) =>
      if DenySpec(db, a, now).Done? {
        DecisionInRange(db, a, now);
        DenyView(db, a, now, DenySpec(db, a, now).value);
      }
    case BirthAuthorized(account, agent, key, amount, currency) =>
      if BirthSpec(db, account, agent, key, amount, currency).Done? {
        BirthView(db, account, agent, key, amount, currency, 0);
      }
    case _ => ExecutionFrame(catalog, w, s);
  }

  lemma NewViewIsGood(v: View)
    requires NewView(v)
    ensures Good(v)
  {
  }

  /** Payments a step creates start out as new ones do. */
  lemma StepCreates(catalog: seq<PolicyVersion>, w: World, s: Step, q: nat)
    requires Inv(w) && |w.db.payments| <= q < |Apply(catalog, w, s).db.payments|
    ensures NewView(ViewOf(Apply(catalog, w, s).db, q)) && q == |w.db.payments|
  {
    hide Sum, Find, TxRows, JournalRows, OpRows, HoldRows, PaymentRows, ViewOf, ApprovalRows,
      CreateSpec, BirthSpec, ApproveSpec, DenySpec, NewView;
    var db := w.db;
    match s
    case Create(body, key, stale, version, now) =>
      if CreateSpec(db, catalog, body, key, stale, version, now).Done? {
        CreateView(db, catalog, body, key, stale, version, now, q);
      }
    case BirthAuthorized(account, agent, key, amount, currency) =>
      if BirthSpec(db, account, agent, key, amount, currency).Done? {
        BirthView(db, account, agent, key, amount, currency, q);
      }
    case Approve(a, now) =>
      if ApproveSpec(db, a, now).Done? {
        AwaitingHasNoHold(db, a, now);
        DecisionInRange(db, a, now);
        ApproveView(db, a, now, ApproveSpec(db, a, now).value);
      }
    case Deny(a, now) =>
      if DenySpec(db, a, now).Done? {
        DecisionInRange(db, a, now);
        DenyView(db, a, now, DenySpec(db, a, now).value);
      }
    case _ => ExecutionFrame(catalog, w, s);
  }

  /** No payment disappears. */
  lemma StepKeepsPayments(catalog: seq<PolicyVersion>, w: World, s: Step)
    requires Inv(w)
    ensures |Apply(catalog, w, s).db.payments| >= |w.db.payments|
  {
    hide Sum, Find, TxRows, JournalRows, OpRows, HoldRows, ViewOf, ApprovalRows, Apply;
    StepExtends(catalog, w, s);
    StepSound(catalog, w, s);
  }

  lemma StepGood(catalog: seq<PolicyVersion>, w: World, s: Step)
    requires Inv(w)
    ensures AllGood(Apply(catalog, w, s).db)
  {
    hide Sum, Find, Sound, ViewOf, ApprovalRows, Apply, MoveFor, Good, Moved, Allowed, NewView;
    var after := Apply(catalog, w, s).db;
    forall q: nat | q < |after.payments|
      ensures Good(ViewOf(after, q))
    {
      if q < |w.db.payments| {
        StepMoves(catalog, w, s, q);
        GoodMoves(ViewOf(w.db, q), MoveFor(w, s, q));
      } else {
        StepCreates(catalog, w, s, q);
        NewViewIsGood(ViewOf(after, q));
      }
    }
  }

  lemma StepFaithful(catalog: seq<PolicyVersion>, w: World, s: Step)
    requires Inv(w)
    ensures var after := Apply(catalog, w, s); AllFaithful(after.db.requests, after.workers)
  {
    hide Sum, Find, TxRows, JournalRows, OpRows, HoldRows, ViewOf, ApprovalRows,
      CreateSpec, BirthSpec, ApproveSpec, DenySpec, BeginSpec, FinishSpec, ResolveSpec, CaptureSpec, VoidSpec, RefundSpec;
    StepExtends(catalog, w, s);
    if s.Begin? && BeginSpec(w.db, s.payment).Done? {
      BeginIsFaithful(w.db, s.payment);
    }
  }

  lemma BeginIsFaithful(db: Db, p: nat)
    requires Sound(db) && BeginSpec(db, p).Done?
    ensures Faithful(db.requests, BeginSpec(db, p).value)
    ensures BeginSpec(db, p).db.requests == db.requests
  {
    hide Sum, Find, TxRows, JournalRows, OpRows, HoldRows;
  }
}
