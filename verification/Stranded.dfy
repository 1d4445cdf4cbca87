/** Payments that read FAILED although they were captured, so that their money can no longer
    be refunded: when that happens, exactly, and a run in which it does. */
module Stranded {
  import opened Domain
  import opened Sums
  import opened Ledger
  import opened Resolvers
  import opened Lifecycles
  import opened Controls
  import opened Machine
  import opened Rows
  import opened Consistency
  import opened Views
  import opened Moves
  import opened Steps
  import opened Safety
  import opened Guards
  import Overcapture

  predicate IsStranded(db: Db, p: nat) {
    p < |db.payments| && db.payments[p].status == Failed && Find(db.journals, JournalHasKey(JCapture(p))) >= 0
  }

  /** A failure of the charge or of any operation reaches a payment with a capture journal:
      a worker still holds one while the payment is open, or a failure event applies. */
  predicate Strands(w: World, s: Step, p: nat) {
    && p < |w.db.payments| && Find(w.db.journals, JournalHasKey(JCapture(p))) >= 0
    && match s
       case Finish(k, _, _) =>
         && k < |w.workers| && w.workers[k].execution.payment == p
         && w.workers[k].outcome == Some(Failure) && !w.workers[k].finished
         && Open(w.db.payments[p].status)
       case Resolve(event, op, outcome, _, _) =>
         EventApplies(w.db, event, op) && outcome == Failure && w.db.operations[op].payment == p
       case _ => false
  }

  /** A worker starts on the payment, whatever its status. */
  predicate Restarts(db: Db, s: Step, p: nat) {
    && s == Begin(p) && p < |db.payments| && db.payments[p].request < |db.requests|
    && db.requests[db.payments[p].request].reservation.Some?
  }

  /** Some step of the run stranded the payment and no worker has started on it since. */
  predicate RunStrands(catalog: seq<PolicyVersion>, w: World, steps: seq<Step>, p: nat) {
    steps != []
    && var before := Execute(catalog, w, steps[..|steps| - 1]);
       var s := steps[|steps| - 1];
       (RunStrands(catalog, w, steps[..|steps| - 1], p) && !Restarts(before.db, s, p)) || Strands(before, s, p)
  }

  predicate Lost(v: View) {
    v.status == Failed && v.journals > 0
  }

  lemma LostMoves(v: View, m: Move)
    requires Good(v) && Allowed(v, m)
    ensures Lost(Moved(v, m)) <==>
              || (Lost(v) && !m.Start?)
              || (v.journals > 0 && (m == Settle(Failure) || (m.Hear? && m.outcome == Failure)))
  {
  }

  lemma StrandedIsLost(db: Db, p: nat)
    requires p < |db.payments|
    ensures IsStranded(db, p) <==> Lost(ViewOf(db, p))
    ensures Find(db.journals, JournalHasKey(JCapture(p))) >= 0 <==> ViewOf(db, p).journals > 0
  {
    hide Sum, Find, FilingOf, CallsOf, HoldOf;
    JournalLookup(db, JCapture(p));
  }

  /** The guards above, as moves. */
  lemma FailsExactlyWhen(w: World, s: Step, p: nat)
    requires Inv(w) && p < |w.db.payments|
    ensures var m := MoveFor(w, s, p);
            Strands(w, s, p) <==>
              && Find(w.db.journals, JournalHasKey(JCapture(p))) >= 0
              && (m == Settle(Failure) || (m.Hear? && m.outcome == Failure))
  {
    hide Sum, Find, Sound, AllGood, AllFaithful, ApprovalRows, ResolveSpec, FilingOf, CallsOf, HoldOf;
    if s.Resolve? {
      ResolvedExactlyWhen(w.db, s.event, s.operation, s.outcome, s.customer, s.clearing);
    }
  }

  lemma StartsExactlyWhen(w: World, s: Step, p: nat)
    requires Sound(w.db) && p < |w.db.payments|
    ensures MoveFor(w, s, p).Start? <==> Restarts(w.db, s, p)
  {
    hide Sum, Find, TxRows, JournalRows, HoldRows, OpRows, FilingOf, CallsOf, HoldOf;
    RegisterSound(w.db, p, ChargeKey(p));
  }

  /** One step leaves a payment stranded exactly when it strands it, or finds it stranded and
      is not a worker starting on it. */
  lemma StepStrands(catalog: seq<PolicyVersion>, w: World, s: Step, p: nat)
    requires Inv(w) && p < |w.db.payments|
    ensures IsStranded(Apply(catalog, w, s).db, p) <==>
              (IsStranded(w.db, p) && !Restarts(w.db, s, p)) || Strands(w, s, p)
  {
    hide Sum, Find, Apply, ViewOf, Good, Moved, Allowed, IsStranded, Sound, AllFaithful, ApprovalRows, MoveFor, Lost,
      Strands, Restarts;
    StepMoves(catalog, w, s, p);
    assert Good(ViewOf(w.db, p));
    LostMoves(ViewOf(w.db, p), MoveFor(w, s, p));
    StrandedIsLost(w.db, p);
    StrandedIsLost(Apply(catalog, w, s).db, p);
    FailsExactlyWhen(w, s, p);
    StartsExactlyWhen(w, s, p);
  }

  /** After any run, a payment reads FAILED with a capture journal if and only if some step
      stranded it and no worker has started on it since; POSTED captures of at least its
      amount are then there. */
  lemma {:induction false} StrandedExactlyWhen(catalog: seq<PolicyVersion>, start: World, steps: seq<Step>, p: nat)
    requires Init(start)
    ensures var db := Execute(catalog, start, steps).db;
            p < |db.payments| ==>
              && (IsStranded(db, p) <==> RunStrands(catalog, start, steps, p))
              && (IsStranded(db, p) ==> Posted(db, p, CaptureType) >= db.payments[p].amount > 0)
  {
    hide Sum, Find, Apply, IsStranded, Strands, Restarts, Sound, AllFaithful, ApprovalRows, Good;
    Reached(catalog, start, steps);
    if steps != [] {
      var w := Execute(catalog, start, steps[..|steps| - 1]);
      var s := steps[|steps| - 1];
      StrandedExactlyWhen(catalog, start, steps[..|steps| - 1], p);
      Reached(catalog, start, steps[..|steps| - 1]);
      if p < |w.db.payments| {
        StepStrands(catalog, w, s, p);
      } else {
        NotYetStranded(catalog, start, steps, p);
        if p < |Apply(catalog, w, s).db.payments| {
          NewIsNotStranded(catalog, w, s, p);
        }
      }
    }
    var db := Execute(catalog, start, steps).db;
    if p < |db.payments| {
      StrandedIsCaptured(db, p);
    }
  }

  lemma StrandedIsCaptured(db: Db, p: nat)
    requires AllGood(db) && p < |db.payments|
    ensures IsStranded(db, p) ==> Posted(db, p, CaptureType) >= db.payments[p].amount > 0
  {
    hide Sum, Find;
    StrandedIsLost(db, p);
    assert Good(ViewOf(db, p));
  }

  lemma NewIsNotStranded(catalog: seq<PolicyVersion>, w: World, s: Step, p: nat)
    requires Inv(w) && |w.db.payments| <= p < |Apply(catalog, w, s).db.payments|
    ensures !IsStranded(Apply(catalog, w, s).db, p)
  {
    hide Sum, Find, Apply, Sound, AllGood, AllFaithful, ApprovalRows, IsStranded;
    StepCreates(catalog, w, s, p);
    StrandedIsLost(Apply(catalog, w, s).db, p);
  }

  lemma {:induction false} NotYetStranded(catalog: seq<PolicyVersion>, start: World, steps: seq<Step>, p: nat)
    requires Init(start) && steps != []
    requires p >= |Execute(catalog, start, steps[..|steps| - 1]).db.payments|
    ensures !RunStrands(catalog, start, steps, p)
  {
    hide Sum, Find, Apply, Sound, AllGood, AllFaithful, ApprovalRows;
    var before := steps[..|steps| - 1];
    if before != [] {
      var w := Execute(catalog, start, before[..|before| - 1]);
      Reached(catalog, start, before[..|before| - 1]);
      StepKeepsPayments(catalog, w, before[|before| - 1]);
      NotYetStranded(catalog, start, before, p);
    }
  }

  // --- a run that does it ---

  const FAILURE := Resolve(0, 1, Failure, 0, 1)

  lemma FailureStrands()
    ensures Strands(World(Overcapture.NOTIFIED, Overcapture.FINISHED), FAILURE, 0)
  {
    hide Sum, Find;
    assert JournalHasKey(JCapture(0))(Overcapture.NOTIFIED.journals[0]);
  }

  /** A captured payment whose refund was answered UNKNOWN and then failed by an event reads
      FAILED, with its capture journal, and can no longer be refunded. */
  lemma FailedRefundStrands(requested: Amount, customer: nat, clearing: nat, answer: Outcome)
    ensures Init(World(Overcapture.EMPTY, []))
    ensures var db := Execute(Overcapture.CATALOG, World(Overcapture.EMPTY, []), Overcapture.STEPS[..6] + [FAILURE]).db;
            && IsStranded(db, 0)
            && RefundSpec(db, 0, requested, "USD", customer, clearing, answer) == Raised(NotExecutable)
  {
    hide Apply, Sum, Posted, ApplyRefund, Find, Strands;
    var start := World(Overcapture.EMPTY, []);
    var run := Overcapture.STEPS[..6] + [FAILURE];
    var w := World(Overcapture.NOTIFIED, Overcapture.FINISHED);
    Overcapture.RunNotifies();
    assert run[..|run| - 1] == Overcapture.STEPS[..6] && run[|run| - 1] == FAILURE;
    Reached(Overcapture.CATALOG, start, Overcapture.STEPS[..6]);
    FailureStrands();
    StepStrands(Overcapture.CATALOG, w, FAILURE, 0);
  }
}
