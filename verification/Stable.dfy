/** A stable provider: its definite answers about one charge never contradict each other,
    and UNKNOWN may be seen at any time. Reservations and journals then always agree. */
module Stable {
  import opened Domain
  import opened Sums
  import opened Workers
  import opened Resolvers
  import opened Lifecycles
  import opened Controls
  import opened Apis
  import opened Machine
  import opened Rows
  import opened Views
  import opened Admission
  import opened Moves
  import opened Steps
  import opened Guards
  import opened Safety

  /** `win` is the provider's verdict on the charge. */
  predicate Says(win: bool, o: Outcome) {
    match o
    case Unknown => true
    case Success => win
    case Failure => !win
  }

  /** The step's answer about a charge, if it carries one that takes effect, agrees with the
      verdict. Events that are refused, ignored or duplicates may say anything. */
  predicate StableStep(verdict: nat -> bool, w: World, s: Step) {
    match s
    case Charge(k, answer) => k < |w.workers| ==> Says(verdict(w.workers[k].execution.payment), answer)
    case Resolve(event, op, outcome, _, _) =>
      EventApplies(w.db, event, op) && w.db.operations[op].kind == ChargeOp ==>
        Says(verdict(w.db.operations[op].payment), outcome)
    case _ => true
  }

  predicate StableRun(verdict: nat -> bool, catalog: seq<PolicyVersion>, w: World, steps: seq<Step>) {
    steps != [] ==>
      && StableRun(verdict, catalog, w, steps[..|steps| - 1])
      && StableStep(verdict, Execute(catalog, w, steps[..|steps| - 1]), steps[|steps| - 1])
  }

  // --- what a stable provider keeps ---

  predicate Steady(v: View, win: bool) {
    && (v.hold == Some(Consumed) ==> win)
    && (v.hold == Some(Released) ==> !win)
    && (v.calls.won > 0 ==> win)
    && (v.calls.lost > 0 ==> !win)
    && (v.hold.Some? ==> (v.journals > 0 <==> v.hold == Some(Consumed)))
  }

  ghost predicate AllSteady(verdict: nat -> bool, w: World) {
    && (forall p: nat :: p < |w.db.payments| ==> Steady(ViewOf(w.db, p), verdict(p)))
    && (forall k: nat :: k < |w.workers| && w.workers[k].outcome.Some? ==>
          Says(verdict(w.workers[k].execution.payment), w.workers[k].outcome.value))
  }

  predicate Agreed(m: Move, win: bool) {
    && (m.Settle? ==> Says(win, m.outcome))
    && (m.Hear? && m.kind == ChargeOp ==> Says(win, m.outcome))
  }

  lemma SteadyMoves(v: View, m: Move, win: bool)
    requires Good(v) && Allowed(v, m) && Steady(v, win) && Agreed(m, win)
    ensures Steady(Moved(v, m), win)
  {
    assert v.hold.Some? ==> v.hold.value.Reserved? || v.hold.value.Consumed? || v.hold.value.Released?;
  }

  lemma StableMove(verdict: nat -> bool, w: World, s: Step, p: nat)
    requires Inv(w) && AllSteady(verdict, w) && StableStep(verdict, w, s) && p < |w.db.payments|
    ensures Agreed(MoveFor(w, s, p), verdict(p))
  {
    hide Sum, CallsOf, FilingOf, HoldOf, ResolveSpec, Sound, AllGood, AllFaithful, ApprovalRows;
    if s.Resolve? {
      ResolvedExactlyWhen(w.db, s.event, s.operation, s.outcome, s.customer, s.clearing);
    }
  }

  /** A worker takes its outcome from the record or from the provider; both agree. */
  lemma ChargeAgrees(db: Db, p: nat, answer: Outcome, win: bool)
    requires Sound(db) && p < |db.payments| && Steady(ViewOf(db, p), win) && Says(win, answer)
    ensures Says(win, ChargeOutcome(db, p, answer))
  {
    hide Sum, TxRows, JournalRows, HoldRows, OpRow;
    var i := FindLast(db.operations, IsChargeOf(p));
    if i >= 0 {
      OperationCounts(db.operations, |db.payments|, i);
    }
  }

  lemma StepKeepsSteady(verdict: nat -> bool, catalog: seq<PolicyVersion>, w: World, s: Step)
    requires Inv(w) && AllSteady(verdict, w) && StableStep(verdict, w, s)
    ensures AllSteady(verdict, Apply(catalog, w, s))
  {
    hide Sum, Find, ViewOf, Good, Moved, Allowed, Apply, MoveFor, ApprovalRows, Steady, Says, Agreed, StableStep;
    var after := Apply(catalog, w, s);
    forall p: nat | p < |after.db.payments|
      ensures Steady(ViewOf(after.db, p), verdict(p))
    {
      if p < |w.db.payments| {
        StepMoves(catalog, w, s, p);
        StableMove(verdict, w, s, p);
        SteadyMoves(ViewOf(w.db, p), MoveFor(w, s, p), verdict(p));
      } else {
        StepCreates(catalog, w, s, p);
        NewIsSteady(ViewOf(after.db, p), verdict(p));
      }
    }
    WorkersAgree(verdict, catalog, w, s);
  }

  lemma NewIsSteady(v: View, win: bool)
    requires NewView(v)
    ensures Steady(v, win)
  {
  }

  lemma WorkersAgree(verdict: nat -> bool, catalog: seq<PolicyVersion>, w: World, s: Step)
    requires Inv(w) && AllSteady(verdict, w) && StableStep(verdict, w, s)
    ensures var after := Apply(catalog, w, s);
            forall k: nat :: k < |after.workers| && after.workers[k].outcome.Some? ==>
              Says(verdict(after.workers[k].execution.payment), after.workers[k].outcome.value)
  {
    hide Sum, Find, ViewOf, ApprovalRows, Steady, Says, TxRows, JournalRows, OpRows, HoldRows, ChargeOutcome,
      CreateSpec, BirthSpec, ApproveSpec, DenySpec, BeginSpec, FinishSpec, ResolveSpec, CaptureSpec, VoidSpec, RefundSpec;
    if s.Charge? && s.worker < |w.workers| {
      ChargeAgrees(w.db, w.workers[s.worker].execution.payment, s.answer, verdict(w.workers[s.worker].execution.payment));
    }
  }

  lemma {:induction false} RunKeepsSteady(verdict: nat -> bool, catalog: seq<PolicyVersion>, start: World, steps: seq<Step>)
    requires Init(start) && StableRun(verdict, catalog, start, steps)
    ensures AllSteady(verdict, Execute(catalog, start, steps))
  {
    hide Apply, ViewOf, Steady, Says, StableStep, Inv;
    if steps != [] {
      RunKeepsSteady(verdict, catalog, start, steps[..|steps| - 1]);
      Reached(catalog, start, steps[..|steps| - 1]);
      StepKeepsSteady(verdict, catalog, Execute(catalog, start, steps[..|steps| - 1]), steps[|steps| - 1]);
    }
  }

  /** With a stable provider, at every point of every run: a reservation is CONSUMED
      exactly when its payment's capture journal exists, and a RELEASED one never has
      a journal. */
  lemma ConsumedMeansCaptured(verdict: nat -> bool, catalog: seq<PolicyVersion>, start: World, steps: seq<Step>, r: nat)
    requires Init(start) && StableRun(verdict, catalog, start, steps)
    ensures var db := Execute(catalog, start, steps).db;
            r < |db.reservations| ==>
              && (db.reservations[r].status == Consumed <==>
                    Sum(db.journals, JournalCount(JCapture(db.reservations[r].request))) == 1)
              && (db.reservations[r].status == Released ==>
                    Sum(db.journals, JournalCount(JCapture(db.reservations[r].request))) == 0)
  {
    hide Sum, StableRun, TxRows, JournalRows, OpRows, FilingOf, CallsOf;
    RunKeepsSteady(verdict, catalog, start, steps);
    Reached(catalog, start, steps);
    var db := Execute(catalog, start, steps).db;
    if r < |db.reservations| {
      var p := db.reservations[r].request;
      assert Good(ViewOf(db, p)) && Steady(ViewOf(db, p), verdict(p));
    }
  }
}
