/** Payments that read SUCCEEDED with nothing in the ledger: when that happens, exactly, and
    a run in which it does. */
module Unjournalled {
  import opened Domain
  import opened Sums
  import opened Repositories
  import opened Ledger
  import opened Resolvers
  import opened Lifecycles
  import opened Controls
  import opened Machine
  import opened Rows
  import opened Views
  import opened Moves
  import opened Steps
  import opened Safety
  import opened Guards

  predicate Unbacked(db: Db, p: nat) {
    p < |db.payments| && db.payments[p].status == Succeeded && Find(db.journals, JournalHasKey(JCapture(p))) < 0
  }

  /** A success event that applies to an operation other than the charge of a payment
      without a capture journal. */
  predicate Unbacks(db: Db, s: Step, p: nat) {
    && s.Resolve? && s.outcome == Success && EventApplies(db, s.event, s.operation)
    && db.operations[s.operation].payment == p && db.operations[s.operation].kind != ChargeOp
    && Find(db.journals, JournalHasKey(JCapture(p))) < 0
  }

  predicate RunUnbacks(catalog: seq<PolicyVersion>, w: World, steps: seq<Step>, p: nat) {
    steps != []
    && (|| RunUnbacks(catalog, w, steps[..|steps| - 1], p)
        || Unbacks(Execute(catalog, w, steps[..|steps| - 1]).db, steps[|steps| - 1], p))
  }

  predicate Bare(v: View) {
    v.status == Succeeded && v.journals == 0
  }

  lemma BareMoves(v: View, m: Move)
    requires Good(v) && Allowed(v, m)
    ensures Bare(Moved(v, m)) <==>
              Bare(v) || (m.Hear? && m.kind != ChargeOp && m.outcome == Success && v.journals == 0)
  {
  }

  lemma UnbackedIsBare(db: Db, p: nat)
    requires p < |db.payments|
    ensures Unbacked(db, p) <==> Bare(ViewOf(db, p))
    ensures Find(db.journals, JournalHasKey(JCapture(p))) < 0 <==> ViewOf(db, p).journals == 0
  {
    hide Sum, Find, FilingOf, CallsOf, HoldOf;
    JournalLookup(db, JCapture(p));
  }

  /** One step leaves a payment unbacked exactly when it was before or the step unbacks it. */
  lemma StepUnbacks(catalog: seq<PolicyVersion>, w: World, s: Step, p: nat)
    requires Inv(w) && p < |w.db.payments|
    ensures Unbacked(Apply(catalog, w, s).db, p) <==> Unbacked(w.db, p) || Unbacks(w.db, s, p)
  {
    hide Sum, Find, Apply, ViewOf, Good, Moved, Allowed, Unbacked, Sound, AllFaithful, ApprovalRows, MoveFor, Bare;
    StepMoves(catalog, w, s, p);
    assert Good(ViewOf(w.db, p));
    BareMoves(ViewOf(w.db, p), MoveFor(w, s, p));
    UnbackedIsBare(w.db, p);
    UnbackedIsBare(Apply(catalog, w, s).db, p);
    HearsExactlyWhen(w, s, p);
  }

  lemma HearsExactlyWhen(w: World, s: Step, p: nat)
    requires Inv(w) && p < |w.db.payments|
    ensures var m := MoveFor(w, s, p);
            m.Hear? && m.kind != ChargeOp && m.outcome == Success <==>
              && s.Resolve? && s.outcome == Success && EventApplies(w.db, s.event, s.operation)
              && w.db.operations[s.operation].payment == p && w.db.operations[s.operation].kind != ChargeOp
  {
    hide Sum, Find, Sound, AllGood, AllFaithful, ApprovalRows, ResolveSpec, FilingOf, CallsOf, HoldOf;
    if s.Resolve? {
      ResolvedExactlyWhen(w.db, s.event, s.operation, s.outcome, s.customer, s.clearing);
    }
  }

  /** After any run, a payment reads SUCCEEDED without a capture journal if and only if some
      step of the run applied such an event to it; it then has no POSTED capture either,
      and never had a reservation. */
  lemma {:induction false} UnbackedExactlyWhen(catalog: seq<PolicyVersion>, start: World, steps: seq<Step>, p: nat)
    requires Init(start)
    ensures var db := Execute(catalog, start, steps).db;
            p < |db.payments| ==>
              && (Unbacked(db, p) <==> RunUnbacks(catalog, start, steps, p))
              && (Unbacked(db, p) ==> Posted(db, p, CaptureType) == 0 && p < |db.requests| && db.requests[p].reservation.None?)
  {
    hide Sum, Find, Apply, Unbacked, Unbacks, Sound, AllFaithful, ApprovalRows, Good;
    Reached(catalog, start, steps);
    if steps != [] {
      var w := Execute(catalog, start, steps[..|steps| - 1]);
      var s := steps[|steps| - 1];
      UnbackedExactlyWhen(catalog, start, steps[..|steps| - 1], p);
      Reached(catalog, start, steps[..|steps| - 1]);
      if p < |w.db.payments| {
        StepUnbacks(catalog, w, s, p);
      } else {
        NotYetUnbacked(catalog, start, steps, p);
        if p < |Apply(catalog, w, s).db.payments| {
          NewIsBacked(catalog, w, s, p);
        }
      }
    }
    var db := Execute(catalog, start, steps).db;
    if p < |db.payments| {
      UnbackedHasNothing(db, p);
    }
  }

  lemma UnbackedHasNothing(db: Db, p: nat)
    requires Sound(db) && AllGood(db) && p < |db.payments|
    ensures Unbacked(db, p) ==> Posted(db, p, CaptureType) == 0 && p < |db.requests| && db.requests[p].reservation.None?
  {
    hide Sum, Find, TxRows, JournalRows, OpRows, HoldRows;
    UnbackedIsBare(db, p);
    assert Good(ViewOf(db, p));
    HoldMeansReservation(db, p);
  }

  lemma NewIsBacked(catalog: seq<PolicyVersion>, w: World, s: Step, p: nat)
    requires Inv(w) && |w.db.payments| <= p < |Apply(catalog, w, s).db.payments|
    ensures !Unbacked(Apply(catalog, w, s).db, p)
  {
    hide Sum, Find, Apply, Sound, AllGood, AllFaithful, ApprovalRows;
    StepCreates(catalog, w, s, p);
  }

  lemma {:induction false} NotYetUnbacked(catalog: seq<PolicyVersion>, start: World, steps: seq<Step>, p: nat)
    requires Init(start) && steps != []
    requires p >= |Execute(catalog, start, steps[..|steps| - 1]).db.payments|
    ensures !RunUnbacks(catalog, start, steps, p)
  {
    hide Sum, Find, Apply, Sound, AllGood, AllFaithful, ApprovalRows;
    var before := steps[..|steps| - 1];
    if before != [] {
      var w := Execute(catalog, start, before[..|before| - 1]);
      Reached(catalog, start, before[..|before| - 1]);
      StepKeepsPayments(catalog, w, before[|before| - 1]);
      NotYetUnbacked(catalog, start, before, p);
    }
  }

  // --- a run that does it ---

  const EMPTY := Db([], [], [], [], [], [], [], [], [], [], [])
  const STEPS := [
    BirthAuthorized("acct", "agent", "key", 100000, "USD"),
    Capture(0, 100000, "USD", 0, 1, Unknown),
    ReceiveEvent(true),
    Resolve(0, 0, Success, 0, 1)]

  const BORN := EMPTY.(
    requests := [Request("acct", "agent", 100000, "USD", None, None, "key", None, None, None, None, None)],
    payments := [Payment(0, 100000, "USD", Authorized)])
  const ASKED := BORN.(payments := [Payment(0, 100000, "USD", UnknownOutcome)],
                       operations := [Operation(0, CaptureOp, CaptureKey(0), OpPending)])
  const NOTIFIED := ASKED.(events := [ProviderEvent(true, false)])
  const DECIDED := ASKED.(payments := [Payment(0, 100000, "USD", Succeeded)],
                          operations := [Operation(0, CaptureOp, CaptureKey(0), OpSucceeded)],
                          events := [ProviderEvent(true, true)])

  lemma Asks()
    ensures Apply([], World(EMPTY, []), STEPS[0]) == World(BORN, [])
    ensures Apply([], World(BORN, []), STEPS[1]) == World(ASKED, [])
  {
    assert RegisterOperation(BORN, 0, CaptureOp, CaptureKey(0)) == Done(BORN.(operations := ASKED.operations), 0);
  }

  lemma Decides()
    ensures Apply([], World(ASKED, []), STEPS[2]) == World(NOTIFIED, [])
    ensures Apply([], World(NOTIFIED, []), STEPS[3]) == World(DECIDED, [])
  {
  }

  /** An imported payment whose capture was answered UNKNOWN and then confirmed by an event
      reads SUCCEEDED with no capture, no journal and nothing posted. */
  lemma ConfirmedCaptureIsUnjournalled()
    ensures Init(World(EMPTY, []))
    ensures var db := Execute([], World(EMPTY, []), STEPS).db;
            Unbacked(db, 0) && db.transactions == [] && db.journals == []
  {
    hide Apply;
    var start := World(EMPTY, []);
    Asks();
    Decides();
    assert STEPS[..0] == [] && STEPS[..1][..0] == [] && STEPS[..2][..1] == STEPS[..1];
    assert STEPS[..3][..2] == STEPS[..2] && STEPS[..4][..3] == STEPS[..3] && STEPS[..4] == STEPS;
    assert Execute([], start, STEPS[..1]) == World(BORN, []);
    assert Execute([], start, STEPS[..2]) == World(ASKED, []);
    assert Execute([], start, STEPS[..3]) == World(NOTIFIED, []);
  }
}
