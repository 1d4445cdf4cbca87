/** Refinement under a stable provider: every interleaving projects, on reservations,
    budgets and capture journals, to a machine in which a held amount is captured once or
    released once, and every other step changes nothing. */
module Refinement {
  import opened Domain
  import opened Sums
  import opened Controls
  import opened Machine
  import opened Rows
  import opened Views
  import opened Admission
  import opened Moves
  import opened Steps
  import opened Approvals
  import opened Safety
  import opened Budgets
  import opened Stable

  /** What the machine knows of one payment's charge. */
  datatype Slot =
    | Unheld
    | Held(budget: nat, amount: Money)
    | Captured(budget: nat, amount: Money)
    | Freed(budget: nat, amount: Money)
    | Broken  // a reservation and a journal that contradict each other

  datatype Abstract = Abstract(slots: seq<Slot>, budgets: seq<Budget>)

  datatype Action =
    | Stutter
    | Add                                                // a payment without a charge yet
    | Hold(payment: nat, budget: nat, amount: Money)     // of a payment there is, or of a new one
    | Take(payment: nat)
    | Give(payment: nat)

  predicate Enabled(a: Abstract, act: Action) {
    match act
    case Stutter => true
    case Add => true
    case Hold(p, i, amount) =>
      && p <= |a.slots| && (p < |a.slots| ==> a.slots[p] == Unheld)
      && i < |a.budgets| && amount > 0
      && a.budgets[i].reserved + a.budgets[i].consumed + amount <= a.budgets[i].limit
    case Take(p) => p < |a.slots| && a.slots[p].Held? && a.slots[p].budget < |a.budgets|
    case Give(p) => p < |a.slots| && a.slots[p].Held? && a.slots[p].budget < |a.budgets|
  }

  function Next(a: Abstract, act: Action): Abstract
    requires Enabled(a, act)
  {
    match act
    case Stutter => a
    case Add => a.(slots := a.slots + [Unheld])
    case Hold(p, i, amount) =>
      var slots := if p < |a.slots| then a.slots[p := Held(i, amount)] else a.slots + [Held(i, amount)];
      Abstract(slots, a.budgets[i := a.budgets[i].(reserved := a.budgets[i].reserved + amount)])
    case Take(p) =>
      var (i, amount) := (a.slots[p].budget, a.slots[p].amount);
      var b := a.budgets[i];
      Abstract(a.slots[p := Captured(i, amount)],
               a.budgets[i := b.(reserved := b.reserved - amount, consumed := b.consumed + amount)])
    case Give(p) =>
      var (i, amount) := (a.slots[p].budget, a.slots[p].amount);
      var b := a.budgets[i];
      Abstract(a.slots[p := Freed(i, amount)], a.budgets[i := b.(reserved := b.reserved - amount)])
  }

  predicate Accepts(a: Abstract, acts: seq<Action>, b: Abstract)
    decreases |acts|
  {
    if acts == [] then a == b
    else Enabled(a, acts[0]) && Accepts(Next(a, acts[0]), acts[1..], b)
  }

  /** A payment's slot, read off its reservation row and the journal table. */
  function SlotOf(db: Db, p: nat): Slot {
    if p >= |db.requests| || db.requests[p].reservation.None? || db.requests[p].reservation.value >= |db.reservations|
    then Unheld
    else
      var row := db.reservations[db.requests[p].reservation.value];
      var journals := Sum(db.journals, JournalCount(JCapture(p)));
      if row.status == Reserved && journals == 0 then Held(row.budget, row.amount)
      else if row.status == Consumed && journals == 1 then Captured(row.budget, row.amount)
      else if row.status == Released && journals == 0 then Freed(row.budget, row.amount)
      else Broken
  }

  function Project(db: Db): Abstract {
    Abstract(seq(|db.payments|, p requires 0 <= p => SlotOf(db, p)), db.budgets)
  }

  /** The slot a reservation row alone would give. */
  function RowSlot(requests: seq<Request>, reservations: seq<Reservation>, p: nat): Slot {
    if p >= |requests| || requests[p].reservation.None? || requests[p].reservation.value >= |reservations| then Unheld
    else
      var row := reservations[requests[p].reservation.value];
      match row.status
      case Reserved => Held(row.budget, row.amount)
      case Consumed => Captured(row.budget, row.amount)
      case Released => Freed(row.budget, row.amount)
  }

  /** Under a stable provider the journals contradict no reservation. */
  lemma SlotIsRow(verdict: nat -> bool, w: World, p: nat)
    requires Inv(w) && AllSteady(verdict, w) && p < |w.db.payments|
    ensures SlotOf(w.db, p) == RowSlot(w.db.requests, w.db.reservations, p)
  {
    hide Sum, TxRows, JournalRows, OpRows, ApprovalRows, FilingOf, CallsOf;
    assert Good(ViewOf(w.db, p)) && Steady(ViewOf(w.db, p), verdict(p));
    if HoldOf(w.db.requests, w.db.reservations, p).Some? {
      var status := HoldOf(w.db.requests, w.db.reservations, p).value;
      assert status.Reserved? || status.Consumed? || status.Released?;
    }
  }

  /** Reservation rows are only added, and never change hands. */
  ghost predicate RowsGrow(before: Db, after: Db) {
    && Extends(before.requests, after.requests)
    && HoldRows(before.requests, before.reservations, |before.budgets|)
    && HoldRows(after.requests, after.reservations, |after.budgets|)
    && |before.reservations| <= |after.reservations|
    && forall r: nat :: r < |before.reservations| ==> after.reservations[r].request == before.reservations[r].request
  }

  /** A payment gets a reservation only with a new row about it. */
  lemma ReservationComesWithItsRow(before: Db, after: Db, p: nat)
    requires RowsGrow(before, after) && p < |after.requests|
    requires forall r: nat :: |before.reservations| <= r < |after.reservations| ==> after.reservations[r].request != p
    ensures after.requests[p].reservation
            == if p < |before.requests| then before.requests[p].reservation else None
  {
  }

  lemma BudgetMoveGrows(before: Db, after: Db, m: BudgetMove)
    requires BudgetStep(before, after, m) && Sound(before) && Sound(after) && Extends(before.requests, after.requests)
    ensures RowsGrow(before, after)
  {
    hide Sum, TxRows, JournalRows, OpRows;
  }

  function ActionOf(w: World, after: Db, m: BudgetMove): Action {
    match m
    case ReserveMove(i, request, amount) => Hold(request, i, amount)
    case ConsumeMove(r) =>
      if r < |w.db.reservations| && w.db.reservations[r].status == Reserved then Take(w.db.reservations[r].request) else Stutter
    case ReleaseMove(r) =>
      if r < |w.db.reservations| && w.db.reservations[r].status == Reserved then Give(w.db.reservations[r].request) else Stutter
    case NoMove => if |after.payments| > |w.db.payments| then Add else Stutter
  }

  /** The projection read off reservation rows. */
  function RowProject(db: Db): Abstract {
    Abstract(seq(|db.payments|, p requires 0 <= p => RowSlot(db.requests, db.reservations, p)), db.budgets)
  }

  lemma ProjectIsRows(verdict: nat -> bool, w: World)
    requires Inv(w) && AllSteady(verdict, w)
    ensures Project(w.db) == RowProject(w.db)
  {
    hide Inv, AllSteady, SlotOf, RowSlot;
    forall p: nat | p < |w.db.payments|
      ensures SlotOf(w.db, p) == RowSlot(w.db.requests, w.db.reservations, p)
    {
      SlotIsRow(verdict, w, p);
    }
  }

  lemma StutterRefines(w: World, after: Db)
    requires RowsGrow(w.db, after) && SameBudgets(w.db, after)
    requires |w.db.payments| == |w.db.requests| && |after.payments| == |after.requests|
    requires |w.db.payments| <= |after.payments| <= |w.db.payments| + 1
    ensures RowProject(after) == Next(RowProject(w.db), ActionOf(w, after, NoMove))
  {
    forall p: nat | p < |after.payments|
      ensures RowSlot(after.requests, after.reservations, p)
              == if p < |w.db.payments| then RowSlot(w.db.requests, w.db.reservations, p) else Unheld
    {
      ReservationComesWithItsRow(w.db, after, p);
    }
  }

  lemma HoldRefines(w: World, after: Db, m: BudgetMove)
    requires RowsGrow(w.db, after) && m.ReserveMove? && BudgetStep(w.db, after, m)
    requires |w.db.payments| == |w.db.requests| && |after.payments| == |after.requests|
    requires |after.payments| == if m.request < |w.db.payments| then |w.db.payments| else |w.db.payments| + 1
    ensures Enabled(RowProject(w.db), ActionOf(w, after, m))
    ensures RowProject(after) == Next(RowProject(w.db), ActionOf(w, after, m))
  {
    hide Sum, Extends;
    var r := |w.db.reservations|;
    assert after.reservations[r].request == m.request;
    forall p: nat | p < |after.payments| && p != m.request
      ensures RowSlot(after.requests, after.reservations, p)
              == if p < |w.db.payments| then RowSlot(w.db.requests, w.db.reservations, p) else Unheld
    {
      ReservationComesWithItsRow(w.db, after, p);
    }
  }

  lemma TakeRefines(w: World, after: Db, m: BudgetMove)
    requires RowsGrow(w.db, after) && (m.ConsumeMove? || m.ReleaseMove?) && BudgetStep(w.db, after, m)
    requires |w.db.payments| == |w.db.requests| && |after.payments| == |w.db.payments|
    requires after.requests == w.db.requests
    ensures Enabled(RowProject(w.db), ActionOf(w, after, m))
    ensures RowProject(after) == Next(RowProject(w.db), ActionOf(w, after, m))
  {
    var r := m.reservation;
    var p := w.db.reservations[r].request;
    assert w.db.requests[p].reservation == Some(r);
    forall q: nat | q < |w.db.payments| && q != p
      ensures RowSlot(after.requests, after.reservations, q) == RowSlot(w.db.requests, w.db.reservations, q)
    {
    }
  }

  lemma StepAddsAtMostOne(catalog: seq<PolicyVersion>, w: World, s: Step)
    requires Inv(w)
    ensures |Apply(catalog, w, s).db.payments| <= |w.db.payments| + 1
  {
    hide Apply, Inv, ViewOf, NewView;
    if |Apply(catalog, w, s).db.payments| > |w.db.payments| + 1 {
      StepCreates(catalog, w, s, |w.db.payments| + 1);
    }
  }

  /** Each concrete step is one abstract step, or none. */
  lemma StepRefines(verdict: nat -> bool, catalog: seq<PolicyVersion>, w: World, s: Step) returns (act: Action)
    requires Inv(w) && AllSteady(verdict, w) && StableStep(verdict, w, s)
    ensures Enabled(Project(w.db), act)
    ensures Project(Apply(catalog, w, s).db) == Next(Project(w.db), act)
  {
    hide Apply, ViewOf, AllGood, AllFaithful, TxRows, JournalRows, OpRows, ApprovalRows, HoldRows, StableStep, Sum,
      AllSteady, Project, RowProject, RowsGrow, Extends, NewView;
    var after := Apply(catalog, w, s);
    StepKeepsInv(catalog, w, s);
    StepKeepsSteady(verdict, catalog, w, s);
    StepExtends(catalog, w, s);
    StepKeepsPayments(catalog, w, s);
    ProjectIsRows(verdict, w);
    ProjectIsRows(verdict, after);
    StepAddsAtMostOne(catalog, w, s);
    var m := StepBudgets(catalog, w, s);
    BudgetMoveGrows(w.db, after.db, m);
    act := ActionOf(w, after.db, m);
    match m
    case NoMove => StutterRefines(w, after.db);
    case ReserveMove(_, _, _) => HoldRefines(w, after.db, m);
    case _ =>
      ExecutionFrame(catalog, w, s);
      TakeRefines(w, after.db, m);
  }

  lemma {:induction false} AcceptsOneMore(a: Abstract, acts: seq<Action>, b: Abstract, act: Action)
    requires Accepts(a, acts, b) && Enabled(b, act)
    ensures Accepts(a, acts + [act], Next(b, act))
    decreases |acts|
  {
    var all := acts + [act];
    if acts == [] {
      assert all[0] == act && all[1..] == [];
    } else {
      assert all[0] == acts[0] && all[1..] == acts[1..] + [act];
      AcceptsOneMore(Next(a, acts[0]), acts[1..], b, act);
    }
  }

  predicate Decided(s: Slot) {
    s.Captured? || s.Freed?
  }

  predicate Decides(act: Action, p: nat) {
    (act.Take? || act.Give?) && act.payment == p
  }

  function Decisions(acts: seq<Action>, p: nat): nat {
    if acts == [] then 0 else (if Decides(acts[0], p) then 1 else 0) + Decisions(acts[1..], p)
  }

  /** In any run of the abstract machine a payment's hold is decided at most once: exactly
      once if it ends decided, never if it does not, and a decision is final. */
  lemma {:induction false} DecidedOnce(a: Abstract, acts: seq<Action>, b: Abstract, p: nat)
    requires Accepts(a, acts, b) && p < |b.slots|
    ensures p < |a.slots| && Decided(a.slots[p]) ==> b.slots[p] == a.slots[p] && Decisions(acts, p) == 0
    ensures (p < |a.slots| ==> !Decided(a.slots[p])) ==> Decisions(acts, p) == if Decided(b.slots[p]) then 1 else 0
    decreases |acts|
  {
    if acts != [] {
      DecidedOnce(Next(a, acts[0]), acts[1..], b, p);
    }
  }


  /** Every run under a stable provider is a run of the abstract machine, step for step,
      and captures or releases each hold at most once. */
  lemma {:induction false} RunRefines(verdict: nat -> bool, catalog: seq<PolicyVersion>, start: World, steps: seq<Step>)
    returns (acts: seq<Action>)
    requires Init(start) && StableRun(verdict, catalog, start, steps)
    ensures Accepts(Project(start.db), acts, Project(Execute(catalog, start, steps).db))
    ensures |acts| == |steps|
    ensures var db := Execute(catalog, start, steps).db;
            forall p: nat :: p < |db.payments| ==> Decisions(acts, p) == if Decided(SlotOf(db, p)) then 1 else 0
  {
    hide Apply, SlotOf, Inv, AllSteady, StableStep, Next;
    if steps == [] {
      acts := [];
    } else {
      var before := Execute(catalog, start, steps[..|steps| - 1]);
      var prefix := RunRefines(verdict, catalog, start, steps[..|steps| - 1]);
      Reached(catalog, start, steps[..|steps| - 1]);
      RunKeepsSteady(verdict, catalog, start, steps[..|steps| - 1]);
      var act := StepRefines(verdict, catalog, before, steps[|steps| - 1]);
      AcceptsOneMore(Project(start.db), prefix, Project(before.db), act);
      acts := prefix + [act];
    }
    var db := Execute(catalog, start, steps).db;
    forall p: nat | p < |db.payments|
      ensures Decisions(acts, p) == if Decided(SlotOf(db, p)) then 1 else 0
    {
      DecidedOnce(Project(start.db), acts, Project(db), p);
    }
  }
}
