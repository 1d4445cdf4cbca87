/** The worker loop: reference/implementation/src/agent_pay/worker_runner.py. */
module Runners {
  import opened Domain
  import opened Sums
  import opened Connections
  import opened Repositories
  import opened Orchestrators
  import opened Workers
  import opened Controls
  import opened Machine
  import opened Rows
  import opened Consistency
  import opened Views
  import opened Moves
  import opened Steps
  import opened Approvals
  import opened Answers

  /** The customer's and the provider's ledger account, where both were found. */
  datatype Accounts = Accounts(customer: nat, clearing: nat)

  /** One payment after another; a missing account ends the loop and leaves the earlier
      payments processed. */
  function RunSpec(db: Db, ids: seq<nat>, accounts: nat -> Option<Accounts>, answers: nat -> Outcome, done: int):
    (Db, Result<int>)
    decreases |ids|
  {
    if ids == [] then (db, Ok(done))
    else
      var found := accounts(ids[0]);
      if found.None? then (db, Err(NotFound))
      else
        var (after, r) := ProcessSpec(db, ids[0], found.value.customer, found.value.clearing, answers(ids[0]));
        if r.Err? then (after, Err(r.error)) else RunSpec(after, ids[1..], accounts, answers, done + 1)
  }

  class Runner {
    const conn: Connection
    const worker: Worker

    ghost predicate Valid() {
      worker.conn == conn && worker.Valid()
    }

    constructor (conn: Connection)
      ensures Valid() && this.conn == conn
    {
      this.conn := conn;
      worker := new Worker(conn);
    }

    method RunOnce(limit: nat, locked: set<nat>, accounts: nat -> Option<Accounts>, answers: nat -> Outcome)
      returns (r: Result<int>, ids: seq<nat>)
      requires Valid()
      modifies conn
      ensures forall i :: 0 <= i < |ids| ==> old(Claimable(conn.db, ids[i])) && ids[i] !in locked
      ensures forall i, j :: 0 <= i < j < |ids| ==> ids[i] < ids[j]
      ensures |ids| < limit ==> forall p :: old(Claimable(conn.db, p)) && p !in locked ==> p in ids
      ensures (conn.db, r) == RunSpec(old(conn.db), ids, accounts, answers, 0)
    {
      ids := worker.orchestrator.payments.PendingForExecution(limit, locked);
      var processed := 0;
      while processed < |ids|
        invariant 0 <= processed <= |ids|
        invariant RunSpec(old(conn.db), ids, accounts, answers, 0)
                  == RunSpec(conn.db, ids[processed..], accounts, answers, processed)
      {
        var found := accounts(ids[processed]);
        if found.None? {
          return Err(NotFound), ids;
        }
        var one := worker.ProcessOne(ids[processed], found.value.customer, found.value.clearing, answers(ids[processed]));
        if one.Err? {
          return Err(one.error), ids;
        }
        processed := processed + 1;
      }
      r := Ok(processed);
    }
  }

  /** A worker that nothing disturbs is three steps of the machine in a row. */
  lemma ProcessOneIsThreeSteps(catalog: seq<PolicyVersion>, w: World, p: nat, customer: nat, clearing: nat, answer: Outcome)
    requires BeginSpec(w.db, p).Done?
    ensures var k := |w.workers|;
            Execute(catalog, w, [Begin(p), Step.Charge(k, answer), Finish(k, customer, clearing)]).db
            == ProcessSpec(w.db, p, customer, clearing, answer).0
  {
    hide FinishSpec, ChargeOutcome, RegisterOperation, SetStatus;
    var k := |w.workers|;
    var steps := [Begin(p), Step.Charge(k, answer), Finish(k, customer, clearing)];
    var begun := Apply(catalog, w, steps[0]);
    var charged := Apply(catalog, begun, steps[1]);
    assert steps[..2] == [steps[0], steps[1]] && steps[..2][..1] == [steps[0]] && [steps[0]][..0] == [];
    assert Execute(catalog, w, []) == w;
    assert Execute(catalog, w, [steps[0]]) == begun;
    assert Execute(catalog, w, steps[..2]) == charged;
    assert Execute(catalog, w, steps) == Apply(catalog, charged, steps[2]);
    assert begun.workers[k].outcome == None && charged.workers[k].outcome.Some? && !charged.workers[k].finished;
  }

  predicate Settled(status: PaymentStatus) {
    status == Succeeded || status == Failed || status == UnknownOutcome
  }

  /** An undisturbed worker decides its payment: it ends in the status its outcome gives,
      and every other payment stays as it was. */
  lemma ProcessOneDecides(catalog: seq<PolicyVersion>, w: World, p: nat, customer: nat, clearing: nat, answer: Outcome)
    returns (after: World)
    requires Inv(w) && p < |w.db.payments| && w.db.requests[p].reservation.Some?
    ensures Inv(after)
    ensures var (db, r) := ProcessSpec(w.db, p, customer, clearing, answer);
            && after.db == db && |db.payments| == |w.db.payments| && db.requests == w.db.requests
            && r == Ok(db.payments[p].status)
            && db.payments[p].status == StatusOf(ChargeOutcome(BeginSpec(w.db, p).db, p, answer))
            && forall q: nat :: q < |db.payments| && q != p ==> db.payments[q].status == w.db.payments[q].status
  {
    hide Sum, Sound, ViewOf, ApprovalRows, AllGood, AllFaithful, ChargeOutcome, FinishSpec, Good, Moved, Allowed;
    var k := |w.workers|;
    var begun := Apply(catalog, w, Begin(p));
    var charged := Apply(catalog, begun, Step.Charge(k, answer));
    after := Apply(catalog, charged, Finish(k, customer, clearing));
    BeginsOn(w.db, p);
    StepKeepsInv(catalog, w, Begin(p));
    StepKeepsInv(catalog, begun, Step.Charge(k, answer));
    StepKeepsInv(catalog, charged, Finish(k, customer, clearing));
    FinishDecides(begun.db, begun.workers[k].execution, customer, clearing, ChargeOutcome(begun.db, p, answer));
  }

  lemma BeginsOn(db: Db, p: nat)
    requires Sound(db) && p < |db.payments| && db.requests[p].reservation.Some?
    ensures var a := BeginSpec(db, p);
            && a.Done? && a.value.payment == p && |a.db.payments| == |db.payments| && a.db.requests == db.requests
            && a.db.payments[p].status == Processing
            && Faithful(a.db.requests, a.value)
            && forall q: nat :: q < |db.payments| && q != p ==> a.db.payments[q] == db.payments[q]
  {
    hide Sum, Find, TxRows, JournalRows, HoldRows;
    RegisterSound(db, p, ChargeKey(p));
  }

  lemma FinishDecides(db: Db, e: Execution, customer: nat, clearing: nat, outcome: Outcome)
    requires Sound(db) && e.payment < |db.payments| && Faithful(db.requests, e)
    requires db.payments[e.payment].status == Processing
    ensures var a := FinishSpec(db, e, customer, clearing, outcome);
            && a.Done? && |a.db.payments| == |db.payments| && a.db.requests == db.requests
            && a.value == a.db.payments[e.payment].status == StatusOf(outcome)
            && forall q: nat :: q < |db.payments| && q != e.payment ==> a.db.payments[q] == db.payments[q]
  {
    hide Sum, Find, TxRows, JournalRows, OpRows, HoldRows, SettleFailure, SettleSuccess, SettleUnknown;
    var p := e.payment;
    FaithfulInRange(db, e);
    SettleFailureSound(db, p, e.reservation);
    SettleSuccessSound(db, p, e.reservation, customer, clearing);
    SettlePayments(db, e, customer, clearing);
  }

  lemma SettlePayments(db: Db, e: Execution, customer: nat, clearing: nat)
    requires e.payment < |db.payments|
    ensures var p := e.payment;
            var unknown := SettleUnknown(db, p);
            var failed := SettleFailure(db, p, e.reservation);
            var settled := SettleSuccess(db, p, e.reservation, e.amount, e.currency, customer, clearing);
            && unknown.payments == db.payments[p := db.payments[p].(status := UnknownOutcome)] && unknown.requests == db.requests
            && (failed.Done? ==> failed.value == Failed && failed.db.requests == db.requests
                                 && failed.db.payments == db.payments[p := db.payments[p].(status := Failed)])
            && (settled.Done? ==> settled.value == Succeeded && settled.db.requests == db.requests
                                  && settled.db.payments == db.payments[p := db.payments[p].(status := Succeeded)])
  {
    hide Sum, Find;
  }

  /** A run of the loop that finds every account decides every payment it claimed. */
  lemma {:induction false} RunDecidesAll(catalog: seq<PolicyVersion>, w: World, ids: seq<nat>, accounts: nat -> Option<Accounts>,
                                         answers: nat -> Outcome, done: int) returns (after: World)
    requires Inv(w)
    requires forall i :: 0 <= i < |ids| ==>
               ids[i] < |w.db.payments| && w.db.requests[ids[i]].reservation.Some? && accounts(ids[i]).Some?
    ensures Inv(after)
    ensures var (db, r) := RunSpec(w.db, ids, accounts, answers, done);
            && after.db == db && |db.payments| == |w.db.payments| && r == Ok(done + |ids|)
            && (forall p: nat :: p < |db.payments| && p in ids ==> Settled(db.payments[p].status))
            && (forall p: nat :: p < |db.payments| && p !in ids ==> db.payments[p].status == w.db.payments[p].status)
    decreases |ids|
  {
    hide Inv, ProcessSpec;
    if ids == [] {
      after := w;
    } else {
      var found := accounts(ids[0]).value;
      var one := ProcessOneDecides(catalog, w, ids[0], found.customer, found.clearing, answers(ids[0]));
      after := RunDecidesAll(catalog, one, ids[1..], accounts, answers, done + 1);
    }
  }

  /** A missing account stops the loop with an error: what was claimed before it has been
      processed and stays so, it and what was claimed after it are left as they were. */
  lemma {:induction false} RunStopsAtMissing(catalog: seq<PolicyVersion>, w: World, ids: seq<nat>, p: nat, rest: seq<nat>,
                                             accounts: nat -> Option<Accounts>, answers: nat -> Outcome, done: int)
    requires Inv(w) && accounts(p).None?
    requires forall i :: 0 <= i < |ids| ==>
               ids[i] < |w.db.payments| && w.db.requests[ids[i]].reservation.Some? && accounts(ids[i]).Some?
    ensures RunSpec(w.db, ids + [p] + rest, accounts, answers, done)
            == (RunSpec(w.db, ids, accounts, answers, done).0, Err(NotFound))
    decreases |ids|
  {
    hide Inv, ProcessSpec;
    if ids == [] {
      assert ids + [p] + rest == [p] + rest;
    } else {
      var found := accounts(ids[0]).value;
      var one := ProcessOneDecides(catalog, w, ids[0], found.customer, found.clearing, answers(ids[0]));
      RunStopsAtMissing(catalog, one, ids[1..], p, rest, accounts, answers, done + 1);
      assert (ids + [p] + rest)[1..] == ids[1..] + [p] + rest;
    }
  }
}
