/** The payment system as a state machine: every committed transaction, and every
    step of a worker between its transactions, is one step. A run is any finite
    sequence of steps, so it covers every interleaving of any number of callers,
    crashed workers (which take no further step) and repeated ones. */
module Machine {
  import opened Domain
  import opened Sums
  import opened Workers
  import opened Resolvers
  import opened Lifecycles
  import opened Controls
  import opened Apis

  datatype WorkerState = WorkerState(execution: Execution, outcome: Option<Outcome>, finished: bool)
  datatype World = World(db: Db, workers: seq<WorkerState>)

  datatype Step =
    | Create(body: Body, key: string, stale: bool, version: Option<nat>, now: int)
    | Approve(approval: nat, now: int)
    | Deny(approval: nat, now: int)
    | BirthAuthorized(account: string, agent: string, key: string, amount: Money, currency: Currency)
    | Begin(payment: nat)
    | Charge(worker: nat, answer: Outcome)
    | Finish(worker: nat, customer: nat, clearing: nat)
    | ReceiveEvent(signatureValid: bool)
    | Resolve(event: nat, operation: nat, outcome: Outcome, customer: nat, clearing: nat)
    | Capture(payment: nat, amount: Money, currency: Currency, customer: nat, clearing: nat, answer: Outcome)
    | Void(payment: nat, amount: Money, currency: Currency, answer: Outcome)
    | Refund(payment: nat, requested: Amount, currency: Currency, customer: nat, clearing: nat, answer: Outcome)

  /** A payment that starts out AUTHORIZED, as one imported from a card rail: no
      evidence, no reservation, no operations. The table constraints still hold. */
  function BirthSpec(db: Db, account: string, agent: string, key: string, amount: Money, currency: Currency): Attempt<nat> {
    if amount <= 0 then Raised(CheckViolation)
    else if Find(db.requests, OwnedBy(account, key)) >= 0 then Raised(UniqueViolation)
    else
      var request := Request(account, agent, amount, currency, None, None, key, None, None, None, None, None);
      Done(db.(requests := db.requests + [request],
               payments := db.payments + [Payment(|db.requests|, amount, currency, Authorized)]), |db.payments|)
  }

  function Apply(catalog: seq<PolicyVersion>, w: World, s: Step): World {
    var db := w.db;
    match s
    case Create(body, key, stale, version, now) =>
      w.(db := Commit(db, CreateSpec(db, catalog, body, key, stale, version, now)))
    case Approve(a, now) => w.(db := Commit(db, ApproveSpec(db, a, now)))
    case Deny(a, now) => w.(db := Commit(db, DenySpec(db, a, now)))
    case BirthAuthorized(account, agent, key, amount, currency) =>
      w.(db := Commit(db, BirthSpec(db, account, agent, key, amount, currency)))
    case Begin(p) =>
      var attempt := BeginSpec(db, p);
      if attempt.Raised? then w
      else World(attempt.db, w.workers + [WorkerState(attempt.value, None, false)])
    case Charge(k, answer) =>
      if k >= |w.workers| || w.workers[k].outcome.Some? then w
      else
        var outcome := ChargeOutcome(db, w.workers[k].execution.payment, answer);
        w.(workers := w.workers[k := w.workers[k].(outcome := Some(outcome))])
    case Finish(k, customer, clearing) =>
      if k >= |w.workers| || w.workers[k].outcome.None? || w.workers[k].finished then w
      else
        var state := w.workers[k];
        World(Commit(db, FinishSpec(db, state.execution, customer, clearing, state.outcome.value)),
              w.workers[k := state.(finished := true)])
    case ReceiveEvent(valid) => w.(db := db.(events := db.events + [ProviderEvent(valid, false)]))
    case Resolve(event, op, outcome, customer, clearing) =>
      w.(db := Commit(db, ResolveSpec(db, event, op, outcome, customer, clearing)))
    case Capture(p, amount, currency, customer, clearing, answer) =>
      w.(db := Commit(db, CaptureSpec(db, p, amount, currency, customer, clearing, answer)))
    case Void(p, amount, currency, answer) => w.(db := Commit(db, VoidSpec(db, p, amount, currency, answer)))
    case Refund(p, requested, currency, customer, clearing, answer) =>
      w.(db := Commit(db, RefundSpec(db, p, requested, currency, customer, clearing, answer)))
  }

  function Execute(catalog: seq<PolicyVersion>, w: World, steps: seq<Step>): World {
    if steps == [] then w
    else Apply(catalog, Execute(catalog, w, steps[..|steps| - 1]), steps[|steps| - 1])
  }

  /** Before the first step there are budgets, untouched, and nothing else. */
  predicate Init(w: World) {
    && w.workers == []
    && w.db == Db([], [], [], [], w.db.budgets, [], [], [], [], [], [])
    && forall b :: 0 <= b < |w.db.budgets| ==>
                     w.db.budgets[b].limit >= 0 && w.db.budgets[b].consumed == 0 && w.db.budgets[b].reserved == 0
  }
}
