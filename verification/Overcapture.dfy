/** A run in which one worker, one charge and honest answers still file two captures: a
    refund of unknown outcome reopens the payment, and the charge's own event, arriving
    late, files its capture under the event's key. The payment can then be refunded for more
    than its amount. */
module Overcapture {
  import opened Domain
  import opened Sums
  import opened Repositories
  import opened Ledger
  import opened Orchestrators
  import opened Workers
  import opened Resolvers
  import opened Lifecycles
  import opened Policies
  import opened Controls
  import opened Apis
  import opened Machine
  import opened Safety
  import opened Rail
  import opened Stable

  const ANY := Filter(None, {})
  const CATALOG := [PolicyVersion(0, "acct", Policy(1000000, None, None, ANY, ANY, ANY, ANY, ANY, Schedule(None, None, None)))]
  const CLAIMS := Claims("ev", "issuer", "1", "agent", "acct", {"PAYMENT"}, Some(100000), Some("USD"), Some(1))
  const BODY := Body("agent", "acct", None, None, None, None, Amount(10, 0), "USD", "tea",
                     Some(EvidenceDocument("ev", "issuer", None, Some(Some(CLAIMS)))))
  const FUNDS := Budget("acct", "USD", true, None, 1000000, 0, 0)
  const EMPTY := Db([], [], [], [], [FUNDS], [], [], [], [], [], [])

  const STEPS := [
    Create(BODY, "key", false, Some(0), 0),
    Begin(0),
    Step.Charge(0, Success),
    Finish(0, 0, 1),
    Refund(0, Amount(5, 0), "USD", 0, 1, Unknown),
    ReceiveEvent(true),
    Resolve(0, 0, Success, 0, 1)]

  const REQUEST := Request("acct", "agent", 100000, "USD", None, None, "key", Some(BODY), Some(0), Some(0), Some(0), Some(0))
  const CREATED := Db([REQUEST], [Payment(0, 100000, "USD", Processing)], [], [Evidence("acct", "agent", CLAIMS, true, Some(0))],
                      [FUNDS.(reserved := 100000)], [Reservation(0, 0, 100000, Reserved)], [], [], [],
                      [OutboxRow(0, PaymentStarted(0))], [])

  const READY := Db([REQUEST.(reservation := None)], [Payment(0, 100000, "USD", PolicyCheck)], [], CREATED.evidence, [FUNDS],
                    [], [], [], [], [], [])

  lemma Cleared()
    ensures CheckEvidence(BODY, 0) == Ok(CLAIMS)
    ensures Decide(CATALOG[0].rules, IntentOf(REQUEST)) == AllowAuto
  {
  }

  lemma Prepares()
    ensures PrepareSpec(READY, 0, 0, 0, 100000, "USD") == Done(CREATED, 0)
  {
  }

  lemma Creates()
    ensures Apply(CATALOG, World(EMPTY, []), STEPS[0]) == World(CREATED, [])
  {
    hide Decide, CheckEvidence, PrepareSpec;
    Cleared();
    Prepares();
    var inserted := InsertPayment(RecordEvidence(EMPTY, BODY, CLAIMS), BODY, "key", 0);
    var judged := BindPolicy(inserted, 0, 0);
    SelectedBudgetIsTheOnlyOne(judged, "acct", "USD", 0, 0);
    assert SelectBudget(judged, "acct", None, "USD", 0) == Some(0);
    assert BindBudget(judged, 0, 0) == READY;
  }

  const CHARGE := Operation(0, ChargeOp, ChargeKey(0), OpPending)
  const BEGUN := CREATED.(operations := [CHARGE])
  const CHARGER := WorkerState(Execution(0, 0, 100000, "USD", 0), None, false)

  const BY_WORKER := Transaction(0, CaptureType, TxPosted, 100000, "USD", TxCapture(0))
  const SETTLED := BEGUN.(
    payments := [Payment(0, 100000, "USD", Succeeded)],
    budgets := [FUNDS.(consumed := 100000)], reservations := [Reservation(0, 0, 100000, Consumed)],
    operations := [CHARGE.(status := OpSucceeded)], transactions := [BY_WORKER],
    journals := [Journal(JCapture(0), "USD", Transfer(0, 1, 100000, "USD"))],
    outbox := BEGUN.outbox + [OutboxRow(0, PaymentSucceeded(100000, "USD"))])

  const ASKED := Transaction(0, RefundType, TxPending, 50000, "USD", TxRefund(0, Amount(5, 0), "USD"))
  const REOPENED := SETTLED.(
    payments := [Payment(0, 100000, "USD", UnknownOutcome)],
    operations := SETTLED.operations + [Operation(0, RefundOp, RefundKey(0, Amount(5, 0), "USD"), OpPending)],
    transactions := [BY_WORKER, ASKED])

  const BY_EVENT := Transaction(0, CaptureType, TxPosted, 100000, "USD", TxCaptureByEvent(0))
  const NOTIFIED := REOPENED.(events := [ProviderEvent(true, false)])
  const RECAPTURED := NOTIFIED.(
    payments := [Payment(0, 100000, "USD", Succeeded)],
    transactions := [BY_WORKER, ASKED, BY_EVENT],
    events := [ProviderEvent(true, true)])

  lemma Charges()
    ensures Apply(CATALOG, World(CREATED, []), STEPS[1]) == World(BEGUN, [CHARGER])
    ensures Apply(CATALOG, World(BEGUN, [CHARGER]), STEPS[2]) == World(BEGUN, [CHARGER.(outcome := Some(Success))])
  {
    assert RegisterOperation(CREATED, 0, ChargeOp, ChargeKey(0)) == Done(BEGUN, 0);
    assert FindLast(BEGUN.operations, IsChargeOf(0)) == 0;
  }

  lemma Settles()
    ensures Apply(CATALOG, World(BEGUN, [CHARGER.(outcome := Some(Success))]), STEPS[3])
            == World(SETTLED, [CHARGER.(outcome := Some(Success), finished := true)])
  {
    hide Sum;
    TransferTotals(0, 1, 100000, "USD");
    assert MarkAll(BEGUN.operations, 0, OpSucceeded) == SETTLED.operations;
  }

  lemma RefundOpens()
    ensures OpenRefund(SETTLED, 0, Amount(5, 0), "USD")
            == Done(REOPENED.(payments := [Payment(0, 100000, "USD", RefundProcessing)]), 1)
  {
    var asked := SetStatus(SETTLED, 0, RefundProcessing);
    var registered := asked.(operations := REOPENED.operations);
    assert RegisterOperation(asked, 0, RefundOp, RefundKey(0, Amount(5, 0), "USD")) == Done(registered, 1);
    assert CreateTransaction(registered, ASKED).0.transactions == REOPENED.transactions;
  }

  lemma CapturedOnce()
    ensures Posted(SETTLED, 0, CaptureType) == 100000 && Posted(SETTLED, 0, RefundType) == 0
  {
    assert [BY_WORKER] == [] + [BY_WORKER];
    SumAppend([], BY_WORKER, PostedOf(0, CaptureType));
    SumAppend([], BY_WORKER, PostedOf(0, RefundType));
  }

  lemma Reopens(workers: seq<WorkerState>)
    ensures Apply(CATALOG, World(SETTLED, workers), STEPS[4]) == World(REOPENED, workers)
  {
    hide Sum, OpenRefund, PostRefund, Posted;
    CapturedOnce();
    RefundOpens();
    assert Find(SETTLED.transactions, TxHasKey(TxRefund(0, Amount(5, 0), "USD"))) == -1;
  }

  lemma Notifies(workers: seq<WorkerState>)
    ensures Apply(CATALOG, World(REOPENED, workers), STEPS[5]) == World(NOTIFIED, workers)
  {
    hide ResolveSpec, RefundSpec, FinishSpec, BeginSpec, CreateSpec;
  }

  lemma Resolves(workers: seq<WorkerState>)
    ensures Apply(CATALOG, World(NOTIFIED, workers), STEPS[6]) == World(RECAPTURED, workers)
  {
    hide Sum, CaptureByEvent, RefundSpec, FinishSpec, BeginSpec, CreateSpec;
    EventCaptures();
    assert SetOpStatus(NOTIFIED, 0, OpSucceeded) == NOTIFIED;
  }

  lemma EventCaptures()
    ensures CaptureByEvent(NOTIFIED, 0, Some(0), 100000, "USD", 0, 1)
            == Done(NOTIFIED.(transactions := RECAPTURED.transactions), ())
  {
    hide Sum;
    TransferTotals(0, 1, 100000, "USD");
    var created := NOTIFIED.(transactions := RECAPTURED.transactions);
    assert NOTIFIED.transactions + [BY_EVENT] == created.transactions;
    assert Find(NOTIFIED.transactions, TxHasKey(TxCaptureByEvent(0))) == -1;
    assert CreateTransaction(NOTIFIED, BY_EVENT) == (created, 2);
    assert PostJournal(created, JCapture(0), "USD", Transfer(0, 1, 100000, "USD")) == Done(created, 0);
    assert SetTxStatus(created, 2, TxPosted) == created;
  }

  lemma CapturedTwice()
    ensures Posted(RECAPTURED, 0, CaptureType) == 200000 && Posted(RECAPTURED, 0, RefundType) == 0
  {
    var txs := RECAPTURED.transactions;
    assert txs == [] + [BY_WORKER] + [ASKED] + [BY_EVENT];
    forall kind: TxType
      ensures Sum(txs, PostedOf(0, kind)) == if kind == CaptureType then 200000 else 0
    {
      var f := PostedOf(0, kind);
      assert Sum([], f) == 0;
      SumAppend([], BY_WORKER, f);
      SumAppend([] + [BY_WORKER], ASKED, f);
      SumAppend([] + [BY_WORKER] + [ASKED], BY_EVENT, f);
    }
  }

  const FINISHED := [CHARGER.(outcome := Some(Success), finished := true)]

  /** The run up to the event's arrival: captured once, with a refund of unknown outcome. */
  lemma RunNotifies()
    ensures Init(World(EMPTY, []))
    ensures StableRun(p => true, CATALOG, World(EMPTY, []), STEPS[..6])
    ensures Execute(CATALOG, World(EMPTY, []), STEPS[..6]) == World(NOTIFIED, FINISHED)
  {
    hide Apply, Posted;
    var start := World(EMPTY, []);
    Creates();
    Charges();
    Settles();
    Reopens(FINISHED);
    Notifies(FINISHED);
    ExecuteNext(start, 0, World(CREATED, []));
    ExecuteNext(start, 1, World(BEGUN, [CHARGER]));
    ExecuteNext(start, 2, World(BEGUN, [CHARGER.(outcome := Some(Success))]));
    ExecuteNext(start, 3, World(SETTLED, FINISHED));
    ExecuteNext(start, 4, World(REOPENED, FINISHED));
    ExecuteNext(start, 5, World(NOTIFIED, FINISHED));
  }

  lemma RunRecapturesIt()
    ensures StableRun(p => true, CATALOG, World(EMPTY, []), STEPS)
    ensures Execute(CATALOG, World(EMPTY, []), STEPS) == World(RECAPTURED, FINISHED)
  {
    hide Apply, Posted, Execute, StableRun;
    RunNotifies();
    Resolves(FINISHED);
    ExecuteNext(World(EMPTY, []), 6, World(RECAPTURED, FINISHED));
    assert STEPS[..|STEPS|] == STEPS;
  }

  /** The run starts one worker, the provider never contradicts itself, and the captures
      come to twice the payment's amount. */
  lemma LateEventOvercaptures()
    ensures Init(World(EMPTY, []))
    ensures StableRun(p => true, CATALOG, World(EMPTY, []), STEPS)
    ensures forall i, j :: 0 <= i < |STEPS| && 0 <= j < |STEPS| && STEPS[i].Begin? && STEPS[j].Begin? ==> i == j
    ensures var db := Execute(CATALOG, World(EMPTY, []), STEPS).db;
            |db.payments| == 1 && db.payments[0].amount == 100000 && Posted(db, 0, CaptureType) == 200000
  {
    hide Apply, Posted, Execute, StableRun;
    RunRecapturesIt();
    CapturedTwice();
  }

  const GENEROUS := Refund(0, Amount(15, 0), "USD", 0, 1, Success)

  lemma GenerousGoesThrough()
    ensures Overrefunds(RECAPTURED, GENEROUS, 0)
  {
    hide Sum, Posted;
    CapturedTwice();
    var i := Find(RECAPTURED.transactions, TxHasKey(TxRefund(0, Amount(15, 0), "USD")));
    assert i == -1;
  }

  /** One more refund then gives back more than the payment's amount, and more minor units
      than the provider charged. */
  lemma LateEventOverrefunds()
    ensures StableRun(p => true, CATALOG, World(EMPTY, []), STEPS + [GENEROUS])
    ensures var db := Execute(CATALOG, World(EMPTY, []), STEPS + [GENEROUS]).db;
            && |db.payments| > 0
            && Posted(db, 0, RefundType) > db.payments[0].amount
            && RefundedMinor(db, 0) > ChargeMinor(db.payments[0].amount)
  {
    hide Apply, Posted, Overrefunds, RunRecaptures, Sum;
    var start, run := World(EMPTY, []), STEPS + [GENEROUS];
    assert run[..|run| - 1] == STEPS && run[|run| - 1] == GENEROUS;
    RunRecapturesIt();
    GenerousGoesThrough();
    Reached(CATALOG, start, STEPS);
    StepOverrefunds(CATALOG, World(RECAPTURED, FINISHED), GENEROUS, 0);
    RefundedWithinCharged(CATALOG, start, run, 0);
  }

  /** One more step of the run. */
  lemma ExecuteNext(start: World, i: nat, after: World)
    requires i < |STEPS| && StableRun(p => true, CATALOG, start, STEPS[..i])
    requires Apply(CATALOG, Execute(CATALOG, start, STEPS[..i]), STEPS[i]) == after
    ensures Execute(CATALOG, start, STEPS[..i + 1]) == after
    ensures StableRun(p => true, CATALOG, start, STEPS[..i + 1])
  {
    hide Apply;
    var run := STEPS[..i + 1];
    assert run[..|run| - 1] == STEPS[..i] && run[|run| - 1] == STEPS[i];
  }
}
