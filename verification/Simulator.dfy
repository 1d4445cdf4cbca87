/** The provider simulator: reference/implementation/src/agent_pay/simulator.py. It keeps what the provider
    has decided apart from what its caller saw, and is stable in the sense of Stable. */
module Simulators {
  import opened Domain
  import opened Stable

  datatype SimulatedOperation = SimulatedOperation(amount: Money, currency: Currency, final: Outcome, caller: Outcome,
                                                   reference: int, settled: bool)
  datatype Simulation = Simulation(counter: int, operations: map<nat, SimulatedOperation>)

  function ChargeSpec(s: Simulation, p: nat, amount: Money, currency: Currency, outcome: Outcome): (Simulation, Outcome) {
    if p in s.operations then (s, s.operations[p].caller)
    else
      var final := if outcome == Unknown then Success else outcome;
      (Simulation(s.counter + 1,
                  s.operations[p := SimulatedOperation(amount, currency, final, outcome, s.counter + 1, false)]), outcome)
  }

  /** The event the provider signs about the payment. */
  function WebhookSpec(s: Simulation, p: nat): Result<Outcome> {
    if p !in s.operations then Err(NotFound)
    else Ok(if s.operations[p].final == Success then Success else Failure)
  }

  function SettlementSpec(s: Simulation, p: nat): (Simulation, Result<int>) {
    if p !in s.operations then (s, Err(NotFound))
    else if s.operations[p].final != Success then (s, Err(NotExecutable))
    else (s.(operations := s.operations[p := s.operations[p].(settled := true)]), Ok(s.operations[p].reference))
  }

  class ProviderSimulator {
    var counter: int
    var operations: map<nat, SimulatedOperation>

    function State(): Simulation
      reads this
    {
      Simulation(counter, operations)
    }

    constructor ()
      ensures State() == Simulation(0, map[])
    {
      counter, operations := 0, map[];
    }

    method Charge(p: nat, amount: Money, currency: Currency, outcome: Outcome) returns (answer: Outcome)
      modifies this
      ensures (State(), answer) == ChargeSpec(old(State()), p, amount, currency, outcome)
    {
      if p in operations {
        return operations[p].caller;
      }
      counter := counter + 1;
      var final := if outcome == Unknown then Success else outcome;
      operations := operations[p := SimulatedOperation(amount, currency, final, outcome, counter, false)];
      return outcome;
    }

    method Webhook(p: nat) returns (event: Result<Outcome>)
      ensures event == WebhookSpec(State(), p)
    {
      if p !in operations {
        return Err(NotFound);
      }
      return Ok(if operations[p].final == Success then Success else Failure);
    }

    method Settlement(p: nat) returns (reference: Result<int>)
      modifies this
      ensures (State(), reference) == SettlementSpec(old(State()), p)
    {
      if p !in operations {
        return Err(NotFound);
      }
      if operations[p].final != Success {
        return Err(NotExecutable);
      }
      operations := operations[p := operations[p].(settled := true)];
      return Ok(operations[p].reference);
    }
  }

  // --- any sequence of calls ---

  datatype Ask =
    | AskCharge(payment: nat, amount: Money, currency: Currency, outcome: Outcome)
    | AskWebhook(payment: nat)
    | AskSettlement(payment: nat)

  function Next(s: Simulation, a: Ask): Simulation {
    match a
    case AskCharge(p, amount, currency, outcome) => ChargeSpec(s, p, amount, currency, outcome).0
    case AskWebhook(_) => s
    case AskSettlement(p) => SettlementSpec(s, p).0
  }

  function Run(asks: seq<Ask>): Simulation {
    if asks == [] then Simulation(0, map[]) else Next(Run(asks[..|asks| - 1]), asks[|asks| - 1])
  }

  /** What the call tells about the payment's charge, if anything. */
  function Told(s: Simulation, a: Ask): Outcome {
    match a
    case AskCharge(p, amount, currency, outcome) => ChargeSpec(s, p, amount, currency, outcome).1
    case AskWebhook(p) => if WebhookSpec(s, p).Ok? then WebhookSpec(s, p).value else Unknown
    case AskSettlement(p) => if SettlementSpec(s, p).1.Ok? then Success else Unknown
  }

  predicate SameReference(s: Simulation, p: nat, q: nat) {
    p in s.operations && q in s.operations && s.operations[p].reference == s.operations[q].reference
  }

  ghost predicate Kept(s: Simulation) {
    && s.counter >= 0
    && (forall p :: p in s.operations ==>
          && s.operations[p].final != Unknown && Says(s.operations[p].final == Success, s.operations[p].caller)
          && 0 < s.operations[p].reference <= s.counter)
    && (forall p, q :: SameReference(s, p, q) ==> p == q)
  }

  lemma {:induction false} RunKept(asks: seq<Ask>)
    ensures Kept(Run(asks))
  {
    if asks != [] {
      RunKept(asks[..|asks| - 1]);
      var before, after := Run(asks[..|asks| - 1]), Run(asks);
      forall p, q | SameReference(after, p, q)
        ensures p == q
      {
        assert p in before.operations && q in before.operations ==> SameReference(before, p, q);
      }
    }
  }

  function Verdict(s: Simulation): nat -> bool {
    p => p in s.operations && s.operations[p].final == Success
  }

  /** What the provider has decided it never changes. */
  lemma {:induction false} DecisionsStay(asks: seq<Ask>, k: nat, p: nat)
    requires k <= |asks|
    ensures p in Run(asks[..k]).operations ==>
              && p in Run(asks).operations
              && Run(asks).operations[p].final == Run(asks[..k]).operations[p].final
              && Run(asks).operations[p].caller == Run(asks[..k]).operations[p].caller
    decreases |asks| - k
  {
    assert asks[..|asks|] == asks;
    if k < |asks| {
      assert asks[..k + 1][..k] == asks[..k];
      DecisionsStay(asks, k + 1, p);
    }
  }

  /** Whatever is asked in whatever order, no answer contradicts the verdict that stands at
      the end, though charges may be answered UNKNOWN any number of times; two payments
      never share a provider reference. */
  lemma SimulatorIsStable(asks: seq<Ask>, k: nat)
    requires k < |asks|
    ensures Says(Verdict(Run(asks))(asks[k].payment), Told(Run(asks[..k]), asks[k]))
    ensures forall p, q :: SameReference(Run(asks), p, q) ==> p == q
  {
    hide Run;
    RunKept(asks);
    RunKept(asks[..k + 1]);
    RunKept(asks[..k]);
    RunNext(asks, k);
    DecisionsStay(asks, k + 1, asks[k].payment);
  }

  lemma {:induction false} NeverCharged(asks: seq<Ask>, p: nat)
    requires forall k :: 0 <= k < |asks| ==> !(asks[k].AskCharge? && asks[k].payment == p)
    ensures p !in Run(asks).operations
  {
    if asks != [] {
      NeverCharged(asks[..|asks| - 1], p);
    }
  }

  /** The first charge of a payment settles everything the provider says about it later: a
      retry is answered as the first call was, and the event and the settlement tell the
      outcome the first call asked for, an unknown one having been a success. */
  lemma FirstChargeDecides(asks: seq<Ask>, k: nat, amount: Money, currency: Currency, outcome: Outcome)
    requires k < |asks| && asks[k].AskCharge?
    requires forall j :: 0 <= j < k ==> !(asks[j].AskCharge? && asks[j].payment == asks[k].payment)
    ensures var p, first, s := asks[k].payment, asks[k].outcome, Run(asks);
            && ChargeSpec(s, p, amount, currency, outcome) == (s, first)
            && WebhookSpec(s, p) == Ok(if first == Failure then Failure else Success)
            && (SettlementSpec(s, p).1.Ok? <==> first != Failure)
  {
    hide Run;
    NeverCharged(asks[..k], asks[k].payment);
    RunNext(asks, k);
    DecisionsStay(asks, k + 1, asks[k].payment);
  }

  lemma RunNext(asks: seq<Ask>, k: nat)
    requires k < |asks|
    ensures Run(asks[..k + 1]) == Next(Run(asks[..k]), asks[k])
  {
    assert asks[..k + 1][..k] == asks[..k];
  }
}
