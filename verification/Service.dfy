/** The in-memory service: reference/implementation/src/agent_pay/service.py, budget.py and provider.py.
    Its objects keep their state across exceptions; nothing is rolled back. */
module Services {
  import opened Domain
  import opened Sums
  import opened Policies

  // --- the budget ---

  datatype Funds = Funds(limit: Money, consumed: Money, reserved: Money)

  function Available(f: Funds): Money {
    f.limit - f.consumed - f.reserved
  }

  function ReserveSpec(f: Funds, amount: Money): (Funds, Result<bool>) {
    if amount <= 0 then (f, Err(InvalidAmount))
    else if amount > Available(f) then (f, Ok(false))
    else (f.(reserved := f.reserved + amount), Ok(true))
  }

  function ReleaseSpec(f: Funds, amount: Money): (Funds, Result<()>) {
    if amount > f.reserved then (f, Err(BudgetInsufficient)) else (f.(reserved := f.reserved - amount), Ok(()))
  }

  function ConsumeSpec(f: Funds, amount: Money): (Funds, Result<()>) {
    if amount > f.reserved then (f, Err(BudgetInsufficient))
    else (f.(reserved := f.reserved - amount, consumed := f.consumed + amount), Ok(()))
  }

  class SpendingBudget {
    var limit: Money
    var consumed: Money
    var reserved: Money

    function State(): Funds
      reads this
    {
      Funds(limit, consumed, reserved)
    }

    constructor (limit: Money)
      ensures State() == Funds(limit, 0, 0)
    {
      this.limit, consumed, reserved := limit, 0, 0;
    }

    method Reserve(amount: Money) returns (r: Result<bool>)
      modifies this
      ensures (State(), r) == ReserveSpec(old(State()), amount)
    {
      if amount <= 0 {
        return Err(InvalidAmount);
      }
      if amount > limit - consumed - reserved {
        return Ok(false);
      }
      reserved := reserved + amount;
      return Ok(true);
    }

    method Release(amount: Money) returns (r: Result<()>)
      modifies this
      ensures (State(), r) == ReleaseSpec(old(State()), amount)
    {
      if amount > reserved {
        return Err(BudgetInsufficient);
      }
      reserved := reserved - amount;
      return Ok(());
    }

    method Consume(amount: Money) returns (r: Result<()>)
      modifies this
      ensures (State(), r) == ConsumeSpec(old(State()), amount)
    {
      if amount > reserved {
        return Err(BudgetInsufficient);
      }
      reserved := reserved - amount;
      consumed := consumed + amount;
      return Ok(());
    }
  }

  // --- the provider ---

  datatype Rail = Rail(calls: int, results: map<string, Outcome>)

  /** One answer per key, given once and repeated. */
  function RunSpec(rail: Rail, key: string, answer: Outcome): (Rail, Outcome) {
    if key in rail.results then (rail, rail.results[key])
    else (Rail(rail.calls + 1, rail.results[key := answer]), answer)
  }

  class MockProvider {
    var outcome: Outcome  // the answer to the next new key
    var calls: int
    var results: map<string, Outcome>

    function State(): Rail
      reads this
    {
      Rail(calls, results)
    }

    constructor (outcome: Outcome)
      ensures State() == Rail(0, map[]) && this.outcome == outcome
    {
      this.outcome, calls, results := outcome, 0, map[];
    }

    method Run(key: string) returns (answer: Outcome)
      modifies this
      ensures (State(), answer) == RunSpec(old(State()), key, outcome)
      ensures outcome == old(outcome)
    {
      if key in results {
        return results[key];
      }
      calls := calls + 1;
      results := results[key := outcome];
      return outcome;
    }
  }

  /** What was reserved can always be settled, once: releasing it restores the budget, and
      consuming it takes the amount from what was available. */
  lemma ReservedIsSettled(f: Funds, amount: Money)
    requires f.reserved >= 0 && ReserveSpec(f, amount).1 == Ok(true)
    ensures var held := ReserveSpec(f, amount).0;
            && ReleaseSpec(held, amount) == (f, Ok(()))
            && ConsumeSpec(held, amount).1.Ok? && ConsumeSpec(held, amount).0 == f.(consumed := f.consumed + amount)
            && Available(held) == Available(ConsumeSpec(held, amount).0) == Available(f) - amount >= 0
  {
  }

  /** However often and with whatever answers a key is run, the provider repeats its first
      answer and counts one call for it. */
  lemma {:induction false} AnswersAreMemoised(rail: Rail, key: string, first: Outcome, others: seq<(string, Outcome)>,
                                              again: Outcome)
    ensures var (called, answer) := RunSpec(rail, key, first);
            var later := RunKeys(called, others);
            && RunSpec(later, key, again) == (later, answer)
            && later.calls - |later.results| == rail.calls - |rail.results|
  {
    if others != [] {
      AnswersAreMemoised(rail, key, first, others[..|others| - 1], again);
    }
  }

  function RunKeys(rail: Rail, runs: seq<(string, Outcome)>): Rail {
    if runs == [] then rail
    else RunSpec(RunKeys(rail, runs[..|runs| - 1]), runs[|runs| - 1].0, runs[|runs| - 1].1).0
  }

  // --- the service ---

  datatype PaymentIntent = PaymentIntent(id: string, agent: string, key: string, terms: Intent)
  datatype Fingerprint = Fingerprint(agent: string, domain: string, amount: Money, currency: Currency, id: string)
  datatype PaymentResult = PaymentResult(id: string, status: PaymentStatus, decision: Decision)
  datatype Memo = Memo(key: string, fingerprint: Fingerprint, result: PaymentResult)

  /** One rail for each provider the router may choose. The idempotency dictionary is kept in
      order of insertion. */
  datatype State = State(funds: Funds, rails: seq<Rail>, memory: seq<Memo>)

  function FingerprintOf(i: PaymentIntent): Fingerprint {
    Fingerprint(i.agent, i.terms.domain, i.terms.amount, i.terms.currency, i.id)
  }

  function MemoOf(key: string): Memo -> bool {
    (m: Memo) => m.key == key
  }

  function Remember(s: State, i: PaymentIntent, result: PaymentResult): State {
    s.(memory := s.memory + [Memo(i.key, FingerprintOf(i), result)])
  }

  function ChargeText(id: string): string {
    "payment:" + id + ":charge"
  }

  function ExecuteSpec(s: State, i: PaymentIntent, decision: Decision, chosen: nat, answer: Outcome):
    (State, Result<PaymentResult>)
    requires chosen < |s.rails|
  {
    var (rail, outcome) := RunSpec(s.rails[chosen], ChargeText(i.id), answer);
    var rails := s.rails[chosen := rail];
    match outcome
    case Success =>
      var (funds, done) := ConsumeSpec(s.funds, i.terms.amount);
      (State(funds, rails, s.memory), if done.Err? then Err(done.error) else Ok(PaymentResult(i.id, Succeeded, decision)))
    case Failure =>
      var (funds, done) := ReleaseSpec(s.funds, i.terms.amount);
      (State(funds, rails, s.memory), if done.Err? then Err(done.error) else Ok(PaymentResult(i.id, Failed, decision)))
    case Unknown => (s.(rails := rails), Ok(PaymentResult(i.id, UnknownOutcome, decision)))
  }

  /** `route` is the provider the router chose for the payment, if it found one. */
  function NewSpec(s: State, policy: Policy, i: PaymentIntent, route: Option<nat>, answer: Outcome):
    (State, Result<PaymentResult>)
  {
    var decision := Decide(policy, i.terms);
    if decision == Deny then (s, Ok(PaymentResult(i.id, Failed, decision)))
    else if decision == RequireApproval then (s, Ok(PaymentResult(i.id, ApprovalRequired, decision)))
    else if route.None? || route.value >= |s.rails| then (s, Err(NotFound))
    else
      var (funds, reserved) := ReserveSpec(s.funds, i.terms.amount);
      if reserved.Err? then (s, Err(reserved.error))
      else if !reserved.value then (s, Ok(PaymentResult(i.id, Failed, Decision.Deny)))
      else ExecuteSpec(s.(funds := funds), i, decision, route.value, answer)
  }

  function CreateSpec(s: State, policy: Policy, i: PaymentIntent, route: Option<nat>, answer: Outcome):
    (State, Result<PaymentResult>)
  {
    var k := Find(s.memory, MemoOf(i.key));
    if k >= 0 then
      (s, if s.memory[k].fingerprint != FingerprintOf(i) then Err(KeyReused) else Ok(s.memory[k].result))
    else
      var (after, r) := NewSpec(s, policy, i, route, answer);
      if r.Err? then (after, r) else (Remember(after, i, r.value), r)
  }

  class PaymentService {
    const policy: Policy
    const budget: SpendingBudget
    const providers: seq<MockProvider>
    var memory: seq<Memo>

    /** No provider stands in the list twice. */
    ghost predicate Valid() {
      forall j, k :: 0 <= j < k < |providers| ==> providers[j] != providers[k]
    }

    function Rails(): (rails: seq<Rail>)
      reads providers
      ensures |rails| == |providers| && forall k :: 0 <= k < |rails| ==> rails[k] == providers[k].State()
    {
      seq(|providers|, k requires 0 <= k < |providers| reads providers => providers[k].State())
    }

    function Current(): State
      reads this, budget, providers
    {
      State(budget.State(), Rails(), memory)
    }

    constructor (policy: Policy, budget: SpendingBudget, providers: seq<MockProvider>)
      ensures this.policy == policy && this.budget == budget && this.providers == providers && memory == []
    {
      this.policy, this.budget, this.providers, memory := policy, budget, providers, [];
    }

    /** What the chosen provider would answer to a new key. */
    function Answer(route: Option<nat>): Outcome
      reads providers
    {
      if route.Some? && route.value < |providers| then providers[route.value].outcome else Unknown
    }

    method CreatePayment(i: PaymentIntent, route: Option<nat>) returns (r: Result<PaymentResult>)
      requires Valid()
      modifies this, budget, providers
      ensures (Current(), r) == CreateSpec(old(Current()), policy, i, route, old(Answer(route)))
    {
      var k := Find(memory, MemoOf(i.key));
      if k >= 0 {
        if memory[k].fingerprint != FingerprintOf(i) {
          return Err(KeyReused);
        }
        return Ok(memory[k].result);
      }
      var trace := EvaluateWithTrace(policy, i.terms);
      var result: PaymentResult;
      if trace.decision == Deny {
        result := PaymentResult(i.id, Failed, trace.decision);
      } else if trace.decision == RequireApproval {
        result := PaymentResult(i.id, ApprovalRequired, trace.decision);
      } else {
        if route.None? || route.value >= |providers| {
          return Err(NotFound);
        }
        var reserved :- budget.Reserve(i.terms.amount);
        if !reserved {
          result := PaymentResult(i.id, Failed, Decision.Deny);
        } else {
          result :- Execute(i, trace.decision, route.value);
        }
      }
      memory := memory + [Memo(i.key, FingerprintOf(i), result)];
      return Ok(result);
    }

    method Execute(i: PaymentIntent, decision: Decision, chosen: nat) returns (r: Result<PaymentResult>)
      requires Valid() && chosen < |providers|
      modifies budget, providers
      ensures (Current(), r) == ExecuteSpec(old(Current()), i, decision, chosen, old(providers[chosen].outcome))
    {
      ghost var before := Rails();
      var outcome := providers[chosen].Run(ChargeText(i.id));
      assert Rails() == before[chosen := providers[chosen].State()];
      if outcome == Success {
        var _ :- budget.Consume(i.terms.amount);
        return Ok(PaymentResult(i.id, Succeeded, decision));
      }
      if outcome == Failure {
        var _ :- budget.Release(i.terms.amount);
        return Ok(PaymentResult(i.id, Failed, decision));
      }
      return Ok(PaymentResult(i.id, UnknownOutcome, decision));
    }
  }

  // --- any sequence of calls ---

  datatype Call = Call(intent: PaymentIntent, route: Option<nat>, answer: Outcome)

  function RunCalls(policy: Policy, s: State, calls: seq<Call>): State {
    if calls == [] then s
    else
      var last := calls[|calls| - 1];
      CreateSpec(RunCalls(policy, s, calls[..|calls| - 1]), policy, last.intent, last.route, last.answer).0
  }

  function In(status: PaymentStatus): Memo -> int {
    (m: Memo) => if m.result.status == status then m.fingerprint.amount else 0
  }

  ghost predicate Conserved(s: State) {
    && s.funds.consumed == Sum(s.memory, In(Succeeded))
    && s.funds.reserved == Sum(s.memory, In(UnknownOutcome))
    && 0 <= s.funds.consumed && 0 <= s.funds.reserved && s.funds.consumed + s.funds.reserved <= s.funds.limit
    && (forall k :: 0 <= k < |s.rails| ==> s.rails[k].calls == |s.rails[k].results|)
    && (forall i: nat, j: nat :: i < j < |s.memory| ==> s.memory[i].key != s.memory[j].key)
  }

  lemma CallConserves(policy: Policy, s: State, c: Call)
    requires Conserved(s)
    ensures Conserved(CreateSpec(s, policy, c.intent, c.route, c.answer).0)
  {
    hide Sum, Find, Decide;
    var (after, r) := CreateSpec(s, policy, c.intent, c.route, c.answer);
    if after.memory != s.memory {
      var memo := Memo(c.intent.key, FingerprintOf(c.intent), r.value);
      SumAppend(s.memory, memo, In(Succeeded));
      SumAppend(s.memory, memo, In(UnknownOutcome));
    }
  }

  lemma {:induction false} CallsConserve(policy: Policy, s: State, calls: seq<Call>)
    requires Conserved(s)
    ensures var after := RunCalls(policy, s, calls);
            Conserved(after) && after.funds.limit == s.funds.limit && |after.rails| == |s.rails|
  {
    hide Conserved, CreateSpec;
    if calls != [] {
      CallsConserve(policy, s, calls[..|calls| - 1]);
      CallConserves(policy, RunCalls(policy, s, calls[..|calls| - 1]), calls[|calls| - 1]);
      CallKeepsLimit(policy, RunCalls(policy, s, calls[..|calls| - 1]), calls[|calls| - 1]);
    }
  }

  /** After any sequence of calls (replays, key conflicts, routing failures, zero amounts,
      denials), what is consumed is the sum of the remembered successes and what is
      reserved the sum of the remembered unknowns, together within the limit; and
      each provider was called once per key it remembers. */
  lemma FundsConserved(policy: Policy, limit: Money, providers: nat, calls: seq<Call>)
    requires limit >= 0
    ensures var s := RunCalls(policy, State(Funds(limit, 0, 0), seq(providers, _ => Rail(0, map[])), []), calls);
            Conserved(s) && s.funds.limit == limit && |s.rails| == providers
  {
    EmptySums();
    CallsConserve(policy, State(Funds(limit, 0, 0), seq(providers, _ => Rail(0, map[])), []), calls);
  }

  lemma EmptySums()
    ensures Sum([], In(Succeeded)) == 0 && Sum([], In(UnknownOutcome)) == 0
  {
  }

  lemma CallKeepsLimit(policy: Policy, s: State, c: Call)
    ensures CreateSpec(s, policy, c.intent, c.route, c.answer).0.funds.limit == s.funds.limit
    ensures |CreateSpec(s, policy, c.intent, c.route, c.answer).0.rails| == |s.rails|
    ensures s.memory <= CreateSpec(s, policy, c.intent, c.route, c.answer).0.memory
  {
    hide Sum, Find, Decide;
  }

  /** A conserved budget never refuses to settle what was reserved for it, so a call fails
      only on a reused key, a missing route or an amount that is not positive, and such a
      call changes nothing. */
  lemma FailedCallsChangeNothing(policy: Policy, s: State, c: Call)
    requires Conserved(s)
    ensures var (after, r) := CreateSpec(s, policy, c.intent, c.route, c.answer);
            && (r.Err? ==> after == s && (r.error == KeyReused || r.error == NotFound || r.error == InvalidAmount))
            && (r.Err? && r.error == InvalidAmount ==> c.intent.terms.amount <= 0)
            && (r.Err? && r.error == NotFound ==> c.route.None? || c.route.value >= |s.rails|)
  {
    hide Sum, Find, Decide;
  }

  /** Agent, merchant, amount, currency and intent id; the other fields may differ. */
  predicate SameTerms(i: PaymentIntent, j: PaymentIntent) {
    && i.agent == j.agent && i.id == j.id
    && i.terms.domain == j.terms.domain && i.terms.amount == j.terms.amount && i.terms.currency == j.terms.currency
  }

  /** The charge's answer: what the rail remembers for the payment's key, or else a new one. */
  function Charged(rail: Rail, id: string, answer: Outcome): Outcome {
    var key := "payment:" + id + ":charge";
    if key in rail.results then rail.results[key] else answer
  }

  /** All that a call with a new key comes to, in a conserved state: the policy turns it down or
      asks for approval, no provider is found, the amount is not positive, the budget is short,
      or the charge decides. A success is spent, a failure costs nothing, and an unknown
      outcome stays held. Every answer but an error is remembered. */
  lemma NewCallInFull(policy: Policy, s: State, c: Call)
    requires Conserved(s) && forall k :: 0 <= k < |s.memory| ==> s.memory[k].key != c.intent.key
    ensures var (after, r) := CreateSpec(s, policy, c.intent, c.route, c.answer);
            var amount, decision := c.intent.terms.amount, Decide(policy, c.intent.terms);
            var id := c.intent.id;
            && (r.Ok? ==> && r.value.id == id
                          && |after.memory| == |s.memory| + 1 && after.memory[..|s.memory|] == s.memory
                          && after.memory[|s.memory|].key == c.intent.key && after.memory[|s.memory|].result == r.value)
            && if decision == Deny then r == Ok(PaymentResult(id, Failed, Deny)) && after == s.(memory := after.memory)
               else if decision == RequireApproval then
                 r == Ok(PaymentResult(id, ApprovalRequired, RequireApproval)) && after == s.(memory := after.memory)
               else if c.route.None? || c.route.value >= |s.rails| then r == Err(NotFound) && after == s
               else if amount <= 0 then r == Err(InvalidAmount) && after == s
               else if s.funds.consumed + s.funds.reserved + amount > s.funds.limit then
                 r == Ok(PaymentResult(id, Failed, Deny)) && after == s.(memory := after.memory)
               else
                 && after.rails == s.rails[c.route.value := after.rails[c.route.value]]
                 && match Charged(s.rails[c.route.value], id, c.answer)
                    case Success =>
                      && r == Ok(PaymentResult(id, Succeeded, decision))
                      && after.funds == s.funds.(consumed := s.funds.consumed + amount)
                    case Failure => r == Ok(PaymentResult(id, Failed, decision)) && after.funds == s.funds
                    case Unknown =>
                      && r == Ok(PaymentResult(id, UnknownOutcome, decision))
                      && after.funds == s.funds.(reserved := s.funds.reserved + amount)
  {
    hide Sum, Decide;
    var k := Find(s.memory, MemoOf(c.intent.key));
    assert k < 0;
    assert Decide(policy, c.intent.terms).AllowAuto? || Decide(policy, c.intent.terms).AllowNotify?
           || Decide(policy, c.intent.terms).RequireApproval? || Decide(policy, c.intent.terms).Deny?;
  }

  /** Once answered, a key gives the same answer for the same intent and a refusal for any
      other, whatever calls come between, and neither answer changes anything. */
  lemma AnswersStay(policy: Policy, s: State, first: Call, between: seq<Call>, again: Call)
    requires Conserved(s) && again.intent.key == first.intent.key
    requires CreateSpec(s, policy, first.intent, first.route, first.answer).1.Ok?
    ensures var (answered, r) := CreateSpec(s, policy, first.intent, first.route, first.answer);
            var later := RunCalls(policy, answered, between);
            CreateSpec(later, policy, again.intent, again.route, again.answer)
            == (later, if SameTerms(again.intent, first.intent) then r else Err(KeyReused))
  {
    hide Sum, RunCalls, CreateSpec, Conserved;
    var (answered, r) := CreateSpec(s, policy, first.intent, first.route, first.answer);
    CallConserves(policy, s, first);
    CallsConserve(policy, answered, between);
    CallsRemember(policy, answered, between);
    var k := AnswerIsRemembered(policy, s, first);
    RememberedAnswers(RunCalls(policy, answered, between), policy, again, k);
  }

  lemma AnswerIsRemembered(policy: Policy, s: State, c: Call) returns (k: nat)
    requires CreateSpec(s, policy, c.intent, c.route, c.answer).1.Ok?
    ensures var (after, r) := CreateSpec(s, policy, c.intent, c.route, c.answer);
            k < |after.memory| && after.memory[k] == Memo(c.intent.key, FingerprintOf(c.intent), r.value)
  {
    hide Decide;
    var found := Find(s.memory, MemoOf(c.intent.key));
    k := if found < 0 then |s.memory| else found;
  }

  lemma RememberedAnswers(s: State, policy: Policy, c: Call, k: nat)
    requires Conserved(s) && k < |s.memory| && s.memory[k].key == c.intent.key
    ensures CreateSpec(s, policy, c.intent, c.route, c.answer)
            == (s, if FingerprintOf(c.intent) == s.memory[k].fingerprint then Ok(s.memory[k].result) else Err(KeyReused))
  {
    hide Sum, Decide;
  }

  lemma {:induction false} CallsRemember(policy: Policy, s: State, calls: seq<Call>)
    ensures s.memory <= RunCalls(policy, s, calls).memory
  {
    hide CreateSpec;
    if calls != [] {
      CallsRemember(policy, s, calls[..|calls| - 1]);
      CallKeepsLimit(policy, RunCalls(policy, s, calls[..|calls| - 1]), calls[|calls| - 1]);
    }
  }
}
