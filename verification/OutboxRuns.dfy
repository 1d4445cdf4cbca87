/** The outbox under any number of consumers: crashes (a consumer that stops taking
    steps), stale-lease recovery, and completions by a holder whose lease has expired. */
module OutboxRuns {
  import opened Domain
  import opened Sums
  import opened Outboxes

  /** A consumer publishes or fails an event it has claimed at some time before. */
  datatype Step =
    | Append(topic: Topic, hasAccount: bool, availableAt: int)
    | Claim(limit: nat, now: int, locked: set<nat>)
    | Publish(event: nat)
    | Fail(event: nat, delay: int, now: int)
    | Recover(lease: int, max: int, now: int)

  predicate WasClaimed(o: Outbox, i: nat) {
    i < |o.events| && o.events[i].attempts > 0
  }

  function Apply(o: Outbox, s: Step): Outbox {
    match s
    case Append(topic, hasAccount, availableAt) =>
      o.(events := o.events + [Event(topic, hasAccount, Pending, 0, availableAt, None)])
    case Claim(limit, now, locked) => o.(events := ClaimSpec(o.events, limit, now, locked))
    case Publish(i) => if WasClaimed(o, i) && Publishable(o.events[i]) then PublishSpec(o, i) else o
    case Fail(i, delay, now) =>
      if WasClaimed(o, i) && delay >= 0 then o.(events := o.events[i := FailedFrom(o.events[i], delay, now)]) else o
    case Recover(lease, max, now) =>
      if lease < 1 || max < 1 then o else o.(events := RecoverSpec(o.events, lease, max, now))
  }

  function Execute(o: Outbox, steps: seq<Step>): Outbox {
    if steps == [] then o else Apply(Execute(o, steps[..|steps| - 1]), steps[|steps| - 1])
  }

  const EMPTY := Outbox([], [], [])

  function Of(i: nat): nat -> int {
    (id: nat) => if id == i then 1 else 0
  }

  predicate Final(stage: Stage) {
    stage == Published || stage == DeadLetter
  }

  /** How often an event's effect of one kind is recorded, given what it may record. */
  predicate Effects(count: int, due: bool, e: Event) {
    && 0 <= count <= 1
    && (count > 0 ==> due && e.attempts > 0)
    && (due && e.stage == Published ==> count == 1)
  }

  ghost predicate Kept(o: Outbox) {
    && (forall i: nat :: i < |o.events| ==>
          && (o.events[i].stage == InFlight ==> o.events[i].attempts > 0 && o.events[i].leasedAt.Some?)
          && (o.events[i].stage == Published ==> o.events[i].attempts > 0)
          && Effects(Sum(o.audits, Of(i)), o.events[i].topic == Audited, o.events[i])
          && Effects(Sum(o.notices, Of(i)), o.events[i].topic == Notified, o.events[i]))
    && (forall i: nat :: i >= |o.events| ==> Sum(o.audits, Of(i)) == 0 && Sum(o.notices, Of(i)) == 0)
  }

  lemma InsertCounts(ids: seq<nat>, i: nat, j: nat)
    ensures var n := Sum(ids, Of(j));
            n >= 0 && Sum(InsertOnce(ids, i), Of(j)) == if i == j && n == 0 then 1 else n
  {
    SumNonNegative(ids, Of(j));
    if i in ids {
      var k: nat :| k < |ids| && ids[k] == i;
      SumAtLeast(ids, Of(i), k);
    } else {
      SumAppend(ids, i, Of(j));
      SumZero(ids, Of(i));
    }
  }

  lemma PublishKeeps(o: Outbox, i: nat)
    requires Kept(o) && WasClaimed(o, i)
    ensures Kept(PublishSpec(o, i))
  {
    hide Sum, InsertOnce;
    var after := PublishSpec(o, i);
    forall j: nat
      ensures Sum(after.audits, Of(j)) == (if i == j && o.events[i].topic == Audited then 1 else Sum(o.audits, Of(j)))
      ensures Sum(after.notices, Of(j)) == (if i == j && o.events[i].topic == Notified then 1 else Sum(o.notices, Of(j)))
    {
      InsertCounts(o.audits, i, j);
      InsertCounts(o.notices, i, j);
    }
  }

  lemma StepKeeps(o: Outbox, s: Step)
    requires Kept(o)
    ensures Kept(Apply(o, s))
  {
    hide Sum, PublishSpec, Batch;
    if s.Publish? && WasClaimed(o, s.event) {
      PublishKeeps(o, s.event);
    }
  }

  lemma {:induction false} RunKeeps(steps: seq<Step>)
    ensures Kept(Execute(EMPTY, steps))
  {
    hide Apply;
    if steps != [] {
      RunKeeps(steps[..|steps| - 1]);
      StepKeeps(Execute(EMPTY, steps[..|steps| - 1]), steps[|steps| - 1]);
    }
  }

  /** Over every run an event has at most one audit row and one notification, and a
      PUBLISHED one has exactly the one its type asks for. */
  lemma EffectsHappenOnce(steps: seq<Step>, i: nat)
    ensures var o := Execute(EMPTY, steps);
            && 0 <= Sum(o.audits, Of(i)) <= 1 && 0 <= Sum(o.notices, Of(i)) <= 1
            && (i < |o.events| && o.events[i].stage == Published ==>
                  && Sum(o.audits, Of(i)) == (if o.events[i].topic == Audited then 1 else 0)
                  && Sum(o.notices, Of(i)) == (if o.events[i].topic == Notified then 1 else 0))
  {
    hide Sum;
    RunKeeps(steps);
  }

  lemma StepFrame(o: Outbox, s: Step, i: nat)
    requires i < |o.events|
    ensures var after := Apply(o, s);
            && |after.events| >= |o.events| && after.events[i].topic == o.events[i].topic
            && after.events[i].attempts >= o.events[i].attempts
            && (Final(o.events[i].stage) ==> after.events[i] == o.events[i])
  {
    hide Batch;
    if s.Claim? {
      BatchIsPending(o.events, s.limit, s.now, s.locked, i);
    }
  }

  lemma BatchIsPending(events: seq<Event>, limit: nat, now: int, locked: set<nat>, i: nat)
    requires i < |events|
    ensures i in Batch(events, limit, now, locked) ==> events[i].stage == Pending
  {
    BatchIsFirst(events, limit, now, locked);
  }

  /** No event disappears, and PUBLISHED and DEAD_LETTER are final. */
  lemma {:induction false} FinalIsFinal(o: Outbox, steps: seq<Step>, i: nat)
    requires i < |o.events|
    ensures var after := Execute(o, steps);
            && i < |after.events| && after.events[i].topic == o.events[i].topic
            && (Final(o.events[i].stage) ==> after.events[i] == o.events[i])
  {
    hide Apply;
    if steps != [] {
      FinalIsFinal(o, steps[..|steps| - 1], i);
      StepFrame(Execute(o, steps[..|steps| - 1]), steps[|steps| - 1], i);
    }
  }

  // --- the lease's retry bound ---

  /** The step claims the event. */
  predicate Claims(o: Outbox, s: Step, i: nat) {
    s.Claim? && i < |o.events| && i in Batch(o.events, s.limit, s.now, s.locked)
  }

  /** The step takes the event from an expired lease back to PENDING. */
  predicate Returns(o: Outbox, s: Step, i: nat) {
    s.Recover? && i < |o.events| && o.events[i].stage == InFlight && Apply(o, s).events[i].stage == Pending
  }

  function ClaimsIn(steps: seq<Step>, i: nat): int {
    if steps == [] then 0
    else
      var before := steps[..|steps| - 1];
      ClaimsIn(before, i) + if Claims(Execute(EMPTY, before), steps[|steps| - 1], i) then 1 else 0
  }

  function ReturnsIn(steps: seq<Step>, i: nat): int {
    if steps == [] then 0
    else
      var before := steps[..|steps| - 1];
      ReturnsIn(before, i) + if Returns(Execute(EMPTY, before), steps[|steps| - 1], i) then 1 else 0
  }

  predicate FixedMax(steps: seq<Step>, m: int) {
    forall k :: 0 <= k < |steps| && steps[k].Recover? ==> steps[k].max == m
  }

  /** Every consumer that claims the event crashes before it can publish it or fail it. */
  predicate AlwaysCrashes(steps: seq<Step>, i: nat) {
    forall k :: 0 <= k < |steps| ==> steps[k] != Publish(i) && !(steps[k].Fail? && steps[k].event == i)
  }

  function Attempts(o: Outbox, i: nat): nat {
    if i < |o.events| then o.events[i].attempts else 0
  }

  /** The attempts column counts the event's claims. */
  lemma {:induction false} AttemptsAreClaims(steps: seq<Step>, i: nat)
    ensures Attempts(Execute(EMPTY, steps), i) == ClaimsIn(steps, i)
  {
    hide Batch;
    if steps != [] {
      AttemptsAreClaims(steps[..|steps| - 1], i);
    }
  }

  /** Each return to PENDING happened at an attempts value of its own, below the maximum. */
  predicate Bounded(o: Outbox, i: nat, count: int, m: int) {
    && 0 <= count <= Attempts(o, i) && (count > 0 ==> count <= m - 1)
    && (i < |o.events| && o.events[i].stage == InFlight ==> count <= Attempts(o, i) - 1)
  }

  lemma StepBounded(o: Outbox, s: Step, i: nat, count: int, m: int)
    requires Kept(o) && Bounded(o, i, count, m) && (s.Recover? ==> s.max == m)
    ensures Bounded(Apply(o, s), i, count + (if Returns(o, s, i) then 1 else 0), m)
  {
    hide Batch, Sum;
  }

  /** With a fixed maximum m, an event goes from an expired lease back to PENDING at most
      m - 1 times, however its claims end. */
  lemma {:induction false} AtMostMaxReturns(steps: seq<Step>, i: nat, m: int)
    requires FixedMax(steps, m) && m >= 1
    ensures ReturnsIn(steps, i) <= m - 1
    ensures Bounded(Execute(EMPTY, steps), i, ReturnsIn(steps, i), m)
  {
    hide Apply, Returns, Kept;
    if steps != [] {
      var before := steps[..|steps| - 1];
      AtMostMaxReturns(before, i, m);
      RunKeeps(before);
      StepBounded(Execute(EMPTY, before), steps[|steps| - 1], i, ReturnsIn(before, i), m);
    }
  }

  /** Where an event stands that only ever crashed. */
  predicate CrashState(e: Event, m: int) {
    match e.stage
    case Pending => e.attempts <= m - 1
    case InFlight => 1 <= e.attempts <= m
    case DeadLetter => e.attempts == m
    case Published => false
  }

  lemma StepCrashes(o: Outbox, s: Step, i: nat, m: int)
    requires Kept(o) && m >= 1 && (i < |o.events| ==> CrashState(o.events[i], m))
    requires s != Publish(i) && !(s.Fail? && s.event == i) && (s.Recover? ==> s.max == m)
    ensures var after := Apply(o, s); i < |after.events| ==> CrashState(after.events[i], m)
  {
    hide Batch, Sum;
    if s.Claim? && i < |o.events| {
      BatchIsPending(o.events, s.limit, s.now, s.locked, i);
    }
  }

  /** An event whose every claim crashes is never published, never claimed more than m
      times, and is dead-lettered after exactly m claims: once it has had them, it is
      either still leased for the last time or dead-lettered, and not before. */
  lemma {:induction false} CrashingIsDeadLettered(steps: seq<Step>, i: nat, m: int)
    requires FixedMax(steps, m) && m >= 1 && AlwaysCrashes(steps, i)
    ensures var o := Execute(EMPTY, steps);
            i < |o.events| ==>
              && CrashState(o.events[i], m) && ClaimsIn(steps, i) == o.events[i].attempts <= m
              && (o.events[i].stage != InFlight ==> (o.events[i].stage == DeadLetter <==> ClaimsIn(steps, i) == m))
  {
    hide Apply, Claims, Kept;
    AttemptsAreClaims(steps, i);
    if steps != [] {
      var before := steps[..|steps| - 1];
      CrashingIsDeadLettered(before, i, m);
      RunKeeps(before);
      StepCrashes(Execute(EMPTY, before), steps[|steps| - 1], i, m);
    }
  }

  /** The failure returns a claim to PENDING that was the event's last allowed one, or one
      beyond; the claimed row's attempts tell before the call. */
  predicate Overretries(o: Outbox, s: Step, i: nat, m: int) {
    && s.Fail? && s.event == i && s.delay >= 0
    && i < |o.events| && o.events[i].stage == InFlight && o.events[i].attempts >= m
  }

  predicate RunOverretries(steps: seq<Step>, i: nat, m: int) {
    steps != []
    && (|| RunOverretries(steps[..|steps| - 1], i, m)
        || Overretries(Execute(EMPTY, steps[..|steps| - 1]), steps[|steps| - 1], i, m))
  }

  /** The event has had more than m claims, or has had m and waits for another. */
  predicate Beyond(o: Outbox, i: nat, m: int) {
    && i < |o.events|
    && (o.events[i].attempts > m || (o.events[i].stage == Pending && o.events[i].attempts >= m))
  }

  lemma StepBeyond(o: Outbox, s: Step, i: nat, m: int)
    requires Kept(o) && m >= 1 && (s.Recover? ==> s.max == m)
    ensures Beyond(Apply(o, s), i, m) <==> Beyond(o, i, m) || Overretries(o, s, i, m)
  {
    hide Batch, Sum;
    if s.Claim? && i < |o.events| {
      BatchIsPending(o.events, s.limit, s.now, s.locked, i);
    }
  }

  /** With a fixed maximum m, over every run in which events fail, crash and are published
      in any order: the maximum is passed if and only if a failure was reported on a claim
      that was already the m-th or later. */
  lemma {:induction false} BeyondExactlyWhen(steps: seq<Step>, i: nat, m: int)
    requires FixedMax(steps, m) && m >= 1
    ensures Beyond(Execute(EMPTY, steps), i, m) <==> RunOverretries(steps, i, m)
    ensures ClaimsIn(steps, i) > m ==> RunOverretries(steps, i, m)
  {
    hide Apply, Kept, Overretries, ClaimsIn;
    AttemptsAreClaims(steps, i);
    if steps != [] {
      var before := steps[..|steps| - 1];
      BeyondExactlyWhen(before, i, m);
      RunKeeps(before);
      StepBeyond(Execute(EMPTY, before), steps[|steps| - 1], i, m);
    }
  }

  lemma FailedRound(o: Outbox)
    requires |o.events| == 1 && o.events[0].stage == Pending && o.events[0].availableAt == 0
    ensures var after := Apply(Apply(o, Claim(1, 0, {})), Fail(0, 0, 0));
            && |after.events| == 1 && after.events[0].stage == Pending && after.events[0].availableAt == 0
            && after.events[0].attempts == o.events[0].attempts + 1
  {
    assert o.events[..0] == [];
    assert Batch(o.events, 1, 0, {}) == [0];
    assert Apply(o, Claim(1, 0, {})).events == [Lease(o.events[0], 0)];
  }

  /** The bound is the lease's alone: an event that fails instead of crashing is retried
      without limit. For every n there is a run that fails it n times and leaves it PENDING. */
  lemma {:induction false} FailuresAreRetriedForever(n: nat) returns (steps: seq<Step>)
    ensures var o := Execute(EMPTY, steps);
            |o.events| == 1 && o.events[0].stage == Pending && o.events[0].attempts == n && o.events[0].availableAt == 0
  {
    if n == 0 {
      steps := [Append(Audited, true, 0)];
      assert steps[..0] == [];
    } else {
      hide Apply;
      var before := FailuresAreRetriedForever(n - 1);
      steps := before + [Claim(1, 0, {})] + [Fail(0, 0, 0)];
      assert steps[..|steps| - 1] == before + [Claim(1, 0, {})];
      assert steps[..|steps| - 1][..|before|] == before;
      FailedRound(Execute(EMPTY, before));
    }
  }
}
