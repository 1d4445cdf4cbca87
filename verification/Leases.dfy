/** Leases and waits in the outbox, in seconds: how long a claim is left alone and how long a
    failed event waits. */
module Leases {
  import opened Domain
  import opened Sums
  import opened Outboxes
  import opened OutboxRuns

  /** What each step makes of an event, column by column. Appending leaves it alone; a claim
      leases it from now on if it is in the batch; publishing and failing end an open claim;
      recovery ends a lease that began more than its length ago, and no other. */
  lemma StepInFull(o: Outbox, s: Step, i: nat)
    requires i < |o.events|
    ensures i < |Apply(o, s).events|
    ensures var e := o.events[i];
            Apply(o, s).events[i]
            == match s
               case Append(_, _, _) => e
               case Claim(limit, now, locked) =>
                 if i in Batch(o.events, limit, now, locked)
                 then Event(e.topic, e.hasAccount, InFlight, e.attempts + 1, e.availableAt, Some(now)) else e
               case Publish(k) =>
                 if k == i && e.attempts > 0 && e.stage == InFlight && (e.topic == Notified ==> e.hasAccount)
                 then Event(e.topic, e.hasAccount, Published, e.attempts, e.availableAt, None) else e
               case Fail(k, delay, now) =>
                 if k == i && e.attempts > 0 && e.stage == InFlight && delay >= 0
                 then Event(e.topic, e.hasAccount, Pending, e.attempts, now + delay, None) else e
               case Recover(lease, max, now) =>
                 if lease >= 1 && max >= 1 && e.stage == InFlight && e.leasedAt.Some? && e.leasedAt.value + lease < now
                 then Event(e.topic, e.hasAccount, if e.attempts >= max then DeadLetter else Pending, e.attempts, now, None)
                 else e
  {
    hide Batch;
  }

  /** No recovery in the run comes more than its lease after `t`, and nobody publishes or
      fails the event. */
  predicate WithinLease(steps: seq<Step>, i: nat, t: int) {
    forall k :: 0 <= k < |steps| ==>
      && steps[k] != Publish(i) && !(steps[k].Fail? && steps[k].event == i)
      && (steps[k].Recover? ==> steps[k].now <= t + steps[k].lease)
  }

  /** A live lease is left alone: an event claimed at `t` stays claimed, by that claim, through
      every run whose recoveries come within their lease of `t`, whatever else is claimed,
      recovered, published or failed. */
  lemma {:induction false} LiveLeaseIsKept(o: Outbox, limit: nat, t: int, locked: set<nat>, i: nat, steps: seq<Step>)
    requires i in Batch(o.events, limit, t, locked) && WithinLease(steps, i, t)
    ensures var e := o.events[i];
            var after := Execute(Apply(o, Claim(limit, t, locked)), steps);
            && i < |after.events|
            && after.events[i] == Event(e.topic, e.hasAccount, InFlight, e.attempts + 1, e.availableAt, Some(t))
  {
    hide Apply, Batch;
    var claimed := Apply(o, Claim(limit, t, locked));
    StepInFull(o, Claim(limit, t, locked), i);
    if steps != [] {
      var before := Execute(claimed, steps[..|steps| - 1]);
      var s := steps[|steps| - 1];
      LiveLeaseIsKept(o, limit, t, locked, i, steps[..|steps| - 1]);
      StepInFull(before, s, i);
      if s.Claim? {
        BatchIsFirst(before.events, s.limit, s.now, s.locked);
      }
    }
  }

  predicate ClaimsBefore(steps: seq<Step>, until: int) {
    forall k :: 0 <= k < |steps| && steps[k].Claim? ==> steps[k].now < until
  }

  /** A failed event waits its delay out: it is PENDING and available from `now + delay` on,
      and so it stays, in no batch, through every run whose claims all come before that. */
  lemma {:induction false} FailedEventWaits(o: Outbox, i: nat, delay: nat, now: int, steps: seq<Step>)
    requires i < |o.events| && o.events[i].stage == InFlight && o.events[i].attempts > 0
    requires ClaimsBefore(steps, now + delay)
    ensures var e := o.events[i];
            var after := Execute(Apply(o, Fail(i, delay, now)), steps);
            && i < |after.events|
            && after.events[i] == Event(e.topic, e.hasAccount, Pending, e.attempts, now + delay, None)
            && forall limit: nat, t, locked :: t < now + delay ==> i !in Batch(after.events, limit, t, locked)
  {
    hide Apply, Batch;
    StepInFull(o, Fail(i, delay, now), i);
    if steps != [] {
      var before := Execute(Apply(o, Fail(i, delay, now)), steps[..|steps| - 1]);
      FailedEventWaits(o, i, delay, now, steps[..|steps| - 1]);
      StepInFull(before, steps[|steps| - 1], i);
    }
    var after := Execute(Apply(o, Fail(i, delay, now)), steps);
    forall limit: nat, t, locked | t < now + delay
      ensures i !in Batch(after.events, limit, t, locked)
    {
      BatchIsFirst(after.events, limit, t, locked);
    }
  }

  /** Seconds to wait after the first attempt, the second, and so on; from the eighth on, the last. */
  const WAITS: seq<nat> := [2, 4, 8, 16, 32, 64, 128, 256]

  lemma BackoffInFull(attempts: nat)
    requires attempts > 0
    ensures Backoff(attempts) == WAITS[if attempts < 8 then attempts - 1 else 7]
  {
    BackoffDoubles(0);
    BackoffDoubles(1);
    BackoffDoubles(2);
    BackoffDoubles(3);
    BackoffDoubles(4);
    BackoffDoubles(5);
    BackoffDoubles(6);
    BackoffDoubles(7);
    if attempts > 8 {
      BackoffDoubles(attempts - 1);
    }
  }

  /** What one undisturbed call of the consumer makes of every event: what it claims is either
      published, or PENDING again with its wait ahead; what it does not claim stays as it is. */
  lemma ProcessedInFull(events: seq<Event>, limit: nat, now: int, locked: set<nat>, broken: set<nat>, i: nat)
    requires i < |events|
    ensures var ids := Batch(events, limit, now, locked);
            var e := events[i];
            HandleSpec(events, ids, |ids|, broken, now)[i]
            == if i !in ids then e
               else if i !in broken && (e.topic == Notified ==> e.hasAccount)
               then Event(e.topic, e.hasAccount, Published, e.attempts + 1, e.availableAt, None)
               else Event(e.topic, e.hasAccount, Pending, e.attempts + 1,
                          now + WAITS[if e.attempts < 7 then e.attempts else 7], None)
  {
    hide Batch, Backoff;
    BackoffInFull(events[i].attempts + 1);
    var ids := Batch(events, limit, now, locked);
    assert ids[..|ids|] == ids;
  }

  /** A notification is published only if it has an account to go to, after any run. */
  lemma {:induction false} PublishedHasAccount(steps: seq<Step>, i: nat)
    ensures var o := Execute(EMPTY, steps);
            i < |o.events| && o.events[i].stage == Published && o.events[i].topic == Notified ==> o.events[i].hasAccount
  {
    hide Apply, Batch;
    if steps != [] {
      var before := Execute(EMPTY, steps[..|steps| - 1]);
      PublishedHasAccount(steps[..|steps| - 1], i);
      if i < |before.events| {
        StepInFull(before, steps[|steps| - 1], i);
      } else {
        AppendedIsPending(before, steps[|steps| - 1], i);
      }
    }
  }

  lemma AppendedIsPending(o: Outbox, s: Step, i: nat)
    requires i >= |o.events|
    ensures var after := Apply(o, s);
            i < |after.events| ==>
              s.Append? && after.events[i] == Event(s.topic, s.hasAccount, Pending, 0, s.availableAt, None)
  {
    hide Batch;
  }

  /** The rows whose lease began more than its length ago. */
  ghost function Expired(events: seq<Event>, lease: int, now: int): set<nat> {
    set i: nat | i < |events| && events[i].stage == InFlight && events[i].leasedAt.Some? && events[i].leasedAt.value + lease < now
  }

  /** Recovery returns the number of expired leases. */
  lemma {:induction false} RecoveredAreCounted(events: seq<Event>, lease: int, now: int)
    ensures Sum(events, StaleCount(lease, now)) == |Expired(events, lease, now)|
  {
    if events != [] {
      var last := |events| - 1;
      RecoveredAreCounted(events[..last], lease, now);
      var before := Expired(events[..last], lease, now);
      assert Expired(events, lease, now) == if Stale(events[last], lease, now) then before + {last} else before;
    }
  }

  /** The claimed events that can be published. */
  ghost function Handleable(events: seq<Event>, ids: seq<nat>, broken: set<nat>): set<nat> {
    set i | i in ids && i < |events| && i !in broken && (events[i].topic == Notified ==> events[i].hasAccount)
  }

  lemma OneMoreHandled(events: seq<Event>, ids: seq<nat>, broken: set<nat>)
    requires Increasing(ids, |events|) && ids != []
    ensures var i := ids[|ids| - 1];
            var before := Handleable(events, ids[..|ids| - 1], broken);
            i !in before && Handleable(events, ids, broken) == if Succeeds(events[i], i, broken) then before + {i} else before
  {
    var i, front := ids[|ids| - 1], ids[..|ids| - 1];
    assert ids == front + [i];
    assert forall k :: k in ids <==> k in front || k == i;
  }

  /** A call of the consumer returns the number of events it published. */
  lemma {:induction false} PublishedAreCounted(events: seq<Event>, ids: seq<nat>, broken: set<nat>)
    requires Increasing(ids, |events|)
    ensures Sum(ids, SucceedsIn(events, broken)) == |Handleable(events, ids, broken)|
  {
    if ids != [] {
      PublishedAreCounted(events, ids[..|ids| - 1], broken);
      OneMoreHandled(events, ids, broken);
    }
  }
}
