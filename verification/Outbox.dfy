/** The leased outbox and its consumer: reference/implementation/src/agent_pay/outbox.py:47-107,
    outbox_worker.py:34-72 and audit.py. */
module Outboxes {
  import opened Domain
  import opened Sums

  /** What the consumer does with an event of this type. */
  datatype Topic = Audited | Notified | Unhandled

  datatype Stage = Pending | InFlight | Published | DeadLetter

  datatype Event = Event(topic: Topic, hasAccount: bool, stage: Stage, attempts: nat,
                         availableAt: int, leasedAt: Option<int>)

  /** Times are in seconds; audits and notices are the ids of the events they record. */
  datatype Outbox = Outbox(events: seq<Event>, audits: seq<nat>, notices: seq<nat>)

  /** `locked` are the rows that other transactions hold, which SKIP LOCKED passes over. */
  predicate Claimable(e: Event, i: nat, now: int, locked: set<nat>) {
    e.stage == Pending && e.availableAt <= now && i !in locked
  }

  /** The first `limit` claimable events in order of creation. */
  function Batch(events: seq<Event>, limit: nat, now: int, locked: set<nat>): (ids: seq<nat>)
    ensures forall k :: 0 <= k < |ids| ==> ids[k] < |events|
  {
    if events == [] then []
    else
      var last := |events| - 1;
      var ids := Batch(events[..last], limit, now, locked);
      if |ids| < limit && Claimable(events[last], last, now, locked) then ids + [last] else ids
  }

  predicate Increasing(ids: seq<nat>, n: nat) {
    (forall k :: 0 <= k < |ids| ==> ids[k] < n) && forall j, k :: 0 <= j < k < |ids| ==> ids[j] < ids[k]
  }

  /** The batch is claimable, in order, within the limit, and passes nothing over. */
  lemma {:induction false} BatchIsFirst(events: seq<Event>, limit: nat, now: int, locked: set<nat>)
    ensures var ids := Batch(events, limit, now, locked);
            && |ids| <= limit && Increasing(ids, |events|)
            && (forall k :: 0 <= k < |ids| ==>
                  events[ids[k]].stage == Pending && events[ids[k]].availableAt <= now && ids[k] !in locked)
            && (forall i: nat :: i < |events| && events[i].stage == Pending && events[i].availableAt <= now && i !in locked ==>
                  i in ids || (|ids| == limit && forall j :: j in ids ==> j < i))
  {
    if events != [] {
      BatchIsFirst(events[..|events| - 1], limit, now, locked);
    }
  }

  function Lease(e: Event, now: int): Event {
    e.(stage := InFlight, attempts := e.attempts + 1, leasedAt := Some(now))
  }

  function ClaimSpec(events: seq<Event>, limit: nat, now: int, locked: set<nat>): (after: seq<Event>)
    ensures |after| == |events|
  {
    var ids := Batch(events, limit, now, locked);
    seq(|events|, i requires 0 <= i < |events| => if i in ids then Lease(events[i], now) else events[i])
  }

  /** Publishing, failing and recovering all look for PROCESSING rows only. */
  function PublishedFrom(e: Event): Event {
    if e.stage == InFlight then e.(stage := Published, leasedAt := None) else e
  }

  function FailedFrom(e: Event, delay: nat, now: int): Event {
    if e.stage == InFlight then e.(stage := Pending, availableAt := now + delay, leasedAt := None) else e
  }

  predicate Stale(e: Event, lease: int, now: int) {
    e.stage == InFlight && e.leasedAt.Some? && e.leasedAt.value < now - lease
  }

  function RecoveredFrom(e: Event, lease: int, max: int, now: int): Event {
    if Stale(e, lease, now) then
      e.(stage := if e.attempts >= max then DeadLetter else Pending, availableAt := now, leasedAt := None)
    else e
  }

  function RecoverSpec(events: seq<Event>, lease: int, max: int, now: int): (after: seq<Event>)
    ensures |after| == |events|
  {
    seq(|events|, i requires 0 <= i < |events| => RecoveredFrom(events[i], lease, max, now))
  }

  /** INSERT ... ON CONFLICT DO NOTHING. */
  function InsertOnce(ids: seq<nat>, i: nat): seq<nat> {
    if i in ids then ids else ids + [i]
  }

  /** One event's effects and its publication, in one transaction. The effects do not
      depend on whether the event is still PROCESSING. */
  function PublishSpec(o: Outbox, i: nat): Outbox
    requires i < |o.events|
  {
    var e := o.events[i];
    Outbox(o.events[i := PublishedFrom(e)],
           if e.topic == Audited then InsertOnce(o.audits, i) else o.audits,
           if e.topic == Notified then InsertOnce(o.notices, i) else o.notices)
  }

  /** A notification needs an account to go to. */
  predicate Publishable(e: Event) {
    e.topic == Notified ==> e.hasAccount
  }

  function Power(n: nat): (p: nat)
    ensures p > 0
  {
    if n == 0 then 1 else 2 * Power(n - 1)
  }

  /** min(300, 2 ** min(attempts, 8)). */
  function Backoff(attempts: nat): nat {
    var exponent := if attempts < 8 then attempts else 8;
    if Power(exponent) < 300 then Power(exponent) else 300
  }

  /** The wait doubles with every attempt up to the eighth and then stays at 256 seconds,
      so the cap of 300 is never reached. */
  lemma BackoffDoubles(attempts: nat)
    ensures Backoff(attempts + 1) == if attempts < 8 then 2 * Backoff(attempts) else 256
    ensures Backoff(attempts) <= 256
  {
    assert Power(4) == 16;
    assert Power(8) == 16 * Power(4);
    PowerGrows(if attempts < 8 then attempts else 8, 8);
  }

  lemma {:induction false} PowerGrows(m: nat, n: nat)
    requires m <= n
    ensures Power(m) <= Power(n)
    decreases n
  {
    if m < n {
      PowerGrows(m, n - 1);
    }
  }

  // --- one call of the consumer, undisturbed ---

  predicate Succeeds(e: Event, i: nat, broken: set<nat>) {
    Publishable(e) && i !in broken
  }

  /** A claimed event after the consumer is done with it. */
  function Handled(e: Event, i: nat, broken: set<nat>, now: int): Event {
    var leased := Lease(e, now);
    if Succeeds(e, i, broken) then PublishedFrom(leased) else FailedFrom(leased, Backoff(leased.attempts), now)
  }

  /** The claimed events that come first have been handled, the others are leased. */
  function HandleSpec(events: seq<Event>, ids: seq<nat>, done: nat, broken: set<nat>, now: int): (after: seq<Event>)
    requires done <= |ids|
    ensures |after| == |events|
  {
    seq(|events|, i requires 0 <= i < |events| =>
      if i in ids[..done] then Handled(events[i], i, broken, now)
      else if i in ids then Lease(events[i], now) else events[i])
  }

  function Recorded(rows: seq<nat>, events: seq<Event>, ids: seq<nat>, topic: Topic, broken: set<nat>): seq<nat>
    requires forall k :: 0 <= k < |ids| ==> ids[k] < |events|
  {
    if ids == [] then rows
    else
      var i := ids[|ids| - 1];
      var before := Recorded(rows, events, ids[..|ids| - 1], topic, broken);
      if events[i].topic == topic && Succeeds(events[i], i, broken) then InsertOnce(before, i) else before
  }

  function SucceedsIn(events: seq<Event>, broken: set<nat>): nat -> int {
    (i: nat) => if i < |events| && Succeeds(events[i], i, broken) then 1 else 0
  }

  /** What the call has recorded: what was there, and the events it published, once each. */
  lemma {:induction false} RecordedHolds(rows: seq<nat>, events: seq<Event>, ids: seq<nat>, topic: Topic, broken: set<nat>,
                                         i: nat)
    requires forall k :: 0 <= k < |ids| ==> ids[k] < |events|
    ensures var after := Recorded(rows, events, ids, topic, broken);
            && rows <= after
            && (i in after <==> i in rows || (i in ids && events[i].topic == topic && Succeeds(events[i], i, broken)))
  {
    if ids != [] {
      RecordedHolds(rows, events, ids[..|ids| - 1], topic, broken, i);
      assert ids == ids[..|ids| - 1] + [ids[|ids| - 1]];
    }
  }

  function HandleOne(o: Outbox, i: nat, broken: set<nat>, now: int): Outbox
    requires i < |o.events|
  {
    var e := o.events[i];
    if Succeeds(e, i, broken) then PublishSpec(o, i)
    else o.(events := o.events[i := FailedFrom(e, Backoff(e.attempts), now)])
  }

  function HandleAll(o: Outbox, ids: seq<nat>, broken: set<nat>, now: int): (after: Outbox)
    requires forall k :: 0 <= k < |ids| ==> ids[k] < |o.events|
    ensures |after.events| == |o.events|
  {
    if ids == [] then o else HandleOne(HandleAll(o, ids[..|ids| - 1], broken, now), ids[|ids| - 1], broken, now)
  }

  function StaleCount(lease: int, now: int): Event -> int {
    (e: Event) => if Stale(e, lease, now) then 1 else 0
  }

  lemma HandleNext(events: seq<Event>, ids: seq<nat>, k: nat, broken: set<nat>, now: int)
    requires Increasing(ids, |events|) && k < |ids|
    ensures var before := HandleSpec(events, ids, k, broken, now);
            && before[ids[k]] == Lease(events[ids[k]], now)
            && HandleSpec(events, ids, k + 1, broken, now) == before[ids[k] := Handled(events[ids[k]], ids[k], broken, now)]
  {
    hide Backoff;
    assert ids[k] !in ids[..k];
    assert ids[..k + 1] == ids[..k] + [ids[k]];
  }

  /** Handling the claimed events one after another does to each of them what it would
      do alone. */
  lemma {:induction false} HandledPrefix(o: Outbox, ids: seq<nat>, k: nat, broken: set<nat>, now: int)
    requires Increasing(ids, |o.events|) && k <= |ids|
    ensures HandleAll(o.(events := HandleSpec(o.events, ids, 0, broken, now)), ids[..k], broken, now)
            == Outbox(HandleSpec(o.events, ids, k, broken, now), Recorded(o.audits, o.events, ids[..k], Audited, broken),
                      Recorded(o.notices, o.events, ids[..k], Notified, broken))
  {
    hide Backoff, InsertOnce, HandleSpec;
    if k > 0 {
      HandledPrefix(o, ids, k - 1, broken, now);
      HandleNext(o.events, ids, k - 1, broken, now);
      assert ids[..k][..k - 1] == ids[..k - 1];
    }
  }

  lemma {:induction false} HandlingKeepsTopics(o: Outbox, ids: seq<nat>, broken: set<nat>, now: int, i: nat)
    requires i < |o.events| && forall k :: 0 <= k < |ids| ==> ids[k] < |o.events|
    ensures var e := HandleAll(o, ids, broken, now).events[i];
            e.topic == o.events[i].topic && e.hasAccount == o.events[i].hasAccount
  {
    hide Backoff;
    if ids != [] {
      HandlingKeepsTopics(o, ids[..|ids| - 1], broken, now, i);
    }
  }

  /** Claiming a batch and then handling it, from the state before the claim. */
  lemma BatchClaims(o: Outbox, limit: nat, now: int, locked: set<nat>, broken: set<nat>)
    ensures var ids := Batch(o.events, limit, now, locked);
            var claimed := o.(events := ClaimSpec(o.events, limit, now, locked));
            && HandleAll(claimed, ids, broken, now)
               == Outbox(HandleSpec(o.events, ids, |ids|, broken, now), Recorded(o.audits, o.events, ids, Audited, broken),
                         Recorded(o.notices, o.events, ids, Notified, broken))
            && Sum(ids, SucceedsIn(claimed.events, broken)) == Sum(ids, SucceedsIn(o.events, broken))
  {
    hide Backoff, Batch, Recorded, HandleAll;
    var ids := Batch(o.events, limit, now, locked);
    var claimed := ClaimSpec(o.events, limit, now, locked);
    BatchIsFirst(o.events, limit, now, locked);
    assert claimed == HandleSpec(o.events, ids, 0, broken, now);
    assert ids[..|ids|] == ids;
    HandledPrefix(o, ids, |ids|, broken, now);
    SumSame(ids, SucceedsIn(claimed, broken), ids, SucceedsIn(o.events, broken));
  }

  class OutboxStore {
    var events: seq<Event>
    var audits: seq<nat>
    var notices: seq<nat>

    function State(): Outbox
      reads this
    {
      Outbox(events, audits, notices)
    }

    constructor ()
      ensures events == [] && audits == [] && notices == []
    {
      events, audits, notices := [], [], [];
    }

    method ClaimBatch(limit: nat, now: int, locked: set<nat>) returns (ids: seq<nat>)
      modifies this`events
      ensures ids == Batch(old(events), limit, now, locked)
      ensures events == ClaimSpec(old(events), limit, now, locked)
    {
      ids := [];
      var rows := events;
      var i := 0;
      while i < |events|
        invariant 0 <= i <= |events| == |rows| && events == old(events)
        invariant ids == Batch(events[..i], limit, now, locked)
        invariant forall k :: 0 <= k < |rows| ==> rows[k] == if k in ids then Lease(events[k], now) else events[k]
      {
        assert events[..i + 1][..i] == events[..i];
        if |ids| < limit && Claimable(events[i], i, now, locked) {
          ids := ids + [i];
          rows := rows[i := Lease(rows[i], now)];
        }
        i := i + 1;
      }
      assert events[..|events|] == events;
      events := rows;
    }

    method MarkPublished(i: nat)
      requires i < |events|
      modifies this`events
      ensures events == old(events)[i := PublishedFrom(old(events[i]))]
    {
      if events[i].stage == InFlight {
        events := events[i := events[i].(stage := Published, leasedAt := None)];
      }
    }

    method MarkFailed(i: nat, delay: int, now: int) returns (r: Result<()>)
      requires i < |events|
      modifies this`events
      ensures if delay < 0 then r == Err(InvalidAmount) && events == old(events)
              else r == Ok(()) && events == old(events)[i := FailedFrom(old(events[i]), delay, now)]
    {
      if delay < 0 {
        return Err(InvalidAmount);
      }
      if events[i].stage == InFlight {
        events := events[i := events[i].(stage := Pending, availableAt := now + delay, leasedAt := None)];
      }
      return Ok(());
    }

    /** Returns how many leases it found expired. */
    method RecoverStale(lease: int, max: int, now: int) returns (r: Result<int>)
      modifies this`events
      ensures if lease < 1 || max < 1 then r == Err(InvalidAmount) && events == old(events)
              else r == Ok(Sum(old(events), StaleCount(lease, now))) && events == RecoverSpec(old(events), lease, max, now)
    {
      if lease < 1 || max < 1 {
        return Err(InvalidAmount);
      }
      var count, i := 0, 0;
      var rows := events;
      while i < |events|
        invariant 0 <= i <= |events| == |rows| && events == old(events)
        invariant count == Sum(events[..i], StaleCount(lease, now))
        invariant forall k :: 0 <= k < |rows| ==>
                    rows[k] == if k < i then RecoveredFrom(events[k], lease, max, now) else events[k]
      {
        SumAppend(events[..i], events[i], StaleCount(lease, now));
        assert events[..i + 1] == events[..i] + [events[i]];
        var e := events[i];
        if e.stage == InFlight && e.leasedAt.Some? && e.leasedAt.value < now - lease {
          rows := rows[i := e.(stage := if e.attempts >= max then DeadLetter else Pending, availableAt := now, leasedAt := None)];
          count := count + 1;
        }
        i := i + 1;
      }
      assert events[..|events|] == events;
      events := rows;
      return Ok(count);
    }

    /** Both helpers return the row that records the event, new or old. */
    method RecordAudit(i: nat) returns (row: nat)
      modifies this`audits
      ensures audits == InsertOnce(old(audits), i)
      ensures row < |audits| && audits[row] == i
    {
      var found := Find(audits, (a: nat) => a == i);
      if found >= 0 {
        return found;
      }
      audits := audits + [i];
      return |audits| - 1;
    }

    method EnqueueNotification(i: nat) returns (row: nat)
      modifies this`notices
      ensures notices == InsertOnce(old(notices), i)
      ensures row < |notices| && notices[row] == i
    {
      var found := Find(notices, (a: nat) => a == i);
      if found >= 0 {
        return found;
      }
      notices := notices + [i];
      return |notices| - 1;
    }

    /** One claimed event: its effects and its publication together, or its return to
        PENDING. `broken` are the events whose transaction fails for a reason outside this model. */
    method Handle(i: nat, broken: set<nat>, now: int) returns (published: bool)
      requires i < |events|
      modifies this
      ensures State() == HandleOne(old(State()), i, broken, now)
      ensures published == Succeeds(old(events[i]), i, broken)
    {
      var e := events[i];
      if i in broken || (e.topic == Notified && !e.hasAccount) {
        var _ := MarkFailed(i, Backoff(e.attempts), now);
        return false;
      }
      if e.topic == Audited {
        var _ := RecordAudit(i);
      }
      if e.topic == Notified {
        var _ := EnqueueNotification(i);
      }
      MarkPublished(i);
      return true;
    }

    /** The loop over the claimed events. */
    method HandleBatch(ids: seq<nat>, broken: set<nat>, now: int) returns (processed: int)
      requires forall k :: 0 <= k < |ids| ==> ids[k] < |events|
      modifies this
      ensures State() == HandleAll(old(State()), ids, broken, now)
      ensures processed == Sum(ids, SucceedsIn(old(events), broken))
    {
      processed := 0;
      ghost var first := State();
      var k := 0;
      while k < |ids|
        invariant 0 <= k <= |ids|
        invariant State() == HandleAll(first, ids[..k], broken, now)
        invariant processed == Sum(ids[..k], SucceedsIn(first.events, broken))
      {
        hide Sum, Backoff, HandleOne;
        assert ids[..k + 1] == ids[..k] + [ids[k]] && ids[..k + 1][..k] == ids[..k];
        SumAppend(ids[..k], ids[k], SucceedsIn(first.events, broken));
        HandlingKeepsTopics(first, ids[..k], broken, now, ids[k]);
        var published := Handle(ids[k], broken, now);
        if published {
          processed := processed + 1;
        }
        k := k + 1;
      }
      assert ids[..|ids|] == ids;
    }

    method ProcessOnce(limit: nat, now: int, locked: set<nat>, broken: set<nat>) returns (processed: int)
      modifies this
      ensures var ids := Batch(old(events), limit, now, locked);
              && events == HandleSpec(old(events), ids, |ids|, broken, now)
              && audits == Recorded(old(audits), old(events), ids, Audited, broken)
              && notices == Recorded(old(notices), old(events), ids, Notified, broken)
              && processed == Sum(ids, SucceedsIn(old(events), broken))
    {
      ghost var first := State();
      var ids := ClaimBatch(limit, now, locked);
      BatchClaims(first, limit, now, locked, broken);
      processed := HandleBatch(ids, broken, now);
    }
  }
}
