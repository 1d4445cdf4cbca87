/** The spending policy: reference/implementation/src/agent_pay/policy.py. */
module Policies {
  import opened Domain

  datatype Decision = AllowAuto | AllowNotify | RequireApproval | Deny {
    function Rank(): nat {
      match this
      case AllowAuto => 0
      case AllowNotify => 1
      case RequireApproval => 2
      case Deny => 3
    }
  }

  const DAY := 86_400_000_000  // microseconds
  type TimeOfDay = t: int | 0 <= t < 86_400_000_000
  datatype Moment = Moment(weekday: int, time: TimeOfDay)

  /** An intent after normalisation; an empty text is an absent one. */
  datatype Intent = Intent(amount: Money, currency: Currency, domain: string, category: string,
                           region: string, instrument: string, at: Option<Moment>)

  datatype Filter = Filter(allowed: Option<set<string>>, denied: set<string>)
  datatype Schedule = Schedule(weekdays: Option<set<int>>, start: Option<TimeOfDay>, end: Option<TimeOfDay>)
  datatype Policy = Policy(limit: Money, notifyAbove: Option<Money>, approvalAbove: Option<Money>,
                           categories: Filter, domains: Filter, currencies: Filter, regions: Filter,
                           instruments: Filter, schedule: Schedule)

  datatype Reason =
    | LimitNotConfigured | AmountExceedsLimit
    | CurrencyDenied | CurrencyNotAllowed | CategoryDenied | CategoryNotAllowed
    | DomainDenied | DomainNotAllowed | RegionDenied | RegionNotAllowed
    | InstrumentDenied | InstrumentNotAllowed
    | TimeRequired | WeekdayNotAllowed | TimeWindowNotAllowed
    | NeedsApproval | NeedsNotification | PolicyAllowed

  datatype PolicyDecision = PolicyDecision(decision: Decision, reasons: seq<Reason>)

  function Text(s: string): Option<string> {
    if s == "" then None else Some(s)
  }

  predicate HitsDenied(f: Filter, v: Option<string>) {
    v.Some? && v.value in f.denied
  }

  predicate MissesAllowed(f: Filter, v: Option<string>) {
    f.allowed.Some? && (v.None? || v.value !in f.allowed.value)
  }

  predicate HasWindow(s: Schedule) {
    s.start.Some? || s.end.Some?
  }

  predicate InWindow(v: TimeOfDay, start: Option<TimeOfDay>, end: Option<TimeOfDay>) {
    if start.None? then end.None? || v <= end.value
    else if end.None? then v >= start.value
    else if start.value <= end.value then start.value <= v <= end.value
    else v >= start.value || v <= end.value
  }

  /** Constraint by constraint, what stands against an intent. */
  predicate Violated(p: Policy, i: Intent, r: Reason) {
    match r
    case LimitNotConfigured => p.limit <= 0
    case AmountExceedsLimit => i.amount > p.limit
    case CurrencyDenied => HitsDenied(p.currencies, Some(i.currency))
    case CurrencyNotAllowed => MissesAllowed(p.currencies, Some(i.currency))
    case CategoryDenied => HitsDenied(p.categories, Text(i.category))
    case CategoryNotAllowed => MissesAllowed(p.categories, Text(i.category))
    case DomainDenied => HitsDenied(p.domains, Some(i.domain))
    case DomainNotAllowed => MissesAllowed(p.domains, Some(i.domain))
    case RegionDenied => HitsDenied(p.regions, Text(i.region))
    case RegionNotAllowed => MissesAllowed(p.regions, Text(i.region))
    case InstrumentDenied => HitsDenied(p.instruments, Text(i.instrument))
    case InstrumentNotAllowed => MissesAllowed(p.instruments, Text(i.instrument))
    case TimeRequired => i.at.None? && (p.schedule.weekdays.Some? || HasWindow(p.schedule))
    case WeekdayNotAllowed => i.at.Some? && p.schedule.weekdays.Some? && i.at.value.weekday !in p.schedule.weekdays.value
    case TimeWindowNotAllowed =>
      i.at.Some? && HasWindow(p.schedule) && !InWindow(i.at.value.time, p.schedule.start, p.schedule.end)
    case _ => false
  }

  predicate Admits(f: Filter, v: Option<string>) {
    !HitsDenied(f, v) && !MissesAllowed(f, v)
  }

  predicate OnSchedule(s: Schedule, at: Option<Moment>) {
    && (s.weekdays.Some? ==> at.Some? && at.value.weekday in s.weekdays.value)
    && (HasWindow(s) ==> at.Some? && InWindow(at.value.time, s.start, s.end))
  }

  /** Every dimension of the policy admits the intent. */
  predicate Admitted(p: Policy, i: Intent) {
    && 0 < p.limit && i.amount <= p.limit
    && Admits(p.currencies, Some(i.currency))
    && Admits(p.categories, Text(i.category))
    && Admits(p.domains, Some(i.domain))
    && Admits(p.regions, Text(i.region))
    && Admits(p.instruments, Text(i.instrument))
    && OnSchedule(p.schedule, i.at)
  }

  function Decide(p: Policy, i: Intent): Decision {
    if !Admitted(p, i) then Deny
    else if p.approvalAbove.Some? && i.amount > p.approvalAbove.value then RequireApproval
    else if p.notifyAbove.Some? && i.amount > p.notifyAbove.value then AllowNotify
    else AllowAuto
  }

  /** The evaluator collects its reasons one constraint at a time. */
  method EvaluateWithTrace(p: Policy, i: Intent) returns (d: PolicyDecision)
    ensures d.decision == Decide(p, i)
    ensures d.decision == Deny && p.limit > 0 ==> forall r :: r in d.reasons <==> Violated(p, i, r)
    ensures p.limit <= 0 ==> d == PolicyDecision(Deny, [LimitNotConfigured])
    ensures d.decision != Deny ==> forall r :: !Violated(p, i, r)
    ensures d.decision != Deny ==> |d.reasons| == 1
    ensures d.decision == RequireApproval ==> d.reasons == [NeedsApproval]
    ensures d.decision == AllowNotify ==> d.reasons == [NeedsNotification]
  {
    if p.limit <= 0 {
      return PolicyDecision(Deny, [LimitNotConfigured]);
    }
    var reasons := CollectReasons(p, i);
    if reasons != [] {
      assert reasons[0] in reasons;
      return PolicyDecision(Deny, reasons);
    }
    NoViolationMeansAdmitted(p, i);
    if p.approvalAbove.Some? && i.amount > p.approvalAbove.value {
      return PolicyDecision(RequireApproval, [NeedsApproval]);
    }
    if p.notifyAbove.Some? && i.amount > p.notifyAbove.value {
      return PolicyDecision(AllowNotify, [NeedsNotification]);
    }
    return PolicyDecision(AllowAuto, [PolicyAllowed]);
  }

  method CollectReasons(p: Policy, i: Intent) returns (reasons: seq<Reason>)
    requires p.limit > 0
    ensures forall r :: r in reasons <==> Violated(p, i, r)
  {
    reasons := [];
    if i.amount > p.limit {
      reasons := reasons + [AmountExceedsLimit];
    }
    if i.currency in p.currencies.denied {
      reasons := reasons + [CurrencyDenied];
    }
    if p.currencies.allowed.Some? && i.currency !in p.currencies.allowed.value {
      reasons := reasons + [CurrencyNotAllowed];
    }
    reasons := CheckFilter(reasons, p.categories, i.category, CategoryDenied, CategoryNotAllowed);
    if i.domain in p.domains.denied {
      reasons := reasons + [DomainDenied];
    }
    if p.domains.allowed.Some? && i.domain !in p.domains.allowed.value {
      reasons := reasons + [DomainNotAllowed];
    }
    reasons := CheckFilter(reasons, p.regions, i.region, RegionDenied, RegionNotAllowed);
    reasons := CheckFilter(reasons, p.instruments, i.instrument, InstrumentDenied, InstrumentNotAllowed);
    reasons := CheckSchedule(reasons, p.schedule, i.at);
  }

  method CheckFilter(reasons: seq<Reason>, f: Filter, v: string, hit: Reason, miss: Reason) returns (all: seq<Reason>)
    ensures forall r :: r in all <==>
              || r in reasons
              || (r == hit && HitsDenied(f, Text(v)))
              || (r == miss && MissesAllowed(f, Text(v)))
  {
    all := reasons;
    if v != "" && v in f.denied {
      all := all + [hit];
    }
    if f.allowed.Some? && (v == "" || v !in f.allowed.value) {
      all := all + [miss];
    }
  }

  method CheckSchedule(reasons: seq<Reason>, s: Schedule, at: Option<Moment>) returns (all: seq<Reason>)
    ensures forall r :: r in all <==>
              || r in reasons
              || (r == TimeRequired && at.None? && (s.weekdays.Some? || HasWindow(s)))
              || (r == WeekdayNotAllowed && at.Some? && s.weekdays.Some? && at.value.weekday !in s.weekdays.value)
              || (r == TimeWindowNotAllowed && at.Some? && HasWindow(s) && !InWindow(at.value.time, s.start, s.end))
  {
    all := reasons;
    if s.weekdays.Some? {
      if at.None? {
        all := all + [TimeRequired];
      } else if at.value.weekday !in s.weekdays.value {
        all := all + [WeekdayNotAllowed];
      }
    }
    if s.start.Some? || s.end.Some? {
      if at.None? {
        all := all + [TimeRequired];
      } else if !InWindow(at.value.time, s.start, s.end) {
        all := all + [TimeWindowNotAllowed];
      }
    }
  }

  /** The decision, rule by rule. An empty text is an absent one, and where a list is required
      an absent one is not on it; a currency and a domain are always given. */
  lemma DecideInFull(p: Policy, i: Intent)
    ensures Decide(p, i)
            == if && 0 < p.limit && i.amount <= p.limit
                  && i.currency !in p.currencies.denied
                  && (p.currencies.allowed.Some? ==> i.currency in p.currencies.allowed.value)
                  && i.domain !in p.domains.denied
                  && (p.domains.allowed.Some? ==> i.domain in p.domains.allowed.value)
                  && (i.category != "" ==> i.category !in p.categories.denied)
                  && (p.categories.allowed.Some? ==> i.category != "" && i.category in p.categories.allowed.value)
                  && (i.region != "" ==> i.region !in p.regions.denied)
                  && (p.regions.allowed.Some? ==> i.region != "" && i.region in p.regions.allowed.value)
                  && (i.instrument != "" ==> i.instrument !in p.instruments.denied)
                  && (p.instruments.allowed.Some? ==> i.instrument != "" && i.instrument in p.instruments.allowed.value)
                  && (p.schedule.weekdays.Some? ==> i.at.Some? && i.at.value.weekday in p.schedule.weekdays.value)
                  && (p.schedule.start.Some? && p.schedule.end.Some? ==>
                        && i.at.Some?
                        && (i.at.value.time - p.schedule.start.value) % DAY
                           <= (p.schedule.end.value - p.schedule.start.value) % DAY)
                  && (p.schedule.start.Some? && p.schedule.end.None? ==> i.at.Some? && p.schedule.start.value <= i.at.value.time)
                  && (p.schedule.start.None? && p.schedule.end.Some? ==> i.at.Some? && i.at.value.time <= p.schedule.end.value)
               then
                 if p.approvalAbove.Some? && i.amount > p.approvalAbove.value then RequireApproval
                 else if p.notifyAbove.Some? && i.amount > p.notifyAbove.value then AllowNotify
                 else AllowAuto
               else Deny
  {
    if i.at.Some? && p.schedule.start.Some? && p.schedule.end.Some? {
      WindowIsCircular(i.at.value.time, p.schedule.start.value, p.schedule.end.value);
    }
  }

  /** Not denied, exactly when no listed constraint is violated. */
  lemma NoViolationMeansAdmitted(p: Policy, i: Intent)
    ensures Decide(p, i) != Deny <==> forall r :: !Violated(p, i, r)
  {
    if forall r :: !Violated(p, i, r) {
      assert !Violated(p, i, LimitNotConfigured) && !Violated(p, i, AmountExceedsLimit);
      assert !Violated(p, i, CurrencyDenied) && !Violated(p, i, CurrencyNotAllowed);
      assert !Violated(p, i, CategoryDenied) && !Violated(p, i, CategoryNotAllowed);
      assert !Violated(p, i, DomainDenied) && !Violated(p, i, DomainNotAllowed);
      assert !Violated(p, i, RegionDenied) && !Violated(p, i, RegionNotAllowed);
      assert !Violated(p, i, InstrumentDenied) && !Violated(p, i, InstrumentNotAllowed);
      assert !Violated(p, i, TimeRequired) && !Violated(p, i, WeekdayNotAllowed);
      assert !Violated(p, i, TimeWindowNotAllowed);
    }
  }

  /** A window with both ends is the circular interval from start to end,
      whether or not it passes midnight. */
  lemma WindowIsCircular(v: TimeOfDay, start: TimeOfDay, end: TimeOfDay)
    ensures InWindow(v, Some(start), Some(end)) <==> (v - start) % DAY <= (end - start) % DAY
  {
    ModuloDay(v - start);
    ModuloDay(end - start);
  }

  lemma ModuloDay(x: int)
    requires -DAY < x < DAY
    ensures x % DAY == if x >= 0 then x else x + DAY
  {
  }

  predicate NarrowerThreshold(wide: Option<Money>, narrow: Option<Money>) {
    wide.Some? ==> narrow.Some? && narrow.value <= wide.value
  }

  predicate NarrowerSet<T(==)>(wide: Option<set<T>>, narrow: Option<set<T>>) {
    wide.Some? ==> narrow.Some? && narrow.value <= wide.value
  }

  predicate NarrowerFilter(wide: Filter, narrow: Filter) {
    NarrowerSet(wide.allowed, narrow.allowed) && wide.denied <= narrow.denied
  }

  ghost predicate NarrowerSchedule(wide: Schedule, narrow: Schedule) {
    && NarrowerSet(wide.weekdays, narrow.weekdays)
    && (HasWindow(wide) ==> HasWindow(narrow))
    && forall t: TimeOfDay :: InWindow(t, narrow.start, narrow.end) ==> InWindow(t, wide.start, wide.end)
  }

  /** `narrow` restricts every dimension at least as much; a rule once present stays present. */
  ghost predicate Narrower(wide: Policy, narrow: Policy) {
    && narrow.limit <= wide.limit
    && NarrowerThreshold(wide.notifyAbove, narrow.notifyAbove)
    && NarrowerThreshold(wide.approvalAbove, narrow.approvalAbove)
    && NarrowerFilter(wide.categories, narrow.categories)
    && NarrowerFilter(wide.domains, narrow.domains)
    && NarrowerFilter(wide.currencies, narrow.currencies)
    && NarrowerFilter(wide.regions, narrow.regions)
    && NarrowerFilter(wide.instruments, narrow.instruments)
    && NarrowerSchedule(wide.schedule, narrow.schedule)
  }

  /** Narrowing the policy or raising the amount never moves the decision
      towards permission. */
  lemma RestrictionIsMonotone(wide: Policy, narrow: Policy, less: Intent, more: Intent)
    requires Narrower(wide, narrow)
    requires more == less.(amount := more.amount) && less.amount <= more.amount
    ensures Decide(wide, less).Rank() <= Decide(narrow, more).Rank()
  {
    if Admitted(narrow, more) {
      forall wf: Filter, nf: Filter, v: Option<string> | NarrowerFilter(wf, nf) && Admits(nf, v)
        ensures Admits(wf, v)
      {
      }
      assert OnSchedule(wide.schedule, less.at);
      assert Admitted(wide, less);
    }
  }
}
