/** Settlement reports: reference/implementation/src/agent_pay/settlement.py and reconciliation.py, with
    the indexes that specs/v1/migrations/008_reconciliation_multiple_settlements.sql leaves: one record
    per settlement, any number per operation. */
module Settlements {
  import opened Domain
  import opened Sums
  import opened Connections

  datatype SettlementStatus = Reported | Reconciled | Discrepant
  datatype Conclusion = Matched | Discrepancy
  datatype Code = UnknownReference | StatusMismatch | CurrencyMismatch | AmountMismatch

  datatype Settlement = Settlement(provider: string, reference: string, amount: Money, currency: Currency,
                                   status: SettlementStatus)
  datatype Record = Record(settlement: nat, operation: Option<nat>, conclusion: Conclusion, code: Option<Code>,
                           expectedAmount: Option<Money>, observedAmount: Money,
                           expectedCurrency: Option<Currency>, observedCurrency: Currency)

  datatype Books = Books(settlements: seq<Settlement>, records: seq<Record>)

  datatype Report = Report(provider: string, reference: string, providerReference: string, amount: Money, currency: Currency)
  datatype Answer = Duplicate | Concluded(conclusion: Conclusion)

  predicate WellFormed(r: Report) {
    r.provider != "" && r.reference != "" && r.providerReference != "" && r.amount > 0 && |r.currency| == 3
  }

  function IsReportOf(provider: string, reference: string): Settlement -> bool {
    (s: Settlement) => s.provider == provider && s.reference == reference
  }

  /** compare_amounts. */
  function Compare(expected: Money, observed: Money, expectedCurrency: Currency, observedCurrency: Currency):
    (Conclusion, Option<Code>)
  {
    if expectedCurrency == observedCurrency && expected == observed then (Matched, None)
    else if expectedCurrency != observedCurrency then (Discrepancy, Some(CurrencyMismatch))
    else (Discrepancy, Some(AmountMismatch))
  }

  /** The provider references of the operations are a column of their own. */
  predicate Refers(db: Db, references: seq<Option<string>>, reference: string, op: nat) {
    && op < |db.operations| && op < |references| && references[op] == Some(reference)
    && db.operations[op].payment < |db.payments|
  }

  /** The latest of the first n operations that the report can be about. */
  function Latest(db: Db, references: seq<Option<string>>, reference: string, n: nat): (op: int)
    ensures -1 <= op < n
    ensures op >= 0 ==> Refers(db, references, reference, op)
    ensures forall later: nat :: op < later < n ==> !Refers(db, references, reference, later)
  {
    if n == 0 then -1
    else if Refers(db, references, reference, n - 1) then n - 1
    else Latest(db, references, reference, n - 1)
  }

  function Conclude(db: Db, op: nat, r: Report): (Conclusion, Option<Code>)
    requires op < |db.operations| && db.operations[op].payment < |db.payments|
  {
    var row := db.payments[db.operations[op].payment];
    if db.operations[op].status != OpSucceeded then (Discrepancy, Some(StatusMismatch))
    else Compare(row.amount, r.amount, row.currency, r.currency)
  }

  function StatusFor(c: Conclusion): SettlementStatus {
    if c == Matched then Reconciled else Discrepant
  }

  function RecordFor(db: Db, op: int, r: Report, settlement: nat): Record
    requires op < |db.operations| && (op >= 0 ==> db.operations[op].payment < |db.payments|)
  {
    if op < 0 then
      Record(settlement, None, Discrepancy, Some(UnknownReference), None, r.amount, None, r.currency)
    else
      var (conclusion, code) := Conclude(db, op, r);
      var row := db.payments[db.operations[op].payment];
      Record(settlement, Some(op), conclusion, code, Some(row.amount), r.amount, Some(row.currency), r.currency)
  }

  /** One report, in one transaction: the settlement, its record and its status together,
      or nothing. */
  function IngestSpec(b: Books, db: Db, references: seq<Option<string>>, r: Report): (Books, Result<Answer>) {
    if !WellFormed(r) then (b, Err(IntentMismatch))
    else if Find(b.settlements, IsReportOf(r.provider, r.reference)) >= 0 then (b, Ok(Duplicate))
    else
      var op := Latest(db, references, r.providerReference, |db.operations|);
      var c := RecordFor(db, op, r, |b.settlements|);
      (Books(b.settlements + [Settlement(r.provider, r.reference, r.amount, r.currency, StatusFor(c.conclusion))],
             b.records + [c]), Ok(Concluded(c.conclusion)))
  }

  class SettlementRepository {
    const conn: Connection
    var settlements: seq<Settlement>
    var records: seq<Record>

    function Contents(): Books
      reads this
    {
      Books(settlements, records)
    }

    constructor (conn: Connection)
      ensures this.conn == conn && Contents() == Books([], [])
    {
      this.conn, settlements, records := conn, [], [];
    }

    /** Reads payments and operations, and writes neither. */
    method Ingest(references: seq<Option<string>>, r: Report) returns (answer: Result<Answer>)
      modifies this
      ensures (Contents(), answer) == IngestSpec(old(Contents()), conn.db, references, r)
    {
      if r.provider == "" || r.reference == "" || r.providerReference == "" {
        return Err(IntentMismatch);
      }
      if r.amount <= 0 {
        return Err(IntentMismatch);
      }
      if |r.currency| != 3 {
        return Err(IntentMismatch);
      }
      ghost var saved := settlements;
      if Find(settlements, IsReportOf(r.provider, r.reference)) >= 0 {
        return Ok(Duplicate);
      }
      var s := |settlements|;
      settlements := settlements + [Settlement(r.provider, r.reference, r.amount, r.currency, Reported)];
      var op := Latest(conn.db, references, r.providerReference, |conn.db.operations|);
      if op < 0 {
        records := records + [Record(s, None, Discrepancy, Some(UnknownReference), None, r.amount, None, r.currency)];
        settlements := settlements[s := settlements[s].(status := Discrepant)];
        assert settlements == saved + [settlements[s]];
        return Ok(Concluded(Discrepancy));
      }
      var row := conn.db.payments[conn.db.operations[op].payment];
      var conclusion, code := Discrepancy, Some(StatusMismatch);
      if conn.db.operations[op].status == OpSucceeded {
        var compared := Compare(row.amount, r.amount, row.currency, r.currency);
        conclusion, code := compared.0, compared.1;
      }
      records := records + [Record(s, Some(op), conclusion, code, Some(row.amount), r.amount, Some(row.currency), r.currency)];
      settlements := settlements[s := settlements[s].(status := if conclusion == Matched then Reconciled else Discrepant)];
      assert settlements == saved + [settlements[s]];
      return Ok(Concluded(conclusion));
    }
  }

  // --- any sequence of reports ---

  /** A report, and the payments and operations as they are when it arrives. */
  datatype Arrival = Arrival(db: Db, references: seq<Option<string>>, report: Report)

  function IngestAll(b: Books, arrivals: seq<Arrival>): Books {
    if arrivals == [] then b
    else
      var last := arrivals[|arrivals| - 1];
      IngestSpec(IngestAll(b, arrivals[..|arrivals| - 1]), last.db, last.references, last.report).0
  }

  function About(s: nat): Record -> int {
    (c: Record) => if c.settlement == s then 1 else 0
  }

  predicate SameReport(a: Settlement, b: Settlement) {
    a.provider == b.provider && a.reference == b.reference
  }

  /** What the record says is what the two sides said. */
  predicate Coherent(c: Record) {
    && (c.conclusion == Matched ==>
          c.operation.Some? && c.expectedAmount == Some(c.observedAmount) && c.expectedCurrency == Some(c.observedCurrency))
    && (c.conclusion == Matched <==> c.code.None?)
  }

  ghost predicate Consistent(b: Books) {
    && |b.records| == |b.settlements|
    && (forall i: nat :: i < |b.records| ==>
          && b.records[i].settlement == i && Coherent(b.records[i])
          && b.settlements[i].status == StatusFor(b.records[i].conclusion)
          && b.settlements[i].amount == b.records[i].observedAmount)
    && (forall i: nat, j: nat :: i < j < |b.settlements| ==> !SameReport(b.settlements[i], b.settlements[j]))
  }

  lemma IngestKeeps(b: Books, a: Arrival)
    requires Consistent(b)
    ensures Consistent(IngestSpec(b, a.db, a.references, a.report).0)
  {
  }

  lemma {:induction false} AllConsistent(arrivals: seq<Arrival>)
    ensures Consistent(IngestAll(Books([], []), arrivals))
  {
    hide IngestSpec;
    if arrivals != [] {
      AllConsistent(arrivals[..|arrivals| - 1]);
      IngestKeeps(IngestAll(Books([], []), arrivals[..|arrivals| - 1]), arrivals[|arrivals| - 1]);
    }
  }

  /** After any sequence of reports: each (provider, reference) has at most one settlement
      and each settlement exactly one record; a settlement is RECONCILED exactly when its
      record is MATCHED, and none stays REPORTED. */
  lemma OneRecordEach(arrivals: seq<Arrival>, s: nat)
    ensures var b := IngestAll(Books([], []), arrivals);
            && (forall i: nat, j: nat :: i < j < |b.settlements| ==> !SameReport(b.settlements[i], b.settlements[j]))
            && (s < |b.settlements| ==>
                  && Sum(b.records, About(s)) == 1 && b.settlements[s].status != Reported
                  && (forall i: nat :: i < |b.records| && b.records[i].settlement == s ==>
                        (b.settlements[s].status == Reconciled <==> b.records[i].conclusion == Matched)))
  {
    hide IngestSpec;
    AllConsistent(arrivals);
    var b := IngestAll(Books([], []), arrivals);
    if s < |b.settlements| {
      RecordsAbout(b.records, s);
    }
  }

  lemma {:induction false} RecordsAbout(records: seq<Record>, s: nat)
    requires forall i: nat :: i < |records| ==> records[i].settlement == i
    ensures Sum(records, About(s)) == if s < |records| then 1 else 0
  {
    if records != [] {
      RecordsAbout(records[..|records| - 1], s);
    }
  }

  /** A report is MATCHED exactly when it is new and the latest operation it refers to has
      SUCCEEDED for the same amount and currency, whatever was recorded about that operation. */
  lemma MatchedExactlyWhen(b: Books, a: Arrival)
    ensures var op := Latest(a.db, a.references, a.report.providerReference, |a.db.operations|);
            IngestSpec(b, a.db, a.references, a.report).1 == Ok(Concluded(Matched)) <==>
              && WellFormed(a.report) && Find(b.settlements, IsReportOf(a.report.provider, a.report.reference)) < 0
              && op >= 0
              && a.db.operations[op].status == OpSucceeded
              && a.db.payments[a.db.operations[op].payment].amount == a.report.amount
              && a.db.payments[a.db.operations[op].payment].currency == a.report.currency
  {
  }

  /** The operation the report is about: the latest that carries its provider reference. */
  predicate IsAbout(a: Arrival, op: Option<nat>) {
    var n := if |a.references| < |a.db.operations| then |a.references| else |a.db.operations|;
    match op
    case Some(k) =>
      && k < n && a.references[k] == Some(a.report.providerReference) && a.db.operations[k].payment < |a.db.payments|
      && forall later: nat :: k < later < n && a.references[later] == Some(a.report.providerReference) ==>
           a.db.operations[later].payment >= |a.db.payments|
    case None =>
      forall k: nat :: k < n && a.references[k] == Some(a.report.providerReference) ==>
        a.db.operations[k].payment >= |a.db.payments|
  }

  lemma LatestIsAbout(a: Arrival, op: Option<nat>)
    requires IsAbout(a, op)
    ensures Latest(a.db, a.references, a.report.providerReference, |a.db.operations|) == if op.Some? then op.value else -1
  {
    var reference := a.report.providerReference;
    var found := Latest(a.db, a.references, reference, |a.db.operations|);
    if op.Some? {
      assert Refers(a.db, a.references, reference, op.value);
      assert found <= op.value;
    }
  }

  /** What two sides come to: the operation's status first, then the currency, then the amount. */
  function Finding(db: Db, op: nat, r: Report): Option<Code>
    requires op < |db.operations| && db.operations[op].payment < |db.payments|
  {
    var row := db.payments[db.operations[op].payment];
    if db.operations[op].status != OpSucceeded then Some(StatusMismatch)
    else if row.currency != r.currency then Some(CurrencyMismatch)
    else if row.amount != r.amount then Some(AmountMismatch)
    else None
  }

  /** All that a report does: refused if a field is missing, a duplicate if its provider and
      reference are known, and otherwise one settlement and one record, with what was expected,
      what was observed and the first difference between them. */
  lemma IngestInFull(b: Books, a: Arrival, op: Option<nat>)
    requires IsAbout(a, op)
    ensures op.Some? ==> op.value < |a.db.operations| && a.db.operations[op.value].payment < |a.db.payments|
    ensures var r, s := a.report, |b.settlements|;
            IngestSpec(b, a.db, a.references, r)
            == if r.provider == "" || r.reference == "" || r.providerReference == "" || r.amount <= 0 || |r.currency| != 3
               then (b, Err(IntentMismatch))
               else if exists i :: 0 <= i < s && b.settlements[i].provider == r.provider
                                   && b.settlements[i].reference == r.reference
               then (b, Ok(Duplicate))
               else if op.None? then
                 (Books(b.settlements + [Settlement(r.provider, r.reference, r.amount, r.currency, Discrepant)],
                        b.records + [Record(s, None, Discrepancy, Some(UnknownReference), None, r.amount, None, r.currency)]),
                  Ok(Concluded(Discrepancy)))
               else
                 var row := a.db.payments[a.db.operations[op.value].payment];
                 var code := Finding(a.db, op.value, r);
                 var conclusion := if code.None? then Matched else Discrepancy;
                 (Books(b.settlements + [Settlement(r.provider, r.reference, r.amount, r.currency,
                                                    if code.None? then Reconciled else Discrepant)],
                        b.records + [Record(s, op, conclusion, code, Some(row.amount), r.amount, Some(row.currency),
                                            r.currency)]),
                  Ok(Concluded(conclusion)))
  {
    LatestIsAbout(a, op);
    var mine := IsReportOf(a.report.provider, a.report.reference);
    var i := Find(b.settlements, mine);
    assert forall k :: 0 <= k < |b.settlements| ==>
        (mine(b.settlements[k]) <==> b.settlements[k].provider == a.report.provider
                                     && b.settlements[k].reference == a.report.reference);
  }

  /** Every MATCHED record comes from a report whose operation had SUCCEEDED, for the same
      amount and currency, when the report arrived. */
  lemma {:induction false} MatchedWasTrue(arrivals: seq<Arrival>, i: nat) returns (k: nat)
    requires var b := IngestAll(Books([], []), arrivals); i < |b.records| && b.records[i].conclusion == Matched
    ensures var c := IngestAll(Books([], []), arrivals).records[i];
            && k < |arrivals| && c.operation.Some?
            && var a := arrivals[k];
               var op := c.operation.value;
               && Refers(a.db, a.references, a.report.providerReference, op) && a.db.operations[op].status == OpSucceeded
               && a.db.payments[a.db.operations[op].payment].amount == c.observedAmount == a.report.amount
               && a.db.payments[a.db.operations[op].payment].currency == c.observedCurrency == a.report.currency
  {
    var last := |arrivals| - 1;
    var before := IngestAll(Books([], []), arrivals[..last]);
    if i < |before.records| {
      k := MatchedWasTrue(arrivals[..last], i);
    } else {
      k := last;
    }
  }

  lemma {:induction false} IngestAllGrows(b: Books, arrivals: seq<Arrival>)
    ensures var after := IngestAll(b, arrivals);
            |b.settlements| <= |after.settlements| && after.settlements[..|b.settlements|] == b.settlements
  {
    if arrivals != [] {
      IngestAllGrows(b, arrivals[..|arrivals| - 1]);
    }
  }

  /** The first well-formed report of its provider and reference. */
  predicate IsNew(arrivals: seq<Arrival>, k: nat)
    requires k < |arrivals|
  {
    WellFormed(arrivals[k].report) && !WasReported(arrivals[..k], arrivals[k].report.provider, arrivals[k].report.reference)
  }

  predicate WasReported(arrivals: seq<Arrival>, provider: string, reference: string) {
    exists j :: 0 <= j < |arrivals| && Names(arrivals[j].report, provider, reference)
  }

  predicate Names(r: Report, provider: string, reference: string) {
    WellFormed(r) && r.provider == provider && r.reference == reference
  }

  /** A settlement is there exactly when a well-formed report of it has arrived. */
  lemma {:induction false} KnownWhenReported(arrivals: seq<Arrival>, provider: string, reference: string)
    ensures Find(IngestAll(Books([], []), arrivals).settlements, IsReportOf(provider, reference)) >= 0 <==>
              WasReported(arrivals, provider, reference)
  {
    if arrivals != [] {
      var last := |arrivals| - 1;
      var a := arrivals[last];
      var before := IngestAll(Books([], []), arrivals[..last]);
      var after := IngestAll(Books([], []), arrivals);
      KnownWhenReported(arrivals[..last], provider, reference);
      KnownWhenReported(arrivals[..last], a.report.provider, a.report.reference);
      assert WasReported(arrivals, provider, reference) <==>
               WasReported(arrivals[..last], provider, reference) || Names(a.report, provider, reference) by {
        ReportedNext(arrivals, provider, reference);
      }
      var mine := IsReportOf(provider, reference);
      var s := Find(before.settlements, mine);
      if s >= 0 {
        assert mine(after.settlements[s]);
      }
      if |after.settlements| > |before.settlements| {
        assert mine(after.settlements[|before.settlements|]) <==> Names(a.report, provider, reference);
      }
    }
  }

  lemma ReportedNext(arrivals: seq<Arrival>, provider: string, reference: string)
    requires arrivals != []
    ensures var last := |arrivals| - 1;
            WasReported(arrivals, provider, reference) <==>
              WasReported(arrivals[..last], provider, reference) || Names(arrivals[last].report, provider, reference)
  {
    var last := |arrivals| - 1;
    if WasReported(arrivals[..last], provider, reference) {
      var j :| 0 <= j < last && Names(arrivals[..last][j].report, provider, reference);
      assert arrivals[j] == arrivals[..last][j];
    }
    if WasReported(arrivals, provider, reference) {
      var j :| 0 <= j < |arrivals| && Names(arrivals[j].report, provider, reference);
      assert j < last ==> arrivals[..last][j] == arrivals[j];
    }
  }

  function OfOperation(op: nat): Record -> int {
    (c: Record) => if c.operation == Some(op) then 1 else 0
  }

  /** How many settlements were reported whose report was about the operation when it arrived. */
  function ReportsAbout(arrivals: seq<Arrival>, op: nat): int {
    if arrivals == [] then 0
    else
      var last := |arrivals| - 1;
      var a := arrivals[last];
      ReportsAbout(arrivals[..last], op)
      + if IsNew(arrivals, last) && Latest(a.db, a.references, a.report.providerReference, |a.db.operations|) == op then 1 else 0
  }

  /** Reports are deduplicated by their settlement, never by their operation: an operation
      has exactly as many records as settlements were reported about it. */
  lemma {:induction false} OneRecordPerReport(arrivals: seq<Arrival>, op: nat)
    ensures Sum(IngestAll(Books([], []), arrivals).records, OfOperation(op)) == ReportsAbout(arrivals, op)
  {
    hide Sum;
    if arrivals == [] {
      SumZero([], OfOperation(op));
    } else {
      var last := |arrivals| - 1;
      var a := arrivals[last];
      var before := IngestAll(Books([], []), arrivals[..last]);
      OneRecordPerReport(arrivals[..last], op);
      KnownWhenReported(arrivals[..last], a.report.provider, a.report.reference);
      if IsNew(arrivals, last) {
        var found := Latest(a.db, a.references, a.report.providerReference, |a.db.operations|);
        SumAppend(before.records, RecordFor(a.db, found, a.report, |before.settlements|), OfOperation(op));
      }
    }
  }

  /** A second report about a matched operation, under a reference of its own and for another
      amount, is recorded as a DISCREPANCY beside the MATCHED record. */
  lemma CorrectionIsRecorded(b: Books, first: Arrival, second: Arrival)
    requires IngestSpec(b, first.db, first.references, first.report).1 == Ok(Concluded(Matched))
    requires second == first.(report := second.report) && WellFormed(second.report)
    requires second.report.providerReference == first.report.providerReference
    requires second.report.amount != first.report.amount
    requires Find(IngestSpec(b, first.db, first.references, first.report).0.settlements,
                  IsReportOf(second.report.provider, second.report.reference)) < 0
    ensures var matched := IngestSpec(b, first.db, first.references, first.report).0;
            var (after, answer) := IngestSpec(matched, second.db, second.references, second.report);
            var n := |b.records|;
            && answer == Ok(Concluded(Discrepancy)) && |after.records| == n + 2
            && after.records[n].operation.Some? && after.records[n + 1].operation == after.records[n].operation
            && after.records[n].conclusion == Matched && after.records[n + 1].conclusion == Discrepancy
            && (second.report.currency == first.report.currency ==> after.records[n + 1].code == Some(AmountMismatch))
  {
  }

  /** An accepted report is accepted once: however many reports come between, replaying its
      provider and reference, even with other contents, is a DUPLICATE that changes
      nothing. A refused report changes nothing either. */
  lemma ReplayChangesNothing(b: Books, first: Arrival, between: seq<Arrival>, again: Arrival)
    requires IngestSpec(b, first.db, first.references, first.report).1.Ok? && WellFormed(again.report)
    requires again.report.provider == first.report.provider && again.report.reference == first.report.reference
    ensures var later := IngestAll(IngestSpec(b, first.db, first.references, first.report).0, between);
            IngestSpec(later, again.db, again.references, again.report) == (later, Ok(Duplicate))
    ensures IngestSpec(b, again.db, again.references, again.report).1.Err? ==>
              IngestSpec(b, again.db, again.references, again.report).0 == b
  {
    var accepted := IngestSpec(b, first.db, first.references, first.report).0;
    var later := IngestAll(accepted, between);
    IngestAllGrows(accepted, between);
    var mine := IsReportOf(first.report.provider, first.report.reference);
    var s := Find(b.settlements, mine);
    var i := if s >= 0 then s else |b.settlements|;
    assert mine(accepted.settlements[i]);
    assert later.settlements[i] == accepted.settlements[i];
  }
}
