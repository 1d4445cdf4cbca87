/** The trial balance, after any run of finalize, resolve, capture and refund. */
module TrialBalance {
  import opened Domain
  import opened Sums
  import opened Ledger
  import opened Controls
  import opened Machine
  import opened Rows
  import opened Safety

  /** A posting's effect on an account: debits add, credits subtract. */
  function Signed(account: nat, currency: Currency): Posting -> int {
    (q: Posting) =>
      if q.account != account || q.currency != currency then 0
      else if q.side == Debit then q.amount else -q.amount
  }

  function JournalNet(account: nat, currency: Currency): Journal -> int {
    (j: Journal) => Sum(j.postings, Signed(account, currency))
  }

  function AccountNet(db: Db, account: nat, currency: Currency): Money {
    Sum(db.journals, JournalNet(account, currency))
  }

  /** The accounts numbered below n, together. */
  function LedgerNet(db: Db, n: nat, currency: Currency): Money {
    if n == 0 then 0 else LedgerNet(db, n - 1, currency) + AccountNet(db, n - 1, currency)
  }

  predicate Balances(j: Journal) {
    && j.postings != [] && AllPositive(j.postings) && OneCurrency(j.postings, j.currency)
    && Total(j.postings, Debit) == Total(j.postings, Credit) > 0
  }

  /** The journal's two accounts: a capture debits the first and credits the second. */
  function Debited(j: Journal): nat {
    if |j.postings| == 2 then j.postings[0].account else 0
  }

  function Credited(j: Journal): nat {
    if |j.postings| == 2 then j.postings[1].account else 0
  }

  /** What the journal moves: its payment's amount, or its refund's. */
  function Moved(requests: seq<Request>, j: Journal): Money {
    if j.key.payment < |requests| then JournalAmount(requests, j.key) else 0
  }

  function When(b: bool, amount: Money): Money {
    if b then amount else 0
  }

  // An account's part in captures and refunds, as the customer's side or the clearing side.

  function CapturedFrom(requests: seq<Request>, x: nat, c: Currency): Journal -> int {
    (j: Journal) => When(j.key.JCapture? && j.currency == c && Debited(j) == x, Moved(requests, j))
  }

  function RefundedTo(requests: seq<Request>, x: nat, c: Currency): Journal -> int {
    (j: Journal) => When(j.key.JRefund? && j.currency == c && Credited(j) == x, Moved(requests, j))
  }

  function ClearedIn(requests: seq<Request>, x: nat, c: Currency): Journal -> int {
    (j: Journal) => When(j.key.JCapture? && j.currency == c && Credited(j) == x, Moved(requests, j))
  }

  function ClearedOut(requests: seq<Request>, x: nat, c: Currency): Journal -> int {
    (j: Journal) => When(j.key.JRefund? && j.currency == c && Debited(j) == x, Moved(requests, j))
  }

  /** Every stored journal balances in one currency. */
  lemma EveryJournalBalances(catalog: seq<PolicyVersion>, start: World, steps: seq<Step>, i: nat)
    requires Init(start)
    ensures var journals := Execute(catalog, start, steps).db.journals; i < |journals| ==> Balances(journals[i])
  {
    hide Sum;
    Reached(catalog, start, steps);
    var db := Execute(catalog, start, steps).db;
    if i < |db.journals| {
      var j := db.journals[i];
      assert JournalRow(db.requests, j);
      TransferTotals(j.postings[0].account, j.postings[1].account, JournalAmount(db.requests, j.key), j.currency);
    }
  }

  lemma JournalNetIs(requests: seq<Request>, j: Journal, x: nat, c: Currency)
    requires JournalRow(requests, j)
    ensures JournalNet(x, c)(j)
            == if j.currency != c then 0
               else When(Debited(j) == x, Moved(requests, j)) - When(Credited(j) == x, Moved(requests, j))
  {
    hide Sum;
    var f := Signed(x, c);
    assert j.postings == [] + [j.postings[0]] + [j.postings[1]];
    SumAppend([], j.postings[0], f);
    SumAppend([] + [j.postings[0]], j.postings[1], f);
    SumZero([], f);
  }

  lemma {:induction false} NetSplits(requests: seq<Request>, journals: seq<Journal>, x: nat, c: Currency)
    requires forall i :: 0 <= i < |journals| ==> JournalRow(requests, journals[i])
    ensures Sum(journals, JournalNet(x, c))
            == Sum(journals, CapturedFrom(requests, x, c)) - Sum(journals, RefundedTo(requests, x, c))
               - Sum(journals, ClearedIn(requests, x, c)) + Sum(journals, ClearedOut(requests, x, c))
  {
    if journals != [] {
      var last := |journals| - 1;
      NetSplits(requests, journals[..last], x, c);
      JournalNetIs(requests, journals[last], x, c);
    }
  }

  /** Every account's net is what was captured from it less what was refunded to it, and
      the mirror image where it stands on the clearing side; so the net of an account that
      is only ever a customer's is its captures minus its refunds. */
  lemma AccountNetIsCapturesLessRefunds(catalog: seq<PolicyVersion>, start: World, steps: seq<Step>, x: nat, c: Currency)
    requires Init(start)
    ensures var db := Execute(catalog, start, steps).db;
            var captured := Sum(db.journals, CapturedFrom(db.requests, x, c));
            var refunded := Sum(db.journals, RefundedTo(db.requests, x, c));
            && AccountNet(db, x, c)
               == captured - refunded
                  - Sum(db.journals, ClearedIn(db.requests, x, c)) + Sum(db.journals, ClearedOut(db.requests, x, c))
            && ((forall i :: 0 <= i < |db.journals| ==>
                  (if db.journals[i].key.JCapture? then Credited(db.journals[i]) else Debited(db.journals[i])) != x)
                ==> AccountNet(db, x, c) == captured - refunded)
  {
    hide Sum;
    Reached(catalog, start, steps);
    var db := Execute(catalog, start, steps).db;
    NetSplits(db.requests, db.journals, x, c);
    if forall i :: 0 <= i < |db.journals| ==>
         (if db.journals[i].key.JCapture? then Credited(db.journals[i]) else Debited(db.journals[i])) != x {
      SumZero(db.journals, ClearedIn(db.requests, x, c));
      SumZero(db.journals, ClearedOut(db.requests, x, c));
    }
  }

  /** A journal's part in the accounts below n. */
  function Below(requests: seq<Request>, n: nat, c: Currency): Journal -> int {
    (j: Journal) =>
      if j.currency != c then 0
      else When(Debited(j) < n, Moved(requests, j)) - When(Credited(j) < n, Moved(requests, j))
  }

  lemma {:induction false} LedgerByJournal(db: Db, n: nat, c: Currency)
    requires JournalRows(db.requests, db.journals)
    ensures LedgerNet(db, n, c) == Sum(db.journals, Below(db.requests, n, c))
  {
    hide Sum, JournalNet, JournalRow;
    if n == 0 {
      SumZero(db.journals, Below(db.requests, 0, c));
    } else {
      LedgerByJournal(db, n - 1, c);
      forall i | 0 <= i < |db.journals|
        ensures Below(db.requests, n, c)(db.journals[i])
                == Below(db.requests, n - 1, c)(db.journals[i]) + JournalNet(n - 1, c)(db.journals[i])
      {
        JournalNetIs(db.requests, db.journals[i], n - 1, c);
      }
      SumPlus(db.journals, Below(db.requests, n - 1, c), JournalNet(n - 1, c), Below(db.requests, n, c));
    }
  }

  /** The net over all accounts is zero in every currency. */
  lemma LedgerNetIsZero(catalog: seq<PolicyVersion>, start: World, steps: seq<Step>, accounts: nat, c: Currency)
    requires Init(start)
    ensures var db := Execute(catalog, start, steps).db;
            (forall i, k :: 0 <= i < |db.journals| && 0 <= k < |db.journals[i].postings| ==>
               db.journals[i].postings[k].account < accounts)
            ==> LedgerNet(db, accounts, c) == 0
  {
    hide Sum;
    Reached(catalog, start, steps);
    var db := Execute(catalog, start, steps).db;
    if forall i, k :: 0 <= i < |db.journals| && 0 <= k < |db.journals[i].postings| ==>
         db.journals[i].postings[k].account < accounts {
      LedgerByJournal(db, accounts, c);
      forall i | 0 <= i < |db.journals|
        ensures Below(db.requests, accounts, c)(db.journals[i]) == 0
      {
        assert JournalRow(db.requests, db.journals[i]);
        assert db.journals[i].postings[0].account < accounts && db.journals[i].postings[1].account < accounts;
      }
      SumZero(db.journals, Below(db.requests, accounts, c));
    }
  }
}
