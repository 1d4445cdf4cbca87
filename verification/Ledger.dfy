/** Double-entry journals and transaction rows: reference/implementation/src/agent_pay/ledger.py:54-85,
    lifecycle.py:68-86, webhook_resolution.py:147-170 and orchestrator.py:128-136. */
module Ledger {
  import opened Domain
  import opened Sums
  import opened Connections

  function SideAmount(side: Side): Posting -> int {
    (q: Posting) => if q.side == side then q.amount else 0
  }

  function Total(postings: seq<Posting>, side: Side): Money {
    Sum(postings, SideAmount(side))
  }

  predicate OneCurrency(postings: seq<Posting>, currency: Currency) {
    forall i :: 0 <= i < |postings| ==> postings[i].currency == currency
  }

  predicate AllPositive(postings: seq<Posting>) {
    forall i :: 0 <= i < |postings| ==> postings[i].amount > 0
  }

  function JournalHasKey(key: JournalKey): Journal -> bool {
    (j: Journal) => j.key == key
  }

  /** Balanced postings in one currency are stored once per key. */
  function PostJournal(db: Db, key: JournalKey, currency: Currency, postings: seq<Posting>): Attempt<nat> {
    var debit, credit := Total(postings, Debit), Total(postings, Credit);
    if postings == [] || debit <= 0 || credit <= 0 || debit != credit then Raised(UnbalancedJournal)
    else if !OneCurrency(postings, currency) then Raised(UnbalancedJournal)
    else
      var i := Find(db.journals, JournalHasKey(key));
      if i >= 0 then Done(db, i)
      else if !AllPositive(postings) then Raised(CheckViolation)
      else Done(db.(journals := db.journals + [Journal(key, currency, postings)]), |db.journals|)
  }

  /** A journal is stored exactly when it is balanced: not empty, of one currency, its debits
      equal to its credits and above zero, and no posting zero or negative; under a key that
      has a journal already, that one is kept whatever the postings' signs. */
  lemma PostInFull(db: Db, key: JournalKey, currency: Currency, postings: seq<Posting>)
    ensures var a := PostJournal(db, key, currency, postings);
            var known := exists i :: 0 <= i < |db.journals| && db.journals[i].key == key;
            var debit, credit := Total(postings, Debit), Total(postings, Credit);
            && (a.Done? <==>
                  && postings != [] && debit == credit > 0
                  && (forall i :: 0 <= i < |postings| ==> postings[i].currency == currency)
                  && (known || forall i :: 0 <= i < |postings| ==> postings[i].amount > 0))
            && (a.Done? ==>
                  && a.value < |a.db.journals| && a.db.journals[a.value].key == key
                  && a.db == if known then db else db.(journals := db.journals + [Journal(key, currency, postings)]))
  {
    hide Sum;
    var i := Find(db.journals, JournalHasKey(key));
    if i < 0 {
      assert forall k :: 0 <= k < |db.journals| ==> !JournalHasKey(key)(db.journals[k]);
    } else {
      assert db.journals[i].key == key;
    }
  }

  /** One amount moved from the first account's debit to the second's credit. */
  function Transfer(debit: nat, credit: nat, amount: Money, currency: Currency): seq<Posting> {
    [Posting(debit, Debit, amount, currency), Posting(credit, Credit, amount, currency)]
  }

  lemma TransferTotals(debit: nat, credit: nat, amount: Money, currency: Currency)
    ensures Total(Transfer(debit, credit, amount, currency), Debit) == amount
    ensures Total(Transfer(debit, credit, amount, currency), Credit) == amount
  {
    var postings := Transfer(debit, credit, amount, currency);
    assert postings == [] + [postings[0]] + [postings[1]];
    forall side: Side
      ensures Total(postings, side) == amount
    {
      SumAppend([], postings[0], SideAmount(side));
      SumAppend([] + [postings[0]], postings[1], SideAmount(side));
      assert Sum([], SideAmount(side)) == 0;
    }
  }

  function TxHasKey(key: TxKey): Transaction -> bool {
    (t: Transaction) => t.key == key
  }

  /** Insert, unless a row already has the key. */
  function CreateTransaction(db: Db, row: Transaction): (created: (Db, nat))
    ensures created.1 < |created.0.transactions|
    ensures created.0.transactions[created.1].key == row.key
  {
    var i := Find(db.transactions, TxHasKey(row.key));
    if i >= 0 then (db, i) else (db.(transactions := db.transactions + [row]), |db.transactions|)
  }

  function SetTxStatus(db: Db, t: nat, status: TxStatus): Db
    requires t < |db.transactions|
  {
    db.(transactions := db.transactions[t := db.transactions[t].(status := status)])
  }

  class LedgerRepository {
    const conn: Connection

    constructor (conn: Connection)
      ensures this.conn == conn
    {
      this.conn := conn;
    }

    method Post(key: JournalKey, currency: Currency, postings: seq<Posting>) returns (r: Result<nat>)
      modifies conn`db
      ensures Agrees(PostJournal(old(conn.db), key, currency, postings), conn.db, r)
    {
      var debit, credit := 0, 0;
      var i := 0;
      while i < |postings|
        invariant 0 <= i <= |postings|
        invariant debit == Total(postings[..i], Debit) && credit == Total(postings[..i], Credit)
        invariant conn.db == old(conn.db)
      {
        SumAppend(postings[..i], postings[i], SideAmount(Debit));
        SumAppend(postings[..i], postings[i], SideAmount(Credit));
        assert postings[..i + 1] == postings[..i] + [postings[i]];
        if postings[i].side == Debit {
          debit := debit + postings[i].amount;
        } else {
          credit := credit + postings[i].amount;
        }
        i := i + 1;
      }
      assert postings[..|postings|] == postings;
      if |postings| == 0 || debit <= 0 || credit <= 0 || debit != credit {
        return Err(UnbalancedJournal);
      }
      if exists k :: 0 <= k < |postings| && postings[k].currency != currency {
        return Err(UnbalancedJournal);
      }
      var existing := Find(conn.db.journals, JournalHasKey(key));
      if existing >= 0 {
        return Ok(existing);
      }
      r := Ok(|conn.db.journals|);
      var stored: seq<Posting> := [];
      i := 0;
      while i < |postings|
        invariant 0 <= i <= |postings|
        invariant stored == postings[..i] && AllPositive(stored)
        invariant conn.db == old(conn.db)
      {
        if postings[i].amount <= 0 {
          return Err(CheckViolation);
        }
        stored := stored + [postings[i]];
        i := i + 1;
      }
      conn.db := conn.db.(journals := conn.db.journals + [Journal(key, currency, stored)]);
    }

    method InsertTransaction(row: Transaction) returns (t: nat)
      modifies conn`db
      ensures (conn.db, t) == CreateTransaction(old(conn.db), row)
      ensures t < |conn.db.transactions|
    {
      var i := Find(conn.db.transactions, TxHasKey(row.key));
      if i >= 0 {
        return i;
      }
      t := |conn.db.transactions|;
      conn.db := conn.db.(transactions := conn.db.transactions + [row]);
    }

    method MarkTransaction(t: nat, status: TxStatus)
      requires t < |conn.db.transactions|
      modifies conn`db
      ensures conn.db == SetTxStatus(old(conn.db), t, status)
    {
      var row := conn.db.transactions[t];
      conn.db := conn.db.(transactions := conn.db.transactions[t := row.(status := status)]);
    }
  }
}
