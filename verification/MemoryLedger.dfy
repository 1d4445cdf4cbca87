/** The in-memory ledger: reference/implementation/src/agent_pay/ledger.py:9-51. Its journals may have any
    number of postings. */
module MemoryLedgers {
  import opened Domain
  import opened Sums
  import opened Ledger
  import opened TrialBalance

  /** The dictionary of journals, in order of insertion. */
  datatype Entry = Entry(id: string, postings: seq<Posting>)

  predicate Validates(postings: seq<Posting>) {
    && postings != [] && OneCurrency(postings, postings[0].currency) && AllPositive(postings)
    && Total(postings, Debit) == Total(postings, Credit) > 0
  }

  function HasId(id: string): Entry -> bool {
    (e: Entry) => e.id == id
  }

  function PostSpec(entries: seq<Entry>, e: Entry): (seq<Entry>, Result<()>) {
    if !Validates(e.postings) then (entries, Err(UnbalancedJournal))
    else
      var i := Find(entries, HasId(e.id));
      if i < 0 then (entries + [e], Ok(()))
      else (entries, if entries[i] == e then Ok(()) else Err(KeyReused))
  }

  class InMemoryLedger {
    var journals: seq<Entry>

    constructor ()
      ensures journals == []
    {
      journals := [];
    }

    method Validate(e: Entry) returns (r: Result<()>)
      ensures r == if Validates(e.postings) then Ok(()) else Err(UnbalancedJournal)
    {
      var postings := e.postings;
      if postings == [] {
        return Err(UnbalancedJournal);
      }
      var debit, credit, i := 0, 0, 0;
      var oneCurrency, positive := true, true;
      while i < |postings|
        invariant 0 <= i <= |postings|
        invariant debit == Total(postings[..i], Debit) && credit == Total(postings[..i], Credit)
        invariant oneCurrency <==> OneCurrency(postings[..i], postings[0].currency)
        invariant positive <==> AllPositive(postings[..i])
      {
        SumAppend(postings[..i], postings[i], SideAmount(Debit));
        SumAppend(postings[..i], postings[i], SideAmount(Credit));
        assert postings[..i + 1] == postings[..i] + [postings[i]];
        if postings[i].side == Debit {
          debit := debit + postings[i].amount;
        } else {
          credit := credit + postings[i].amount;
        }
        oneCurrency := oneCurrency && postings[i].currency == postings[0].currency;
        positive := positive && postings[i].amount > 0;
        i := i + 1;
      }
      assert postings[..|postings|] == postings;
      if !oneCurrency {
        return Err(UnbalancedJournal);
      }
      if debit <= 0 || credit <= 0 || debit != credit {
        return Err(UnbalancedJournal);
      }
      if !positive {
        return Err(UnbalancedJournal);
      }
      return Ok(());
    }

    method Post(e: Entry) returns (r: Result<()>)
      modifies this
      ensures (journals, r) == PostSpec(old(journals), e)
    {
      var _ :- Validate(e);
      var i := Find(journals, HasId(e.id));
      if i >= 0 {
        return if journals[i] != e then Err(KeyReused) else Ok(());
      }
      journals := journals + [e];
      return Ok(());
    }
  }

  function PostAll(posted: seq<Entry>): seq<Entry> {
    if posted == [] then [] else PostSpec(PostAll(posted[..|posted| - 1]), posted[|posted| - 1]).0
  }

  // --- the net over all accounts ---

  function EntryNet(account: nat, currency: Currency): Entry -> int {
    (e: Entry) => Sum(e.postings, Signed(account, currency))
  }

  /** The accounts numbered below n, together. */
  function BooksNet(entries: seq<Entry>, n: nat, currency: Currency): Money {
    if n == 0 then 0 else BooksNet(entries, n - 1, currency) + Sum(entries, EntryNet(n - 1, currency))
  }

  function SignedBelow(n: nat, currency: Currency): Posting -> int {
    (q: Posting) =>
      if q.account >= n || q.currency != currency then 0
      else if q.side == Debit then q.amount else -q.amount
  }

  function NetBelow(n: nat, currency: Currency): Entry -> int {
    (e: Entry) => Sum(e.postings, SignedBelow(n, currency))
  }

  lemma {:induction false} BooksByEntry(entries: seq<Entry>, n: nat, c: Currency)
    ensures BooksNet(entries, n, c) == Sum(entries, NetBelow(n, c))
  {
    hide Sum;
    if n == 0 {
      forall i | 0 <= i < |entries|
        ensures NetBelow(0, c)(entries[i]) == 0
      {
        SumZero(entries[i].postings, SignedBelow(0, c));
      }
      SumZero(entries, NetBelow(0, c));
    } else {
      BooksByEntry(entries, n - 1, c);
      forall i | 0 <= i < |entries|
        ensures NetBelow(n, c)(entries[i]) == NetBelow(n - 1, c)(entries[i]) + EntryNet(n - 1, c)(entries[i])
      {
        SumPlus(entries[i].postings, SignedBelow(n - 1, c), Signed(n - 1, c), SignedBelow(n, c));
      }
      SumPlus(entries, NetBelow(n - 1, c), EntryNet(n - 1, c), NetBelow(n, c));
    }
  }

  /** A valid journal's postings cancel out. */
  lemma {:induction false} SignedIsDebitLessCredit(postings: seq<Posting>, n: nat, c: Currency)
    requires forall i :: 0 <= i < |postings| ==> postings[i].account < n && postings[i].currency == c
    ensures Sum(postings, SignedBelow(n, c)) == Total(postings, Debit) - Total(postings, Credit)
  {
    if postings != [] {
      SignedIsDebitLessCredit(postings[..|postings| - 1], n, c);
    }
  }

  lemma {:induction false} AllValid(posted: seq<Entry>)
    ensures forall i :: 0 <= i < |PostAll(posted)| ==> Validates(PostAll(posted)[i].postings)
    ensures forall i, j :: 0 <= i < j < |PostAll(posted)| ==> PostAll(posted)[i].id != PostAll(posted)[j].id
  {
    hide Sum, Validates;
    if posted != [] {
      AllValid(posted[..|posted| - 1]);
    }
  }

  /** Every answer of a post, after any posts before it: an unbalanced journal is refused, a new
      id is stored, a stored journal is accepted again, and any other under its id refused. */
  lemma PostAnswers(posted: seq<Entry>, e: Entry)
    ensures var entries := PostAll(posted);
            PostSpec(entries, e)
            == if e.postings == [] || Total(e.postings, Debit) <= 0 || Total(e.postings, Debit) != Total(e.postings, Credit)
                  || exists k :: 0 <= k < |e.postings|
                                 && (e.postings[k].amount <= 0 || e.postings[k].currency != e.postings[0].currency)
               then (entries, Err(UnbalancedJournal))
               else if e in entries then (entries, Ok(()))
               else if exists i :: 0 <= i < |entries| && entries[i].id == e.id then (entries, Err(KeyReused))
               else (entries + [e], Ok(()))
  {
    hide Sum, PostAll;
    AllValid(posted);
    var entries := PostAll(posted);
    var i := Find(entries, HasId(e.id));
    if i < 0 {
      assert forall k :: 0 <= k < |entries| ==> !HasId(e.id)(entries[k]);
    } else {
      assert HasId(e.id)(entries[i]);
      assert forall k :: 0 <= k < |entries| && entries[k].id == e.id ==> k == i;
    }
  }

  /** Whatever is posted, in whatever order and however often: every stored journal is
      balanced in one currency, ids are not reused, and the net over all accounts is zero
      in every currency. */
  lemma MemoryLedgerBalances(posted: seq<Entry>, accounts: nat, c: Currency)
    ensures forall i :: 0 <= i < |PostAll(posted)| ==>
              var postings := PostAll(posted)[i].postings;
              && postings != [] && Total(postings, Debit) == Total(postings, Credit)
              && forall k :: 0 <= k < |postings| ==> postings[k].amount > 0 && postings[k].currency == postings[0].currency
    ensures forall i, j :: 0 <= i < j < |PostAll(posted)| ==> PostAll(posted)[i].id != PostAll(posted)[j].id
    ensures (forall e, q :: e in PostAll(posted) && q in e.postings ==> q.account < accounts)
            ==> BooksNet(PostAll(posted), accounts, c) == 0
  {
    hide Sum, PostAll;
    AllValid(posted);
    var entries := PostAll(posted);
    if forall e, q :: e in entries && q in e.postings ==> q.account < accounts {
      BooksByEntry(entries, accounts, c);
      forall i | 0 <= i < |entries|
        ensures NetBelow(accounts, c)(entries[i]) == 0
      {
        var postings := entries[i].postings;
        assert entries[i] in entries && forall k :: 0 <= k < |postings| ==> postings[k] in postings;
        if postings[0].currency == c {
          SignedIsDebitLessCredit(postings, accounts, c);
        } else {
          SumZero(postings, SignedBelow(accounts, c));
        }
      }
      SumZero(entries, NetBelow(accounts, c));
    }
  }
}
