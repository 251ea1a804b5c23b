/** Double-entry primitives and the append-only in-memory ledger. */
module Ledger {
  import opened Common
  import opened MoneyTypes

  datatype Direction = Debit | Credit

  datatype Account = Customer | Merchant | Clearing | Revenue | Expense

  datatype Entry = Entry(account: Account, direction: Direction, amount: Money)

  datatype Posting = Posting(txId: string, entries: seq<Entry>)

  /** Debits count up, credits count down. */
  function Signed(e: Entry): int {
    if e.direction == Debit then e.amount.minor else -e.amount.minor
  }

  function Imbalance(entries: seq<Entry>, c: Currency): int {
    if entries == [] then 0
    else (if entries[0].amount.currency == c then Signed(entries[0]) else 0) + Imbalance(entries[1..], c)
  }

  /** The constructor's test: two entries or more, debits equal to credits in every currency. */
  predicate Balances(entries: seq<Entry>) {
    |entries| >= 2 && Imbalance(entries, USD) == 0 && Imbalance(entries, CDF) == 0
  }

  /** What one side of a posting comes to in a currency. */
  function Total(entries: seq<Entry>, side: Direction, c: Currency): int {
    if entries == [] then 0
    else
      (if entries[0].direction == side && entries[0].amount.currency == c then entries[0].amount.minor else 0)
      + Total(entries[1..], side, c)
  }

  lemma {:induction false} ImbalanceIsDifference(entries: seq<Entry>, c: Currency)
    ensures Imbalance(entries, c) == Total(entries, Debit, c) - Total(entries, Credit, c)
  {
    if entries != [] {
      ImbalanceIsDifference(entries[1..], c);
    }
  }

  /** Balanced: two entries or more, and in every currency the debits come to what the credits do. */
  lemma BalancesMeans(entries: seq<Entry>)
    ensures Balances(entries) <==>
      |entries| >= 2 && forall c :: Total(entries, Debit, c) == Total(entries, Credit, c)
  {
    ImbalanceIsDifference(entries, USD);
    ImbalanceIsDifference(entries, CDF);
    if Balances(entries) {
      forall c ensures Total(entries, Debit, c) == Total(entries, Credit, c) {
        assert c == USD || c == CDF;
      }
    }
  }

  lemma {:induction false} ImbalanceConcat(s: seq<Entry>, t: seq<Entry>, c: Currency)
    ensures Imbalance(s + t, c) == Imbalance(s, c) + Imbalance(t, c)
  {
    if s == [] {
      assert s + t == t;
    } else {
      SplitFirst(s, t);
      ImbalanceConcat(s[1..], t, c);
    }
  }

  /** The check as the original runs it: one pass filling a dictionary of running totals. */
  method CheckBalanced(entries: seq<Entry>) returns (ok: bool)
    ensures ok == Balances(entries)
    ensures ok <==> |entries| >= 2 && forall c :: Total(entries, Debit, c) == Total(entries, Credit, c)
  {
    BalancesMeans(entries);
    if |entries| < 2 {
      return false;
    }
    var totals: map<Currency, int> := map[];
    for i := 0 to |entries|
      invariant forall c :: (if c in totals then totals[c] else 0) == Imbalance(entries[..i], c)
    {
      var e := entries[i];
      var c := e.amount.currency;
      assert entries[..i + 1] == entries[..i] + [e];
      forall k: Currency
        ensures Imbalance(entries[..i + 1], k) == Imbalance(entries[..i], k) + (if k == c then Signed(e) else 0)
      {
        ImbalanceConcat(entries[..i], [e], k);
      }
      totals := totals[c := (if c in totals then totals[c] else 0) + Signed(e)];
    }
    assert entries[..|entries|] == entries;
    ok := forall c | c in totals :: totals[c] == 0;
    assert (USD in totals || Imbalance(entries, USD) == 0) && (CDF in totals || Imbalance(entries, CDF) == 0);
  }

  // ---- account balances ----------------------------------------------------

  /** What the entries put into one account: credits less debits. */
  function EntriesNet(entries: seq<Entry>, a: Account, c: Currency): int {
    if entries == [] then 0
    else
      (if entries[0].account == a && entries[0].amount.currency == c then -Signed(entries[0]) else 0)
      + EntriesNet(entries[1..], a, c)
  }

  lemma {:induction false} EntriesNetConcat(s: seq<Entry>, t: seq<Entry>, a: Account, c: Currency)
    ensures EntriesNet(s + t, a, c) == EntriesNet(s, a, c) + EntriesNet(t, a, c)
  {
    if s == [] {
      assert s + t == t;
    } else {
      SplitFirst(s, t);
      EntriesNetConcat(s[1..], t, a, c);
    }
  }

  function Net(postings: seq<Posting>, a: Account, c: Currency): int {
    if postings == [] then 0
    else EntriesNet(postings[0].entries, a, c) + Net(postings[1..], a, c)
  }

  lemma {:induction false} NetConcat(s: seq<Posting>, t: seq<Posting>, a: Account, c: Currency)
    ensures Net(s + t, a, c) == Net(s, a, c) + Net(t, a, c)
  {
    if s == [] {
      assert s + t == t;
    } else {
      SplitFirst(s, t);
      NetConcat(s[1..], t, a, c);
    }
  }

  lemma {:induction false} EntriesSumToImbalance(entries: seq<Entry>, c: Currency)
    ensures EntriesNet(entries, Customer, c) + EntriesNet(entries, Merchant, c) + EntriesNet(entries, Clearing, c)
          + EntriesNet(entries, Revenue, c) + EntriesNet(entries, Expense, c) == -Imbalance(entries, c)
  {
    if entries != [] {
      EntriesSumToImbalance(entries[1..], c);
    }
  }

  /** Books made only of accepted postings sum to zero over the five accounts, in every currency. */
  lemma {:induction false} BooksSumToZero(postings: seq<Posting>, c: Currency)
    requires forall p | p in postings :: Balances(p.entries)
    ensures Net(postings, Customer, c) + Net(postings, Merchant, c) + Net(postings, Clearing, c)
          + Net(postings, Revenue, c) + Net(postings, Expense, c) == 0
  {
    if postings != [] {
      EntriesSumToImbalance(postings[0].entries, c);
      BooksSumToZero(postings[1..], c);
    }
  }

  // ---- one transaction's share of the books --------------------------------

  function PostingOwner(p: Posting): string {
    p.txId
  }

  function ForTransaction(postings: seq<Posting>, id: string): seq<Posting> {
    Select(postings, PostingOwner, id)
  }

  class InMemoryLedger {
    var postings: seq<Posting>

    constructor ()
      ensures postings == []
    {
      postings := [];
    }

    /** Append one posting, already accepted by the balance check. */
    method Post(posting: Posting)
      modifies this
      ensures postings == old(postings) + [posting]
    {
      postings := postings + [posting];
    }

    method SelectForTransaction(id: string) returns (r: seq<Posting>)
      ensures r == ForTransaction(postings, id)
    {
      r := [];
      for i := 0 to |postings|
        invariant r == ForTransaction(postings[..i], id)
      {
        assert postings[..i + 1] == postings[..i] + [postings[i]];
        SelectConcat(postings[..i], [postings[i]], PostingOwner, id);
        if postings[i].txId == id {
          r := r + [postings[i]];
        }
      }
      assert postings[..|postings|] == postings;
    }
  }
}
