/** What every run keeps: the books in lock-step with the states, and money conserved overall. */
module Conservation {
  import opened Common
  import opened MoneyTypes
  import opened Pricing
  import opened Ledger
  import opened StateMachine
  import opened Transactions
  import opened Payments
  import opened Worlds

  /** The world after any sequence of events from nothing. */
  function Reached(ms: seq<Moment>): (w: World)
    ensures Inv(w)
  {
    EmptyInv();
    RunKeepsInv(EMPTY, ms);
    Run(EMPTY, ms)
  }

  /** Lock-step over every run: the five balances of every payment are what its state says. */
  lemma BooksFollowState(ms: seq<Moment>, id: string, a: Account, c: Currency)
    requires id in Reached(ms).txs
    ensures var w := Reached(ms);
      Net(ForTransaction(w.postings, id), a, c) == if c == w.txs[id].amount.currency then Expected(w.txs[id], a) else 0
  {
    BalanceOf(Reached(ms), id, a, c);
  }

  lemma HealthyIsLockStepped(p: Payment)
    requires Healthy(p)
    ensures LockStepped(p)
  {
    if p.tx.provenance == RailVerified {
      DefaultFeeCovers(p.tx);
    }
    LockStep(p);
  }

  lemma BalanceOf(w: World, id: string, a: Account, c: Currency)
    requires Inv(w) && id in w.txs
    ensures Net(ForTransaction(w.postings, id), a, c)
         == if c == w.txs[id].amount.currency then Expected(w.txs[id], a) else 0
  {
    HealthyIsLockStepped(PaymentOf(w, id));
  }

  /** Every history in every run is a legal path to the current state, repeats no state, and is short. */
  lemma HistoriesSound(ms: seq<Moment>, id: string)
    requires id in Reached(ms).txs
    ensures SoundHistory(Reached(ms).txs[id])
  {
    HealthyHistory(PaymentOf(Reached(ms), id));
  }

  ghost predicate SoundHistory(t: Tx) {
    && LegalPath(t.history)
    && t.history[|t.history| - 1] == t.state
    && NoDuplicates(t.history)
    && |t.history| <= 7
  }

  lemma HealthyHistory(p: Payment)
    requires Healthy(p)
    ensures SoundHistory(p.tx)
  {
    if p.tx.provenance == RailVerified {
      HistorySound(p);
    }
  }

  /** Over every run: each leg of a payment asked at most once and rightly addressed; every request made
      after the move it goes with, the payout's after the collection was booked and the refund's after the
      payout failed; every posting after the move that calls for it; and never both a credit to the
      merchant and one to the customer. */
  lemma RailCallsDisciplined(ms: seq<Moment>, id: string)
    requires id in Reached(ms).txs
    ensures Disciplined(PaymentOf(Reached(ms), id))
  {
    HealthyIsDisciplined(PaymentOf(Reached(ms), id));
  }

  ghost predicate Disciplined(p: Payment) {
    && p.tx.amount.currency == p.tx.fee.currency
    && (forall i, j :: 0 <= i < j < |p.calls| ==> CallLeg(p.calls[i]) != CallLeg(p.calls[j]))
    && (forall c | c in p.calls :: Addressed(c, p.tx))
    && InOrder(p)
    && !(exists x, y :: x in p.books && y in p.books && Credits(x, Merchant) && Credits(y, Customer))
  }

  lemma HealthyIsDisciplined(p: Payment)
    requires Healthy(p)
    ensures Disciplined(p)
  {
    ActsInOrder(p);
    if p.tx.provenance == RailVerified {
      CallsDisciplined(p);
      NeverBothCredited(p);
    } else {
      assert |p.books| <= 1;
      OnNetCreditsMerchant(p.tx);
    }
  }

  lemma OnNetCreditsMerchant(t: Tx)
    ensures !Credits(OnNetPosting(t), Customer)
  {
  }

  /** All that is promised of one payment: its books follow its state, its history is sound, its requests
      are disciplined. */
  ghost predicate Fit(p: Payment) {
    LockStepped(p) && SoundHistory(p.tx) && Disciplined(p)
  }

  lemma HealthyIsFit(p: Payment)
    requires Healthy(p)
    ensures Fit(p)
  {
    HealthyIsLockStepped(p);
    HealthyHistory(p);
    HealthyIsDisciplined(p);
  }

  // ---- totals ----------------------------------------------------------------------

  function SumNet(order: seq<string>, postings: seq<Posting>, a: Account, c: Currency): int {
    if order == [] then 0
    else Net(ForTransaction(postings, order[0]), a, c) + SumNet(order[1..], postings, a, c)
  }

  function SumExpected(order: seq<string>, txs: map<string, Tx>, a: Account, c: Currency): int
    requires forall id | id in order :: id in txs
  {
    if order == [] then 0
    else
      (if txs[order[0]].amount.currency == c then Expected(txs[order[0]], a) else 0)
      + SumExpected(order[1..], txs, a, c)
  }

  lemma {:induction false} SumNetOfNothing(order: seq<string>, a: Account, c: Currency)
    ensures SumNet(order, [], a, c) == 0
  {
    if order != [] {
      SumNetOfNothing(order[1..], a, c);
    }
  }

  lemma {:induction false} SumNetPeels(order: seq<string>, p: Posting, rest: seq<Posting>, a: Account, c: Currency)
    requires NoDuplicateIds(order)
    ensures SumNet(order, [p] + rest, a, c)
         == SumNet(order, rest, a, c) + if p.txId in order then EntriesNet(p.entries, a, c) else 0
  {
    if order != [] {
      SumNetPeels(order[1..], p, rest, a, c);
      SelectConcat([p], rest, PostingOwner, order[0]);
      NetConcat(ForTransaction([p], order[0]), ForTransaction(rest, order[0]), a, c);
      assert order == [order[0]] + order[1..];
      assert order[0] !in order[1..];
    }
  }

  lemma {:induction false} NetSplits(order: seq<string>, postings: seq<Posting>, a: Account, c: Currency)
    requires NoDuplicateIds(order) && forall p | p in postings :: p.txId in order
    ensures Net(postings, a, c) == SumNet(order, postings, a, c)
  {
    if postings == [] {
      SumNetOfNothing(order, a, c);
    } else {
      assert postings == [postings[0]] + postings[1..];
      SumNetPeels(order, postings[0], postings[1..], a, c);
      NetSplits(order, postings[1..], a, c);
    }
  }

  ghost predicate AllLockStepped(w: World) {
    forall id {:trigger PaymentOf(w, id)} | id in w.txs :: LockStepped(PaymentOf(w, id))
  }

  lemma {:induction false} SumsAgree(w: World, order: seq<string>, a: Account, c: Currency)
    requires Structured(w) && AllLockStepped(w) && forall id | id in order :: id in w.txs
    ensures SumNet(order, w.postings, a, c) == SumExpected(order, w.txs, a, c)
  {
    if order != [] {
      assert LockStepped(PaymentOf(w, order[0]));
      SumsAgree(w, order[1..], a, c);
    }
  }

  /** Every account total is the sum, over the payments, of what their states say, wherever the books of each
      follow its state. */
  lemma TotalOf(w: World, a: Account, c: Currency)
    requires Structured(w) && AllLockStepped(w)
    ensures Net(w.postings, a, c) == SumExpected(w.order, w.txs, a, c)
  {
    NetSplits(w.order, w.postings, a, c);
    SumsAgree(w, w.order, a, c);
  }

  lemma InvIsLockStepped(w: World)
    requires Inv(w)
    ensures AllLockStepped(w)
  {
    forall id | id in w.txs ensures LockStepped(PaymentOf(w, id)) {
      HealthyIsLockStepped(PaymentOf(w, id));
    }
  }

  /** Every account total of every run is the sum, over the payments, of what their states say. */
  lemma TotalsFollowStates(ms: seq<Moment>, a: Account, c: Currency)
    ensures var w := Reached(ms);
      Net(w.postings, a, c) == SumExpected(w.order, w.txs, a, c)
  {
    InvIsLockStepped(Reached(ms));
    TotalOf(Reached(ms), a, c);
  }

  lemma ReachedBooksBalance(ms: seq<Moment>)
    ensures AllBalance(Reached(ms).postings)
  {
    var w := Reached(ms);
    forall x | x in w.postings ensures Balances(x.entries) {
      assert WellKept(PaymentOf(w, x.txId));
      BooksBalance(PaymentOf(w, x.txId));
      assert PostingOwner(x) == x.txId;
      assert x in ForTransaction(w.postings, x.txId);
    }
  }

  /** Money is conserved: in each currency the five accounts sum to zero after any run. */
  lemma MoneyConserved(ms: seq<Moment>, c: Currency)
    ensures var ps := Reached(ms).postings;
      Net(ps, Customer, c) + Net(ps, Merchant, c) + Net(ps, Clearing, c) + Net(ps, Revenue, c) + Net(ps, Expense, c) == 0
  {
    ReachedBooksBalance(ms);
    BooksSumToZero(Reached(ms).postings, c);
  }

  /** What payments in flight or under review hold at the provider. */
  function HeldInFlight(order: seq<string>, txs: map<string, Tx>, c: Currency): int
    requires forall id | id in order :: id in txs
  {
    if order == [] then 0
    else
      var t := txs[order[0]];
      (if t.amount.currency == c && t.provenance == RailVerified && t.state in {PayoutPending, RefundPending, ManualReview}
       then t.amount.minor - CollectionCost(t.amount, t.customerProvider).minor else 0)
      + HeldInFlight(order[1..], txs, c)
  }

  /** Collection costs spent on payments that were returned whole. */
  function SunkCosts(order: seq<string>, txs: map<string, Tx>, c: Currency): int
    requires forall id | id in order :: id in txs
  {
    if order == [] then 0
    else
      var t := txs[order[0]];
      (if t.amount.currency == c && t.provenance == RailVerified && t.state == Refunded
       then CollectionCost(t.amount, t.customerProvider).minor else 0)
      + SunkCosts(order[1..], txs, c)
  }

  lemma {:induction false} ClearingSplits(order: seq<string>, txs: map<string, Tx>, c: Currency)
    requires forall id | id in order :: id in txs
    ensures SumExpected(order, txs, Clearing, c) == HeldInFlight(order, txs, c) - SunkCosts(order, txs, c)
  {
    if order != [] {
      ClearingSplits(order[1..], txs, c);
    }
  }

  /** Clearing holds exactly what is in flight, short only by the sunk costs of refunds. */
  lemma ClearingExplained(ms: seq<Moment>, c: Currency)
    ensures var w := Reached(ms);
      Net(w.postings, Clearing, c) == HeldInFlight(w.order, w.txs, c) - SunkCosts(w.order, w.txs, c)
  {
    var w := Reached(ms);
    TotalsFollowStates(ms, Clearing, c);
    ClearingSplits(w.order, w.txs, c);
  }

  lemma NoMargin(t: Tx)
    requires t.amount.IsPositive() && Priced(t)
    ensures Expected(t, Revenue) == 0
  {
    if t.provenance == RailVerified {
      DefaultFeeCovers(t);
    }
  }

  /** Nothing unpaid for: a positive amount, at the production fee if routed. */
  ghost predicate AllPriced(txs: map<string, Tx>) {
    forall id | id in txs :: txs[id].amount.IsPositive() && Priced(txs[id])
  }

  lemma {:induction false} NoRevenueIn(order: seq<string>, txs: map<string, Tx>, c: Currency)
    requires AllPriced(txs) && forall id | id in order :: id in txs
    ensures SumExpected(order, txs, Revenue, c) == 0
  {
    if order != [] {
      NoMargin(txs[order[0]]);
      NoRevenueIn(order[1..], txs, c);
    }
  }

  lemma InvIsPriced(w: World)
    requires Inv(w)
    ensures AllPriced(w.txs)
  {
    forall id | id in w.txs ensures w.txs[id].amount.IsPositive() && Priced(w.txs[id]) {
      assert Healthy(PaymentOf(w, id));
    }
  }

  /** Pass-through pricing: no run ever books revenue. */
  lemma NoRevenue(ms: seq<Moment>, c: Currency)
    ensures Net(Reached(ms).postings, Revenue, c) == 0
  {
    var w := Reached(ms);
    InvIsPriced(w);
    TotalsFollowStates(ms, Revenue, c);
    NoRevenueIn(w.order, w.txs, c);
  }
}
