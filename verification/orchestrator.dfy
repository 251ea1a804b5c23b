/** The orchestrators, step by step, each proved to do what the value model says. */
module Orchestrators {
  import opened Common
  import opened MoneyTypes
  import opened Pricing
  import opened Ledger
  import opened StateMachine
  import opened Transactions
  import opened Payments
  import opened Worlds
  import opened Memory

  /** Two effects on one transaction, one after the other, land as one. */
  lemma CommitThen(w: World, e: Effect, f: Effect)
    requires f.tx.id == e.tx.id
    ensures Commit(Commit(w, e), f) == Commit(w, Then(e, f))
  {
    assert w.postings + e.posts + f.posts == w.postings + (e.posts + f.posts);
    assert w.calls + e.calls + f.calls == w.calls + (e.calls + f.calls);
    assert w.trace + e.trace + f.trace == w.trace + (e.trace + f.trace);
    assert w.txs[e.tx.id := e.tx][f.tx.id := f.tx] == w.txs[f.tx.id := f.tx];
  }

  lemma CommitNothing(w: World, t: Tx, fault: Fault)
    requires t.id in w.txs && w.txs[t.id] == t
    ensures Commit(w, Raise(t, fault)) == w
  {
    assert w.txs[t.id := t] == w.txs;
    assert w.postings + [] == w.postings && w.calls + [] == w.calls && w.trace + [] == w.trace;
  }

  /** Raising after an effect leaves what the effect left. */
  lemma CommitThenRaise(w: World, e: Effect, fault: Fault)
    ensures Commit(w, Then(e, Raise(e.tx, fault))) == Commit(w, e)
  {
    assert e.posts + [] == e.posts && e.calls + [] == e.calls && e.trace + [] == e.trace;
  }

  class Orchestrator {
    const store: TransactionStore
    const rail: Rail
    const ledger: InMemoryLedger

    constructor (store: TransactionStore, rail: Rail, ledger: InMemoryLedger)
      ensures this.store == store && this.rail == rail && this.ledger == ledger
    {
      this.store, this.rail, this.ledger := store, rail, ledger;
    }

    ghost function Now(): World
      reads store, store.rows.Values, rail, ledger
    {
      WorldOf(store, rail, ledger)
    }

    /** `t` is the stored object of its id. */
    ghost predicate Holds(t: Transaction)
      reads store
    {
      store.Valid() && t.id in store.rows && store.rows[t.id] == t
    }

    /** Updating one stored object and appending to the three logs is committing its new row and what was
        appended. */
    twostate lemma Committed(t: Transaction)
      requires old(Holds(t)) && Holds(t) && store.rows == old(store.rows) && store.order == old(store.order)
      requires forall id | id in store.rows && id != t.id :: unchanged(store.rows[id])
      requires old(ledger.postings) <= ledger.postings && old(rail.calls) <= rail.calls && old(store.trace) <= store.trace
      ensures forall fault ::
        Now() == Commit(old(Now()), Effect(t.View(), ledger.postings[|old(ledger.postings)|..],
                                           rail.calls[|old(rail.calls)|..], store.trace[|old(store.trace)|..], fault))
    {
      store.RowChanged(t);
    }

    method Transition(t: Transaction, dst: TxState) returns (fault: Fault)
      requires Holds(t)
      modifies t, store
      ensures Holds(t) && store.rows == old(store.rows)
      ensures var e := Enter(old(t.View()), dst);
        fault == e.fault && t.View() == e.tx && Now() == Commit(old(Now()), e)
    {
      if !CanTransition(t.state, dst) {
        CommitNothing(Now(), t.View(), IllegalTransition(t.state, dst));
        return IllegalTransition(t.state, dst);
      }
      t.state := dst;
      t.history := t.history + [dst];
      fault := store.Save(t);
      store.trace := store.trace + [Entered(t.id, dst)];
      Committed(t);
      assert ledger.postings[|old(ledger.postings)|..] == [] && rail.calls[|old(rail.calls)|..] == [];
      assert store.trace[|old(store.trace)|..] == [Entered(t.id, dst)];
    }

    method StoreOpId(t: Transaction, kind: Leg, opId: Option<string>)
      requires Holds(t)
      modifies t, store
      ensures Holds(t) && store.rows == old(store.rows)
      ensures var e := StoreId(old(t.View()), kind, opId); t.View() == e.tx && Now() == Commit(old(Now()), e)
    {
      if opId == None {
        CommitNothing(Now(), t.View(), NoFault);
        return;
      }
      match kind {
        case Deposit => t.depositId := opId;
        case Payout => t.payoutId := opId;
        case Refund => t.refundId := opId;
      }
      var fault := store.Save(t);
      Committed(t);
      assert ledger.postings[|old(ledger.postings)|..] == [] && rail.calls[|old(rail.calls)|..] == [];
      assert store.trace[|old(store.trace)|..] == [];
    }

    /** Build a posting and append it, unless the constructor refuses it. */
    method Post(t: Transaction, posting: Posting) returns (fault: Fault)
      requires Holds(t) && posting.txId == t.id
      modifies ledger, store`trace
      ensures Holds(t)
      ensures var e := Book(t.View(), posting); fault == e.fault && Now() == Commit(old(Now()), e)
    {
      var ok := CheckBalanced(posting.entries);
      if !ok {
        CommitNothing(Now(), t.View(), UnbalancedPosting);
        return UnbalancedPosting;
      }
      ledger.Post(posting);
      store.trace := store.trace + [Booked(posting)];
      Committed(t);
      assert ledger.postings[|old(ledger.postings)|..] == [posting] && rail.calls[|old(rail.calls)|..] == [];
      assert store.trace[|old(store.trace)|..] == [Booked(posting)];
      fault := NoFault;
    }

    // ---- requests to the rail ------------------------------------------------------------

    method AskCollection(t: Transaction) returns (answer: Answer)
      requires Holds(t)
      modifies rail`calls, store`trace
      ensures Holds(t) && answer == rail.answers(t.id).deposit
      ensures Now() == Commit(old(Now()), Ask(t.View(), CollectCall(t.id, t.customerMsisdn, t.amount, t.customerProvider, answer)))
    {
      answer := rail.RequestCollection(t.id, t.customerMsisdn, t.amount, t.customerProvider);
      ghost var call := CollectCall(t.id, t.customerMsisdn, t.amount, t.customerProvider, answer);
      store.trace := store.trace + [Asked(call)];
      Committed(t);
      assert ledger.postings[|old(ledger.postings)|..] == [] && rail.calls[|old(rail.calls)|..] == [call];
      assert store.trace[|old(store.trace)|..] == [Asked(call)];
    }

    method AskPayout(t: Transaction, amount: Money) returns (answer: Answer)
      requires Holds(t)
      modifies rail`calls, store`trace
      ensures Holds(t) && answer == rail.answers(t.id).payout
      ensures Now() == Commit(old(Now()), Ask(t.View(), PayoutCall(t.id, t.merchantMsisdn, amount, t.merchantProvider, answer)))
    {
      answer := rail.RequestPayout(t.id, t.merchantMsisdn, amount, t.merchantProvider);
      ghost var call := PayoutCall(t.id, t.merchantMsisdn, amount, t.merchantProvider, answer);
      store.trace := store.trace + [Asked(call)];
      Committed(t);
      assert ledger.postings[|old(ledger.postings)|..] == [] && rail.calls[|old(rail.calls)|..] == [call];
      assert store.trace[|old(store.trace)|..] == [Asked(call)];
    }

    method AskRefund(t: Transaction) returns (answer: Answer)
      requires Holds(t)
      modifies rail`calls, store`trace
      ensures Holds(t) && answer == rail.answers(t.id).refund
      ensures Now() == Commit(old(Now()), Ask(t.View(), RefundCall(t.id, t.depositId, t.amount, t.customerProvider, answer)))
    {
      answer := rail.RequestRefund(t.id, t.depositId, t.amount, t.customerProvider);
      ghost var call := RefundCall(t.id, t.depositId, t.amount, t.customerProvider, answer);
      store.trace := store.trace + [Asked(call)];
      Committed(t);
      assert ledger.postings[|old(ledger.postings)|..] == [] && rail.calls[|old(rail.calls)|..] == [call];
      assert store.trace[|old(store.trace)|..] == [Asked(call)];
    }

    // ---- the handlers --------------------------------------------------------------------

    method BeginRefund(t: Transaction) returns (fault: Fault)
      requires Holds(t)
      modifies t, store, rail`calls
      ensures Holds(t) && store.rows == old(store.rows)
      ensures var e := Payments.BeginRefund(old(t.View()), rail.answers(t.id));
        fault == e.fault && t.View() == e.tx && Now() == Commit(old(Now()), e)
    {
      ghost var w, e1 := Now(), Enter(t.View(), RefundPending);
      fault := Transition(t, RefundPending);
      if fault != NoFault {
        return;
      }
      if t.customerProvider == "" {
        CommitThenRaise(w, e1, MissingProvider(Deposit));
        return MissingProvider(Deposit);
      }
      var answer := AskRefund(t);
      ghost var asked := Ask(e1.tx, RefundCall(t.id, t.depositId, t.amount, t.customerProvider, answer));
      CommitThen(w, e1, asked);
      RefundAnswered(t, answer);
      CommitThen(w, Then(e1, asked), RefundAnswer(e1.tx, answer));
    }

    ghost function RefundAnswer(t: Tx, answer: Answer): Effect {
      if answer.Accepted? then StoreId(t, Refund, answer.opId) else Enter(t, ManualReview)
    }

    method RefundAnswered(t: Transaction, answer: Answer)
      requires Holds(t)
      modifies t, store
      ensures Holds(t) && store.rows == old(store.rows)
      ensures var e := RefundAnswer(old(t.View()), answer); t.View() == e.tx && Now() == Commit(old(Now()), e)
    {
      match answer {
        case Rejected =>
          var _ := Transition(t, ManualReview);
        case Accepted(opId) =>
          StoreOpId(t, Refund, opId);
      }
    }

    method BeginPayout(t: Transaction) returns (fault: Fault)
      requires Holds(t)
      modifies t, store, rail`calls
      ensures Holds(t) && store.rows == old(store.rows)
      ensures var e := Payments.BeginPayout(old(t.View()), rail.answers(t.id));
        fault == e.fault && t.View() == e.tx && Now() == Commit(old(Now()), e)
    {
      ghost var w, e1 := Now(), Enter(t.View(), PayoutPending);
      fault := Transition(t, PayoutPending);
      if fault != NoFault {
        return;
      }
      var merchantAmount := t.amount.Minus(t.fee);
      if t.merchantProvider == "" {
        CommitThenRaise(w, e1, MissingProvider(Payout));
        return MissingProvider(Payout);
      }
      fault := SendPayout(t, merchantAmount, w, e1);
    }

    /** The rest of it, from the payout request on. */
    ghost function PayoutSent(e1: Effect, a: Answers): Effect
      requires e1.tx.amount.currency == e1.tx.fee.currency
    {
      var t := e1.tx;
      var e2 := Then(e1, Ask(t, PayoutCall(t.id, t.merchantMsisdn, t.amount.Minus(t.fee), t.merchantProvider, a.payout)));
      match a.payout
      case Accepted(opId) => Then(e2, StoreId(t, Payout, opId))
      case Rejected =>
        var e3 := Then(e2, Enter(t, PayoutFailed));
        Then(e3, Payments.BeginRefund(e3.tx, a))
    }

    method SendPayout(t: Transaction, amount: Money, ghost w: World, ghost e1: Effect) returns (fault: Fault)
      requires Holds(t) && t.state == PayoutPending && amount == t.amount.Minus(t.fee)
      requires e1.tx == t.View() && Now() == Commit(w, e1)
      modifies t, store, rail`calls
      ensures Holds(t) && store.rows == old(store.rows)
      ensures var e := PayoutSent(e1, rail.answers(t.id));
        fault == e.fault && t.View() == e.tx && Now() == Commit(w, e)
    {
      var answer := AskPayout(t, amount);
      ghost var asked := Ask(e1.tx, PayoutCall(t.id, t.merchantMsisdn, amount, t.merchantProvider, answer));
      CommitThen(w, e1, asked);
      fault := PayoutAnswered(t, answer);
      PayoutAnswerThen(w, Then(e1, asked), answer, rail.answers(t.id));
    }

    ghost function PayoutAnswer(t: Tx, answer: Answer, a: Answers): Effect
      requires t.amount.currency == t.fee.currency
    {
      match answer
      case Accepted(opId) => StoreId(t, Payout, opId)
      case Rejected => OnPayout(t, false, a)
    }

    lemma PayoutAnswerThen(w: World, e: Effect, answer: Answer, a: Answers)
      requires e.tx.amount.currency == e.tx.fee.currency && e.tx.state == PayoutPending
      ensures Commit(Commit(w, e), PayoutAnswer(e.tx, answer, a))
           == Commit(w, match answer
                        case Accepted(opId) => Then(e, StoreId(e.tx, Payout, opId))
                        case Rejected =>
                          var e3 := Then(e, Enter(e.tx, PayoutFailed));
                          Then(e3, Payments.BeginRefund(e3.tx, a)))
    {
      match answer
      case Accepted(opId) => CommitThen(w, e, StoreId(e.tx, Payout, opId));
      case Rejected =>
        var f := Enter(e.tx, PayoutFailed);
        var g := Payments.BeginRefund(f.tx, a);
        BeginRefundIsProper(f.tx, a);
        CommitThen(w, e, f);
        CommitThen(w, Then(e, f), g);
        CommitThen(Commit(w, e), f, g);
    }

    method PayoutAnswered(t: Transaction, answer: Answer) returns (fault: Fault)
      requires Holds(t)
      modifies t, store, rail`calls
      ensures Holds(t) && store.rows == old(store.rows)
      ensures var e := PayoutAnswer(old(t.View()), answer, rail.answers(t.id));
        fault == e.fault && t.View() == e.tx && Now() == Commit(old(Now()), e)
    {
      match answer {
        case Rejected =>
          fault := FailPayout(t);
        case Accepted(opId) =>
          StoreOpId(t, Payout, opId);
          fault := NoFault;
      }
    }

    /** The payout has failed, at once or by its outcome: refund. */
    method FailPayout(t: Transaction) returns (fault: Fault)
      requires Holds(t)
      modifies t, store, rail`calls
      ensures Holds(t) && store.rows == old(store.rows)
      ensures var e := OnPayout(old(t.View()), false, rail.answers(t.id));
        fault == e.fault && t.View() == e.tx && Now() == Commit(old(Now()), e)
    {
      ghost var w, e1 := Now(), Enter(t.View(), PayoutFailed);
      fault := Transition(t, PayoutFailed);
      if fault != NoFault {
        return;
      }
      fault := BeginRefund(t);
      BeginRefundIsProper(e1.tx, rail.answers(t.id));
      CommitThen(w, e1, Payments.BeginRefund(e1.tx, rail.answers(t.id)));
    }

    method OnCollectionResult(id: string, success: bool) returns (fault: Fault)
      requires store.Valid()
      modifies store, store.rows.Values, rail`calls, ledger
      ensures store.Valid() && store.rows == old(store.rows)
      ensures id !in store.rows ==> fault == UnknownTransaction && Now() == old(Now())
      ensures id in store.rows ==>
        var e := OnCollection(old(store.rows[id].View()), success, rail.answers(id));
        fault == e.fault && Now() == Commit(old(Now()), e)
    {
      if id !in store.rows {
        return UnknownTransaction;
      }
      var t := store.rows[id];
      if !success {
        fault := Transition(t, CollectionFailed);
        return;
      }
      ghost var w, e1 := Now(), Enter(t.View(), CollectionSucceeded);
      fault := Transition(t, CollectionSucceeded);
      if fault != NoFault {
        return;
      }
      if t.customerProvider == "" {
        CommitThenRaise(w, e1, MissingProvider(Deposit));
        return MissingProvider(Deposit);
      }
      var collect := CollectionCost(t.amount, t.customerProvider);
      var posting := Posting(t.id, CollectionEntries(t.amount, collect));
      fault := Post(t, posting);
      ghost var booked := Book(e1.tx, posting);
      CommitThen(w, e1, booked);
      if fault != NoFault {
        return;
      }
      fault := BeginPayout(t);
      BeginPayoutIsProper(e1.tx, rail.answers(id));
      CommitThen(w, Then(e1, booked), Payments.BeginPayout(e1.tx, rail.answers(id)));
    }

    method OnPayoutResult(id: string, success: bool) returns (fault: Fault)
      requires store.Valid()
      modifies store, store.rows.Values, rail`calls, ledger
      ensures store.Valid() && store.rows == old(store.rows)
      ensures id !in store.rows ==> fault == UnknownTransaction && Now() == old(Now())
      ensures id in store.rows ==>
        var e := OnPayout(old(store.rows[id].View()), success, rail.answers(id));
        fault == e.fault && Now() == Commit(old(Now()), e)
    {
      if id !in store.rows {
        return UnknownTransaction;
      }
      var t := store.rows[id];
      if success {
        fault := Settle(t);
      } else {
        fault := FailPayout(t);
      }
    }

    /** The payout went through: paid, and settled. */
    method Settle(t: Transaction) returns (fault: Fault)
      requires Holds(t)
      modifies t, store, ledger
      ensures Holds(t) && store.rows == old(store.rows)
      ensures forall a :: var e := OnPayout(old(t.View()), true, a); fault == e.fault && Now() == Commit(old(Now()), e)
    {
      ghost var w, e1 := Now(), Enter(t.View(), PayoutSucceeded);
      fault := Transition(t, PayoutSucceeded);
      if fault != NoFault {
        return;
      }
      if t.customerProvider == "" {
        CommitThenRaise(w, e1, MissingProvider(Deposit));
        return MissingProvider(Deposit);
      }
      if t.merchantProvider == "" {
        CommitThenRaise(w, e1, MissingProvider(Payout));
        return MissingProvider(Payout);
      }
      var collect := CollectionCost(t.amount, t.customerProvider);
      var pay := PayoutCost(t.amount, t.merchantProvider);
      var posting := Posting(t.id, SettlementEntries(t.amount, t.fee, collect, pay));
      fault := Post(t, posting);
      CommitThen(w, e1, Book(e1.tx, posting));
    }

    method OnRefundResult(id: string, success: bool) returns (fault: Fault)
      requires store.Valid()
      modifies store, store.rows.Values, ledger
      ensures store.Valid() && store.rows == old(store.rows)
      ensures id !in store.rows ==> fault == UnknownTransaction && Now() == old(Now())
      ensures id in store.rows ==>
        var e := OnRefund(old(store.rows[id].View()), success);
        fault == e.fault && Now() == Commit(old(Now()), e)
    {
      if id !in store.rows {
        return UnknownTransaction;
      }
      var t := store.rows[id];
      if !success {
        fault := Transition(t, ManualReview);
        return;
      }
      ghost var w, e1 := Now(), Enter(t.View(), Refunded);
      fault := Transition(t, Refunded);
      if fault != NoFault {
        return;
      }
      var posting := Posting(t.id, [Entry(Clearing, Debit, t.amount), Entry(Customer, Credit, t.amount)]);
      fault := Post(t, posting);
      CommitThen(w, e1, Book(e1.tx, posting));
    }

    /** The save that creates a row: refused under a key another transaction holds. */
    method FirstSave(t: Transaction) returns (fault: Fault)
      requires store.Valid() && t.id !in store.rows && t.amount.currency == t.fee.currency
      modifies store
      ensures store.Valid()
      ensures fault == if old(store.Holding(t.key)) then DuplicateIdempotencyKey else NoFault
      ensures fault != NoFault ==> store.rows == old(store.rows) && Now() == old(Now())
      ensures fault == NoFault ==>
        Holds(t) && store.rows == old(store.rows)[t.id := t] && Now() == Adopt(old(Now()), Born(t.View()))
    {
      assert store.KeyTaken(t) <==> store.Holding(t.key);
      fault := store.Save(t);
      if fault == NoFault {
        store.trace := store.trace + [Entered(t.id, t.state)];
        RowAdopted(t);
      }
    }

    twostate lemma RowAdopted(t: Transaction)
      requires old(store.Valid()) && t.id !in old(store.rows) && old(allocated(t))
      requires store.rows == old(store.rows)[t.id := t] && store.order == old(store.order) + [t.id]
      requires unchanged(t) && (forall id | id in old(store.rows) :: unchanged(store.rows[id]))
      requires unchanged(ledger) && unchanged(rail) && store.trace == old(store.trace) + [Entered(t.id, t.state)]
      ensures Now() == Adopt(old(Now()), Born(t.View()))
    {
      assert store.Txs() == old(store.Txs())[t.id := t.View()];
      assert ledger.postings + [] == ledger.postings && rail.calls + [] == rail.calls;
    }

    /** From a saved newborn to an asked collection. */
    method Open(t: Transaction)
      requires Holds(t) && t.state == Initiated
      modifies t, store, rail`calls
      ensures Holds(t) && store.rows == old(store.rows)
      ensures Now() == Commit(old(Now()), Opened(old(t.View()), rail.answers(t.id).deposit))
    {
      ghost var w, e1 := Now(), Enter(t.View(), CollectionPending);
      var _ := Transition(t, CollectionPending);
      var answer := AskCollection(t);
      ghost var asked := Ask(e1.tx, CollectCall(t.id, t.customerMsisdn, t.amount, t.customerProvider, answer));
      CommitThen(w, e1, asked);
      CollectionAnswered(t, answer);
      CommitThen(w, Then(e1, asked), CollectionAnswer(e1.tx, answer));
    }

    ghost function CollectionAnswer(t: Tx, answer: Answer): Effect {
      if answer.Accepted? then StoreId(t, Deposit, answer.opId) else Enter(t, CollectionFailed)
    }

    method CollectionAnswered(t: Transaction, answer: Answer)
      requires Holds(t)
      modifies t, store
      ensures Holds(t) && store.rows == old(store.rows)
      ensures var e := CollectionAnswer(old(t.View()), answer); t.View() == e.tx && Now() == Commit(old(Now()), e)
    {
      match answer {
        case Rejected =>
          var _ := Transition(t, CollectionFailed);
        case Accepted(opId) =>
          StoreOpId(t, Deposit, opId);
      }
    }

    /** The object and its first save. */
    method SaveNewborn(t0: Tx) returns (t: Transaction, fault: Fault)
      requires store.Valid() && t0.id !in store.rows && t0.amount.currency == t0.fee.currency
      modifies store
      ensures store.Valid() && fresh(t) && t.View() == t0
      ensures fault == if old(store.Holding(t0.key)) then DuplicateIdempotencyKey else NoFault
      ensures fault != NoFault ==> store.rows == old(store.rows) && Now() == old(Now())
      ensures fault == NoFault ==>
        Holds(t) && store.rows == old(store.rows)[t0.id := t] && Now() == Adopt(old(Now()), Born(t0))
    {
      ghost var w := Now();
      t := new Transaction(t0);
      assert Now() == w;
      fault := FirstSave(t);
    }

    /** And its request. */
    method Create(t0: Tx) returns (fault: Fault)
      requires store.Valid() && t0.id !in store.rows && t0.amount.currency == t0.fee.currency && t0.state == Initiated
      modifies store, rail`calls
      ensures store.Valid()
      ensures fault == if old(store.Holding(t0.key)) then DuplicateIdempotencyKey else NoFault
      ensures fault != NoFault ==> store.rows == old(store.rows) && Now() == old(Now())
      ensures fault == NoFault ==>
        && t0.id in store.rows && fresh(store.rows[t0.id]) && store.rows == old(store.rows)[t0.id := store.rows[t0.id]]
        && Now() == Adopt(old(Now()), Absorb(Born(t0), Opened(t0, rail.answers(t0.id).deposit)))
    {
      ghost var w := Now();
      var t: Transaction;
      t, fault := SaveNewborn(t0);
      if fault != NoFault {
        return;
      }
      OpenSaved(t, w);
    }

    method OpenSaved(t: Transaction, ghost w: World)
      requires Holds(t) && t.state == Initiated && Now() == Adopt(w, Born(t.View()))
      modifies t, store, rail`calls
      ensures Holds(t) && store.rows == old(store.rows)
      ensures Now() == Adopt(w, Absorb(Born(old(t.View())), Opened(old(t.View()), rail.answers(t.id).deposit)))
    {
      ghost var t0 := t.View();
      Open(t);
      AdoptThenCommit(w, Born(t0), Opened(t0, rail.answers(t.id).deposit));
    }

    // The first save, then the request. A duplicate key is refused before the rail is touched.
    method StartTransaction(
      id: string, customerMsisdn: string, merchantMsisdn: string, amount: Money, fee: Money,
      customerProvider: string, merchantProvider: string, merchantId: Option<string>, key: Option<string>)
      returns (fault: Fault)
      requires store.Valid() && id !in store.rows
      modifies store, rail`calls
      ensures store.Valid()
      ensures var t := Tx(id, customerMsisdn, merchantMsisdn, amount, fee, Initiated, [Initiated], key, merchantId,
                          customerProvider, merchantProvider, None, None, None, RailVerified);
        && fault == (if amount.currency != fee.currency then CurrencyMismatch
                     else if !amount.IsPositive() then InvalidAmount
                     else if fee.minor >= amount.minor then FeeNotBelowAmount
                     else if old(store.Holding(key)) then DuplicateIdempotencyKey else NoFault)
        && Now() == if fault != NoFault then old(Now())
                    else Adopt(old(Now()), Absorb(Born(t), Opened(t, rail.answers(id).deposit)))
      ensures fault != NoFault ==> store.rows == old(store.rows)
      ensures fault == NoFault ==>
        id in store.rows && fresh(store.rows[id]) && store.rows == old(store.rows)[id := store.rows[id]]
    {
      if amount.currency != fee.currency {
        return CurrencyMismatch;
      }
      if !amount.IsPositive() {
        return InvalidAmount;
      }
      if fee.minor >= amount.minor {
        return FeeNotBelowAmount;
      }
      fault := Create(Tx(id, customerMsisdn, merchantMsisdn, amount, fee, Initiated, [Initiated], key, merchantId,
                         customerProvider, merchantProvider, None, None, None, RailVerified));
    }
  }

  /** What a word leaves of the payment it is about: paid, with the one posting made, or failed, with none. */
  ghost predicate WordHeard(now: Tx, postings: seq<Posting>, before: seq<Posting>, received: bool) {
    if received then
      && now.state == PayoutSucceeded
      && postings == before + [Posting(now.id, [Entry(Customer, Debit, now.amount), Entry(Merchant, Credit, now.amount)])]
    else now.state == CollectionFailed && postings == before
  }

  lemma WordIsHeard(t: Tx, received: bool)
    requires t.state == CollectionPending
    ensures var e := OnConfirm(t, received);
      e.fault == NoFault && forall before :: WordHeard(e.tx, before + e.posts, before, received)
  {
    RefundPostingBalances(t);
    var e := OnConfirm(t, received);
    forall before: seq<Posting> ensures WordHeard(e.tx, before + e.posts, before, received) {
      assert before + [] == before;
    }
  }

  /** Same-network payments: we record them and wait for the merchant's word. */
  class OnNetOrchestrator {
    const base: Orchestrator

    constructor (store: TransactionStore, rail: Rail, ledger: InMemoryLedger)
      ensures base.store == store && base.rail == rail && base.ledger == ledger
      ensures fresh(base)
    {
      base := new Orchestrator(store, rail, ledger);
    }

    method Start(
      id: string, payerMsisdn: string, merchantMsisdn: string, amount: Money, provider: string,
      merchantId: Option<string>, key: Option<string>)
      returns (fault: Fault)
      requires base.store.Valid() && id !in base.store.rows
      modifies base.store
      ensures base.store.Valid()
      ensures var t := Tx(id, payerMsisdn, merchantMsisdn, amount, Money(0, amount.currency), Initiated, [Initiated], key,
                          merchantId, provider, provider, None, None, None, MerchantAttested);
        && fault == (if !amount.IsPositive() then InvalidAmount
                     else if old(base.store.Holding(key)) then DuplicateIdempotencyKey else NoFault)
        && base.Now() == if fault != NoFault then old(base.Now())
                         else Adopt(old(base.Now()), Absorb(Born(t), Enter(t, CollectionPending)))
      ensures fault != NoFault ==> base.store.rows == old(base.store.rows)
      ensures fault == NoFault ==>
        && id in base.store.rows && fresh(base.store.rows[id])
        && base.store.rows == old(base.store.rows)[id := base.store.rows[id]]
    {
      if !amount.IsPositive() {
        return InvalidAmount;
      }
      ghost var w := base.Now();
      var t0 := Tx(id, payerMsisdn, merchantMsisdn, amount, Money(0, amount.currency), Initiated, [Initiated],
                   key, merchantId, provider, provider, None, None, None, MerchantAttested);
      var t: Transaction;
      t, fault := base.SaveNewborn(t0);
      if fault != NoFault {
        return;
      }
      fault := base.Transition(t, CollectionPending);
      AdoptThenCommit(w, Born(t0), Enter(t0, CollectionPending));
    }

    // Posts before it moves the state: only the endpoint's guard makes it happen once.
    method OnConfirmation(id: string, success: bool) returns (fault: Fault)
      requires base.store.Valid()
      modifies base.store, base.store.rows.Values, base.ledger
      ensures base.store.Valid() && base.store.rows == old(base.store.rows)
      ensures id !in base.store.rows ==> fault == UnknownTransaction && base.Now() == old(base.Now())
      ensures id in base.store.rows ==>
        var e := OnConfirm(old(base.store.rows[id].View()), success);
        fault == e.fault && base.Now() == Commit(old(base.Now()), e)
      ensures id in base.store.rows && old(base.store.rows[id].state) == CollectionPending ==>
        fault == NoFault && WordHeard(base.store.rows[id].View(), base.ledger.postings, old(base.ledger.postings), success)
    {
      if id !in base.store.rows {
        return UnknownTransaction;
      }
      if base.store.rows[id].state == CollectionPending {
        WordIsHeard(base.store.rows[id].View(), success);
      }
      var t := base.store.rows[id];
      if !success {
        fault := base.Transition(t, CollectionFailed);
        return;
      }
      ghost var w, t0 := base.Now(), t.View();
      RefundPostingBalances(t0);
      var posting := Posting(t.id, [Entry(Customer, Debit, t.amount), Entry(Merchant, Credit, t.amount)]);
      fault := base.Post(t, posting);
      fault := base.Transition(t, PayoutSucceeded);
      CommitThen(w, Book(t0, posting), Enter(t0, PayoutSucceeded));
    }
  }
}
