/** The two-leg payment on values: what each orchestrator handler does to one transaction, and what
    every sequence of outcomes leaves behind. The imperative handlers are proved equal to these. */
module Payments {
  import opened Common
  import opened MoneyTypes
  import opened Pricing
  import opened Ledger
  import opened StateMachine
  import opened Transactions

  /** What the rail says at once: accepted, with the operation id if it issues one, or rejected. */
  datatype Answer = Accepted(opId: Option<string>) | Rejected

  datatype Answers = Answers(deposit: Answer, payout: Answer, refund: Answer)

  function AnswerFor(a: Answers, leg: Leg): Answer {
    match leg
    case Deposit => a.deposit
    case Payout => a.payout
    case Refund => a.refund
  }

  function Issued(a: Answer): Option<string> {
    if a.Accepted? then a.opId else None
  }

  /** One request sent to the rail, with the answer it got. */
  datatype RailCall =
    | CollectCall(txId: string, msisdn: string, amount: Money, provider: string, answer: Answer)
    | PayoutCall(txId: string, msisdn: string, amount: Money, provider: string, answer: Answer)
    | RefundCall(txId: string, depositId: Option<string>, amount: Money, provider: string, answer: Answer)

  function CallLeg(c: RailCall): Leg {
    match c
    case CollectCall(_, _, _, _, _) => Deposit
    case PayoutCall(_, _, _, _, _) => Payout
    case RefundCall(_, _, _, _, _) => Refund
  }

  datatype Fault =
    | NoFault
    | IllegalTransition(src: TxState, dst: TxState)
    | UnbalancedPosting
    | MissingProvider(leg: Leg)
    | UnknownTransaction
    | InvalidAmount
    | CurrencyMismatch
    | FeeNotBelowAmount
    | DuplicateIdempotencyKey

  /** One thing done about a transaction: a state entered and saved, a posting booked, a request sent. */
  datatype Act =
    | Entered(txId: string, state: TxState)
    | Booked(posting: Posting)
    | Asked(call: RailCall)

  function ActOwner(x: Act): string {
    match x
    case Entered(id, _) => id
    case Booked(posting) => posting.txId
    case Asked(call) => call.txId
  }

  /** What a handler does: the transaction it leaves, what it posts, what it asks, the order it did all
      that in, and what it raises. */
  datatype Effect = Effect(tx: Tx, posts: seq<Posting>, calls: seq<RailCall>, trace: seq<Act>, fault: Fault)

  // ---- handlers ------------------------------------------------------------

  function Moved(t: Tx, dst: TxState): Tx {
    t.(state := dst, history := t.history + [dst])
  }

  function Optionally(present: bool, e: Entry): seq<Entry> {
    if present then [e] else []
  }

  /** The customer's money lands at the provider less its collection fee, an expense. */
  function CollectionEntries(amount: Money, collect: Money): seq<Entry>
    requires amount.currency == collect.currency
  {
    [Entry(Customer, Debit, amount), Entry(Clearing, Credit, amount.Minus(collect))]
    + Optionally(collect.IsPositive(), Entry(Expense, Credit, collect))
  }

  function CollectionPosting(t: Tx): Posting {
    Posting(t.id, CollectionEntries(t.amount, CollectionCost(t.amount, t.customerProvider)))
  }

  /** Clearing drains; the merchant nets amount less fee; the fee splits into payout cost and margin. */
  function SettlementEntries(amount: Money, fee: Money, collect: Money, pay: Money): seq<Entry>
    requires amount.currency == fee.currency == collect.currency == pay.currency
  {
    var margin := fee.Minus(collect).Minus(pay);
    [Entry(Clearing, Debit, amount.Minus(collect)), Entry(Merchant, Credit, amount.Minus(fee))]
    + Optionally(pay.IsPositive(), Entry(Expense, Credit, pay))
    + Optionally(margin.IsPositive(), Entry(Revenue, Credit, margin))
  }

  function SettlementPosting(t: Tx): Posting
    requires t.amount.currency == t.fee.currency
  {
    Posting(t.id, SettlementEntries(t.amount, t.fee, CollectionCost(t.amount, t.customerProvider),
                                    PayoutCost(t.amount, t.merchantProvider)))
  }

  function RefundPosting(t: Tx): Posting {
    Posting(t.id, [Entry(Clearing, Debit, t.amount), Entry(Customer, Credit, t.amount)])
  }

  function OnNetPosting(t: Tx): Posting {
    Posting(t.id, [Entry(Customer, Debit, t.amount), Entry(Merchant, Credit, t.amount)])
  }

  /** A legal move, saved; an illegal one raises and leaves everything alone. */
  function Enter(t: Tx, dst: TxState): Effect {
    if CanTransition(t.state, dst) then Effect(Moved(t, dst), [], [], [Entered(t.id, dst)], NoFault)
    else Effect(t, [], [], [], IllegalTransition(t.state, dst))
  }

  /** A posting, if the constructor accepts it. */
  function Book(t: Tx, posting: Posting): Effect {
    if Balances(posting.entries) then Effect(t, [posting], [], [Booked(posting)], NoFault)
    else Effect(t, [], [], [], UnbalancedPosting)
  }

  function Ask(t: Tx, call: RailCall): Effect {
    Effect(t, [], [call], [Asked(call)], NoFault)
  }

  function StoreId(t: Tx, leg: Leg, opId: Option<string>): Effect {
    Effect(WithOpId(t, leg, opId), [], [], [], NoFault)
  }

  function Raise(t: Tx, fault: Fault): Effect {
    Effect(t, [], [], [], fault)
  }

  /** One effect after another, as one. */
  function Then(e: Effect, f: Effect): Effect {
    Effect(f.tx, e.posts + f.posts, e.calls + f.calls, e.trace + f.trace, f.fault)
  }

  /** A first save has happened; the collection is requested and answered at once or later. */
  function Opened(t: Tx, answer: Answer): Effect
    requires t.state == Initiated
  {
    var e1 := Enter(t, CollectionPending);
    var e2 := Then(e1, Ask(e1.tx, CollectCall(t.id, t.customerMsisdn, t.amount, t.customerProvider, answer)));
    match answer
    case Rejected => Then(e2, Enter(e2.tx, CollectionFailed))
    case Accepted(opId) => Then(e2, StoreId(e2.tx, Deposit, opId))
  }

  function OnCollection(t: Tx, success: bool, a: Answers): Effect
    requires t.amount.currency == t.fee.currency
  {
    if !success then Enter(t, CollectionFailed)
    else
      var e1 := Enter(t, CollectionSucceeded);
      if e1.fault != NoFault then e1
      else if t.customerProvider == "" then Then(e1, Raise(e1.tx, MissingProvider(Deposit)))
      else
        var e2 := Then(e1, Book(e1.tx, CollectionPosting(e1.tx)));
        if e2.fault != NoFault then e2 else Then(e2, BeginPayout(e2.tx, a))
  }

  function BeginPayout(t: Tx, a: Answers): Effect
    requires t.amount.currency == t.fee.currency
  {
    var e1 := Enter(t, PayoutPending);
    if e1.fault != NoFault then e1
    else if t.merchantProvider == "" then Then(e1, Raise(e1.tx, MissingProvider(Payout)))
    else
      var e2 := Then(e1, Ask(e1.tx, PayoutCall(t.id, t.merchantMsisdn, t.amount.Minus(t.fee), t.merchantProvider, a.payout)));
      match a.payout
      case Accepted(opId) => Then(e2, StoreId(e2.tx, Payout, opId))
      case Rejected =>
        var e3 := Then(e2, Enter(e2.tx, PayoutFailed));
        Then(e3, BeginRefund(e3.tx, a))
  }

  function OnPayout(t: Tx, success: bool, a: Answers): Effect
    requires t.amount.currency == t.fee.currency
  {
    var e1 := Enter(t, if success then PayoutSucceeded else PayoutFailed);
    if e1.fault != NoFault then e1
    else if !success then Then(e1, BeginRefund(e1.tx, a))
    else if t.customerProvider == "" then Then(e1, Raise(e1.tx, MissingProvider(Deposit)))
    else if t.merchantProvider == "" then Then(e1, Raise(e1.tx, MissingProvider(Payout)))
    else Then(e1, Book(e1.tx, SettlementPosting(e1.tx)))
  }

  function BeginRefund(t: Tx, a: Answers): Effect {
    var e1 := Enter(t, RefundPending);
    if e1.fault != NoFault then e1
    else if t.customerProvider == "" then Then(e1, Raise(e1.tx, MissingProvider(Deposit)))
    else
      var e2 := Then(e1, Ask(e1.tx, RefundCall(t.id, t.depositId, t.amount, t.customerProvider, a.refund)));
      match a.refund
      case Accepted(opId) => Then(e2, StoreId(e2.tx, Refund, opId))
      case Rejected => Then(e2, Enter(e2.tx, ManualReview))
  }

  function OnRefund(t: Tx, success: bool): Effect {
    var e1 := Enter(t, if success then Refunded else ManualReview);
    if e1.fault != NoFault || !success then e1 else Then(e1, Book(e1.tx, RefundPosting(e1.tx)))
  }

  function OnResult(t: Tx, leg: Leg, success: bool, a: Answers): Effect
    requires t.amount.currency == t.fee.currency
  {
    match leg
    case Deposit => OnCollection(t, success, a)
    case Payout => OnPayout(t, success, a)
    case Refund => OnRefund(t, success)
  }

  /** The merchant's word on an on-net payment. A success posts before it moves the state. */
  function OnConfirm(t: Tx, success: bool): Effect {
    if !success then Enter(t, CollectionFailed) else Then(Book(t, OnNetPosting(t)), Enter(t, PayoutSucceeded))
  }

  // ---- what every handler keeps ------------------------------------------------------

  function Bookings(trace: seq<Act>): seq<Posting> {
    if trace == [] then []
    else (if trace[0].Booked? then [trace[0].posting] else []) + Bookings(trace[1..])
  }

  function Askings(trace: seq<Act>): seq<RailCall> {
    if trace == [] then []
    else (if trace[0].Asked? then [trace[0].call] else []) + Askings(trace[1..])
  }

  function Entries(trace: seq<Act>): seq<TxState> {
    if trace == [] then []
    else (if trace[0].Entered? then [trace[0].state] else []) + Entries(trace[1..])
  }

  lemma {:induction false} BookingsConcat(s: seq<Act>, t: seq<Act>)
    ensures Bookings(s + t) == Bookings(s) + Bookings(t)
  {
    if s == [] {
      assert s + t == t;
    } else {
      SplitFirst(s, t);
      BookingsConcat(s[1..], t);
    }
  }

  lemma {:induction false} AskingsConcat(s: seq<Act>, t: seq<Act>)
    ensures Askings(s + t) == Askings(s) + Askings(t)
  {
    if s == [] {
      assert s + t == t;
    } else {
      SplitFirst(s, t);
      AskingsConcat(s[1..], t);
    }
  }

  lemma {:induction false} EntriesConcat(s: seq<Act>, t: seq<Act>)
    ensures Entries(s + t) == Entries(s) + Entries(t)
  {
    if s == [] {
      assert s + t == t;
    } else {
      SplitFirst(s, t);
      EntriesConcat(s[1..], t);
    }
  }

  /** An effect of a handler on a transaction: it changes the state, the history and the later ids and
      nothing else; all it posts, asks and records is about that transaction; it asks for no collection;
      and its record holds exactly its moves, its postings and its requests. */
  ghost predicate Proper(t: Tx, e: Effect) {
    && e.tx == t.(state := e.tx.state, history := e.tx.history, payoutId := e.tx.payoutId, refundId := e.tx.refundId)
    && (forall x | x in e.posts :: x.txId == t.id)
    && (forall x | x in e.calls :: x.txId == t.id && !x.CollectCall?)
    && (forall x | x in e.trace :: ActOwner(x) == t.id)
    && e.posts == Bookings(e.trace) && e.calls == Askings(e.trace)
    && e.tx.history == t.history + Entries(e.trace)
    && e.fault !in {UnknownTransaction, InvalidAmount, CurrencyMismatch, FeeNotBelowAmount, DuplicateIdempotencyKey}
  }

  lemma ThenIsProper(t: Tx, e: Effect, f: Effect)
    requires Proper(t, e) && Proper(e.tx, f)
    ensures Proper(t, Then(e, f))
  {
    BookingsConcat(e.trace, f.trace);
    AskingsConcat(e.trace, f.trace);
    EntriesConcat(e.trace, f.trace);
    assert t.history + Entries(e.trace) + Entries(f.trace) == t.history + (Entries(e.trace) + Entries(f.trace));
  }

  lemma EnterIsProper(t: Tx, dst: TxState)
    ensures Proper(t, Enter(t, dst))
  {
    assert Entries([Entered(t.id, dst)]) == [dst];
    assert t.history + [] == t.history;
  }

  lemma RaiseIsProper(t: Tx, fault: Fault)
    requires fault in {UnbalancedPosting, MissingProvider(Deposit), MissingProvider(Payout)}
    ensures Proper(t, Raise(t, fault))
  {
    assert t.history + [] == t.history;
  }

  lemma BookIsProper(t: Tx, posting: Posting)
    requires posting.txId == t.id
    ensures Proper(t, Book(t, posting))
  {
    assert Bookings([Booked(posting)]) == [posting];
    assert t.history + [] == t.history;
  }

  lemma AskIsProper(t: Tx, call: RailCall)
    requires call.txId == t.id && !call.CollectCall?
    ensures Proper(t, Ask(t, call))
  {
    assert Askings([Asked(call)]) == [call];
    assert t.history + [] == t.history;
  }

  lemma StoreIdIsProper(t: Tx, leg: Leg, opId: Option<string>)
    requires leg != Deposit
    ensures Proper(t, StoreId(t, leg, opId))
  {
    assert t.history + [] == t.history;
  }

  lemma BeginRefundIsProper(t: Tx, a: Answers)
    ensures Proper(t, BeginRefund(t, a))
  {
    var e1 := Enter(t, RefundPending);
    EnterIsProper(t, RefundPending);
    if e1.fault == NoFault {
      if t.customerProvider == "" {
        RaiseIsProper(e1.tx, MissingProvider(Deposit));
        ThenIsProper(t, e1, Raise(e1.tx, MissingProvider(Deposit)));
      } else {
        var call := RefundCall(t.id, t.depositId, t.amount, t.customerProvider, a.refund);
        AskIsProper(e1.tx, call);
        ThenIsProper(t, e1, Ask(e1.tx, call));
        var e2 := Then(e1, Ask(e1.tx, call));
        match a.refund {
          case Accepted(opId) =>
            StoreIdIsProper(e2.tx, Refund, opId);
            ThenIsProper(t, e2, StoreId(e2.tx, Refund, opId));
          case Rejected =>
            EnterIsProper(e2.tx, ManualReview);
            ThenIsProper(t, e2, Enter(e2.tx, ManualReview));
        }
      }
    }
  }

  lemma BeginPayoutIsProper(t: Tx, a: Answers)
    requires t.amount.currency == t.fee.currency
    ensures Proper(t, BeginPayout(t, a))
  {
    var e1 := Enter(t, PayoutPending);
    EnterIsProper(t, PayoutPending);
    if e1.fault == NoFault {
      if t.merchantProvider == "" {
        RaiseIsProper(e1.tx, MissingProvider(Payout));
        ThenIsProper(t, e1, Raise(e1.tx, MissingProvider(Payout)));
      } else {
        var call := PayoutCall(t.id, t.merchantMsisdn, t.amount.Minus(t.fee), t.merchantProvider, a.payout);
        AskIsProper(e1.tx, call);
        ThenIsProper(t, e1, Ask(e1.tx, call));
        var e2 := Then(e1, Ask(e1.tx, call));
        match a.payout {
          case Accepted(opId) =>
            StoreIdIsProper(e2.tx, Payout, opId);
            ThenIsProper(t, e2, StoreId(e2.tx, Payout, opId));
          case Rejected =>
            var e3 := Then(e2, Enter(e2.tx, PayoutFailed));
            EnterIsProper(e2.tx, PayoutFailed);
            ThenIsProper(t, e2, Enter(e2.tx, PayoutFailed));
            BeginRefundIsProper(e3.tx, a);
            ThenIsProper(t, e3, BeginRefund(e3.tx, a));
        }
      }
    }
  }

  lemma OnCollectionIsProper(t: Tx, success: bool, a: Answers)
    requires t.amount.currency == t.fee.currency
    ensures Proper(t, OnCollection(t, success, a))
  {
    EnterIsProper(t, CollectionFailed);
    EnterIsProper(t, CollectionSucceeded);
    var e1 := Enter(t, CollectionSucceeded);
    if success && e1.fault == NoFault {
      if t.customerProvider == "" {
        RaiseIsProper(e1.tx, MissingProvider(Deposit));
        ThenIsProper(t, e1, Raise(e1.tx, MissingProvider(Deposit)));
      } else {
        var posting := CollectionPosting(e1.tx);
        BookIsProper(e1.tx, posting);
        ThenIsProper(t, e1, Book(e1.tx, posting));
        var e2 := Then(e1, Book(e1.tx, posting));
        if e2.fault == NoFault {
          BeginPayoutIsProper(e2.tx, a);
          ThenIsProper(t, e2, BeginPayout(e2.tx, a));
        }
      }
    }
  }

  lemma OnPayoutIsProper(t: Tx, success: bool, a: Answers)
    requires t.amount.currency == t.fee.currency
    ensures Proper(t, OnPayout(t, success, a))
  {
    var dst := if success then PayoutSucceeded else PayoutFailed;
    var e1 := Enter(t, dst);
    EnterIsProper(t, dst);
    if e1.fault == NoFault {
      var f := if !success then BeginRefund(e1.tx, a)
               else if t.customerProvider == "" then Raise(e1.tx, MissingProvider(Deposit))
               else if t.merchantProvider == "" then Raise(e1.tx, MissingProvider(Payout))
               else Book(e1.tx, SettlementPosting(e1.tx));
      BeginRefundIsProper(e1.tx, a);
      RaiseIsProper(e1.tx, MissingProvider(Deposit));
      RaiseIsProper(e1.tx, MissingProvider(Payout));
      BookIsProper(e1.tx, SettlementPosting(e1.tx));
      ThenIsProper(t, e1, f);
    }
  }

  lemma OnRefundIsProper(t: Tx, success: bool)
    ensures Proper(t, OnRefund(t, success))
  {
    var dst := if success then Refunded else ManualReview;
    var e1 := Enter(t, dst);
    EnterIsProper(t, dst);
    BookIsProper(e1.tx, RefundPosting(e1.tx));
    ThenIsProper(t, e1, Book(e1.tx, RefundPosting(e1.tx)));
  }

  /** Every handler, on any transaction in any state, with any outcome and any answers. */
  lemma HandlersAreProper(t: Tx, leg: Leg, success: bool, a: Answers)
    requires t.amount.currency == t.fee.currency
    ensures Proper(t, OnResult(t, leg, success, a))
  {
    match leg
    case Deposit => OnCollectionIsProper(t, success, a);
    case Payout => OnPayoutIsProper(t, success, a);
    case Refund => OnRefundIsProper(t, success);
  }

  lemma ConfirmIsProper(t: Tx, success: bool)
    ensures Proper(t, OnConfirm(t, success))
  {
    EnterIsProper(t, CollectionFailed);
    EnterIsProper(t, PayoutSucceeded);
    BookIsProper(t, OnNetPosting(t));
    ThenIsProper(t, Book(t, OnNetPosting(t)), Enter(t, PayoutSucceeded));
  }

  ghost predicate AllBalance(postings: seq<Posting>) {
    forall x | x in postings :: Balances(x.entries)
  }

  lemma PayoutBooksNothing(t: Tx, a: Answers)
    requires t.amount.currency == t.fee.currency
    ensures BeginPayout(t, a).posts == [] && BeginRefund(t, a).posts == []
  {
  }

  /** Whatever state a transaction is in, a handler books only what passes the balance check. */
  lemma HandlersBookBalanced(t: Tx, leg: Leg, success: bool, a: Answers)
    requires t.amount.currency == t.fee.currency
    ensures AllBalance(OnResult(t, leg, success, a).posts) && AllBalance(OnConfirm(t, success).posts)
  {
    match leg
    case Deposit =>
      if success {
        var e1 := Enter(t, CollectionSucceeded);
        PayoutBooksNothing(e1.tx, a);
      }
    case Payout =>
      if !success {
        PayoutBooksNothing(Enter(t, PayoutFailed).tx, a);
      }
    case Refund =>
  }

  /** Every id stored is the one the rail just issued for that leg, and every request carries the answer
      the rail gave to it. */
  ghost predicate AsAnswered(t: Tx, e: Effect, a: Answers) {
    && (forall leg :: OpId(e.tx, leg) == OpId(t, leg) || OpId(e.tx, leg) == Issued(AnswerFor(a, leg)))
    && (forall c | c in e.calls :: c.answer == AnswerFor(a, CallLeg(c)))
  }

  lemma ThenAsAnswered(t: Tx, e: Effect, f: Effect, a: Answers)
    requires AsAnswered(t, e, a) && AsAnswered(e.tx, f, a)
    ensures AsAnswered(t, Then(e, f), a)
  {
  }

  lemma BeginRefundAsAnswered(t: Tx, a: Answers)
    ensures AsAnswered(t, BeginRefund(t, a), a)
  {
  }

  lemma BeginPayoutAsAnswered(t: Tx, a: Answers)
    requires t.amount.currency == t.fee.currency
    ensures AsAnswered(t, BeginPayout(t, a), a)
  {
    var e1 := Enter(t, PayoutPending);
    if e1.fault == NoFault && t.merchantProvider != "" && a.payout.Rejected? {
      var call := PayoutCall(t.id, t.merchantMsisdn, t.amount.Minus(t.fee), t.merchantProvider, a.payout);
      var e2 := Then(e1, Ask(e1.tx, call));
      var e3 := Then(e2, Enter(e2.tx, PayoutFailed));
      BeginRefundAsAnswered(e3.tx, a);
      ThenAsAnswered(t, e3, BeginRefund(e3.tx, a), a);
    }
  }

  lemma OnCollectionAsAnswered(t: Tx, success: bool, a: Answers)
    requires t.amount.currency == t.fee.currency
    ensures AsAnswered(t, OnCollection(t, success, a), a)
  {
    if success {
      var e1 := Enter(t, CollectionSucceeded);
      var e2 := Then(e1, Book(e1.tx, CollectionPosting(e1.tx)));
      assert AsAnswered(t, e1, a) && AsAnswered(t, e2, a);
      BeginPayoutAsAnswered(e2.tx, a);
      ThenAsAnswered(t, e2, BeginPayout(e2.tx, a), a);
    }
  }

  lemma OnPayoutAsAnswered(t: Tx, success: bool, a: Answers)
    requires t.amount.currency == t.fee.currency
    ensures AsAnswered(t, OnPayout(t, success, a), a)
  {
    if !success {
      var e1 := Enter(t, PayoutFailed);
      BeginRefundAsAnswered(e1.tx, a);
      ThenAsAnswered(t, e1, BeginRefund(e1.tx, a), a);
    }
  }

  lemma OnRefundAsAnswered(t: Tx, success: bool, a: Answers)
    ensures AsAnswered(t, OnRefund(t, success), a)
  {
  }

  lemma HandlersAsAnswered(t: Tx, leg: Leg, success: bool, a: Answers)
    requires t.amount.currency == t.fee.currency
    ensures AsAnswered(t, OnResult(t, leg, success, a), a)
  {
    match leg
    case Deposit => OnCollectionAsAnswered(t, success, a);
    case Payout => OnPayoutAsAnswered(t, success, a);
    case Refund => OnRefundAsAnswered(t, success, a);
  }

  // ---- one payment ---------------------------------------------------------------

  /** One payment with its share of the books, of the rail log, and of the record of what was done when. */
  datatype Payment = Payment(tx: Tx, books: seq<Posting>, calls: seq<RailCall>, trace: seq<Act>)

  /** Just saved for the first time. */
  function Born(t: Tx): Payment {
    Payment(t, [], [], [Entered(t.id, t.state)])
  }

  function Absorb(p: Payment, e: Effect): Payment {
    Payment(e.tx, p.books + e.posts, p.calls + e.calls, p.trace + e.trace)
  }

  /** The shared applier: an outcome counts only in the state that awaits its leg. */
  function ApplyOutcome(p: Payment, leg: Leg, success: bool, a: Answers): Payment
    requires p.tx.amount.currency == p.tx.fee.currency
  {
    if p.tx.state != AwaitingState(leg) then p else Absorb(p, OnResult(p.tx, leg, success, a))
  }

  /** What `start_transaction` accepts, with both operators known. */
  predicate Sound(t: Tx) {
    && t.amount.IsPositive()
    && t.amount.currency == t.fee.currency
    && t.fee.minor < t.amount.minor
    && t.customerProvider != ""
    && t.merchantProvider != ""
  }

  /** The fee pays for both legs. `DefaultFee` guarantees it; `start_transaction` alone does not. */
  predicate CoversCosts(t: Tx) {
    t.fee.minor >= CollectionCost(t.amount, t.customerProvider).minor + PayoutCost(t.amount, t.merchantProvider).minor
  }

  // ---- postings balance, and what each puts where ----------------------------

  function CollectionShare(amount: int, collect: int, a: Account): int {
    match a
    case Customer => -amount
    case Clearing => amount - collect
    case Expense => collect
    case _ => 0
  }

  function SettlementShare(amount: int, fee: int, collect: int, pay: int, a: Account): int {
    match a
    case Customer => 0
    case Merchant => amount - fee
    case Clearing => collect - amount
    case Expense => pay
    case Revenue => fee - collect - pay
  }

  function TransferShare(amount: Money, src: Account, dst: Account, a: Account): int {
    if a == src then -amount.minor else if a == dst then amount.minor else 0
  }

  function Toward(e: Entry, a: Account, c: Currency): int {
    if e.account == a && e.amount.currency == c then -Signed(e) else 0
  }

  function Within(e: Entry, c: Currency): int {
    if e.amount.currency == c then Signed(e) else 0
  }

  lemma EntryTotals(x: Entry, y: Entry, rest: seq<Entry>, a: Account, c: Currency)
    ensures Imbalance([x, y] + rest, c) == Within(x, c) + Within(y, c) + Imbalance(rest, c)
    ensures EntriesNet([x, y] + rest, a, c) == Toward(x, a, c) + Toward(y, a, c) + EntriesNet(rest, a, c)
  {
    assert ([x, y] + rest)[1..] == [y] + rest;
    assert ([y] + rest)[1..] == rest;
  }

  lemma CollectionEntry(amount: Money, collect: Money, a: Account, c: Currency)
    requires amount.currency == collect.currency && collect.minor >= 0
    ensures var entries := CollectionEntries(amount, collect);
      && Imbalance(entries, c) == 0
      && EntriesNet(entries, a, c) == if c == amount.currency then CollectionShare(amount.minor, collect.minor, a) else 0
  {
    EntryTotals(Entry(Customer, Debit, amount), Entry(Clearing, Credit, amount.Minus(collect)),
                Optionally(collect.IsPositive(), Entry(Expense, Credit, collect)), a, c);
  }

  lemma CollectionBalances(t: Tx)
    requires t.amount.IsPositive()
    ensures Balances(CollectionPosting(t).entries)
  {
    CostBounds(t.amount, t.customerProvider);
    var collect := CollectionCost(t.amount, t.customerProvider);
    CollectionEntry(t.amount, collect, Customer, USD);
    CollectionEntry(t.amount, collect, Customer, CDF);
  }

  lemma FourEntryTotals(x: Entry, y: Entry, hasU: bool, u: Entry, hasV: bool, v: Entry, a: Account, c: Currency)
    ensures var entries := [x, y] + Optionally(hasU, u) + Optionally(hasV, v);
      && Imbalance(entries, c)
         == Within(x, c) + Within(y, c) + (if hasU then Within(u, c) else 0) + (if hasV then Within(v, c) else 0)
      && EntriesNet(entries, a, c)
         == Toward(x, a, c) + Toward(y, a, c) + (if hasU then Toward(u, a, c) else 0) + (if hasV then Toward(v, a, c) else 0)
  {
    var us, vs := Optionally(hasU, u), Optionally(hasV, v);
    assert [x, y] + us + vs == [x, y] + (us + vs);
    EntryTotals(x, y, us + vs, a, c);
    ImbalanceConcat(us, vs, c);
    EntriesNetConcat(us, vs, a, c);
  }

  /** The four possible entries of a settlement, added up. */
  lemma SettlementTotals(amount: Money, fee: Money, collect: Money, pay: Money, a: Account, c: Currency)
    requires amount.currency == fee.currency == collect.currency == pay.currency
    ensures var entries, margin := SettlementEntries(amount, fee, collect, pay), fee.Minus(collect).Minus(pay);
      var x, y := Entry(Clearing, Debit, amount.Minus(collect)), Entry(Merchant, Credit, amount.Minus(fee));
      var u, v := Entry(Expense, Credit, pay), Entry(Revenue, Credit, margin);
      && Imbalance(entries, c)
         == Within(x, c) + Within(y, c) + (if pay.minor > 0 then Within(u, c) else 0)
            + (if margin.minor > 0 then Within(v, c) else 0)
      && EntriesNet(entries, a, c)
         == Toward(x, a, c) + Toward(y, a, c) + (if pay.minor > 0 then Toward(u, a, c) else 0)
            + (if margin.minor > 0 then Toward(v, a, c) else 0)
  {
    var margin := fee.Minus(collect).Minus(pay);
    FourEntryTotals(Entry(Clearing, Debit, amount.Minus(collect)), Entry(Merchant, Credit, amount.Minus(fee)),
                    pay.IsPositive(), Entry(Expense, Credit, pay),
                    margin.IsPositive(), Entry(Revenue, Credit, margin), a, c);
  }

  lemma SettlementImbalance(amount: Money, fee: Money, collect: Money, pay: Money, c: Currency)
    requires amount.currency == fee.currency == collect.currency == pay.currency && pay.minor >= 0
    ensures var margin := fee.minor - collect.minor - pay.minor;
      Imbalance(SettlementEntries(amount, fee, collect, pay), c) == if c == amount.currency && margin < 0 then margin else 0
  {
    SettlementTotals(amount, fee, collect, pay, Customer, c);
  }

  lemma SettlementEntry(amount: Money, fee: Money, collect: Money, pay: Money, a: Account, c: Currency)
    requires amount.currency == fee.currency == collect.currency == pay.currency && pay.minor >= 0
    ensures var entries, margin := SettlementEntries(amount, fee, collect, pay), fee.minor - collect.minor - pay.minor;
      && (margin >= 0 && c == amount.currency ==>
            EntriesNet(entries, a, c) == SettlementShare(amount.minor, fee.minor, collect.minor, pay.minor, a))
      && (c != amount.currency ==> EntriesNet(entries, a, c) == 0)
  {
    SettlementTotals(amount, fee, collect, pay, a, c);
  }

  /** The settlement posting is accepted exactly when the fee covers both leg costs. */
  lemma SettlementBalances(t: Tx)
    requires t.amount.currency == t.fee.currency && t.amount.IsPositive()
    ensures Balances(SettlementPosting(t).entries) <==> CoversCosts(t)
  {
    CostBounds(t.amount, t.merchantProvider);
    var collect, pay := CollectionCost(t.amount, t.customerProvider), PayoutCost(t.amount, t.merchantProvider);
    SettlementImbalance(t.amount, t.fee, collect, pay, USD);
    SettlementImbalance(t.amount, t.fee, collect, pay, CDF);
  }

  /** The fee charged in production covers the costs to the last unit: the margin is zero. */
  lemma DefaultFeeCovers(t: Tx)
    requires t.amount.IsPositive() && t.fee == DefaultFee(t.amount, t.customerProvider, t.merchantProvider)
    ensures CoversCosts(t) &&
      t.fee.minor - CollectionCost(t.amount, t.customerProvider).minor - PayoutCost(t.amount, t.merchantProvider).minor == 0
    ensures Balances(SettlementPosting(t).entries)
    ensures 0 <= t.fee.minor < t.amount.minor
  {
    FeeBounds(t.amount, t.customerProvider, t.merchantProvider);
    SettlementBalances(t);
  }

  lemma TransferEntry(src: Account, dst: Account, amount: Money, a: Account, c: Currency)
    requires src != dst
    ensures var entries := [Entry(src, Debit, amount), Entry(dst, Credit, amount)];
      && Imbalance(entries, c) == 0
      && EntriesNet(entries, a, c) == if c == amount.currency then TransferShare(amount, src, dst, a) else 0
  {
    var x, y := Entry(src, Debit, amount), Entry(dst, Credit, amount);
    assert [x, y] + [] == [x, y];
    EntryTotals(x, y, [], a, c);
  }

  // ---- what every reachable routed payment looks like --------------------------

  /** The only history a routed payment can have when it rests in a state. */
  function HistoryOf(s: TxState): seq<TxState> {
    match s
    case CollectionPending => [Initiated, CollectionPending]
    case CollectionFailed => [Initiated, CollectionPending, CollectionFailed]
    case PayoutPending => [Initiated, CollectionPending, CollectionSucceeded, PayoutPending]
    case PayoutSucceeded => [Initiated, CollectionPending, CollectionSucceeded, PayoutPending, PayoutSucceeded]
    case RefundPending => [Initiated, CollectionPending, CollectionSucceeded, PayoutPending, PayoutFailed, RefundPending]
    case Refunded =>
      [Initiated, CollectionPending, CollectionSucceeded, PayoutPending, PayoutFailed, RefundPending, Refunded]
    case ManualReview =>
      [Initiated, CollectionPending, CollectionSucceeded, PayoutPending, PayoutFailed, RefundPending, ManualReview]
    case _ => []
  }

  /** The postings a routed payment has made when it rests in a state. */
  function BooksOf(t: Tx): seq<Posting>
    requires t.amount.currency == t.fee.currency
  {
    match t.state
    case PayoutPending => [CollectionPosting(t)]
    case RefundPending => [CollectionPosting(t)]
    case ManualReview => [CollectionPosting(t)]
    case PayoutSucceeded => [CollectionPosting(t)] + (if CoversCosts(t) then [SettlementPosting(t)] else [])
    case Refunded => [CollectionPosting(t), RefundPosting(t)]
    case _ => []
  }

  /** How many legs have been requested when a payment rests in a state. */
  function LegsAsked(s: TxState): nat {
    match s
    case CollectionPending => 1
    case CollectionFailed => 1
    case PayoutPending => 2
    case PayoutSucceeded => 2
    case RefundPending => 3
    case Refunded => 3
    case ManualReview => 3
    case _ => 0
  }

  /** The rail calls: collection, then payout of the net amount, then a refund of the whole amount
      that cites the stored deposit, each at most once and each with its id stored. */
  predicate CallsFit(p: Payment)
    requires p.tx.amount.currency == p.tx.fee.currency
  {
    var t := p.tx;
    var n := LegsAsked(t.state);
    && |p.calls| == n
    && (n >= 1 ==>
         && p.calls[0] == CollectCall(t.id, t.customerMsisdn, t.amount, t.customerProvider, p.calls[0].answer)
         && t.depositId == Issued(p.calls[0].answer)
         && (p.calls[0].answer.Rejected? ==> t.state == CollectionFailed))
    && (n >= 2 ==>
         && p.calls[1] == PayoutCall(t.id, t.merchantMsisdn, t.amount.Minus(t.fee), t.merchantProvider, p.calls[1].answer)
         && (p.calls[1].answer.Rejected? ==> t.state in {RefundPending, Refunded, ManualReview}))
    && t.payoutId == (if n >= 2 then Issued(p.calls[1].answer) else None)
    && (n >= 3 ==>
         && p.calls[2] == RefundCall(t.id, t.depositId, t.amount, t.customerProvider, p.calls[2].answer)
         && (p.calls[2].answer.Rejected? ==> t.state == ManualReview))
    && t.refundId == (if n >= 3 then Issued(p.calls[2].answer) else None)
  }

  /** What had been done, in order, when the collection was asked for. */
  function UpToCollection(t: Tx, calls: seq<RailCall>): seq<Act>
    requires |calls| >= 1
  {
    [Entered(t.id, Initiated), Entered(t.id, CollectionPending), Asked(calls[0])]
  }

  /** When the payout was: the collection is booked first. */
  function UpToPayout(t: Tx, calls: seq<RailCall>): seq<Act>
    requires |calls| >= 2
  {
    UpToCollection(t, calls)
    + [Entered(t.id, CollectionSucceeded), Booked(CollectionPosting(t)), Entered(t.id, PayoutPending), Asked(calls[1])]
  }

  /** When the refund was: the payout has failed first. */
  function UpToRefund(t: Tx, calls: seq<RailCall>): seq<Act>
    requires |calls| >= 3
  {
    UpToPayout(t, calls) + [Entered(t.id, PayoutFailed), Entered(t.id, RefundPending), Asked(calls[2])]
  }

  /** Everything done about a payment that rests in a state, in order. */
  function TraceOf(t: Tx, calls: seq<RailCall>): seq<Act>
    requires t.amount.currency == t.fee.currency && |calls| == LegsAsked(t.state)
  {
    match t.state
    case CollectionPending => UpToCollection(t, calls)
    case CollectionFailed => UpToCollection(t, calls) + [Entered(t.id, CollectionFailed)]
    case PayoutPending => UpToPayout(t, calls)
    case PayoutSucceeded =>
      UpToPayout(t, calls) + [Entered(t.id, PayoutSucceeded)]
      + (if CoversCosts(t) then [Booked(SettlementPosting(t))] else [])
    case RefundPending => UpToRefund(t, calls)
    case Refunded => UpToRefund(t, calls) + [Entered(t.id, Refunded), Booked(RefundPosting(t))]
    case ManualReview => UpToRefund(t, calls) + [Entered(t.id, ManualReview)]
    case _ => []
  }

  /** The whole of a routed payment, read off its transaction and the rail's answers. */
  predicate Canonical(p: Payment) {
    && Sound(p.tx)
    && p.tx.provenance == RailVerified
    && HistoryOf(p.tx.state) != []
    && p.tx.history == HistoryOf(p.tx.state)
    && p.books == BooksOf(p.tx)
    && CallsFit(p)
    && p.trace == TraceOf(p.tx, p.calls)
  }

  /** The transaction as it is built, before its first save. */
  predicate Newborn(t: Tx) {
    t.state == Initiated && t.history == [Initiated] && t.depositId == t.payoutId == t.refundId == None
  }

  lemma AbsorbThen(p: Payment, e: Effect, f: Effect)
    ensures Absorb(p, Then(e, f)) == Absorb(Absorb(p, e), f)
  {
    assert p.books + (e.posts + f.posts) == p.books + e.posts + f.posts;
    assert p.calls + (e.calls + f.calls) == p.calls + e.calls + f.calls;
    assert p.trace + (e.trace + f.trace) == p.trace + e.trace + f.trace;
  }

  /** What one primitive effect leaves of a payment. */
  lemma AbsorbEnter(p: Payment, dst: TxState)
    requires CanTransition(p.tx.state, dst)
    ensures Absorb(p, Enter(p.tx, dst)) == Payment(Moved(p.tx, dst), p.books, p.calls, p.trace + [Entered(p.tx.id, dst)])
  {
    assert p.books + [] == p.books && p.calls + [] == p.calls;
  }

  lemma AbsorbAsk(p: Payment, call: RailCall)
    ensures Absorb(p, Ask(p.tx, call)) == Payment(p.tx, p.books, p.calls + [call], p.trace + [Asked(call)])
  {
    assert p.books + [] == p.books;
  }

  lemma AbsorbBook(p: Payment, posting: Posting)
    requires Balances(posting.entries)
    ensures Absorb(p, Book(p.tx, posting)) == Payment(p.tx, p.books + [posting], p.calls, p.trace + [Booked(posting)])
  {
    assert p.calls + [] == p.calls;
  }

  lemma AbsorbId(p: Payment, leg: Leg, opId: Option<string>)
    ensures Absorb(p, StoreId(p.tx, leg, opId)) == Payment(WithOpId(p.tx, leg, opId), p.books, p.calls, p.trace)
  {
    assert p.books + [] == p.books && p.calls + [] == p.calls && p.trace + [] == p.trace;
  }

  /** The collection has just been asked, whatever the rail said to it. */
  function Asking(t: Tx, answer: Answer): Payment {
    var call := CollectCall(t.id, t.customerMsisdn, t.amount, t.customerProvider, answer);
    Payment(Moved(t, CollectionPending), [], [call],
            [Entered(t.id, Initiated), Entered(t.id, CollectionPending), Asked(call)])
  }

  lemma OpenedInSteps(t: Tx, answer: Answer)
    requires Newborn(t)
    ensures var p := Asking(t, answer);
      Absorb(Born(t), Opened(t, answer))
        == match answer
           case Rejected => Payment(Moved(p.tx, CollectionFailed), p.books, p.calls, p.trace + [Entered(t.id, CollectionFailed)])
           case Accepted(opId) => Payment(WithOpId(p.tx, Deposit, opId), p.books, p.calls, p.trace)
  {
    var call := CollectCall(t.id, t.customerMsisdn, t.amount, t.customerProvider, answer);
    var e1 := Enter(t, CollectionPending);
    var q1 := Absorb(Born(t), e1);
    AbsorbEnter(Born(t), CollectionPending);
    AbsorbThen(Born(t), e1, Ask(e1.tx, call));
    AbsorbAsk(q1, call);
    var e2 := Then(e1, Ask(e1.tx, call));
    var p := Asking(t, answer);
    assert Absorb(Born(t), e2) == p;
    match answer {
      case Rejected =>
        AbsorbThen(Born(t), e2, Enter(e2.tx, CollectionFailed));
        AbsorbEnter(p, CollectionFailed);
      case Accepted(opId) =>
        AbsorbThen(Born(t), e2, StoreId(e2.tx, Deposit, opId));
        AbsorbId(p, Deposit, opId);
    }
  }

  lemma StartIsCanonical(t: Tx, answer: Answer)
    requires Newborn(t) && Sound(t) && t.provenance == RailVerified
    ensures Canonical(Absorb(Born(t), Opened(t, answer)))
    ensures Absorb(Born(t), Opened(t, answer)).tx.state == if answer.Accepted? then CollectionPending else CollectionFailed
  {
    OpenedInSteps(t, answer);
  }

  /** The payout has just been asked, whatever the rail said to it. */
  predicate AtPayout(p: Payment) {
    var t := p.tx;
    && Sound(t) && t.provenance == RailVerified
    && t.state == PayoutPending && t.history == HistoryOf(PayoutPending)
    && p.books == [CollectionPosting(t)]
    && |p.calls| == 2
    && p.calls[0] == CollectCall(t.id, t.customerMsisdn, t.amount, t.customerProvider, p.calls[0].answer)
    && p.calls[0].answer.Accepted? && t.depositId == p.calls[0].answer.opId
    && p.calls[1] == PayoutCall(t.id, t.merchantMsisdn, t.amount.Minus(t.fee), t.merchantProvider, p.calls[1].answer)
    && t.payoutId == Issued(p.calls[1].answer)
    && t.refundId == None
    && p.trace == UpToPayout(t, p.calls)
  }

  /** The refund has just been asked, whatever the rail said to it. */
  predicate AtRefund(p: Payment) {
    var t := p.tx;
    && Sound(t) && t.provenance == RailVerified
    && t.state == RefundPending && t.history == HistoryOf(RefundPending)
    && p.books == [CollectionPosting(t)]
    && |p.calls| == 3
    && p.calls[0] == CollectCall(t.id, t.customerMsisdn, t.amount, t.customerProvider, p.calls[0].answer)
    && p.calls[0].answer.Accepted? && t.depositId == p.calls[0].answer.opId
    && p.calls[1] == PayoutCall(t.id, t.merchantMsisdn, t.amount.Minus(t.fee), t.merchantProvider, p.calls[1].answer)
    && t.payoutId == Issued(p.calls[1].answer)
    && p.calls[2] == RefundCall(t.id, t.depositId, t.amount, t.customerProvider, p.calls[2].answer)
    && t.refundId == None
    && p.trace == UpToRefund(t, p.calls)
  }

  function RefundAsk(t: Tx, a: Answers): RailCall {
    RefundCall(t.id, t.depositId, t.amount, t.customerProvider, a.refund)
  }

  /** From the payout's failure to the refund's opening, before anything is asked. */
  lemma RefundOpens(p: Payment) returns (q1: Payment)
    requires AtPayout(p)
    ensures var q := Absorb(p, Enter(p.tx, PayoutFailed));
      Enter(q.tx, RefundPending).fault == NoFault && q1 == Absorb(q, Enter(q.tx, RefundPending))
    ensures q1.tx == p.tx.(state := RefundPending, history := HistoryOf(RefundPending))
    ensures q1.books == p.books && q1.calls == p.calls
    ensures q1.trace == p.trace + [Entered(p.tx.id, PayoutFailed)] + [Entered(p.tx.id, RefundPending)]
  {
    AbsorbEnter(p, PayoutFailed);
    var q := Absorb(p, Enter(p.tx, PayoutFailed));
    AbsorbEnter(q, RefundPending);
    q1 := Absorb(q, Enter(q.tx, RefundPending));
  }

  lemma RefundAsked(p: Payment, a: Answers)
    requires AtPayout(p)
    ensures var q := Absorb(p, Enter(p.tx, PayoutFailed)); var e1 := Enter(q.tx, RefundPending);
      && q.tx.customerProvider != "" && e1.fault == NoFault
      && AtRefund(Absorb(q, Then(e1, Ask(e1.tx, RefundAsk(q.tx, a)))))
      && Absorb(q, Then(e1, Ask(e1.tx, RefundAsk(q.tx, a)))).calls[2].answer == a.refund
  {
    var q1 := RefundOpens(p);
    var q := Absorb(p, Enter(p.tx, PayoutFailed));
    var e1 := Enter(q.tx, RefundPending);
    AbsorbThen(q, e1, Ask(e1.tx, RefundAsk(q.tx, a)));
    AbsorbAsk(q1, RefundAsk(q.tx, a));
    AskedIsAtRefund(p, q1, a);
  }

  lemma AskedIsAtRefund(p: Payment, q1: Payment, a: Answers)
    requires AtPayout(p) && q1.books == p.books && q1.calls == p.calls
    requires q1.tx == p.tx.(state := RefundPending, history := HistoryOf(RefundPending))
    requires q1.trace == p.trace + [Entered(p.tx.id, PayoutFailed)] + [Entered(p.tx.id, RefundPending)]
    ensures AtRefund(Absorb(q1, Ask(q1.tx, RefundAsk(p.tx, a))))
  {
    AbsorbAsk(q1, RefundAsk(p.tx, a));
    var q2 := Absorb(q1, Ask(q1.tx, RefundAsk(p.tx, a)));
    assert q2.trace == UpToRefund(q2.tx, q2.calls);
  }

  lemma RefundAnswered(p: Payment)
    requires AtRefund(p)
    ensures var answer := p.calls[2].answer;
      Canonical(Absorb(p, if answer.Accepted? then StoreId(p.tx, Refund, answer.opId) else Enter(p.tx, ManualReview)))
  {
    match p.calls[2].answer
    case Accepted(opId) => AbsorbId(p, Refund, opId);
    case Rejected => AbsorbEnter(p, ManualReview);
  }

  /** The payout has failed, at once or later, and the refund is begun. */
  lemma BeginRefundStep(p: Payment, a: Answers)
    requires AtPayout(p)
    ensures var q := Absorb(p, Enter(p.tx, PayoutFailed)); var e := BeginRefund(q.tx, a);
      && e.fault == NoFault && Canonical(Absorb(q, e))
      && e.tx.state == if a.refund.Accepted? then RefundPending else ManualReview
  {
    RefundAsked(p, a);
    var q := Absorb(p, Enter(p.tx, PayoutFailed));
    var e1 := Enter(q.tx, RefundPending);
    var e2 := Then(e1, Ask(e1.tx, RefundAsk(q.tx, a)));
    RefundAnswered(Absorb(q, e2));
    match a.refund {
      case Accepted(opId) => AbsorbThen(q, e2, StoreId(e2.tx, Refund, opId));
      case Rejected => AbsorbThen(q, e2, Enter(e2.tx, ManualReview));
    }
  }

  /** The collection is booked and the payout asked. */
  lemma BeginPayoutStep(p: Payment, a: Answers)
    requires Sound(p.tx) && p.tx.provenance == RailVerified && p.tx.state == CollectionSucceeded
    requires p.tx.history == [Initiated, CollectionPending, CollectionSucceeded]
    requires p.books == [CollectionPosting(p.tx)] && |p.calls| == 1
    requires p.calls[0] == CollectCall(p.tx.id, p.tx.customerMsisdn, p.tx.amount, p.tx.customerProvider, p.calls[0].answer)
    requires p.calls[0].answer.Accepted? && p.tx.depositId == p.calls[0].answer.opId && p.tx.payoutId == p.tx.refundId == None
    requires p.trace == UpToCollection(p.tx, p.calls) + [Entered(p.tx.id, CollectionSucceeded), Booked(CollectionPosting(p.tx))]
    ensures var e := BeginPayout(p.tx, a); e.fault == NoFault && Canonical(Absorb(p, e))
    ensures BeginPayout(p.tx, a).tx.state
         == if a.payout.Accepted? then PayoutPending else if a.refund.Accepted? then RefundPending else ManualReview
  {
    var t := p.tx;
    var e1 := Enter(t, PayoutPending);
    AbsorbEnter(p, PayoutPending);
    var q1 := Absorb(p, e1);
    var call := PayoutCall(t.id, t.merchantMsisdn, t.amount.Minus(t.fee), t.merchantProvider, a.payout);
    AbsorbThen(p, e1, Ask(e1.tx, call));
    AbsorbAsk(q1, call);
    var e2, q2 := Then(e1, Ask(e1.tx, call)), Absorb(q1, Ask(q1.tx, call));
    assert q2.trace == UpToPayout(q2.tx, q2.calls);
    match a.payout {
      case Accepted(opId) =>
        AbsorbThen(p, e2, StoreId(e2.tx, Payout, opId));
        AbsorbId(q2, Payout, opId);
      case Rejected =>
        assert AtPayout(q2);
        BeginRefundStep(q2, a);
        var e3 := Then(e2, Enter(e2.tx, PayoutFailed));
        AbsorbThen(p, e2, Enter(e2.tx, PayoutFailed));
        AbsorbThen(p, e3, BeginRefund(e3.tx, a));
    }
  }

  lemma DepositStep(p: Payment, success: bool, a: Answers)
    requires Canonical(p) && p.tx.state == CollectionPending
    ensures var e := OnCollection(p.tx, success, a); e.fault == NoFault && Canonical(Absorb(p, e))
    ensures OnCollection(p.tx, success, a).tx.state
         == if !success then CollectionFailed else if a.payout.Accepted? then PayoutPending
            else if a.refund.Accepted? then RefundPending else ManualReview
  {
    if !success {
      AbsorbEnter(p, CollectionFailed);
    } else {
      CollectionBalances(p.tx);
      var e1 := Enter(p.tx, CollectionSucceeded);
      AbsorbEnter(p, CollectionSucceeded);
      var q1 := Absorb(p, e1);
      assert CollectionPosting(e1.tx) == CollectionPosting(p.tx);
      var e2 := Then(e1, Book(e1.tx, CollectionPosting(e1.tx)));
      AbsorbThen(p, e1, Book(e1.tx, CollectionPosting(e1.tx)));
      AbsorbBook(q1, CollectionPosting(e1.tx));
      var q2 := Absorb(p, e2);
      assert q2.trace == UpToCollection(q2.tx, q2.calls) + [Entered(q2.tx.id, CollectionSucceeded), Booked(CollectionPosting(q2.tx))];
      BeginPayoutStep(q2, a);
      AbsorbThen(p, e2, BeginPayout(e2.tx, a));
    }
  }

  lemma PayoutStep(p: Payment, success: bool, a: Answers)
    requires Canonical(p) && p.tx.state == PayoutPending
    ensures var e := OnPayout(p.tx, success, a);
      && Canonical(Absorb(p, e))
      && e.fault == (if success && !CoversCosts(p.tx) then UnbalancedPosting else NoFault)
    ensures OnPayout(p.tx, success, a).tx.state
         == if success then PayoutSucceeded else if a.refund.Accepted? then RefundPending else ManualReview
  {
    if !success {
      var e1 := Enter(p.tx, PayoutFailed);
      BeginRefundStep(p, a);
      AbsorbThen(p, e1, BeginRefund(e1.tx, a));
    } else {
      SettlementBalances(p.tx);
      var e1 := Enter(p.tx, PayoutSucceeded);
      AbsorbEnter(p, PayoutSucceeded);
      var q1, posting := Absorb(p, e1), SettlementPosting(e1.tx);
      assert posting == SettlementPosting(p.tx) && CollectionPosting(e1.tx) == CollectionPosting(p.tx);
      AbsorbThen(p, e1, Book(e1.tx, posting));
      if CoversCosts(p.tx) {
        AbsorbBook(q1, posting);
      } else {
        assert q1.books + [] == q1.books && q1.calls + [] == q1.calls && q1.trace + [] == q1.trace;
      }
    }
  }

  lemma RefundPostingBalances(t: Tx)
    ensures Balances(RefundPosting(t).entries) && Balances(OnNetPosting(t).entries)
  {
    forall c: Currency
      ensures Imbalance(RefundPosting(t).entries, c) == 0 == Imbalance(OnNetPosting(t).entries, c)
    {
      TransferEntry(Clearing, Customer, t.amount, Customer, c);
      TransferEntry(Customer, Merchant, t.amount, Customer, c);
    }
  }

  lemma RefundStep(p: Payment, success: bool)
    requires Canonical(p) && p.tx.state == RefundPending
    ensures var e := OnRefund(p.tx, success); e.fault == NoFault && Canonical(Absorb(p, e))
    ensures OnRefund(p.tx, success).tx.state == if success then Refunded else ManualReview
  {
    if !success {
      AbsorbEnter(p, ManualReview);
    } else {
      var e1 := Enter(p.tx, Refunded);
      AbsorbEnter(p, Refunded);
      RefundPostingBalances(e1.tx);
      assert RefundPosting(e1.tx) == RefundPosting(p.tx);
      AbsorbThen(p, e1, Book(e1.tx, RefundPosting(e1.tx)));
      AbsorbBook(Absorb(p, e1), RefundPosting(e1.tx));
    }
  }

  /** Every outcome, expected or not, keeps a payment canonical. */
  lemma ApplyKeepsCanonical(p: Payment, leg: Leg, success: bool, a: Answers)
    requires Canonical(p)
    ensures Canonical(ApplyOutcome(p, leg, success, a))
  {
    if p.tx.state == AwaitingState(leg) {
      match leg
      case Deposit => DepositStep(p, success, a);
      case Payout => PayoutStep(p, success, a);
      case Refund => RefundStep(p, success);
    }
  }

  /** Driven through the guard, a handler never attempts an illegal transition and never misses a
      provider; it raises only when a settlement succeeds under a fee below cost. */
  lemma GuardedFaults(p: Payment, leg: Leg, success: bool, a: Answers)
    requires Canonical(p) && p.tx.state == AwaitingState(leg)
    ensures OnResult(p.tx, leg, success, a).fault
         == if leg == Payout && success && !CoversCosts(p.tx) then UnbalancedPosting else NoFault
  {
    match leg
    case Deposit => DepositStep(p, success, a);
    case Payout => PayoutStep(p, success, a);
    case Refund => RefundStep(p, success);
  }

  lemma HistoryOfIsSound(s: TxState)
    ensures var h := HistoryOf(s);
      h == [] || (LegalPath(h) && h[|h| - 1] == s && NoDuplicates(h) && |h| <= 7)
  {
  }

  /** A canonical history is a legal path that ends in the current state and repeats nothing. */
  lemma HistorySound(p: Payment)
    requires Canonical(p)
    ensures LegalPath(p.tx.history)
    ensures p.tx.history[|p.tx.history| - 1] == p.tx.state
    ensures NoDuplicates(p.tx.history)
    ensures |p.tx.history| <= 7
  {
    HistoryOfIsSound(p.tx.state);
  }

  /** A request goes to the right party, on that party's operator, for the right amount: the customer
      pays the whole amount, the merchant gets it less the fee, a refund returns it whole and cites the
      stored deposit. */
  predicate Addressed(c: RailCall, t: Tx)
    requires t.amount.currency == t.fee.currency
  {
    c.txId == t.id &&
    match c
    case CollectCall(_, msisdn, amount, provider, _) =>
      msisdn == t.customerMsisdn && amount == t.amount && provider == t.customerProvider
    case PayoutCall(_, msisdn, amount, provider, _) =>
      msisdn == t.merchantMsisdn && amount == t.amount.Minus(t.fee) && provider == t.merchantProvider
    case RefundCall(_, depositId, amount, provider, _) =>
      depositId == t.depositId && amount == t.amount && provider == t.customerProvider
  }

  /** No leg is asked twice, and each request is rightly addressed. */
  lemma CallsDisciplined(p: Payment)
    requires Canonical(p)
    ensures forall i, j :: 0 <= i < j < |p.calls| ==> CallLeg(p.calls[i]) != CallLeg(p.calls[j])
    ensures forall c | c in p.calls :: Addressed(c, p.tx)
  {
  }

  /** Whether, by the time of the `j`-th act, another had been done. */
  ghost predicate DoneBefore(trace: seq<Act>, j: nat, x: Act) {
    exists i :: 0 <= i < j && i < |trace| && trace[i] == x
  }

  /** A request follows the move to the state that awaits it; the payout's follows the booking of the
      collection, the refund's the failure of the payout. */
  ghost predicate AskedInOrder(t: Tx, trace: seq<Act>, j: nat)
    requires j < |trace| && trace[j].Asked?
  {
    var call := trace[j].call;
    && DoneBefore(trace, j, Entered(t.id, AwaitingState(CallLeg(call))))
    && (call.PayoutCall? ==> DoneBefore(trace, j, Booked(CollectionPosting(t))))
    && (call.RefundCall? ==> DoneBefore(trace, j, Entered(t.id, PayoutFailed)))
  }

  /** A routed posting follows the move that calls for it. */
  ghost predicate BookedInOrder(t: Tx, trace: seq<Act>, j: nat)
    requires j < |trace| && trace[j].Booked? && t.amount.currency == t.fee.currency
  {
    var posting := trace[j].posting;
    || (posting == CollectionPosting(t) && DoneBefore(trace, j, Entered(t.id, CollectionSucceeded)))
    || (posting == RefundPosting(t) && DoneBefore(trace, j, Entered(t.id, Refunded)))
    || (posting == SettlementPosting(t) && DoneBefore(trace, j, Entered(t.id, PayoutSucceeded)))
  }

  ghost predicate InOrder(p: Payment)
    requires p.tx.amount.currency == p.tx.fee.currency
  {
    && (forall j {:trigger p.trace[j]} | 0 <= j < |p.trace| && p.trace[j].Asked? :: AskedInOrder(p.tx, p.trace, j))
    && (p.tx.provenance == RailVerified ==>
          forall j {:trigger p.trace[j]} | 0 <= j < |p.trace| && p.trace[j].Booked? :: BookedInOrder(p.tx, p.trace, j))
  }

  lemma AskInOrder(p: Payment, j: nat)
    requires Canonical(p) && j < |p.trace| && p.trace[j].Asked?
    ensures AskedInOrder(p.tx, p.trace, j)
  {
    var t, trace := p.tx, p.trace;
    assert j in {2, 6, 9};
    assert trace[j - 1] == Entered(t.id, AwaitingState(CallLeg(trace[j].call)));
    if j > 2 {
      assert trace[4] == Booked(CollectionPosting(t));
    }
    if j > 6 {
      assert trace[7] == Entered(t.id, PayoutFailed);
    }
  }

  lemma BookingInOrder(p: Payment, j: nat)
    requires Canonical(p) && j < |p.trace| && p.trace[j].Booked?
    ensures BookedInOrder(p.tx, p.trace, j)
  {
    var t, trace := p.tx, p.trace;
    assert j in {4, 8, 11};
    if j == 4 {
      assert trace[3] == Entered(t.id, CollectionSucceeded);
    } else if j == 8 {
      assert trace[7] == Entered(t.id, PayoutSucceeded);
    } else {
      assert trace[10] == Entered(t.id, Refunded);
    }
  }

  lemma ActsInOrder(p: Payment)
    requires WellKept(p)
    ensures InOrder(p)
  {
    if p.tx.provenance == RailVerified {
      forall j | 0 <= j < |p.trace| && p.trace[j].Asked? ensures AskedInOrder(p.tx, p.trace, j) {
        AskInOrder(p, j);
      }
      forall j | 0 <= j < |p.trace| && p.trace[j].Booked? ensures BookedInOrder(p.tx, p.trace, j) {
        BookingInOrder(p, j);
      }
    }
  }

  ghost predicate Credits(p: Posting, a: Account) {
    exists e :: e in p.entries && e.direction == Credit && e.account == a
  }

  lemma WhomPostingsCredit(t: Tx)
    requires t.amount.currency == t.fee.currency
    ensures !Credits(CollectionPosting(t), Merchant) && !Credits(CollectionPosting(t), Customer)
    ensures !Credits(SettlementPosting(t), Customer) && !Credits(RefundPosting(t), Merchant)
  {
  }

  /** No payment both pays the merchant and refunds the customer. */
  lemma NeverBothCredited(p: Payment)
    requires Canonical(p)
    ensures !(exists x, y :: x in p.books && y in p.books && Credits(x, Merchant) && Credits(y, Customer))
  {
    WhomPostingsCredit(p.tx);
    assert |p.books| <= 2;
  }

  // ---- on-net payments ---------------------------------------------------------

  function AwaitingWord(t: Tx): seq<Act> {
    [Entered(t.id, Initiated), Entered(t.id, CollectionPending)]
  }

  /** Nothing asked, nothing held: a record that waits for the merchant's word. */
  predicate CanonicalOnNet(p: Payment) {
    var t := p.tx;
    && t.amount.IsPositive()
    && t.amount.currency == t.fee.currency
    && t.provenance == MerchantAttested
    && t.depositId == t.payoutId == t.refundId == None
    && p.calls == []
    && match t.state
       case CollectionPending =>
         t.history == [Initiated, CollectionPending] && p.books == [] && p.trace == AwaitingWord(t)
       case CollectionFailed =>
         && t.history == [Initiated, CollectionPending, CollectionFailed] && p.books == []
         && p.trace == AwaitingWord(t) + [Entered(t.id, CollectionFailed)]
       case PayoutSucceeded =>
         && t.history == [Initiated, CollectionPending, PayoutSucceeded] && p.books == [OnNetPosting(t)]
         && p.trace == AwaitingWord(t) + [Booked(OnNetPosting(t)), Entered(t.id, PayoutSucceeded)]
       case _ => false
  }

  /** The confirmation endpoint's guards: the owner, an on-net payment, still awaiting a word. */
  function ApplyConfirm(p: Payment, merchantId: string, received: bool): Payment {
    if p.tx.merchantId == Some(merchantId) && p.tx.provenance == MerchantAttested && p.tx.state == CollectionPending
    then Absorb(p, OnConfirm(p.tx, received))
    else p
  }

  lemma ConfirmKeepsCanonical(p: Payment, merchantId: string, received: bool)
    requires CanonicalOnNet(p)
    ensures CanonicalOnNet(ApplyConfirm(p, merchantId, received))
    ensures var q := ApplyConfirm(p, merchantId, received);
      q.tx == p.tx.(state := q.tx.state, history := q.tx.history)
  {
    if ApplyConfirm(p, merchantId, received) != p {
      ConfirmStep(p, received);
    }
  }

  lemma ConfirmStep(p: Payment, received: bool)
    requires CanonicalOnNet(p) && p.tx.state == CollectionPending
    ensures CanonicalOnNet(Absorb(p, OnConfirm(p.tx, received))) && OnConfirm(p.tx, received).fault == NoFault
  {
    if received {
      RefundPostingBalances(p.tx);
      AbsorbBook(p, OnNetPosting(p.tx));
      var q := Absorb(p, Book(p.tx, OnNetPosting(p.tx)));
      AbsorbThen(p, Book(p.tx, OnNetPosting(p.tx)), Enter(q.tx, PayoutSucceeded));
      AbsorbEnter(q, PayoutSucceeded);
    } else {
      AbsorbEnter(p, CollectionFailed);
    }
  }

  /** What the owner's word makes of a payment that awaits it: received, it is paid, customer to merchant,
      whole; not received, it has failed and nothing was booked. Anybody else's word, or a word about anything
      else, makes nothing of it. */
  lemma ConfirmEnds(p: Payment, merchantId: string, received: bool)
    requires CanonicalOnNet(p)
    ensures var q, amount := ApplyConfirm(p, merchantId, received), p.tx.amount;
      if p.tx.state != CollectionPending || p.tx.merchantId != Some(merchantId) then q == p
      else if received then
        && q.tx.state == PayoutSucceeded
        && q.books == [Posting(p.tx.id, [Entry(Customer, Debit, amount), Entry(Merchant, Credit, amount)])]
      else q.tx.state == CollectionFailed && q.books == []
  {
    RefundPostingBalances(p.tx);
  }

  /** A second word, whatever it says, changes nothing. */
  lemma ConfirmOnce(p: Payment, merchantId: string, first: bool, second: bool, other: string)
    requires CanonicalOnNet(p) && p.tx.merchantId == Some(merchantId)
    ensures var q := ApplyConfirm(p, merchantId, first);
      ApplyConfirm(q, other, second) == q && q.tx.state != CollectionPending
  {
  }

  predicate WellKept(p: Payment) {
    Canonical(p) || CanonicalOnNet(p)
  }

  // ---- lock-step: the books are a function of the state ---------------------------

  /** What each account should hold for one transaction, read off its state alone. */
  function Expected(t: Tx, a: Account): int {
    var amount, fee := t.amount.minor, t.fee.minor;
    var collect, pay := CollectionCost(t.amount, t.customerProvider).minor, PayoutCost(t.amount, t.merchantProvider).minor;
    if t.provenance == MerchantAttested then
      if t.state != PayoutSucceeded then 0
      else match a
        case Customer => -amount
        case Merchant => amount
        case _ => 0
    else match t.state
      case PayoutPending => CollectionShare(amount, collect, a)
      case RefundPending => CollectionShare(amount, collect, a)
      case ManualReview => CollectionShare(amount, collect, a)
      case PayoutSucceeded => (
        match a
        case Customer => -amount
        case Merchant => amount - fee
        case Clearing => 0
        case Expense => collect + pay
        case Revenue => fee - collect - pay
      )
      case Refunded => (
        match a
        case Clearing => -collect
        case Expense => collect
        case _ => 0
      )
      case _ => 0
  }

  lemma NetOfTwo(p: Posting, q: Posting, a: Account, c: Currency)
    ensures Net([p], a, c) == EntriesNet(p.entries, a, c)
    ensures Net([p, q], a, c) == EntriesNet(p.entries, a, c) + EntriesNet(q.entries, a, c)
  {
    assert [p, q][1..] == [q];
    assert Net([q], a, c) == EntriesNet(q.entries, a, c) + Net([q][1..], a, c);
  }

  /** The five balances of a payment are what its state says. */
  ghost predicate LockStepped(p: Payment) {
    forall a, c :: Net(p.books, a, c) == if c == p.tx.amount.currency then Expected(p.tx, a) else 0
  }

  lemma RoutedLockStepAt(p: Payment, a: Account, c: Currency)
    requires Canonical(p) && (p.tx.state == PayoutSucceeded ==> CoversCosts(p.tx))
    ensures Net(p.books, a, c) == if c == p.tx.amount.currency then Expected(p.tx, a) else 0
  {
    var t := p.tx;
    CostBounds(t.amount, t.customerProvider);
    CostBounds(t.amount, t.merchantProvider);
    var collect, pay := CollectionCost(t.amount, t.customerProvider), PayoutCost(t.amount, t.merchantProvider);
    CollectionEntry(t.amount, collect, a, c);
    if t.state == PayoutSucceeded {
      SettlementEntry(t.amount, t.fee, collect, pay, a, c);
      NetOfTwo(CollectionPosting(t), SettlementPosting(t), a, c);
    } else {
      TransferEntry(Clearing, Customer, t.amount, a, c);
      NetOfTwo(CollectionPosting(t), RefundPosting(t), a, c);
    }
  }

  lemma LockStepAt(p: Payment, a: Account, c: Currency)
    requires WellKept(p)
    requires p.tx.provenance == RailVerified && p.tx.state == PayoutSucceeded ==> CoversCosts(p.tx)
    ensures Net(p.books, a, c) == if c == p.tx.amount.currency then Expected(p.tx, a) else 0
  {
    if p.tx.provenance == MerchantAttested {
      TransferEntry(Customer, Merchant, p.tx.amount, a, c);
    } else {
      RoutedLockStepAt(p, a, c);
    }
  }

  /** Lock-step, with its exact condition: the five balances are what the state says, unless a routed
      payment reached its success under a fee that does not cover the two leg costs. */
  lemma LockStep(p: Payment)
    requires WellKept(p)
    ensures LockStepped(p) <==> (p.tx.provenance == RailVerified && p.tx.state == PayoutSucceeded ==> CoversCosts(p.tx))
  {
    var t := p.tx;
    if t.provenance == RailVerified && t.state == PayoutSucceeded && !CoversCosts(t) {
      CostBounds(t.amount, t.customerProvider);
      CollectionEntry(t.amount, CollectionCost(t.amount, t.customerProvider), Merchant, t.amount.currency);
      NetOfTwo(CollectionPosting(t), CollectionPosting(t), Merchant, t.amount.currency);
      assert p.books == [CollectionPosting(t)];
      assert Net(p.books, Merchant, t.amount.currency) == 0 != Expected(t, Merchant);
    } else {
      forall a, c ensures Net(p.books, a, c) == if c == t.amount.currency then Expected(t, a) else 0 {
        LockStepAt(p, a, c);
      }
    }
  }

  /** Why the endpoint's guard matters: called without it, the handler posts first. On a payment of its own
      kind the books follow the state, and the form is kept, exactly when the state was still awaiting the
      word. */
  lemma UnguardedConfirmBreaksBooks(p: Payment)
    requires CanonicalOnNet(p)
    ensures LockStepped(Absorb(p, OnConfirm(p.tx, true))) <==> p.tx.state == CollectionPending
    ensures CanonicalOnNet(Absorb(p, OnConfirm(p.tx, true))) <==> p.tx.state == CollectionPending
  {
    var q := Absorb(p, OnConfirm(p.tx, true));
    RefundPostingBalances(p.tx);
    if p.tx.state == CollectionPending {
      ConfirmStep(p, true);
      LockStep(q);
    } else {
      assert q.tx == p.tx && q.books == p.books + [OnNetPosting(p.tx)];
      var c := p.tx.amount.currency;
      TransferEntry(Customer, Merchant, p.tx.amount, Customer, c);
      NetOfTwo(OnNetPosting(p.tx), OnNetPosting(p.tx), Customer, c);
      assert Net(q.books, Customer, c) != Expected(q.tx, Customer);
    }
  }

  /** Every posting a well-kept payment has made passed the balance check. */
  lemma BooksBalance(p: Payment)
    requires WellKept(p)
    ensures forall x | x in p.books :: Balances(x.entries) && x.txId == p.tx.id
  {
    RefundPostingBalances(p.tx);
    CollectionBalances(p.tx);
    SettlementBalances(p.tx);
  }

  // ---- one truth, one end: progress and confluence for one payment --------------------

  /** How many outcomes a payment may still absorb. */
  function Rank(s: TxState): (r: nat)
    ensures r <= 3
  {
    match s
    case CollectionPending => 3
    case PayoutPending => 2
    case RefundPending => 1
    case _ => 0
  }

  lemma OutcomeLowersRank(p: Payment, leg: Leg, success: bool, a: Answers)
    requires Canonical(p) && p.tx.state == AwaitingState(leg)
    ensures Rank(ApplyOutcome(p, leg, success, a).tx.state) < Rank(p.tx.state)
  {
    match leg
    case Deposit => DepositStep(p, success, a);
    case Payout => PayoutStep(p, success, a);
    case Refund => RefundStep(p, success);
  }

  /** Where the outcome of an awaited leg leads, by the leg, the outcome and what the rail answers next. */
  function LandsIn(leg: Leg, success: bool, a: Answers): TxState {
    match leg
    case Deposit =>
      if !success then CollectionFailed
      else if a.payout.Accepted? then PayoutPending
      else if a.refund.Accepted? then RefundPending
      else ManualReview
    case Payout => if success then PayoutSucceeded else if a.refund.Accepted? then RefundPending else ManualReview
    case Refund => if success then Refunded else ManualReview
  }

  /** The state that records how a leg went. */
  function MarkOf(leg: Leg, success: bool): TxState {
    match leg
    case Deposit => if success then CollectionSucceeded else CollectionFailed
    case Payout => if success then PayoutSucceeded else PayoutFailed
    case Refund => if success then Refunded else ManualReview
  }

  lemma HistoryBears(leg: Leg, success: bool, a: Answers)
    ensures var h := HistoryOf(LandsIn(leg, success, a)); MarkOf(leg, success) in h && MarkOf(leg, !success) !in h
    ensures var h := HistoryOf(AwaitingState(leg)); MarkOf(leg, true) !in h && MarkOf(leg, false) !in h
  {
    var h := HistoryOf(LandsIn(leg, success, a));
    assert |h| > 2;
    match leg
    case Deposit => assert h[2] == MarkOf(leg, success);
    case Payout => assert h[4] == MarkOf(leg, success);
    case Refund => assert h[6] == MarkOf(leg, success);
  }

  lemma OutcomeLandsIn(p: Payment, leg: Leg, success: bool, a: Answers)
    requires Canonical(p) && p.tx.state == AwaitingState(leg)
    ensures var q := ApplyOutcome(p, leg, success, a); Canonical(q) && q.tx.state == LandsIn(leg, success, a)
  {
    match leg
    case Deposit => DepositStep(p, success, a);
    case Payout => PayoutStep(p, success, a);
    case Refund => RefundStep(p, success);
  }

  lemma CanonicalHistory(p: Payment)
    requires Canonical(p)
    ensures p.tx.history == HistoryOf(p.tx.state)
  {
  }

  /** An awaited leg's outcome lands where it should, and the history has that leg's mark, the right one and
      not the other. */
  lemma OutcomeLands(p: Payment, leg: Leg, success: bool, a: Answers)
    requires Canonical(p) && p.tx.state == AwaitingState(leg)
    ensures var q := ApplyOutcome(p, leg, success, a);
      && q.tx.state == LandsIn(leg, success, a)
      && MarkOf(leg, success) in q.tx.history && MarkOf(leg, !success) !in q.tx.history
    ensures MarkOf(leg, true) !in p.tx.history && MarkOf(leg, false) !in p.tx.history
  {
    OutcomeLandsIn(p, leg, success, a);
    HistoryBears(leg, success, a);
    CanonicalHistory(p);
    CanonicalHistory(ApplyOutcome(p, leg, success, a));
  }

  /** Let the awaited leg, if any, resolve the way it truly did. */
  function Advance(p: Payment, truth: Leg -> bool, a: Answers): Payment
    requires p.tx.amount.currency == p.tx.fee.currency
  {
    match LegForState(p.tx.state)
    case None => p
    case Some(leg) => ApplyOutcome(p, leg, truth(leg), a)
  }

  lemma AdvanceKeepsCanonical(p: Payment, truth: Leg -> bool, a: Answers)
    requires Canonical(p)
    ensures Canonical(Advance(p, truth, a))
    ensures Rank(p.tx.state) > 0 ==> Rank(Advance(p, truth, a).tx.state) < Rank(p.tx.state)
    ensures Rank(p.tx.state) == 0 ==> Advance(p, truth, a) == p
  {
    match LegForState(p.tx.state)
    case None =>
    case Some(leg) =>
      ApplyKeepsCanonical(p, leg, truth(leg), a);
      OutcomeLowersRank(p, leg, truth(leg), a);
  }

  function AdvanceTimes(p: Payment, truth: Leg -> bool, a: Answers, n: nat): Payment
    requires Canonical(p)
    decreases n
  {
    AdvanceKeepsCanonical(p, truth, a);
    if n == 0 then p else AdvanceTimes(Advance(p, truth, a), truth, a, n - 1)
  }

  /** Where a payment ends once every leg it asks has told the truth. */
  function Complete(p: Payment, truth: Leg -> bool, a: Answers): Payment
    requires Canonical(p)
  {
    AdvanceTimes(p, truth, a, 3)
  }

  lemma {:induction false} AdvanceTimesRests(p: Payment, truth: Leg -> bool, a: Answers, n: nat)
    requires Canonical(p) && Rank(p.tx.state) <= n
    ensures AdvanceTimes(p, truth, a, n) == AdvanceTimes(p, truth, a, n + 1)
    ensures Rank(AdvanceTimes(p, truth, a, n).tx.state) == 0
    ensures Canonical(AdvanceTimes(p, truth, a, n))
    ensures AdvanceTimes(p, truth, a, n).tx.id == p.tx.id
    decreases n
  {
    AdvanceKeepsCanonical(p, truth, a);
    if n > 0 {
      AdvanceTimesRests(Advance(p, truth, a), truth, a, n - 1);
    }
  }

  /** A payment is in no more than three outcomes of its end. */
  lemma CompleteRests(p: Payment, truth: Leg -> bool, a: Answers)
    requires Canonical(p)
    ensures Rank(Complete(p, truth, a).tx.state) == 0 && Canonical(Complete(p, truth, a))
    ensures Rank(p.tx.state) == 0 ==> Complete(p, truth, a) == p
  {
    AdvanceTimesRests(p, truth, a, 3);
    if Rank(p.tx.state) == 0 {
      AdvanceTimesRests(p, truth, a, 0);
      AdvanceTimesRests(p, truth, a, 1);
      AdvanceTimesRests(p, truth, a, 2);
    }
  }

  lemma AdvanceKeepsEnd(p: Payment, truth: Leg -> bool, a: Answers)
    requires Canonical(p)
    ensures Canonical(Advance(p, truth, a)) && Complete(Advance(p, truth, a), truth, a) == Complete(p, truth, a)
  {
    AdvanceKeepsCanonical(p, truth, a);
    if Rank(p.tx.state) > 0 {
      AdvanceTimesRests(Advance(p, truth, a), truth, a, 2);
    }
  }

  /** A truthful outcome, timely, late or repeated, does not change where the payment ends. */
  lemma TruthfulOutcomeKeepsEnd(p: Payment, leg: Leg, truth: Leg -> bool, a: Answers)
    requires Canonical(p)
    ensures var q := ApplyOutcome(p, leg, truth(leg), a);
      Canonical(q) && Complete(q, truth, a) == Complete(p, truth, a)
  {
    AdvanceKeepsEnd(p, truth, a);
    assert p.tx.state == AwaitingState(leg) ==> ApplyOutcome(p, leg, truth(leg), a) == Advance(p, truth, a);
  }

  /** The end of a payment, told without the machine: three verdicts and three answers decide it. */
  function Verdict(truth: Leg -> bool, a: Answers): TxState {
    if a.deposit.Rejected? || !truth(Deposit) then CollectionFailed
    else if a.payout.Accepted? && truth(Payout) then PayoutSucceeded
    else if a.refund.Accepted? && truth(Refund) then Refunded
    else ManualReview
  }

  lemma EndOfRefund(p: Payment, truth: Leg -> bool, a: Answers)
    requires Canonical(p) && p.tx.state in {RefundPending, ManualReview}
    ensures Complete(p, truth, a).tx.state == if p.tx.state == RefundPending && truth(Refund) then Refunded else ManualReview
  {
    AdvanceKeepsEnd(p, truth, a);
    CompleteRests(Advance(p, truth, a), truth, a);
  }

  lemma EndOfPayout(p: Payment, truth: Leg -> bool, a: Answers)
    requires Canonical(p) && p.tx.state == PayoutPending
    ensures Complete(p, truth, a).tx.state
         == if truth(Payout) then PayoutSucceeded else if a.refund.Accepted? && truth(Refund) then Refunded else ManualReview
  {
    AdvanceKeepsEnd(p, truth, a);
    PayoutStep(p, truth(Payout), a);
    if truth(Payout) {
      CompleteRests(Advance(p, truth, a), truth, a);
    } else {
      EndOfRefund(Advance(p, truth, a), truth, a);
    }
  }

  lemma AdvanceCollection(p: Payment, truth: Leg -> bool, a: Answers) returns (q: Payment)
    requires Canonical(p) && p.tx.state == CollectionPending
    ensures Play(p, Deposit, truth(Deposit), a) == Played(q, NoFault)
    ensures Canonical(q) && Complete(q, truth, a) == Complete(p, truth, a) && CoversCosts(q.tx) == CoversCosts(p.tx)
    ensures q.tx.state
         == if !truth(Deposit) then CollectionFailed else if a.payout.Accepted? then PayoutPending
            else if a.refund.Accepted? then RefundPending else ManualReview
  {
    AdvanceKeepsEnd(p, truth, a);
    DepositStep(p, truth(Deposit), a);
    HandlersKeepTerms(p.tx, Deposit, truth(Deposit), a);
    q := Advance(p, truth, a);
  }

  lemma AdvancePayout(p: Payment, truth: Leg -> bool, a: Answers) returns (q: Payment)
    requires Canonical(p) && p.tx.state == PayoutPending && CoversCosts(p.tx)
    ensures Play(p, Payout, truth(Payout), a) == Played(q, NoFault)
    ensures Canonical(q) && Complete(q, truth, a) == Complete(p, truth, a)
    ensures q.tx.state == if truth(Payout) then PayoutSucceeded else if a.refund.Accepted? then RefundPending else ManualReview
  {
    AdvanceKeepsEnd(p, truth, a);
    PayoutStep(p, truth(Payout), a);
    q := Advance(p, truth, a);
  }

  lemma AdvanceRefund(p: Payment, truth: Leg -> bool, a: Answers) returns (q: Payment)
    requires Canonical(p) && p.tx.state == RefundPending
    ensures Play(p, Refund, truth(Refund), a) == Played(q, NoFault)
    ensures Complete(p, truth, a) == q
  {
    AdvanceKeepsEnd(p, truth, a);
    RefundStep(p, truth(Refund));
    q := Advance(p, truth, a);
    CompleteRests(q, truth, a);
  }

  lemma EndOfCollection(p: Payment, truth: Leg -> bool, a: Answers)
    requires Canonical(p) && p.tx.state == CollectionPending && a.deposit.Accepted?
    ensures Complete(p, truth, a).tx.state == Verdict(truth, a)
  {
    var q := AdvanceCollection(p, truth, a);
    if !truth(Deposit) {
      CompleteRests(q, truth, a);
    } else if a.payout.Accepted? {
      EndOfPayout(q, truth, a);
    } else {
      EndOfRefund(q, truth, a);
    }
  }

  lemma CompleteIsVerdict(t: Tx, truth: Leg -> bool, a: Answers)
    requires Newborn(t) && Sound(t) && t.provenance == RailVerified
    ensures var p := Absorb(Born(t), Opened(t, a.deposit));
      Canonical(p) && Complete(p, truth, a).tx.state == Verdict(truth, a)
  {
    StartIsCanonical(t, a.deposit);
    var p := Absorb(Born(t), Opened(t, a.deposit));
    if a.deposit.Accepted? {
      EndOfCollection(p, truth, a);
    } else {
      CompleteRests(p, truth, a);
    }
  }

  // ---- the simulator's play-out ------------------------------------------------

  datatype Played = Played(payment: Payment, fault: Fault)

  /** One unguarded handler call, as the simulator makes it. */
  function Play(p: Payment, leg: Leg, success: bool, a: Answers): Played
    requires p.tx.amount.currency == p.tx.fee.currency
  {
    var e := OnResult(p.tx, leg, success, a);
    Played(Absorb(p, e), e.fault)
  }

  lemma HandlersKeepTerms(t: Tx, leg: Leg, success: bool, a: Answers)
    requires t.amount.currency == t.fee.currency
    ensures var u := OnResult(t, leg, success, a).tx;
      u == t.(state := u.state, history := u.history, payoutId := u.payoutId, refundId := u.refundId)
  {
    HandlersAreProper(t, leg, success, a);
  }

  function PlayOut(p: Payment, scenario: string, a: Answers): Played
    requires p.tx.amount.currency == p.tx.fee.currency
  {
    if scenario == "collection_fail" then Play(p, Deposit, false, a)
    else
      var first := Play(p, Deposit, true, a);
      HandlersKeepTerms(p.tx, Deposit, true, a);
      if first.fault != NoFault then first
      else if scenario == "success" then Play(first.payment, Payout, true, a)
      else
        var second := Play(first.payment, Payout, false, a);
        HandlersKeepTerms(first.payment.tx, Payout, false, a);
        if second.fault != NoFault then second
        else Play(second.payment, Refund, scenario != "refund_fail", a)
  }

  function ScenarioTruth(scenario: string): Leg -> bool {
    (leg: Leg) =>
      match leg
      case Deposit => scenario != "collection_fail"
      case Payout => scenario == "success"
      case Refund => scenario != "refund_fail"
  }

  predicate AcceptsAll(a: Answers) {
    a.deposit.Accepted? && a.payout.Accepted? && a.refund.Accepted?
  }

  /** On a rail that rejects nothing, playing a scenario out is the same as every leg reporting that
      scenario's truth: no handler raises, and the end is the scenario's verdict. */
  lemma PlayOutIsComplete(p: Payment, scenario: string, a: Answers)
    requires Canonical(p) && p.tx.state == CollectionPending && CoversCosts(p.tx) && AcceptsAll(a)
    ensures PlayOut(p, scenario, a) == Played(Complete(p, ScenarioTruth(scenario), a), NoFault)
    ensures PlayOut(p, scenario, a).payment.tx.state == Verdict(ScenarioTruth(scenario), a)
    ensures PlayOut(p, scenario, a).payment.tx.state
         == if scenario == "success" then PayoutSucceeded
            else if scenario == "collection_fail" then CollectionFailed
            else if scenario == "refund_fail" then ManualReview
            else Refunded
  {
    var truth := ScenarioTruth(scenario);
    EndOfCollection(p, truth, a);
    var p1 := AdvanceCollection(p, truth, a);
    if !truth(Deposit) {
      CompleteRests(p1, truth, a);
    } else {
      var p2 := AdvancePayout(p1, truth, a);
      if truth(Payout) {
        CompleteRests(p2, truth, a);
      } else {
        var p3 := AdvanceRefund(p2, truth, a);
      }
    }
  }

  // ---- a fee below cost -----------------------------------------------------------

  /** The collection succeeds, then the payout. */
  function PaidThrough(p: Payment, a: Answers): Played
    requires p.tx.amount.currency == p.tx.fee.currency
  {
    HandlersKeepTerms(p.tx, Deposit, true, a);
    Play(Play(p, Deposit, true, a).payment, Payout, true, a)
  }

  lemma PayoutSettles(p: Payment, a: Answers)
    requires Canonical(p) && p.tx.state == PayoutPending
    ensures var end := Play(p, Payout, true, a);
      && Canonical(end.payment) && end.payment.tx.state == PayoutSucceeded
      && end.fault == (if CoversCosts(p.tx) then NoFault else UnbalancedPosting)
      && |end.payment.books| == (if CoversCosts(p.tx) then 2 else 1)
  {
    PayoutStep(p, true, a);
    HandlersKeepTerms(p.tx, Payout, true, a);
  }

  /** What `start_transaction` accepts and then cannot settle: exactly the payments whose fee is below cost.
      They end paid, with the collection booked and the settlement refused. */
  lemma SettlementRaisesIff(t: Tx, a: Answers)
    requires Newborn(t) && Sound(t) && t.provenance == RailVerified && a.deposit.Accepted? && a.payout.Accepted?
    ensures var end := PaidThrough(Absorb(Born(t), Opened(t, a.deposit)), a);
      && Canonical(end.payment) && end.payment.tx.state == PayoutSucceeded
      && end.fault == (if CoversCosts(t) then NoFault else UnbalancedPosting)
      && |end.payment.books| == (if CoversCosts(t) then 2 else 1)
  {
    var p := Absorb(Born(t), Opened(t, a.deposit));
    StartIsCanonical(t, a.deposit);
    assert CoversCosts(p.tx) == CoversCosts(t);
    DepositStep(p, true, a);
    HandlersKeepTerms(p.tx, Deposit, true, a);
    var q := Play(p, Deposit, true, a).payment;
    assert CoversCosts(q.tx) == CoversCosts(p.tx);
    PayoutSettles(q, a);
  }

  /** One of them: ten dollars, no fee. */
  lemma FreePaymentFailsToSettle(id: string, a: Answers)
    requires a.deposit.Accepted? && a.payout.Accepted?
    ensures var t := Tx(id, "243810000000", "243990000000", Money(1000, USD), Money(0, USD), Initiated, [Initiated], None, None,
                        "VODACOM_MPESA_COD", "AIRTEL_COD", None, None, None, RailVerified);
      && Newborn(t) && Sound(t) && !CoversCosts(t)
      && var end := PaidThrough(Absorb(Born(t), Opened(t, a.deposit)), a);
         end.fault == UnbalancedPosting && end.payment.tx.state == PayoutSucceeded
  {
    var t := Tx(id, "243810000000", "243990000000", Money(1000, USD), Money(0, USD), Initiated, [Initiated], None, None,
                "VODACOM_MPESA_COD", "AIRTEL_COD", None, None, None, RailVerified);
    assert CollectionCost(t.amount, t.customerProvider).minor == 25;
    SettlementRaisesIff(t, a);
  }
}
