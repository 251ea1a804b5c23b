/** A charge: a merchant's request for one amount, paid through the one start every channel shares. */
module Charges {
  import opened Common
  import opened MoneyTypes
  import opened Ledger
  import opened StateMachine
  import opened Transactions
  import opened Payments
  import opened Conservation
  import opened Worlds
  import opened Memory
  import opened Merchants
  import opened Services

  // ---- what a charge shows --------------------------------------------------------------

  datatype Status = AwaitingPayment | Processing | Paid | Declined | CustomerRefunded | Review

  /** Derived from the linked payment, never stored. */
  function ChargeStatus(link: Option<string>, state: Option<TxState>): Status {
    if link.None? || state.None? then AwaitingPayment
    else match state.value
      case PayoutSucceeded => Paid
      case CollectionFailed => Declined
      case Refunded => CustomerRefunded
      case ManualReview => Review
      case _ => Processing
  }

  predicate IsPayable(link: Option<string>, state: Option<TxState>) {
    link.None? || state == Some(CollectionFailed)
  }

  /** A charge can be paid exactly when it shows as awaiting payment or declined, but for one case: a link
      to a payment that is not stored shows as awaiting payment and is refused. */
  lemma PayableMeansOpen(link: Option<string>, state: Option<TxState>)
    ensures IsPayable(link, state) <==>
      ChargeStatus(link, state) in {AwaitingPayment, Declined} && !(link.Some? && state.None?)
  {
  }

  function StateOf(w: World, link: Option<string>): Option<TxState> {
    if link.Some? && link.value in w.txs then Some(w.txs[link.value].state) else None
  }

  // ---- paying it ---------------------------------------------------------------------------

  /** Who pays and how; the amount is never theirs to say. */
  datatype Payer = Payer(msisdn: string, provider: string, scenario: string, predictedPayee: Option<string>)

  function OrderOf(amount: Money, m: Merchant, payer: Payer, simulated: bool): PaymentOrder {
    OrderTerms(payer.msisdn, m.settlementMsisdn, m.id, amount,
               ResolveProvider(None, Some(payer.provider)), ResolveProvider(payer.predictedPayee, m.settlementProvider),
               None, simulated, payer.scenario, false)
  }

  /** What a pay request asks for, told from the charge's amount, its merchant and the payer. */
  ghost predicate ChargedAsAsked(t: Tx, amount: Money, m: Merchant, payer: Payer) {
    && PaysMerchant(t, payer.msisdn, m, amount, t.customerProvider, t.merchantProvider) && t.key == None
    && (payer.provider != "" ==> t.customerProvider == payer.provider)
    && FoundAs(t.merchantProvider, payer.predictedPayee, m.settlementProvider)
  }

  /** What a charge fixes, and the directory its merchant is looked up in; one server is either simulated or not. */
  datatype Shop = Shop(directory: seq<Merchant>, merchantId: string, amount: Money, simulated: bool)

  datatype Reply = NoCharge | AlreadyPaid | NoMerchant | Linked(txId: string) | Raises(fault: Fault)

  datatype Outcome = Outcome(world: World, link: Option<string>, reply: Reply)

  /** One pay request that nothing interrupts. */
  function PayOn(w: World, link: Option<string>, shop: Shop, payer: Payer, id: string, plan: RailPlan): Outcome
    requires Indexed(w)
  {
    if !IsPayable(link, StateOf(w, link)) then Outcome(w, link, AlreadyPaid)
    else
      match GetById(shop.directory, shop.merchantId)
      case None => Outcome(w, link, NoMerchant)
      case Some(m) =>
        var s := StartPayment(w, id, OrderOf(shop.amount, m, payer, shop.simulated), plan);
        match s.result
        case Returned(txId) => Outcome(s.world, Some(txId), Linked(txId))
        case Raised(fault) => Outcome(s.world, link, Raises(fault))
  }

  class Charge {
    const id: string
    const merchantId: string
    const amount: Money
    var transactionId: Option<string>

    constructor (id: string, merchantId: string, amount: Money)
      ensures transactionId == None && this.id == id && this.merchantId == merchantId && this.amount == amount
    {
      this.id, this.merchantId, this.amount, transactionId := id, merchantId, amount, None;
    }
  }

  /** The charge branch of the pay endpoint: payable or refused, then the charge's own merchant and amount,
      then the link. */
  method Pay(
    store: TransactionStore, rail: Rail, ledger: InMemoryLedger, directory: seq<Merchant>, charge: Charge?, payer: Payer,
    id: string, simulated: bool)
    returns (reply: Reply)
    requires store.Valid() && Indexed(WorldOf(store, rail, ledger)) && id !in store.rows
    requires simulated ==> rail.answers(id) == SimulatedAnswers(id)
    modifies store, store.rows.Values, rail`calls, ledger, charge
    ensures store.Valid()
    ensures charge == null ==> reply == NoCharge && WorldOf(store, rail, ledger) == old(WorldOf(store, rail, ledger))
    ensures charge != null ==>
      Outcome(WorldOf(store, rail, ledger), charge.transactionId, reply)
        == PayOn(old(WorldOf(store, rail, ledger)), old(charge.transactionId),
                 Shop(directory, charge.merchantId, charge.amount, simulated), payer, id, rail.answers)
    ensures reply.Linked? ==>
      && charge != null && charge.transactionId == Some(reply.txId) && reply.txId in store.rows
      && GetById(directory, charge.merchantId).Some?
      && ChargedAsAsked(store.rows[reply.txId].View(), charge.amount, GetById(directory, charge.merchantId).value, payer)
  {
    if charge == null {
      return NoCharge;
    }
    var state: Option<TxState> := None;
    if charge.transactionId.Some? && charge.transactionId.value in store.rows {
      state := Some(store.rows[charge.transactionId.value].state);
    }
    assert state == StateOf(WorldOf(store, rail, ledger), charge.transactionId);
    if !IsPayable(charge.transactionId, state) {
      return AlreadyPaid;
    }
    var merchant := GetById(directory, charge.merchantId);
    if merchant == None {
      return NoMerchant;
    }
    ghost var w := WorldOf(store, rail, ledger);
    reply := PayOpen(store, rail, ledger, charge, merchant.value, payer, id, simulated);
    LinkedAsAsked(w, id, charge.amount, merchant.value, payer, simulated, rail.answers,
                  WorldOf(store, rail, ledger), charge.transactionId, reply);
  }

  /** A start whose answer was taken as a link has made the payment asked for. */
  lemma LinkedAsAsked(
    w: World, id: string, amount: Money, m: Merchant, payer: Payer, simulated: bool, plan: RailPlan,
    now: World, link: Option<string>, reply: Reply)
    requires Indexed(w) && id !in w.txs
    requires exists before ::
      Taken(StartPayment(w, id, OrderOf(amount, m, payer, simulated), plan), before, now, link, reply)
    ensures reply.Linked? ==>
      link == Some(reply.txId) && reply.txId in now.txs && ChargedAsAsked(now.txs[reply.txId], amount, m, payer)
  {
    UnkeyedAsAsked(w, id, amount, m, payer, simulated, plan);
  }

  /** How a start's answer is taken: linked, or raised out of the endpoint. */
  ghost predicate Taken(s: Started, before: Option<string>, now: World, link: Option<string>, reply: Reply) {
    && now == s.world
    && match s.result
       case Returned(txId) => link == Some(txId) && reply == Linked(txId)
       case Raised(fault) => link == before && reply == Raises(fault)
  }

  method PayOpen(
    store: TransactionStore, rail: Rail, ledger: InMemoryLedger, charge: Charge, m: Merchant, payer: Payer, id: string,
    simulated: bool)
    returns (reply: Reply)
    requires store.Valid() && Indexed(WorldOf(store, rail, ledger)) && id !in store.rows
    requires simulated ==> rail.answers(id) == SimulatedAnswers(id)
    modifies store, store.rows.Values, rail`calls, ledger, charge
    ensures store.Valid()
    ensures Taken(StartPayment(old(WorldOf(store, rail, ledger)), id, OrderOf(charge.amount, m, payer, simulated), rail.answers),
                  old(charge.transactionId), WorldOf(store, rail, ledger), charge.transactionId, reply)
  {
    var r := StartMerchantPayment(store, rail, ledger, id, OrderOf(charge.amount, m, payer, simulated));
    ghost var now := WorldOf(store, rail, ledger);
    match r {
      case Returned(txId) =>
        charge.transactionId := Some(txId);
        reply := Linked(txId);
      case Raised(fault) => reply := Raises(fault);
    }
    assert WorldOf(store, rail, ledger) == now;
  }

  lemma UnkeyedAsAsked(w: World, id: string, amount: Money, m: Merchant, payer: Payer, simulated: bool, plan: RailPlan)
    requires Indexed(w) && id !in w.txs
    ensures var s := StartPayment(w, id, OrderOf(amount, m, payer, simulated), plan);
      if amount.IsPositive() then
        && s.result == Returned(id) && id in s.world.txs && ChargedAsAsked(s.world.txs[id], amount, m, payer)
      else s == Started(w, Raised(InvalidAmount))
  {
    var o := OrderOf(amount, m, payer, simulated);
    StartedAsOrdered(w, id, o, plan);
    if amount.IsPositive() {
      StartedIsHealthy(id, o, plan);
      StartedPays(id, o, plan, m);
    }
  }

  /** What a start without a key does: nothing, or a new payment, for the merchant, the payer and the amount
      asked, its one collection asked of the payer's own number and network. */
  lemma UnkeyedStart(w: World, id: string, amount: Money, m: Merchant, payer: Payer, simulated: bool, plan: RailPlan)
    requires Inv(w) && id !in w.txs
    ensures var s := StartPayment(w, id, OrderOf(amount, m, payer, simulated), plan);
      && Inv(s.world)
      && (forall k | k in w.txs :: k in s.world.txs && PaymentOf(s.world, k) == PaymentOf(w, k))
      && (if amount.IsPositive() then
            && s.result == Returned(id) && id in s.world.txs
            && AsOrdered(s.world.txs[id], OrderOf(amount, m, payer, simulated))
            && ChargedAsAsked(s.world.txs[id], amount, m, payer)
            && AskedFor(PaymentOf(s.world, id), payer.msisdn, m, s.world.txs[id].customerProvider,
                        s.world.txs[id].merchantProvider)
          else s == Started(w, Raised(InvalidAmount)))
  {
    var o := OrderOf(amount, m, payer, simulated);
    StartKeepsInv(w, id, o, plan);
    StartedAsOrdered(w, id, o, plan);
    UnkeyedAsAsked(w, id, amount, m, payer, simulated, plan);
    if amount.IsPositive() {
      StartedIsHealthy(id, o, plan);
      StartedPays(id, o, plan, m);
      AdoptSeen(w, StartedPayment(id, o, plan));
    }
  }

  /** Where the merchant has registered an operator, what is predicted of its number changes nothing: not
      the operator, not the fee, not whether the payment is on-net, nor anything else a request does. */
  lemma PredictionIsMoot(
    w: World, link: Option<string>, shop: Shop, payer: Payer, predicted: Option<string>, id: string, plan: RailPlan)
    requires Indexed(w)
    requires var m := GetById(shop.directory, shop.merchantId); m.Some? ==> Named(m.value.settlementProvider)
    ensures PayOn(w, link, shop, payer.(predictedPayee := predicted), id, plan) == PayOn(w, link, shop, payer, id, plan)
  {
  }

  /** Linked to a payment, and not to one whose collection failed. */
  predicate IsClosed(w: World, link: Option<string>) {
    link.Some? && !(link.value in w.txs && w.txs[link.value].state == CollectionFailed)
  }

  lemma ClosedIsNotPayable(w: World, link: Option<string>)
    ensures IsPayable(link, StateOf(w, link)) <==> !IsClosed(w, link)
  {
  }

  /** What a pay request is answered, each answer exactly when, and what each leaves: refused and left alone
      unless open or declined, unless the merchant exists and unless the amount is positive; otherwise linked
      to the new payment. */
  lemma PayAnswers(w: World, link: Option<string>, shop: Shop, payer: Payer, id: string, plan: RailPlan)
    requires Inv(w) && id !in w.txs
    ensures var r := PayOn(w, link, shop, payer, id, plan);
      var closed := IsClosed(w, link);
      var merchantless := forall m | m in shop.directory :: m.id != shop.merchantId;
      && (r.reply == AlreadyPaid <==> closed)
      && (r.reply == NoMerchant <==> !closed && merchantless)
      && (r.reply == Raises(InvalidAmount) <==> !closed && !merchantless && !shop.amount.IsPositive())
      && (r.reply == Linked(id) <==> !closed && !merchantless && shop.amount.IsPositive())
      && (r.reply == Linked(id) ==> r.link == Some(id) && id in r.world.txs)
      && (r.reply != Linked(id) ==> r.link == link && r.world == w)
  {
    var m := GetById(shop.directory, shop.merchantId);
    ClosedIsNotPayable(w, link);
    if m.Some? {
      UnkeyedAsAsked(w, id, shop.amount, m.value, payer, shop.simulated, plan);
    }
  }

  // ---- what a charge shows, and what its books say --------------------------------------------------------

  lemma SettlementCreditsNobodyBack(t: Tx)
    requires t.amount.currency == t.fee.currency
    ensures !Credits(OnNetPosting(t), Customer) && Credits(RefundPosting(t), Customer)
  {
    assert Entry(Customer, Credit, t.amount) in RefundPosting(t).entries;
  }

  lemma MerchantHolds(p: Payment)
    requires Healthy(p)
    ensures p.tx.state != PayoutSucceeded ==> Net(p.books, Account.Merchant, p.tx.amount.currency) == 0
    ensures p.tx.state == PayoutSucceeded ==> Net(p.books, Account.Merchant, p.tx.amount.currency) > 0
  {
    HealthyIsLockStepped(p);
    assert Net(p.books, Account.Merchant, p.tx.amount.currency) == Expected(p.tx, Account.Merchant);
  }

  lemma BackToCustomer(p: Payment)
    requires Healthy(p)
    ensures (exists x :: x in p.books && Credits(x, Customer)) <==> p.tx.state == Refunded
  {
    WhomPostingsCredit(p.tx);
    SettlementCreditsNobodyBack(p.tx);
    if p.tx.state == Refunded {
      assert p.books[1] in p.books && Credits(p.books[1], Customer);
    }
  }

  lemma NothingBooked(p: Payment)
    requires Healthy(p)
    ensures p.books == [] <==> p.tx.state in {CollectionPending, CollectionFailed}
  {
  }

  /** In every run a charge shows of its payment what the books say: paid exactly when the merchant holds
      money of it; refunded exactly when some was credited back to the customer; processing exactly while a
      leg, or the merchant's word, is awaited; declined exactly when, with nothing awaited, nothing was ever
      booked; and in review exactly when money was taken and, with nothing awaited, went to neither. */
  lemma ChargeShowsTheBooks(w: World, txId: string)
    requires Inv(w) && txId in w.txs
    ensures var p, shown := PaymentOf(w, txId), ChargeStatus(Some(txId), StateOf(w, Some(txId)));
      var held := Net(p.books, Account.Merchant, p.tx.amount.currency) > 0;
      var returned := exists x :: x in p.books && Credits(x, Customer);
      var awaited := LegForState(p.tx.state).Some?;
      && (shown == Paid <==> held)
      && (shown == CustomerRefunded <==> returned)
      && (shown == Processing <==> awaited)
      && (shown == Declined <==> !awaited && p.books == [])
      && (shown == Review <==> !awaited && p.books != [] && !held && !returned)
      && shown != AwaitingPayment
  {
    var p := PaymentOf(w, txId);
    assert Healthy(p);
    MerchantHolds(p);
    BackToCustomer(p);
    NothingBooked(p);
    RestsSomewhere(p);
  }

  lemma RestsSomewhere(p: Payment)
    requires Healthy(p)
    ensures p.tx.state in PENDING_STATES + {CollectionFailed, PayoutSucceeded, Refunded, ManualReview}
  {
  }
}
