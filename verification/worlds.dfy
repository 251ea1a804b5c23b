/** The whole system on values: every transaction, the append-only books, the log of rail calls and the
    record of what was done when, stepped by payments starting, callbacks, polls and merchant
    confirmations in any order. */
module Worlds {
  import opened Common
  import opened MoneyTypes
  import opened Pricing
  import opened Ledger
  import opened StateMachine
  import opened Transactions
  import opened Payments
  import opened Status

  /** `order` lists the transaction ids in insertion order, as the store's dictionary keeps them; `trace`
      has every save, posting and request in the order they were made. */
  datatype World =
    World(order: seq<string>, txs: map<string, Tx>, postings: seq<Posting>, calls: seq<RailCall>, trace: seq<Act>)

  const EMPTY: World := World([], map[], [], [], [])

  function CallOwner(c: RailCall): string {
    c.txId
  }

  /** One transaction with its own share of the books, of the rail log and of the record. */
  function PaymentOf(w: World, id: string): Payment
    requires id in w.txs
  {
    Payment(w.txs[id], ForTransaction(w.postings, id), Select(w.calls, CallOwner, id), Select(w.trace, ActOwner, id))
  }

  // ---- steps -------------------------------------------------------------------

  /** What the rail would answer, transaction by transaction. */
  type RailPlan = string -> Answers

  datatype OrderTerms = OrderTerms(
    customerMsisdn: string,
    merchantMsisdn: string,
    merchantId: string,
    amount: Money,
    customerProvider: string,
    merchantProvider: string,
    key: Option<string>,
    simulated: bool,
    scenario: string,
    defer: bool)

  /** A request to pay whose two operators have been resolved; resolution never yields an empty one. */
  type PaymentOrder = o: OrderTerms | o.customerProvider != "" && o.merchantProvider != ""
    witness OrderTerms("", "", "", Money(0, USD), "x", "x", None, false, "", false)

  datatype Event =
    | Begin(id: string, order: PaymentOrder)
    | Callback(kind: Leg, opId: string, outcome: Outcome)
    | Polled(txId: string, kind: Leg, outcome: Outcome)
    | Confirm(txId: string, merchantId: string, received: bool)

  /** An event together with what the rail would answer while it is handled. */
  datatype Moment = Moment(event: Event, plan: RailPlan)

  const ON_NET_PROVIDERS: set<string> := {"AIRTEL_COD", "VODACOM_MPESA_COD", "ORANGE_COD"}

  predicate UseOnNet(payer: string, merchant: string) {
    payer == merchant && payer in ON_NET_PROVIDERS
  }

  function NewRouted(id: string, o: PaymentOrder): Tx {
    Tx(id, o.customerMsisdn, o.merchantMsisdn, o.amount,
       DefaultFee(o.amount, o.customerProvider, o.merchantProvider),
       Initiated, [Initiated], o.key, Some(o.merchantId), o.customerProvider, o.merchantProvider,
       None, None, None, RailVerified)
  }

  function NewOnNet(id: string, o: PaymentOrder): Tx {
    Tx(id, o.customerMsisdn, o.merchantMsisdn, o.amount, Money(0, o.amount.currency),
       Initiated, [Initiated], o.key, Some(o.merchantId), o.customerProvider, o.customerProvider,
       None, None, None, MerchantAttested)
  }

  /** The simulator accepts everything and names its operations after the transaction. */
  function SimulatedAnswers(id: string): Answers {
    Answers(Accepted(Some("sim-dep-" + id)), Accepted(Some("sim-pay-" + id)), Accepted(Some("sim-ref-" + id)))
  }

  function AnswersFor(o: PaymentOrder, plan: RailPlan, id: string): Answers {
    if o.simulated then SimulatedAnswers(id) else plan(id)
  }

  /** A routed payment whose collection has just been asked for. */
  function RoutedOpened(id: string, o: PaymentOrder, deposit: Answer): Payment {
    Absorb(Born(NewRouted(id, o)), Opened(NewRouted(id, o), deposit))
  }

  function RoutedPlayed(id: string, o: PaymentOrder, a: Answers): Played {
    var p := RoutedOpened(id, o, a.deposit);
    if o.simulated && !o.defer then PlayOut(p, o.scenario, a) else Played(p, NoFault)
  }

  function OnNetOpened(id: string, o: PaymentOrder): Payment {
    Absorb(Born(NewOnNet(id, o)), Enter(NewOnNet(id, o), CollectionPending))
  }

  /** A payment joins the world under a fresh id. */
  function Adopt(w: World, p: Payment): World {
    World(w.order + [p.tx.id], w.txs[p.tx.id := p.tx], w.postings + p.books, w.calls + p.calls, w.trace + p.trace)
  }

  /** An effect lands on a transaction that is already there. */
  function Commit(w: World, e: Effect): World {
    World(w.order, w.txs[e.tx.id := e.tx], w.postings + e.posts, w.calls + e.calls, w.trace + e.trace)
  }

  /** Saving a newborn and then landing an effect on it is adopting the finished payment. */
  lemma AdoptThenCommit(w: World, p: Payment, e: Effect)
    requires e.tx.id == p.tx.id
    ensures Commit(Adopt(w, p), e) == Adopt(w, Absorb(p, e))
  {
    assert w.txs[p.tx.id := p.tx][p.tx.id := e.tx] == w.txs[p.tx.id := e.tx];
    assert w.postings + p.books + e.posts == w.postings + (p.books + e.posts);
    assert w.calls + p.calls + e.calls == w.calls + (p.calls + e.calls);
    assert w.trace + p.trace + e.trace == w.trace + (p.trace + e.trace);
  }

  /** The first transaction, in insertion order, that satisfies a test on its row. */
  function FirstWithKey(order: seq<string>, txs: map<string, Tx>, key: string): (r: Option<string>)
    requires forall id | id in order :: id in txs
    ensures r.Some? ==> r.value in order && txs[r.value].key == Some(key)
    ensures r.None? ==> forall id | id in order :: txs[id].key != Some(key)
  {
    if order == [] then None
    else if txs[order[0]].key == Some(key) then Some(order[0])
    else FirstWithKey(order[1..], txs, key)
  }

  function FirstWithOpId(order: seq<string>, txs: map<string, Tx>, opId: string): (r: Option<string>)
    requires forall id | id in order :: id in txs
    ensures r.Some? ==> r.value in order && Carries(txs[r.value], opId)
    ensures r.None? ==> forall id | id in order :: !Carries(txs[id], opId)
  {
    if order == [] then None
    else if Carries(txs[order[0]], opId) then Some(order[0])
    else FirstWithOpId(order[1..], txs, opId)
  }

  /** The first in insertion order that has the id on any leg, no earlier one having it, is the one found. */
  lemma {:induction false} FirstCarrierIsFound(order: seq<string>, txs: map<string, Tx>, opId: string, i: nat)
    requires (forall id | id in order :: id in txs) && i < |order|
    requires Some(opId) in {txs[order[i]].depositId, txs[order[i]].payoutId, txs[order[i]].refundId}
    requires forall j | 0 <= j < i ::
      Some(opId) !in {txs[order[j]].depositId, txs[order[j]].payoutId, txs[order[j]].refundId}
    ensures FirstWithOpId(order, txs, opId) == Some(order[i])
  {
    if i > 0 {
      assert order[0] in order && txs[order[0]].depositId != Some(opId);
      FirstCarrierIsFound(order[1..], txs, opId, i - 1);
    }
  }

  predicate Carries(t: Tx, opId: string) {
    t.depositId == Some(opId) || t.payoutId == Some(opId) || t.refundId == Some(opId)
  }

  ghost predicate KeyHeld(w: World, key: Option<string>)
    requires Indexed(w)
  {
    key.Some? && FirstWithKey(w.order, w.txs, key.value).Some?
  }

  /** The transaction that holds a key. */
  function Holder(w: World, key: string): (id: string)
    requires Indexed(w) && KeyHeld(w, Some(key))
    ensures id in w.txs && w.txs[id].key == Some(key)
  {
    FirstWithKey(w.order, w.txs, key).value
  }

  datatype StartResult = Returned(id: string) | Raised(fault: Fault)

  datatype Started = Started(world: World, result: StartResult)

  /** Create the payment, or find the one another request made under the same key. This is the part
      of `start_merchant_payment` after its pre-check; the first save is the guard. */
  function CreateOrRecover(w: World, id: string, o: PaymentOrder, plan: RailPlan): Started
    requires Indexed(w)
  {
    if !o.amount.IsPositive() then Started(w, Raised(InvalidAmount))
    else if o.key.Some? && FirstWithKey(w.order, w.txs, o.key.value).Some? then
      Started(w, Returned(Holder(w, o.key.value)))
    else if UseOnNet(o.customerProvider, o.merchantProvider) then
      Started(Adopt(w, OnNetOpened(id, o)), Returned(id))
    else
      var played := RoutedPlayed(id, o, AnswersFor(o, plan, id));
      Started(Adopt(w, played.payment), if played.fault == NoFault then Returned(id) else Raised(played.fault))
  }

  function StartPayment(w: World, id: string, o: PaymentOrder, plan: RailPlan): Started
    requires Indexed(w)
  {
    if o.key.Some? && FirstWithKey(w.order, w.txs, o.key.value).Some? then
      Started(w, Returned(Holder(w, o.key.value)))
    else CreateOrRecover(w, id, o, plan)
  }

  /** The state-guarded applier, on the world. */
  function ApplyTo(w: World, id: string, leg: Leg, success: bool, a: Answers): World
    requires Indexed(w) && id in w.txs
  {
    if w.txs[id].state != AwaitingState(leg) then w else Commit(w, OnResult(w.txs[id], leg, success, a))
  }

  function ConfirmTo(w: World, id: string, merchantId: string, received: bool): World {
    if id !in w.txs then w
    else
      var t := w.txs[id];
      if t.merchantId == Some(merchantId) && t.provenance == MerchantAttested && t.state == CollectionPending
      then Commit(w, OnConfirm(t, received))
      else w
  }

  /** A transaction id is a fresh UUID; a `Begin` under an id already taken does not occur. */
  function Step(w: World, m: Moment): World
    requires Indexed(w)
  {
    match m.event
    case Begin(id, o) => if id in w.txs then w else StartPayment(w, id, o, m.plan).world
    case Callback(kind, opId, outcome) => (
      match FirstWithOpId(w.order, w.txs, opId)
      case None => w
      case Some(id) => if outcome == Pending then w else ApplyTo(w, id, kind, outcome == Success, m.plan(id))
    )
    case Polled(id, kind, outcome) =>
      if id !in w.txs || OpId(w.txs[id], kind) == None || outcome == Pending then w
      else ApplyTo(w, id, kind, outcome == Success, m.plan(id))
    case Confirm(id, merchantId, received) => ConfirmTo(w, id, merchantId, received)
  }

  /** The indexes agree: insertion order, keys and rows; one currency a row. */
  ghost predicate Indexed(w: World) {
    && NoDuplicateIds(w.order)
    && (forall id :: id in w.order <==> id in w.txs)
    && (forall id | id in w.txs :: w.txs[id].id == id && w.txs[id].amount.currency == w.txs[id].fee.currency)
  }

  predicate NoDuplicateIds(order: seq<string>) {
    order == [] || (order[0] !in order[1..] && NoDuplicateIds(order[1..]))
  }

  lemma {:induction false} AppendFreshId(order: seq<string>, id: string)
    requires NoDuplicateIds(order) && id !in order
    ensures NoDuplicateIds(order + [id])
  {
    if order != [] {
      AppendFreshId(order[1..], id);
      assert (order + [id])[1..] == order[1..] + [id];
    }
  }

  // ---- effects are local ---------------------------------------------------------

  ghost predicate Local(e: Effect, id: string) {
    && e.tx.id == id
    && (forall x | x in e.posts :: x.txId == id)
    && (forall x | x in e.calls :: x.txId == id)
    && (forall x | x in e.trace :: ActOwner(x) == id)
  }

  /** What was agreed: the parties, their numbers and operators, the amount, the fee, the key and whose
      word counts. */
  predicate SameTerms(t: Tx, u: Tx) {
    && u.id == t.id && u.key == t.key && u.amount == t.amount && u.fee == t.fee && u.provenance == t.provenance
    && u.customerProvider == t.customerProvider && u.merchantProvider == t.merchantProvider
    && u.merchantId == t.merchantId && u.customerMsisdn == t.customerMsisdn && u.merchantMsisdn == t.merchantMsisdn
  }

  lemma HandlersAreLocal(t: Tx, leg: Leg, success: bool, a: Answers)
    requires t.amount.currency == t.fee.currency
    ensures Local(OnResult(t, leg, success, a), t.id) && SameTerms(t, OnResult(t, leg, success, a).tx)
  {
    HandlersAreProper(t, leg, success, a);
  }

  lemma ConfirmIsLocal(t: Tx, success: bool)
    ensures Local(OnConfirm(t, success), t.id) && SameTerms(t, OnConfirm(t, success).tx)
  {
    ConfirmIsProper(t, success);
  }

  lemma ShareOfMore<T(!new)>(log: seq<T>, more: seq<T>, owner: T -> string, sole: string, id: string)
    requires forall x | x in more :: owner(x) == sole
    ensures Select(log + more, owner, id) == if id == sole then Select(log, owner, id) + more else Select(log, owner, id)
  {
    SelectConcat(log, more, owner, id);
    SelectUniform(more, owner, sole, id);
  }

  /** A local effect is absorbed by its own payment and invisible to every other. */
  lemma CommitProjects(w: World, e: Effect, id: string)
    requires Indexed(w) && e.tx.id in w.txs && Local(e, e.tx.id) && id in w.txs
    ensures PaymentOf(Commit(w, e), id)
         == if id == e.tx.id then Absorb(PaymentOf(w, id), e) else PaymentOf(w, id)
  {
    ShareOfMore(w.postings, e.posts, PostingOwner, e.tx.id, id);
    ShareOfMore(w.calls, e.calls, CallOwner, e.tx.id, id);
    ShareOfMore(w.trace, e.trace, ActOwner, e.tx.id, id);
  }

  ghost predicate LocalPayment(p: Payment) {
    && (forall x | x in p.books :: x.txId == p.tx.id)
    && (forall x | x in p.calls :: x.txId == p.tx.id)
    && (forall x | x in p.trace :: ActOwner(x) == p.tx.id)
  }

  lemma AdoptProjects(w: World, p: Payment, id: string)
    requires Structured(w) && p.tx.id !in w.txs && LocalPayment(p) && (id in w.txs || id == p.tx.id)
    ensures PaymentOf(Adopt(w, p), id) == if id == p.tx.id then p else PaymentOf(w, id)
  {
    ShareOfAppended(w.postings, p.books, PostingOwner, p.tx.id, id);
    ShareOfAppended(w.calls, p.calls, CallOwner, p.tx.id, id);
    ShareOfAppended(w.trace, p.trace, ActOwner, p.tx.id, id);
  }

  lemma ShareOfAppended<T(!new)>(log: seq<T>, more: seq<T>, owner: T -> string, newcomer: string, id: string)
    requires (forall x | x in log :: owner(x) != newcomer) && (forall x | x in more :: owner(x) == newcomer)
    ensures Select(log + more, owner, id) == if id == newcomer then more else Select(log, owner, id)
  {
    ShareOfMore(log, more, owner, newcomer, id);
    if id == newcomer {
      SelectAbsent(log, owner, id);
    }
  }

  // ---- how a world is put together -----------------------------------------------------

  ghost predicate UniqueKeys(txs: map<string, Tx>) {
    forall i, j {:trigger txs[i].key, txs[j].key} |
      i in txs && j in txs && txs[i].key.Some? && txs[i].key == txs[j].key :: i == j
  }

  /** Nothing on record is anybody's but a stored transaction's; no key is held twice. */
  ghost predicate Structured(w: World) {
    && Indexed(w)
    && (forall x | x in w.postings :: x.txId in w.txs)
    && (forall x | x in w.calls :: x.txId in w.txs)
    && (forall x | x in w.trace :: ActOwner(x) in w.txs)
    && UniqueKeys(w.txs)
  }

  lemma CommitKeepsStructure(w: World, e: Effect)
    requires Structured(w) && e.tx.id in w.txs && Local(e, e.tx.id) && SameTerms(w.txs[e.tx.id], e.tx)
    ensures Structured(Commit(w, e)) && Commit(w, e).txs.Keys == w.txs.Keys
  {
    var v := Commit(w, e);
    assert v.txs.Keys == w.txs.Keys;
    assert forall id | id in w.txs :: SameTerms(w.txs[id], v.txs[id]);
    assert forall id | id in v.txs :: v.txs[id].id == id;
  }

  /** A local effect that keeps the terms, seen by every payment. */
  lemma CommitSeen(w: World, e: Effect)
    requires Structured(w) && e.tx.id in w.txs && Local(e, e.tx.id) && SameTerms(w.txs[e.tx.id], e.tx)
    ensures Structured(Commit(w, e)) && Commit(w, e).txs.Keys == w.txs.Keys
    ensures forall k | k in w.txs ::
      PaymentOf(Commit(w, e), k) == if k == e.tx.id then Absorb(PaymentOf(w, k), e) else PaymentOf(w, k)
  {
    CommitKeepsStructure(w, e);
    forall k | k in w.txs
      ensures PaymentOf(Commit(w, e), k) == if k == e.tx.id then Absorb(PaymentOf(w, k), e) else PaymentOf(w, k)
    {
      CommitProjects(w, e, k);
    }
  }

  lemma ApplySeen(w: World, id: string, leg: Leg, success: bool, a: Answers)
    requires Structured(w) && id in w.txs
    ensures var v := ApplyTo(w, id, leg, success, a);
      && Structured(v) && v.txs.Keys == w.txs.Keys
      && forall k | k in w.txs ::
           PaymentOf(v, k) == if k == id then ApplyOutcome(PaymentOf(w, k), leg, success, a) else PaymentOf(w, k)
  {
    if w.txs[id].state == AwaitingState(leg) {
      HandlersAreLocal(w.txs[id], leg, success, a);
      CommitSeen(w, OnResult(w.txs[id], leg, success, a));
    }
  }

  lemma ConfirmSeen(w: World, id: string, merchantId: string, received: bool)
    requires Structured(w)
    ensures var v := ConfirmTo(w, id, merchantId, received);
      && Structured(v) && v.txs.Keys == w.txs.Keys
      && forall k | k in w.txs ::
           PaymentOf(v, k) == if k == id then ApplyConfirm(PaymentOf(w, k), merchantId, received) else PaymentOf(w, k)
  {
    if id in w.txs {
      var t := w.txs[id];
      if t.merchantId == Some(merchantId) && t.provenance == MerchantAttested && t.state == CollectionPending {
        ConfirmIsLocal(t, received);
        CommitSeen(w, OnConfirm(t, received));
      }
    }
  }

  lemma AdoptKeepsStructure(w: World, p: Payment)
    requires Structured(w) && p.tx.id !in w.txs && LocalPayment(p)
    requires p.tx.amount.currency == p.tx.fee.currency
    requires p.tx.key.Some? ==> forall id | id in w.txs :: w.txs[id].key != p.tx.key
    ensures Structured(Adopt(w, p)) && Adopt(w, p).txs.Keys == w.txs.Keys + {p.tx.id}
  {
    var v := Adopt(w, p);
    AppendFreshId(w.order, p.tx.id);
    assert v.txs.Keys == w.txs.Keys + {p.tx.id};
    assert forall id | id in w.txs :: v.txs[id] == w.txs[id];
  }

  lemma AdoptSeen(w: World, p: Payment)
    requires Structured(w) && p.tx.id !in w.txs && LocalPayment(p)
    requires p.tx.amount.currency == p.tx.fee.currency
    requires p.tx.key.Some? ==> forall id | id in w.txs :: w.txs[id].key != p.tx.key
    ensures Structured(Adopt(w, p)) && Adopt(w, p).txs.Keys == w.txs.Keys + {p.tx.id}
    ensures PaymentOf(Adopt(w, p), p.tx.id) == p
    ensures forall id | id in w.txs :: PaymentOf(Adopt(w, p), id) == PaymentOf(w, id)
  {
    AdoptKeepsStructure(w, p);
    AdoptProjects(w, p, p.tx.id);
    forall id | id in w.txs ensures PaymentOf(Adopt(w, p), id) == PaymentOf(w, id) {
      AdoptProjects(w, p, id);
    }
  }

  // ---- the invariant ----------------------------------------------------------------

  /** A routed payment carries the production fee. */
  predicate Priced(t: Tx) {
    t.provenance == RailVerified ==> t.fee == DefaultFee(t.amount, t.customerProvider, t.merchantProvider)
  }

  predicate Healthy(p: Payment) {
    WellKept(p) && Priced(p.tx)
  }

  ghost predicate Inv(w: World) {
    Structured(w) && forall id {:trigger PaymentOf(w, id)} | id in w.txs :: Healthy(PaymentOf(w, id))
  }

  lemma PricedCovers(w: World, id: string)
    requires Inv(w) && id in w.txs && w.txs[id].provenance == RailVerified
    ensures CoversCosts(w.txs[id])
  {
    assert Healthy(PaymentOf(w, id));
    DefaultFeeCovers(w.txs[id]);
  }

  /** An outcome keeps a payment healthy, if there is an operation it can be about. */
  lemma OutcomeKeepsHealth(p: Payment, leg: Leg, success: bool, a: Answers)
    requires Healthy(p) && !(p.tx.depositId == p.tx.payoutId == p.tx.refundId == None)
    ensures Healthy(ApplyOutcome(p, leg, success, a)) && SameTerms(p.tx, ApplyOutcome(p, leg, success, a).tx)
  {
    ApplyKeepsCanonical(p, leg, success, a);
    HandlersAreLocal(p.tx, leg, success, a);
  }

  lemma ConfirmKeepsHealth(p: Payment, merchantId: string, received: bool)
    requires Healthy(p)
    ensures Healthy(ApplyConfirm(p, merchantId, received)) && SameTerms(p.tx, ApplyConfirm(p, merchantId, received).tx)
  {
    if p.tx.provenance == MerchantAttested {
      ConfirmKeepsCanonical(p, merchantId, received);
    }
  }

  lemma {:induction false} CompleteKeepsTerms(p: Payment, truth: Leg -> bool, a: Answers, n: nat)
    requires Canonical(p)
    ensures SameTerms(p.tx, AdvanceTimes(p, truth, a, n).tx)
    decreases n
  {
    if n > 0 {
      AdvanceKeepsCanonical(p, truth, a);
      match LegForState(p.tx.state) {
        case None =>
        case Some(leg) => HandlersKeepTerms(p.tx, leg, truth(leg), a);
      }
      CompleteKeepsTerms(Advance(p, truth, a), truth, a, n - 1);
    }
  }

  /** Starting a routed payment, played out or not, leaves it canonical and raises nothing. */
  lemma RoutedStart(id: string, o: PaymentOrder, plan: RailPlan)
    requires o.amount.IsPositive()
    ensures var played := RoutedPlayed(id, o, AnswersFor(o, plan, id));
      played.fault == NoFault && Canonical(played.payment) && SameTerms(NewRouted(id, o), played.payment.tx)
  {
    var t, a := NewRouted(id, o), AnswersFor(o, plan, id);
    DefaultFeeCovers(t);
    StartIsCanonical(t, a.deposit);
    var p := Absorb(Born(t), Opened(t, a.deposit));
    if o.simulated && !o.defer {
      PlayOutIsComplete(p, o.scenario, a);
      CompleteRests(p, ScenarioTruth(o.scenario), a);
      CompleteKeepsTerms(p, ScenarioTruth(o.scenario), a, 3);
    }
  }

  /** The terms an order asks for: its parties, its amount, its key; on-net, without a fee, exactly when
      payer and merchant share a facilitated network, and otherwise routed at the production fee. */
  predicate AsOrdered(t: Tx, o: PaymentOrder) {
    && t.customerMsisdn == o.customerMsisdn && t.merchantMsisdn == o.merchantMsisdn && t.amount == o.amount
    && t.merchantId == Some(o.merchantId) && t.key == o.key && t.customerProvider == o.customerProvider
    && t.merchantProvider == o.merchantProvider
    && (t.provenance == MerchantAttested <==> UseOnNet(o.customerProvider, o.merchantProvider))
    && t.fee == if t.provenance == MerchantAttested then Money(0, o.amount.currency)
                else DefaultFee(o.amount, o.customerProvider, o.merchantProvider)
  }

  lemma PlayKeepsOrder(p: Payment, leg: Leg, success: bool, a: Answers, o: PaymentOrder)
    requires p.tx.amount.currency == p.tx.fee.currency && AsOrdered(p.tx, o)
    ensures var t := Play(p, leg, success, a).payment.tx;
      t.id == p.tx.id && t.amount.currency == t.fee.currency && AsOrdered(t, o)
  {
    HandlersKeepTerms(p.tx, leg, success, a);
  }

  lemma PlayedAsOrdered(id: string, o: PaymentOrder, a: Answers)
    requires !UseOnNet(o.customerProvider, o.merchantProvider)
    ensures var t := RoutedPlayed(id, o, a).payment.tx; t.id == id && AsOrdered(t, o)
  {
    var p := RoutedOpened(id, o, a.deposit);
    assert p.tx.id == id && p.tx.amount.currency == p.tx.fee.currency && AsOrdered(p.tx, o);
    PlayKeepsOrder(p, Deposit, false, a, o);
    PlayKeepsOrder(p, Deposit, true, a, o);
    var p1 := Play(p, Deposit, true, a).payment;
    PlayKeepsOrder(p1, Payout, true, a, o);
    PlayKeepsOrder(p1, Payout, false, a, o);
    PlayKeepsOrder(Play(p1, Payout, false, a).payment, Refund, o.scenario != "refund_fail", a, o);
  }

  /** A payment that a start creates is the one ordered, played out or not. */
  lemma StartedAsOrdered(w: World, id: string, o: PaymentOrder, plan: RailPlan)
    requires Indexed(w) && id !in w.txs
    ensures var s := StartPayment(w, id, o, plan);
      id in s.world.txs ==> s.world.txs[id].id == id && AsOrdered(s.world.txs[id], o)
  {
    if !UseOnNet(o.customerProvider, o.merchantProvider) {
      PlayedAsOrdered(id, o, AnswersFor(o, plan, id));
    }
  }

  /** What a start creates, if it creates anything. */
  function StartedPayment(id: string, o: PaymentOrder, plan: RailPlan): Payment {
    if UseOnNet(o.customerProvider, o.merchantProvider) then OnNetOpened(id, o)
    else RoutedPlayed(id, o, AnswersFor(o, plan, id)).payment
  }

  lemma HealthyIsLocal(p: Payment)
    requires WellKept(p)
    ensures LocalPayment(p)
  {
    BooksBalance(p);
    TraceIsOwned(p);
    assert |p.calls| <= 3;
  }

  lemma TraceIsOwned(p: Payment)
    requires WellKept(p)
    ensures forall x | x in p.trace :: ActOwner(x) == p.tx.id
  {
  }

  lemma StartedIsHealthy(id: string, o: PaymentOrder, plan: RailPlan)
    requires o.amount.IsPositive()
    ensures Healthy(StartedPayment(id, o, plan)) && LocalPayment(StartedPayment(id, o, plan))
    ensures StartedPayment(id, o, plan).tx.id == id && StartedPayment(id, o, plan).tx.key == o.key
    ensures !UseOnNet(o.customerProvider, o.merchantProvider) ==> RoutedPlayed(id, o, AnswersFor(o, plan, id)).fault == NoFault
  {
    if UseOnNet(o.customerProvider, o.merchantProvider) {
      AbsorbEnter(Born(NewOnNet(id, o)), CollectionPending);
    } else {
      RoutedStart(id, o, plan);
    }
    HealthyIsLocal(StartedPayment(id, o, plan));
  }

  /** A start keeps the world in shape, leaves every payment that was there, and makes at most one, a
      healthy one. It raises only for an amount that is not positive. */
  lemma StartSeen(w: World, id: string, o: PaymentOrder, plan: RailPlan)
    requires Structured(w) && id !in w.txs
    ensures var s := StartPayment(w, id, o, plan);
      && Structured(s.world)
      && (forall k | k in w.txs :: k in s.world.txs && PaymentOf(s.world, k) == PaymentOf(w, k))
      && (forall k | k in s.world.txs :: k in w.txs || k == id)
      && (id in s.world.txs ==> Healthy(PaymentOf(s.world, id)))
      && (s.result.Returned? ==> s.result.id in s.world.txs)
      && (s.result == Raised(InvalidAmount) <==> s.result.Raised?)
  {
    if o.amount.IsPositive() && !(o.key.Some? && FirstWithKey(w.order, w.txs, o.key.value).Some?) {
      StartedIsHealthy(id, o, plan);
      AdoptSeen(w, StartedPayment(id, o, plan));
    }
  }

  lemma StartKeepsInv(w: World, id: string, o: PaymentOrder, plan: RailPlan)
    requires Inv(w) && id !in w.txs
    ensures var s := StartPayment(w, id, o, plan);
      && Inv(s.world)
      && (forall k | k in w.txs :: k in s.world.txs && PaymentOf(s.world, k) == PaymentOf(w, k))
      && (forall k | k in s.world.txs :: k in w.txs || k == id)
      && (s.result.Returned? ==> s.result.id in s.world.txs)
      && (s.result == Raised(InvalidAmount) <==> s.result.Raised?)
  {
    StartSeen(w, id, o, plan);
    var v := StartPayment(w, id, o, plan).world;
    forall k | k in v.txs ensures Healthy(PaymentOf(v, k)) {
      assert k in w.txs ==> Healthy(PaymentOf(w, k));
    }
  }

  /** One event, seen by one payment that is already there. */
  lemma StepOn(w: World, m: Moment, k: string)
    requires Structured(w) && k in w.txs
    ensures k in Step(w, m).txs
    ensures PaymentOf(Step(w, m), k) ==
      match m.event
      case Begin(_, _) => PaymentOf(w, k)
      case Callback(kind, opId, outcome) =>
        if outcome != Pending && FirstWithOpId(w.order, w.txs, opId) == Some(k)
        then ApplyOutcome(PaymentOf(w, k), kind, outcome == Success, m.plan(k)) else PaymentOf(w, k)
      case Polled(id, kind, outcome) =>
        if outcome != Pending && id == k && OpId(w.txs[k], kind) != None
        then ApplyOutcome(PaymentOf(w, k), kind, outcome == Success, m.plan(k)) else PaymentOf(w, k)
      case Confirm(id, merchantId, received) =>
        if id == k then ApplyConfirm(PaymentOf(w, k), merchantId, received) else PaymentOf(w, k)
  {
    match m.event
    case Begin(id, o) =>
      if id !in w.txs {
        StartSeen(w, id, o, m.plan);
      }
    case Callback(kind, opId, outcome) =>
      var found := FirstWithOpId(w.order, w.txs, opId);
      if found.Some? && outcome != Pending {
        ApplySeen(w, found.value, kind, outcome == Success, m.plan(found.value));
      }
    case Polled(id, kind, outcome) =>
      if id in w.txs && OpId(w.txs[id], kind) != None && outcome != Pending {
        ApplySeen(w, id, kind, outcome == Success, m.plan(id));
      }
    case Confirm(id, merchantId, received) => ConfirmSeen(w, id, merchantId, received);
  }

  /** Every event keeps the world in shape; a payment it adds is the one begun, and healthy. */
  lemma StepKeepsStructure(w: World, m: Moment)
    requires Structured(w)
    ensures Structured(Step(w, m))
    ensures forall k | k in w.txs :: k in Step(w, m).txs
    ensures forall k | k in Step(w, m).txs && k !in w.txs ::
      m.event.Begin? && m.event.id == k && Healthy(PaymentOf(Step(w, m), k))
  {
    match m.event
    case Begin(id, o) =>
      if id !in w.txs {
        StartSeen(w, id, o, m.plan);
      }
    case Callback(kind, opId, outcome) =>
      var found := FirstWithOpId(w.order, w.txs, opId);
      if found.Some? && outcome != Pending {
        ApplySeen(w, found.value, kind, outcome == Success, m.plan(found.value));
      }
    case Polled(id, kind, outcome) =>
      if id in w.txs && OpId(w.txs[id], kind) != None && outcome != Pending {
        ApplySeen(w, id, kind, outcome == Success, m.plan(id));
      }
    case Confirm(id, merchantId, received) => ConfirmSeen(w, id, merchantId, received);
  }

  /** What was agreed about a payment never changes, whatever state it or the world is in. */
  lemma StepKeepsTerms(w: World, m: Moment, k: string)
    requires Structured(w) && k in w.txs
    ensures k in Step(w, m).txs && SameTerms(w.txs[k], Step(w, m).txs[k])
  {
    StepOn(w, m, k);
    assert PaymentOf(w, k).tx == w.txs[k] && PaymentOf(Step(w, m), k).tx == Step(w, m).txs[k];
    match m.event
    case Begin(_, _) =>
    case Callback(kind, _, outcome) => HandlersAreLocal(w.txs[k], kind, outcome == Success, m.plan(k));
    case Polled(_, kind, outcome) => HandlersAreLocal(w.txs[k], kind, outcome == Success, m.plan(k));
    case Confirm(_, _, received) => ConfirmIsLocal(w.txs[k], received);
  }

  /** In a terminal state a payment is left alone by every event. */
  lemma TerminalIsFinal(w: World, m: Moment, k: string)
    requires Structured(w) && k in w.txs && IsTerminal(w.txs[k].state)
    ensures k in Step(w, m).txs && PaymentOf(Step(w, m), k) == PaymentOf(w, k)
  {
    StepOn(w, m, k);
    assert forall leg :: PayoutSucceeded != AwaitingState(leg) && CollectionFailed != AwaitingState(leg);
  }

  lemma ReportKeepsHealth(w: World, m: Moment, k: string)
    requires Structured(w) && k in w.txs && Healthy(PaymentOf(w, k)) && (m.event.Callback? || m.event.Polled?)
    ensures k in Step(w, m).txs && Healthy(PaymentOf(Step(w, m), k))
  {
    StepOn(w, m, k);
    var p := PaymentOf(w, k);
    if PaymentOf(Step(w, m), k) != p {
      OutcomeKeepsHealth(p, m.event.kind, m.event.outcome == Success, m.plan(k));
    }
  }

  /** No event makes a healthy payment unhealthy, or changes what was agreed about it; nor does the state
      of any other payment matter. */
  lemma StepKeepsHealth(w: World, m: Moment, k: string)
    requires Structured(w) && k in w.txs && Healthy(PaymentOf(w, k))
    ensures k in Step(w, m).txs && Healthy(PaymentOf(Step(w, m), k)) && SameTerms(w.txs[k], Step(w, m).txs[k])
  {
    StepKeepsTerms(w, m, k);
    match m.event
    case Begin(_, _) => StepOn(w, m, k);
    case Confirm(_, merchantId, received) =>
      StepOn(w, m, k);
      ConfirmKeepsHealth(PaymentOf(w, k), merchantId, received);
    case _ => ReportKeepsHealth(w, m, k);
  }

  /** Every event, from any source and in any order, keeps the invariant. */
  lemma StepKeepsInv(w: World, m: Moment)
    requires Inv(w)
    ensures Inv(Step(w, m))
    ensures forall k | k in w.txs :: k in Step(w, m).txs
  {
    StepKeepsStructure(w, m);
    forall k | k in Step(w, m).txs ensures Healthy(PaymentOf(Step(w, m), k)) {
      if k in w.txs {
        assert Healthy(PaymentOf(w, k));
        StepKeepsHealth(w, m, k);
      }
    }
  }

  lemma ConfirmKeepsInv(w: World, id: string, merchantId: string, received: bool)
    requires Inv(w)
    ensures Inv(ConfirmTo(w, id, merchantId, received))
    ensures forall k | k in w.txs ::
      k in ConfirmTo(w, id, merchantId, received).txs && PaymentOf(ConfirmTo(w, id, merchantId, received), k)
        == if k == id then ApplyConfirm(PaymentOf(w, k), merchantId, received) else PaymentOf(w, k)
  {
    ConfirmSeen(w, id, merchantId, received);
    forall k | k in w.txs ensures Healthy(ApplyConfirm(PaymentOf(w, k), merchantId, received)) {
      ConfirmKeepsHealth(PaymentOf(w, k), merchantId, received);
    }
  }

  lemma OpIdMeansRouted(w: World, id: string, leg: Leg)
    requires Inv(w) && id in w.txs && OpId(w.txs[id], leg).Some?
    ensures w.txs[id].provenance == RailVerified
  {
    assert Healthy(PaymentOf(w, id));
  }

  lemma CarrierIsRouted(w: World, id: string, opId: string)
    requires Inv(w) && id in w.txs && Carries(w.txs[id], opId)
    ensures w.txs[id].provenance == RailVerified
  {
    assert Healthy(PaymentOf(w, id));
  }

  lemma CallbackKeepsInv(w: World, kind: Leg, opId: string, outcome: Outcome, plan: RailPlan)
    requires Inv(w)
    ensures var v := Step(w, Moment(Callback(kind, opId, outcome), plan));
      Inv(v) && v.txs.Keys == w.txs.Keys && v.order == w.order
  {
    StepKeepsInv(w, Moment(Callback(kind, opId, outcome), plan));
    var found := FirstWithOpId(w.order, w.txs, opId);
    if found.Some? && outcome != Pending {
      ApplySeen(w, found.value, kind, outcome == Success, plan(found.value));
      HandlersAreLocal(w.txs[found.value], kind, outcome == Success, plan(found.value));
    }
  }

  lemma PolledKeepsInv(w: World, id: string, kind: Leg, outcome: Outcome, plan: RailPlan)
    requires Inv(w)
    ensures var v := Step(w, Moment(Polled(id, kind, outcome), plan));
      Inv(v) && v.txs.Keys == w.txs.Keys && v.order == w.order
  {
    StepKeepsInv(w, Moment(Polled(id, kind, outcome), plan));
    if id in w.txs && OpId(w.txs[id], kind) != None && outcome != Pending {
      ApplySeen(w, id, kind, outcome == Success, plan(id));
    }
  }

  function Run(w: World, ms: seq<Moment>): World
    requires Inv(w)
    decreases |ms|
  {
    if ms == [] then w
    else
      StepKeepsInv(w, ms[0]);
      Run(Step(w, ms[0]), ms[1..])
  }

  lemma {:induction false} RunKeepsInv(w: World, ms: seq<Moment>)
    requires Inv(w)
    ensures Inv(Run(w, ms))
    decreases |ms|
  {
    if ms != [] {
      StepKeepsInv(w, ms[0]);
      RunKeepsInv(Step(w, ms[0]), ms[1..]);
    }
  }

  lemma EmptyInv()
    ensures Inv(EMPTY)
  {
  }
}
