/** The application services over the objects: the outcome applier, the callback tail, the sweep, the
    start of a payment and the merchant's confirmation. */
module Services {
  import opened Common
  import opened MoneyTypes
  import opened Pricing
  import opened Ledger
  import opened StateMachine
  import opened Transactions
  import opened Payments
  import opened Status
  import opened Worlds
  import opened Confluence
  import opened Sweeps
  import opened Memory
  import opened Orchestrators
  import opened Merchants

  // ---- one outcome ---------------------------------------------------------------

  datatype ApplyReply = Applied | AlreadyResolved(state: TxState) | Broke(fault: Fault)

  /** The handler for one leg. */
  method Drive(orchestrator: Orchestrator, id: string, kind: Leg, success: bool) returns (fault: Fault)
    requires orchestrator.store.Valid() && id in orchestrator.store.rows
    modifies orchestrator.store, orchestrator.store.rows.Values, orchestrator.rail`calls, orchestrator.ledger
    ensures orchestrator.store.Valid() && orchestrator.store.rows == old(orchestrator.store.rows)
    ensures var e := OnResult(old(orchestrator.store.rows[id].View()), kind, success, orchestrator.rail.answers(id));
      fault == e.fault && orchestrator.Now() == Commit(old(orchestrator.Now()), e)
  {
    match kind {
      case Deposit => fault := orchestrator.OnCollectionResult(id, success);
      case Payout => fault := orchestrator.OnPayoutResult(id, success);
      case Refund => fault := orchestrator.OnRefundResult(id, success);
    }
  }

  method ApplyLegOutcome(store: TransactionStore, rail: Rail, ledger: InMemoryLedger, id: string, kind: Leg, success: bool)
    returns (r: ApplyReply)
    requires store.Valid() && id in store.rows && Indexed(WorldOf(store, rail, ledger))
    modifies store, store.rows.Values, rail`calls, ledger
    ensures store.Valid() && store.rows == old(store.rows) && store.order == old(store.order)
    ensures WorldOf(store, rail, ledger) == ApplyTo(old(WorldOf(store, rail, ledger)), id, kind, success, rail.answers(id))
    ensures r == ApplyAnswer(old(store.rows[id].View()), kind, success, rail.answers(id))
  {
    var t := store.rows[id];
    if t.state != AwaitingState(kind) {
      return AlreadyResolved(t.state);
    }
    ghost var w := WorldOf(store, rail, ledger);
    assert w.txs[id] == t.View();
    var orchestrator := new Orchestrator(store, rail, ledger);
    assert orchestrator.Now() == w;
    var fault := Drive(orchestrator, id, kind, success);
    r := if fault == NoFault then Applied else Broke(fault);
  }

  // ---- a pushed outcome ------------------------------------------------------------

  datatype CallbackReply = NotTerminal | Unmatched | Reply(reply: ApplyReply)

  /** What an authenticated callback amounts to as an event. */
  function EventOf(e: CallbackEvent): Event {
    Callback(e.kind, e.opId, if e.success then Success else Failure)
  }

  /** What an applied or refused outcome is reported as. */
  function ApplyAnswer(t: Tx, kind: Leg, success: bool, a: Answers): ApplyReply
    requires t.amount.currency == t.fee.currency
  {
    if t.state != AwaitingState(kind) then AlreadyResolved(t.state)
    else
      var fault := OnResult(t, kind, success, a).fault;
      if fault == NoFault then Applied else Broke(fault)
  }

  /** What a callback is answered: by what the body parses to, by whom the operation id belongs to, by the
      state of that transaction. */
  function CallbackAnswer(w: World, event: Option<CallbackEvent>, plan: RailPlan): (r: CallbackReply)
    requires Indexed(w)
    ensures r == NotTerminal <==> event.None?
    ensures event.Some? ==> (r == Unmatched <==> forall id | id in w.txs :: !Carries(w.txs[id], event.value.opId))
  {
    if event.None? then NotTerminal
    else
      match FirstWithOpId(w.order, w.txs, event.value.opId)
      case None => Unmatched
      case Some(id) => Reply(ApplyAnswer(w.txs[id], event.value.kind, event.value.success, plan(id)))
  }

  /** The world after a callback with this body. */
  function CalledBack(w: World, body: Body, plan: RailPlan): World
    requires Indexed(w)
  {
    match ParseCallback(body)
    case None => w
    case Some(e) => Step(w, Moment(EventOf(e), plan))
  }

  method ProcessCallback(store: TransactionStore, rail: Rail, ledger: InMemoryLedger, body: Body) returns (r: CallbackReply)
    requires store.Valid() && Indexed(WorldOf(store, rail, ledger))
    modifies store, store.rows.Values, rail`calls, ledger
    ensures store.Valid() && store.rows == old(store.rows)
    ensures WorldOf(store, rail, ledger) == CalledBack(old(WorldOf(store, rail, ledger)), body, rail.answers)
    ensures !SaysDone(body.status) && !SaysFailed(body.status) ==>
      r == NotTerminal && WorldOf(store, rail, ledger) == old(WorldOf(store, rail, ledger))
    ensures r == CallbackAnswer(old(WorldOf(store, rail, ledger)), ParseCallback(body), rail.answers)
  {
    ghost var w := WorldOf(store, rail, ledger);
    var event := ParseCallback(body);
    if event.None? {
      return NotTerminal;
    }
    var t := store.FindByOpId(event.value.opId);
    if t == null {
      return Unmatched;
    }
    assert w.txs[t.id] == t.View();
    var reply := ApplyLegOutcome(store, rail, ledger, t.id, event.value.kind, event.value.success);
    r := Reply(reply);
  }

  // ---- polled outcomes: one sweep ----------------------------------------------------

  /** Turn a polled status into a disposition, applying it when it is final. A transaction that has moved
      on since it was listed is left alone and reported as already applied. */
  method ResolveStatus(
    store: TransactionStore, rail: Rail, ledger: InMemoryLedger, id: string, kind: Leg, status: Option<string>)
    returns (d: Disposition, fault: Fault)
    requires store.Valid() && id in store.rows && Indexed(WorldOf(store, rail, ledger))
    modifies store, store.rows.Values, rail`calls, ledger
    ensures store.Valid() && store.rows == old(store.rows) && store.order == old(store.order)
    ensures var r := Resolve(old(WorldOf(store, rail, ledger)), id, kind, status, rail.answers);
      WorldOf(store, rail, ledger) == r.world && fault == r.fault && (fault == NoFault ==> d == r.disposition)
    ensures status.Some? && !SaysDone(status.value) && !SaysFailed(status.value) ==>
      d == StillPending && fault == NoFault && WorldOf(store, rail, ledger) == old(WorldOf(store, rail, ledger))
    ensures status.Some? && (SaysDone(status.value) || SaysFailed(status.value)) && fault == NoFault ==>
      d == if old(store.rows[id].state) != AwaitingState(kind) then AlreadyApplied
           else if SaysDone(status.value) then ResolvedSuccess else ResolvedFailure
  {
    StatusReads(status);
    fault := NoFault;
    if status == None {
      return Unresolved, NoFault;
    }
    var outcome := Classify(status);
    if outcome == Pending {
      return StillPending, NoFault;
    }
    var reply := ApplyLegOutcome(store, rail, ledger, id, kind, outcome == Success);
    match reply {
      case Broke(f) =>
        d, fault := Unresolved, f;
      case AlreadyResolved(_) =>
        d := AlreadyApplied;
      case Applied =>
        d := if outcome == Success then ResolvedSuccess else ResolvedFailure;
    }
  }

  /** Poll one pending transaction, if it has an id to poll by. */
  method ReconcileOne(store: TransactionStore, rail: Rail, ledger: InMemoryLedger, poller: Poller, t: Transaction)
    returns (item: Item, fault: Fault)
    requires store.Valid() && t.id in store.rows && store.rows[t.id] == t && t.state in PENDING_STATES
    requires Indexed(WorldOf(store, rail, ledger))
    modifies store, store.rows.Values, rail`calls, ledger
    ensures store.Valid() && store.rows == old(store.rows) && store.order == old(store.order)
    ensures var w := old(WorldOf(store, rail, ledger)); var r := Visited(w, old(t.View()), poller, rail.answers);
      && WorldOf(store, rail, ledger) == r.world && fault == r.fault
      && (fault == NoFault ==> item == LineOf(old(t.View()), r.disposition))
  {
    fault := NoFault;
    var kind := LegForState(t.state).value;
    var opId := match kind case Deposit => t.depositId case Payout => t.payoutId case Refund => t.refundId;
    if opId == None {
      return Item(t.id, kind, SkippedNoOpId), NoFault;
    }
    var polled := poller(kind, opId.value);
    if polled == TransportError {
      return Item(t.id, kind, PollError), NoFault;
    }
    var d: Disposition;
    d, fault := ResolveStatus(store, rail, ledger, t.id, kind, polled.status);
    item := Item(t.id, kind, d);
  }

  /** One sweep pass over the worklist taken at its start. A handler's exception ends it without a summary. */
  method ReconcilePending(store: TransactionStore, rail: Rail, ledger: InMemoryLedger, poller: Poller)
    returns (items: seq<Item>, fault: Fault)
    requires store.Valid() && Indexed(WorldOf(store, rail, ledger))
    modifies store, store.rows.Values, rail`calls, ledger
    ensures store.Valid() && store.rows == old(store.rows)
    ensures var w := old(WorldOf(store, rail, ledger));
      Swept(WorldOf(store, rail, ledger), items, fault) == SweepLoop(w, FindPending(w.order, w.txs), poller, rail.answers)
  {
    ghost var ids, goal := SweepBegins(WorldOf(store, rail, ledger), poller, rail.answers);
    var pending := Worklist(store, rail, ledger, WorldOf(store, rail, ledger));
    items, fault := ReconcileAll(store, rail, ledger, poller, pending, ids, goal);
  }

  method Worklist(store: TransactionStore, rail: Rail, ledger: InMemoryLedger, ghost w: World) returns (pending: seq<Transaction>)
    requires store.Valid() && w == WorldOf(store, rail, ledger) && Indexed(w)
    ensures WorldOf(store, rail, ledger) == w && Memory.Ids(pending) == FindPending(w.order, w.txs)
    ensures forall i {:trigger pending[i]} | 0 <= i < |pending| ::
      pending[i].id in store.rows && pending[i] == store.rows[pending[i].id]
  {
    pending := store.SelectPending();
  }

  method ReconcileAll(
    store: TransactionStore, rail: Rail, ledger: InMemoryLedger, poller: Poller, pending: seq<Transaction>,
    ghost ids: seq<string>, ghost goal: Swept)
    returns (items: seq<Item>, fault: Fault)
    requires store.Valid() && ids == Memory.Ids(pending)
    requires forall i {:trigger pending[i]} | 0 <= i < |pending| ::
      pending[i].id in store.rows && pending[i] == store.rows[pending[i].id]
    requires MidSweep(goal, WorldOf(store, rail, ledger), ids, poller, rail.answers, [])
    modifies store, store.rows.Values, rail`calls, ledger
    ensures store.Valid() && store.rows == old(store.rows)
    ensures goal == Swept(WorldOf(store, rail, ledger), items, fault)
  {
    items, fault := [], NoFault;
    assert ids[0..] == ids;
    for i := 0 to |pending|
      invariant store.Valid() && store.rows == old(store.rows) && fault == NoFault
      invariant MidSweep(goal, WorldOf(store, rail, ledger), ids[i..], poller, rail.answers, items)
    {
      var t := pending[i];
      assert ids[i] == t.id && store.rows[t.id] == t;
      SlicePeels(ids, i);
      assert WorldOf(store, rail, ledger).txs[t.id] == t.View();
      if t.state !in PENDING_STATES {
        SweepPasses(goal, WorldOf(store, rail, ledger), ids[i..], poller, rail.answers, items);
        continue;
      }
      var item: Item;
      item, fault := ReconcileNext(store, rail, ledger, poller, t, goal, ids[i..], items);
      if fault != NoFault {
        return [], fault;
      }
      items := items + [item];
    }
    assert ids[|ids|..] == [];
    SweepEnds(goal, WorldOf(store, rail, ledger), poller, rail.answers, items);
  }

  /** Halfway through a sweep: doing the rest from here, after these lines, reaches the goal. */
  ghost predicate MidSweep(goal: Swept, now: World, rest: seq<string>, poller: Poller, plan: RailPlan, items: seq<Item>) {
    && Indexed(now) && (forall id | id in rest :: id in now.txs)
    && goal == After(items, SweepLoop(now, rest, poller, plan))
  }

  /** A sweep that had already reported some lines. */
  ghost function After(items: seq<Item>, s: Swept): Swept {
    if s.fault == NoFault then Swept(s.world, items + s.items, NoFault) else Swept(s.world, [], s.fault)
  }

  lemma SweepBegins(w: World, poller: Poller, plan: RailPlan) returns (ids: seq<string>, goal: Swept)
    requires Indexed(w)
    ensures ids == FindPending(w.order, w.txs) && goal == SweepLoop(w, FindPending(w.order, w.txs), poller, plan)
    ensures MidSweep(goal, w, ids, poller, plan, [])
  {
    ids := FindPending(w.order, w.txs);
    goal := SweepLoop(w, ids, poller, plan);
    SweepRaisesWithoutLines(w, ids, poller, plan);
    assert [] + goal.items == goal.items;
  }

  lemma {:induction false} SweepRaisesWithoutLines(w: World, ids: seq<string>, poller: Poller, plan: RailPlan)
    requires Indexed(w) && forall id | id in ids :: id in w.txs
    ensures SweepLoop(w, ids, poller, plan).fault != NoFault ==> SweepLoop(w, ids, poller, plan).items == []
    decreases |ids|
  {
    if ids != [] && w.txs[ids[0]].state !in PENDING_STATES {
      SweepRaisesWithoutLines(w, ids[1..], poller, plan);
    }
  }

  lemma SweepMovesOn(goal: Swept, now: World, rest: seq<string>, poller: Poller, plan: RailPlan, items: seq<Item>)
    requires MidSweep(goal, now, rest, poller, plan, items) && rest != [] && now.txs[rest[0]].state in PENDING_STATES
    ensures var t := now.txs[rest[0]]; var r := Visited(now, t, poller, plan);
      if r.fault != NoFault then goal == Swept(r.world, [], r.fault)
      else MidSweep(goal, r.world, rest[1..], poller, plan, items + [LineOf(t, r.disposition)])
  {
    var t := now.txs[rest[0]];
    VisitKeepsIndex(now, t, poller, plan);
    var r := Visited(now, t, poller, plan);
    if r.fault == NoFault {
      var later := SweepLoop(r.world, rest[1..], poller, plan).items;
      assert items + ([LineOf(t, r.disposition)] + later) == (items + [LineOf(t, r.disposition)]) + later;
    }
  }

  lemma SweepPasses(goal: Swept, now: World, rest: seq<string>, poller: Poller, plan: RailPlan, items: seq<Item>)
    requires MidSweep(goal, now, rest, poller, plan, items) && rest != [] && now.txs[rest[0]].state !in PENDING_STATES
    ensures MidSweep(goal, now, rest[1..], poller, plan, items)
  {
  }

  lemma SweepEnds(goal: Swept, now: World, poller: Poller, plan: RailPlan, items: seq<Item>)
    requires MidSweep(goal, now, [], poller, plan, items)
    ensures goal == Swept(now, items, NoFault)
  {
    assert items + [] == items;
  }

  /** The loop's body for a transaction still pending. */
  method ReconcileNext(
    store: TransactionStore, rail: Rail, ledger: InMemoryLedger, poller: Poller, t: Transaction,
    ghost goal: Swept, ghost rest: seq<string>, ghost items: seq<Item>)
    returns (item: Item, fault: Fault)
    requires store.Valid() && t.id in store.rows && store.rows[t.id] == t && t.state in PENDING_STATES
    requires rest != [] && rest[0] == t.id
    requires MidSweep(goal, WorldOf(store, rail, ledger), rest, poller, rail.answers, items)
    modifies store, store.rows.Values, rail`calls, ledger
    ensures store.Valid() && store.rows == old(store.rows)
    ensures if fault != NoFault then goal == Swept(WorldOf(store, rail, ledger), [], fault)
            else MidSweep(goal, WorldOf(store, rail, ledger), rest[1..], poller, rail.answers, items + [item])
  {
    assert WorldOf(store, rail, ledger).txs[t.id] == t.View();
    SweepMovesOn(goal, WorldOf(store, rail, ledger), rest, poller, rail.answers, items);
    item, fault := ReconcileOne(store, rail, ledger, poller, t);
  }

  lemma SlicePeels(ids: seq<string>, i: nat)
    requires i < |ids|
    ensures ids[i..] != [] && ids[i..][0] == ids[i] && ids[i..][1..] == ids[i + 1..]
  {
  }

  /** A sweep, or an empty summary where no poller is configured. */
  method RunReconciliation(store: TransactionStore, rail: Rail, ledger: InMemoryLedger, poller: Option<Poller>)
    returns (items: seq<Item>, fault: Fault)
    requires store.Valid() && Indexed(WorldOf(store, rail, ledger))
    modifies store, store.rows.Values, rail`calls, ledger
    ensures store.Valid() && store.rows == old(store.rows)
    ensures var w := old(WorldOf(store, rail, ledger));
      Swept(WorldOf(store, rail, ledger), items, fault)
        == if poller.None? then Swept(w, [], NoFault)
           else SweepLoop(w, FindPending(w.order, w.txs), poller.value, rail.answers)
  {
    if poller.None? {
      return [], NoFault;
    }
    items, fault := ReconcilePending(store, rail, ledger, poller.value);
  }

  // ---- starting a payment --------------------------------------------------------------

  const DEMO_PROVIDER: string := "VODACOM_MPESA_COD"

  /** An operator named, as against none or an empty one. */
  predicate Named(operator: Option<string>) {
    operator.Some? && operator.value != ""
  }

  /** Never empty: an operator explicitly chosen is the one, whatever is predicted; without one, the one
      predicted; without either, the demo operator. */
  function ResolveProvider(predicted: Option<string>, chosen: Option<string>): (r: string)
    ensures r != ""
    ensures FoundAs(r, predicted, chosen)
  {
    if chosen.Some? && chosen.value != "" then chosen.value
    else if predicted.Some? && predicted.value != "" then predicted.value
    else DEMO_PROVIDER
  }

  // ---- a payment to a merchant, told from who pays, whom, how much and over which operators -------------

  /** An operator as it should have been found: the one chosen, or the one predicted, or the demo operator. */
  predicate FoundAs(operator: string, predicted: Option<string>, chosen: Option<string>) {
    if Named(chosen) then operator == chosen.value
    else if Named(predicted) then operator == predicted.value
    else operator == "VODACOM_MPESA_COD"
  }

  /** From this number, to this merchant's own settlement number, of this amount; on-net, free of charge, if
      both are on the same facilitated network, and routed at the fee of the pair otherwise. */
  predicate PaysMerchant(t: Tx, msisdn: string, m: Merchant, amount: Money, payerOn: string, payeeOn: string) {
    && t.customerMsisdn == msisdn && t.merchantMsisdn == m.settlementMsisdn && t.merchantId == Some(m.id)
    && t.amount == amount && t.customerProvider == payerOn && t.merchantProvider == payeeOn
    && if payerOn == payeeOn && payerOn in {"AIRTEL_COD", "VODACOM_MPESA_COD", "ORANGE_COD"}
       then t.provenance == MerchantAttested && t.fee == Money(0, amount.currency)
       else t.provenance == RailVerified && t.fee == DefaultFee(amount, payerOn, payeeOn)
  }

  /** What was asked of the rail about a payment: nothing on-net; routed, the one collection is of the amount
      from the payer's number on the payer's operator, and any payout is to the merchant's number on the
      merchant's. */
  ghost predicate AskedFor(p: Payment, msisdn: string, m: Merchant, payerOn: string, payeeOn: string) {
    && (p.tx.provenance == MerchantAttested ==> p.calls == [])
    && (p.tx.provenance == RailVerified ==>
          p.calls != [] && p.calls[0].CollectCall? && forall i | 0 < i < |p.calls| :: !p.calls[i].CollectCall?)
    && (forall c | c in p.calls && c.CollectCall? ::
          c.msisdn == msisdn && c.amount == p.tx.amount && c.provider == payerOn)
    && (forall c | c in p.calls && c.PayoutCall? :: c.msisdn == m.settlementMsisdn && c.provider == payeeOn)
  }

  /** What a start creates for such an order. */
  lemma StartedPays(id: string, o: PaymentOrder, plan: RailPlan, m: Merchant)
    requires o.amount.IsPositive() && o.merchantMsisdn == m.settlementMsisdn && o.merchantId == m.id
    ensures var p := StartedPayment(id, o, plan);
      && PaysMerchant(p.tx, o.customerMsisdn, m, o.amount, o.customerProvider, o.merchantProvider)
      && AskedFor(p, o.customerMsisdn, m, o.customerProvider, o.merchantProvider)
  {
    var p := StartedPayment(id, o, plan);
    StartedIsHealthy(id, o, plan);
    if !UseOnNet(o.customerProvider, o.merchantProvider) {
      PlayedAsOrdered(id, o, AnswersFor(o, plan, id));
      CallsDisciplined(p);
    }
  }

  datatype PlayedOn = PlayedOn(world: World, fault: Fault)

  /** One unguarded handler call on the world. */
  function PlayOne(w: World, id: string, leg: Leg, success: bool, a: Answers): PlayedOn
    requires Indexed(w) && id in w.txs
  {
    var e := OnResult(w.txs[id], leg, success, a);
    PlayedOn(Commit(w, e), e.fault)
  }

  /** A scenario played out on a payment that has just joined the world. */
  lemma PlayOneOnNewcomer(w: World, p: Payment, leg: Leg, success: bool, a: Answers)
    requires Indexed(w) && p.tx.id !in w.txs && p.tx.amount.currency == p.tx.fee.currency
    ensures Indexed(Adopt(w, p))
    ensures PlayOne(Adopt(w, p), p.tx.id, leg, success, a)
         == PlayedOn(Adopt(w, Play(p, leg, success, a).payment), Play(p, leg, success, a).fault)
  {
    var v := Adopt(w, p);
    AppendFreshId(w.order, p.tx.id);
    assert v.txs.Keys == w.txs.Keys + {p.tx.id};
    HandlersAreLocal(p.tx, leg, success, a);
    AdoptThenCommit(w, p, OnResult(p.tx, leg, success, a));
  }

  /** The simulator's callbacks, the same handlers the webhooks drive, on a newly adopted payment. */
  method PlayOutScenario(orchestrator: Orchestrator, scenario: string, ghost w: World, ghost p: Payment, id: string)
    returns (fault: Fault)
    requires orchestrator.store.Valid() && id in orchestrator.store.rows
    requires Indexed(w) && id !in w.txs && p.tx.id == id && p.tx.amount.currency == p.tx.fee.currency
    requires orchestrator.Now() == Adopt(w, p)
    modifies orchestrator.store, orchestrator.store.rows.Values, orchestrator.rail`calls, orchestrator.ledger
    ensures orchestrator.store.Valid() && orchestrator.store.rows == old(orchestrator.store.rows)
    ensures var played := PlayOut(p, scenario, orchestrator.rail.answers(id));
      fault == played.fault && orchestrator.Now() == Adopt(w, played.payment)
  {
    ghost var a := orchestrator.rail.answers(id);
    if scenario == "collection_fail" {
      fault := PlayLeg(orchestrator, Deposit, false, w, p, id);
      return;
    }
    fault := PlayLeg(orchestrator, Deposit, true, w, p, id);
    ghost var p1 := Play(p, Deposit, true, a).payment;
    if fault != NoFault {
      return;
    }
    HandlersKeepTerms(p.tx, Deposit, true, a);
    if scenario == "success" {
      fault := PlayLeg(orchestrator, Payout, true, w, p1, id);
      return;
    }
    fault := PlayLeg(orchestrator, Payout, false, w, p1, id);
    ghost var p2 := Play(p1, Payout, false, a).payment;
    if fault != NoFault {
      return;
    }
    HandlersKeepTerms(p1.tx, Payout, false, a);
    fault := PlayLeg(orchestrator, Refund, scenario != "refund_fail", w, p2, id);
  }

  method PlayLeg(orchestrator: Orchestrator, leg: Leg, success: bool, ghost w: World, ghost p: Payment, id: string)
    returns (fault: Fault)
    requires orchestrator.store.Valid() && id in orchestrator.store.rows
    requires Indexed(w) && id !in w.txs && p.tx.id == id && p.tx.amount.currency == p.tx.fee.currency
    requires orchestrator.Now() == Adopt(w, p)
    modifies orchestrator.store, orchestrator.store.rows.Values, orchestrator.rail`calls, orchestrator.ledger
    ensures orchestrator.store.Valid() && orchestrator.store.rows == old(orchestrator.store.rows)
    ensures var played := Play(p, leg, success, orchestrator.rail.answers(id));
      fault == played.fault && orchestrator.Now() == Adopt(w, played.payment)
  {
    PlayOneOnNewcomer(w, p, leg, success, orchestrator.rail.answers(id));
    assert orchestrator.store.rows[id].View() == orchestrator.Now().txs[id] == p.tx;
    fault := Drive(orchestrator, id, leg, success);
  }

  lemma HoldingIsFinding(store: TransactionStore, rail: Rail, ledger: InMemoryLedger, key: Option<string>)
    requires store.Valid() && Indexed(WorldOf(store, rail, ledger))
    ensures var w := WorldOf(store, rail, ledger);
      store.Holding(key) <==> KeyHeld(w, key)
  {
    var w := WorldOf(store, rail, ledger);
    if store.Holding(key) {
      var id :| id in store.rows && store.rows[id].key == key;
      assert w.txs[id].key == key && id in w.order;
    }
    if KeyHeld(w, key) {
      var id := FirstWithKey(w.order, w.txs, key.value).value;
      assert store.rows[id].key == w.txs[id].key == key;
    }
  }

  /** The routed start: the fee of the pair, the first save, the request for the collection. */
  method OpenRouted(orchestrator: Orchestrator, id: string, o: PaymentOrder) returns (fault: Fault)
    requires orchestrator.store.Valid() && id !in orchestrator.store.rows
    modifies orchestrator.store, orchestrator.rail`calls
    ensures orchestrator.store.Valid()
    ensures fault == if !o.amount.IsPositive() then InvalidAmount
                     else if old(orchestrator.store.Holding(o.key)) then DuplicateIdempotencyKey else NoFault
    ensures orchestrator.Now() == if fault != NoFault then old(orchestrator.Now())
                                  else Adopt(old(orchestrator.Now()), RoutedOpened(id, o, orchestrator.rail.answers(id).deposit))
    ensures fault == NoFault ==>
      && id in orchestrator.store.rows && fresh(orchestrator.store.rows[id])
      && orchestrator.store.rows == old(orchestrator.store.rows)[id := orchestrator.store.rows[id]]
  {
    var fee := DefaultFee(o.amount, o.customerProvider, o.merchantProvider);
    if o.amount.IsPositive() {
      FeeBounds(o.amount, o.customerProvider, o.merchantProvider);
    }
    fault := orchestrator.StartTransaction(
      id, o.customerMsisdn, o.merchantMsisdn, o.amount, fee, o.customerProvider, o.merchantProvider,
      Some(o.merchantId), o.key);
  }

  /** How a routed start ends: refused for its amount, refused for its key, or made. */
  ghost predicate RoutedEnds(w: World, now: World, fault: Fault, held: bool, id: string, o: PaymentOrder, plan: RailPlan) {
    var played := RoutedPlayed(id, o, AnswersFor(o, plan, id));
    if !o.amount.IsPositive() then fault == InvalidAmount && now == w
    else if held then fault == DuplicateIdempotencyKey && now == w
    else fault == played.fault && now == Adopt(w, played.payment)
  }

  /** And, on the simulator, the outcomes played out at once. */
  method RunRouted(orchestrator: Orchestrator, id: string, o: PaymentOrder) returns (fault: Fault)
    requires orchestrator.store.Valid() && Indexed(orchestrator.Now()) && id !in orchestrator.store.rows
    requires o.simulated ==> orchestrator.rail.answers(id) == SimulatedAnswers(id)
    modifies orchestrator.store, orchestrator.store.rows.Values, orchestrator.rail`calls, orchestrator.ledger
    ensures orchestrator.store.Valid()
    ensures RoutedEnds(old(orchestrator.Now()), orchestrator.Now(), fault, old(orchestrator.store.Holding(o.key)), id, o,
                       orchestrator.rail.answers)
  {
    ghost var w := orchestrator.Now();
    ghost var p := RoutedOpened(id, o, orchestrator.rail.answers(id).deposit);
    fault := OpenRouted(orchestrator, id, o);
    if fault == NoFault && o.simulated && !o.defer {
      fault := PlayOutScenario(orchestrator, o.scenario, w, p, id);
    }
  }

  method StartRouted(store: TransactionStore, rail: Rail, ledger: InMemoryLedger, id: string, o: PaymentOrder)
    returns (duplicate: bool, r: StartResult)
    requires store.Valid() && Indexed(WorldOf(store, rail, ledger)) && id !in store.rows
    requires o.simulated ==> rail.answers(id) == SimulatedAnswers(id)
    requires !UseOnNet(o.customerProvider, o.merchantProvider)
    modifies store, store.rows.Values, rail`calls, ledger
    ensures store.Valid()
    ensures var w := old(WorldOf(store, rail, ledger));
      Settled(w, WorldOf(store, rail, ledger), duplicate, r, o.key, CreateOrRecover(w, id, o, rail.answers))
  {
    ghost var w := WorldOf(store, rail, ledger);
    HoldingIsFinding(store, rail, ledger, o.key);
    var orchestrator := new Orchestrator(store, rail, ledger);
    assert orchestrator.Now() == w;
    var fault := RunRouted(orchestrator, id, o);
    duplicate := fault == DuplicateIdempotencyKey;
    r := if fault == NoFault then Returned(id) else Raised(fault);
    RoutedSettles(w, orchestrator.Now(), fault, id, o, rail.answers);
  }

  lemma RoutedSettles(w: World, now: World, fault: Fault, id: string, o: PaymentOrder, plan: RailPlan)
    requires Indexed(w) && !UseOnNet(o.customerProvider, o.merchantProvider)
    requires RoutedEnds(w, now, fault, KeyHeld(w, o.key), id, o, plan)
    ensures Settled(w, now, fault == DuplicateIdempotencyKey, if fault == NoFault then Returned(id) else Raised(fault),
                    o.key, CreateOrRecover(w, id, o, plan))
  {
    if o.amount.IsPositive() {
      RoutedStart(id, o, plan);
    }
  }

  /** One attempt to create a payment: either the key was held and nothing happened, or the whole of it did. */
  ghost predicate Settled(w: World, now: World, duplicate: bool, r: StartResult, key: Option<string>, s: Started)
    requires Indexed(w)
  {
    if duplicate then KeyHeld(w, key) && now == w && s == Started(w, Returned(Holder(w, key.value)))
    else s == Started(now, r)
  }

  method StartOnNet(store: TransactionStore, rail: Rail, ledger: InMemoryLedger, id: string, o: PaymentOrder)
    returns (duplicate: bool, r: StartResult)
    requires store.Valid() && Indexed(WorldOf(store, rail, ledger)) && id !in store.rows
    requires UseOnNet(o.customerProvider, o.merchantProvider)
    modifies store
    ensures store.Valid()
    ensures var w := old(WorldOf(store, rail, ledger));
      Settled(w, WorldOf(store, rail, ledger), duplicate, r, o.key, CreateOrRecover(w, id, o, rail.answers))
  {
    HoldingIsFinding(store, rail, ledger, o.key);
    var onNet := new OnNetOrchestrator(store, rail, ledger);
    assert onNet.base.Now() == old(WorldOf(store, rail, ledger));
    var fault := onNet.Start(id, o.customerMsisdn, o.merchantMsisdn, o.amount, o.customerProvider, Some(o.merchantId), o.key);
    duplicate := fault == DuplicateIdempotencyKey;
    r := if fault == NoFault then Returned(id) else Raised(fault);
  }

  /** On-net or routed. */
  method Attempt(store: TransactionStore, rail: Rail, ledger: InMemoryLedger, id: string, o: PaymentOrder)
    returns (duplicate: bool, r: StartResult)
    requires store.Valid() && Indexed(WorldOf(store, rail, ledger)) && id !in store.rows
    requires o.simulated ==> rail.answers(id) == SimulatedAnswers(id)
    modifies store, store.rows.Values, rail`calls, ledger
    ensures store.Valid()
    ensures var w := old(WorldOf(store, rail, ledger));
      Settled(w, WorldOf(store, rail, ledger), duplicate, r, o.key, CreateOrRecover(w, id, o, rail.answers))
  {
    if UseOnNet(o.customerProvider, o.merchantProvider) {
      duplicate, r := StartOnNet(store, rail, ledger, id, o);
    } else {
      duplicate, r := StartRouted(store, rail, ledger, id, o);
    }
  }

  /** Everything after the pre-check. A duplicate key means another request won the race in between:
      its transaction is returned and nothing is charged. */
  method CreateOrFind(store: TransactionStore, rail: Rail, ledger: InMemoryLedger, id: string, o: PaymentOrder)
    returns (r: StartResult)
    requires store.Valid() && Indexed(WorldOf(store, rail, ledger)) && id !in store.rows
    requires o.simulated ==> rail.answers(id) == SimulatedAnswers(id)
    modifies store, store.rows.Values, rail`calls, ledger
    ensures store.Valid()
    ensures Started(WorldOf(store, rail, ledger), r) == CreateOrRecover(old(WorldOf(store, rail, ledger)), id, o, rail.answers)
  {
    ghost var w := WorldOf(store, rail, ledger);
    var duplicate: bool;
    duplicate, r := Attempt(store, rail, ledger, id, o);
    r := AfterAttempt(store, rail, ledger, duplicate, r, o.key, w, CreateOrRecover(w, id, o, rail.answers));
  }

  /** The original created by whoever won the race, if that is how the attempt went. */
  method AfterAttempt(
    store: TransactionStore, rail: Rail, ledger: InMemoryLedger, duplicate: bool, made: StartResult, key: Option<string>,
    ghost w: World, ghost s: Started)
    returns (r: StartResult)
    requires store.Valid() && Indexed(w) && Settled(w, WorldOf(store, rail, ledger), duplicate, made, key, s)
    ensures Started(WorldOf(store, rail, ledger), r) == s && WorldOf(store, rail, ledger) == old(WorldOf(store, rail, ledger))
  {
    r := made;
    if duplicate {
      var racer := store.FindByIdempotencyKey(key.value);
      r := Returned(racer.id);
    }
  }

  method StartMerchantPayment(store: TransactionStore, rail: Rail, ledger: InMemoryLedger, id: string, o: PaymentOrder)
    returns (r: StartResult)
    requires store.Valid() && Indexed(WorldOf(store, rail, ledger)) && id !in store.rows
    requires o.simulated ==> rail.answers(id) == SimulatedAnswers(id)
    modifies store, store.rows.Values, rail`calls, ledger
    ensures store.Valid()
    ensures Started(WorldOf(store, rail, ledger), r) == StartPayment(old(WorldOf(store, rail, ledger)), id, o, rail.answers)
  {
    ghost var w := WorldOf(store, rail, ledger);
    if o.key.Some? {
      var existing := store.FindByIdempotencyKey(o.key.value);
      assert WorldOf(store, rail, ledger) == w;
      if existing != null {
        assert KeyHeld(w, o.key) && existing.id == Holder(w, o.key.value);
        return Returned(existing.id);
      }
    }
    assert !KeyHeld(w, o.key);
    r := CreateOrFind(store, rail, ledger, id, o);
  }

  // ---- the merchant's word ---------------------------------------------------------------

  datatype ConfirmReply = NotFound | NotOnNet | WasResolved(state: TxState) | Confirmed | Failed(fault: Fault)

  /** Owner, provenance, state: only then does the word reach the handler. */
  method ConfirmOnNetPayment(
    store: TransactionStore, rail: Rail, ledger: InMemoryLedger, id: string, merchantId: string, received: bool)
    returns (r: ConfirmReply)
    requires store.Valid()
    modifies store, store.rows.Values, ledger
    ensures store.Valid() && store.rows == old(store.rows)
    ensures WorldOf(store, rail, ledger) == ConfirmTo(old(WorldOf(store, rail, ledger)), id, merchantId, received)
    ensures id !in store.rows ==> r == NotFound
    ensures id in store.rows ==>
      var t := old(store.rows[id].View());
      r == if t.merchantId != Some(merchantId) then NotFound
           else if t.provenance != MerchantAttested then NotOnNet
           else if t.state != CollectionPending then WasResolved(t.state)
           else Confirmed
    ensures r != Confirmed ==> WorldOf(store, rail, ledger) == old(WorldOf(store, rail, ledger))
    ensures r == Confirmed ==>
      WordHeard(store.rows[id].View(), ledger.postings, old(ledger.postings), received)
  {
    ghost var w := WorldOf(store, rail, ledger);
    if id !in store.rows {
      return NotFound;
    }
    var t := store.rows[id];
    assert w.txs[id] == t.View();
    if t.merchantId != Some(merchantId) {
      return NotFound;
    }
    if t.provenance != MerchantAttested {
      return NotOnNet;
    }
    if t.state != CollectionPending {
      return WasResolved(t.state);
    }
    var onNet := new OnNetOrchestrator(store, rail, ledger);
    assert onNet.base.Now() == w;
    var fault := onNet.OnConfirmation(id, received);
    r := if fault == NoFault then Confirmed else Failed(fault);
  }
}
