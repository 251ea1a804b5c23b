/** The account totals, where starts are not atomic: money is conserved in every interleaving, and wherever
    payments stay fit the totals are what their states say. */
module ConcurrentTotals {
  import opened Common
  import opened MoneyTypes
  import opened Ledger
  import opened Transactions
  import opened Payments
  import opened Status
  import opened Worlds
  import opened Conservation
  import opened IdempotentStart
  import opened ConcurrentHealth

  // ---- every posting balances ---------------------------------------------------------------------

  lemma StartBooksBalanced(w: World, id: string, o: PaymentOrder, plan: RailPlan)
    requires Indexed(w) && AllBalance(w.postings)
    ensures AllBalance(StartPayment(w, id, o, plan).world.postings)
  {
    if o.amount.IsPositive() {
      StartedIsHealthy(id, o, plan);
      BooksBalance(StartedPayment(id, o, plan));
    }
  }

  lemma StepBooksBalanced(w: World, m: Moment)
    requires Structured(w) && AllBalance(w.postings)
    ensures AllBalance(Step(w, m).postings)
  {
    match m.event
    case Begin(id, o) => StartBooksBalanced(w, id, o, m.plan);
    case Callback(kind, opId, outcome) =>
      var found := FirstWithOpId(w.order, w.txs, opId);
      if found.Some? {
        HandlersBookBalanced(w.txs[found.value], kind, outcome == Success, m.plan(found.value));
      }
    case Polled(id, kind, outcome) =>
      if id in w.txs {
        HandlersBookBalanced(w.txs[id], kind, outcome == Success, m.plan(id));
      }
    case Confirm(id, _, received) =>
      if id in w.txs {
        HandlersBookBalanced(w.txs[id], Deposit, received, SimulatedAnswers(id));
      }
  }

  lemma NextBooksBalanced(w: World, pc: Pc, r: Request, plan: RailPlan)
    requires Structured(w) && AllBalance(w.postings)
    ensures AllBalance(Next(w, pc, r, plan).world.postings)
  {
    if Working(pc, r) && pc.Playing? && r.0 in w.txs {
      var play := Plays(r.1.scenario)[pc.played];
      HandlersBookBalanced(w.txs[r.0], play.0, play.1, AnswersFor(r.1, plan, r.0));
    }
  }

  lemma {:induction false} InterleaveBooksBalanced(s: System, rs: seq<Request>, cs: seq<Choice>)
    requires SysInv(s, rs) && AllBalance(s.world.postings)
    ensures AllBalance(Interleave(s, rs, cs).world.postings)
    decreases |cs|
  {
    if cs != [] {
      ScheduleKeepsInv(s, rs, cs[0]);
      match cs[0] {
        case Proceed(i, plan) =>
          if i < |rs| {
            NextBooksBalanced(s.world, s.pcs[i], rs[i], plan);
          }
        case Env(m) => StepBooksBalanced(s.world, m);
      }
      InterleaveBooksBalanced(Schedule(s, rs, cs[0]), rs, cs[1..]);
    }
  }

  /** Money is conserved in every interleaving, whatever is reported and whatever raises: in each currency the
      five accounts sum to zero at every moment. */
  lemma MoneyConservedThroughout(ms: seq<Moment>, rs: seq<Request>, cs: seq<Choice>, c: Currency)
    requires Fresh(ms, rs)
    ensures SysInv(Initial(ms, rs), rs)
    ensures var ps := Interleave(Initial(ms, rs), rs, cs).world.postings;
      Net(ps, Customer, c) + Net(ps, Merchant, c) + Net(ps, Clearing, c) + Net(ps, Revenue, c) + Net(ps, Expense, c) == 0
  {
    InitialInv(ms, rs);
    ReachedBooksBalance(ms);
    InterleaveBooksBalanced(Initial(ms, rs), rs, cs);
    BooksSumToZero(Interleave(Initial(ms, rs), rs, cs).world.postings, c);
  }

  // ---- every payment is priced ---------------------------------------------------------------------

  lemma NewTxIsPriced(r: Request)
    ensures Priced(NewTx(r)) && NewTx(r).amount == r.1.amount
  {
  }

  /** A step keeps every payment's terms, and a payment it adds is priced as the service prices it. */
  lemma AroundKeepsPriced(w: World, v: World, own: Option<string>)
    requires AllPriced(w.txs) && Around(w, v, own)
    requires own.Some? && own.value in v.txs && own.value !in w.txs ==>
      v.txs[own.value].amount.IsPositive() && Priced(v.txs[own.value])
    ensures AllPriced(v.txs)
  {
    forall id | id in v.txs ensures v.txs[id].amount.IsPositive() && Priced(v.txs[id]) {
      if id in w.txs {
        assert PaymentOf(w, id).tx == w.txs[id] && PaymentOf(v, id).tx == v.txs[id];
      }
    }
  }

  lemma PlacedIsPriced(w: World, pc: Pc, r: Request)
    requires Indexed(w) && Placed(w, pc, r) && r.0 in w.txs
    ensures w.txs[r.0].amount.IsPositive() && Priced(w.txs[r.0])
  {
    NewTxIsPriced(r);
    assert PaymentOf(w, r.0).tx == w.txs[r.0];
    if pc.Saved? || pc.Waiting? || pc.Answered? {
      OpeningTerms(pc, r);
    }
  }

  lemma ScheduleKeepsPriced(s: System, rs: seq<Request>, c: Choice)
    requires SysInv(s, rs) && AllPriced(s.world.txs)
    ensures SysInv(Schedule(s, rs, c), rs) && AllPriced(Schedule(s, rs, c).world.txs)
  {
    var t := Schedule(s, rs, c);
    ScheduleKeepsInv(s, rs, c);
    ScheduleAround(s, rs, c);
    match c {
      case Proceed(i, plan) =>
        if i < |rs| && rs[i].0 in t.world.txs {
          assert Placed(t.world, t.pcs[i], rs[i]);
          PlacedIsPriced(t.world, t.pcs[i], rs[i]);
        }
      case Env(m) =>
        if t != s {
          StepKeepsStructure(s.world, m);
        }
    }
    AroundKeepsPriced(s.world, t.world, OwnerOf(s, rs, c));
  }

  lemma {:induction false} InterleaveKeepsPriced(s: System, rs: seq<Request>, cs: seq<Choice>)
    requires SysInv(s, rs) && AllPriced(s.world.txs)
    ensures AllPriced(Interleave(s, rs, cs).world.txs)
    decreases |cs|
  {
    if cs != [] {
      ScheduleKeepsPriced(s, rs, cs[0]);
      InterleaveKeepsPriced(Schedule(s, rs, cs[0]), rs, cs[1..]);
    }
  }

  // ---- the totals ------------------------------------------------------------------------------------

  /** No payment is played out through a failure report but by a harmless scenario. */
  ghost predicate AllPlayedSafely(ms: seq<Moment>, rs: seq<Request>, cs: seq<Choice>)
    requires Fresh(ms, rs)
  {
    InitialInv(ms, rs);
    forall id :: PlayedSafely(Initial(ms, rs), rs, cs, id)
  }

  /** In every interleaving in which they stay fit, the payments explain the totals at every moment, those half
      started among them: each account is the sum of what their states say, clearing is what payments in
      flight or under review hold less the sunk costs of refunds, and there is no revenue. */
  lemma StatesExplainTotals(ms: seq<Moment>, rs: seq<Request>, cs: seq<Choice>, a: Account, c: Currency)
    requires Fresh(ms, rs) && AllPlayedSafely(ms, rs, cs)
    ensures SysInv(Initial(ms, rs), rs)
    ensures var w := Interleave(Initial(ms, rs), rs, cs).world;
      && (forall id | id in w.order :: id in w.txs)
      && Net(w.postings, a, c) == SumExpected(w.order, w.txs, a, c)
      && Net(w.postings, Clearing, c) == HeldInFlight(w.order, w.txs, c) - SunkCosts(w.order, w.txs, c)
      && Net(w.postings, Revenue, c) == 0
  {
    InitialInv(ms, rs);
    InterleaveKeepsInv(Initial(ms, rs), rs, cs);
    var w := Interleave(Initial(ms, rs), rs, cs).world;
    forall id | id in w.txs ensures LockStepped(PaymentOf(w, id)) {
      PaymentsStayFit(ms, rs, cs, id);
    }
    InvIsPriced(Reached(ms));
    InterleaveKeepsPriced(Initial(ms, rs), rs, cs);
    TotalsOf(w, a, c);
  }

  lemma TotalsOf(w: World, a: Account, c: Currency)
    requires Structured(w) && AllLockStepped(w) && AllPriced(w.txs)
    ensures Net(w.postings, a, c) == SumExpected(w.order, w.txs, a, c)
    ensures Net(w.postings, Clearing, c) == HeldInFlight(w.order, w.txs, c) - SunkCosts(w.order, w.txs, c)
    ensures Net(w.postings, Revenue, c) == 0
  {
    TotalOf(w, a, c);
    TotalOf(w, Clearing, c);
    ClearingSplits(w.order, w.txs, c);
    TotalOf(w, Revenue, c);
    NoRevenueIn(w.order, w.txs, c);
  }
}
