/** The promises about each payment, where starts are not atomic: in every interleaving they hold of every
    payment, but for a simulated one whose play-out finds it in manual review. */
module ConcurrentHealth {
  import opened Common
  import opened MoneyTypes
  import opened Pricing
  import opened Ledger
  import opened StateMachine
  import opened Transactions
  import opened Payments
  import opened Status
  import opened Worlds
  import opened Conservation
  import opened IdempotentStart
  import opened StartOutcomes
  import opened Confluence
  import opened Simulators

  // ---- where a payment stands while it is being started -----------------------------------------

  /** How far a payment has got, at least, when so many outcomes have been played. */
  predicate Behind(n: nat, s: TxState) {
    match n
    case 0 => true
    case 1 => s in {PayoutPending, PayoutSucceeded, RefundPending, Refunded, ManualReview}
    case _ => s in {RefundPending, Refunded, ManualReview}
  }

  ghost predicate Standing(p: Payment, pc: Pc, r: Request) {
    match pc
    case Begun => true
    case Checked => true
    case Lost => true
    case Playing(n) => Healthy(p) && p.tx.provenance == RailVerified && Behind(n, p.tx.state)
    case Done(_) => Healthy(p)
    case _ => p == Opening(pc, r)
  }

  /** Half opened, a payment has nothing on its books and nothing amiss. */
  lemma OpeningIsFit(pc: Pc, r: Request)
    requires pc.Saved? || pc.Waiting? || pc.Answered?
    ensures Fit(Opening(pc, r))
  {
    OpeningTerms(pc, r);
    OpeningIsUnbooked(pc, r);
    OpeningHistory(pc, r);
    OpeningOrder(pc, r);
  }

  lemma OpeningIsUnbooked(pc: Pc, r: Request)
    requires pc.Saved? || pc.Waiting? || pc.Answered?
    ensures Opening(pc, r).books == [] && LockStepped(Opening(pc, r))
    ensures Opening(pc, r).tx.state in {Initiated, CollectionPending}
  {
    AbsorbEnter(Born(NewTx(r)), CollectionPending);
  }

  lemma OpeningHistory(pc: Pc, r: Request)
    requires pc.Saved? || pc.Waiting? || pc.Answered?
    ensures SoundHistory(Opening(pc, r).tx)
  {
  }

  lemma OpeningOrder(pc: Pc, r: Request)
    requires pc.Saved? || pc.Waiting? || pc.Answered?
    ensures Disciplined(Opening(pc, r))
  {
    var p := Opening(pc, r);
    AbsorbEnter(Born(NewTx(r)), CollectionPending);
    if pc.Answered? {
      AskingOrder(NewTx(r), pc.answer);
    } else {
      assert p.books == [] && p.calls == [] && forall x | x in p.trace :: x.Entered?;
    }
  }

  lemma AskingOrder(t: Tx, answer: Answer)
    requires t.amount.currency == t.fee.currency
    ensures Disciplined(Asking(t, answer))
  {
    var p := Asking(t, answer);
    assert p.trace[1] == Entered(t.id, CollectionPending);
    assert AskedInOrder(p.tx, p.trace, 2);
  }

  lemma StandingIsFit(p: Payment, pc: Pc, r: Request)
    requires Standing(p, pc, r) && r.1.amount.IsPositive() && !pc.Begun? && !pc.Checked? && !pc.Lost?
    ensures Fit(p)
  {
    if pc.Saved? || pc.Waiting? || pc.Answered? {
      OpeningIsFit(pc, r);
    } else {
      HealthyIsFit(p);
    }
  }

  // ---- what keeps it there --------------------------------------------------------------------

  lemma OutcomeStaysBehind(p: Payment, n: nat, leg: Leg, success: bool, a: Answers)
    requires Canonical(p) && Behind(n, p.tx.state)
    ensures Behind(n, ApplyOutcome(p, leg, success, a).tx.state)
  {
    if p.tx.state == AwaitingState(leg) {
      match leg
      case Deposit => DepositStep(p, success, a);
      case Payout => PayoutStep(p, success, a);
      case Refund => RefundStep(p, success);
    }
  }

  /** Whatever else happens in the system. */
  lemma EnvKeepsStanding(w: World, m: Moment, pc: Pc, r: Request)
    requires Structured(w) && r.0 in w.txs && Placed(w, pc, r) && Standing(PaymentOf(w, r.0), pc, r)
    ensures r.0 in Step(w, m).txs && Standing(PaymentOf(Step(w, m), r.0), pc, r)
  {
    var p := PaymentOf(w, r.0);
    if pc.Playing? {
      StepKeepsHealth(w, m, r.0);
      StepOn(w, m, r.0);
      if m.event.Callback? || m.event.Polled? {
        OutcomeStaysBehind(p, pc.played, m.event.kind, m.event.outcome == Success, m.plan(r.0));
      }
    } else if pc.Done? {
      StepKeepsHealth(w, m, r.0);
    } else {
      OpeningTerms(pc, r);
      EnvOn(w, m, r.0);
    }
  }

  /** A play that would take a payment out of manual review: the one kind of move no guard lets through. */
  predicate LeavesReview(s: TxState, leg: Leg, success: bool) {
    s == ManualReview && ((leg == Deposit && !success) || (leg == Refund && success))
  }

  /** One outcome played out: it applies, or it is illegal and changes nothing. */
  lemma PlayStands(p: Payment, n: nat, scenario: string, a: Answers)
    requires Healthy(p) && p.tx.provenance == RailVerified && Behind(n, p.tx.state) && n < |Plays(scenario)|
    requires AcceptsAll(a) && !LeavesReview(p.tx.state, Plays(scenario)[n].0, Plays(scenario)[n].1)
    ensures var (leg, success) := Plays(scenario)[n]; var e := OnResult(p.tx, leg, success, a);
      && Healthy(Absorb(p, e)) && Absorb(p, e).tx.provenance == RailVerified
      && (e.fault == NoFault && n + 1 < |Plays(scenario)| ==> Behind(n + 1, Absorb(p, e).tx.state))
  {
    var (leg, success) := Plays(scenario)[n];
    if p.tx.state == AwaitingState(leg) {
      TimelyPlay(p, leg, success, a);
    } else {
      LatePlay(p, n, leg, success, a);
    }
  }

  lemma TimelyPlay(p: Payment, leg: Leg, success: bool, a: Answers)
    requires Healthy(p) && p.tx.provenance == RailVerified && AcceptsAll(a) && p.tx.state == AwaitingState(leg)
    ensures var q := Absorb(p, OnResult(p.tx, leg, success, a));
      && Healthy(q) && q.tx.provenance == RailVerified
      && (leg == Deposit && success ==> q.tx.state == PayoutPending)
      && (leg == Payout && !success ==> q.tx.state == RefundPending)
  {
    HandlersAreLocal(p.tx, leg, success, a);
    match leg
    case Deposit => DepositStep(p, success, a);
    case Payout => PayoutStep(p, success, a);
    case Refund => RefundStep(p, success);
  }

  lemma LatePlay(p: Payment, n: nat, leg: Leg, success: bool, a: Answers)
    requires Canonical(p) && Behind(n, p.tx.state) && p.tx.state != AwaitingState(leg)
    requires n == match leg case Deposit => 0 case Payout => 1 case Refund => 2
    requires !LeavesReview(p.tx.state, leg, success)
    ensures var e := OnResult(p.tx, leg, success, a); e.fault != NoFault && Absorb(p, e) == p
  {
    assert p.books + [] == p.books && p.calls + [] == p.calls && p.trace + [] == p.trace;
    var dst := match leg
      case Deposit => if success then CollectionSucceeded else CollectionFailed
      case Payout => if success then PayoutSucceeded else PayoutFailed
      case Refund => if success then Refunded else ManualReview;
    assert !CanTransition(p.tx.state, dst);
    assert OnResult(p.tx, leg, success, a) == Raise(p.tx, IllegalTransition(p.tx.state, dst));
  }

  lemma PlayingStands(w: World, n: nat, r: Request, plan: RailPlan)
    requires Structured(w) && Placed(w, Playing(n), r) && Standing(PaymentOf(w, r.0), Playing(n), r)
    requires !LeavesReview(w.txs[r.0].state, Plays(r.1.scenario)[n].0, Plays(r.1.scenario)[n].1)
    ensures var mv := Next(w, Playing(n), r, plan);
      r.0 in mv.world.txs && Standing(PaymentOf(mv.world, r.0), mv.pc, r)
  {
    WorkSeen(w, Playing(n), r, plan);
    PlayStands(PaymentOf(w, r.0), n, r.1.scenario, AnswersFor(r.1, plan, r.0));
  }

  lemma OpenedIsHealthy(r: Request, answer: Answer)
    requires r.1.amount.IsPositive()
    ensures var p := RoutedOpened(r.0, r.1, answer);
      && Healthy(p) && p.tx.provenance == RailVerified
      && p.tx.state == if answer.Accepted? then CollectionPending else CollectionFailed
  {
    DefaultFeeCovers(NewRouted(r.0, r.1));
    StartIsCanonical(NewRouted(r.0, r.1), answer);
    OpenedInSteps(NewRouted(r.0, r.1), answer);
  }

  lemma AnsweredStands(w: World, answer: Answer, r: Request, plan: RailPlan)
    requires Structured(w) && Placed(w, Answered(answer), r)
    ensures var mv := Next(w, Answered(answer), r, plan);
      r.0 in mv.world.txs && Standing(PaymentOf(mv.world, r.0), mv.pc, r) && mv.world.txs[r.0].state != ManualReview
  {
    AnsweredPlaced(w, answer, r, plan);
    OpenedIsHealthy(r, answer);
    var mv := Next(w, Answered(answer), r, plan);
    assert mv.world.txs[r.0] == PaymentOf(mv.world, r.0).tx;
  }

  /** Its own step, unless it would leave manual review. */
  lemma OwnKeepsStanding(w: World, pc: Pc, r: Request, plan: RailPlan)
    requires Structured(w) && Placed(w, pc, r) && (r.0 in w.txs ==> Standing(PaymentOf(w, r.0), pc, r))
    requires pc.Playing? && r.0 in w.txs ==>
      !LeavesReview(w.txs[r.0].state, Plays(r.1.scenario)[pc.played].0, Plays(r.1.scenario)[pc.played].1)
    ensures var mv := Next(w, pc, r, plan);
      r.0 in mv.world.txs ==> Standing(PaymentOf(mv.world, r.0), mv.pc, r)
  {
    match pc
    case Playing(n) => PlayingStands(w, n, r, plan);
    case Answered(answer) => AnsweredStands(w, answer, r, plan);
    case Saved => SavedStands(w, r, plan);
    case Waiting => SavedOrWaiting(w, pc, r, plan);
    case _ => RestingStands(w, pc, r, plan);
  }

  lemma RestingStands(w: World, pc: Pc, r: Request, plan: RailPlan)
    requires Structured(w) && Placed(w, pc, r) && !Working(pc, r)
    requires r.0 in w.txs ==> Standing(PaymentOf(w, r.0), pc, r)
    ensures var mv := Next(w, pc, r, plan);
      r.0 in mv.world.txs ==> Standing(PaymentOf(mv.world, r.0), mv.pc, r)
  {
    if Next(w, pc, r, plan).pc == Saved {
      AdoptSeen(w, Born(NewTx(r)));
    }
  }

  lemma SavedOrWaiting(w: World, pc: Pc, r: Request, plan: RailPlan)
    requires Structured(w) && Placed(w, pc, r) && (pc.Saved? || pc.Waiting?)
    ensures var mv := Next(w, pc, r, plan);
      && r.0 in mv.world.txs
      && PaymentOf(mv.world, r.0)
           == Opening(if pc.Saved? then Waiting else Answered(AnswersFor(r.1, plan, r.0).deposit), r)
  {
    WorkSeen(w, pc, r, plan);
    OpeningMoves(pc, r, AnswersFor(r.1, plan, r.0));
  }

  lemma SavedStands(w: World, r: Request, plan: RailPlan)
    requires Structured(w) && Placed(w, Saved, r)
    ensures var mv := Next(w, Saved, r, plan); r.0 in mv.world.txs && Standing(PaymentOf(mv.world, r.0), mv.pc, r)
  {
    SavedOrWaiting(w, Saved, r, plan);
    OpeningMoves(Saved, r, AnswersFor(r.1, plan, r.0));
    if !IsRouted(r.1) {
      StartedIsHealthy(r.0, r.1, plan);
    }
  }

  // ---- over every interleaving --------------------------------------------------------------------

  /** Nothing reports a failure about this payment just now, and what is asked of its rail is the simulator's
      to answer. */
  ghost predicate Kind(w: World, c: Choice, id: string) {
    c.Env? ==>
      && c.moment.plan(id) == SimulatedAnswers(id)
      && match c.moment.event
         case Callback(_, opId, outcome) => id in w.txs && Carries(w.txs[id], opId) ==> outcome != Failure
         case Polled(x, _, outcome) => x == id ==> outcome != Failure
         case _ => true
  }

  /** Nothing reports a failure about a request's payment while its outcomes are being played out. */
  ghost predicate PlayedKindly(s: System, rs: seq<Request>, cs: seq<Choice>, i: nat)
    requires SysInv(s, rs) && i < |rs|
    decreases |cs|
  {
    cs == [] ||
      (&& (s.pcs[i].Playing? ==> Kind(s.world, cs[0], rs[i].0))
       && (ScheduleKeepsInv(s, rs, cs[0]); PlayedKindly(Schedule(s, rs, cs[0]), rs, cs[1..], i)))
  }

  /** Scenarios with no play that could leave manual review. */
  predicate Harmless(scenario: string) {
    scenario == "success" || scenario == "refund_fail"
  }

  /** A request whose payment stands well: in place, and, if a play could take it out of manual review,
      not there. */
  ghost predicate WellAt(w: World, pc: Pc, r: Request) {
    r.0 in w.txs ==>
      && Standing(PaymentOf(w, r.0), pc, r)
      && (pc.Playing? && !Harmless(r.1.scenario) ==> w.txs[r.0].state != ManualReview)
  }

  ghost predicate StandsWell(s: System, rs: seq<Request>, i: nat)
    requires SysInv(s, rs) && i < |rs|
  {
    WellAt(s.world, s.pcs[i], rs[i])
  }

  lemma KindKeepsOutOfReview(w: World, m: Moment, id: string)
    requires Structured(w) && id in w.txs && Canonical(PaymentOf(w, id)) && w.txs[id].state != ManualReview
    requires Kind(w, Env(m), id)
    ensures id in Step(w, m).txs && Step(w, m).txs[id].state != ManualReview
  {
    StepOn(w, m, id);
    var p, a := PaymentOf(w, id), SimulatedAnswers(id);
    assert PaymentOf(Step(w, m), id).tx == Step(w, m).txs[id] && p.tx == w.txs[id];
    if (m.event.Callback? || m.event.Polled?) && PaymentOf(Step(w, m), id) != p {
      SuccessKeepsOutOfReview(p, m.event.kind, a);
    }
  }

  lemma SuccessKeepsOutOfReview(p: Payment, leg: Leg, a: Answers)
    requires Canonical(p) && p.tx.state != ManualReview && AcceptsAll(a)
    ensures ApplyOutcome(p, leg, true, a).tx.state != ManualReview
  {
    if p.tx.state == AwaitingState(leg) {
      match leg
      case Deposit => DepositStep(p, true, a);
      case Payout => PayoutStep(p, true, a);
      case Refund => RefundStep(p, true);
    }
  }

  lemma EnvStandsWell(s: System, rs: seq<Request>, i: nat, m: Moment)
    requires SysInv(s, rs) && i < |rs| && StandsWell(s, rs, i)
    requires !Harmless(rs[i].1.scenario) && s.pcs[i].Playing? ==> Kind(s.world, Env(m), rs[i].0)
    ensures SysInv(Schedule(s, rs, Env(m)), rs) && StandsWell(Schedule(s, rs, Env(m)), rs, i)
  {
    ScheduleKeepsInv(s, rs, Env(m));
    assert Placed(s.world, s.pcs[i], rs[i]);
    var id := rs[i].0;
    if Schedule(s, rs, Env(m)) != s {
      if id in s.world.txs {
        EnvKeepsStanding(s.world, m, s.pcs[i], rs[i]);
        if s.pcs[i].Playing? && !Harmless(rs[i].1.scenario) {
          KindKeepsOutOfReview(s.world, m, id);
        }
      } else {
        StepKeepsStructure(s.world, m);
      }
    }
  }

  lemma OwnStandsWell(s: System, rs: seq<Request>, i: nat, plan: RailPlan)
    requires SysInv(s, rs) && i < |rs| && StandsWell(s, rs, i)
    ensures SysInv(Schedule(s, rs, Proceed(i, plan)), rs) && StandsWell(Schedule(s, rs, Proceed(i, plan)), rs, i)
  {
    ScheduleKeepsInv(s, rs, Proceed(i, plan));
    assert Placed(s.world, s.pcs[i], rs[i]);
    OwnStaysWell(s.world, s.pcs[i], rs[i], plan);
  }

  lemma HarmlessNeverLeaves(n: nat, s: TxState, scenario: string)
    requires Harmless(scenario) && n < |Plays(scenario)|
    ensures !LeavesReview(s, Plays(scenario)[n].0, Plays(scenario)[n].1)
  {
  }

  lemma OwnStaysWell(w: World, pc: Pc, r: Request, plan: RailPlan)
    requires Structured(w) && Placed(w, pc, r) && WellAt(w, pc, r)
    ensures var mv := Next(w, pc, r, plan); WellAt(mv.world, mv.pc, r)
  {
    if pc.Playing? && Harmless(r.1.scenario) {
      HarmlessNeverLeaves(pc.played, w.txs[r.0].state, r.1.scenario);
    }
    OwnKeepsStanding(w, pc, r, plan);
    if Next(w, pc, r, plan).pc.Playing? {
      PlayingIsNotReview(w, pc, r, plan);
    }
  }

  /** A play-out goes on only from where its own outcomes put the payment. */
  lemma PlayingIsNotReview(w: World, pc: Pc, r: Request, plan: RailPlan)
    requires Structured(w) && Placed(w, pc, r) && Next(w, pc, r, plan).pc.Playing?
    requires r.0 in w.txs ==> Standing(PaymentOf(w, r.0), pc, r)
    ensures var v := Next(w, pc, r, plan).world; r.0 in v.txs && v.txs[r.0].state != ManualReview
  {
    if pc.Answered? {
      AnsweredStands(w, pc.answer, r, plan);
    } else {
      var a := AnswersFor(r.1, plan, r.0);
      WorkSeen(w, pc, r, plan);
      PlayGoesOn(PaymentOf(w, r.0), pc.played, r.1.scenario, a);
    }
  }

  lemma PlayGoesOn(p: Payment, n: nat, scenario: string, a: Answers)
    requires Healthy(p) && p.tx.provenance == RailVerified && Behind(n, p.tx.state) && AcceptsAll(a)
    requires n + 1 < |Plays(scenario)|
    requires OnResult(p.tx, Plays(scenario)[n].0, Plays(scenario)[n].1, a).fault == NoFault
    ensures OnResult(p.tx, Plays(scenario)[n].0, Plays(scenario)[n].1, a).tx.state != ManualReview
  {
    var (leg, success) := Plays(scenario)[n];
    if p.tx.state == AwaitingState(leg) {
      TimelyPlay(p, leg, success, a);
    } else {
      LatePlay(p, n, leg, success, a);
    }
  }

  lemma OtherStandsWell(s: System, rs: seq<Request>, i: nat, j: nat, plan: RailPlan)
    requires SysInv(s, rs) && i < |rs| && j != i && StandsWell(s, rs, i)
    ensures SysInv(Schedule(s, rs, Proceed(j, plan)), rs) && StandsWell(Schedule(s, rs, Proceed(j, plan)), rs, i)
  {
    ScheduleKeepsInv(s, rs, Proceed(j, plan));
    if j < |rs| {
      assert Placed(s.world, s.pcs[j], rs[j]) && rs[j].0 != rs[i].0;
      OthersLeft(s.world, s.pcs[j], rs[j], plan, rs[i].0);
    }
  }

  /** A request's step touches no payment but its own. */
  lemma OthersLeft(w: World, pc: Pc, r: Request, plan: RailPlan, k: string)
    requires Structured(w) && Placed(w, pc, r) && k != r.0
    ensures var v := Next(w, pc, r, plan).world;
      (k in v.txs <==> k in w.txs) && (k in w.txs ==> PaymentOf(v, k) == PaymentOf(w, k))
  {
    if Working(pc, r) {
      WorkSeen(w, pc, r, plan);
    } else if Next(w, pc, r, plan).pc == Saved {
      AdoptSeen(w, Born(NewTx(r)));
    }
  }

  lemma ChoiceStandsWell(s: System, rs: seq<Request>, i: nat, c: Choice)
    requires SysInv(s, rs) && i < |rs| && StandsWell(s, rs, i)
    requires !Harmless(rs[i].1.scenario) && s.pcs[i].Playing? ==> Kind(s.world, c, rs[i].0)
    ensures SysInv(Schedule(s, rs, c), rs) && StandsWell(Schedule(s, rs, c), rs, i)
  {
    match c
    case Env(m) => EnvStandsWell(s, rs, i, m);
    case Proceed(j, plan) =>
      if j == i {
        OwnStandsWell(s, rs, i, plan);
      } else {
        OtherStandsWell(s, rs, i, j, plan);
      }
  }

  lemma {:induction false} RequestStandsWell(s: System, rs: seq<Request>, cs: seq<Choice>, i: nat)
    requires SysInv(s, rs) && i < |rs| && StandsWell(s, rs, i)
    requires Harmless(rs[i].1.scenario) || !PlaysOut(rs[i].1) || !IsRouted(rs[i].1) || PlayedKindly(s, rs, cs, i)
    ensures SysInv(Interleave(s, rs, cs), rs) && StandsWell(Interleave(s, rs, cs), rs, i)
    decreases |cs|
  {
    if cs != [] {
      assert Placed(s.world, s.pcs[i], rs[i]);
      ChoiceStandsWell(s, rs, i, cs[0]);
      RequestStandsWell(Schedule(s, rs, cs[0]), rs, cs[1..], i);
    }
  }

  /** A payment that is none of the requests'. */
  lemma ForeignStaysHealthy(s: System, rs: seq<Request>, c: Choice, id: string)
    requires SysInv(s, rs) && (forall i | 0 <= i < |rs| :: rs[i].0 != id)
    requires id in s.world.txs ==> Healthy(PaymentOf(s.world, id))
    ensures SysInv(Schedule(s, rs, c), rs)
    ensures id in Schedule(s, rs, c).world.txs ==> Healthy(PaymentOf(Schedule(s, rs, c).world, id))
  {
    ScheduleKeepsInv(s, rs, c);
    match c
    case Proceed(j, plan) =>
      if j < |rs| {
        assert Placed(s.world, s.pcs[j], rs[j]);
        OthersLeft(s.world, s.pcs[j], rs[j], plan, id);
      }
    case Env(m) =>
      if Schedule(s, rs, c) != s {
        StepKeepsStructure(s.world, m);
        if id in s.world.txs {
          StepKeepsHealth(s.world, m, id);
        }
      }
  }

  lemma {:induction false} ForeignIsHealthy(s: System, rs: seq<Request>, cs: seq<Choice>, id: string)
    requires SysInv(s, rs) && (forall i | 0 <= i < |rs| :: rs[i].0 != id)
    requires id in s.world.txs ==> Healthy(PaymentOf(s.world, id))
    ensures var u := Interleave(s, rs, cs); id in u.world.txs ==> Healthy(PaymentOf(u.world, id))
    decreases |cs|
  {
    if cs != [] {
      ForeignStaysHealthy(s, rs, cs[0], id);
      ForeignIsHealthy(Schedule(s, rs, cs[0]), rs, cs[1..], id);
    }
  }

  /** Whichever request plays this payment's outcomes out, the scenario is harmless, or no failure is reported
      about the payment meanwhile. */
  ghost predicate PlayedSafely(s: System, rs: seq<Request>, cs: seq<Choice>, id: string)
    requires SysInv(s, rs)
  {
    forall i | 0 <= i < |rs| && rs[i].0 == id && PlaysOut(rs[i].1) && IsRouted(rs[i].1) ::
      Harmless(rs[i].1.scenario) || PlayedKindly(s, rs, cs, i)
  }

  /** The theorem. In every interleaving of starting requests with each other and with every other event,
      every payment's books follow its state, its history is sound and its requests are disciplined, at
      every moment, half started or not; of a payment whose outcomes are played out this asks that the
      scenario be harmless, or that no failure be reported about it meanwhile. */
  lemma PaymentsStayFit(ms: seq<Moment>, rs: seq<Request>, cs: seq<Choice>, id: string)
    requires Fresh(ms, rs)
    ensures SysInv(Initial(ms, rs), rs)
    ensures var w := Interleave(Initial(ms, rs), rs, cs).world;
      id in w.txs && PlayedSafely(Initial(ms, rs), rs, cs, id) ==> Fit(PaymentOf(w, id))
  {
    InitialInv(ms, rs);
    var s := Initial(ms, rs);
    var u := Interleave(s, rs, cs);
    if id in u.world.txs && PlayedSafely(s, rs, cs, id) {
      StayFit(ms, rs, cs, id);
    }
  }

  lemma StayFit(ms: seq<Moment>, rs: seq<Request>, cs: seq<Choice>, id: string)
    requires Fresh(ms, rs) && SysInv(Initial(ms, rs), rs) && id in Interleave(Initial(ms, rs), rs, cs).world.txs
    requires PlayedSafely(Initial(ms, rs), rs, cs, id)
    ensures Fit(PaymentOf(Interleave(Initial(ms, rs), rs, cs).world, id))
  {
    var s := Initial(ms, rs);
    var u := Interleave(s, rs, cs);
    if i :| 0 <= i < |rs| && rs[i].0 == id {
      RequestStandsWell(s, rs, cs, i);
      assert Placed(u.world, u.pcs[i], rs[i]);
      StandingIsFit(PaymentOf(u.world, id), u.pcs[i], rs[i]);
    } else {
      ForeignIsHealthy(s, rs, cs, id);
      HealthyIsFit(PaymentOf(u.world, id));
    }
  }

  // ---- on the simulator -----------------------------------------------------------------------------

  /** What a server on the simulator goes through: the simulator answers, and its polls never read as a
      failure (`Simulators.SimulatorNeverFails`). A callback may say anything. */
  ghost predicate OnSimulator(cs: seq<Choice>) {
    forall c | c in cs ::
      if c.Proceed? then c.plan == SimPlan()
      else c.moment.plan == SimPlan() && (c.moment.event.Polled? ==> c.moment.event.outcome != Failure)
  }

  ghost predicate NoFailedCallback(cs: seq<Choice>) {
    forall c | c in cs :: c.Env? && c.moment.event.Callback? ==> c.moment.event.outcome != Failure
  }

  lemma {:induction false} SuccessesAreKind(s: System, rs: seq<Request>, cs: seq<Choice>, i: nat)
    requires SysInv(s, rs) && i < |rs| && OnSimulator(cs) && NoFailedCallback(cs)
    ensures PlayedKindly(s, rs, cs, i)
    decreases |cs|
  {
    if cs != [] {
      assert cs[0] in cs;
      ScheduleKeepsInv(s, rs, cs[0]);
      SuccessesAreKind(Schedule(s, rs, cs[0]), rs, cs[1..], i);
    }
  }

  /** All the simulator reports by itself is success. So unless a callback reports a failure, every payment
      on it stays fit in every interleaving, whatever its scenario. */
  lemma SimulatorKeepsFit(ms: seq<Moment>, rs: seq<Request>, cs: seq<Choice>, id: string)
    requires Fresh(ms, rs) && OnSimulator(cs) && NoFailedCallback(cs)
    ensures SysInv(Initial(ms, rs), rs)
    ensures var w := Interleave(Initial(ms, rs), rs, cs).world; id in w.txs ==> Fit(PaymentOf(w, id))
  {
    InitialInv(ms, rs);
    forall i | 0 <= i < |rs| ensures PlayedKindly(Initial(ms, rs), rs, cs, i) {
      SuccessesAreKind(Initial(ms, rs), rs, cs, i);
    }
    PaymentsStayFit(ms, rs, cs, id);
  }

  // ---- and where they fail -----------------------------------------------------------------------

  /** No other transaction carries the ids the simulator gives to this one. */
  ghost predicate Unclaimed(w: World, id: string) {
    forall k, leg | k in w.txs && k != id :: !Carries(w.txs[k], SimId(id, leg))
  }

  /** On the simulator none ever does. */
  lemma UnclaimedOnSimulator(ms: seq<Moment>, id: string)
    requires forall m | m in ms :: m.plan == SimPlan()
    ensures Unclaimed(Reached(ms), id)
  {
    var w := Reached(ms);
    ReachedFollows(ms, SimPlan());
    forall k, leg | k in w.txs && k != id ensures !Carries(w.txs[k], SimId(id, leg)) {
      forall own ensures OpId(w.txs[k], own) != Some(SimId(id, leg)) {
        if OpId(w.txs[k], own) == Some(SimId(id, leg)) {
          SimIdsDiffer(k, own, id, leg);
        }
      }
      assert OpId(w.txs[k], Deposit) == w.txs[k].depositId;
      assert OpId(w.txs[k], Payout) == w.txs[k].payoutId;
      assert OpId(w.txs[k], Refund) == w.txs[k].refundId;
    }
  }

  lemma StaysUnclaimed(w: World, v: World, id: string)
    requires Unclaimed(w, id) && forall k | k in v.txs && k != id :: k in w.txs && PaymentOf(v, k) == PaymentOf(w, k)
    ensures Unclaimed(v, id)
  {
    forall k, leg | k in v.txs && k != id ensures !Carries(v.txs[k], SimId(id, leg)) {
      assert PaymentOf(v, k).tx == v.txs[k] && PaymentOf(w, k).tx == w.txs[k];
    }
  }

  /** A report on a simulated payment, by callback. */
  function Report(id: string, leg: Leg, outcome: Outcome): Choice {
    Env(Moment(Callback(leg, SimId(id, leg), outcome), SimPlan()))
  }

  lemma SoleCarrier(w: World, id: string, leg: Leg)
    requires Indexed(w) && Unclaimed(w, id) && id in w.txs && OpId(w.txs[id], leg) == Some(SimId(id, leg))
    ensures FirstWithOpId(w.order, w.txs, SimId(id, leg)) == Some(id)
  {
    assert Carries(w.txs[id], SimId(id, leg));
  }

  lemma Reported(s: System, rs: seq<Request>, id: string, leg: Leg, success: bool)
    requires SysInv(s, rs) && Unclaimed(s.world, id)
    requires id in s.world.txs && OpId(s.world.txs[id], leg) == Some(SimId(id, leg))
    ensures var t := Schedule(s, rs, Report(id, leg, if success then Success else Failure));
      && SysInv(t, rs) && t.pcs == s.pcs && id in t.world.txs && Unclaimed(t.world, id)
      && PaymentOf(t.world, id) == ApplyOutcome(PaymentOf(s.world, id), leg, success, SimulatedAnswers(id))
  {
    var c := Report(id, leg, if success then Success else Failure);
    var v := Schedule(s, rs, c).world;
    ScheduleKeepsInv(s, rs, c);
    SoleCarrier(s.world, id, leg);
    StepKeepsStructure(s.world, c.moment);
    forall k | k in s.world.txs
      ensures k in v.txs && PaymentOf(v, k) == if k == id
        then ApplyOutcome(PaymentOf(s.world, k), leg, success, SimulatedAnswers(id)) else PaymentOf(s.world, k)
    {
      StepOn(s.world, c.moment, k);
    }
    StaysUnclaimed(s.world, v, id);
  }

  /** A request's own turn claims nobody else's id. */
  lemma TurnClaimsNothing(s: System, rs: seq<Request>, i: nat, plan: RailPlan)
    requires SysInv(s, rs) && i < |rs| && Unclaimed(s.world, rs[i].0)
    ensures SysInv(Schedule(s, rs, Proceed(i, plan)), rs) && Unclaimed(Schedule(s, rs, Proceed(i, plan)).world, rs[i].0)
  {
    var v := Schedule(s, rs, Proceed(i, plan)).world;
    ScheduleKeepsInv(s, rs, Proceed(i, plan));
    assert Placed(s.world, s.pcs[i], rs[i]);
    forall k | k in v.txs && k != rs[i].0 ensures k in s.world.txs && PaymentOf(v, k) == PaymentOf(s.world, k) {
      OthersLeft(s.world, s.pcs[i], rs[i], plan, k);
    }
    StaysUnclaimed(s.world, v, rs[i].0);
  }

  lemma {:induction false} TurnsClaimNothing(s: System, rs: seq<Request>, i: nat, plan: RailPlan, n: nat)
    requires SysInv(s, rs) && i < |rs| && Unclaimed(s.world, rs[i].0)
    ensures Unclaimed(Interleave(s, rs, Turns(i, plan, n)).world, rs[i].0)
    decreases n
  {
    if n > 0 {
      TurnClaimsNothing(s, rs, i, plan);
      Prepend(s, rs, Proceed(i, plan), Turns(i, plan, n - 1));
      TurnsClaimNothing(Schedule(s, rs, Proceed(i, plan)), rs, i, plan, n - 1);
    }
  }

  lemma {:induction false} TurnsOnSimulator(i: nat, n: nat)
    ensures OnSimulator(Turns(i, SimPlan(), n))
  {
    if n > 0 {
      TurnsOnSimulator(i, n - 1);
    }
  }

  lemma PlayedNow(s: System, rs: seq<Request>, i: nat, n: nat, plan: RailPlan)
    requires SysInv(s, rs) && i < |rs| && s.pcs[i] == Playing(n)
    ensures rs[i].0 in s.world.txs && n < |Plays(rs[i].1.scenario)|
    ensures var t := Schedule(s, rs, Proceed(i, plan)); var (leg, success) := Plays(rs[i].1.scenario)[n];
      var p := PaymentOf(s.world, rs[i].0); var e := OnResult(p.tx, leg, success, SimulatedAnswers(rs[i].0));
      && SysInv(t, rs) && rs[i].0 in t.world.txs && PaymentOf(t.world, rs[i].0) == Absorb(p, e)
      && t.pcs[i] == if e.fault != NoFault then Done(Raised(e.fault)) else Onward(Playing(n), rs[i], SimulatedAnswers(rs[i].0))
  {
    assert Placed(s.world, s.pcs[i], rs[i]);
    ScheduleKeepsInv(s, rs, Proceed(i, plan));
    WorkSeen(s.world, Playing(n), rs[i], plan);
  }

  lemma SimulatedOpening(id: string, o: PaymentOrder)
    requires o.amount.IsPositive()
    ensures var p := RoutedOpened(id, o, SimulatedAnswers(id).deposit);
      Canonical(p) && p.tx.state == CollectionPending && p.tx.depositId == Some(SimId(id, Deposit)) && p.tx.id == id
  {
    DefaultFeeCovers(NewRouted(id, o));
    StartIsCanonical(NewRouted(id, o), SimulatedAnswers(id).deposit);
    OpenedInSteps(NewRouted(id, o), SimulatedAnswers(id).deposit);
  }

  lemma SimulatedDeposit(p: Payment)
    requires Canonical(p) && p.tx.state == CollectionPending
    ensures var e := OnCollection(p.tx, true, SimulatedAnswers(p.tx.id));
      && e.fault == NoFault && Canonical(Absorb(p, e)) && e.tx.id == p.tx.id
      && e.tx.state == PayoutPending && e.tx.payoutId == Some(SimId(p.tx.id, Payout))
  {
    var a := SimulatedAnswers(p.tx.id);
    DepositStep(p, true, a);
    HandlersAsAnswered(p.tx, Deposit, true, a);
    HandlersKeepTerms(p.tx, Deposit, true, a);
    StoredAsIssued(p.tx, OnCollection(p.tx, true, a), a, Payout);
  }

  lemma StoredAsIssued(t: Tx, e: Effect, a: Answers, leg: Leg)
    requires AsAnswered(t, e, a) && OpId(t, leg) == None && OpId(e.tx, leg).Some?
    ensures OpId(e.tx, leg) == Issued(AnswerFor(a, leg))
  {
  }

  lemma SimulatedPayoutFailure(p: Payment)
    requires Canonical(p) && p.tx.state == PayoutPending
    ensures var e := OnPayout(p.tx, false, SimulatedAnswers(p.tx.id));
      && e.fault == NoFault && Canonical(Absorb(p, e)) && e.tx.id == p.tx.id
      && e.tx.state == RefundPending && e.tx.refundId == Some(SimId(p.tx.id, Refund))
  {
    var a := SimulatedAnswers(p.tx.id);
    PayoutStep(p, false, a);
    HandlersAsAnswered(p.tx, Payout, false, a);
    HandlersKeepTerms(p.tx, Payout, false, a);
    StoredAsIssued(p.tx, OnPayout(p.tx, false, a), a, Refund);
  }

  /** Out of manual review by a refund played out: refunded, by a path one state too long. */
  lemma RefundOutOfReview(p: Payment)
    requires Canonical(p) && p.tx.state == ManualReview
    ensures var e := OnRefund(p.tx, true);
      e.fault == NoFault && e.tx.state == Refunded && |e.tx.history| == 8 && !Fit(Absorb(p, e))
  {
    RefundPostingBalances(Enter(p.tx, Refunded).tx);
  }

  /** Or by a failed collection: declined, with the collection on its books. */
  lemma DeclineOutOfReview(p: Payment, a: Answers)
    requires Canonical(p) && p.tx.state == ManualReview
    ensures var e := OnCollection(p.tx, false, a);
      && e.fault == NoFault && e.tx.state == CollectionFailed
      && Absorb(p, e).books == [CollectionPosting(p.tx)] && !Fit(Absorb(p, e))
  {
    var q := Absorb(p, OnCollection(p.tx, false, a));
    AbsorbEnter(p, CollectionFailed);
    CostBounds(p.tx.amount, p.tx.customerProvider);
    CollectionEntry(p.tx.amount, CollectionCost(p.tx.amount, p.tx.customerProvider), Customer, p.tx.amount.currency);
    NetOfTwo(CollectionPosting(p.tx), CollectionPosting(p.tx), Customer, p.tx.amount.currency);
    assert Net(q.books, Customer, q.tx.amount.currency) != Expected(q.tx, Customer);
  }

  /** A canonical payment in a given state, with the simulator's id for the leg it awaits. */
  ghost predicate RestsIn(p: Payment, state: TxState) {
    && Canonical(p) && p.tx.state == state
    && match LegForState(state) case None => true case Some(leg) => OpId(p.tx, leg) == Some(SimId(p.tx.id, leg))
  }

  ghost predicate Rests(s: System, id: string, state: TxState) {
    && id in s.world.txs && s.world.txs[id].id == id && RestsIn(PaymentOf(s.world, id), state)
    && Unclaimed(s.world, id)
  }

  /** On the way to review: the deposit done, the payout failed, the refund failed. */
  function TowardReview(leg: Leg): TxState {
    match leg
    case Deposit => PayoutPending
    case Payout => RefundPending
    case Refund => ManualReview
  }

  lemma MovesTowardReview(p: Payment, leg: Leg, success: bool)
    requires RestsIn(p, AwaitingState(leg)) && (leg == Deposit <==> success)
    ensures var e := OnResult(p.tx, leg, success, SimulatedAnswers(p.tx.id));
      e.fault == NoFault && RestsIn(Absorb(p, e), TowardReview(leg)) && e.tx.id == p.tx.id
  {
    match leg
    case Deposit => SimulatedDeposit(p);
    case Payout => SimulatedPayoutFailure(p);
    case Refund =>
      RefundStep(p, false);
      HandlersKeepTerms(p.tx, Refund, false, SimulatedAnswers(p.tx.id));
  }

  /** One report, and where it takes the payment. */
  lemma ReportMoves(s: System, rs: seq<Request>, id: string, leg: Leg, success: bool) returns (t: System)
    requires SysInv(s, rs) && Rests(s, id, AwaitingState(leg)) && (leg == Deposit <==> success)
    ensures t == Schedule(s, rs, Report(id, leg, if success then Success else Failure))
    ensures SysInv(t, rs) && t.pcs == s.pcs && Rests(t, id, TowardReview(leg))
  {
    t := Schedule(s, rs, Report(id, leg, if success then Success else Failure));
    MovesTowardReview(PaymentOf(s.world, id), leg, success);
    assert PaymentOf(s.world, id).tx == s.world.txs[id];
    Reported(s, rs, id, leg, success);
  }

  /** One play, of a deposit that succeeds or of a payout that fails. */
  lemma PlayMoves(s: System, rs: seq<Request>, i: nat, n: nat, leg: Leg, success: bool, plan: RailPlan) returns (t: System)
    requires SysInv(s, rs) && i < |rs| && s.pcs[i] == Playing(n) && n + 1 < |Plays(rs[i].1.scenario)|
    requires Plays(rs[i].1.scenario)[n] == (leg, success) && (leg == Deposit <==> success)
    requires Rests(s, rs[i].0, AwaitingState(leg))
    ensures t == Schedule(s, rs, Proceed(i, plan))
    ensures SysInv(t, rs) && t.pcs[i] == Playing(n + 1) && Rests(t, rs[i].0, TowardReview(leg))
  {
    t := Schedule(s, rs, Proceed(i, plan));
    var p, a := PaymentOf(s.world, rs[i].0), SimulatedAnswers(rs[i].0);
    MovesTowardReview(p, leg, success);
    TurnClaimsNothing(s, rs, i, plan);
    PlayLands(s, rs, i, n, plan, Absorb(p, OnResult(p.tx, leg, success, a)));
  }

  lemma PlayLands(s: System, rs: seq<Request>, i: nat, n: nat, plan: RailPlan, q: Payment)
    requires SysInv(s, rs) && i < |rs| && s.pcs[i] == Playing(n) && n + 1 < |Plays(rs[i].1.scenario)|
    requires rs[i].0 in s.world.txs
    requires var (leg, success) := Plays(rs[i].1.scenario)[n];
      var p := PaymentOf(s.world, rs[i].0); var e := OnResult(p.tx, leg, success, SimulatedAnswers(rs[i].0));
      e.fault == NoFault && q == Absorb(p, e)
    ensures var t := Schedule(s, rs, Proceed(i, plan));
      && SysInv(t, rs) && rs[i].0 in t.world.txs && PaymentOf(t.world, rs[i].0) == q && t.pcs[i] == Playing(n + 1)
  {
    PlayedNow(s, rs, i, n, plan);
  }

  /** What an unguarded play makes of a payment under review: refunded by a path one state too long, or
      declined with the collection still on its books. */
  ghost predicate Broken(p: Payment) {
    && !Fit(p)
    && ((p.tx.state == Refunded && |p.tx.history| == 8) || (p.tx.state == CollectionFailed && p.books != []))
  }

  lemma OutOfReview(p: Payment, leg: Leg, success: bool, a: Answers)
    requires RestsIn(p, ManualReview) && LeavesReview(p.tx.state, leg, success)
    ensures Broken(Absorb(p, OnResult(p.tx, leg, success, a)))
  {
    if leg == Refund {
      RefundOutOfReview(p);
    } else {
      DeclineOutOfReview(p, a);
    }
  }

  ghost predicate BrokenAt(s: System, id: string) {
    id in s.world.txs && Broken(PaymentOf(s.world, id))
  }

  /** The play that does it. */
  lemma PlayBreaks(s: System, rs: seq<Request>, i: nat, n: nat) returns (cs: seq<Choice>)
    requires Doomed(s, rs, i, n, ManualReview)
    ensures BrokenUnder(s, rs, cs, rs[i].0)
  {
    var q := PlayYieldsBroken(s, rs, i, n);
    BrokenNow(s, rs, Proceed(i, SimPlan()), rs[i].0, q);
    cs := [Proceed(i, SimPlan())];
  }

  lemma PlayYieldsBroken(s: System, rs: seq<Request>, i: nat, n: nat) returns (q: Payment)
    requires Doomed(s, rs, i, n, ManualReview)
    ensures var t := Schedule(s, rs, Proceed(i, SimPlan()));
      SysInv(t, rs) && rs[i].0 in t.world.txs && PaymentOf(t.world, rs[i].0) == q && Broken(q)
  {
    var p, play := PaymentOf(s.world, rs[i].0), Plays(rs[i].1.scenario)[n];
    OutOfReview(p, play.0, play.1, SimulatedAnswers(rs[i].0));
    q := Absorb(p, OnResult(p.tx, play.0, play.1, SimulatedAnswers(rs[i].0)));
    PlayYields(s, rs, i, n, q);
  }

  lemma PlayYields(s: System, rs: seq<Request>, i: nat, n: nat, q: Payment)
    requires SysInv(s, rs) && i < |rs| && n < |Plays(rs[i].1.scenario)| && s.pcs[i] == Playing(n) && rs[i].0 in s.world.txs
    requires s.world.txs[rs[i].0].amount.currency == s.world.txs[rs[i].0].fee.currency
    requires var play, p := Plays(rs[i].1.scenario)[n], PaymentOf(s.world, rs[i].0);
      q == Absorb(p, OnResult(p.tx, play.0, play.1, SimulatedAnswers(rs[i].0)))
    ensures var t := Schedule(s, rs, Proceed(i, SimPlan()));
      SysInv(t, rs) && rs[i].0 in t.world.txs && PaymentOf(t.world, rs[i].0) == q
  {
    PlayedNow(s, rs, i, n, SimPlan());
  }

  lemma BrokenNow(s: System, rs: seq<Request>, c: Choice, id: string, q: Payment)
    requires SysInv(s, rs) && OnSimulator([c]) && Broken(q)
    requires id in Schedule(s, rs, c).world.txs && PaymentOf(Schedule(s, rs, c).world, id) == q
    ensures BrokenUnder(s, rs, [c], id)
  {
    OneChoice(s, rs, c);
  }

  ghost predicate BrokenUnder(s: System, rs: seq<Request>, cs: seq<Choice>, id: string)
    requires SysInv(s, rs)
  {
    SysInv(Interleave(s, rs, cs), rs) && BrokenAt(Interleave(s, rs, cs), id) && OnSimulator(cs)
  }

  lemma BrokenEarlier(s: System, rs: seq<Request>, c: Choice, t: System, cs: seq<Choice>, id: string)
    requires SysInv(s, rs) && SysInv(t, rs) && t == Schedule(s, rs, c) && BrokenUnder(t, rs, cs, id) && OnSimulator([c])
    ensures BrokenUnder(s, rs, [c] + cs, id)
  {
    Prepend(s, rs, c, cs);
  }

  /** A payment in play, on its way to a play that would break it. */
  ghost predicate Doomed(s: System, rs: seq<Request>, i: nat, n: nat, state: TxState) {
    && SysInv(s, rs) && i < |rs| && n < |Plays(rs[i].1.scenario)| && s.pcs[i] == Playing(n)
    && Rests(s, rs[i].0, state)
    && LeavesReview(ManualReview, Plays(rs[i].1.scenario)[n].0, Plays(rs[i].1.scenario)[n].1)
  }

  lemma ReportDooms(s: System, rs: seq<Request>, i: nat, n: nat, leg: Leg) returns (t: System)
    requires Doomed(s, rs, i, n, AwaitingState(leg))
    ensures t == Schedule(s, rs, Report(rs[i].0, leg, if leg == Deposit then Success else Failure))
    ensures Doomed(t, rs, i, n, TowardReview(leg))
  {
    t := ReportMoves(s, rs, rs[i].0, leg, leg == Deposit);
  }

  lemma RefundReportBreaks(s: System, rs: seq<Request>, i: nat, n: nat) returns (cs: seq<Choice>)
    requires Doomed(s, rs, i, n, RefundPending)
    ensures BrokenUnder(s, rs, cs, rs[i].0)
  {
    var c := Report(rs[i].0, Refund, Failure);
    var t := ReportDooms(s, rs, i, n, Refund);
    var rest := PlayBreaks(t, rs, i, n);
    BrokenEarlier(s, rs, c, t, rest, rs[i].0);
    cs := [c] + rest;
  }

  lemma PayoutReportBreaks(s: System, rs: seq<Request>, i: nat, n: nat) returns (cs: seq<Choice>)
    requires Doomed(s, rs, i, n, PayoutPending)
    ensures BrokenUnder(s, rs, cs, rs[i].0)
  {
    var c := Report(rs[i].0, Payout, Failure);
    var t := ReportDooms(s, rs, i, n, Payout);
    var rest := RefundReportBreaks(t, rs, i, n);
    BrokenEarlier(s, rs, c, t, rest, rs[i].0);
    cs := [c] + rest;
  }

  /** Three reports take a payment all the way to review before the play comes. */
  lemma DepositReportBreaks(s: System, rs: seq<Request>, i: nat, n: nat) returns (cs: seq<Choice>)
    requires Doomed(s, rs, i, n, CollectionPending)
    ensures BrokenUnder(s, rs, cs, rs[i].0)
  {
    var c := Report(rs[i].0, Deposit, Success);
    var t := ReportDooms(s, rs, i, n, Deposit);
    var rest := PayoutReportBreaks(t, rs, i, n);
    BrokenEarlier(s, rs, c, t, rest, rs[i].0);
    cs := [c] + rest;
  }

  /** A payment in play, all of whose plays so far took it toward review. */
  ghost predicate RefundPlayed(s: System, rs: seq<Request>, i: nat, n: nat, state: TxState) {
    && SysInv(s, rs) && i < |rs| && s.pcs[i] == Playing(n) && Rests(s, rs[i].0, state)
    && Plays(rs[i].1.scenario) == [(Deposit, true), (Payout, false), (Refund, true)]
  }

  lemma PlayOn(s: System, rs: seq<Request>, i: nat, n: nat, leg: Leg, from: TxState, to: TxState)
    returns (c: Choice, t: System)
    requires from == AwaitingState(leg) && to == TowardReview(leg)
    requires RefundPlayed(s, rs, i, n, from) && n < 2 && leg == if n == 0 then Deposit else Payout
    ensures t == Schedule(s, rs, c) && OnSimulator([c]) && RefundPlayed(t, rs, i, n + 1, to)
  {
    c := Proceed(i, SimPlan());
    t := PlayMoves(s, rs, i, n, leg, leg == Deposit, SimPlan());
  }

  lemma LastPlayDooms(s: System, rs: seq<Request>, i: nat)
    requires RefundPlayed(s, rs, i, 2, RefundPending)
    ensures Doomed(s, rs, i, 2, RefundPending)
  {
  }

  /** In a scenario that plays a refund out, a report that the refund failed comes before the play that it
      succeeded. */
  lemma PlaysBreak(s: System, rs: seq<Request>, i: nat) returns (cs: seq<Choice>)
    requires RefundPlayed(s, rs, i, 0, CollectionPending)
    ensures BrokenUnder(s, rs, cs, rs[i].0)
  {
    var c, t := PlayOn(s, rs, i, 0, Deposit, CollectionPending, PayoutPending);
    var rest := PayoutThenBreak(t, rs, i);
    BrokenEarlier(s, rs, c, t, rest, rs[i].0);
    cs := [c] + rest;
  }

  lemma PayoutThenBreak(s: System, rs: seq<Request>, i: nat) returns (cs: seq<Choice>)
    requires RefundPlayed(s, rs, i, 1, PayoutPending)
    ensures BrokenUnder(s, rs, cs, rs[i].0)
  {
    var c, t := PlayOn(s, rs, i, 1, Payout, PayoutPending, RefundPending);
    LastPlayDooms(t, rs, i);
    var rest := RefundReportBreaks(t, rs, i, 2);
    BrokenEarlier(s, rs, c, t, rest, rs[i].0);
    cs := [c] + rest;
  }

  lemma PlaysARefund(scenario: string)
    requires !Harmless(scenario) && scenario != "collection_fail"
    ensures Plays(scenario) == [(Deposit, true), (Payout, false), (Refund, true)]
  {
  }

  /** Whether a schedule leaves a request's payment fit. */
  ghost predicate FitUnder(ms: seq<Moment>, rs: seq<Request>, cs: seq<Choice>, i: nat)
    requires Fresh(ms, rs) && i < |rs|
  {
    InitialInv(ms, rs);
    var w := Interleave(Initial(ms, rs), rs, cs).world;
    InterleaveKeepsInv(Initial(ms, rs), rs, cs);
    rs[i].0 in w.txs ==> Fit(PaymentOf(w, rs[i].0))
  }

  /** A request that makes a routed payment under a free key, and plays out for it on the simulator a declined
      collection or a refund that succeeds. */
  ghost predicate Breakable(ms: seq<Moment>, r: Request) {
    && Lookup(Reached(ms), r.1.key) == None && r.1.amount.IsPositive()
    && PlaysOut(r.1) && IsRouted(r.1) && !Harmless(r.1.scenario)
  }

  /** The two failing inputs, reached with callbacks that name the payment's own ids: any scenario that plays
      a refund out, and the one that declines the collection. */
  lemma BreakingSchedule(ms: seq<Moment>, rs: seq<Request>, i: nat) returns (cs: seq<Choice>)
    requires Fresh(ms, rs) && i < |rs| && Breakable(ms, rs[i]) && Unclaimed(Reached(ms), rs[i].0)
    ensures OnSimulator(cs) && !FitUnder(ms, rs, cs, i)
  {
    var s := Initial(ms, rs);
    InitialInv(ms, rs);
    TurnsOpen(s, rs, i, SimPlan(), 5);
    TurnsClaimNothing(s, rs, i, SimPlan(), 5);
    TurnsOnSimulator(i, 5);
    var u, rest := Interleave(s, rs, Turns(i, SimPlan(), 5)), [];
    SimulatedOpening(rs[i].0, rs[i].1);
    assert PaymentOf(u.world, rs[i].0).tx == u.world.txs[rs[i].0];
    if rs[i].1.scenario == "collection_fail" {
      rest := DepositReportBreaks(u, rs, i, 0);
    } else {
      PlaysARefund(rs[i].1.scenario);
      rest := PlaysBreak(u, rs, i);
    }
    cs := Turns(i, SimPlan(), 5) + rest;
    InterleaveConcat(s, rs, Turns(i, SimPlan(), 5), rest);
  }

  /** The exact condition. Whatever is reported, only a breakable request's payment can ever be left unfit;
      and on the simulator, which itself reports no failure, some schedule of callbacks does it to every
      breakable one, as long as no other transaction carries its ids. */
  lemma UnfitIff(ms: seq<Moment>, rs: seq<Request>, i: nat)
    requires Fresh(ms, rs) && i < |rs|
    ensures (exists cs :: !FitUnder(ms, rs, cs, i)) ==> Breakable(ms, rs[i])
    ensures Unclaimed(Reached(ms), rs[i].0) ==>
      ((exists cs :: OnSimulator(cs) && !FitUnder(ms, rs, cs, i)) <==> Breakable(ms, rs[i]))
  {
    if cs :| !FitUnder(ms, rs, cs, i) {
      UnfitMeans(ms, rs, cs, i);
    }
    if Breakable(ms, rs[i]) && Unclaimed(Reached(ms), rs[i].0) {
      var cs := BreakingSchedule(ms, rs, i);
    }
  }

  /** On a server that has run on the simulator all along, no premise is left. */
  lemma UnfitOnSimulatorIff(ms: seq<Moment>, rs: seq<Request>, i: nat)
    requires Fresh(ms, rs) && i < |rs| && forall m | m in ms :: m.plan == SimPlan()
    ensures (exists cs :: OnSimulator(cs) && !FitUnder(ms, rs, cs, i)) <==> Breakable(ms, rs[i])
  {
    UnclaimedOnSimulator(ms, rs[i].0);
    UnfitIff(ms, rs, i);
  }

  lemma UnfitMeans(ms: seq<Moment>, rs: seq<Request>, cs: seq<Choice>, i: nat)
    requires Fresh(ms, rs) && i < |rs| && !FitUnder(ms, rs, cs, i)
    ensures Breakable(ms, rs[i])
  {
    var s := Initial(ms, rs);
    InitialInv(ms, rs);
    InterleaveKeepsInv(s, rs, cs);
    var u := Interleave(s, rs, cs);
    assert Placed(u.world, u.pcs[i], rs[i]);
    if Lookup(Reached(ms), rs[i].1.key).Some? {
      HeldKeyReturns(s, rs, cs, i);
    }
    if !PlaysOut(rs[i].1) || !IsRouted(rs[i].1) || Harmless(rs[i].1.scenario) {
      PaymentsStayFit(ms, rs, cs, rs[i].0);
    }
  }
}
