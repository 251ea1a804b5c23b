/** How a start comes out: alone exactly as the atomic start does; among others, when it can raise. */
module StartOutcomes {
  import opened Common
  import opened MoneyTypes
  import opened StateMachine
  import opened Transactions
  import opened Payments
  import opened Status
  import opened Worlds
  import opened Conservation
  import opened IdempotentStart

  // ---- alone, the steps are the atomic start ---------------------------------------------------

  /** One request run to its end with nothing in between. */
  function Solo(w: World, pc: Pc, r: Request, plan: RailPlan): Move
    requires Structured(w) && Placed(w, pc, r)
    decreases Left(pc, r)
  {
    if pc.Done? then Move(w, pc)
    else
      OwnStep(w, pc, r, plan);
      OwnStepIsProgress(w, pc, r, plan);
      var mv := Next(w, pc, r, plan);
      Solo(mv.world, mv.pc, r, plan)
  }

  lemma {:induction false} SoloStep(w: World, pc: Pc, r: Request, plan: RailPlan) returns (mv: Move)
    requires Structured(w) && Placed(w, pc, r) && !pc.Done?
    ensures mv == Next(w, pc, r, plan) && Structured(mv.world) && Placed(mv.world, mv.pc, r)
    ensures Solo(w, pc, r, plan) == Solo(mv.world, mv.pc, r, plan)
  {
    OwnStep(w, pc, r, plan);
    mv := Next(w, pc, r, plan);
  }

  /** A request at work on the newest payment of a world, whose other payments stay out of it. */
  ghost predicate AtWork(w: World, p: Payment, pc: Pc, r: Request) {
    && p.tx.id == r.0 && p.tx.amount.currency == p.tx.fee.currency && Working(pc, r)
    && Structured(Adopt(w, p)) && Placed(Adopt(w, p), pc, r)
  }

  lemma {:induction false} SoloWork(w: World, p: Payment, pc: Pc, r: Request, plan: RailPlan)
    returns (q: Payment, fault: Fault, next: Pc)
    requires AtWork(w, p, pc, r)
    ensures q == Absorb(p, Work(pc, p.tx, r, AnswersFor(r.1, plan, r.0)))
    ensures fault == Work(pc, p.tx, r, AnswersFor(r.1, plan, r.0)).fault
    ensures next == if fault != NoFault then Done(Raised(fault)) else Onward(pc, r, AnswersFor(r.1, plan, r.0))
    ensures q.tx.id == r.0 && q.tx.amount.currency == q.tx.fee.currency
    ensures Structured(Adopt(w, q)) && Placed(Adopt(w, q), next, r)
    ensures Solo(Adopt(w, p), pc, r, plan) == Solo(Adopt(w, q), next, r, plan)
  {
    var a := AnswersFor(r.1, plan, r.0);
    WorkIsLocal(pc, p.tx, r, a);
    AdoptThenCommit(w, p, Work(pc, p.tx, r, a));
    q, fault := Absorb(p, Work(pc, p.tx, r, a)), Work(pc, p.tx, r, a).fault;
    var mv := SoloStep(Adopt(w, p), pc, r, plan);
    next := mv.pc;
  }

  /** What is left of a scenario, played on a payment. */
  function PlayRest(p: Payment, plays: seq<(Leg, bool)>, n: nat, a: Answers): Played
    requires p.tx.amount.currency == p.tx.fee.currency && n < |plays|
    decreases |plays| - n
  {
    var next := Play(p, plays[n].0, plays[n].1, a);
    HandlersKeepTerms(p.tx, plays[n].0, plays[n].1, a);
    if next.fault != NoFault || n + 1 == |plays| then next else PlayRest(next.payment, plays, n + 1, a)
  }

  lemma PlayRestIsPlayOut(p: Payment, scenario: string, a: Answers)
    requires p.tx.amount.currency == p.tx.fee.currency
    ensures PlayRest(p, Plays(scenario), 0, a) == PlayOut(p, scenario, a)
  {
    var plays := Plays(scenario);
    HandlersKeepTerms(p.tx, plays[0].0, plays[0].1, a);
    var p1 := Play(p, plays[0].0, plays[0].1, a).payment;
    if |plays| > 1 {
      HandlersKeepTerms(p1.tx, plays[1].0, plays[1].1, a);
    }
    if |plays| > 2 {
      var p2 := Play(p1, plays[1].0, plays[1].1, a).payment;
      assert PlayRest(p2, plays, 2, a) == Play(p2, plays[2].0, plays[2].1, a);
    }
  }

  function AnswerOf(r: Request, played: Played): Pc {
    Done(if played.fault == NoFault then Returned(r.0) else Raised(played.fault))
  }

  /** Where a play leaves the request. */
  function AfterPlay(fault: Fault, n: nat, r: Request): Pc {
    if fault != NoFault then Done(Raised(fault))
    else if n + 1 == |Plays(r.1.scenario)| then Done(Returned(r.0)) else Playing(n + 1)
  }

  lemma {:induction false} SoloPlay(w: World, p: Payment, n: nat, r: Request, plan: RailPlan) returns (q: Payment, fault: Fault)
    requires AtWork(w, p, Playing(n), r)
    ensures q == Absorb(p, Work(Playing(n), p.tx, r, AnswersFor(r.1, plan, r.0)))
    ensures fault == Work(Playing(n), p.tx, r, AnswersFor(r.1, plan, r.0)).fault
    ensures Structured(Adopt(w, q)) && Placed(Adopt(w, q), AfterPlay(fault, n, r), r)
    ensures Solo(Adopt(w, p), Playing(n), r, plan) == Solo(Adopt(w, q), AfterPlay(fault, n, r), r, plan)
  {
    var next: Pc;
    q, fault, next := SoloWork(w, p, Playing(n), r, plan);
  }

  lemma PlayRestPeels(p: Payment, n: nat, r: Request, a: Answers, q: Payment, fault: Fault)
    requires p.tx.amount.currency == p.tx.fee.currency && Working(Playing(n), r)
    requires q == Absorb(p, Work(Playing(n), p.tx, r, a)) && fault == Work(Playing(n), p.tx, r, a).fault
    ensures q.tx.amount.currency == q.tx.fee.currency
    ensures PlayRest(p, Plays(r.1.scenario), n, a)
         == if AfterPlay(fault, n, r).Done? then Played(q, fault) else PlayRest(q, Plays(r.1.scenario), n + 1, a)
  {
    HandlersKeepTerms(p.tx, Plays(r.1.scenario)[n].0, Plays(r.1.scenario)[n].1, a);
  }

  lemma StillAtWork(w: World, p: Payment, n: nat, r: Request, a: Answers, q: Payment)
    requires AtWork(w, p, Playing(n), r) && n + 1 < |Plays(r.1.scenario)|
    requires q == Absorb(p, Work(Playing(n), p.tx, r, a))
    requires Structured(Adopt(w, q)) && Placed(Adopt(w, q), Playing(n + 1), r)
    ensures AtWork(w, q, Playing(n + 1), r)
  {
    WorkIsLocal(Playing(n), p.tx, r, a);
  }

  lemma SoloDone(w: World, pc: Pc, r: Request, plan: RailPlan)
    requires Structured(w) && Placed(w, pc, r) && pc.Done?
    ensures Solo(w, pc, r, plan) == Move(w, pc)
  {
  }

  /** One play peeled off both: off the request's own run, and off the scenario. */
  lemma {:induction false} PlayPeeled(w: World, p: Payment, n: nat, r: Request, plan: RailPlan) returns (q: Payment, fault: Fault)
    requires AtWork(w, p, Playing(n), r)
    ensures q.tx.amount.currency == q.tx.fee.currency
    ensures !AfterPlay(fault, n, r).Done? ==> AtWork(w, q, Playing(n + 1), r)
    ensures Structured(Adopt(w, q)) && Placed(Adopt(w, q), AfterPlay(fault, n, r), r)
    ensures Solo(Adopt(w, p), Playing(n), r, plan) == Solo(Adopt(w, q), AfterPlay(fault, n, r), r, plan)
    ensures PlayRest(p, Plays(r.1.scenario), n, AnswersFor(r.1, plan, r.0))
         == if AfterPlay(fault, n, r).Done? then Played(q, fault)
            else PlayRest(q, Plays(r.1.scenario), n + 1, AnswersFor(r.1, plan, r.0))
  {
    var a := AnswersFor(r.1, plan, r.0);
    q, fault := SoloPlay(w, p, n, r, plan);
    PlayRestPeels(p, n, r, a, q, fault);
    if !AfterPlay(fault, n, r).Done? {
      StillAtWork(w, p, n, r, a, q);
    }
  }

  lemma {:induction false} SoloPlays(w: World, p: Payment, n: nat, r: Request, plan: RailPlan)
    requires AtWork(w, p, Playing(n), r)
    ensures var rest := PlayRest(p, Plays(r.1.scenario), n, AnswersFor(r.1, plan, r.0));
      Solo(Adopt(w, p), Playing(n), r, plan) == Move(Adopt(w, rest.payment), AnswerOf(r, rest))
    decreases Left(Playing(n), r)
  {
    var q, fault := PlayPeeled(w, p, n, r, plan);
    if AfterPlay(fault, n, r).Done? {
      SoloDone(Adopt(w, q), AfterPlay(fault, n, r), r, plan);
    } else {
      SoloPlays(w, q, n + 1, r, plan);
    }
  }

  /** From the first save to the stored answer. */
  lemma {:induction false} SoloOpens(w: World, r: Request, plan: RailPlan)
    requires AtWork(w, Opening(Saved, r), Saved, r) && IsRouted(r.1)
    ensures var p := RoutedOpened(r.0, r.1, AnswersFor(r.1, plan, r.0).deposit);
      && Structured(Adopt(w, p)) && Placed(Adopt(w, p), AfterOpening(r), r)
      && Solo(Adopt(w, Opening(Saved, r)), Saved, r, plan) == Solo(Adopt(w, p), AfterOpening(r), r, plan)
  {
    var a := AnswersFor(r.1, plan, r.0);
    OpeningMoves(Saved, r, a);
    var q1, f1, waiting := SoloWork(w, Opening(Saved, r), Saved, r, plan);
    OpeningTerms(Waiting, r);
    OpeningMoves(Waiting, r, a);
    var q2, f2, answered := SoloWork(w, Opening(Waiting, r), Waiting, r, plan);
    OpeningTerms(answered, r);
    OpeningEnds(a.deposit, r, a);
    var q3, f3, after := SoloWork(w, Opening(answered, r), answered, r, plan);
  }

  lemma {:induction false} SoloRouted(w: World, r: Request, plan: RailPlan)
    requires AtWork(w, Opening(Saved, r), Saved, r) && IsRouted(r.1)
    ensures var played := RoutedPlayed(r.0, r.1, AnswersFor(r.1, plan, r.0));
      Solo(Adopt(w, Opening(Saved, r)), Saved, r, plan) == Move(Adopt(w, played.payment), AnswerOf(r, played))
  {
    SoloOpens(w, r, plan);
    if PlaysOut(r.1) {
      var a := AnswersFor(r.1, plan, r.0);
      var p := RoutedOpened(r.0, r.1, a.deposit);
      OpeningTerms(Answered(a.deposit), r);
      OpenedInSteps(NewTx(r), a.deposit);
      SoloPlays(w, p, 0, r, plan);
      PlayRestIsPlayOut(p, r.1.scenario, a);
    }
  }

  lemma {:induction false} SoloOnNet(w: World, r: Request, plan: RailPlan)
    requires AtWork(w, Opening(Saved, r), Saved, r) && !IsRouted(r.1)
    ensures Solo(Adopt(w, Opening(Saved, r)), Saved, r, plan) == Move(Adopt(w, OnNetOpened(r.0, r.1)), Done(Returned(r.0)))
  {
    var q, f, done := SoloWork(w, Opening(Saved, r), Saved, r, plan);
  }

  /** Without interference the steps, run to the end, are exactly the atomic `StartPayment` that the
      sequential theorems speak of. */
  lemma {:induction false} SoloIsAtomic(w: World, r: Request, plan: RailPlan)
    requires Structured(w) && r.0 !in w.txs
    ensures var s := StartPayment(w, r.0, r.1, plan);
      Solo(w, Begun, r, plan) == Move(s.world, Done(s.result))
  {
    var first := SoloStep(w, Begun, r, plan);
    if first.pc == Checked {
      SoloCreates(w, r, plan);
    }
  }

  /** What a request under a free key makes, told by its kind. */
  lemma CreatesAs(w: World, r: Request, plan: RailPlan)
    requires Structured(w) && Lookup(w, r.1.key) == None && r.1.amount.IsPositive()
    ensures var played := RoutedPlayed(r.0, r.1, AnswersFor(r.1, plan, r.0)); var s := CreateOrRecover(w, r.0, r.1, plan);
      if IsRouted(r.1) then Move(s.world, Done(s.result)) == Move(Adopt(w, played.payment), AnswerOf(r, played))
      else s == Started(Adopt(w, OnNetOpened(r.0, r.1)), Returned(r.0))
  {
  }

  lemma {:induction false} SoloCreates(w: World, r: Request, plan: RailPlan)
    requires Structured(w) && r.0 !in w.txs && Lookup(w, r.1.key) == None
    ensures var s := CreateOrRecover(w, r.0, r.1, plan);
      Solo(w, Checked, r, plan) == Move(s.world, Done(s.result))
  {
    var second := SoloStep(w, Checked, r, plan);
    if second.pc == Saved {
      CreatesAs(w, r, plan);
      if IsRouted(r.1) {
        SoloRouted(w, r, plan);
      } else {
        SoloOnNet(w, r, plan);
      }
    }
  }

  // ---- a request among others ----------------------------------------------------------------

  lemma {:induction false} InterleaveConcat(s: System, rs: seq<Request>, cs: seq<Choice>, ds: seq<Choice>)
    requires SysInv(s, rs)
    ensures SysInv(Interleave(s, rs, cs), rs)
    ensures Interleave(s, rs, cs + ds) == Interleave(Interleave(s, rs, cs), rs, ds)
    decreases |cs|
  {
    if cs == [] {
      assert cs + ds == ds;
    } else {
      SplitFirst(cs, ds);
      ScheduleKeepsInv(s, rs, cs[0]);
      InterleaveConcat(Schedule(s, rs, cs[0]), rs, cs[1..], ds);
    }
  }

  lemma ThenChoice(s: System, rs: seq<Request>, cs: seq<Choice>, c: Choice)
    requires SysInv(s, rs)
    ensures SysInv(Interleave(s, rs, cs), rs) && SysInv(Schedule(Interleave(s, rs, cs), rs, c), rs)
    ensures Interleave(s, rs, cs + [c]) == Schedule(Interleave(s, rs, cs), rs, c)
  {
    InterleaveConcat(s, rs, cs, [c]);
    OneChoice(Interleave(s, rs, cs), rs, c);
  }

  lemma Prepend(s: System, rs: seq<Request>, c: Choice, cs: seq<Choice>)
    requires SysInv(s, rs) && SysInv(Schedule(s, rs, c), rs)
    ensures Interleave(s, rs, [c] + cs) == Interleave(Schedule(s, rs, c), rs, cs)
  {
    assert ([c] + cs)[1..] == cs;
  }

  lemma OneChoice(s: System, rs: seq<Request>, c: Choice)
    requires SysInv(s, rs)
    ensures SysInv(Schedule(s, rs, c), rs) && Interleave(s, rs, [c]) == Schedule(s, rs, c)
  {
    ScheduleKeepsInv(s, rs, c);
    assert Interleave(Schedule(s, rs, c), rs, [c][1..]) == Schedule(s, rs, c);
  }

  /** So many turns for one request, and nothing else. */
  function Turns(i: nat, plan: RailPlan, n: nat): seq<Choice> {
    if n == 0 then [] else [Proceed(i, plan)] + Turns(i, plan, n - 1)
  }

  /** How many turns a request is from the end of its opening, on the way no other request disturbs. */
  predicate TurnsToOpen(pc: Pc, n: nat, a: Answers) {
    match pc
    case Begun => n == 5
    case Checked => n == 4
    case Saved => n == 3
    case Waiting => n == 2
    case Answered(answer) => n == 1 && answer == a.deposit
    case _ => false
  }

  /** A request's payment opened, and nothing played out yet. */
  ghost predicate OpenedIn(s: System, rs: seq<Request>, i: nat, plan: RailPlan) {
    && SysInv(s, rs) && i < |rs| && s.pcs[i] == AfterOpening(rs[i]) && rs[i].0 in s.world.txs
    && PaymentOf(s.world, rs[i].0) == RoutedOpened(rs[i].0, rs[i].1, AnswersFor(rs[i].1, plan, rs[i].0).deposit)
  }

  ghost predicate Nearing(s: System, rs: seq<Request>, i: nat, plan: RailPlan, n: nat) {
    && SysInv(s, rs) && i < |rs| && IsRouted(rs[i].1) && rs[i].1.amount.IsPositive()
    && TurnsToOpen(s.pcs[i], n, AnswersFor(rs[i].1, plan, rs[i].0))
    && (n >= 4 ==> Lookup(s.world, rs[i].1.key) == None)
  }

  lemma TurnNearer(s: System, rs: seq<Request>, i: nat, plan: RailPlan, n: nat) returns (t: System)
    requires Nearing(s, rs, i, plan, n)
    ensures t == Schedule(s, rs, Proceed(i, plan)) && SysInv(t, rs)
    ensures if n == 1 then OpenedIn(t, rs, i, plan) else n > 1 && Nearing(t, rs, i, plan, n - 1)
  {
    t := Schedule(s, rs, Proceed(i, plan));
    ScheduleKeepsInv(s, rs, Proceed(i, plan));
    assert Placed(s.world, s.pcs[i], rs[i]);
    OneTurnNearer(s.world, s.pcs[i], rs[i], n, plan);
  }

  /** A routed request under a free key, given that many turns, opens its payment. */
  lemma {:induction false} TurnsOpen(s: System, rs: seq<Request>, i: nat, plan: RailPlan, n: nat)
    requires Nearing(s, rs, i, plan, n)
    ensures OpenedIn(Interleave(s, rs, Turns(i, plan, n)), rs, i, plan)
    decreases n
  {
    var t := TurnNearer(s, rs, i, plan, n);
    Prepend(s, rs, Proceed(i, plan), Turns(i, plan, n - 1));
    if n > 1 {
      TurnsOpen(t, rs, i, plan, n - 1);
    }
  }

  lemma OneTurnNearer(w: World, pc: Pc, r: Request, n: nat, plan: RailPlan)
    requires Structured(w) && Placed(w, pc, r) && TurnsToOpen(pc, n, AnswersFor(r.1, plan, r.0))
    requires IsRouted(r.1) && r.1.amount.IsPositive() && (n >= 4 ==> Lookup(w, r.1.key) == None)
    ensures var mv := Next(w, pc, r, plan);
      && Structured(mv.world) && Placed(mv.world, mv.pc, r)
      && (n == 5 ==> mv.world == w)
      && if n == 1 then
           && mv.pc == AfterOpening(r) && r.0 in mv.world.txs
           && PaymentOf(mv.world, r.0) == RoutedOpened(r.0, r.1, AnswersFor(r.1, plan, r.0).deposit)
         else TurnsToOpen(mv.pc, n - 1, AnswersFor(r.1, plan, r.0))
  {
    OwnStep(w, pc, r, plan);
    if n == 1 {
      AnsweredPlaced(w, pc.answer, r, plan);
    } else if pc.Saved? || pc.Waiting? {
      OpeningMoves(pc, r, AnswersFor(r.1, plan, r.0));
    }
  }

  /** A deposit reported done, by the simulator itself when a sweep polls it. */
  function DepositDone(id: string): Choice {
    Env(Moment(Polled(id, Deposit, Success), _ => SimulatedAnswers(id)))
  }

  /** What the report makes of a freshly opened simulated payment: collected, and on to its payout. */
  lemma DepositReported(s: System, rs: seq<Request>, id: string, o: PaymentOrder)
    requires SysInv(s, rs) && id in s.world.txs && o.amount.IsPositive()
    requires PaymentOf(s.world, id) == RoutedOpened(id, o, SimulatedAnswers(id).deposit)
    ensures var t := Schedule(s, rs, DepositDone(id));
      && SysInv(t, rs) && t.pcs == s.pcs && id in t.world.txs
      && var p := PaymentOf(t.world, id);
         && p == ApplyOutcome(PaymentOf(s.world, id), Deposit, true, SimulatedAnswers(id))
         && Canonical(p) && p.tx.state == PayoutPending && SameTerms(NewRouted(id, o), p.tx)
  {
    var t0 := NewRouted(id, o);
    var p, a := RoutedOpened(id, o, SimulatedAnswers(id).deposit), SimulatedAnswers(id);
    DefaultFeeCovers(t0);
    StartIsCanonical(t0, a.deposit);
    OpenedInSteps(t0, a.deposit);
    DepositStep(p, true, a);
    HandlersAreLocal(p.tx, Deposit, true, a);
    StepOn(s.world, DepositDone(id).moment, id);
    assert s.world.txs[id] == PaymentOf(s.world, id).tx;
    ScheduleKeepsInv(s, rs, DepositDone(id));
  }

  /** The first outcome of any scenario, played on a payment already at its payout: an illegal move. */
  lemma FirstPlayIsIllegal(p: Payment, r: Request, a: Answers)
    requires p.tx.amount.currency == p.tx.fee.currency && p.tx.state == PayoutPending
    ensures var e := Work(Playing(0), p.tx, r, a); e.fault.IllegalTransition? && Absorb(p, e) == p
  {
    assert p.books + [] == p.books && p.calls + [] == p.calls && p.trace + [] == p.trace;
    if r.1.scenario == "collection_fail" {
      assert OnResult(p.tx, Deposit, false, a) == Raise(p.tx, IllegalTransition(PayoutPending, CollectionFailed));
    } else {
      assert OnResult(p.tx, Deposit, true, a) == Raise(p.tx, IllegalTransition(PayoutPending, CollectionSucceeded));
    }
  }

  /** A play-out that finds its payment already moved on raises, and changes nothing. */
  lemma FirstPlayRaises(w: World, r: Request, plan: RailPlan)
    requires Structured(w) && r.0 in w.txs && w.txs[r.0].state == PayoutPending
    ensures var mv := Next(w, Playing(0), r, plan);
      && r.0 in mv.world.txs && PaymentOf(mv.world, r.0) == PaymentOf(w, r.0)
      && mv.pc.Done? && mv.pc.result.Raised? && mv.pc.result.fault.IllegalTransition?
  {
    var p, a := PaymentOf(w, r.0), AnswersFor(r.1, plan, r.0);
    FirstPlayIsIllegal(p, r, a);
    WorkLeaves(w, Playing(0), r, plan, Work(Playing(0), p.tx, r, a), p);
  }

  // ---- when a request can raise ------------------------------------------------------------------

  ghost predicate RaisesUnder(ms: seq<Moment>, rs: seq<Request>, cs: seq<Choice>, i: nat)
    requires Fresh(ms, rs) && i < |rs|
  {
    InitialInv(ms, rs);
    InterleaveKeepsInv(Initial(ms, rs), rs, cs);
    var pc := Interleave(Initial(ms, rs), rs, cs).pcs[i];
    pc.Done? && pc.result.Raised?
  }

  /** Not begun, or told somebody else's transaction. */
  predicate IsTold(pc: Pc, r: Request) {
    pc.Begun? || (pc.Done? && pc.result.Returned? && pc.result.id != r.0)
  }

  lemma HeldKeyNext(w: World, pc: Pc, r: Request, plan: RailPlan)
    requires Structured(w) && Placed(w, pc, r) && Lookup(w, r.1.key).Some? && IsTold(pc, r)
    ensures IsTold(Next(w, pc, r, plan).pc, r)
  {
  }

  lemma KeyStaysHeld(s: System, rs: seq<Request>, c: Choice, key: Option<string>)
    requires SysInv(s, rs) && Lookup(s.world, key).Some?
    ensures SysInv(Schedule(s, rs, c), rs) && Lookup(Schedule(s, rs, c).world, key).Some?
  {
    ScheduleKeepsInv(s, rs, c);
    ScheduleAround(s, rs, c);
    LookupStays(s.world, Schedule(s, rs, c).world, OwnerOf(s, rs, c), key);
  }

  lemma HeldKeyStep(s: System, rs: seq<Request>, c: Choice, i: nat)
    requires SysInv(s, rs) && i < |rs| && Lookup(s.world, rs[i].1.key).Some? && IsTold(s.pcs[i], rs[i])
    ensures var t := Schedule(s, rs, c);
      SysInv(t, rs) && Lookup(t.world, rs[i].1.key).Some? && IsTold(t.pcs[i], rs[i])
  {
    KeyStaysHeld(s, rs, c, rs[i].1.key);
    if c.Proceed? && c.i == i {
      assert Placed(s.world, s.pcs[i], rs[i]);
      HeldKeyNext(s.world, s.pcs[i], rs[i], c.plan);
    }
  }

  /** Under a key that is held a request never gets past its pre-check: it is told the holder. */
  lemma {:induction false} HeldKeyReturns(s: System, rs: seq<Request>, cs: seq<Choice>, i: nat)
    requires SysInv(s, rs) && i < |rs| && Lookup(s.world, rs[i].1.key).Some? && IsTold(s.pcs[i], rs[i])
    ensures SysInv(Interleave(s, rs, cs), rs) && IsTold(Interleave(s, rs, cs).pcs[i], rs[i])
    ensures rs[i].0 !in Interleave(s, rs, cs).world.txs
    decreases |cs|
  {
    if cs == [] {
      assert Placed(s.world, s.pcs[i], rs[i]);
    } else {
      HeldKeyStep(s, rs, cs[0], i);
      HeldKeyReturns(Schedule(s, rs, cs[0]), rs, cs[1..], i);
    }
  }

  lemma RaiseMeans(ms: seq<Moment>, rs: seq<Request>, cs: seq<Choice>, i: nat)
    requires Fresh(ms, rs) && i < |rs| && RaisesUnder(ms, rs, cs, i)
    ensures Lookup(Reached(ms), rs[i].1.key) == None
    ensures !rs[i].1.amount.IsPositive() || (PlaysOut(rs[i].1) && IsRouted(rs[i].1))
  {
    InitialInv(ms, rs);
    FinishedReturnsWinner(ms, rs, cs, i);
    if Lookup(Reached(ms), rs[i].1.key).Some? {
      HeldKeyReturns(Initial(ms, rs), rs, cs, i);
    }
  }

  /** The schedules that make a request raise: two turns for an amount that is not positive; for a
      simulated one, five turns that open its payment, a report on its deposit, one turn more. */
  lemma RaisingSchedule(ms: seq<Moment>, rs: seq<Request>, i: nat) returns (cs: seq<Choice>)
    requires Fresh(ms, rs) && i < |rs| && Lookup(Reached(ms), rs[i].1.key) == None
    requires !rs[i].1.amount.IsPositive() || (PlaysOut(rs[i].1) && IsRouted(rs[i].1))
    ensures RaisesUnder(ms, rs, cs, i)
  {
    var s := Initial(ms, rs);
    InitialInv(ms, rs);
    var plan: RailPlan := _ => SimulatedAnswers(rs[i].0);
    if !rs[i].1.amount.IsPositive() {
      ThenChoice(s, rs, [], Proceed(i, plan));
      ThenChoice(s, rs, [] + [Proceed(i, plan)], Proceed(i, plan));
      cs := [] + [Proceed(i, plan)] + [Proceed(i, plan)];
    } else {
      cs := OvertakingSchedule(s, rs, i, plan);
    }
  }

  lemma OvertakingSchedule(s: System, rs: seq<Request>, i: nat, plan: RailPlan) returns (cs: seq<Choice>)
    requires SysInv(s, rs) && i < |rs| && s.pcs[i] == Begun && Lookup(s.world, rs[i].1.key) == None
    requires rs[i].1.amount.IsPositive() && PlaysOut(rs[i].1) && IsRouted(rs[i].1)
    ensures RaisedAt(Interleave(s, rs, cs), rs, i)
  {
    TurnsOpen(s, rs, i, plan, 5);
    var rest := Overtaking(Interleave(s, rs, Turns(i, plan, 5)), rs, i, plan);
    InterleaveConcat(s, rs, Turns(i, plan, 5), rest);
    cs := Turns(i, plan, 5) + rest;
  }

  ghost predicate RaisedAt(s: System, rs: seq<Request>, i: nat) {
    SysInv(s, rs) && i < |rs| && s.pcs[i].Done? && s.pcs[i].result.Raised?
  }

  /** The report, and then the first play. */
  lemma Overtaking(s: System, rs: seq<Request>, i: nat, plan: RailPlan) returns (cs: seq<Choice>)
    requires OpenedIn(s, rs, i, plan) && rs[i].1.amount.IsPositive() && PlaysOut(rs[i].1) && IsRouted(rs[i].1)
    ensures RaisedAt(Interleave(s, rs, cs), rs, i)
  {
    var c := DepositDone(rs[i].0);
    DepositReported(s, rs, rs[i].0, rs[i].1);
    var t := Schedule(s, rs, c);
    var rest := PlayAndRaise(t, rs, i, plan);
    Prepend(s, rs, c, rest);
    cs := [c] + rest;
  }

  lemma PlayAndRaise(s: System, rs: seq<Request>, i: nat, plan: RailPlan) returns (cs: seq<Choice>)
    requires SysInv(s, rs) && i < |rs| && s.pcs[i] == Playing(0) && rs[i].0 in s.world.txs
    requires PaymentOf(s.world, rs[i].0).tx.state == PayoutPending
    ensures RaisedAt(Interleave(s, rs, cs), rs, i)
  {
    FirstPlayRaises(s.world, rs[i], plan);
    OneChoice(s, rs, Proceed(i, plan));
    cs := [Proceed(i, plan)];
  }

  /** The exact condition. Some schedule makes a request raise if and only if its key was free and its
      amount is not positive, or its payment is routed and its outcomes are the simulator's to play out. */
  lemma StartRaisesIff(ms: seq<Moment>, rs: seq<Request>, i: nat)
    requires Fresh(ms, rs) && i < |rs|
    ensures (exists cs :: RaisesUnder(ms, rs, cs, i))
       <==> (&& Lookup(Reached(ms), rs[i].1.key) == None
             && (!rs[i].1.amount.IsPositive() || (PlaysOut(rs[i].1) && IsRouted(rs[i].1))))
  {
    if cs :| RaisesUnder(ms, rs, cs, i) {
      RaiseMeans(ms, rs, cs, i);
    }
    if Lookup(Reached(ms), rs[i].1.key) == None && (!rs[i].1.amount.IsPositive() || (PlaysOut(rs[i].1) && IsRouted(rs[i].1))) {
      var cs := RaisingSchedule(ms, rs, i);
    }
  }
}
