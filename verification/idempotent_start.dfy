/** Starting payments concurrently: any number of requests, stepped at the pre-check, the guarded first
    save, the transition, the rail call, the id's save and, on the simulator, each outcome played out,
    interleaved with each other and with every other event of the system. The store's unique-key save is
    the only atomic primitive. */
module IdempotentStart {
  import opened Common
  import opened MoneyTypes
  import opened StateMachine
  import opened Transactions
  import opened Payments
  import opened Status
  import opened Worlds
  import opened Conservation

  /** Where one request stands. */
  datatype Pc =
    | Begun                     // nothing done yet
    | Checked                   // the pre-check found no transaction under the key
    | Lost                      // the first save was refused: another request holds the key
    | Saved                     // the row exists, initiated
    | Waiting                   // collection pending, the rail not yet called
    | Answered(answer: Answer)  // the rail has answered, the id not yet stored
    | Playing(played: nat)      // on the simulator: so many of the scenario's outcomes delivered
    | Done(result: StartResult)

  /** A request with the fresh id its transaction would get. */
  type Request = (string, PaymentOrder)

  datatype System = System(world: World, pcs: seq<Pc>)

  /** Whose turn it is: a request's next step, or any other event. */
  datatype Choice = Proceed(i: nat, plan: RailPlan) | Env(moment: Moment)

  predicate IsRouted(o: PaymentOrder) {
    !UseOnNet(o.customerProvider, o.merchantProvider)
  }

  function NewTx(r: Request): Tx {
    if IsRouted(r.1) then NewRouted(r.0, r.1) else NewOnNet(r.0, r.1)
  }

  datatype Move = Move(world: World, pc: Pc)

  /** The outcomes a scenario delivers, in order. */
  function Plays(scenario: string): (plays: seq<(Leg, bool)>)
    ensures 1 <= |plays| <= 3
  {
    if scenario == "collection_fail" then [(Deposit, false)]
    else if scenario == "success" then [(Deposit, true), (Payout, true)]
    else [(Deposit, true), (Payout, false), (Refund, scenario != "refund_fail")]
  }

  predicate PlaysOut(o: PaymentOrder) {
    o.simulated && !o.defer
  }

  /** Once the collection has been asked and answered: done, or the simulator's play-out. */
  function AfterOpening(r: Request): Pc {
    if PlaysOut(r.1) then Playing(0) else Done(Returned(r.0))
  }

  /** The stages at which a request works on its own transaction. */
  predicate Working(pc: Pc, r: Request) {
    match pc
    case Saved => true
    case Waiting => true
    case Answered(_) => true
    case Playing(n) => n < |Plays(r.1.scenario)|
    case _ => false
  }

  /** What it does to it there. */
  function Work(pc: Pc, t: Tx, r: Request, a: Answers): Effect
    requires Working(pc, r) && t.amount.currency == t.fee.currency
  {
    match pc
    case Saved => Enter(t, CollectionPending)
    case Waiting => Ask(t, CollectCall(r.0, r.1.customerMsisdn, r.1.amount, r.1.customerProvider, a.deposit))
    case Answered(answer) => if answer.Accepted? then StoreId(t, Deposit, answer.opId) else Enter(t, CollectionFailed)
    case Playing(n) => OnResult(t, Plays(r.1.scenario)[n].0, Plays(r.1.scenario)[n].1, a)
  }

  /** And where it stands afterwards, if nothing was raised. */
  function Onward(pc: Pc, r: Request, a: Answers): Pc
    requires Working(pc, r)
  {
    match pc
    case Saved => if IsRouted(r.1) then Waiting else Done(Returned(r.0))
    case Waiting => Answered(a.deposit)
    case Answered(_) => AfterOpening(r)
    case Playing(n) => if n + 1 == |Plays(r.1.scenario)| then Done(Returned(r.0)) else Playing(n + 1)
  }

  /** One step of one request. */
  function Next(w: World, pc: Pc, r: Request, plan: RailPlan): Move
    requires Indexed(w)
  {
    var (id, o) := r;
    match pc
    case Begun => (
      match Lookup(w, o.key)
      case Some(existing) => Move(w, Done(Returned(existing)))
      case None => Move(w, Checked)
    )
    case Checked =>
      if !o.amount.IsPositive() then Move(w, Done(Raised(InvalidAmount)))
      else if Lookup(w, o.key).Some? then Move(w, Lost)
      else Move(Adopt(w, Born(NewTx(r))), Saved)
    case Lost => (
      match Lookup(w, o.key)
      case Some(racer) => Move(w, Done(Returned(racer)))
      case None => Move(w, Done(Raised(DuplicateIdempotencyKey)))
    )
    case Done(_) => Move(w, pc)
    case _ =>
      if !Working(pc, r) then Move(w, Done(Returned(id)))
      else if id !in w.txs then Move(w, Done(Raised(UnknownTransaction)))
      else
        var a := AnswersFor(o, plan, id);
        var e := Work(pc, w.txs[id], r, a);
        Move(Commit(w, e), if e.fault != NoFault then Done(Raised(e.fault)) else Onward(pc, r, a))
  }

  function Lookup(w: World, key: Option<string>): Option<string>
    requires Indexed(w)
  {
    if key.None? then None else FirstWithKey(w.order, w.txs, key.value)
  }

  // ---- what one step does to each payment ------------------------------------------------

  predicate NoCollection(calls: seq<RailCall>) {
    forall c | c in calls :: !c.CollectCall?
  }

  /** Only the first thing asked about a payment can be its collection. */
  predicate Once(p: Payment) {
    p.calls == [] || NoCollection(p.calls[1..])
  }

  predicate Collected(p: Payment) {
    p.calls != [] && p.calls[0].CollectCall?
  }

  /** What any step may make of a payment: the same terms, and no second collection. */
  predicate Succeeds(p: Payment, q: Payment) {
    SameTerms(p.tx, q.tx) && (Once(p) ==> Once(q)) && (Collected(p) ==> Collected(q))
  }

  /** Rows that no callback, poll or confirmation can move: no id stored, no word awaited. */
  predicate Untouchable(t: Tx) {
    t.depositId == t.payoutId == t.refundId == None && (t.provenance == RailVerified || t.state == Initiated)
  }

  lemma AbsorbSucceeds(p: Payment, e: Effect)
    requires SameTerms(p.tx, e.tx) && NoCollection(e.calls)
    ensures Succeeds(p, Absorb(p, e))
  {
    if p.calls != [] {
      assert (p.calls + e.calls)[1..] == p.calls[1..] + e.calls;
    } else {
      assert p.calls + e.calls == e.calls;
      assert e.calls != [] ==> forall c | c in e.calls[1..] :: c in e.calls;
    }
  }

  lemma OutcomeSucceeds(p: Payment, leg: Leg, success: bool, a: Answers)
    requires p.tx.amount.currency == p.tx.fee.currency
    ensures Succeeds(p, ApplyOutcome(p, leg, success, a)) && Succeeds(p, Play(p, leg, success, a).payment)
  {
    HandlersAreProper(p.tx, leg, success, a);
    AbsorbSucceeds(p, OnResult(p.tx, leg, success, a));
  }

  lemma ConfirmSucceeds(p: Payment, merchantId: string, received: bool)
    ensures Succeeds(p, ApplyConfirm(p, merchantId, received))
  {
    ConfirmIsProper(p.tx, received);
    AbsorbSucceeds(p, OnConfirm(p.tx, received));
  }

  lemma HealthyIsOnce(p: Payment)
    requires WellKept(p)
    ensures Once(p)
  {
  }

  /** Any event of the system, seen by a payment it may or may not be about. */
  lemma EnvOn(w: World, m: Moment, k: string)
    requires Structured(w) && k in w.txs
    ensures k in Step(w, m).txs
    ensures var p, q := PaymentOf(w, k), PaymentOf(Step(w, m), k);
      Succeeds(p, q) && (Untouchable(p.tx) ==> q == p)
  {
    StepOn(w, m, k);
    var p := PaymentOf(w, k);
    match m.event
    case Begin(_, _) =>
    case Callback(kind, _, outcome) => OutcomeSucceeds(p, kind, outcome == Success, m.plan(k));
    case Polled(_, kind, outcome) => OutcomeSucceeds(p, kind, outcome == Success, m.plan(k));
    case Confirm(_, merchantId, received) => ConfirmSucceeds(p, merchantId, received);
  }

  /** What a step may do around its owner: everybody's payment goes on, those only their owner can move
      stay as they are, and nobody else's appears. */
  ghost predicate Around(w: World, v: World, own: Option<string>) {
    && Structured(v)
    && (forall k | k in w.txs :: k in v.txs)
    && (forall k | k in v.txs :: k in w.txs || own == Some(k))
    && (forall k {:trigger PaymentOf(v, k)} | k in w.txs ::
          && Succeeds(PaymentOf(w, k), PaymentOf(v, k))
          && (Untouchable(w.txs[k]) && own != Some(k) ==> PaymentOf(v, k) == PaymentOf(w, k)))
    && (own.Some? && own.value in v.txs && own.value !in w.txs ==> Once(PaymentOf(v, own.value)))
  }

  /** Any event of the system, seen from requests that are in the middle of starting. */
  lemma EnvStep(w: World, m: Moment)
    requires Structured(w)
    ensures Around(w, Step(w, m), if m.event.Begin? then Some(m.event.id) else None)
  {
    StepKeepsStructure(w, m);
    var v := Step(w, m);
    forall k | k in w.txs
      ensures k in v.txs && Succeeds(PaymentOf(w, k), PaymentOf(v, k))
      ensures Untouchable(w.txs[k]) ==> PaymentOf(v, k) == PaymentOf(w, k)
    {
      EnvOn(w, m, k);
    }
    if m.event.Begin? && m.event.id in v.txs && m.event.id !in w.txs {
      HealthyIsOnce(PaymentOf(v, m.event.id));
    }
  }

  // ---- what holds of a request at each place it can stand -------------------------------------

  /** Its payment, exactly, until the rail's answer has been stored. */
  function Opening(pc: Pc, r: Request): Payment
    requires pc.Saved? || pc.Waiting? || pc.Answered?
  {
    match pc
    case Saved => Born(NewTx(r))
    case Waiting => Absorb(Born(NewTx(r)), Enter(NewTx(r), CollectionPending))
    case Answered(answer) => Asking(NewTx(r), answer)
  }

  /** Its own payment, as agreed; collected, once. */
  ghost predicate Owns(w: World, r: Request) {
    && r.0 in w.txs && SameTerms(NewTx(r), w.txs[r.0])
    && Once(PaymentOf(w, r.0)) && (IsRouted(r.1) ==> Collected(PaymentOf(w, r.0)))
  }

  ghost predicate Placed(w: World, pc: Pc, r: Request)
    requires Indexed(w)
  {
    var (id, o) := r;
    match pc
    case Begun => id !in w.txs
    case Checked => id !in w.txs
    case Lost => id !in w.txs && Lookup(w, o.key).Some?
    case Saved => id in w.txs && PaymentOf(w, id) == Opening(pc, r) && o.amount.IsPositive()
    case Waiting => id in w.txs && PaymentOf(w, id) == Opening(pc, r) && o.amount.IsPositive() && IsRouted(o)
    case Answered(answer) =>
      && id in w.txs && PaymentOf(w, id) == Opening(pc, r) && o.amount.IsPositive() && IsRouted(o)
      && (o.simulated ==> answer == SimulatedAnswers(id).deposit)
    case Playing(n) => Owns(w, r) && n < |Plays(o.scenario)| && PlaysOut(o) && IsRouted(o) && o.amount.IsPositive()
    case Done(Returned(x)) =>
      if x == id then Owns(w, r) && o.amount.IsPositive()
      else id !in w.txs && x in w.txs && o.key.Some? && w.txs[x].key == o.key
    case Done(Raised(fault)) =>
      if fault == InvalidAmount then !o.amount.IsPositive() && id !in w.txs
      else PlaysOut(o) && IsRouted(o) && o.amount.IsPositive() && fault != DuplicateIdempotencyKey && Owns(w, r)
  }

  lemma WorkIsLocal(pc: Pc, t: Tx, r: Request, a: Answers)
    requires Working(pc, r) && t.amount.currency == t.fee.currency && t.id == r.0
    ensures var e := Work(pc, t, r, a);
      && Local(e, t.id) && SameTerms(t, e.tx) && (!pc.Waiting? ==> NoCollection(e.calls))
      && e.fault !in {InvalidAmount, DuplicateIdempotencyKey}
  {
    if pc.Playing? {
      HandlersAreProper(t, Plays(r.1.scenario)[pc.played].0, Plays(r.1.scenario)[pc.played].1, a);
    }
  }

  /** A working step lands on the request's own payment and nowhere else. */
  lemma WorkSeen(w: World, pc: Pc, r: Request, plan: RailPlan)
    requires Structured(w) && Working(pc, r) && r.0 in w.txs
    ensures var v := Next(w, pc, r, plan).world;
      && OthersUntouched(w, v, r.0)
      && PaymentOf(v, r.0) == Absorb(PaymentOf(w, r.0), Work(pc, w.txs[r.0], r, AnswersFor(r.1, plan, r.0)))
  {
    var a := AnswersFor(r.1, plan, r.0);
    WorkIsLocal(pc, w.txs[r.0], r, a);
    CommitSeen(w, Work(pc, w.txs[r.0], r, a));
  }

  ghost predicate OthersUntouched(w: World, v: World, id: string) {
    && Structured(v) && v.txs.Keys == w.txs.Keys
    && forall k {:trigger PaymentOf(v, k)} | k in w.txs && k != id :: PaymentOf(v, k) == PaymentOf(w, k)
  }

  lemma WorkStaysAround(w: World, v: World, id: string)
    requires Structured(w) && id in w.txs && OthersUntouched(w, v, id) && Succeeds(PaymentOf(w, id), PaymentOf(v, id))
    ensures Around(w, v, Some(id))
  {
  }

  /** What a working step leaves, told with its effect. */
  lemma WorkLeaves(w: World, pc: Pc, r: Request, plan: RailPlan, e: Effect, q: Payment)
    requires Structured(w) && Working(pc, r) && r.0 in w.txs
    requires e == Work(pc, w.txs[r.0], r, AnswersFor(r.1, plan, r.0)) && q == Absorb(PaymentOf(w, r.0), e)
    ensures var mv := Next(w, pc, r, plan);
      && OthersUntouched(w, mv.world, r.0) && PaymentOf(mv.world, r.0) == q && mv.world.txs[r.0] == q.tx
      && mv.pc == if e.fault != NoFault then Done(Raised(e.fault)) else Onward(pc, r, AnswersFor(r.1, plan, r.0))
  {
    WorkSeen(w, pc, r, plan);
  }

  lemma WorkSucceeds(p: Payment, pc: Pc, r: Request, a: Answers)
    requires Working(pc, r) && p.tx.amount.currency == p.tx.fee.currency && p.tx.id == r.0
    requires pc.Waiting? ==> p.calls == []
    ensures Succeeds(p, Absorb(p, Work(pc, p.tx, r, a)))
  {
    WorkIsLocal(pc, p.tx, r, a);
    if !pc.Waiting? {
      AbsorbSucceeds(p, Work(pc, p.tx, r, a));
    }
  }

  /** From one stage of the opening to the next, exactly. */
  lemma OpeningMoves(pc: Pc, r: Request, a: Answers)
    requires pc.Saved? || pc.Waiting?
    ensures var p := Opening(pc, r); var e := Work(pc, p.tx, r, a);
      && e.fault == NoFault
      && Absorb(p, e) == Opening(if pc.Saved? then Waiting else Answered(a.deposit), r)
  {
    AbsorbEnter(Born(NewTx(r)), CollectionPending);
    if pc.Waiting? {
      AbsorbAsk(Opening(pc, r), CollectCall(r.0, r.1.customerMsisdn, r.1.amount, r.1.customerProvider, a.deposit));
    }
  }

  lemma OpeningTerms(pc: Pc, r: Request)
    requires pc.Saved? || pc.Waiting? || pc.Answered?
    ensures SameTerms(NewTx(r), Opening(pc, r).tx) && Once(Opening(pc, r)) && (pc.Answered? ==> Collected(Opening(pc, r)))
    ensures pc.Waiting? ==> Opening(pc, r).calls == []
    ensures pc.Saved? || IsRouted(r.1) ==> Untouchable(Opening(pc, r).tx)
  {
    AbsorbEnter(Born(NewTx(r)), CollectionPending);
  }

  /** The rest of the opening: the rail's answer is stored, and never raises. */
  lemma OpeningEnds(answer: Answer, r: Request, a: Answers)
    requires IsRouted(r.1)
    ensures var p := Opening(Answered(answer), r); var e := Work(Answered(answer), p.tx, r, a);
      e.fault == NoFault && Absorb(p, e) == RoutedOpened(r.0, r.1, answer)
  {
    var p := Asking(NewTx(r), answer);
    OpenedInSteps(NewTx(r), answer);
    match answer
    case Accepted(opId) => AbsorbId(p, Deposit, opId);
    case Rejected => AbsorbEnter(p, CollectionFailed);
  }

  lemma OwnStep(w: World, pc: Pc, r: Request, plan: RailPlan)
    requires Structured(w) && Placed(w, pc, r)
    ensures var mv := Next(w, pc, r, plan);
      Around(w, mv.world, Some(r.0)) && Placed(mv.world, mv.pc, r)
  {
    if Working(pc, r) {
      WorkingStep(w, pc, r, plan);
    } else {
      RestingStep(w, pc, r, plan);
    }
  }

  /** The first save, the guard: a new row, under a key nobody holds. */
  lemma SavingStep(w: World, r: Request)
    requires Structured(w) && r.0 !in w.txs && Lookup(w, r.1.key) == None && r.1.amount.IsPositive()
    ensures var v := Adopt(w, Born(NewTx(r))); Around(w, v, Some(r.0)) && Placed(v, Saved, r)
  {
    AdoptSeen(w, Born(NewTx(r)));
    NewcomerStaysAround(w, Adopt(w, Born(NewTx(r))), r.0);
  }

  lemma NewcomerStaysAround(w: World, v: World, id: string)
    requires Structured(w) && id !in w.txs && Structured(v) && v.txs.Keys == w.txs.Keys + {id} && Once(PaymentOf(v, id))
    requires forall k | k in w.txs :: PaymentOf(v, k) == PaymentOf(w, k)
    ensures Around(w, v, Some(id))
  {
  }

  lemma RestingStep(w: World, pc: Pc, r: Request, plan: RailPlan)
    requires Structured(w) && Placed(w, pc, r) && !Working(pc, r)
    ensures var mv := Next(w, pc, r, plan);
      Around(w, mv.world, Some(r.0)) && Placed(mv.world, mv.pc, r)
  {
    if pc.Checked? && r.1.amount.IsPositive() && Lookup(w, r.1.key) == None {
      SavingStep(w, r);
    } else {
      StandingStill(w, Some(r.0));
      RestingPlaced(w, pc, r, plan);
    }
  }

  lemma RestingPlaced(w: World, pc: Pc, r: Request, plan: RailPlan)
    requires Structured(w) && Placed(w, pc, r) && !Working(pc, r) && Next(w, pc, r, plan).world == w
    ensures Next(w, pc, r, plan).pc != Saved ==> Placed(w, Next(w, pc, r, plan).pc, r)
  {
  }

  lemma StandingStill(w: World, own: Option<string>)
    requires Structured(w)
    ensures Around(w, w, own)
  {
  }

  lemma WorkingStep(w: World, pc: Pc, r: Request, plan: RailPlan)
    requires Structured(w) && Placed(w, pc, r) && Working(pc, r)
    ensures var mv := Next(w, pc, r, plan);
      Around(w, mv.world, Some(r.0)) && Placed(mv.world, mv.pc, r)
  {
    WorkAround(w, pc, r, plan);
    match pc
    case Answered(answer) => AnsweredPlaced(w, answer, r, plan);
    case Playing(n) => PlayingPlaced(w, n, r, plan);
    case _ => OpeningPlaced(w, pc, r, plan);
  }

  lemma WorkAround(w: World, pc: Pc, r: Request, plan: RailPlan)
    requires Structured(w) && Placed(w, pc, r) && Working(pc, r)
    ensures Around(w, Next(w, pc, r, plan).world, Some(r.0))
  {
    WorkSeen(w, pc, r, plan);
    if pc.Waiting? {
      OpeningTerms(pc, r);
    }
    WorkSucceeds(PaymentOf(w, r.0), pc, r, AnswersFor(r.1, plan, r.0));
    WorkStaysAround(w, Next(w, pc, r, plan).world, r.0);
  }

  lemma OpeningPlaced(w: World, pc: Pc, r: Request, plan: RailPlan)
    requires Structured(w) && Placed(w, pc, r) && (pc.Saved? || pc.Waiting?)
    ensures var mv := Next(w, pc, r, plan); Structured(mv.world) && Placed(mv.world, mv.pc, r)
  {
    WorkSeen(w, pc, r, plan);
    OpeningMoves(pc, r, AnswersFor(r.1, plan, r.0));
    if pc.Saved? {
      OpeningTerms(Waiting, r);
    }
  }

  lemma AnsweredPlaced(w: World, answer: Answer, r: Request, plan: RailPlan)
    requires Structured(w) && Placed(w, Answered(answer), r)
    ensures var mv := Next(w, Answered(answer), r, plan);
      && Structured(mv.world) && Placed(mv.world, mv.pc, r) && mv.pc == AfterOpening(r)
      && r.0 in mv.world.txs && PaymentOf(mv.world, r.0) == RoutedOpened(r.0, r.1, answer)
  {
    var pc, a := Answered(answer), AnswersFor(r.1, plan, r.0);
    WorkSeen(w, pc, r, plan);
    OpeningEnds(answer, r, a);
    OpeningTerms(pc, r);
    WorkSucceeds(Opening(pc, r), pc, r, a);
  }

  lemma PlayingPlaced(w: World, n: nat, r: Request, plan: RailPlan)
    requires Structured(w) && Placed(w, Playing(n), r)
    ensures var mv := Next(w, Playing(n), r, plan); Structured(mv.world) && Placed(mv.world, mv.pc, r)
  {
    var p, a := PaymentOf(w, r.0), AnswersFor(r.1, plan, r.0);
    var e := Work(Playing(n), p.tx, r, a);
    WorkSucceeds(p, Playing(n), r, a);
    WorkIsLocal(Playing(n), p.tx, r, a);
    PlayPlaced(w, n, r, plan, e, Absorb(p, e));
  }

  lemma PlayPlaced(w: World, n: nat, r: Request, plan: RailPlan, e: Effect, q: Payment)
    requires Structured(w) && Placed(w, Playing(n), r) && Succeeds(PaymentOf(w, r.0), q)
    requires e == Work(Playing(n), w.txs[r.0], r, AnswersFor(r.1, plan, r.0)) && q == Absorb(PaymentOf(w, r.0), e)
    requires e.fault !in {InvalidAmount, DuplicateIdempotencyKey}
    ensures var mv := Next(w, Playing(n), r, plan); Structured(mv.world) && Placed(mv.world, mv.pc, r)
  {
    WorkLeaves(w, Playing(n), r, plan, e, q);
    StillOwned(w, Next(w, Playing(n), r, plan).world, r);
  }

  lemma StillOwned(w: World, v: World, r: Request)
    requires Owns(w, r) && r.0 in v.txs && Succeeds(PaymentOf(w, r.0), PaymentOf(v, r.0))
    ensures Owns(v, r)
  {
    assert PaymentOf(v, r.0).tx == v.txs[r.0] && PaymentOf(w, r.0).tx == w.txs[r.0];
  }

  /** Somebody else's step leaves a request where it stood. */
  lemma OthersStep(w: World, v: World, own: Option<string>, pc: Pc, r: Request)
    requires Structured(w) && Around(w, v, own) && own != Some(r.0)
    requires Placed(w, pc, r)
    ensures Placed(v, pc, r)
  {
    if r.0 in w.txs {
      assert PaymentOf(v, r.0).tx == v.txs[r.0] && PaymentOf(w, r.0).tx == w.txs[r.0];
    }
    match pc
    case Lost => LookupStays(w, v, own, r.1.key);
    case Saved => OpeningTerms(pc, r);
    case Waiting => OpeningTerms(pc, r);
    case Answered(_) => OpeningTerms(pc, r);
    case Done(Returned(x)) =>
      assert PaymentOf(v, x).tx == v.txs[x] && PaymentOf(w, x).tx == w.txs[x];
    case _ =>
  }

  /** A key once held stays held. */
  lemma LookupStays(w: World, v: World, own: Option<string>, key: Option<string>)
    requires Structured(w) && Around(w, v, own) && Lookup(w, key).Some?
    ensures Lookup(v, key).Some?
  {
    var x := Lookup(w, key).value;
    assert PaymentOf(v, x).tx == v.txs[x] && PaymentOf(w, x).tx == w.txs[x];
    assert x in v.order && v.txs[x].key == key;
  }

  // ---- every interleaving -------------------------------------------------------------------

  ghost predicate DistinctIds(rs: seq<Request>) {
    forall i, j | 0 <= i < |rs| && 0 <= j < |rs| && i != j :: rs[i].0 != rs[j].0
  }

  ghost predicate AllOnce(w: World) {
    forall id {:trigger PaymentOf(w, id)} | id in w.txs :: Once(PaymentOf(w, id))
  }

  ghost predicate SysInv(s: System, rs: seq<Request>) {
    && |s.pcs| == |rs| && DistinctIds(rs) && Structured(s.world) && AllOnce(s.world)
    && forall i {:trigger Placed(s.world, s.pcs[i], rs[i])} | 0 <= i < |rs| :: Placed(s.world, s.pcs[i], rs[i])
  }

  /** One scheduled step. Fresh ids: no other payment ever starts under the id of one of ours. */
  function Schedule(s: System, rs: seq<Request>, c: Choice): System
    requires Indexed(s.world) && |s.pcs| == |rs|
  {
    match c
    case Proceed(i, plan) =>
      if i >= |rs| then s
      else
        var mv := Next(s.world, s.pcs[i], rs[i], plan);
        System(mv.world, s.pcs[i := mv.pc])
    case Env(m) =>
      if m.event.Begin? && exists i :: 0 <= i < |rs| && rs[i].0 == m.event.id then s
      else System(Step(s.world, m), s.pcs)
  }

  /** Whose step it is. */
  function OwnerOf(s: System, rs: seq<Request>, c: Choice): Option<string> {
    match c
    case Proceed(i, _) => if i < |rs| then Some(rs[i].0) else None
    case Env(m) =>
      if m.event.Begin? && !exists i :: 0 <= i < |rs| && rs[i].0 == m.event.id then Some(m.event.id) else None
  }

  lemma ScheduleAround(s: System, rs: seq<Request>, c: Choice)
    requires SysInv(s, rs)
    ensures Around(s.world, Schedule(s, rs, c).world, OwnerOf(s, rs, c))
  {
    match c
    case Proceed(i, plan) =>
      if i < |rs| {
        assert Placed(s.world, s.pcs[i], rs[i]);
        OwnStep(s.world, s.pcs[i], rs[i], plan);
      } else {
        StandingStill(s.world, None);
      }
    case Env(m) =>
      if Schedule(s, rs, c) == s {
        StandingStill(s.world, OwnerOf(s, rs, c));
      } else {
        EnvStep(s.world, m);
      }
  }

  lemma AroundKeepsOnce(w: World, v: World, own: Option<string>)
    requires AllOnce(w) && Around(w, v, own)
    ensures AllOnce(v)
  {
    forall id | id in v.txs ensures Once(PaymentOf(v, id)) {
      if id in w.txs {
        assert Once(PaymentOf(w, id));
      }
    }
  }

  lemma SchedulePlaces(s: System, rs: seq<Request>, c: Choice, j: nat)
    requires SysInv(s, rs) && j < |rs|
    ensures var t := Schedule(s, rs, c); Structured(t.world) && |t.pcs| == |rs| && Placed(t.world, t.pcs[j], rs[j])
  {
    assert Placed(s.world, s.pcs[j], rs[j]);
    ScheduleAround(s, rs, c);
    if OwnerOf(s, rs, c) != Some(rs[j].0) {
      OthersStep(s.world, Schedule(s, rs, c).world, OwnerOf(s, rs, c), s.pcs[j], rs[j]);
    } else if c.Proceed? {
      OwnStep(s.world, s.pcs[j], rs[j], c.plan);
    }
  }

  lemma ScheduleKeepsInv(s: System, rs: seq<Request>, c: Choice)
    requires SysInv(s, rs)
    ensures SysInv(Schedule(s, rs, c), rs)
  {
    var t := Schedule(s, rs, c);
    ScheduleAround(s, rs, c);
    AroundKeepsOnce(s.world, t.world, OwnerOf(s, rs, c));
    forall j | 0 <= j < |rs| ensures Placed(t.world, t.pcs[j], rs[j]) {
      SchedulePlaces(s, rs, c, j);
    }
  }

  function Interleave(s: System, rs: seq<Request>, cs: seq<Choice>): System
    requires SysInv(s, rs)
    decreases |cs|
  {
    if cs == [] then s
    else
      ScheduleKeepsInv(s, rs, cs[0]);
      Interleave(Schedule(s, rs, cs[0]), rs, cs[1..])
  }

  lemma {:induction false} InterleaveKeepsInv(s: System, rs: seq<Request>, cs: seq<Choice>)
    requires SysInv(s, rs)
    ensures SysInv(Interleave(s, rs, cs), rs)
    decreases |cs|
  {
    if cs != [] {
      ScheduleKeepsInv(s, rs, cs[0]);
      InterleaveKeepsInv(Schedule(s, rs, cs[0]), rs, cs[1..]);
    }
  }

  /** Requests that have not begun, with fresh ids, in a world any history can have reached. */
  function Initial(ms: seq<Moment>, rs: seq<Request>): System {
    System(Reached(ms), seq(|rs|, _ => Begun))
  }

  /** The requests' ids are told apart, and new. */
  ghost predicate Fresh(ms: seq<Moment>, rs: seq<Request>) {
    DistinctIds(rs) && forall i | 0 <= i < |rs| :: rs[i].0 !in Reached(ms).txs
  }

  lemma InitialInv(ms: seq<Moment>, rs: seq<Request>)
    requires Fresh(ms, rs)
    ensures SysInv(Initial(ms, rs), rs)
  {
    var w := Reached(ms);
    forall id | id in w.txs ensures Once(PaymentOf(w, id)) {
      HealthyIsOnce(PaymentOf(w, id));
    }
  }

  // ---- one collection a key ---------------------------------------------------------------------

  /** Two collections of one transaction leave its share of the log with one that is not the first. */
  lemma SecondCollection(calls: seq<RailCall>, id: string, p: nat, q: nat)
    requires p < q < |calls| && calls[p].txId == calls[q].txId == id && calls[q].CollectCall?
    ensures var mine := Select(calls, CallOwner, id); mine != [] && !NoCollection(mine[1..])
  {
    SelectAt(calls, CallOwner, id, p);
    SelectAt(calls, CallOwner, id, q);
    SelectGrows(calls, CallOwner, id, p, q);
    var mine, j := Select(calls, CallOwner, id), |Select(calls[..q], CallOwner, id)|;
    assert mine[1..][j - 1] == mine[j] == calls[q];
  }

  /** In a world where each payment is collected once, two collections are never for the same one. */
  lemma CollectionsDiffer(w: World, p: nat, q: nat)
    requires Structured(w) && AllOnce(w) && p < q < |w.calls| && w.calls[p].CollectCall? && w.calls[q].CollectCall?
    ensures w.calls[p].txId != w.calls[q].txId
  {
    var id := w.calls[p].txId;
    assert w.calls[p] in w.calls;
    assert Once(PaymentOf(w, id));
    if w.calls[q].txId == id {
      SecondCollection(w.calls, id, p, q);
    }
  }

  /** The theorem: from any reached world, in every interleaving of any number of requests, and with
      callbacks, polls, confirmations and other payments in between, no key is held by two
      transactions and no two collections were ever requested for the same key. */
  lemma OneCollectionPerKey(ms: seq<Moment>, rs: seq<Request>, cs: seq<Choice>, p: nat, q: nat)
    requires Fresh(ms, rs)
    ensures SysInv(Initial(ms, rs), rs)
    ensures var w := Interleave(Initial(ms, rs), rs, cs).world;
      && UniqueKeys(w.txs)
      && (p < |w.calls| && q < |w.calls| && w.calls[p].CollectCall? && w.calls[q].CollectCall? ==>
            && w.calls[p].txId in w.txs && w.calls[q].txId in w.txs
            && var k, l := w.txs[w.calls[p].txId].key, w.txs[w.calls[q].txId].key;
               k.Some? && k == l ==> p == q)
  {
    InitialInv(ms, rs);
    InterleaveKeepsInv(Initial(ms, rs), rs, cs);
    var w := Interleave(Initial(ms, rs), rs, cs).world;
    if p < |w.calls| && q < |w.calls| && w.calls[p].CollectCall? && w.calls[q].CollectCall? {
      var a, b := w.calls[p].txId, w.calls[q].txId;
      assert w.calls[p] in w.calls && w.calls[q] in w.calls;
      assert w.txs[a].key.Some? && w.txs[a].key == w.txs[b].key ==> a == b;
      if p < q {
        CollectionsDiffer(w, p, q);
      } else if q < p {
        CollectionsDiffer(w, q, p);
      }
    }
  }

  /** Every finished request was told the transaction that holds its key. One can fail for an amount that
      is not positive, with no effect; or, on the simulator alone and for a routed payment, when somebody
      else's report overtakes the outcomes it plays out, and then the payment is its own. Nobody is ever
      told of a duplicate. */
  lemma FinishedReturnsWinner(ms: seq<Moment>, rs: seq<Request>, cs: seq<Choice>, i: nat)
    requires Fresh(ms, rs) && i < |rs|
    ensures SysInv(Initial(ms, rs), rs)
    ensures var s, o := Interleave(Initial(ms, rs), rs, cs), rs[i].1;
      && |s.pcs| == |rs|
      && match s.pcs[i]
         case Done(Returned(x)) =>
           && x in s.world.txs
           && (o.key.Some? ==> s.world.txs[x].key == o.key)
           && (o.key.Some? ==> forall y | y in s.world.txs && s.world.txs[y].key == o.key :: y == x)
           && (o.key.None? ==> x == rs[i].0)
           && (x == rs[i].0 ==> Owns(s.world, rs[i]))
         case Done(Raised(fault)) =>
           if fault == InvalidAmount then !o.amount.IsPositive() && rs[i].0 !in s.world.txs
           else PlaysOut(o) && IsRouted(o) && fault != DuplicateIdempotencyKey && Owns(s.world, rs[i])
         case _ => true
  {
    InitialInv(ms, rs);
    InterleaveKeepsInv(Initial(ms, rs), rs, cs);
    var s := Interleave(Initial(ms, rs), rs, cs);
    assert Placed(s.world, s.pcs[i], rs[i]);
  }

  /** Any two finished requests that share a key were told the same transaction. */
  lemma FinishedAgree(ms: seq<Moment>, rs: seq<Request>, cs: seq<Choice>, i: nat, j: nat)
    requires Fresh(ms, rs) && i < |rs| && j < |rs| && rs[i].1.key.Some? && rs[i].1.key == rs[j].1.key
    ensures SysInv(Initial(ms, rs), rs)
    ensures var s := Interleave(Initial(ms, rs), rs, cs);
      && |s.pcs| == |rs|
      && (s.pcs[i].Done? && s.pcs[i].result.Returned? && s.pcs[j].Done? && s.pcs[j].result.Returned? ==>
            s.pcs[i].result == s.pcs[j].result)
  {
    FinishedReturnsWinner(ms, rs, cs, i);
    FinishedReturnsWinner(ms, rs, cs, j);
  }

  // ---- progress -----------------------------------------------------------------------------

  function Left(pc: Pc, r: Request): nat {
    match pc
    case Begun => 8
    case Checked => 7
    case Lost => 1
    case Saved => 6
    case Waiting => 5
    case Answered(_) => 4
    case Playing(n) => if n < |Plays(r.1.scenario)| then |Plays(r.1.scenario)| - n else 1
    case Done(_) => 0
  }

  /** Every own step of a request that is not done is progress. */
  lemma OwnStepIsProgress(w: World, pc: Pc, r: Request, plan: RailPlan)
    requires Indexed(w)
    ensures Left(pc, r) > 0 ==> Left(Next(w, pc, r, plan).pc, r) < Left(pc, r) <= 8
    ensures Left(pc, r) == 0 ==> Next(w, pc, r, plan) == Move(w, pc)
  {
  }

  /** How often a request is given a turn. */
  function TurnsOf(cs: seq<Choice>, i: nat): nat {
    if cs == [] then 0 else (if cs[0].Proceed? && cs[0].i == i then 1 else 0) + TurnsOf(cs[1..], i)
  }

  lemma {:induction false} TurnsAreProgress(s: System, rs: seq<Request>, cs: seq<Choice>, i: nat)
    requires SysInv(s, rs) && i < |rs|
    ensures |Interleave(s, rs, cs).pcs| == |rs|
    ensures Left(Interleave(s, rs, cs).pcs[i], rs[i]) == 0
         || Left(Interleave(s, rs, cs).pcs[i], rs[i]) + TurnsOf(cs, i) <= Left(s.pcs[i], rs[i])
    decreases |cs|
  {
    if cs != [] {
      ScheduleKeepsInv(s, rs, cs[0]);
      TurnsAreProgress(Schedule(s, rs, cs[0]), rs, cs[1..], i);
      if cs[0].Proceed? && cs[0].i < |rs| {
        OwnStepIsProgress(s.world, s.pcs[cs[0].i], rs[cs[0].i], cs[0].plan);
      }
    }
  }

  /** A request given eight turns is done, whatever happens between them. */
  lemma EightTurnsFinish(ms: seq<Moment>, rs: seq<Request>, cs: seq<Choice>, i: nat)
    requires Fresh(ms, rs) && i < |rs| && TurnsOf(cs, i) >= 8
    ensures SysInv(Initial(ms, rs), rs)
    ensures var s := Interleave(Initial(ms, rs), rs, cs); |s.pcs| == |rs| && s.pcs[i].Done?
  {
    InitialInv(ms, rs);
    TurnsAreProgress(Initial(ms, rs), rs, cs, i);
  }
}
