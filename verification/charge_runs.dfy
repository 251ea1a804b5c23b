/** One charge and every attempt on it, with the start of each payment broken into its own steps: when the
    customer is debited once, and when twice. */
module ChargeRuns {
  import opened Common
  import opened MoneyTypes
  import opened Pricing
  import opened Ledger
  import opened StateMachine
  import opened Transactions
  import opened Payments
  import opened Status
  import opened Worlds
  import opened Conservation
  import opened Merchants
  import Services
  import opened IdempotentStart
  import opened StartOutcomes
  import opened ConcurrentHealth
  import opened Charges

  /** One attempt past the charge's guard: the request it became, where that stands, and whether the endpoint
      has taken its answer. */
  datatype Attempt = Attempt(request: Request, pc: Pc, closed: bool)

  /** The world, the payment the charge is linked to, and every attempt so far in order of arrival. */
  datatype Till = Till(world: World, link: Option<string>, attempts: seq<Attempt>)

  datatype Turn =
    | Arrive(id: string, payer: Payer)     // the guard, the merchant, the order
    | Advance(i: nat, plan: RailPlan)      // one step of an attempt's start, or the taking of its answer
    | Meanwhile(moment: Moment)            // anything else in the system

  ghost predicate Attempted(xs: seq<Attempt>, id: string) {
    exists i :: 0 <= i < |xs| && xs[i].request.0 == id
  }

  /** The order one payer's attempt places, if the charge's merchant exists. */
  function RequestOf(shop: Shop, id: string, payer: Payer): Option<Request> {
    match GetById(shop.directory, shop.merchantId)
    case None => None
    case Some(m) => Some((id, OrderOf(shop.amount, m, payer, shop.simulated)))
  }

  /** Once its start is done an attempt's answer is taken: linked, or raised out of the endpoint with the link
      as it was. */
  function AnswerTaken(k: Till, i: nat): Till
    requires i < |k.attempts| && k.attempts[i].pc.Done?
  {
    var x := k.attempts[i];
    var attempts := k.attempts[i := x.(closed := true)];
    match x.pc.result
    case Returned(txId) => k.(link := Some(txId), attempts := attempts)
    case Raised(_) => k.(attempts := attempts)
  }

  ghost function NextTurn(k: Till, shop: Shop, t: Turn): Till
    requires Indexed(k.world)
  {
    match t
    case Arrive(id, payer) =>
      var r := RequestOf(shop, id, payer);
      if id in k.world.txs || Attempted(k.attempts, id) || !IsPayable(k.link, StateOf(k.world, k.link)) || r.None? then k
      else k.(attempts := k.attempts + [Attempt(r.value, Begun, false)])
    case Advance(i, plan) =>
      if i >= |k.attempts| || k.attempts[i].closed then k
      else if k.attempts[i].pc.Done? then AnswerTaken(k, i)
      else
        var mv := Next(k.world, k.attempts[i].pc, k.attempts[i].request, plan);
        k.(world := mv.world, attempts := k.attempts[i := k.attempts[i].(pc := mv.pc)])
    case Meanwhile(m) =>
      if m.event.Begin? && Attempted(k.attempts, m.event.id) then k else k.(world := Step(k.world, m))
  }

  // ---- what every run keeps --------------------------------------------------------------------

  /** An attempt on this charge, where it can stand. */
  ghost predicate InPlace(w: World, shop: Shop, x: Attempt)
    requires Indexed(w)
  {
    var o := x.request.1;
    && o.key == None && o.amount == shop.amount && o.simulated == shop.simulated && !o.defer
    && Placed(w, x.pc, x.request) && (x.closed ==> x.pc.Done?)
  }

  ghost predicate DistinctAttempts(xs: seq<Attempt>) {
    forall i, j | 0 <= i < j < |xs| :: xs[i].request.0 != xs[j].request.0
  }

  ghost predicate AllInPlace(w: World, shop: Shop, xs: seq<Attempt>)
    requires Indexed(w)
  {
    forall i {:trigger xs[i]} | 0 <= i < |xs| :: InPlace(w, shop, xs[i])
  }

  ghost predicate TillInv(k: Till, shop: Shop) {
    Structured(k.world) && DistinctAttempts(k.attempts) && AllInPlace(k.world, shop, k.attempts)
  }

  lemma ArriveKeeps(k: Till, shop: Shop, id: string, payer: Payer)
    requires TillInv(k, shop)
    ensures TillInv(NextTurn(k, shop, Arrive(id, payer)), shop)
  {
  }

  /** A step leaves every attempt but its owner's where it stood. */
  lemma OthersInPlace(k: Till, shop: Shop, v: World, own: Option<string>, j: nat)
    requires TillInv(k, shop) && j < |k.attempts| && Around(k.world, v, own) && own != Some(k.attempts[j].request.0)
    ensures InPlace(v, shop, k.attempts[j])
  {
    OthersStep(k.world, v, own, k.attempts[j].pc, k.attempts[j].request);
  }

  lemma AdvanceKeeps(k: Till, shop: Shop, i: nat, plan: RailPlan)
    requires TillInv(k, shop)
    ensures TillInv(NextTurn(k, shop, Advance(i, plan)), shop)
  {
    if i < |k.attempts| && !k.attempts[i].pc.Done? {
      var x, v := k.attempts[i], NextTurn(k, shop, Advance(i, plan));
      OwnStep(k.world, x.pc, x.request, plan);
      forall j | 0 <= j < |k.attempts| ensures InPlace(v.world, shop, v.attempts[j]) {
        if j != i {
          OthersInPlace(k, shop, v.world, Some(x.request.0), j);
        }
      }
    }
  }

  lemma MeanwhileKeeps(k: Till, shop: Shop, m: Moment)
    requires TillInv(k, shop)
    ensures TillInv(NextTurn(k, shop, Meanwhile(m)), shop)
  {
    if !(m.event.Begin? && Attempted(k.attempts, m.event.id)) {
      EnvStep(k.world, m);
      var own := if m.event.Begin? then Some(m.event.id) else None;
      forall j | 0 <= j < |k.attempts| ensures InPlace(Step(k.world, m), shop, k.attempts[j]) {
        OthersInPlace(k, shop, Step(k.world, m), own, j);
      }
    }
  }

  lemma TurnKeeps(k: Till, shop: Shop, t: Turn)
    requires TillInv(k, shop)
    ensures TillInv(NextTurn(k, shop, t), shop)
  {
    match t
    case Arrive(id, payer) => ArriveKeeps(k, shop, id, payer);
    case Advance(i, plan) => AdvanceKeeps(k, shop, i, plan);
    case Meanwhile(m) => MeanwhileKeeps(k, shop, m);
  }

  ghost function RunTill(k: Till, shop: Shop, ts: seq<Turn>): Till
    requires TillInv(k, shop)
    decreases |ts|
  {
    if ts == [] then k
    else
      TurnKeeps(k, shop, ts[0]);
      RunTill(NextTurn(k, shop, ts[0]), shop, ts[1..])
  }

  lemma {:induction false} RunTillKeeps(k: Till, shop: Shop, ts: seq<Turn>)
    requires TillInv(k, shop)
    ensures TillInv(RunTill(k, shop, ts), shop)
    decreases |ts|
  {
    if ts != [] {
      TurnKeeps(k, shop, ts[0]);
      RunTillKeeps(NextTurn(k, shop, ts[0]), shop, ts[1..]);
    }
  }

  /** A charge nobody has paid yet. */
  function NewTill(w: World): Till {
    Till(w, None, [])
  }

  // ---- calm runs -------------------------------------------------------------------------------

  predicate AllClosed(k: Till) {
    forall i {:trigger k.attempts[i]} | 0 <= i < |k.attempts| :: k.attempts[i].closed
  }

  /** One attempt at a time. */
  ghost predicate InTurn(k: Till, t: Turn) {
    t.Arrive? ==> AllClosed(k)
  }

  /** And, while an attempt's outcomes are played out, nothing else that touches its payment. */
  ghost predicate Calm(k: Till, t: Turn)
    requires Structured(k.world)
  {
    && InTurn(k, t)
    && (t.Meanwhile? ==>
          forall i {:trigger k.attempts[i]} | 0 <= i < |k.attempts| && k.attempts[i].pc.Playing? ::
            Untouched(k.world, t.moment, k.attempts[i].request.0))
  }

  ghost predicate Untouched(w: World, m: Moment, id: string)
    requires Structured(w)
  {
    StepKeepsStructure(w, m);
    id in w.txs ==> PaymentOf(Step(w, m), id) == PaymentOf(w, id)
  }

  ghost predicate CalmRun(k: Till, shop: Shop, ts: seq<Turn>)
    requires TillInv(k, shop)
    decreases |ts|
  {
    ts == [] || (Calm(k, ts[0]) && (TurnKeeps(k, shop, ts[0]); CalmRun(NextTurn(k, shop, ts[0]), shop, ts[1..])))
  }

  ghost predicate RunInTurn(k: Till, shop: Shop, ts: seq<Turn>)
    requires TillInv(k, shop)
    decreases |ts|
  {
    ts == [] || (InTurn(k, ts[0]) && (TurnKeeps(k, shop, ts[0]); RunInTurn(NextTurn(k, shop, ts[0]), shop, ts[1..])))
  }

  /** A payment that collected nothing and never will, or no payment at all. */
  ghost predicate Spent(w: World, id: string) {
    id in w.txs ==> w.txs[id].state == CollectionFailed && Healthy(PaymentOf(w, id))
  }

  /** Where the start of an attempt stands when nothing has touched its payment. */
  ghost predicate OnCourse(w: World, pc: Pc, r: Request)
    requires Indexed(w) && Placed(w, pc, r)
  {
    match pc
    case Playing(n) =>
      && Healthy(PaymentOf(w, r.0)) && w.txs[r.0].provenance == RailVerified
      && w.txs[r.0].state == AwaitingState(Plays(r.1.scenario)[n].0)
    case Done(Returned(x)) => x in w.txs && Healthy(PaymentOf(w, x))
    case Done(Raised(fault)) => fault == InvalidAmount
    case _ => true
  }

  predicate IsOpen(xs: seq<Attempt>) {
    xs != [] && !xs[|xs| - 1].closed
  }

  /** The one payment of the charge that may hold the customer's money: the open attempt's, or the linked one. */
  function Current(k: Till): Option<string> {
    if IsOpen(k.attempts) then Some(k.attempts[|k.attempts| - 1].request.0) else k.link
  }

  /** A payment a charge is linked to; spent, while another attempt is open. */
  ghost predicate GoodLink(w: World, id: string, open: bool) {
    id in w.txs && Healthy(PaymentOf(w, id)) && (open ==> Spent(w, id))
  }

  ghost predicate LinkSound(k: Till) {
    k.link.Some? ==> Attempted(k.attempts, k.link.value) && GoodLink(k.world, k.link.value, IsOpen(k.attempts))
  }

  /** An attempt on its course, and its payment spent unless it is the current one. */
  ghost predicate Well(w: World, current: Option<string>, x: Attempt)
    requires Indexed(w) && Placed(w, x.pc, x.request)
  {
    OnCourse(w, x.pc, x.request) && (Some(x.request.0) != current ==> Spent(w, x.request.0))
  }

  ghost predicate AllWell(w: World, current: Option<string>, xs: seq<Attempt>)
    requires Indexed(w) && forall i {:trigger xs[i]} | 0 <= i < |xs| :: Placed(w, xs[i].pc, xs[i].request)
  {
    forall i {:trigger xs[i]} | 0 <= i < |xs| :: Well(w, current, xs[i])
  }

  predicate OnlyLastOpen(xs: seq<Attempt>) {
    forall i {:trigger xs[i]} | 0 <= i < |xs| - 1 :: xs[i].closed
  }

  ghost predicate CalmInv(k: Till, shop: Shop) {
    TillInv(k, shop) && LinkSound(k) && OnlyLastOpen(k.attempts) && AllWell(k.world, Current(k), k.attempts)
  }

  lemma AttemptedStays(xs: seq<Attempt>, ys: seq<Attempt>, id: string)
    requires Attempted(xs, id) && |xs| <= |ys|
    requires forall i {:trigger xs[i]} {:trigger ys[i]} | 0 <= i < |xs| :: ys[i].request == xs[i].request
    ensures Attempted(ys, id)
  {
    var i :| 0 <= i < |xs| && xs[i].request.0 == id;
    assert ys[i].request.0 == id;
  }

  // ---- a calm turn keeps the course ---------------------------------------------------------------

  /** With every attempt closed, a payable charge has nothing of the customer's: all its payments are spent. */
  lemma PayableMeansSpent(k: Till, shop: Shop, i: nat)
    requires CalmInv(k, shop) && AllClosed(k) && IsPayable(k.link, StateOf(k.world, k.link)) && i < |k.attempts|
    ensures Well(k.world, Current(k), k.attempts[i]) && Spent(k.world, k.attempts[i].request.0)
  {
    assert Well(k.world, Current(k), k.attempts[i]);
    assert !IsOpen(k.attempts);
  }

  lemma CalmArrive(k: Till, shop: Shop, id: string, payer: Payer)
    requires CalmInv(k, shop) && AllClosed(k)
    ensures CalmInv(NextTurn(k, shop, Arrive(id, payer)), shop)
  {
    ArriveKeeps(k, shop, id, payer);
    var v := NextTurn(k, shop, Arrive(id, payer));
    if v != k {
      assert v.attempts[|k.attempts|].request.0 == id && Current(v) == Some(id) && v.world == k.world && v.link == k.link;
      assert forall i {:trigger v.attempts[i]} | 0 <= i < |k.attempts| :: v.attempts[i] == k.attempts[i];
      forall i | 0 <= i < |v.attempts| ensures Well(v.world, Current(v), v.attempts[i]) {
        if i < |k.attempts| {
          PayableMeansSpent(k, shop, i);
        }
      }
      LinkArrived(k, v, shop);
    }
  }

  lemma LinkArrived(k: Till, v: Till, shop: Shop)
    requires CalmInv(k, shop) && AllClosed(k) && IsPayable(k.link, StateOf(k.world, k.link))
    requires v.world == k.world && v.link == k.link && |v.attempts| == |k.attempts| + 1
    requires forall i {:trigger v.attempts[i]} | 0 <= i < |k.attempts| :: v.attempts[i] == k.attempts[i]
    ensures LinkSound(v)
  {
    if k.link.Some? {
      AttemptedStays(k.attempts, v.attempts, k.link.value);
    }
  }

  /** The next step of a start that nothing has touched. */
  lemma CourseHolds(w: World, pc: Pc, r: Request, plan: RailPlan)
    requires Structured(w) && Placed(w, pc, r) && OnCourse(w, pc, r) && r.1.key == None && !pc.Done?
    ensures var mv := Next(w, pc, r, plan);
      Structured(mv.world) && Placed(mv.world, mv.pc, r) && OnCourse(mv.world, mv.pc, r)
  {
    OwnStep(w, pc, r, plan);
    match pc
    case Saved => SavedStands(w, r, plan);
    case Answered(answer) => AnsweredOnCourse(w, answer, r, plan);
    case Playing(n) => PlayingOnCourse(w, n, r, plan);
    case _ =>
  }

  lemma AnsweredOnCourse(w: World, answer: Answer, r: Request, plan: RailPlan)
    requires Structured(w) && Placed(w, Answered(answer), r)
    ensures var mv := Next(w, Answered(answer), r, plan);
      Structured(mv.world) && Placed(mv.world, mv.pc, r) && OnCourse(mv.world, mv.pc, r)
  {
    AnsweredPlaced(w, answer, r, plan);
    OpenedIsHealthy(r, answer);
    CourseBegins(Next(w, Answered(answer), r, plan).world, r, answer);
  }

  lemma CourseBegins(v: World, r: Request, answer: Answer)
    requires Structured(v) && r.0 in v.txs && PaymentOf(v, r.0) == RoutedOpened(r.0, r.1, answer)
    requires r.1.amount.IsPositive() && (r.1.simulated ==> answer.Accepted?) && Placed(v, AfterOpening(r), r)
    ensures OnCourse(v, AfterOpening(r), r)
  {
    OpenedIsHealthy(r, answer);
    assert v.txs[r.0] == PaymentOf(v, r.0).tx;
  }

  lemma PlayingOnCourse(w: World, n: nat, r: Request, plan: RailPlan)
    requires Structured(w) && Placed(w, Playing(n), r) && OnCourse(w, Playing(n), r)
    ensures var mv := Next(w, Playing(n), r, plan);
      Structured(mv.world) && Placed(mv.world, mv.pc, r) && OnCourse(mv.world, mv.pc, r)
  {
    var p, a := PaymentOf(w, r.0), AnswersFor(r.1, plan, r.0);
    var e := Work(Playing(n), p.tx, r, a);
    WorkOnCourse(p, n, r, a);
    OwnStep(w, Playing(n), r, plan);
    PlayTaken(w, n, r, plan, e, Absorb(p, e));
  }

  /** The play a payment is waiting for leaves it waiting for the next. */
  lemma WorkOnCourse(p: Payment, n: nat, r: Request, a: Answers)
    requires Healthy(p) && p.tx.provenance == RailVerified && AcceptsAll(a) && n < |Plays(r.1.scenario)|
    requires p.tx.state == AwaitingState(Plays(r.1.scenario)[n].0)
    ensures var e := Work(Playing(n), p.tx, r, a); var q := Absorb(p, e);
      && e.fault == NoFault && Healthy(q) && q.tx.provenance == RailVerified
      && (n + 1 < |Plays(r.1.scenario)| ==> q.tx.state == AwaitingState(Plays(r.1.scenario)[n + 1].0))
  {
    PlayOnCourse(p, Plays(r.1.scenario)[n].0, Plays(r.1.scenario)[n].1, a);
    PlaysInOrder(r.1.scenario, n);
  }

  lemma PlaysInOrder(scenario: string, n: nat)
    ensures n + 1 < |Plays(scenario)| ==>
      || (Plays(scenario)[n] == (Deposit, true) && Plays(scenario)[n + 1].0 == Payout)
      || (Plays(scenario)[n] == (Payout, false) && Plays(scenario)[n + 1].0 == Refund)
  {
  }

  /** A play that did not raise, with what it left. */
  lemma PlayTaken(w: World, n: nat, r: Request, plan: RailPlan, e: Effect, q: Payment)
    requires Structured(w) && r.0 in w.txs && n < |Plays(r.1.scenario)|
    requires e == Work(Playing(n), w.txs[r.0], r, AnswersFor(r.1, plan, r.0)) && q == Absorb(PaymentOf(w, r.0), e)
    requires e.fault == NoFault && Healthy(q) && q.tx.provenance == RailVerified
    requires n + 1 < |Plays(r.1.scenario)| ==> q.tx.state == AwaitingState(Plays(r.1.scenario)[n + 1].0)
    requires Structured(Next(w, Playing(n), r, plan).world)
    requires Placed(Next(w, Playing(n), r, plan).world, Next(w, Playing(n), r, plan).pc, r)
    ensures OnCourse(Next(w, Playing(n), r, plan).world, Next(w, Playing(n), r, plan).pc, r)
  {
    WorkLeaves(w, Playing(n), r, plan, e, q);
    CourseGoesOn(Next(w, Playing(n), r, plan).world, n, r, q);
  }

  lemma CourseGoesOn(v: World, n: nat, r: Request, q: Payment)
    requires Structured(v) && r.0 in v.txs && PaymentOf(v, r.0) == q && n < |Plays(r.1.scenario)|
    requires Healthy(q) && q.tx.provenance == RailVerified
    requires n + 1 < |Plays(r.1.scenario)| ==> q.tx.state == AwaitingState(Plays(r.1.scenario)[n + 1].0)
    ensures var pc := if n + 1 == |Plays(r.1.scenario)| then Done(Returned(r.0)) else Playing(n + 1);
      Placed(v, pc, r) ==> OnCourse(v, pc, r)
  {
    assert v.txs[r.0] == PaymentOf(v, r.0).tx;
  }

  lemma PlayOnCourse(p: Payment, leg: Leg, success: bool, a: Answers)
    requires Healthy(p) && p.tx.provenance == RailVerified && AcceptsAll(a) && p.tx.state == AwaitingState(leg)
    ensures var e := OnResult(p.tx, leg, success, a); var q := Absorb(p, e);
      && e.fault == NoFault && Healthy(q) && q.tx.provenance == RailVerified
      && (leg == Deposit && success ==> q.tx.state == PayoutPending)
      && (leg == Payout && !success ==> q.tx.state == RefundPending)
  {
    TimelyPlay(p, leg, success, a);
    DefaultFeeCovers(p.tx);
    GuardedFaults(p, leg, success, a);
  }

  /** A payment that somebody else's step has left as it was. */
  lemma WellIfLeft(w: World, v: World, current: Option<string>, x: Attempt)
    requires Structured(w) && Structured(v) && Placed(w, x.pc, x.request) && Placed(v, x.pc, x.request)
    requires x.request.1.key == None && Well(w, current, x)
    requires (x.request.0 in v.txs <==> x.request.0 in w.txs)
    requires x.request.0 in w.txs ==> PaymentOf(v, x.request.0) == PaymentOf(w, x.request.0)
    ensures Well(v, current, x)
  {
    if x.request.0 in w.txs {
      assert PaymentOf(w, x.request.0).tx == w.txs[x.request.0] && PaymentOf(v, x.request.0).tx == v.txs[x.request.0];
    }
  }

  lemma CalmAdvance(k: Till, shop: Shop, i: nat, plan: RailPlan)
    requires CalmInv(k, shop)
    ensures CalmInv(NextTurn(k, shop, Advance(i, plan)), shop)
  {
    AdvanceKeeps(k, shop, i, plan);
    if i < |k.attempts| && !k.attempts[i].closed {
      if k.attempts[i].pc.Done? {
        CalmAnswer(k, shop, i, plan);
      } else {
        CalmStep(k, shop, i, plan);
      }
    }
  }

  lemma CalmStep(k: Till, shop: Shop, i: nat, plan: RailPlan)
    requires CalmInv(k, shop) && i < |k.attempts| && !k.attempts[i].closed && !k.attempts[i].pc.Done?
    ensures CalmInv(NextTurn(k, shop, Advance(i, plan)), shop)
  {
    AdvanceKeeps(k, shop, i, plan);
    var v, x := NextTurn(k, shop, Advance(i, plan)), k.attempts[i];
    assert Well(k.world, Current(k), x);
    CourseHolds(k.world, x.pc, x.request, plan);
    assert Current(v) == Current(k) == Some(x.request.0);
    forall j | 0 <= j < |v.attempts| ensures Well(v.world, Current(v), v.attempts[j]) {
      if j != i {
        OtherWell(k, shop, i, plan, j);
      }
    }
    LinkIsOther(k, x);
    LinkLeft(k, v, x, plan);
  }

  lemma OtherWell(k: Till, shop: Shop, i: nat, plan: RailPlan, j: nat)
    requires CalmInv(k, shop) && i < |k.attempts| && j < |k.attempts| && j != i
    requires !k.attempts[i].closed && !k.attempts[i].pc.Done?
    ensures var v := NextTurn(k, shop, Advance(i, plan));
      TillInv(v, shop) && j < |v.attempts| && Well(v.world, Current(k), v.attempts[j])
  {
    var v, x := NextTurn(k, shop, Advance(i, plan)), k.attempts[i];
    AdvanceKeeps(k, shop, i, plan);
    assert v.attempts[j] == k.attempts[j];
    assert Well(k.world, Current(k), k.attempts[j]) && InPlace(k.world, shop, k.attempts[j]);
    OthersLeft(k.world, x.pc, x.request, plan, k.attempts[j].request.0);
    assert InPlace(v.world, shop, v.attempts[j]);
    WellIfLeft(k.world, v.world, Current(k), k.attempts[j]);
  }

  /** A payment half started is not one the charge is linked to. */
  lemma LinkIsOther(k: Till, x: Attempt)
    requires Structured(k.world) && LinkSound(k) && IsOpen(k.attempts) && Placed(k.world, x.pc, x.request) && !x.pc.Done?
    requires OnCourse(k.world, x.pc, x.request)
    ensures k.link != Some(x.request.0)
  {
    if k.link == Some(x.request.0) {
      assert PaymentOf(k.world, x.request.0).tx == k.world.txs[x.request.0];
      if x.pc.Saved? || x.pc.Waiting? || x.pc.Answered? {
        OpeningTerms(x.pc, x.request);
      }
    }
  }

  lemma LinkLeft(k: Till, v: Till, x: Attempt, plan: RailPlan)
    requires Structured(k.world) && LinkSound(k) && Placed(k.world, x.pc, x.request) && IsOpen(k.attempts) && IsOpen(v.attempts)
    requires v.link == k.link && v.world == Next(k.world, x.pc, x.request, plan).world && Structured(v.world)
    requires k.link != Some(x.request.0)
    requires |v.attempts| == |k.attempts|
    requires forall i {:trigger k.attempts[i]} {:trigger v.attempts[i]} | 0 <= i < |k.attempts| ::
      v.attempts[i].request == k.attempts[i].request
    ensures LinkSound(v)
  {
    if k.link.Some? {
      AttemptedStays(k.attempts, v.attempts, k.link.value);
      OthersLeft(k.world, x.pc, x.request, plan, k.link.value);
      assert PaymentOf(k.world, k.link.value).tx == k.world.txs[k.link.value];
      assert PaymentOf(v.world, k.link.value).tx == v.world.txs[k.link.value];
    }
  }

  lemma CalmAnswer(k: Till, shop: Shop, i: nat, plan: RailPlan)
    requires CalmInv(k, shop) && i < |k.attempts| && !k.attempts[i].closed && k.attempts[i].pc.Done?
    ensures CalmInv(NextTurn(k, shop, Advance(i, plan)), shop)
  {
    AdvanceKeeps(k, shop, i, plan);
    var v, x := NextTurn(k, shop, Advance(i, plan)), k.attempts[i];
    assert i == |k.attempts| - 1 && Current(k) == Some(x.request.0);
    assert Current(v) == v.link && v.world == k.world && v.attempts[i].request == x.request;
    forall j | 0 <= j < |v.attempts| ensures Well(v.world, Current(v), v.attempts[j]) {
      assert Well(k.world, Current(k), k.attempts[j]) && InPlace(k.world, shop, k.attempts[j]);
      if j == i {
        AnswerWell(k.world, shop, x, k.link);
      } else {
        WellWithout(k.world, k.attempts[j], x.request.0, v.link);
      }
    }
    LinkAnswered(k, shop, i);
  }

  /** A payment that is not the current one is spent, whichever is current next. */
  lemma WellWithout(w: World, x: Attempt, id: string, current: Option<string>)
    requires Indexed(w) && Placed(w, x.pc, x.request) && Well(w, Some(id), x) && x.request.0 != id
    ensures Well(w, current, x)
  {
  }

  lemma AnswerWell(w: World, shop: Shop, x: Attempt, link: Option<string>)
    requires Structured(w) && InPlace(w, shop, x) && x.pc.Done? && OnCourse(w, x.pc, x.request)
    ensures Well(w, if x.pc.result.Returned? then Some(x.pc.result.id) else link, x.(closed := true))
  {
  }

  lemma LinkAnswered(k: Till, shop: Shop, i: nat)
    requires CalmInv(k, shop) && i < |k.attempts| && !k.attempts[i].closed && k.attempts[i].pc.Done?
    ensures LinkSound(AnswerTaken(k, i))
  {
    var v, x := AnswerTaken(k, i), k.attempts[i];
    assert Well(k.world, Current(k), x) && InPlace(k.world, shop, x);
    assert !IsOpen(v.attempts) && v.attempts[i].request == x.request;
    if x.pc.result.Returned? {
      assert x.pc.result.id == x.request.0 && GoodLink(k.world, x.request.0, false);
    } else if k.link.Some? {
      AttemptedStays(k.attempts, v.attempts, k.link.value);
    }
  }

  lemma CalmMeanwhile(k: Till, shop: Shop, m: Moment)
    requires CalmInv(k, shop) && Calm(k, Meanwhile(m))
    ensures CalmInv(NextTurn(k, shop, Meanwhile(m)), shop)
  {
    MeanwhileKeeps(k, shop, m);
    if !(m.event.Begin? && Attempted(k.attempts, m.event.id)) {
      AllWellMeanwhile(k, shop, m);
      LinkMeanwhile(k, m);
    }
  }

  lemma AllWellMeanwhile(k: Till, shop: Shop, m: Moment)
    requires CalmInv(k, shop) && Calm(k, Meanwhile(m)) && !(m.event.Begin? && Attempted(k.attempts, m.event.id))
    requires TillInv(k.(world := Step(k.world, m)), shop)
    ensures forall j {:trigger k.attempts[j]} | 0 <= j < |k.attempts| :: InPlace(Step(k.world, m), shop, k.attempts[j])
    ensures AllWell(Step(k.world, m), Current(k), k.attempts)
  {
    assert forall j {:trigger k.attempts[j]} | 0 <= j < |k.attempts| :: InPlace(Step(k.world, m), shop, k.attempts[j]);
    forall j | 0 <= j < |k.attempts| ensures Well(Step(k.world, m), Current(k), k.attempts[j]) {
      WellsMeanwhile(k, shop, m, j);
    }
  }

  lemma WellsMeanwhile(k: Till, shop: Shop, m: Moment, j: nat)
    requires CalmInv(k, shop) && Calm(k, Meanwhile(m)) && !(m.event.Begin? && Attempted(k.attempts, m.event.id))
    requires j < |k.attempts| && TillInv(k.(world := Step(k.world, m)), shop)
    ensures Well(Step(k.world, m), Current(k), k.attempts[j])
  {
    var x := k.attempts[j];
    assert Well(k.world, Current(k), x);
    assert InPlace(Step(k.world, m), shop, k.(world := Step(k.world, m)).attempts[j]);
    WellMeanwhile(k.world, m, Current(k), x);
  }

  lemma LinkMeanwhile(k: Till, m: Moment)
    requires Structured(k.world) && LinkSound(k) && !(m.event.Begin? && Attempted(k.attempts, m.event.id))
    ensures LinkSound(k.(world := Step(k.world, m)))
  {
    if k.link.Some? {
      GoodLinkStays(k.world, m, k.link.value, IsOpen(k.attempts));
    }
  }

  lemma GoodLinkStays(w: World, m: Moment, id: string, open: bool)
    requires Structured(w) && GoodLink(w, id, open)
    ensures GoodLink(Step(w, m), id, open)
  {
    StepKeepsHealth(w, m, id);
    if open {
      TerminalIsFinal(w, m, id);
      assert PaymentOf(w, id).tx == w.txs[id] && PaymentOf(Step(w, m), id).tx == Step(w, m).txs[id];
    }
  }

  /** Nothing ever comes of a spent payment. */
  lemma SpentStays(w: World, m: Moment, id: string)
    requires Structured(w) && Spent(w, id) && !(m.event.Begin? && m.event.id == id)
    ensures Structured(Step(w, m)) && Spent(Step(w, m), id)
  {
    StepKeepsStructure(w, m);
    if id in w.txs {
      TerminalIsFinal(w, m, id);
      assert PaymentOf(w, id).tx == w.txs[id] && PaymentOf(Step(w, m), id).tx == Step(w, m).txs[id];
    }
  }

  lemma WellMeanwhile(w: World, m: Moment, current: Option<string>, x: Attempt)
    requires Structured(w) && Placed(w, x.pc, x.request) && Well(w, current, x)
    requires Structured(Step(w, m)) && Placed(Step(w, m), x.pc, x.request)
    requires !(m.event.Begin? && m.event.id == x.request.0) && x.request.1.key == None
    requires x.pc.Playing? ==> Untouched(w, m, x.request.0)
    ensures Well(Step(w, m), current, x)
  {
    var id := x.request.0;
    if Some(id) != current {
      SpentStays(w, m, id);
    }
    if id in w.txs {
      assert PaymentOf(w, id).tx == w.txs[id] && PaymentOf(Step(w, m), id).tx == Step(w, m).txs[id];
      if x.pc.Done? && x.pc.result.Returned? {
        StepKeepsHealth(w, m, id);
      }
    }
  }

  lemma {:induction false} CalmRunKeeps(k: Till, shop: Shop, ts: seq<Turn>)
    requires CalmInv(k, shop) && CalmRun(k, shop, ts)
    ensures CalmInv(RunTill(k, shop, ts), shop)
    decreases |ts|
  {
    if ts != [] {
      TurnKeeps(k, shop, ts[0]);
      match ts[0] {
        case Arrive(id, payer) => CalmArrive(k, shop, id, payer);
        case Advance(i, plan) => CalmAdvance(k, shop, i, plan);
        case Meanwhile(m) => CalmMeanwhile(k, shop, m);
      }
      CalmRunKeeps(NextTurn(k, shop, ts[0]), shop, ts[1..]);
    }
  }

  // ---- collected once ------------------------------------------------------------------------------

  /** What one payment has put on the customer's account. */
  function SideOf(w: World, id: string, c: Currency): int {
    Net(ForTransaction(w.postings, id), Customer, c)
  }

  function SumOfSides(w: World, xs: seq<Attempt>, c: Currency): int {
    if xs == [] then 0 else SideOf(w, xs[0].request.0, c) + SumOfSides(w, xs[1..], c)
  }

  /** The customer is out of pocket: collected and not refunded. */
  predicate HasDebited(t: Tx) {
    if t.provenance == MerchantAttested then t.state == PayoutSucceeded
    else t.state in {PayoutPending, PayoutSucceeded, RefundPending, ManualReview}
  }

  /** What the charge has of the customer's: its amount while the current payment holds or has spent it. */
  function Holding(k: Till, shop: Shop, c: Currency): int {
    match Current(k)
    case None => 0
    case Some(id) =>
      if id in k.world.txs && c == shop.amount.currency && HasDebited(k.world.txs[id]) then -shop.amount.minor else 0
  }

  lemma SpentIsUnbooked(w: World, id: string)
    requires Structured(w) && Spent(w, id)
    ensures ForTransaction(w.postings, id) == []
  {
    if id in w.txs {
      assert PaymentOf(w, id).tx == w.txs[id] && PaymentOf(w, id).books == ForTransaction(w.postings, id);
    } else {
      SelectAbsent(w.postings, PostingOwner, id);
    }
  }

  lemma HealthySide(w: World, id: string, c: Currency)
    requires Structured(w) && id in w.txs && Healthy(PaymentOf(w, id))
    ensures var t := w.txs[id]; SideOf(w, id, c) == if c == t.amount.currency && HasDebited(t) then -t.amount.minor else 0
  {
    var p := PaymentOf(w, id);
    HealthyIsLockStepped(p);
    ExpectedOfCustomer(p.tx);
    assert Net(p.books, Customer, c) == if c == p.tx.amount.currency then Expected(p.tx, Customer) else 0;
  }

  lemma ExpectedOfCustomer(t: Tx)
    ensures Expected(t, Customer) == if HasDebited(t) then -t.amount.minor else 0
  {
  }

  /** The payment of an attempt on its course. */
  lemma CourseSide(w: World, shop: Shop, x: Attempt, c: Currency)
    requires Structured(w) && InPlace(w, shop, x) && OnCourse(w, x.pc, x.request) && x.request.0 in w.txs
    ensures SideOf(w, x.request.0, c)
         == if c == shop.amount.currency && HasDebited(w.txs[x.request.0]) then -shop.amount.minor else 0
  {
    var id, pc := x.request.0, x.pc;
    assert PaymentOf(w, id).tx == w.txs[id];
    if pc.Saved? || pc.Waiting? || pc.Answered? {
      OpeningTerms(pc, x.request);
      OpeningIsUnbooked(pc, x.request);
    } else {
      HealthySide(w, id, c);
    }
  }

  lemma AttemptSide(k: Till, shop: Shop, i: nat, c: Currency)
    requires CalmInv(k, shop) && i < |k.attempts|
    ensures var id := k.attempts[i].request.0;
      && SideOf(k.world, id, c) == (if Current(k) == Some(id) then Holding(k, shop, c) else 0)
      && (Current(k) != Some(id) ==> ForTransaction(k.world.postings, id) == [])
  {
    var x := k.attempts[i];
    assert Well(k.world, Current(k), x) && InPlace(k.world, shop, x);
    if Current(k) != Some(x.request.0) {
      SpentIsUnbooked(k.world, x.request.0);
    } else if x.request.0 in k.world.txs {
      CourseSide(k.world, shop, x, c);
    } else {
      SpentIsUnbooked(k.world, x.request.0);
    }
  }

  lemma {:induction false} SidesAddUp(w: World, xs: seq<Attempt>, current: Option<string>, held: int, c: Currency)
    requires DistinctAttempts(xs)
    requires forall i | 0 <= i < |xs| :: SideOf(w, xs[i].request.0, c) == if current == Some(xs[i].request.0) then held else 0
    ensures SumOfSides(w, xs, c) == if current.Some? && Attempted(xs, current.value) then held else 0
  {
    if xs != [] {
      var rest := xs[1..];
      assert forall i | 0 <= i < |rest| :: rest[i] == xs[i + 1];
      SidesAddUp(w, rest, current, held, c);
      if current.Some? {
        assert Attempted(rest, current.value) ==> Attempted(xs, current.value) by {
          if j :| 0 <= j < |rest| && rest[j].request.0 == current.value {
            assert xs[j + 1].request.0 == current.value;
          }
        }
        if j :| 0 <= j < |xs| && xs[j].request.0 == current.value {
          assert j > 0 ==> rest[j - 1].request.0 == current.value;
        }
      }
    }
  }

  /** Two payments of one charge that both have the customer's money. */
  ghost predicate CollectedTwice(k: Till, shop: Shop) {
    exists i, j :: 0 <= i < j < |k.attempts|
      && SideOf(k.world, k.attempts[i].request.0, shop.amount.currency) < 0
      && SideOf(k.world, k.attempts[j].request.0, shop.amount.currency) < 0
  }

  /** All the charge's payments but the current one have no posting at all, and together they debit the
      customer nothing, or the charge's amount once. */
  ghost predicate CollectedOnce(k: Till, shop: Shop, c: Currency) {
    && (forall i {:trigger k.attempts[i]} | 0 <= i < |k.attempts| && Current(k) != Some(k.attempts[i].request.0) ::
          ForTransaction(k.world.postings, k.attempts[i].request.0) == [])
    && SumOfSides(k.world, k.attempts, c) == Holding(k, shop, c)
  }

  lemma CalmCollectsOnce(k: Till, shop: Shop, c: Currency)
    requires CalmInv(k, shop)
    ensures CollectedOnce(k, shop, c) && !CollectedTwice(k, shop)
  {
    forall i, d | 0 <= i < |k.attempts|
      ensures SideOf(k.world, k.attempts[i].request.0, d)
           == if Current(k) == Some(k.attempts[i].request.0) then Holding(k, shop, d) else 0
      ensures Current(k) != Some(k.attempts[i].request.0) ==> ForTransaction(k.world.postings, k.attempts[i].request.0) == []
    {
      AttemptSide(k, shop, i, d);
    }
    SidesAddUp(k.world, k.attempts, Current(k), Holding(k, shop, c), c);
    if IsOpen(k.attempts) {
      assert k.attempts[|k.attempts| - 1].request.0 == Current(k).value;
    }
  }

  lemma NewTillIsCalm(w: World, shop: Shop)
    requires Structured(w)
    ensures CalmInv(NewTill(w), shop)
  {
  }

  /** A charge paid one attempt at a time, with nothing touching a payment while its outcomes are played out,
      is collected at most once, whatever else happens and however its attempts end. */
  lemma ChargeCollectsOnce(w: World, shop: Shop, ts: seq<Turn>, c: Currency)
    requires Inv(w)
    ensures TillInv(NewTill(w), shop)
    ensures CalmRun(NewTill(w), shop, ts) ==>
      && CollectedOnce(RunTill(NewTill(w), shop, ts), shop, c)
      && !CollectedTwice(RunTill(NewTill(w), shop, ts), shop)
  {
    NewTillIsCalm(w, shop);
    if CalmRun(NewTill(w), shop, ts) {
      CalmRunKeeps(NewTill(w), shop, ts);
      CalmCollectsOnce(RunTill(NewTill(w), shop, ts), shop, c);
    }
  }

  // ---- collected twice ------------------------------------------------------------------------------

  lemma RunFirst(k: Till, shop: Shop, t: Turn, ts: seq<Turn>)
    requires TillInv(k, shop)
    ensures TillInv(NextTurn(k, shop, t), shop)
    ensures RunTill(k, shop, [t] + ts) == RunTill(NextTurn(k, shop, t), shop, ts)
    ensures RunInTurn(k, shop, [t] + ts) <==> InTurn(k, t) && RunInTurn(NextTurn(k, shop, t), shop, ts)
  {
    TurnKeeps(k, shop, t);
    assert ([t] + ts)[1..] == ts;
  }

  lemma {:induction false} RunTillConcat(k: Till, shop: Shop, ts: seq<Turn>, us: seq<Turn>)
    requires TillInv(k, shop)
    ensures TillInv(RunTill(k, shop, ts), shop)
    ensures RunTill(k, shop, ts + us) == RunTill(RunTill(k, shop, ts), shop, us)
    ensures RunInTurn(k, shop, ts + us) <==> RunInTurn(k, shop, ts) && RunInTurn(RunTill(k, shop, ts), shop, us)
    decreases |ts|
  {
    if ts == [] {
      assert ts + us == us;
    } else {
      TurnKeeps(k, shop, ts[0]);
      SplitFirst(ts, us);
      RunTillConcat(NextTurn(k, shop, ts[0]), shop, ts[1..], us);
    }
  }

  /** Every payment but one is as it was. */
  ghost predicate Elsewhere(w: World, v: World, id: string) {
    forall x {:trigger x in v.txs} | x != id :: (x in v.txs <==> x in w.txs) && (x in w.txs ==> PaymentOf(v, x) == PaymentOf(w, x))
  }

  lemma SideElsewhere(w: World, v: World, id: string, x: string, c: Currency)
    requires Structured(w) && Structured(v) && Elsewhere(w, v, id) && x != id
    ensures SideOf(v, x, c) == SideOf(w, x, c)
  {
    if x in v.txs {
      assert PaymentOf(v, x).books == PaymentOf(w, x).books;
    } else {
      SelectAbsent(v.postings, PostingOwner, x);
      SelectAbsent(w.postings, PostingOwner, x);
    }
  }

  /** One attempt on its way to an opened payment. */
  ghost predicate OnItsWay(k: Till, shop: Shop, i: nat, n: nat) {
    && TillInv(k, shop) && i < |k.attempts| && !k.attempts[i].closed && IsRouted(k.attempts[i].request.1)
    && shop.amount.IsPositive()
    && (if n == 0 then
          && k.attempts[i].pc == AfterOpening(k.attempts[i].request) && k.attempts[i].request.0 in k.world.txs
          && PaymentOf(k.world, k.attempts[i].request.0)
               == RoutedOpened(k.attempts[i].request.0, k.attempts[i].request.1,
                               SimulatedAnswers(k.attempts[i].request.0).deposit)
        else TurnsToOpen(k.attempts[i].pc, n, SimulatedAnswers(k.attempts[i].request.0)))
  }

  lemma OthersElsewhere(w: World, pc: Pc, r: Request, plan: RailPlan)
    requires Structured(w) && Placed(w, pc, r)
    ensures Elsewhere(w, Next(w, pc, r, plan).world, r.0)
  {
    forall x | x != r.0
      ensures (x in Next(w, pc, r, plan).world.txs <==> x in w.txs)
      ensures x in w.txs ==> PaymentOf(Next(w, pc, r, plan).world, x) == PaymentOf(w, x)
    {
      OthersLeft(w, pc, r, plan, x);
    }
  }

  /** One attempt has gone on, and with it at most its own payment. */
  ghost predicate GoesOn(k: Till, v: Till, i: nat) {
    && i < |k.attempts| && v.link == k.link && |v.attempts| == |k.attempts|
    && v.attempts[i].request == k.attempts[i].request && Elsewhere(k.world, v.world, k.attempts[i].request.0)
    && (forall j {:trigger v.attempts[j]} | 0 <= j < |k.attempts| && j != i :: v.attempts[j] == k.attempts[j])
  }

  lemma GoesFurther(k: Till, u: Till, v: Till, i: nat)
    requires GoesOn(k, u, i) && GoesOn(u, v, i)
    ensures GoesOn(k, v, i)
  {
  }

  /** One turn nearer. */
  lemma TurnOnTheWay(k: Till, shop: Shop, i: nat, n: nat, plan: RailPlan) returns (v: Till)
    requires OnItsWay(k, shop, i, n) && n > 0 && plan(k.attempts[i].request.0) == SimulatedAnswers(k.attempts[i].request.0)
    ensures v == NextTurn(k, shop, Advance(i, plan)) && OnItsWay(v, shop, i, n - 1) && GoesOn(k, v, i)
  {
    var x := k.attempts[i];
    v := NextTurn(k, shop, Advance(i, plan));
    assert InPlace(k.world, shop, x);
    AdvanceKeeps(k, shop, i, plan);
    OneTurnNearer(k.world, x.pc, x.request, n, plan);
    OthersElsewhere(k.world, x.pc, x.request, plan);
  }

  /** A report that an opened payment's deposit is done: the customer is debited. */
  lemma ReportDebits(w: World, r: Request, m: Moment)
    requires Structured(w) && r.0 in w.txs && IsRouted(r.1) && r.1.amount.IsPositive()
    requires PaymentOf(w, r.0) == RoutedOpened(r.0, r.1, SimulatedAnswers(r.0).deposit)
    requires m.event == Polled(r.0, Deposit, Success) && m.plan(r.0) == SimulatedAnswers(r.0)
    ensures var v := Step(w, m);
      && Structured(v) && r.0 in v.txs && v.txs[r.0].state == PayoutPending && Elsewhere(w, v, r.0)
      && SideOf(v, r.0, r.1.amount.currency) == -r.1.amount.minor
  {
    var p, a := PaymentOf(w, r.0), SimulatedAnswers(r.0);
    SimulatedOpening(r.0, r.1);
    OpenedInSteps(NewRouted(r.0, r.1), a.deposit);
    SimulatedDeposit(p);
    HandlersAreLocal(p.tx, Deposit, true, a);
    StepKeepsStructure(w, m);
    StepOn(w, m, r.0);
    var v := Step(w, m);
    assert PaymentOf(v, r.0).tx == v.txs[r.0] && w.txs[r.0] == p.tx;
    HealthySide(v, r.0, r.1.amount.currency);
    forall x | x != r.0
      ensures (x in v.txs <==> x in w.txs) && (x in w.txs ==> PaymentOf(v, x) == PaymentOf(w, x))
    {
      if x in w.txs {
        StepOn(w, m, x);
      }
    }
  }

  function DepositDoneTurn(id: string): Turn {
    Meanwhile(Moment(Polled(id, Deposit, Success), _ => SimulatedAnswers(id)))
  }

  /** An attempt whose payment has debited the customer, before the endpoint took its answer. */
  ghost predicate Debited(k: Till, shop: Shop, i: nat) {
    && TillInv(k, shop) && i < |k.attempts| && !k.attempts[i].closed
    && k.attempts[i].pc == AfterOpening(k.attempts[i].request)
    && k.attempts[i].request.0 in k.world.txs && k.world.txs[k.attempts[i].request.0].state == PayoutPending
    && SideOf(k.world, k.attempts[i].request.0, shop.amount.currency) < 0
  }

  lemma DepositTurn(k: Till, shop: Shop, i: nat) returns (v: Till)
    requires OnItsWay(k, shop, i, 0)
    ensures v == NextTurn(k, shop, DepositDoneTurn(k.attempts[i].request.0)) && Debited(v, shop, i) && GoesOn(k, v, i)
  {
    var r := k.attempts[i].request;
    assert InPlace(k.world, shop, k.attempts[i]);
    var m := DepositDoneTurn(r.0).moment;
    v := NextTurn(k, shop, Meanwhile(m));
    MeanwhileKeeps(k, shop, m);
    ReportDebits(k.world, r, m);
  }

  /** From wherever an attempt is on its way: so many turns of its own, then the report. */
  lemma {:induction false} WayToDebit(k: Till, shop: Shop, i: nat, n: nat) returns (ts: seq<Turn>)
    requires OnItsWay(k, shop, i, n)
    ensures RunInTurn(k, shop, ts)
    ensures Debited(RunTill(k, shop, ts), shop, i) && GoesOn(k, RunTill(k, shop, ts), i)
    decreases n
  {
    var id := k.attempts[i].request.0;
    if n == 0 {
      var v := DepositTurn(k, shop, i);
      RunFirst(k, shop, DepositDoneTurn(id), []);
      ts := [DepositDoneTurn(id)] + [];
    } else {
      var plan: RailPlan := _ => SimulatedAnswers(id);
      var v := TurnOnTheWay(k, shop, i, n, plan);
      var rest := WayToDebit(v, shop, i, n - 1);
      GoesFurther(k, v, RunTill(v, shop, rest), i);
      RunFirst(k, shop, Advance(i, plan), rest);
      ts := [Advance(i, plan)] + rest;
    }
  }

  // ---- ids and payers for the witnesses ---------------------------------------------------------------

  function Longest(order: seq<string>): (n: nat)
    ensures forall id | id in order :: |id| <= n
  {
    if order == [] then 0
    else if |order[0]| > Longest(order[1..]) then |order[0]| else Longest(order[1..])
  }

  lemma FreshIds(w: World) returns (a: string, b: string)
    requires Indexed(w)
    ensures a != b && a !in w.txs && b !in w.txs
  {
    a := seq(Longest(w.order) + 1, _ => 'x');
    b := seq(Longest(w.order) + 2, _ => 'x');
    assert |a| < |b|;
  }

  /** A payer on another network than the merchant's. */
  function OffNetPayer(m: Merchant): Payer {
    var merchants := Services.ResolveProvider(None, m.settlementProvider);
    Payer("", if merchants == "AIRTEL_COD" then "ORANGE_COD" else "AIRTEL_COD", "success", None)
  }

  lemma OffNetIsRouted(amount: Money, m: Merchant, simulated: bool)
    ensures IsRouted(OrderOf(amount, m, OffNetPayer(m), simulated))
  {
  }

  // ---- two debits ------------------------------------------------------------------------------------

  lemma ArrivesOnItsWay(k: Till, shop: Shop, m: Merchant, id: string) returns (v: Till)
    requires TillInv(k, shop) && GetById(shop.directory, shop.merchantId) == Some(m) && shop.amount.IsPositive()
    requires k.link == None && id !in k.world.txs && !Attempted(k.attempts, id)
    ensures v == NextTurn(k, shop, Arrive(id, OffNetPayer(m))) && OnItsWay(v, shop, |k.attempts|, 5)
    ensures v.world == k.world && v.link == None && |v.attempts| == |k.attempts| + 1
    ensures v.attempts[|k.attempts|].request.0 == id
    ensures forall j {:trigger v.attempts[j]} | 0 <= j < |k.attempts| :: v.attempts[j] == k.attempts[j]
  {
    v := NextTurn(k, shop, Arrive(id, OffNetPayer(m)));
    ArriveKeeps(k, shop, id, OffNetPayer(m));
    OffNetIsRouted(shop.amount, m, shop.simulated);
  }

  /** The next attempt on a charge still unlinked, up to its debit. */
  lemma NextDebit(k: Till, shop: Shop, m: Merchant, id: string) returns (ts: seq<Turn>)
    requires TillInv(k, shop) && GetById(shop.directory, shop.merchantId) == Some(m) && shop.amount.IsPositive()
    requires k.link == None && id !in k.world.txs && !Attempted(k.attempts, id)
    ensures AllClosed(k) ==> RunInTurn(k, shop, ts)
    ensures var v := RunTill(k, shop, ts);
      && Debited(v, shop, |k.attempts|) && v.link == None && Elsewhere(k.world, v.world, id)
      && |v.attempts| == |k.attempts| + 1 && v.attempts[|k.attempts|].request.0 == id
      && (forall j {:trigger v.attempts[j]} | 0 <= j < |k.attempts| :: v.attempts[j] == k.attempts[j])
  {
    var v := ArrivesOnItsWay(k, shop, m, id);
    var rest := WayToDebit(v, shop, |k.attempts|, 5);
    RunFirst(k, shop, Arrive(id, OffNetPayer(m)), rest);
    ts := [Arrive(id, OffNetPayer(m))] + rest;
  }

  /** A second debit on top of a first. */
  lemma SecondDebit(k: Till, shop: Shop, m: Merchant, id: string) returns (ts: seq<Turn>)
    requires TillInv(k, shop) && GetById(shop.directory, shop.merchantId) == Some(m) && shop.amount.IsPositive()
    requires k.link == None && id !in k.world.txs && |k.attempts| == 1 && k.attempts[0].request.0 != id
    requires SideOf(k.world, k.attempts[0].request.0, shop.amount.currency) < 0
    ensures AllClosed(k) ==> RunInTurn(k, shop, ts)
    ensures CollectedTwice(RunTill(k, shop, ts), shop)
  {
    ts := NextDebit(k, shop, m, id);
    var v := RunTill(k, shop, ts);
    SideElsewhere(k.world, v.world, id, k.attempts[0].request.0, shop.amount.currency);
    assert v.attempts[0].request.0 == k.attempts[0].request.0;
  }

  /** The first play of a debited simulated payment raises, and the charge is left unlinked. */
  lemma RaisingTurn(k: Till, shop: Shop, plan: RailPlan) returns (v: Till)
    requires Debited(k, shop, 0) && |k.attempts| == 1 && shop.simulated
    ensures v == NextTurn(k, shop, Advance(0, plan)) && TillInv(v, shop)
    ensures v.link == k.link && |v.attempts| == 1 && v.attempts[0].request == k.attempts[0].request
    ensures !v.attempts[0].closed && v.attempts[0].pc.Done? && v.attempts[0].pc.result.Raised?
    ensures SideOf(v.world, k.attempts[0].request.0, shop.amount.currency) < 0
    ensures Elsewhere(k.world, v.world, k.attempts[0].request.0)
  {
    var x := k.attempts[0];
    assert InPlace(k.world, shop, x) && x.pc == Playing(0);
    v := NextTurn(k, shop, Advance(0, plan));
    AdvanceKeeps(k, shop, 0, plan);
    OthersElsewhere(k.world, x.pc, x.request, plan);
    FirstPlayRaises(k.world, x.request, plan);
    assert PaymentOf(v.world, x.request.0).books == PaymentOf(k.world, x.request.0).books;
  }

  /** The failing input, one attempt at a time: the report overtakes the play-out, the start raises, the charge
      stays payable, and the retry collects again. */
  lemma OvertakenThenRetried(k: Till, shop: Shop, m: Merchant, id: string) returns (ts: seq<Turn>)
    requires Debited(k, shop, 0) && |k.attempts| == 1 && k.link == None && shop.simulated && shop.amount.IsPositive()
    requires GetById(shop.directory, shop.merchantId) == Some(m)
    requires id !in k.world.txs && k.attempts[0].request.0 != id
    ensures RunInTurn(k, shop, ts) && CollectedTwice(RunTill(k, shop, ts), shop)
  {
    var plan: RailPlan := _ => SimulatedAnswers(id);
    var raised := RaisingTurn(k, shop, plan);
    var closed := ClosingTurn(raised, shop, plan);
    var rest := SecondDebit(closed, shop, m, id);
    RunFirst(raised, shop, Advance(0, plan), rest);
    RunFirst(k, shop, Advance(0, plan), [Advance(0, plan)] + rest);
    ts := [Advance(0, plan)] + ([Advance(0, plan)] + rest);
  }

  lemma ClosingTurn(k: Till, shop: Shop, plan: RailPlan) returns (v: Till)
    requires TillInv(k, shop) && |k.attempts| == 1 && !k.attempts[0].closed
    requires k.attempts[0].pc.Done? && k.attempts[0].pc.result.Raised?
    ensures v == NextTurn(k, shop, Advance(0, plan)) && TillInv(v, shop) && AllClosed(v)
    ensures v.world == k.world && v.link == k.link && |v.attempts| == 1 && v.attempts[0].request == k.attempts[0].request
  {
    v := NextTurn(k, shop, Advance(0, plan));
    AdvanceKeeps(k, shop, 0, plan);
  }

  lemma FirstDebit(w: World, shop: Shop, m: Merchant, id: string) returns (ts: seq<Turn>)
    requires Structured(w) && GetById(shop.directory, shop.merchantId) == Some(m) && shop.amount.IsPositive() && id !in w.txs
    ensures TillInv(NewTill(w), shop) && RunInTurn(NewTill(w), shop, ts)
    ensures var v := RunTill(NewTill(w), shop, ts);
      && Debited(v, shop, 0) && v.link == None && |v.attempts| == 1 && v.attempts[0].request.0 == id
      && Elsewhere(w, v.world, id)
  {
    ts := NextDebit(NewTill(w), shop, m, id);
  }

  // ---- exactly when ----------------------------------------------------------------------------------

  ghost predicate TwiceUnder(w: World, shop: Shop, ts: seq<Turn>)
    requires TillInv(NewTill(w), shop)
  {
    CollectedTwice(RunTill(NewTill(w), shop, ts), shop)
  }

  /** Two attempts that overlap debit the customer twice. */
  lemma OverlappingAttempts(w: World, shop: Shop, m: Merchant) returns (ts: seq<Turn>)
    requires Structured(w) && GetById(shop.directory, shop.merchantId) == Some(m) && shop.amount.IsPositive()
    ensures TillInv(NewTill(w), shop) && TwiceUnder(w, shop, ts)
  {
    var a, b := FreshIds(w);
    var first := FirstDebit(w, shop, m, a);
    var k := RunTill(NewTill(w), shop, first);
    assert b in k.world.txs <==> b in w.txs;
    var second := SecondDebit(k, shop, m, b);
    RunTillConcat(NewTill(w), shop, first, second);
    ts := first + second;
  }

  /** On the simulator one attempt after another is enough. */
  lemma RetriedAttempt(w: World, shop: Shop, m: Merchant) returns (ts: seq<Turn>)
    requires Structured(w) && GetById(shop.directory, shop.merchantId) == Some(m) && shop.amount.IsPositive() && shop.simulated
    ensures TillInv(NewTill(w), shop) && RunInTurn(NewTill(w), shop, ts) && TwiceUnder(w, shop, ts)
  {
    var a, b := FreshIds(w);
    var first := FirstDebit(w, shop, m, a);
    var k := RunTill(NewTill(w), shop, first);
    assert b in k.world.txs <==> b in w.txs;
    var second := OvertakenThenRetried(k, shop, m, b);
    RunTillConcat(NewTill(w), shop, first, second);
    ts := first + second;
  }

  lemma {:induction false} NoMerchantNoAttempt(k: Till, shop: Shop, ts: seq<Turn>)
    requires TillInv(k, shop) && k.attempts == [] && GetById(shop.directory, shop.merchantId) == None
    ensures RunTill(k, shop, ts).attempts == []
    decreases |ts|
  {
    if ts != [] {
      TurnKeeps(k, shop, ts[0]);
      NoMerchantNoAttempt(NextTurn(k, shop, ts[0]), shop, ts[1..]);
    }
  }

  lemma TwiceMeans(w: World, shop: Shop, ts: seq<Turn>)
    requires Structured(w) && TillInv(NewTill(w), shop) && TwiceUnder(w, shop, ts)
    ensures GetById(shop.directory, shop.merchantId).Some? && shop.amount.IsPositive()
  {
    var k := RunTill(NewTill(w), shop, ts);
    RunTillKeeps(NewTill(w), shop, ts);
    var i, j :| 0 <= i < j < |k.attempts|
      && SideOf(k.world, k.attempts[i].request.0, shop.amount.currency) < 0
      && SideOf(k.world, k.attempts[j].request.0, shop.amount.currency) < 0;
    DebitNeedsAmount(k, shop, i);
    if GetById(shop.directory, shop.merchantId) == None {
      NoMerchantNoAttempt(NewTill(w), shop, ts);
    }
  }

  lemma DebitNeedsAmount(k: Till, shop: Shop, i: nat)
    requires TillInv(k, shop) && i < |k.attempts|
    requires SideOf(k.world, k.attempts[i].request.0, shop.amount.currency) < 0
    ensures shop.amount.IsPositive()
  {
    assert InPlace(k.world, shop, k.attempts[i]);
    UnstoredSide(k.world, k.attempts[i].request.0, shop.amount.currency);
  }

  lemma UnstoredSide(w: World, id: string, c: Currency)
    requires Structured(w)
    ensures id !in w.txs ==> SideOf(w, id, c) == 0
  {
    if id !in w.txs {
      SpentIsUnbooked(w, id);
    }
  }

  /** Off the simulator nothing is played out, so one attempt at a time is calm. */
  lemma {:induction false} LiveInTurnIsCalm(k: Till, shop: Shop, ts: seq<Turn>)
    requires TillInv(k, shop) && !shop.simulated && RunInTurn(k, shop, ts)
    ensures CalmRun(k, shop, ts)
    decreases |ts|
  {
    if ts != [] {
      TurnKeeps(k, shop, ts[0]);
      forall i | 0 <= i < |k.attempts| ensures !k.attempts[i].pc.Playing? {
        assert InPlace(k.world, shop, k.attempts[i]);
      }
      LiveInTurnIsCalm(NextTurn(k, shop, ts[0]), shop, ts[1..]);
    }
  }

  /** The exact conditions. Some run debits the customer twice for one charge if and only if the charge can be
      paid at all; and one that takes its attempts strictly one after another does if and only if, besides,
      its payments are played out on the simulator. */
  lemma CollectedTwiceIff(w: World, shop: Shop)
    requires Inv(w)
    ensures TillInv(NewTill(w), shop)
    ensures (exists ts :: TwiceUnder(w, shop, ts))
       <==> (GetById(shop.directory, shop.merchantId).Some? && shop.amount.IsPositive())
    ensures (exists ts :: RunInTurn(NewTill(w), shop, ts) && TwiceUnder(w, shop, ts))
       <==> (GetById(shop.directory, shop.merchantId).Some? && shop.amount.IsPositive() && shop.simulated)
  {
    NewTillIsCalm(w, shop);
    if ts :| TwiceUnder(w, shop, ts) {
      TwiceMeans(w, shop, ts);
    }
    if ts :| RunInTurn(NewTill(w), shop, ts) && TwiceUnder(w, shop, ts) {
      TwiceMeans(w, shop, ts);
      if !shop.simulated {
        LiveInTurnIsCalm(NewTill(w), shop, ts);
        ChargeCollectsOnce(w, shop, ts, USD);
      }
    }
    if GetById(shop.directory, shop.merchantId).Some? && shop.amount.IsPositive() {
      var m := GetById(shop.directory, shop.merchantId).value;
      var overlapping := OverlappingAttempts(w, shop, m);
      if shop.simulated {
        var retried := RetriedAttempt(w, shop, m);
      }
    }
  }

  // ---- alone, an attempt is the atomic one -------------------------------------------------------------

  /** The turns of one attempt and of nothing else, to its end. */
  lemma {:induction false} SoloTurns(k: Till, shop: Shop, i: nat, plan: RailPlan) returns (ts: seq<Turn>)
    requires TillInv(k, shop) && i < |k.attempts| && !k.attempts[i].closed
    ensures InPlace(k.world, shop, k.attempts[i])
    ensures var v, x := RunTill(k, shop, ts), k.attempts[i];
      var end := Solo(k.world, x.pc, x.request, plan);
      && v.world == end.world && end.pc.Done?
      && v.link == if end.pc.result.Returned? then Some(end.pc.result.id) else k.link
    decreases Left(k.attempts[i].pc, k.attempts[i].request)
  {
    var x, t := k.attempts[i], Advance(i, plan);
    assert InPlace(k.world, shop, x);
    var v := NextTurn(k, shop, t);
    AdvanceKeeps(k, shop, i, plan);
    if x.pc.Done? {
      RunFirst(k, shop, t, []);
      ts := [t] + [];
    } else {
      OwnStepIsProgress(k.world, x.pc, x.request, plan);
      var mv := SoloStep(k.world, x.pc, x.request, plan);
      var rest := SoloTurns(v, shop, i, plan);
      RunFirst(k, shop, t, rest);
      ts := [t] + rest;
    }
  }

  /** A pay request that nothing interrupts comes to what the endpoint does in one piece. */
  lemma {:induction false} AloneIsPayOn(k: Till, shop: Shop, payer: Payer, id: string, plan: RailPlan) returns (ts: seq<Turn>)
    requires TillInv(k, shop) && id !in k.world.txs && !Attempted(k.attempts, id)
    ensures var v, end := RunTill(k, shop, ts), PayOn(k.world, k.link, shop, payer, id, plan);
      v.world == end.world && v.link == end.link
  {
    var arrival := Arrive(id, payer);
    var v := NextTurn(k, shop, arrival);
    ArriveKeeps(k, shop, id, payer);
    if v == k {
      ts := [];
    } else {
      var rest := SoloTurns(v, shop, |k.attempts|, plan);
      RunFirst(k, shop, arrival, rest);
      SoloIsAtomic(k.world, RequestOf(shop, id, payer).value, plan);
      ts := [arrival] + rest;
    }
  }
}
