/** Push or poll, once or again, in any order: a payment ends the same way. */
module Confluence {
  import opened Common
  import opened Ledger
  import opened StateMachine
  import opened Transactions
  import opened Payments
  import opened Status
  import opened Worlds
  import opened Conservation

  // ---- on-net isolation ---------------------------------------------------------------

  /** No callback, poll or new payment ever moves an on-net payment: only a word about itself does. */
  lemma {:induction false} OnNetIsolated(w: World, ms: seq<Moment>, id: string)
    requires Inv(w) && id in w.txs && w.txs[id].provenance == MerchantAttested
    requires forall m | m in ms :: m.event.Confirm? ==> m.event.txId != id
    ensures id in Run(w, ms).txs && PaymentOf(Run(w, ms), id) == PaymentOf(w, id)
    decreases |ms|
  {
    if ms != [] {
      var m := ms[0];
      StepOn(w, m, id);
      StepKeepsInv(w, m);
      assert WellKept(PaymentOf(w, id));
      if m.event.Callback? {
        var found := FirstWithOpId(w.order, w.txs, m.event.opId);
        if found.Some? {
          CarrierIsRouted(w, found.value, m.event.opId);
        }
      }
      OnNetIsolated(Step(w, m), ms[1..], id);
    }
  }

  /** In every run an on-net payment has one posting, customer to merchant for the whole amount, if it
      is paid and none otherwise; it holds no operation id and has asked the rail nothing. */
  lemma OnNetBooks(ms: seq<Moment>, id: string)
    requires id in Reached(ms).txs && Reached(ms).txs[id].provenance == MerchantAttested
    ensures var p := PaymentOf(Reached(ms), id);
      && (p.tx.state == PayoutSucceeded <==> p.books == [OnNetPosting(p.tx)])
      && (p.tx.state != PayoutSucceeded <==> p.books == [])
      && p.calls == [] && p.tx.depositId == p.tx.payoutId == p.tx.refundId == None
  {
    assert WellKept(PaymentOf(Reached(ms), id));
  }

  /** The first word a merchant gives about a payment, whatever others say of it. */
  function FirstWord(ms: seq<Moment>, id: string, merchantId: Option<string>): Option<bool> {
    if ms == [] then None
    else
      match ms[0].event
      case Confirm(about, speaker, received) =>
        if about == id && merchantId == Some(speaker) then Some(received) else FirstWord(ms[1..], id, merchantId)
      case _ => FirstWord(ms[1..], id, merchantId)
  }

  /** Where a payment that waited for its merchant's word is left by it. */
  function LeftBy(word: Option<bool>): TxState {
    match word
    case None => CollectionPending
    case Some(received) => if received then PayoutSucceeded else CollectionFailed
  }

  lemma OnNetStep(w: World, m: Moment, id: string)
    requires Inv(w) && id in w.txs && w.txs[id].provenance == MerchantAttested
    ensures id in Step(w, m).txs && CanonicalOnNet(PaymentOf(w, id))
    ensures PaymentOf(Step(w, m), id)
         == if m.event.Confirm? && m.event.txId == id
            then ApplyConfirm(PaymentOf(w, id), m.event.merchantId, m.event.received) else PaymentOf(w, id)
  {
    assert WellKept(PaymentOf(w, id));
    if m.event.Confirm? && m.event.txId == id {
      StepOn(w, m, id);
    } else {
      OnNetIsolated(w, [m], id);
      assert Run(w, [m]) == Step(w, m);
    }
  }

  /** One event, seen by an on-net payment: the owner's word if it is still awaited, and nothing else. */
  lemma OnNetHears(w: World, m: Moment, id: string)
    requires Inv(w) && id in w.txs && w.txs[id].provenance == MerchantAttested
    ensures Inv(Step(w, m)) && id in Step(w, m).txs && SameTerms(w.txs[id], Step(w, m).txs[id])
    ensures w.txs[id].state != CollectionPending || FirstWord([m], id, w.txs[id].merchantId) == None ==>
      Step(w, m).txs[id] == w.txs[id]
    ensures w.txs[id].state == CollectionPending ==>
      Step(w, m).txs[id].state == LeftBy(FirstWord([m], id, w.txs[id].merchantId))
  {
    StepKeepsInv(w, m);
    StepKeepsTerms(w, m, id);
    OnNetStep(w, m, id);
    assert PaymentOf(Step(w, m), id).tx == Step(w, m).txs[id] && PaymentOf(w, id).tx == w.txs[id];
    if m.event.Confirm? {
      ConfirmEnds(PaymentOf(w, id), m.event.merchantId, m.event.received);
    }
  }

  lemma {:induction false} ResolvedStays(w: World, ms: seq<Moment>, id: string)
    requires Inv(w) && id in w.txs && w.txs[id].provenance == MerchantAttested && w.txs[id].state != CollectionPending
    ensures id in Run(w, ms).txs && Run(w, ms).txs[id] == w.txs[id]
    decreases |ms|
  {
    if ms != [] {
      OnNetHears(w, ms[0], id);
      ResolvedStays(Step(w, ms[0]), ms[1..], id);
    }
  }

  lemma {:induction false} WaitingHearsFirst(w: World, ms: seq<Moment>, id: string)
    requires Inv(w) && id in w.txs && w.txs[id].provenance == MerchantAttested && w.txs[id].state == CollectionPending
    ensures id in Run(w, ms).txs && Run(w, ms).txs[id].state == LeftBy(FirstWord(ms, id, w.txs[id].merchantId))
    decreases |ms|
  {
    if ms != [] {
      OnNetHears(w, ms[0], id);
      if FirstWord([ms[0]], id, w.txs[id].merchantId) == None {
        WaitingHearsFirst(Step(w, ms[0]), ms[1..], id);
      } else {
        ResolvedStays(Step(w, ms[0]), ms[1..], id);
      }
    }
  }

  /** The first word a payment's own merchant gives once the payment exists. */
  function WordIn(w: World, ms: seq<Moment>, id: string): Option<bool>
    requires Inv(w)
    decreases |ms|
  {
    if id in w.txs then FirstWord(ms, id, w.txs[id].merchantId)
    else if ms == [] then None
    else
      StepKeepsInv(w, ms[0]);
      WordIn(Step(w, ms[0]), ms[1..], id)
  }

  lemma BegunOnNetWaits(w: World, m: Moment, id: string)
    requires Inv(w) && id !in w.txs && id in Step(w, m).txs && Step(w, m).txs[id].provenance == MerchantAttested
    ensures Step(w, m).txs[id].state == CollectionPending
  {
    StepKeepsStructure(w, m);
    var o := m.event.order;
    StartedAsOrdered(w, id, o, m.plan);
    assert Step(w, m).txs[id] == OnNetOpened(id, o).tx;
  }

  lemma {:induction false} RunHears(w: World, ms: seq<Moment>, id: string)
    requires Inv(w) && id in Run(w, ms).txs && Run(w, ms).txs[id].provenance == MerchantAttested
    requires id in w.txs ==> w.txs[id].state == CollectionPending
    ensures Run(w, ms).txs[id].state == LeftBy(WordIn(w, ms, id))
    decreases |ms|
  {
    if id in w.txs {
      RunKeepsProvenance(w, ms, id);
      WaitingHearsFirst(w, ms, id);
    } else {
      StepKeepsInv(w, ms[0]);
      if id in Step(w, ms[0]).txs {
        RunKeepsProvenance(Step(w, ms[0]), ms[1..], id);
        BegunOnNetWaits(w, ms[0], id);
      }
      RunHears(Step(w, ms[0]), ms[1..], id);
    }
  }

  /** Over every run: an on-net payment is paid if and only if the first word its merchant gave about it was
      that the money came, failed if and only if it was that it did not, and waits as long as there is none. */
  lemma OnNetPaidIffReceived(ms: seq<Moment>, id: string)
    requires id in Reached(ms).txs && Reached(ms).txs[id].provenance == MerchantAttested
    ensures Inv(EMPTY)
    ensures var t, word := Reached(ms).txs[id], WordIn(EMPTY, ms, id);
      && (t.state == PayoutSucceeded <==> word == Some(true))
      && (t.state == CollectionFailed <==> word == Some(false))
      && (t.state == CollectionPending <==> word == None)
  {
    EmptyInv();
    RunHears(EMPTY, ms, id);
  }

  // ---- nothing raises, and every outcome is progress ----------------------------------------

  /** In every run, an outcome let through by the guard is handled without any exception. */
  lemma AppliedOutcomeNeverRaises(ms: seq<Moment>, id: string, leg: Leg, success: bool, a: Answers)
    requires id in Reached(ms).txs
    requires Reached(ms).txs[id].provenance == RailVerified && Reached(ms).txs[id].state == AwaitingState(leg)
    ensures OnResult(Reached(ms).txs[id], leg, success, a).fault == NoFault
  {
    var w := Reached(ms);
    assert WellKept(PaymentOf(w, id));
    PricedCovers(w, id);
    GuardedFaults(PaymentOf(w, id), leg, success, a);
  }

  /** Whether one event changed one payment: its row, its postings or its calls. */
  function Moves(w: World, m: Moment, id: string): nat
    requires Inv(w) && id in w.txs
  {
    StepKeepsInv(w, m);
    if PaymentOf(Step(w, m), id) != PaymentOf(w, id) then 1 else 0
  }

  /** How one payment looked before a run and after each of its events. */
  function Snapshots(w: World, ms: seq<Moment>, id: string): (r: seq<Payment>)
    requires Inv(w) && id in w.txs
    ensures r != []
    decreases |ms|
  {
    if ms == [] then [PaymentOf(w, id)]
    else
      StepKeepsInv(w, ms[0]);
      [PaymentOf(w, id)] + Snapshots(Step(w, ms[0]), ms[1..], id)
  }

  /** How often a sequence changes from one element to the next. */
  function Changes<T(==)>(s: seq<T>): nat {
    if |s| <= 1 then 0 else (if s[0] != s[1] then 1 else 0) + Changes(s[1..])
  }

  lemma ChangesPeel<T>(first: T, rest: seq<T>)
    requires rest != []
    ensures Changes([first] + rest) == (if first != rest[0] then 1 else 0) + Changes(rest)
  {
    assert ([first] + rest)[1..] == rest;
  }

  lemma MoveLowersRank(w: World, m: Moment, id: string)
    requires Inv(w) && id in w.txs && w.txs[id].provenance == RailVerified
    ensures var v := Step(w, m);
      && id in v.txs && v.txs[id].provenance == RailVerified
      && Moves(w, m, id) + Rank(v.txs[id].state) <= Rank(w.txs[id].state)
  {
    var p := PaymentOf(w, id);
    assert WellKept(p);
    StepOn(w, m, id);
    if PaymentOf(Step(w, m), id) != p {
      OutcomeLowersRank(p, m.event.kind, m.event.outcome == Success, m.plan(id));
      HandlersKeepTerms(p.tx, m.event.kind, m.event.outcome == Success, m.plan(id));
    }
  }

  /** The first event of a run: what it costs in rank pays for the change it makes. */
  lemma FirstMove(w: World, ms: seq<Moment>, id: string) returns (v: World)
    requires Inv(w) && id in w.txs && w.txs[id].provenance == RailVerified && ms != []
    ensures v == Step(w, ms[0]) && Inv(v) && Run(w, ms) == Run(v, ms[1..])
    ensures id in v.txs && v.txs[id].provenance == RailVerified
    ensures var later := Snapshots(v, ms[1..], id);
      && Snapshots(w, ms, id) == [PaymentOf(w, id)] + later
      && Changes(Snapshots(w, ms, id)) + Rank(v.txs[id].state) <= Changes(later) + Rank(w.txs[id].state)
  {
    v := Step(w, ms[0]);
    StepKeepsInv(w, ms[0]);
    MoveLowersRank(w, ms[0], id);
    ChangesPeel(PaymentOf(w, id), Snapshots(v, ms[1..], id));
  }

  /** The rank pays for every change a run makes to a routed payment: three at most, in any run. */
  lemma {:induction false} AtMostThreeMoves(w: World, ms: seq<Moment>, id: string)
    requires Inv(w) && id in w.txs && w.txs[id].provenance == RailVerified
    ensures Changes(Snapshots(w, ms, id)) <= Rank(w.txs[id].state) <= 3
    decreases |ms|
  {
    if ms != [] {
      var v := FirstMove(w, ms, id);
      AtMostThreeMoves(v, ms[1..], id);
    }
  }

  // ---- confluence --------------------------------------------------------------------------

  /** Every id a routed payment stores is the one its rail issued for that very leg. */
  ghost predicate Follows(w: World, plan: RailPlan) {
    forall id, leg | id in w.txs && OpId(w.txs[id], leg).Some? :: OpId(w.txs[id], leg) == Issued(AnswerFor(plan(id), leg))
  }

  /** A report that does not lie: whoever the id was issued to, it names the right leg and, if it is
      final, that leg's true outcome. A non-final report may say anything. */
  ghost predicate Truthful(e: Event, plan: RailPlan, truth: string -> Leg -> bool) {
    match e
    case Callback(kind, opId, outcome) =>
      forall id, leg | Issued(AnswerFor(plan(id), leg)) == Some(opId) ::
        kind == leg && (outcome != Pending ==> (outcome == Success) == truth(id)(leg))
    case Polled(id, kind, outcome) => outcome != Pending ==> (outcome == Success) == truth(id)(kind)
    case _ => false
  }

  /** Reports only, each truthful, all handled under the same rail. */
  ghost predicate Deliveries(ms: seq<Moment>, plan: RailPlan, truth: string -> Leg -> bool) {
    forall m | m in ms :: m.plan == plan && Truthful(m.event, plan, truth)
  }

  /** A truthful report that reaches a payment by one of its ids tells the truth about it. */
  lemma CarriedReportIsTrue(w: World, e: Event, k: string, plan: RailPlan, truth: string -> Leg -> bool)
    requires k in w.txs && Follows(w, plan) && Truthful(e, plan, truth)
    requires e.Callback? && Carries(w.txs[k], e.opId) && e.outcome != Pending
    ensures (e.outcome == Success) == truth(k)(e.kind)
  {
    var t := w.txs[k];
    var leg := if t.depositId == Some(e.opId) then Deposit else if t.payoutId == Some(e.opId) then Payout else Refund;
    assert OpId(w.txs[k], leg) == Some(e.opId);
    assert Issued(AnswerFor(plan(k), leg)) == Some(e.opId);
  }

  lemma ReportIsTrueOf(w: World, m: Moment, k: string, plan: RailPlan, truth: string -> Leg -> bool)
    requires Inv(w) && k in w.txs && w.txs[k].provenance == RailVerified
    requires Follows(w, plan) && m.plan == plan && Truthful(m.event, plan, truth)
    ensures var p, q := PaymentOf(w, k), PaymentOf(Step(w, m), k);
      q == p || q == ApplyOutcome(p, m.event.kind, truth(k)(m.event.kind), plan(k))
  {
    StepOn(w, m, k);
    if m.event.Callback? && m.event.outcome != Pending && FirstWithOpId(w.order, w.txs, m.event.opId) == Some(k) {
      CarriedReportIsTrue(w, m.event, k, plan, truth);
    }
  }

  /** An event handled under a plan, which also has what the simulator answers for its own orders. */
  ghost predicate Under(m: Moment, plan: RailPlan) {
    && m.plan == plan
    && (m.event.Begin? && m.event.order.simulated ==> plan(m.event.id) == SimulatedAnswers(m.event.id))
  }

  /** All that the rail has said about a payment is in these answers. */
  ghost predicate AnsweredBy(p: Payment, a: Answers) {
    && (forall leg | OpId(p.tx, leg).Some? :: OpId(p.tx, leg) == Issued(AnswerFor(a, leg)))
    && (forall c | c in p.calls :: c.answer == AnswerFor(a, CallLeg(c)))
  }

  lemma PlayAnsweredBy(p: Payment, leg: Leg, success: bool, a: Answers)
    requires p.tx.amount.currency == p.tx.fee.currency && AnsweredBy(p, a)
    ensures var q := Play(p, leg, success, a).payment; q.tx.amount.currency == q.tx.fee.currency && AnsweredBy(q, a)
  {
    HandlersAsAnswered(p.tx, leg, success, a);
    HandlersKeepTerms(p.tx, leg, success, a);
  }

  lemma PlayOutAnsweredBy(p: Payment, scenario: string, a: Answers)
    requires p.tx.amount.currency == p.tx.fee.currency && AnsweredBy(p, a)
    ensures AnsweredBy(PlayOut(p, scenario, a).payment, a)
  {
    PlayAnsweredBy(p, Deposit, scenario != "collection_fail", a);
    var p1 := Play(p, Deposit, scenario != "collection_fail", a).payment;
    PlayAnsweredBy(p1, Payout, scenario == "success", a);
    PlayAnsweredBy(Play(p1, Payout, scenario == "success", a).payment, Refund, scenario != "refund_fail", a);
  }

  /** What a start creates is answered by the rail it goes to. */
  lemma StartedAnsweredBy(id: string, o: PaymentOrder, plan: RailPlan)
    ensures AnsweredBy(StartedPayment(id, o, plan), AnswersFor(o, plan, id))
  {
    if !UseOnNet(o.customerProvider, o.merchantProvider) {
      var a := AnswersFor(o, plan, id);
      assert AnsweredBy(RoutedOpened(id, o, a.deposit), a);
      PlayOutAnsweredBy(RoutedOpened(id, o, a.deposit), o.scenario, a);
    }
  }

  lemma StoredFollows(w: World, m: Moment, plan: RailPlan, id: string, leg: Leg)
    requires Inv(w) && Follows(w, plan) && m.plan == plan && id in w.txs
    ensures id in Step(w, m).txs
    ensures var u := Step(w, m).txs[id]; OpId(u, leg).Some? ==> OpId(u, leg) == Issued(AnswerFor(plan(id), leg))
  {
    StepOn(w, m, id);
    assert PaymentOf(Step(w, m), id).tx == Step(w, m).txs[id] && PaymentOf(w, id).tx == w.txs[id];
    if m.event.Callback? || m.event.Polled? {
      OpIdsComeFromAnswers(PaymentOf(w, id), m.event.kind, m.event.outcome == Success, plan(id), leg);
    }
  }

  lemma BegunFollows(w: World, m: Moment, plan: RailPlan, id: string, leg: Leg)
    requires Inv(w) && Under(m, plan) && id !in w.txs && id in Step(w, m).txs
    ensures var u := Step(w, m).txs[id]; OpId(u, leg).Some? ==> OpId(u, leg) == Issued(AnswerFor(plan(id), leg))
  {
    StepKeepsStructure(w, m);
    StartedAnsweredBy(id, m.event.order, plan);
    assert Step(w, m).txs[id] == StartedPayment(id, m.event.order, plan).tx;
  }

  /** Any event handled under the plan keeps to it: starts of payments, simulated or not, as well as
      reports, true or false, and confirmations. */
  lemma StepKeepsFollows(w: World, m: Moment, plan: RailPlan)
    requires Inv(w) && Follows(w, plan) && Under(m, plan)
    ensures Follows(Step(w, m), plan)
  {
    var v := Step(w, m);
    forall id, leg | id in v.txs && OpId(v.txs[id], leg).Some?
      ensures OpId(v.txs[id], leg) == Issued(AnswerFor(plan(id), leg))
    {
      if id in w.txs {
        StoredFollows(w, m, plan, id, leg);
      } else {
        BegunFollows(w, m, plan, id, leg);
      }
    }
  }

  lemma {:induction false} RunFollows(w: World, ms: seq<Moment>, plan: RailPlan)
    requires Inv(w) && Follows(w, plan) && forall m | m in ms :: Under(m, plan)
    ensures Follows(Run(w, ms), plan)
    decreases |ms|
  {
    if ms != [] {
      assert ms[0] in ms;
      StepKeepsInv(w, ms[0]);
      StepKeepsFollows(w, ms[0], plan);
      RunFollows(Step(w, ms[0]), ms[1..], plan);
    }
  }

  /** So every run under a plan, from nothing, keeps to it: the premise of what follows. */
  lemma ReachedFollows(ms: seq<Moment>, plan: RailPlan)
    requires forall m | m in ms :: Under(m, plan)
    ensures Follows(Reached(ms), plan)
  {
    EmptyInv();
    RunFollows(EMPTY, ms, plan);
  }

  lemma StepFollows(w: World, m: Moment, plan: RailPlan, truth: string -> Leg -> bool)
    requires Inv(w) && Follows(w, plan) && m.plan == plan && Truthful(m.event, plan, truth)
    ensures Follows(Step(w, m), plan) && Step(w, m).order == w.order && Step(w, m).txs.Keys == w.txs.Keys
  {
    StepKeepsFollows(w, m, plan);
    match m.event {
      case Callback(kind, opId, outcome) => CallbackKeepsInv(w, kind, opId, outcome, plan);
      case Polled(id, kind, outcome) => PolledKeepsInv(w, id, kind, outcome, plan);
    }
  }

  lemma OpIdsComeFromAnswers(p: Payment, kind: Leg, success: bool, a: Answers, leg: Leg)
    requires p.tx.amount.currency == p.tx.fee.currency
    ensures var q := ApplyOutcome(p, kind, success, a);
      OpId(q.tx, leg) == OpId(p.tx, leg) || OpId(q.tx, leg) == Issued(AnswerFor(a, leg))
  {
    HandlersAsAnswered(p.tx, kind, success, a);
  }

  /** Where a payment ends is settled before any report arrives. */
  lemma {:induction false} DeliveriesKeepEnd(
    w: World, ms: seq<Moment>, k: string, plan: RailPlan, truth: string -> Leg -> bool)
    requires Inv(w) && k in w.txs && w.txs[k].provenance == RailVerified
    requires Follows(w, plan) && Deliveries(ms, plan, truth)
    ensures k in Run(w, ms).txs
    ensures Canonical(PaymentOf(w, k)) && Canonical(PaymentOf(Run(w, ms), k))
    ensures Complete(PaymentOf(Run(w, ms), k), truth(k), plan(k)) == Complete(PaymentOf(w, k), truth(k), plan(k))
    decreases |ms|
  {
    assert WellKept(PaymentOf(w, k));
    if ms != [] {
      var m := ms[0];
      assert m in ms;
      StepKeepsInv(w, m);
      StepFollows(w, m, plan, truth);
      ReportIsTrueOf(w, m, k, plan, truth);
      TruthfulOutcomeKeepsEnd(PaymentOf(w, k), m.event.kind, truth(k), plan(k));
      HandlersKeepTerms(w.txs[k], m.event.kind, truth(k)(m.event.kind), plan(k));
      DeliveriesKeepEnd(Step(w, m), ms[1..], k, plan, truth);
    }
  }

  lemma {:induction false} DeliveriesKeepIndex(w: World, ms: seq<Moment>, plan: RailPlan, truth: string -> Leg -> bool)
    requires Inv(w) && Follows(w, plan) && Deliveries(ms, plan, truth)
    ensures Run(w, ms).order == w.order && Run(w, ms).txs.Keys == w.txs.Keys
    ensures forall m | m in ms :: !m.event.Confirm?
    decreases |ms|
  {
    if ms != [] {
      assert ms[0] in ms;
      StepKeepsInv(w, ms[0]);
      StepFollows(w, ms[0], plan, truth);
      DeliveriesKeepIndex(Step(w, ms[0]), ms[1..], plan, truth);
    }
  }

  ghost predicate Quiet(w: World) {
    forall id | id in w.txs && w.txs[id].provenance == RailVerified :: w.txs[id].state !in PENDING_STATES
  }

  /** Any two mixes of truthful callbacks and polls, duplicated, reordered, stale or non-final, that
      leave no leg pending agree on every row, every payment's postings and every payment's calls,
      and so on every account total. */
  lemma PushPollConfluence(w: World, ms: seq<Moment>, ns: seq<Moment>, plan: RailPlan, truth: string -> Leg -> bool)
    requires Inv(w) && Follows(w, plan)
    requires Deliveries(ms, plan, truth) && Deliveries(ns, plan, truth)
    requires Quiet(Run(w, ms)) && Quiet(Run(w, ns))
    ensures var u, v := Run(w, ms), Run(w, ns);
      && u.order == v.order && u.txs == v.txs
      && (forall id | id in u.txs :: PaymentOf(u, id) == PaymentOf(v, id))
      && (forall a, c :: Net(u.postings, a, c) == Net(v.postings, a, c))
  {
    DeliveriesKeepIndex(w, ms, plan, truth);
    DeliveriesKeepIndex(w, ns, plan, truth);
    forall id | id in w.txs ensures PaymentOf(Run(w, ms), id) == PaymentOf(Run(w, ns), id) {
      SameEnd(w, ms, ns, id, plan, truth);
    }
    RunKeepsInv(w, ms);
    RunKeepsInv(w, ns);
    SamePaymentsSameWorld(Run(w, ms), Run(w, ns));
  }

  lemma SamePaymentsSameWorld(u: World, v: World)
    requires Inv(u) && Inv(v) && u.order == v.order && u.txs.Keys == v.txs.Keys
    requires forall id | id in u.txs :: PaymentOf(u, id) == PaymentOf(v, id)
    ensures u.txs == v.txs
    ensures forall a, c :: Net(u.postings, a, c) == Net(v.postings, a, c)
  {
    forall id | id in u.txs ensures u.txs[id] == v.txs[id] {
      assert u.txs[id] == PaymentOf(u, id).tx;
      assert v.txs[id] == PaymentOf(v, id).tx;
    }
    assert u.txs == v.txs;
    InvIsLockStepped(u);
    InvIsLockStepped(v);
    forall a, c ensures Net(u.postings, a, c) == Net(v.postings, a, c) {
      TotalOf(u, a, c);
      TotalOf(v, a, c);
    }
  }

  lemma SameEnd(w: World, ms: seq<Moment>, ns: seq<Moment>, id: string, plan: RailPlan, truth: string -> Leg -> bool)
    requires Inv(w) && Follows(w, plan) && id in w.txs
    requires Deliveries(ms, plan, truth) && Deliveries(ns, plan, truth)
    requires Quiet(Run(w, ms)) && Quiet(Run(w, ns))
    ensures id in Run(w, ms).txs && id in Run(w, ns).txs
    ensures PaymentOf(Run(w, ms), id) == PaymentOf(Run(w, ns), id)
  {
    DeliveriesKeepIndex(w, ms, plan, truth);
    DeliveriesKeepIndex(w, ns, plan, truth);
    assert WellKept(PaymentOf(w, id));
    if w.txs[id].provenance == RailVerified {
      QuietIsComplete(w, ms, id, plan, truth);
      QuietIsComplete(w, ns, id, plan, truth);
    } else {
      OnNetIsolated(w, ms, id);
      OnNetIsolated(w, ns, id);
    }
  }

  lemma QuietIsComplete(w: World, ms: seq<Moment>, id: string, plan: RailPlan, truth: string -> Leg -> bool)
    requires Inv(w) && Follows(w, plan) && id in w.txs && w.txs[id].provenance == RailVerified
    requires Deliveries(ms, plan, truth)
    requires Quiet(Run(w, ms))
    ensures Canonical(PaymentOf(w, id)) && id in Run(w, ms).txs
    ensures PaymentOf(Run(w, ms), id) == Complete(PaymentOf(w, id), truth(id), plan(id))
  {
    DeliveriesKeepEnd(w, ms, id, plan, truth);
    CompleteRests(PaymentOf(Run(w, ms), id), truth(id), plan(id));
    RunKeepsProvenance(w, ms, id);
  }

  lemma {:induction false} RunKeepsProvenance(w: World, ms: seq<Moment>, id: string)
    requires Inv(w) && id in w.txs
    ensures id in Run(w, ms).txs && Run(w, ms).txs[id].provenance == w.txs[id].provenance
    decreases |ms|
  {
    if ms != [] {
      StepKeepsTerms(w, ms[0], id);
      StepKeepsInv(w, ms[0]);
      RunKeepsProvenance(Step(w, ms[0]), ms[1..], id);
    }
  }
}
