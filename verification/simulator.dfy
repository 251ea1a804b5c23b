/** The in-process simulator: a rail that accepts everything, and a poller that reports done whatever was
    asked of it. Wired as both, it heals every payment of its own. */
module Simulators {
  import opened Common
  import opened MoneyTypes
  import opened StateMachine
  import opened Transactions
  import opened Payments
  import opened Status
  import opened Worlds
  import opened Conservation
  import opened Confluence
  import opened Sweeps
  import opened Healing

  function SimPlan(): RailPlan {
    id => SimulatedAnswers(id)
  }

  /** The id the simulator gives to a leg of a transaction. */
  function SimId(id: string, leg: Leg): string {
    AnswerFor(SimulatedAnswers(id), leg).opId.value
  }

  lemma SimIdsDiffer(id: string, leg: Leg, id': string, leg': Leg)
    requires SimId(id, leg) == SimId(id', leg')
    ensures id == id' && leg == leg'
  {
    var s := SimId(id, leg);
    assert s[8..] == id && s[8..] == id';
    assert s[4..6] == match leg case Deposit => "de" case Payout => "pa" case Refund => "re";
    assert s[4..6] == match leg' case Deposit => "de" case Payout => "pa" case Refund => "re";
    assert s[4] != s[5];
  }

  // ---- what it knows when polled ---------------------------------------------------------------

  /** The statuses kept after so many requests: each id issued, completed. */
  function StatusOf(asked: seq<RailCall>): map<string, string> {
    if asked == [] then map[]
    else
      var last := |asked| - 1;
      match Issued(asked[last].answer)
      case None => StatusOf(asked[..last])
      case Some(opId) => StatusOf(asked[..last])[opId := "COMPLETED"]
  }

  ghost predicate IssuedIn(opId: string, asked: seq<RailCall>) {
    exists c :: c in asked && Issued(c.answer) == Some(opId)
  }

  lemma {:induction false} StatusMarksIssued(asked: seq<RailCall>, opId: string)
    ensures opId in StatusOf(asked) <==> IssuedIn(opId, asked)
    ensures opId in StatusOf(asked) ==> StatusOf(asked)[opId] == "COMPLETED"
  {
    if asked != [] {
      var last := |asked| - 1;
      StatusMarksIssued(asked[..last], opId);
      assert asked == asked[..last] + [asked[last]];
    }
  }

  lemma StatusGrows(asked: seq<RailCall>, c: RailCall, opId: string)
    requires c.answer == Accepted(Some(opId))
    ensures StatusOf(asked + [c]) == StatusOf(asked)[opId := "COMPLETED"]
  {
    assert (asked + [c])[..|asked|] == asked;
  }

  function SimPoller(status: map<string, string>): Poller {
    (kind: Leg, opId: string) => Read(if opId in status then Some(status[opId]) else None)
  }

  /** A poll of the simulator: success for whatever it was asked for, nothing for anything else, and never
      a failure. */
  lemma SimulatorNeverFails(asked: seq<RailCall>, kind: Leg, opId: string)
    ensures PolledOutcome(SimPoller(StatusOf(asked))(kind, opId)) == if IssuedIn(opId, asked) then Success else Pending
  {
    StatusMarksIssued(asked, opId);
    CompletedIsSuccess();
  }

  lemma CompletedIsSuccess()
    ensures Classify(Some("COMPLETED")) == Success
  {
    assert Upper("COMPLETED") == "COMPLETED";
  }

  class SimulatedPaymentRail {
    var collections: seq<(string, string, Money, string)>
    var payouts: seq<(string, string, Money, string)>
    var refunds: seq<(string, Option<string>, Money)>
    var status: map<string, string>
    ghost var asked: seq<RailCall>

    constructor ()
      ensures Valid() && asked == [] && collections == [] && payouts == [] && refunds == []
    {
      collections, payouts, refunds, status, asked := [], [], [], map[], [];
    }

    /** The statuses are those of what it was asked. */
    ghost predicate Valid()
      reads this
    {
      status == StatusOf(asked)
    }

    method Accept(opId: string) returns (a: Answer)
      modifies `status
      ensures a == Accepted(Some(opId)) && status == old(status)[opId := "COMPLETED"]
    {
      status := status[opId := "COMPLETED"];
      a := Accepted(Some(opId));
    }

    method RequestCollection(txId: string, msisdn: string, amount: Money, provider: string) returns (a: Answer)
      requires Valid()
      modifies this
      ensures Valid() && a == SimPlan()(txId).deposit && asked == old(asked) + [CollectCall(txId, msisdn, amount, provider, a)]
      ensures collections == old(collections) + [(txId, msisdn, amount, provider)]
      ensures payouts == old(payouts) && refunds == old(refunds)
    {
      collections := collections + [(txId, msisdn, amount, provider)];
      a := Accept("sim-dep-" + txId);
      StatusGrows(asked, CollectCall(txId, msisdn, amount, provider, a), a.opId.value);
      asked := asked + [CollectCall(txId, msisdn, amount, provider, a)];
    }

    method RequestPayout(txId: string, msisdn: string, amount: Money, provider: string) returns (a: Answer)
      requires Valid()
      modifies this
      ensures Valid() && a == SimPlan()(txId).payout && asked == old(asked) + [PayoutCall(txId, msisdn, amount, provider, a)]
      ensures payouts == old(payouts) + [(txId, msisdn, amount, provider)]
      ensures collections == old(collections) && refunds == old(refunds)
    {
      payouts := payouts + [(txId, msisdn, amount, provider)];
      a := Accept("sim-pay-" + txId);
      StatusGrows(asked, PayoutCall(txId, msisdn, amount, provider, a), a.opId.value);
      asked := asked + [PayoutCall(txId, msisdn, amount, provider, a)];
    }

    method RequestRefund(txId: string, depositId: Option<string>, amount: Money, provider: string) returns (a: Answer)
      requires Valid()
      modifies this
      ensures Valid() && a == SimPlan()(txId).refund && asked == old(asked) + [RefundCall(txId, depositId, amount, provider, a)]
      ensures refunds == old(refunds) + [(txId, depositId, amount)]
      ensures collections == old(collections) && payouts == old(payouts)
    {
      refunds := refunds + [(txId, depositId, amount)];
      a := Accept("sim-ref-" + txId);
      StatusGrows(asked, RefundCall(txId, depositId, amount, provider, a), a.opId.value);
      asked := asked + [RefundCall(txId, depositId, amount, provider, a)];
    }

    /** A status poll, of any leg: done if ever asked for, unreadable otherwise. */
    method GetStatus(kind: Leg, opId: string) returns (r: PollResult)
      requires Valid()
      ensures r == SimPoller(status)(kind, opId)
      ensures PolledOutcome(r) == if IssuedIn(opId, asked) then Success else Pending
    {
      r := Read(if opId in status then Some(status[opId]) else None);
      SimulatorNeverFails(asked, kind, opId);
    }
  }

  // ---- what the theorems ask, it gives ------------------------------------------------------------

  /** Every operation on the simulator comes true. */
  function AllTrue(): string -> Leg -> bool {
    id => leg => true
  }

  /** The poller of a world's own requests. */
  function OwnPoller(w: World): Poller {
    SimPoller(StatusOf(w.calls))
  }

  /** What the rail and the sweep theorems ask of a rail and its poller, the simulator gives: an id for every
      leg, never the same twice; and, polled, the truth, and a final word about whatever any payment awaits. */
  lemma SimulatorQualifies(w: World)
    requires Inv(w)
    ensures PlanIssues(SimPlan()) && IdsDistinct(SimPlan())
    ensures HonestPoller(OwnPoller(w), SimPlan(), AllTrue())
    ensures forall id | id in w.txs :: Knows(OwnPoller(w), w.txs[id])
  {
    forall id, leg, id', leg' |
      Issued(AnswerFor(SimPlan()(id), leg)) == Issued(AnswerFor(SimPlan()(id'), leg'))
      ensures id == id' && leg == leg'
    {
      SimIdsDiffer(id, leg, id', leg');
    }
    forall kind, opId ensures PolledOutcome(OwnPoller(w)(kind, opId)) != Failure {
      SimulatorNeverFails(w.calls, kind, opId);
    }
    forall id | id in w.txs ensures Knows(OwnPoller(w), w.txs[id]) {
      AwaitedIsDone(w, id);
    }
  }

  /** The awaited id of a payment, if it holds one, was issued in answer to its last request. */
  lemma AwaitedWasIssued(w: World, id: string)
    requires Inv(w) && id in w.txs && w.txs[id].state in PENDING_STATES
    requires OpId(w.txs[id], LegForState(w.txs[id].state).value).Some?
    ensures IssuedIn(OpId(w.txs[id], LegForState(w.txs[id].state).value).value, w.calls)
  {
    var p := PaymentOf(w, id);
    assert WellKept(p);
    AwaitedIdIsLastAnswer(p);
    assert p.calls[|p.calls| - 1] in w.calls;
  }

  lemma AwaitedIsDone(w: World, id: string)
    requires Inv(w) && id in w.txs
    ensures Finds(OwnPoller(w), w.txs[id]) && Knows(OwnPoller(w), w.txs[id])
  {
    var t := w.txs[id];
    if t.state in PENDING_STATES && OpId(t, LegForState(t.state).value).Some? {
      var leg := LegForState(t.state).value;
      AwaitedWasIssued(w, id);
      SimulatorNeverFails(w.calls, leg, OpId(t, leg).value);
    }
  }

  /** The poller finds done what a transaction waits for. */
  predicate Finds(poller: Poller, t: Tx) {
    t.state in PENDING_STATES && OpId(t, LegForState(t.state).value).Some? ==> PollOf(t, poller).outcome == Success
  }

  // ---- a sweep answered as it goes -----------------------------------------------------------------

  /** A sweep on the simulator, each poll answered from all it has been asked by then, the requests this very
      sweep has caused among them. */
  function SimSweepOver(w: World, ids: seq<string>): World
    requires Inv(w) && forall id | id in ids :: id in w.txs
    decreases |ids|
  {
    if ids == [] then w
    else
      var t := w.txs[ids[0]];
      if t.state !in PENDING_STATES then SimSweepOver(w, ids[1..])
      else
        var m := Moment(PollOf(t, OwnPoller(w)), SimPlan());
        StepKeepsInv(w, m);
        SimSweepOver(Step(w, m), ids[1..])
  }

  function SimSweep(w: World): World
    requires Inv(w)
  {
    SimSweepOver(w, FindPending(w.order, w.txs))
  }

  lemma {:induction false} SimSweepOverIsSweep(w: World, ids: seq<string>, poller: Poller)
    requires Inv(w) && NoDuplicateIds(ids) && forall id | id in ids :: id in w.txs && Finds(poller, w.txs[id])
    ensures SimSweepOver(w, ids) == SweepOver(w, ids, poller, SimPlan())
    decreases |ids|
  {
    if ids != [] {
      var t := w.txs[ids[0]];
      if t.state !in PENDING_STATES {
        SimSweepOverIsSweep(w, ids[1..], poller);
      } else {
        AwaitedIsDone(w, ids[0]);
        PollLeavesOthers(w, ids[0], poller, SimPlan());
        SimSweepOverIsSweep(Step(w, Moment(PollOf(t, poller), SimPlan())), ids[1..], poller);
      }
    }
  }

  /** Nothing a sweep asks for is polled in that sweep, so it might as well be answered from the start. */
  lemma SimSweepIsSweep(w: World)
    requires Inv(w)
    ensures SimSweep(w) == Sweep(w, OwnPoller(w), SimPlan())
  {
    WorklistUnique(w.order, w.txs);
    forall id | id in FindPending(w.order, w.txs) ensures Finds(OwnPoller(w), w.txs[id]) {
      AwaitedIsDone(w, id);
    }
    SimSweepOverIsSweep(w, FindPending(w.order, w.txs), OwnPoller(w));
  }

  // ---- self-healing ----------------------------------------------------------------------------------

  function SimSweeps(w: World, n: nat): World
    requires Inv(w) && IdsIssued(w)
    decreases n
  {
    if n == 0 then w
    else
      SimSweepIsSweep(w);
      SimulatorQualifies(w);
      SweepKeeps(w, OwnPoller(w), SimPlan());
      SimSweeps(SimSweep(w), n - 1)
  }

  /** A sweep with nothing before it, and then the rest. */
  lemma QuietRound(w: World, poller: Poller, rest: seq<Round>, plan: RailPlan) returns (rounds: seq<Round>)
    requires Inv(w) && IdsIssued(w) && PlanIssues(plan) && Issuing(rest)
    ensures rounds == [Round([], poller)] + rest && Issuing(rounds)
    ensures var v := Sweep(w, poller, plan);
      && Inv(v) && IdsIssued(v) && SweepEach(w, rounds, plan) == SweepEach(v, rest, plan)
      && forall k | k in w.txs :: k in v.txs &&
           (KnownEach(w, rounds, plan, k) <==> Knows(poller, w.txs[k]) && KnownEach(v, rest, plan, k))
  {
    rounds := [Round([], poller)] + rest;
    SweepKeeps(w, poller, plan);
    assert rounds[1..] == rest;
  }

  /** Sweeps of the simulator are sweeps as the theorems know them, with pollers that qualify. */
  lemma {:induction false} SimSweepsAreSweeps(w: World, n: nat) returns (rounds: seq<Round>)
    requires Inv(w) && IdsIssued(w)
    ensures PlanIssues(SimPlan()) && |rounds| == n && Issuing(rounds)
    ensures SimSweeps(w, n) == SweepEach(w, rounds, SimPlan()) && AllHonest(rounds, SimPlan(), AllTrue())
    ensures forall k | k in w.txs :: KnownEach(w, rounds, SimPlan(), k)
    decreases n
  {
    rounds := [];
    SimulatorQualifies(w);
    if n > 0 {
      SimSweepIsSweep(w);
      SweepKeeps(w, OwnPoller(w), SimPlan());
      var rest := SimSweepsAreSweeps(SimSweep(w), n - 1);
      rounds := QuietRound(w, OwnPoller(w), rest, SimPlan());
    }
  }

  /** Where a payment ends on the simulator: paid, or, if its payout failed before, refunded. */
  function HealedState(s: TxState): TxState {
    if s in {CollectionPending, PayoutPending} then PayoutSucceeded else if s == RefundPending then Refunded else s
  }

  lemma CompleteHeals(p: Payment, id: string)
    requires Canonical(p)
    ensures Complete(p, AllTrue()(id), SimulatedAnswers(id)).tx.state == HealedState(p.tx.state)
  {
    var truth, a := AllTrue()(id), SimulatedAnswers(id);
    if p.tx.state == CollectionPending {
      EndOfCollection(p, truth, a);
    } else if p.tx.state == PayoutPending {
      EndOfPayout(p, truth, a);
    } else if p.tx.state == RefundPending {
      EndOfRefund(p, truth, a);
    } else {
      CompleteRests(p, truth, a);
    }
  }

  /** In every run handled on the simulator each id is issued, and kept where it belongs. */
  lemma {:induction false} SimRunKeeps(w: World, ms: seq<Moment>)
    requires Inv(w) && IdsIssued(w) && Follows(w, SimPlan()) && forall m | m in ms :: m.plan == SimPlan()
    ensures IdsIssued(Run(w, ms)) && Follows(Run(w, ms), SimPlan())
    decreases |ms|
  {
    if ms != [] {
      assert ms[0] in ms;
      StepKeepsInv(w, ms[0]);
      SimulatorQualifies(w);
      StepKeepsIdsIssued(w, ms[0]);
      StepKeepsFollows(w, ms[0], SimPlan());
      SimRunKeeps(Step(w, ms[0]), ms[1..]);
    }
  }

  lemma SimSweepsSettle(w: World, n: nat, id: string)
    requires Inv(w) && IdsIssued(w) && Follows(w, SimPlan()) && n >= 3 && id in w.txs
    ensures var v := SimSweeps(w, n);
      && Inv(v) && Quiet(v) && id in v.txs
      && if w.txs[id].provenance == RailVerified
         then Canonical(PaymentOf(w, id)) && PaymentOf(v, id) == Complete(PaymentOf(w, id), AllTrue()(id), SimPlan()(id))
         else PaymentOf(v, id) == PaymentOf(w, id)
  {
    SimulatorQualifies(w);
    var rounds := SimSweepsAreSweeps(w, n);
    var ms := SweepsQuieten(w, rounds, SimPlan(), AllTrue());
    RunKeepsInv(w, ms);
    if w.txs[id].provenance == RailVerified {
      QuietIsComplete(w, ms, id, SimPlan(), AllTrue());
    } else {
      DeliveriesKeepIndex(w, ms, SimPlan(), AllTrue());
      OnNetIsolated(w, ms, id);
    }
  }

  /** The simulated server heals itself. After any run on the simulator, whatever was held back, lost,
      repeated or misreported, three sweeps polled from it leave no routed payment pending: each still
      waiting for its collection or payout is paid, each waiting for its refund refunded, and no other
      payment is touched. */
  lemma SimulatorHeals(ms: seq<Moment>, n: nat, id: string)
    requires (forall m | m in ms :: m.plan == SimPlan()) && n >= 3 && id in Reached(ms).txs
    ensures IdsIssued(Reached(ms))
    ensures var u, v := Reached(ms), SimSweeps(Reached(ms), n);
      && Quiet(v) && id in v.txs
      && (u.txs[id].provenance == RailVerified ==> v.txs[id].state == HealedState(u.txs[id].state))
      && (u.txs[id].provenance == MerchantAttested || u.txs[id].state !in PENDING_STATES ==>
            PaymentOf(v, id) == PaymentOf(u, id))
  {
    EmptyInv();
    SimRunKeeps(EMPTY, ms);
    var u := Reached(ms);
    SimSweepsSettle(u, n, id);
    assert PaymentOf(SimSweeps(u, n), id).tx == SimSweeps(u, n).txs[id] && PaymentOf(u, id).tx == u.txs[id];
    if u.txs[id].provenance == RailVerified {
      CompleteHeals(PaymentOf(u, id), id);
      CompleteRests(PaymentOf(u, id), AllTrue()(id), SimPlan()(id));
    }
  }
}
