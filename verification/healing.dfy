/** Push against poll: a sweep is one more source of truthful reports, and sweeps alone bring every
    payment to where its callbacks would have. */
module Healing {
  import opened Common
  import opened Ledger
  import opened StateMachine
  import opened Transactions
  import opened Payments
  import opened Status
  import opened Worlds
  import opened Conservation
  import opened Confluence
  import opened Sweeps

  /** Operation ids are told apart: no two legs, of one transaction or of two, are ever given the same. */
  ghost predicate IdsDistinct(plan: RailPlan) {
    forall id, leg, id', leg' ::
      Issued(AnswerFor(plan(id), leg)).Some? && Issued(AnswerFor(plan(id), leg)) == Issued(AnswerFor(plan(id'), leg'))
      ==> id == id' && leg == leg'
  }

  /** With distinct ids, a callback is truthful exactly when it tells its own leg's outcome. */
  lemma TruthfulIffOwner(plan: RailPlan, truth: string -> Leg -> bool, id: string, leg: Leg, outcome: Outcome)
    requires IdsDistinct(plan) && Issued(AnswerFor(plan(id), leg)).Some?
    ensures Truthful(Callback(leg, Issued(AnswerFor(plan(id), leg)).value, outcome), plan, truth)
      <==> (outcome != Pending ==> (outcome == Success) == truth(id)(leg))
  {
    var opId := Issued(AnswerFor(plan(id), leg)).value;
    assert Issued(AnswerFor(plan(id), leg)) == Some(opId);
  }

  /** A poller that never misreports an operation the rail issued; it may not know it yet. */
  ghost predicate HonestPoller(poller: Poller, plan: RailPlan, truth: string -> Leg -> bool) {
    forall id, leg, opId | Issued(AnswerFor(plan(id), leg)) == Some(opId) ::
      PolledOutcome(poller(leg, opId)) != Pending ==> (PolledOutcome(poller(leg, opId)) == Success) == truth(id)(leg)
  }

  lemma PollIsTruthful(w: World, id: string, poller: Poller, plan: RailPlan, truth: string -> Leg -> bool)
    requires Inv(w) && Follows(w, plan) && HonestPoller(poller, plan, truth)
    requires id in w.txs && w.txs[id].state in PENDING_STATES
    ensures Truthful(PollOf(w.txs[id], poller), plan, truth)
  {
    var t := w.txs[id];
    var leg := LegForState(t.state).value;
    if OpId(t, leg).Some? {
      assert OpId(w.txs[id], leg) == Issued(AnswerFor(plan(id), leg));
    }
  }

  lemma {:induction false} SweepIsDeliveries(
    w: World, ids: seq<string>, poller: Poller, plan: RailPlan, truth: string -> Leg -> bool) returns (ms: seq<Moment>)
    requires Inv(w) && Follows(w, plan) && HonestPoller(poller, plan, truth) && forall id | id in ids :: id in w.txs
    ensures Deliveries(ms, plan, truth) && Run(w, ms) == SweepOver(w, ids, poller, plan)
    ensures Follows(Run(w, ms), plan)
    decreases |ids|
  {
    ms := [];
    if ids != [] {
      var t := w.txs[ids[0]];
      if t.state !in PENDING_STATES {
        ms := SweepIsDeliveries(w, ids[1..], poller, plan, truth);
      } else {
        var m := Moment(PollOf(t, poller), plan);
        PollIsTruthful(w, ids[0], poller, plan, truth);
        StepKeepsInv(w, m);
        StepFollows(w, m, plan, truth);
        var rest := SweepIsDeliveries(Step(w, m), ids[1..], poller, plan, truth);
        ms := [m] + rest;
        assert ms[1..] == rest;
      }
    }
  }

  lemma {:induction false} RunConcat(w: World, ms: seq<Moment>, ns: seq<Moment>)
    requires Inv(w)
    ensures Inv(Run(w, ms)) && Run(w, ms + ns) == Run(Run(w, ms), ns)
    decreases |ms|
  {
    if ms == [] {
      assert ms + ns == ns;
    } else {
      SplitFirst(ms, ns);
      StepKeepsInv(w, ms[0]);
      RunConcat(Step(w, ms[0]), ms[1..], ns);
    }
  }

  /** Between sweeps only true reports come, and each sweep's poller is honest. */
  ghost predicate AllHonest(rounds: seq<Round>, plan: RailPlan, truth: string -> Leg -> bool) {
    forall i | 0 <= i < |rounds| ::
      Deliveries(rounds[i].before, plan, truth) && HonestPoller(rounds[i].poller, plan, truth)
  }

  lemma {:induction false} RunOfDeliveries(w: World, ms: seq<Moment>, plan: RailPlan, truth: string -> Leg -> bool)
    requires Inv(w) && Follows(w, plan) && Deliveries(ms, plan, truth)
    ensures Inv(Run(w, ms)) && Follows(Run(w, ms), plan)
    decreases |ms|
  {
    if ms != [] {
      assert ms[0] in ms;
      StepKeepsInv(w, ms[0]);
      StepFollows(w, ms[0], plan, truth);
      RunOfDeliveries(Step(w, ms[0]), ms[1..], plan, truth);
    }
  }

  lemma {:induction false} RoundIsDeliveries(w: World, round: Round, plan: RailPlan, truth: string -> Leg -> bool)
    returns (ms: seq<Moment>)
    requires Inv(w) && Follows(w, plan) && HonestPoller(round.poller, plan, truth) && Deliveries(round.before, plan, truth)
    ensures Inv(Run(w, round.before))
    ensures Deliveries(ms, plan, truth) && Run(w, ms) == Sweep(Run(w, round.before), round.poller, plan)
    ensures Follows(Run(w, ms), plan)
  {
    RunOfDeliveries(w, round.before, plan, truth);
    var u := Run(w, round.before);
    var polls := SweepIsDeliveries(u, FindPending(u.order, u.txs), round.poller, plan, truth);
    RunConcat(w, round.before, polls);
    ms := round.before + polls;
  }

  lemma {:induction false} SweepsAreDeliveries(
    w: World, rounds: seq<Round>, plan: RailPlan, truth: string -> Leg -> bool)
    returns (ms: seq<Moment>)
    requires Inv(w) && Follows(w, plan) && IdsIssued(w) && PlanIssues(plan)
    requires AllHonest(rounds, plan, truth)
    ensures Deliveries(ms, plan, truth) && Run(w, ms) == SweepEach(w, rounds, plan)
    decreases |rounds|
  {
    ms := [];
    if rounds != [] {
      RoundKeeps(w, rounds[0], plan);
      var first := RoundIsDeliveries(w, rounds[0], plan, truth);
      var rest := SweepsAreDeliveries(Sweep(Run(w, rounds[0].before), rounds[0].poller, plan), rounds[1..], plan, truth);
      RunConcat(w, first, rest);
      ms := first + rest;
    }
  }

  /** Where every payment settles and none is started, nothing is left pending. */
  lemma SweepsQuieten(w: World, rounds: seq<Round>, plan: RailPlan, truth: string -> Leg -> bool) returns (ms: seq<Moment>)
    requires Inv(w) && Follows(w, plan) && IdsIssued(w) && PlanIssues(plan)
    requires |rounds| >= 3 && AllHonest(rounds, plan, truth)
    requires forall k | k in w.txs :: KnownEach(w, rounds, plan, k)
    ensures Deliveries(ms, plan, truth) && Run(w, ms) == SweepEach(w, rounds, plan) && Quiet(Run(w, ms))
  {
    ms := SweepsAreDeliveries(w, rounds, plan, truth);
    DeliveriesKeepIndex(w, ms, plan, truth);
    forall k | k in w.txs ensures k in Run(w, ms).txs
      && (Run(w, ms).txs[k].provenance == RailVerified ==> Run(w, ms).txs[k].state !in PENDING_STATES)
    {
      ThreeSweepsSettle(w, rounds, plan, k);
    }
  }

  /** Three sweeps, with any callbacks between them or none, end where any complete set of callbacks and polls
      would have. */
  lemma SweepsReachWhatCallbacksReach(
    w: World, ns: seq<Moment>, rounds: seq<Round>, plan: RailPlan, truth: string -> Leg -> bool)
    requires Inv(w) && Follows(w, plan) && IdsIssued(w) && PlanIssues(plan)
    requires |rounds| >= 3 && AllHonest(rounds, plan, truth)
    requires forall k | k in w.txs :: KnownEach(w, rounds, plan, k)
    requires Deliveries(ns, plan, truth) && Quiet(Run(w, ns))
    ensures var u, v := SweepEach(w, rounds, plan), Run(w, ns);
      && u.order == v.order && u.txs == v.txs
      && (forall id | id in u.txs :: PaymentOf(u, id) == PaymentOf(v, id))
      && (forall a, c :: Net(u.postings, a, c) == Net(v.postings, a, c))
  {
    var ms := SweepsQuieten(w, rounds, plan, truth);
    PushPollConfluence(w, ms, ns, plan, truth);
  }

  // ---- who knows ------------------------------------------------------------------------------

  /** The provider has finished every operation that the plan has an id for. */
  ghost predicate AllDone(poller: Poller, plan: RailPlan) {
    forall id, leg, opId | Issued(AnswerFor(plan(id), leg)) == Some(opId) :: PolledOutcome(poller(leg, opId)) != Pending
  }

  ghost predicate RoundUnder(round: Round, plan: RailPlan) {
    AllDone(round.poller, plan) && forall m | m in round.before :: Under(m, plan)
  }

  lemma RoundFollows(w: World, round: Round, plan: RailPlan)
    requires Inv(w) && Follows(w, plan) && RoundUnder(round, plan)
    ensures Inv(Run(w, round.before)) && Follows(Run(w, round.before), plan)
    ensures Follows(Sweep(Run(w, round.before), round.poller, plan), plan)
  {
    RunKeepsInv(w, round.before);
    RunFollows(w, round.before, plan);
    var u := Run(w, round.before);
    var ms := SweepIsRun(u, FindPending(u.order, u.txs), round.poller, plan);
    RunFollows(u, ms, plan);
  }

  lemma DoneIsKnownNow(w: World, poller: Poller, plan: RailPlan, k: string)
    requires Follows(w, plan) && AllDone(poller, plan) && k in w.txs && w.txs[k].id == k
    ensures Knows(poller, w.txs[k])
  {
    var t := w.txs[k];
    if t.state in PENDING_STATES && OpId(t, LegForState(t.state).value).Some? {
      assert OpId(w.txs[k], LegForState(t.state).value) == Issued(AnswerFor(plan(k), LegForState(t.state).value));
    }
  }

  /** A provider that is through with everything, even what nobody has asked for yet, is known to be through
      with whatever a payment comes to await. */
  lemma {:induction false} DoneIsKnown(w: World, rounds: seq<Round>, plan: RailPlan, k: string)
    requires Inv(w) && IdsIssued(w) && PlanIssues(plan) && Follows(w, plan) && k in w.txs
    requires forall i | 0 <= i < |rounds| :: RoundUnder(rounds[i], plan)
    ensures Issuing(rounds) && KnownEach(w, rounds, plan, k)
    decreases |rounds|
  {
    forall i, m | 0 <= i < |rounds| && m in rounds[i].before ensures PlanIssues(m.plan) {
      assert RoundUnder(rounds[i], plan) && Under(m, plan);
    }
    if rounds != [] {
      RoundKeeps(w, rounds[0], plan);
      RoundFollows(w, rounds[0], plan);
      var u := Run(w, rounds[0].before);
      DoneIsKnownNow(u, rounds[0].poller, plan, k);
      DoneIsKnown(Sweep(u, rounds[0].poller, plan), rounds[1..], plan, k);
    }
  }

  /** On a rail that issues ids, every refund asked for cites a deposit, so it is never refused for lack
      of one. */
  lemma RefundsCiteADeposit(ms: seq<Moment>, id: string)
    requires id in Reached(ms).txs && IdsIssued(Reached(ms))
    ensures forall c | c in PaymentOf(Reached(ms), id).calls && c.RefundCall? :: c.depositId.Some?
  {
    var p := PaymentOf(Reached(ms), id);
    assert WellKept(p);
    forall c | c in p.calls && c.RefundCall? ensures c.depositId.Some? {
      CallsDisciplined(p);
      DepositWasAccepted(p, c);
      assert p.calls[0] in Reached(ms).calls;
    }
  }

  lemma DepositWasAccepted(p: Payment, c: RailCall)
    requires Canonical(p) && c in p.calls && c.RefundCall?
    ensures p.calls[0] in p.calls && p.calls[0].answer.Accepted? && p.tx.depositId == p.calls[0].answer.opId
  {
  }
}
