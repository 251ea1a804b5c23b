/** What a sweep's summary says, against what the sweep did. */
module Summaries {
  import opened Common
  import opened StateMachine
  import opened Transactions
  import opened Payments
  import opened Status
  import opened Worlds
  import opened Confluence
  import opened Sweeps
  import opened Healing

  function Count(items: seq<Item>, d: Disposition): nat {
    if items == [] then 0 else (if items[0].disposition == d then 1 else 0) + Count(items[1..], d)
  }

  function Resolved(items: seq<Item>): nat {
    Count(items, ResolvedSuccess) + Count(items, ResolvedFailure)
  }

  predicate IsResolved(d: Disposition) {
    d == ResolvedSuccess || d == ResolvedFailure
  }

  lemma ResolvedPeels(item: Item, rest: seq<Item>)
    ensures Resolved([item] + rest) == (if IsResolved(item.disposition) then 1 else 0) + Resolved(rest)
  {
    assert ([item] + rest)[1..] == rest;
  }

  /** How many of these payments differ between two worlds. */
  function CountChanged(ids: seq<string>, w: World, v: World): nat
    requires forall id | id in ids :: id in w.txs && id in v.txs
  {
    if ids == [] then 0
    else (if PaymentOf(v, ids[0]) != PaymentOf(w, ids[0]) then 1 else 0) + CountChanged(ids[1..], w, v)
  }

  /** What one poll makes of the payment it is about; it depends on that payment alone. */
  function Polled(p: Payment, poller: Poller, plan: RailPlan): Payment
    requires p.tx.state in PENDING_STATES && p.tx.amount.currency == p.tx.fee.currency
  {
    var e := PollOf(p.tx, poller);
    if e.outcome == Pending || OpId(p.tx, e.kind) == None then p
    else ApplyOutcome(p, e.kind, e.outcome == Success, plan(p.tx.id))
  }

  lemma PollSeen(w: World, id: string, poller: Poller, plan: RailPlan, k: string)
    requires Inv(w) && id in w.txs && k in w.txs && w.txs[id].state in PENDING_STATES
    ensures var v := Step(w, Moment(PollOf(w.txs[id], poller), plan));
      && Inv(v) && v.txs.Keys == w.txs.Keys
      && PaymentOf(v, k) == if k == id then Polled(PaymentOf(w, k), poller, plan) else PaymentOf(w, k)
  {
    var e := PollOf(w.txs[id], poller);
    PolledKeepsInv(w, e.txId, e.kind, e.outcome, plan);
    StepOn(w, Moment(e, plan), k);
  }

  /** A sweep does to each payment of its worklist exactly its own poll, and nothing to any other. */
  lemma {:induction false} SweepSeen(w: World, ids: seq<string>, poller: Poller, plan: RailPlan, k: string)
    requires Inv(w) && NoDuplicateIds(ids) && k in w.txs
    requires forall id | id in ids :: id in w.txs && w.txs[id].state in PENDING_STATES
    ensures var v := SweepOver(w, ids, poller, plan);
      k in v.txs && PaymentOf(v, k) == if k in ids then Polled(PaymentOf(w, k), poller, plan) else PaymentOf(w, k)
    decreases |ids|
  {
    if ids != [] {
      var id, rest := ids[0], ids[1..];
      var next := Step(w, Moment(PollOf(w.txs[id], poller), plan));
      assert k in ids <==> k == id || k in rest;
      forall x | x in w.txs
        ensures Inv(next) && x in next.txs
        ensures PaymentOf(next, x) == if x == id then Polled(PaymentOf(w, x), poller, plan) else PaymentOf(w, x)
      {
        PollSeen(w, id, poller, plan, x);
      }
      forall x | x in rest ensures x in next.txs && next.txs[x].state in PENDING_STATES {
        assert PaymentOf(next, x) == PaymentOf(w, x);
      }
      SweepSeen(next, rest, poller, plan, k);
    }
  }

  /** One line of the summary reads "resolved" exactly when its payment changed. */
  lemma ResolvedIffChanged(p: Payment, poller: Poller, plan: RailPlan)
    requires Healthy(p) && p.tx.state in PENDING_STATES
    ensures IsResolved(ItemOf(p.tx, poller).disposition) <==> Polled(p, poller, plan) != p
  {
    var e := PollOf(p.tx, poller);
    if OpId(p.tx, e.kind) != None && e.outcome != Pending {
      OutcomeLowersRank(p, e.kind, e.outcome == Success, plan(p.tx.id));
    }
  }

  lemma ResolvedMeansMoved(w: World, id: string, poller: Poller, plan: RailPlan)
    requires Inv(w) && id in w.txs && w.txs[id].state in PENDING_STATES
    ensures var m := Moment(PollOf(w.txs[id], poller), plan);
      IsResolved(ItemOf(w.txs[id], poller).disposition) <==> Moves(w, m, id) == 1
  {
    PollSeen(w, id, poller, plan, id);
    ResolvedIffChanged(PaymentOf(w, id), poller, plan);
  }

  lemma {:induction false} WorklistCounts(
    w: World, v: World, order: seq<string>, poller: Poller, plan: RailPlan)
    requires Inv(w) && forall id | id in order :: id in w.txs && id in v.txs
    requires forall id | id in order ::
      PaymentOf(v, id) == if w.txs[id].state in PENDING_STATES then Polled(PaymentOf(w, id), poller, plan) else PaymentOf(w, id)
    ensures Resolved(ItemsOf(FindPending(order, w.txs), w.txs, poller)) == CountChanged(order, w, v)
  {
    if order != [] {
      WorklistCounts(w, v, order[1..], poller, plan);
      WorklistPeels(w, order, poller);
      if w.txs[order[0]].state in PENDING_STATES {
        assert Healthy(PaymentOf(w, order[0]));
        ResolvedIffChanged(PaymentOf(w, order[0]), poller, plan);
      }
    }
  }

  lemma WorklistPeels(w: World, order: seq<string>, poller: Poller)
    requires order != [] && forall id | id in order :: id in w.txs
    ensures Resolved(ItemsOf(FindPending(order, w.txs), w.txs, poller))
         == (if w.txs[order[0]].state in PENDING_STATES && IsResolved(ItemOf(w.txs[order[0]], poller).disposition) then 1 else 0)
            + Resolved(ItemsOf(FindPending(order[1..], w.txs), w.txs, poller))
  {
    var id, pending := order[0], FindPending(order[1..], w.txs);
    if w.txs[id].state in PENDING_STATES {
      assert FindPending(order, w.txs) == [id] + pending && ([id] + pending)[1..] == pending;
      ResolvedPeels(ItemOf(w.txs[id], poller), ItemsOf(pending, w.txs, poller));
    } else {
      assert FindPending(order, w.txs) == [] + pending == pending;
    }
  }

  /** The summary's `resolved` is the number of payments the sweep actually changed, over the whole store. */
  lemma ResolvedCountsChanges(w: World, poller: Poller, plan: RailPlan)
    requires Inv(w)
    ensures var v := Sweep(w, poller, plan);
      && (forall id | id in w.order :: id in v.txs)
      && Resolved(SweepItems(w, poller)) == CountChanged(w.order, w, v)
  {
    var ids := FindPending(w.order, w.txs);
    WorklistUnique(w.order, w.txs);
    forall id | id in w.order
      ensures id in Sweep(w, poller, plan).txs
      ensures PaymentOf(Sweep(w, poller, plan), id)
           == if w.txs[id].state in PENDING_STATES then Polled(PaymentOf(w, id), poller, plan) else PaymentOf(w, id)
    {
      SweepSeen(w, ids, poller, plan, id);
    }
    WorklistCounts(w, Sweep(w, poller, plan), w.order, poller, plan);
  }

  // ---- a sweep among callbacks ---------------------------------------------------------------

  /** One iteration of a sweep, with what else happens before it looks at the transaction and between that
      look and its applying the answer. */
  datatype Visit = Visit(id: string, before: seq<Moment>, between: seq<Moment>)

  /** A payment found in the state it was in has not been touched meanwhile. */
  lemma {:induction false} SameStateUntouched(w: World, ms: seq<Moment>, id: string)
    requires Inv(w) && id in w.txs && w.txs[id].provenance == RailVerified
    ensures id in Run(w, ms).txs && Rank(Run(w, ms).txs[id].state) <= Rank(w.txs[id].state)
    ensures Rank(Run(w, ms).txs[id].state) == Rank(w.txs[id].state) ==> PaymentOf(Run(w, ms), id) == PaymentOf(w, id)
    decreases |ms|
  {
    if ms != [] {
      MoveLowersRank(w, ms[0], id);
      StepKeepsInv(w, ms[0]);
      SameStateUntouched(Step(w, ms[0]), ms[1..], id);
    }
  }

  lemma {:induction false} RunKeepsIds(w: World, ms: seq<Moment>, id: string)
    requires Inv(w) && id in w.txs
    ensures id in Run(w, ms).txs
    decreases |ms|
  {
    if ms != [] {
      StepKeepsInv(w, ms[0]);
      RunKeepsIds(Step(w, ms[0]), ms[1..], id);
    }
  }

  /** The event one iteration amounts to, whatever has come between. */
  function VisitEvent(seen: Tx, poller: Poller, plan: RailPlan): Moment
    requires seen.state in PENDING_STATES
  {
    Moment(PollOf(seen, poller), plan)
  }

  lemma VisitTimely(v: World, id: string, poller: Poller, plan: RailPlan)
    requires Inv(v) && id in v.txs && v.txs[id].state in PENDING_STATES
    ensures var t := v.txs[id]; var r := Visited(v, t, poller, plan);
      && r.fault == NoFault && r.world == Step(v, VisitEvent(t, poller, plan)) && id in r.world.txs
      && (IsResolved(r.disposition) <==> PaymentOf(r.world, id) != PaymentOf(v, id)) && r.disposition != AlreadyApplied
  {
    VisitIsPoll(v, id, poller, plan);
    PollSeen(v, id, poller, plan, id);
    ResolvedIffChanged(PaymentOf(v, id), poller, plan);
    LineNeverStale(v.txs[id], poller);
  }

  lemma LineNeverStale(t: Tx, poller: Poller)
    requires t.state in PENDING_STATES
    ensures ItemOf(t, poller).disposition != AlreadyApplied
  {
  }

  lemma VisitOvertaken(v: World, t: Tx, poller: Poller, plan: RailPlan)
    requires Inv(v) && t.id in v.txs && t.state in PENDING_STATES && v.txs[t.id].state != t.state
    ensures var r := Visited(v, t, poller, plan);
      && r.fault == NoFault && r.world == v == Step(v, VisitEvent(t, poller, plan)) && !IsResolved(r.disposition)
  {
    PollMissed(v, t.id, LegForState(t.state).value, PollOf(t, poller).outcome, plan);
  }

  /** A poll of a leg that is no longer awaited does nothing. */
  lemma PollMissed(v: World, id: string, leg: Leg, outcome: Outcome, plan: RailPlan)
    requires Inv(v) && id in v.txs && v.txs[id].state != AwaitingState(leg)
    ensures Step(v, Moment(Event.Polled(id, leg, outcome), plan)) == v
  {
  }

  /** What an iteration does and says when other things happened since it looked: it is one poll of the
      system, it never raises, "resolved" means this iteration moved the payment, and "already applied" that
      somebody else had and this one did nothing. */
  lemma VisitAmid(u: World, ms: seq<Moment>, id: string, poller: Poller, plan: RailPlan)
    requires Inv(u) && id in u.txs && u.txs[id].state in PENDING_STATES
    ensures Inv(Run(u, ms)) && id in Run(u, ms).txs
    ensures var v := Run(u, ms); var r := Visited(v, u.txs[id], poller, plan);
      && r.fault == NoFault && r.world == Step(v, VisitEvent(u.txs[id], poller, plan)) && id in r.world.txs
      && (IsResolved(r.disposition) <==> PaymentOf(r.world, id) != PaymentOf(v, id))
      && (r.disposition == AlreadyApplied ==> r.world == v && PaymentOf(v, id) != PaymentOf(u, id))
  {
    RunKeepsInv(u, ms);
    RunKeepsIds(u, ms, id);
    var t, v := u.txs[id], Run(u, ms);
    var e := PollOf(t, poller);
    if v.txs[id].state != t.state {
      VisitOvertaken(v, t, poller, plan);
      assert PaymentOf(v, id).tx != PaymentOf(u, id).tx;
    } else if OpId(t, e.kind) != None {
      OpIdMeansRouted(u, id, e.kind);
      SameStateUntouched(u, ms, id);
      assert v.txs[id] == PaymentOf(v, id).tx == PaymentOf(u, id).tx == t;
      VisitTimely(v, id, poller, plan);
    }
  }

  /** A sweep with anything at all happening between its steps. */
  function SweepAmid(w: World, visits: seq<Visit>, poller: Poller, plan: RailPlan): Swept
    requires Inv(w)
    decreases |visits|
  {
    if visits == [] then Swept(w, [], NoFault)
    else
      RunKeepsInv(w, visits[0].before);
      var u, id := Run(w, visits[0].before), visits[0].id;
      if id !in u.txs || u.txs[id].state !in PENDING_STATES then SweepAmid(u, visits[1..], poller, plan)
      else
        var t := u.txs[id];
        VisitAmid(u, visits[0].between, id, poller, plan);
        var r := Visited(Run(u, visits[0].between), t, poller, plan);
        StepKeepsInv(Run(u, visits[0].between), VisitEvent(t, poller, plan));
        var rest := SweepAmid(r.world, visits[1..], poller, plan);
        Swept(rest.world, [LineOf(t, r.disposition)] + rest.items, rest.fault)
  }

  /** How many of its iterations changed the payment they were about. */
  function OwnChanges(w: World, visits: seq<Visit>, poller: Poller, plan: RailPlan): nat
    requires Inv(w)
    decreases |visits|
  {
    if visits == [] then 0
    else
      RunKeepsInv(w, visits[0].before);
      var u, id := Run(w, visits[0].before), visits[0].id;
      if id !in u.txs || u.txs[id].state !in PENDING_STATES then OwnChanges(u, visits[1..], poller, plan)
      else
        VisitAmid(u, visits[0].between, id, poller, plan);
        var v := Run(u, visits[0].between);
        var m := VisitEvent(u.txs[id], poller, plan);
        StepKeepsInv(v, m);
        Moves(v, m, id) + OwnChanges(Step(v, m), visits[1..], poller, plan)
  }

  lemma RunsJoined(w: World, before: seq<Moment>, between: seq<Moment>, m: Moment, rest: seq<Moment>) returns (ms: seq<Moment>)
    requires Inv(w)
    ensures Inv(Run(w, before)) && Inv(Run(Run(w, before), between)) && Inv(Step(Run(Run(w, before), between), m))
    ensures Run(w, ms) == Run(Step(Run(Run(w, before), between), m), rest)
  {
    RunKeepsInv(w, before);
    RunKeepsInv(Run(w, before), between);
    StepKeepsInv(Run(Run(w, before), between), m);
    assert ([m] + rest)[1..] == rest;
    RunConcat(Run(w, before), between, [m] + rest);
    RunConcat(w, before, between + ([m] + rest));
    ms := before + (between + ([m] + rest));
  }

  /** Whatever callbacks, confirmations and new payments come between its steps, a sweep is part of a run,
      never raises, and its `resolved` counts exactly the payments its own polls changed. */
  lemma {:induction false} ResolvedCountsOwnChanges(w: World, visits: seq<Visit>, poller: Poller, plan: RailPlan)
    returns (ms: seq<Moment>)
    requires Inv(w)
    ensures var s := SweepAmid(w, visits, poller, plan);
      && s.fault == NoFault && s.world == Run(w, ms) && Resolved(s.items) == OwnChanges(w, visits, poller, plan)
    decreases |visits|
  {
    ms := [];
    if visits != [] {
      RunKeepsInv(w, visits[0].before);
      var u, id := Run(w, visits[0].before), visits[0].id;
      if id !in u.txs || u.txs[id].state !in PENDING_STATES {
        var rest := ResolvedCountsOwnChanges(u, visits[1..], poller, plan);
        RunConcat(w, visits[0].before, rest);
        ms := visits[0].before + rest;
      } else {
        VisitAmid(u, visits[0].between, id, poller, plan);
        var v, m := Run(u, visits[0].between), VisitEvent(u.txs[id], poller, plan);
        StepKeepsInv(v, m);
        var rest := ResolvedCountsOwnChanges(Step(v, m), visits[1..], poller, plan);
        ResolvedPeels(LineOf(u.txs[id], Visited(v, u.txs[id], poller, plan).disposition),
                      SweepAmid(Step(v, m), visits[1..], poller, plan).items);
        ms := RunsJoined(w, visits[0].before, visits[0].between, m, rest);
      }
    }
  }
}
