/** The reconciliation sweep as a run of polls, and why three of them leave nothing pending. */
module Sweeps {
  import opened Common
  import opened StateMachine
  import opened Transactions
  import opened Payments
  import opened Status
  import opened Worlds
  import opened Conservation
  import opened Confluence

  /** What a status request gives back: the raw status, if it could be read, or a transport error. */
  datatype PollResult = Read(status: Option<string>) | TransportError

  type Poller = (Leg, string) -> PollResult

  datatype Disposition =
    | ResolvedSuccess
    | ResolvedFailure
    | StillPending
    | Unresolved
    | SkippedNoOpId
    | AlreadyApplied
    | PollError

  datatype Item = Item(txId: string, kind: Leg, disposition: Disposition)

  /** The sweep's worklist, in insertion order. */
  function FindPending(order: seq<string>, txs: map<string, Tx>): (r: seq<string>)
    requires forall id | id in order :: id in txs
    ensures forall id :: id in r <==> id in order && txs[id].state in PENDING_STATES
  {
    if order == [] then []
    else (if txs[order[0]].state in PENDING_STATES then [order[0]] else []) + FindPending(order[1..], txs)
  }

  /** Earlier transactions come earlier on it. */
  lemma {:induction false} WorklistKeepsOrder(order: seq<string>, more: seq<string>, txs: map<string, Tx>)
    requires (forall id | id in order :: id in txs) && (forall id | id in more :: id in txs)
    ensures FindPending(order + more, txs) == FindPending(order, txs) + FindPending(more, txs)
  {
    if order == [] {
      assert order + more == more;
    } else {
      SplitFirst(order, more);
      WorklistKeepsOrder(order[1..], more, txs);
      WorklistHead(order, txs);
      WorklistHead(order + more, txs);
      var head := if txs[order[0]].state in PENDING_STATES then [order[0]] else [];
      assert head + (FindPending(order[1..], txs) + FindPending(more, txs))
          == (head + FindPending(order[1..], txs)) + FindPending(more, txs);
    }
  }

  lemma WorklistHead(order: seq<string>, txs: map<string, Tx>)
    requires order != [] && forall id | id in order :: id in txs
    ensures FindPending(order, txs)
         == (if txs[order[0]].state in PENDING_STATES then [order[0]] else []) + FindPending(order[1..], txs)
  {
  }

  lemma {:induction false} WorklistUnique(order: seq<string>, txs: map<string, Tx>)
    requires NoDuplicateIds(order) && forall id | id in order :: id in txs
    ensures NoDuplicateIds(FindPending(order, txs))
  {
    if order != [] {
      WorklistUnique(order[1..], txs);
      var rest := FindPending(order[1..], txs);
      assert ([order[0]] + rest)[1..] == rest && [] + rest == rest;
    }
  }

  function PolledOutcome(r: PollResult): Outcome {
    if r == TransportError || r.status.None? then Pending else Classify(r.status)
  }

  /** The poll one pending transaction gets: of the leg its state awaits, by the id stored for it. */
  function PollOf(t: Tx, poller: Poller): Event
    requires t.state in PENDING_STATES
  {
    var leg := LegForState(t.state).value;
    match OpId(t, leg)
    case None => Polled(t.id, leg, Pending)
    case Some(opId) => Polled(t.id, leg, PolledOutcome(poller(leg, opId)))
  }

  /** What the summary records for it; within one sweep nothing can overtake the poll. */
  function ItemOf(t: Tx, poller: Poller): Item
    requires t.state in PENDING_STATES
  {
    var leg := LegForState(t.state).value;
    Item(t.id, leg,
         match OpId(t, leg)
         case None => SkippedNoOpId
         case Some(opId) =>
           match poller(leg, opId)
           case TransportError => PollError
           case Read(None) => Unresolved
           case Read(Some(raw)) =>
             match Classify(Some(raw))
             case Pending => StillPending
             case Success => ResolvedSuccess
             case Failure => ResolvedFailure)
  }

  function ItemsOf(ids: seq<string>, txs: map<string, Tx>, poller: Poller): seq<Item>
    requires forall id | id in ids :: id in txs && txs[id].state in PENDING_STATES
  {
    if ids == [] then [] else [ItemOf(txs[ids[0]], poller)] + ItemsOf(ids[1..], txs, poller)
  }

  /** The summary of a sweep: one line for every pending transaction, in insertion order. */
  function SweepItems(w: World, poller: Poller): seq<Item>
    requires Indexed(w)
  {
    ItemsOf(FindPending(w.order, w.txs), w.txs, poller)
  }

  // ---- the loop, in any world --------------------------------------------------------------

  /** What one polled transaction comes to: the world, the line's word for it, and what a handler raised. */
  datatype Resolution = Resolution(world: World, disposition: Disposition, fault: Fault)

  /** A polled status turned into a disposition, and applied when it is final. The transaction may have
      moved on since the sweep looked at it. */
  function Resolve(w: World, id: string, kind: Leg, status: Option<string>, plan: RailPlan): Resolution
    requires Indexed(w) && id in w.txs
  {
    if status.None? then Resolution(w, Unresolved, NoFault)
    else if Classify(status) == Pending then Resolution(w, StillPending, NoFault)
    else if w.txs[id].state != AwaitingState(kind) then Resolution(w, AlreadyApplied, NoFault)
    else
      var success := Classify(status) == Success;
      var e := OnResult(w.txs[id], kind, success, plan(id));
      Resolution(Commit(w, e), if success then ResolvedSuccess else ResolvedFailure, e.fault)
  }

  /** One iteration: a pending transaction as the sweep saw it, polled by the id it showed, in the world as
      it is when the answer is in. */
  function Visited(w: World, seen: Tx, poller: Poller, plan: RailPlan): Resolution
    requires Indexed(w) && seen.id in w.txs && seen.state in PENDING_STATES
  {
    var leg := LegForState(seen.state).value;
    match OpId(seen, leg)
    case None => Resolution(w, SkippedNoOpId, NoFault)
    case Some(opId) =>
      match poller(leg, opId)
      case TransportError => Resolution(w, PollError, NoFault)
      case Read(status) => Resolve(w, seen.id, leg, status, plan)
  }

  function LineOf(seen: Tx, d: Disposition): Item
    requires seen.state in PENDING_STATES
  {
    Item(seen.id, LegForState(seen.state).value, d)
  }

  /** Where a sweep ends: the world it leaves, the lines it reports, and the exception that cut it short,
      if a handler raised one; then there is no summary at all. */
  datatype Swept = Swept(world: World, items: seq<Item>, fault: Fault)

  lemma ApplyKeepsIndex(w: World, id: string, leg: Leg, success: bool, a: Answers)
    requires Indexed(w) && id in w.txs
    ensures var v := ApplyTo(w, id, leg, success, a);
      && Indexed(v) && v.order == w.order && v.txs.Keys == w.txs.Keys
      && forall k | k in w.txs && k != id :: v.txs[k] == w.txs[k]
  {
    var v := ApplyTo(w, id, leg, success, a);
    HandlersAreLocal(w.txs[id], leg, success, a);
    assert v.txs.Keys == w.txs.Keys;
  }

  lemma VisitKeepsIndex(w: World, seen: Tx, poller: Poller, plan: RailPlan)
    requires Indexed(w) && seen.id in w.txs && seen.state in PENDING_STATES
    ensures var v := Visited(w, seen, poller, plan).world;
      && Indexed(v) && v.order == w.order && v.txs.Keys == w.txs.Keys
      && forall k | k in w.txs && k != seen.id :: v.txs[k] == w.txs[k]
  {
    var leg := LegForState(seen.state).value;
    if OpId(seen, leg).Some? {
      var polled := poller(leg, OpId(seen, leg).value);
      if polled.Read? {
        ApplyKeepsIndex(w, seen.id, leg, Classify(polled.status) == Success, plan(seen.id));
      }
    }
  }

  /** The sweep's loop over its worklist, each transaction read as it is by then. */
  function SweepLoop(w: World, ids: seq<string>, poller: Poller, plan: RailPlan): Swept
    requires Indexed(w) && forall id | id in ids :: id in w.txs
    decreases |ids|
  {
    if ids == [] then Swept(w, [], NoFault)
    else
      var t := w.txs[ids[0]];
      if t.state !in PENDING_STATES then SweepLoop(w, ids[1..], poller, plan)
      else
        VisitKeepsIndex(w, t, poller, plan);
        var r := Visited(w, t, poller, plan);
        if r.fault != NoFault then Swept(r.world, [], r.fault)
        else
          var rest := SweepLoop(r.world, ids[1..], poller, plan);
          Swept(rest.world, if rest.fault == NoFault then [LineOf(t, r.disposition)] + rest.items else [], rest.fault)
  }

  // ---- the loop, in a world of healthy payments ---------------------------------------------

  function SweepOver(w: World, ids: seq<string>, poller: Poller, plan: RailPlan): World
    requires Inv(w) && forall id | id in ids :: id in w.txs
    decreases |ids|
  {
    if ids == [] then w
    else
      var t := w.txs[ids[0]];
      if t.state !in PENDING_STATES then SweepOver(w, ids[1..], poller, plan)
      else
        var m := Moment(PollOf(t, poller), plan);
        StepKeepsInv(w, m);
        SweepOver(Step(w, m), ids[1..], poller, plan)
  }

  function Sweep(w: World, poller: Poller, plan: RailPlan): World
    requires Inv(w)
  {
    SweepOver(w, FindPending(w.order, w.txs), poller, plan)
  }

  lemma OutcomesNeverRaise(w: World, id: string, leg: Leg, success: bool, a: Answers)
    requires Inv(w) && id in w.txs && w.txs[id].provenance == RailVerified && w.txs[id].state == AwaitingState(leg)
    ensures OnResult(w.txs[id], leg, success, a).fault == NoFault
  {
    assert Healthy(PaymentOf(w, id));
    PricedCovers(w, id);
    GuardedFaults(PaymentOf(w, id), leg, success, a);
  }

  /** Where nothing comes between the look and the answer, an iteration is one poll of the system, reported
      as the status was and never an exception. */
  lemma VisitIsPoll(w: World, id: string, poller: Poller, plan: RailPlan)
    requires Inv(w) && id in w.txs && w.txs[id].state in PENDING_STATES
    ensures var t := w.txs[id];
      Visited(w, t, poller, plan)
        == Resolution(Step(w, Moment(PollOf(t, poller), plan)), ItemOf(t, poller).disposition, NoFault)
  {
    var t := w.txs[id];
    var e := PollOf(t, poller);
    if OpId(t, e.kind) != None && e.outcome != Pending {
      OpIdMeansRouted(w, id, e.kind);
      OutcomesNeverRaise(w, id, e.kind, e.outcome == Success, plan(id));
    }
  }

  lemma PollLeavesOthers(w: World, id: string, poller: Poller, plan: RailPlan)
    requires Inv(w) && id in w.txs && w.txs[id].state in PENDING_STATES
    ensures var v := Step(w, Moment(PollOf(w.txs[id], poller), plan));
      && Inv(v) && v.txs.Keys == w.txs.Keys
      && forall k | k in w.txs && k != id :: v.txs[k] == w.txs[k]
  {
    StepKeepsInv(w, Moment(PollOf(w.txs[id], poller), plan));
    VisitIsPoll(w, id, poller, plan);
    VisitKeepsIndex(w, w.txs[id], poller, plan);
  }

  /** A worklist read where every transaction is still as it was found. */
  lemma {:induction false} LoopIsSweep(
    found: map<string, Tx>, w: World, ids: seq<string>, poller: Poller, plan: RailPlan)
    requires Inv(w) && NoDuplicateIds(ids)
    requires forall id | id in ids :: id in found && found[id].state in PENDING_STATES && id in w.txs && w.txs[id] == found[id]
    ensures SweepLoop(w, ids, poller, plan) == Swept(SweepOver(w, ids, poller, plan), ItemsOf(ids, found, poller), NoFault)
    decreases |ids|
  {
    if ids != [] {
      VisitIsPoll(w, ids[0], poller, plan);
      PollLeavesOthers(w, ids[0], poller, plan);
      LoopIsSweep(found, Step(w, Moment(PollOf(w.txs[ids[0]], poller), plan)), ids[1..], poller, plan);
    }
  }

  /** In every run a sweep ends without an exception, each pending transaction polled once and reported
      by its own line. */
  lemma SweepCompletes(w: World, poller: Poller, plan: RailPlan)
    requires Inv(w)
    ensures SweepLoop(w, FindPending(w.order, w.txs), poller, plan)
         == Swept(Sweep(w, poller, plan), SweepItems(w, poller), NoFault)
  {
    WorklistUnique(w.order, w.txs);
    LoopIsSweep(w.txs, w, FindPending(w.order, w.txs), poller, plan);
  }

  /** A sweep is a run: whatever holds of every run holds of sweeps among callbacks. */
  lemma {:induction false} SweepIsRun(w: World, ids: seq<string>, poller: Poller, plan: RailPlan) returns (ms: seq<Moment>)
    requires Inv(w) && forall id | id in ids :: id in w.txs
    ensures Run(w, ms) == SweepOver(w, ids, poller, plan)
    ensures |ms| <= |ids| && forall m | m in ms :: m.plan == plan && m.event.Polled?
    decreases |ids|
  {
    ms := [];
    if ids != [] {
      var t := w.txs[ids[0]];
      if t.state !in PENDING_STATES {
        ms := SweepIsRun(w, ids[1..], poller, plan);
      } else {
        var m := Moment(PollOf(t, poller), plan);
        StepKeepsInv(w, m);
        var rest := SweepIsRun(Step(w, m), ids[1..], poller, plan);
        ms := [m] + rest;
        assert ms[1..] == rest;
      }
    }
  }

  // ---- progress ---------------------------------------------------------------------------

  /** Every accepted request so far was given an id. */
  ghost predicate IdsIssued(w: World) {
    forall c | c in w.calls && c.answer.Accepted? :: c.answer.opId.Some?
  }

  ghost predicate PlanIssues(plan: RailPlan) {
    forall id, leg | AnswerFor(plan(id), leg).Accepted? :: AnswerFor(plan(id), leg).opId.Some?
  }

  /** On a rail that issues ids, a pending routed payment always carries the id of the leg it awaits. */
  lemma AwaitedIdStored(w: World, id: string)
    requires Inv(w) && IdsIssued(w) && id in w.txs
    requires w.txs[id].provenance == RailVerified && w.txs[id].state in PENDING_STATES
    ensures OpId(w.txs[id], LegForState(w.txs[id].state).value).Some?
  {
    var p := PaymentOf(w, id);
    assert WellKept(p);
    AwaitedIdIsLastAnswer(p);
    assert p.calls[|p.calls| - 1] in w.calls;
  }

  lemma AwaitedIdIsLastAnswer(p: Payment)
    requires Canonical(p) && p.tx.state in PENDING_STATES
    ensures |p.calls| > 0 && p.calls[|p.calls| - 1].answer.Accepted?
    ensures OpId(p.tx, LegForState(p.tx.state).value) == p.calls[|p.calls| - 1].answer.opId
  {
  }

  lemma StartIssuesIds(w: World, id: string, o: PaymentOrder, plan: RailPlan)
    requires Inv(w) && IdsIssued(w) && PlanIssues(plan)
    ensures IdsIssued(StartPayment(w, id, o, plan).world)
  {
    StartedAnsweredBy(id, o, plan);
  }

  /** On a rail that issues ids every event keeps it so; the simulator, for one, issues them. */
  lemma StepKeepsIdsIssued(w: World, m: Moment)
    requires Inv(w) && IdsIssued(w) && PlanIssues(m.plan)
    ensures IdsIssued(Step(w, m))
  {
    match m.event
    case Begin(id, o) => StartIssuesIds(w, id, o, m.plan);
    case Callback(kind, opId, outcome) =>
      var found := FirstWithOpId(w.order, w.txs, opId);
      if found.Some? {
        HandlersAsAnswered(w.txs[found.value], kind, outcome == Success, m.plan(found.value));
      }
    case Polled(id, kind, outcome) =>
      if id in w.txs {
        HandlersAsAnswered(w.txs[id], kind, outcome == Success, m.plan(id));
      }
    case Confirm(id, merchantId, received) =>
      if id in w.txs {
        assert OnConfirm(w.txs[id], received).calls == [];
      }
  }

  lemma PollKeeps(w: World, id: string, poller: Poller, plan: RailPlan)
    requires Inv(w) && IdsIssued(w) && PlanIssues(plan) && id in w.txs && w.txs[id].state in PENDING_STATES
    ensures var v := Step(w, Moment(PollOf(w.txs[id], poller), plan));
      Inv(v) && IdsIssued(v) && v.txs.Keys == w.txs.Keys
  {
    var e := PollOf(w.txs[id], poller);
    PolledKeepsInv(w, e.txId, e.kind, e.outcome, plan);
    StepKeepsIdsIssued(w, Moment(e, plan));
  }

  /** The poller has a final word about the operation a transaction waits for, if there is one to ask by. */
  predicate Knows(poller: Poller, t: Tx) {
    t.state in PENDING_STATES && OpId(t, LegForState(t.state).value).Some? ==> PollOf(t, poller).outcome != Pending
  }

  function RankIn(w: World, id: string): nat
    requires id in w.txs
  {
    if w.txs[id].provenance == RailVerified then Rank(w.txs[id].state) else 0
  }

  function Lowered(n: nat): nat {
    if n > 0 then n - 1 else 0
  }

  lemma PollLowersRank(w: World, id: string, poller: Poller, plan: RailPlan, k: string)
    requires Inv(w) && IdsIssued(w) && id in w.txs && k in w.txs
    requires w.txs[id].state in PENDING_STATES && (k == id ==> Knows(poller, w.txs[k]))
    ensures var v := Step(w, Moment(PollOf(w.txs[id], poller), plan));
      k in v.txs && RankIn(v, k) <= if k == id then Lowered(RankIn(w, k)) else RankIn(w, k)
  {
    var t := w.txs[id];
    var m := Moment(PollOf(t, poller), plan);
    StepOn(w, m, k);
    assert WellKept(PaymentOf(w, id));
    if k == id && t.provenance == RailVerified {
      AwaitedIdStored(w, id);
      var leg := LegForState(t.state).value;
      OutcomeLowersRank(PaymentOf(w, id), leg, m.event.outcome == Success, plan(id));
      HandlersKeepTerms(t, leg, m.event.outcome == Success, plan(id));
    }
  }

  lemma {:induction false} SweepLowersRanks(w: World, ids: seq<string>, poller: Poller, plan: RailPlan, k: string)
    requires Inv(w) && IdsIssued(w) && PlanIssues(plan) && NoDuplicateIds(ids)
    requires k in w.txs && (k in ids ==> Knows(poller, w.txs[k])) && forall id | id in ids :: id in w.txs
    ensures var v := SweepOver(w, ids, poller, plan);
      k in v.txs && RankIn(v, k) <= if k in ids then Lowered(RankIn(w, k)) else RankIn(w, k)
    decreases |ids|
  {
    if ids != [] {
      var id, rest := ids[0], ids[1..];
      assert k in ids <==> k == id || k in rest;
      if w.txs[id].state !in PENDING_STATES {
        SweepLowersRanks(w, rest, poller, plan, k);
      } else {
        PollKeeps(w, id, poller, plan);
        PollLeavesOthers(w, id, poller, plan);
        PollLowersRank(w, id, poller, plan, k);
        SweepLowersRanks(Step(w, Moment(PollOf(w.txs[id], poller), plan)), rest, poller, plan, k);
      }
    }
  }

  lemma {:induction false} SweepOverKeeps(w: World, ids: seq<string>, poller: Poller, plan: RailPlan)
    requires Inv(w) && IdsIssued(w) && PlanIssues(plan) && forall id | id in ids :: id in w.txs
    ensures var v := SweepOver(w, ids, poller, plan);
      Inv(v) && IdsIssued(v) && v.txs.Keys == w.txs.Keys
    decreases |ids|
  {
    if ids != [] {
      var t := w.txs[ids[0]];
      if t.state !in PENDING_STATES {
        SweepOverKeeps(w, ids[1..], poller, plan);
      } else {
        PollKeeps(w, ids[0], poller, plan);
        SweepOverKeeps(Step(w, Moment(PollOf(t, poller), plan)), ids[1..], poller, plan);
      }
    }
  }

  lemma SweepKeeps(w: World, poller: Poller, plan: RailPlan)
    requires Inv(w) && IdsIssued(w) && PlanIssues(plan)
    ensures var v := Sweep(w, poller, plan);
      Inv(v) && IdsIssued(v) && v.txs.Keys == w.txs.Keys
  {
    SweepOverKeeps(w, FindPending(w.order, w.txs), poller, plan);
  }

  /** One sweep takes a payment at least one outcome nearer its end, if the poller has a final word about
      the one operation that payment awaits; of any other operation nothing is asked. */
  lemma SweepLowersRank(w: World, poller: Poller, plan: RailPlan, k: string)
    requires Inv(w) && IdsIssued(w) && PlanIssues(plan) && k in w.txs && Knows(poller, w.txs[k])
    ensures k in Sweep(w, poller, plan).txs && RankIn(Sweep(w, poller, plan), k) <= Lowered(RankIn(w, k))
  {
    WorklistUnique(w.order, w.txs);
    SweepLowersRanks(w, FindPending(w.order, w.txs), poller, plan, k);
  }

  /** What happens before a sweep, and what the provider says when it is polled. */
  datatype Round = Round(before: seq<Moment>, poller: Poller)

  ghost predicate Issuing(rounds: seq<Round>) {
    forall i, m | 0 <= i < |rounds| && m in rounds[i].before :: PlanIssues(m.plan)
  }

  lemma {:induction false} RunKeepsIdsIssued(w: World, ms: seq<Moment>)
    requires Inv(w) && IdsIssued(w) && forall m | m in ms :: PlanIssues(m.plan)
    ensures Inv(Run(w, ms)) && IdsIssued(Run(w, ms))
    decreases |ms|
  {
    if ms != [] {
      assert ms[0] in ms;
      StepKeepsInv(w, ms[0]);
      StepKeepsIdsIssued(w, ms[0]);
      RunKeepsIdsIssued(Step(w, ms[0]), ms[1..]);
    }
  }

  /** Nothing ever takes a payment further from its end. */
  lemma {:induction false} RunKeepsRank(w: World, ms: seq<Moment>, k: string)
    requires Inv(w) && k in w.txs
    ensures k in Run(w, ms).txs && RankIn(Run(w, ms), k) <= RankIn(w, k)
    decreases |ms|
  {
    if ms != [] {
      StepKeepsInv(w, ms[0]);
      StepKeepsTerms(w, ms[0], k);
      if w.txs[k].provenance == RailVerified {
        MoveLowersRank(w, ms[0], k);
      }
      RunKeepsRank(Step(w, ms[0]), ms[1..], k);
    }
  }

  lemma RoundKeeps(w: World, round: Round, plan: RailPlan)
    requires Inv(w) && IdsIssued(w) && PlanIssues(plan) && forall m | m in round.before :: PlanIssues(m.plan)
    ensures Inv(Run(w, round.before)) && IdsIssued(Run(w, round.before))
    ensures var v := Sweep(Run(w, round.before), round.poller, plan);
      && Inv(v) && IdsIssued(v)
      && forall k | k in w.txs :: k in Run(w, round.before).txs && k in v.txs
  {
    RunKeepsIdsIssued(w, round.before);
    SweepKeeps(Run(w, round.before), round.poller, plan);
    forall k | k in w.txs ensures k in Run(w, round.before).txs {
      RunKeepsRank(w, round.before, k);
    }
  }

  /** One sweep after another, with any events at all between them. */
  function SweepEach(w: World, rounds: seq<Round>, plan: RailPlan): World
    requires Inv(w) && IdsIssued(w) && PlanIssues(plan) && Issuing(rounds)
    decreases |rounds|
  {
    if rounds == [] then w
    else
      RoundKeeps(w, rounds[0], plan);
      SweepEach(Sweep(Run(w, rounds[0].before), rounds[0].poller, plan), rounds[1..], plan)
  }

  /** Whenever a sweep comes, its poller has a final word about what this payment awaits just then. */
  ghost predicate KnownEach(w: World, rounds: seq<Round>, plan: RailPlan, k: string)
    requires Inv(w) && IdsIssued(w) && PlanIssues(plan) && Issuing(rounds) && k in w.txs
    decreases |rounds|
  {
    rounds == [] ||
      (RoundKeeps(w, rounds[0], plan);
       var u := Run(w, rounds[0].before);
       Knows(rounds[0].poller, u.txs[k]) && KnownEach(Sweep(u, rounds[0].poller, plan), rounds[1..], plan, k))
  }

  lemma {:induction false} SweepsSettle(w: World, rounds: seq<Round>, plan: RailPlan, k: string)
    requires Inv(w) && IdsIssued(w) && PlanIssues(plan) && Issuing(rounds) && k in w.txs
    requires KnownEach(w, rounds, plan, k) && RankIn(w, k) <= |rounds|
    ensures var v := SweepEach(w, rounds, plan); k in v.txs && RankIn(v, k) == 0
    decreases |rounds|
  {
    if rounds != [] {
      RoundKeeps(w, rounds[0], plan);
      RunKeepsRank(w, rounds[0].before, k);
      var u := Run(w, rounds[0].before);
      SweepLowersRank(u, rounds[0].poller, plan, k);
      SweepsSettle(Sweep(u, rounds[0].poller, plan), rounds[1..], plan, k);
    }
  }

  /** Self-healing: on a rail that issues ids, three sweeps or more settle a routed payment, however many of
      its callbacks were missed and whatever else happens in between, if at each sweep the provider has
      finished the one operation that payment then awaits. */
  lemma ThreeSweepsSettle(w: World, rounds: seq<Round>, plan: RailPlan, k: string)
    requires Inv(w) && IdsIssued(w) && PlanIssues(plan) && Issuing(rounds) && |rounds| >= 3
    requires k in w.txs && KnownEach(w, rounds, plan, k)
    ensures var v := SweepEach(w, rounds, plan);
      k in v.txs && (v.txs[k].provenance == RailVerified ==> v.txs[k].state !in PENDING_STATES)
  {
    SweepsSettle(w, rounds, plan, k);
  }
}
