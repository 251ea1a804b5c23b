/** What a report comes to, told from its own words: the text of a status, the state the payment was in, and
    what the rail answers next. */
module Reports {
  import opened Common
  import opened StateMachine
  import opened Transactions
  import opened Payments
  import opened Status
  import opened Worlds
  import opened Sweeps
  import opened Services

  /** A body names an operation: of a deposit if its `depositId` is a text that is not empty; failing that, of a
      payout if its `payoutId` is; failing that, of a refund if its `refundId` is. */
  predicate Names(b: Body, leg: Leg, opId: string) {
    && opId != ""
    && match leg
       case Deposit => b.depositId == Some(opId)
       case Payout => Blank(b.depositId) && b.payoutId == Some(opId)
       case Refund => Blank(b.depositId) && Blank(b.payoutId) && b.refundId == Some(opId)
  }

  predicate Blank(field: Option<string>) {
    field.None? || field.value == ""
  }

  predicate IsFinal(text: string) {
    SaysDone(text) || SaysFailed(text)
  }

  /** No text says both. */
  lemma DoneIsNotFailed(text: string)
    ensures !(SaysDone(text) && SaysFailed(text))
  {
    StatusReads(Some(text));
  }

  lemma NamedIsParsed(b: Body, leg: Leg, opId: string)
    requires Names(b, leg, opId) && IsFinal(b.status)
    ensures ParseCallback(b) == Some(CallbackEvent(leg, opId, SaysDone(b.status)))
  {
    assert Present(Field(b, leg));
  }

  lemma ParsedIsNamed(b: Body)
    ensures ParseCallback(b).Some? ==>
      IsFinal(b.status) && Names(b, ParseCallback(b).value.kind, ParseCallback(b).value.opId)
  {
    if ParseCallback(b).Some? {
      var kind := ParseCallback(b).value.kind;
      assert forall leg | Precedence(leg) < Precedence(kind) :: !Present(Field(b, leg));
      assert Precedence(Deposit) < Precedence(Payout) < Precedence(Refund);
      assert kind != Deposit ==> !Present(Field(b, Deposit));
      assert kind == Refund ==> !Present(Field(b, Payout));
    }
  }

  /** One outcome through the guard, on a routed payment in any run: it lands where its leg, its outcome and
      the rail's next answers say if the leg is awaited, and does nothing otherwise. */
  lemma OutcomeOn(w: World, id: string, leg: Leg, success: bool, a: Answers)
    requires Inv(w) && id in w.txs && w.txs[id].provenance == RailVerified
    ensures ApplyAnswer(w.txs[id], leg, success, a)
         == if w.txs[id].state == AwaitingState(leg) then Applied else AlreadyResolved(w.txs[id].state)
    ensures var v := ApplyTo(w, id, leg, success, a);
      if w.txs[id].state == AwaitingState(leg) then
        && id in v.txs && v.txs[id].state == LandsIn(leg, success, a)
        && MarkOf(leg, success) in v.txs[id].history && MarkOf(leg, !success) !in v.txs[id].history
        && MarkOf(leg, true) !in w.txs[id].history && MarkOf(leg, false) !in w.txs[id].history
      else v == w
  {
    if w.txs[id].state == AwaitingState(leg) {
      var p := PaymentOf(w, id);
      assert WellKept(p);
      ApplySeen(w, id, leg, success, a);
      OutcomeLands(p, leg, success, a);
      OutcomesNeverRaise(w, id, leg, success, a);
      assert PaymentOf(ApplyTo(w, id, leg, success, a), id).tx == ApplyTo(w, id, leg, success, a).txs[id];
    }
  }

  // ---- pushed -------------------------------------------------------------------------------------

  /** A callback that spells no final word, or names no operation, is answered so and leaves the world as it
      was. */
  lemma CallbackIgnored(w: World, b: Body, plan: RailPlan)
    requires Indexed(w) && (!IsFinal(b.status) || forall leg, opId :: !Names(b, leg, opId))
    ensures CalledBack(w, b, plan) == w && CallbackAnswer(w, ParseCallback(b), plan) == NotTerminal
  {
    ParsedIsNamed(b);
  }

  /** One that names an operation nobody carries is answered as unmatched, and leaves it so too. */
  lemma CallbackUnmatched(w: World, b: Body, plan: RailPlan, leg: Leg, opId: string)
    requires Indexed(w) && IsFinal(b.status) && Names(b, leg, opId)
    requires forall id | id in w.txs :: Some(opId) !in {w.txs[id].depositId, w.txs[id].payoutId, w.txs[id].refundId}
    ensures CalledBack(w, b, plan) == w && CallbackAnswer(w, ParseCallback(b), plan) == Unmatched
  {
    NamedIsParsed(b, leg, opId);
    assert forall id | id in w.order :: !Carries(w.txs[id], opId);
  }

  /** A callback whose status spells a final word, about an operation some payment carries. If that payment
      awaits the leg, COMPLETED takes it where that leg's success leads and FAILED or REJECTED where its
      failure does, and the callback is answered as applied; if not, nothing happens, and the answer tells
      the state found. */
  lemma CallbackLands(w: World, b: Body, plan: RailPlan, leg: Leg, opId: string, id: string)
    requires Inv(w) && Names(b, leg, opId) && IsFinal(b.status) && FirstWithOpId(w.order, w.txs, opId) == Some(id)
    ensures var v, answer := CalledBack(w, b, plan), CallbackAnswer(w, ParseCallback(b), plan);
      && id in v.txs
      && if w.txs[id].state != AwaitingState(leg) then v == w && answer == Reply(AlreadyResolved(w.txs[id].state))
         else
           && answer == Reply(Applied)
           && (SaysDone(b.status) ==> v.txs[id].state == LandsIn(leg, true, plan(id)))
           && (SaysFailed(b.status) ==> v.txs[id].state == LandsIn(leg, false, plan(id)))
  {
    NamedIsParsed(b, leg, opId);
    CarrierIsRouted(w, id, opId);
    DoneIsNotFailed(b.status);
    OutcomeOn(w, id, leg, SaysDone(b.status), plan(id));
  }

  // ---- polled -------------------------------------------------------------------------------------

  /** The same for a polled status, with the word its line has for it. */
  lemma PollLands(w: World, id: string, leg: Leg, status: Option<string>, plan: RailPlan)
    requires Inv(w) && id in w.txs && w.txs[id].provenance == RailVerified
    ensures var r := Resolve(w, id, leg, status, plan);
      && r.fault == NoFault
      && match status
         case None => r.world == w && r.disposition == Unresolved
         case Some(text) =>
           if !IsFinal(text) then r.world == w && r.disposition == StillPending
           else if w.txs[id].state != AwaitingState(leg) then r.world == w && r.disposition == AlreadyApplied
           else
             && id in r.world.txs
             && (SaysDone(text) ==>
                   r.disposition == ResolvedSuccess && r.world.txs[id].state == LandsIn(leg, true, plan(id)))
             && (SaysFailed(text) ==>
                   r.disposition == ResolvedFailure && r.world.txs[id].state == LandsIn(leg, false, plan(id)))
  {
    StatusReads(status);
    if status.Some? {
      OutcomeOn(w, id, leg, SaysDone(status.value), plan(id));
      if w.txs[id].state == AwaitingState(leg) {
        OutcomesNeverRaise(w, id, leg, SaysDone(status.value), plan(id));
      }
    }
  }

  /** The marks an iteration left that were not there. */
  predicate NewlyMarked(w: World, v: World, id: string, mark: TxState)
    requires id in w.txs
  {
    id in v.txs && mark in v.txs[id].history && mark !in w.txs[id].history
  }

  lemma ResolveMarks(w: World, id: string, leg: Leg, status: Option<string>, plan: RailPlan)
    requires Inv(w) && id in w.txs && w.txs[id].provenance == RailVerified
    ensures var r := Resolve(w, id, leg, status, plan);
      && (r.disposition == ResolvedSuccess <==> NewlyMarked(w, r.world, id, MarkOf(leg, true)))
      && (r.disposition == ResolvedFailure <==> NewlyMarked(w, r.world, id, MarkOf(leg, false)))
  {
    OutcomeOn(w, id, leg, Classify(status) == Success, plan(id));
  }

  /** What the summary's line says of a pending payment, told without the status: `resolved: success` exactly
      when its poll put the awaited leg's success on its history, `resolved: failure` exactly when it put the
      failure there; skipped exactly when it held no id to poll by, a poll error exactly when the poll was
      one. Nothing else on the line means that anything happened. */
  lemma LineTellsOutcome(w: World, id: string, poller: Poller, plan: RailPlan)
    requires Inv(w) && id in w.txs && w.txs[id].state in PENDING_STATES
    ensures var t := w.txs[id]; var leg := LegForState(t.state).value;
      var line, v := ItemOf(t, poller).disposition, Step(w, Moment(PollOf(t, poller), plan));
      && (line == ResolvedSuccess <==> NewlyMarked(w, v, id, MarkOf(leg, true)))
      && (line == ResolvedFailure <==> NewlyMarked(w, v, id, MarkOf(leg, false)))
      && (line == SkippedNoOpId <==> OpId(t, leg) == None)
      && (line == PollError <==> OpId(t, leg).Some? && poller(leg, OpId(t, leg).value) == TransportError)
      && (line == Unresolved <==> OpId(t, leg).Some? && poller(leg, OpId(t, leg).value) == Read(None))
      && (line !in {ResolvedSuccess, ResolvedFailure} ==> v == w)
  {
    var t := w.txs[id];
    var leg := LegForState(t.state).value;
    VisitIsPoll(w, id, poller, plan);
    if OpId(t, leg).Some? {
      OpIdMeansRouted(w, id, leg);
      var polled := poller(leg, OpId(t, leg).value);
      if polled.Read? {
        ResolveMarks(w, id, leg, polled.status, plan);
        PollLands(w, id, leg, polled.status, plan);
      }
    }
  }
}
