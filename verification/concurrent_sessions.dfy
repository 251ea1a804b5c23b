/** A feature-phone session whose dials overlap: the requests its confirmed texts make, among any others, in
    the system where starts are taken step by step. */
module ConcurrentSessions {
  import opened Common
  import opened MoneyTypes
  import opened Transactions
  import opened Payments
  import opened Worlds
  import opened Conservation
  import opened IdempotentStart
  import opened StartOutcomes
  import opened ConcurrentHealth
  import opened Merchants
  import opened Ussd

  /** A session: who dials, and all that is ever entered. */
  datatype Conversation = Conversation(session: string, msisdn: string, entries: seq<string>)

  /** The one key under which the session can pay. */
  function SessionKey(directory: seq<Merchant>, x: Conversation): string
    requires ReadTokens(directory, x.entries).Pay?
  {
    var r := ReadTokens(directory, x.entries);
    PaymentKey(x.session, x.msisdn, r.merchant.shortCode, r.minor)
  }

  /** The dial is one of the session's, its text reads as confirmed, and the request is what it starts. */
  predicate Confirms(directory: seq<Merchant>, x: Conversation, d: Dial, simulated: bool, r: Request) {
    && d.session == x.session && d.msisdn == x.msisdn && Tokens(d.text) <= x.entries
    && var reading := ReadText(directory, d.text);
       reading.Pay? && r == (d.id, OrderOf(d, reading.merchant, reading.minor, simulated))
  }

  /** Whichever of its dials reads as confirmed, whatever operators are predicted for it, it asks for the same
      payment. */
  lemma ConfirmedAlike(directory: seq<Merchant>, x: Conversation, d: Dial, simulated: bool, r: Request)
    requires Confirms(directory, x, d, simulated, r)
    ensures ReadTokens(directory, x.entries) == ReadText(directory, d.text)
    ensures r.1.key == Some(SessionKey(directory, x)) && r.1.amount == Money(ReadTokens(directory, x.entries).minor, USD)
    ensures r.1.amount.IsPositive() && Harmless(r.1.scenario) && (PlaysOut(r.1) <==> simulated)
  {
    EndIsStable(directory, Tokens(d.text), x.entries);
    PaysAPositiveAmount(directory, DIALLED, Tokens(d.text));
  }

  /** The transaction a finished request answers for: the one it was told, or, where its start raised, the one
      it had made. */
  function StandsFor(pc: Pc, r: Request): string
    requires pc.Done?
  {
    match pc.result
    case Returned(id) => id
    case Raised(_) => r.0
  }

  /** A finished dial, whether its start returned or raised, stands for a stored transaction under the session's
      key. */
  lemma FinishedDialHolds(
    ms: seq<Moment>, rs: seq<Request>, cs: seq<Choice>, i: nat,
    directory: seq<Merchant>, x: Conversation, d: Dial, simulated: bool)
    requires Fresh(ms, rs) && i < |rs| && Confirms(directory, x, d, simulated, rs[i])
    ensures SysInv(Initial(ms, rs), rs) && ReadTokens(directory, x.entries).Pay?
    ensures var s := Interleave(Initial(ms, rs), rs, cs);
      && |s.pcs| == |rs|
      && (s.pcs[i].Done? ==>
            && StandsFor(s.pcs[i], rs[i]) in s.world.txs
            && s.world.txs[StandsFor(s.pcs[i], rs[i])].key == Some(SessionKey(directory, x)))
  {
    ConfirmedAlike(directory, x, d, simulated, rs[i]);
    FinishedReturnsWinner(ms, rs, cs, i);
  }

  /** A session pays once, its dials overlapping at will. In every interleaving, at every moment: any two of
      its confirmed dials that are finished stand for the same transaction, even one whose start raised; at
      most one collection was ever asked for under the session's key; and the payment under it is fit. */
  lemma OverlappingDialsPayOnce(
    ms: seq<Moment>, rs: seq<Request>, cs: seq<Choice>, i: nat, j: nat, p: nat, q: nat,
    directory: seq<Merchant>, x: Conversation, d: Dial, e: Dial, simulated: bool)
    requires Fresh(ms, rs) && i < |rs| && j < |rs|
    requires Confirms(directory, x, d, simulated, rs[i]) && Confirms(directory, x, e, simulated, rs[j])
    ensures SysInv(Initial(ms, rs), rs) && ReadTokens(directory, x.entries).Pay?
    ensures var s, key := Interleave(Initial(ms, rs), rs, cs), Some(SessionKey(directory, x));
      && |s.pcs| == |rs|
      && (s.pcs[i].Done? && s.pcs[j].Done? ==> StandsFor(s.pcs[i], rs[i]) == StandsFor(s.pcs[j], rs[j]))
      && (Collects(s.world, p, key) && Collects(s.world, q, key) ==> p == q)
      && (rs[i].0 in s.world.txs ==> Fit(PaymentOf(s.world, rs[i].0)))
  {
    FinishedDialHolds(ms, rs, cs, i, directory, x, d, simulated);
    FinishedDialHolds(ms, rs, cs, j, directory, x, e, simulated);
    OneCollectionPerKey(ms, rs, cs, p, q);
    ConfirmedAlike(directory, x, d, simulated, rs[i]);
    PaymentsStayFit(ms, rs, cs, rs[i].0);
  }

  /** One of the requests to the rail is a collection for a payment under that key. */
  predicate Collects(w: World, p: nat, key: Option<string>) {
    p < |w.calls| && w.calls[p].CollectCall? && w.calls[p].txId in w.txs && w.txs[w.calls[p].txId].key == key
  }

  /** When a confirmed dial can fail: some schedule makes its start raise if and only if nothing is under the
      session's key yet, the server is on the simulator, and the payment goes through the rail. */
  lemma ConfirmedDialRaisesIff(
    ms: seq<Moment>, rs: seq<Request>, i: nat, directory: seq<Merchant>, x: Conversation, d: Dial, simulated: bool)
    requires Fresh(ms, rs) && i < |rs| && Confirms(directory, x, d, simulated, rs[i])
    ensures ReadTokens(directory, x.entries).Pay?
    ensures (exists cs :: RaisesUnder(ms, rs, cs, i))
       <==> (Lookup(Reached(ms), Some(SessionKey(directory, x))) == None && simulated && IsRouted(rs[i].1))
  {
    ConfirmedAlike(directory, x, d, simulated, rs[i]);
    StartRaisesIff(ms, rs, i);
  }
}
