/** The transaction record: a plain value for reasoning, and the mutable object the handlers update. */
module Transactions {
  import opened Common
  import opened MoneyTypes
  import opened StateMachine

  datatype Leg = Deposit | Payout | Refund

  /** How an outcome is established: a signed rail callback, or the merchant's own word (on-net). */
  datatype Provenance = RailVerified | MerchantAttested

  /** A snapshot of one transaction. An empty provider string stands for a missing one. */
  datatype Tx = Tx(
    id: string,
    customerMsisdn: string,
    merchantMsisdn: string,
    amount: Money,
    fee: Money,
    state: TxState,
    history: seq<TxState>,
    key: Option<string>,
    merchantId: Option<string>,
    customerProvider: string,
    merchantProvider: string,
    depositId: Option<string>,
    payoutId: Option<string>,
    refundId: Option<string>,
    provenance: Provenance)

  /** The state in which one leg's outcome may still apply. */
  function AwaitingState(leg: Leg): (s: TxState)
    ensures s in PENDING_STATES
  {
    match leg
    case Deposit => CollectionPending
    case Payout => PayoutPending
    case Refund => RefundPending
  }

  /** The inverse table used by the sweep. */
  function LegForState(s: TxState): (leg: Option<Leg>)
    ensures leg.Some? <==> s in PENDING_STATES
    ensures leg.Some? ==> AwaitingState(leg.value) == s
  {
    match s
    case CollectionPending => Some(Deposit)
    case PayoutPending => Some(Payout)
    case RefundPending => Some(Refund)
    case _ => None
  }

  function OpId(t: Tx, leg: Leg): Option<string> {
    match leg
    case Deposit => t.depositId
    case Payout => t.payoutId
    case Refund => t.refundId
  }

  /** Persist an operation id, if the rail issued one. */
  function WithOpId(t: Tx, leg: Leg, opId: Option<string>): Tx {
    if opId.None? then t
    else match leg
      case Deposit => t.(depositId := opId)
      case Payout => t.(payoutId := opId)
      case Refund => t.(refundId := opId)
  }

  class Transaction {
    const id: string
    const customerMsisdn: string
    const merchantMsisdn: string
    const amount: Money
    const fee: Money
    const key: Option<string>
    const merchantId: Option<string>
    const customerProvider: string
    const merchantProvider: string
    const provenance: Provenance
    var state: TxState
    var history: seq<TxState>
    var depositId: Option<string>
    var payoutId: Option<string>
    var refundId: Option<string>

    constructor (t: Tx)
      ensures View() == t
    {
      id, customerMsisdn, merchantMsisdn := t.id, t.customerMsisdn, t.merchantMsisdn;
      amount, fee, key, merchantId := t.amount, t.fee, t.key, t.merchantId;
      customerProvider, merchantProvider, provenance := t.customerProvider, t.merchantProvider, t.provenance;
      state, history := t.state, t.history;
      depositId, payoutId, refundId := t.depositId, t.payoutId, t.refundId;
    }

    function View(): (t: Tx)
      reads this
    {
      Tx(id, customerMsisdn, merchantMsisdn, amount, fee, state, history, key, merchantId,
         customerProvider, merchantProvider, depositId, payoutId, refundId, provenance)
    }
  }
}
