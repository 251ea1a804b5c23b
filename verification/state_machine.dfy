/** The transaction state machine: a constant table and membership tests. */
module StateMachine {

  datatype TxState =
    | Initiated
    | CollectionPending
    | CollectionSucceeded
    | CollectionFailed
    | PayoutPending
    | PayoutSucceeded
    | PayoutFailed
    | RefundPending
    | Refunded
    | ManualReview

  /** The allowed transitions; anything not listed is illegal. */
  function Successors(s: TxState): set<TxState> {
    match s
    case Initiated => {CollectionPending, ManualReview}
    case CollectionPending => {CollectionSucceeded, CollectionFailed, PayoutSucceeded, ManualReview}
    case CollectionSucceeded => {PayoutPending, ManualReview}
    case CollectionFailed => {}
    case PayoutPending => {PayoutSucceeded, PayoutFailed, ManualReview}
    case PayoutSucceeded => {}
    case PayoutFailed => {RefundPending, ManualReview}
    case RefundPending => {Refunded, ManualReview}
    case Refunded => {}
    case ManualReview => {PayoutPending, RefundPending, Refunded, CollectionFailed}
  }

  const PENDING_STATES: set<TxState> := {CollectionPending, PayoutPending, RefundPending}

  predicate CanTransition(src: TxState, dst: TxState) {
    dst in Successors(src)
  }

  predicate IsTerminal(s: TxState) {
    Successors(s) == {}
  }

  /** How far along the two legs and the refund a state is. */
  function Along(s: TxState): nat {
    match s
    case Initiated => 0
    case CollectionPending => 1
    case CollectionSucceeded => 2
    case CollectionFailed => 2
    case PayoutPending => 3
    case PayoutSucceeded => 4
    case PayoutFailed => 4
    case RefundPending => 5
    case Refunded => 6
    case ManualReview => 7
  }

  /** The shape of the table. Three states are final. Every other can be put under review, and only review
      leads back, to what is still to be done or to an end. All else goes one step on, but that on-net a
      collection is the settlement. */
  lemma MovesAre(src: TxState, dst: TxState)
    ensures IsTerminal(src) <==> src in {CollectionFailed, PayoutSucceeded, Refunded}
    ensures dst == ManualReview ==> (CanTransition(src, dst) <==> !IsTerminal(src) && src != ManualReview)
    ensures src == ManualReview ==>
      (CanTransition(src, dst) <==> dst in {PayoutPending, RefundPending, Refunded, CollectionFailed})
    ensures src != ManualReview && dst != ManualReview ==>
      (CanTransition(src, dst) <==>
         (!IsTerminal(src) && Along(dst) == Along(src) + 1) || (src == CollectionPending && dst == PayoutSucceeded))
  {
  }

  /** A history the machine could have produced: it opens at `Initiated` and every step is legal. */
  ghost predicate LegalPath(h: seq<TxState>) {
    && |h| > 0
    && h[0] == Initiated
    && forall i :: 0 < i < |h| ==> CanTransition(h[i - 1], h[i])
  }
}
