/** The in-memory adapters as objects: the transaction store with its unique-key guard, and the rail
    as it looks from inside. */
module Memory {
  import opened Common
  import opened MoneyTypes
  import opened Ledger
  import opened StateMachine
  import opened Transactions
  import opened Payments
  import opened Worlds
  import opened Sweeps

  class TransactionStore {
    var rows: map<string, Transaction>
    // A Python dictionary iterates in insertion order; a Dafny map has none, so the order is kept here.
    var order: seq<string>
    // What has been done so far, in order; the handlers below write it as they go.
    ghost var trace: seq<Act>

    ghost predicate Valid()
      reads this
    {
      && NoDuplicateIds(order)
      && (forall id :: id in order <==> id in rows)
      && (forall id {:trigger rows[id]} | id in rows :: rows[id].id == id && rows[id].amount.currency == rows[id].fee.currency)
      && (forall i, j {:trigger rows[i].key, rows[j].key} |
            i in rows && j in rows && rows[i].key.Some? && rows[i].key == rows[j].key :: i == j)
    }

    ghost function Txs(): map<string, Tx>
      reads this, rows.Values
    {
      map id | id in rows :: rows[id].View()
    }

    /** Changing one stored object changes one row of the view. */
    twostate lemma RowChanged(t: Transaction)
      requires old(Valid()) && t.id in old(rows) && old(rows)[t.id] == t
      requires rows == old(rows) && forall id | id in rows && id != t.id :: unchanged(rows[id])
      ensures Txs() == old(Txs())[t.id := t.View()]
    {
      forall id | id in rows && id != t.id ensures rows[id].View() == old(rows[id].View()) {
      }
    }

    constructor ()
      ensures Valid() && rows == map[] && order == [] && trace == []
    {
      rows, order, trace := map[], [], [];
    }

    ghost predicate KeyTaken(t: Transaction)
      reads this
    {
      t.key.Some? && exists id :: id in rows && id != t.id && rows[id].key == t.key
    }

    ghost predicate Holding(key: Option<string>)
      reads this
    {
      key.Some? && exists id :: id in rows && rows[id].key == key
    }

    /** The unique-key guard: a second transaction under a key another holds is refused, untouched. */
    method Save(t: Transaction) returns (fault: Fault)
      requires Valid() && t.amount.currency == t.fee.currency
      modifies this`rows, this`order
      ensures Valid()
      ensures fault == if old(KeyTaken(t)) then DuplicateIdempotencyKey else NoFault
      ensures fault != NoFault ==> rows == old(rows) && order == old(order)
      ensures fault == NoFault ==>
        rows == old(rows)[t.id := t] && order == if t.id in old(rows) then old(order) else old(order) + [t.id]
      ensures t.id in old(rows) && old(rows)[t.id] == t ==> fault == NoFault && rows == old(rows) && order == old(order)
    {
      if t.key.Some? {
        for i := 0 to |order|
          invariant forall k | 0 <= k < i :: rows[order[k]].key == t.key ==> order[k] == t.id
        {
          var existing := rows[order[i]];
          if existing.key == t.key && existing.id != t.id {
            return DuplicateIdempotencyKey;
          }
        }
        assert !KeyTaken(t) by {
          forall id | id in rows && rows[id].key == t.key ensures id == t.id {
            assert id in order;
          }
        }
      }
      if t.id !in rows {
        AppendFreshId(order, t.id);
        order := order + [t.id];
      }
      rows := rows[t.id := t];
      fault := NoFault;
    }

    method FindByIdempotencyKey(key: string) returns (t: Transaction?)
      requires Valid()
      ensures t == null <==> FirstWithKey(order, Txs(), key).None?
      ensures t != null ==> var id := FirstWithKey(order, Txs(), key).value; id in rows && t == rows[id]
    {
      ghost var txs := Txs();
      for i := 0 to |order|
        invariant FirstWithKey(order, txs, key) == FirstWithKey(order[i..], txs, key)
      {
        if rows[order[i]].key == Some(key) {
          return rows[order[i]];
        }
      }
      t := null;
    }

    method FindByOpId(opId: string) returns (t: Transaction?)
      requires Valid()
      ensures t == null <==> FirstWithOpId(order, Txs(), opId).None?
      ensures t != null ==> var id := FirstWithOpId(order, Txs(), opId).value; id in rows && t == rows[id]
    {
      ghost var txs := Txs();
      for i := 0 to |order|
        invariant FirstWithOpId(order, txs, opId) == FirstWithOpId(order[i..], txs, opId)
      {
        var row := rows[order[i]];
        if row.depositId == Some(opId) || row.payoutId == Some(opId) || row.refundId == Some(opId) {
          return row;
        }
      }
      t := null;
    }

    /** The sweep's worklist, in insertion order: exactly the rows in a pending state. */
    method SelectPending() returns (r: seq<Transaction>)
      requires Valid()
      ensures Ids(r) == FindPending(order, Txs())
      ensures forall i {:trigger r[i]} | 0 <= i < |r| :: r[i].id in rows && r[i] == rows[r[i].id]
    {
      ghost var txs := Txs();
      r := [];
      for i := 0 to |order|
        invariant Ids(r) + FindPending(order[i..], txs) == FindPending(order, txs)
        invariant forall k {:trigger r[k]} | 0 <= k < |r| :: r[k].id in rows && r[k] == rows[r[k].id]
      {
        var row := rows[order[i]];
        PendingPeels(order, i, txs, Ids(r));
        if row.state in PENDING_STATES {
          IdsAppend(r, row);
          r := r + [row];
        }
      }
      assert Ids(r) == FindPending(order, txs);
    }
  }

  function Ids(r: seq<Transaction>): seq<string> {
    seq(|r|, i requires 0 <= i < |r| => r[i].id)
  }

  lemma IdsAppend(r: seq<Transaction>, t: Transaction)
    ensures Ids(r + [t]) == Ids(r) + [t.id]
  {
  }

  lemma PendingPeels(order: seq<string>, i: nat, txs: map<string, Tx>, done: seq<string>)
    requires i < |order| && forall id | id in order :: id in txs
    ensures done + FindPending(order[i..], txs)
         == (if txs[order[i]].state in PENDING_STATES then done + [order[i]] else done) + FindPending(order[i + 1..], txs)
  {
    assert order[i..][1..] == order[i + 1..];
    var rest := FindPending(order[i + 1..], txs);
    assert done + ([order[i]] + rest) == (done + [order[i]]) + rest;
  }

  /** The payment rail seen from inside: it answers at once and remembers what it was asked. What it
      would answer is the environment's choice. */
  class Rail {
    var answers: RailPlan
    var calls: seq<RailCall>

    constructor (plan: RailPlan)
      ensures answers == plan && calls == []
    {
      answers, calls := plan, [];
    }

    method RequestCollection(txId: string, msisdn: string, amount: Money, provider: string) returns (a: Answer)
      modifies this`calls
      ensures a == answers(txId).deposit
      ensures calls == old(calls) + [CollectCall(txId, msisdn, amount, provider, a)]
    {
      a := answers(txId).deposit;
      calls := calls + [CollectCall(txId, msisdn, amount, provider, a)];
    }

    method RequestPayout(txId: string, msisdn: string, amount: Money, provider: string) returns (a: Answer)
      modifies this`calls
      ensures a == answers(txId).payout
      ensures calls == old(calls) + [PayoutCall(txId, msisdn, amount, provider, a)]
    {
      a := answers(txId).payout;
      calls := calls + [PayoutCall(txId, msisdn, amount, provider, a)];
    }

    method RequestRefund(txId: string, depositId: Option<string>, amount: Money, provider: string) returns (a: Answer)
      modifies this`calls
      ensures a == answers(txId).refund
      ensures calls == old(calls) + [RefundCall(txId, depositId, amount, provider, a)]
    {
      a := answers(txId).refund;
      calls := calls + [RefundCall(txId, depositId, amount, provider, a)];
    }
  }

  /** The state of the objects, as the value the theorems speak of. */
  ghost function WorldOf(store: TransactionStore, rail: Rail, ledger: InMemoryLedger): World
    reads store, store.rows.Values, rail, ledger
  {
    World(store.order, store.Txs(), ledger.postings, rail.calls, store.trace)
  }

  /** A valid store is all the contracts below ask for when they ask for an indexed world. */
  lemma WorldIsIndexed(store: TransactionStore, rail: Rail, ledger: InMemoryLedger)
    requires store.Valid()
    ensures Indexed(WorldOf(store, rail, ledger))
  {
    var w := WorldOf(store, rail, ledger);
    assert forall id | id in w.txs :: w.txs[id] == store.rows[id].View();
  }
}
