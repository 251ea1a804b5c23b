/** The ledger kept as rows: postings flattened entry by entry, and regrouped by posting id on the way out. */
module SqlLedgers {
  import opened Common
  import opened MoneyTypes
  import opened Ledger

  /** One stored entry. Rows are kept in id order. */
  datatype Row = Row(postingId: string, txId: string, account: Account, direction: Direction, minor: int, currency: Currency)

  function RowPosting(r: Row): string {
    r.postingId
  }

  function RowTx(r: Row): string {
    r.txId
  }

  function EntryOf(r: Row): Entry {
    Entry(r.account, r.direction, Money(r.minor, r.currency))
  }

  function Entries(rows: seq<Row>): seq<Entry> {
    seq(|rows|, i requires 0 <= i < |rows| => EntryOf(rows[i]))
  }

  function Flatten(postingId: string, p: Posting): (rows: seq<Row>)
    ensures |rows| == |p.entries|
    ensures forall r | r in rows :: r.postingId == postingId && r.txId == p.txId
  {
    seq(|p.entries|, i requires 0 <= i < |p.entries| =>
      var e := p.entries[i];
      Row(postingId, p.txId, e.account, e.direction, e.amount.minor, e.amount.currency))
  }

  /** Nothing of an entry is lost in its row. */
  lemma FlattenKeepsEntries(postingId: string, p: Posting)
    ensures Entries(Flatten(postingId, p)) == p.entries
  {
  }

  // ---- what regrouping yields ------------------------------------------------------------

  /** The posting ids in order of first appearance. */
  function FirstIds(rows: seq<Row>): seq<string> {
    if rows == [] then []
    else
      var front, last := FirstIds(rows[..|rows| - 1]), rows[|rows| - 1].postingId;
      if last in front then front else front + [last]
  }

  lemma FirstIdsGrow(rows: seq<Row>, row: Row)
    ensures FirstIds(rows + [row])
         == if row.postingId in FirstIds(rows) then FirstIds(rows) else FirstIds(rows) + [row.postingId]
  {
    assert (rows + [row])[..|rows|] == rows;
  }

  lemma {:induction false} FirstIdsAppear(rows: seq<Row>, pid: string)
    ensures pid in FirstIds(rows) <==> exists r :: r in rows && r.postingId == pid
  {
    if rows != [] {
      FirstIdsAppear(rows[..|rows| - 1], pid);
      assert rows == rows[..|rows| - 1] + [rows[|rows| - 1]];
    }
  }

  lemma {:induction false} FirstIdsDistinct(rows: seq<Row>)
    ensures NoDuplicates(FirstIds(rows))
  {
    if rows != [] {
      FirstIdsDistinct(rows[..|rows| - 1]);
    }
  }

  function GroupOf(rows: seq<Row>, postingId: string): seq<Entry> {
    Entries(Select(rows, RowPosting, postingId))
  }

  function Regroup(rows: seq<Row>, txId: string): seq<Posting> {
    var ids := FirstIds(rows);
    seq(|ids|, k requires 0 <= k < |ids| => Posting(txId, GroupOf(rows, ids[k])))
  }

  datatype Fetched = Rebuilt(postings: seq<Posting>) | Unbalanced

  ghost predicate AllBalance(ps: seq<Posting>) {
    forall k {:trigger ps[k]} | 0 <= k < |ps| :: Balances(ps[k].entries)
  }

  /** The balance check runs again as each posting is rebuilt. */
  ghost function FetchedFrom(rows: seq<Row>, txId: string): Fetched {
    if AllBalance(Regroup(rows, txId)) then Rebuilt(Regroup(rows, txId)) else Unbalanced
  }

  lemma GroupGrows(rows: seq<Row>, row: Row, postingId: string)
    ensures GroupOf(rows + [row], postingId)
         == GroupOf(rows, postingId) + if row.postingId == postingId then [EntryOf(row)] else []
  {
    SelectConcat(rows, [row], RowPosting, postingId);
    var old_, added := Select(rows, RowPosting, postingId), Select([row], RowPosting, postingId);
    assert added == if row.postingId == postingId then [row] else [];
    assert Entries(old_ + added) == Entries(old_) + Entries(added);
  }

  function At(groups: map<string, seq<Entry>>, pid: string): seq<Entry> {
    if pid in groups then groups[pid] else []
  }

  ghost predicate Grouped(groups: map<string, seq<Entry>>, order: seq<string>, rows: seq<Row>) {
    && order == FirstIds(rows)
    && (forall pid :: pid in groups <==> pid in order)
    && (forall pid {:trigger At(groups, pid)} :: At(groups, pid) == GroupOf(rows, pid))
  }

  lemma GroupStep(groups: map<string, seq<Entry>>, order: seq<string>, rows: seq<Row>, row: Row)
    requires Grouped(groups, order, rows)
    ensures var pid := row.postingId;
      Grouped(groups[pid := At(groups, pid) + [EntryOf(row)]], if pid in groups then order else order + [pid], rows + [row])
  {
    FirstIdsGrow(rows, row);
    var next := groups[row.postingId := At(groups, row.postingId) + [EntryOf(row)]];
    forall pid ensures At(next, pid) == GroupOf(rows + [row], pid) {
      GroupGrows(rows, row, pid);
      assert At(groups, pid) == GroupOf(rows, pid);
    }
  }

  /** One pass over a transaction's rows, filling the groups and the order in which they first appeared. */
  method Group(rows: seq<Row>) returns (groups: map<string, seq<Entry>>, order: seq<string>)
    ensures Grouped(groups, order, rows)
  {
    groups, order := map[], [];
    for i := 0 to |rows|
      invariant Grouped(groups, order, rows[..i])
    {
      var row := rows[i];
      ghost var before := groups;
      GroupStep(groups, order, rows[..i], row);
      if row.postingId !in groups {
        groups := groups[row.postingId := []];
        order := order + [row.postingId];
      }
      groups := groups[row.postingId := groups[row.postingId] + [EntryOf(row)]];
      assert groups == before[row.postingId := At(before, row.postingId) + [EntryOf(row)]];
      assert rows[..i + 1] == rows[..i] + [row];
    }
    assert rows[..|rows|] == rows;
  }

  method Rebuild(rows: seq<Row>, txId: string) returns (r: Fetched)
    ensures r == FetchedFrom(rows, txId)
  {
    var groups, order := Group(rows);
    ghost var all := Regroup(rows, txId);
    var postings := [];
    for k := 0 to |order|
      invariant postings == all[..k] && AllBalance(postings)
    {
      assert order[k] in groups && At(groups, order[k]) == GroupOf(rows, order[k]);
      var posting := Posting(txId, groups[order[k]]);
      assert all[k] == posting;
      var balanced := CheckBalanced(posting.entries);
      if !balanced {
        return Unbalanced;
      }
      postings := postings + [posting];
    }
    r := Rebuilt(postings);
  }

  // ---- any interleaving comes back whole ---------------------------------------------------

  /** Rows that belong to these postings, each posting's rows in order, however they are shuffled
      together: concurrent writers commit their rows in between one another. */
  ghost predicate Interleaves(rows: seq<Row>, book: map<string, Posting>) {
    forall pid {:trigger Select(rows, RowPosting, pid)} ::
      Select(rows, RowPosting, pid) == if pid in book then Flatten(pid, book[pid]) else []
  }

  /** Where a posting first shows. */
  function FirstRow(rows: seq<Row>, postingId: string): (i: nat)
    requires postingId in FirstIds(rows)
    ensures i < |rows| && rows[i].postingId == postingId && forall k | 0 <= k < i :: rows[k].postingId != postingId
  {
    var front := rows[..|rows| - 1];
    if postingId in FirstIds(front) then FirstRow(front, postingId)
    else
      FirstIdsAppear(front, postingId);
      assert forall k | 0 <= k < |front| :: front[k] == rows[k] && front[k] in front;
      |rows| - 1
  }

  lemma {:induction false} FirstIdsInOrder(rows: seq<Row>, j: nat, k: nat)
    requires j < k < |FirstIds(rows)|
    ensures FirstRow(rows, FirstIds(rows)[j]) < FirstRow(rows, FirstIds(rows)[k])
  {
    var front := rows[..|rows| - 1];
    var ids := FirstIds(rows);
    if k < |FirstIds(front)| {
      FirstIdsInOrder(front, j, k);
    }
  }

  /** A posting's rows all name its transaction, so selecting by transaction keeps or drops them together. */
  lemma {:induction false} SelectTwice(rows: seq<Row>, txId: string, postingId: string, owner: string)
    requires forall r | r in rows && r.postingId == postingId :: r.txId == owner
    ensures Select(Select(rows, RowTx, txId), RowPosting, postingId)
         == if owner == txId then Select(rows, RowPosting, postingId) else []
  {
    if rows != [] {
      SelectTwice(rows[1..], txId, postingId, owner);
      var rest := Select(rows[1..], RowTx, txId);
      if rows[0].txId == txId {
        assert ([rows[0]] + rest)[1..] == rest;
      } else {
        assert [] + rest == rest;
      }
    }
  }

  lemma GroupIsPosting(rows: seq<Row>, book: map<string, Posting>, txId: string, pid: string)
    requires Interleaves(rows, book) && pid in book
    ensures GroupOf(Select(rows, RowTx, txId), pid) == if book[pid].txId == txId then book[pid].entries else []
  {
    forall r | r in rows && r.postingId == pid ensures r.txId == book[pid].txId {
      assert r in Select(rows, RowPosting, pid);
    }
    SelectTwice(rows, txId, pid, book[pid].txId);
    FlattenKeepsEntries(pid, book[pid]);
  }

  /** Whatever the interleaving, a transaction's balanced postings come back: exactly those, each whole and
      in order, sorted by first row; and rebuilding them never trips the balance check. */
  lemma AnyInterleavingRoundTrips(rows: seq<Row>, book: map<string, Posting>, txId: string)
    requires Interleaves(rows, book) && forall pid | pid in book :: Balances(book[pid].entries)
    ensures var mine := Select(rows, RowTx, txId);
      var ids := FirstIds(mine);
      && (forall pid :: pid in ids <==> pid in book && book[pid].txId == txId)
      && NoDuplicates(ids)
      && (forall j, k | 0 <= j < k < |ids| :: FirstRow(mine, ids[j]) < FirstRow(mine, ids[k]))
      && FetchedFrom(mine, txId) == Rebuilt(seq(|ids|, k requires 0 <= k < |ids| && ids[k] in book => book[ids[k]]))
  {
    var mine := Select(rows, RowTx, txId);
    var ids := FirstIds(mine);
    FirstIdsDistinct(mine);
    forall pid ensures pid in ids <==> pid in book && book[pid].txId == txId {
      OwnersShow(rows, book, txId, pid);
    }
    forall j, k | 0 <= j < k < |ids| ensures FirstRow(mine, ids[j]) < FirstRow(mine, ids[k]) {
      FirstIdsInOrder(mine, j, k);
    }
    forall k | 0 <= k < |ids| ensures ids[k] in book && Regroup(mine, txId)[k] == book[ids[k]] {
      assert ids[k] in ids;
      GroupIsPosting(rows, book, txId, ids[k]);
    }
  }

  lemma OwnersShow(rows: seq<Row>, book: map<string, Posting>, txId: string, pid: string)
    requires Interleaves(rows, book) && forall p | p in book :: Balances(book[p].entries)
    ensures pid in FirstIds(Select(rows, RowTx, txId)) <==> pid in book && book[pid].txId == txId
  {
    var mine, whole := Select(rows, RowTx, txId), Select(rows, RowPosting, pid);
    FirstIdsAppear(mine, pid);
    if pid in FirstIds(mine) {
      var r :| r in mine && r.postingId == pid;
      assert r in whole;
    }
    if pid in book && book[pid].txId == txId {
      assert whole == Flatten(pid, book[pid]) && whole[0] in whole;
      assert whole[0] in mine;
    }
  }

  // ---- one writer at a time: the in-memory ledger ---------------------------------------------

  datatype Stamped = Stamped(id: string, posting: Posting)

  function Postings(book: seq<Stamped>): seq<Posting> {
    if book == [] then [] else Postings(book[..|book| - 1]) + [book[|book| - 1].posting]
  }

  function FlattenAll(book: seq<Stamped>): seq<Row> {
    if book == [] then []
    else FlattenAll(book[..|book| - 1]) + Flatten(book[|book| - 1].id, book[|book| - 1].posting)
  }

  /** Distinct stamps, balanced postings. */
  ghost predicate WellStamped(book: seq<Stamped>) {
    && (forall i, j | 0 <= i < j < |book| :: book[i].id != book[j].id)
    && (forall s | s in book :: Balances(s.posting.entries))
  }

  lemma {:induction false} RowsAreStamped(book: seq<Stamped>)
    ensures forall r | r in FlattenAll(book) :: exists s :: s in book && s.id == r.postingId
  {
    if book != [] {
      RowsAreStamped(book[..|book| - 1]);
      assert book == book[..|book| - 1] + [book[|book| - 1]];
    }
  }

  /** A whole posting appended under a new id is one more group at the end. */
  lemma {:induction false} FirstIdsAppend(rows: seq<Row>, more: seq<Row>, pid: string)
    requires more != [] && pid !in FirstIds(rows) && forall r | r in more :: r.postingId == pid
    ensures FirstIds(rows + more) == FirstIds(rows) + [pid]
    decreases |more|
  {
    var front, last := more[..|more| - 1], more[|more| - 1];
    assert rows + more == (rows + front) + [last];
    assert last in more;
    FirstIdsGrow(rows + front, last);
    if front == [] {
      assert rows + front == rows;
    } else {
      assert forall r | r in front :: r in more;
      FirstIdsAppend(rows, front, pid);
    }
  }

  lemma OldGroupsStay(rows: seq<Row>, pid: string, p: Posting, id: string)
    requires id != pid
    ensures GroupOf(rows + Flatten(pid, p), id) == GroupOf(rows, id)
  {
    SelectConcat(rows, Flatten(pid, p), RowPosting, id);
    SelectUniform(Flatten(pid, p), RowPosting, pid, id);
    assert Select(rows, RowPosting, id) + [] == Select(rows, RowPosting, id);
  }

  lemma NewGroupIsPosting(rows: seq<Row>, pid: string, p: Posting)
    requires pid !in FirstIds(rows)
    ensures GroupOf(rows + Flatten(pid, p), pid) == p.entries
  {
    FirstIdsAppear(rows, pid);
    SelectConcat(rows, Flatten(pid, p), RowPosting, pid);
    SelectUniform(Flatten(pid, p), RowPosting, pid, pid);
    SelectAbsent(rows, RowPosting, pid);
    FlattenKeepsEntries(pid, p);
    assert [] + Flatten(pid, p) == Flatten(pid, p);
  }

  lemma RegroupAppend(rows: seq<Row>, pid: string, p: Posting)
    requires p.entries != [] && pid !in FirstIds(rows)
    ensures Regroup(rows + Flatten(pid, p), p.txId) == Regroup(rows, p.txId) + [p]
  {
    var all, ids := rows + Flatten(pid, p), FirstIds(rows);
    FirstIdsAppend(rows, Flatten(pid, p), pid);
    NewGroupIsPosting(rows, pid, p);
    forall k | 0 <= k < |ids| ensures Regroup(all, p.txId)[k] == Regroup(rows, p.txId)[k] {
      OldGroupsStay(rows, pid, p, ids[k]);
    }
  }

  /** Rows written posting by posting read back as the in-memory ledger's own filter. */
  lemma {:induction false} WholePostingsReadBack(book: seq<Stamped>, txId: string)
    requires WellStamped(book)
    ensures Regroup(Select(FlattenAll(book), RowTx, txId), txId) == ForTransaction(Postings(book), txId)
  {
    if book != [] {
      var front, last := book[..|book| - 1], book[|book| - 1];
      assert last in book && forall s | s in front :: s in book;
      WholePostingsReadBack(front, txId);
      OnePostingMore(front, last, txId);
      assert FlattenAll(book) == FlattenAll(front) + Flatten(last.id, last.posting);
      assert Postings(book) == Postings(front) + [last.posting];
    }
  }

  lemma OnePostingMore(front: seq<Stamped>, last: Stamped, txId: string)
    requires last.posting.entries != [] && forall s | s in front :: s.id != last.id
    requires Regroup(Select(FlattenAll(front), RowTx, txId), txId) == ForTransaction(Postings(front), txId)
    ensures Regroup(Select(FlattenAll(front) + Flatten(last.id, last.posting), RowTx, txId), txId)
         == ForTransaction(Postings(front) + [last.posting], txId)
  {
    var rows, more := FlattenAll(front), Flatten(last.id, last.posting);
    SelectConcat(rows, more, RowTx, txId);
    SelectUniform(more, RowTx, last.posting.txId, txId);
    SelectConcat(Postings(front), [last.posting], PostingOwner, txId);
    SelectUniform([last.posting], PostingOwner, last.posting.txId, txId);
    if last.posting.txId == txId {
      StampIsNew(front, last.id, txId);
      RegroupAppend(Select(rows, RowTx, txId), last.id, last.posting);
    } else {
      assert Select(rows, RowTx, txId) + [] == Select(rows, RowTx, txId);
      assert ForTransaction(Postings(front), txId) + [] == ForTransaction(Postings(front), txId);
    }
  }

  lemma StampIsNew(front: seq<Stamped>, id: string, txId: string)
    requires forall s | s in front :: s.id != id
    ensures id !in FirstIds(Select(FlattenAll(front), RowTx, txId))
  {
    RowsAreStamped(front);
    FirstIdsAppear(Select(FlattenAll(front), RowTx, txId), id);
  }

  class SqlLedger {
    var rows: seq<Row>
    ghost var book: seq<Stamped>

    constructor ()
      ensures Valid() && book == []
    {
      rows, book := [], [];
    }

    ghost predicate Valid()
      reads this
    {
      rows == FlattenAll(book) && WellStamped(book)
    }

    /** One row an entry, under one fresh id. */
    method Post(posting: Posting, postingId: string)
      requires Valid() && Balances(posting.entries) && forall s | s in book :: s.id != postingId
      modifies this
      ensures Valid() && book == old(book) + [Stamped(postingId, posting)]
      ensures Postings(book) == Postings(old(book)) + [posting]
    {
      ghost var before, flat := rows, Flatten(postingId, posting);
      for i := 0 to |posting.entries|
        invariant rows == before + flat[..i] && book == old(book)
      {
        var e := posting.entries[i];
        rows := rows + [Row(postingId, posting.txId, e.account, e.direction, e.amount.minor, e.amount.currency)];
      }
      book := book + [Stamped(postingId, posting)];
      assert book[..|book| - 1] == old(book);
    }

    /** The SQL ledger answers as the in-memory ledger would, and never raises. */
    method SelectForTransaction(txId: string) returns (r: Fetched)
      requires Valid()
      ensures r == Rebuilt(ForTransaction(Postings(book), txId))
    {
      var mine := Mine(txId);
      WholePostingsReadBack(book, txId);
      AllBalanced(book);
      r := Rebuild(mine, txId);
    }

    /** The query: this transaction's rows, by id. */
    method Mine(txId: string) returns (r: seq<Row>)
      ensures r == Select(rows, RowTx, txId)
    {
      r := [];
      for i := 0 to |rows|
        invariant r == Select(rows[..i], RowTx, txId)
      {
        assert rows[..i + 1] == rows[..i] + [rows[i]];
        SelectConcat(rows[..i], [rows[i]], RowTx, txId);
        if rows[i].txId == txId {
          r := r + [rows[i]];
        }
      }
      assert rows[..|rows|] == rows;
    }
  }

  lemma {:induction false} AllBalanced(book: seq<Stamped>)
    requires WellStamped(book)
    ensures forall p | p in Postings(book) :: Balances(p.entries)
  {
    if book != [] {
      var front := book[..|book| - 1];
      assert forall s | s in front :: s in book;
      AllBalanced(front);
      assert book[|book| - 1] in book;
    }
  }
}
