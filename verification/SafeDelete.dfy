/** Snapshot delete (src/modules/database/safe_delete.rs).

    A table is a map from primary key to row. One read transaction collects the
    matching rows; they are then removed chunk by chunk, each chunk in one write
    transaction, while other writers commit whatever they like in between. */
module SafeDelete {
  import opened Wrappers
  import opened Sequences

  datatype Row = Row(pk: string, secondaryKey: string, data: string)

  type Table = t: map<string, Row> | forall k :: k in t ==> t[k].pk == k witness map[]

  /** The secondary-key prefix of the scan and the row filter. */
  datatype Query = Query(startWith: string, filter: Row -> bool)

  predicate Matches(q: Query, r: Row) {
    q.startWith <= r.secondaryKey && q.filter(r)
  }

  function MatchingKeys(t: Table, q: Query): set<string> {
    set k | k in t && Matches(q, t[k])
  }

  /** What a delete is for: the table minus the matching rows. */
  function Without(t: Table, q: Query): Table {
    map k | k in t && !Matches(q, t[k]) :: t[k]
  }

  // ----- one write transaction

  /** What goes wrong in a write transaction, if anything. A fault at item `index`
      only strikes when the chunk has such an item. */
  datatype Fault = NoFault | BeginFails | RemoveFails(index: nat) | CommitFails | Panics(index: nat)

  datatype DeleteError = StorageError | JobPanicked

  predicate Strikes(f: Fault, chunk: seq<Row>) {
    match f
    case NoFault => false
    case BeginFails => |chunk| > 0
    case CommitFails => |chunk| > 0
    case RemoveFails(i) => i < |chunk|
    case Panics(i) => i < |chunk|
  }

  function ErrorOf(f: Fault): DeleteError {
    if f.Panics? then JobPanicked else StorageError
  }

  /** The keys whose current row equals one of the chunk's rows. */
  function Hits(t: Table, chunk: seq<Row>): set<string> {
    set k | k in t && t[k] in chunk
  }

  function Survivors(t: Table, chunk: seq<Row>): Table {
    map k | k in t && t[k] !in chunk :: t[k]
  }

  // ----- the interleaving with other writers

  /** What other writers make of the table just before transaction i starts:
      any function, so any sequence of commits. */
  type Writers = (nat, Table) -> Table

  function Quiet(): Writers {
    (i: nat, t: Table) => t
  }

  /** The table after the first i chunk transactions. */
  ghost function After(t: Table, chunks: seq<seq<Row>>, w: Writers, i: nat): Table
    requires i <= |chunks|
    decreases i, 0
  {
    if i == 0 then t else Survivors(Before(t, chunks, w, i - 1), chunks[i - 1])
  }

  /** The table chunk transaction i finds. */
  ghost function Before(t: Table, chunks: seq<seq<Row>>, w: Writers, i: nat): Table
    requires i <= |chunks|
    decreases i, 1
  {
    w(i, After(t, chunks, w, i))
  }

  /** The keys removed by the first i chunk transactions, and the count reported for them. */
  ghost function Removed(t: Table, chunks: seq<seq<Row>>, w: Writers, i: nat): set<string>
    requires i <= |chunks|
  {
    if i == 0 then {}
    else Removed(t, chunks, w, i - 1) + Hits(Before(t, chunks, w, i - 1), chunks[i - 1])
  }

  ghost function Reported(t: Table, chunks: seq<seq<Row>>, w: Writers, i: nat): nat
    requires i <= |chunks|
  {
    if i == 0 then 0
    else Reported(t, chunks, w, i - 1) + |Hits(Before(t, chunks, w, i - 1), chunks[i - 1])|
  }

  ghost predicate DistinctKeys(items: seq<Row>) {
    forall i, j :: 0 <= i < j < |items| ==> items[i].pk != items[j].pk
  }

  /** The rows one read transaction collects, in whatever order the scan yields them. */
  ghost predicate IsSnapshot(t: Table, q: Query, items: seq<Row>) {
    && DistinctKeys(items)
    && (forall r :: r in items ==> r.pk in t && t[r.pk] == r && Matches(q, r))
    && (forall k :: k in MatchingKeys(t, q) ==> t[k] in items)
  }

  /** How a chunked delete ends. Without a fault, every chunk has committed. With one,
      it stops at the first chunk that is struck: the table carries the effect of the
      chunks before it and of the other writers, nothing of that chunk or a later one. */
  ghost predicate Outcome(t: Table, chunks: seq<seq<Row>>, w: Writers, faults: nat -> Fault,
                          committed: nat, t': Table, r: Result<nat, DeleteError>)
  {
    && committed <= |chunks|
    && (forall j :: 0 <= j < committed ==> !Strikes(faults(j), chunks[j]))
    && match r
       case Ok(count) =>
         && committed == |chunks|
         && t' == After(t, chunks, w, committed)
         && count == Reported(t, chunks, w, committed)
       case Err(e) =>
         && committed < |chunks|
         && Strikes(faults(committed), chunks[committed])
         && e == ErrorOf(faults(committed))
         && t' == Before(t, chunks, w, committed)
  }

  /** One removal inside a transaction that has already handled the rows `done`. */
  lemma CompareAndRemove(t: Table, done: seq<Row>, item: Row)
    ensures var s := Survivors(t, done);
            if item.pk in s && s[item.pk] == item then
              && Survivors(t, done + [item]) == s - {item.pk}
              && |Hits(t, done + [item])| == |Hits(t, done)| + 1
            else
              && Survivors(t, done + [item]) == s
              && |Hits(t, done + [item])| == |Hits(t, done)|
  {
    var s := Survivors(t, done);
    assert forall r :: r in done + [item] <==> r in done || r == item;
    if item.pk in s && s[item.pk] == item {
      assert Hits(t, done + [item]) == Hits(t, done) + {item.pk};
    } else {
      assert Hits(t, done + [item]) == Hits(t, done);
    }
  }

  class Database {
    var table: Table

    constructor (t: Table)
      ensures table == t
    {
      table := t;
    }

    /** Read phase: collect up to `limit` matching rows (None is `usize::MAX`). */
    method CollectSecondaryRange(q: Query, limit: Option<nat>) returns (items: seq<Row>)
      ensures DistinctKeys(items)
      ensures forall r :: r in items ==> r.pk in table && table[r.pk] == r && Matches(q, r)
      ensures forall r :: r in items ==> q.startWith <= r.secondaryKey && q.filter(r)
      ensures limit.None? ==> IsSnapshot(table, q, items)
      ensures limit.None? ==>
                forall k :: k in table && q.startWith <= table[k].secondaryKey && q.filter(table[k]) ==>
                  table[k] in items
      ensures limit.Some? ==> |items| <= limit.value
      ensures limit.Some? && |items| < limit.value ==> IsSnapshot(table, q, items)
    {
      items := [];
      var todo := table.Keys;
      while todo != {} && (limit.None? || |items| < limit.value)
        invariant todo <= table.Keys
        invariant DistinctKeys(items)
        invariant forall r :: r in items ==> r.pk in table && r.pk !in todo && table[r.pk] == r && Matches(q, r)
        invariant forall k :: k in MatchingKeys(table, q) && k !in todo ==> table[k] in items
        invariant limit.Some? ==> |items| <= limit.value
        decreases |todo|
      {
        var k :| k in todo;
        todo := todo - {k};
        if Matches(q, table[k]) {
          items := items + [table[k]];
        }
      }
    }

    /** Write phase: compare-and-remove every row of the chunk in one transaction
        that commits as a whole or leaves the table alone. `delete_by_primary_sync`
        is the same loop over the same calls. */
    method DeleteSnapshotChunk(chunk: seq<Row>, fault: Fault) returns (r: Result<nat, DeleteError>)
      modifies this
      ensures Strikes(fault, chunk) ==> table == old(table) && r == Err(ErrorOf(fault))
      ensures !Strikes(fault, chunk) ==>
                table == Survivors(old(table), chunk) && r == Ok(|Hits(old(table), chunk)|)
      ensures r.Err? <==>
                || (chunk != [] && (fault.BeginFails? || fault.CommitFails?))
                || ((fault.RemoveFails? || fault.Panics?) && fault.index < |chunk|)
      ensures r.Err? ==> table == old(table) && r.error == if fault.Panics? then JobPanicked else StorageError
    {
      if |chunk| == 0 {
        assert Survivors(table, chunk) == table;
        assert Hits(table, chunk) == {};
        return Ok(0);
      }
      if fault == BeginFails {
        return Err(StorageError);
      }
      var tx := table;
      var removed := 0;
      for i := 0 to |chunk|
        invariant table == old(table)
        invariant fault.RemoveFails? || fault.Panics? ==> i <= fault.index
        invariant tx == Survivors(old(table), chunk[..i])
        invariant removed == |Hits(old(table), chunk[..i])|
      {
        if fault == RemoveFails(i) || fault == Panics(i) {
          return Err(ErrorOf(fault));
        }
        var item := chunk[i];
        CompareAndRemove(old(table), chunk[..i], item);
        assert chunk[..i + 1] == chunk[..i] + [item];
        if item.pk in tx && tx[item.pk] == item {
          tx := tx - {item.pk};
          removed := removed + 1;
        } // otherwise KeyNotFound or IncorrectInputData: skipped
      }
      assert chunk[..|chunk|] == chunk;
      if fault == CommitFails {
        return Err(StorageError);
      }
      table := tx;
      r := Ok(removed);
    }

    /** Merged delete: collect everything, remove it in one transaction. */
    method DeleteSecondary(q: Query, w: Writers, scanFault: Option<DeleteError>, fault: Fault)
      returns (r: Result<nat, DeleteError>, items: seq<Row>)
      modifies this
      ensures scanFault.Some? ==> r == Err(scanFault.value) && table == old(table)
      ensures scanFault.None? ==> IsSnapshot(old(table), q, items)
      ensures scanFault.None? && Strikes(fault, items) ==> r == Err(ErrorOf(fault)) && table == w(0, old(table))
      ensures scanFault.None? && !Strikes(fault, items) ==>
                && table == Survivors(w(0, old(table)), items)
                && r == Ok(|Hits(w(0, old(table)), items)|)
    {
      if scanFault.Some? {
        return Err(scanFault.value), [];
      }
      items := CollectSecondaryRange(q, None);
      table := w(0, table);
      r := DeleteSnapshotChunk(items, fault);
    }

    /** Chunked delete. The paced variant of the background worker only adds a sleep
        between chunks, which is one more point where the other writers run. */
    method BatchDeleteSecondary(q: Query, batchSize: nat, w: Writers, scanFault: Option<DeleteError>,
                                faults: nat -> Fault)
      returns (r: Result<nat, DeleteError>, items: seq<Row>, transactions: nat)
      requires batchSize >= 1
      modifies this
      ensures scanFault.Some? ==> r == Err(scanFault.value) && table == old(table) && transactions == 0
      ensures scanFault.None? ==>
                && IsSnapshot(old(table), q, items)
                && Outcome(old(table), Chunks(items, batchSize), w, faults, transactions, table, r)
    {
      if scanFault.Some? {
        return Err(scanFault.value), [], 0;
      }
      items := CollectSecondaryRange(q, None);
      r, transactions := DeleteChunks(Chunks(items, batchSize), w, faults);
    }

    /** The chunk loop of the batch delete. */
    method DeleteChunks(chunks: seq<seq<Row>>, w: Writers, faults: nat -> Fault)
      returns (r: Result<nat, DeleteError>, transactions: nat)
      modifies this
      ensures Outcome(old(table), chunks, w, faults, transactions, table, r)
    {
      var totalDeleted := 0;
      transactions := 0;
      while transactions < |chunks|
        invariant transactions <= |chunks|
        invariant forall j :: 0 <= j < transactions ==> !Strikes(faults(j), chunks[j])
        invariant table == After(old(table), chunks, w, transactions)
        invariant totalDeleted == Reported(old(table), chunks, w, transactions)
      {
        table := w(transactions, table);
        var deleted := DeleteSnapshotChunk(chunks[transactions], faults(transactions));
        if deleted.Err? {
          return Err(deleted.error), transactions;
        }
        totalDeleted := totalDeleted + deleted.value;
        transactions := transactions + 1;
      }
      r := Ok(totalDeleted);
    }

    /** The loop the snapshot delete replaced: re-scan and remove up to `limit`
        matching rows until a scan finds none. Without other writers it ends. */
    method RescanDelete(q: Query, limit: nat) returns (totalDeleted: nat)
      requires limit >= 1
      modifies this
      ensures table == Without(old(table), q)
      ensures totalDeleted == |MatchingKeys(old(table), q)|
    {
      totalDeleted := 0;
      var deleted := 1;
      while deleted != 0
        invariant Without(table, q) == Without(old(table), q)
        invariant totalDeleted + |MatchingKeys(table, q)| == |MatchingKeys(old(table), q)|
        invariant deleted == 0 ==> MatchingKeys(table, q) == {}
        decreases |MatchingKeys(table, q)|, deleted
      {
        var items := CollectSecondaryRange(q, Some(limit));
        ghost var before := table;
        var r := DeleteSnapshotChunk(items, NoFault);
        deleted := r.value;
        totalDeleted := totalDeleted + deleted;
        RescanRound(before, q, items);
      }
      assert forall k :: k in table ==> k !in MatchingKeys(table, q);
      assert Without(table, q) == table;
    }
  }

  /** One round of the re-scanning loop removes exactly the rows it collected. */
  lemma RescanRound(t: Table, q: Query, items: seq<Row>)
    requires forall r :: r in items ==> r.pk in t && t[r.pk] == r && Matches(q, r)
    ensures Without(Survivors(t, items), q) == Without(t, q)
    ensures |Hits(t, items)| + |MatchingKeys(Survivors(t, items), q)| == |MatchingKeys(t, q)|
    ensures |items| > 0 ==> |Hits(t, items)| > 0
    ensures |items| == 0 ==> |Hits(t, items)| == 0
  {
    var left := MatchingKeys(Survivors(t, items), q);
    assert MatchingKeys(t, q) == Hits(t, items) + left;
    assert Hits(t, items) !! left;
    assert |items| == 0 ==> Hits(t, items) == {};
    if |items| > 0 {
      assert items[0] in items;
      assert items[0].pk in Hits(t, items);
    }
  }
}
