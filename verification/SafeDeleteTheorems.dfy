/** What a snapshot delete guarantees whatever the other writers commit. */
module SafeDeleteTheorems {
  import opened Wrappers
  import opened Sequences
  import opened SafeDelete

  // ----- which chunk handles a key

  ghost function PositionOf(items: seq<Row>, k: string): (p: nat)
    requires exists p: nat :: p < |items| && items[p].pk == k
    ensures p < |items| && items[p].pk == k
  {
    var p: nat :| p < |items| && items[p].pk == k;
    p
  }

  /** The chunk transaction that handles key k of the snapshot. */
  ghost function TurnOf(t: Table, q: Query, items: seq<Row>, b: nat, k: string): nat
    requires b >= 1 && IsSnapshot(t, q, items) && k in MatchingKeys(t, q)
  {
    SnapshotHasKey(t, q, items, k);
    PositionOf(items, k) / b
  }

  lemma SnapshotHasKey(t: Table, q: Query, items: seq<Row>, k: string)
    requires IsSnapshot(t, q, items) && k in MatchingKeys(t, q)
    ensures exists p: nat :: p < |items| && items[p].pk == k
  {
    assert t[k] in items;
    var p: nat :| p < |items| && items[p] == t[k];
    assert items[p].pk == k;
  }

  lemma SnapshotRow(t: Table, q: Query, items: seq<Row>, b: nat, p: nat)
    requires b >= 1 && IsSnapshot(t, q, items) && p < |items|
    ensures items[p].pk in MatchingKeys(t, q) && t[items[p].pk] == items[p]
    ensures TurnOf(t, q, items, b, items[p].pk) == p / b
  {
    assert items[p] in items;
    assert PositionOf(items, items[p].pk) == p;
  }

  lemma ChunkRow(t: Table, q: Query, items: seq<Row>, b: nat, i: nat, j: nat)
    requires b >= 1 && IsSnapshot(t, q, items)
    requires i < |Chunks(items, b)| && j < |Chunks(items, b)[i]|
    ensures var r := Chunks(items, b)[i][j];
            r.pk in MatchingKeys(t, q) && t[r.pk] == r && TurnOf(t, q, items, b, r.pk) == i
  {
    var p := ChunkElement(items, b, i, j);
    SnapshotRow(t, q, items, b, p);
  }

  lemma ChunkHasTurn(t: Table, q: Query, items: seq<Row>, b: nat, k: string)
    requires b >= 1 && IsSnapshot(t, q, items) && k in MatchingKeys(t, q)
    requires TurnOf(t, q, items, b, k) < |Chunks(items, b)|
    ensures t[k] in Chunks(items, b)[TurnOf(t, q, items, b, k)]
  {
    SnapshotHasKey(t, q, items, k);
    var p := PositionOf(items, k);
    assert items[p] in items;
    ChunkHolds(items, b, p);
  }

  /** Chunk i holds exactly the snapshot rows whose turn is i. */
  lemma ChunkMembers(t: Table, q: Query, items: seq<Row>, b: nat, i: nat, r: Row)
    requires b >= 1 && IsSnapshot(t, q, items)
    requires i < |Chunks(items, b)|
    ensures r in Chunks(items, b)[i] <==>
            r.pk in MatchingKeys(t, q) && t[r.pk] == r && TurnOf(t, q, items, b, r.pk) == i
  {
    if r in Chunks(items, b)[i] {
      var j: nat :| j < |Chunks(items, b)[i]| && Chunks(items, b)[i][j] == r;
      ChunkRow(t, q, items, b, i, j);
    }
    if r.pk in MatchingKeys(t, q) && t[r.pk] == r && TurnOf(t, q, items, b, r.pk) == i {
      ChunkHasTurn(t, q, items, b, r.pk);
    }
  }

  lemma TurnInRange(t: Table, q: Query, items: seq<Row>, b: nat, k: string)
    requires b >= 1 && IsSnapshot(t, q, items) && k in MatchingKeys(t, q)
    ensures TurnOf(t, q, items, b, k) < |Chunks(items, b)|
  {
    SnapshotHasKey(t, q, items, k);
    ChunkHolds(items, b, PositionOf(items, k));
  }

  ghost predicate HoldsTurn(t: Table, chunks: seq<seq<Row>>, turns: map<string, nat>, i: nat, r: Row)
    requires i < |chunks|
  {
    r in chunks[i] <==> r.pk in turns && turns[r.pk] == i && r.pk in t && t[r.pk] == r
  }

  /** The chunks split the rows that have a turn: chunk i holds those whose turn is i. */
  ghost predicate Schedules(t: Table, chunks: seq<seq<Row>>, turns: map<string, nat>) {
    && (forall k :: k in turns ==> k in t && turns[k] < |chunks|)
    && (forall i: nat, r: Row :: i < |chunks| ==> HoldsTurn(t, chunks, turns, i, r))
  }

  ghost function TurnsOf(t: Table, q: Query, items: seq<Row>, b: nat): map<string, nat>
    requires b >= 1 && IsSnapshot(t, q, items)
  {
    map k | k in MatchingKeys(t, q) :: TurnOf(t, q, items, b, k)
  }

  lemma SnapshotSchedules(t: Table, q: Query, items: seq<Row>, b: nat)
    requires b >= 1 && IsSnapshot(t, q, items)
    ensures Schedules(t, Chunks(items, b), TurnsOf(t, q, items, b))
  {
    var chunks, turns := Chunks(items, b), TurnsOf(t, q, items, b);
    forall k | k in turns
      ensures k in t && turns[k] < |chunks|
    {
      TurnInRange(t, q, items, b, k);
    }
    forall i: nat, r: Row | i < |chunks|
      ensures HoldsTurn(t, chunks, turns, i, r)
    {
      ChunkMembers(t, q, items, b, i, r);
    }
  }

  /** A row goes in transaction i exactly when it has its turn and still has its snapshot
      value. */
  lemma HitsAt(t: Table, chunks: seq<seq<Row>>, turns: map<string, nat>, w: Writers, i: nat, k: string)
    requires Schedules(t, chunks, turns) && i < |chunks|
    ensures var found := Before(t, chunks, w, i);
            k in Hits(found, chunks[i]) <==> k in turns && turns[k] == i && k in found && found[k] == t[k]
  {
    var found := Before(t, chunks, w, i);
    if k in found {
      assert HoldsTurn(t, chunks, turns, i, found[k]);
    }
  }

  // ----- exactness under arbitrary writers

  lemma RemovedStep(t: Table, chunks: seq<seq<Row>>, w: Writers, i: nat)
    requires i < |chunks|
    ensures Removed(t, chunks, w, i + 1) == Removed(t, chunks, w, i) + Hits(Before(t, chunks, w, i), chunks[i])
    ensures Reported(t, chunks, w, i + 1) == Reported(t, chunks, w, i) + |Hits(Before(t, chunks, w, i), chunks[i])|
  {
  }

  /** Whether key k has its snapshot value when its turn comes. */
  ghost predicate HitInTurn(t: Table, chunks: seq<seq<Row>>, turns: map<string, nat>, w: Writers, k: string)
    requires Schedules(t, chunks, turns)
  {
    k in turns && k in Before(t, chunks, w, turns[k]) && Before(t, chunks, w, turns[k])[k] == t[k]
  }

  lemma RemovedOneMore(t: Table, chunks: seq<seq<Row>>, turns: map<string, nat>, w: Writers, i: nat, k: string)
    requires Schedules(t, chunks, turns) && i < |chunks|
    ensures k in Removed(t, chunks, w, i + 1) <==>
            k in Removed(t, chunks, w, i) || (HitInTurn(t, chunks, turns, w, k) && turns[k] == i)
  {
    RemovedStep(t, chunks, w, i);
    HitsAt(t, chunks, turns, w, i, k);
  }

  lemma {:induction false} RemovedUpTo(t: Table, chunks: seq<seq<Row>>, turns: map<string, nat>, w: Writers,
                                       n: nat, k: string)
    requires Schedules(t, chunks, turns) && n <= |chunks|
    ensures k in Removed(t, chunks, w, n) <==> HitInTurn(t, chunks, turns, w, k) && turns[k] < n
  {
    var i := 0;
    while i < n
      invariant i <= n
      invariant k in Removed(t, chunks, w, i) <==> HitInTurn(t, chunks, turns, w, k) && turns[k] < i
    {
      RemovedOneMore(t, chunks, turns, w, i, k);
      i := i + 1;
    }
  }

  /** The delete removes key k if and only if its row was in the snapshot and, when the
      chunk holding it ran, still had the value the filter accepted. */
  lemma DeleteIsExact(t: Table, q: Query, items: seq<Row>, b: nat, w: Writers, k: string)
    requires b >= 1 && IsSnapshot(t, q, items)
    ensures k in MatchingKeys(t, q) ==> TurnOf(t, q, items, b, k) < |Chunks(items, b)|
    ensures k in Removed(t, Chunks(items, b), w, |Chunks(items, b)|) <==>
            && k in MatchingKeys(t, q)
            && (var found := Before(t, Chunks(items, b), w, TurnOf(t, q, items, b, k));
                k in found && found[k] == t[k])
  {
    var chunks := Chunks(items, b);
    SnapshotSchedules(t, q, items, b);
    RemovedUpTo(t, chunks, TurnsOf(t, q, items, b), w, |chunks|, k);
    assert k in MatchingKeys(t, q) <==> k in TurnsOf(t, q, items, b);
  }

  /** A row that is not in the snapshot, or whose value another writer changed, passes
      through every chunk transaction unharmed. */
  lemma OtherRowsSurvive(t: Table, q: Query, items: seq<Row>, b: nat, w: Writers, i: nat, k: string)
    requires b >= 1 && IsSnapshot(t, q, items)
    requires i < |Chunks(items, b)|
    requires var found := Before(t, Chunks(items, b), w, i);
             k in found && (k !in MatchingKeys(t, q) || found[k] != t[k])
    ensures var found := Before(t, Chunks(items, b), w, i);
            var left := After(t, Chunks(items, b), w, i + 1);
            k in left && left[k] == found[k]
  {
    SnapshotSchedules(t, q, items, b);
    HitsAt(t, Chunks(items, b), TurnsOf(t, q, items, b), w, i, k);
  }

  ghost predicate SameAt(t: Table, t': Table, k: string) {
    (k in t <==> k in t') && (k in t ==> t[k] == t'[k])
  }

  ghost predicate LeavesAloneAt(t: Table, chunks: seq<seq<Row>>, w: Writers, k: string, i: nat)
    requires i < |chunks|
  {
    SameAt(After(t, chunks, w, i), Before(t, chunks, w, i), k)
  }

  /** No other writer touches key k between the snapshot and the last transaction. */
  ghost predicate LeavesAlone(t: Table, chunks: seq<seq<Row>>, w: Writers, k: string) {
    forall i: nat :: i < |chunks| ==> LeavesAloneAt(t, chunks, w, k, i)
  }

  lemma UntouchedStep(t: Table, chunks: seq<seq<Row>>, turns: map<string, nat>, w: Writers, i: nat, k: string)
    requires Schedules(t, chunks, turns) && i < |chunks|
    requires LeavesAloneAt(t, chunks, w, k, i)
    ensures var left, next := After(t, chunks, w, i), After(t, chunks, w, i + 1);
            && (k !in left ==> k !in next)
            && (SameAt(left, t, k) ==> if k in turns && turns[k] == i then k !in next else SameAt(next, t, k))
  {
    HitsAt(t, chunks, turns, w, i, k);
  }

  lemma {:induction false} UntouchedUpTo(t: Table, chunks: seq<seq<Row>>, turns: map<string, nat>, w: Writers,
                                         n: nat, k: string)
    requires Schedules(t, chunks, turns) && n <= |chunks|
    requires LeavesAlone(t, chunks, w, k)
    ensures var left := After(t, chunks, w, n);
            if k in turns && turns[k] < n then k !in left else SameAt(left, t, k)
    decreases n
  {
    if n > 0 {
      UntouchedUpTo(t, chunks, turns, w, n - 1, k);
      assert LeavesAloneAt(t, chunks, w, k, n - 1);
      UntouchedStep(t, chunks, turns, w, n - 1, k);
    }
  }

  /** A key no other writer touched ends as the query says: gone if its row matched,
      otherwise as it was. */
  lemma UntouchedRowsDecided(t: Table, q: Query, items: seq<Row>, b: nat, w: Writers, k: string)
    requires b >= 1 && IsSnapshot(t, q, items)
    requires LeavesAlone(t, Chunks(items, b), w, k)
    ensures var left := After(t, Chunks(items, b), w, |Chunks(items, b)|);
            SameAt(left, Without(t, q), k)
  {
    var chunks := Chunks(items, b);
    SnapshotSchedules(t, q, items, b);
    UntouchedUpTo(t, chunks, TurnsOf(t, q, items, b), w, |chunks|, k);
    assert k in MatchingKeys(t, q) <==> k in TurnsOf(t, q, items, b);
  }

  // ----- accounting and termination

  /** No key is removed twice: each has one turn. */
  lemma HitsAreFresh(t: Table, chunks: seq<seq<Row>>, turns: map<string, nat>, w: Writers, i: nat)
    requires Schedules(t, chunks, turns) && i < |chunks|
    ensures Removed(t, chunks, w, i) !! Hits(Before(t, chunks, w, i), chunks[i])
  {
    forall k | k in Removed(t, chunks, w, i)
      ensures k !in Hits(Before(t, chunks, w, i), chunks[i])
    {
      RemovedUpTo(t, chunks, turns, w, i, k);
      HitsAt(t, chunks, turns, w, i, k);
    }
  }

  lemma DisjointSize<T>(a: set<T>, b: set<T>)
    requires a !! b
    ensures |a + b| == |a| + |b|
  {
  }

  /** The count reported so far is the number of distinct keys removed so far. */
  ghost predicate Accounted(t: Table, chunks: seq<seq<Row>>, w: Writers, i: nat)
    requires i <= |chunks|
  {
    Reported(t, chunks, w, i) == |Removed(t, chunks, w, i)|
  }

  lemma TransactionAccounted(t: Table, chunks: seq<seq<Row>>, turns: map<string, nat>, w: Writers, i: nat)
    requires Schedules(t, chunks, turns) && i < |chunks|
    requires Accounted(t, chunks, w, i)
    ensures Accounted(t, chunks, w, i + 1)
  {
    RemovedStep(t, chunks, w, i);
    HitsAreFresh(t, chunks, turns, w, i);
    DisjointSize(Removed(t, chunks, w, i), Hits(Before(t, chunks, w, i), chunks[i]));
  }

  lemma {:induction false} ReportedUpTo(t: Table, chunks: seq<seq<Row>>, turns: map<string, nat>, w: Writers, n: nat)
    requires Schedules(t, chunks, turns) && n <= |chunks|
    ensures Accounted(t, chunks, w, n)
  {
    var i := 0;
    while i < n
      invariant i <= n && Accounted(t, chunks, w, i)
    {
      TransactionAccounted(t, chunks, turns, w, i);
      i := i + 1;
    }
  }

  lemma {:induction false} SnapshotSize(items: seq<Row>)
    requires DistinctKeys(items)
    ensures |set r | r in items :: r.pk| == |items|
  {
    if |items| > 0 {
      var rest := items[1..];
      SnapshotSize(rest);
      assert (set r | r in items :: r.pk) == (set r | r in rest :: r.pk) + {items[0].pk};
    }
  }

  lemma SnapshotCount(t: Table, q: Query, items: seq<Row>)
    requires IsSnapshot(t, q, items)
    ensures |items| == |MatchingKeys(t, q)|
  {
    SnapshotSize(items);
    assert (set r | r in items :: r.pk) == MatchingKeys(t, q);
  }

  lemma SubsetSize<T>(a: set<T>, b: set<T>)
    requires a <= b
    ensures |a| <= |b|
  {
    assert b == a + (b - a);
  }

  /** However the other writers interleave, the delete makes ceil(n / b) transactions for
      n matching rows. */
  lemma DeleteIsBounded(t: Table, q: Query, items: seq<Row>, b: nat)
    requires b >= 1 && IsSnapshot(t, q, items)
    ensures |Chunks(items, b)| == CeilDiv(|MatchingKeys(t, q)|, b)
  {
    SnapshotCount(t, q, items);
    ChunkCount(items, b);
  }

  /** And the count it reports is the number of distinct keys it removed, all of them
      snapshot keys. */
  lemma DeleteIsAccounted(t: Table, q: Query, items: seq<Row>, b: nat, w: Writers)
    requires b >= 1 && IsSnapshot(t, q, items)
    ensures var gone := Removed(t, Chunks(items, b), w, |Chunks(items, b)|);
            && gone <= MatchingKeys(t, q)
            && Reported(t, Chunks(items, b), w, |Chunks(items, b)|) == |gone| <= |items|
  {
    var chunks, turns := Chunks(items, b), TurnsOf(t, q, items, b);
    SnapshotSchedules(t, q, items, b);
    ReportedUpTo(t, chunks, turns, w, |chunks|);
    forall k | k in Removed(t, chunks, w, |chunks|)
      ensures k in MatchingKeys(t, q)
    {
      RemovedUpTo(t, chunks, turns, w, |chunks|, k);
    }
    SnapshotCount(t, q, items);
    SubsetSize(Removed(t, chunks, w, |chunks|), MatchingKeys(t, q));
  }

  // ----- no interference: the strategies agree

  lemma QuietKey(t: Table, q: Query, items: seq<Row>, b: nat, k: string)
    requires b >= 1 && IsSnapshot(t, q, items)
    ensures SameAt(After(t, Chunks(items, b), Quiet(), |Chunks(items, b)|), Without(t, q), k)
    ensures k in Removed(t, Chunks(items, b), Quiet(), |Chunks(items, b)|) <==> k in MatchingKeys(t, q)
  {
    var chunks := Chunks(items, b);
    forall i: nat | i < |chunks|
      ensures LeavesAloneAt(t, chunks, Quiet(), k, i)
    {
    }
    UntouchedRowsDecided(t, q, items, b, Quiet(), k);
    DeleteIsExact(t, q, items, b, Quiet(), k);
    if k in MatchingKeys(t, q) {
      SnapshotSchedules(t, q, items, b);
      UntouchedUpTo(t, chunks, TurnsOf(t, q, items, b), Quiet(), TurnOf(t, q, items, b, k), k);
    }
  }

  /** With no other writer, a chunked delete leaves the table minus the matching rows,
      for every chunk size, and reports how many there were. */
  lemma QuietDelete(t: Table, q: Query, items: seq<Row>, b: nat)
    requires b >= 1 && IsSnapshot(t, q, items)
    ensures var n := |Chunks(items, b)|;
            && After(t, Chunks(items, b), Quiet(), n) == Without(t, q)
            && Reported(t, Chunks(items, b), Quiet(), n) == |MatchingKeys(t, q)|
    ensures var left := After(t, Chunks(items, b), Quiet(), |Chunks(items, b)|);
            && (forall k :: k in left <==> k in t && !(q.startWith <= t[k].secondaryKey && q.filter(t[k])))
            && (forall k :: k in left ==> left[k] == t[k])
  {
    var chunks := Chunks(items, b);
    var left := After(t, chunks, Quiet(), |chunks|);
    var gone := Removed(t, chunks, Quiet(), |chunks|);
    forall k
      ensures SameAt(left, Without(t, q), k) && (k in gone <==> k in MatchingKeys(t, q))
    {
      QuietKey(t, q, items, b, k);
    }
    SameEverywhere(left, Without(t, q));
    assert gone == MatchingKeys(t, q);
    DeleteIsAccounted(t, q, items, b, Quiet());
  }

  lemma SameEverywhere(a: Table, b: Table)
    requires forall k :: SameAt(a, b, k)
    ensures a == b
  {
    forall k
      ensures k in a <==> k in b
      ensures k in a ==> a[k] == b[k]
    {
      assert SameAt(a, b, k);
    }
    assert a.Keys == b.Keys;
  }

  lemma MergedDelete(t: Table, q: Query, items: seq<Row>)
    requires IsSnapshot(t, q, items)
    ensures Survivors(t, items) == Without(t, q)
    ensures Hits(t, items) == MatchingKeys(t, q)
  {
  }

  lemma KeptAndMatched(t: Table, q: Query)
    ensures |MatchingKeys(t, q)| + |Without(t, q)| == |t|
  {
    assert t.Keys == MatchingKeys(t, q) + Without(t, q).Keys;
    DisjointSize(MatchingKeys(t, q), Without(t, q).Keys);
  }

  /** The three strategies, run on copies of one table, end alike. */
  method StrategiesAgree(t: Table, q: Query, batchSize: nat, scanLimit: nat)
    returns (merged: (Table, nat), chunked: (Table, nat), rescanned: (Table, nat))
    requires batchSize >= 1 && scanLimit >= 1
    ensures merged == chunked == rescanned == (Without(t, q), |MatchingKeys(t, q)|)
    ensures forall k :: k in merged.0 <==> k in t && !(q.startWith <= t[k].secondaryKey && q.filter(t[k]))
    ensures forall k :: k in merged.0 ==> merged.0[k] == t[k]
    ensures merged.1 + |merged.0| == |t|
  {
    KeptAndMatched(t, q);
    var db := new Database(t);
    var r, items := db.DeleteSecondary(q, Quiet(), None, NoFault);
    MergedDelete(t, q, items);
    merged := (db.table, r.value);

    db := new Database(t);
    var n;
    r, items, n := db.BatchDeleteSecondary(q, batchSize, Quiet(), None, i => NoFault);
    QuietDelete(t, q, items, batchSize);
    chunked := (db.table, r.value);

    db := new Database(t);
    var m := db.RescanDelete(q, scanLimit);
    rescanned := (db.table, m);
  }

  // ----- the livelock the snapshot removes

  /** The table round i of the re-scanning loop finds, given what the earlier rounds
      collected and the other writers committed. */
  ghost function RescanTable(t: Table, w: Writers, rounds: seq<seq<Row>>, i: nat): Table
    requires i <= |rounds|
  {
    w(i, if i == 0 then t else Survivors(RescanTable(t, w, rounds, i - 1), rounds[i - 1]))
  }

  /** What one scan of the re-scanning loop may collect: up to `limit` matching rows, all
      of them unless it reaches the limit. */
  ghost predicate Collected(t: Table, q: Query, limit: nat, items: seq<Row>) {
    && |items| <= limit
    && (forall r :: r in items ==> r.pk in t && t[r.pk] == r && Matches(q, r))
    && (|items| < limit ==> forall k :: k in MatchingKeys(t, q) ==> t[k] in items)
  }

  /** The rounds of a run of the loop. It ends after the first round that collects none. */
  ghost predicate IsRescan(t: Table, q: Query, limit: nat, w: Writers, rounds: seq<seq<Row>>) {
    forall i: nat :: i < |rounds| ==> Collected(RescanTable(t, w, rounds, i), q, limit, rounds[i])
  }

  /** The loop sees an empty round exactly when the table it finds has no matching row. */
  lemma RoundEmptyIff(t: Table, q: Query, limit: nat, w: Writers, rounds: seq<seq<Row>>, i: nat)
    requires limit >= 1 && IsRescan(t, q, limit, w, rounds) && i < |rounds|
    ensures rounds[i] == [] <==> MatchingKeys(RescanTable(t, w, rounds, i), q) == {}
  {
    assert Collected(RescanTable(t, w, rounds, i), q, limit, rounds[i]);
    EmptyCollectionIff(RescanTable(t, w, rounds, i), q, limit, rounds[i]);
  }

  lemma EmptyCollectionIff(t: Table, q: Query, limit: nat, items: seq<Row>)
    requires limit >= 1 && Collected(t, q, limit, items)
    ensures items == [] <==> MatchingKeys(t, q) == {}
  {
    if items != [] {
      assert items[0] in items;
      assert items[0].pk in MatchingKeys(t, q);
    } else {
      assert MatchingKeys(t, q) == {};
    }
  }

  lemma Collect(t: Table, q: Query, limit: nat) returns (items: seq<Row>)
    ensures Collected(t, q, limit, items)
  {
    items := [];
    var todo := MatchingKeys(t, q);
    while todo != {} && |items| < limit
      invariant todo <= MatchingKeys(t, q) && |items| <= limit
      invariant forall r :: r in items ==> r.pk in t && t[r.pk] == r && Matches(q, r)
      invariant forall k :: k in MatchingKeys(t, q) && k !in todo ==> t[k] in items
      decreases |todo|
    {
      var k :| k in todo;
      todo := todo - {k};
      items := items + [t[k]];
    }
  }

  lemma {:induction false} RescanPrefix(t: Table, w: Writers, rounds: seq<seq<Row>>, items: seq<Row>, i: nat)
    requires i <= |rounds|
    ensures RescanTable(t, w, rounds + [items], i) == RescanTable(t, w, rounds, i)
    decreases i
  {
    if i > 0 {
      RescanPrefix(t, w, rounds, items, i - 1);
    }
  }

  lemma RescanExtended(t: Table, q: Query, limit: nat, w: Writers, rounds: seq<seq<Row>>, items: seq<Row>)
    requires IsRescan(t, q, limit, w, rounds)
    requires Collected(RescanTable(t, w, rounds, |rounds|), q, limit, items)
    ensures IsRescan(t, q, limit, w, rounds + [items])
  {
    var longer := rounds + [items];
    forall i: nat | i < |longer|
      ensures Collected(RescanTable(t, w, longer, i), q, limit, longer[i])
    {
      RescanPrefix(t, w, rounds, items, i);
      if i < |rounds| {
        assert Collected(RescanTable(t, w, rounds, i), q, limit, rounds[i]);
      }
    }
  }

  lemma {:induction false} RescanRun(t: Table, q: Query, limit: nat, w: Writers, n: nat) returns (rounds: seq<seq<Row>>)
    ensures |rounds| == n && IsRescan(t, q, limit, w, rounds)
    decreases n
  {
    rounds := [];
    if n > 0 {
      var before := RescanRun(t, q, limit, w, n - 1);
      var items := Collect(RescanTable(t, w, before, n - 1), q, limit);
      RescanExtended(t, q, limit, w, before, items);
      rounds := before + [items];
    }
  }

  /** Other writers that keep saving matching rows. */
  ghost predicate KeepsMatching(w: Writers, q: Query) {
    forall i: nat, t: Table :: MatchingKeys(w(i, t), q) != {}
  }

  /** Against any such writers the re-scanning loop runs on for ever: for every n it has a
      run of n rounds none of which is empty, and no run of it ever sees an empty round. */
  lemma RescanLivelocks(t: Table, q: Query, limit: nat, w: Writers, n: nat) returns (rounds: seq<seq<Row>>)
    requires limit >= 1 && KeepsMatching(w, q)
    ensures |rounds| == n && IsRescan(t, q, limit, w, rounds)
    ensures forall i :: 0 <= i < n ==> rounds[i] != []
  {
    rounds := RescanRun(t, q, limit, w, n);
    forall i: nat | i < n
      ensures rounds[i] != []
    {
      NoRoundIsEmpty(t, q, limit, w, rounds, i);
    }
  }

  lemma NoRoundIsEmpty(t: Table, q: Query, limit: nat, w: Writers, rounds: seq<seq<Row>>, i: nat)
    requires limit >= 1 && KeepsMatching(w, q)
    requires IsRescan(t, q, limit, w, rounds) && i < |rounds|
    ensures rounds[i] != []
  {
    RoundEmptyIff(t, q, limit, w, rounds, i);
    var earlier := if i == 0 then t else Survivors(RescanTable(t, w, rounds, i - 1), rounds[i - 1]);
    assert MatchingKeys(w(i, earlier), q) != {};
  }

  function Restoring(t: Table): Writers {
    (i: nat, current: Table) => t
  }

  /** A writer that puts the removed rows back is one of them. */
  lemma RestoringKeepsMatching(t: Table, q: Query)
    requires MatchingKeys(t, q) != {}
    ensures KeepsMatching(Restoring(t), q)
  {
  }
}
