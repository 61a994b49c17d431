/** The background delete worker (src/modules/database/safe_delete.rs, `delete_worker`
    and `enqueue_delete_secondary_impl`). */
module DeleteWorker {
  import opened Wrappers
  import opened Sequences
  import opened SafeDelete
  import opened SafeDeleteTheorems

  type BatchSize = n: nat | n >= 1 witness 1

  /** A queued deletion: its query and chunk size, and what goes wrong while it runs. */
  datatype Job = Job(name: string, query: Query, batchSize: BatchSize,
                     scanFault: Option<DeleteError>, faults: nat -> Fault)

  ghost predicate Faultless(job: Job) {
    job.scanFault.None? && forall i :: job.faults(i).NoFault?
  }

  /** No job of the list fails, and no other writer runs during the jobs or between them. */
  ghost predicate Calm(jobs: seq<Job>, w: nat -> Writers, idle: Writers) {
    (forall job :: job in jobs ==> Faultless(job)) && (forall i :: w(i) == Quiet()) && idle == Quiet()
  }

  /** The rows matched by none of the jobs. */
  ghost function WithoutAll(t: Table, jobs: seq<Job>): Table {
    map k | k in t && (forall job :: job in jobs ==> !Matches(job.query, t[k])) :: t[k]
  }

  lemma WithoutOneMore(t: Table, jobs: seq<Job>, job: Job)
    ensures Without(WithoutAll(t, jobs), job.query) == WithoutAll(t, jobs + [job])
  {
    assert forall j :: j in jobs + [job] <==> j in jobs || j == job;
    forall k
      ensures k in Without(WithoutAll(t, jobs), job.query) <==> k in WithoutAll(t, jobs + [job])
    {
    }
  }

  /** What one run of a job does: nothing if the scan fails; otherwise it deletes a
      snapshot of the table it found, chunk by chunk, up to the first chunk that is
      struck. The chunks committed before that stay committed. */
  ghost predicate JobDone(job: Job, w: Writers, before: Table, after: Table, r: Result<nat, DeleteError>) {
    if job.scanFault.Some? then r == Err(job.scanFault.value) && after == before
    else exists items, n ::
      && IsSnapshot(before, job.query, items)
      && Outcome(before, Chunks(items, job.batchSize), w, job.faults, n, after, r)
  }

  /** A job whose scan fails reports that and leaves the table alone. */
  lemma FailedScan(job: Job, w: Writers, before: Table, after: Table, r: Result<nat, DeleteError>)
    requires job.scanFault.Some? && JobDone(job, w, before, after, r)
    ensures after == before && r == Err(job.scanFault.value)
  {
  }

  lemma FaultlessJob(job: Job, before: Table, after: Table, r: Result<nat, DeleteError>)
    requires Faultless(job) && JobDone(job, Quiet(), before, after, r)
    ensures after == Without(before, job.query)
    ensures r == Ok(|MatchingKeys(before, job.query)|)
  {
    var items, n :|
      && IsSnapshot(before, job.query, items)
      && Outcome(before, Chunks(items, job.batchSize), Quiet(), job.faults, n, after, r);
    FaultlessOutcome(before, Chunks(items, job.batchSize), Quiet(), job.faults, n, after, r);
    QuietDelete(before, job.query, items, job.batchSize);
  }

  lemma FaultlessOutcome(t: Table, chunks: seq<seq<Row>>, w: Writers, faults: nat -> Fault,
                         n: nat, after: Table, r: Result<nat, DeleteError>)
    requires forall i :: faults(i).NoFault?
    requires Outcome(t, chunks, w, faults, n, after, r)
    ensures after == After(t, chunks, w, |chunks|)
    ensures r == Ok(Reported(t, chunks, w, |chunks|))
  {
    assert n < |chunks| ==> !Strikes(faults(n), chunks[n]);
  }

  /** The jobs from position `base` on ran one after the other, each once, job i on what
      the writers that commit while the worker is idle made of the table job i - 1 left. */
  ghost predicate Chain(jobs: seq<Job>, outcomes: seq<Result<nat, DeleteError>>, base: nat,
                        w: nat -> Writers, idle: Writers, tables: seq<Table>)
  {
    && base <= |jobs| == |outcomes| && |tables| == |jobs| - base + 1
    && forall i: nat :: base <= i < |jobs| ==> JobAt(jobs, outcomes, base, w, idle, tables, i)
  }

  ghost predicate JobAt(jobs: seq<Job>, outcomes: seq<Result<nat, DeleteError>>, base: nat,
                        w: nat -> Writers, idle: Writers, tables: seq<Table>, i: nat)
    requires base <= i < |jobs| == |outcomes| && |tables| == |jobs| - base + 1
  {
    JobDone(jobs[i], w(i), idle(i, tables[i - base]), tables[i - base + 1], outcomes[i])
  }

  lemma ChainStep(jobs: seq<Job>, outcomes: seq<Result<nat, DeleteError>>, base: nat, w: nat -> Writers, idle: Writers,
                  tables: seq<Table>, job: Job, after: Table, r: Result<nat, DeleteError>)
    requires Chain(jobs, outcomes, base, w, idle, tables)
    requires JobDone(job, w(|jobs|), idle(|jobs|, tables[|tables| - 1]), after, r)
    ensures Chain(jobs + [job], outcomes + [r], base, w, idle, tables + [after])
  {
    var jobs', outcomes', tables' := jobs + [job], outcomes + [r], tables + [after];
    forall i: nat | base <= i < |jobs'|
      ensures JobAt(jobs', outcomes', base, w, idle, tables', i)
    {
      if i < |jobs| {
        assert JobAt(jobs, outcomes, base, w, idle, tables, i);
      }
    }
  }

  class Worker {
    const db: Database
    var queue: seq<Job>
    var executed: seq<Job>
    var outcomes: seq<Result<nat, DeleteError>>

    constructor (db: Database)
      ensures this.db == db && queue == [] && executed == [] && outcomes == []
    {
      this.db := db;
      queue, executed, outcomes := [], [], [];
    }

    method Enqueue(job: Job)
      modifies this
      ensures queue == old(queue) + [job]
      ensures executed == old(executed) && outcomes == old(outcomes)
    {
      queue := queue + [job];
    }

    /** Receive the job at the front of the queue, run it, and record how it ended: an
        error or a panic is caught. */
    method RunNext(w: Writers)
      requires queue != []
      modifies this, db
      ensures queue == old(queue)[1..]
      ensures executed == old(executed) + [old(queue)[0]]
      ensures |outcomes| == |old(outcomes)| + 1 && old(outcomes) <= outcomes
      ensures JobDone(old(queue)[0], w, old(db.table), db.table, outcomes[|old(outcomes)|])
      ensures Faultless(old(queue)[0]) && w == Quiet() ==>
                && db.table == Without(old(db.table), old(queue)[0].query)
                && outcomes[|old(outcomes)|] == Ok(|MatchingKeys(old(db.table), old(queue)[0].query)|)
      ensures old(queue)[0].scanFault.Some? ==>
                db.table == old(db.table) && outcomes[|old(outcomes)|] == Err(old(queue)[0].scanFault.value)
    {
      var job := queue[0];
      queue := queue[1..];
      var r, items, n := db.BatchDeleteSecondary(job.query, job.batchSize, w, job.scanFault, job.faults);
      executed := executed + [job];
      outcomes := outcomes + [r];
      if Faultless(job) && w == Quiet() {
        FaultlessJob(job, old(db.table), db.table, r);
      }
    }

    /** The worker thread: drain the queue one job at a time. `arrivals[i]` is what other
        threads enqueue before the worker's i-th receive, `idle` what other writers commit
        before a job starts, and w(i) what they commit while job i runs. Every job is run
        exactly once, in queue order, however the jobs before it ended. */
    method Run(arrivals: seq<seq<Job>>, w: nat -> Writers, idle: Writers) returns (ghost tables: seq<Table>)
      requires |executed| == |outcomes|
      modifies this, db
      ensures queue == []
      ensures executed == old(executed) + (old(queue) + Flatten(arrivals))
      ensures Chain(executed, outcomes, |old(executed)|, w, idle, tables)
      ensures tables[0] == old(db.table) && tables[|tables| - 1] == db.table
      ensures Calm(old(queue) + Flatten(arrivals), w, idle) ==>
                db.table == WithoutAll(old(db.table), old(queue) + Flatten(arrivals))
      ensures (forall job :: job in old(queue) + Flatten(arrivals) ==>
                 job.scanFault.None? && forall i :: job.faults(i).NoFault?) &&
              (forall i :: w(i) == Quiet()) && idle == Quiet() ==>
                forall k :: k in db.table <==>
                  && k in old(db.table)
                  && forall job :: job in old(queue) + Flatten(arrivals) ==>
                       !(job.query.startWith <= old(db.table)[k].secondaryKey && job.query.filter(old(db.table)[k]))
    {
      ghost var base, all := |executed|, queue + Flatten(arrivals);
      ghost var ran: seq<Job> := [];
      tables := [db.table];
      var round := 0;
      assert arrivals[0..] == arrivals;
      assert WithoutAll(db.table, []) == db.table;
      while queue != [] || round < |arrivals|
        invariant round <= |arrivals|
        invariant executed == old(executed) + ran
        invariant ran + (queue + Flatten(arrivals[round..])) == all
        invariant Chain(executed, outcomes, base, w, idle, tables)
        invariant tables[0] == old(db.table) && tables[|tables| - 1] == db.table
        invariant Calm(all, w, idle) ==> db.table == WithoutAll(old(db.table), ran)
        decreases |arrivals| - round, |queue|
      {
        if round < |arrivals| {
          Arrive(queue, arrivals, round);
          queue := queue + arrivals[round];
          round := round + 1;
        }
        if queue != [] {
          Receive(ran, queue, Flatten(arrivals[round..]), w, idle, |executed|);
          ran, tables := ExtendChain(base, w, idle, tables, old(db.table), ran);
        }
      }
      assert ran == all;
    }

    /** The next job extends the chain that began at position `base` with table `t`. */
    method ExtendChain(ghost base: nat, w: nat -> Writers, idle: Writers, ghost tables: seq<Table>,
                       ghost t: Table, ghost ran: seq<Job>)
      returns (ghost ran': seq<Job>, ghost tables': seq<Table>)
      requires queue != []
      requires Chain(executed, outcomes, base, w, idle, tables) && tables[|tables| - 1] == db.table
      modifies this, db
      ensures queue == old(queue)[1..] && executed == old(executed) + [old(queue)[0]]
      ensures Chain(executed, outcomes, base, w, idle, tables') && tables' == tables + [db.table]
      ensures ran' == ran + [old(queue)[0]]
      ensures Faultless(old(queue)[0]) && w(|old(executed)|) == Quiet() && idle == Quiet() &&
              old(db.table) == WithoutAll(t, ran) ==>
                db.table == WithoutAll(t, ran')
    {
      db.table := idle(|executed|, db.table);
      RunNext(w(|executed|));
      ghost var r := outcomes[|old(outcomes)|];
      assert outcomes == old(outcomes) + [r];
      ChainStep(old(executed), old(outcomes), base, w, idle, tables, old(queue)[0], db.table, r);
      tables' := tables + [db.table];
      ran' := ran + [old(queue)[0]];
      WithoutOneMore(t, ran, old(queue)[0]);
    }
  }

  lemma Arrive(queue: seq<Job>, arrivals: seq<seq<Job>>, round: nat)
    requires round < |arrivals|
    ensures queue + Flatten(arrivals[round..]) == (queue + arrivals[round]) + Flatten(arrivals[round + 1..])
  {
    assert arrivals[round..] == [arrivals[round]] + arrivals[round + 1..];
    FlattenCons(arrivals[round], arrivals[round + 1..]);
  }

  lemma Receive(ran: seq<Job>, queue: seq<Job>, later: seq<Job>, w: nat -> Writers, idle: Writers, i: nat)
    requires queue != []
    ensures ran + (queue + later) == (ran + [queue[0]]) + (queue[1..] + later)
    ensures Calm(ran + (queue + later), w, idle) ==> Faultless(queue[0]) && w(i) == Quiet()
  {
    assert (ran + (queue + later))[|ran|] == queue[0];
  }
}
