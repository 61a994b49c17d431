/** Task metadata, retry policy, one execution attempt, and the task store
    (src/modules/scheduler/{model,retry,handlers,result}.rs and the store behind
    src/modules/scheduler/store.rs). Times are milliseconds. */
module Tasks {
  import opened Arithmetic
  import opened Wrappers

  // ----- retry policy

  datatype RetryStrategy = Linear(interval: u32) | Exponential(base: u32)

  datatype RetryPolicy = RetryPolicy(strategy: RetryStrategy, maxRetries: Option<u32>)

  /** `u32::saturating_pow`. */
  function SaturatingPow(base: u32, n: nat): u32 {
    Min(Pow(base, n), U32 - 1)
  }

  /** Seconds to wait before the attempt after the n-th failure. */
  function WaitTime(policy: RetryPolicy, n: nat): u32 {
    match policy.strategy
    case Linear(interval) => interval
    case Exponential(base) => SaturatingPow(base, n)
  }

  /** `(wait * 1000) as i64` with `wait: u32`: the product wraps at 32 bits. */
  function DelayMs(wait: u32): nat {
    wait * 1000 % U32
  }

  /** The delay is the wait in milliseconds exactly when the product fits in 32 bits. */
  lemma DelayExactIff(wait: u32)
    ensures DelayMs(wait) == wait * 1000 <==> wait <= 4_294_967
  {
  }

  lemma PowersOfTwo()
    ensures Pow(2, 10) == 1024
    ensures Pow(2, 22) == 4_194_304 && Pow(2, 23) == 8_388_608
    ensures Pow(2, 29) == 536_870_912 && Pow(2, 30) == 1_073_741_824 && Pow(2, 31) == 2_147_483_648
  {
    assert Pow(2, 5) == 32;
    assert Pow(2, 10) == 1024;
    assert Pow(2, 15) == 32_768;
    assert Pow(2, 20) == 1_048_576;
    assert Pow(2, 23) == 8_388_608;
    assert Pow(2, 26) == 67_108_864;
    assert Pow(2, 29) == 536_870_912;
  }

  /** With the default base 2 the stored delay is 2^n seconds if and only if n <= 22. */
  lemma BaseTwoDelayExactIff(maxRetries: Option<u32>, n: nat)
    ensures DelayMs(WaitTime(RetryPolicy(Exponential(2), maxRetries), n)) == 1000 * Pow(2, n) <==> n <= 22
  {
    PowersOfTwo();
    if n <= 22 {
      PowMonotone(2, n, 22);
    } else {
      PowMonotone(2, 23, n);
    }
  }

  /** Past that point the delay is not merely short: after the 29th, 30th and 31st
      failure it is zero. */
  lemma BaseTwoDelayCollapses(maxRetries: Option<u32>, n: nat)
    requires 29 <= n <= 31
    ensures DelayMs(WaitTime(RetryPolicy(Exponential(2), maxRetries), n)) == 0
  {
    PowersOfTwo();
  }

  // ----- task metadata

  datatype Retry = RetryLinear | RetryExponential

  datatype TaskStatus = Scheduled | Running | Success | Failed | Removed | Stopped

  datatype TaskMeta = TaskMeta(
    id: nat, taskKey: string, queueName: string, status: TaskStatus, lastError: Option<string>,
    retryCount: Option<nat>, nextRun: int, retryStrategy: Retry, retryInterval: u32,
    baseInterval: u32, delaySeconds: u32, maxRetries: Option<u32>)

  function ToRetry(policy: RetryPolicy): (Retry, u32, u32) {
    match policy.strategy
    case Linear(interval) => (RetryLinear, interval, 0)
    case Exponential(base) => (RetryExponential, 0, base)
  }

  function NewTask(id: nat, taskKey: string, queueName: string, policy: RetryPolicy, delaySeconds: u32): TaskMeta {
    var (strategy, interval, base) := ToRetry(policy);
    TaskMeta(id, taskKey, queueName, Scheduled, None, None, 0, strategy, interval, base, delaySeconds,
             policy.maxRetries)
  }

  function PolicyOf(meta: TaskMeta): (policy: RetryPolicy) {
    RetryPolicy(if meta.retryStrategy.RetryLinear? then Linear(meta.retryInterval) else Exponential(meta.baseInterval),
                meta.maxRetries)
  }

  // ----- one execution attempt

  datatype HandlerOutcome = Completed | Errored(error: string) | Panicked

  datatype TaskResult = TaskResult(taskId: nat, error: Option<string>, retryCount: nat, nextRun: Option<int>)

  function Attempts(meta: TaskMeta): nat {
    match meta.retryCount
    case Some(n) => n
    case None => 0
  }

  predicate GivesUp(meta: TaskMeta, retryCount: nat) {
    meta.maxRetries.Some? && retryCount >= meta.maxRetries.value
  }

  function RetryAt(meta: TaskMeta, retryCount: nat, now: int): int {
    now + DelayMs(WaitTime(PolicyOf(meta), retryCount % U32))
  }

  class TaskHandlers {
    var registered: set<string>

    constructor ()
      ensures registered == {}
    {
      registered := {};
    }

    method Register(taskKey: string)
      modifies this
      ensures registered == old(registered) + {taskKey}
    {
      registered := registered + {taskKey};
    }

    /** Run the handler once; on failure count the attempt and, unless the budget is
        used up, set the next run. */
    method Execute(meta: TaskMeta, outcome: HandlerOutcome, now: int) returns (result: TaskResult)
      ensures result.taskId == meta.id
      ensures result.error.None? <==> meta.taskKey in registered && outcome.Completed?
      ensures meta.taskKey in registered && outcome.Errored? ==> result.error == Some(outcome.error)
      ensures meta.taskKey in registered && outcome.Panicked? ==> result.error == Some("Task panicked")
      ensures meta.taskKey !in registered ==> result.error == Some("Unrecognized task type for the client")
      ensures result == ResultOf(meta, result.error, now)
      ensures result.error.None? ==> result.retryCount == 0 && result.nextRun.None?
      ensures result.error.Some? ==>
                && result.retryCount == (if meta.retryCount.Some? then meta.retryCount.value else 0) + 1
                && (result.nextRun.None? <==> meta.maxRetries.Some? && result.retryCount >= meta.maxRetries.value)
                && (result.nextRun.Some? ==>
                      result.nextRun.value ==
                      if meta.retryStrategy.RetryLinear? then now + meta.retryInterval * 1000 % 0x1_0000_0000
                      else now + Min(Pow(meta.baseInterval, result.retryCount % 0x1_0000_0000), 0xFFFF_FFFF) * 1000
                                 % 0x1_0000_0000)
    {
      if meta.taskKey in registered {
        match outcome {
          case Completed => result := TaskResult(meta.id, None, 0, None);
          case Errored(e) => result := TaskResult(meta.id, Some(e), 0, None);
          case Panicked => result := TaskResult(meta.id, Some("Task panicked"), 0, None);
        }
      } else {
        result := TaskResult(meta.id, Some("Unrecognized task type for the client"), 0, None);
      }
      if result.error.None? {
        return;
      }
      var attempts := Attempts(meta);
      result := result.(retryCount := attempts + 1);
      if meta.maxRetries.Some? && result.retryCount >= meta.maxRetries.value {
        return;
      }
      var wait := WaitTime(PolicyOf(meta), (attempts + 1) % U32);
      result := result.(nextRun := Some(now + DelayMs(wait)));
    }
  }

  /** The result of an attempt that ended with `error` (None: success). */
  function ResultOf(meta: TaskMeta, error: Option<string>, now: int): TaskResult {
    var n := Attempts(meta) + 1;
    if error.None? then TaskResult(meta.id, None, 0, None)
    else TaskResult(meta.id, error, n, if GivesUp(meta, n) then None else Some(RetryAt(meta, n, now)))
  }

  // ----- the store

  /** What applying an execution result does to the stored task. */
  function ApplyResult(current: TaskMeta, r: TaskResult): (after: TaskMeta)
    ensures after.status.Success? <==> r.error.None?
    ensures after.status.Scheduled? <==>
              r.error.Some? && r.nextRun.Some? && !current.status.Stopped? && !current.status.Removed?
    ensures after.nextRun != current.nextRun ==> after.status.Scheduled?
    ensures after.id == current.id && after.queueName == current.queueName && PolicyOf(after) == PolicyOf(current)
  {
    var updated := current.(retryCount := Some(r.retryCount));
    if r.error.None? then updated.(status := Success)
    else if current.status.Stopped? || current.status.Removed? then updated.(lastError := r.error)
    else if r.nextRun.Some? then updated.(status := Scheduled, lastError := r.error, nextRun := r.nextRun.value)
    else updated.(status := Failed, lastError := r.error)
  }

  /** What one result does to each field of the stored task. */
  lemma ApplyResultFields(current: TaskMeta, r: TaskResult)
    ensures var after := ApplyResult(current, r);
            && after == current.(status := after.status, retryCount := Some(r.retryCount),
                                 lastError := after.lastError, nextRun := after.nextRun)
            && after.lastError == (if r.error.Some? then r.error else current.lastError)
            && after.nextRun == (if after.status.Scheduled? then r.nextRun.value else current.nextRun)
            && (r.error.Some? && (current.status.Stopped? || current.status.Removed?) ==>
                  after.status == current.status)
            && (r.error.Some? && r.nextRun.None? && !current.status.Stopped? && !current.status.Removed? ==>
                  after.status.Failed?)
  {
  }

  predicate Due(meta: TaskMeta, now: int) {
    meta.status.Scheduled? && meta.nextRun <= now
  }

  function Claimed(tasks: map<nat, TaskMeta>, ids: set<nat>): map<nat, TaskMeta> {
    map id | id in tasks :: if id in ids then tasks[id].(status := Running) else tasks[id]
  }

  function Ids(batch: seq<TaskMeta>): set<nat> {
    set m | m in batch :: m.id
  }

  lemma IdsAppend(batch: seq<TaskMeta>, m: TaskMeta)
    ensures Ids(batch + [m]) == Ids(batch) + {m.id}
  {
    assert forall x :: x in batch + [m] <==> x in batch || x == m;
    assert m in batch + [m];
  }

  ghost predicate NewIds(tasks: map<nat, TaskMeta>, batch: seq<TaskMeta>) {
    && (forall i :: 0 <= i < |batch| ==> batch[i].id !in tasks)
    && (forall i, j :: 0 <= i < j < |batch| ==> batch[i].id != batch[j].id)
  }

  /** `after` is the table with the batch in it: nothing else is new or different. */
  ghost predicate IsInserted(before: map<nat, TaskMeta>, batch: seq<TaskMeta>, after: map<nat, TaskMeta>) {
    && after.Keys == before.Keys + Ids(batch)
    && (forall id :: id in before ==> after[id] == before[id])
    && (forall i :: 0 <= i < |batch| ==> batch[i].id in after && after[batch[i].id] == batch[i])
  }

  lemma InsertOne(before: map<nat, TaskMeta>, batch: seq<TaskMeta>, m: TaskMeta, after: map<nat, TaskMeta>)
    requires NewIds(before, batch) && IsInserted(before, batch, after) && m.id !in after
    ensures NewIds(before, batch + [m]) && IsInserted(before, batch + [m], after[m.id := m])
  {
    IdsAppend(batch, m);
    assert forall i :: 0 <= i < |batch| ==> batch[i].id in after;
  }

  lemma IdTaken(before: map<nat, TaskMeta>, batch: seq<TaskMeta>, i: nat)
    requires i < |batch| && (batch[i].id in before || batch[i].id in Ids(batch[..i]))
    ensures !NewIds(before, batch)
  {
    if batch[i].id !in before {
      var j :| 0 <= j < i && batch[j].id == batch[i].id;
    }
  }

  const FETCH_LIMIT: nat := 500

  /** What one fetch hands out: distinct due tasks as they are stored, at most 500, and all
      of them if there are fewer. */
  ghost predicate IsDueBatch(tasks: map<nat, TaskMeta>, batch: seq<TaskMeta>, now: int) {
    && AreDue(tasks, batch, now)
    && |batch| <= FETCH_LIMIT
    && (|batch| < FETCH_LIMIT ==> forall id :: id in tasks && Due(tasks[id], now) ==> id in Ids(batch))
  }

  ghost predicate AreDue(tasks: map<nat, TaskMeta>, batch: seq<TaskMeta>, now: int) {
    && (forall k :: 0 <= k < |batch| ==> batch[k].id in tasks && tasks[batch[k].id] == batch[k] && Due(batch[k], now))
    && (forall j, k :: 0 <= j < k < |batch| ==> batch[j].id != batch[k].id)
  }

  lemma OneMoreDue(tasks: map<nat, TaskMeta>, batch: seq<TaskMeta>, m: TaskMeta, now: int)
    requires AreDue(tasks, batch, now)
    requires m.id in tasks && tasks[m.id] == m && Due(m, now) && m.id !in Ids(batch)
    ensures AreDue(tasks, batch + [m], now)
  {
    forall j | 0 <= j < |batch|
      ensures batch[j].id != m.id
    {
      assert batch[j] in batch;
    }
  }

  /** The two states a task can be put in from outside. */
  predicate Halting(status: TaskStatus) {
    status.Stopped? || status.Removed?
  }

  /** What a restart makes of a stored task. */
  function Restored(meta: TaskMeta): TaskMeta {
    if !meta.status.Running? then meta
    else
      var bound := if meta.maxRetries.Some? then meta.maxRetries.value else 0;
      if meta.retryCount.Some? && meta.retryCount.value >= bound then meta.(status := Removed)
      else meta.(status := Scheduled)
  }

  function RestoredAll(tasks: map<nat, TaskMeta>): map<nat, TaskMeta> {
    map id | id in tasks :: Restored(tasks[id])
  }

  /** A manual retry is for failed and stopped tasks. */
  predicate Retryable(status: TaskStatus) {
    status.Failed? || status.Stopped?
  }

  /** What a manual retry makes of a task: due now, with its whole budget again. */
  function Rewind(meta: TaskMeta, now: int): (after: TaskMeta)
    ensures Due(after, now) && Attempts(after) == 0
    ensures after.id == meta.id && after.queueName == meta.queueName && PolicyOf(after) == PolicyOf(meta)
  {
    meta.(status := Scheduled, retryCount := None, lastError := None, nextRun := now)
  }

  datatype RetryError = NotFound | NotRetryable

  class TaskStore {
    var tasks: map<nat, TaskMeta>

    /** Tasks are stored under their own ids. */
    ghost predicate Valid()
      reads this
    {
      forall id :: id in tasks ==> tasks[id].id == id
    }

    constructor ()
      ensures Valid() && tasks == map[]
    {
      tasks := map[];
    }

    /** Insert one task; an id that is taken is refused. */
    method StoreTask(meta: TaskMeta) returns (ok: bool)
      modifies this
      ensures ok <==> meta.id !in old(tasks)
      ensures tasks == if ok then old(tasks)[meta.id := meta] else old(tasks)
      ensures old(Valid()) ==> Valid()
    {
      ok := meta.id !in tasks;
      if ok {
        tasks := tasks[meta.id := meta];
      }
    }

    /** Insert a batch in one transaction: all of it, or nothing if an id is taken. */
    method StoreTasks(batch: seq<TaskMeta>) returns (ok: bool)
      modifies this
      ensures ok <==> NewIds(old(tasks), batch)
      ensures if ok then IsInserted(old(tasks), batch, tasks) else tasks == old(tasks)
      ensures ok <==>
                && (forall i :: 0 <= i < |batch| ==> batch[i].id !in old(tasks))
                && (forall i, j :: 0 <= i < j < |batch| ==> batch[i].id != batch[j].id)
      ensures ok ==>
                && (forall id :: id in tasks <==> id in old(tasks) || exists i :: 0 <= i < |batch| && batch[i].id == id)
                && (forall id :: id in old(tasks) ==> tasks[id] == old(tasks)[id])
                && (forall i :: 0 <= i < |batch| ==> tasks[batch[i].id] == batch[i])
      ensures old(Valid()) ==> Valid()
    {
      var tx: map<nat, TaskMeta> := tasks;
      for i := 0 to |batch|
        invariant tasks == old(tasks)
        invariant NewIds(tasks, batch[..i]) && IsInserted(tasks, batch[..i], tx)
      {
        assert batch[..i + 1] == batch[..i] + [batch[i]];
        if batch[i].id in tx {
          IdTaken(tasks, batch, i);
          return false;
        }
        InsertOne(tasks, batch[..i], batch[i], tx);
        tx := tx[batch[i].id := batch[i]];
      }
      assert batch[..|batch|] == batch;
      assert forall i :: 0 <= i < |batch| ==> batch[i] in batch;
      tasks := tx;
      ok := true;
    }

    /** The scan for due tasks, cut at the fetch limit. */
    method DueTasks(now: int) returns (batch: seq<TaskMeta>)
      requires Valid()
      ensures IsDueBatch(tasks, batch, now)
    {
      batch := [];
      var todo := tasks.Keys;
      while todo != {} && |batch| < FETCH_LIMIT
        invariant todo <= tasks.Keys && Ids(batch) <= tasks.Keys - todo
        invariant |batch| <= FETCH_LIMIT && AreDue(tasks, batch, now)
        invariant forall id :: id in tasks && id !in todo && id !in Ids(batch) ==> !Due(tasks[id], now)
        decreases |todo|
      {
        var id :| id in todo;
        todo := todo - {id};
        if Due(tasks[id], now) {
          IdsAppend(batch, tasks[id]);
          OneMoreDue(tasks, batch, tasks[id], now);
          batch := batch + [tasks[id]];
        }
      }
    }

    /** Claim due tasks: at most 500, each marked Running in the store and handed out as
        it was before the claim, so none is handed out twice. */
    method FetchPending(now: int) returns (batch: seq<TaskMeta>)
      requires Valid()
      modifies this
      ensures Valid()
      ensures IsDueBatch(old(tasks), batch, now)
      ensures tasks == Claimed(old(tasks), Ids(batch))
      ensures |batch| < FETCH_LIMIT ==> forall id :: id in tasks ==> !Due(tasks[id], now)
      ensures |batch| <= 500
      ensures forall k :: 0 <= k < |batch| ==>
                && batch[k].id in old(tasks) && old(tasks)[batch[k].id] == batch[k]
                && batch[k].status.Scheduled? && batch[k].nextRun <= now
      ensures |batch| < 500 ==>
                forall id :: id in old(tasks) && old(tasks)[id].status.Scheduled? && old(tasks)[id].nextRun <= now ==>
                  old(tasks)[id] in batch
      ensures tasks.Keys == old(tasks).Keys
      ensures forall id :: id in tasks ==>
                tasks[id] == if old(tasks)[id] in batch then old(tasks)[id].(status := Running) else old(tasks)[id]
    {
      batch := DueTasks(now);
      forall id | id in tasks
        ensures id in Ids(batch) <==> tasks[id] in batch
      {
      }
      var i := 0;
      assert Claimed(tasks, Ids(batch[..i])) == tasks;
      while i < |batch|
        invariant i <= |batch|
        invariant tasks == Claimed(old(tasks), Ids(batch[..i]))
      {
        assert batch[..i + 1] == batch[..i] + [batch[i]];
        IdsAppend(batch[..i], batch[i]);
        assert batch[i] in batch;
        tasks := tasks[batch[i].id := batch[i].(status := Running)];
        i := i + 1;
      }
      assert batch[..i] == batch;
    }

    /** Stop or remove a task, whatever its status. Any other status is an assertion failure. */
    method SetStatus(id: nat, status: TaskStatus) returns (ok: bool)
      requires status.Stopped? || status.Removed?
      modifies this
      ensures ok <==> id in old(tasks)
      ensures tasks == if ok then old(tasks)[id := old(tasks)[id].(status := status)] else old(tasks)
      ensures old(Valid()) ==> Valid()
    {
      ok := id in tasks;
      if ok {
        tasks := tasks[id := tasks[id].(status := status)];
      }
    }

    /** At start, in one transaction: put the tasks left Running back in line, or remove
        those whose attempts are used up. */
    method Restore()
      modifies this
      ensures tasks == RestoredAll(old(tasks))
      ensures forall id :: id in tasks ==> !tasks[id].status.Running?
      ensures tasks.Keys == old(tasks).Keys
      ensures forall id :: id in tasks && !old(tasks)[id].status.Running? ==> tasks[id] == old(tasks)[id]
      ensures forall id :: id in tasks && old(tasks)[id].status.Running? ==>
                var task := old(tasks)[id];
                var bound := if task.maxRetries.Some? then task.maxRetries.value else 0;
                tasks[id] == task.(status := if task.retryCount.Some? && task.retryCount.value >= bound
                                             then Removed else Scheduled)
      ensures old(Valid()) ==> Valid()
    {
      var todo: set<nat> := set id | id in tasks && tasks[id].status.Running?;
      var tx: map<nat, TaskMeta> := tasks;
      while todo != {}
        invariant tasks == old(tasks) && tx.Keys == tasks.Keys
        invariant forall id :: id in todo ==> id in tasks && tasks[id].status.Running?
        invariant forall id :: id in tasks ==> tx[id] == if id in todo then tasks[id] else Restored(tasks[id])
        decreases |todo|
      {
        var id :| id in todo;
        todo := todo - {id};
        var task := tx[id];
        var updated := task.(status := Scheduled);
        if task.retryCount.Some? {
          var bound := if task.maxRetries.Some? then task.maxRetries.value else 0;
          if task.retryCount.value >= bound {
            updated := task.(status := Removed);
          }
        }
        tx := tx[id := updated];
      }
      tasks := tx;
    }

    /** Retry one task by hand. */
    method ResetForRetry(id: nat, now: int) returns (r: Result<(), RetryError>)
      modifies this
      ensures r == Err(NotFound) <==> id !in old(tasks)
      ensures r == Err(NotRetryable) <==>
                id in old(tasks) && !old(tasks)[id].status.Failed? && !old(tasks)[id].status.Stopped?
      ensures tasks == if r.Ok? then old(tasks)[id := Rewind(old(tasks)[id], now)] else old(tasks)
      ensures r.Ok? ==>
                && id in old(tasks)
                && tasks[id] ==
                   old(tasks)[id].(status := Scheduled, retryCount := None, lastError := None, nextRun := now)
      ensures old(Valid()) ==> Valid()
    {
      if id !in tasks {
        return Err(NotFound);
      }
      if !Retryable(tasks[id].status) {
        return Err(NotRetryable);
      }
      tasks := tasks[id := Rewind(tasks[id], now)];
      r := Ok(());
    }

    /** Apply one result. It fails, without effect, on an unknown id and when the storage
        does not work. */
    method UpdateExecutionStatus(id: nat, r: TaskResult, works: bool) returns (ok: bool)
      modifies this
      ensures ok <==> works && id in old(tasks)
      ensures tasks == if works then Applied(old(tasks), id, r) else old(tasks)
      ensures tasks == if ok then old(tasks)[id := ApplyResult(old(tasks)[id], r)] else old(tasks)
      ensures old(Valid()) ==> Valid()
    {
      ok := works && id in tasks;
      if ok {
        tasks := tasks[id := ApplyResult(tasks[id], r)];
      }
    }
  }

  /** The table after one result is applied; an unknown id changes nothing. */
  function Applied(tasks: map<nat, TaskMeta>, id: nat, r: TaskResult): map<nat, TaskMeta> {
    if id in tasks then tasks[id := ApplyResult(tasks[id], r)] else tasks
  }

  // ----- properties

  /** The policy read back from stored metadata is the one given at creation, and the other
      fields are what the task was created with. */
  lemma PolicyRoundTrip(id: nat, taskKey: string, queueName: string, policy: RetryPolicy, delaySeconds: u32)
    ensures PolicyOf(NewTask(id, taskKey, queueName, policy, delaySeconds)) == policy
    ensures var meta := NewTask(id, taskKey, queueName, policy, delaySeconds);
            && meta.id == id && meta.taskKey == taskKey && meta.queueName == queueName
            && meta.delaySeconds == delaySeconds && meta.maxRetries == policy.maxRetries
            && meta.status.Scheduled? && meta.lastError.None? && meta.retryCount.None? && meta.nextRun == 0
            && match policy.strategy
               case Linear(interval) => meta.retryStrategy.RetryLinear? && meta.retryInterval == interval
               case Exponential(base) => meta.retryStrategy.RetryExponential? && meta.baseInterval == base
  {
  }

  /** One claimed and failed execution of a stored task. */
  function FailOnce(meta: TaskMeta, error: string, now: int): TaskMeta {
    ApplyResult(meta.(status := Running), ResultOf(meta, Some(error), now))
  }

  /** The stored task after n failed executions, the i-th ending at clock(i). */
  ghost function FailTimes(meta: TaskMeta, error: string, clock: nat -> int, n: nat): TaskMeta {
    if n == 0 then meta else FailOnce(FailTimes(meta, error, clock, n - 1), error, clock(n))
  }

  function Budget(policy: RetryPolicy): nat
    requires policy.maxRetries.Some?
  {
    if policy.maxRetries.value == 0 then 1 else policy.maxRetries.value
  }

  lemma FailStep(meta: TaskMeta, error: string, now: int)
    requires meta.status.Scheduled? && Attempts(meta) + 1 < U32
    ensures var after := FailOnce(meta, error, now);
            var n := Attempts(meta) + 1;
            && PolicyOf(after) == PolicyOf(meta)
            && Attempts(after) == n
            && (if GivesUp(meta, n) then after.status == Failed
                else after.status == Scheduled && after.nextRun == now + DelayMs(WaitTime(PolicyOf(meta), n)))
  {
    var n := Attempts(meta) + 1;
    assert n % U32 == n;
  }

  /** A task that keeps failing under max_retries m is executed exactly max(1, m) times:
      it can be fetched again after every failure but the last, n failures are counted
      as n, and the wait set after failure n is the policy's n-th. Without a bound it
      can always be fetched again. */
  lemma {:induction false} AlwaysFailing(id: nat, taskKey: string, queueName: string, policy: RetryPolicy,
                                         delaySeconds: u32, error: string, clock: nat -> int, n: nat)
    requires n < U32
    requires policy.maxRetries.Some? ==> n <= Budget(policy)
    ensures var meta := FailTimes(NewTask(id, taskKey, queueName, policy, delaySeconds), error, clock, n);
            && PolicyOf(meta) == policy
            && Attempts(meta) == n
            && meta.id == id && meta.taskKey == taskKey && meta.queueName == queueName
            && (meta.status == if policy.maxRetries.Some? && n > 0 && n >= policy.maxRetries.value then Failed
                               else Scheduled)
            && (n > 0 && meta.status.Scheduled? ==>
                  meta.nextRun == match policy.strategy
                                  case Linear(interval) => clock(n) + interval * 1000 % 0x1_0000_0000
                                  case Exponential(base) =>
                                    clock(n) + Min(Pow(base, n), 0xFFFF_FFFF) * 1000 % 0x1_0000_0000)
  {
    FailuresFrom(NewTask(id, taskKey, queueName, policy, delaySeconds), policy, error, clock, n);
  }

  lemma {:induction false} FailuresFrom(meta: TaskMeta, policy: RetryPolicy, error: string, clock: nat -> int, n: nat)
    requires HasFailed(meta, policy, 0, clock(0)) && n < U32
    requires policy.maxRetries.Some? ==> n <= Budget(policy)
    ensures HasFailed(FailTimes(meta, error, clock, n), policy, n, clock(n))
    ensures SameIdentity(FailTimes(meta, error, clock, n), meta)
  {
    var i, current := 0, meta;
    while i < n
      invariant i <= n && current == FailTimes(meta, error, clock, i)
      invariant HasFailed(current, policy, i, clock(i)) && SameIdentity(current, meta)
    {
      FailTimesStep(meta, error, clock, i);
      current := FailAgain(current, policy, error, i, clock(i), clock(i + 1));
      i := i + 1;
    }
  }

  predicate SameIdentity(a: TaskMeta, b: TaskMeta) {
    a.id == b.id && a.taskKey == b.taskKey && a.queueName == b.queueName
  }

  /** A task of this policy after n failures, the last of them at `at`. */
  predicate HasFailed(meta: TaskMeta, policy: RetryPolicy, n: nat, at: int) {
    && PolicyOf(meta) == policy
    && Attempts(meta) == n
    && (if policy.maxRetries.Some? && n == Budget(policy) then meta.status == Failed else meta.status == Scheduled)
    && (n > 0 && meta.status.Scheduled? ==> meta.nextRun == at + DelayMs(WaitTime(policy, n)))
  }

  lemma FailTimesStep(meta: TaskMeta, error: string, clock: nat -> int, n: nat)
    ensures FailTimes(meta, error, clock, n + 1) == FailOnce(FailTimes(meta, error, clock, n), error, clock(n + 1))
  {
  }

  lemma FailAgain(meta: TaskMeta, policy: RetryPolicy, error: string, n: nat, at: int, now: int)
    returns (after: TaskMeta)
    requires HasFailed(meta, policy, n, at) && n + 1 < U32
    requires policy.maxRetries.Some? ==> n < Budget(policy)
    ensures after == FailOnce(meta, error, now) && HasFailed(after, policy, n + 1, now)
    ensures SameIdentity(after, meta)
  {
    FailStep(meta, error, now);
    after := FailOnce(meta, error, now);
  }

  /** For the default policies (base 2, at most 10 retries) every wait is exact. */
  lemma DefaultDelaysExact(id: nat, taskKey: string, queueName: string, m: u32, delaySeconds: u32,
                           error: string, clock: nat -> int, n: nat)
    requires 1 <= n < m <= 10
    ensures var policy := RetryPolicy(Exponential(2), Some(m));
            var meta := FailTimes(NewTask(id, taskKey, queueName, policy, delaySeconds), error, clock, n);
            meta.nextRun == clock(n) + 1000 * Pow(2, n)
  {
    var policy := RetryPolicy(Exponential(2), Some(m));
    AlwaysFailing(id, taskKey, queueName, policy, delaySeconds, error, clock, n);
    BaseTwoDelayExactIff(Some(m), n);
  }
}
