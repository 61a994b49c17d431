/** Setting the pipeline up (src/modules/scheduler/context.rs, flow.rs): the builder calls,
    submitting tasks, starting processors and updater, and grouping a fetched batch. */
module TaskSetup {
  import opened Arithmetic
  import opened Wrappers
  import opened Tasks
  import opened Pipeline
  import opened PipelineRuntime

  function Delayed(meta: TaskMeta, delaySeconds: Option<u32>, now: int): TaskMeta {
    meta.(nextRun := now + DelayMs(match delaySeconds case Some(d) => d case None => meta.delaySeconds))
  }

  function DelayedBatch(metas: seq<TaskMeta>, delaySeconds: Option<u32>, clock: nat -> int): (batch: seq<TaskMeta>)
    ensures |batch| == |metas|
    ensures forall i: nat :: i < |metas| ==> batch[i] == Delayed(metas[i], delaySeconds, clock(i))
  {
    seq(|metas|, i requires 0 <= i < |metas| => Delayed(metas[i], delaySeconds, clock(i)))
  }

  lemma SameIds(tasks: map<nat, TaskMeta>, a: seq<TaskMeta>, b: seq<TaskMeta>)
    requires |a| == |b| && forall i: nat :: i < |a| ==> a[i].id == b[i].id
    ensures NewIds(tasks, a) <==> NewIds(tasks, b)
  {
  }

  /** The same 32-bit product as for retries: the task is due after the delay exactly when
      the delay is at most 4,294,967 s. */
  lemma DelayedExactIff(meta: TaskMeta, delaySeconds: Option<u32>, now: int)
    ensures var delay := if delaySeconds.Some? then delaySeconds.value else meta.delaySeconds;
            Delayed(meta, delaySeconds, now).nextRun == now + 1000 * delay <==> delay <= 4_294_967
  {
    DelayExactIff(if delaySeconds.Some? then delaySeconds.value else meta.delaySeconds);
  }

  lemma {:induction false} IdsCount(batch: seq<TaskMeta>)
    requires forall i, j :: 0 <= i < j < |batch| ==> batch[i].id != batch[j].id
    ensures |Ids(batch)| == |batch|
  {
    if |batch| > 0 {
      var n := |batch| - 1;
      IdsCount(batch[..n]);
      IdsAppend(batch[..n], batch[n]);
      assert batch[..n] + [batch[n]] == batch;
    }
  }

  lemma InsertedCount(before: map<nat, TaskMeta>, batch: seq<TaskMeta>, after: map<nat, TaskMeta>)
    requires NewIds(before, batch) && IsInserted(before, batch, after)
    ensures |after| == |before| + |batch|
  {
    IdsCount(batch);
    assert before.Keys !! Ids(batch);
    assert |after.Keys| == |before.Keys| + |Ids(batch)|;
  }

  // ----- the builder calls

  const DEFAULT_LIMIT: nat := 4

  datatype BuilderCall = RegisterCall(taskKey: string, queue: string) | ConcurrencyCall(queue: string, count: nat)

  function LimitOf(call: BuilderCall): nat {
    match call
    case RegisterCall(_, _) => DEFAULT_LIMIT
    case ConcurrencyCall(_, count) => count
  }

  /** The limits after a chain of builder calls. */
  function Configured(calls: seq<BuilderCall>): map<string, nat>
    decreases |calls|
  {
    if |calls| == 0 then map[]
    else
      var last := calls[|calls| - 1];
      Configured(calls[..|calls| - 1])[last.queue := LimitOf(last)]
  }

  /** The last call that names a queue decides its limit, and only such a call creates it. */
  lemma {:induction false} LastCallDecides(calls: seq<BuilderCall>, i: nat)
    requires i < |calls|
    requires forall j :: i < j < |calls| ==> calls[j].queue != calls[i].queue
    ensures calls[i].queue in Configured(calls)
    ensures Configured(calls)[calls[i].queue] == if calls[i].RegisterCall? then 4 else calls[i].count
    decreases |calls|
  {
    if i < |calls| - 1 {
      LastCallDecides(calls[..|calls| - 1], i);
    }
  }

  lemma {:induction false} ConfiguredIffNamed(calls: seq<BuilderCall>, queue: string)
    ensures queue in Configured(calls) <==> exists i :: 0 <= i < |calls| && calls[i].queue == queue
    decreases |calls|
  {
    if |calls| > 0 {
      var prefix := calls[..|calls| - 1];
      ConfiguredIffNamed(prefix, queue);
      if i :| 0 <= i < |calls| && calls[i].queue == queue {
        assert i < |prefix| ==> prefix[i].queue == queue;
      }
      if i :| 0 <= i < |prefix| && prefix[i].queue == queue {
        assert calls[i].queue == queue;
      }
    }
  }

  lemma LastNamed(calls: seq<BuilderCall>, queue: string, i: nat) returns (j: nat)
    requires i < |calls| && calls[i].queue == queue
    ensures i <= j < |calls| && calls[j].queue == queue
    ensures forall k :: j < k < |calls| ==> calls[k].queue != queue
    decreases |calls| - i
  {
    if k :| i < k < |calls| && calls[k].queue == queue {
      j := LastNamed(calls, queue, k);
    } else {
      j := i;
    }
  }

  /** The limit last asked for a queue is the one it gets if and only if it is 4 or no task
      type of that queue is registered afterwards. */
  lemma ConcurrencyKeptIff(calls: seq<BuilderCall>, i: nat)
    requires i < |calls| && calls[i].ConcurrencyCall?
    requires forall j :: i < j < |calls| ==> !(calls[j].ConcurrencyCall? && calls[j].queue == calls[i].queue)
    ensures calls[i].queue in Configured(calls)
    ensures Configured(calls)[calls[i].queue] == calls[i].count <==>
            calls[i].count == 4 ||
            forall j :: i < j < |calls| && calls[j].RegisterCall? ==> calls[j].queue != calls[i].queue
  {
    var j := LastNamed(calls, calls[i].queue, i);
    LastCallDecides(calls, j);
  }

  // ----- the context

  class TaskContext {
    var queueConcurrency: map<string, nat>
    const handlers: TaskHandlers
    const store: TaskStore

    constructor (store: TaskStore)
      ensures this.store == store && queueConcurrency == map[]
      ensures fresh(handlers) && handlers.registered == {}
    {
      this.store := store;
      this.handlers := new TaskHandlers();
      queueConcurrency := map[];
    }

    /** Registering a task type makes its handler known and sets its queue's limit to 4,
        also after `SetConcurrency`. */
    method Register(taskKey: string, queue: string)
      modifies this, handlers
      ensures handlers.registered == old(handlers.registered) + {taskKey}
      ensures queueConcurrency == old(queueConcurrency)[queue := 4]
    {
      handlers.Register(taskKey);
      queueConcurrency := queueConcurrency[queue := DEFAULT_LIMIT];
    }

    method SetConcurrency(queue: string, count: nat)
      modifies this
      ensures queueConcurrency == old(queueConcurrency)[queue := count]
    {
      queueConcurrency := queueConcurrency[queue := count];
    }

    /** Submit one task: due after the given delay, or its own. */
    method AddTask(meta: TaskMeta, delaySeconds: Option<u32>, now: int) returns (ok: bool)
      modifies store
      ensures ok <==> meta.id !in old(store.tasks)
      ensures store.tasks ==
              if ok then old(store.tasks)[meta.id := Delayed(meta, delaySeconds, now)] else old(store.tasks)
      ensures ok ==>
                var delay := if delaySeconds.Some? then delaySeconds.value else meta.delaySeconds;
                store.tasks[meta.id] == meta.(nextRun := now + delay * 1000 % 0x1_0000_0000)
    {
      var delay := DelayMs(if delaySeconds.Some? then delaySeconds.value else meta.delaySeconds);
      ok := store.StoreTask(meta.(nextRun := now + delay));
    }

    /** Submit a batch: all tasks are stored, each with its delay, or none is. */
    method AddTasks(metas: seq<TaskMeta>, delaySeconds: Option<u32>, clock: nat -> int) returns (ok: bool)
      modifies store
      ensures ok <==> NewIds(old(store.tasks), metas)
      ensures !ok ==> store.tasks == old(store.tasks)
      ensures ok ==> |store.tasks| == |old(store.tasks)| + |metas|
      ensures ok ==> forall id :: id in old(store.tasks) ==>
                       id in store.tasks && store.tasks[id] == old(store.tasks)[id]
      ensures ok ==> forall i: nat :: i < |metas| ==>
                && metas[i].id in store.tasks
                && var delay := if delaySeconds.Some? then delaySeconds.value else metas[i].delaySeconds;
                   store.tasks[metas[i].id] == metas[i].(nextRun := clock(i) + delay * 1000 % 0x1_0000_0000)
    {
      var batch := DelayedBatch(metas, delaySeconds, clock);
      SameIds(store.tasks, metas, batch);
      ok := store.StoreTasks(batch);
      if ok {
        InsertedCount(old(store.tasks), batch, store.tasks);
      }
    }

    /** One processor per registered queue, each with that queue's limit, and an updater
        that waits for as many pills as there are processors. */
    method StartFlow() returns (names: seq<string>, processors: seq<TaskProcessor>, updater: TaskStatusUpdater)
      ensures |processors| == |names| == |queueConcurrency| == updater.processorNum
      ensures forall i, j :: 0 <= i < j < |names| ==> names[i] != names[j]
      ensures forall name :: name in queueConcurrency <==> name in names
      ensures forall i :: 0 <= i < |names| ==> processors[i].View() == NewProc(queueConcurrency[names[i]])
      ensures updater.store == store && updater.queue == [] && updater.log == []
      ensures updater.pills == 0 && !updater.stopped
    {
      updater := new TaskStatusUpdater(store, |queueConcurrency|);
      names, processors := [], [];
      var todo := queueConcurrency.Keys;
      while todo != {}
        invariant todo <= queueConcurrency.Keys
        invariant updater.queue == [] && updater.log == [] && updater.pills == 0 && !updater.stopped
        invariant |names| + |todo| == |queueConcurrency| && |processors| == |names|
        invariant forall i, j :: 0 <= i < j < |names| ==> names[i] != names[j]
        invariant forall name :: name in queueConcurrency <==> name in todo || name in names
        invariant forall i :: 0 <= i < |names| ==> names[i] in names && names[i] !in todo
        invariant forall i :: 0 <= i < |names| ==> processors[i].View() == NewProc(queueConcurrency[names[i]])
        decreases |todo|
      {
        var name :| name in todo;
        todo := todo - {name};
        var p := new TaskProcessor(queueConcurrency[name]);
        names, processors := names + [name], processors + [p];
      }
    }
  }

  /** A chain of builder calls followed by the start: every queue a call names gets one
      processor, with the limit `Configured` says. */
  method ConfigureAndStart(store: TaskStore, calls: seq<BuilderCall>)
    returns (names: seq<string>, processors: seq<TaskProcessor>, updater: TaskStatusUpdater)
    ensures |names| == |processors| == updater.processorNum == |Configured(calls)|
    ensures forall i, j :: 0 <= i < j < |names| ==> names[i] != names[j]
    ensures forall name :: name in Configured(calls) <==> name in names
    ensures forall i :: 0 <= i < |names| ==>
              names[i] in names && processors[i].View() == NewProc(Configured(calls)[names[i]])
  {
    var context := new TaskContext(store);
    for i := 0 to |calls|
      invariant fresh(context) && fresh(context.handlers)
      invariant context.queueConcurrency == Configured(calls[..i])
    {
      assert calls[..i + 1][..i] == calls[..i];
      match calls[i] {
        case RegisterCall(taskKey, queue) => context.Register(taskKey, queue);
        case ConcurrencyCall(queue, count) => context.SetConcurrency(queue, count);
      }
    }
    assert calls[..|calls|] == calls;
    names, processors, updater := context.StartFlow();
  }

  /** The objects `StartFlow` builds are an initial state of the pipeline, provided every
      limit is at least 1. */
  lemma StartIsInit(limits: seq<nat>)
    requires forall i :: 0 <= i < |limits| ==> limits[i] >= 1
    ensures Init(State(Idle, seq(|limits|, i requires 0 <= i < |limits| => NewProc(limits[i])), [], [], 0, false))
  {
  }

  // ----- the flow's batch

  function OfQueue(tasks: seq<TaskMeta>, queue: string): seq<TaskMeta> {
    if |tasks| == 0 then []
    else OfQueue(tasks[..|tasks| - 1], queue) +
         (if tasks[|tasks| - 1].queueName == queue then [tasks[|tasks| - 1]] else [])
  }

  /** The group is the tasks at these positions of the batch, in order: the positions of the
      tasks that name the queue, each once. */
  ghost predicate PickedAt(tasks: seq<TaskMeta>, queue: string, group: seq<TaskMeta>, at: seq<nat>) {
    && |at| == |group|
    && (forall k :: 0 <= k < |at| ==> at[k] < |tasks| && group[k] == tasks[at[k]] && group[k].queueName == queue)
    && (forall j, k :: 0 <= j < k < |at| ==> at[j] < at[k])
    && (forall i: nat :: i < |tasks| && tasks[i].queueName == queue ==> i in at)
  }

  lemma {:induction false} OfQueueInOrder(tasks: seq<TaskMeta>, queue: string) returns (at: seq<nat>)
    ensures PickedAt(tasks, queue, OfQueue(tasks, queue), at)
    decreases |tasks|
  {
    at := [];
    if |tasks| > 0 {
      var n := |tasks| - 1;
      at := OfQueueInOrder(tasks[..n], queue);
      if tasks[n].queueName == queue {
        var before := at;
        at := at + [n];
        assert at[|before|] == n;
        forall i: nat | i < |tasks| && tasks[i].queueName == queue
          ensures i in at
        {
          assert i < n ==> tasks[..n][i].queueName == queue;
        }
      } else {
        assert forall i: nat :: i < n ==> tasks[..n][i] == tasks[i];
      }
    }
  }

  lemma {:induction false} OfQueueExact(tasks: seq<TaskMeta>, queue: string, task: TaskMeta)
    ensures task in OfQueue(tasks, queue) <==> task in tasks && task.queueName == queue
    ensures multiset(OfQueue(tasks, queue))[task] == if task.queueName == queue then multiset(tasks)[task] else 0
    decreases |tasks|
  {
    if |tasks| > 0 {
      var rest, last := tasks[..|tasks| - 1], tasks[|tasks| - 1];
      OfQueueExact(rest, queue, task);
      assert tasks == rest + [last];
      assert task in tasks <==> task in rest || task == last;
    }
  }

  lemma GroupsExact(tasks: seq<TaskMeta>, groups: map<string, seq<TaskMeta>>)
    requires forall queue :: queue in groups ==> groups[queue] == OfQueue(tasks, queue)
    requires forall queue :: queue !in groups ==> OfQueue(tasks, queue) == []
    ensures forall i :: 0 <= i < |tasks| ==> tasks[i].queueName in groups
    ensures forall queue :: queue in groups ==>
              exists at :: PickedAt(tasks, queue, groups[queue], at)
    ensures forall queue, task: TaskMeta :: queue in groups && task.queueName == queue ==>
              multiset(groups[queue])[task] == multiset(tasks)[task]
  {
    forall i | 0 <= i < |tasks|
      ensures tasks[i].queueName in groups
    {
      OfQueueExact(tasks, tasks[i].queueName, tasks[i]);
    }
    forall queue | queue in groups
      ensures exists at :: PickedAt(tasks, queue, groups[queue], at)
    {
      var at := OfQueueInOrder(tasks, queue);
    }
    forall queue, task: TaskMeta | queue in groups && task.queueName == queue
      ensures multiset(groups[queue])[task] == multiset(tasks)[task]
    {
      OfQueueExact(tasks, queue, task);
    }
  }

  /** A fetched batch is split by queue, keeping the fetch order within each queue. */
  method GroupByQueue(tasks: seq<TaskMeta>) returns (groups: map<string, seq<TaskMeta>>)
    ensures forall queue :: queue in groups ==> groups[queue] == OfQueue(tasks, queue) != []
    ensures forall queue :: queue !in groups ==> OfQueue(tasks, queue) == []
    ensures forall i :: 0 <= i < |tasks| ==> tasks[i].queueName in groups
    ensures forall queue :: queue in groups ==>
              exists at :: PickedAt(tasks, queue, groups[queue], at)
    ensures forall queue, task: TaskMeta :: queue in groups && task.queueName == queue ==>
              multiset(groups[queue])[task] == multiset(tasks)[task]
  {
    groups := map[];
    var i := 0;
    while i < |tasks|
      invariant i <= |tasks|
      invariant forall queue :: queue in groups ==> groups[queue] == OfQueue(tasks[..i], queue) != []
      invariant forall queue :: queue !in groups ==> OfQueue(tasks[..i], queue) == []
    {
      assert tasks[..i + 1][..i] == tasks[..i];
      var queue := tasks[i].queueName;
      groups := groups[queue := (if queue in groups then groups[queue] else []) + [tasks[i]]];
      i := i + 1;
    }
    assert tasks[..i] == tasks;
    GroupsExact(tasks, groups);
  }
}
