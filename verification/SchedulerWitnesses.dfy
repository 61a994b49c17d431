/** Runs in which things go wrong: each of the shortfalls the theorems delimit does happen. */
module SchedulerWitnesses {
  import opened Wrappers
  import opened Tasks
  import opened Pipeline
  import opened Scheduler
  import opened SchedulerCounts

  /** The world a history leads to, if it is one. */
  ghost function Reached(w0: World, actions: seq<Action>): Option<World> {
    if IsHistory(w0, actions) then Some(Final(w0, actions)) else None
  }

  lemma {:induction false} HistorySnoc(w0: World, actions: seq<Action>, a: Action)
    requires IsHistory(w0, actions) && Possible(Final(w0, actions), a)
    ensures IsHistory(w0, actions + [a]) && Final(w0, actions + [a]) == Act(Final(w0, actions), a)
    decreases |actions|
  {
    if |actions| > 0 {
      assert (actions + [a])[1..] == actions[1..] + [a];
      HistorySnoc(Act(w0, actions[0]), actions[1..], a);
    }
  }

  /** One more action at the end of a history. */
  lemma Then(w0: World, actions: seq<Action>, a: Action) returns (more: seq<Action>)
    requires IsHistory(w0, actions) && Possible(Final(w0, actions), a)
    ensures Reached(w0, more) == Some(Act(Final(w0, actions), a))
  {
    HistorySnoc(w0, actions, a);
    more := actions + [a];
  }

  /** A world with one processor, ready to receive. */
  ghost predicate Solo(w: World) {
    && |w.pipe.procs| == 1 && w.pipe.procs[0].pc.Receiving? && w.pipe.procs[0].chan == []
    && w.pipe.procs[0].permits > 0
    && (forall h :: h in w.pipe.procs[0].handles ==> h < |w.pipe.procs[0].execs|)
    && |w.pipe.queue| < UPDATER_CAP && !w.pipe.stopped && w.pipe.pills == 0
  }

  function WithProc(w: World, p: Proc): World {
    w.(pipe := w.pipe.(procs := [p]))
  }

  lemma DueAlone(w: World, meta: TaskMeta, now: int)
    requires w.tasks == map[meta.id := meta] && Due(meta, now)
    ensures IsDueBatch(w.tasks, [meta], now)
    ensures Ids([meta]) == {meta.id}
  {
    assert meta in [meta];
    assert meta.id in Ids([meta]);
  }

  // ----- parts of a run

  /** The only task is claimed. */
  lemma FetchAct(w: World, meta: TaskMeta, now: int)
    requires w.pipe.flow.Idle? && w.tasks == map[meta.id := meta] && Due(meta, now)
    ensures Possible(w, FetchDue(now, [meta]))
    ensures Act(w, FetchDue(now, [meta])) ==
            w.(pipe := w.pipe.(flow := Sending([(QueueIndex(w, meta.queueName), meta)])),
               tasks := map[meta.id := meta.(status := Running)], halted := w.halted - {meta.id})
  {
    DueAlone(w, meta, now);
    assert Claimed(w.tasks, {meta.id}) == map[meta.id := meta.(status := Running)];
    assert Routed(w, [meta]) == [(QueueIndex(w, meta.queueName), meta)];
  }

  /** It is sent to the processor. */
  lemma SendAct(w: World, meta: TaskMeta)
    requires |w.pipe.procs| == 1 && w.pipe.procs[0].chan == [] && w.pipe.procs[0].pc.Receiving?
    requires w.pipe.flow == Sending([(0, meta)])
    ensures Possible(w, Other(Step.Send))
    ensures var p := w.pipe.procs[0];
            Act(w, Other(Step.Send)) ==
            w.(pipe := w.pipe.(flow := Sending([]),
                               procs := [p.(chan := [Work(meta)], sent := p.sent + [meta])]))
  {
    var p := w.pipe.procs[0];
    assert p.chan + [Work(meta)] == [Work(meta)] && w.pipe.flow.todo[1..] == [];
    assert Deliver(p, Work(meta)) == p.(chan := [Work(meta)]);
  }

  lemma Claim(w0: World, actions: seq<Action>, meta: TaskMeta, now: int) returns (more: seq<Action>)
    requires IsHistory(w0, actions) && Solo(Final(w0, actions))
    requires var w := Final(w0, actions);
             && w.pipe.flow.Idle? && w.tasks == map[meta.id := meta] && Due(meta, now)
             && meta.queueName in w.route && w.route[meta.queueName] == 0
    ensures var w := Final(w0, actions);
            var p := w.pipe.procs[0];
            Reached(w0, more) ==
            Some(WithProc(w, p.(chan := [Work(meta)], sent := p.sent + [meta]))
                   .(tasks := map[meta.id := meta.(status := Running)], halted := w.halted - {meta.id}))
  {
    FetchAct(Final(w0, actions), meta, now);
    more := Then(w0, actions, FetchDue(now, [meta]));
    SendAct(Final(w0, more), meta);
    more := Then(w0, more, Other(Step.Send));
    more := Then(w0, more, Other(BatchSent));
  }

  /** The result of the execution of a task that fails at time 0. */
  function Failure(task: TaskMeta): TaskResult {
    ResultOf(task, Some("failed"), 0)
  }

  /** The processor with its waiting task taken and spawned. */
  function Spawning(p: Proc, task: TaskMeta): Proc
    requires p.permits > 0 && forall h :: h in p.handles ==> h < |p.execs|
  {
    p.(chan := [], permits := p.permits - 1, execs := p.execs + [Exec(task, InHandler)],
       handles := Retain(p.handles, p.execs) + [|p.execs|])
  }

  ghost predicate HasWork(w: World, task: TaskMeta) {
    && |w.pipe.procs| == 1 && w.pipe.procs[0].chan == [Work(task)]
    && Solo(WithProc(w, w.pipe.procs[0].(chan := [])))
  }

  lemma Spawn(w0: World, actions: seq<Action>, task: TaskMeta) returns (more: seq<Action>)
    requires IsHistory(w0, actions) && HasWork(Final(w0, actions), task)
    ensures var w := Final(w0, actions);
            var p := w.pipe.procs[0];
            && p.permits > 0 && (forall h :: h in p.handles ==> h < |p.execs|)
            && Reached(w0, more) == Some(WithProc(w, Spawning(p, task)))
  {
    var w := Final(w0, actions);
    var p := w.pipe.procs[0];
    var p0 := WithProc(w, p.(chan := [])).pipe.procs[0];
    assert p0.permits == p.permits && p0.handles == p.handles && p0.execs == p.execs && p0.pc == p.pc;
    more := Then(w0, actions, Other(Receive(0)));
    var p1 := p.(chan := [], pc := Holding(task));
    assert Received(p) == p1;
    assert Final(w0, more) == WithProc(w, p1);
    more := Then(w0, more, Other(Start(0)));
    assert Spawned(p1) == Spawning(p, task);
    assert Final(w0, more) == WithProc(w, Spawning(p, task));
  }

  /** The last execution of the processor, the n-th, is that of the task, in this phase. */
  ghost predicate LastIs(w: World, n: nat, e: Exec) {
    && |w.pipe.procs| == 1 && !w.pipe.stopped && |w.pipe.queue| < UPDATER_CAP
    && |w.pipe.procs[0].execs| == n + 1 && w.pipe.procs[0].execs[n] == e
  }

  function WithPhase(w: World, n: nat, phase: Phase): World
    requires |w.pipe.procs| == 1 && n < |w.pipe.procs[0].execs|
  {
    WithProc(w, SetPhase(w.pipe.procs[0], n, phase))
  }

  lemma EndsAct(w: World, n: nat, task: TaskMeta)
    requires LastIs(w, n, Exec(task, InHandler))
    ensures var a := HandlerEnds(0, n, Some("failed"), 0);
            Possible(w, a) && Act(w, a) == WithPhase(w, n, Reporting(Failure(task)))
  {
  }

  lemma ReportAct(w: World, n: nat, task: TaskMeta)
    requires LastIs(w, n, Exec(task, Reporting(Failure(task))))
    ensures var a := Other(Report(0, n));
            var r := ExecutionResult(0, n, task, Failure(task));
            && Possible(w, a)
            && Act(w, a) == WithPhase(w, n, Reported(|Hist(w.pipe)|))
                              .(pipe := WithPhase(w, n, Reported(|Hist(w.pipe)|)).pipe.(queue := w.pipe.queue + [r]))
  {
  }

  lemma ReleaseAct(w: World, n: nat, task: TaskMeta, at: nat)
    requires |w.pipe.procs| == 1 && n < |w.pipe.procs[0].execs| && w.pipe.procs[0].execs[n] == Exec(task, Reported(at))
    ensures var a := Other(Release(0, n));
            && Possible(w, a)
            && Act(w, a) ==
               WithProc(w, SetPhase(w.pipe.procs[0], n, Released(at)).(permits := w.pipe.procs[0].permits + 1))
  {
  }

  /** The processor after the task sent was executed, failed, and gave its permit back. */
  function Serving(p: Proc, task: TaskMeta, at: nat): Proc
    requires p.permits > 0 && forall h :: h in p.handles ==> h < |p.execs|
  {
    Spawning(p, task).(execs := p.execs + [Exec(task, Released(at))], permits := p.permits)
  }

  lemma Fail(w0: World, actions: seq<Action>, task: TaskMeta) returns (more: seq<Action>)
    requires IsHistory(w0, actions) && HasWork(Final(w0, actions), task)
    ensures var w := Final(w0, actions);
            var p := w.pipe.procs[0];
            var r := ExecutionResult(0, |p.execs|, task, Failure(task));
            && p.permits > 0 && (forall h :: h in p.handles ==> h < |p.execs|)
            && Reached(w0, more) ==
               Some(w.(pipe := w.pipe.(procs := [Serving(p, task, |Hist(w.pipe)|)], queue := w.pipe.queue + [r])))
  {
    var w := Final(w0, actions);
    var p := w.pipe.procs[0];
    var n, at := |p.execs|, |Hist(w.pipe)|;
    more := Spawn(w0, actions, task);
    EndsAct(Final(w0, more), n, task);
    more := Then(w0, more, HandlerEnds(0, n, Some("failed"), 0));
    ReportAct(Final(w0, more), n, task);
    more := Then(w0, more, Other(Report(0, n)));
    ReleaseAct(Final(w0, more), n, task, at);
    more := Then(w0, more, Other(Release(0, n)));
    assert Final(w0, more).pipe.procs[0] == Serving(p, task, at);
  }

  // ----- a task handed out twice

  ghost predicate IsNew(w0: World, meta: TaskMeta) {
    && Begin(w0) && meta.queueName in w0.route
    && meta.status.Scheduled? && meta.retryCount.None? && meta.nextRun <= 0
  }

  /** A task is added, claimed and sent. */
  lemma FirstClaim(w0: World, meta: TaskMeta) returns (actions: seq<Action>)
    requires IsNew(w0, meta)
    ensures Reached(w0, actions).Some?
    ensures var w := Reached(w0, actions).value;
            var q := w0.route[meta.queueName];
            && w.tasks == map[meta.id := meta.(status := Running)] && w.pipe.flow == Sending([]) && w.route == w0.route
            && w.pipe.log == [] && q < |w.pipe.procs|
            && w.pipe.procs[q].execs == [] && w.pipe.procs[q].sent == [meta]
  {
    var q := w0.route[meta.queueName];
    assert w0.pipe.procs[q] in w0.pipe.procs;
    actions := Then(w0, [], AddTask(meta));
    FetchAct(Final(w0, actions), meta, 0);
    actions := Then(w0, actions, FetchDue(0, [meta]));
    actions := Then(w0, actions, Other(Step.Send));
  }

  /** A task that is stopped while its execution is under way, then retried by hand, is
      handed out a second time. */
  lemma RetryCanRace(w0: World, meta: TaskMeta) returns (actions: seq<Action>)
    requires IsNew(w0, meta)
    ensures Reached(w0, actions).Some? && !OnceFor(Reached(w0, actions).value.pipe, meta.id)
  {
    var id, q := meta.id, w0.route[meta.queueName];
    actions := FirstClaim(w0, meta);
    actions := Then(w0, actions, SetStatus(id, Stopped));
    actions := Then(w0, actions, Other(BatchSent));
    actions := Then(w0, actions, RetryTask(id, 0));
    var again := Rewind(meta.(status := Stopped), 0);
    assert Final(w0, actions).tasks == map[id := again];
    FetchAct(Final(w0, actions), again, 0);
    actions := Then(w0, actions, FetchDue(0, [again]));
    var s := Final(w0, actions).pipe;
    assert HasId(s, Sent(q, 0), id) && HasId(s, Queued(0), id);
  }

  // ----- a count that is wrong, and a budget that is exceeded

  /** A new task of the only queue. */
  ghost predicate IsOnly(w0: World, meta: TaskMeta) {
    IsNew(w0, meta) && |w0.pipe.procs| == 1
  }

  /** A task is added, claimed and executed, and its failure waits to be recorded. */
  lemma FirstFailure(w0: World, meta: TaskMeta) returns (actions: seq<Action>)
    requires IsOnly(w0, meta)
    ensures w0.pipe.procs[0].permits > 0 && w0.pipe.procs[0].handles == []
    ensures Reached(w0, actions).Some? && Solo(Reached(w0, actions).value)
    ensures var p := w0.pipe.procs[0].(sent := [meta], chan := [Work(meta)]);
            var p' := Serving(p, meta, 0);
            && p'.handles == [0] && p'.execs == [Exec(meta, Released(0))]
            && Reached(w0, actions).value ==
               w0.(pipe := w0.pipe.(procs := [p'], queue := [ExecutionResult(0, 0, meta, Failure(meta))]),
                   tasks := map[meta.id := meta.(status := Running)], used := {meta.id}, events := [Added(meta.id)])
  {
    assert w0.pipe.procs[0] in w0.pipe.procs;
    actions := Then(w0, [], AddTask(meta));
    var w1 := Final(w0, actions);
    assert w1 == w0.(tasks := map[meta.id := meta], used := {meta.id}, events := [Added(meta.id)]);
    actions := Claim(w0, actions, meta, 0);
    var p := w0.pipe.procs[0].(sent := [meta], chan := [Work(meta)]);
    assert w0.pipe.procs[0].sent + [meta] == [meta];
    assert Final(w0, actions) == WithProc(w1, p).(tasks := map[meta.id := meta.(status := Running)]);
    actions := Fail(w0, actions, meta);
    assert w0.pipe.queue + [ExecutionResult(0, 0, meta, Failure(meta))] == [ExecutionResult(0, 0, meta, Failure(meta))];
    assert Final(w0, actions).pipe.procs == [Serving(p, meta, 0)];
  }

  /** The update for the result at the head of the queue, saved. */
  lemma SaveFailure(w0: World, actions: seq<Action>, row: TaskMeta, task: TaskMeta) returns (more: seq<Action>)
    requires IsHistory(w0, actions)
    requires var w := Final(w0, actions);
             && w.tasks == map[task.id := row] && !w.pipe.stopped
             && w.pipe.queue != [] && w.pipe.queue[0].ExecutionResult?
             && w.pipe.queue[0].task == task && w.pipe.queue[0].result == Failure(task)
    ensures var w := Final(w0, actions);
            Reached(w0, more) ==
            Some(w.(pipe := w.pipe.(queue := w.pipe.queue[1..], log := w.pipe.log + [w.pipe.queue[0]]),
                    tasks := map[task.id := ApplyResult(row, Failure(task))],
                    events := w.events + [Recorded(task.id, false)]))
  {
    more := Then(w0, actions, Record(true));
    assert Final(w0, more).tasks == map[task.id := ApplyResult(row, Failure(task))];
  }

  /** Before the failure is recorded the task is stopped, retried, and fails again. */
  lemma SecondFailure(w0: World, meta: TaskMeta) returns (actions: seq<Action>)
    requires IsOnly(w0, meta)
    ensures Reached(w0, actions).Some?
    ensures var w := Reached(w0, actions).value;
            var again := Rewind(meta.(status := Stopped), 0);
            && w.tasks == map[meta.id := again.(status := Running)] && !w.pipe.stopped
            && w.pipe.queue ==
               [ExecutionResult(0, 0, meta, Failure(meta)), ExecutionResult(0, 1, again, Failure(again))]
            && w.events == [Added(meta.id)] + [Rewound(meta.id)]
  {
    var id, again := meta.id, Rewind(meta.(status := Stopped), 0);
    actions := FirstFailure(w0, meta);
    actions := Then(w0, actions, SetStatus(id, Stopped));
    actions := Then(w0, actions, RetryTask(id, 0));
    var w := Final(w0, actions);
    assert w.tasks == map[id := again] && w.events == [Added(id)] + [Rewound(id)];
    actions := Claim(w0, actions, again, 0);
    actions := Fail(w0, actions, again);
  }

  /** The failure of an execution that the retry left behind is recorded before that of the
      new one, which started from no failures too: two are counted as one, and a task with
      one attempt has two results. */
  lemma StaleResultMiscounts(w0: World, meta: TaskMeta) returns (actions: seq<Action>)
    requires IsOnly(w0, meta)
    ensures Reached(w0, actions).Some? && meta.id in Reached(w0, actions).value.tasks
    ensures var w := Reached(w0, actions).value;
            && Attempts(w.tasks[meta.id]) == 1 && FailuresSince(w.events, meta.id) == 2
            && RunsSince(w.events, meta.id) == 2 && w.tasks[meta.id].maxRetries == meta.maxRetries
  {
    var id, again := meta.id, Rewind(meta.(status := Stopped), 0);
    actions := SecondFailure(w0, meta);
    actions := SaveFailure(w0, actions, again.(status := Running), meta);
    var row := ApplyResult(again.(status := Running), Failure(meta));
    actions := SaveFailure(w0, actions, row, again);
    EventsAppend([Added(id)], Rewound(id), id);
    EventsAppend([Added(id)] + [Rewound(id)], Recorded(id, false), id);
    EventsAppend([Added(id)] + [Rewound(id)] + [Recorded(id, false)], Recorded(id, false), id);
  }

  // ----- a task removed by a restart

  /** A task that is to be retried for ever is Running again after its first failure, and a
      restart removes it. */
  lemma RestartCanDrop(w0: World, meta: TaskMeta) returns (actions: seq<Action>)
    requires IsOnly(w0, meta) && meta.maxRetries.None?
    ensures Reached(w0, actions).Some? && meta.id in Reached(w0, actions).value.tasks
    ensures var w := Reached(w0, actions).value;
            && w.tasks[meta.id].status.Running? && w.tasks[meta.id].maxRetries.None?
            && Act(w, Restart).tasks[meta.id].status.Removed?
  {
    var row := ApplyResult(meta.(status := Running), Failure(meta));
    actions := FirstFailure(w0, meta);
    actions := SaveFailure(w0, actions, meta.(status := Running), meta);
    actions := Claim(w0, actions, row, row.nextRun);
  }

  // ----- a task left Running

  /** Nothing is sent, queued or under way, and the only execution has finished. */
  ghost predicate IsIdle(w: World) {
    && Solo(w) && w.pipe.flow.Idle? && w.pipe.queue == []
    && (w.pipe.procs[0].handles == [] ||
        (w.pipe.procs[0].handles == [0] && |w.pipe.procs[0].execs| == 1 && w.pipe.procs[0].execs[0].phase.Finished?))
  }

  /** The pill is sent, */
  lemma SendsPill(w0: World, actions: seq<Action>) returns (more: seq<Action>)
    requires IsHistory(w0, actions) && IsIdle(Final(w0, actions))
    ensures var w := Final(w0, actions);
            Reached(w0, more) ==
            Some(w.(pipe := w.pipe.(flow := Poisoning([]), procs := [w.pipe.procs[0].(chan := [PoisonPill])])))
  {
    var w := Final(w0, actions);
    var p := w.pipe.procs[0];
    assert IsOrder([0], 1) && w.pipe.procs == [p];
    more := Then(w0, actions, Other(Shutdown([0])));
    assert Deliver(p, PoisonPill) == p.(chan := [PoisonPill]) by {
      assert p.chan + [PoisonPill] == [PoisonPill];
    }
    more := Then(w0, more, Other(SendPill));
    assert [0][1..] == [];
    assert Final(w0, more).pipe == w.pipe.(flow := Poisoning([]), procs := [p.(chan := [PoisonPill])]);
  }

  /** and received. */
  lemma Poison(w0: World, actions: seq<Action>) returns (more: seq<Action>)
    requires IsHistory(w0, actions) && IsIdle(Final(w0, actions))
    ensures var w := Final(w0, actions);
            Reached(w0, more) ==
            Some(w.(pipe := w.pipe.(flow := Poisoning([]), procs := [w.pipe.procs[0].(pc := Draining)])))
  {
    var w := Final(w0, actions);
    var p := w.pipe.procs[0];
    more := SendsPill(w0, actions);
    more := Then(w0, more, Other(Receive(0)));
    assert Received(p.(chan := [PoisonPill])) == p.(pc := Draining);
    assert Final(w0, more) == w.(pipe := w.pipe.(flow := Poisoning([]), procs := [p.(pc := Draining)]));
  }

  /** The processor leaves, and the updater with it. */
  lemma Leave(w0: World, actions: seq<Action>) returns (more: seq<Action>)
    requires IsHistory(w0, actions)
    requires var s := Final(w0, actions).pipe;
             && |s.procs| == 1 && s.procs[0].pc.Draining? && s.procs[0].handles == []
             && s.queue == [] && s.pills == 0 && !s.stopped
    ensures Reached(w0, more).Some? && Reached(w0, more).value.pipe.stopped
    ensures Reached(w0, more).value == Final(w0, actions).(pipe := Reached(w0, more).value.pipe)
  {
    more := Then(w0, actions, Other(Exit(0)));
    assert Final(w0, more).pipe.queue == [Pill];
    more := Then(w0, more, Record(true));
  }

  lemma ShutDown(w0: World, actions: seq<Action>) returns (more: seq<Action>)
    requires IsHistory(w0, actions) && IsIdle(Final(w0, actions))
    ensures Reached(w0, more).Some? && Reached(w0, more).value.pipe.stopped
    ensures Reached(w0, more).value == Final(w0, actions).(pipe := Reached(w0, more).value.pipe)
  {
    var handles := Final(w0, actions).pipe.procs[0].handles;
    more := Poison(w0, actions);
    if handles == [0] {
      more := Then(w0, more, Other(Join(0)));
      assert [0][1..] == [];
    }
    more := Leave(w0, more);
  }

  /** The only execution finishes, and nothing is left to do. */
  lemma FinishFirst(w0: World, actions: seq<Action>) returns (more: seq<Action>)
    requires IsHistory(w0, actions)
    requires var w := Final(w0, actions);
             && Solo(w) && w.pipe.flow.Idle? && w.pipe.queue == [] && w.pipe.procs[0].handles == [0]
             && |w.pipe.procs[0].execs| == 1 && w.pipe.procs[0].execs[0].phase.Released?
    ensures Reached(w0, more).Some? && IsIdle(Reached(w0, more).value)
    ensures Reached(w0, more).value == Final(w0, actions).(pipe := Reached(w0, more).value.pipe)
  {
    more := Then(w0, actions, Other(Finish(0, 0)));
  }

  /** A task whose update fails is left Running by a shutdown, */
  lemma UnsavedStaysRunning(w0: World, meta: TaskMeta) returns (actions: seq<Action>)
    requires IsOnly(w0, meta)
    ensures Reached(w0, actions).Some? && Reached(w0, actions).value.pipe.stopped
    ensures meta.id in Reached(w0, actions).value.tasks
    ensures Reached(w0, actions).value.tasks[meta.id].status.Running? && meta.id in Reached(w0, actions).value.unsaved
  {
    actions := FirstFailure(w0, meta);
    actions := Then(w0, actions, Record(false));
    actions := FinishFirst(w0, actions);
    actions := ShutDown(w0, actions);
  }

  /** and so is one whose queue nobody serves. */
  lemma UnroutedStaysRunning(w0: World, meta: TaskMeta) returns (actions: seq<Action>)
    requires Begin(w0) && |w0.pipe.procs| == 1 && meta.queueName !in w0.route
    requires meta.status.Scheduled? && meta.retryCount.None? && meta.nextRun <= 0
    ensures Reached(w0, actions).Some? && Reached(w0, actions).value.pipe.stopped
    ensures meta.id in Reached(w0, actions).value.tasks
    ensures Reached(w0, actions).value.tasks[meta.id].status.Running? && meta.id in Reached(w0, actions).value.dropped
  {
    assert w0.pipe.procs[0] in w0.pipe.procs;
    actions := Then(w0, [], AddTask(meta));
    FetchAct(Final(w0, actions), meta, 0);
    actions := Then(w0, actions, FetchDue(0, [meta]));
    actions := Then(w0, actions, Other(Step.Send));
    actions := Then(w0, actions, Other(BatchSent));
    actions := ShutDown(w0, actions);
  }

  // ----- a retried task that is deleted

  /** A clean-up selects a failed task, the task is retried by hand, and the clean-up deletes
      it by its id: it is due, and is never executed again. */
  lemma CleanUpCanDropRetried(w0: World, meta: TaskMeta) returns (actions: seq<Action>)
    requires IsOnly(w0, meta) && meta.maxRetries == Some(1)
    ensures Reached(w0, actions).Some? && meta.id in Reached(w0, actions).value.tasks
    ensures var w := Reached(w0, actions).value;
            && Due(w.tasks[meta.id], 0) && Possible(w, CleanTask(meta.id))
            && meta.id !in Act(w, CleanTask(meta.id)).tasks
  {
    actions := FirstFailure(w0, meta);
    actions := SaveFailure(w0, actions, meta.(status := Running), meta);
    actions := Then(w0, actions, CleanScan({meta.id}));
    actions := Then(w0, actions, RetryTask(meta.id, 0));
  }
}
