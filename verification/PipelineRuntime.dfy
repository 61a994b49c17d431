/** The objects of the pipeline, as the code updates them in place, each operation
    against the pipeline step it performs. */
module PipelineRuntime {
  import opened Sequences
  import opened Tasks
  import opened Pipeline
  import opened PipelineInvariant
  import opened PipelineTheorems
  import opened PipelineCounts

  function NewProc(limit: nat): Proc {
    Proc(limit, [], [], Receiving, limit, [], [])
  }

  class TaskProcessor {
    const limit: nat
    var sent: seq<TaskMeta>
    var chan: seq<Package>
    var pc: Pc
    var permits: nat
    var execs: seq<Exec>
    var handles: seq<nat>

    function View(): Proc
      reads this
    {
      Proc(limit, sent, chan, pc, permits, execs, handles)
    }

    constructor (limit: nat)
      ensures View() == NewProc(limit) && this.limit == permits == limit
      ensures sent == [] && chan == [] && pc.Receiving? && execs == [] && handles == []
    {
      this.limit := limit;
      sent, chan, pc, permits, execs, handles := [], [], Receiving, limit, [], [];
    }

    method Accept(package: Package)
      requires CanDeliver(View())
      modifies this
      ensures View() == Deliver(old(View()), package)
                          .(sent := if package.Work? then old(sent) + [package.task] else old(sent))
    {
      if !pc.Exited? {
        chan := chan + [package];
      }
      if package.Work? {
        sent := sent + [package.task];
      }
    }

    method Receive()
      requires pc.Receiving? && chan != []
      modifies this
      ensures View() == Received(old(View()))
    {
      match chan[0] {
        case PoisonPill => pc := Draining;
        case Work(task) => pc := Holding(task);
      }
      chan := chan[1..];
    }

    /** One turn of the permit loop: spawn the task in hand, or find no permit and sleep. */
    method TryAcquire() returns (spawned: bool)
      requires pc.Holding? && forall h :: h in handles ==> h < |execs|
      modifies this
      ensures spawned <==> old(permits) > 0
      ensures View() == if spawned then Spawned(old(View())) else old(View())
    {
      if permits == 0 {
        return false;
      }
      permits := permits - 1;
      var kept := RetainUnfinished();
      handles := kept + [|execs|];
      execs := execs + [Exec(pc.task, InHandler)];
      pc := Receiving;
      spawned := true;
    }

    method RetainUnfinished() returns (kept: seq<nat>)
      requires forall h :: h in handles ==> h < |execs|
      ensures kept == Retain(handles, execs)
    {
      kept := [];
      var i := 0;
      assert handles[0..] == handles;
      while i < |handles|
        invariant i <= |handles|
        invariant forall h :: h in handles[i..] ==> h in handles
        invariant kept + Retain(handles[i..], execs) == Retain(handles, execs)
      {
        RetainStep(handles[i..], execs);
        assert handles[i..][1..] == handles[i + 1..];
        if !execs[handles[i]].phase.Finished? {
          kept := kept + [handles[i]];
        }
        i := i + 1;
      }
      assert Retain(handles[i..], execs) == [];
    }

    /** The await of the next handle returns once its execution has finished. */
    method JoinNext()
      requires pc.Draining? && handles != []
      requires handles[0] < |execs| && execs[handles[0]].phase.Finished?
      modifies this
      ensures View() == Joined(old(View()))
    {
      handles := handles[1..];
    }

    /** With every handle awaited, pass the pill on and leave the loop. */
    method Exit(updater: TaskStatusUpdater)
      requires pc.Draining? && handles == []
      requires updater.stopped || |updater.queue| < UPDATER_CAP
      modifies this, updater
      ensures View() == old(View()).(pc := Exited)
      ensures updater.queue == if old(updater.stopped) then old(updater.queue) else old(updater.queue) + [Pill]
      ensures updater.log == old(updater.log) && updater.pills == old(updater.pills)
      ensures updater.stopped == old(updater.stopped)
    {
      updater.Queue(Pill);
      pc := Exited;
    }
  }

  lemma RetainStep(handles: seq<nat>, execs: seq<Exec>)
    requires handles != [] && forall h :: h in handles ==> h < |execs|
    ensures forall h :: h in handles[1..] ==> h in handles
    ensures handles[0] < |execs|
    ensures Retain(handles, execs) ==
            (if execs[handles[0]].phase.Finished? then [] else [handles[0]]) + Retain(handles[1..], execs)
  {
    assert handles[0] in handles;
  }

  // ----- what the updater makes of the stored tasks

  /** Applying the requests the updater consumed. The update of the request at position a
      reaches the store if `saved(a)`; otherwise it fails, which is only logged. A heartbeat
      only refreshes a timestamp, which the model does not carry. */
  function Replay(tasks: map<nat, TaskMeta>, log: seq<Request>, saved: nat -> bool): map<nat, TaskMeta>
    decreases |log|
  {
    if |log| == 0 then tasks
    else
      var n := |log| - 1;
      var before := Replay(tasks, log[..n], saved);
      if log[n].ExecutionResult? && saved(n) then Applied(before, log[n].task.id, log[n].result) else before
  }

  lemma ReplayAppend(tasks: map<nat, TaskMeta>, log: seq<Request>, r: Request, saved: nat -> bool)
    ensures Replay(tasks, log + [r], saved) ==
            if r.ExecutionResult? && saved(|log|) then Applied(Replay(tasks, log, saved), r.task.id, r.result)
            else Replay(tasks, log, saved)
  {
    assert (log + [r])[..|log|] == log;
  }

  /** The saved results of one task, in the order they were consumed. */
  function ResultsFor(log: seq<Request>, id: nat, saved: nat -> bool): seq<TaskResult>
    decreases |log|
  {
    if |log| == 0 then []
    else
      var n := |log| - 1;
      ResultsFor(log[..n], id, saved) +
      (if log[n].ExecutionResult? && log[n].task.id == id && saved(n) then [log[n].result] else [])
  }

  /** One task after a series of results. */
  function Fold(meta: TaskMeta, results: seq<TaskResult>): TaskMeta
    decreases |results|
  {
    if |results| == 0 then meta
    else ApplyResult(Fold(meta, results[..|results| - 1]), results[|results| - 1])
  }

  lemma FoldAppend(meta: TaskMeta, results: seq<TaskResult>, r: TaskResult)
    ensures Fold(meta, results + [r]) == ApplyResult(Fold(meta, results), r)
  {
    assert (results + [r])[..|results|] == results;
  }

  /** Each task sees its own results and nothing else: what the updater makes of the table
      is, task by task, the fold of that task's results in order. */
  lemma {:induction false} ReplayIsFold(tasks: map<nat, TaskMeta>, log: seq<Request>, saved: nat -> bool, id: nat)
    ensures id in Replay(tasks, log, saved) <==> id in tasks
    ensures id in tasks ==> Replay(tasks, log, saved)[id] == Fold(tasks[id], ResultsFor(log, id, saved))
    decreases |log|
  {
    if |log| > 0 {
      var n := |log| - 1;
      ReplayIsFold(tasks, log[..n], saved, id);
      var before := ResultsFor(log[..n], id, saved);
      if log[n].ExecutionResult? && log[n].task.id == id && saved(n) {
        assert ResultsFor(log, id, saved) == before + [log[n].result];
        if id in tasks {
          FoldAppend(tasks[id], before, log[n].result);
        }
      } else {
        assert ResultsFor(log, id, saved) == before;
      }
    }
  }

  /** When every update is saved, the results of a task are all those in the log. */
  lemma {:induction false} ResultsCount(log: seq<Request>, id: nat, saved: nat -> bool)
    requires forall a: nat :: a < |log| ==> saved(a)
    ensures |ResultsFor(log, id, saved)| == Sum(log, ResultOfId(id))
    decreases |log|
  {
    if |log| > 0 {
      var n := |log| - 1;
      ResultsCount(log[..n], id, saved);
      SumAppend(log[..n], log[n], ResultOfId(id));
      assert log[..n] + [log[n]] == log;
    }
  }

  class TaskStatusUpdater {
    const processorNum: nat
    const store: TaskStore
    var queue: seq<Request>
    var log: seq<Request>
    var pills: nat
    var stopped: bool

    constructor (store: TaskStore, processorNum: nat)
      ensures this.store == store && this.processorNum == processorNum
      ensures queue == [] && log == [] && pills == 0 && !stopped
    {
      this.store, this.processorNum := store, processorNum;
      queue, log, pills, stopped := [], [], 0, false;
    }

    /** A request is queued for a running updater; one sent to a stopped updater is lost. */
    method Queue(r: Request)
      requires stopped || |queue| < UPDATER_CAP
      modifies this
      ensures queue == if old(stopped) then old(queue) else old(queue) + [r]
      ensures log == old(log) && pills == old(pills) && stopped == old(stopped)
    {
      if !stopped {
        queue := queue + [r];
      }
    }

    /** The receive loop, as far as the requests at hand take it: each request is consumed
        once, in order, and its update tried once, and the loop is left exactly on the
        pill that makes `processorNum`. `base` is the table the updater began with. */
    method Run(saved: nat -> bool, ghost base: map<nat, TaskMeta>)
      requires !stopped && pills == Sum(log, IsPill)
      requires pills < processorNum
      requires store.tasks == Replay(base, log, saved)
      modifies this, store
      ensures log + queue == old(log) + old(queue)
      ensures old(log) <= log
      ensures pills == Sum(log, IsPill)
      ensures stopped <==> pills == processorNum
      ensures stopped ==> log[|log| - 1].Pill? && Sum(log[..|log| - 1], IsPill) == processorNum - 1
      ensures !stopped ==> queue == []
      ensures store.tasks == Replay(base, log, saved)
    {
      while !stopped && queue != []
        invariant log + queue == old(log) + old(queue)
        invariant old(log) <= log
        invariant pills == Sum(log, IsPill) <= processorNum
        invariant stopped <==> pills == processorNum
        invariant stopped ==> |log| > 0 && log[|log| - 1].Pill? && Sum(log[..|log| - 1], IsPill) == processorNum - 1
        invariant store.tasks == Replay(base, log, saved)
        decreases |queue|
      {
        SumAppend(log, queue[0], IsPill);
        assert (log + [queue[0]])[..|log|] == log;
        ReplayAppend(base, log, queue[0], saved);
        ConsumeOne(saved(|log|));
      }
    }

    /** One turn of the receive loop. `saved` says whether the storage works. */
    method ConsumeOne(saved: bool)
      requires !stopped && queue != []
      modifies this, store
      ensures log == old(log) + [old(queue)[0]] && queue == old(queue)[1..]
      ensures pills == old(pills) + IsPill(old(queue)[0])
      ensures stopped <==> old(queue)[0].Pill? && pills == processorNum
      ensures store.tasks == if old(queue)[0].ExecutionResult? && saved
                             then Applied(old(store.tasks), old(queue)[0].task.id, old(queue)[0].result)
                             else old(store.tasks)
    {
      var r := queue[0];
      queue := queue[1..];
      log := log + [r];
      match r {
        case Pill =>
          pills := pills + 1;
          if pills == processorNum {
            stopped := true;
          }
        case Heartbeat(_, _) =>
        case ExecutionResult(_, _, task, result) =>
          var ok := store.UpdateExecutionStatus(task.id, result, saved);
      }
    }
  }

  // ----- end to end

  function SentId(s: State, q: nat, i: nat): nat
    requires q < |s.procs| && i < |s.procs[q].sent|
  {
    s.procs[q].sent[i].id
  }

  /** End to end: once the updater has stopped, a stored task is the fold of its results,
      and when the storage worked there is one result for each time the task was sent.
      A task that is retried within the run is sent once for every attempt. */
  lemma SentTaskApplied(s0: State, steps: seq<Step>, tasks: map<nat, TaskMeta>, saved: nat -> bool, id: nat)
    requires Init(s0) && IsRun(s0, steps) && End(s0, steps).stopped
    requires id in tasks
    ensures var s := End(s0, steps);
            && id in Replay(tasks, s.log, saved)
            && Replay(tasks, s.log, saved)[id] == Fold(tasks[id], ResultsFor(s.log, id, saved))
            && ((forall a: nat :: a < |s.log| ==> saved(a)) ==> |ResultsFor(s.log, id, saved)| == TimesSent(s, id))
  {
    var s := End(s0, steps);
    ReplayIsFold(tasks, s.log, saved, id);
    ResultsMatchSends(s0, steps, id);
    if forall a: nat :: a < |s.log| ==> saved(a) {
      ResultsCount(s.log, id, saved);
    }
  }

  ghost predicate ResultFor(log: seq<Request>, a: nat, id: nat) {
    a < |log| && log[a].ExecutionResult? && log[a].task.id == id
  }

  /** Each result of an id is that of one position the id was sent at, and each such
      position has one: the results and the sends correspond one to one. */
  lemma ResultsAreSends(s0: State, steps: seq<Step>, id: nat, a: nat, b: nat)
    requires Init(s0) && IsRun(s0, steps)
    requires ResultFor(End(s0, steps).log, a, id) && ResultFor(End(s0, steps).log, b, id)
    ensures var s := End(s0, steps);
            var r, t := s.log[a], s.log[b];
            && r.q < |s.procs| && r.i < |s.procs[r.q].sent| && SentId(s, r.q, r.i) == id
            && ((r.q, r.i) == (t.q, t.i) ==> a == b)
  {
    var s := End(s0, steps);
    assert Hist(s)[a] == s.log[a] && Hist(s)[b] == s.log[b];
    NothingInvented(s0, steps, a);
    if (s.log[a].q, s.log[a].i) == (s.log[b].q, s.log[b].i) {
      HeartbeatsFirst(s0, steps, s.log[a].q, s.log[a].i, a, b);
    }
  }

  lemma {:induction false} NoResults(log: seq<Request>, id: nat, saved: nat -> bool)
    requires forall b: nat :: !ResultFor(log, b, id)
    ensures ResultsFor(log, id, saved) == []
    decreases |log|
  {
    if |log| > 0 {
      var n := |log| - 1;
      assert !ResultFor(log, n, id);
      forall b: nat
        ensures !ResultFor(log[..n], b, id)
      {
        assert !ResultFor(log, b, id);
      }
      NoResults(log[..n], id, saved);
    }
  }

  lemma {:induction false} ResultsAreLogged(log: seq<Request>, id: nat, saved: nat -> bool, k: nat)
    requires k < |ResultsFor(log, id, saved)|
    ensures exists a: nat :: ResultFor(log, a, id) && saved(a) && log[a].result == ResultsFor(log, id, saved)[k]
    decreases |log|
  {
    var n := |log| - 1;
    if k < |ResultsFor(log[..n], id, saved)| {
      ResultsAreLogged(log[..n], id, saved, k);
      var a: nat :| ResultFor(log[..n], a, id) && saved(a) && log[..n][a].result == ResultsFor(log[..n], id, saved)[k];
      assert ResultFor(log, a, id);
    } else {
      assert ResultFor(log, n, id);
    }
  }

  /** In particular a task that was sent once is stored as its one result leaves it. */
  lemma SentOnceApplied(s0: State, steps: seq<Step>, tasks: map<nat, TaskMeta>, saved: nat -> bool, id: nat)
    requires Init(s0) && IsRun(s0, steps) && End(s0, steps).stopped
    requires id in tasks && TimesSent(End(s0, steps), id) == 1
    requires forall a: nat :: a < |End(s0, steps).log| ==> saved(a)
    ensures var s := End(s0, steps);
            && id in Replay(tasks, s.log, saved)
            && exists a: nat :: ResultFor(s.log, a, id) &&
                 Replay(tasks, s.log, saved)[id] == ApplyResult(tasks[id], s.log[a].result)
  {
    var s := End(s0, steps);
    SentTaskApplied(s0, steps, tasks, saved, id);
    ResultsAreLogged(s.log, id, saved, 0);
    var results := ResultsFor(s.log, id, saved);
    assert results == [] + [results[0]];
    FoldAppend(tasks[id], [], results[0]);
  }

  /** A task that was not sent is not touched by the updater, at any point of a run. */
  lemma UnsentTaskUntouched(s0: State, steps: seq<Step>, tasks: map<nat, TaskMeta>, saved: nat -> bool, id: nat)
    requires Init(s0) && IsRun(s0, steps) && id in tasks
    requires forall r: nat, j: nat :: r < |End(s0, steps).procs| && j < |End(s0, steps).procs[r].sent| ==>
               SentId(End(s0, steps), r, j) != id
    ensures id in Replay(tasks, End(s0, steps).log, saved)
    ensures Replay(tasks, End(s0, steps).log, saved)[id] == tasks[id]
  {
    var s := End(s0, steps);
    forall b: nat
      ensures !ResultFor(s.log, b, id)
    {
      if ResultFor(s.log, b, id) {
        assert Hist(s)[b] == s.log[b];
        NothingInvented(s0, steps, b);
        var sent := SentId(s, s.log[b].q, s.log[b].i);
      }
    }
    NoResults(s.log, id, saved);
    ReplayIsFold(tasks, s.log, saved, id);
  }
}
