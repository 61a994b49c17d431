/** The task store and the pipeline in one run: tasks are added, claimed by a fetch,
    executed, recorded, stopped, removed, retried by hand and cleaned up, and the process
    is restarted (src/modules/scheduler/nativedb/meta.rs and the pipeline around it). */
module Scheduler {
  import opened Wrappers
  import opened Tasks
  import opened Pipeline
  import opened PipelineInvariant

  /** What happened to a task in the store, oldest first. */
  datatype Event = Added(id: nat) | Recorded(id: nat, ok: bool) | Rewound(id: nat)

  /** `route` gives each registered queue its processor. `used` are the ids ever given
      out; `dropped` and `unsaved` those whose last claim ended without a recorded result,
      because no processor serves their queue or because the update failed; `halted` those
      stopped or removed by hand since their last claim or retry; `marked` those a clean-up
      has selected and not deleted yet. */
  datatype World = World(pipe: State, tasks: map<nat, TaskMeta>, route: map<string, nat>, used: set<nat>,
                         dropped: set<nat>, unsaved: set<nat>, halted: set<nat>, marked: set<nat>,
                         events: seq<Event>)

  /** The batch of `FetchDue` is what a fetch claims, grouped by queue in whatever order. */
  datatype Action =
    | AddTask(meta: TaskMeta)
    | SetStatus(id: nat, status: TaskStatus)
    | RetryTask(id: nat, now: int)
    | CleanScan(ids: set<nat>)
    | CleanTask(id: nat)
    | FetchDue(now: int, batch: seq<TaskMeta>)
    | HandlerEnds(q: nat, i: nat, error: Option<string>, now: int)
    | Record(saved: bool)
    | Restart
    | Other(step: Step)

  predicate Cleanable(status: TaskStatus) {
    status.Removed? || status.Success? || status.Failed? || status.Stopped?
  }

  // ----- the steps

  function QueueIndex(w: World, name: string): nat {
    if name in w.route then w.route[name] else |w.pipe.procs|
  }

  function Routed(w: World, batch: seq<TaskMeta>): seq<(nat, TaskMeta)> {
    seq(|batch|, k requires 0 <= k < |batch| => (QueueIndex(w, batch[k].queueName), batch[k]))
  }

  ghost predicate Possible(w: World, a: Action) {
    match a
    case AddTask(meta) => meta.id !in w.used && meta.status.Scheduled? && meta.retryCount.None?
    case SetStatus(id, status) => id in w.tasks && Halting(status)
    case RetryTask(id, _) => id in w.tasks && Retryable(w.tasks[id].status)
    case CleanScan(ids) => forall id :: id in ids ==> id in w.tasks && Cleanable(w.tasks[id].status)
    case CleanTask(id) => id in w.marked && id in w.tasks
    case FetchDue(now, batch) => w.pipe.flow.Idle? && IsDueBatch(w.tasks, batch, now)
    case HandlerEnds(q, i, _, _) => IsExec(w.pipe, q, i) && PhaseOf(w.pipe, q, i).InHandler?
    case Record(_) => Enabled(w.pipe, Consume)
    case Restart => true
    case Other(step) => Enabled(w.pipe, step) && !step.Fetch? && !step.Complete? && !step.Consume?
  }

  /** The pipeline's part of an action. */
  ghost function PipeAfter(w: World, a: Action): State
    requires Possible(w, a)
  {
    match a
    case FetchDue(_, batch) => Apply(w.pipe, Fetch(Routed(w, batch)))
    case HandlerEnds(q, i, error, now) =>
      Apply(w.pipe, Complete(q, i, ResultOf(w.pipe.procs[q].execs[i].task, error, now)))
    case Record(_) => Apply(w.pipe, Consume)
    case Restart => Restarted(w.pipe)
    case Other(step) => Apply(w.pipe, step)
    case _ => w.pipe
  }

  /** A new process: whatever was queued or running in the old one is gone. */
  function Restarted(s: State): State {
    State(Idle, seq(|s.procs|, q requires 0 <= q < |s.procs| => Renewed(s.procs[q])), [], [], 0, false)
  }

  function Renewed(p: Proc): Proc {
    Proc(p.limit, [], [], Receiving, p.limit, [], [])
  }

  function Recording(w: World, r: Request, saved: bool): World {
    if !r.ExecutionResult? || r.task.id !in w.tasks then w
    else if saved then
      w.(tasks := Applied(w.tasks, r.task.id, r.result),
         events := w.events + [Recorded(r.task.id, r.result.error.None?)])
    else w.(unsaved := w.unsaved + {r.task.id})
  }

  ghost function Act(w: World, a: Action): World
    requires Possible(w, a)
  {
    var w' := w.(pipe := PipeAfter(w, a));
    match a
    case AddTask(meta) =>
      w'.(tasks := w.tasks[meta.id := meta], used := w.used + {meta.id}, events := w.events + [Added(meta.id)])
    case SetStatus(id, status) => w'.(tasks := w.tasks[id := w.tasks[id].(status := status)], halted := w.halted + {id})
    case RetryTask(id, now) =>
      w'.(tasks := w.tasks[id := Rewind(w.tasks[id], now)], events := w.events + [Rewound(id)],
          dropped := w.dropped - {id}, unsaved := w.unsaved - {id}, halted := w.halted - {id})
    case CleanScan(ids) => w'.(marked := w.marked + ids)
    case CleanTask(id) => w'.(tasks := w.tasks - {id}, marked := w.marked - {id})
    case FetchDue(_, batch) => w'.(tasks := Claimed(w.tasks, Ids(batch)), halted := w.halted - Ids(batch))
    case HandlerEnds(_, _, _, _) => w'
    case Record(saved) => Recording(w', w.pipe.queue[0], saved)
    case Restart => w'.(tasks := RestoredAll(w.tasks), dropped := {}, unsaved := {}, marked := {})
    case Other(step) =>
      if step.Send? && !IsProc(w.pipe, w.pipe.flow.todo[0].0) then
        w'.(dropped := w.dropped + {w.pipe.flow.todo[0].1.id})
      else w'
  }

  ghost predicate Begin(w: World) {
    && Init(w.pipe)
    && w.tasks == map[] && w.used == {} && w.dropped == {} && w.unsaved == {}
    && w.halted == {} && w.marked == {} && w.events == []
    && (forall name :: name in w.route ==> w.route[name] < |w.pipe.procs|)
  }

  ghost predicate IsHistory(w: World, actions: seq<Action>)
    decreases |actions|
  {
    |actions| > 0 ==> Possible(w, actions[0]) && IsHistory(Act(w, actions[0]), actions[1..])
  }

  ghost function Final(w: World, actions: seq<Action>): World
    requires IsHistory(w, actions)
    decreases |actions|
  {
    if |actions| == 0 then w else Final(Act(w, actions[0]), actions[1..])
  }

  // ----- where tasks are in flight

  /** A claimed task is in the flow's batch, or at the position it was sent at until the
      updater has consumed the result of its execution. */
  datatype Place = Queued(k: nat) | Sent(q: nat, i: nat)

  predicate Done(s: State, q: nat, i: nat) {
    && q < |s.procs| && i < |s.procs[q].execs|
    && Mark(s.procs[q].execs[i].phase).Some?
    && Mark(s.procs[q].execs[i].phase).value < |s.log|
  }

  predicate Occupied(s: State, p: Place) {
    match p
    case Queued(k) => k < |Todo(s.flow)|
    case Sent(q, i) => q < |s.procs| && i < |s.procs[q].sent| && !Done(s, q, i)
  }

  function TaskAt(s: State, p: Place): TaskMeta
    requires Occupied(s, p)
  {
    match p
    case Queued(k) => Todo(s.flow)[k].1
    case Sent(q, i) => s.procs[q].sent[i]
  }

  predicate HasId(s: State, p: Place, id: nat) {
    Occupied(s, p) && TaskAt(s, p).id == id
  }

  ghost predicate InFlight(s: State, id: nat) {
    exists p :: HasId(s, p, id)
  }

  ghost predicate OnceFor(s: State, id: nat) {
    forall p, r :: HasId(s, p, id) && HasId(s, r, id) ==> p == r
  }

  /** No task is in flight at two places. */
  ghost predicate OnceInFlight(s: State) {
    forall id :: OnceFor(s, id)
  }

  // ----- counting by events

  /** Failed results recorded since the last success, manual retry or creation. */
  function FailuresSince(events: seq<Event>, id: nat): nat
    decreases |events|
  {
    if |events| == 0 then 0
    else
      var last := events[|events| - 1];
      if last.id != id then FailuresSince(events[..|events| - 1], id)
      else if last.Recorded? && !last.ok then FailuresSince(events[..|events| - 1], id) + 1
      else 0
  }

  /** Results recorded since the last manual retry or creation. */
  function RunsSince(events: seq<Event>, id: nat): nat
    decreases |events|
  {
    if |events| == 0 then 0
    else
      var last := events[|events| - 1];
      if last.id != id then RunsSince(events[..|events| - 1], id)
      else if last.Recorded? then RunsSince(events[..|events| - 1], id) + 1
      else 0
  }
}
