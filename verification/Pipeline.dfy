/** The task pipeline (src/modules/scheduler/{flow,processor,updater}.rs) as steps over
    bounded FIFO queues. One flow feeds N processors; every processor starts executions
    under its semaphore; all of them report to one updater, which stops after N pills.

    Queues are named by their index; an index of N or more is a queue nobody
    registered. Execution i of processor q runs the i-th task that processor received. */
module Pipeline {
  import opened Tasks

  const PROCESSOR_CAP: nat := 200
  const UPDATER_CAP: nat := 100

  datatype Package = PoisonPill | Work(task: TaskMeta)

  datatype Request =
    | Pill
    | Heartbeat(q: nat, i: nat)
    | ExecutionResult(q: nat, i: nat, task: TaskMeta, result: TaskResult)

  /** Where a spawned execution is. It holds its permit from the start until `Reported`
      is left; `at` is the position its result took among everything ever queued. */
  datatype Phase =
    | InHandler
    | Beating
    | Reporting(result: TaskResult)
    | Reported(at: nat)
    | Released(at: nat)
    | Finished(at: nat)

  datatype Exec = Exec(task: TaskMeta, phase: Phase)

  /** Where a processor's receive loop is: waiting for a package, waiting for a permit,
      awaiting the handles in progress, or gone. */
  datatype Pc = Receiving | Holding(task: TaskMeta) | Draining | Exited

  datatype Proc = Proc(limit: nat, sent: seq<TaskMeta>, chan: seq<Package>, pc: Pc,
                       permits: nat, execs: seq<Exec>, handles: seq<nat>)

  datatype Flow = Idle | Sending(todo: seq<(nat, TaskMeta)>) | Poisoning(left: seq<nat>) | Halted

  datatype State = State(flow: Flow, procs: seq<Proc>, queue: seq<Request>, log: seq<Request>,
                         pills: nat, stopped: bool)

  datatype Step =
    // the flow
    | Fetch(batch: seq<(nat, TaskMeta)>)
    | Send
    | BatchSent
    | Shutdown(order: seq<nat>)
    | SendPill
    | Halt
    // a processor's receive loop
    | Receive(q: nat)
    | ChannelClosed(q: nat)
    | Start(q: nat)
    | Join(q: nat)
    | Exit(q: nat)
    // an execution
    | Tick(q: nat, i: nat)
    | Beat(q: nat, i: nat)
    | Complete(q: nat, i: nat, result: TaskResult)
    | Report(q: nat, i: nat)
    | Release(q: nat, i: nat)
    | Finish(q: nat, i: nat)
    // the updater
    | Consume
    | SendersGone

  predicate IsFlowStep(step: Step) {
    step.Fetch? || step.Send? || step.BatchSent? || step.Shutdown? || step.SendPill? || step.Halt?
  }

  predicate IsLoopStep(step: Step) {
    step.Receive? || step.ChannelClosed? || step.Start? || step.Join? || step.Exit?
  }

  predicate IsExecStep(step: Step) {
    step.Tick? || step.Beat? || step.Complete? || step.Report? || step.Release? || step.Finish?
  }

  // ----- building blocks

  predicate CanDeliver(p: Proc) {
    p.pc.Exited? || |p.chan| < PROCESSOR_CAP
  }

  /** A send to a processor that has left its loop fails and is only logged. */
  function Deliver(p: Proc, package: Package): Proc {
    if p.pc.Exited? then p else p.(chan := p.chan + [package])
  }

  predicate CanPush(s: State) {
    s.stopped || |s.queue| < UPDATER_CAP
  }

  /** A send to an updater that has stopped fails and is only logged. */
  function Push(s: State, r: Request): State {
    if s.stopped then s else s.(queue := s.queue + [r])
  }

  function SetProc(s: State, q: nat, p: Proc): State
    requires q < |s.procs|
  {
    s.(procs := s.procs[q := p])
  }

  function SetPhase(p: Proc, i: nat, phase: Phase): Proc
    requires i < |p.execs|
  {
    p.(execs := p.execs[i := p.execs[i].(phase := phase)])
  }

  /** The part of the fetched batch that is still to be sent. */
  function Todo(flow: Flow): seq<(nat, TaskMeta)> {
    if flow.Sending? then flow.todo else []
  }

  /** Everything ever queued for the updater, in order. */
  function Hist(s: State): seq<Request> {
    s.log + s.queue
  }

  function Retain(handles: seq<nat>, execs: seq<Exec>): (kept: seq<nat>)
    requires forall h :: h in handles ==> h < |execs|
    ensures |kept| <= |handles|
    ensures forall h :: h in kept <==> h in handles && !execs[h].phase.Finished?
  {
    if |handles| == 0 then []
    else
      assert handles[0] in handles;
      assert forall h :: h in handles[1..] ==> h in handles;
      if execs[handles[0]].phase.Finished? then Retain(handles[1..], execs)
      else [handles[0]] + Retain(handles[1..], execs)
  }

  /** The receive loop takes the next package. */
  function Received(p: Proc): Proc
    requires p.chan != []
  {
    var pc := match p.chan[0] case PoisonPill => Draining case Work(task) => Holding(task);
    p.(chan := p.chan[1..], pc := pc)
  }

  /** The task in hand gets a permit and is spawned; finished handles are dropped. */
  function Spawned(p: Proc): Proc
    requires p.pc.Holding? && p.permits > 0
    requires forall h :: h in p.handles ==> h < |p.execs|
  {
    p.(pc := Receiving, permits := p.permits - 1,
       execs := p.execs + [Exec(p.pc.task, InHandler)],
       handles := Retain(p.handles, p.execs) + [|p.execs|])
  }

  function Joined(p: Proc): Proc
    requires p.handles != []
  {
    p.(handles := p.handles[1..])
  }

  predicate IsProc(s: State, q: nat) {
    q < |s.procs|
  }

  predicate IsExec(s: State, q: nat, i: nat) {
    q < |s.procs| && i < |s.procs[q].execs|
  }

  function PhaseOf(s: State, q: nat, i: nat): Phase
    requires IsExec(s, q, i)
  {
    s.procs[q].execs[i].phase
  }

  predicate AllDone(p: Proc) {
    p.pc.Exited? && forall e :: e in p.execs ==> e.phase.Finished?
  }

  /** A permutation of the processors: the order a concurrent map is iterated in. */
  ghost predicate IsOrder(order: seq<nat>, n: nat) {
    && (forall a, b :: 0 <= a < b < |order| ==> order[a] != order[b])
    && (forall q: nat :: q < n <==> q in order)
  }

  // ----- the steps

  ghost predicate Enabled(s: State, step: Step) {
    match step
    case Fetch(_) => s.flow.Idle?
    case Send => s.flow.Sending? && s.flow.todo != [] &&
                 (IsProc(s, s.flow.todo[0].0) ==> CanDeliver(s.procs[s.flow.todo[0].0]))
    case BatchSent => s.flow.Sending? && s.flow.todo == []
    case Shutdown(order) => s.flow.Idle? && IsOrder(order, |s.procs|)
    case SendPill => s.flow.Poisoning? && s.flow.left != [] &&
                     IsProc(s, s.flow.left[0]) && CanDeliver(s.procs[s.flow.left[0]])
    case Halt => s.flow.Poisoning? && s.flow.left == []
    case Receive(q) => IsProc(s, q) && s.procs[q].pc.Receiving? && s.procs[q].chan != []
    case ChannelClosed(q) => IsProc(s, q) && s.procs[q].pc.Receiving? && s.procs[q].chan == [] && s.flow.Halted?
    case Start(q) => IsProc(s, q) && s.procs[q].pc.Holding? && s.procs[q].permits > 0 &&
                     (forall h :: h in s.procs[q].handles ==> h < |s.procs[q].execs|)
    case Join(q) => IsProc(s, q) && s.procs[q].pc.Draining? && s.procs[q].handles != [] &&
                    IsExec(s, q, s.procs[q].handles[0]) && PhaseOf(s, q, s.procs[q].handles[0]).Finished?
    case Exit(q) => IsProc(s, q) && s.procs[q].pc.Draining? && s.procs[q].handles == [] && CanPush(s)
    case Tick(q, i) => IsExec(s, q, i) && PhaseOf(s, q, i).InHandler?
    case Beat(q, i) => IsExec(s, q, i) && PhaseOf(s, q, i).Beating? && CanPush(s)
    case Complete(q, i, _) => IsExec(s, q, i) && PhaseOf(s, q, i).InHandler?
    case Report(q, i) => IsExec(s, q, i) && PhaseOf(s, q, i).Reporting? && CanPush(s)
    case Release(q, i) => IsExec(s, q, i) && PhaseOf(s, q, i).Reported?
    case Finish(q, i) => IsExec(s, q, i) && PhaseOf(s, q, i).Released?
    case Consume => !s.stopped && s.queue != []
    case SendersGone => !s.stopped && s.queue == [] && forall p :: p in s.procs ==> AllDone(p)
  }

  ghost function Apply(s: State, step: Step): State
    requires Enabled(s, step)
  {
    match step
    case Fetch(batch) => s.(flow := Sending(batch))
    case Send =>
      var (q, task) := s.flow.todo[0];
      var s' := s.(flow := Sending(s.flow.todo[1..]));
      if IsProc(s, q) then
        SetProc(s', q, Deliver(s.procs[q], Work(task)).(sent := s.procs[q].sent + [task]))
      else s'
    case BatchSent => s.(flow := Idle)
    case Shutdown(order) => s.(flow := Poisoning(order))
    case SendPill =>
      var q := s.flow.left[0];
      SetProc(s.(flow := Poisoning(s.flow.left[1..])), q, Deliver(s.procs[q], PoisonPill))
    case Halt => s.(flow := Halted)
    case Receive(q) => SetProc(s, q, Received(s.procs[q]))
    case ChannelClosed(q) => SetProc(s, q, s.procs[q].(pc := Exited))
    case Start(q) => SetProc(s, q, Spawned(s.procs[q]))
    case Join(q) => SetProc(s, q, Joined(s.procs[q]))
    case Exit(q) => Push(SetProc(s, q, s.procs[q].(pc := Exited)), Pill)
    case Tick(q, i) => SetProc(s, q, SetPhase(s.procs[q], i, Beating))
    case Beat(q, i) => Push(SetProc(s, q, SetPhase(s.procs[q], i, InHandler)), Heartbeat(q, i))
    case Complete(q, i, result) => SetProc(s, q, SetPhase(s.procs[q], i, Reporting(result)))
    case Report(q, i) =>
      var e := s.procs[q].execs[i];
      Push(SetProc(s, q, SetPhase(s.procs[q], i, Reported(|Hist(s)|))),
           ExecutionResult(q, i, e.task, e.phase.result))
    case Release(q, i) =>
      var p := SetPhase(s.procs[q], i, Released(PhaseOf(s, q, i).at));
      SetProc(s, q, p.(permits := p.permits + 1))
    case Finish(q, i) => SetProc(s, q, SetPhase(s.procs[q], i, Finished(PhaseOf(s, q, i).at)))
    case Consume =>
      var r := s.queue[0];
      var pills := if r.Pill? then s.pills + 1 else s.pills;
      s.(queue := s.queue[1..], log := s.log + [r], pills := pills,
         stopped := r.Pill? && pills == |s.procs|)
    case SendersGone => s.(stopped := true)
  }

  predicate Fresh(p: Proc) {
    && p.limit >= 1 && p.permits == p.limit
    && p.sent == [] && p.chan == [] && p.pc.Receiving? && p.execs == [] && p.handles == []
  }

  predicate Init(s: State) {
    && s.flow.Idle?
    && (forall p :: p in s.procs ==> Fresh(p))
    && s.queue == [] && s.log == [] && s.pills == 0 && !s.stopped
  }

  /** `steps` can be taken one after the other from s; `End` is where they lead. */
  ghost predicate IsRun(s: State, steps: seq<Step>)
    decreases |steps|
  {
    |steps| > 0 ==> Enabled(s, steps[0]) && IsRun(Apply(s, steps[0]), steps[1..])
  }

  ghost function End(s: State, steps: seq<Step>): State
    requires IsRun(s, steps)
    decreases |steps|
  {
    if |steps| == 0 then s else End(Apply(s, steps[0]), steps[1..])
  }
}
