/** The claims in the pipeline, weighed where they are: in the fetched batch, in a channel, in
    a processor's hand, being executed, or as a result in the updater's queue. No step makes
    or loses one, but a fetch, a send to a queue nobody serves, and the updater. */
module PipelineWeights {
  import opened Sequences
  import opened Tasks
  import opened Pipeline
  import opened PipelineInvariant

  function OfTodo(f: TaskMeta -> nat): ((nat, TaskMeta)) -> nat {
    (x: (nat, TaskMeta)) => f(x.1)
  }

  function OfPackage(f: TaskMeta -> nat): Package -> nat {
    (x: Package) => if x.Work? then f(x.task) else 0
  }

  function Unreported(e: Exec, f: TaskMeta -> nat): nat {
    if Mark(e.phase).Some? then 0 else f(e.task)
  }

  function OfExec(f: TaskMeta -> nat): Exec -> nat {
    (e: Exec) => Unreported(e, f)
  }

  function OfRequest(f: TaskMeta -> nat): Request -> nat {
    (r: Request) => if r.ExecutionResult? then f(r.task) else 0
  }

  function OfHand(pc: Pc, f: TaskMeta -> nat): nat {
    if pc.Holding? then f(pc.task) else 0
  }

  ghost function OfProc(f: TaskMeta -> nat): Proc -> nat {
    (p: Proc) => Sum(p.chan, OfPackage(f)) + OfHand(p.pc, f) + Sum(p.execs, OfExec(f))
  }

  ghost function Weight(s: State, f: TaskMeta -> nat): nat {
    Sum(Todo(s.flow), OfTodo(f)) + Sum(s.procs, OfProc(f)) + Sum(s.queue, OfRequest(f))
  }

  lemma ProcWeight(s: State, q: nat, p: Proc, f: TaskMeta -> nat)
    requires q < |s.procs|
    ensures Weight(SetProc(s, q, p), f) + OfProc(f)(s.procs[q]) == Weight(s, f) + OfProc(f)(p)
  {
    SumUpdate(s.procs, q, p, OfProc(f));
  }

  lemma PhaseWeight(s: State, q: nat, i: nat, phase: Phase, f: TaskMeta -> nat)
    requires IsExec(s, q, i)
    ensures Weight(SetProc(s, q, SetPhase(s.procs[q], i, phase)), f) + OfExec(f)(s.procs[q].execs[i]) ==
            Weight(s, f) + OfExec(f)(s.procs[q].execs[i].(phase := phase))
  {
    var p := SetPhase(s.procs[q], i, phase);
    SumUpdate(s.procs[q].execs, i, p.execs[i], OfExec(f));
    ProcWeight(s, q, p, f);
  }

  lemma PushWeight(s: State, r: Request, f: TaskMeta -> nat)
    requires !s.stopped || OfRequest(f)(r) == 0
    ensures Weight(Push(s, r), f) == Weight(s, f) + OfRequest(f)(r)
  {
    SumAppend(s.queue, r, OfRequest(f));
  }

  /** An execution that moves on without reporting. */
  lemma QuietWeight(s: State, q: nat, i: nat, phase: Phase, f: TaskMeta -> nat)
    requires IsExec(s, q, i) && Mark(phase).Some? == Mark(PhaseOf(s, q, i)).Some?
    ensures Weight(SetProc(s, q, SetPhase(s.procs[q], i, phase)), f) == Weight(s, f)
  {
    PhaseWeight(s, q, i, phase, f);
  }

  lemma BeatWeight(s: State, q: nat, i: nat, f: TaskMeta -> nat)
    requires Enabled(s, Beat(q, i))
    ensures Weight(Apply(s, Beat(q, i)), f) == Weight(s, f)
  {
    QuietWeight(s, q, i, InHandler, f);
    PushWeight(SetProc(s, q, SetPhase(s.procs[q], i, InHandler)), Heartbeat(q, i), f);
  }

  lemma ReportWeight(s: State, q: nat, i: nat, f: TaskMeta -> nat)
    requires !s.stopped && Enabled(s, Report(q, i))
    ensures Weight(Apply(s, Report(q, i)), f) == Weight(s, f)
  {
    var e, phase := s.procs[q].execs[i], Reported(|Hist(s)|);
    PhaseWeight(s, q, i, phase, f);
    PushWeight(SetProc(s, q, SetPhase(s.procs[q], i, phase)), ExecutionResult(q, i, e.task, e.phase.result), f);
  }

  lemma ReleaseWeight(s: State, q: nat, i: nat, f: TaskMeta -> nat)
    requires Enabled(s, Release(q, i))
    ensures Weight(Apply(s, Release(q, i)), f) == Weight(s, f)
  {
    var e := s.procs[q].execs[i];
    SumUpdate(s.procs[q].execs, i, e.(phase := Released(e.phase.at)), OfExec(f));
    ProcWeight(s, q, Apply(s, Release(q, i)).procs[q], f);
  }

  lemma ExecWeight(s: State, step: Step, f: TaskMeta -> nat)
    requires Inv(s) && Enabled(s, step) && IsExecStep(step)
    ensures Weight(Apply(s, step), f) == Weight(s, f)
  {
    match step
    case Tick(q, i) => QuietWeight(s, q, i, Beating, f);
    case Beat(q, i) => BeatWeight(s, q, i, f);
    case Complete(q, i, result) => QuietWeight(s, q, i, Reporting(result), f);
    case Report(q, i) =>
      UpdaterRuns(s, q, i);
      ReportWeight(s, q, i, f);
    case Release(q, i) => ReleaseWeight(s, q, i, f);
    case Finish(q, i) => QuietWeight(s, q, i, Finished(PhaseOf(s, q, i).at), f);
  }

  lemma LoopWeight(s: State, step: Step, f: TaskMeta -> nat)
    requires Enabled(s, step) && IsLoopStep(step)
    ensures Weight(Apply(s, step), f) == Weight(s, f)
  {
    var q := step.q;
    var p := s.procs[q];
    ProcWeight(s, q, Apply(s, step).procs[q], f);
    if step.Receive? {
      SumPop(p.chan, OfPackage(f));
    } else if step.Start? {
      SumAppend(p.execs, Exec(p.pc.task, InHandler), OfExec(f));
    } else if step.Exit? {
      PushWeight(SetProc(s, q, p.(pc := Exited)), Pill, f);
    }
  }

  /** A send moves a claim into the channel, or drops it when nobody serves the queue. */
  lemma SendWeight(s: State, f: TaskMeta -> nat)
    requires Inv(s) && Enabled(s, Send)
    ensures var head := s.flow.todo[0];
            Weight(Apply(s, Send), f) + (if IsProc(s, head.0) then 0 else f(head.1)) == Weight(s, f)
  {
    var (q, task) := s.flow.todo[0];
    SumPop(s.flow.todo, OfTodo(f));
    if IsProc(s, q) {
      assert ProcInv(s.procs[q], PillSent(s.flow, q));
      SumAppend(s.procs[q].chan, Work(task), OfPackage(f));
      ProcWeight(s, q, Deliver(s.procs[q], Work(task)).(sent := s.procs[q].sent + [task]), f);
    }
  }

  lemma FlowWeight(s: State, step: Step, f: TaskMeta -> nat)
    requires Enabled(s, step) && IsFlowStep(step) && !step.Fetch? && !step.Send?
    ensures Weight(Apply(s, step), f) == Weight(s, f)
  {
    if step.SendPill? {
      var q := s.flow.left[0];
      SumAppend(s.procs[q].chan, PoisonPill, OfPackage(f));
      ProcWeight(s, q, Deliver(s.procs[q], PoisonPill), f);
    }
  }

  lemma StepKeepsWeight(s: State, step: Step, f: TaskMeta -> nat)
    requires Inv(s) && Enabled(s, step) && !step.Fetch? && !step.Send? && !step.Consume?
    ensures Weight(Apply(s, step), f) == Weight(s, f)
  {
    if IsExecStep(step) {
      ExecWeight(s, step, f);
    } else if IsLoopStep(step) {
      LoopWeight(s, step, f);
    } else if IsFlowStep(step) {
      FlowWeight(s, step, f);
    }
  }

  lemma FetchWeight(s: State, batch: seq<(nat, TaskMeta)>, f: TaskMeta -> nat)
    requires Enabled(s, Fetch(batch))
    ensures Weight(Apply(s, Fetch(batch)), f) == Weight(s, f) + Sum(batch, OfTodo(f))
  {
  }

  lemma ConsumeWeight(s: State, f: TaskMeta -> nat)
    requires Enabled(s, Consume)
    ensures Weight(Apply(s, Consume), f) + OfRequest(f)(s.queue[0]) == Weight(s, f)
  {
    SumPop(s.queue, OfRequest(f));
  }
}
