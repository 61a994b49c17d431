/** How many results a task id gets: as many as the times it was sent. */
module PipelineCounts {
  import opened Sequences
  import opened Tasks
  import opened Pipeline
  import opened PipelineInvariant
  import opened PipelineTheorems

  function ResultOfId(id: nat): Request -> nat {
    (r: Request) => if r.ExecutionResult? && r.task.id == id then 1 else 0
  }

  function ReportedOfId(id: nat): Exec -> nat {
    (e: Exec) => if Mark(e.phase).Some? && e.task.id == id then 1 else 0
  }

  function SentOfId(id: nat): TaskMeta -> nat {
    (task: TaskMeta) => if task.id == id then 1 else 0
  }

  ghost function ProcReported(id: nat): Proc -> nat {
    (p: Proc) => Sum(p.execs, ReportedOfId(id))
  }

  ghost function ProcSent(id: nat): Proc -> nat {
    (p: Proc) => Sum(p.sent, SentOfId(id))
  }

  /** How often tasks with this id were sent to registered queues. */
  ghost function TimesSent(s: State, id: nat): nat {
    Sum(s.procs, ProcSent(id))
  }

  /** The results ever queued for an id are those of the executions that have reported. */
  ghost predicate Counted(s: State, id: nat) {
    Sum(Hist(s), ResultOfId(id)) == Sum(s.procs, ProcReported(id))
  }

  lemma InitCounted(s: State, id: nat)
    requires Init(s)
    ensures Counted(s, id)
  {
    forall p | p in s.procs
      ensures ProcReported(id)(p) == 0
    {
      assert Fresh(p);
    }
    SumZero(s.procs, ProcReported(id));
  }

  /** Replacing a processor whose reported executions are as before. */
  lemma SameReports(s: State, q: nat, p: Proc, id: nat)
    requires q < |s.procs| && Counted(s, id)
    requires ProcReported(id)(p) == ProcReported(id)(s.procs[q])
    ensures Sum(s.procs[q := p], ProcReported(id)) == Sum(Hist(s), ResultOfId(id))
  {
    SumUpdate(s.procs, q, p, ProcReported(id));
  }

  lemma PhaseReports(p: Proc, i: nat, phase: Phase, id: nat)
    requires i < |p.execs| && Mark(phase).Some? == Mark(p.execs[i].phase).Some?
    ensures ProcReported(id)(SetPhase(p, i, phase)) == ProcReported(id)(p)
  {
    SumUpdate(p.execs, i, p.execs[i].(phase := phase), ReportedOfId(id));
  }

  lemma NotAResult(s: State, r: Request, id: nat)
    requires !r.ExecutionResult?
    ensures Sum(Hist(Push(s, r)), ResultOfId(id)) == Sum(Hist(s), ResultOfId(id))
  {
    if !s.stopped {
      SumAppend(Hist(s), r, ResultOfId(id));
      assert Hist(Push(s, r)) == Hist(s) + [r];
    }
  }

  lemma ReportCounted(s: State, q: nat, i: nat, id: nat)
    requires !s.stopped && Counted(s, id) && Enabled(s, Report(q, i))
    ensures Counted(Apply(s, Report(q, i)), id)
  {
    var e := s.procs[q].execs[i];
    var phase := Reported(|Hist(s)|);
    var r := ExecutionResult(q, i, e.task, e.phase.result);
    SumUpdate(s.procs[q].execs, i, e.(phase := phase), ReportedOfId(id));
    SumUpdate(s.procs, q, SetPhase(s.procs[q], i, phase), ProcReported(id));
    SumAppend(Hist(s), r, ResultOfId(id));
    assert Hist(Apply(s, Report(q, i))) == Hist(s) + [r];
  }

  /** An execution that moves on without reporting. */
  lemma PhaseCounted(s: State, q: nat, i: nat, phase: Phase, id: nat)
    requires Counted(s, id) && IsExec(s, q, i)
    requires Mark(phase).Some? == Mark(PhaseOf(s, q, i)).Some?
    ensures Counted(SetProc(s, q, SetPhase(s.procs[q], i, phase)), id)
  {
    PhaseReports(s.procs[q], i, phase, id);
    SameReports(s, q, SetPhase(s.procs[q], i, phase), id);
  }

  lemma BeatCounted(s: State, q: nat, i: nat, id: nat)
    requires Counted(s, id) && Enabled(s, Beat(q, i))
    ensures Counted(Apply(s, Beat(q, i)), id)
  {
    PhaseCounted(s, q, i, InHandler, id);
    NotAResult(SetProc(s, q, SetPhase(s.procs[q], i, InHandler)), Heartbeat(q, i), id);
  }

  lemma ReleaseCounted(s: State, q: nat, i: nat, id: nat)
    requires Counted(s, id) && Enabled(s, Release(q, i))
    ensures Counted(Apply(s, Release(q, i)), id)
  {
    PhaseReports(s.procs[q], i, Released(PhaseOf(s, q, i).at), id);
    SameReports(s, q, Apply(s, Release(q, i)).procs[q], id);
  }

  lemma LoopCounted(s: State, step: Step, id: nat)
    requires Inv(s) && Counted(s, id) && Enabled(s, step)
    requires IsLoopStep(step)
    ensures Counted(Apply(s, step), id)
  {
    var q := step.q;
    var p := Apply(s, step).procs[q];
    if step.Start? {
      SumAppend(s.procs[q].execs, Exec(s.procs[q].pc.task, InHandler), ReportedOfId(id));
    }
    SameReports(s, q, p, id);
    if step.Exit? {
      NotAResult(SetProc(s, q, p), Pill, id);
    }
  }

  lemma FlowCounted(s: State, step: Step, id: nat)
    requires Counted(s, id) && Enabled(s, step)
    requires IsFlowStep(step)
    ensures Counted(Apply(s, step), id)
  {
    var s' := Apply(s, step);
    if step.Send? && IsProc(s, s.flow.todo[0].0) {
      SameReports(s, s.flow.todo[0].0, s'.procs[s.flow.todo[0].0], id);
    } else if step.SendPill? {
      SameReports(s, s.flow.left[0], s'.procs[s.flow.left[0]], id);
    }
  }

  lemma ExecCounted(s: State, step: Step, id: nat)
    requires Inv(s) && Counted(s, id) && Enabled(s, step)
    requires IsExecStep(step)
    ensures Counted(Apply(s, step), id)
  {
    match step
    case Report(q, i) =>
      UpdaterRuns(s, q, i);
      ReportCounted(s, q, i, id);
    case Tick(q, i) => PhaseCounted(s, q, i, Beating, id);
    case Beat(q, i) => BeatCounted(s, q, i, id);
    case Complete(q, i, result) => PhaseCounted(s, q, i, Reporting(result), id);
    case Release(q, i) => ReleaseCounted(s, q, i, id);
    case Finish(q, i) => PhaseCounted(s, q, i, Finished(PhaseOf(s, q, i).at), id);
  }

  lemma UpdaterCounted(s: State, step: Step, id: nat)
    requires Counted(s, id) && Enabled(s, step)
    requires step.Consume? || step.SendersGone?
    ensures Counted(Apply(s, step), id)
  {
    assert Hist(Apply(s, step)) == Hist(s);
  }

  lemma StepCounted(s: State, step: Step, id: nat)
    requires Inv(s) && Counted(s, id) && Enabled(s, step)
    ensures Counted(Apply(s, step), id)
  {
    if IsExecStep(step) {
      ExecCounted(s, step, id);
    } else if IsLoopStep(step) {
      LoopCounted(s, step, id);
    } else if IsFlowStep(step) {
      FlowCounted(s, step, id);
    } else {
      UpdaterCounted(s, step, id);
    }
  }

  lemma {:induction false} RunCounted(s: State, steps: seq<Step>, id: nat)
    requires Inv(s) && Counted(s, id) && IsRun(s, steps)
    ensures Counted(End(s, steps), id)
    decreases |steps|
  {
    if |steps| > 0 {
      StepKeepsInv(s, steps[0]);
      StepCounted(s, steps[0], id);
      RunCounted(Apply(s, steps[0]), steps[1..], id);
    }
  }

  lemma {:induction false} ReportedAreStarted(execs: seq<Exec>, id: nat)
    requires forall e :: e in execs ==> Mark(e.phase).Some?
    ensures Sum(execs, ReportedOfId(id)) == Sum(Started(execs), SentOfId(id))
  {
    if |execs| > 0 {
      assert execs[0] in execs;
      assert forall e :: e in execs[1..] ==> e in execs;
      ReportedAreStarted(execs[1..], id);
      assert Started(execs)[1..] == Started(execs[1..]);
    }
  }

  lemma {:induction false} SumEqual(procs: seq<Proc>, v: Proc -> nat, w: Proc -> nat)
    requires forall p :: p in procs ==> v(p) == w(p)
    ensures Sum(procs, v) == Sum(procs, w)
  {
    if |procs| > 0 {
      assert procs[0] in procs;
      assert forall p :: p in procs[1..] ==> p in procs;
      SumEqual(procs[1..], v, w);
    }
  }

  /** By the time the updater stops, an id has had exactly as many results as it was sent. */
  lemma ResultsMatchSends(s0: State, steps: seq<Step>, id: nat)
    requires Init(s0) && IsRun(s0, steps) && End(s0, steps).stopped
    ensures Sum(End(s0, steps).log, ResultOfId(id)) == TimesSent(End(s0, steps), id)
  {
    var s := End(s0, steps);
    InitInv(s0);
    RunKeepsInv(s0, steps);
    InitCounted(s0, id);
    RunCounted(s0, steps, id);
    StoppedIsDrained(s);
    assert Hist(s) == s.log;
    forall p | p in s.procs
      ensures ProcReported(id)(p) == ProcSent(id)(p)
    {
      var q: nat :| q < |s.procs| && s.procs[q] == p;
      assert AllDone(s.procs[q]) && PillSent(s.flow, q);
      assert p.chan == [] && p.sent == Started(p.execs);
      ReportedAreStarted(p.execs, id);
    }
    SumEqual(s.procs, ProcReported(id), ProcSent(id));
  }
}
