/** What holds in every run of the pipeline. */
module PipelineTheorems {
  import opened Wrappers
  import opened Sequences
  import opened Tasks
  import opened Pipeline
  import opened PipelineInvariant

  ghost predicate ResultAt(h: seq<Request>, a: nat, q: nat, i: nat) {
    a < |h| && h[a].ExecutionResult? && h[a].q == q && h[a].i == i
  }

  ghost predicate HeartbeatAt(h: seq<Request>, a: nat, q: nat, i: nat) {
    a < |h| && h[a] == Heartbeat(q, i)
  }

  // ----- every reachable state

  /** Tasks are served in the order they were sent, none lost or invented: what was sent
      to a queue is what its processor started, then what it holds, then what still waits. */
  lemma ServedInOrder(s0: State, steps: seq<Step>, q: nat)
    requires Init(s0) && IsRun(s0, steps)
    requires q < |End(s0, steps).procs|
    ensures var p := End(s0, steps).procs[q];
            && p.sent == Started(p.execs) + InHand(p.pc) + Waiting(p.chan)
            && |p.chan| <= PROCESSOR_CAP
  {
    InitInv(s0);
    RunKeepsInv(s0, steps);
  }

  /** At most `limit` executions of a queue hold a permit, and one that no longer holds
      its permit has its result queued. */
  lemma PermitsBound(s0: State, steps: seq<Step>, q: nat)
    requires Init(s0) && IsRun(s0, steps)
    requires q < |s0.procs|
    ensures var s := End(s0, steps);
            q < |s.procs| &&
            var p := s.procs[q];
            && p.permits + Sum(p.execs, Holds) == s0.procs[q].limit
            && forall i: nat :: i < |p.execs| && Holds(p.execs[i]) == 0 ==>
                 ResultAt(Hist(s), Mark(p.execs[i].phase).value, q, i)
  {
    InitInv(s0);
    RunKeepsInv(s0, steps);
    ProcsFixed(s0, steps);
    var s := End(s0, steps);
    forall i: nat | i < |s.procs[q].execs| && Holds(s.procs[q].execs[i]) == 0
      ensures ResultAt(Hist(s), Mark(s.procs[q].execs[i].phase).value, q, i)
    {
      assert MarkOk(s.procs[q].execs[i], q, i, Hist(s));
    }
  }

  /** An execution whose handle is no longer awaited has already queued its result. */
  lemma DroppedHandlesReported(s0: State, steps: seq<Step>, q: nat, i: nat)
    requires Init(s0) && IsRun(s0, steps)
    requires IsExec(End(s0, steps), q, i)
    requires i !in End(s0, steps).procs[q].handles
    ensures exists a: nat :: ResultAt(Hist(End(s0, steps)), a, q, i)
  {
    InitInv(s0);
    RunKeepsInv(s0, steps);
    var s := End(s0, steps);
    assert MarkOk(s.procs[q].execs[i], q, i, Hist(s));
    assert ResultAt(Hist(s), s.procs[q].execs[i].phase.at, q, i);
  }

  /** Every heartbeat of an execution precedes its result in the updater's queue, and
      there is at most one result. */
  lemma HeartbeatsFirst(s0: State, steps: seq<Step>, q: nat, i: nat, a: nat, b: nat)
    requires Init(s0) && IsRun(s0, steps)
    requires ResultAt(Hist(End(s0, steps)), b, q, i)
    ensures HeartbeatAt(Hist(End(s0, steps)), a, q, i) ==> a < b
    ensures ResultAt(Hist(End(s0, steps)), a, q, i) ==> a == b
  {
    InitInv(s0);
    RunKeepsInv(s0, steps);
    var s := End(s0, steps);
    assert EntryOk(s.procs, Hist(s)[b], b);
    if a < |Hist(s)| {
      assert EntryOk(s.procs, Hist(s)[a], a);
    }
  }

  /** No send ever fails: the flow only sends to processors still in their loop, and
      nothing is queued for an updater that has stopped. */
  lemma NoSendFails(s0: State, steps: seq<Step>, step: Step)
    requires Init(s0) && IsRun(s0, steps) && Enabled(End(s0, steps), step)
    ensures var s := End(s0, steps);
            && (step.Send? && IsProc(s, s.flow.todo[0].0) ==> !s.procs[s.flow.todo[0].0].pc.Exited?)
            && (step.SendPill? ==> !s.procs[s.flow.left[0]].pc.Exited?)
            && (step.Exit? || step.Beat? || step.Report? ==> !s.stopped)
            && !step.ChannelClosed?
  {
    InitInv(s0);
    RunKeepsInv(s0, steps);
    var s := End(s0, steps);
    if step.Beat? || step.Report? {
      UpdaterRuns(s, step.q, step.i);
    } else if step.Exit? {
      PillsLeft(s, step.q);
    }
  }

  /** A processor takes up to 200 waiting packages, the updater up to 100 requests. */
  lemma RoomIff(s: State, p: Proc)
    ensures CanDeliver(p) <==> p.pc.Exited? || |p.chan| < 200
    ensures CanPush(s) <==> s.stopped || |s.queue| < 100
  {
  }

  lemma PushedLast(s: State, r: Request)
    requires !s.stopped
    ensures Hist(Push(s, r)) == Hist(s) + [r]
  {
  }

  lemma HeartbeatQueued(s: State, q: nat, i: nat)
    requires Inv(s) && Enabled(s, Beat(q, i))
    ensures Hist(Apply(s, Beat(q, i))) == Hist(s) + [Heartbeat(q, i)]
  {
    UpdaterRuns(s, q, i);
    PushedLast(SetProc(s, q, SetPhase(s.procs[q], i, InHandler)), Heartbeat(q, i));
  }

  lemma ResultQueued(s: State, q: nat, i: nat)
    requires Inv(s) && Enabled(s, Report(q, i))
    ensures Hist(Apply(s, Report(q, i))) ==
            Hist(s) + [ExecutionResult(q, i, s.procs[q].execs[i].task, PhaseOf(s, q, i).result)]
  {
    var e := s.procs[q].execs[i];
    UpdaterRuns(s, q, i);
    PushedLast(SetProc(s, q, SetPhase(s.procs[q], i, Reported(|Hist(s)|))),
               ExecutionResult(q, i, e.task, e.phase.result));
  }

  /** Each heartbeat, and each result, is queued behind everything queued before. */
  lemma QueuedInTurn(s0: State, steps: seq<Step>, q: nat, i: nat)
    requires Init(s0) && IsRun(s0, steps)
    ensures var s := End(s0, steps);
            Enabled(s, Beat(q, i)) ==> Hist(Apply(s, Beat(q, i))) == Hist(s) + [Heartbeat(q, i)]
    ensures var s := End(s0, steps);
            Enabled(s, Report(q, i)) ==>
              Hist(Apply(s, Report(q, i))) ==
              Hist(s) + [ExecutionResult(q, i, s.procs[q].execs[i].task, PhaseOf(s, q, i).result)]
  {
    InitInv(s0);
    RunKeepsInv(s0, steps);
    var s := End(s0, steps);
    if Enabled(s, Beat(q, i)) {
      HeartbeatQueued(s, q, i);
    } else if Enabled(s, Report(q, i)) {
      ResultQueued(s, q, i);
    }
  }

  // ----- the state the updater stops in

  lemma NextBeforeLastPill(log: seq<Request>, queue: seq<Request>, n: nat)
    requires BeforeLastPill(log + queue, n) && queue != []
    ensures queue[0].Pill? || Sum(log, IsPill) < n
  {
    var h := log + queue;
    assert h[|log|] == queue[0] && h[..|log|] == log;
  }

  lemma StoppedIsDrained(s: State)
    requires Inv(s) && s.stopped
    ensures s.queue == []
    ensures forall q: nat :: q < |s.procs| ==> AllDone(s.procs[q]) && PillSent(s.flow, q)
  {
    SumConcat(s.log, s.queue, IsPill);
    SumFull(s.procs, HasExited);
    forall q: nat | q < |s.procs|
      ensures AllDone(s.procs[q]) && PillSent(s.flow, q)
    {
      assert s.procs[q] in s.procs;
      ExitedIsDone(s.procs[q], PillSent(s.flow, q));
    }
    if s.queue != [] {
      NextBeforeLastPill(s.log, s.queue, |s.procs|);
      SumPop(s.queue, IsPill);
      assert false;
    }
  }

  /** The updater stops on the N-th pill, not before and not after: the log holds N pills,
      the last request it consumed is the last of them, and nothing is left in its queue. */
  lemma StopsOnLastPill(s0: State, steps: seq<Step>)
    requires Init(s0) && IsRun(s0, steps) && |s0.procs| > 0
    ensures var s := End(s0, steps);
            && |s.procs| == |s0.procs|
            && (s.stopped <==> Sum(s.log, IsPill) == |s0.procs|)
            && (s.stopped ==>
                  && s.queue == []
                  && s.log != [] && s.log[|s.log| - 1].Pill?
                  && Sum(s.log[..|s.log| - 1], IsPill) == |s0.procs| - 1)
  {
    InitInv(s0);
    RunKeepsInv(s0, steps);
    ProcsFixed(s0, steps);
    var s := End(s0, steps);
    if s.stopped {
      StoppedIsDrained(s);
      var n := |s.log| - 1;
      assert s.log == s.log[..n] + [s.log[n]];
      SumAppend(s.log[..n], s.log[n], IsPill);
    }
  }

  lemma {:induction false} ProcsFixed(s: State, steps: seq<Step>)
    requires IsRun(s, steps)
    ensures |End(s, steps).procs| == |s.procs|
    ensures forall q :: 0 <= q < |s.procs| ==> End(s, steps).procs[q].limit == s.procs[q].limit
    decreases |steps|
  {
    if |steps| > 0 {
      ProcsFixed(Apply(s, steps[0]), steps[1..]);
    }
  }

  predicate IsSent(s: State, q: nat, i: nat) {
    q < |s.procs| && i < |s.procs[q].sent|
  }

  /** The task sent at this position has had exactly one result applied. */
  ghost predicate AppliedOnce(s: State, q: nat, i: nat)
    requires IsSent(s, q, i)
  {
    exists a: nat :: ResultAt(s.log, a, q, i) && s.log[a].task == s.procs[q].sent[i] &&
                     forall b: nat :: ResultAt(s.log, b, q, i) ==> b == a
  }

  lemma FinishedIsApplied(s: State, q: nat, i: nat)
    requires Inv(s) && s.queue == [] && IsSent(s, q, i)
    requires s.procs[q].sent == Started(s.procs[q].execs)
    requires forall e :: e in s.procs[q].execs ==> e.phase.Finished?
    ensures AppliedOnce(s, q, i)
  {
    var p := s.procs[q];
    assert Hist(s) == s.log;
    assert p.execs[i] in p.execs;
    assert MarkOk(p.execs[i], q, i, s.log);
    var a := Mark(p.execs[i].phase).value;
    assert EntryOk(s.procs, s.log[a], a);
    forall b: nat | ResultAt(s.log, b, q, i)
      ensures b == a
    {
      assert EntryOk(s.procs, s.log[b], b);
    }
    assert ResultAt(s.log, a, q, i);
  }

  lemma DrainedIsApplied(s: State, q: nat, i: nat)
    requires Inv(s) && (s.stopped || AtRest(s)) && IsSent(s, q, i)
    ensures AppliedOnce(s, q, i)
  {
    if s.stopped {
      StoppedIsDrained(s);
    } else {
      assert s.procs[q] in s.procs;
    }
    assert ProcInv(s.procs[q], PillSent(s.flow, q));
    FinishedIsApplied(s, q, i);
  }

  /** Exactly once: by the time the updater stops, every task the flow sent to a
      registered queue has been executed and has had exactly one result applied. */
  lemma ExactlyOnce(s0: State, steps: seq<Step>, q: nat, i: nat)
    requires Init(s0) && IsRun(s0, steps) && End(s0, steps).stopped
    requires IsSent(End(s0, steps), q, i)
    ensures AppliedOnce(End(s0, steps), q, i)
  {
    InitInv(s0);
    RunKeepsInv(s0, steps);
    DrainedIsApplied(End(s0, steps), q, i);
  }

  /** And nothing else is applied: every result belongs to a task that was sent. */
  lemma NothingInvented(s0: State, steps: seq<Step>, a: nat)
    requires Init(s0) && IsRun(s0, steps)
    requires a < |Hist(End(s0, steps))| && Hist(End(s0, steps))[a].ExecutionResult?
    ensures var s := End(s0, steps);
            var r := Hist(s)[a];
            r.q < |s.procs| && r.i < |s.procs[r.q].sent| && s.procs[r.q].sent[r.i] == r.task
  {
    InitInv(s0);
    RunKeepsInv(s0, steps);
    var s := End(s0, steps);
    assert EntryOk(s.procs, Hist(s)[a], a);
    var p := s.procs[Hist(s)[a].q];
    assert p.sent[Hist(s)[a].i] == Started(p.execs)[Hist(s)[a].i];
  }

  // ----- no deadlock

  /** Steps that are work, not a new request from outside or a timer. */
  predicate IsWork(step: Step) {
    !step.Fetch? && !step.Shutdown? && !step.Tick?
  }

  predicate Idling(p: Proc) {
    p.pc.Receiving? && p.chan == [] && forall e :: e in p.execs ==> e.phase.Finished?
  }

  predicate Quiescent(p: Proc) {
    Idling(p) || AllDone(p)
  }

  /** Nothing is left to do until the next fetch or the shutdown signal. */
  predicate AtRest(s: State) {
    s.flow.Idle? && s.queue == [] && forall p :: p in s.procs ==> Idling(p)
  }

  /** Some unit of work can be done. */
  ghost predicate CanMove(s: State) {
    exists step :: Enabled(s, step) && IsWork(step)
  }

  lemma UnfinishedCanMove(s: State, q: nat, i: nat)
    requires IsExec(s, q, i) && !PhaseOf(s, q, i).Finished? && |s.queue| < UPDATER_CAP
    ensures CanMove(s)
  {
    match PhaseOf(s, q, i)
    case InHandler => assert Enabled(s, Complete(q, i, TaskResult(0, None, 0, None)));
    case Beating => assert Enabled(s, Beat(q, i));
    case Reporting(_) => assert Enabled(s, Report(q, i));
    case Reported(_) => assert Enabled(s, Release(q, i));
    case Released(_) => assert Enabled(s, Finish(q, i));
  }

  lemma LoopCanMove(s: State, q: nat)
    requires Inv(s) && q < |s.procs| && |s.queue| < UPDATER_CAP
    requires forall e :: e in s.procs[q].execs ==> e.phase.Finished?
    requires s.procs[q].pc.Holding? || s.procs[q].pc.Draining? || (s.procs[q].pc.Receiving? && s.procs[q].chan != [])
    ensures CanMove(s)
  {
    var p := s.procs[q];
    assert ProcInv(p, PillSent(s.flow, q));
    match p.pc
    case Holding(_) =>
      SumZero(p.execs, Holds);
      assert Enabled(s, Start(q));
    case Draining =>
      if p.handles == [] {
        assert Enabled(s, Exit(q));
      } else {
        assert p.handles[0] in p.handles;
        assert p.execs[p.handles[0]] in p.execs;
        assert Enabled(s, Join(q));
      }
    case Receiving => assert Enabled(s, Receive(q));
  }

  lemma IdleFlowAtRest(s: State)
    requires Inv(s) && s.flow.Idle? && s.queue == []
    requires forall q: nat :: q < |s.procs| ==> Quiescent(s.procs[q])
    ensures AtRest(s)
  {
    forall p | p in s.procs
      ensures Idling(p)
    {
      var q: nat :| q < |s.procs| && s.procs[q] == p;
      assert ProcInv(p, PillSent(s.flow, q));
    }
  }

  lemma FlowCanMove(s: State)
    requires Inv(s) && !s.stopped && s.queue == [] && !s.flow.Idle?
    requires forall q: nat :: q < |s.procs| ==> Quiescent(s.procs[q])
    ensures CanMove(s)
  {
    match s.flow
    case Sending(todo) => assert Enabled(s, if todo == [] then BatchSent else Send);
    case Poisoning(left) =>
      if left == [] {
        assert Enabled(s, Halt);
      } else {
        assert left[0] in left;
        assert Enabled(s, SendPill);
      }
    case Halted =>
      forall p | p in s.procs
        ensures AllDone(p)
      {
        var q: nat :| q < |s.procs| && s.procs[q] == p;
        assert ProcInv(p, PillSent(s.flow, q));
      }
      assert Enabled(s, SendersGone);
  }

  lemma ProcCanMove(s: State, q: nat)
    requires Inv(s) && s.queue == [] && q < |s.procs| && !Quiescent(s.procs[q])
    ensures CanMove(s)
  {
    var p := s.procs[q];
    if i: nat :| i < |p.execs| && !p.execs[i].phase.Finished? {
      UnfinishedCanMove(s, q, i);
    } else {
      LoopCanMove(s, q);
    }
  }

  lemma WorkIsEnabled(s: State)
    requires Inv(s) && !s.stopped && !AtRest(s)
    ensures CanMove(s)
  {
    if s.queue != [] {
      assert Enabled(s, Consume);
    } else if exists q: nat :: q < |s.procs| && !Quiescent(s.procs[q]) {
      var q: nat :| q < |s.procs| && !Quiescent(s.procs[q]);
      ProcCanMove(s, q);
    } else if s.flow.Idle? {
      IdleFlowAtRest(s);
      assert false;
    } else {
      FlowCanMove(s);
    }
  }

  /** Deadlock freedom: until the updater stops, some unit of work can be done, unless
      everything is idle and waiting for the next fetch. */
  lemma NeverStuck(s0: State, steps: seq<Step>)
    requires Init(s0) && IsRun(s0, steps)
    ensures var s := End(s0, steps);
            s.stopped || AtRest(s) || CanMove(s)
  {
    InitInv(s0);
    RunKeepsInv(s0, steps);
    var s := End(s0, steps);
    if !s.stopped && !AtRest(s) {
      WorkIsEnabled(s);
    }
  }

  // ----- whatever has been fetched or ordered comes to an end

  predicate ShuttingDown(s: State) {
    s.flow.Poisoning? || s.flow.Halted?
  }

  function ExecWork(e: Exec): nat {
    match e.phase
    case InHandler => 6
    case Beating => 8
    case Reporting(_) => 4
    case Reported(_) => 2
    case Released(_) => 1
    case Finished(_) => 0
  }

  function PackageWork(x: Package): nat {
    if x.PoisonPill? then 3 else 9
  }

  function PcWork(pc: Pc): nat {
    match pc
    case Receiving => 0
    case Holding(_) => 8
    case Draining => 2
    case Exited => 0
  }

  ghost function ProcWork(p: Proc): nat {
    PcWork(p.pc) + Sum(p.chan, PackageWork) + Sum(p.execs, ExecWork) + |p.handles|
  }

  function FlowWork(flow: Flow): nat {
    match flow
    case Idle => 0
    case Sending(todo) => 1 + 10 * |todo|
    case Poisoning(left) => 1 + 4 * |left|
    case Halted => 0
  }

  /** The work left until the next fetch or, once shutdown has begun, until the end. */
  ghost function WorkLeft(s: State): nat {
    FlowWork(s.flow) + Sum(s.procs, ProcWork) + |s.queue| + (if s.stopped then 0 else 1)
  }

  lemma ReceiveWork(p: Proc)
    requires p.chan != [] && p.pc.Receiving?
    ensures ProcWork(Received(p)) == ProcWork(p) - 1
  {
    SumPop(p.chan, PackageWork);
  }

  lemma SpawnWork(p: Proc)
    requires p.pc.Holding? && p.permits > 0
    requires forall h :: h in p.handles ==> h < |p.execs|
    ensures ProcWork(Spawned(p)) < ProcWork(p)
  {
    SumAppend(p.execs, Exec(p.pc.task, InHandler), ExecWork);
  }

  lemma PhaseWork(p: Proc, i: nat, phase: Phase)
    requires i < |p.execs|
    ensures ProcWork(SetPhase(p, i, phase)) + ExecWork(p.execs[i]) ==
            ProcWork(p) + ExecWork(p.execs[i].(phase := phase))
  {
    SumUpdate(p.execs, i, p.execs[i].(phase := phase), ExecWork);
  }

  lemma PillWork(p: Proc)
    requires !p.pc.Exited?
    ensures ProcWork(Deliver(p, PoisonPill)) == ProcWork(p) + 3
  {
    SumAppend(p.chan, PoisonPill, PackageWork);
  }

  /** A fetch and the shutdown signal bring in new work. */
  predicate IsOrdered(step: Step) {
    step.Fetch? || step.Shutdown?
  }

  /** Every other step uses up work except a heartbeat timer going off, which adds 2: the
      heartbeat still to be sent and consumed. */
  lemma StepUsesWork(s: State, step: Step)
    requires Inv(s) && Enabled(s, step) && !IsOrdered(step)
    ensures if step.Tick? then WorkLeft(Apply(s, step)) == WorkLeft(s) + 2
            else WorkLeft(Apply(s, step)) < WorkLeft(s)
  {
    if step.Send? {
      SendUsesWork(s);
    } else if step.SendPill? {
      SendPillUsesWork(s);
    } else if step.Beat? || step.Report? {
      PushUsesWork(s, step);
    } else if step.Exit? {
      PillsLeft(s, step.q);
      ExitUsesWork(s, step.q);
    } else if step.ChannelClosed? {
      ChannelNeverCloses(s, step.q);
    } else {
      SimpleStepUsesWork(s, step);
    }
  }

  lemma SimpleStepUsesWork(s: State, step: Step)
    requires Enabled(s, step) && !IsOrdered(step)
    requires !step.Send? && !step.SendPill? && !step.Beat? && !step.Report? && !step.Exit? && !step.ChannelClosed?
    ensures if step.Tick? then WorkLeft(Apply(s, step)) == WorkLeft(s) + 2
            else WorkLeft(Apply(s, step)) < WorkLeft(s)
  {
    match step
    case BatchSent =>
    case Halt =>
    case Consume =>
    case SendersGone =>
    case Tick(q, i) => PhaseUsesWork(s, q, i, Beating);
    case Complete(q, i, r) => PhaseUsesWork(s, q, i, Reporting(r));
    case Release(q, i) => ReleaseUsesWork(s, q, i);
    case Finish(q, i) => PhaseUsesWork(s, q, i, Finished(PhaseOf(s, q, i).at));
    case _ => LoopStepUsesWork(s, step);
  }

  lemma SendUsesWork(s: State)
    requires Enabled(s, Send)
    ensures WorkLeft(Apply(s, Send)) < WorkLeft(s)
  {
    var (q, task) := s.flow.todo[0];
    if IsProc(s, q) {
      var p := Deliver(s.procs[q], Work(task)).(sent := s.procs[q].sent + [task]);
      SumAppend(s.procs[q].chan, Work(task), PackageWork);
      SumUpdate(s.procs, q, p, ProcWork);
    }
  }

  lemma SendPillUsesWork(s: State)
    requires Inv(s) && Enabled(s, SendPill)
    ensures WorkLeft(Apply(s, SendPill)) < WorkLeft(s)
  {
    var q := s.flow.left[0];
    assert q in s.flow.left;
    PillWork(s.procs[q]);
    SumUpdate(s.procs, q, Deliver(s.procs[q], PoisonPill), ProcWork);
  }

  lemma PushUsesWork(s: State, step: Step)
    requires Inv(s) && Enabled(s, step)
    requires step.Beat? || step.Report?
    ensures WorkLeft(Apply(s, step)) < WorkLeft(s)
  {
    var q, i := step.q, step.i;
    UpdaterRuns(s, q, i);
    PhaseUsesWork(s, q, i, if step.Beat? then InHandler else Reported(|Hist(s)|));
  }

  lemma LoopStepUsesWork(s: State, step: Step)
    requires Enabled(s, step)
    requires step.Receive? || step.Start? || step.Join?
    ensures WorkLeft(Apply(s, step)) < WorkLeft(s)
  {
    var q := step.q;
    var p := s.procs[q];
    SumUpdate(s.procs, q, Apply(s, step).procs[q], ProcWork);
    match step
    case Receive(_) => ReceiveWork(p);
    case Start(_) => SpawnWork(p);
    case Join(_) =>
  }

  lemma ExitUsesWork(s: State, q: nat)
    requires Enabled(s, Exit(q)) && !s.stopped
    ensures WorkLeft(Apply(s, Exit(q))) < WorkLeft(s)
  {
    SumUpdate(s.procs, q, s.procs[q].(pc := Exited), ProcWork);
  }

  lemma PhaseUsesWork(s: State, q: nat, i: nat, phase: Phase)
    requires IsExec(s, q, i)
    ensures WorkLeft(SetProc(s, q, SetPhase(s.procs[q], i, phase))) + ExecWork(s.procs[q].execs[i]) ==
            WorkLeft(s) + ExecWork(s.procs[q].execs[i].(phase := phase))
  {
    PhaseWork(s.procs[q], i, phase);
    SumUpdate(s.procs, q, SetPhase(s.procs[q], i, phase), ProcWork);
  }

  lemma ReleaseUsesWork(s: State, q: nat, i: nat)
    requires Enabled(s, Release(q, i))
    ensures WorkLeft(Apply(s, Release(q, i))) < WorkLeft(s)
  {
    PhaseWork(s.procs[q], i, Released(PhaseOf(s, q, i).at));
    SumUpdate(s.procs, q, Apply(s, Release(q, i)).procs[q], ProcWork);
  }

  function IsTick(step: Step): nat {
    if step.Tick? then 1 else 0
  }

  ghost predicate NoOrders(steps: seq<Step>) {
    forall n :: 0 <= n < |steps| ==> !IsOrdered(steps[n])
  }

  lemma {:induction false} RunUsesWork(s: State, steps: seq<Step>)
    requires Inv(s) && IsRun(s, steps) && NoOrders(steps)
    ensures |steps| + WorkLeft(End(s, steps)) <= WorkLeft(s) + 3 * Sum(steps, IsTick)
    decreases |steps|
  {
    if |steps| > 0 {
      StepKeepsInv(s, steps[0]);
      StepUsesWork(s, steps[0]);
      RunUsesWork(Apply(s, steps[0]), steps[1..]);
    }
  }

  /** After the shutdown signal nothing new is fetched or ordered. */
  lemma {:induction false} ShutdownIsFinal(s: State, steps: seq<Step>)
    requires ShuttingDown(s) && IsRun(s, steps)
    ensures NoOrders(steps) && ShuttingDown(End(s, steps))
    decreases |steps|
  {
    if |steps| > 0 {
      ShutdownIsFinal(Apply(s, steps[0]), steps[1..]);
      assert forall n :: 0 < n < |steps| ==> steps[n] == steps[1..][n - 1];
    }
  }

  /** Shutdown completes: from a reachable state in which it has begun, a run with k
      heartbeat timers takes at most WorkLeft + 3k steps, and it can only end in a state
      where the updater has stopped. */
  lemma ShutdownCompletes(s0: State, before: seq<Step>, steps: seq<Step>)
    requires Init(s0) && IsRun(s0, before) && ShuttingDown(End(s0, before))
    requires IsRun(End(s0, before), steps)
    ensures |steps| <= WorkLeft(End(s0, before)) + 3 * Sum(steps, IsTick)
    ensures var s := End(End(s0, before), steps);
            s.stopped || CanMove(s)
  {
    InitInv(s0);
    RunKeepsInv(s0, before);
    var mid := End(s0, before);
    ShutdownIsFinal(mid, steps);
    RunUsesWork(mid, steps);
    RunKeepsInv(mid, steps);
    var s := End(mid, steps);
    if !s.stopped {
      WorkIsEnabled(s);
    }
  }

  /** What has been fetched is executed and recorded in normal operation too: from any
      reachable state, a run with k heartbeat timers and no further fetch takes at most
      WorkLeft + 3k steps. It can end only when the updater has stopped or all is idle, and
      then every task ever sent to a registered queue has had exactly one result applied. */
  lemma BatchCompletes(s0: State, before: seq<Step>, steps: seq<Step>)
    requires Init(s0) && IsRun(s0, before)
    requires IsRun(End(s0, before), steps) && NoOrders(steps)
    ensures |steps| <= WorkLeft(End(s0, before)) + 3 * Sum(steps, IsTick)
    ensures var s := End(End(s0, before), steps);
            || CanMove(s)
            || ((s.stopped || AtRest(s)) && forall q: nat, i: nat :: IsSent(s, q, i) ==> AppliedOnce(s, q, i))
  {
    InitInv(s0);
    RunKeepsInv(s0, before);
    var mid := End(s0, before);
    RunUsesWork(mid, steps);
    RunKeepsInv(mid, steps);
    var s := End(mid, steps);
    if s.stopped || AtRest(s) {
      forall q: nat, i: nat | IsSent(s, q, i)
        ensures AppliedOnce(s, q, i)
      {
        DrainedIsApplied(s, q, i);
      }
    } else {
      WorkIsEnabled(s);
    }
  }
}
