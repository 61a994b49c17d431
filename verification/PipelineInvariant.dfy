/** What every step of the pipeline keeps. */
module PipelineInvariant {
  import opened Wrappers
  import opened Sequences
  import opened Tasks
  import opened Pipeline

  // ----- one processor

  function Holds(e: Exec): nat {
    if e.phase.Released? || e.phase.Finished? then 0 else 1
  }

  function Started(execs: seq<Exec>): seq<TaskMeta> {
    seq(|execs|, i requires 0 <= i < |execs| => execs[i].task)
  }

  function InHand(pc: Pc): seq<TaskMeta> {
    if pc.Holding? then [pc.task] else []
  }

  function Waiting(chan: seq<Package>): seq<TaskMeta> {
    if |chan| == 0 then []
    else (match chan[0] case PoisonPill => [] case Work(task) => [task]) + Waiting(chan[1..])
  }

  predicate NoPill(chan: seq<Package>) {
    forall x :: x in chan ==> x.Work?
  }

  /** The pill is sent last, received last, and nothing follows it. */
  predicate PillPlaced(p: Proc, pillSent: bool) {
    if !pillSent then NoPill(p.chan) && (p.pc.Receiving? || p.pc.Holding?)
    else if p.pc.Draining? || p.pc.Exited? then p.chan == []
    else |p.chan| > 0 && p.chan[|p.chan| - 1].PoisonPill? && NoPill(p.chan[..|p.chan| - 1])
  }

  /** Every execution not yet finished is still awaited; none is left when the loop exits. */
  predicate HandlesCover(p: Proc) {
    && (forall h :: h in p.handles ==> h < |p.execs|)
    && (forall i: nat :: i < |p.execs| && !p.execs[i].phase.Finished? ==> i in p.handles)
    && (p.pc.Exited? ==> p.handles == [])
  }

  ghost predicate ProcInv(p: Proc, pillSent: bool) {
    && p.limit >= 1
    && |p.chan| <= PROCESSOR_CAP
    && p.sent == Started(p.execs) + InHand(p.pc) + Waiting(p.chan)
    && PillPlaced(p, pillSent)
    && p.permits + Sum(p.execs, Holds) == p.limit
    && HandlesCover(p)
  }

  predicate PillSent(flow: Flow, q: nat) {
    flow.Halted? || (flow.Poisoning? && q !in flow.left)
  }

  predicate FlowInv(flow: Flow, n: nat) {
    flow.Poisoning? ==>
      && (forall a, b :: 0 <= a < b < |flow.left| ==> flow.left[a] != flow.left[b])
      && (forall q :: q in flow.left ==> q < n)
  }

  // ----- the history of the updater's queue

  function Mark(phase: Phase): Option<nat> {
    if phase.Reported? || phase.Released? || phase.Finished? then Some(phase.at) else None
  }

  predicate EntryOk(procs: seq<Proc>, r: Request, a: nat) {
    match r
    case Pill => true
    case Heartbeat(q, i) =>
      && q < |procs| && i < |procs[q].execs|
      && (Mark(procs[q].execs[i].phase).Some? ==> a < Mark(procs[q].execs[i].phase).value)
    case ExecutionResult(q, i, task, _) =>
      && q < |procs| && i < |procs[q].execs|
      && procs[q].execs[i].task == task
      && Mark(procs[q].execs[i].phase) == Some(a)
  }

  predicate MarkOk(e: Exec, q: nat, i: nat, h: seq<Request>) {
    Mark(e.phase).Some? ==>
      var a := Mark(e.phase).value;
      a < |h| && h[a].ExecutionResult? && h[a].q == q && h[a].i == i
  }

  /** Results in the history and reported executions correspond one to one, and every
      heartbeat of an execution comes before its result. */
  ghost predicate HistInv(procs: seq<Proc>, h: seq<Request>) {
    && (forall a: nat :: a < |h| ==> EntryOk(procs, h[a], a))
    && (forall q: nat, i: nat :: q < |procs| && i < |procs[q].execs| ==> MarkOk(procs[q].execs[i], q, i, h))
  }

  // ----- pills

  function IsPill(r: Request): nat {
    if r.Pill? then 1 else 0
  }

  function HasExited(p: Proc): nat {
    if p.pc.Exited? then 1 else 0
  }

  /** Whatever is not a pill was queued before the last of n pills. */
  ghost predicate BeforeLastPill(h: seq<Request>, n: nat) {
    forall a: nat :: a < |h| && !h[a].Pill? ==> Sum(h[..a], IsPill) < n
  }

  ghost predicate PillInv(s: State) {
    && s.pills == Sum(s.log, IsPill)
    && Sum(Hist(s), IsPill) == Sum(s.procs, HasExited)
    && (s.stopped && |s.procs| > 0 ==> |s.log| > 0 && s.log[|s.log| - 1].Pill?)
    && (if s.stopped then s.pills == |s.procs| else s.pills < |s.procs| || |s.procs| == 0)
  }

  ghost predicate Inv(s: State) {
    && FlowInv(s.flow, |s.procs|)
    && (forall q: nat :: q < |s.procs| ==> ProcInv(s.procs[q], PillSent(s.flow, q)))
    && |s.queue| <= UPDATER_CAP
    && HistInv(s.procs, Hist(s))
    && BeforeLastPill(Hist(s), |s.procs|)
    && PillInv(s)
  }

  lemma InitInv(s: State)
    requires Init(s)
    ensures Inv(s)
  {
    forall q: nat | q < |s.procs|
      ensures ProcInv(s.procs[q], PillSent(s.flow, q)) && s.procs[q].execs == []
    {
      assert s.procs[q] in s.procs;
    }
    forall p | p in s.procs
      ensures HasExited(p) == 0
    {
      assert Fresh(p);
    }
    SumZero(s.procs, HasExited);
  }

  // ----- history lemmas

  predicate SameHistory(a: seq<Exec>, b: seq<Exec>) {
    && |a| <= |b|
    && (forall i :: 0 <= i < |a| ==> a[i].task == b[i].task && Mark(a[i].phase) == Mark(b[i].phase))
    && (forall i :: |a| <= i < |b| ==> Mark(b[i].phase).None?)
  }

  /** Steps that neither queue a result nor forget one keep the history facts. */
  lemma HistKept(procs: seq<Proc>, q: nat, p: Proc, h: seq<Request>)
    requires HistInv(procs, h) && q < |procs|
    requires SameHistory(procs[q].execs, p.execs)
    ensures HistInv(procs[q := p], h)
  {
    var procs' := procs[q := p];
    forall a: nat | a < |h|
      ensures EntryOk(procs', h[a], a)
    {
      assert EntryOk(procs, h[a], a);
    }
    forall r: nat, i: nat | r < |procs'| && i < |procs'[r].execs|
      ensures MarkOk(procs'[r].execs[i], r, i, h)
    {
      if i < |procs[r].execs| {
        assert MarkOk(procs[r].execs[i], r, i, h);
      }
    }
  }

  lemma HistPushed(procs: seq<Proc>, h: seq<Request>, r: Request)
    requires HistInv(procs, h) && EntryOk(procs, r, |h|)
    ensures HistInv(procs, h + [r])
  {
    var h' := h + [r];
    forall a: nat | a < |h'|
      ensures EntryOk(procs, h'[a], a)
    {
      assert a < |h| ==> EntryOk(procs, h[a], a);
    }
    forall q: nat, i: nat | q < |procs| && i < |procs[q].execs|
      ensures MarkOk(procs[q].execs[i], q, i, h')
    {
      assert MarkOk(procs[q].execs[i], q, i, h);
    }
  }

  lemma HistReported(procs: seq<Proc>, h: seq<Request>, q: nat, i: nat, result: TaskResult)
    requires HistInv(procs, h)
    requires q < |procs| && i < |procs[q].execs| && Mark(procs[q].execs[i].phase).None?
    ensures HistInv(procs[q := SetPhase(procs[q], i, Reported(|h|))],
                    h + [ExecutionResult(q, i, procs[q].execs[i].task, result)])
  {
    var procs' := procs[q := SetPhase(procs[q], i, Reported(|h|))];
    var h' := h + [ExecutionResult(q, i, procs[q].execs[i].task, result)];
    forall a: nat | a < |h'|
      ensures EntryOk(procs', h'[a], a)
    {
      assert a < |h| ==> EntryOk(procs, h[a], a);
    }
    forall r: nat, j: nat | r < |procs'| && j < |procs'[r].execs|
      ensures MarkOk(procs'[r].execs[j], r, j, h')
    {
      assert MarkOk(procs[r].execs[j], r, j, h);
    }
  }

  lemma LastPillPushed(h: seq<Request>, r: Request, n: nat)
    requires BeforeLastPill(h, n)
    requires !r.Pill? ==> Sum(h, IsPill) < n
    ensures BeforeLastPill(h + [r], n)
  {
    var h' := h + [r];
    forall a: nat | a < |h'| && !h'[a].Pill?
      ensures Sum(h'[..a], IsPill) < n
    {
      assert h'[..a] == h[..a];
      assert a == |h| ==> h[..a] == h;
    }
  }

  /** While a processor has not exited, fewer than N pills have been queued. */
  lemma PillsLeft(s: State, q: nat)
    requires Inv(s) && q < |s.procs| && !s.procs[q].pc.Exited?
    ensures Sum(Hist(s), IsPill) < |s.procs|
    ensures !s.stopped
  {
    SumFull(s.procs, HasExited);
    assert s.procs[q] in s.procs && HasExited(s.procs[q]) == 0;
    SumConcat(s.log, s.queue, IsPill);
  }

  /** While an execution is unfinished, its processor awaits it and the updater runs. */
  lemma UpdaterRuns(s: State, q: nat, i: nat)
    requires Inv(s) && IsExec(s, q, i) && !PhaseOf(s, q, i).Finished?
    ensures !s.procs[q].pc.Exited? && !s.stopped
    ensures Sum(Hist(s), IsPill) < |s.procs|
  {
    UnfinishedMeansRunning(s.procs[q], PillSent(s.flow, q), i);
    PillsLeft(s, q);
  }

  /** An exited processor has no execution left unfinished. */
  lemma ExitedIsDone(p: Proc, pillSent: bool)
    requires ProcInv(p, pillSent) && p.pc.Exited?
    ensures AllDone(p)
  {
    forall e | e in p.execs
      ensures e.phase.Finished?
    {
      var i: nat :| i < |p.execs| && p.execs[i] == e;
      assert !e.phase.Finished? ==> i in p.handles;
    }
  }

  lemma UnfinishedMeansRunning(p: Proc, pillSent: bool, i: nat)
    requires ProcInv(p, pillSent) && i < |p.execs| && !p.execs[i].phase.Finished?
    ensures !p.pc.Exited?
  {
    assert i in p.handles;
  }

  // ----- one processor's step

  lemma {:induction false} WaitingConcat(a: seq<Package>, b: seq<Package>)
    ensures Waiting(a + b) == Waiting(a) + Waiting(b)
  {
    if |a| == 0 {
      assert a + b == b;
    } else {
      assert (a + b)[1..] == a[1..] + b;
      WaitingConcat(a[1..], b);
    }
  }

  lemma DeliverWork(p: Proc, task: TaskMeta)
    requires ProcInv(p, false) && CanDeliver(p)
    ensures ProcInv(Deliver(p, Work(task)).(sent := p.sent + [task]), false)
  {
    WaitingConcat(p.chan, [Work(task)]);
    assert Waiting([Work(task)]) == [task];
    assert Started(p.execs) + InHand(p.pc) + (Waiting(p.chan) + [task]) == p.sent + [task];
  }

  lemma DeliverPill(p: Proc)
    requires ProcInv(p, false) && CanDeliver(p)
    ensures ProcInv(Deliver(p, PoisonPill), true)
  {
    WaitingConcat(p.chan, [PoisonPill]);
    assert Waiting([PoisonPill]) == [];
    assert (p.chan + [PoisonPill])[..|p.chan|] == p.chan;
  }

  lemma ReceiveKeeps(p: Proc, pillSent: bool)
    requires ProcInv(p, pillSent) && p.pc.Receiving? && p.chan != []
    ensures ProcInv(Received(p), pillSent)
  {
    var rest := p.chan[1..];
    assert p.chan[0] in p.chan;
    if pillSent {
      if |p.chan| == 1 {
        assert rest == [];
      } else {
        assert p.chan[0] in p.chan[..|p.chan| - 1];
        assert rest[..|rest| - 1] == p.chan[..|p.chan| - 1][1..];
      }
    }
  }

  lemma StartKeeps(p: Proc, pillSent: bool)
    requires ProcInv(p, pillSent) && p.pc.Holding? && p.permits > 0
    ensures ProcInv(Spawned(p), pillSent)
  {
    SumAppend(p.execs, Exec(p.pc.task, InHandler), Holds);
    assert Started(p.execs + [Exec(p.pc.task, InHandler)]) == Started(p.execs) + [p.pc.task];
  }

  lemma JoinKeeps(p: Proc, pillSent: bool)
    requires ProcInv(p, pillSent) && p.pc.Draining? && p.handles != []
    requires p.handles[0] < |p.execs| && p.execs[p.handles[0]].phase.Finished?
    ensures ProcInv(Joined(p), pillSent)
  {
    var p' := Joined(p);
    assert forall h :: h in p'.handles ==> h in p.handles;
    forall i: nat | i < |p.execs| && !p.execs[i].phase.Finished?
      ensures i in p'.handles
    {
      assert i in p.handles;
    }
  }

  /** Moving an execution to a phase that holds the permit just as before. */
  lemma PhaseKeeps(p: Proc, pillSent: bool, i: nat, phase: Phase)
    requires ProcInv(p, pillSent) && i < |p.execs|
    requires !p.execs[i].phase.Finished?
    requires Holds(p.execs[i]) == Holds(p.execs[i].(phase := phase))
    ensures ProcInv(SetPhase(p, i, phase), pillSent)
  {
    SumUpdate(p.execs, i, p.execs[i].(phase := phase), Holds);
    assert Started(SetPhase(p, i, phase).execs) == Started(p.execs);
  }

  lemma ReleaseKeeps(p: Proc, pillSent: bool, i: nat)
    requires ProcInv(p, pillSent) && i < |p.execs| && p.execs[i].phase.Reported?
    ensures ProcInv(SetPhase(p, i, Released(p.execs[i].phase.at)).(permits := p.permits + 1), pillSent)
  {
    SumUpdate(p.execs, i, p.execs[i].(phase := Released(p.execs[i].phase.at)), Holds);
    assert Started(SetPhase(p, i, Released(p.execs[i].phase.at)).execs) == Started(p.execs);
  }

  predicate Ascending(s: seq<nat>) {
    forall i, j :: 0 <= i < j < |s| ==> s[i] < s[j]
  }

  /** Handles are kept in the order their executions were started. */
  lemma {:induction false} RetainInOrder(handles: seq<nat>, execs: seq<Exec>)
    requires Ascending(handles) && forall h :: h in handles ==> h < |execs|
    ensures Ascending(Retain(handles, execs))
    decreases |handles|
  {
    if |handles| > 0 {
      assert handles[0] in handles && forall h :: h in handles[1..] ==> h in handles;
      var rest := Retain(handles[1..], execs);
      RetainInOrder(handles[1..], execs);
      AscendingTail(handles);
      if !execs[handles[0]].phase.Finished? {
        AscendingCons(handles[0], rest);
      }
    }
  }

  lemma AscendingTail(s: seq<nat>)
    requires s != [] && Ascending(s)
    ensures Ascending(s[1..]) && forall x :: x in s[1..] ==> s[0] < x
  {
  }

  lemma AscendingCons(x: nat, s: seq<nat>)
    requires Ascending(s) && forall y :: y in s ==> x < y
    ensures Ascending([x] + s)
  {
    assert forall i :: 0 <= i < |s| ==> s[i] in s;
  }

  // ----- one step of the whole pipeline

  /** Replacing one processor, and possibly the flow, without touching the updater's side. */
  lemma ProcStep(s: State, flow: Flow, q: nat, p: Proc)
    requires Inv(s) && q < |s.procs|
    requires FlowInv(flow, |s.procs|)
    requires forall r: nat :: r < |s.procs| && r != q ==> PillSent(flow, r) == PillSent(s.flow, r)
    requires ProcInv(p, PillSent(flow, q))
    requires SameHistory(s.procs[q].execs, p.execs)
    requires p.pc.Exited? == s.procs[q].pc.Exited?
    ensures Inv(SetProc(s.(flow := flow), q, p))
  {
    HistKept(s.procs, q, p, Hist(s));
    SumUpdate(s.procs, q, p, HasExited);
  }

  lemma SendStep(s: State)
    requires Inv(s) && Enabled(s, Send)
    ensures Inv(Apply(s, Send))
  {
    var (q, task) := s.flow.todo[0];
    if IsProc(s, q) {
      DeliverWork(s.procs[q], task);
      ProcStep(s, Sending(s.flow.todo[1..]), q,
               Deliver(s.procs[q], Work(task)).(sent := s.procs[q].sent + [task]));
    }
  }

  lemma SendPillStep(s: State)
    requires Inv(s) && Enabled(s, SendPill)
    ensures Inv(Apply(s, SendPill))
  {
    var q, left := s.flow.left[0], s.flow.left[1..];
    DeliverPill(s.procs[q]);
    assert forall r :: r in s.flow.left <==> r == q || r in left;
    ProcStep(s, Poisoning(left), q, Deliver(s.procs[q], PoisonPill));
  }

  lemma ReceiveStep(s: State, q: nat)
    requires Inv(s) && Enabled(s, Receive(q))
    ensures Inv(Apply(s, Receive(q)))
  {
    ReceiveKeeps(s.procs[q], PillSent(s.flow, q));
    ProcStep(s, s.flow, q, Received(s.procs[q]));
  }

  lemma StartStep(s: State, q: nat)
    requires Inv(s) && Enabled(s, Start(q))
    ensures Inv(Apply(s, Start(q)))
  {
    StartKeeps(s.procs[q], PillSent(s.flow, q));
    ProcStep(s, s.flow, q, Spawned(s.procs[q]));
  }

  lemma JoinStep(s: State, q: nat)
    requires Inv(s) && Enabled(s, Join(q))
    ensures Inv(Apply(s, Join(q)))
  {
    JoinKeeps(s.procs[q], PillSent(s.flow, q));
    ProcStep(s, s.flow, q, Joined(s.procs[q]));
  }

  /** The pill that was sent last is still to be received, so a processor never finds
      its channel closed. */
  lemma ChannelNeverCloses(s: State, q: nat)
    requires Inv(s)
    ensures !Enabled(s, ChannelClosed(q))
  {
  }

  lemma ExitKeeps(p: Proc, pillSent: bool)
    requires ProcInv(p, pillSent) && p.pc.Draining? && p.handles == []
    ensures ProcInv(p.(pc := Exited), pillSent)
  {
  }

  lemma ExitStep(s: State, q: nat)
    requires Inv(s) && Enabled(s, Exit(q))
    ensures Inv(Apply(s, Exit(q)))
  {
    var p := s.procs[q].(pc := Exited);
    var s' := Apply(s, Exit(q));
    PillsLeft(s, q);
    ExitKeeps(s.procs[q], PillSent(s.flow, q));
    assert Hist(s') == Hist(s) + [Pill];
    assert HistInv(s'.procs, Hist(s')) by {
      HistKept(s.procs, q, p, Hist(s));
      HistPushed(s.procs[q := p], Hist(s), Pill);
    }
    assert BeforeLastPill(Hist(s'), |s'.procs|) by {
      LastPillPushed(Hist(s), Pill, |s.procs|);
    }
    assert PillInv(s') by {
      SumUpdate(s.procs, q, p, HasExited);
      SumAppend(Hist(s), Pill, IsPill);
    }
  }

  lemma PhaseStep(s: State, q: nat, i: nat, phase: Phase)
    requires Inv(s) && IsExec(s, q, i) && !PhaseOf(s, q, i).Finished?
    requires Mark(phase) == Mark(PhaseOf(s, q, i))
    requires Holds(s.procs[q].execs[i]) == Holds(s.procs[q].execs[i].(phase := phase))
    ensures Inv(SetProc(s, q, SetPhase(s.procs[q], i, phase)))
  {
    PhaseKeeps(s.procs[q], PillSent(s.flow, q), i, phase);
    ProcStep(s, s.flow, q, SetPhase(s.procs[q], i, phase));
  }

  lemma ReleaseStep(s: State, q: nat, i: nat)
    requires Inv(s) && Enabled(s, Release(q, i))
    ensures Inv(Apply(s, Release(q, i)))
  {
    ReleaseKeeps(s.procs[q], PillSent(s.flow, q), i);
    ProcStep(s, s.flow, q, Apply(s, Release(q, i)).procs[q]);
  }

  lemma BeatStep(s: State, q: nat, i: nat)
    requires Inv(s) && Enabled(s, Beat(q, i))
    ensures Inv(Apply(s, Beat(q, i)))
  {
    UpdaterRuns(s, q, i);
    PhaseStep(s, q, i, InHandler);
    PushStep(SetProc(s, q, SetPhase(s.procs[q], i, InHandler)), Heartbeat(q, i), q);
  }

  lemma PushStep(s: State, r: Request, q: nat)
    requires Inv(s) && |s.queue| < UPDATER_CAP
    requires q < |s.procs| && !s.procs[q].pc.Exited?
    requires !r.Pill? && EntryOk(s.procs, r, |Hist(s)|)
    ensures Inv(Push(s, r))
  {
    PillsLeft(s, q);
    HistPushed(s.procs, Hist(s), r);
    SumAppend(Hist(s), r, IsPill);
    LastPillPushed(Hist(s), r, |s.procs|);
    assert Hist(Push(s, r)) == Hist(s) + [r];
  }

  lemma ReportStep(s: State, q: nat, i: nat)
    requires Inv(s) && Enabled(s, Report(q, i))
    ensures Inv(Apply(s, Report(q, i)))
  {
    var e := s.procs[q].execs[i];
    var r := ExecutionResult(q, i, e.task, e.phase.result);
    var p := SetPhase(s.procs[q], i, Reported(|Hist(s)|));
    UpdaterRuns(s, q, i);
    PhaseKeeps(s.procs[q], PillSent(s.flow, q), i, Reported(|Hist(s)|));
    HistReported(s.procs, Hist(s), q, i, e.phase.result);
    SumUpdate(s.procs, q, p, HasExited);
    SumAppend(Hist(s), r, IsPill);
    LastPillPushed(Hist(s), r, |s.procs|);
    assert Hist(Apply(s, Report(q, i))) == Hist(s) + [r];
  }

  lemma ConsumeStep(s: State)
    requires Inv(s) && Enabled(s, Consume)
    ensures Inv(Apply(s, Consume))
  {
    var s' := Apply(s, Consume);
    assert Hist(s') == Hist(s);
    SumAppend(s.log, s.queue[0], IsPill);
    SumConcat(s'.log, s'.queue, IsPill);
    SumFull(s.procs, HasExited);
  }

  /** All senders can only be gone before the last pill when there is no processor. */
  lemma SendersGoneStep(s: State)
    requires Inv(s) && Enabled(s, SendersGone)
    ensures |s.procs| == 0
    ensures Inv(Apply(s, SendersGone))
  {
    forall p | p in s.procs
      ensures HasExited(p) == 1
    {
      assert AllDone(p);
    }
    SumFull(s.procs, HasExited);
    assert Hist(s) == s.log;
  }

  lemma ExecStep(s: State, step: Step)
    requires Inv(s) && Enabled(s, step)
    requires IsExecStep(step)
    ensures Inv(Apply(s, step))
  {
    match step
    case Tick(q, i) => PhaseStep(s, q, i, Beating);
    case Complete(q, i, r) => PhaseStep(s, q, i, Reporting(r));
    case Release(q, i) => ReleaseStep(s, q, i);
    case Finish(q, i) => PhaseStep(s, q, i, Finished(PhaseOf(s, q, i).at));
    case Beat(q, i) => BeatStep(s, q, i);
    case Report(q, i) => ReportStep(s, q, i);
  }

  lemma LoopStep(s: State, step: Step)
    requires Inv(s) && Enabled(s, step)
    requires IsLoopStep(step)
    ensures Inv(Apply(s, step))
  {
    match step
    case Receive(q) => ReceiveStep(s, q);
    case Start(q) => StartStep(s, q);
    case Join(q) => JoinStep(s, q);
    case ChannelClosed(q) => ChannelNeverCloses(s, q);
    case Exit(q) => ExitStep(s, q);
  }

  lemma FlowStep(s: State, step: Step)
    requires Inv(s) && Enabled(s, step)
    requires IsFlowStep(step)
    ensures Inv(Apply(s, step))
  {
    match step
    case Send => SendStep(s);
    case SendPill => SendPillStep(s);
    case _ =>
  }

  lemma StepKeepsInv(s: State, step: Step)
    requires Inv(s) && Enabled(s, step)
    ensures Inv(Apply(s, step))
  {
    if IsExecStep(step) {
      ExecStep(s, step);
    } else if IsLoopStep(step) {
      LoopStep(s, step);
    } else if IsFlowStep(step) {
      FlowStep(s, step);
    } else if step.Consume? {
      ConsumeStep(s);
    } else {
      SendersGoneStep(s);
    }
  }

  /** Every state of every run satisfies the invariant. */
  lemma {:induction false} RunKeepsInv(s: State, steps: seq<Step>)
    requires Inv(s) && IsRun(s, steps)
    ensures Inv(End(s, steps))
    decreases |steps|
  {
    if |steps| > 0 {
      StepKeepsInv(s, steps[0]);
      RunKeepsInv(Apply(s, steps[0]), steps[1..]);
    }
  }
}
