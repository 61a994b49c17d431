/** How tasks move between the flow's batch and the processors, and when one is in flight
    twice. Nothing here depends on the store. */
module SchedulerPlaces {
  import opened Tasks
  import opened Pipeline
  import opened PipelineInvariant
  import opened Scheduler

  // ----- steps that move no task between places

  ghost predicate SamePlace(s: State, s': State, p: Place) {
    (Occupied(s', p) <==> Occupied(s, p)) && (Occupied(s, p) ==> TaskAt(s', p) == TaskAt(s, p))
  }

  ghost predicate SamePlaces(s: State, s': State) {
    forall p :: SamePlace(s, s', p)
  }

  lemma SameFlight(s: State, s': State, id: nat)
    requires SamePlaces(s, s')
    ensures InFlight(s', id) <==> InFlight(s, id)
    ensures OnceFor(s', id) <==> OnceFor(s, id)
  {
    forall p
      ensures HasId(s', p, id) <==> HasId(s, p, id)
    {
      assert SamePlace(s, s', p);
    }
  }

  /** Replacing one processor by one with the same tasks sent, whose executions have their
      results where they were, or further on than the log. */
  lemma ProcPlaces(s: State, s': State, q: nat)
    requires q < |s.procs| && |s'.procs| == |s.procs|
    requires s'.procs == s.procs[q := s'.procs[q]]
    requires s'.procs[q].sent == s.procs[q].sent
    requires forall i: nat :: i < |s.procs[q].sent| ==> Done(s', q, i) == Done(s, q, i)
    requires s'.log == s.log && Todo(s'.flow) == Todo(s.flow)
    ensures SamePlaces(s, s')
  {
    forall p
      ensures SamePlace(s, s', p)
    {
      if p.Sent? && p.q < |s.procs| && p.q != q {
        assert s'.procs[p.q] == s.procs[p.q];
      }
    }
  }

  lemma ExecDone(s: State, step: Step, i: nat)
    requires Enabled(s, step) && IsExecStep(step)
    ensures |Apply(s, step).procs| == |s.procs|
    ensures Done(Apply(s, step), step.q, i) == Done(s, step.q, i)
  {
    assert |Hist(s)| >= |s.log|;
  }

  lemma ExecPlaces(s: State, step: Step)
    requires Enabled(s, step) && IsExecStep(step)
    ensures SamePlaces(s, Apply(s, step))
  {
    forall i: nat | i < |s.procs[step.q].sent|
      ensures Done(Apply(s, step), step.q, i) == Done(s, step.q, i)
    {
      ExecDone(s, step, i);
    }
    ProcPlaces(s, Apply(s, step), step.q);
  }

  lemma LoopPlaces(s: State, step: Step)
    requires Enabled(s, step) && IsLoopStep(step)
    ensures SamePlaces(s, Apply(s, step))
  {
    ProcPlaces(s, Apply(s, step), step.q);
  }

  lemma FlowPlaces(s: State, step: Step)
    requires Enabled(s, step) && IsFlowStep(step) && !step.Fetch? && !step.Send?
    ensures SamePlaces(s, Apply(s, step))
  {
    if step.SendPill? {
      ProcPlaces(s, Apply(s, step), s.flow.left[0]);
    } else {
      forall p
        ensures SamePlace(s, Apply(s, step), p)
      {
      }
    }
  }

  lemma PlacesSame(s: State, step: Step)
    requires Enabled(s, step) && !step.Fetch? && !step.Send? && !step.Consume?
    ensures SamePlaces(s, Apply(s, step))
    ensures |Apply(s, step).procs| == |s.procs| && Todo(Apply(s, step).flow) == Todo(s.flow)
  {
    if IsExecStep(step) {
      ExecPlaces(s, step);
    } else if IsLoopStep(step) {
      LoopPlaces(s, step);
    } else if IsFlowStep(step) {
      FlowPlaces(s, step);
    } else {
      assert forall p :: SamePlace(s, Apply(s, step), p);
    }
  }

  // ----- a send

  /** Where a place of the state after a send was before it. */
  function BeforeSend(s: State, p: Place): Place
    requires Enabled(s, Step.Send)
  {
    var q := s.flow.todo[0].0;
    match p
    case Queued(k) => Queued(k + 1)
    case Sent(r, i) => if r == q && q < |s.procs| && i == |s.procs[q].sent| then Queued(0) else p
  }

  ghost predicate SentCovers(s: State) {
    forall q :: 0 <= q < |s.procs| ==> |s.procs[q].execs| <= |s.procs[q].sent|
  }

  lemma InvSentCovers(s: State)
    requires Inv(s)
    ensures SentCovers(s)
  {
    forall q: nat | q < |s.procs|
      ensures |s.procs[q].execs| <= |s.procs[q].sent|
    {
      assert ProcInv(s.procs[q], PillSent(s.flow, q));
    }
  }

  lemma SendMoves(s: State, p: Place)
    requires SentCovers(s) && Enabled(s, Step.Send)
    ensures Occupied(Apply(s, Step.Send), p) ==>
              Occupied(s, BeforeSend(s, p)) && TaskAt(Apply(s, Step.Send), p) == TaskAt(s, BeforeSend(s, p))
  {
    var s' := Apply(s, Step.Send);
    var q := s.flow.todo[0].0;
    if p.Sent? && p.q < |s.procs| && p.q != q {
      assert s'.procs[p.q] == s.procs[p.q];
    }
  }

  /** And where a place is after the send, unless it was the head of a dropped batch. */
  lemma SendKeeps(s: State, p: Place) returns (r: Place)
    requires SentCovers(s) && Enabled(s, Step.Send) && Occupied(s, p)
    requires p != Queued(0) || IsProc(s, s.flow.todo[0].0)
    ensures Occupied(Apply(s, Step.Send), r) && TaskAt(Apply(s, Step.Send), r) == TaskAt(s, p)
  {
    var s' := Apply(s, Step.Send);
    var q := s.flow.todo[0].0;
    match p
    case Queued(k) =>
      if k == 0 {
        r := Sent(q, |s.procs[q].sent|);
      } else {
        r := Queued(k - 1);
      }
    case Sent(t, i) =>
      r := p;
      assert t != q ==> s'.procs[t] == s.procs[t];
  }

  lemma SendFlight(s: State, id: nat)
    requires SentCovers(s) && Enabled(s, Step.Send)
    ensures InFlight(Apply(s, Step.Send), id) ==> InFlight(s, id)
    ensures IsProc(s, s.flow.todo[0].0) || id != s.flow.todo[0].1.id ==>
              (InFlight(s, id) ==> InFlight(Apply(s, Step.Send), id))
  {
    var s' := Apply(s, Step.Send);
    if p :| HasId(s', p, id) {
      SendMoves(s, p);
      assert HasId(s, BeforeSend(s, p), id);
    }
    if IsProc(s, s.flow.todo[0].0) || id != s.flow.todo[0].1.id {
      if p :| HasId(s, p, id) {
        var r := SendKeeps(s, p);
        assert HasId(s', r, id);
      }
    }
  }

  /** A task that is dropped was in flight at the head of the batch only. */
  lemma DropFlight(s: State)
    requires SentCovers(s) && Enabled(s, Step.Send) && !IsProc(s, s.flow.todo[0].0)
    requires OnceFor(s, s.flow.todo[0].1.id)
    ensures !InFlight(Apply(s, Step.Send), s.flow.todo[0].1.id)
  {
    var id := s.flow.todo[0].1.id;
    assert HasId(s, Queued(0), id);
    if p :| HasId(Apply(s, Step.Send), p, id) {
      SendMoves(s, p);
      assert HasId(s, BeforeSend(s, p), id);
      assert false;
    }
  }

  lemma SendOnce(s: State, id: nat)
    requires SentCovers(s) && Enabled(s, Step.Send) && OnceFor(s, id)
    ensures OnceFor(Apply(s, Step.Send), id)
  {
    var s' := Apply(s, Step.Send);
    forall p, r | HasId(s', p, id) && HasId(s', r, id)
      ensures p == r
    {
      SendMoves(s, p);
      SendMoves(s, r);
      assert HasId(s, BeforeSend(s, p), id) && HasId(s, BeforeSend(s, r), id);
    }
  }

  // ----- a fetch

  lemma FetchMoves(w: World, now: int, batch: seq<TaskMeta>, p: Place)
    requires Possible(w, FetchDue(now, batch))
    ensures var s' := PipeAfter(w, FetchDue(now, batch));
            && (Occupied(s', p) <==> if p.Queued? then p.k < |batch| else Occupied(w.pipe, p))
            && (Occupied(s', p) ==> TaskAt(s', p) == if p.Queued? then batch[p.k] else TaskAt(w.pipe, p))
  {
  }

  lemma FetchFlight(w: World, now: int, batch: seq<TaskMeta>, id: nat)
    requires Possible(w, FetchDue(now, batch))
    ensures InFlight(PipeAfter(w, FetchDue(now, batch)), id) <==> InFlight(w.pipe, id) || id in Ids(batch)
  {
    var s' := PipeAfter(w, FetchDue(now, batch));
    if p :| HasId(s', p, id) {
      FetchMoves(w, now, batch, p);
      assert p.Sent? ==> HasId(w.pipe, p, id);
    }
    if p :| HasId(w.pipe, p, id) {
      FetchMoves(w, now, batch, p);
      assert HasId(s', p, id);
    }
    if id in Ids(batch) {
      var k: nat :| k < |batch| && batch[k].id == id;
      FetchMoves(w, now, batch, Queued(k));
      assert HasId(s', Queued(k), id);
    }
  }

  /** A fetch hands a task out twice exactly when it hands out one that is in flight. */
  lemma FetchOnceFor(w: World, now: int, batch: seq<TaskMeta>, id: nat)
    requires Possible(w, FetchDue(now, batch)) && OnceFor(w.pipe, id)
    ensures OnceFor(PipeAfter(w, FetchDue(now, batch)), id) <==> !(id in Ids(batch) && InFlight(w.pipe, id))
  {
    var s' := PipeAfter(w, FetchDue(now, batch));
    if id in Ids(batch) && InFlight(w.pipe, id) {
      var p :| HasId(w.pipe, p, id);
      var k: nat :| k < |batch| && batch[k].id == id;
      FetchMoves(w, now, batch, p);
      FetchMoves(w, now, batch, Queued(k));
      assert HasId(s', p, id) && HasId(s', Queued(k), id) && p != Queued(k);
    } else {
      forall p, r | HasId(s', p, id) && HasId(s', r, id)
        ensures p == r
      {
        FetchMoves(w, now, batch, p);
        FetchMoves(w, now, batch, r);
        assert p.Sent? ==> HasId(w.pipe, p, id);
        assert r.Sent? ==> HasId(w.pipe, r, id);
      }
    }
  }

  // ----- a consumed result

  /** Consuming a result frees its place and no other. */
  lemma ConsumeMoves(s: State, p: Place)
    requires Inv(s) && Enabled(s, Consume)
    ensures var s', r := Apply(s, Consume), s.queue[0];
            && (Occupied(s', p) <==> Occupied(s, p) && !(r.ExecutionResult? && p == Sent(r.q, r.i)))
            && (Occupied(s', p) ==> TaskAt(s', p) == TaskAt(s, p))
  {
    assert Hist(s)[|s.log|] == s.queue[0];
    assert EntryOk(s.procs, Hist(s)[|s.log|], |s.log|);
    if p.Sent? && p.q < |s.procs| && p.i < |s.procs[p.q].execs| {
      assert MarkOk(s.procs[p.q].execs[p.i], p.q, p.i, Hist(s));
    }
  }

  lemma ResultPlace(s: State)
    requires Inv(s) && Enabled(s, Consume) && s.queue[0].ExecutionResult?
    ensures var r := s.queue[0];
            Occupied(s, Sent(r.q, r.i)) && TaskAt(s, Sent(r.q, r.i)) == r.task
  {
    var r := s.queue[0];
    assert Hist(s)[|s.log|] == r;
    assert EntryOk(s.procs, r, |s.log|);
    var p := s.procs[r.q];
    assert ProcInv(p, PillSent(s.flow, r.q));
    assert p.sent[r.i] == Started(p.execs)[r.i];
  }

  lemma ConsumeFlight(s: State, id: nat)
    requires Inv(s) && Enabled(s, Consume)
    ensures InFlight(Apply(s, Consume), id) ==> InFlight(s, id)
    ensures !(s.queue[0].ExecutionResult? && s.queue[0].task.id == id) ==>
              (InFlight(s, id) ==> InFlight(Apply(s, Consume), id))
  {
    var s', r := Apply(s, Consume), s.queue[0];
    if r.ExecutionResult? {
      ResultPlace(s);
    }
    if p :| HasId(s', p, id) {
      ConsumeMoves(s, p);
      assert HasId(s, p, id);
    }
    if p :| HasId(s, p, id) {
      ConsumeMoves(s, p);
      assert (r.ExecutionResult? && r.task.id == id) || HasId(s', p, id);
    }
  }

  /** A task whose result is consumed was in flight there only. */
  lemma ResultFlight(s: State)
    requires Inv(s) && Enabled(s, Consume) && s.queue[0].ExecutionResult?
    requires OnceFor(s, s.queue[0].task.id)
    ensures InFlight(s, s.queue[0].task.id) && !InFlight(Apply(s, Consume), s.queue[0].task.id)
  {
    var r := s.queue[0];
    ResultPlace(s);
    assert HasId(s, Sent(r.q, r.i), r.task.id);
    if p :| HasId(Apply(s, Consume), p, r.task.id) {
      ConsumeMoves(s, p);
      assert HasId(s, p, r.task.id);
      assert false;
    }
  }

  lemma ConsumeOnce(s: State, id: nat)
    requires Inv(s) && Enabled(s, Consume) && OnceFor(s, id)
    ensures OnceFor(Apply(s, Consume), id)
  {
    var s' := Apply(s, Consume);
    forall p, r | HasId(s', p, id) && HasId(s', r, id)
      ensures p == r
    {
      ConsumeMoves(s, p);
      ConsumeMoves(s, r);
      assert HasId(s, p, id) && HasId(s, r, id);
    }
  }

  // ----- a restart

  lemma RestartFrees(s: State, p: Place)
    ensures !Occupied(Restarted(s), p)
  {
  }

  lemma RestartInv(s: State)
    requires Inv(s)
    ensures Inv(Restarted(s))
  {
    forall p | p in Restarted(s).procs
      ensures Fresh(p)
    {
      var q: nat :| q < |s.procs| && Restarted(s).procs[q] == p;
      assert ProcInv(s.procs[q], PillSent(s.flow, q));
    }
    InitInv(Restarted(s));
  }

  // ----- every action

  /** The pipeline's invariant holds in every history, whatever the store does. */
  lemma ActKeepsPipe(w: World, a: Action)
    requires Inv(w.pipe) && Possible(w, a)
    ensures Inv(Act(w, a).pipe)
    ensures Act(w, a).pipe == PipeAfter(w, a)
  {
    match a
    case FetchDue(_, batch) => StepKeepsInv(w.pipe, Fetch(Routed(w, batch)));
    case HandlerEnds(q, i, error, now) =>
      StepKeepsInv(w.pipe, Complete(q, i, ResultOf(w.pipe.procs[q].execs[i].task, error, now)));
    case Record(_) => StepKeepsInv(w.pipe, Consume);
    case Restart => RestartInv(w.pipe);
    case Other(step) => StepKeepsInv(w.pipe, step);
    case _ =>
  }

  /** The actions that leave every task where it is. */
  predicate MovesNothing(a: Action) {
    !a.FetchDue? && !a.Record? && !a.Restart? && !(a.Other? && a.step.Send?)
  }

  lemma NothingMoves(w: World, a: Action)
    requires Possible(w, a) && MovesNothing(a)
    ensures SamePlaces(w.pipe, PipeAfter(w, a))
    ensures |PipeAfter(w, a).procs| == |w.pipe.procs| && Todo(PipeAfter(w, a).flow) == Todo(w.pipe.flow)
  {
    if a.HandlerEnds? {
      PlacesSame(w.pipe, Complete(a.q, a.i, ResultOf(w.pipe.procs[a.q].execs[a.i].task, a.error, a.now)));
    } else if a.Other? {
      PlacesSame(w.pipe, a.step);
    } else {
      assert forall p :: SamePlace(w.pipe, w.pipe, p);
    }
  }

  /** Only a fetch can put a task in flight twice: every other action keeps each task at
      one place at most. */
  lemma ActKeepsOnce(w: World, a: Action, id: nat)
    requires Inv(w.pipe) && Possible(w, a) && !a.FetchDue? && OnceFor(w.pipe, id)
    ensures OnceFor(Act(w, a).pipe, id)
  {
    ActKeepsPipe(w, a);
    if MovesNothing(a) {
      NothingMoves(w, a);
      SameFlight(w.pipe, PipeAfter(w, a), id);
    } else if a.Record? {
      ConsumeOnce(w.pipe, id);
    } else if a.Other? {
      InvSentCovers(w.pipe);
      SendOnce(w.pipe, id);
    }
  }

  // ----- results are genuine

  /** A result of an attempt of this task. */
  ghost predicate Genuine(task: TaskMeta, result: TaskResult) {
    exists now :: result == ResultOf(task, result.error, now)
  }

  ghost predicate GenuineRequest(r: Request) {
    r.ExecutionResult? ==> Genuine(r.task, r.result)
  }

  ghost predicate GenuineExec(e: Exec) {
    e.phase.Reporting? ==> Genuine(e.task, e.phase.result)
  }

  ghost predicate GenuineOk(s: State) {
    && (forall a: nat :: a < |Hist(s)| ==> GenuineRequest(Hist(s)[a]))
    && (forall q: nat, i: nat :: q < |s.procs| && i < |s.procs[q].execs| ==> GenuineExec(s.procs[q].execs[i]))
  }

  lemma GenuinePushed(s: State, r: Request)
    requires GenuineOk(s) && GenuineRequest(r)
    ensures GenuineOk(Push(s, r))
  {
    var s' := Push(s, r);
    if !s.stopped {
      assert Hist(s') == Hist(s) + [r];
      forall a: nat | a < |Hist(s')|
        ensures GenuineRequest(Hist(s')[a])
      {
        if a < |Hist(s)| {
          assert GenuineRequest(Hist(s)[a]);
        }
      }
    }
  }

  lemma GenuineProc(s: State, q: nat, p: Proc)
    requires GenuineOk(s) && q < |s.procs|
    requires forall i: nat :: i < |p.execs| ==> GenuineExec(p.execs[i])
    ensures GenuineOk(SetProc(s, q, p))
  {
    var s' := SetProc(s, q, p);
    assert Hist(s') == Hist(s);
    forall r: nat, i: nat | r < |s'.procs| && i < |s'.procs[r].execs|
      ensures GenuineExec(s'.procs[r].execs[i])
    {
      assert r != q ==> s'.procs[r] == s.procs[r];
    }
  }

  lemma GenuinePhase(s: State, q: nat, i: nat, p: Proc)
    requires GenuineOk(s) && IsExec(s, q, i)
    requires |p.execs| == |s.procs[q].execs| && GenuineExec(p.execs[i])
    requires forall j :: 0 <= j < |p.execs| && j != i ==> p.execs[j] == s.procs[q].execs[j]
    ensures GenuineOk(SetProc(s, q, p))
  {
    forall j: nat | j < |p.execs|
      ensures GenuineExec(p.execs[j])
    {
      assert j != i ==> GenuineExec(s.procs[q].execs[j]);
    }
    GenuineProc(s, q, p);
  }

  lemma GenuineExecStep(s: State, step: Step)
    requires GenuineOk(s) && Enabled(s, step) && IsExecStep(step)
    requires step.Complete? ==> Genuine(s.procs[step.q].execs[step.i].task, step.result)
    ensures GenuineOk(Apply(s, step))
  {
    var q, i := step.q, step.i;
    var p := Apply(s, step).procs[q];
    var e := s.procs[q].execs[i];
    GenuinePhase(s, q, i, p);
    if step.Beat? {
      GenuinePushed(SetProc(s, q, p), Heartbeat(q, i));
    } else if step.Report? {
      assert GenuineExec(e);
      GenuinePushed(SetProc(s, q, p), ExecutionResult(q, i, e.task, e.phase.result));
    }
  }

  lemma GenuineLoopStep(s: State, step: Step)
    requires GenuineOk(s) && Enabled(s, step) && IsLoopStep(step)
    ensures GenuineOk(Apply(s, step))
  {
    var q := step.q;
    var p := Apply(s, step).procs[q];
    forall i: nat | i < |p.execs|
      ensures GenuineExec(p.execs[i])
    {
      assert i < |s.procs[q].execs| ==> GenuineExec(s.procs[q].execs[i]);
    }
    GenuineProc(s, q, p);
    if step.Exit? {
      GenuinePushed(SetProc(s, q, p), Pill);
    }
  }

  lemma GenuineFlowStep(s: State, step: Step)
    requires GenuineOk(s) && Enabled(s, step) && IsFlowStep(step)
    ensures GenuineOk(Apply(s, step))
  {
    var s' := Apply(s, step);
    assert Hist(s') == Hist(s);
    forall q: nat, i: nat | q < |s'.procs| && i < |s'.procs[q].execs|
      ensures GenuineExec(s'.procs[q].execs[i])
    {
      assert s'.procs[q].execs == s.procs[q].execs;
    }
  }

  lemma GenuineUpdaterStep(s: State, step: Step)
    requires GenuineOk(s) && Enabled(s, step)
    requires step.Consume? || step.SendersGone?
    ensures GenuineOk(Apply(s, step))
  {
    assert Hist(Apply(s, step)) == Hist(s);
  }

  lemma GenuineStep(s: State, step: Step)
    requires GenuineOk(s) && Enabled(s, step) && !step.Complete?
    ensures GenuineOk(Apply(s, step))
  {
    if IsExecStep(step) {
      GenuineExecStep(s, step);
    } else if IsLoopStep(step) {
      GenuineLoopStep(s, step);
    } else if IsFlowStep(step) {
      GenuineFlowStep(s, step);
    } else {
      GenuineUpdaterStep(s, step);
    }
  }

  lemma HeadIsGenuine(s: State)
    requires GenuineOk(s) && Enabled(s, Consume)
    ensures GenuineRequest(s.queue[0])
  {
    assert Hist(s)[|s.log|] == s.queue[0];
    assert GenuineRequest(Hist(s)[|s.log|]);
  }

  lemma ActKeepsGenuine(w: World, a: Action)
    requires GenuineOk(w.pipe) && Possible(w, a)
    ensures GenuineOk(PipeAfter(w, a))
  {
    match a
    case FetchDue(_, batch) => GenuineStep(w.pipe, Fetch(Routed(w, batch)));
    case HandlerEnds(q, i, error, now) =>
      var task := w.pipe.procs[q].execs[i].task;
      assert Genuine(task, ResultOf(task, error, now));
      GenuineExecStep(w.pipe, Complete(q, i, ResultOf(task, error, now)));
    case Record(_) => GenuineStep(w.pipe, Consume);
    case Restart => assert Hist(Restarted(w.pipe)) == [];
    case Other(step) => GenuineStep(w.pipe, step);
    case _ =>
  }
}
