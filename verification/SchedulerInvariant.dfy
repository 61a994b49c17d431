/** The invariant of every history, whatever is stopped, removed, retried or restarted. */
module SchedulerInvariant {
  import opened Tasks
  import opened Pipeline
  import opened PipelineInvariant
  import opened Scheduler
  import opened SchedulerPlaces

  ghost predicate StoreOk(w: World) {
    && (forall id :: id in w.tasks ==> w.tasks[id].id == id && id in w.used)
    && w.dropped <= w.used && w.unsaved <= w.used
  }

  ghost predicate RouteOk(w: World) {
    && (forall name :: name in w.route ==> w.route[name] < |w.pipe.procs|)
    && (forall k :: 0 <= k < |Todo(w.pipe.flow)| ==>
          Todo(w.pipe.flow)[k].0 == QueueIndex(w, Todo(w.pipe.flow)[k].1.queueName))
  }

  /** A claimed task names the queue and the retry bound of its row. */
  ghost predicate Named(w: World, m: TaskMeta) {
    && m.id in w.used
    && (m.id in w.tasks ==> w.tasks[m.id].queueName == m.queueName && w.tasks[m.id].maxRetries == m.maxRetries)
  }

  ghost predicate PlacesOk(w: World) {
    forall p :: Occupied(w.pipe, p) ==> Named(w, TaskAt(w.pipe, p))
  }

  ghost predicate Lost(w: World, id: nat) {
    id in w.dropped || id in w.unsaved
  }

  /** A task is marked Running only while it is in flight, unless its claim got lost. */
  ghost predicate RowOk(w: World, id: nat)
    requires id in w.tasks
  {
    && (w.tasks[id].status.Running? ==> InFlight(w.pipe, id) || Lost(w, id))
    && (id in w.dropped ==> w.tasks[id].queueName !in w.route)
  }

  ghost predicate RowsOk(w: World) {
    forall id :: id in w.tasks ==> RowOk(w, id)
  }

  ghost predicate BaseInv(w: World) {
    Inv(w.pipe) && StoreOk(w) && RouteOk(w) && PlacesOk(w) && GenuineOk(w.pipe) && RowsOk(w)
  }

  lemma BeginBase(w: World)
    requires Begin(w)
    ensures BaseInv(w)
  {
    InitInv(w.pipe);
    NothingAtFirst(w);
    forall q: nat | q < |w.pipe.procs|
      ensures w.pipe.procs[q].execs == []
    {
      assert w.pipe.procs[q] in w.pipe.procs;
    }
  }

  lemma NothingAtFirst(w: World)
    requires Begin(w)
    ensures forall p :: !Occupied(w.pipe, p)
  {
    forall p
      ensures !Occupied(w.pipe, p)
    {
      if p.Sent? && p.q < |w.pipe.procs| {
        assert w.pipe.procs[p.q] in w.pipe.procs;
        assert Fresh(w.pipe.procs[p.q]);
      }
    }
  }

  predicate OnStore(a: Action) {
    a.AddTask? || a.SetStatus? || a.RetryTask? || a.CleanTask?
  }

  lemma StoreActionBase(w: World, a: Action)
    requires BaseInv(w) && Possible(w, a) && OnStore(a)
    ensures BaseInv(Act(w, a))
  {
    var w' := Act(w, a);
    forall p | Occupied(w'.pipe, p)
      ensures Named(w', TaskAt(w'.pipe, p))
    {
      assert Named(w, TaskAt(w.pipe, p));
    }
    forall id | id in w'.tasks
      ensures RowOk(w', id)
    {
      if id in w.tasks {
        assert RowOk(w, id);
      }
    }
  }

  lemma QuietActionBase(w: World, a: Action)
    requires BaseInv(w) && Possible(w, a) && MovesNothing(a) && !OnStore(a)
    ensures BaseInv(Act(w, a))
  {
    var w' := Act(w, a);
    ActKeepsPipe(w, a);
    ActKeepsGenuine(w, a);
    NothingMoves(w, a);
    forall p | Occupied(w'.pipe, p)
      ensures Named(w', TaskAt(w'.pipe, p))
    {
      assert SamePlace(w.pipe, w'.pipe, p);
      assert Named(w, TaskAt(w.pipe, p));
    }
    forall id | id in w'.tasks
      ensures RowOk(w', id)
    {
      SameFlight(w.pipe, w'.pipe, id);
      assert RowOk(w, id);
    }
  }

  lemma SendFrame(w: World)
    requires StoreOk(w) && RouteOk(w) && PlacesOk(w) && Possible(w, Other(Step.Send))
    ensures var w', head := Act(w, Other(Step.Send)), w.pipe.flow.todo[0];
            && w'.pipe == Apply(w.pipe, Step.Send)
            && w' == w.(pipe := w'.pipe, dropped := w'.dropped)
            && w'.dropped == w.dropped + (if IsProc(w.pipe, head.0) then {} else {head.1.id})
            && StoreOk(w') && RouteOk(w')
            && (!IsProc(w.pipe, head.0) ==> head.1.queueName !in w.route)
  {
    var head := w.pipe.flow.todo[0];
    assert Todo(w.pipe.flow)[0] == head;
    assert Occupied(w.pipe, Queued(0)) && Named(w, TaskAt(w.pipe, Queued(0)));
  }

  lemma SendBase(w: World)
    requires BaseInv(w) && Possible(w, Other(Step.Send))
    ensures BaseInv(Act(w, Other(Step.Send)))
  {
    var a, w' := Other(Step.Send), Act(w, Other(Step.Send));
    ActKeepsPipe(w, a);
    ActKeepsGenuine(w, a);
    InvSentCovers(w.pipe);
    SendFrame(w);
    forall p | Occupied(w'.pipe, p)
      ensures Named(w', TaskAt(w'.pipe, p))
    {
      SendMoves(w.pipe, p);
      assert Named(w, TaskAt(w.pipe, BeforeSend(w.pipe, p)));
    }
    assert Occupied(w.pipe, Queued(0)) && Named(w, TaskAt(w.pipe, Queued(0)));
    forall id | id in w'.tasks
      ensures RowOk(w', id)
    {
      SendFlight(w.pipe, id);
      assert RowOk(w, id);
    }
  }

  lemma FetchFrame(w: World, now: int, batch: seq<TaskMeta>)
    requires StoreOk(w) && RouteOk(w) && Possible(w, FetchDue(now, batch))
    ensures var w' := Act(w, FetchDue(now, batch));
            && w' == w.(pipe := w'.pipe, tasks := Claimed(w.tasks, Ids(batch)), halted := w.halted - Ids(batch))
            && StoreOk(w') && RouteOk(w')
  {
  }

  lemma FetchBase(w: World, now: int, batch: seq<TaskMeta>)
    requires BaseInv(w) && Possible(w, FetchDue(now, batch))
    ensures BaseInv(Act(w, FetchDue(now, batch)))
  {
    var a, w' := FetchDue(now, batch), Act(w, FetchDue(now, batch));
    ActKeepsPipe(w, a);
    ActKeepsGenuine(w, a);
    FetchFrame(w, now, batch);
    forall p | Occupied(w'.pipe, p)
      ensures Named(w', TaskAt(w'.pipe, p))
    {
      FetchMoves(w, now, batch, p);
      if p.Sent? {
        assert Named(w, TaskAt(w.pipe, p));
      } else {
        assert batch[p.k] in batch;
      }
    }
    forall id | id in w'.tasks
      ensures RowOk(w', id)
    {
      FetchFlight(w, now, batch, id);
      assert RowOk(w, id);
    }
  }

  lemma RecordFrame(w: World, saved: bool)
    requires Possible(w, Record(saved)) && StoreOk(w) && RouteOk(w)
    ensures var w' := Act(w, Record(saved));
            && w'.pipe == Apply(w.pipe, Consume)
            && w' == w.(pipe := w'.pipe, tasks := w'.tasks, unsaved := w'.unsaved, events := w'.events)
            && w'.tasks.Keys == w.tasks.Keys
            && (forall id :: id in w.tasks ==>
                  w'.tasks[id].queueName == w.tasks[id].queueName && w'.tasks[id].maxRetries == w.tasks[id].maxRetries)
            && StoreOk(w') && RouteOk(w')
  {
  }

  lemma RecordBase(w: World, saved: bool)
    requires BaseInv(w) && Possible(w, Record(saved))
    ensures BaseInv(Act(w, Record(saved)))
  {
    var a, w' := Record(saved), Act(w, Record(saved));
    ActKeepsPipe(w, a);
    ActKeepsGenuine(w, a);
    RecordFrame(w, saved);
    forall p | Occupied(w'.pipe, p)
      ensures Named(w', TaskAt(w'.pipe, p))
    {
      ConsumeMoves(w.pipe, p);
      assert Named(w, TaskAt(w.pipe, p));
    }
    forall id | id in w'.tasks
      ensures RowOk(w', id)
    {
      assert RowOk(w, id);
      RecordRow(w, saved, id);
    }
  }

  lemma RecordRow(w: World, saved: bool, id: nat)
    requires Inv(w.pipe) && StoreOk(w) && RouteOk(w) && Possible(w, Record(saved))
    requires id in w.tasks && RowOk(w, id)
    ensures id in Act(w, Record(saved)).tasks && RowOk(Act(w, Record(saved)), id)
  {
    RecordFrame(w, saved);
    ConsumeFlight(w.pipe, id);
  }

  lemma RestartBase(w: World)
    requires BaseInv(w)
    ensures BaseInv(Act(w, Restart))
  {
    ActKeepsPipe(w, Restart);
    ActKeepsGenuine(w, Restart);
    forall p
      ensures !Occupied(Act(w, Restart).pipe, p)
    {
      RestartFrees(w.pipe, p);
    }
  }

  lemma ActKeepsBase(w: World, a: Action)
    requires BaseInv(w) && Possible(w, a)
    ensures BaseInv(Act(w, a))
  {
    if OnStore(a) {
      StoreActionBase(w, a);
    } else if MovesNothing(a) {
      QuietActionBase(w, a);
    } else if a.FetchDue? {
      FetchBase(w, a.now, a.batch);
    } else if a.Record? {
      RecordBase(w, a.saved);
    } else if a.Restart? {
      RestartBase(w);
    } else {
      SendBase(w);
    }
  }

  lemma {:induction false} HistoryKeepsBase(w: World, actions: seq<Action>)
    requires BaseInv(w) && IsHistory(w, actions)
    ensures BaseInv(Final(w, actions))
    decreases |actions|
  {
    if |actions| > 0 {
      ActKeepsBase(w, actions[0]);
      HistoryKeepsBase(Act(w, actions[0]), actions[1..]);
    }
  }
}
