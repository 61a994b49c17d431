/** What holds of one task as long as no manual retry hits that task in flight. */
module SchedulerTaskInvariant {
  import opened Tasks
  import opened Pipeline
  import opened Scheduler
  import opened SchedulerPlaces
  import opened SchedulerInvariant
  import opened SchedulerCounts

  /** The status of a claimed task: Running, or what it was halted to since. */
  ghost predicate HasClaimedStatus(w: World, id: nat)
    requires id in w.tasks
  {
    if id in w.halted then Halting(w.tasks[id].status) else w.tasks[id].status.Running?
  }

  /** What is in flight is the stored task as it was claimed; only its status may differ. */
  ghost predicate Snapshot(w: World, m: TaskMeta) {
    m.id in w.tasks ==> w.tasks[m.id].(status := m.status) == m && HasClaimedStatus(w, m.id)
  }

  ghost predicate LostOk(w: World, id: nat)
    requires id in w.tasks
  {
    Lost(w, id) ==> !InFlight(w.pipe, id) && HasClaimedStatus(w, id)
  }

  ghost predicate SnapshotAt(w: World, p: Place, id: nat) {
    HasId(w.pipe, p, id) ==> Snapshot(w, TaskAt(w.pipe, p))
  }

  ghost predicate TaskInv(w: World, id: nat) {
    && OnceFor(w.pipe, id)
    && (forall p :: SnapshotAt(w, p, id))
    && (id in w.tasks ==> LostOk(w, id))
    && CountRight(w, id)
  }

  // ----- actions that leave the task alone

  /** Every place of the task was a place of the task before, holding the same. */
  ghost predicate FromPlace(s: State, s': State, p: Place, id: nat) {
    HasId(s', p, id) ==> exists r :: HasId(s, r, id) && TaskAt(s, r) == TaskAt(s', p)
  }

  /** The row, the marks and the history of the task are as before. */
  ghost predicate SameTask(w: World, w': World, id: nat) {
    && (id in w'.tasks <==> id in w.tasks)
    && (id in w.tasks ==> w'.tasks[id] == w.tasks[id])
    && (Lost(w', id) <==> Lost(w, id)) && (id in w'.halted <==> id in w.halted)
    && FailuresSince(w'.events, id) == FailuresSince(w.events, id)
  }

  lemma TaskMoved(w: World, w': World, id: nat)
    requires TaskInv(w, id) && SameTask(w, w', id)
    requires OnceFor(w'.pipe, id) && (InFlight(w'.pipe, id) <==> InFlight(w.pipe, id))
    requires forall p :: FromPlace(w.pipe, w'.pipe, p, id)
    ensures TaskInv(w', id)
  {
    forall p
      ensures SnapshotAt(w', p, id)
    {
      assert FromPlace(w.pipe, w'.pipe, p, id);
      if HasId(w'.pipe, p, id) {
        var r :| HasId(w.pipe, r, id) && TaskAt(w.pipe, r) == TaskAt(w'.pipe, p);
        assert SnapshotAt(w, r, id);
      }
    }
  }

  /** And if the task's places are the same, it does not matter what moves elsewhere. */
  lemma TaskKept(w: World, w': World, id: nat)
    requires TaskInv(w, id) && SameTask(w, w', id) && SamePlaces(w.pipe, w'.pipe)
    ensures TaskInv(w', id)
  {
    SameFlight(w.pipe, w'.pipe, id);
    forall p
      ensures FromPlace(w.pipe, w'.pipe, p, id)
    {
      assert SamePlace(w.pipe, w'.pipe, p);
    }
    TaskMoved(w, w', id);
  }

  lemma QuietActionTask(w: World, a: Action, id: nat)
    requires TaskInv(w, id) && Possible(w, a) && MovesNothing(a) && !OnStore(a)
    ensures TaskInv(Act(w, a), id)
  {
    NothingMoves(w, a);
    TaskKept(w, Act(w, a), id);
  }

  // ----- actions on the store

  function TargetOf(a: Action): nat
    requires OnStore(a)
  {
    if a.AddTask? then a.meta.id else a.id
  }

  lemma ElsewhereTask(w: World, a: Action, id: nat)
    requires TaskInv(w, id) && Possible(w, a) && OnStore(a) && TargetOf(a) != id
    ensures TaskInv(Act(w, a), id)
  {
    if a.AddTask? {
      EventsAppend(w.events, Added(a.meta.id), id);
    } else if a.RetryTask? {
      EventsAppend(w.events, Rewound(a.id), id);
    }
    NothingMoves(w, a);
    TaskKept(w, Act(w, a), id);
  }

  lemma AddedTask(w: World, meta: TaskMeta)
    requires BaseInv(w) && Possible(w, AddTask(meta))
    ensures TaskInv(Act(w, AddTask(meta)), meta.id)
  {
    EventsAppend(w.events, Added(meta.id), meta.id);
    forall p
      ensures !HasId(w.pipe, p, meta.id)
    {
      assert Occupied(w.pipe, p) ==> Named(w, TaskAt(w.pipe, p));
    }
  }

  lemma HaltedTask(w: World, id: nat, status: TaskStatus)
    requires TaskInv(w, id) && Possible(w, SetStatus(id, status))
    ensures TaskInv(Act(w, SetStatus(id, status)), id)
  {
    var w' := Act(w, SetStatus(id, status));
    forall p
      ensures SnapshotAt(w', p, id)
    {
      assert SnapshotAt(w, p, id);
    }
  }

  /** A manual retry of a task that is not in flight. */
  lemma RetriedTask(w: World, id: nat, now: int)
    requires TaskInv(w, id) && Possible(w, RetryTask(id, now))
    requires !InFlight(w.pipe, id)
    ensures TaskInv(Act(w, RetryTask(id, now)), id)
  {
    EventsAppend(w.events, Rewound(id), id);
  }

  lemma CleanedTask(w: World, id: nat)
    requires StoreOk(w) && TaskInv(w, id) && Possible(w, CleanTask(id))
    ensures TaskInv(Act(w, CleanTask(id)), id)
  {
  }

  // ----- a send

  lemma SendTask(w: World, id: nat)
    requires BaseInv(w) && TaskInv(w, id) && Possible(w, Other(Step.Send))
    ensures TaskInv(Act(w, Other(Step.Send)), id)
  {
    var s, w' := w.pipe, Act(w, Other(Step.Send));
    var head := s.flow.todo[0];
    InvSentCovers(s);
    SendFrame(w);
    SendOnce(s, id);
    SendFlight(s, id);
    forall p
      ensures FromPlace(s, w'.pipe, p, id)
    {
      SendMoves(s, p);
      assert HasId(w'.pipe, p, id) ==> HasId(s, BeforeSend(s, p), id);
    }
    if !IsProc(s, head.0) && head.1.id == id {
      DropTask(w, w');
    } else {
      TaskMoved(w, w', id);
    }
  }

  /** The task at the head of the batch is dropped. */
  lemma DropTask(w: World, w': World)
    requires SentCovers(w.pipe) && Possible(w, Other(Step.Send)) && !IsProc(w.pipe, w.pipe.flow.todo[0].0)
    requires TaskInv(w, w.pipe.flow.todo[0].1.id)
    requires w' == w.(pipe := Apply(w.pipe, Step.Send), dropped := w.dropped + {w.pipe.flow.todo[0].1.id})
    ensures TaskInv(w', w.pipe.flow.todo[0].1.id)
  {
    var id := w.pipe.flow.todo[0].1.id;
    DropFlight(w.pipe);
    assert HasId(w.pipe, Queued(0), id) && SnapshotAt(w, Queued(0), id);
    assert InFlight(w.pipe, id);
    forall p
      ensures !HasId(w'.pipe, p, id)
    {
    }
  }

  // ----- a fetch

  /** A task that is due is not in flight. */
  lemma DueIsIdle(w: World, id: nat)
    requires TaskInv(w, id) && id in w.tasks && w.tasks[id].status.Scheduled?
    ensures !InFlight(w.pipe, id) && !Lost(w, id)
  {
    forall p
      ensures !HasId(w.pipe, p, id)
    {
      assert SnapshotAt(w, p, id);
    }
  }

  lemma FetchedTask(w: World, now: int, batch: seq<TaskMeta>, k: nat)
    requires Possible(w, FetchDue(now, batch)) && k < |batch| && TaskInv(w, batch[k].id)
    ensures TaskInv(Act(w, FetchDue(now, batch)), batch[k].id)
  {
    var w', id := Act(w, FetchDue(now, batch)), batch[k].id;
    assert batch[k] in batch && w.tasks[id] == batch[k];
    DueIsIdle(w, id);
    FetchOnceFor(w, now, batch, id);
    FetchFlight(w, now, batch, id);
    forall p
      ensures SnapshotAt(w', p, id)
    {
      FetchMoves(w, now, batch, p);
      assert p.Sent? ==> !HasId(w.pipe, p, id);
    }
  }

  lemma FetchTask(w: World, now: int, batch: seq<TaskMeta>, id: nat)
    requires TaskInv(w, id) && Possible(w, FetchDue(now, batch))
    ensures TaskInv(Act(w, FetchDue(now, batch)), id)
  {
    if id in Ids(batch) {
      var k: nat :| k < |batch| && batch[k].id == id;
      FetchedTask(w, now, batch, k);
    } else {
      var w' := Act(w, FetchDue(now, batch));
      FetchOnceFor(w, now, batch, id);
      FetchFlight(w, now, batch, id);
      forall p
        ensures FromPlace(w.pipe, w'.pipe, p, id)
      {
        FetchMoves(w, now, batch, p);
        if HasId(w'.pipe, p, id) {
          assert HasId(w.pipe, p, id);
        }
      }
      TaskMoved(w, w', id);
    }
  }

  // ----- a recorded result

  lemma RecordOwn(w: World, saved: bool)
    requires BaseInv(w) && Possible(w, Record(saved))
    requires w.pipe.queue[0].ExecutionResult? && TaskInv(w, w.pipe.queue[0].task.id)
    ensures TaskInv(Act(w, Record(saved)), w.pipe.queue[0].task.id)
  {
    var r, w' := w.pipe.queue[0], Act(w, Record(saved));
    var id := r.task.id;
    ResultPlace(w.pipe);
    ResultFlight(w.pipe);
    ConsumeOnce(w.pipe, id);
    assert SnapshotAt(w, Sent(r.q, r.i), id);
    assert w'.pipe == Apply(w.pipe, Consume);
    forall p
      ensures !HasId(w'.pipe, p, id)
    {
    }
    RightAfterRecord(w, saved, id);
  }

  lemma RecordElsewhere(w: World, saved: bool, id: nat)
    requires Possible(w, Record(saved))
    requires !(w.pipe.queue[0].ExecutionResult? && w.pipe.queue[0].task.id == id)
    ensures Act(w, Record(saved)).pipe == Apply(w.pipe, Consume)
    ensures SameTask(w, Act(w, Record(saved)), id)
  {
    var r := w.pipe.queue[0];
    if r.ExecutionResult? {
      EventsAppend(w.events, Recorded(r.task.id, r.result.error.None?), id);
    }
  }

  lemma RecordTask(w: World, saved: bool, id: nat)
    requires BaseInv(w) && TaskInv(w, id) && Possible(w, Record(saved))
    ensures TaskInv(Act(w, Record(saved)), id)
  {
    var r, w' := w.pipe.queue[0], Act(w, Record(saved));
    if r.ExecutionResult? && r.task.id == id {
      RecordOwn(w, saved);
    } else {
      RecordElsewhere(w, saved, id);
      ConsumeOnce(w.pipe, id);
      ConsumeFlight(w.pipe, id);
      forall p
        ensures FromPlace(w.pipe, w'.pipe, p, id)
      {
        ConsumeMoves(w.pipe, p);
        assert HasId(w'.pipe, p, id) ==> HasId(w.pipe, p, id);
      }
      TaskMoved(w, w', id);
    }
  }

  // ----- a restart

  lemma RestartTask(w: World, id: nat)
    requires TaskInv(w, id)
    ensures TaskInv(Act(w, Restart), id)
  {
    forall p
      ensures !HasId(Act(w, Restart).pipe, p, id)
    {
      RestartFrees(w.pipe, p);
    }
  }

  // ----- every action

  /** The action is no manual retry of this task in flight. */
  ghost predicate Careful(w: World, a: Action, id: nat) {
    a.RetryTask? && a.id == id ==> !InFlight(w.pipe, id)
  }

  lemma StoreActionTask(w: World, a: Action, id: nat)
    requires BaseInv(w) && TaskInv(w, id) && Possible(w, a) && Careful(w, a, id) && OnStore(a)
    ensures TaskInv(Act(w, a), id)
  {
    if TargetOf(a) != id {
      ElsewhereTask(w, a, id);
    } else if a.AddTask? {
      AddedTask(w, a.meta);
    } else if a.SetStatus? {
      HaltedTask(w, id, a.status);
    } else if a.RetryTask? {
      RetriedTask(w, id, a.now);
    } else {
      CleanedTask(w, id);
    }
  }

  lemma ActKeepsTask(w: World, a: Action, id: nat)
    requires BaseInv(w) && TaskInv(w, id) && Possible(w, a) && Careful(w, a, id)
    ensures TaskInv(Act(w, a), id)
  {
    if OnStore(a) {
      StoreActionTask(w, a, id);
    } else if MovesNothing(a) {
      QuietActionTask(w, a, id);
    } else if a.FetchDue? {
      FetchTask(w, a.now, a.batch, id);
    } else if a.Record? {
      RecordTask(w, a.saved, id);
    } else if a.Restart? {
      RestartTask(w, id);
    } else {
      SendTask(w, id);
    }
  }

  /** No manual retry of the whole history hits this task in flight. */
  ghost predicate IsCareful(w: World, actions: seq<Action>, id: nat)
    requires IsHistory(w, actions)
    decreases |actions|
  {
    |actions| > 0 ==> Careful(w, actions[0], id) && IsCareful(Act(w, actions[0]), actions[1..], id)
  }

  lemma {:induction false} HistoryKeepsTask(w: World, actions: seq<Action>, id: nat)
    requires BaseInv(w) && TaskInv(w, id) && IsHistory(w, actions) && IsCareful(w, actions, id)
    ensures BaseInv(Final(w, actions)) && TaskInv(Final(w, actions), id)
    decreases |actions|
  {
    if |actions| > 0 {
      ActKeepsBase(w, actions[0]);
      ActKeepsTask(w, actions[0], id);
      HistoryKeepsTask(Act(w, actions[0]), actions[1..], id);
    }
  }

  lemma BeginTask(w: World, id: nat)
    requires Begin(w)
    ensures TaskInv(w, id)
  {
    NothingAtFirst(w);
  }
}
