/** The attempt counter in every history: what it still says when manual retries hit tasks
    in flight, and exactly when it is right. */
module SchedulerCounts {
  import opened Wrappers
  import opened Tasks
  import opened Pipeline
  import opened Scheduler
  import opened SchedulerPlaces
  import opened SchedulerInvariant

  lemma EventsAppend(events: seq<Event>, e: Event, id: nat)
    ensures FailuresSince(events + [e], id) ==
            if e.id != id then FailuresSince(events, id)
            else if e.Recorded? && !e.ok then FailuresSince(events, id) + 1
            else 0
    ensures RunsSince(events + [e], id) ==
            if e.id != id then RunsSince(events, id)
            else if e.Recorded? then RunsSince(events, id) + 1
            else 0
  {
    assert (events + [e])[..|events|] == events;
  }

  // ----- whatever is retried

  /** A counter is above zero exactly when a failure is counted, and the counter of a task
      that is still to be executed is below its bound. */
  ghost predicate CountOk(meta: TaskMeta, failures: nat) {
    && (Attempts(meta) > 0 <==> failures > 0)
    && (meta.status.Scheduled? || meta.status.Running? ==>
          meta.retryCount != Some(0) && (meta.retryCount.Some? ==> !GivesUp(meta, meta.retryCount.value)))
  }

  ghost predicate CountsOk(w: World) {
    forall id :: id in w.tasks ==> CountOk(w.tasks[id], FailuresSince(w.events, id))
  }

  ghost predicate CountInv(w: World) {
    BaseInv(w) && CountsOk(w)
  }

  lemma OnStoreCounts(w: World, a: Action)
    requires CountInv(w) && Possible(w, a) && OnStore(a)
    ensures CountsOk(Act(w, a))
  {
    var w' := Act(w, a);
    forall id | id in w'.tasks
      ensures CountOk(w'.tasks[id], FailuresSince(w'.events, id))
    {
      if a.AddTask? {
        EventsAppend(w.events, Added(a.meta.id), id);
      } else if a.RetryTask? {
        EventsAppend(w.events, Rewound(a.id), id);
      }
      assert id in w.tasks ==> CountOk(w.tasks[id], FailuresSince(w.events, id));
    }
  }

  /** The queued result is one of the row it is about, as far as its retry bound goes. */
  lemma HeadIsNamed(w: World)
    requires BaseInv(w) && Enabled(w.pipe, Consume) && w.pipe.queue[0].ExecutionResult?
    ensures var r := w.pipe.queue[0];
            && Genuine(r.task, r.result)
            && (r.task.id in w.tasks ==> w.tasks[r.task.id].maxRetries == r.task.maxRetries)
  {
    var r := w.pipe.queue[0];
    ResultPlace(w.pipe);
    HeadIsGenuine(w.pipe);
    assert Named(w, TaskAt(w.pipe, Sent(r.q, r.i)));
  }

  lemma RecordedCount(current: TaskMeta, task: TaskMeta, result: TaskResult, failures: nat)
    requires Genuine(task, result) && current.maxRetries == task.maxRetries
    ensures CountOk(ApplyResult(current, result), if result.error.None? then 0 else failures + 1)
    ensures Attempts(ApplyResult(current, result)) == if result.error.None? then 0 else Attempts(task) + 1
  {
    var now :| result == ResultOf(task, result.error, now);
  }

  lemma RecordCounts(w: World, saved: bool)
    requires CountInv(w) && Possible(w, Record(saved))
    ensures CountsOk(Act(w, Record(saved)))
  {
    var w', r := Act(w, Record(saved)), w.pipe.queue[0];
    if r.ExecutionResult? && r.task.id in w.tasks && saved {
      HeadIsNamed(w);
      RecordedCount(w.tasks[r.task.id], r.task, r.result, FailuresSince(w.events, r.task.id));
      forall id | id in w'.tasks
        ensures CountOk(w'.tasks[id], FailuresSince(w'.events, id))
      {
        EventsAppend(w.events, Recorded(r.task.id, r.result.error.None?), id);
        assert CountOk(w.tasks[id], FailuresSince(w.events, id));
      }
    }
  }

  lemma ActKeepsCounts(w: World, a: Action)
    requires CountInv(w) && Possible(w, a)
    ensures CountInv(Act(w, a))
  {
    ActKeepsBase(w, a);
    if OnStore(a) {
      OnStoreCounts(w, a);
    } else if a.Record? {
      RecordCounts(w, a.saved);
    } else {
      var w' := Act(w, a);
      forall id | id in w'.tasks
        ensures CountOk(w'.tasks[id], FailuresSince(w'.events, id))
      {
        assert CountOk(w.tasks[id], FailuresSince(w.events, id));
      }
    }
  }

  lemma {:induction false} HistoryKeepsCounts(w: World, actions: seq<Action>)
    requires CountInv(w) && IsHistory(w, actions)
    ensures CountInv(Final(w, actions))
    decreases |actions|
  {
    if |actions| > 0 {
      ActKeepsCounts(w, actions[0]);
      HistoryKeepsCounts(Act(w, actions[0]), actions[1..]);
    }
  }

  lemma ReachesCounts(w0: World, actions: seq<Action>)
    requires Begin(w0) && IsHistory(w0, actions)
    ensures CountInv(Final(w0, actions))
  {
    BeginBase(w0);
    HistoryKeepsCounts(w0, actions);
  }

  // ----- when the counter is right

  ghost predicate CountRight(w: World, id: nat) {
    id in w.tasks ==> Attempts(w.tasks[id]) == FailuresSince(w.events, id)
  }

  /** The counter of the task is right in every state of the history. */
  ghost predicate AlwaysRight(w: World, actions: seq<Action>, id: nat)
    requires IsHistory(w, actions)
    decreases |actions|
  {
    CountRight(w, id) && (|actions| > 0 ==> AlwaysRight(Act(w, actions[0]), actions[1..], id))
  }

  /** A failed result of the task is saved only if its execution started from the count that
      its row still has. */
  ghost predicate Timely(w: World, a: Action, id: nat)
    requires Possible(w, a)
  {
    a == Record(true) ==>
      var r := w.pipe.queue[0];
      r.ExecutionResult? && r.result.error.Some? && r.task.id == id && id in w.tasks ==>
        Attempts(r.task) == Attempts(w.tasks[id])
  }

  ghost predicate AlwaysTimely(w: World, actions: seq<Action>, id: nat)
    requires IsHistory(w, actions)
    decreases |actions|
  {
    |actions| > 0 ==> Timely(w, actions[0], id) && AlwaysTimely(Act(w, actions[0]), actions[1..], id)
  }

  lemma RightAfterRecord(w: World, saved: bool, id: nat)
    requires BaseInv(w) && CountRight(w, id) && Possible(w, Record(saved))
    ensures CountRight(Act(w, Record(saved)), id) <==> Timely(w, Record(saved), id)
  {
    var r := w.pipe.queue[0];
    if r.ExecutionResult? && r.task.id in w.tasks && saved {
      HeadIsNamed(w);
      RecordedCount(w.tasks[r.task.id], r.task, r.result, FailuresSince(w.events, r.task.id));
      EventsAppend(w.events, Recorded(r.task.id, r.result.error.None?), id);
    }
  }

  lemma RightAfter(w: World, a: Action, id: nat)
    requires BaseInv(w) && CountRight(w, id) && Possible(w, a)
    ensures CountRight(Act(w, a), id) <==> Timely(w, a, id)
  {
    if a.Record? {
      RightAfterRecord(w, a.saved, id);
    } else if a.AddTask? {
      EventsAppend(w.events, Added(a.meta.id), id);
    } else if a.RetryTask? {
      EventsAppend(w.events, Rewound(a.id), id);
    }
  }

  lemma {:induction false} RightIff(w: World, actions: seq<Action>, id: nat)
    requires BaseInv(w) && CountRight(w, id) && IsHistory(w, actions)
    ensures AlwaysRight(w, actions, id) <==> AlwaysTimely(w, actions, id)
    decreases |actions|
  {
    if |actions| > 0 {
      var a := actions[0];
      RightAfter(w, a, id);
      if CountRight(Act(w, a), id) {
        ActKeepsBase(w, a);
        RightIff(Act(w, a), actions[1..], id);
      }
    }
  }
}
