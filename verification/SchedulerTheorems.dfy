/** What holds of the stored tasks in every run of store and pipeline together. */
module SchedulerTheorems {
  import opened Sequences
  import opened Tasks
  import opened Pipeline
  import opened PipelineInvariant
  import opened PipelineTheorems
  import opened Scheduler
  import opened SchedulerPlaces
  import opened SchedulerInvariant
  import opened SchedulerCounts
  import opened SchedulerTaskInvariant
  import opened SchedulerFlight
  import opened SchedulerBudget

  // ----- handed out twice, or not

  /** A fetch leaves every task in flight once if and only if it hands out none that is in
      flight. Every other action leaves every task in flight once. */
  lemma FetchOnceIff(w: World, now: int, batch: seq<TaskMeta>)
    requires OnceInFlight(w.pipe) && Possible(w, FetchDue(now, batch))
    ensures OnceInFlight(Act(w, FetchDue(now, batch)).pipe) <==>
            forall id :: id in Ids(batch) ==> !InFlight(w.pipe, id)
  {
    var s' := Act(w, FetchDue(now, batch)).pipe;
    forall id
      ensures OnceFor(s', id) <==> !(id in Ids(batch) && InFlight(w.pipe, id))
    {
      assert OnceFor(w.pipe, id);
      FetchOnceFor(w, now, batch, id);
    }
  }

  lemma OthersKeepOnce(w: World, a: Action)
    requires Inv(w.pipe) && OnceInFlight(w.pipe) && Possible(w, a) && !a.FetchDue?
    ensures OnceInFlight(Act(w, a).pipe)
  {
    forall id
      ensures OnceFor(Act(w, a).pipe, id)
    {
      assert OnceFor(w.pipe, id);
      ActKeepsOnce(w, a, id);
    }
  }

  /** In every state of the history the task is in flight at most once. */
  ghost predicate NeverTwice(w: World, actions: seq<Action>, id: nat)
    requires IsHistory(w, actions)
    decreases |actions|
  {
    OnceFor(w.pipe, id) && (|actions| > 0 ==> NeverTwice(Act(w, actions[0]), actions[1..], id))
  }

  /** No fetch of the history hands out the task while it is in flight. */
  ghost predicate FetchedIdle(w: World, actions: seq<Action>, id: nat)
    requires IsHistory(w, actions)
    decreases |actions|
  {
    |actions| > 0 ==>
      && (actions[0].FetchDue? ==> !(id in Ids(actions[0].batch) && InFlight(w.pipe, id)))
      && FetchedIdle(Act(w, actions[0]), actions[1..], id)
  }

  lemma {:induction false} NeverTwiceFrom(w: World, actions: seq<Action>, id: nat)
    requires Inv(w.pipe) && OnceFor(w.pipe, id) && IsHistory(w, actions)
    ensures NeverTwice(w, actions, id) <==> FetchedIdle(w, actions, id)
    decreases |actions|
  {
    if |actions| > 0 {
      var a := actions[0];
      ActKeepsPipe(w, a);
      if a.FetchDue? {
        FetchOnceFor(w, a.now, a.batch, id);
      } else {
        ActKeepsOnce(w, a, id);
      }
      if OnceFor(Act(w, a).pipe, id) {
        NeverTwiceFrom(Act(w, a), actions[1..], id);
      }
    }
  }

  /** In a whole run a task is never in flight twice if and only if no fetch hands it out
      while it is in flight, whatever is stopped, removed or retried meanwhile. */
  lemma NeverTwiceIff(w0: World, actions: seq<Action>, id: nat)
    requires Begin(w0) && IsHistory(w0, actions)
    ensures NeverTwice(w0, actions, id) <==> FetchedIdle(w0, actions, id)
  {
    BeginBase(w0);
    NothingAtFirst(w0);
    NeverTwiceFrom(w0, actions, id);
  }

  // ----- one task, while no manual retry hits it in flight

  /** Such a task is in flight at most once in every reachable state, and what is in flight
      is the stored task itself: Running, or what it was halted to since. */
  lemma InFlightAtMostOnce(w0: World, actions: seq<Action>, id: nat, p: Place, r: Place)
    requires Begin(w0) && IsHistory(w0, actions) && IsCareful(w0, actions, id)
    requires HasId(Final(w0, actions).pipe, p, id) && HasId(Final(w0, actions).pipe, r, id)
    ensures r == p
    ensures var w := Final(w0, actions);
            var m := TaskAt(w.pipe, p);
            id in w.tasks ==>
              && w.tasks[id].(status := m.status) == m
              && (if id in w.halted then Halting(w.tasks[id].status) else w.tasks[id].status.Running?)
  {
    BeginBase(w0);
    BeginTask(w0, id);
    HistoryKeepsTask(w0, actions, id);
    assert SnapshotAt(Final(w0, actions), p, id);
  }

  /** The stored attempt count is the number of failed results recorded since the last
      success, manual retry or creation. */
  lemma AttemptsAreFailures(w0: World, actions: seq<Action>, id: nat)
    requires Begin(w0) && IsHistory(w0, actions) && IsCareful(w0, actions, id)
    requires id in Final(w0, actions).tasks
    ensures Attempts(Final(w0, actions).tasks[id]) == FailuresSince(Final(w0, actions).events, id)
  {
    BeginBase(w0);
    BeginTask(w0, id);
    HistoryKeepsTask(w0, actions, id);
  }

  /** The code's own guard is enough for failed tasks: a Failed task is not in flight, so a
      history that retries this task only when it is Failed never hits it in flight. */
  ghost predicate RetriedWhenFailed(w: World, actions: seq<Action>, id: nat)
    requires IsHistory(w, actions)
    decreases |actions|
  {
    |actions| > 0 ==>
      && (actions[0].RetryTask? && actions[0].id == id ==> w.tasks[id].status.Failed?)
      && RetriedWhenFailed(Act(w, actions[0]), actions[1..], id)
  }

  lemma FailedIsIdle(w: World, id: nat)
    requires TaskInv(w, id) && id in w.tasks && w.tasks[id].status.Failed?
    ensures !InFlight(w.pipe, id)
  {
    forall p
      ensures !HasId(w.pipe, p, id)
    {
      assert SnapshotAt(w, p, id);
    }
  }

  lemma {:induction false} FailedRetriesFrom(w: World, actions: seq<Action>, id: nat)
    requires BaseInv(w) && TaskInv(w, id) && IsHistory(w, actions) && RetriedWhenFailed(w, actions, id)
    ensures IsCareful(w, actions, id)
    decreases |actions|
  {
    if |actions| > 0 {
      var a := actions[0];
      if a.RetryTask? && a.id == id {
        FailedIsIdle(w, id);
      }
      ActKeepsBase(w, a);
      ActKeepsTask(w, a, id);
      FailedRetriesFrom(Act(w, a), actions[1..], id);
    }
  }

  lemma FailedRetriesAreCareful(w0: World, actions: seq<Action>, id: nat)
    requires Begin(w0) && IsHistory(w0, actions) && RetriedWhenFailed(w0, actions, id)
    ensures IsCareful(w0, actions, id)
  {
    BeginBase(w0);
    BeginTask(w0, id);
    FailedRetriesFrom(w0, actions, id);
  }

  // ----- any manual retries

  /** In every history, whatever is retried and when: the attempt counter of a task is the
      number of failures counted, in every state, if and only if each failed result saved
      for it came from an execution that started from the count its row still had. */
  lemma CountRightIff(w0: World, actions: seq<Action>, id: nat)
    requires Begin(w0) && IsHistory(w0, actions)
    ensures AlwaysRight(w0, actions, id) <==> AlwaysTimely(w0, actions, id)
  {
    BeginBase(w0);
    RightIff(w0, actions, id);
  }

  /** However its results interleave with everything else, and whatever is retried and when:
      a task with max_retries m has at most max(1, m) results recorded from its creation or
      last manual retry on, and beside them no more than the attempts that were left to
      claims of it in flight at that retry. */
  lemma BudgetKept(w0: World, actions: seq<Action>, id: nat)
    requires Begin(w0) && IsHistory(w0, actions)
    requires id in Final(w0, actions).tasks && Final(w0, actions).tasks[id].maxRetries.Some?
    ensures var w := Final(w0, actions);
            var bound := Budget(PolicyOf(w.tasks[id]));
            RunsSince(w.events, id) <= bound + Overhang(0, w0, actions, id, bound)
  {
    BeginBase(w0);
    HistoryWithinBudget(0, w0, actions, id, Budget(PolicyOf(Final(w0, actions).tasks[id])));
  }

  lemma {:induction false} NoOverhang(w: World, actions: seq<Action>, id: nat, bound: nat)
    requires BaseInv(w) && IsHistory(w, actions) && IsCareful(w, actions, id)
    ensures Overhang(0, w, actions, id, bound) == 0
    decreases |actions|
  {
    if |actions| > 0 {
      var a := actions[0];
      if Resets(a, id) {
        if a.AddTask? {
          UnusedIsIdle(w, id);
        }
        IdleWeight(w.pipe, id, Chances(id, bound));
      }
      ActKeepsBase(w, a);
      NoOverhang(Act(w, a), actions[1..], id, bound);
    }
  }

  lemma UnusedIsIdle(w: World, id: nat)
    requires BaseInv(w) && id !in w.used
    ensures !InFlight(w.pipe, id)
  {
    forall p
      ensures !HasId(w.pipe, p, id)
    {
      assert Occupied(w.pipe, p) ==> Named(w, TaskAt(w.pipe, p));
    }
  }

  /** So a task that no manual retry hits in flight keeps its budget, restarts included. */
  lemma CarefulBudgetKept(w0: World, actions: seq<Action>, id: nat)
    requires Begin(w0) && IsHistory(w0, actions) && IsCareful(w0, actions, id)
    requires id in Final(w0, actions).tasks && Final(w0, actions).tasks[id].maxRetries.Some?
    ensures RunsSince(Final(w0, actions).events, id) <= Budget(PolicyOf(Final(w0, actions).tasks[id]))
  {
    BeginBase(w0);
    BudgetKept(w0, actions, id);
    NoOverhang(w0, actions, id, Budget(PolicyOf(Final(w0, actions).tasks[id])));
  }

  /** Every claim of a task is accounted for: it ended with one result, saved or not, was
      dropped, was cut off by a restart, or is in flight. After shutdown none is. */
  lemma ClaimsAccounted(w0: World, actions: seq<Action>, id: nat)
    requires Begin(w0) && IsHistory(w0, actions)
    ensures var w, t := Final(w0, actions), TallyOf(Tally(0, 0, 0, 0, 0), w0, actions, id);
            && t.claims == t.saved + t.unsaved + t.dropped + t.cut + ClaimsInFlight(w.pipe, id)
            && (ClaimsInFlight(w.pipe, id) > 0 <==> InFlight(w.pipe, id))
            && (w.pipe.stopped && |w.pipe.procs| > 0 ==> ClaimsInFlight(w.pipe, id) == 0)
  {
    BeginBase(w0);
    NothingAtFirst(w0);
    InFlightIff(w0.pipe, id);
    HistoryBalanced(Tally(0, 0, 0, 0, 0), w0, actions, id);
    HistoryKeepsBase(w0, actions);
    var w := Final(w0, actions);
    InFlightIff(w.pipe, id);
    if w.pipe.stopped && |w.pipe.procs| > 0 {
      NoneInFlight(w, id);
    }
  }

  lemma NothingInFlight(w: World, p: Place)
    requires Inv(w.pipe) && w.pipe.stopped && |w.pipe.procs| > 0
    ensures !Occupied(w.pipe, p)
  {
    var s := w.pipe;
    StoppedIsDrained(s);
    assert AllDone(s.procs[0]) && PillSent(s.flow, 0);
    if p.Sent? && p.q < |s.procs| && p.i < |s.procs[p.q].sent| {
      var proc := s.procs[p.q];
      assert AllDone(proc) && PillSent(s.flow, p.q);
      assert ProcInv(proc, PillSent(s.flow, p.q));
      assert proc.sent == Started(proc.execs);
      assert proc.execs[p.i] in proc.execs;
      assert MarkOk(proc.execs[p.i], p.q, p.i, Hist(s));
      assert Hist(s) == s.log;
    }
  }

  lemma ProcsSame(s: State, step: Step)
    requires Enabled(s, step)
    ensures |Apply(s, step).procs| == |s.procs|
    ensures forall q: nat :: q < |s.procs| ==> Apply(s, step).procs[q].limit == s.procs[q].limit
  {
  }

  lemma ActProcsSame(w: World, a: Action)
    requires Possible(w, a)
    ensures |Act(w, a).pipe.procs| == |w.pipe.procs| && Act(w, a).route == w.route
    ensures forall q: nat :: q < |w.pipe.procs| ==> Act(w, a).pipe.procs[q].limit == w.pipe.procs[q].limit
  {
    match a
    case FetchDue(_, batch) => ProcsSame(w.pipe, Fetch(Routed(w, batch)));
    case HandlerEnds(q, i, error, now) =>
      ProcsSame(w.pipe, Complete(q, i, ResultOf(w.pipe.procs[q].execs[i].task, error, now)));
    case Record(_) => ProcsSame(w.pipe, Consume);
    case Other(step) => ProcsSame(w.pipe, step);
    case _ =>
  }

  lemma {:induction false} ProcsNeverChange(w: World, actions: seq<Action>)
    requires IsHistory(w, actions)
    ensures |Final(w, actions).pipe.procs| == |w.pipe.procs| && Final(w, actions).route == w.route
    ensures forall q: nat :: q < |w.pipe.procs| ==> Final(w, actions).pipe.procs[q].limit == w.pipe.procs[q].limit
    decreases |actions|
  {
    if |actions| > 0 {
      ActProcsSame(w, actions[0]);
      ProcsNeverChange(Act(w, actions[0]), actions[1..]);
    }
  }

  lemma {:induction false} AllSaved(w: World, actions: seq<Action>)
    requires IsHistory(w, actions) && w.unsaved == {}
    requires forall n :: 0 <= n < |actions| ==> actions[n] != Record(false)
    ensures Final(w, actions).unsaved == {}
    decreases |actions|
  {
    if |actions| > 0 {
      assert actions[0] != Record(false);
      AllSaved(Act(w, actions[0]), actions[1..]);
    }
  }

  // ----- every task goes to its own queue

  ghost predicate InOwnQueue(w: World, q: nat, i: nat)
    requires IsSent(w.pipe, q, i)
  {
    var name := w.pipe.procs[q].sent[i].queueName;
    name in w.route && w.route[name] == q
  }

  ghost predicate AllInOwnQueue(w: World) {
    forall q: nat, i: nat :: IsSent(w.pipe, q, i) ==> InOwnQueue(w, q, i)
  }

  lemma OnlySendSends(s: State, step: Step)
    requires Enabled(s, step) && !step.Send?
    ensures |Apply(s, step).procs| == |s.procs|
    ensures forall q: nat :: q < |s.procs| ==> Apply(s, step).procs[q].sent == s.procs[q].sent
  {
  }

  lemma SendToOwnQueue(w: World)
    requires RouteOk(w) && AllInOwnQueue(w) && Possible(w, Other(Step.Send))
    ensures AllInOwnQueue(Act(w, Other(Step.Send)))
  {
    var head, w' := w.pipe.flow.todo[0], Act(w, Other(Step.Send));
    assert Todo(w.pipe.flow)[0] == head;
    forall q: nat, i: nat | IsSent(w'.pipe, q, i)
      ensures InOwnQueue(w', q, i)
    {
      assert IsSent(w.pipe, q, i) ==> InOwnQueue(w, q, i);
    }
  }

  lemma ActKeepsOwnQueue(w: World, a: Action)
    requires RouteOk(w) && AllInOwnQueue(w) && Possible(w, a)
    ensures AllInOwnQueue(Act(w, a))
  {
    if a.Other? && a.step.Send? {
      SendToOwnQueue(w);
    } else {
      if a.HandlerEnds? {
        OnlySendSends(w.pipe, Complete(a.q, a.i, ResultOf(w.pipe.procs[a.q].execs[a.i].task, a.error, a.now)));
      } else if a.Other? {
        OnlySendSends(w.pipe, a.step);
      }
      forall q: nat, i: nat | IsSent(Act(w, a).pipe, q, i)
        ensures InOwnQueue(Act(w, a), q, i)
      {
        assert InOwnQueue(w, q, i);
      }
    }
  }

  lemma {:induction false} HistoryKeepsOwnQueue(w: World, actions: seq<Action>)
    requires BaseInv(w) && AllInOwnQueue(w) && IsHistory(w, actions)
    ensures AllInOwnQueue(Final(w, actions))
    decreases |actions|
  {
    if |actions| > 0 {
      ActKeepsBase(w, actions[0]);
      ActKeepsOwnQueue(w, actions[0]);
      HistoryKeepsOwnQueue(Act(w, actions[0]), actions[1..]);
    }
  }

  /** In every history a task is sent to the processor its queue is registered with. */
  lemma SentToOwnQueue(w0: World, actions: seq<Action>, q: nat, i: nat)
    requires Begin(w0) && IsHistory(w0, actions) && IsSent(Final(w0, actions).pipe, q, i)
    ensures var name := Final(w0, actions).pipe.procs[q].sent[i].queueName;
            name in w0.route && w0.route[name] == q
  {
    BeginBase(w0);
    forall r: nat, j: nat
      ensures !IsSent(w0.pipe, r, j)
    {
      if r < |w0.pipe.procs| {
        assert w0.pipe.procs[r] in w0.pipe.procs;
      }
    }
    HistoryKeepsOwnQueue(w0, actions);
    ProcsNeverChange(w0, actions);
    assert InOwnQueue(Final(w0, actions), q, i);
  }

  /** And in every history, restarts included, the permits free and held of a queue are the
      limit it was started with. */
  lemma LimitsKept(w0: World, actions: seq<Action>, q: nat)
    requires Begin(w0) && IsHistory(w0, actions) && q < |w0.pipe.procs|
    ensures var procs := Final(w0, actions).pipe.procs;
            q < |procs| && procs[q].permits + Sum(procs[q].execs, Holds) == w0.pipe.procs[q].limit
  {
    BeginBase(w0);
    HistoryKeepsBase(w0, actions);
    ProcsNeverChange(w0, actions);
    var s := Final(w0, actions).pipe;
    assert ProcInv(s.procs[q], PillSent(s.flow, q));
  }

  // ----- what a clean-up deletes

  /** The action can put a task that is over back in line: a manual retry, or the result of
      an execution of it that is still in flight. */
  predicate Revives(w: World, a: Action, id: nat) {
    (a.RetryTask? && a.id == id) || (a == Record(true) && HeadIsOf(w.pipe, id))
  }

  /** No action of the history revives the task. */
  ghost predicate NeverRevived(w: World, actions: seq<Action>, id: nat)
    requires IsHistory(w, actions)
    decreases |actions|
  {
    |actions| > 0 ==> !Revives(w, actions[0], id) && NeverRevived(Act(w, actions[0]), actions[1..], id)
  }

  ghost predicate OverOrGone(w: World, id: nat) {
    && id in w.used
    && (id in w.tasks ==> !w.tasks[id].status.Scheduled? && !w.tasks[id].status.Running?)
  }

  lemma StaysOver(w: World, a: Action, id: nat)
    requires Possible(w, a) && OverOrGone(w, id) && !Revives(w, a, id)
    ensures OverOrGone(Act(w, a), id)
  {
    if a.FetchDue? && id in Ids(a.batch) {
      FetchedRow(w, a.now, a.batch, id);
    }
  }

  lemma {:induction false} OverUntilRevived(w: World, actions: seq<Action>, id: nat)
    requires IsHistory(w, actions) && OverOrGone(w, id) && NeverRevived(w, actions, id)
    ensures OverOrGone(Final(w, actions), id)
    decreases |actions|
  {
    if |actions| > 0 {
      StaysOver(w, actions[0], id);
      OverUntilRevived(Act(w, actions[0]), actions[1..], id);
    }
  }

  /** Only a clean-up deletes tasks. One it selected is still done, stopped or removed when
      it is deleted, unless it was retried or got a late result in between. */
  lemma CleanUpSparesPending(w0: World, before: seq<Action>, ids: set<nat>, after: seq<Action>, id: nat)
    requires Begin(w0) && IsHistory(w0, before) && Possible(Final(w0, before), CleanScan(ids)) && id in ids
    requires var w := Act(Final(w0, before), CleanScan(ids));
             IsHistory(w, after) && NeverRevived(w, after, id)
    ensures var w := Final(Act(Final(w0, before), CleanScan(ids)), after);
            id in w.tasks ==> !w.tasks[id].status.Scheduled? && !w.tasks[id].status.Running?
  {
    BeginBase(w0);
    HistoryKeepsBase(w0, before);
    OverUntilRevived(Act(Final(w0, before), CleanScan(ids)), after, id);
  }

  lemma OnlyCleanUpDeletes(w: World, a: Action, id: nat)
    requires Possible(w, a) && id in w.tasks
    ensures id !in Act(w, a).tasks <==> a == CleanTask(id)
  {
  }

  // ----- after shutdown

  /** Once the updater has stopped, in any history, a task that is still marked Running has
      lost its claim: the update of its result failed, or no processor serves its queue. */
  lemma LeftRunningIsLost(w0: World, actions: seq<Action>, id: nat)
    requires |w0.pipe.procs| > 0
    requires Begin(w0) && IsHistory(w0, actions)
    requires Final(w0, actions).pipe.stopped && id in Final(w0, actions).tasks
    ensures var w := Final(w0, actions);
            && (w.tasks[id].status.Running? ==> id in w.unsaved || id in w.dropped)
            && (id in w.dropped ==> w.tasks[id].queueName !in w.route)
  {
    BeginBase(w0);
    HistoryKeepsBase(w0, actions);
    ProcsNeverChange(w0, actions);
    assert RowOk(Final(w0, actions), id);
    NoneInFlight(Final(w0, actions), id);
  }

  lemma NoneInFlight(w: World, id: nat)
    requires Inv(w.pipe) && w.pipe.stopped && |w.pipe.procs| > 0
    ensures !InFlight(w.pipe, id)
  {
    forall p
      ensures !HasId(w.pipe, p, id)
    {
      NothingInFlight(w, p);
    }
  }

  /** So when every update was saved, no task of a registered queue is left Running,
      whatever was stopped, removed or retried. */
  lemma NoneLeftRunning(w0: World, actions: seq<Action>, id: nat)
    requires Begin(w0) && IsHistory(w0, actions)
    requires forall n :: 0 <= n < |actions| ==> actions[n] != Record(false)
    requires Final(w0, actions).pipe.stopped && id in Final(w0, actions).tasks
    requires Final(w0, actions).tasks[id].queueName in w0.route
    ensures !Final(w0, actions).tasks[id].status.Running?
  {
    LeftRunningIsLost(w0, actions, id);
    ProcsNeverChange(w0, actions);
    AllSaved(w0, actions);
  }

  /** And a task that no manual retry hit in flight is left Running if and only if its last
      claim got lost and it was not stopped or removed since. */
  lemma WhoIsLeftRunning(w0: World, actions: seq<Action>, id: nat)
    requires |w0.pipe.procs| > 0
    requires Begin(w0) && IsHistory(w0, actions) && IsCareful(w0, actions, id)
    requires Final(w0, actions).pipe.stopped && id in Final(w0, actions).tasks
    ensures var w := Final(w0, actions);
            w.tasks[id].status.Running? <==> (id in w.unsaved || id in w.dropped) && id !in w.halted
  {
    LeftRunningIsLost(w0, actions, id);
    BeginBase(w0);
    BeginTask(w0, id);
    HistoryKeepsTask(w0, actions, id);
  }

  /** After a restart no task is Running. One that was is back in line, unless it has no
      retry bound and has failed before: that one is removed. So it is in every history. */
  lemma RestartDropsIff(w0: World, actions: seq<Action>, id: nat)
    requires Begin(w0) && IsHistory(w0, actions)
    requires id in Final(w0, actions).tasks
    ensures var w := Final(w0, actions);
            var after := Act(w, Restart).tasks[id];
            if w.tasks[id].status.Running? then
              && (after.status.Removed? <==> w.tasks[id].maxRetries.None? && FailuresSince(w.events, id) > 0)
              && (after.status.Removed? || after == w.tasks[id].(status := Scheduled))
            else after == w.tasks[id]
  {
    ReachesCounts(w0, actions);
    var w := Final(w0, actions);
    assert CountOk(w.tasks[id], FailuresSince(w.events, id));
  }
}
