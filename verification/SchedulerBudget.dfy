/** Two accounts that balance in every history, whatever is retried and when: what became of
    the claims of a task, and how many results a retry bound allows. */
module SchedulerBudget {
  import opened Tasks
  import opened Pipeline
  import opened PipelineInvariant
  import opened PipelineCounts
  import opened PipelineWeights
  import opened Scheduler
  import opened SchedulerPlaces
  import opened SchedulerInvariant
  import opened SchedulerCounts
  import opened SchedulerFlight

  /** The next request of the updater is a result of the task. */
  predicate HeadIsOf(s: State, id: nat) {
    s.queue != [] && s.queue[0].ExecutionResult? && s.queue[0].task.id == id
  }

  /** The action drops a claim of the task, as no processor serves its queue. */
  predicate Drops(w: World, a: Action, id: nat) {
    && a.Other? && a.step.Send? && w.pipe.flow.Sending? && w.pipe.flow.todo != []
    && !IsProc(w.pipe, w.pipe.flow.todo[0].0) && w.pipe.flow.todo[0].1.id == id
  }

  /** Any weight of the task's claims, after any action. */
  lemma ActWeight(w: World, a: Action, id: nat, f: TaskMeta -> nat)
    requires Inv(w.pipe) && Possible(w, a) && OnlyOf(f, id)
    ensures var before, after := Weight(w.pipe, f), Weight(Act(w, a).pipe, f);
            if a.FetchDue? then after == before + RowWeight(w.tasks, Ids(a.batch), id, f)
            else if a.Record? then after + (if HeadIsOf(w.pipe, id) then f(w.pipe.queue[0].task) else 0) == before
            else if a.Restart? then after == 0
            else after + (if Drops(w, a, id) then f(w.pipe.flow.todo[0].1) else 0) == before
  {
    ActKeepsPipe(w, a);
    if MovesNothing(a) {
      QuietActionWeight(w, a, f);
    } else if a.FetchDue? {
      FetchedWeight(w, a.now, a.batch, id, f);
    } else if a.Record? {
      ConsumeWeight(w.pipe, f);
    } else if a.Restart? {
      RestartWeight(w.pipe, f);
    } else {
      SendWeight(w.pipe, f);
    }
  }

  // ----- what became of the claims

  /** How often the task was claimed, and how the claims ended: with a result the updater
      saved or failed to save, dropped by the flow, or cut off by a restart. */
  datatype Tally = Tally(claims: nat, saved: nat, unsaved: nat, dropped: nat, cut: nat)

  ghost function Tallied(t: Tally, w: World, a: Action, id: nat): Tally
    requires Possible(w, a)
  {
    if a.FetchDue? && id in Ids(a.batch) then t.(claims := t.claims + 1)
    else if a.Record? && HeadIsOf(w.pipe, id) then
      if a.saved then t.(saved := t.saved + 1) else t.(unsaved := t.unsaved + 1)
    else if a.Restart? then t.(cut := t.cut + ClaimsInFlight(w.pipe, id))
    else if Drops(w, a, id) then t.(dropped := t.dropped + 1)
    else t
  }

  ghost function TallyOf(t: Tally, w: World, actions: seq<Action>, id: nat): Tally
    requires IsHistory(w, actions)
    decreases |actions|
  {
    if |actions| == 0 then t
    else TallyOf(Tallied(t, w, actions[0], id), Act(w, actions[0]), actions[1..], id)
  }

  ghost predicate Balanced(t: Tally, s: State, id: nat) {
    t.claims == t.saved + t.unsaved + t.dropped + t.cut + ClaimsInFlight(s, id)
  }

  lemma ActBalanced(t: Tally, w: World, a: Action, id: nat)
    requires Inv(w.pipe) && Possible(w, a) && Balanced(t, w.pipe, id)
    ensures Balanced(Tallied(t, w, a, id), Act(w, a).pipe, id)
  {
    ActWeight(w, a, id, SentOfId(id));
    if a.FetchDue? && id in Ids(a.batch) {
      FetchedRow(w, a.now, a.batch, id);
    }
  }

  lemma {:induction false} HistoryBalanced(t: Tally, w: World, actions: seq<Action>, id: nat)
    requires Inv(w.pipe) && IsHistory(w, actions) && Balanced(t, w.pipe, id)
    ensures Balanced(TallyOf(t, w, actions, id), Final(w, actions).pipe, id)
    decreases |actions|
  {
    if |actions| > 0 {
      ActBalanced(t, w, actions[0], id);
      ActKeepsPipe(w, actions[0]);
      HistoryBalanced(Tallied(t, w, actions[0], id), Act(w, actions[0]), actions[1..], id);
    }
  }

  // ----- how many results a retry bound allows

  /** The results a claim may still lead to: one for each attempt left, and at least one. */
  function ChancesOf(m: TaskMeta, bound: nat): nat {
    if Attempts(m) < bound then bound - Attempts(m) else 1
  }

  function Chances(id: nat, bound: nat): TaskMeta -> nat {
    (m: TaskMeta) => if m.id == id then ChancesOf(m, bound) else 0
  }

  /** The attempts left to the claims of the task that are in flight. */
  ghost function ChancesInFlight(s: State, id: nat, bound: nat): nat {
    Weight(s, Chances(id, bound))
  }

  /** The results the task may still get before its next manual retry. */
  ghost function ChancesLeft(w: World, id: nat, bound: nat): nat
    requires id in w.tasks
  {
    Outlook(w.tasks[id], ChancesInFlight(w.pipe, id, bound), bound)
  }

  /** A Running row promises no more than the claim it stands for, if that is in flight. */
  function Outlook(row: TaskMeta, flying: nat, bound: nat): nat {
    if row.status.Scheduled? then flying + ChancesOf(row, bound)
    else if row.status.Running? && flying < ChancesOf(row, bound) then ChancesOf(row, bound)
    else flying
  }

  predicate HasBudget(m: TaskMeta, bound: nat) {
    m.maxRetries.Some? && Budget(PolicyOf(m)) == bound
  }

  /** The action that gives the task a new budget. */
  predicate Resets(a: Action, id: nat) {
    (a.AddTask? && a.meta.id == id) || (a.RetryTask? && a.id == id)
  }

  lemma RecordedChances(current: TaskMeta, task: TaskMeta, result: TaskResult, flying: nat, bound: nat)
    requires Genuine(task, result) && current.maxRetries == task.maxRetries && HasBudget(current, bound)
    ensures var after := ApplyResult(current, result);
            && HasBudget(after, bound)
            && Outlook(after, flying, bound) + 1 <= Outlook(current, flying + ChancesOf(task, bound), bound)
  {
    var now :| result == ResultOf(task, result.error, now);
  }

  lemma RecordUsesChances(w: World, saved: bool, id: nat, bound: nat)
    requires BaseInv(w) && Possible(w, Record(saved)) && id in w.tasks && HasBudget(w.tasks[id], bound)
    ensures var w' := Act(w, Record(saved));
            && id in w'.tasks
            && RunsSince(w'.events, id) + ChancesLeft(w', id, bound) <=
               RunsSince(w.events, id) + ChancesLeft(w, id, bound)
  {
    RecordFrame(w, saved);
    ConsumeWeight(w.pipe, Chances(id, bound));
    if HeadIsOf(w.pipe, id) && saved {
      HeadIsNamed(w);
      SavedUsesChances(w, id, bound);
    } else {
      RecordElsewhere(w, saved, id);
    }
  }

  lemma SavedUsesChances(w: World, id: nat, bound: nat)
    requires Possible(w, Record(true)) && HeadIsOf(w.pipe, id) && id in w.tasks && HasBudget(w.tasks[id], bound)
    requires Genuine(w.pipe.queue[0].task, w.pipe.queue[0].result)
    requires w.tasks[id].maxRetries == w.pipe.queue[0].task.maxRetries
    ensures var w' := Act(w, Record(true));
            && id in w'.tasks
            && RunsSince(w'.events, id) + ChancesLeft(w', id, bound) <=
               RunsSince(w.events, id) + ChancesLeft(w, id, bound)
  {
    var r, w' := w.pipe.queue[0], Act(w, Record(true));
    ConsumeWeight(w.pipe, Chances(id, bound));
    EventsAppend(w.events, Recorded(id, r.result.error.None?), id);
    RecordedChances(w.tasks[id], r.task, r.result, ChancesInFlight(w'.pipe, id, bound), bound);
  }

  lemma RecordElsewhere(w: World, saved: bool, id: nat)
    requires Possible(w, Record(saved)) && id in w.tasks && !(HeadIsOf(w.pipe, id) && saved)
    ensures var w' := Act(w, Record(saved));
            && id in w'.tasks && w'.tasks[id] == w.tasks[id]
            && RunsSince(w'.events, id) == RunsSince(w.events, id)
  {
    var r := w.pipe.queue[0];
    if r.ExecutionResult? {
      EventsAppend(w.events, Recorded(r.task.id, r.result.error.None?), id);
    }
  }

  lemma FetchUsesChances(w: World, now: int, batch: seq<TaskMeta>, id: nat, bound: nat)
    requires Inv(w.pipe) && Possible(w, FetchDue(now, batch)) && id in w.tasks
    ensures var w' := Act(w, FetchDue(now, batch));
            && id in w'.tasks && w'.events == w.events
            && ChancesLeft(w', id, bound) == ChancesLeft(w, id, bound)
  {
    ActWeight(w, FetchDue(now, batch), id, Chances(id, bound));
    if id in Ids(batch) {
      FetchedRow(w, now, batch, id);
    }
  }

  lemma RestartUsesChances(w: World, id: nat, bound: nat)
    requires Inv(w.pipe) && id in w.tasks
    ensures Act(w, Restart).events == w.events
    ensures ChancesLeft(Act(w, Restart), id, bound) <= ChancesLeft(w, id, bound)
  {
    ActWeight(w, Restart, id, Chances(id, bound));
  }

  lemma OnStoreUsesChances(w: World, a: Action, id: nat, bound: nat)
    requires Possible(w, a) && OnStore(a) && !Resets(a, id) && id in Act(w, a).tasks
    ensures var w' := Act(w, a);
            && id in w.tasks && w'.pipe == w.pipe
            && (w'.tasks[id] == w.tasks[id] || Halting(w'.tasks[id].status))
            && RunsSince(w'.events, id) == RunsSince(w.events, id)
            && ChancesLeft(w', id, bound) <= ChancesLeft(w, id, bound)
  {
    if a.AddTask? {
      EventsAppend(w.events, Added(a.meta.id), id);
    } else if a.RetryTask? {
      EventsAppend(w.events, Rewound(a.id), id);
    }
  }

  lemma PassUsesChances(w: World, a: Action, id: nat, bound: nat)
    requires Inv(w.pipe) && Possible(w, a) && id in w.tasks
    requires !OnStore(a) && !a.FetchDue? && !a.Record? && !a.Restart?
    ensures var w' := Act(w, a);
            && w'.tasks == w.tasks && w'.events == w.events
            && ChancesLeft(w', id, bound) <= ChancesLeft(w, id, bound)
  {
    ActWeight(w, a, id, Chances(id, bound));
  }

  /** No action but a manual retry gives the task more results to come than it takes. */
  lemma ActUsesChances(w: World, a: Action, id: nat, bound: nat)
    requires BaseInv(w) && Possible(w, a) && !Resets(a, id)
    requires id in Act(w, a).tasks && HasBudget(Act(w, a).tasks[id], bound)
    ensures var w' := Act(w, a);
            && id in w.tasks && HasBudget(w.tasks[id], bound)
            && RunsSince(w'.events, id) + ChancesLeft(w', id, bound) <=
               RunsSince(w.events, id) + ChancesLeft(w, id, bound)
  {
    KeepsBudget(w, a, id, bound);
    if OnStore(a) {
      OnStoreUsesChances(w, a, id, bound);
    } else if a.FetchDue? {
      FetchUsesChances(w, a.now, a.batch, id, bound);
    } else if a.Record? {
      RecordUsesChances(w, a.saved, id, bound);
    } else if a.Restart? {
      RestartUsesChances(w, id, bound);
    } else {
      PassUsesChances(w, a, id, bound);
    }
  }

  lemma KeepsBudget(w: World, a: Action, id: nat, bound: nat)
    requires Possible(w, a) && !Resets(a, id)
    requires id in Act(w, a).tasks && HasBudget(Act(w, a).tasks[id], bound)
    ensures id in w.tasks && HasBudget(w.tasks[id], bound)
  {
  }

  /** The attempts left to claims of the task that were in flight at its last manual retry:
      a retry gives the task a new budget beside them. */
  ghost function Overhang(h: nat, w: World, actions: seq<Action>, id: nat, bound: nat): nat
    requires IsHistory(w, actions)
    decreases |actions|
  {
    if |actions| == 0 then h
    else Overhang(if Resets(actions[0], id) then ChancesInFlight(w.pipe, id, bound) else h,
                  Act(w, actions[0]), actions[1..], id, bound)
  }

  ghost predicate WithinBudget(h: nat, w: World, id: nat, bound: nat) {
    id in w.tasks && HasBudget(w.tasks[id], bound) ==>
      RunsSince(w.events, id) + ChancesLeft(w, id, bound) <= bound + h
  }

  lemma ResetGivesBudget(w: World, a: Action, id: nat, bound: nat)
    requires BaseInv(w) && Possible(w, a) && Resets(a, id)
    ensures WithinBudget(ChancesInFlight(w.pipe, id, bound), Act(w, a), id, bound)
  {
    ActWeight(w, a, id, Chances(id, bound));
    EventsAppend(w.events, if a.AddTask? then Added(id) else Rewound(id), id);
  }

  lemma {:induction false} HistoryWithinBudget(h: nat, w: World, actions: seq<Action>, id: nat, bound: nat)
    requires BaseInv(w) && IsHistory(w, actions) && WithinBudget(h, w, id, bound)
    ensures WithinBudget(Overhang(h, w, actions, id, bound), Final(w, actions), id, bound)
    decreases |actions|
  {
    if |actions| > 0 {
      var a := actions[0];
      var w', h' := Act(w, a), if Resets(a, id) then ChancesInFlight(w.pipe, id, bound) else h;
      if Resets(a, id) {
        ResetGivesBudget(w, a, id, bound);
      } else if id in w'.tasks && HasBudget(w'.tasks[id], bound) {
        ActUsesChances(w, a, id, bound);
      }
      ActKeepsBase(w, a);
      HistoryWithinBudget(h', w', actions[1..], id, bound);
    }
  }
}
