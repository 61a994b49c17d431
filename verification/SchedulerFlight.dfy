/** The claims of one task in flight, counted: what an action does to their number and
    weight. A task is in flight at some place exactly when that number is positive. */
module SchedulerFlight {
  import opened Sequences
  import opened Tasks
  import opened Pipeline
  import opened PipelineInvariant
  import opened PipelineCounts
  import opened PipelineWeights
  import opened Scheduler
  import opened SchedulerPlaces

  ghost function ClaimsInFlight(s: State, id: nat): nat {
    Weight(s, SentOfId(id))
  }

  /** Tasks of other ids weigh nothing. */
  ghost predicate OnlyOf(f: TaskMeta -> nat, id: nat) {
    forall m: TaskMeta :: m.id != id ==> f(m) == 0
  }

  // ----- the number is positive exactly when the task is in flight

  lemma {:induction false} WaitingHas(chan: seq<Package>, x: Package) returns (j: nat)
    requires x in chan && x.Work?
    ensures j < |Waiting(chan)| && Waiting(chan)[j] == x.task
  {
    if chan[0] == x {
      j := 0;
    } else {
      j := WaitingHas(chan[1..], x);
      j := j + |Waiting(chan)| - |Waiting(chan[1..])|;
    }
  }

  lemma {:induction false} WaitingIsSent(chan: seq<Package>, j: nat) returns (k: nat)
    requires j < |Waiting(chan)|
    ensures k < |chan| && chan[k] == Work(Waiting(chan)[j])
  {
    var rest := Waiting(chan[1..]);
    if j + |rest| >= |Waiting(chan)| {
      k := WaitingIsSent(chan[1..], j + |rest| - |Waiting(chan)|);
      k := k + 1;
    } else {
      k := 0;
    }
  }

  /** No task waiting at, in the hand of or being executed by a processor has the id. */
  lemma IdleProc(p: Proc, pillSent: bool, id: nat, f: TaskMeta -> nat)
    requires ProcInv(p, pillSent) && OnlyOf(f, id)
    requires forall i: nat :: i < |p.sent| && (i < |p.execs| ==> Mark(p.execs[i].phase).None?) ==> p.sent[i].id != id
    ensures OfProc(f)(p) == 0
  {
    forall x | x in p.chan
      ensures OfPackage(f)(x) == 0
    {
      if x.Work? {
        var j := WaitingHas(p.chan, x);
        assert p.sent[|p.execs| + |InHand(p.pc)| + j] == x.task;
      }
    }
    SumZero(p.chan, OfPackage(f));
    if p.pc.Holding? {
      assert p.sent[|p.execs|] == p.pc.task;
    }
    forall e | e in p.execs
      ensures OfExec(f)(e) == 0
    {
      var i: nat :| i < |p.execs| && p.execs[i] == e;
      assert p.sent[i] == Started(p.execs)[i] == e.task;
    }
    SumZero(p.execs, OfExec(f));
  }

  lemma IdleProcs(s: State, q: nat, id: nat, f: TaskMeta -> nat)
    requires Inv(s) && q < |s.procs| && OnlyOf(f, id) && !InFlight(s, id)
    ensures OfProc(f)(s.procs[q]) == 0
  {
    var p := s.procs[q];
    assert ProcInv(p, PillSent(s.flow, q));
    forall i: nat | i < |p.sent| && (i < |p.execs| ==> Mark(p.execs[i].phase).None?)
      ensures p.sent[i].id != id
    {
      assert !HasId(s, Sent(q, i), id);
    }
    IdleProc(p, PillSent(s.flow, q), id, f);
  }

  lemma QueuedPlace(s: State, j: nat)
    requires Inv(s) && j < |s.queue| && s.queue[j].ExecutionResult?
    ensures var r := s.queue[j];
            Occupied(s, Sent(r.q, r.i)) && TaskAt(s, Sent(r.q, r.i)) == r.task
  {
    var r, a := s.queue[j], |s.log| + j;
    assert Hist(s)[a] == r;
    assert EntryOk(s.procs, r, a);
    assert ProcInv(s.procs[r.q], PillSent(s.flow, r.q));
    assert s.procs[r.q].sent[r.i] == Started(s.procs[r.q].execs)[r.i];
  }

  lemma IdleWeight(s: State, id: nat, f: TaskMeta -> nat)
    requires Inv(s) && OnlyOf(f, id) && !InFlight(s, id)
    ensures Weight(s, f) == 0
  {
    var todo := Todo(s.flow);
    forall x | x in todo
      ensures OfTodo(f)(x) == 0
    {
      var k: nat :| k < |todo| && todo[k] == x;
      assert !HasId(s, Queued(k), id);
    }
    SumZero(todo, OfTodo(f));
    forall p | p in s.procs
      ensures OfProc(f)(p) == 0
    {
      var q: nat :| q < |s.procs| && s.procs[q] == p;
      IdleProcs(s, q, id, f);
    }
    SumZero(s.procs, OfProc(f));
    forall r | r in s.queue
      ensures OfRequest(f)(r) == 0
    {
      if r.ExecutionResult? {
        var j: nat :| j < |s.queue| && s.queue[j] == r;
        QueuedPlace(s, j);
        assert !HasId(s, Sent(r.q, r.i), id);
      }
    }
    SumZero(s.queue, OfRequest(f));
  }

  /** A task at a processor is in its channel, its hand or an execution that has not
      reported yet; */
  lemma UnreportedWeight(p: Proc, pillSent: bool, i: nat, f: TaskMeta -> nat)
    requires ProcInv(p, pillSent) && i < |p.sent|
    requires i < |p.execs| ==> Mark(p.execs[i].phase).None?
    ensures OfProc(f)(p) >= f(p.sent[i])
  {
    if i < |p.execs| {
      assert p.sent[i] == Started(p.execs)[i];
      SumHas(p.execs, i, OfExec(f));
    } else if i >= |p.execs| + |InHand(p.pc)| {
      var k := WaitingIsSent(p.chan, i - |p.execs| - |InHand(p.pc)|);
      SumHas(p.chan, k, OfPackage(f));
    }
  }

  /** or its result is in the updater's queue. */
  lemma ReportedWeight(s: State, q: nat, i: nat, f: TaskMeta -> nat)
    requires Inv(s) && IsExec(s, q, i) && Mark(PhaseOf(s, q, i)).Some? && !Done(s, q, i)
    ensures Sum(s.queue, OfRequest(f)) >= f(s.procs[q].execs[i].task)
  {
    var a := Mark(PhaseOf(s, q, i)).value;
    assert MarkOk(s.procs[q].execs[i], q, i, Hist(s));
    assert EntryOk(s.procs, Hist(s)[a], a);
    SumHas(s.queue, a - |s.log|, OfRequest(f));
  }

  lemma SentWeight(s: State, q: nat, i: nat, f: TaskMeta -> nat)
    requires Inv(s) && Occupied(s, Sent(q, i))
    ensures Weight(s, f) >= f(s.procs[q].sent[i])
  {
    var p := s.procs[q];
    assert ProcInv(p, PillSent(s.flow, q));
    if i < |p.execs| && Mark(p.execs[i].phase).Some? {
      assert p.sent[i] == Started(p.execs)[i];
      ReportedWeight(s, q, i, f);
    } else {
      SumHas(s.procs, q, OfProc(f));
      UnreportedWeight(p, PillSent(s.flow, q), i, f);
    }
  }

  lemma InFlightIff(s: State, id: nat)
    requires Inv(s)
    ensures InFlight(s, id) <==> ClaimsInFlight(s, id) > 0
  {
    if InFlight(s, id) {
      var p :| HasId(s, p, id);
      match p
      case Queued(k) => SumHas(Todo(s.flow), k, OfTodo(SentOfId(id)));
      case Sent(q, i) => SentWeight(s, q, i, SentOfId(id));
    } else {
      IdleWeight(s, id, SentOfId(id));
    }
  }

  // ----- what an action does to the weight

  lemma RestartWeight(s: State, f: TaskMeta -> nat)
    ensures Weight(Restarted(s), f) == 0
  {
    forall p | p in Restarted(s).procs
      ensures OfProc(f)(p) == 0
    {
      var q: nat :| q < |s.procs| && Restarted(s).procs[q] == p;
      assert p == Renewed(s.procs[q]);
    }
    SumZero(Restarted(s).procs, OfProc(f));
  }

  lemma QuietActionWeight(w: World, a: Action, f: TaskMeta -> nat)
    requires Inv(w.pipe) && Possible(w, a) && MovesNothing(a)
    ensures Weight(PipeAfter(w, a), f) == Weight(w.pipe, f)
  {
    if a.HandlerEnds? {
      StepKeepsWeight(w.pipe, Complete(a.q, a.i, ResultOf(w.pipe.procs[a.q].execs[a.i].task, a.error, a.now)), f);
    } else if a.Other? {
      StepKeepsWeight(w.pipe, a.step, f);
    }
  }

  ghost function RowWeight(tasks: map<nat, TaskMeta>, ids: set<nat>, id: nat, f: TaskMeta -> nat): nat {
    if id in ids && id in tasks then f(tasks[id]) else 0
  }

  lemma {:induction false} RoutedWeight(w: World, batch: seq<TaskMeta>, now: int, id: nat, f: TaskMeta -> nat)
    requires AreDue(w.tasks, batch, now) && OnlyOf(f, id)
    ensures Sum(Routed(w, batch), OfTodo(f)) == RowWeight(w.tasks, Ids(batch), id, f)
    decreases |batch|
  {
    if |batch| > 0 {
      var n := |batch| - 1;
      var rest, last := batch[..n], batch[n];
      assert batch == rest + [last];
      RoutedWeight(w, rest, now, id, f);
      IdsAppend(rest, last);
      assert Routed(w, batch) == Routed(w, rest) + [(QueueIndex(w, last.queueName), last)];
      SumAppend(Routed(w, rest), (QueueIndex(w, last.queueName), last), OfTodo(f));
      assert last.id !in Ids(rest);
    }
  }

  /** A fetch adds the row of the task, once, if it is claimed. */
  lemma FetchedWeight(w: World, now: int, batch: seq<TaskMeta>, id: nat, f: TaskMeta -> nat)
    requires Possible(w, FetchDue(now, batch)) && OnlyOf(f, id)
    ensures Weight(PipeAfter(w, FetchDue(now, batch)), f) ==
            Weight(w.pipe, f) + RowWeight(w.tasks, Ids(batch), id, f)
  {
    FetchWeight(w.pipe, Routed(w, batch), f);
    RoutedWeight(w, batch, now, id, f);
  }

  lemma FetchedRow(w: World, now: int, batch: seq<TaskMeta>, id: nat)
    requires Possible(w, FetchDue(now, batch)) && id in Ids(batch)
    ensures id in w.tasks && w.tasks[id].status.Scheduled?
  {
    var k: nat :| k < |batch| && batch[k].id == id;
  }
}
