/** Event batching (src/modules/hook/channel.rs). Times are milliseconds. */
module EventChannel {
  import opened Wrappers
  import opened Sequences

  const BATCH_SIZE: nat := 50
  const FLUSH_AFTER: nat := 3000

  datatype Event = Event(accountId: nat, accountEmail: string, eventType: string, payload: string)

  datatype HookTask = HookTask(hookId: nat, event: Event)

  /** What wakes the loop: an event, or three seconds without one. */
  datatype Input = Received(event: Event) | TimerFired

  function EventsOf(inputs: seq<Input>): seq<Event> {
    if |inputs| == 0 then []
    else (match inputs[0] case Received(e) => [e] case TimerFired => []) + EventsOf(inputs[1..])
  }

  /** How many of the first n inputs are events. */
  function EventCount(inputs: seq<Input>, n: nat): nat
    requires n <= |inputs|
  {
    if n == 0 then 0 else EventCount(inputs, n - 1) + if inputs[n - 1].Received? then 1 else 0
  }

  ghost predicate EventAt(events: seq<Event>, inputs: seq<Input>, i: nat)
    requires i < |inputs|
  {
    inputs[i].Received? ==>
      EventCount(inputs, i) < |events| && events[EventCount(inputs, i)] == inputs[i].event
  }

  /** These are the events received, each once and in order. */
  ghost predicate AreEvents(events: seq<Event>, inputs: seq<Input>) {
    && |events| == EventCount(inputs, |inputs|)
    && forall i: nat :: i < |inputs| ==> EventAt(events, inputs, i)
  }

  lemma {:induction false} EventsSnoc(inputs: seq<Input>, input: Input)
    ensures EventsOf(inputs + [input]) == EventsOf(inputs) + if input.Received? then [input.event] else []
    decreases |inputs|
  {
    if |inputs| > 0 {
      assert (inputs + [input])[1..] == inputs[1..] + [input];
      EventsSnoc(inputs[1..], input);
    } else {
      assert inputs + [input] == [input] && [input][1..] == [];
    }
  }

  lemma EventsInOrder(inputs: seq<Input>)
    ensures AreEvents(EventsOf(inputs), inputs)
  {
    var n := 0;
    while n < |inputs|
      invariant n <= |inputs|
      invariant |EventsOf(inputs[..n])| == EventCount(inputs, n)
      invariant forall i: nat :: i < n ==> EventAt(EventsOf(inputs[..n]), inputs, i)
    {
      EventsSnoc(inputs[..n], inputs[n]);
      assert inputs[..n + 1] == inputs[..n] + [inputs[n]];
      var events := EventsOf(inputs[..n + 1]);
      forall i: nat | i <= n
        ensures EventAt(events, inputs, i)
      {
        assert i < n ==> EventAt(EventsOf(inputs[..n]), inputs, i);
      }
      n := n + 1;
    }
    assert inputs[..n] == inputs;
  }

  predicate BatchSizes(batches: seq<seq<Event>>) {
    forall b :: b in batches ==> 1 <= |b| <= BATCH_SIZE
  }

  class EventLoop {
    var buffer: seq<Event>
    var lastFlush: nat
    var handled: seq<seq<Event>>

    ghost predicate Valid()
      reads this
    {
      |buffer| < BATCH_SIZE && BatchSizes(handled)
    }

    /** Everything received so far: the batches handed to `handle`, then the buffer. */
    ghost function Seen(): seq<Event>
      reads this
    {
      Flatten(handled) + buffer
    }

    constructor (now: nat)
      ensures Valid() && Seen() == [] && lastFlush == now
    {
      buffer, lastFlush, handled := [], now, [];
    }

    /** Hand the whole buffer over. Whether `handle` succeeds or fails, it is cleared. */
    method Flush(after: nat)
      requires 1 <= |buffer| <= BATCH_SIZE && BatchSizes(handled)
      modifies this
      ensures handled == old(handled) + [old(buffer)] && buffer == [] && lastFlush == after
      ensures Valid() && Seen() == old(Seen())
    {
      FlattenAppend(handled, buffer);
      handled := handled + [buffer];
      buffer := [];
      lastFlush := after;
    }

    /** One turn of the loop, woken at `now`; a flush is over at `after`. */
    method Turn(input: Input, now: nat, after: nat)
      requires Valid() && lastFlush <= now <= after
      modifies this
      ensures Valid()
      ensures Seen() == old(Seen()) + EventsOf([input])
      ensures Seen() == old(Seen()) + if input.Received? then [input.event] else []
      ensures BatchSizes(handled) && forall b :: b in handled ==> 1 <= |b| <= 50
      ensures var pending := old(buffer) + EventsOf([input]);
              if pending != [] && (|pending| >= 50 || now - old(lastFlush) >= 3000) then
                handled == old(handled) + [pending] && buffer == [] && lastFlush == after
              else
                handled == old(handled) && buffer == pending && lastFlush == old(lastFlush)
    {
      assert EventsOf([input]) == match input { case Received(e) => [e] case TimerFired => [] } by {
        assert [input][1..] == [];
      }
      match input {
        case Received(e) => buffer := buffer + [e];
        case TimerFired =>
      }
      assert buffer == old(buffer) + EventsOf([input]);
      assert Seen() == old(Seen()) + EventsOf([input]);
      var shouldFlush := |buffer| >= BATCH_SIZE || now - lastFlush >= FLUSH_AFTER;
      if shouldFlush && buffer != [] {
        Flush(after);
      }
    }

    /** The loop until the channel closes. Everything received is handed over, in order
        and once, in batches of 1 to 50 events. */
    method Run(inputs: seq<Input>, clock: nat -> nat)
      requires Valid() && lastFlush <= clock(0)
      requires forall i: nat :: clock(i) <= clock(i + 1)
      modifies this
      ensures Flatten(handled) == old(Seen()) + EventsOf(inputs)
      ensures BatchSizes(handled) && old(handled) <= handled
      ensures buffer == []
      ensures AreEvents(EventsOf(inputs), inputs)
    {
      EventsInOrder(inputs);
      var i := 0;
      assert inputs[0..] == inputs;
      while i < |inputs|
        invariant i <= |inputs|
        invariant Valid() && lastFlush <= clock(2 * i)
        invariant Seen() + EventsOf(inputs[i..]) == old(Seen()) + EventsOf(inputs)
        invariant old(handled) <= handled
      {
        assert inputs[i..][1..] == inputs[i + 1..];
        assert EventsOf([inputs[i]]) + EventsOf(inputs[i + 1..]) == EventsOf(inputs[i..]) by {
          assert [inputs[i]][1..] == [];
        }
        ghost var seen := Seen();
        assert clock(2 * i) <= clock(2 * i + 1) <= clock(2 * i + 2);
        Turn(inputs[i], clock(2 * i), clock(2 * i + 1));
        Regroup(seen, EventsOf([inputs[i]]), EventsOf(inputs[i + 1..]));
        i := i + 1;
      }
      if buffer != [] {
        Flush(lastFlush);
      }
      assert Flatten(handled) == Seen();
    }
  }

  lemma Regroup(a: seq<Event>, b: seq<Event>, c: seq<Event>)
    ensures (a + b) + c == a + (b + c)
  {
  }

  // ----- handing one batch to the task queue

  type Hooks = (nat, string) -> Result<seq<nat>, string>

  function TasksFor(hooks: seq<nat>, event: Event): seq<HookTask> {
    seq(|hooks|, i requires 0 <= i < |hooks| => HookTask(hooks[i], event))
  }

  /** How many tasks the first n events give: one for each hook that matches. */
  function TaskCount(events: seq<Event>, hooks: Hooks, n: nat): nat
    requires n <= |events| && LookupsSucceed(events, hooks)
  {
    if n == 0 then 0
    else
      assert events[n - 1] in events;
      TaskCount(events, hooks, n - 1) + |hooks(events[n - 1].accountId, events[n - 1].eventType).value|
  }

  /** These are the tasks of the batch, in order: task j of event i comes after those of the
      events before it, and is the j-th hook that matches, called with that event. */
  ghost predicate AreTasks(tasks: seq<HookTask>, events: seq<Event>, hooks: Hooks)
    requires LookupsSucceed(events, hooks)
  {
    && |tasks| == TaskCount(events, hooks, |events|)
    && forall i: nat, j: nat :: i < |events| && j < |Found(events, hooks, i)| ==> TaskAt(tasks, events, hooks, i, j)
  }

  ghost predicate TaskAt(tasks: seq<HookTask>, events: seq<Event>, hooks: Hooks, i: nat, j: nat)
    requires i < |events| && LookupsSucceed(events, hooks) && j < |Found(events, hooks, i)|
  {
    var k := TaskCount(events, hooks, i) + j;
    k < |tasks| && tasks[k] == HookTask(Found(events, hooks, i)[j], events[i])
  }

  function Found(events: seq<Event>, hooks: Hooks, i: nat): seq<nat>
    requires i < |events| && LookupsSucceed(events, hooks)
  {
    assert events[i] in events;
    hooks(events[i].accountId, events[i].eventType).value
  }

  predicate LookupsSucceed(events: seq<Event>, hooks: Hooks) {
    forall e :: e in events ==> hooks(e.accountId, e.eventType).Ok?
  }

  /** Every event of the batch paired with its matching hooks, in order. */
  function TasksOf(events: seq<Event>, hooks: Hooks): seq<HookTask>
    requires LookupsSucceed(events, hooks)
  {
    if |events| == 0 then []
    else
      var last := events[|events| - 1];
      TasksOf(events[..|events| - 1], hooks) + TasksFor(hooks(last.accountId, last.eventType).value, last)
  }

  /** A hook gets an event if and only if the event is in the batch and the hook matches it. */
  lemma {:induction false} TasksOfExact(events: seq<Event>, hooks: Hooks, task: HookTask)
    requires LookupsSucceed(events, hooks)
    ensures task in TasksOf(events, hooks) <==>
            task.event in events && task.hookId in hooks(task.event.accountId, task.event.eventType).value
    decreases |events|
  {
    if |events| > 0 {
      var rest, last := events[..|events| - 1], events[|events| - 1];
      TasksOfExact(rest, hooks, task);
      var found := hooks(last.accountId, last.eventType).value;
      TasksForExact(found, last, task);
      assert task.event in events <==> task.event in rest || task.event == last;
    }
  }

  /** The tasks submitted are one for each event and hook that matches it, in order. */
  lemma {:induction false} TasksInOrder(events: seq<Event>, hooks: Hooks)
    requires LookupsSucceed(events, hooks)
    ensures AreTasks(TasksOf(events, hooks), events, hooks)
    decreases |events|
  {
    if |events| > 0 {
      var n := |events| - 1;
      var rest := events[..n];
      var tasks := TasksOf(rest, hooks);
      assert events[n] in events;
      TasksInOrder(rest, hooks);
      forall i: nat | i <= n
        ensures TaskCount(events, hooks, i) == TaskCount(rest, hooks, i)
      {
        SameCount(events, hooks, n, i);
      }
      forall i: nat, j: nat | i < |events| && j < |Found(events, hooks, i)|
        ensures TaskAt(TasksOf(events, hooks), events, hooks, i, j)
      {
        if i < n {
          assert TaskAt(tasks, rest, hooks, i, j);
        }
      }
    }
  }

  lemma {:induction false} SameCount(events: seq<Event>, hooks: Hooks, n: nat, i: nat)
    requires i <= n <= |events| && LookupsSucceed(events, hooks)
    ensures LookupsSucceed(events[..n], hooks)
    ensures TaskCount(events[..n], hooks, i) == TaskCount(events, hooks, i)
    decreases i
  {
    if i > 0 {
      SameCount(events, hooks, n, i - 1);
    }
  }

  lemma TasksForExact(hooks: seq<nat>, event: Event, task: HookTask)
    ensures task in TasksFor(hooks, event) <==> task.event == event && task.hookId in hooks
  {
    var tasks := TasksFor(hooks, event);
    if task.event == event && task.hookId in hooks {
      var i :| 0 <= i < |hooks| && hooks[i] == task.hookId;
      assert tasks[i] == task;
    }
  }

  /** A failed lookup submits nothing. Otherwise the tasks are submitted in chunks of at
      most 50 up to the first chunk the queue refuses, and all of them on success. */
  method Handle(events: seq<Event>, hooks: Hooks, queueReady: bool, accepts: nat -> bool)
    returns (ok: bool, submitted: seq<seq<HookTask>>)
    ensures !LookupsSucceed(events, hooks) || !queueReady ==> !ok && submitted == []
    ensures LookupsSucceed(events, hooks) && queueReady ==>
              var chunks := Chunks(TasksOf(events, hooks), BATCH_SIZE);
              && submitted <= chunks
              && (forall k :: 0 <= k < |submitted| ==> accepts(k))
              && (if ok then Flatten(submitted) == TasksOf(events, hooks)
                  else |submitted| < |chunks| && !accepts(|submitted|))
    ensures ok ==> LookupsSucceed(events, hooks) && AreTasks(Flatten(submitted), events, hooks)
    ensures forall k :: 0 <= k < |submitted| ==> 1 <= |submitted[k]| <= 50
  {
    var allTasks := [];
    var i := 0;
    submitted := [];
    while i < |events|
      invariant i <= |events| && submitted == []
      invariant LookupsSucceed(events[..i], hooks) && allTasks == TasksOf(events[..i], hooks)
    {
      var event := events[i];
      var found := hooks(event.accountId, event.eventType);
      if found.Err? {
        assert event in events;
        return false, [];
      }
      assert events[..i + 1][..i] == events[..i];
      allTasks := allTasks + TasksFor(found.value, event);
      i := i + 1;
    }
    assert events[..i] == events;
    if !queueReady {
      return false, [];
    }
    var chunks := Chunks(allTasks, BATCH_SIZE);
    var k := 0;
    while k < |chunks|
      invariant k <= |chunks| && submitted == chunks[..k]
      invariant forall j :: 0 <= j < k ==> accepts(j)
      invariant forall j :: 0 <= j < k ==> 1 <= |submitted[j]| <= BATCH_SIZE
    {
      if !accepts(k) {
        return false, submitted;
      }
      ChunkAt(allTasks, BATCH_SIZE, k);
      submitted := submitted + [chunks[k]];
      k := k + 1;
    }
    assert submitted == chunks;
    FlattenChunks(allTasks, BATCH_SIZE);
    TasksInOrder(events, hooks);
    ok := true;
  }
}
