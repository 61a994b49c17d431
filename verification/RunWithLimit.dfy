/** Bounded parallel map (src/modules/common/parallel.rs). The scheduler is arbitrary: a
    nondeterministic choice says which running task ends next, so what is proved holds
    for every order of completion. */
module RunWithLimit {
  import opened Wrappers

  datatype TaskEnd<+O, +E> = Done(value: O) | Failed(error: E) | Crashed

  datatype RunError<+E> = TaskFailed(error: E) | TaskPanicked

  /** f over the items in input order, or the error of the first item that fails. */
  function MapOrFirstError<Item, O, E>(items: seq<Item>, f: Item -> TaskEnd<O, E>): Result<seq<O>, RunError<E>>
    decreases |items|
  {
    if |items| == 0 then Ok([])
    else
      match MapOrFirstError(items[..|items| - 1], f)
      case Err(e) => Err(e)
      case Ok(values) =>
        match f(items[|items| - 1])
        case Done(v) => Ok(values + [v])
        case Failed(e) => Err(TaskFailed(e))
        case Crashed => Err(TaskPanicked)
  }

  lemma PrefixStep<Item, O, E>(items: seq<Item>, f: Item -> TaskEnd<O, E>, i: nat)
    requires i < |items|
    ensures MapOrFirstError(items[..i + 1], f) ==
            match MapOrFirstError(items[..i], f)
            case Err(e) => Err(e)
            case Ok(values) =>
              match f(items[i])
              case Done(v) => Ok(values + [v])
              case Failed(e) => Err(TaskFailed(e))
              case Crashed => Err(TaskPanicked)
  {
    assert items[..i + 1][..i] == items[..i];
  }

  lemma {:induction false} ErrorIsFinal<Item, O, E>(items: seq<Item>, f: Item -> TaskEnd<O, E>, i: nat)
    requires i <= |items| && MapOrFirstError(items[..i], f).Err?
    ensures MapOrFirstError(items, f) == MapOrFirstError(items[..i], f)
    decreases |items| - i
  {
    if i == |items| {
      assert items[..i] == items;
    } else {
      PrefixStep(items, f, i);
      ErrorIsFinal(items, f, i + 1);
    }
  }

  /** What `MapOrFirstError` means, item by item. */
  lemma {:induction false} MapOrFirstErrorMeaning<Item, O, E>(items: seq<Item>, f: Item -> TaskEnd<O, E>)
    ensures match MapOrFirstError(items, f)
            case Ok(values) =>
              |values| == |items| && forall i :: 0 <= i < |items| ==> f(items[i]) == Done(values[i])
            case Err(e) =>
              exists i :: 0 <= i < |items|
                && (forall j :: 0 <= j < i ==> f(items[j]).Done?)
                && match f(items[i]) {
                     case Done(_) => false
                     case Failed(x) => e == TaskFailed(x)
                     case Crashed => e == TaskPanicked
                   }
    decreases |items|
  {
    if |items| > 0 {
      var prefix := items[..|items| - 1];
      MapOrFirstErrorMeaning(prefix, f);
      match MapOrFirstError(prefix, f)
      case Ok(values) =>
        forall j | 0 <= j < |prefix|
          ensures f(items[j]) == Done(values[j])
        {
          assert prefix[j] == items[j];
        }
      case Err(e) =>
        var i :| 0 <= i < |prefix|
          && (forall j :: 0 <= j < i ==> f(prefix[j]).Done?)
          && match f(prefix[i]) {
               case Done(_) => false
               case Failed(x) => e == TaskFailed(x)
               case Crashed => e == TaskPanicked
             };
        assert prefix[i] == items[i];
        forall j | 0 <= j < i
          ensures f(items[j]).Done?
        {
          assert prefix[j] == items[j];
        }
    }
  }

  class Pool<Item(==), O, E> {
    const concurrency: nat
    const items: seq<Item>
    const f: Item -> TaskEnd<O, E>
    var permits: nat
    var running: set<nat>
    var ended: map<nat, TaskEnd<O, E>>

    /** Spawned tasks are running, each with a permit, or have ended with f of their item. */
    ghost predicate Valid(spawned: nat)
      reads this
    {
      && spawned <= |items|
      && permits + |running| == concurrency
      && running !! ended.Keys
      && (forall i :: i in running || i in ended <==> 0 <= i < spawned)
      && (forall i :: i in ended ==> i < |items| && ended[i] == f(items[i]))
    }

    constructor (concurrency: nat, items: seq<Item>, f: Item -> TaskEnd<O, E>)
      ensures Valid(0) && this.concurrency == concurrency && this.items == items && this.f == f
    {
      this.concurrency, this.items, this.f := concurrency, items, f;
      permits, running, ended := concurrency, {}, map[];
    }

    /** Some running task, whichever the scheduler picks, ends and drops its permit. */
    method OneEnds(ghost spawned: nat)
      requires Valid(spawned) && running != {}
      modifies this
      ensures Valid(spawned) && |running| == |old(running)| - 1 && permits == old(permits) + 1
      ensures forall i :: i in old(ended) ==> i in ended
    {
      var i :| i in running;
      running := running - {i};
      ended := ended[i := f(items[i])];
      permits := permits + 1;
    }

    /** Any number of running tasks end. */
    method SomeEnd(ghost spawned: nat)
      requires Valid(spawned)
      modifies this
      ensures Valid(spawned) && |running| <= |old(running)|
      ensures forall i :: i in old(ended) ==> i in ended
    {
      while running != {}
        invariant Valid(spawned) && |running| <= |old(running)|
        invariant forall i :: i in old(ended) ==> i in ended
        decreases |running|
      {
        if * {
          break;
        }
        OneEnds(spawned);
      }
    }

    /** Take a permit, waiting for running tasks while there is none. */
    method Acquire(ghost spawned: nat)
      requires Valid(spawned) && concurrency >= 1
      modifies this
      ensures Valid(spawned) && permits > 0
    {
      SomeEnd(spawned);
      while permits == 0
        invariant Valid(spawned)
        decreases |running|
      {
        OneEnds(spawned);
      }
    }

    /** The task for the next item takes a permit and runs. */
    method Spawn(spawned: nat)
      requires Valid(spawned) && permits > 0 && spawned < |items|
      modifies this
      ensures Valid(spawned + 1) && |running| <= concurrency
    {
      permits := permits - 1;
      running := running + {spawned};
    }

    /** Wait until task i has ended. */
    method Await(i: nat, ghost spawned: nat)
      requires Valid(spawned) && i < spawned
      modifies this
      ensures Valid(spawned) && i in ended
    {
      SomeEnd(spawned);
      while i !in ended
        invariant Valid(spawned)
        decreases |running|
      {
        OneEnds(spawned);
      }
    }
  }

  /** In whatever order the tasks end, the result is `MapOrFirstError` of the items, and
      never more than `concurrency` tasks run at once. */
  method RunWithLimit<Item(==), O, E>(concurrency: nat, items: seq<Item>, f: Item -> TaskEnd<O, E>)
    returns (r: Result<seq<O>, RunError<E>>, peak: nat)
    requires concurrency >= 1
    ensures r == MapOrFirstError(items, f)
    ensures peak <= concurrency
  {
    var pool := new Pool(concurrency, items, f);
    peak := 0;
    var spawned := 0;
    while spawned < |items|
      invariant pool.Valid(spawned) && pool.concurrency == concurrency && pool.items == items && pool.f == f
      invariant peak <= concurrency
      invariant fresh(pool)
    {
      pool.Acquire(spawned);
      pool.Spawn(spawned);
      peak := if |pool.running| > peak then |pool.running| else peak;
      spawned := spawned + 1;
    }
    var results := [];
    var i := 0;
    while i < |items|
      invariant i <= |items| == spawned
      invariant pool.Valid(spawned) && pool.items == items && pool.f == f
      invariant MapOrFirstError(items[..i], f) == Ok(results)
      invariant fresh(pool)
    {
      pool.Await(i, spawned);
      PrefixStep(items, f, i);
      match pool.ended[i] {
        case Done(v) => results := results + [v];
        case Failed(e) =>
          ErrorIsFinal(items, f, i + 1);
          return Err(TaskFailed(e)), peak;
        case Crashed =>
          ErrorIsFinal(items, f, i + 1);
          return Err(TaskPanicked), peak;
      }
      i := i + 1;
    }
    assert items[..i] == items;
    r := Ok(results);
  }
}
