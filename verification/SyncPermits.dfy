/** The two-level sync permits (src/modules/cache/mod.rs): a global semaphore first, then
    one of the account's own, taken from a registry that is filled on demand. */
module SyncPermits {
  import opened Wrappers
  import opened Sequences

  const MAX_POOL_SIZE: nat := 8

  /** A sync task holds the global permit from `GotGlobal` to `Leaving` and an account
      permit while `Working` with one. A task without an account takes no account permit. */
  datatype Phase =
    | WantsGlobal
    | GotGlobal
    | Waiting(sem: nat)
    | Working(held: Option<nat>)
    | Leaving
    | Gone

  datatype Job = Job(account: Option<nat>, phase: Phase)

  datatype State = State(capacity: nat, free: nat, registry: map<nat, nat>, sems: seq<nat>, jobs: seq<Job>)

  datatype Step =
    | Arrive(account: Option<nat>)
    | TakeGlobal(j: nat)
    | Lookup(j: nat)
    | TakeAccount(j: nat)
    | DropAccount(j: nat)
    | DropGlobal(j: nat)

  /** The registry entry of an account, created with 8 permits on first use. */
  function Entry(registry: map<nat, nat>, sems: seq<nat>, account: nat): (map<nat, nat>, seq<nat>, nat) {
    if account in registry then (registry, sems, registry[account])
    else (registry[account := |sems|], sems + [MAX_POOL_SIZE], |sems|)
  }

  predicate IsJob(s: State, j: nat) {
    j < |s.jobs|
  }

  predicate Enabled(s: State, step: Step) {
    match step
    case Arrive(_) => true
    case TakeGlobal(j) => IsJob(s, j) && s.jobs[j].phase.WantsGlobal? && s.free > 0
    case Lookup(j) => IsJob(s, j) && s.jobs[j].phase.GotGlobal?
    case TakeAccount(j) => IsJob(s, j) && s.jobs[j].phase.Waiting? &&
                           s.jobs[j].phase.sem < |s.sems| && s.sems[s.jobs[j].phase.sem] > 0
    case DropAccount(j) => IsJob(s, j) && s.jobs[j].phase.Working? && s.jobs[j].phase.held.Some? &&
                           s.jobs[j].phase.held.value < |s.sems|
    case DropGlobal(j) => IsJob(s, j) && (s.jobs[j].phase.Leaving? || s.jobs[j].phase == Working(None))
  }

  function SetPhase(s: State, j: nat, phase: Phase): State
    requires IsJob(s, j)
  {
    s.(jobs := s.jobs[j := s.jobs[j].(phase := phase)])
  }

  function Apply(s: State, step: Step): State
    requires Enabled(s, step)
  {
    match step
    case Arrive(account) => s.(jobs := s.jobs + [Job(account, WantsGlobal)])
    case TakeGlobal(j) => SetPhase(s, j, GotGlobal).(free := s.free - 1)
    case Lookup(j) =>
      (match s.jobs[j].account
       case None => SetPhase(s, j, Working(None))
       case Some(a) =>
         var (registry, sems, sem) := Entry(s.registry, s.sems, a);
         SetPhase(s, j, Waiting(sem)).(registry := registry, sems := sems))
    case TakeAccount(j) =>
      var k := s.jobs[j].phase.sem;
      SetPhase(s, j, Working(Some(k))).(sems := s.sems[k := s.sems[k] - 1])
    case DropAccount(j) =>
      var k := s.jobs[j].phase.held.value;
      SetPhase(s, j, Leaving).(sems := s.sems[k := s.sems[k] + 1])
    case DropGlobal(j) => SetPhase(s, j, Gone).(free := s.free + 1)
  }

  predicate Init(s: State) {
    s.free == s.capacity && s.capacity >= 1 && s.registry == map[] && s.sems == [] && s.jobs == []
  }

  predicate IsRun(s: State, steps: seq<Step>)
    decreases |steps|
  {
    |steps| > 0 ==> Enabled(s, steps[0]) && IsRun(Apply(s, steps[0]), steps[1..])
  }

  function End(s: State, steps: seq<Step>): State
    requires IsRun(s, steps)
    decreases |steps|
  {
    if |steps| == 0 then s else End(Apply(s, steps[0]), steps[1..])
  }

  // ----- the registry object

  class SemaphoreRegistry {
    var registry: map<nat, nat>
    var sems: seq<nat>

    constructor ()
      ensures registry == map[] && sems == []
    {
      registry, sems := map[], [];
    }

    /** Under the registry lock: the account's semaphore, inserted if absent. No other
        account's entry and no existing semaphore changes. */
    method AccountSemaphore(account: nat) returns (sem: nat)
      modifies this
      ensures (registry, sems, sem) == Entry(old(registry), old(sems), account)
      ensures account in registry && registry[account] == sem
      ensures if account in old(registry) then registry == old(registry) && sems == old(sems)
              else registry == old(registry)[account := |old(sems)|] && sems == old(sems) + [8]
      ensures forall a :: a in old(registry) ==> a in registry && registry[a] == old(registry)[a]
    {
      if account !in registry {
        registry := registry[account := |sems|];
        sems := sems + [MAX_POOL_SIZE];
      }
      sem := registry[account];
    }
  }

  // ----- the invariant

  function HasGlobal(job: Job): nat {
    if job.phase.WantsGlobal? || job.phase.Gone? then 0 else 1
  }

  function Uses(k: nat): Job -> nat {
    (job: Job) => if job.phase == Working(Some(k)) then 1 else 0
  }

  function WorksFor(a: nat): Job -> nat {
    (job: Job) => if job.account == Some(a) && job.phase.Working? then 1 else 0
  }

  predicate JobOk(s: State, job: Job) {
    match job.phase
    case Waiting(k) => job.account.Some? && job.account.value in s.registry && s.registry[job.account.value] == k
    case Working(Some(k)) => job.account.Some? && job.account.value in s.registry && s.registry[job.account.value] == k
    case Working(None) => job.account.None?
    case _ => true
  }

  ghost predicate SemOk(s: State, k: nat)
    requires k < |s.sems|
  {
    s.sems[k] + Sum(s.jobs, Uses(k)) == MAX_POOL_SIZE
  }

  ghost predicate Inv(s: State) {
    && s.capacity >= 1
    && s.free + Sum(s.jobs, HasGlobal) == s.capacity
    && (forall a :: a in s.registry ==> s.registry[a] < |s.sems|)
    && (forall a, b :: a in s.registry && b in s.registry && a != b ==> s.registry[a] != s.registry[b])
    && (forall j: nat :: j < |s.jobs| ==> JobOk(s, s.jobs[j]))
    && (forall k: nat :: k < |s.sems| ==> SemOk(s, k))
  }

  lemma PhaseSums(s: State, j: nat, phase: Phase, k: nat)
    requires IsJob(s, j)
    ensures Sum(SetPhase(s, j, phase).jobs, HasGlobal) + HasGlobal(s.jobs[j]) ==
            Sum(s.jobs, HasGlobal) + HasGlobal(s.jobs[j].(phase := phase))
    ensures Sum(SetPhase(s, j, phase).jobs, Uses(k)) + Uses(k)(s.jobs[j]) ==
            Sum(s.jobs, Uses(k)) + Uses(k)(s.jobs[j].(phase := phase))
  {
    SumUpdate(s.jobs, j, s.jobs[j].(phase := phase), HasGlobal);
    SumUpdate(s.jobs, j, s.jobs[j].(phase := phase), Uses(k));
  }

  lemma ArriveKeeps(s: State, account: Option<nat>)
    requires Inv(s)
    ensures Inv(Apply(s, Arrive(account)))
  {
    var job := Job(account, WantsGlobal);
    SumAppend(s.jobs, job, HasGlobal);
    forall k: nat | k < |s.sems|
      ensures SemOk(Apply(s, Arrive(account)), k)
    {
      assert SemOk(s, k);
      SumAppend(s.jobs, job, Uses(k));
    }
  }

  lemma NewSemUnused(s: State, k: nat)
    requires Inv(s) && k >= |s.sems|
    ensures Sum(s.jobs, Uses(k)) == 0
  {
    forall job | job in s.jobs
      ensures Uses(k)(job) == 0
    {
      var i: nat :| i < |s.jobs| && s.jobs[i] == job;
      assert JobOk(s, s.jobs[i]);
    }
    SumZero(s.jobs, Uses(k));
  }

  /** The account's first task creates its semaphore. */
  lemma CreateKeeps(s: State, a: nat)
    requires Inv(s) && a !in s.registry
    ensures Inv(s.(registry := s.registry[a := |s.sems|], sems := s.sems + [MAX_POOL_SIZE]))
  {
    var s' := s.(registry := s.registry[a := |s.sems|], sems := s.sems + [MAX_POOL_SIZE]);
    forall k: nat | k < |s'.sems|
      ensures SemOk(s', k)
    {
      if k < |s.sems| {
        assert SemOk(s, k);
      } else {
        NewSemUnused(s, k);
      }
    }
    forall i: nat | i < |s'.jobs|
      ensures JobOk(s', s'.jobs[i])
    {
      assert JobOk(s, s.jobs[i]);
    }
  }

  /** A task that holds the global permit goes on to wait or, without an account, to work. */
  lemma ProceedKeeps(s: State, j: nat, phase: Phase)
    requires Inv(s) && IsJob(s, j) && s.jobs[j].phase.GotGlobal?
    requires phase.Waiting? || phase == Working(None)
    requires JobOk(s, s.jobs[j].(phase := phase))
    ensures Inv(SetPhase(s, j, phase))
  {
    var s' := SetPhase(s, j, phase);
    PhaseSums(s, j, phase, 0);
    forall k: nat | k < |s'.sems|
      ensures SemOk(s', k)
    {
      assert SemOk(s, k);
      PhaseSums(s, j, phase, k);
    }
  }

  lemma LookupKeeps(s: State, j: nat)
    requires Inv(s) && Enabled(s, Lookup(j))
    ensures Inv(Apply(s, Lookup(j)))
  {
    match s.jobs[j].account
    case None => ProceedKeeps(s, j, Working(None));
    case Some(a) =>
      if a in s.registry {
        ProceedKeeps(s, j, Waiting(s.registry[a]));
      } else {
        CreateKeeps(s, a);
        ProceedKeeps(s.(registry := s.registry[a := |s.sems|], sems := s.sems + [MAX_POOL_SIZE]), j, Waiting(|s.sems|));
      }
  }

  lemma GlobalKeeps(s: State, step: Step)
    requires Inv(s) && Enabled(s, step)
    requires step.TakeGlobal? || step.DropGlobal?
    ensures Inv(Apply(s, step))
  {
    var s' := Apply(s, step);
    PhaseSums(s, step.j, s'.jobs[step.j].phase, 0);
    forall k: nat | k < |s'.sems|
      ensures SemOk(s', k)
    {
      assert SemOk(s, k);
      PhaseSums(s, step.j, s'.jobs[step.j].phase, k);
    }
  }

  lemma AccountKeeps(s: State, step: Step)
    requires Inv(s) && Enabled(s, step)
    requires step.TakeAccount? || step.DropAccount?
    ensures Inv(Apply(s, step))
  {
    var s' := Apply(s, step);
    PhaseSums(s, step.j, s'.jobs[step.j].phase, 0);
    assert JobOk(s, s.jobs[step.j]);
    forall k: nat | k < |s'.sems|
      ensures SemOk(s', k)
    {
      assert SemOk(s, k);
      PhaseSums(s, step.j, s'.jobs[step.j].phase, k);
    }
  }

  lemma StepKeepsInv(s: State, step: Step)
    requires Inv(s) && Enabled(s, step)
    ensures Inv(Apply(s, step))
  {
    match step
    case Arrive(account) => ArriveKeeps(s, account);
    case Lookup(j) => LookupKeeps(s, j);
    case TakeGlobal(_) => GlobalKeeps(s, step);
    case DropGlobal(_) => GlobalKeeps(s, step);
    case _ => AccountKeeps(s, step);
  }

  lemma {:induction false} RunKeepsInv(s: State, steps: seq<Step>)
    requires Inv(s) && IsRun(s, steps)
    ensures Inv(End(s, steps))
    decreases |steps|
  {
    if |steps| > 0 {
      StepKeepsInv(s, steps[0]);
      RunKeepsInv(Apply(s, steps[0]), steps[1..]);
    }
  }

  // ----- theorems

  lemma {:induction false} SumSame<T(!new)>(s: seq<T>, v: T -> nat, w: T -> nat)
    requires forall x :: x in s ==> v(x) == w(x)
    ensures Sum(s, v) == Sum(s, w)
  {
    if |s| > 0 {
      assert forall x :: x in s[1..] ==> x in s;
      SumSame(s[1..], v, w);
    }
  }

  lemma {:induction false} CapacityFixed(s: State, steps: seq<Step>)
    requires IsRun(s, steps)
    ensures End(s, steps).capacity == s.capacity
    decreases |steps|
  {
    if |steps| > 0 {
      CapacityFixed(Apply(s, steps[0]), steps[1..]);
    }
  }

  /** In every reachable state at most `capacity` tasks hold the global permit and at
      most 8 tasks of any one account are working. */
  lemma PermitsBounded(s0: State, steps: seq<Step>, a: nat)
    requires Init(s0) && IsRun(s0, steps)
    ensures Sum(End(s0, steps).jobs, HasGlobal) <= s0.capacity
    ensures Sum(End(s0, steps).jobs, WorksFor(a)) <= 8
  {
    CapacityFixed(s0, steps);
    RunKeepsInv(s0, steps);
    var s := End(s0, steps);
    if a in s.registry {
      var k := s.registry[a];
      assert SemOk(s, k);
      forall job | job in s.jobs
        ensures WorksFor(a)(job) == Uses(k)(job)
      {
        var i: nat :| i < |s.jobs| && s.jobs[i] == job;
        assert JobOk(s, s.jobs[i]);
      }
      SumSame(s.jobs, WorksFor(a), Uses(k));
    } else {
      forall job | job in s.jobs
        ensures WorksFor(a)(job) == 0
      {
        var i: nat :| i < |s.jobs| && s.jobs[i] == job;
        assert JobOk(s, s.jobs[i]);
      }
      SumZero(s.jobs, WorksFor(a));
    }
  }

  /** Once an account has a semaphore it keeps that one for ever. */
  lemma {:induction false} SemaphoreForEver(s: State, steps: seq<Step>, a: nat)
    requires IsRun(s, steps) && a in s.registry
    ensures a in End(s, steps).registry && End(s, steps).registry[a] == s.registry[a]
    decreases |steps|
  {
    if |steps| > 0 {
      SemaphoreForEver(Apply(s, steps[0]), steps[1..], a);
    }
  }

  /** The semaphore a task waits for or holds a permit of. */
  function SemOf(job: Job): Option<nat> {
    match job.phase
    case Waiting(k) => Some(k)
    case Working(held) => held
    case _ => None
  }

  /** And two tasks that wait for or hold an account permit use the same semaphore if and
      only if they are of one account. */
  lemma OneSemaphorePerAccount(s0: State, steps: seq<Step>, i: nat, j: nat)
    requires Init(s0) && IsRun(s0, steps)
    requires i < |End(s0, steps).jobs| && j < |End(s0, steps).jobs|
    requires SemOf(End(s0, steps).jobs[i]).Some? && SemOf(End(s0, steps).jobs[j]).Some?
    ensures var jobs := End(s0, steps).jobs;
            jobs[i].account == jobs[j].account <==> SemOf(jobs[i]) == SemOf(jobs[j])
  {
    RunKeepsInv(s0, steps);
    var s := End(s0, steps);
    assert JobOk(s, s.jobs[i]) && JobOk(s, s.jobs[j]);
  }

  /** A step other than a new arrival can be taken. */
  ghost predicate CanMove(s: State) {
    exists step :: Enabled(s, step) && !step.Arrive?
  }

  lemma HolderCanMove(s: State, j: nat)
    requires Inv(s) && IsJob(s, j)
    requires s.jobs[j].phase.GotGlobal? || s.jobs[j].phase.Working? || s.jobs[j].phase.Leaving?
    ensures CanMove(s)
  {
    assert JobOk(s, s.jobs[j]);
    match s.jobs[j].phase
    case GotGlobal => assert Enabled(s, Lookup(j));
    case Working(held) => assert Enabled(s, if held.Some? then DropAccount(j) else DropGlobal(j));
    case Leaving => assert Enabled(s, DropGlobal(j));
  }

  /** No deadlock: while some task has not finished, a step other than a new arrival can
      be taken. The order, global permit first, is what makes this work: a task waiting
      for an account permit waits only for tasks that can finish. */
  lemma NeverStuck(s0: State, steps: seq<Step>, j: nat)
    requires Init(s0) && IsRun(s0, steps)
    requires IsJob(End(s0, steps), j) && !End(s0, steps).jobs[j].phase.Gone?
    ensures CanMove(End(s0, steps))
  {
    RunKeepsInv(s0, steps);
    var s := End(s0, steps);
    if exists i: nat ::
         IsJob(s, i) && (s.jobs[i].phase.GotGlobal? || s.jobs[i].phase.Working? || s.jobs[i].phase.Leaving?) {
      var i: nat :| IsJob(s, i) && (s.jobs[i].phase.GotGlobal? || s.jobs[i].phase.Working? || s.jobs[i].phase.Leaving?);
      HolderCanMove(s, i);
    } else if exists i: nat :: IsJob(s, i) && s.jobs[i].phase.Waiting? {
      var i: nat :| IsJob(s, i) && s.jobs[i].phase.Waiting?;
      assert JobOk(s, s.jobs[i]);
      var k := s.jobs[i].phase.sem;
      assert SemOk(s, k);
      forall job | job in s.jobs
        ensures Uses(k)(job) == 0
      {
        var m: nat :| m < |s.jobs| && s.jobs[m] == job;
        assert IsJob(s, m);
      }
      SumZero(s.jobs, Uses(k));
      assert Enabled(s, TakeAccount(i));
    } else {
      forall job | job in s.jobs
        ensures HasGlobal(job) == 0
      {
        var m: nat :| m < |s.jobs| && s.jobs[m] == job;
        assert IsJob(s, m);
      }
      SumZero(s.jobs, HasGlobal);
      assert Enabled(s, TakeGlobal(j));
    }
  }

  function StepsLeft(job: Job): nat {
    match job.phase
    case WantsGlobal => 5
    case GotGlobal => 4
    case Waiting(_) => 3
    case Working(_) => 2
    case Leaving => 1
    case Gone => 0
  }

  /** Every step but an arrival brings its task strictly closer to its end, so a run with
      k arrivals has at most 6k steps: together with `NeverStuck`, every task finishes. */
  lemma {:induction false} RunsAreShort(s: State, steps: seq<Step>)
    requires IsRun(s, steps)
    ensures |steps| + Sum(End(s, steps).jobs, StepsLeft) <= Sum(s.jobs, StepsLeft) + 6 * Sum(steps, IsArrival)
    decreases |steps|
  {
    if |steps| > 0 {
      var step := steps[0];
      var s' := Apply(s, step);
      if step.Arrive? {
        SumAppend(s.jobs, Job(step.account, WantsGlobal), StepsLeft);
      } else {
        SumUpdate(s.jobs, step.j, s'.jobs[step.j], StepsLeft);
        assert s'.jobs == s.jobs[step.j := s'.jobs[step.j]];
      }
      RunsAreShort(s', steps[1..]);
    }
  }

  function IsArrival(step: Step): nat {
    if step.Arrive? then 1 else 0
  }
}
