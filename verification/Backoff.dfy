/** IMAP connect backoff (src/modules/imap/manager.rs, src/modules/imap/pool.rs): two
    atomics, loaded and stored without a lock. Times are milliseconds. */
module Backoff {
  import opened Arithmetic
  import opened Wrappers

  const INITIAL: nat := 30_000
  const MAXIMUM: nat := 600_000
  const U64_MAX: nat := 0xFFFF_FFFF_FFFF_FFFF

  function NextBackoff(current: nat): nat {
    if current == 0 then INITIAL else Min(current * 2, MAXIMUM)
  }

  /** The backoff after n consecutive failures. */
  function Ladder(n: nat): nat {
    if n == 0 then 0 else Min(INITIAL * Pow(2, n - 1), MAXIMUM)
  }

  ghost predicate InLadder(ms: nat) {
    exists n: nat :: ms == Ladder(n)
  }

  function SaturatingAdd(a: nat, b: nat): nat {
    Min(a + b, U64_MAX)
  }

  lemma LadderStep(n: nat)
    ensures NextBackoff(Ladder(n)) == Ladder(n + 1)
  {
    if n > 0 {
      PowMonotone(2, 0, n - 1);
      assert Pow(2, n) == 2 * Pow(2, n - 1);
    } else {
      assert Pow(2, 0) == 1;
    }
  }

  /** The ladder has six rungs above zero. */
  lemma LadderRungs(ms: nat)
    ensures InLadder(ms) <==> ms in {0, 30_000, 60_000, 120_000, 240_000, 480_000, 600_000}
  {
    LowRungs();
    if InLadder(ms) {
      var n: nat :| ms == Ladder(n);
      if n >= 6 {
        PowMonotone(2, 5, n - 1);
        assert Ladder(n) == MAXIMUM;
      } else {
        assert n == 0 || n == 1 || n == 2 || n == 3 || n == 4 || n == 5;
      }
    }
  }

  lemma LowRungs()
    ensures Ladder(0) == 0 && Ladder(1) == 30_000 && Ladder(2) == 60_000 && Ladder(3) == 120_000
    ensures Ladder(4) == 240_000 && Ladder(5) == 480_000 && Ladder(6) == 600_000
    ensures Pow(2, 5) == 32
  {
    assert Pow(2, 0) == 1 && Pow(2, 1) == 2 && Pow(2, 2) == 4;
    assert Pow(2, 3) == 8 && Pow(2, 4) == 16;
  }

  // ----- concurrent callers

  /** Where a connecting caller is: waiting for the window (`Polling` to `Asleep`),
      building its connection, or between the atomic accesses of its note. */
  datatype Pc =
    | Away
    | Polling
    | Clocked(at: nat)
    | Compared(at: nat, seen: nat)
    | Asleep(wake: nat)
    | Building
    | Loaded(current: nat)
    | Stored(next: nat)
    | Timed(until: nat)
    | Cleared

  /** `backoffs` and `attempts` are every value the two atomics have held, newest last.
      The accesses are relaxed, so a load may return any of them. `begun` records, for
      every connection attempt, the clock reading and the load that let it through. */
  datatype State = State(now: nat, backoffs: seq<nat>, attempts: seq<nat>, callers: map<nat, Pc>,
                         begun: seq<(nat, nat)>)

  datatype Step =
    | TimePasses(to: nat)
    // waiting for the window
    | Connect(caller: nat)
    | ReadNow(caller: nat)
    | LoadAttempt(caller: nat, seen: nat)
    | Sleep(caller: nat)
    | Wake(caller: nat)
    | Begin(caller: nat)
    // noting a failure
    | LoadBackoff(caller: nat, seen: nat)
    | StoreBackoff(caller: nat)
    | ReadClock(caller: nat)
    | StoreAttempt(caller: nat)
    // noting a success
    | ClearBackoff(caller: nat)
    | ClearAttempt(caller: nat)

  function PcOf(s: State, caller: nat): Pc {
    if caller in s.callers then s.callers[caller] else Away
  }

  function Goto(s: State, caller: nat, pc: Pc): State {
    s.(callers := s.callers[caller := pc])
  }

  predicate Enabled(s: State, step: Step) {
    match step
    case TimePasses(to) => s.now <= to
    case Connect(c) => PcOf(s, c).Away?
    case ReadNow(c) => PcOf(s, c).Polling?
    case LoadAttempt(c, seen) => PcOf(s, c).Clocked? && seen < |s.attempts|
    case Sleep(c) => PcOf(s, c).Compared? && PcOf(s, c).seen < |s.attempts| &&
                     PcOf(s, c).at < s.attempts[PcOf(s, c).seen]
    case Wake(c) => PcOf(s, c).Asleep? && PcOf(s, c).wake <= s.now
    case Begin(c) => PcOf(s, c).Compared? && PcOf(s, c).seen < |s.attempts| &&
                     s.attempts[PcOf(s, c).seen] <= PcOf(s, c).at
    case LoadBackoff(c, seen) => PcOf(s, c).Building? && seen < |s.backoffs|
    case StoreBackoff(c) => PcOf(s, c).Loaded?
    case ReadClock(c) => PcOf(s, c).Stored?
    case StoreAttempt(c) => PcOf(s, c).Timed?
    case ClearBackoff(c) => PcOf(s, c).Building?
    case ClearAttempt(c) => PcOf(s, c).Cleared?
  }

  function Apply(s: State, step: Step): State
    requires Enabled(s, step)
  {
    match step
    case TimePasses(to) => s.(now := to)
    case Connect(c) => Goto(s, c, Polling)
    case ReadNow(c) => Goto(s, c, Clocked(s.now))
    case LoadAttempt(c, seen) => Goto(s, c, Compared(PcOf(s, c).at, seen))
    case Sleep(c) => Goto(s, c, Asleep(s.now + s.attempts[PcOf(s, c).seen] - PcOf(s, c).at))
    case Wake(c) => Goto(s, c, Polling)
    case Begin(c) => Goto(s, c, Building).(begun := s.begun + [(PcOf(s, c).at, PcOf(s, c).seen)])
    case LoadBackoff(c, seen) => Goto(s, c, Loaded(s.backoffs[seen]))
    case StoreBackoff(c) =>
      var next := NextBackoff(PcOf(s, c).current);
      Goto(s, c, Stored(next)).(backoffs := s.backoffs + [next])
    case ReadClock(c) => Goto(s, c, Timed(SaturatingAdd(s.now, PcOf(s, c).next)))
    case StoreAttempt(c) => Goto(s, c, Away).(attempts := s.attempts + [PcOf(s, c).until])
    case ClearBackoff(c) => Goto(s, c, Cleared).(backoffs := s.backoffs + [0])
    case ClearAttempt(c) => Goto(s, c, Away).(attempts := s.attempts + [0])
  }

  predicate Init(s: State) {
    s.backoffs == [0] && s.attempts == [0] && s.callers == map[] && s.begun == []
  }

  predicate IsRun(s: State, steps: seq<Step>)
    decreases |steps|
  {
    |steps| > 0 ==> Enabled(s, steps[0]) && IsRun(Apply(s, steps[0]), steps[1..])
  }

  function End(s: State, steps: seq<Step>): State
    requires IsRun(s, steps)
    decreases |steps|
  {
    if |steps| == 0 then s else End(Apply(s, steps[0]), steps[1..])
  }

  // ----- what every step keeps

  ghost predicate PcOk(pc: Pc, s: State) {
    match pc
    case Clocked(at) => at <= s.now
    case Compared(at, seen) => at <= s.now && seen < |s.attempts|
    case Loaded(current) => InLadder(current)
    case Stored(next) => next > 0 && InLadder(next)
    case Timed(until) => 0 < until <= s.now + MAXIMUM
    case _ => true
  }

  ghost predicate Inv(s: State) {
    && |s.backoffs| > 0 && |s.attempts| > 0
    && (forall i :: 0 <= i < |s.backoffs| ==> InLadder(s.backoffs[i]))
    && (forall i :: 0 <= i < |s.attempts| ==> s.attempts[i] <= s.now + MAXIMUM)
    && (forall c :: c in s.callers ==> PcOk(s.callers[c], s))
    && (forall k :: 0 <= k < |s.begun| ==>
          s.begun[k].1 < |s.attempts| && s.attempts[s.begun[k].1] <= s.begun[k].0 <= s.now)
  }

  lemma NextInLadder(current: nat)
    requires InLadder(current)
    ensures InLadder(NextBackoff(current))
  {
    var n: nat :| current == Ladder(n);
    LadderStep(n);
  }

  /** The steps of a note, from its load to its last store. */
  predicate IsNoteStep(step: Step) {
    || step.LoadBackoff? || step.StoreBackoff? || step.ReadClock? || step.StoreAttempt?
    || step.ClearBackoff? || step.ClearAttempt?
  }

  lemma NoteStepKeepsInv(s: State, step: Step)
    requires Inv(s) && Enabled(s, step) && IsNoteStep(step)
    ensures Inv(Apply(s, step))
  {
    match step
    case StoreBackoff(c) => NextInLadder(PcOf(s, c).current);
    case ReadClock(c) => LadderRungs(PcOf(s, c).next);
    case ClearBackoff(c) => assert Ladder(0) == 0;
    case _ =>
  }

  lemma WaitStepKeepsInv(s: State, step: Step)
    requires Inv(s) && Enabled(s, step) && !IsNoteStep(step)
    ensures Inv(Apply(s, step))
  {
  }

  lemma StepKeepsInv(s: State, step: Step)
    requires Inv(s) && Enabled(s, step)
    ensures Inv(Apply(s, step))
  {
    if IsNoteStep(step) {
      NoteStepKeepsInv(s, step);
    } else {
      WaitStepKeepsInv(s, step);
    }
  }

  lemma {:induction false} RunKeepsInv(s: State, steps: seq<Step>)
    requires Inv(s) && IsRun(s, steps)
    ensures Inv(End(s, steps))
    decreases |steps|
  {
    if |steps| > 0 {
      StepKeepsInv(s, steps[0]);
      RunKeepsInv(Apply(s, steps[0]), steps[1..]);
    }
  }

  /** However failures and successes interleave, and however stale the loads are, every
      value the backoff ever holds is a rung of the ladder, and no caller is ever told to
      wait more than ten minutes. */
  lemma BackoffStaysOnLadder(s0: State, steps: seq<Step>, i: nat, j: nat)
    requires Init(s0) && IsRun(s0, steps)
    requires i < |End(s0, steps).backoffs| && j < |End(s0, steps).attempts|
    ensures End(s0, steps).backoffs[i] in {0, 30_000, 60_000, 120_000, 240_000, 480_000, 600_000}
    ensures End(s0, steps).attempts[j] <= End(s0, steps).now + MAXIMUM
  {
    assert Ladder(0) == 0;
    RunKeepsInv(s0, steps);
    LadderRungs(End(s0, steps).backoffs[i]);
  }

  /** However the window moves while callers wait, no connection attempt begins before a
      clock reading at or past the value its caller loaded last. */
  lemma AttemptsWaitForWindow(s0: State, steps: seq<Step>, k: nat)
    requires Init(s0) && IsRun(s0, steps)
    requires k < |End(s0, steps).begun|
    ensures var s := End(s0, steps);
            var (at, seen) := s.begun[k];
            seen < |s.attempts| && s.attempts[seen] <= at <= s.now
  {
    assert Ladder(0) == 0;
    RunKeepsInv(s0, steps);
  }

  /** A caller that goes to sleep wakes at or past the end of the window it loaded, and no
      later than that window is away from its clock reading. */
  lemma SleepsToWindowEnd(s: State, caller: nat)
    requires Inv(s) && Enabled(s, Sleep(caller))
    ensures var pc := s.callers[caller];
            var wake := Apply(s, Sleep(caller)).callers[caller].wake;
            s.attempts[pc.seen] <= wake == s.now + (s.attempts[pc.seen] - pc.at)
  {
    assert PcOk(s.callers[caller], s);
  }

  // ----- when the two atomics agree

  function Last(values: seq<nat>): nat
    requires |values| > 0
  {
    values[|values| - 1]
  }

  /** Both say there is a backoff, or both say there is none. */
  predicate Agree(s: State) {
    |s.backoffs| > 0 && |s.attempts| > 0 && (Last(s.backoffs) == 0 <==> Last(s.attempts) == 0)
  }

  ghost predicate Never(steps: seq<Step>, clear: Step -> bool) {
    forall n :: 0 <= n < |steps| ==> !clear(steps[n])
  }

  /** Some `set` step has no `clear` step after it. */
  ghost predicate Prevails(steps: seq<Step>, set_: Step -> bool, clear: Step -> bool) {
    exists i :: 0 <= i < |steps| && set_(steps[i]) && forall n :: i < n < |steps| ==> !clear(steps[n])
  }

  lemma PrevailsCons(steps: seq<Step>, set_: Step -> bool, clear: Step -> bool)
    requires |steps| > 0
    ensures Never(steps, clear) <==> !clear(steps[0]) && Never(steps[1..], clear)
    ensures Prevails(steps, set_, clear) <==>
            Prevails(steps[1..], set_, clear) || (set_(steps[0]) && Never(steps[1..], clear))
  {
    var rest := steps[1..];
    assert forall n :: 0 < n < |steps| ==> steps[n] == rest[n - 1];
    if Prevails(rest, set_, clear) {
      var i :| 0 <= i < |rest| && set_(rest[i]) && forall n :: i < n < |rest| ==> !clear(rest[n]);
      assert set_(steps[i + 1]);
    }
    if set_(steps[0]) && Never(rest, clear) {
      assert forall n :: 0 < n < |steps| ==> !clear(steps[n]);
    }
    if Prevails(steps, set_, clear) {
      var i :| 0 <= i < |steps| && set_(steps[i]) && forall n :: i < n < |steps| ==> !clear(steps[n]);
      if i > 0 {
        assert set_(rest[i - 1]);
        assert forall n :: i - 1 < n < |rest| ==> !clear(rest[n]) by {
          forall n | i - 1 < n < |rest|
            ensures !clear(rest[n])
          {
            assert rest[n] == steps[n + 1];
          }
        }
      } else {
        forall n | 0 <= n < |rest|
          ensures !clear(rest[n])
        {
          assert rest[n] == steps[n + 1];
        }
      }
    }
  }

  /** A failure stored the backoff and no success cleared it since. */
  ghost predicate FailureHasBackoff(steps: seq<Step>) {
    Prevails(steps, (step: Step) => step.StoreBackoff?, (step: Step) => step.ClearBackoff?)
  }

  /** A failure stored the next attempt and no success cleared it since. */
  ghost predicate FailureHasAttempt(steps: seq<Step>) {
    Prevails(steps, (step: Step) => step.StoreAttempt?, (step: Step) => step.ClearAttempt?)
  }

  lemma {:induction false} BackoffSettled(s: State, steps: seq<Step>)
    requires Inv(s) && IsRun(s, steps)
    ensures |End(s, steps).backoffs| > 0
    ensures Last(End(s, steps).backoffs) != 0 <==>
            FailureHasBackoff(steps) || (Last(s.backoffs) != 0 && Never(steps, (step: Step) => step.ClearBackoff?))
    decreases |steps|
  {
    if |steps| > 0 {
      StepKeepsInv(s, steps[0]);
      PrevailsCons(steps, (step: Step) => step.StoreBackoff?, (step: Step) => step.ClearBackoff?);
      BackoffSettled(Apply(s, steps[0]), steps[1..]);
    }
  }

  lemma {:induction false} AttemptSettled(s: State, steps: seq<Step>)
    requires Inv(s) && IsRun(s, steps)
    ensures |End(s, steps).attempts| > 0
    ensures Last(End(s, steps).attempts) != 0 <==>
            FailureHasAttempt(steps) || (Last(s.attempts) != 0 && Never(steps, (step: Step) => step.ClearAttempt?))
    decreases |steps|
  {
    if |steps| > 0 {
      StepKeepsInv(s, steps[0]);
      PrevailsCons(steps, (step: Step) => step.StoreAttempt?, (step: Step) => step.ClearAttempt?);
      AttemptSettled(Apply(s, steps[0]), steps[1..]);
    }
  }

  /** In every run the two atomics agree if and only if the last note to write the one and
      the last note to write the other are of the same kind. */
  lemma AtomicsAgreeIff(s0: State, steps: seq<Step>)
    requires Init(s0) && IsRun(s0, steps)
    ensures Agree(End(s0, steps)) <==> (FailureHasBackoff(steps) <==> FailureHasAttempt(steps))
  {
    assert Ladder(0) == 0;
    BackoffSettled(s0, steps);
    AttemptSettled(s0, steps);
  }

  /** One failure and one success, in any interleaving, leave the atomics in agreement if
      and only if they wrote both in the same order. */
  lemma OneFailureOneSuccess(s0: State, steps: seq<Step>, i: nat, j: nat, k: nat, l: nat)
    requires Init(s0) && IsRun(s0, steps)
    requires i < |steps| && steps[i].StoreBackoff? && forall n :: 0 <= n < |steps| && steps[n].StoreBackoff? ==> n == i
    requires j < |steps| && steps[j].ClearBackoff? && forall n :: 0 <= n < |steps| && steps[n].ClearBackoff? ==> n == j
    requires k < |steps| && steps[k].StoreAttempt? && forall n :: 0 <= n < |steps| && steps[n].StoreAttempt? ==> n == k
    requires l < |steps| && steps[l].ClearAttempt? && forall n :: 0 <= n < |steps| && steps[n].ClearAttempt? ==> n == l
    ensures Agree(End(s0, steps)) <==> (i < j <==> k < l)
  {
    AtomicsAgreeIff(s0, steps);
    assert FailureHasBackoff(steps) <==> j < i;
    assert FailureHasAttempt(steps) <==> l < k;
  }

  predicate Failing(pc: Pc) {
    pc.Loaded? || pc.Stored? || pc.Timed?
  }

  /** A note does not begin while a note of the other kind is under way. */
  ghost predicate Apart(s: State, step: Step) {
    && (step.LoadBackoff? ==> forall c :: c in s.callers ==> !s.callers[c].Cleared?)
    && (step.ClearBackoff? ==> forall c :: c in s.callers ==> !Failing(s.callers[c]))
  }

  ghost predicate IsApartRun(s: State, steps: seq<Step>)
    requires IsRun(s, steps)
    decreases |steps|
  {
    |steps| > 0 ==> Apart(s, steps[0]) && IsApartRun(Apply(s, steps[0]), steps[1..])
  }

  predicate Storing(pc: Pc) {
    pc.Stored? || pc.Timed?
  }

  /** No failure note and success note are under way together, and each has left its mark
      on the backoff. */
  ghost predicate NotesApart(s: State)
    requires |s.backoffs| > 0
  {
    && (forall c, d :: c in s.callers && d in s.callers ==> !(Failing(s.callers[c]) && s.callers[d].Cleared?))
    && (forall c :: c in s.callers && Storing(s.callers[c]) ==> Last(s.backoffs) != 0)
    && (forall c :: c in s.callers && s.callers[c].Cleared? ==> Last(s.backoffs) == 0)
  }

  /** A disagreement is the work of a note under way. */
  ghost predicate Explained(s: State)
    requires |s.backoffs| > 0 && |s.attempts| > 0
  {
    && (Last(s.backoffs) != 0 && Last(s.attempts) == 0 ==> exists c :: c in s.callers && Storing(s.callers[c]))
    && (Last(s.backoffs) == 0 && Last(s.attempts) != 0 ==> exists c :: c in s.callers && s.callers[c].Cleared?)
  }

  ghost predicate ApartInv(s: State) {
    Inv(s) && NotesApart(s) && Explained(s)
  }

  lemma OtherCallers(s: State, step: Step)
    requires Enabled(s, step) && !step.TimePasses?
    ensures step.caller in Apply(s, step).callers
    ensures forall c :: c != step.caller ==>
              (c in s.callers <==> c in Apply(s, step).callers) &&
              (c in s.callers ==> Apply(s, step).callers[c] == s.callers[c])
  {
  }

  /** Steps outside the notes, and a note's load. */
  lemma ApartQuietStep(s: State, step: Step)
    requires ApartInv(s) && Enabled(s, step) && Apart(s, step)
    requires !IsNoteStep(step) || step.LoadBackoff?
    ensures |Apply(s, step).backoffs| > 0 && |Apply(s, step).attempts| > 0
    ensures NotesApart(Apply(s, step)) && Explained(Apply(s, step))
  {
    var s' := Apply(s, step);
    if !step.TimePasses? {
      OtherCallers(s, step);
      if c :| c in s.callers && Storing(s.callers[c]) {
        assert c in s'.callers && Storing(s'.callers[c]);
      }
      if c :| c in s.callers && s.callers[c].Cleared? {
        assert c in s'.callers && s'.callers[c].Cleared?;
      }
    }
  }

  lemma ApartFailureStep(s: State, step: Step)
    requires ApartInv(s) && Enabled(s, step)
    requires step.StoreBackoff? || step.ReadClock? || step.StoreAttempt?
    ensures |Apply(s, step).backoffs| > 0 && |Apply(s, step).attempts| > 0
    ensures NotesApart(Apply(s, step)) && Explained(Apply(s, step))
  {
    var s' := Apply(s, step);
    OtherCallers(s, step);
    assert PcOk(s.callers[step.caller], s);
    if !step.StoreAttempt? {
      assert Storing(s'.callers[step.caller]);
    }
  }

  lemma ApartSuccessStep(s: State, step: Step)
    requires ApartInv(s) && Enabled(s, step) && Apart(s, step)
    requires step.ClearBackoff? || step.ClearAttempt?
    ensures |Apply(s, step).backoffs| > 0 && |Apply(s, step).attempts| > 0
    ensures NotesApart(Apply(s, step)) && Explained(Apply(s, step))
  {
    var s' := Apply(s, step);
    OtherCallers(s, step);
    if step.ClearBackoff? {
      assert s'.callers[step.caller].Cleared?;
    }
  }

  lemma ApartStep(s: State, step: Step)
    requires ApartInv(s) && Enabled(s, step) && Apart(s, step)
    ensures ApartInv(Apply(s, step))
  {
    StepKeepsInv(s, step);
    match step
    case StoreBackoff(_) => ApartFailureStep(s, step);
    case ReadClock(_) => ApartFailureStep(s, step);
    case StoreAttempt(_) => ApartFailureStep(s, step);
    case ClearBackoff(_) => ApartSuccessStep(s, step);
    case ClearAttempt(_) => ApartSuccessStep(s, step);
    case _ => ApartQuietStep(s, step);
  }

  lemma {:induction false} ApartRunKeeps(s: State, steps: seq<Step>)
    requires ApartInv(s) && IsRun(s, steps) && IsApartRun(s, steps)
    ensures ApartInv(End(s, steps))
    decreases |steps|
  {
    if |steps| > 0 {
      ApartStep(s, steps[0]);
      ApartRunKeeps(Apply(s, steps[0]), steps[1..]);
    }
  }

  /** If no success note overlaps a failure note, the atomics agree whenever no note is
      under way, however many callers fail or succeed at once. */
  lemma ApartNotesAgree(s0: State, steps: seq<Step>)
    requires Init(s0) && IsRun(s0, steps) && IsApartRun(s0, steps)
    requires forall c :: c in End(s0, steps).callers ==>
               !Failing(End(s0, steps).callers[c]) && !End(s0, steps).callers[c].Cleared?
    ensures Agree(End(s0, steps))
  {
    assert Ladder(0) == 0;
    ApartRunKeeps(s0, steps);
  }

  // ----- both disagreements happen

  lemma RunCons(s: State, step: Step, steps: seq<Step>)
    requires Enabled(s, step) && IsRun(Apply(s, step), steps)
    ensures IsRun(s, [step] + steps) && End(s, [step] + steps) == End(Apply(s, step), steps)
  {
    assert ([step] + steps)[1..] == steps;
  }

  lemma {:induction false} RunConcat(s: State, a: seq<Step>, b: seq<Step>)
    requires IsRun(s, a) && IsRun(End(s, a), b)
    ensures IsRun(s, a + b) && End(s, a + b) == End(End(s, a), b)
    decreases |a|
  {
    if |a| == 0 {
      assert a + b == b;
    } else {
      RunConcat(Apply(s, a[0]), a[1..], b);
      RunCons(s, a[0], a[1..] + b);
      assert [a[0]] + (a[1..] + b) == a + b;
    }
  }

  lemma ThreeSteps(s: State, a: Step, b: Step, c: Step)
    requires Enabled(s, a) && Enabled(Apply(s, a), b) && Enabled(Apply(Apply(s, a), b), c)
    ensures IsRun(s, [a] + [b, c])
    ensures End(s, [a] + [b, c]) == Apply(Apply(Apply(s, a), b), c)
  {
    var s2 := Apply(Apply(s, a), b);
    RunCons(s2, c, []);
    RunCons(Apply(s, a), b, [c]);
    RunCons(s, a, [b, c]);
  }

  /** A caller that loads the first value of the next attempt gets through at once. */
  lemma GetsThrough(s: State, c: nat) returns (steps: seq<Step>)
    requires PcOf(s, c).Away? && |s.attempts| > 0 && s.attempts[0] == 0
    ensures IsRun(s, steps)
    ensures End(s, steps) == Goto(s, c, Building).(begun := s.begun + [(s.now, 0)])
  {
    ThreeSteps(s, Connect(c), ReadNow(c), LoadAttempt(c, 0));
    steps := [Connect(c)] + [ReadNow(c), LoadAttempt(c, 0)];
    var s3 := End(s, steps);
    assert PcOf(s3, c) == Compared(s.now, 0) && s3.attempts == s.attempts;
    RunCons(s3, Begin(c), []);
    RunConcat(s, steps, [Begin(c)]);
    assert Apply(s3, Begin(c)).callers == s.callers[c := Building];
    steps := steps + [Begin(c)];
  }

  lemma BothBuilding(s0: State) returns (steps: seq<Step>)
    requires Init(s0)
    ensures IsRun(s0, steps)
    ensures End(s0, steps) == s0.(callers := map[1 := Building, 2 := Building], begun := [(s0.now, 0), (s0.now, 0)])
  {
    var a := GetsThrough(s0, 1);
    var b := GetsThrough(End(s0, a), 2);
    RunConcat(s0, a, b);
    steps := a + b;
  }

  /** A success that lands between a failure's two stores leaves no backoff recorded but a
      next attempt in the future. */
  lemma AttemptOutlivesBackoff(s0: State) returns (steps: seq<Step>)
    requires Init(s0) && s0.now < U64_MAX - INITIAL
    ensures IsRun(s0, steps)
    ensures End(s0, steps).backoffs == [0, INITIAL, 0]
    ensures End(s0, steps).attempts == [0, 0, s0.now + INITIAL]
  {
    var before := BothBuilding(s0);
    var s := End(s0, before);
    ThreeSteps(s, LoadBackoff(1, 0), StoreBackoff(1), ClearBackoff(2));
    var first := [LoadBackoff(1, 0)] + [StoreBackoff(1), ClearBackoff(2)];
    var mid := End(s, first);
    assert mid.callers[1] == Stored(INITIAL) && mid.callers[2] == Cleared;
    ThreeSteps(mid, ClearAttempt(2), ReadClock(1), StoreAttempt(1));
    var second := [ClearAttempt(2)] + [ReadClock(1), StoreAttempt(1)];
    RunConcat(s, first, second);
    RunConcat(s0, before, first + second);
    steps := before + (first + second);
  }

  /** And the other way round: a failure that lands between a success's two stores leaves
      a backoff recorded that the next connect does not wait for. */
  lemma BackoffOutlivesAttempt(s0: State) returns (steps: seq<Step>)
    requires Init(s0) && s0.now < U64_MAX - INITIAL
    ensures IsRun(s0, steps)
    ensures End(s0, steps).backoffs == [0, 0, INITIAL]
    ensures End(s0, steps).attempts == [0, s0.now + INITIAL, 0]
  {
    var before := BothBuilding(s0);
    var s := End(s0, before);
    ThreeSteps(s, ClearBackoff(2), LoadBackoff(1, 0), StoreBackoff(1));
    var first := [ClearBackoff(2)] + [LoadBackoff(1, 0), StoreBackoff(1)];
    var mid := End(s, first);
    assert mid.callers[1] == Stored(INITIAL) && mid.callers[2] == Cleared;
    ThreeSteps(mid, ReadClock(1), StoreAttempt(1), ClearAttempt(2));
    var second := [ReadClock(1)] + [StoreAttempt(1), ClearAttempt(2)];
    RunConcat(s, first, second);
    RunConcat(s0, before, first + second);
    steps := before + (first + second);
  }

  // ----- one caller

  ghost function LadderSum(n: nat): nat {
    if n == 0 then 0 else LadderSum(n - 1) + Ladder(n)
  }

  /** The first attempt's start plus the rungs of the first k failures. */
  ghost function Earliest(start: nat, k: nat): nat {
    Min(start + LadderSum(k), U64_MAX)
  }

  lemma PaceStep(start: nat, k: nat, began: nat, ended: nat)
    requires ended >= began >= Earliest(start, k)
    ensures SaturatingAdd(ended, Ladder(k + 1)) >= Earliest(start, k + 1)
  {
  }

  /** The end of the window a waiting caller loads after its first k sleeps. */
  ghost function WindowAt(window: nat, moves: seq<nat>, k: nat): nat {
    if k == 0 || |moves| == 0 then window else moves[Min(k, |moves|) - 1]
  }

  /** The time it loads it at: the end of the window it slept for, and what that took longer. */
  ghost function WakeAt(start: nat, window: nat, late: nat -> nat, moves: seq<nat>, k: nat): nat {
    if k == 0 then start else WindowAt(window, moves, k - 1) + late(k - 1)
  }

  /** After its first k sleeps the caller finds the window not over. */
  ghost predicate SleepsOn(start: nat, window: nat, late: nat -> nat, moves: seq<nat>, k: nat) {
    WakeAt(start, window, late, moves, k) < WindowAt(window, moves, k)
  }

  lemma WakesLater(start: nat, window: nat, late: nat -> nat, moves: seq<nat>, k: nat)
    ensures WakeAt(start, window, late, moves, k + 1) == WindowAt(window, moves, k) + late(k)
    ensures WindowAt(window, moves, k + 1) == if k < |moves| then moves[k] else WindowAt(window, moves, k)
  {
  }

  class ImapConnectionManager {
    var backoffMs: nat
    var nextAttemptMs: nat

    constructor ()
      ensures backoffMs == 0 && nextAttemptMs == 0
    {
      backoffMs, nextAttemptMs := 0, 0;
    }

    method NoteConnectionFailure(now: nat)
      modifies this
      ensures backoffMs == NextBackoff(old(backoffMs))
      ensures backoffMs == if old(backoffMs) == 0 then 30_000 else Min(old(backoffMs) * 2, 600_000)
      ensures nextAttemptMs == Min(now + backoffMs, 0xFFFF_FFFF_FFFF_FFFF)
    {
      var current := backoffMs;
      var next := if current == 0 then INITIAL else Min(current * 2, MAXIMUM);
      backoffMs := next;
      nextAttemptMs := SaturatingAdd(now, next);
    }

    method NoteConnectionSuccess()
      modifies this
      ensures backoffMs == 0 && nextAttemptMs == 0
    {
      backoffMs := 0;
      nextAttemptMs := 0;
    }

    /** Sleep until the window has elapsed. A sleep lasts `late(i)` longer than asked, and
        while the caller sleeps for the i-th time others move the window to `moves[i]`; the
        wait ends at the first wake-up that finds the window over. */
    method WaitForBackoff(start: nat, late: nat -> nat, moves: seq<nat>) returns (now: nat, sleeps: nat)
      modifies this`nextAttemptMs
      ensures nextAttemptMs == WindowAt(old(nextAttemptMs), moves, sleeps)
      ensures now == WakeAt(start, old(nextAttemptMs), late, moves, sleeps)
      ensures now >= start && now >= nextAttemptMs
      ensures forall k :: 0 <= k < sleeps ==> SleepsOn(start, old(nextAttemptMs), late, moves, k)
    {
      ghost var window := nextAttemptMs;
      now, sleeps := start, 0;
      while now < nextAttemptMs
        invariant now >= start && sleeps <= |moves| + 1
        invariant sleeps == |moves| + 1 ==> now >= nextAttemptMs
        invariant nextAttemptMs == WindowAt(window, moves, sleeps)
        invariant now == WakeAt(start, window, late, moves, sleeps)
        invariant forall k :: 0 <= k < sleeps ==> SleepsOn(start, window, late, moves, k)
        decreases |moves| + 1 - sleeps
      {
        assert SleepsOn(start, window, late, moves, sleeps);
        WakesLater(start, window, late, moves, sleeps);
        now := now + (nextAttemptMs - now) + late(sleeps);
        if sleeps < |moves| {
          nextAttemptMs := moves[sleeps];
        }
        sleeps := sleeps + 1;
      }
    }

    /** One connect: wait, try for `effort` ms, note the outcome. */
    method Connect(start: nat, late: nat -> nat, effort: nat, ok: bool) returns (began: nat, ended: nat)
      modifies this
      ensures began >= start && began >= old(nextAttemptMs) && ended == began + effort
      ensures ok ==> backoffMs == 0 && nextAttemptMs == 0
      ensures !ok ==> backoffMs == NextBackoff(old(backoffMs)) && nextAttemptMs == SaturatingAdd(ended, backoffMs)
    {
      var sleeps;
      began, sleeps := WaitForBackoff(start, late, []);
      ended := began + effort;
      if ok {
        NoteConnectionSuccess();
      } else {
        NoteConnectionFailure(ended);
      }
    }

    /** A connector that keeps failing is paced: after n failures the backoff is the n-th
        rung, and attempt k + 1 begins no earlier than the first plus the rungs of the k
        failures before it. */
    method FailingConnects(n: nat, start: nat, late: nat -> nat, effort: nat -> nat) returns (begins: seq<nat>)
      requires backoffMs == 0 && nextAttemptMs == 0
      modifies this
      ensures |begins| == n && backoffMs == Ladder(n)
      ensures forall k :: 0 <= k < n ==> begins[k] >= Earliest(start, k)
    {
      begins := [];
      var now := start;
      while |begins| < n
        invariant |begins| <= n && backoffMs == Ladder(|begins|)
        invariant now >= start
        invariant |begins| > 0 ==> nextAttemptMs >= Earliest(start, |begins|)
        invariant forall k :: 0 <= k < |begins| ==> begins[k] >= Earliest(start, k)
      {
        LadderStep(|begins|);
        var began, ended := Connect(now, late, effort(|begins|), false);
        PaceStep(start, |begins|, began, ended);
        begins := begins + [began];
        now := ended;
      }
    }
  }
}
