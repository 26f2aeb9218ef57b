/**
 The cleanup that several failing tasks share. Control tasks, callers of stop and the cleanup itself
 interleave at their awaits; one event wakes everybody who waits for a task to end or to join the
 cleanup.
 */
module FailureCleanup {

  /**
   `Control` and `Maintenance` are commands that register as such, `Scheduler` is the DAG task. A
   `Caller` is any other command or the lifecycle's own stop, a `Reader` answers a read.
   */
  datatype Task = Control | Maintenance | Scheduler | Caller(id: nat) | Reader(id: nat) | Cleanup

  /** A place in the fixed order in which control tasks are cancelled. */
  type Slot = i: nat | i < 3 witness 0

  function Target(at: nat): Task {
    if at == 0 then Control else if at == 1 then Maintenance else Scheduler
  }

  /** How far the helper task that waits for the event is: created, registered, or finished. */
  datatype Sleep = Arming | Asleep | Woken

  /**
   What a task awaits. `Working` is its own code, `Cancelling` waits for one control task to end or
   to join, `Joined` awaits the cleanup, `Finalizing` awaits the ends of all control tasks.
   */
  datatype Phase =
    | Working
    | Cancelling(at: Slot, sleep: Sleep)
    | Joined(finalize: bool)
    | Finalizing
    | Done

  datatype Scope = Scope(
    phases: map<Task, Phase>, waiters: set<Task>, eventSet: bool, cancelled: set<Task>)

  predicate CleanupDone(s: Scope) {
    Cleanup in s.phases && s.phases[Cleanup].Done?
  }

  predicate CleanupActive(s: Scope) {
    Cleanup in s.phases && !s.phases[Cleanup].Done?
  }

  predicate Ended(s: Scope, t: Task) {
    t !in s.phases || s.phases[t].Done?
  }

  /** The condition that a wait for `t` is for. */
  predicate Satisfied(s: Scope, t: Task) {
    Ended(s, t) || t in s.waiters
  }

  function Roused(p: Phase): Phase {
    if p.Cancelling? && p.sleep.Asleep? then p.(sleep := Woken) else p
  }

  /** Setting the event wakes every registered waiter. */
  function EventSet(s: Scope): Scope {
    s.(eventSet := true, phases := map t | t in s.phases :: Roused(s.phases[t]))
  }

  function At(s: Scope, t: Task, p: Phase): Scope {
    s.(phases := s.phases[t := p])
  }

  function Join(s: Scope, t: Task, finalize: bool): Scope {
    At(EventSet(s.(waiters := s.waiters + {t})), t, Joined(finalize))
  }

  /** A cancellation request ends a wait for a control task; the other awaits outlast it. */
  function Cancel(s: Scope, t: Task): Scope
    requires t in s.phases
  {
    if t in s.cancelled then s
    else
      var asked := s.(cancelled := s.cancelled + {t});
      if s.phases[t].Cancelling? then At(asked, t, Working) else asked
  }

  function Armed(s: Scope, t: Task, at: Slot): Scope {
    At(s.(eventSet := false), t, Cancelling(at, Arming))
  }

  function AfterScan(s: Scope, t: Task): Scope {
    if t == Cleanup then At(s, t, Working)
    else if CleanupActive(s) then Join(s, t, true)
    else At(s, t, Finalizing)
  }

  /** Where a cancelling task gets to before it has to wait again. */
  function Scan(s: Scope, t: Task, i: nat): Scope
    requires i <= 3
    decreases 3 - i
  {
    if i == 3 || (CleanupActive(s) && t != Cleanup) then AfterScan(s, t)
    else
      var u := Target(i);
      if u == t || Satisfied(s, u) || (u == Scheduler && CleanupDone(s)) then Scan(s, t, i + 1)
      else Armed(Cancel(s, u), t, i)
  }

  datatype Step =
    | Call(task: Task)
    | Interrupt(task: Task)
    | Start(task: Task)
    | Fail(task: Task)
    | Finish(task: Task)
    | Arm(task: Task)
    | Resume(task: Task)
    | Release(task: Task)
    | Finalized(task: Task)

  predicate FinalizersEnded(s: Scope, t: Task) {
    forall i :: 0 <= i < 3 && Target(i) != t ==> Ended(s, Target(i))
  }

  /** Nobody is cancelling control tasks, or will drain them. */
  predicate NobodyStops(s: Scope) {
    forall x :: x in s.phases ==> !Stops(s, x)
  }

  /** `t` is stopping the others, or will when it leaves the cleanup. */
  predicate Stops(s: Scope, t: Task) {
    t in s.phases
    && (s.phases[t].Cancelling? || s.phases[t].Finalizing? || (s.phases[t].Joined? && s.phases[t].finalize))
  }

  /** Work that the controller starts and may cancel: commands and reads. */
  predicate IsCalled(t: Task) {
    t != Scheduler && t != Cleanup
  }

  /**
   A control command is refused while work is being stopped. A read never stops anything. A cancelled
   task unwinds: it may fail or finish, but it does not start another stop.
   */
  predicate Possible(s: Scope, step: Step) {
    match step
    case Call(t) =>
      t !in s.phases && IsCalled(t) && (t.Control? || t.Maintenance? ==> NobodyStops(s) && !CleanupActive(s))
    case Interrupt(t) => t in s.phases && IsCalled(t) && !s.phases[t].Done?
    case Start(t) => t in s.phases && s.phases[t].Working? && t !in s.cancelled && !t.Reader?
    case Fail(t) => t in s.phases && s.phases[t].Working? && t != Cleanup
    case Finish(t) => t in s.phases && s.phases[t].Working?
    case Arm(t) => t in s.phases && s.phases[t].Cancelling? && s.phases[t].sleep.Arming?
    case Resume(t) => t in s.phases && s.phases[t].Cancelling? && s.phases[t].sleep.Woken?
    case Release(t) => t in s.phases && s.phases[t].Joined? && CleanupDone(s)
    case Finalized(t) => t in s.phases && s.phases[t].Finalizing? && FinalizersEnded(s, t)
  }

  /** The end of `t` wakes those who wait for it, with or without the event. */
  function RousedBy(p: Phase, t: Task): Phase {
    if p.Cancelling? && Target(p.at) == t then p.(sleep := Woken) else p
  }

  function Finished(s: Scope, t: Task): Scope {
    At(s.(phases := map x | x in s.phases :: RousedBy(s.phases[x], t)), t, Done)
  }

  /** Without a cleanup the failing task creates it; one that is already done is joined and left at once. */
  function Failing(s: Scope, t: Task): Scope {
    if CleanupDone(s) then EventSet(s)
    else Join(if Cleanup in s.phases then s else At(s, Cleanup, Working), t, false)
  }

  function Next(s: Scope, step: Step): Scope
    requires Possible(s, step)
  {
    match step
    case Call(t) => At(s, t, Working)
    case Interrupt(t) => Cancel(s, t)
    case Start(t) => Scan(s, t, 0)
    case Fail(t) => Failing(s, t)
    case Finish(t) => Finished(s, t)
    case Arm(t) => At(s, t, s.phases[t].(sleep := if s.eventSet then Woken else Asleep))
    case Resume(t) =>
      var i := s.phases[t].at;
      if Satisfied(s, Target(i)) then Scan(At(s, t, Working), t, i + 1) else Armed(s, t, i)
    case Release(t) =>
      At(EventSet(s.(waiters := s.waiters - {t})), t,
         if s.phases[t].finalize && t !in s.cancelled then Finalizing else Working)
    case Finalized(t) => At(s, t, Working)
  }

  // ----- what every interleaving keeps

  predicate Waits(s: Scope, t: Task) {
    t in s.phases && s.phases[t].Cancelling?
  }

  /** The wait of `t` was decided by an event that it can no longer see. */
  predicate WakeupLost(s: Scope, t: Task) {
    && Waits(s, t) && Satisfied(s, Target(s.phases[t].at))
    && (s.phases[t].sleep.Asleep? || (s.phases[t].sleep.Arming? && !s.eventSet))
  }

  /**
   Whoever waits has asked its target to end, has not been asked itself, and is through with the
   control tasks before its target.
   */
  predicate WaitSound(s: Scope, t: Task, at: Slot, sleep: Sleep) {
    && Target(at) != t && Target(at) in s.phases && Target(at) in s.cancelled && t !in s.cancelled
    && (!sleep.Woken? ==> !Ended(s, Target(at)))
    && (t == Cleanup ==> forall j :: 0 <= j < at ==> Satisfied(s, Target(j)))
    && (t != Cleanup && !CleanupDone(s) ==> forall j :: 0 <= j < at ==> Target(j) == t || Ended(s, Target(j)))
  }

  predicate TaskSound(s: Scope, t: Task)
    requires t in s.phases
  {
    && (t in s.waiters <==> s.phases[t].Joined?)
    && (s.phases[t].Joined? ==> t != Cleanup && Cleanup in s.phases)
    && (s.phases[t].Cancelling? ==> WaitSound(s, t, s.phases[t].at, s.phases[t].sleep))
    && (s.phases[t].Finalizing? ==> t != Cleanup && (CleanupDone(s) || FinalizersEnded(s, t)))
  }

  ghost predicate Sound(s: Scope) {
    && (forall t :: t in s.phases ==> TaskSound(s, t))
    && s.waiters <= s.phases.Keys && s.cancelled <= s.phases.Keys && Cleanup !in s.cancelled
    && !WakeupLost(s, Cleanup)
  }

  lemma EventSetKeeps(s: Scope)
    requires forall t :: t in s.phases ==> TaskSound(s, t)
    requires s.waiters <= s.phases.Keys && s.cancelled <= s.phases.Keys && Cleanup !in s.cancelled
    ensures Sound(EventSet(s))
  {
    var r := EventSet(s);
    forall t | t in r.phases ensures TaskSound(r, t) {
      assert TaskSound(s, t);
    }
  }

  lemma JoinKeeps(s: Scope, t: Task, finalize: bool)
    requires Sound(s) && t in s.phases && t != Cleanup && CleanupActive(s)
    requires s.phases[t].Working?
    ensures Sound(Join(s, t, finalize))
  {
    var r := Join(s, t, finalize);
    forall x | x in r.phases ensures TaskSound(r, x) {
      assert TaskSound(s, x);
    }
  }

  /** Entering a wait: the event is cleared only while no one else who matters needs it. */
  lemma ArmedKeeps(s: Scope, t: Task, at: Slot)
    requires Sound(s) && t in s.phases && Target(at) != t && !Satisfied(s, Target(at))
    requires if s.phases[t].Cancelling? then s.phases[t].at == at && s.phases[t].sleep.Woken?
             else s.phases[t].Working? && t !in s.cancelled && Target(at) in s.cancelled
    requires t == Cleanup ==> forall j :: 0 <= j < at ==> Satisfied(s, Target(j))
    requires t != Cleanup && !CleanupDone(s) ==> forall j :: 0 <= j < at ==> Target(j) == t || Ended(s, Target(j))
    ensures Sound(Armed(s, t, at))
  {
    var r := Armed(s, t, at);
    assert TaskSound(s, t);
    forall x | x in r.phases ensures TaskSound(r, x) {
      assert TaskSound(s, x);
    }
    ClearKeepsCleanup(s, t, at);
  }

  /** Clearing the event never takes the wake-up of the cleanup: its target is still unsatisfied too. */
  lemma ClearKeepsCleanup(s: Scope, t: Task, at: Slot)
    requires Sound(s) && t in s.phases && Target(at) != t && !Satisfied(s, Target(at))
    requires (s.phases[t].Working? || s.phases[t].Cancelling?) && t !in s.cancelled
    requires t != Cleanup && !CleanupDone(s) ==> forall j :: 0 <= j < at ==> Target(j) == t || Ended(s, Target(j))
    ensures !WakeupLost(Armed(s, t, at), Cleanup)
  {
    if t != Cleanup && Waits(s, Cleanup) {
      assert TaskSound(s, Cleanup);
    }
  }

  lemma CancelKeeps(s: Scope, u: Task)
    requires Sound(s) && u in s.phases && u != Cleanup
    ensures Sound(Cancel(s, u))
  {
    var r := Cancel(s, u);
    forall x | x in r.phases ensures TaskSound(r, x) {
      assert TaskSound(s, x);
    }
  }

  lemma AfterScanKeeps(s: Scope, t: Task)
    requires Sound(s) && t in s.phases && t !in s.cancelled && s.phases[t].Working?
    requires CleanupActive(s) || CleanupDone(s) || FinalizersEnded(s, t)
    ensures Sound(AfterScan(s, t))
  {
    if t != Cleanup && CleanupActive(s) {
      JoinKeeps(s, t, true);
    } else {
      var r := AfterScan(s, t);
      forall x | x in r.phases ensures TaskSound(r, x) {
        assert TaskSound(s, x);
      }
    }
  }

  /** The scan stops at a task that goes on: it is asked to end and waited for. */
  lemma StopKeeps(s: Scope, t: Task, i: Slot)
    requires Sound(s) && t in s.phases && t !in s.cancelled && s.phases[t].Working?
    requires Target(i) != t && !Satisfied(s, Target(i))
    requires t == Cleanup ==> forall j :: 0 <= j < i ==> Satisfied(s, Target(j))
    requires t != Cleanup && !CleanupDone(s) ==> forall j :: 0 <= j < i ==> Target(j) == t || Ended(s, Target(j))
    ensures Sound(Armed(Cancel(s, Target(i)), t, i))
  {
    CancelKeeps(s, Target(i));
    ArmedKeeps(Cancel(s, Target(i)), t, i);
  }

  lemma {:induction false} ScanKeeps(s: Scope, t: Task, i: nat)
    requires i <= 3 && Sound(s) && t in s.phases && t !in s.cancelled
    requires s.phases[t].Working?
    requires t == Cleanup ==> forall j :: 0 <= j < i ==> Satisfied(s, Target(j))
    requires t != Cleanup && Cleanup !in s.phases ==>
               forall j :: 0 <= j < i ==> Target(j) == t || Ended(s, Target(j))
    ensures Sound(Scan(s, t, i))
    decreases 3 - i
  {
    if i == 3 || (CleanupActive(s) && t != Cleanup) {
      AfterScanKeeps(s, t);
    } else {
      var u := Target(i);
      if u == t || Satisfied(s, u) || (u == Scheduler && CleanupDone(s)) {
        if u in s.phases && u in s.waiters {
          assert TaskSound(s, u);
        }
        ScanKeeps(s, t, i + 1);
      } else {
        StopKeeps(s, t, i);
      }
    }
  }

  lemma ResumeKeeps(s: Scope, t: Task)
    requires Sound(s) && Possible(s, Resume(t))
    ensures Sound(Next(s, Resume(t)))
  {
    assert TaskSound(s, t);
    var i: nat := s.phases[t].at;
    if Satisfied(s, Target(i)) {
      var r := At(s, t, Working);
      forall x | x in r.phases ensures TaskSound(r, x) {
        assert TaskSound(s, x);
      }
      ScanKeeps(r, t, i + 1);
    } else {
      ArmedKeeps(s, t, i);
    }
  }

  lemma FailKeeps(s: Scope, t: Task)
    requires Sound(s) && Possible(s, Fail(t))
    ensures Sound(Next(s, Fail(t)))
  {
    if CleanupDone(s) {
      EventSetKeeps(s);
    } else if Cleanup in s.phases {
      JoinKeeps(s, t, false);
    } else {
      var r := At(s, Cleanup, Working);
      forall x | x in r.phases ensures TaskSound(r, x) {
        if x != Cleanup { assert TaskSound(s, x); }
      }
      JoinKeeps(r, t, false);
    }
  }

  lemma FinishKeeps(s: Scope, t: Task)
    requires Sound(s) && Possible(s, Finish(t))
    ensures Sound(Next(s, Finish(t)))
  {
    var r := Finished(s, t);
    forall x | x in r.phases ensures TaskSound(r, x) {
      assert TaskSound(s, x);
    }
  }

  lemma ReleaseKeeps(s: Scope, t: Task)
    requires Sound(s) && Possible(s, Release(t))
    ensures Sound(Next(s, Release(t)))
  {
    var r := Next(s, Release(t));
    forall x | x in r.phases ensures TaskSound(r, x) {
      assert TaskSound(s, x);
    }
  }

  lemma StepKeepsSound(s: Scope, step: Step)
    requires Sound(s) && Possible(s, step)
    ensures Sound(Next(s, step))
  {
    if step.Start? {
      ScanKeeps(s, step.task, 0);
    } else if step.Resume? {
      ResumeKeeps(s, step.task);
    } else if step.Fail? {
      FailKeeps(s, step.task);
    } else if step.Finish? {
      FinishKeeps(s, step.task);
    } else if step.Release? {
      ReleaseKeeps(s, step.task);
    } else if step.Interrupt? {
      CancelKeeps(s, step.task);
    } else {
      var r := Next(s, step);
      forall x | x in r.phases ensures TaskSound(r, x) {
        if x in s.phases { assert TaskSound(s, x); }
      }
    }
  }

  // ----- whole interleavings

  ghost predicate Plays(s: Scope, steps: seq<Step>)
    decreases |steps|
  {
    steps == [] || (Possible(s, steps[0]) && Plays(Next(s, steps[0]), steps[1..]))
  }

  ghost function Outcome(s: Scope, steps: seq<Step>): Scope
    requires Plays(s, steps)
    decreases |steps|
  {
    if steps == [] then s else Outcome(Next(s, steps[0]), steps[1..])
  }

  /** The control tasks at work when nothing has failed yet. */
  function Beginning(present: set<Task>): Scope {
    Scope(map t | t in present && t in {Control, Maintenance, Scheduler} :: Working, {}, false, {})
  }

  lemma {:induction false} RunKeepsSound(s: Scope, steps: seq<Step>)
    requires Sound(s) && Plays(s, steps)
    ensures Sound(Outcome(s, steps))
    decreases |steps|
  {
    if steps != [] {
      StepKeepsSound(s, steps[0]);
      RunKeepsSound(Next(s, steps[0]), steps[1..]);
    }
  }

  /** A task that does not have to wait for any other. */
  predicate Runnable(s: Scope, t: Task)
    requires t in s.phases
  {
    match s.phases[t]
    case Working => true
    case Cancelling(_, sleep) => !sleep.Asleep?
    case Joined(_) => CleanupDone(s)
    case Finalizing => FinalizersEnded(s, t)
    case Done => false
  }

  /** `t` sleeps until `u` ends or joins the cleanup. */
  predicate AsleepFor(s: Scope, t: Task, u: Task) {
    Waits(s, t) && s.phases[t].sleep.Asleep? && u == Target(s.phases[t].at) && u in s.phases
  }

  /**
   In no interleaving is the cleanup blocked on a task that is blocked, on the cleanup or on
   anything else: it can run, or whoever it is asleep for can.
   */
  lemma CleanupNeverWaitsForItself(present: set<Task>, steps: seq<Step>)
    requires Plays(Beginning(present), steps)
    requires CleanupActive(Outcome(Beginning(present), steps))
    ensures
      var s := Outcome(Beginning(present), steps);
      && !WakeupLost(s, Cleanup)
      && (Runnable(s, Cleanup)
          || exists u :: AsleepFor(s, Cleanup, u) && Runnable(s, u) && u !in s.waiters)
  {
    RunKeepsSound(Beginning(present), steps);
    var s := Outcome(Beginning(present), steps);
    assert TaskSound(s, Cleanup);
    if !Runnable(s, Cleanup) {
      var u := Target(s.phases[Cleanup].at);
      assert TaskSound(s, u);
      assert AsleepFor(s, Cleanup, u) && Runnable(s, u);
    }
  }

  /**
   While the cleanup is active every other wait ends at a task that can run: a sleeper's target can
   run or has joined, and whoever has joined waits for the cleanup alone.
   */
  lemma EveryWaitLeadsToARunnableTask(present: set<Task>, steps: seq<Step>, t: Task)
    requires Plays(Beginning(present), steps)
    requires CleanupActive(Outcome(Beginning(present), steps))
    requires t in Outcome(Beginning(present), steps).phases
    ensures
      var s := Outcome(Beginning(present), steps);
      || s.phases[t].Done? || Runnable(s, t) || t in s.waiters
      || exists u :: AsleepFor(s, t, u) && u != t && (Runnable(s, u) || u in s.waiters)
  {
    RunKeepsSound(Beginning(present), steps);
    var s := Outcome(Beginning(present), steps);
    assert TaskSound(s, t);
    if Waits(s, t) && !Runnable(s, t) {
      var u := Target(s.phases[t].at);
      assert TaskSound(s, u);
      assert AsleepFor(s, t, u);
    }
  }

  /** Once the cleanup is through with cancelling, every control task has ended or joined it. */
  lemma CleanupSettlesControlTasks(s: Scope, step: Step)
    requires Sound(s) && Possible(s, step) && (step == Start(Cleanup) || step == Resume(Cleanup))
    requires !Waits(Next(s, step), Cleanup)
    ensures forall i :: 0 <= i < 3 ==> Satisfied(Next(s, step), Target(i))
  {
    assert TaskSound(s, Cleanup);
    if step.Start? {
      ScanSettles(s, 0);
    } else {
      ScanSettles(At(s, Cleanup, Working), s.phases[Cleanup].at + 1);
    }
  }

  lemma {:induction false} ScanSettles(s: Scope, i: nat)
    requires i <= 3 && CleanupActive(s) && s.phases[Cleanup].Working?
    requires forall j :: 0 <= j < i ==> Satisfied(s, Target(j))
    ensures Waits(Scan(s, Cleanup, i), Cleanup)
         || forall j :: 0 <= j < 3 ==> Satisfied(Scan(s, Cleanup, i), Target(j))
    decreases 3 - i
  {
    if i < 3 && Satisfied(s, Target(i)) {
      ScanSettles(s, i + 1);
    }
  }

  function Creations(s: Scope, steps: seq<Step>): nat
    requires Plays(s, steps)
    decreases |steps|
  {
    if steps == [] then 0
    else
      var after := Next(s, steps[0]);
      (if Cleanup !in s.phases && Cleanup in after.phases then 1 else 0) + Creations(after, steps[1..])
  }

  /** However many tasks fail, the cleanup is started once. */
  lemma {:induction false} OneCleanup(s: Scope, steps: seq<Step>)
    requires Sound(s) && Plays(s, steps)
    ensures Creations(s, steps) <= (if Cleanup in s.phases then 0 else 1)
    decreases |steps|
  {
    if steps != [] {
      StepKeepsSound(s, steps[0]);
      PhasesGrow(s, steps[0]);
      OneCleanup(Next(s, steps[0]), steps[1..]);
    }
  }

  lemma PhasesGrow(s: Scope, step: Step)
    requires Sound(s) && Possible(s, step)
    ensures s.phases.Keys <= Next(s, step).phases.Keys
  {
    if step.Start? {
      ScanGrows(s, step.task, 0);
    } else if step.Resume? && Satisfied(s, Target(s.phases[step.task].at)) {
      ScanGrows(At(s, step.task, Working), step.task, s.phases[step.task].at + 1);
    }
  }

  lemma {:induction false} ScanGrows(s: Scope, t: Task, i: nat)
    requires i <= 3
    ensures s.phases.Keys <= Scan(s, t, i).phases.Keys
    decreases 3 - i
  {
    if i < 3 {
      ScanGrows(s, t, i + 1);
    }
  }

  // ----- which clear of the event loses a wake-up

  /** `t` is about to register for the event that its target has already set. */
  predicate Registering(s: Scope, t: Task) {
    Waits(s, t) && s.phases[t].sleep.Arming? && Target(s.phases[t].at) in s.waiters
  }

  /** The first place from `i` on at which `actor` has to wait, 3 when there is none. */
  function FirstOpen(s: Scope, actor: Task, i: nat): (k: nat)
    requires i <= 3
    ensures k <= 3 && (k < 3 ==> Target(k) != actor && !Satisfied(s, Target(k)))
    decreases 3 - i
  {
    if i == 3 then 3
    else if Target(i) == actor || Satisfied(s, Target(i)) || (Target(i) == Scheduler && CleanupDone(s))
    then FirstOpen(s, actor, i + 1)
    else i
  }

  /** The place at which a step clears the event, 3 when it does not. */
  function ClearsAt(s: Scope, step: Step): (k: nat)
    requires Possible(s, step)
    ensures k <= 3
  {
    if !step.Start? && !step.Resume? then 3
    else
      var joins := CleanupActive(s) && step.task != Cleanup;
      if step.Start? then if joins then 3 else FirstOpen(s, step.task, 0)
      else
        var at := s.phases[step.task].at;
        if !Satisfied(s, Target(at)) then at else if joins then 3 else FirstOpen(s, step.task, at + 1)
  }

  /** A step clears the event that `t`, whom it neither is nor cancels, has not registered for yet. */
  predicate ClearsBefore(s: Scope, step: Step, t: Task)
    requires Possible(s, step)
  {
    Registering(s, t) && ClearsAt(s, step) < 3 && step.task != t && Target(ClearsAt(s, step)) != t
  }

  /** A scan either ends or waits at the first open place. */
  lemma {:induction false} ScanOutcome(s: Scope, actor: Task, i: nat)
    requires i <= 3 && actor in s.phases && s.phases[actor].Working?
    ensures
      var k := if CleanupActive(s) && actor != Cleanup then 3 else FirstOpen(s, actor, i);
      Scan(s, actor, i) == if k == 3 then AfterScan(s, actor) else Armed(Cancel(s, Target(k)), actor, k)
    decreases 3 - i
  {
    if i < 3 {
      ScanOutcome(s, actor, i + 1);
    }
  }

  /** Waiting at an open place takes exactly the wake-ups that are set but not registered for. */
  lemma ArmedLoses(s: Scope, actor: Task, k: Slot, t: Task)
    requires Sound(s) && t in s.phases && !WakeupLost(s, t) && !Satisfied(s, Target(k))
    ensures
      var u := Target(k);
      WakeupLost(Armed(Cancel(s, u), actor, k), t) <==> Registering(s, t) && t != actor && t != u
  {
    assert TaskSound(s, t);
  }

  lemma QuietLoses(s: Scope, step: Step, t: Task)
    requires Sound(s) && Possible(s, step) && t in s.phases && !WakeupLost(s, t)
    requires !step.Start? && !step.Resume?
    ensures !WakeupLost(Next(s, step), t)
  {
    assert TaskSound(s, t);
    if step.Fail? {
      FailureLoses(s, step.task, t);
    } else if step.Release? {
      assert WakesEverybody(s, Next(s, step));
    }
  }

  /** The event is set, and whoever had registered has been woken. */
  predicate WakesEverybody(s: Scope, r: Scope) {
    r.eventSet && forall x :: x in r.phases && r.phases[x].Cancelling? ==> !r.phases[x].sleep.Asleep?
  }

  lemma FailureLoses(s: Scope, actor: Task, t: Task)
    requires Sound(s) && Possible(s, Fail(actor)) && t in s.phases && !WakeupLost(s, t)
    ensures !WakeupLost(Failing(s, actor), t)
  {
    assert WakesEverybody(s, Failing(s, actor));
  }

  lemma EndOfScanLoses(s: Scope, actor: Task, t: Task)
    requires actor in s.phases && s.phases[actor].Working? && !WakeupLost(s, t)
    ensures !WakeupLost(AfterScan(s, actor), t)
  {
  }

  lemma ScanLoses(s: Scope, actor: Task, i: nat, t: Task)
    requires i <= 3 && Sound(s) && actor in s.phases && s.phases[actor].Working?
    requires t in s.phases && !WakeupLost(s, t)
    ensures
      var k := if CleanupActive(s) && actor != Cleanup then 3 else FirstOpen(s, actor, i);
      WakeupLost(Scan(s, actor, i), t) <==> Registering(s, t) && k < 3 && t != actor && t != Target(k)
  {
    var k := if CleanupActive(s) && actor != Cleanup then 3 else FirstOpen(s, actor, i);
    ScanOutcome(s, actor, i);
    if k == 3 {
      EndOfScanLoses(s, actor, t);
    } else {
      ArmedLoses(s, actor, k, t);
    }
  }

  /** A resumed task that goes on scanning leaves everybody else as it was. */
  lemma ReadySound(s: Scope, actor: Task)
    requires Sound(s) && Possible(s, Resume(actor))
    ensures Sound(At(s, actor, Working))
  {
    var r := At(s, actor, Working);
    forall x | x in r.phases ensures TaskSound(r, x) {
      assert TaskSound(s, x);
    }
  }

  lemma {:induction false} SameOpen(s: Scope, actor: Task, i: nat)
    requires i <= 3 && actor in s.phases && !s.phases[actor].Done?
    ensures FirstOpen(At(s, actor, Working), actor, i) == FirstOpen(s, actor, i)
    decreases 3 - i
  {
    if i < 3 {
      SameOpen(s, actor, i + 1);
    }
  }

  lemma RescanLoses(s: Scope, actor: Task, t: Task)
    requires Sound(s) && Possible(s, Resume(actor)) && t in s.phases && !WakeupLost(s, t)
    requires Satisfied(s, Target(s.phases[actor].at))
    ensures WakeupLost(Next(s, Resume(actor)), t) <==> ClearsBefore(s, Resume(actor), t)
  {
    var i: nat := s.phases[actor].at + 1;
    ReadySound(s, actor);
    SameOpen(s, actor, i);
    ScanLoses(At(s, actor, Working), actor, i, t);
  }

  lemma RewaitLoses(s: Scope, actor: Task, t: Task)
    requires Sound(s) && Possible(s, Resume(actor)) && t in s.phases && !WakeupLost(s, t)
    requires !Satisfied(s, Target(s.phases[actor].at))
    ensures WakeupLost(Next(s, Resume(actor)), t) <==> ClearsBefore(s, Resume(actor), t)
  {
    assert TaskSound(s, actor);
    ArmedLoses(s, actor, s.phases[actor].at, t);
  }

  /**
   A wake-up is lost exactly when the step clears the event for a wait of its own before a task
   whose target has just joined the cleanup has registered for it.
   */
  lemma WhoseClearLosesAWakeup(s: Scope, step: Step, t: Task)
    requires Sound(s) && Possible(s, step) && t in s.phases && !WakeupLost(s, t)
    ensures WakeupLost(Next(s, step), t) <==> ClearsBefore(s, step, t)
  {
    if step.Start? {
      ScanLoses(s, step.task, 0, t);
    } else if step.Resume? {
      if Satisfied(s, Target(s.phases[step.task].at)) {
        RescanLoses(s, step.task, t);
      } else {
        RewaitLoses(s, step.task, t);
      }
    } else {
      QuietLoses(s, step, t);
    }
  }

  /**
   Nobody's wake-up can be lost before there is a cleanup; while it is active only by its own clear,
   and never its own. After it is done, a task that stops again may clear the event too.
   */
  lemma WhoCanClear(s: Scope, step: Step, t: Task)
    requires Sound(s) && Possible(s, step) && t in s.phases && !WakeupLost(s, t) && ClearsBefore(s, step, t)
    ensures Cleanup in s.phases && t != Cleanup
    ensures CleanupActive(s) ==> step.task == Cleanup
  {
    assert TaskSound(s, Target(s.phases[t].at));
    assert TaskSound(s, t) && TaskSound(s, step.task);
    if t == Cleanup {
      StepKeepsSound(s, step);
      WhoseClearLosesAWakeup(s, step, t);
    }
  }

  /** Once the cleanup is done, no stop asks the DAG task to end: it is drained as it is. */
  lemma DoneCleanupSparesScheduler(s: Scope, step: Step)
    requires Possible(s, step) && CleanupDone(s) && (step.Start? || step.Resume?) && Scheduler !in s.cancelled
    ensures Scheduler !in Next(s, step).cancelled
  {
    if step.Start? {
      ScanOutcome(s, step.task, 0);
    } else if Satisfied(s, Target(s.phases[step.task].at)) {
      ScanOutcome(At(s, step.task, Working), step.task, s.phases[step.task].at + 1);
    }
  }

  /** Before a cleanup, a stop that comes to drain has asked every other control task, and seen it end. */
  lemma DrainFindsOthersEnded(s: Scope, step: Step, i: Slot)
    requires Sound(s) && Possible(s, step) && Cleanup !in s.phases && step.task != Target(i)
    requires (step.Start? || step.Resume?) && step.task in Next(s, step).phases
    requires Next(s, step).phases[step.task].Finalizing?
    ensures Ended(s, Target(i))
  {
    StepKeepsSound(s, step);
    assert TaskSound(Next(s, step), step.task);
    if Alive(s, Target(i)) {
      if step.Start? {
        ScanBystander(s, step.task, 0, Target(i));
      } else if Satisfied(s, Target(s.phases[step.task].at)) {
        ScanBystander(At(s, step.task, Working), step.task, s.phases[step.task].at + 1, Target(i));
      }
    }
  }

  // ----- commands one at a time

  predicate IsCommand(t: Task) {
    t.Control? || t.Maintenance? || t.Caller?
  }

  predicate Alive(s: Scope, t: Task) {
    t in s.phases && !s.phases[t].Done?
  }

  /** At most one command is at work, and no read is stopping anything. */
  ghost predicate OneCommand(s: Scope) {
    && (forall t, u :: IsCommand(t) && IsCommand(u) && Alive(s, t) && Alive(s, u) ==> t == u)
    && (forall id :: !Waits(s, Reader(id)))
  }

  /** The controller takes up a command only when the one before it has ended. */
  ghost predicate Admits(s: Scope, step: Step) {
    step.Call? && IsCommand(step.task) ==> forall t :: IsCommand(t) ==> !Alive(s, t)
  }

  ghost predicate Serial(s: Scope, steps: seq<Step>)
    requires Plays(s, steps)
    decreases |steps|
  {
    steps == [] || (Admits(s, steps[0]) && Serial(Next(s, steps[0]), steps[1..]))
  }

  /** The phase a task can be in after a step of another one: woken, or taken out of its wait. */
  predicate Bystander(before: Phase, after: Phase) {
    after == before || (before.Cancelling? && (after.Cancelling? || after.Working?))
  }

  lemma ScanBystander(s: Scope, actor: Task, i: nat, x: Task)
    requires i <= 3 && actor in s.phases && s.phases[actor].Working? && x in s.phases && x != actor
    ensures x in Scan(s, actor, i).phases && Bystander(s.phases[x], Scan(s, actor, i).phases[x])
  {
    ScanOutcome(s, actor, i);
  }

  lemma BystanderAfter(s: Scope, step: Step, x: Task)
    requires Possible(s, step) && x in s.phases && (x != step.task || step.Interrupt?)
    ensures x in Next(s, step).phases && Bystander(s.phases[x], Next(s, step).phases[x])
  {
    if step.Start? {
      ScanBystander(s, step.task, 0, x);
    } else if step.Resume? && Satisfied(s, Target(s.phases[step.task].at)) {
      ScanBystander(At(s, step.task, Working), step.task, s.phases[step.task].at + 1, x);
    }
  }

  /** Only its own call brings a task in, the first failure apart. */
  lemma NewAfter(s: Scope, step: Step, x: Task)
    requires Possible(s, step) && x !in s.phases && x != Cleanup && step != Call(x)
    ensures x !in Next(s, step).phases
  {
    if step.Start? {
      ScanOutcome(s, step.task, 0);
    } else if step.Resume? && Satisfied(s, Target(s.phases[step.task].at)) {
      ScanOutcome(At(s, step.task, Working), step.task, s.phases[step.task].at + 1);
    }
  }

  /** With this step a task begins to drain the control tasks. */
  predicate BeginsToDrain(s: Scope, step: Step)
    requires Possible(s, step)
  {
    match step
    case Release(t) => s.phases[t].finalize && t !in s.cancelled
    case Start(t) => t != Cleanup && !CleanupActive(s) && ClearsAt(s, step) == 3
    case Resume(t) => t != Cleanup && !CleanupActive(s) && ClearsAt(s, step) == 3
    case _ => false
  }

  /** After a scan the task waits, has joined, drains, or is the cleanup and through. */
  lemma ScanActor(s: Scope, actor: Task, i: nat)
    requires i <= 3 && actor in s.phases && s.phases[actor].Working?
    ensures
      var joins := CleanupActive(s) && actor != Cleanup;
      && actor in Scan(s, actor, i).phases
      && Scan(s, actor, i).phases[actor]
         == if joins then Joined(true)
            else if FirstOpen(s, actor, i) < 3 then Cancelling(FirstOpen(s, actor, i), Arming)
            else if actor == Cleanup then Working else Finalizing
  {
    ScanOutcome(s, actor, i);
  }

  lemma ActorDrains(s: Scope, step: Step)
    requires Possible(s, step) && !step.Interrupt?
    ensures step.task in Next(s, step).phases
    ensures Next(s, step).phases[step.task].Finalizing? <==> BeginsToDrain(s, step)
    ensures Next(s, step).phases[step.task].Cancelling?
        ==> step.Start? || (step.task in s.phases && s.phases[step.task].Cancelling?)
    ensures Next(s, step).phases[step.task].Joined? && Next(s, step).phases[step.task].finalize
        ==> step.Start? || step.Resume?
  {
    if step.Start? {
      ScanActor(s, step.task, 0);
    } else if step.Resume? && Satisfied(s, Target(s.phases[step.task].at)) {
      SameOpen(s, step.task, s.phases[step.task].at + 1);
      ScanActor(At(s, step.task, Working), step.task, s.phases[step.task].at + 1);
    }
  }

  /** No step brings a task back to life, and only starting a stop makes a task wait. */
  lemma NobodyRevives(s: Scope, step: Step, x: Task)
    requires Possible(s, step) && x != Cleanup && step != Call(x)
    ensures Alive(Next(s, step), x) ==> Alive(s, x)
    ensures Waits(Next(s, step), x) ==> Waits(s, x) || step == Start(x)
  {
    if x !in s.phases {
      NewAfter(s, step, x);
    } else if x != step.task || step.Interrupt? {
      BystanderAfter(s, step, x);
    } else {
      ActorDrains(s, step);
    }
  }

  lemma OneCommandStays(s: Scope, step: Step)
    requires OneCommand(s) && Possible(s, step) && Admits(s, step)
    ensures OneCommand(Next(s, step))
  {
    var r := Next(s, step);
    forall t, u | IsCommand(t) && IsCommand(u) && Alive(r, t) && Alive(r, u) ensures t == u {
      if step != Call(t) { NobodyRevives(s, step, t); }
      if step != Call(u) { NobodyRevives(s, step, u); }
    }
    forall id ensures !Waits(r, Reader(id)) {
      if step != Call(Reader(id)) { NobodyRevives(s, step, Reader(id)); }
    }
  }

  /** With one command at a time nobody clears the event under a task that is still registering. */
  lemma SerialClears(s: Scope, step: Step, t: Task)
    requires Sound(s) && OneCommand(s) && Possible(s, step) && t in s.phases && !WakeupLost(s, t)
    ensures !ClearsBefore(s, step, t)
  {
    if ClearsBefore(s, step, t) {
      WhoCanClear(s, step, t);
      var u, v := Target(s.phases[t].at), Target(ClearsAt(s, step));
      assert TaskSound(s, t) && TaskSound(s, u) && TaskSound(s, step.task);
      assert Alive(s, t) && Alive(s, u) && Alive(s, step.task);
      OpenIsAlive(s, step);
    }
  }

  lemma OpenIsAlive(s: Scope, step: Step)
    requires Sound(s) && Possible(s, step) && ClearsAt(s, step) < 3
    ensures !Satisfied(s, Target(ClearsAt(s, step))) && Alive(s, Target(ClearsAt(s, step)))
  {
  }

  lemma WakeupsStay(s: Scope, step: Step, t: Task)
    requires Sound(s) && OneCommand(s) && Possible(s, step) && !WakeupLost(s, t)
    ensures !WakeupLost(Next(s, step), t)
  {
    if t in s.phases {
      SerialClears(s, step, t);
      WhoseClearLosesAWakeup(s, step, t);
    } else if t != Cleanup && step != Call(t) {
      NobodyRevives(s, step, t);
    } else if t == Cleanup {
      StepKeepsSound(s, step);
    }
  }

  lemma {:induction false} RunKeepsWakeups(s: Scope, steps: seq<Step>, t: Task)
    requires Sound(s) && OneCommand(s) && !WakeupLost(s, t) && Plays(s, steps) && Serial(s, steps)
    ensures !WakeupLost(Outcome(s, steps), t)
    decreases |steps|
  {
    if steps != [] {
      StepKeepsSound(s, steps[0]);
      OneCommandStays(s, steps[0]);
      WakeupsStay(s, steps[0], t);
      RunKeepsWakeups(Next(s, steps[0]), steps[1..], t);
    }
  }

  /** As commands are served one at a time, no interleaving ever loses a wake-up. */
  lemma NoWakeupIsLost(present: set<Task>, steps: seq<Step>, t: Task)
    requires !(Control in present && Maintenance in present)
    requires Plays(Beginning(present), steps) && Serial(Beginning(present), steps)
    ensures !WakeupLost(Outcome(Beginning(present), steps), t)
  {
    RunKeepsWakeups(Beginning(present), steps, t);
  }

  // ----- the drain

  predicate Draining(s: Scope, i: Slot) {
    Target(i) in s.phases && s.phases[Target(i)].Finalizing?
  }

  /** Two control tasks wait for each other's end. */
  ghost predicate TwoDraining(s: Scope) {
    exists i: Slot, j: Slot :: i != j && Draining(s, i) && Draining(s, j)
  }

  /** A control task begins to drain while another one does. */
  ghost predicate DrainsBeside(s: Scope, step: Step)
    requires Possible(s, step)
  {
    BeginsToDrain(s, step) && exists i: Slot, j: Slot :: i != j && step.task == Target(i) && Draining(s, j)
  }

  /** Nobody else starts or ends to drain with a step, and a task that drains can only get its turn. */
  lemma DrainingAfter(s: Scope, step: Step, i: Slot)
    requires Possible(s, step)
    ensures Draining(Next(s, step), i)
       <==> (Draining(s, i) && step != Finalized(Target(i))) || (BeginsToDrain(s, step) && step.task == Target(i))
  {
    if step.task == Target(i) && !step.Interrupt? {
      ActorDrains(s, step);
    } else if Target(i) !in s.phases {
      NewAfter(s, step, Target(i));
    } else {
      BystanderAfter(s, step, Target(i));
    }
  }

  /** Two tasks drain for each other from the step on with which the second one begins, and for good. */
  lemma TwoDrainingAfter(s: Scope, step: Step)
    requires Possible(s, step)
    ensures TwoDraining(Next(s, step)) <==> TwoDraining(s) || DrainsBeside(s, step)
  {
    if TwoDraining(s) {
      var i: Slot, j: Slot :| i != j && Draining(s, i) && Draining(s, j);
      BothDrain(s, step, i, j);
    } else if DrainsBeside(s, step) {
      var i: Slot, j: Slot :| i != j && step.task == Target(i) && Draining(s, j);
      DrainingAfter(s, step, i);
      DrainingAfter(s, step, j);
    } else if TwoDraining(Next(s, step)) {
      var i: Slot, j: Slot :| i != j && Draining(Next(s, step), i) && Draining(Next(s, step), j);
      DrainingAfter(s, step, i);
      DrainingAfter(s, step, j);
    }
  }

  lemma BothDrain(s: Scope, step: Step, i: Slot, j: Slot)
    requires Possible(s, step) && i != j && Draining(s, i) && Draining(s, j)
    ensures Draining(Next(s, step), i) && Draining(Next(s, step), j)
  {
    assert Target(i) != Target(j) && !Ended(s, Target(i)) && !Ended(s, Target(j));
    DrainingAfter(s, step, i);
    DrainingAfter(s, step, j);
  }

  ghost predicate EverDrainsBeside(s: Scope, steps: seq<Step>)
    requires Plays(s, steps)
    decreases |steps|
  {
    steps != [] && (DrainsBeside(s, steps[0]) || EverDrainsBeside(Next(s, steps[0]), steps[1..]))
  }

  /** Over a whole interleaving: the tasks are blocked for good exactly if a second one ever began to drain. */
  lemma {:induction false} BlockedIffDrainsBeside(s: Scope, steps: seq<Step>)
    requires Plays(s, steps)
    ensures TwoDraining(Outcome(s, steps)) <==> TwoDraining(s) || EverDrainsBeside(s, steps)
    decreases |steps|
  {
    if steps != [] {
      TwoDrainingAfter(s, steps[0]);
      BlockedIffDrainsBeside(Next(s, steps[0]), steps[1..]);
    }
  }

  predicate IsControl(t: Task) {
    t in {Control, Maintenance, Scheduler}
  }

  /** Of the control tasks only `x` stops the others. */
  ghost predicate OnlyStops(steps: seq<Step>, x: Task) {
    forall step :: step in steps && step.Start? && IsControl(step.task) ==> step.task == x
  }

  ghost predicate StopsAlone(s: Scope, x: Task) {
    forall t :: IsControl(t) && Stops(s, t) ==> t == x
  }

  /** Only a task that starts a stop comes to be stopping the others. */
  lemma StopsAfter(s: Scope, step: Step, t: Task)
    requires Possible(s, step) && t != Cleanup
    ensures Stops(Next(s, step), t) ==> Stops(s, t) || step == Start(t)
  {
    if step == Call(t) {
    } else if t !in s.phases {
      NewAfter(s, step, t);
    } else if t != step.task || step.Interrupt? {
      BystanderAfter(s, step, t);
    } else {
      ActorDrains(s, step);
    }
  }

  lemma StopsAloneStays(s: Scope, step: Step, x: Task)
    requires Possible(s, step) && StopsAlone(s, x)
    requires step.Start? && IsControl(step.task) ==> step.task == x
    ensures StopsAlone(Next(s, step), x)
  {
    forall t | IsControl(t) && Stops(Next(s, step), t) ensures t == x {
      StopsAfter(s, step, t);
    }
  }

  lemma {:induction false} RunStopsAlone(s: Scope, steps: seq<Step>, x: Task)
    requires Sound(s) && StopsAlone(s, x) && Plays(s, steps) && OnlyStops(steps, x)
    ensures Sound(Outcome(s, steps)) && StopsAlone(Outcome(s, steps), x)
    decreases |steps|
  {
    if steps != [] {
      StepKeepsSound(s, steps[0]);
      StopsAloneStays(s, steps[0], x);
      RunStopsAlone(Next(s, steps[0]), steps[1..], x);
    }
  }

  /** `t` cannot go on before `u` has ended, or has at least joined the cleanup. */
  predicate Awaits(s: Scope, t: Task, u: Task) {
    AsleepFor(s, t, u)
    || (t in s.phases && s.phases[t].Finalizing? && IsControl(u) && u != t && !Ended(s, u))
  }

  /**
   As long as only one of the control tasks stops the others, the drain goes on: without an active
   cleanup every task has ended, can run, or waits for one that can, at most over one task in between.
   */
  lemma DrainGoesOn(present: set<Task>, steps: seq<Step>, x: Task, t: Task)
    requires Plays(Beginning(present), steps) && OnlyStops(steps, x)
    requires !CleanupActive(Outcome(Beginning(present), steps))
    requires t in Outcome(Beginning(present), steps).phases
    ensures
      var s := Outcome(Beginning(present), steps);
      || s.phases[t].Done? || Runnable(s, t)
      || exists u :: u in s.phases && Awaits(s, t, u)
                     && (Runnable(s, u) || exists v :: v in s.phases && Awaits(s, u, v) && Runnable(s, v))
  {
    RunStopsAlone(Beginning(present), steps, x);
    var s := Outcome(Beginning(present), steps);
    if !s.phases[t].Done? && !Runnable(s, t) {
      var u := Awaited(s, t);
      if !Runnable(s, u) {
        var v := Awaited(s, u);
        assert TaskSound(s, v);
      }
    }
  }

  /** Without an active cleanup whoever cannot run waits for a control task that is alive. */
  lemma Awaited(s: Scope, t: Task) returns (u: Task)
    requires Sound(s) && !CleanupActive(s) && Alive(s, t) && !Runnable(s, t)
    ensures Awaits(s, t, u) && IsControl(u) && u != t && Alive(s, u)
    ensures s.phases[t].Cancelling? || s.phases[t].Finalizing?
  {
    assert TaskSound(s, t);
    if s.phases[t].Cancelling? {
      u := Target(s.phases[t].at);
    } else {
      var i :| 0 <= i < 3 && Target(i) != t && !Ended(s, Target(i));
      u := Target(i);
    }
  }

  /** Nobody can go on. */
  ghost predicate Stuck(s: Scope) {
    forall t :: t in s.phases ==> !Runnable(s, t)
  }

  /** So an interleaving that can go no further has ended every task. */
  lemma DrainEnds(present: set<Task>, steps: seq<Step>, x: Task)
    requires Plays(Beginning(present), steps) && OnlyStops(steps, x)
    requires Stuck(Outcome(Beginning(present), steps))
    ensures var s := Outcome(Beginning(present), steps); forall t :: t in s.phases ==> s.phases[t].Done?
  {
    var s := Outcome(Beginning(present), steps);
    if CleanupActive(s) {
      CleanupNeverWaitsForItself(present, steps);
    } else {
      forall t | t in s.phases ensures s.phases[t].Done? {
        DrainGoesOn(present, steps, x, t);
      }
    }
  }

  // ----- the runner's methods, from one await to the next

  class Coordinator {
    var phases: map<Task, Phase>
    var waiters: set<Task>
    var eventSet: bool
    var cancelled: set<Task>

    constructor (present: set<Task>)
      ensures Now() == Beginning(present)
    {
      phases := Beginning(present).phases;
      waiters, eventSet, cancelled := {}, false, {};
    }

    function Now(): Scope
      reads this
    {
      Scope(phases, waiters, eventSet, cancelled)
    }

    method SetEvent()
      modifies this
      ensures Now() == EventSet(old(Now()))
    {
      eventSet := true;
      phases := map t | t in phases :: Roused(phases[t]);
    }

    /** Marks the caller quiescent before it awaits the cleanup. */
    method JoinFailureCleanup(caller: Task, finalize: bool)
      modifies this
      ensures Now() == Join(old(Now()), caller, finalize)
      ensures caller in waiters && eventSet
    {
      waiters := waiters + {caller};
      SetEvent();
      phases := phases[caller := Joined(finalize)];
    }

    method Fail(caller: Task)
      requires Possible(Now(), Step.Fail(caller))
      modifies this
      ensures Now() == Next(old(Now()), Step.Fail(caller))
    {
      if Cleanup !in phases {
        phases := phases[Cleanup := Working];
      }
      if phases[Cleanup].Done? {
        SetEvent();
      } else {
        JoinFailureCleanup(caller, false);
      }
    }

    /** Leaves the set of waiters once the cleanup is done. */
    method LeaveFailureCleanup(caller: Task)
      requires Possible(Now(), Release(caller))
      modifies this
      ensures Now() == Next(old(Now()), Release(caller))
      ensures caller !in waiters && eventSet
    {
      var finalize := phases[caller].finalize && caller !in cancelled;
      waiters := waiters - {caller};
      SetEvent();
      phases := phases[caller := if finalize then Finalizing else Working];
    }

    /** Goes through the control tasks from place `first` on until it has to wait for one. */
    method CancelControlTasks(current: Task, first: nat)
      requires first <= 3 && current in phases
      modifies this
      ensures Now() == Scan(old(Now()), current, first)
    {
      var i := first;
      while i < 3
        invariant first <= i <= 3 && Now() == old(Now())
        invariant Scan(Now(), current, first) == Scan(Now(), current, i)
      {
        var task := Target(i);
        if current != Cleanup && Cleanup in phases && !phases[Cleanup].Done? {
          break;
        }
        if task != current && task in phases && !phases[task].Done? && task !in waiters
           && !(task == Scheduler && Cleanup in phases && phases[Cleanup].Done?) {
          if task !in cancelled {
            cancelled := cancelled + {task};
            if phases[task].Cancelling? { phases := phases[task := Working]; }
          }
          eventSet := false;
          phases := phases[current := Cancelling(i, Arming)];
          return;
        }
        i := i + 1;
      }
      if current == Cleanup {
        phases := phases[current := Working];
      } else if Cleanup in phases && !phases[Cleanup].Done? {
        JoinFailureCleanup(current, true);
      } else {
        phases := phases[current := Finalizing];
      }
    }

    /** One turn of the waiting loop after a wake-up. */
    method WaitControlCancellation(current: Task)
      requires Possible(Now(), Resume(current))
      modifies this
      ensures Now() == Next(old(Now()), Resume(current))
    {
      var i: nat := phases[current].at;
      var task := Target(i);
      if task !in phases || phases[task].Done? || task in waiters {
        phases := phases[current := Working];
        CancelControlTasks(current, i + 1);
      } else {
        eventSet := false;
        phases := phases[current := Cancelling(i, Arming)];
      }
    }
  }
}
