/** Two interleavings of the failure cleanup, step by step. */
module CleanupExamples {
  import opened FailureCleanup

  ghost predicate Leads(s: Scope, steps: seq<Step>, r: Scope) {
    Plays(s, steps) && Outcome(s, steps) == r
  }

  lemma Once(s: Scope, one: Step)
    requires Possible(s, one)
    ensures Leads(s, [one], Next(s, one))
  {
  }

  lemma Twice(s: Scope, one: Step, two: Step)
    requires Possible(s, one) && Possible(Next(s, one), two)
    ensures Leads(s, [one, two], Next(Next(s, one), two))
  {
    Once(Next(s, one), two);
    assert [one, two][1..] == [two];
  }

  lemma Thrice(s: Scope, one: Step, two: Step, three: Step)
    requires Possible(s, one) && Possible(Next(s, one), two) && Possible(Next(Next(s, one), two), three)
    ensures Leads(s, [one, two, three], Next(Next(Next(s, one), two), three))
  {
    Twice(Next(s, one), two, three);
    assert [one, two, three][1..] == [two, three];
  }

  lemma {:induction false} LeadsOn(s: Scope, first: seq<Step>, m: Scope, second: seq<Step>, r: Scope)
    requires Leads(s, first, m) && Leads(m, second, r)
    ensures Leads(s, first + second, r)
    decreases |first|
  {
    if first == [] {
      assert first + second == second;
    } else {
      assert (first + second)[1..] == first[1..] + second;
      LeadsOn(Next(s, first[0]), first[1..], m, second, r);
    }
  }

  // With a service command beside a stop, which serial commands rule out, a wake-up is lost.

  const STOP_SLEEPS := [Call(Caller(0)), Start(Caller(0)), Arm(Caller(0))]
  const FAILURE := [Call(Reader(0)), Fail(Reader(0)), Start(Cleanup)]
  const SECOND_FAILURE := [Call(Reader(1)), Fail(Reader(1)), Arm(Cleanup)]
  const CONTROL_FAILS := [Resume(Caller(0)), Fail(Control)]
  const CLEANUP_CLEARS := [Resume(Cleanup), Arm(Caller(0))]

  const SLEEPING := Scope(map[Control := Working, Scheduler := Working, Caller(0) := Cancelling(0, Asleep)],
                          {}, false, {Control})
  const FAILED := Scope(map[Control := Working, Scheduler := Working, Caller(0) := Cancelling(0, Woken),
                            Reader(0) := Joined(false), Cleanup := Cancelling(0, Arming)],
                        {Reader(0)}, false, {Control})
  const FAILED_TWICE := Scope(map[Control := Working, Scheduler := Working, Caller(0) := Cancelling(0, Woken),
                                  Reader(0) := Joined(false), Reader(1) := Joined(false),
                                  Cleanup := Cancelling(0, Woken)],
                              {Reader(0), Reader(1)}, true, {Control})

  lemma StopSleeps()
    ensures Leads(Beginning({Control, Scheduler}), STOP_SLEEPS, SLEEPING)
  {
    var called := Next(Beginning({Control, Scheduler}), Call(Caller(0)));
    assert Next(called, Start(Caller(0))) == Armed(Cancel(called, Control), Caller(0), 0);
    Thrice(Beginning({Control, Scheduler}), Call(Caller(0)), Start(Caller(0)), Arm(Caller(0)));
    assert Next(Next(called, Start(Caller(0))), Arm(Caller(0))) == SLEEPING;
  }

  lemma CleanupStarts(s: Scope)
    requires Possible(s, Start(Cleanup)) && Control in s.phases && !Satisfied(s, Control) && Control in s.cancelled
    ensures Next(s, Start(Cleanup)) == Armed(s, Cleanup, 0)
  {
  }

  lemma ReadFails()
    ensures Leads(SLEEPING, FAILURE, FAILED)
  {
    var failed := Next(Next(SLEEPING, Call(Reader(0))), Fail(Reader(0)));
    assert failed.phases
        == map[Control := Working, Scheduler := Working, Caller(0) := Cancelling(0, Woken),
               Reader(0) := Joined(false), Cleanup := Working];
    Twice(SLEEPING, Call(Reader(0)), Fail(Reader(0)));
    StartsLast(SLEEPING, failed);
  }

  lemma StartsLast(s: Scope, failed: Scope)
    requires Leads(s, [Call(Reader(0)), Fail(Reader(0))], failed)
    requires failed.waiters == {Reader(0)} && failed.cancelled == {Control}
    requires failed.phases
          == map[Control := Working, Scheduler := Working, Caller(0) := Cancelling(0, Woken),
                 Reader(0) := Joined(false), Cleanup := Working]
    ensures Leads(s, FAILURE, FAILED)
  {
    CleanupStarts(failed);
    Once(failed, Start(Cleanup));
    assert Armed(failed, Cleanup, 0) == FAILED;
    LeadsOn(s, [Call(Reader(0)), Fail(Reader(0))], failed, [Start(Cleanup)], FAILED);
  }

  lemma SecondReadFails()
    ensures Leads(FAILED, SECOND_FAILURE, FAILED_TWICE)
  {
    Thrice(FAILED, Call(Reader(1)), Fail(Reader(1)), Arm(Cleanup));
    assert Next(Next(Next(FAILED, Call(Reader(1))), Fail(Reader(1))), Arm(Cleanup)) == FAILED_TWICE;
  }

  /** The target of `t` has joined, and `t` sleeps on. */
  predicate Overlooked(s: Scope, t: Task) {
    WakeupLost(s, t) && s.phases[t].sleep.Asleep? && Target(s.phases[t].at) in s.waiters
  }

  lemma SchedulerIsNext(s: Scope)
    requires Possible(s, Resume(Cleanup)) && s.phases[Cleanup].at == 0 && Control in s.waiters
    requires Maintenance !in s.phases && Scheduler in s.phases && !Satisfied(s, Scheduler)
    ensures Next(s, Resume(Cleanup)) == Armed(Cancel(At(s, Cleanup, Working), Scheduler), Cleanup, 2)
  {
    var ready := At(s, Cleanup, Working);
    assert Scan(ready, Cleanup, 1) == Scan(ready, Cleanup, 2);
  }

  predicate HasJoined(s: Scope) {
    && Waits(s, Cleanup) && s.phases[Cleanup] == Cancelling(0, Woken)
    && Waits(s, Caller(0)) && s.phases[Caller(0)] == Cancelling(0, Arming)
    && Control in s.waiters && Maintenance !in s.phases
    && Scheduler in s.phases && s.phases[Scheduler].Working? && Scheduler !in s.waiters && Scheduler !in s.cancelled
  }

  lemma ControlFails() returns (r: Scope)
    ensures Leads(FAILED_TWICE, CONTROL_FAILS, r) && HasJoined(r)
  {
    Twice(FAILED_TWICE, Resume(Caller(0)), Fail(Control));
    r := Next(Next(FAILED_TWICE, Resume(Caller(0))), Fail(Control));
  }

  lemma CleanupClears(s: Scope) returns (r: Scope)
    requires HasJoined(s)
    ensures Leads(s, CLEANUP_CLEARS, r) && Overlooked(r, Caller(0))
  {
    SchedulerIsNext(s);
    Twice(s, Resume(Cleanup), Arm(Caller(0)));
    r := Next(Next(s, Resume(Cleanup)), Arm(Caller(0)));
  }

  /** The interleaving fits a first-in-first-out ready queue, but has two commands at once. */
  lemma CallerCanLoseItsWakeup()
    ensures
      var s, steps := Beginning({Control, Scheduler}),
                      STOP_SLEEPS + (FAILURE + (SECOND_FAILURE + (CONTROL_FAILS + CLEANUP_CLEARS)));
      Plays(s, steps) && !Serial(s, steps) && Overlooked(Outcome(s, steps), Caller(0))
  {
    var s, last := Beginning({Control, Scheduler}), CONTROL_FAILS + CLEANUP_CLEARS;
    StopSleeps();
    ReadFails();
    SecondReadFails();
    var joined := ControlFails();
    var r := CleanupClears(joined);
    LeadsOn(FAILED_TWICE, CONTROL_FAILS, joined, CLEANUP_CLEARS, r);
    LeadsOn(FAILED, SECOND_FAILURE, FAILED_TWICE, last, r);
    LeadsOn(SLEEPING, FAILURE, FAILED, SECOND_FAILURE + last, r);
    LeadsOn(s, STOP_SLEEPS, SLEEPING, FAILURE + (SECOND_FAILURE + last), r);
    if Serial(s, STOP_SLEEPS + (FAILURE + (SECOND_FAILURE + last))) {
      NoWakeupIsLost({Control, Scheduler}, STOP_SLEEPS + (FAILURE + (SECOND_FAILURE + last)), Caller(0));
    }
  }

  // A rollback and the DAG task both begin to stop the others between a read's failure and the cleanup.

  /** A stop that begins while the cleanup is active joins it at once. */
  lemma StopJoins(s: Scope, t: Task)
    requires Possible(s, Start(t)) && CleanupActive(s) && t != Cleanup
    ensures Next(s, Start(t)) == Join(s, t, true)
  {
  }

  /** The cleanup has nobody left to cancel. */
  lemma CleanupPasses(s: Scope)
    requires Possible(s, Start(Cleanup)) && forall i: nat :: i < 3 ==> Satisfied(s, Target(i))
    ensures Next(s, Start(Cleanup)) == s
  {
    ScanOutcome(s, Cleanup, 0);
    assert FirstOpen(s, Cleanup, 2) == 3;
    assert FirstOpen(s, Cleanup, 1) == 3;
  }

  ghost predicate LeadsServed(s: Scope, steps: seq<Step>, r: Scope) {
    Leads(s, steps, r) && OnlyReadsCalled(steps)
  }

  predicate OnlyReadsCalled(steps: seq<Step>) {
    forall step :: step in steps && step.Call? ==> step.task.Reader?
  }

  lemma {:induction false} ReadsAreSerial(s: Scope, steps: seq<Step>)
    requires Plays(s, steps) && OnlyReadsCalled(steps)
    ensures Serial(s, steps)
    decreases |steps|
  {
    if steps != [] {
      ReadsAreSerial(Next(s, steps[0]), steps[1..]);
    }
  }

  lemma ServedOn(s: Scope, first: seq<Step>, m: Scope, second: seq<Step>, r: Scope)
    requires LeadsServed(s, first, m) && LeadsServed(m, second, r)
    ensures LeadsServed(s, first + second, r)
  {
    LeadsOn(s, first, m, second, r);
  }

  /** The cleanup is still to run; the rollback has begun to stop the others and has joined it. */
  predicate OneJoined(s: Scope) {
    && s.phases == map[Maintenance := Joined(true), Scheduler := Working, Reader(0) := Joined(false),
                       Cleanup := Working]
    && s.waiters == {Reader(0), Maintenance} && s.cancelled == {}
  }

  predicate BothJoined(s: Scope) {
    && s.phases == map[Maintenance := Joined(true), Scheduler := Joined(true), Reader(0) := Joined(false),
                       Cleanup := Done]
    && s.cancelled == {}
  }

  predicate BothDraining(s: Scope) {
    s.phases == map[Maintenance := Finalizing, Scheduler := Finalizing, Reader(0) := Done, Cleanup := Done]
  }

  lemma ReadEndsBeside() returns (r: Scope)
    ensures LeadsServed(Beginning({Maintenance, Scheduler}), [Call(Reader(0)), Fail(Reader(0))], r)
    ensures r.waiters == {Reader(0)} && r.cancelled == {}
    ensures r.phases
         == map[Maintenance := Working, Scheduler := Working, Reader(0) := Joined(false), Cleanup := Working]
  {
    var s := Beginning({Maintenance, Scheduler});
    Twice(s, Call(Reader(0)), Fail(Reader(0)));
    r := Next(Next(s, Call(Reader(0))), Fail(Reader(0)));
  }

  lemma RollbackJoins() returns (steps: seq<Step>, r: Scope)
    ensures LeadsServed(Beginning({Maintenance, Scheduler}), steps, r) && OneJoined(r)
  {
    var failed := ReadEndsBeside();
    StopJoins(failed, Maintenance);
    Once(failed, Start(Maintenance));
    steps, r := [Call(Reader(0)), Fail(Reader(0))] + [Start(Maintenance)], Next(failed, Start(Maintenance));
    ServedOn(Beginning({Maintenance, Scheduler}), [Call(Reader(0)), Fail(Reader(0))], failed, [Start(Maintenance)], r);
  }

  lemma CleanupRuns(s: Scope) returns (steps: seq<Step>, r: Scope)
    requires OneJoined(s)
    ensures LeadsServed(s, steps, r) && BothJoined(r)
  {
    var both := Next(s, Start(Scheduler));
    StopJoins(s, Scheduler);
    assert both.waiters == {Reader(0), Maintenance, Scheduler};
    CleanupPasses(both);
    Thrice(s, Start(Scheduler), Start(Cleanup), Finish(Cleanup));
    steps, r := [Start(Scheduler), Start(Cleanup), Finish(Cleanup)], Next(both, Finish(Cleanup));
  }

  lemma ReaderEnds(s: Scope) returns (r: Scope)
    requires BothJoined(s)
    ensures LeadsServed(s, [Release(Reader(0)), Finish(Reader(0))], r)
    ensures r.cancelled == {}
    ensures r.phases
         == map[Maintenance := Joined(true), Scheduler := Joined(true), Reader(0) := Done, Cleanup := Done]
  {
    Twice(s, Release(Reader(0)), Finish(Reader(0)));
    r := Next(Next(s, Release(Reader(0))), Finish(Reader(0)));
  }

  lemma BothLeave(s: Scope) returns (steps: seq<Step>, r: Scope)
    requires BothJoined(s)
    ensures LeadsServed(s, steps, r) && BothDraining(r)
  {
    var ended := ReaderEnds(s);
    Twice(ended, Release(Maintenance), Release(Scheduler));
    r := Next(Next(ended, Release(Maintenance)), Release(Scheduler));
    steps := [Release(Reader(0)), Finish(Reader(0))] + [Release(Maintenance), Release(Scheduler)];
    ServedOn(s, [Release(Reader(0)), Finish(Reader(0))], ended, [Release(Maintenance), Release(Scheduler)], r);
  }

  lemma BlockedIsStuck(s: Scope)
    requires BothDraining(s)
    ensures TwoDraining(s) && Stuck(s)
  {
    assert Draining(s, 1) && Draining(s, 2);
    assert !Ended(s, Target(1)) && !Ended(s, Target(2));
  }

  /** With a single command, and reads that fail, the drain can block for good. */
  lemma TwoStoppingTasksCanBlock() returns (steps: seq<Step>, r: Scope)
    ensures Leads(Beginning({Maintenance, Scheduler}), steps, r) && Serial(Beginning({Maintenance, Scheduler}), steps)
    ensures OnlyReadsCalled(steps) && TwoDraining(r) && Stuck(r)
  {
    var s := Beginning({Maintenance, Scheduler});
    var join, joined := RollbackJoins();
    var run, cleaned := CleanupRuns(joined);
    var leave, blocked := BothLeave(cleaned);
    BlockedIsStuck(blocked);
    ServedOn(joined, run, cleaned, leave, blocked);
    ServedOn(s, join, joined, run + leave, blocked);
    ReadsAreSerial(s, join + (run + leave));
    return join + (run + leave), blocked;
  }
}
