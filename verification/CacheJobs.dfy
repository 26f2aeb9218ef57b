/**
 The dashboard's cache scheduler: which experiments are due for a refresh, which refresh jobs are in
 flight, and what a finished job settles. An experiment that stops running is owed a last refresh by
 a job that was submitted after that.
 */
module CacheJobs {
  import opened Options

  type Id = string
  type Boundary = string

  /** A submitted job; `submitted` is the moment of its submission. */
  datatype Job = Job(submitted: nat, target: Option<Boundary>)

  /** What a finished job reports: a failure, a partial refresh up to a boundary, or a complete one. */
  datatype Outcome = Failed | Partial(target: Boundary) | Complete

  datatype Scheduler = Scheduler(
    workers: nat,
    registry: set<Id>,
    automatic: set<Id>,
    jobs: map<Id, Job>,
    requests: set<Id>,
    finals: set<Id>,
    targets: map<Id, Boundary>,
    refreshing: set<Id>)

  // ----- the steps of the scheduler

  /** A new selection of active experiments; those that left it get a final request. */
  function Selected(s: Scheduler, active: set<Id>): Scheduler {
    s.(finals := (s.finals + (s.automatic - active)) * s.registry, automatic := active)
  }

  /**
   Whether a submission gets as far as a job once the state of its cache is known; `complete` says
   that the cache is complete. Refreshes by commands are looked at before that only.
   */
  predicate Submits(s: Scheduler, id: Id, complete: bool) {
    && id !in s.jobs && |s.jobs| < s.workers
    && !(complete && id !in s.requests && id !in s.finals && id !in s.targets)
  }

  function Submitted(s: Scheduler, id: Id, now: nat): Scheduler {
    var final := id in s.finals;
    var target := if !final && id in s.targets then Some(s.targets[id]) else None;
    s.(jobs := s.jobs[id := Job(now, target)],
       finals := s.finals - {id},
       requests := if final then s.requests + {id} else s.requests)
  }

  function Collected(s: Scheduler, id: Id, outcome: Outcome): Scheduler {
    var settled := s.(jobs := s.jobs - {id});
    match outcome
    case Failed => settled.(targets := s.targets - {id})
    case Partial(target) => settled.(targets := s.targets[id := target])
    case Complete => settled.(targets := s.targets - {id}, requests := s.requests - {id})
  }

  /** A command's own refresh replaces whatever job is on record. */
  function Commanded(s: Scheduler, id: Id, now: nat): Scheduler {
    s.(jobs := s.jobs[id := Job(now, None)])
  }

  datatype Step =
    | Register(registry: set<Id>)
    | Select(active: set<Id>)
    | Submit(id: Id, cached: bool)
    | Collect(id: Id, outcome: Outcome)
    | Command(id: Id)
    | Request(id: Id)
    | Refreshing(ids: set<Id>)

  function Scheduled(s: Scheduler, step: Step, now: nat): Scheduler {
    match step
    case Register(registry) => s.(registry := registry)
    case Select(active) => Selected(s, active)
    case Submit(id, cached) => if Submits(s, id, cached) then Submitted(s, id, now) else s
    case Collect(id, outcome) => if id in s.jobs then Collected(s, id, outcome) else s
    case Command(id) => Commanded(s, id, now)
    case Request(id) => s.(requests := s.requests + {id})
    case Refreshing(ids) => s.(refreshing := ids)
  }

  // ----- what is owed

  /**
   The debts of the scheduler: for each experiment that left the active ones while registered, the
   moment it did. Only the complete report of a job submitted after that moment, or the end of the
   registration, settles a debt.
   */
  type Debts = map<Id, nat>

  function Owing(s: Scheduler, owed: Debts, step: Step, now: nat): Debts {
    match step
    case Select(active) =>
      map id | id in owed.Keys + (s.automatic - active) && id in s.registry ::
        if id in s.automatic - active then now else owed[id]
    case Collect(id, outcome) =>
      if outcome == Complete && id in s.jobs && id in owed && s.jobs[id].submitted > owed[id]
      then owed - {id} else owed
    case _ => owed
  }

  /** Every debt is still on the books: no job that is too old can take it off. */
  ghost predicate DebtsKept(s: Scheduler, owed: Debts) {
    forall id :: id in owed ==>
      id in s.finals || (id in s.requests && (id in s.jobs ==> s.jobs[id].submitted > owed[id]))
  }

  /** Time goes on: nothing on record is later than now. */
  ghost predicate Past(s: Scheduler, owed: Debts, now: nat) {
    && (forall id :: id in s.jobs ==> s.jobs[id].submitted < now)
    && (forall id :: id in owed ==> owed[id] < now)
  }

  ghost predicate OnRecord(s: Scheduler, owed: Debts, now: nat) {
    DebtsKept(s, owed) && Past(s, owed, now)
  }

  lemma SelectKeepsDebts(s: Scheduler, owed: Debts, active: set<Id>, now: nat)
    requires OnRecord(s, owed, now)
    ensures OnRecord(Selected(s, active), Owing(s, owed, Select(active), now), now + 1)
  {
  }

  lemma CollectKeepsDebts(s: Scheduler, owed: Debts, id: Id, outcome: Outcome, now: nat)
    requires OnRecord(s, owed, now) && id in s.jobs
    ensures OnRecord(Collected(s, id, outcome), Owing(s, owed, Collect(id, outcome), now), now + 1)
  {
  }

  lemma JobKeepsDebts(s: Scheduler, owed: Debts, id: Id, now: nat)
    requires OnRecord(s, owed, now)
    ensures OnRecord(Submitted(s, id, now), owed, now + 1) && OnRecord(Commanded(s, id, now), owed, now + 1)
  {
  }

  lemma StepKeepsDebts(s: Scheduler, owed: Debts, step: Step, now: nat)
    requires OnRecord(s, owed, now)
    ensures OnRecord(Scheduled(s, step, now), Owing(s, owed, step, now), now + 1)
  {
    if step.Select? {
      SelectKeepsDebts(s, owed, step.active, now);
    } else if step.Collect? && step.id in s.jobs {
      CollectKeepsDebts(s, owed, step.id, step.outcome, now);
    } else if step.Submit? || step.Command? {
      JobKeepsDebts(s, owed, step.id, now);
    }
  }

  /** The same with the state and the debts after the step given. */
  lemma StepKeepsRecord(
    s: Scheduler, owed: Debts, step: Step, now: nat, next: Scheduler, nextOwed: Debts)
    requires OnRecord(s, owed, now) && next == Scheduled(s, step, now) && nextOwed == Owing(s, owed, step, now)
    ensures OnRecord(next, nextOwed, now + 1)
  {
    StepKeepsDebts(s, owed, step, now);
  }

  function Opened(workers: nat): Scheduler {
    Scheduler(workers, {}, {}, map[], {}, {}, map[], {})
  }

  /** The scheduler before step `k`; the number of a step is its moment. */
  function StateAt(workers: nat, steps: seq<Step>, k: nat): Scheduler
    requires k <= |steps|
  {
    if k == 0 then Opened(workers) else Scheduled(StateAt(workers, steps, k - 1), steps[k - 1], k - 1)
  }

  function OwedAt(workers: nat, steps: seq<Step>, k: nat): Debts
    requires k <= |steps|
  {
    if k == 0 then map[]
    else Owing(StateAt(workers, steps, k - 1), OwedAt(workers, steps, k - 1), steps[k - 1], k - 1)
  }

  /** In every run, whatever is owed is still requested, and no job in flight can wrongly settle it. */
  lemma {:induction false} DebtsAreKept(workers: nat, steps: seq<Step>, k: nat)
    requires k <= |steps|
    ensures OnRecord(StateAt(workers, steps, k), OwedAt(workers, steps, k), k)
  {
    if k == 0 {
      NothingOwed(workers);
    } else {
      DebtsAreKept(workers, steps, k - 1);
      StepKeepsRecord(StateAt(workers, steps, k - 1), OwedAt(workers, steps, k - 1), steps[k - 1], k - 1,
                      StateAt(workers, steps, k), OwedAt(workers, steps, k));
    }
  }

  lemma NothingOwed(workers: nat)
    ensures OnRecord(Opened(workers), map[], 0)
  {
  }

  /** The experiments of the last selection before step `k`. */
  function Active(steps: seq<Step>, k: nat): set<Id>
    requires k <= |steps|
  {
    if k == 0 then {} else if steps[k - 1].Select? then steps[k - 1].active else Active(steps, k - 1)
  }

  /** The registry as it was last reported before step `k`. */
  function Registry(steps: seq<Step>, k: nat): set<Id>
    requires k <= |steps|
  {
    if k == 0 then {} else if steps[k - 1].Register? then steps[k - 1].registry else Registry(steps, k - 1)
  }

  lemma {:induction false} KnowsSteps(workers: nat, steps: seq<Step>, k: nat)
    requires k <= |steps|
    ensures StateAt(workers, steps, k).automatic == Active(steps, k)
    ensures StateAt(workers, steps, k).registry == Registry(steps, k)
    ensures StateAt(workers, steps, k).workers == workers
  {
    if k > 0 {
      KnowsSteps(workers, steps, k - 1);
    }
  }

  /** With step `i` the experiment leaves the active ones although it is still registered. */
  predicate Leaves(steps: seq<Step>, i: nat, id: Id)
    requires i < |steps|
  {
    steps[i].Select? && id in Active(steps, i) && id !in steps[i].active && id in Registry(steps, i)
  }

  lemma {:induction false} LastSelection(steps: seq<Step>, i: nat, j: nat)
    requires i < j <= |steps| && steps[i].Select? && forall k :: i < k < j ==> !steps[k].Select?
    ensures Active(steps, j) == steps[i].active
    decreases j
  {
    if j > i + 1 {
      LastSelection(steps, i, j - 1);
    }
  }

  lemma {:induction false} LastRegistry(steps: seq<Step>, i: nat, j: nat)
    requires i < j <= |steps| && steps[i].Register? && forall k :: i < k < j ==> !steps[k].Register?
    ensures Registry(steps, j) == steps[i].registry
    decreases j
  {
    if j > i + 1 {
      LastRegistry(steps, i, j - 1);
    }
  }

  /** Selected at step `i`, registered at step `r`, and not selected the next time, at step `j`. */
  lemma LeavesBetween(steps: seq<Step>, i: nat, r: nat, j: nat, id: Id)
    requires i < j < |steps| && r < j && steps[i].Select? && steps[r].Register? && steps[j].Select?
    requires forall k :: i < k < j ==> !steps[k].Select?
    requires forall k :: r < k < j ==> !steps[k].Register?
    ensures Leaves(steps, j, id) <==> id in steps[i].active && id in steps[r].registry && id !in steps[j].active
  {
    LastSelection(steps, i, j);
    LastRegistry(steps, r, j);
  }

  /** Whoever leaves gets a final request at once. */
  lemma LeaverIsRequested(workers: nat, steps: seq<Step>, i: nat, id: Id)
    requires i < |steps| && Leaves(steps, i, id)
    ensures id in StateAt(workers, steps, i + 1).finals
  {
    KnowsSteps(workers, steps, i);
  }

  /** And nobody else does. */
  lemma {:induction false} OnlyLeaversAreRequested(workers: nat, steps: seq<Step>, k: nat, id: Id)
    requires k <= |steps| && id in StateAt(workers, steps, k).finals
    ensures exists i :: 0 <= i < k && Leaves(steps, i, id)
  {
    if k > 0 {
      KnowsSteps(workers, steps, k - 1);
      if id in StateAt(workers, steps, k - 1).finals {
        OnlyLeaversAreRequested(workers, steps, k - 1, id);
      } else {
        assert Leaves(steps, k - 1, id);
      }
    }
  }

  /** A job on record is from the step that its moment names, and has not been collected since. */
  lemma {:induction false} JobIsFromItsStep(workers: nat, steps: seq<Step>, k: nat, id: Id)
    requires k <= |steps| && id in StateAt(workers, steps, k).jobs
    ensures
      var m := StateAt(workers, steps, k).jobs[id].submitted;
      && m < k && (steps[m] == Command(id) || (steps[m].Submit? && steps[m].id == id))
      && forall j :: m < j < k ==> !(steps[j].Collect? && steps[j].id == id)
  {
    if k > 0 && id in StateAt(workers, steps, k - 1).jobs {
      JobIsFromItsStep(workers, steps, k - 1, id);
    }
  }

  /** The next job goes on from the boundary of a partial one, and from nowhere after any other. */
  lemma PartialIsContinued(s: Scheduler, id: Id, outcome: Outcome, now: nat)
    requires id in s.jobs && id !in s.finals && |s.jobs| <= s.workers
    ensures
      var collected := Scheduled(s, Collect(id, outcome), now);
      var next := Scheduled(collected, Submit(id, false), now + 1);
      && id !in collected.jobs && id in next.jobs
      && next.jobs[id] == Job(now + 1, if outcome.Partial? then Some(outcome.target) else None)
      && collected.requests == (if outcome.Complete? then s.requests - {id} else s.requests)
  {
    assert |s.jobs - {id}| < |s.jobs| by {
      assert s.jobs.Keys == (s.jobs - {id}).Keys + {id};
      assert |s.jobs| == |s.jobs.Keys| && |s.jobs - {id}| == |(s.jobs - {id}).Keys|;
    }
  }

  /** A submission leaves the jobs there are alone, and never makes them more than the workers. */
  lemma SubmissionIsBounded(s: Scheduler, id: Id, cached: bool, now: nat)
    ensures
      var next := Scheduled(s, Submit(id, cached), now);
      && (forall x :: x in s.jobs ==> x in next.jobs && next.jobs[x] == s.jobs[x])
      && next.jobs.Keys <= s.jobs.Keys + {id} && (next.jobs != s.jobs ==> |next.jobs| <= s.workers)
      && (id in next.jobs && id !in s.jobs <==>
            && id !in s.jobs && |s.jobs| < s.workers
            && (!cached || id in s.requests || id in s.finals || id in s.targets))
      && (next.jobs == s.jobs ==> next == s)
  {
  }

  /** A request is served although the cache is complete, and outlasts every job that is not. */
  lemma RequestIsServed(s: Scheduler, id: Id, outcome: Outcome, now: nat)
    requires id !in s.jobs && |s.jobs| < s.workers
    ensures
      var submitted := Scheduled(Scheduled(s, Request(id), now), Submit(id, true), now + 1);
      && id in submitted.jobs && submitted.jobs[id].submitted == now + 1 && id in submitted.requests
      && (id in Scheduled(submitted, Collect(id, outcome), now + 2).requests <==> !outcome.Complete?)
  {
  }

  /** A command's job takes the place of another one, with no boundary to go on from, and settles nothing. */
  lemma CommandSettlesNothing(s: Scheduler, id: Id, now: nat)
    ensures
      var next := Scheduled(s, Command(id), now);
      && id in next.jobs && next.jobs[id] == Job(now, None)
      && next.requests == s.requests && next.finals == s.finals && next.targets == s.targets
      && (forall x :: x in s.jobs && x != id ==> x in next.jobs && next.jobs[x] == s.jobs[x])
  {
  }

  /** At step `k` a job submitted after moment `i` reports a complete refresh. */
  predicate Refreshes(workers: nat, steps: seq<Step>, k: nat, i: nat, id: Id)
    requires k < |steps|
  {
    var s := StateAt(workers, steps, k);
    steps[k] == Collect(id, Complete) && id in s.jobs && s.jobs[id].submitted > i
  }

  /** A selection finds the experiment no longer registered. */
  predicate Drops(steps: seq<Step>, k: nat, id: Id)
    requires k < |steps|
  {
    steps[k].Select? && id !in Registry(steps, k)
  }

  lemma {:induction false} DebtOnRecord(workers: nat, steps: seq<Step>, i: nat, id: Id, k: nat)
    requires i < k <= |steps| && Leaves(steps, i, id)
    requires forall j :: i < j < k ==> !Refreshes(workers, steps, j, i, id) && !Drops(steps, j, id)
    ensures id in OwedAt(workers, steps, k) && OwedAt(workers, steps, k)[id] >= i
    decreases k
  {
    KnowsSteps(workers, steps, k - 1);
    if k > i + 1 {
      DebtOnRecord(workers, steps, i, id, k - 1);
      assert !Refreshes(workers, steps, k - 1, i, id) && !Drops(steps, k - 1, id);
    }
  }

  /**
   From the moment a registered experiment stops being active until a job submitted after that
   moment reports a complete refresh, or the registration ends, the experiment stays scheduled.
   Jobs that fail, that are partial, or that were submitted earlier, by a command or otherwise,
   do not change that.
   */
  lemma NoFinalRefreshIsLost(workers: nat, steps: seq<Step>, i: nat, id: Id)
    requires i < |steps| && Leaves(steps, i, id)
    requires forall j :: i < j < |steps| ==> !Refreshes(workers, steps, j, i, id) && !Drops(steps, j, id)
    ensures
      var s := StateAt(workers, steps, |steps|);
      id in s.finals || id in s.requests
  {
    DebtOnRecord(workers, steps, i, id, |steps|);
    DebtsAreKept(workers, steps, |steps|);
  }

  /**
   Whatever is scheduled that way gets a job as soon as a worker is free, even when its cache looks
   complete, and stays requested while that job runs.
   */
  lemma OwedGetsItsJob(s: Scheduler, owed: Debts, id: Id, cached: bool, now: nat)
    requires OnRecord(s, owed, now) && id in owed
    requires id !in s.jobs && |s.jobs| < s.workers
    ensures
      var next := Scheduled(s, Submit(id, cached), now);
      && id in next.jobs && next.jobs[id].submitted > owed[id] && id in next.requests
      && (id in s.finals ==> next.jobs[id].target.None? && id !in next.finals)
  {
    assert id in s.finals || id in s.requests;
  }

  // ----- the scheduler's own methods

  /** The requests that are left while the finished jobs in `rest` are still to be settled. */
  ghost function StillRequested(requests: set<Id>, finished: map<Id, Outcome>, rest: set<Id>): set<Id> {
    set id | id in requests && !(id in finished && id !in rest && finished[id].Complete?)
  }

  lemma OneLessRequested(requests: set<Id>, finished: map<Id, Outcome>, rest: set<Id>, id: Id)
    requires id in rest && id in finished
    ensures StillRequested(requests, finished, rest - {id})
         == StillRequested(requests, finished, rest) - (if finished[id].Complete? then {id} else {})
  {
  }

  class DashboardViews {
    const workers: nat
    var registry: set<Id>
    var automatic: set<Id>
    var jobs: map<Id, Job>
    var requests: set<Id>
    var finals: set<Id>
    var targets: map<Id, Boundary>
    var refreshing: set<Id>
    ghost var owed: Debts
    ghost var now: nat

    constructor (workers: nat)
      ensures Valid() && Now() == Opened(workers) && owed == map[]
    {
      this.workers := workers;
      registry, automatic, jobs, requests, finals, targets, refreshing := {}, {}, map[], {}, {}, map[], {};
      owed, now := map[], 0;
    }

    function Now(): Scheduler
      reads this
    {
      Scheduler(workers, registry, automatic, jobs, requests, finals, targets, refreshing)
    }

    ghost predicate Valid()
      reads this
    {
      OnRecord(Now(), owed, now)
    }

    /** Takes over the experiments found in an active phase. */
    method RefreshCacheSelection(active: set<Id>)
      requires Valid()
      modifies this
      ensures Valid() && Now() == Scheduled(old(Now()), Select(active), old(now))
      ensures owed == Owing(old(Now()), old(owed), Select(active), old(now))
    {
      StepKeepsDebts(Now(), owed, Select(active), now);
      owed := Owing(Now(), owed, Select(active), now);
      finals := finals + (automatic - active);
      finals := finals * registry;
      automatic := active;
      now := now + 1;
    }

    /** The checks before the state of the cache is read; the ones on jobs are made again afterwards. */
    method ConsiderCache(id: Id) returns (proceed: bool)
      ensures proceed <==> id !in jobs && id !in refreshing && |jobs| < workers
    {
      if id in jobs || id in refreshing {
        return false;
      }
      proceed := |jobs| < workers;
    }

    /**
     Goes on when that state is known: submits a job unless the experiment has one by now, is up to
     date, or no worker is free any more.
     */
    method SubmitCache(id: Id, cached: bool, submittedAt: nat)
      requires Valid() && submittedAt == now
      modifies this
      ensures Valid() && Now() == Scheduled(old(Now()), Submit(id, cached), old(now))
      ensures owed == old(owed)
    {
      StepKeepsDebts(Now(), owed, Submit(id, cached), now);
      now := now + 1;
      if cached && id !in requests && id !in finals && id !in targets {
        return;
      }
      if id in jobs || |jobs| >= workers {
        return;
      }
      var final := id in finals;
      var target := if final || id !in targets then None else Some(targets[id]);
      jobs := jobs[id := Job(submittedAt, target)];
      if final {
        finals := finals - {id};
        requests := requests + {id};
      }
    }

    /** Settles one finished job. */
    method CollectJob(id: Id, outcome: Outcome)
      requires Valid() && id in jobs
      modifies this
      ensures Valid() && Now() == Scheduled(old(Now()), Collect(id, outcome), old(now))
      ensures owed == Owing(old(Now()), old(owed), Collect(id, outcome), old(now)) && now == old(now) + 1
      ensures registry == old(registry) && automatic == old(automatic) && finals == old(finals)
      ensures refreshing == old(refreshing) && jobs == old(jobs) - {id}
      ensures requests == old(requests) - (if outcome.Complete? then {id} else {})
    {
      StepKeepsDebts(Now(), owed, Collect(id, outcome), now);
      owed := Owing(Now(), owed, Collect(id, outcome), now);
      now := now + 1;
      jobs := jobs - {id};
      match outcome {
        case Failed =>
          targets := targets - {id};
        case Partial(target) =>
          targets := targets[id := target];
        case Complete =>
          requests := requests - {id};
          targets := targets - {id};
      }
    }

    /** Settles all finished jobs, whichever order they come in. */
    method CollectCacheJobs(finished: map<Id, Outcome>)
      requires Valid() && finished.Keys <= jobs.Keys
      modifies this
      ensures Valid() && registry == old(registry) && automatic == old(automatic) && finals == old(finals)
      ensures jobs == old(jobs) - finished.Keys
      ensures requests == set id | id in old(requests) && !(id in finished && finished[id].Complete?)
      ensures refreshing == old(refreshing)
    {
      var rest := finished.Keys;
      while rest != {}
        invariant Valid() && rest <= finished.Keys && rest <= jobs.Keys
        invariant registry == old(registry) && automatic == old(automatic) && finals == old(finals)
        invariant refreshing == old(refreshing)
        invariant jobs == old(jobs) - (finished.Keys - rest)
        invariant requests == StillRequested(old(requests), finished, rest)
        decreases rest
      {
        var id :| id in rest;
        OneLessRequested(old(requests), finished, rest, id);
        CollectJob(id, finished[id]);
        rest := rest - {id};
      }
    }

    /** The refresh that follows a command. */
    method RefreshCommandHistory(id: Id, submittedAt: nat)
      requires Valid() && submittedAt == now
      modifies this
      ensures Valid() && Now() == Scheduled(old(Now()), Command(id), old(now)) && owed == old(owed)
    {
      StepKeepsDebts(Now(), owed, Command(id), now);
      now := now + 1;
      jobs := jobs[id := Job(submittedAt, None)];
    }
  }
}
