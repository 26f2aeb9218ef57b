/** One run of two stages from its beginning, and what goes wrong on it. */
module RunExamples {
  import opened Options
  import opened Templates
  import opened DagState
  import opened DagInvariant
  import opened DagRuns
  import H = ExperimentHistory
  import P = DagProgress
  import J = JournalScan
  import W = WriteAhead

  // ----- one event after the other

  ghost predicate Leads(h: H.History, events: seq<H.Event>, r: H.History) {
    H.Sound(h) && H.Plays(h, events) && H.Outcome(h, events) == r
  }

  lemma Acts(h: H.History, step: Step)
    requires H.Sound(h) && Possible(h.dag, h.journal, step)
    ensures Leads(h, [H.Act(step)], H.After(h, H.Act(step))) && H.Sound(H.After(h, H.Act(step)))
  {
    H.EventSound(h, H.Act(step));
  }

  lemma {:induction false} LeadsOn(
    h: H.History, first: seq<H.Event>, m: H.History, second: seq<H.Event>, r: H.History)
    requires Leads(h, first, m) && Leads(m, second, r)
    ensures Leads(h, first + second, r) && H.Sound(r)
    decreases |first|
  {
    if first == [] {
      assert first + second == second;
    } else {
      var next := H.After(h, first[0]);
      H.EventSound(h, first[0]);
      assert (first + second)[0] == first[0] && (first + second)[1..] == first[1..] + second;
      LeadsOn(next, first[1..], m, second, r);
    }
  }

  /** One more step of a run, to a state that is given. */
  lemma ActsOn(h: H.History, events: seq<H.Event>, m: H.History, step: Step, d: Dag, journal: Journal)
    returns (next: seq<H.Event>, r: H.History)
    requires Leads(h, events, m) && H.Sound(m) && Possible(m.dag, m.journal, step)
    requires Next(m.dag, m.journal, step) == d && JournalAfter(m.dag, m.journal, step) == journal
    ensures next == events + [H.Act(step)] && Leads(h, next, r) && H.Sound(r)
    ensures r.dag == d && r.journal == journal && (step.Begin? ==> r.checkpoint == d)
  {
    Acts(m, step);
    next, r := events + [H.Act(step)], H.After(m, H.Act(step));
    LeadsOn(h, events, m, [H.Act(step)], r);
  }

  // ----- the run

  const TWO_STAGES: Template :=
    Template([Stage("a", false, false, None, ""), Stage("b", true, false, None, "")], [], 1, false)

  const FIRST := Outcome(Attempt("a", "first"), Advance, Some(Response("data", Proceed)))
  const SECOND := Outcome(Attempt("b", "second"), Advance, Some(Response("more", Pause)))

  const ACCEPTED: Journal := map["first" := Record("experiment", "a", "data", None)]

  const START: Dag := H.Started(TWO_STAGES, "experiment", Running)

  const VISITED: Dag :=
    Dag(TWO_STAGES, "experiment", 1, 1, true, map["a" := "first"], map["a" := "experiment"], map[],
        Some(LastResult("first", "data")), None, None, None, {"first"}, Running, Running, false, false, Settling)

  /** The second stage runs after the first one's accepted result. */
  const RUNNING: Dag :=
    VISITED.(position := 2, pendingAdvance := false, usedRequests := {"first", "second"},
             activity := Executing(Attempt("b", "second")))

  /** The second stage has asked for a pause, and nothing is left to do. */
  const PAUSED: Dag :=
    RUNNING.(pendingAdvance := true, results := map["a" := "first", "b" := "second"],
             origins := map["a" := "experiment", "b" := "experiment"], lastResult := Some(LastResult("second", "more")),
             lastDecision := Some(DagDecision("second", "b", "experiment", Pause)),
             mode := Mode.Paused, desired := Mode.Paused, activity := Idle)

  lemma TemplateIsValid()
    ensures ValidTemplate(TWO_STAGES)
  {
  }

  ghost function FromStart(): H.History {
    TemplateIsValid();
    H.Beginning(TWO_STAGES, "experiment", Running)
  }

  /** Some history from the beginning leads there. */
  ghost predicate Reached(r: H.History, d: Dag, journal: Journal) {
    r.dag == d && r.journal == journal && H.Sound(r) && exists events :: Leads(FromStart(), events, r)
  }

  lemma Reaches(m: H.History, step: Step, d: Dag, journal: Journal) returns (r: H.History)
    requires Reached(m, m.dag, m.journal) && Possible(m.dag, m.journal, step)
    requires Next(m.dag, m.journal, step) == d && JournalAfter(m.dag, m.journal, step) == journal
    ensures Reached(r, d, journal) && (step.Begin? ==> r.checkpoint == d)
  {
    var events :| Leads(FromStart(), events, m);
    var next;
    next, r := ActsOn(FromStart(), events, m, step, d, journal);
  }

  const FIRST_RUNNING: Dag := START.(activity := Executing(Attempt("a", "first")), usedRequests := {"first"})

  lemma Prepares(d: Dag)
    requires Inv(d) && d == START
    ensures Possible(d, map[], Prepare) && Next(d, map[], Prepare) == START.(activity := Idle)
  {
  }

  lemma LaunchesFirst(d: Dag)
    requires Inv(d) && d == START.(activity := Idle)
    ensures Possible(d, map[], Launch) && Next(d, map[], Launch) == START.(activity := Launching(false))
  {
  }

  lemma BeginsFirst(d: Dag)
    requires Inv(d) && d == START.(activity := Launching(false))
    ensures Possible(d, map[], Begin("first")) && Next(d, map[], Begin("first")) == FIRST_RUNNING
  {
  }

  lemma AcceptsFirst(d: Dag)
    requires Inv(d) && d == FIRST_RUNNING
    ensures Possible(d, map[], Accept(FIRST)) && Next(d, map[], Accept(FIRST)) == VISITED
    ensures JournalAfter(d, map[], Accept(FIRST)) == ACCEPTED
  {
  }

  lemma SettlesFirst(d: Dag)
    requires Inv(d) && d == VISITED
    ensures Possible(d, ACCEPTED, Settle) && Next(d, ACCEPTED, Settle) == VISITED.(activity := Idle)
  {
  }

  lemma LaunchesSecond(d: Dag)
    requires Inv(d) && d == VISITED.(activity := Idle)
    ensures Possible(d, ACCEPTED, Launch)
    ensures Next(d, ACCEPTED, Launch)
         == VISITED.(position := 2, pendingAdvance := false, activity := Launching(false))
  {
  }

  lemma BeginsSecond(d: Dag)
    requires Inv(d) && d == VISITED.(position := 2, pendingAdvance := false, activity := Launching(false))
    ensures Possible(d, ACCEPTED, Begin("second")) && Next(d, ACCEPTED, Begin("second")) == RUNNING
  {
  }

  lemma AcceptsSecond(d: Dag)
    requires Inv(d) && d == RUNNING
    ensures Possible(d, ACCEPTED, Accept(SECOND)) && Next(d, ACCEPTED, Accept(SECOND)) == PAUSED.(activity := Settling)
  {
    var kept := Retained(d, SECOND);
    assert kept.results == PAUSED.results && kept.origins == PAUSED.origins;
    StageIdsAre(d.template.stages, "b");
  }

  lemma SettlesSecond(d: Dag, journal: Journal)
    requires Inv(d) && d == PAUSED.(activity := Settling)
    ensures Possible(d, journal, Settle) && Next(d, journal, Settle) == PAUSED
  {
  }

  lemma FirstVisit() returns (r: H.History)
    ensures Reached(r, VISITED, ACCEPTED)
  {
    assert Leads(FromStart(), [], FromStart());
    Prepares(START);
    r := Reaches(FromStart(), Prepare, START.(activity := Idle), map[]);
    LaunchesFirst(r.dag);
    r := Reaches(r, Launch, START.(activity := Launching(false)), map[]);
    BeginsFirst(r.dag);
    r := Reaches(r, Begin("first"), FIRST_RUNNING, map[]);
    AcceptsFirst(r.dag);
    r := Reaches(r, Accept(FIRST), VISITED, ACCEPTED);
  }

  /** The second stage gets to run, and is checkpointed. */
  lemma RunningIsReached() returns (r: H.History)
    ensures Reached(r, RUNNING, ACCEPTED) && r.checkpoint == RUNNING
  {
    r := FirstVisit();
    SettlesFirst(r.dag);
    r := Reaches(r, Settle, VISITED.(activity := Idle), ACCEPTED);
    LaunchesSecond(r.dag);
    r := Reaches(r, Launch, VISITED.(position := 2, pendingAdvance := false, activity := Launching(false)), ACCEPTED);
    BeginsSecond(r.dag);
    r := Reaches(r, Begin("second"), RUNNING, ACCEPTED);
  }

  /** And then asks for a pause. */
  lemma PausedIsReached() returns (r: H.History)
    ensures Reached(r, PAUSED, r.journal)
  {
    r := RunningIsReached();
    AcceptsSecond(r.dag);
    r := Reaches(r, Accept(SECOND), PAUSED.(activity := Settling), JournalAfter(r.dag, r.journal, Accept(SECOND)));
    SettlesSecond(r.dag, r.journal);
    r := Reaches(r, Settle, PAUSED, r.journal);
  }

  // ----- a committed result that a crash loses

  function RunningState(): J.Checkpoint {
    J.StateDocument(None, "run", "revision", W.Document(RUNNING), map[], false)
  }

  function StartState(): J.Checkpoint {
    J.StateDocument(None, "run", "revision", W.Document(START), map[], false)
  }

  const CHECKPOINTED := [W.Freeze(RunningState(), "x"), W.Commit("x"), W.Publish("x")]

  /**
   The checkpoint of the running stage is the last one committed; its outcome stops the experiment,
   the services save, and the runner dies: the accepted result is no longer handed on.
   */
  lemma LostResult() returns (r: H.History, committed: W.World, lost: W.World)
    ensures Reached(r, RUNNING, ACCEPTED) && r.checkpoint == RUNNING
    ensures W.Plays(W.Beginning("experiment", StartState()), CHECKPOINTED)
    ensures committed == W.Outcome(W.Beginning("experiment", StartState()), CHECKPOINTED)
    ensures
      var steps := [W.Change(W.StoppedState(committed, RUNNING)), W.ServiceSave];
      W.Plays(committed, steps) && lost == W.Outcome(committed, steps)
    ensures W.Latest(lost).Some? && W.Latest(lost).value.dag.lastResult == Some(LastResult("first", "data"))
    ensures W.RecoveredState(lost).Some? && W.RecoveredState(lost).value.dag.lastResult.None?
  {
    r := RunningIsReached();
    W.CheckpointedWorld("experiment", StartState(), RunningState(), "x");
    committed := W.Outcome(W.Beginning("experiment", StartState()), CHECKPOINTED);
    W.StoppingOutcomeLosesResults(committed, RUNNING);
    W.LatestStays(committed, W.StoppedState(committed, RUNNING));
    lost := W.Outcome(committed, [W.Change(W.StoppedState(committed, RUNNING)), W.ServiceSave]);
  }

  // ----- a step that waits for a run that is over

  /** The run completes while the step saves the cleared pause, and the step is announced to nobody. */
  lemma StepFindsNoRun() returns (r: H.History)
    ensures Reached(r, PAUSED, r.journal)
    ensures Inv(PAUSED) && MayStep(PAUSED, true) && HasCommand(PAUSED.lastDecision, Pause)
    ensures (WithoutPauseKeeps(PAUSED); P.OrdinaryRun(WithoutPause(PAUSED), r.journal, [Complete]))
    ensures (WithoutPauseKeeps(PAUSED);
             var end := P.RunEnd(WithoutPause(PAUSED), r.journal, [Complete]);
             end.activity.Halted? && end.(stepping := true) != Stepped(PAUSED, true))
  {
    r := PausedIsReached();
    P.CompletesMeanwhile(PAUSED, r.journal);
  }
}
