/**
 Reading recovery evidence from the journal page by page while other writers append to it. Every
 scan stops at the boundary that its first page observed, so it must give what one pass over the
 journal of that moment gives.
 */
module JournalScan {
  import opened Options
  import opened Templates
  import D = DagState

  /** What the state document holds: the DAG run, the services and an unfinished template reload. */
  datatype StateDocument = StateDocument(
    checkpointId: Option<string>, runId: string, revision: string, dag: D.Dag,
    services: map<ServiceId, string>, rebuilding: bool)

  const ONE_STAGE := Template([Stage("", false, false, None, "")], [], 1, false)

  /** A saved document always has its cursor inside its own template. */
  type Checkpoint = c: StateDocument | D.CursorInRange(c.dag)
    witness StateDocument(None, "", "",
      D.Dag(ONE_STAGE, "", 1, 1, false, map[], map[], map[], None, None, None, None, {},
            D.Paused, D.Paused, false, false, D.Idle), map[], false)

  datatype Launch = Launch(operation: string, queuedAt: string)

  datatype Happening =
    | Restored
    | RunnerCheckpoint(data: Checkpoint)
    | RebuildCheckpoint(data: Checkpoint)
    | StartStage(launch: Launch)
    | ReloadProgress(revision: string, cycle: nat, preserved: set<StageId>)
    | Other

  /** `experiment` is the experiment named by the event's context. */
  datatype Event = Event(experiment: string, what: Happening)

  datatype Entry = Entry(cursor: nat, event: Event)

  /** What other writers append between two reads; cursors may skip numbers. */
  datatype Arrival = Arrival(gap: nat, event: Event)

  datatype Page = Page(events: seq<Entry>, cursor: nat, boundary: nat) {
    predicate HasMore() { cursor < boundary }
  }

  ghost predicate Ordered(entries: seq<Entry>) {
    && (forall i :: 0 <= i < |entries| ==> 0 < entries[i].cursor)
    && (forall i, j :: 0 <= i < j < |entries| ==> entries[i].cursor < entries[j].cursor)
  }

  /** The cursor of a reader that has taken `n` entries. */
  function CursorAt(entries: seq<Entry>, n: nat): nat
    requires n <= |entries|
  {
    if n == 0 then 0 else entries[n - 1].cursor
  }

  function LastCursor(entries: seq<Entry>): nat {
    CursorAt(entries, |entries|)
  }

  function Extended(entries: seq<Entry>, arrivals: seq<Arrival>): (r: seq<Entry>)
    requires Ordered(entries)
    ensures Ordered(r) && entries <= r
    decreases |arrivals|
  {
    if arrivals == [] then entries
    else
      var next := Entry(LastCursor(entries) + 1 + arrivals[0].gap, arrivals[0].event);
      Extended(entries + [next], arrivals[1..])
  }

  function Events(entries: seq<Entry>): (r: seq<Event>)
    ensures |r| == |entries| && forall i :: 0 <= i < |r| ==> r[i] == entries[i].event
  {
    seq(|entries|, i requires 0 <= i < |entries| => entries[i].event)
  }

  /**
   A page starts at the first entry after the cursor, holds at least one entry when there is any,
   and reports its own last cursor and the last one in the journal.
   */
  ghost predicate IsPage(entries: seq<Entry>, after: nat, start: nat, page: Page) {
    && start + |page.events| <= |entries| && page.events == entries[start..start + |page.events|]
    && (forall k :: 0 <= k < |entries| ==> (k < start <==> entries[k].cursor <= after))
    && (page.events == [] ==> start == |entries|)
    && page.cursor == (if page.events == [] then after else LastCursor(page.events))
    && page.boundary == LastCursor(entries)
  }

  lemma BehindCursor(entries: seq<Entry>, after: nat, i: nat)
    requires Ordered(entries) && i <= |entries| && forall k :: 0 <= k < i ==> entries[k].cursor <= after
    requires i < |entries| ==> entries[i].cursor > after
    ensures forall k :: 0 <= k < |entries| ==> (k < i <==> entries[k].cursor <= after)
  {
  }

  /** One pass over the first `n` events, oldest first. */
  function OnePass<S>(step: (S, Event) -> S, initial: S, events: seq<Event>, n: nat): S
    requires n <= |events|
  {
    if n == 0 then initial else step(OnePass(step, initial, events, n - 1), events[n - 1])
  }

  /** One pass over a whole journal. */
  function Whole<S>(step: (S, Event) -> S, initial: S, entries: seq<Entry>): S {
    OnePass(step, initial, Events(entries), |entries|)
  }

  function Least(a: nat, b: nat): nat {
    if a < b then a else b
  }

  /**
   The journal as a reader sees it. `arrivals` and `sizes` are whatever other writers and the
   page limits make of the reads to come.
   */
  class Journal {
    var entries: seq<Entry>
    var pagesRead: nat
    const arrivals: nat -> seq<Arrival>
    const sizes: nat -> nat

    constructor (entries: seq<Entry>, arrivals: nat -> seq<Arrival>, sizes: nat -> nat)
      requires Ordered(entries)
      ensures Valid() && this.entries == entries && this.arrivals == arrivals && this.sizes == sizes
    {
      this.entries, this.pagesRead, this.arrivals, this.sizes := entries, 0, arrivals, sizes;
    }

    ghost predicate Valid()
      reads this
    {
      Ordered(entries)
    }

    /** The journal at the moment the next read begins. */
    ghost function Observed(): seq<Entry>
      requires Valid()
      reads this
    {
      Extended(entries, arrivals(pagesRead))
    }

    /** One consistent read of the entries after a cursor. */
    method ReadEvents(after: nat) returns (page: Page, ghost start: nat)
      requires Valid()
      modifies this
      ensures Valid() && entries == old(Observed()) && old(entries) <= entries
      ensures IsPage(entries, after, start, page)
    {
      entries := Extended(entries, arrivals(pagesRead));
      var size := sizes(pagesRead);
      pagesRead := pagesRead + 1;
      var i := 0;
      while i < |entries| && entries[i].cursor <= after
        invariant i <= |entries|
        invariant forall k :: 0 <= k < i ==> entries[k].cursor <= after
      {
        i := i + 1;
      }
      start := i;
      var available := |entries| - i;
      var taken := if size == 0 && available > 0 then 1 else if size < available then size else available;
      var events := entries[i..i + taken];
      page := Page(events, if events == [] then after else LastCursor(events), LastCursor(entries));
      BehindCursor(entries, after, i);
    }

    /** Reads one page and takes its events up to the boundary, which the first page sets. */
    method ScanPage<S>(
      step: (S, Event) -> S, state: S, after: nat, boundary: Option<nat>,
      ghost initial: S, ghost observed: seq<Entry>, ghost done: nat)
      returns (next: S, cursor: nat, limit: nat, more: bool, ghost reached: nat)
      requires Valid()
      requires if boundary.None? then Observed() == observed
               else observed <= entries && boundary == Some(LastCursor(observed))
      requires done <= |observed| && after == CursorAt(observed, done)
      requires state == OnePass(step, initial, Events(observed), done)
      modifies this
      ensures Valid() && observed <= entries && limit == LastCursor(observed)
      ensures reached <= |observed| && next == OnePass(step, initial, Events(observed), reached)
      ensures if more then reached > done && cursor == CursorAt(observed, reached) else reached == |observed|
    {
      var page, start := ReadEvents(after);
      limit := if boundary.None? then page.boundary else boundary.value;
      StartsWhereItStopped(observed, entries, done, after, start, page);
      next := AbsorbPage(step, state, page, limit, initial, observed, entries, done);
      PageEnd(observed, entries, done, after, page);
      cursor := page.cursor;
      more := cursor < limit && page.HasMore();
      reached := Least(done + |page.events|, |observed|);
    }

    /** The paging loop of all three readers. */
    method Scan<S>(step: (S, Event) -> S, initial: S) returns (state: S)
      requires Valid()
      modifies this
      ensures Valid() && old(Observed()) <= entries
      ensures state == Whole(step, initial, old(Observed()))
    {
      ghost var observed := Observed();
      ghost var done: nat := 0;
      var after: nat, boundary: Option<nat>, more := 0, None, true;
      state := initial;
      while more
        invariant Valid()
        invariant boundary.None? ==> more && done == 0 && Observed() == observed
        invariant boundary.Some? ==> observed <= entries && boundary == Some(LastCursor(observed))
        invariant done <= |observed| && state == OnePass(step, initial, Events(observed), done)
        invariant if more then after == CursorAt(observed, done) else done == |observed|
        decreases more, |observed| - done
      {
        var limit;
        state, after, limit, more, done := ScanPage(step, state, after, boundary, initial, observed, done);
        boundary := Some(limit);
      }
    }
  }

  /** Takes the events of one page up to the boundary. */
  method AbsorbPage<S>(
    step: (S, Event) -> S, state: S, page: Page, boundary: nat,
    ghost initial: S, ghost observed: seq<Entry>, ghost entries: seq<Entry>, ghost done: nat)
    returns (next: S)
    requires Ordered(entries) && observed <= entries && boundary == LastCursor(observed)
    requires done <= |observed| && done + |page.events| <= |entries|
    requires page.events == entries[done..done + |page.events|]
    requires state == OnePass(step, initial, Events(observed), done)
    ensures next == OnePass(step, initial, Events(observed), Least(done + |page.events|, |observed|))
  {
    next := state;
    var j: nat := 0;
    while j < |page.events|
      invariant j <= |page.events| && done + j <= |observed|
      invariant next == OnePass(step, initial, Events(observed), done + j)
    {
      assert page.events[j] == entries[done + j];
      InsideBoundary(observed, entries, done + j);
      if page.events[j].cursor > boundary {
        return;
      }
      next := step(next, page.events[j].event);
      j := j + 1;
    }
  }

  lemma StartsWhereItStopped(
    observed: seq<Entry>, entries: seq<Entry>, done: nat, after: nat, start: nat, page: Page)
    requires Ordered(entries) && observed <= entries && done <= |observed|
    requires after == CursorAt(observed, done) && IsPage(entries, after, start, page)
    ensures start == done
  {
    if done > 0 { assert entries[done - 1].cursor == after; }
    if done < |entries| { assert entries[done].cursor > after; }
  }

  lemma InsideBoundary(observed: seq<Entry>, entries: seq<Entry>, k: nat)
    requires Ordered(entries) && observed <= entries && k < |entries|
    ensures entries[k].cursor <= LastCursor(observed) <==> k < |observed|
  {
    if observed != [] { assert LastCursor(observed) == entries[|observed| - 1].cursor; }
  }

  /** A page that ends before the boundary ends inside the observed journal and made progress. */
  lemma PageEnd(observed: seq<Entry>, entries: seq<Entry>, done: nat, after: nat, page: Page)
    requires Ordered(entries) && observed <= entries && done <= |observed|
    requires after == CursorAt(observed, done) && IsPage(entries, after, done, page)
    ensures page.cursor < LastCursor(observed) <==> done + |page.events| < |observed|
    ensures page.cursor < LastCursor(observed) ==> page.HasMore() && page.events != []
    ensures page.cursor < LastCursor(observed) ==> page.cursor == CursorAt(observed, done + |page.events|)
  {
    if page.events == [] {
      assert observed[..done] == observed;
    } else {
      var last := done + |page.events| - 1;
      assert page.cursor == entries[last].cursor;
      if observed != [] { assert LastCursor(observed) == entries[|observed| - 1].cursor; }
    }
  }

  // ----- the evidence for recovery

  datatype Evidence = Evidence(latest: Option<Checkpoint>, launches: seq<Launch>)

  predicate IsCheckpoint(e: Event) {
    e.what.RunnerCheckpoint? || e.what.RebuildCheckpoint?
  }

  function Absorbed(id: string, e: Evidence, event: Event): Evidence {
    if event.experiment != id then e
    else match event.what
      case Restored => Evidence(None, [])
      case RunnerCheckpoint(data) => Evidence(Some(data), [])
      case RebuildCheckpoint(data) => Evidence(Some(data), [])
      case StartStage(launch) => e.(launches := e.launches + [launch])
      case _ => e
  }

  function EvidenceOf(id: string, events: seq<Event>, n: nat): Evidence
    requires n <= |events|
  {
    OnePass((e, event) => Absorbed(id, e, event), Evidence(None, []), events, n)
  }

  function Committed(id: string, entries: seq<Entry>): Evidence {
    EvidenceOf(id, Events(entries), |entries|)
  }

  method ReadRecoveryEvidence(journal: Journal, id: string) returns (e: Evidence)
    requires journal.Valid()
    modifies journal
    ensures journal.Valid() && e == Committed(id, old(journal.Observed()))
  {
    e := journal.Scan((e, event) => Absorbed(id, e, event), Evidence(None, []));
  }

  /** What one more event does to the evidence. */
  lemma AppendedEvent(id: string, events: seq<Event>, event: Event)
    ensures EvidenceOf(id, events + [event], |events| + 1) == Absorbed(id, EvidenceOf(id, events, |events|), event)
  {
    EvidenceOfPrefix(id, events, event, |events|);
  }

  lemma {:induction false} EvidenceOfPrefix(id: string, events: seq<Event>, event: Event, n: nat)
    requires n <= |events|
    ensures EvidenceOf(id, events + [event], n) == EvidenceOf(id, events, n)
  {
    if n > 0 {
      EvidenceOfPrefix(id, events, event, n - 1);
    }
  }

  /** An event after which nothing earlier counts. */
  predicate Resets(id: string, e: Event) {
    e.experiment == id && (e.what.Restored? || IsCheckpoint(e))
  }

  /** The launches requested from event `from` on, before event `n`. */
  function LaunchesOf(id: string, events: seq<Event>, from: nat, n: nat): seq<Launch>
    requires from <= n <= |events|
  {
    if n == from then []
    else
      var last := events[n - 1];
      LaunchesOf(id, events, from, n - 1)
      + (if last.experiment == id && last.what.StartStage? then [last.what.launch] else [])
  }

  /**
   The evidence is decided by the last reset alone: its data when it is a checkpoint, nothing when
   it is a restoration, and in either case exactly the launches after it.
   */
  lemma {:induction false} EvidenceMeaning(id: string, events: seq<Event>, n: nat, i: nat)
    requires i < n <= |events| && Resets(id, events[i])
    requires forall k :: i < k < n ==> !Resets(id, events[k])
    ensures EvidenceOf(id, events, n).latest
         == if IsCheckpoint(events[i]) then Some(events[i].what.data) else None
    ensures EvidenceOf(id, events, n).launches == LaunchesOf(id, events, i + 1, n)
  {
    if i < n - 1 {
      EvidenceMeaning(id, events, n - 1, i);
    }
  }

  /** Without a reset there is no checkpoint, and every launch counts. */
  lemma {:induction false} EvidenceWithoutReset(id: string, events: seq<Event>, n: nat)
    requires n <= |events| && forall k :: 0 <= k < n ==> !Resets(id, events[k])
    ensures EvidenceOf(id, events, n) == Evidence(None, LaunchesOf(id, events, 0, n))
  {
    if n > 0 {
      EvidenceWithoutReset(id, events, n - 1);
    }
  }

  // ----- the checkpoint that replaces an unreadable state file

  function Bootstrapped(id: string, state: Option<Checkpoint>, event: Event): Option<Checkpoint> {
    if event.experiment != id then state
    else if IsCheckpoint(event) then Some(event.what.data)
    else if event.what.Restored? then None
    else state
  }

  /** Finds the checkpoint that `ReadRecoveryEvidence` would find, and fails when there is none. */
  method ReadRecoveryCheckpoint(journal: Journal, id: string) returns (r: Result<Checkpoint, string>)
    requires journal.Valid()
    modifies journal
    ensures journal.Valid()
    ensures match Committed(id, old(journal.Observed())).latest
            case Some(committed) => r == Success(committed)
            case None => r.Failure?
  {
    ghost var entries := journal.Observed();
    var state := journal.Scan((s, event) => Bootstrapped(id, s, event), None);
    BootstrapAgrees(id, Events(entries), |entries|);
    r := if state.Some? then Success(state.value)
         else Failure("Recovery requires a valid saved state or committed journal checkpoint.");
  }

  lemma {:induction false} BootstrapAgrees(id: string, events: seq<Event>, n: nat)
    requires n <= |events|
    ensures OnePass((s, event) => Bootstrapped(id, s, event), None, events, n) == EvidenceOf(id, events, n).latest
  {
    if n > 0 {
      BootstrapAgrees(id, events, n - 1);
    }
  }

  // ----- the stages already done when a template is reloaded

  predicate Begins(id: string, i: nat)
    requires i <= |id|
  {
    i < |id| && (i == 0 || id[i - 1] == ':')
  }

  /** The ids that begin at a colon before position `limit`. */
  function Ancestors(id: string, limit: nat): set<string>
    requires limit <= |id|
  {
    set i | 0 <= i < limit && Begins(id, i) :: id[i..]
  }

  /** The experiment and the ones it was restored from: what is left after each colon. */
  method Lineage(id: string) returns (lineage: set<string>)
    ensures lineage == Ancestors(id, |id|)
  {
    lineage := {};
    var ancestor := id;
    ghost var at: nat := 0;
    while ancestor != ""
      invariant at <= |id| && ancestor == id[at..]
      invariant ancestor == "" || Begins(id, at)
      invariant lineage == Ancestors(id, at)
      decreases |ancestor|
    {
      var k: nat := 0;
      while k < |ancestor| && ancestor[k] != ':'
        invariant k <= |ancestor| && forall m :: at <= m < at + k ==> id[m] != ':'
      {
        k := k + 1;
      }
      ghost var next := if k < |ancestor| then at + k + 1 else |id|;
      assert Ancestors(id, next) == Ancestors(id, at) + {id[at..]} by {
        OneAncestor(id, at, next);
      }
      lineage := lineage + {ancestor};
      ancestor := if k < |ancestor| then ancestor[k + 1..] else "";
      at := next;
    }
  }

  lemma OneAncestor(id: string, at: nat, next: nat)
    requires at < next <= |id| && Begins(id, at)
    requires forall m :: at <= m < next - 1 ==> id[m] != ':'
    ensures Ancestors(id, next) == Ancestors(id, at) + {id[at..]}
  {
    forall a ensures a in Ancestors(id, next) <==> a in Ancestors(id, at) + {id[at..]} {
      if a in Ancestors(id, next) {
        var i :| 0 <= i < next && Begins(id, i) && a == id[i..];
        if i >= at { assert i == at; }
      }
    }
  }

  /** What one event says was completed in this cycle of this revision. */
  function Completes(lineage: set<string>, revision: string, cycle: nat, event: Event): set<StageId> {
    match event.what
    case RunnerCheckpoint(data) =>
      if data.dag.experimentId in lineage && data.revision == revision && data.dag.cycle == cycle
         && data.dag.pendingAdvance
      then {D.CursorStage(data.dag).stageId} else {}
    case ReloadProgress(rev, cyc, preserved) =>
      if event.experiment in lineage && rev == revision && cyc == cycle then preserved else {}
    case _ => {}
  }

  /**
   A checkpoint vouches for the stage under its cursor that is about to be advanced, a reload for what
   it preserved; both only for their own revision and cycle, and within the lineage.
   */
  lemma CompletesExactly(lineage: set<string>, revision: string, cycle: nat, event: Event, s: StageId)
    ensures s in Completes(lineage, revision, cycle, event) <==>
              || (&& event.what.RunnerCheckpoint?
                  && event.what.data.dag.experimentId in lineage && event.what.data.revision == revision
                  && event.what.data.dag.cycle == cycle && event.what.data.dag.pendingAdvance
                  && event.what.data.dag.template.stages[event.what.data.dag.position - 1].stageId == s)
              || (&& event.what.ReloadProgress? && event.experiment in lineage
                  && event.what.revision == revision && event.what.cycle == cycle && s in event.what.preserved)
  {
  }

  function Completing(lineage: set<string>, revision: string, cycle: nat)
    : (set<StageId>, Event) -> set<StageId>
  {
    (done, event) => done + Completes(lineage, revision, cycle, event)
  }

  /** Adds to the known completions exactly those that some observed event vouches for. */
  method ReadReloadProgress(journal: Journal, id: string, revision: string, cycle: nat, completed: set<StageId>)
    returns (r: set<StageId>)
    requires journal.Valid()
    modifies journal
    ensures journal.Valid()
    ensures forall s :: s in r <==>
              (s in completed
               || exists k :: 0 <= k < |old(journal.Observed())|
                    && s in Completes(Ancestors(id, |id|), revision, cycle, old(journal.Observed())[k].event))
  {
    var lineage := Lineage(id);
    ghost var entries := journal.Observed();
    ProgressMeaning(lineage, revision, cycle, completed, Events(entries), |entries|);
    r := journal.Scan(Completing(lineage, revision, cycle), completed);
  }

  lemma {:induction false} ProgressMeaning(
    lineage: set<string>, revision: string, cycle: nat, completed: set<StageId>, events: seq<Event>, n: nat)
    requires n <= |events|
    ensures forall s :: s in OnePass(Completing(lineage, revision, cycle), completed, events, n) <==>
              (s in completed || exists k :: 0 <= k < n && s in Completes(lineage, revision, cycle, events[k]))
  {
    if n > 0 {
      ProgressMeaning(lineage, revision, cycle, completed, events, n - 1);
    }
  }
}
