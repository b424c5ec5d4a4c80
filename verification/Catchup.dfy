/** Scheduled runs and retention (createDueRuns and scheduleAnchor in internal/scheduler/scheduler.go,
    LatestScheduledRun and PruneRuns in internal/store/postgres/postgres.go).

    The next period is computed from the newest schedule-triggered run that still exists. Pruning never
    removes that run, so all the periods a DAG was ever started for form one chain without gap or
    repeat. `next` is the schedule: any function that moves forward. */
module Catchup {
  import opened Options
  import opened RunStates

  datatype Run = Run(dag: string, date: int, scheduled: bool, state: RunState, finishedAt: Option<int>)

  type Runs = map<string, Run>

  datatype Schedule = Schedule(catchup: bool, start: int, maxActive: nat)

  /** What the tick finds of the DAG: in the cache whether it has a schedule, how many tasks, and whether it is
      paused; `active` is the tick's count of its queued and running runs, and `live` what the insert finds in
      the dags table. */
  datatype Sight = Sight(scheduled: bool, tasks: nat, paused: bool, active: nat, live: bool)
  {
    predicate Opens() {
      scheduled && tasks > 0 && !paused
    }
  }

  // ---- the newest scheduled run ----

  predicate IsScheduled(runs: Runs, dag: string, id: string) {
    id in runs && runs[id].dag == dag && runs[id].scheduled
  }

  ghost predicate IsLatest(runs: Runs, dag: string, latest: Option<int>) {
    match latest
    case None => forall id :: !IsScheduled(runs, dag, id)
    case Some(date) =>
      && (exists id :: IsScheduled(runs, dag, id) && runs[id].date == date)
      && (forall id :: IsScheduled(runs, dag, id) ==> runs[id].date <= date)
  }

  lemma LatestUnique(runs: Runs, dag: string, a: Option<int>, b: Option<int>)
    requires IsLatest(runs, dag, a) && IsLatest(runs, dag, b)
    ensures a == b
  {
    if a.Some? {
      var id :| IsScheduled(runs, dag, id) && runs[id].date == a.value;
    }
    if b.Some? {
      var id :| IsScheduled(runs, dag, id) && runs[id].date == b.value;
    }
  }

  method LatestScheduledRun(runs: Runs, dag: string) returns (latest: Option<int>)
    ensures IsLatest(runs, dag, latest)
  {
    latest := None;
    var left := runs.Keys;
    while left != {}
      invariant left <= runs.Keys
      invariant latest.None? ==> forall id :: id !in left ==> !IsScheduled(runs, dag, id)
      invariant latest.Some? ==> exists id :: IsScheduled(runs, dag, id) && runs[id].date == latest.value
      invariant latest.Some? ==> forall id :: id !in left && IsScheduled(runs, dag, id) ==>
                runs[id].date <= latest.value
      decreases |left|
    {
      var id :| id in left;
      left := left - {id};
      if IsScheduled(runs, dag, id) && (latest.None? || runs[id].date > latest.value) {
        latest := Some(runs[id].date);
      }
    }
  }

  function AnchorOf(s: Schedule, latest: Option<int>, boot: int): int {
    match latest
    case Some(date) => date
    case None => if s.catchup then s.start - 1 else boot
  }

  // ---- creating the next run ----

  predicate Taken(runs: Runs, id: string, dag: string, date: int) {
    id in runs || exists other :: other in runs && runs[other].dag == dag && runs[other].date == date
  }

  function QueuedRuns(runs: Runs): nat {
    |set id | id in runs && runs[id].state.RunQueued?|
  }

  /** The run for `date` is created when the DAG is open, the period has come, the DAG and the queue have room,
      nothing has the id or the date, and the DAG has not been deleted. */
  predicate Creates(runs: Runs, s: Schedule, sight: Sight, id: string, dag: string, date: int, now: int,
                    queueLimit: int)
  {
    && sight.Opens() && now >= date && sight.active < s.maxActive
    && sight.live && QueuedRuns(runs) < queueLimit && !Taken(runs, id, dag, date)
  }

  function NewRun(dag: string, date: int): Run {
    Run(dag, date, true, RunQueued, None)
  }

  /** createDueRuns, for one DAG. */
  method CreateDueRun(next: int -> int, s: Schedule, sight: Sight, runs: Runs, id: string, dag: string,
                      now: int, boot: int, queueLimit: int)
    returns (after: Runs)
    ensures forall latest :: IsLatest(runs, dag, latest) ==>
              var date := next(AnchorOf(s, latest, boot));
              && (after != runs <==>
                  && sight.scheduled && sight.tasks > 0 && !sight.paused && sight.live && date <= now
                  && sight.active < s.maxActive && QueuedRuns(runs) < queueLimit
                  && id !in runs && forall i :: i in runs ==> runs[i].dag != dag || runs[i].date != date)
              && (after != runs ==> after == runs[id := Run(dag, date, true, RunQueued, None)])
    ensures forall latest :: IsLatest(runs, dag, latest) ==>
              var date := next(AnchorOf(s, latest, boot));
              after == if Creates(runs, s, sight, id, dag, date, now, queueLimit) then runs[id := NewRun(dag, date)]
                       else runs
  {
    if !sight.scheduled || sight.tasks == 0 || sight.paused {
      return runs;
    }
    var found := LatestScheduledRun(runs, dag);
    forall latest | IsLatest(runs, dag, latest) ensures latest == found {
      LatestUnique(runs, dag, latest, found);
    }
    var anchor := if found.Some? then found.value else if s.catchup then s.start - 1 else boot;
    var date := next(anchor);
    if now < date || sight.active >= s.maxActive {
      return runs;
    }
    // CreateDagRunBounded
    if !sight.live || QueuedRuns(runs) >= queueLimit || Taken(runs, id, dag, date) {
      return runs;
    }
    after := runs[id := NewRun(dag, date)];
    assert id in after && id !in runs;
  }

  // ---- pruning ----

  ghost predicate IsNewestScheduled(runs: Runs, id: string) {
    id in runs && runs[id].scheduled && IsLatest(runs, runs[id].dag, Some(runs[id].date))
  }

  ghost predicate Prunable(runs: Runs, cutoff: int, id: string) {
    && id in runs && runs[id].finishedAt.Some? && runs[id].finishedAt.value < cutoff
    && runs[id].state.Ended() && !IsNewestScheduled(runs, id)
  }

  ghost function PrunableIds(runs: Runs, cutoff: int): set<string> {
    set id | id in runs && Prunable(runs, cutoff, id)
  }

  /** dag_runs, and by run id the rows that hang on it. */
  class RunTables {
    var runs: Runs
    var taskInstances: map<string, seq<string>>
    var events: set<string>

    constructor (runs: Runs)
      ensures this.runs == runs && taskInstances == map[] && events == {}
    {
      this.runs, taskInstances, events := runs, map[], {};
    }

    /** The select of PruneRuns. */
    method FindPrunable(cutoff: int) returns (pruned: seq<string>)
      ensures forall id :: id in pruned <==> Prunable(runs, cutoff, id)
    {
      pruned := [];
      var left := runs.Keys;
      while left != {}
        invariant left <= runs.Keys
        invariant forall id :: id in pruned <==> id !in left && Prunable(runs, cutoff, id)
        decreases |left|
      {
        var id :| id in left;
        left := left - {id};
        var r := runs[id];
        var latest := LatestScheduledRun(runs, r.dag);
        assert r.scheduled ==> (latest == Some(r.date) <==> IsNewestScheduled(runs, id)) by {
          if r.scheduled && IsNewestScheduled(runs, id) { LatestUnique(runs, r.dag, latest, Some(r.date)); }
        }
        if r.finishedAt.Some? && r.finishedAt.value < cutoff && r.state.Ended() &&
            !(r.scheduled && latest == Some(r.date)) {
          pruned := pruned + [id];
        }
      }
    }

    /** PruneRuns: one transaction, deleting in chunks of 500. */
    method PruneRuns(cutoff: int) returns (pruned: seq<string>)
      modifies this
      ensures forall id :: id in pruned <==> Prunable(old(runs), cutoff, id)
      ensures runs == old(runs) - PrunableIds(old(runs), cutoff)
      ensures forall id :: id in old(runs) ==>
                (id !in runs <==>
                 && old(runs)[id].finishedAt.Some? && old(runs)[id].finishedAt.value < cutoff
                 && old(runs)[id].state != RunQueued && old(runs)[id].state != RunRunning
                 && !IsNewestScheduled(old(runs), id))
      ensures taskInstances == old(taskInstances) - PrunableIds(old(runs), cutoff)
      ensures events == old(events) - PrunableIds(old(runs), cutoff)
    {
      pruned := FindPrunable(cutoff);
      var i := 0;
      while i < |pruned|
        invariant 0 <= i <= |pruned|
        invariant runs == old(runs) - (set id | id in pruned[..i])
        invariant taskInstances == old(taskInstances) - (set id | id in pruned[..i])
        invariant events == old(events) - (set id | id in pruned[..i])
      {
        var end := if i + 500 > |pruned| then |pruned| else i + 500;
        var ids := set id | id in pruned[i..end];
        assert pruned[..end] == pruned[..i] + pruned[i..end];
        assert (set id | id in pruned[..end]) == (set id | id in pruned[..i]) + ids;
        events := events - ids;
        taskInstances := taskInstances - ids;
        runs := runs - ids;
        i := end;
      }
      assert pruned[..i] == pruned;
      assert (set id | id in pruned) == PrunableIds(old(runs), cutoff);
    }
  }

  // ---- histories ----

  /** `created` records, per DAG, the dates of the scheduled runs ever created, in order. */
  datatype State = State(runs: Runs, created: map<string, seq<int>>)

  datatype Step =
    | Due(dag: string, sight: Sight, id: string, now: int, boot: int, queueLimit: int)
    | Other(id: string, run: Run)
    | Moves(id: string, state: RunState, finishedAt: Option<int>)
    | Prune(cutoff: int)

  /** The schedules and `next` are fixed for the history. */
  datatype Config = Config(next: int -> int, schedules: map<string, Schedule>)

  ghost predicate Init(s: State) {
    s.runs == map[] && s.created == map[]
  }

  function Created(s: State, dag: string): seq<int> {
    if dag in s.created then s.created[dag] else []
  }

  ghost function AfterDue(c: Config, s: State, step: Step, latest: Option<int>): State
    requires step.Due? && step.dag in c.schedules
  {
    var schedule := c.schedules[step.dag];
    var date := c.next(AnchorOf(schedule, latest, step.boot));
    if Creates(s.runs, schedule, step.sight, step.id, step.dag, date, step.now, step.queueLimit)
    then State(s.runs[step.id := NewRun(step.dag, date)], s.created[step.dag := Created(s, step.dag) + [date]])
    else s
  }

  ghost predicate Next(c: Config, s: State, step: Step, s': State) {
    match step
    case Due(dag, sight, id, now, boot, queueLimit) =>
      dag in c.schedules &&
      exists latest :: IsLatest(s.runs, dag, latest) && s' == AfterDue(c, s, step, latest)
    case Other(id, run) =>
      !run.scheduled && !Taken(s.runs, id, run.dag, run.date) && s' == s.(runs := s.runs[id := run])
    case Moves(id, state, finishedAt) =>
      id in s.runs && s' == s.(runs := s.runs[id := s.runs[id].(state := state, finishedAt := finishedAt)])
    case Prune(cutoff) =>
      s' == s.(runs := s.runs - PrunableIds(s.runs, cutoff))
  }

  ghost predicate History(c: Config, trace: seq<State>, steps: seq<Step>) {
    && |trace| == |steps| + 1 && Init(trace[0])
    && forall i :: 0 <= i < |steps| ==> Next(c, trace[i], steps[i], trace[i + 1])
  }

  /** Each date is the period after the one before it. */
  ghost predicate Chain(next: int -> int, dates: seq<int>) {
    forall i :: 0 < i < |dates| ==> dates[i] == next(dates[i - 1])
  }

  ghost predicate Forward(next: int -> int) {
    forall t :: next(t) > t
  }

  /** The last date created is that of the newest scheduled run, which is still there. */
  ghost predicate Anchored(s: State, dag: string) {
    IsLatest(s.runs, dag, Last(s, dag))
  }

  ghost predicate Chained(c: Config, s: State, dag: string) {
    var dates := Created(s, dag);
    && Chain(c.next, dates)
    && (dates != [] && dag in c.schedules && c.schedules[dag].catchup ==>
        dates[0] == c.next(c.schedules[dag].start - 1))
  }

  ghost function Last(s: State, dag: string): Option<int> {
    if Created(s, dag) == [] then None else Some(Created(s, dag)[|Created(s, dag)| - 1])
  }

  lemma CreatedNewest(runs: Runs, id: string, dag: string, date: int, latest: Option<int>)
    requires IsLatest(runs, dag, latest) && id !in runs && (latest.Some? ==> date > latest.value)
    ensures IsLatest(runs[id := NewRun(dag, date)], dag, Some(date))
  {
    var after := runs[id := NewRun(dag, date)];
    assert IsScheduled(after, dag, id);
    assert forall i :: i != id && IsScheduled(after, dag, i) ==> IsScheduled(runs, dag, i);
  }

  lemma DueStep(c: Config, s: State, step: Step, s': State, dag: string)
    requires Forward(c.next) && Next(c, s, step, s') && step.Due?
    requires Anchored(s, dag) && Chained(c, s, dag)
    ensures Anchored(s', dag) && Chained(c, s', dag)
  {
    if dag == step.dag && s' != s {
      var latest :| IsLatest(s.runs, dag, latest) && s' == AfterDue(c, s, step, latest);
      LatestUnique(s.runs, dag, latest, Last(s, dag));
      CreatedNewest(s.runs, step.id, dag, c.next(AnchorOf(c.schedules[dag], latest, step.boot)), latest);
    } else {
      OtherDagUntouched(s, s', dag, step.id);
    }
  }

  lemma OtherDagUntouched(s: State, s': State, dag: string, id: string)
    requires Anchored(s, dag) && Created(s', dag) == Created(s, dag)
    requires forall i :: IsScheduled(s'.runs, dag, i) <==> IsScheduled(s.runs, dag, i)
    requires forall i :: IsScheduled(s.runs, dag, i) ==> i in s'.runs && s'.runs[i].date == s.runs[i].date
    ensures Anchored(s', dag)
  {
    if Created(s, dag) != [] {
      var last := Created(s, dag)[|Created(s, dag)| - 1];
      var i :| IsScheduled(s.runs, dag, i) && s.runs[i].date == last;
      assert IsScheduled(s'.runs, dag, i) && s'.runs[i].date == last;
    }
  }

  /** The newest scheduled run of every DAG survives pruning, however old it is. */
  lemma PruneKeepsAnchor(runs: Runs, cutoff: int, dag: string, latest: Option<int>)
    requires IsLatest(runs, dag, latest)
    ensures IsLatest(runs - PrunableIds(runs, cutoff), dag, latest)
  {
    var after := runs - PrunableIds(runs, cutoff);
    assert forall id :: IsScheduled(after, dag, id) ==> IsScheduled(runs, dag, id) && after[id] == runs[id];
    if latest.Some? {
      var id :| IsScheduled(runs, dag, id) && runs[id].date == latest.value;
      assert IsNewestScheduled(runs, id);
      assert IsScheduled(after, dag, id) && after[id].date == latest.value;
    }
  }

  lemma ChainStep(c: Config, s: State, step: Step, s': State, dag: string)
    requires Forward(c.next) && Next(c, s, step, s') && Anchored(s, dag) && Chained(c, s, dag)
    ensures Anchored(s', dag) && Chained(c, s', dag)
  {
    match step
    case Due(_, _, _, _, _, _) => DueStep(c, s, step, s', dag);
    case Other(id, _) => OtherDagUntouched(s, s', dag, id);
    case Moves(id, _, _) => OtherDagUntouched(s, s', dag, id);
    case Prune(cutoff) =>
      PruneKeepsAnchor(s.runs, cutoff, dag, Last(s, dag));
  }

  /** Over any history, with pruning at any cutoffs and any other runs around, the dates a DAG was ever
      scheduled for are a chain of consecutive periods; with catchup it begins at the first one. */
  lemma {:induction false} DatesFormChain(c: Config, trace: seq<State>, steps: seq<Step>, i: nat, dag: string)
    requires Forward(c.next) && History(c, trace, steps) && i < |trace|
    ensures Chained(c, trace[i], dag) && Anchored(trace[i], dag)
    decreases i
  {
    if i > 0 {
      DatesFormChain(c, trace, steps, i - 1, dag);
      ChainStep(c, trace[i - 1], steps[i - 1], trace[i], dag);
    }
  }

  /** The step makes the next run of the DAG: its period has come, the DAG has a schedule and tasks and is neither
      paused nor deleted, and both it and the queue have room. The first run of a DAG without catchup is for a
      period after the scheduler's start. */
  ghost predicate Makes(c: Config, s: State, step: Step, dag: string, date: int) {
    && step.Due? && step.dag == dag && dag in c.schedules
    && date <= step.now && step.sight.scheduled && step.sight.tasks > 0 && !step.sight.paused && step.sight.live
    && step.sight.active < c.schedules[dag].maxActive && QueuedRuns(s.runs) < step.queueLimit
    && (Created(s, dag) == [] && !c.schedules[dag].catchup ==> date == c.next(step.boot) > step.boot)
  }

  lemma MadeByDue(c: Config, s: State, step: Step, s': State, dag: string)
    requires Forward(c.next) && Next(c, s, step, s') && Anchored(s, dag)
    ensures Created(s', dag) == Created(s, dag) ||
            exists date :: Created(s', dag) == Created(s, dag) + [date] && Makes(c, s, step, dag, date)
  {
    if step.Due? && step.dag == dag && Created(s', dag) != Created(s, dag) {
      var latest :| IsLatest(s.runs, dag, latest) && s' == AfterDue(c, s, step, latest);
      LatestUnique(s.runs, dag, latest, Last(s, dag));
      var date := c.next(AnchorOf(c.schedules[dag], latest, step.boot));
      assert Created(s', dag) == Created(s, dag) + [date] && Makes(c, s, step, dag, date);
    }
  }

  /** No run is created ahead of its time, for a DAG that should not run, or past a limit: over any history each
      date was created by a step that met all of it. */
  lemma {:induction false} CreatedWhenDue(c: Config, trace: seq<State>, steps: seq<Step>, i: nat, dag: string, k: nat)
    requires Forward(c.next) && History(c, trace, steps) && i < |trace| && k < |Created(trace[i], dag)|
    ensures exists j :: 0 <= j < i && Created(trace[j], dag) == Created(trace[i], dag)[..k] &&
                        Makes(c, trace[j], steps[j], dag, Created(trace[i], dag)[k])
    decreases i
  {
    if i > 0 {
      DatesFormChain(c, trace, steps, i - 1, dag);
      MadeByDue(c, trace[i - 1], steps[i - 1], trace[i], dag);
      var before, dates := Created(trace[i - 1], dag), Created(trace[i], dag);
      if k < |before| {
        CreatedWhenDue(c, trace, steps, i - 1, dag, k);
        assert before[..k] == dates[..k];
      } else {
        assert dates[..k] == before;
      }
    }
  }

  /** And nothing due is passed over: after any history, a tick that finds the DAG open, its next period come, and
      room, with neither id nor period taken, creates the run. */
  lemma DueIsCreated(c: Config, trace: seq<State>, steps: seq<Step>, i: nat, dag: string)
    requires Forward(c.next) && History(c, trace, steps) && i < |steps| && steps[i].Due? && steps[i].dag == dag
    requires dag in c.schedules
    requires var s, step := trace[i], steps[i];
             && step.sight.scheduled && step.sight.tasks > 0 && !step.sight.paused && step.sight.live
             && step.sight.active < c.schedules[dag].maxActive && QueuedRuns(s.runs) < step.queueLimit
             && step.id !in s.runs
    requires var s := trace[i];
             var date := c.next(AnchorOf(c.schedules[dag], Last(s, dag), steps[i].boot));
             date <= steps[i].now && forall id :: id in s.runs ==> s.runs[id].dag != dag || s.runs[id].date != date
    ensures var date := c.next(AnchorOf(c.schedules[dag], Last(trace[i], dag), steps[i].boot));
            && Created(trace[i + 1], dag) == Created(trace[i], dag) + [date]
            && trace[i + 1].runs == trace[i].runs[steps[i].id := Run(dag, date, true, RunQueued, None)]
  {
    DatesFormChain(c, trace, steps, i, dag);
    var s := trace[i];
    assert Next(c, s, steps[i], trace[i + 1]);
    var latest :| IsLatest(s.runs, dag, latest) && trace[i + 1] == AfterDue(c, s, steps[i], latest);
    LatestUnique(s.runs, dag, latest, Last(s, dag));
  }

  /** No period is started twice, and the order is that of time. */
  lemma {:induction false} ChainClimbs(next: int -> int, dates: seq<int>, i: nat, j: nat)
    requires Forward(next) && Chain(next, dates) && i < j < |dates|
    ensures dates[i] < dates[j]
    decreases j
  {
    if i < j - 1 {
      ChainClimbs(next, dates, i, j - 1);
    }
  }

  /** No gap: with a schedule that never moves back, no period boundary lies between two neighbours. */
  lemma ChainHasNoGap(next: int -> int, dates: seq<int>, i: nat, t: int)
    requires Chain(next, dates) && i + 1 < |dates| && dates[i] <= t
    requires forall x, y :: x <= y ==> next(x) <= next(y)
    ensures next(t) >= dates[i + 1]
  {
    assert next(dates[i]) <= next(t);
  }
}
