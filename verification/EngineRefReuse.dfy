/** Which executors reuse a reference: exactly those that may lose the record of an attempt whose row is
    still queued. Recovery then takes the attempt for one that never started, gives its try number back,
    and the next dispatch launches the same reference again. */
module EngineRefReuse {
  import opened Dag
  import opened Engine
  import opened EngineEnds
  import opened EnginePaths
  import opened EngineRefs
  import opened EngineStarts
  import opened TaskStore
  import opened TriggerRules

  ghost predicate NeverReuses(c: Config) {
    forall trace, events, i: nat, j: nat, k ::
      Execution(c, trace, events) && LaunchesAt(trace, events, i, k) && LaunchesAt(trace, events, j, k) ==> i == j
  }

  /** Only task `t` is queued, launched but not yet marked running. */
  ghost predicate OnlyLaunched(s: State, wk: Worker) {
    && Sole(s, wk) && wk.pc.MarkRunning? && s.rows[wk.task] == wk.ti && wk.ti.state.Queued?
    && (forall id :: id in s.rows && id != wk.task ==> s.rows[id].state.Scheduled?)
    && wk.AttemptKey() in s.procs
  }

  lemma LoseAndCrash(c: Config, p: Path, start: State, s: State, wk: Worker) returns (longer: Path)
    requires Leads(c, p, start, s) && c.lossy && OnlyLaunched(s, wk)
    ensures Leads(c, longer, start, WithWorker(s, wk.(pc := RecProbe)).(
                    procs := s.procs[wk.AttemptKey() := Lost], phase := RecoverQueued, harvest := {}, listed := false,
                    op := Idle))
    ensures p.trace <= longer.trace && p.events <= longer.events
  {
    var k := wk.AttemptKey();
    var p1 := Then(c, p, start, s, ProcLost(k));
    var s1 := Do(c, s, ProcLost(k));
    var probing := map[0 := wk.(pc := RecProbe)];
    assert Recovered(s1.rows, Queued, RecProbe, probing) by {
      assert probing[0] == Worker(wk.task, s1.rows[wk.task], RecProbe);
    }
    longer := Take(c, p1, start, s1, Crash, probing,
                   s1.(workers := probing, phase := RecoverQueued, harvest := {}, listed := false, op := Idle));
  }

  lemma GiveBackLost(c: Config, p: Path, start: State, s: State, wk: Worker) returns (longer: Path)
    requires Leads(c, p, start, s) && Sole(s, wk) && wk.pc.RecProbe?
    requires s.rows[wk.task] == wk.ti && wk.ti.state.Queued?
    requires wk.AttemptKey() in s.procs && s.procs[wk.AttemptKey()].Lost?
    ensures Leads(c, longer, start, s.(rows := s.rows[wk.task := GivenBack(wk.ti)], workers := map[]))
    ensures p.trace <= longer.trace && p.events <= longer.events
  {
    SoleMoves(c, s, wk, RecProbes(0), RecReset);
    var p1 := Then(c, p, start, s, RecProbes(0));
    var reset := wk.(pc := RecReset);
    SoleEnds(c, WithWorker(s, reset), reset, RecResets(0), GivenBack(wk.ti));
    longer := Then(c, p1, start, WithWorker(s, reset), RecResets(0));
  }

  lemma Resume(c: Config, p: Path, start: State, s: State) returns (longer: Path)
    requires Leads(c, p, start, s) && s.phase == RecoverQueued && s.workers == map[]
    requires forall id :: id in s.rows ==> !s.rows[id].state.Running?
    ensures Leads(c, longer, start, s.(phase := Ticking))
    ensures p.trace <= longer.trace && p.events <= longer.events
  {
    var s1 := s.(phase := RecoverRunning);
    var none: map<nat, Worker> := map[];
    assert s.workers + none == s.workers;
    var p1 := Take(c, p, start, s, RecoverNext, none, s1);
    longer := Take(c, p1, start, s1, RecoverNext, none, s.(phase := Ticking));
  }

  /** The attempt is lost and taken for one that never started: all rows are as they were before it. */
  lemma Forget(c: Config, p: Path, start: State, s: State, t: Task) returns (longer: Path, s': State)
    requires c.lossy && Resting(s) && !s.listed && t.id in s.rows && s.rows[t.id] == Fresh(t) && s.procs == map[]
    requires forall id :: id in s.rows ==> s.rows[id].state.Scheduled?
    requires Leads(c, p, start, Underway(s, t))
    ensures Leads(c, longer, start, s') && s' == s.(procs := map[Key(t.id, 1) := Lost])
    ensures p.trace <= longer.trace && p.events <= longer.events
  {
    var s1 := Underway(s, t);
    var wk := Worker(t.id, Dispatched(s.rows[t.id]), MarkRunning);
    var p1 := LoseAndCrash(c, p, start, s1, wk);
    var probe := wk.(pc := RecProbe);
    var s2 := WithWorker(s1, probe).(
      procs := s1.procs[wk.AttemptKey() := Lost], phase := RecoverQueued, harvest := {}, listed := false, op := Idle);
    var p2 := GiveBackLost(c, p1, start, s2, probe);
    var s3 := s2.(rows := s2.rows[t.id := GivenBack(wk.ti)], workers := map[]);
    longer := Resume(c, p2, start, s3);
    s' := s3.(phase := Ticking);
    assert s'.rows == s.rows && s'.procs == map[Key(t.id, 1) := Lost];
  }

  lemma LaunchAgain(c: Config, p: Path, start: State, s: State, t: Task) returns (longer: Path, s': State)
    requires c.lossy && Leads(c, p, start, s) && Resting(s) && !s.listed && s.procs == map[]
    requires t in c.tasks && t.deps == [] && t.id in s.rows && s.rows[t.id] == Fresh(t)
    requires forall id :: id in s.rows ==> s.rows[id].state.Scheduled?
    ensures Leads(c, longer, start, s')
    ensures exists i: nat, j: nat ::
              i < j && LaunchesAt(longer.trace, longer.events, i, Key(t.id, 1)) &&
              LaunchesAt(longer.trace, longer.events, j, Key(t.id, 1))
  {
    RootIsReady(t, StatesOf(s.rows));
    var p1 := LaunchTask(c, p, start, s, t);
    var p2, s2 := Forget(c, p1, start, s, t);
    longer := LaunchTask(c, p2, start, s2, t);
    s' := Underway(s2, t);
    assert LaunchesAt(longer.trace, longer.events, |p.events| + 4, Key(t.id, 1));
  }

  /** The first task to run is launched, lost, and launched again under the same reference. */
  lemma LossyExecutorReusesRef(c: Config)
    requires Sound(c.tasks) && c.tasks != [] && c.lossy
    ensures !NeverReuses(c)
  {
    var t := Root(c.tasks);
    var p, start, s := Start(c);
    forall id | id in s.rows ensures s.rows[id].state.Scheduled? {
      assert HasTask(c.tasks, id);
    }
    var longer, s' := LaunchAgain(c, p, start, s, t);
    PathIsExecution(c, longer, start, s');
  }

  /** References are never reused for exactly the configurations whose executor keeps the record of an attempt
      at least while its row is queued. */
  lemma NeverReusesIff(c: Config)
    requires Sound(c.tasks) && c.tasks != []
    ensures NeverReuses(c) <==> !c.lossy
  {
    if c.lossy {
      LossyExecutorReusesRef(c);
    } else {
      forall trace, events, i: nat, j: nat, k |
        Execution(c, trace, events) && LaunchesAt(trace, events, i, k) && LaunchesAt(trace, events, j, k)
        ensures i == j
      {
        LaunchedAtMostOnce(c, trace, events, i, j, k);
      }
    }
  }
}
