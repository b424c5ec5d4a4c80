/** Finite continuations of module Engine's machine: how they are put together, and the ones the
    results below share: an attempt run to its end, a cancel or a retry carried through. */
module EnginePaths {
  import opened BlockPropagation
  import opened Dag
  import opened Engine
  import opened EngineRefs
  import opened EngineShape
  import opened TaskStore
  import opened TriggerRules

  datatype Path = Path(trace: seq<State>, events: seq<Event>)

  /** The path's steps lead from `start` to `s`. */
  ghost predicate Leads(c: Config, p: Path, start: State, s: State) {
    && |p.trace| == |p.events| + 1 && p.trace[0] == start && p.trace[|p.events|] == s
    && forall i :: 0 <= i < |p.events| ==>
         Next(c, p.trace[i], p.events[i].step, p.events[i].spawned, p.trace[i + 1])
  }

  lemma Stay(c: Config, s: State) returns (p: Path)
    ensures Leads(c, p, s, s) && p.events == []
  {
    p := Path([s], []);
  }

  lemma Take(c: Config, p: Path, start: State, s: State, step: Step, spawned: map<nat, Worker>, s': State)
    returns (longer: Path)
    requires Leads(c, p, start, s) && Next(c, s, step, spawned, s')
    ensures Leads(c, longer, start, s')
    ensures longer.trace == p.trace + [s'] && longer.events == p.events + [Event(step, spawned)]
  {
    longer := Path(p.trace + [s'], p.events + [Event(step, spawned)]);
    forall i | 0 <= i < |longer.events|
      ensures Next(c, longer.trace[i], longer.events[i].step, longer.events[i].spawned, longer.trace[i + 1])
    {
      if i < |p.events| {
        assert Next(c, p.trace[i], p.events[i].step, p.events[i].spawned, p.trace[i + 1]);
      }
    }
  }

  /** A step that spawns no recovery goroutines. */
  lemma Then(c: Config, p: Path, start: State, s: State, step: Step) returns (longer: Path)
    requires Leads(c, p, start, s) && Enabled(c, s, step) && !step.Crash? && !step.RecoverNext?
    ensures Leads(c, longer, start, Do(c, s, step))
    ensures longer.trace == p.trace + [Do(c, s, step)] && longer.events == p.events + [Event(step, map[])]
  {
    longer := Take(c, p, start, s, step, map[], Do(c, s, step));
  }

  lemma Glue(c: Config, p: Path, start: State, s: State, q: Path, s': State) returns (longer: Path)
    requires Leads(c, p, start, s) && Leads(c, q, s, s')
    ensures Leads(c, longer, start, s') && longer.events == p.events + q.events
  {
    var n := |p.events|;
    longer := Path(p.trace[..n] + q.trace, p.events + q.events);
    forall k | 0 <= k < |longer.events|
      ensures Next(c, longer.trace[k], longer.events[k].step, longer.events[k].spawned, longer.trace[k + 1])
    {
      if k < n {
        assert Next(c, p.trace[k], p.events[k].step, p.events[k].spawned, p.trace[k + 1]);
      } else {
        assert Next(c, q.trace[k - n], q.events[k - n].step, q.events[k - n].spawned, q.trace[k - n + 1]);
      }
    }
  }

  /** An execution followed to its i-th state and then along a path. */
  lemma Joined(c: Config, trace: seq<State>, events: seq<Event>, i: nat, p: Path, s: State)
    requires Execution(c, trace, events) && i < |trace| && Leads(c, p, trace[i], s)
    ensures Execution(c, trace[..i] + p.trace, events[..i] + p.events)
  {
    var joined, steps := trace[..i] + p.trace, events[..i] + p.events;
    forall k | 0 <= k < |steps| ensures Next(c, joined[k], steps[k].step, steps[k].spawned, joined[k + 1]) {
      if k < i {
        assert Next(c, trace[k], events[k].step, events[k].spawned, trace[k + 1]);
      } else {
        assert Next(c, p.trace[k - i], p.events[k - i].step, p.events[k - i].spawned, p.trace[k - i + 1]);
      }
    }
  }

  lemma PathIsExecution(c: Config, p: Path, start: State, s: State)
    requires Leads(c, p, start, s) && Init(c, start)
    ensures Execution(c, p.trace, p.events) && p.trace[|p.trace| - 1] == s
  {
  }

  lemma {:induction false} ShapeAlong(c: Config, p: Path, start: State, s: State, i: nat)
    requires Leads(c, p, start, s) && Shape(start) && i < |p.trace|
    ensures Shape(p.trace[i])
    decreases i
  {
    if i > 0 {
      ShapeAlong(c, p, start, s, i - 1);
      assert Next(c, p.trace[i - 1], p.events[i - 1].step, p.events[i - 1].spawned, p.trace[i]);
      ShapeNext(c, p.trace[i - 1], p.events[i - 1].step, p.events[i - 1].spawned, p.trace[i]);
    }
  }

  /** The run's own steps: nobody operates it, nothing fails to launch, no record is lost, nothing crashes. */
  predicate Own(step: Step) {
    || IsSchedulingStep(step) || step.Admit? || step.ProcExits? || step.RecoverNext?
    || (IsWorkerStep(step) && !step.PrepareFails? && !step.NoWorker? && !step.LaunchErrs?)
  }

  ghost predicate AllOwn(events: seq<Event>) {
    forall e :: e in events ==> Own(e.step)
  }

  /** Neither a retry begins nor anything crashes. */
  ghost predicate Tame(events: seq<Event>) {
    forall e :: e in events ==> !e.step.RetryBegin? && !e.step.Crash?
  }

  // ---- names and goroutines ----

  lemma {:induction false} FreshIndex(used: set<nat>) returns (w: nat)
    ensures forall u :: u in used ==> u < w
    decreases used
  {
    if used == {} {
      w := 0;
    } else {
      var u :| u in used;
      var v := FreshIndex(used - {u});
      assert forall x :: x in used ==> x == u || x in used - {u};
      w := if u < v then v else u + 1;
    }
  }

  ghost predicate HasOne(id: string, row: Row, pc: PC, workers: map<nat, Worker>) {
    exists w :: w in workers && workers[w] == Worker(id, row, pc)
  }

  ghost predicate EachHasOne(rows: map<string, Row>, ids: set<string>, pc: PC, workers: map<nat, Worker>) {
    forall id :: id in ids && id in rows ==> HasOne(id, rows[id], pc, workers)
  }

  ghost predicate OnlyThese(rows: map<string, Row>, ids: set<string>, pc: PC, workers: map<nat, Worker>) {
    && (forall w :: w in workers ==>
          var id := workers[w].task; id in ids && id in rows && workers[w] == Worker(id, rows[id], pc))
    && (forall v, w :: v in workers && w in workers && workers[v].task == workers[w].task ==> v == w)
  }

  lemma OneMore(rows: map<string, Row>, ids: set<string>, id: string, pc: PC, others: map<nat, Worker>, w: nat)
    requires id in ids && id in rows && w !in others
    requires EachHasOne(rows, ids - {id}, pc, others) && OnlyThese(rows, ids - {id}, pc, others)
    ensures var more := others[w := Worker(id, rows[id], pc)];
            EachHasOne(rows, ids, pc, more) && OnlyThese(rows, ids, pc, more)
  {
    var more := others[w := Worker(id, rows[id], pc)];
    forall x | x in ids && x in rows ensures HasOne(x, rows[x], pc, more) {
      if x == id {
        assert more[w] == Worker(x, rows[x], pc);
      } else {
        assert HasOne(x, rows[x], pc, others);
        var v :| v in others && others[v] == Worker(x, rows[x], pc);
        assert more[v] == Worker(x, rows[x], pc);
      }
    }
  }

  lemma {:induction false} SpawnEach(rows: map<string, Row>, ids: set<string>, pc: PC, used: set<nat>)
    returns (spawned: map<nat, Worker>)
    requires ids <= rows.Keys
    ensures EachHasOne(rows, ids, pc, spawned) && OnlyThese(rows, ids, pc, spawned) && spawned.Keys !! used
    decreases ids
  {
    if ids == {} {
      spawned := map[];
    } else {
      var id :| id in ids;
      var others := SpawnEach(rows, ids - {id}, pc, used);
      var w := FreshIndex(used + others.Keys);
      spawned := others[w := Worker(id, rows[id], pc)];
      OneMore(rows, ids, id, pc, others, w);
    }
  }

  /** Recover can always start its goroutines. */
  lemma RecoveryStarts(rows: map<string, Row>, state: TaskState, pc: PC, used: set<nat>)
    returns (spawned: map<nat, Worker>)
    ensures Recovered(rows, state, pc, spawned) && spawned.Keys !! used
  {
    var ids := set id | id in rows && rows[id].state == state;
    spawned := SpawnEach(rows, ids, pc, used);
    forall id | id in rows && rows[id].state == state
      ensures exists w :: w in spawned && spawned[w] == Worker(id, rows[id], pc)
    {
      assert HasOne(id, rows[id], pc, spawned);
    }
  }

  // ---- an attempt from dispatch to its end, nobody else being at work ----

  /** The only goroutine is `wk`. */
  ghost predicate Sole(s: State, wk: Worker) {
    s.workers == map[0 := wk] && wk.task in s.rows
  }

  function WithWorker(s: State, wk: Worker): State {
    s.(workers := map[0 := wk])
  }

  predicate Recorded(procs: map<Key, Proc>, k: Key) {
    k in procs && procs[k] != Lost
  }

  /** The registry once the attempt has been launched: an executor that knows it keeps its record. */
  function Registered(procs: map<Key, Proc>, k: Key): map<Key, Proc> {
    if Recorded(procs, k) then procs else procs[k := Alive]
  }

  /** The code the attempt exits with, 0 unless the executor has recorded another one. */
  function CodeOf(procs: map<Key, Proc>, k: Key): int {
    if k in procs && procs[k].Exited? then procs[k].code else 0
  }

  lemma SoleMoves(c: Config, s: State, wk: Worker, step: Step, pc: PC)
    requires Sole(s, wk)
    requires (step == Prepared(0) && wk.pc.Prepare? && pc == Check) ||
             (step == CheckPasses(0) && wk.pc.Check? && !s.rows[wk.task].state.Cancelled? && pc == Launch) ||
             (step == RecProbes(0) && wk.pc.RecProbe? && wk.AttemptKey() in s.procs && s.procs[wk.AttemptKey()].Lost? &&
              pc == RecReset) ||
             (step == Polls(0) && wk.pc.Poll? && wk.AttemptKey() in s.procs && s.procs[wk.AttemptKey()].Exited? &&
              pc == Finish(s.procs[wk.AttemptKey()].code))
    ensures Enabled(c, s, step) && Do(c, s, step) == WithWorker(s, wk.(pc := pc))
  {
    assert SetPc(s, 0, pc).workers == map[0 := wk.(pc := pc)];
  }

  lemma SoleLaunches(c: Config, s: State, wk: Worker)
    requires Sole(s, wk) && wk.pc.Launch?
    ensures Enabled(c, s, Launched(0))
    ensures Do(c, s, Launched(0)) ==
            WithWorker(s, wk.(pc := MarkRunning)).(procs := Registered(s.procs, wk.AttemptKey()))
  {
    assert SetPc(s, 0, MarkRunning).workers == map[0 := wk.(pc := MarkRunning)];
  }

  lemma SoleMarks(c: Config, s: State, wk: Worker)
    requires Sole(s, wk) && Matches(s.rows[wk.task], wk.ti.ref) && wk.pc.MarkRunning?
    ensures Enabled(c, s, MarksRunning(0))
    ensures Do(c, s, MarksRunning(0)) ==
            WithWorker(s, wk.(pc := Poll)).(rows := s.rows[wk.task := wk.ti.(state := TaskState.Running)])
  {
    assert SetPc(s, 0, Poll).workers == map[0 := wk.(pc := Poll)];
  }

  lemma SoleEnds(c: Config, s: State, wk: Worker, step: Step, row: Row)
    requires Sole(s, wk) && Matches(s.rows[wk.task], wk.ti.ref)
    requires (step == Finishes(0) && wk.pc.Finish? && row == FinishedAttempt(wk.ti, wk.pc.code)) ||
             (step == RecResets(0) && wk.pc.RecReset? && row == GivenBack(wk.ti))
    ensures Enabled(c, s, step) && Do(c, s, step) == s.(rows := s.rows[wk.task := row], workers := map[])
  {
    assert Drop(s, 0).workers == map[];
  }

  /** Harvested and admitted. */
  lemma Dispatch(c: Config, p: Path, start: State, s: State, t: Task) returns (longer: Path)
    requires Leads(c, p, start, s) && Gated(c, s, t) && TaskReady(t, StatesOf(s.rows))
    requires s.workers == map[] && s.harvest == {}
    ensures var ti := Dispatched(s.rows[t.id]);
            Leads(c, longer, start, WithWorker(s, Worker(t.id, ti, Prepare)).(rows := s.rows[t.id := ti]))
    ensures longer.events == p.events + [Event(Harvest(t), map[]), Event(Admit(t.id, 0), map[])]
    ensures p.trace <= longer.trace
  {
    var ti := Dispatched(s.rows[t.id]);
    var picked := s.(harvest := {t.id});
    var p1 := Then(c, p, start, s, Harvest(t));
    assert Do(c, s, Harvest(t)) == picked;
    assert {t.id} - {t.id} == {};
    assert Do(c, picked, Admit(t.id, 0)) == WithWorker(s, Worker(t.id, ti, Prepare)).(rows := s.rows[t.id := ti]);
    longer := Then(c, p1, start, picked, Admit(t.id, 0));
  }

  function AfterLaunch(s: State, wk: Worker): State {
    WithWorker(s, wk.(pc := MarkRunning)).(procs := Registered(s.procs, wk.AttemptKey()))
  }

  /** Prepared and checked. */
  lemma ReadyToLaunch(c: Config, p: Path, start: State, s: State, wk: Worker) returns (longer: Path)
    requires Leads(c, p, start, s) && Sole(s, wk) && wk.pc.Prepare? && !s.rows[wk.task].state.Cancelled?
    ensures Leads(c, longer, start, WithWorker(s, wk.(pc := Launch)))
    ensures longer.events == p.events + [Event(Prepared(0), map[]), Event(CheckPasses(0), map[])]
    ensures p.trace <= longer.trace
  {
    SoleMoves(c, s, wk, Prepared(0), Check);
    var p1 := Then(c, p, start, s, Prepared(0));
    var checking := WithWorker(s, wk.(pc := Check));
    SoleMoves(c, checking, wk.(pc := Check), CheckPasses(0), Launch);
    longer := Then(c, p1, start, checking, CheckPasses(0));
  }

  lemma StartAttempt(c: Config, p: Path, start: State, s: State, wk: Worker) returns (longer: Path)
    requires Leads(c, p, start, s) && Sole(s, wk) && wk.pc.Prepare? && !s.rows[wk.task].state.Cancelled?
    ensures Leads(c, longer, start, AfterLaunch(s, wk))
    ensures longer.events ==
            p.events + [Event(Prepared(0), map[]), Event(CheckPasses(0), map[]), Event(Launched(0), map[])]
    ensures LaunchesAt(longer.trace, longer.events, |p.events| + 2, wk.AttemptKey())
    ensures p.trace <= longer.trace
  {
    var p1 := ReadyToLaunch(c, p, start, s, wk);
    var launching := WithWorker(s, wk.(pc := Launch));
    SoleLaunches(c, launching, wk.(pc := Launch));
    longer := Then(c, p1, start, launching, Launched(0));
  }

  /** The state once task `t`, ready in `s`, has been harvested, admitted and launched. */
  function Underway(s: State, t: Task): State
    requires t.id in s.rows
  {
    var ti := Dispatched(s.rows[t.id]);
    AfterLaunch(s.(rows := s.rows[t.id := ti]), Worker(t.id, ti, Prepare))
  }

  function LaunchSteps(t: Task): seq<Event> {
    [Event(Harvest(t), map[]), Event(Admit(t.id, 0), map[]),
     Event(Prepared(0), map[]), Event(CheckPasses(0), map[]), Event(Launched(0), map[])]
  }

  lemma LaunchTask(c: Config, p: Path, start: State, s: State, t: Task) returns (longer: Path)
    requires Leads(c, p, start, s) && Gated(c, s, t) && TaskReady(t, StatesOf(s.rows))
    requires s.workers == map[] && s.harvest == {}
    ensures Leads(c, longer, start, Underway(s, t))
    ensures longer.events == p.events + LaunchSteps(t) && p.trace <= longer.trace
    ensures LaunchesAt(longer.trace, longer.events, |p.events| + 4, Key(t.id, s.rows[t.id].tries + 1))
  {
    var ti := Dispatched(s.rows[t.id]);
    var wk := Worker(t.id, ti, Prepare);
    var p1 := Dispatch(c, p, start, s, t);
    longer := StartAttempt(c, p1, start, WithWorker(s, wk).(rows := s.rows[t.id := ti]), wk);
  }

  lemma MarkAttempt(c: Config, p: Path, start: State, s: State, wk: Worker) returns (longer: Path)
    requires Leads(c, p, start, s) && Sole(s, wk) && wk.pc.MarkRunning? && Matches(s.rows[wk.task], wk.ti.ref)
    requires Recorded(s.procs, wk.AttemptKey())
    ensures var k := wk.AttemptKey();
            Leads(c, longer, start, WithWorker(s, wk.(pc := Poll)).(
              rows := s.rows[wk.task := wk.ti.(state := TaskState.Running)],
              procs := s.procs[k := Exited(CodeOf(s.procs, k))]))
    ensures AllOwn(p.events) ==> AllOwn(longer.events)
    ensures Tame(p.events) ==> Tame(longer.events)
  {
    var k := wk.AttemptKey();
    SoleMarks(c, s, wk);
    longer := Then(c, p, start, s, MarksRunning(0));
    var polling := WithWorker(s, wk.(pc := Poll)).(rows := s.rows[wk.task := wk.ti.(state := TaskState.Running)]);
    if s.procs[k] == Alive {
      longer := Then(c, longer, start, polling, ProcExits(k, 0));
    } else {
      assert s.procs[k := Exited(CodeOf(s.procs, k))] == s.procs;
    }
  }

  lemma CollectAttempt(c: Config, p: Path, start: State, s: State, wk: Worker) returns (longer: Path)
    requires Leads(c, p, start, s) && Sole(s, wk) && wk.pc.Poll? && Matches(s.rows[wk.task], wk.ti.ref)
    requires wk.AttemptKey() in s.procs && s.procs[wk.AttemptKey()].Exited?
    ensures var row := FinishedAttempt(wk.ti, s.procs[wk.AttemptKey()].code);
            Leads(c, longer, start, s.(rows := s.rows[wk.task := row], workers := map[]))
    ensures AllOwn(p.events) ==> AllOwn(longer.events)
    ensures Tame(p.events) ==> Tame(longer.events)
  {
    var code := s.procs[wk.AttemptKey()].code;
    SoleMoves(c, s, wk, Polls(0), Finish(code));
    var p1 := Then(c, p, start, s, Polls(0));
    var done := wk.(pc := Finish(code));
    SoleEnds(c, WithWorker(s, done), done, Finishes(0), FinishedAttempt(wk.ti, code));
    longer := Then(c, p1, start, WithWorker(s, done), Finishes(0));
  }

  /** The attempt's row and record once it has run to its end; nobody is at work again. */
  function Ran(s: State, t: Task): State
    requires t.id in s.rows
  {
    var ti := Dispatched(s.rows[t.id]);
    var k := Key(t.id, ti.tries);
    var code := CodeOf(s.procs, k);
    s.(rows := s.rows[t.id := FinishedAttempt(ti, code)], procs := s.procs[k := Exited(code)])
  }

  lemma LaunchStepsAreOwn(events: seq<Event>, t: Task)
    ensures AllOwn(events) ==> AllOwn(events + LaunchSteps(t))
    ensures Tame(events) ==> Tame(events + LaunchSteps(t))
  {
  }

  lemma FinishAttempt(c: Config, p: Path, start: State, s: State, t: Task) returns (longer: Path)
    requires t.id in s.rows && Leads(c, p, start, Underway(s, t)) && s.workers == map[]
    ensures Leads(c, longer, start, Ran(s, t))
    ensures AllOwn(p.events) ==> AllOwn(longer.events)
    ensures Tame(p.events) ==> Tame(longer.events)
  {
    var ti := Dispatched(s.rows[t.id]);
    var wk := Worker(t.id, ti, MarkRunning);
    var k, s1 := wk.AttemptKey(), Underway(s, t);
    assert CodeOf(s1.procs, k) == CodeOf(s.procs, k);
    var p2 := MarkAttempt(c, p, start, s1, wk);
    var s2 := WithWorker(s1, wk.(pc := Poll)).(
      rows := s1.rows[t.id := ti.(state := TaskState.Running)],
      procs := s1.procs[k := Exited(CodeOf(s.procs, k))]);
    longer := CollectAttempt(c, p2, start, s2, wk.(pc := Poll));
    assert s2.rows[t.id := FinishedAttempt(ti, CodeOf(s.procs, k))] == Ran(s, t).rows;
    assert s2.procs == Ran(s, t).procs;
  }

  lemma RunAttempt(c: Config, p: Path, start: State, s: State, t: Task) returns (longer: Path)
    requires Leads(c, p, start, s) && Gated(c, s, t) && TaskReady(t, StatesOf(s.rows))
    requires s.workers == map[] && s.harvest == {}
    ensures Leads(c, longer, start, Ran(s, t))
    ensures AllOwn(p.events) ==> AllOwn(longer.events)
    ensures Tame(p.events) ==> Tame(longer.events)
  {
    var p1 := LaunchTask(c, p, start, s, t);
    LaunchStepsAreOwn(p.events, t);
    longer := FinishAttempt(c, p1, start, s, t);
  }

  // ---- an operator's action carried through ----

  lemma ClearOne(c: Config, p: Path, start: State, s: State, id: string) returns (longer: Path, s': State)
    requires Leads(c, p, start, s) && s.op.Reopening? && id in s.op.todo && id in s.rows
    ensures Leads(c, longer, start, s') && s' == s.(rows := s'.rows, op := s'.op)
    ensures s'.rows == s.rows[id := Cleared(s.op.todo[id])]
    ensures s'.op == Reopening(s.op.todo - {id}, s.op.cleared + {id})
    ensures Tame(p.events) ==> Tame(longer.events)
  {
    s' := Do(c, s, ClearWrite(id));
    longer := Then(c, p, start, s, ClearWrite(id));
  }

  /** A retry in progress clears all the rows it has read. */
  lemma {:induction false} ClearAll(c: Config, p: Path, start: State, s: State) returns (longer: Path, s': State)
    requires Leads(c, p, start, s) && s.op.Reopening? && s.op.todo.Keys <= s.rows.Keys
    ensures Leads(c, longer, start, s') && s' == s.(rows := s'.rows, op := s'.op)
    ensures s'.op == Reopening(map[], s.op.cleared + s.op.todo.Keys) && s'.rows.Keys == s.rows.Keys
    ensures forall id :: id in s.rows ==>
              s'.rows[id] == if id in s.op.todo then Cleared(s.op.todo[id]) else s.rows[id]
    ensures Tame(p.events) ==> Tame(longer.events)
    decreases s.op.todo.Keys
  {
    if s.op.todo == map[] {
      longer, s' := p, s;
    } else {
      var id :| id in s.op.todo;
      var p1, s1 := ClearOne(c, p, start, s, id);
      longer, s' := ClearAll(c, p1, start, s1);
      assert s.op.cleared + s.op.todo.Keys == s1.op.cleared + s1.op.todo.Keys;
    }
  }

  lemma CancelOne(c: Config, p: Path, start: State, s: State, id: string) returns (longer: Path, s': State)
    requires Leads(c, p, start, s) && s.op.Cancelling? && id in s.op.todo && id in s.rows
    ensures Leads(c, longer, start, s') && s' == s.(rows := s'.rows, op := s'.op)
    ensures s'.rows == s.rows[id := s.op.todo[id].(state := Cancelled)] && s'.op == Cancelling(s.op.todo - {id})
    ensures Tame(p.events) ==> Tame(longer.events)
  {
    s' := Do(c, s, OpWrite(id));
    longer := Then(c, p, start, s, OpWrite(id));
  }

  /** A cancel in progress writes all the rows it has read, and ends. */
  lemma {:induction false} CancelAll(c: Config, p: Path, start: State, s: State) returns (longer: Path, s': State)
    requires Leads(c, p, start, s) && s.op.Cancelling? && s.op.todo.Keys <= s.rows.Keys
    ensures Leads(c, longer, start, s') && s' == s.(rows := s'.rows, op := Idle)
    ensures s'.rows.Keys == s.rows.Keys
    ensures forall id :: id in s.rows ==>
              s'.rows[id] == if id in s.op.todo then s.op.todo[id].(state := Cancelled) else s.rows[id]
    ensures Tame(p.events) ==> Tame(longer.events)
    decreases s.op.todo.Keys
  {
    if s.op.todo == map[] {
      s' := Do(c, s, OpEnd);
      longer := Then(c, p, start, s, OpEnd);
    } else {
      var id :| id in s.op.todo;
      var p1, s1 := CancelOne(c, p, start, s, id);
      longer, s' := CancelAll(c, p1, start, s1);
    }
  }
}
