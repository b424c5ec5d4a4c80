/** One run's state machine: rows, attempt goroutines, the executor's registry, operator actions,
    crash and recovery, interleaving freely (internal/scheduler/scheduler.go).

    A worker is a goroutine of runTask, of awaitCompletion, or one probe of Recover; each carries its
    own copy of the row, as the source does. Actions that the source serialises with finalizeMu
    exclude one another through `op`; the workers take no such lock. processRun's decisions are
    separate steps that read the current rows, which allows every outcome a pass over an older
    snapshot can have (`VerdictsAreStable` in module TriggerRules). */
module Engine {
  import opened BlockPropagation
  import opened Dag
  import DownstreamClosure
  import opened RunStates
  import opened TaskStore
  import opened TriggerRules

  /** Fixed for a run. The flags admit behaviour that some results below exclude. */
  datatype Config = Config(
    tasks: seq<Task>,
    operators: bool,       // cancel, retry and mark may happen
    marks: bool,           // MarkTask may happen
    lossy: bool)           // the executor may lose the record of an attempt whose row is still queued

  datatype Key = Key(task: string, try: nat)

  /** The executor's record of a launched attempt. */
  datatype Proc = Alive | Exited(code: int) | Lost

  /** Where a goroutine is. The last four belong to Recover. */
  datatype PC =
    | Prepare | Check | Launch | MarkRunning | GiveBack | LaunchFailed
    | Poll | Finish(code: int) | FinishLost
    | RecProbe | RecReset | RecMark | RecRunning

  datatype Worker = Worker(task: string, ti: Row, pc: PC)
  {
    function AttemptKey(): Key {
      Key(task, ti.tries)
    }
  }

  /** What holds finalizeMu across several writes, with the rows it read and has still to write.
      Reopening is clearAndReactivate, and the end of MarkTask on a run that has ended: rows are cleared
      one by one, in any order, and then the run is set back to running. */
  datatype Op = Idle | Cancelling(todo: map<string, Row>) | TimingOut(todo: map<string, Row>)
              | Marking(id: string, ti: Row, todo: map<string, Row>)
              | Reopening(todo: map<string, Row>, cleared: set<string>)

  datatype Phase = RecoverQueued | RecoverRunning | Ticking

  /** `listed` says that the tick has the run on its list of queued runs, and `harvest` which of its tasks the
      tick has picked. */
  datatype State = State(
    rows: map<string, Row>, run: RunState, listed: bool, phase: Phase, workers: map<nat, Worker>,
    procs: map<Key, Proc>, harvest: set<string>, op: Op)

  datatype Step =
    // processRun and admitReady
    | ListRun | StartRun | Block(t: Task) | Requeue(id: string)
    | Harvest(t: Task) | SkipReady(t: Task) | FailReady(t: Task)
    | Admit(id: string, w: nat) | EndTick | FinalizeRun
    // runTask and awaitCompletion
    | PrepareFails(w: nat) | Prepared(w: nat) | CheckStops(w: nat) | CheckPasses(w: nat)
    | Launched(w: nat) | NoWorker(w: nat) | LaunchErrs(w: nat) | MarksRunning(w: nat)
    | GivesBack(w: nat) | FailsLaunch(w: nat) | Polls(w: nat) | Finishes(w: nat)
    // the executor
    | ProcExits(k: Key, code: int) | ProcLost(k: Key)
    // finalizeMu operations
    | CancelBegin | TimeoutBegin | OpWrite(id: string) | OpEnd
    | MarkBegin(id: string, target: TaskState, released: set<string>) | MarkWrite
    | RetryBegin(ids: set<string>) | ClearWrite(id: string) | Reopen
    // crash and recovery
    | Crash | RecProbes(w: nat) | RecResets(w: nat) | RecMarks(w: nat) | RecPolls(w: nat) | RecoverNext

  function StatesOf(rows: map<string, Row>): States {
    map id | id in rows :: rows[id].state
  }

  ghost predicate Init(c: Config, s: State) {
    && s.rows.Keys == (set i | 0 <= i < |c.tasks| :: c.tasks[i].id)
    && (forall t :: t in c.tasks ==> s.rows[t.id] == Row(Scheduled, 0, t.retries, NoRef))
    && s.run == RunQueued && !s.listed && s.phase == Ticking && s.workers == map[] && s.procs == map[]
    && s.harvest == {} && s.op == Idle
  }

  predicate At(s: State, w: nat, pc: PC) {
    w in s.workers && s.workers[w].pc == pc && s.workers[w].task in s.rows
  }

  function Open(rows: map<string, Row>): map<string, Row> {
    map id | id in rows && !rows[id].state.IsTerminal() :: rows[id]
  }

  /** What MarkTask releases: the upstream_failed tasks downstream of a task marked success or skipped. */
  ghost predicate Releases(c: Config, rows: map<string, Row>, id: string, target: TaskState, released: set<string>) {
    forall r :: r in released <==>
      && target != Failed && r != id && r in rows && rows[r].state == UpstreamFailed
      && r in Ids(c.tasks) && DownstreamClosure.Downstream(c.tasks, id, r)
  }

  ghost predicate Gated(c: Config, s: State, t: Task) {
    && s.phase == Ticking && s.op == Idle && s.run == RunRunning && t in c.tasks
    && t.id in s.rows && s.rows[t.id].state == Scheduled
  }

  predicate RecoveryPc(pc: PC) {
    pc.RecProbe? || pc.RecReset? || pc.RecMark? || pc.RecRunning?
  }

  ghost predicate Enabled(c: Config, s: State, step: Step) {
    match step
    case ListRun => s.phase == Ticking && s.run == RunQueued
    // the store refuses the run only if it is running: one that ended since it was listed starts too
    case StartRun => s.phase == Ticking && s.op == Idle && s.listed && s.run in LegalPrior(RunRunning)
    case Block(t) => Gated(c, s, t) && TaskBlocked(t, StatesOf(s.rows))
    case Requeue(id) =>
      s.phase == Ticking && s.op == Idle && s.run == RunRunning && id in s.rows && s.rows[id].state == UpForRetry
    case Harvest(t) => Gated(c, s, t) && TaskReady(t, StatesOf(s.rows))
    case SkipReady(t) => Gated(c, s, t) && TaskReady(t, StatesOf(s.rows))
    case FailReady(t) => Gated(c, s, t) && TaskReady(t, StatesOf(s.rows))
    case Admit(id, w) =>
      && s.phase == Ticking && s.op == Idle && id in s.harvest
      && id in s.rows && s.rows[id].state == Scheduled && w !in s.workers
    case EndTick => s.phase == Ticking && s.op == Idle
    case FinalizeRun =>
      && s.phase == Ticking && s.op == Idle && s.run == RunRunning
      && forall id :: id in s.rows ==> s.rows[id].state.IsTerminal()
    case PrepareFails(w) => At(s, w, Prepare)
    case Prepared(w) => At(s, w, Prepare)
    case CheckStops(w) => At(s, w, Check) && s.rows[s.workers[w].task].state == Cancelled
    case CheckPasses(w) => At(s, w, Check) && s.rows[s.workers[w].task].state != Cancelled
    case Launched(w) => At(s, w, Launch)
    case NoWorker(w) => At(s, w, Launch)
    case LaunchErrs(w) => At(s, w, Launch)
    case MarksRunning(w) => At(s, w, MarkRunning)
    case GivesBack(w) => At(s, w, GiveBack)
    case FailsLaunch(w) => At(s, w, LaunchFailed)
    case Polls(w) =>
      At(s, w, Poll) && (s.workers[w].AttemptKey() in s.procs ==> s.procs[s.workers[w].AttemptKey()] != Alive)
    case Finishes(w) =>
      w in s.workers && (s.workers[w].pc.Finish? || s.workers[w].pc.FinishLost?) && s.workers[w].task in s.rows
    case ProcExits(k, code) => k in s.procs && s.procs[k] == Alive
    case ProcLost(k) =>
      && k in s.procs && k.task in s.rows
      && (c.lossy || !(s.rows[k.task].state == Queued && s.rows[k.task].ref == Attempt(k.try)))
    case CancelBegin => c.operators && s.op == Idle && (s.run == RunQueued || s.run == RunRunning)
    case TimeoutBegin => s.phase == Ticking && s.op == Idle && s.run == RunRunning
    case OpWrite(id) => (s.op.Cancelling? || s.op.TimingOut?) && id in s.op.todo && id in s.rows
    case OpEnd => (s.op.Cancelling? || s.op.TimingOut?) && s.op.todo == map[]
    case MarkBegin(id, target, released) =>
      && c.operators && c.marks && s.op == Idle && id in s.rows
      && (target == Success || target == Failed || target == Skipped)
      && Releases(c, s.rows, id, target, released)
    case MarkWrite => s.op.Marking? && s.op.todo == map[] && s.op.id in s.rows
    case RetryBegin(ids) =>
      && c.operators && s.op == Idle && s.run.Ended() && ids <= s.rows.Keys
      && DownstreamClosure.Retries(c.tasks, s.rows, ids)
    case ClearWrite(id) => (s.op.Marking? || s.op.Reopening?) && id in s.op.todo && id in s.rows
    case Reopen => s.op.Reopening? && s.op.todo == map[]
    case Crash => true
    case RecProbes(w) => At(s, w, RecProbe)
    case RecResets(w) => At(s, w, RecReset)
    case RecMarks(w) => At(s, w, RecMark)
    case RecPolls(w) => At(s, w, RecRunning)
    case RecoverNext => s.phase != Ticking && forall w :: w in s.workers ==> !RecoveryPc(s.workers[w].pc)
  }

  function Restrict(rows: map<string, Row>, ids: set<string>): map<string, Row> {
    map id | id in rows && id in ids :: rows[id]
  }

  function SetRow(s: State, id: string, row: Row): State {
    s.(rows := s.rows[id := row])
  }

  function SetPc(s: State, w: nat, pc: PC): State
    requires w in s.workers
  {
    s.(workers := s.workers[w := s.workers[w].(pc := pc)])
  }

  function Drop(s: State, w: nat): State {
    s.(workers := s.workers - {w})
  }

  /** A worker's guarded write of `row`; afterwards it goes on at `next` if the write applied and
      there is a next place, and is gone otherwise. */
  function WorkerWrite(s: State, w: nat, row: Row, next: seq<PC>): State
    requires w in s.workers && s.workers[w].task in s.rows
  {
    var wk := s.workers[w];
    var current := s.rows[wk.task];
    var written := SetRow(s, wk.task, Guarded(current, row, wk.ti.ref));
    if Matches(current, wk.ti.ref) && next != [] then SetPc(written, w, next[0]) else Drop(written, w)
  }

  /** What a probe of the executor answers for a worker's attempt. */
  function AfterProbe(s: State, w: nat, running: PC, unknown: PC): PC
    requires w in s.workers
  {
    var k := s.workers[w].AttemptKey();
    if k !in s.procs || s.procs[k] == Lost then unknown
    else if s.procs[k] == Alive then running
    else Finish(s.procs[k].code)
  }

  /** A run without tasks fails. */
  function Outcome(rows: map<string, Row>): RunState {
    if rows == map[] then RunFailed
    else if exists id ::
              id in rows && (rows[id].state.Failed? || rows[id].state.UpstreamFailed? || rows[id].state.TimedOut?)
    then RunFailed
    else if exists id :: id in rows && rows[id].state.Cancelled? then RunCancelled
    else RunSuccess
  }

  /** `workers` are Recover's goroutines: one, at `pc`, for every row in the given state. */
  ghost predicate Recovered(rows: map<string, Row>, state: TaskState, pc: PC, workers: map<nat, Worker>) {
    && (forall id :: id in rows && rows[id].state == state ==>
          exists w :: w in workers && workers[w] == Worker(id, rows[id], pc))
    && (forall w :: w in workers ==> workers[w].task in rows && rows[workers[w].task].state == state &&
                                     workers[w] == Worker(workers[w].task, rows[workers[w].task], pc))
    && (forall v, w :: v in workers && w in workers && workers[v].task == workers[w].task ==> v == w)
  }

  /** One step. Crash and RecoverNext start the goroutines in `spawned`. */
  ghost predicate Next(c: Config, s: State, step: Step, spawned: map<nat, Worker>, s': State) {
    Enabled(c, s, step) &&
    match step
    case Crash =>
      && Recovered(s.rows, Queued, RecProbe, spawned)
      && s' == s.(phase := RecoverQueued, workers := spawned, harvest := {}, listed := false, op := Idle)
    case RecoverNext =>
      if s.phase == RecoverQueued then
        && Recovered(s.rows, Running, RecRunning, spawned) && spawned.Keys !! s.workers.Keys
        && s' == s.(phase := RecoverRunning, workers := s.workers + spawned)
      else
        spawned == map[] && s' == s.(phase := Ticking)
    case _ => s' == Do(c, s, step) && spawned == map[]
  }

  /** The next state of every step that spawns no recovery goroutines. */
  ghost function Do(c: Config, s: State, step: Step): State
    requires Enabled(c, s, step) && !step.Crash? && !step.RecoverNext?
  {
    match step
    case ListRun => s.(listed := true)
    case StartRun => s.(run := RunRunning, listed := false)
    case Block(t) => SetRow(s, t.id, s.rows[t.id].(state := UpstreamFailed))
    case Requeue(id) => SetRow(s, id, Cleared(s.rows[id]))
    case Harvest(t) => s.(harvest := s.harvest + {t.id})
    case SkipReady(t) => SetRow(s, t.id, s.rows[t.id].(state := Skipped))
    case FailReady(t) => SetRow(s, t.id, s.rows[t.id].(state := Failed))
    case Admit(id, w) =>
      var ti := Dispatched(s.rows[id]);
      SetRow(s, id, ti).(workers := s.workers[w := Worker(id, ti, Prepare)], harvest := s.harvest - {id})
    case EndTick => s.(harvest := {}, listed := false)
    case FinalizeRun => s.(run := Outcome(s.rows))
    case PrepareFails(w) => WorkerWrite(s, w, FailedAttempt(s.workers[w].ti), [])
    case Prepared(w) => SetPc(s, w, Check)
    case CheckStops(w) => Drop(s, w)
    case CheckPasses(w) => SetPc(s, w, Launch)
    case Launched(w) =>
      var k := s.workers[w].AttemptKey();
      var known := k in s.procs && s.procs[k] != Lost;
      SetPc(s, w, MarkRunning).(procs := if known then s.procs else s.procs[k := Alive])
    case NoWorker(w) => SetPc(s, w, GiveBack)
    case LaunchErrs(w) => SetPc(s, w, LaunchFailed)
    case MarksRunning(w) => WorkerWrite(s, w, s.workers[w].ti.(state := Running), [Poll])
    case GivesBack(w) => WorkerWrite(s, w, GivenBack(s.workers[w].ti), [])
    case FailsLaunch(w) => WorkerWrite(s, w, FailedAttempt(s.workers[w].ti), [])
    case Polls(w) => SetPc(s, w, AfterProbe(s, w, Poll, FinishLost))
    case Finishes(w) =>
      var wk := s.workers[w];
      var row := if wk.pc.FinishLost? then FailedAttempt(wk.ti) else FinishedAttempt(wk.ti, wk.pc.code);
      WorkerWrite(s, w, row, [])
    case ProcExits(k, code) => s.(procs := s.procs[k := Exited(code)])
    case ProcLost(k) => s.(procs := s.procs[k := Lost])
    case CancelBegin => s.(run := RunCancelled, op := Cancelling(Open(s.rows)))
    case TimeoutBegin => s.(run := RunTimedOut, op := TimingOut(Open(s.rows)))
    case OpWrite(id) =>
      var seen := s.op.todo[id];
      if s.op.Cancelling? then
        SetRow(s, id, seen.(state := Cancelled)).(op := Cancelling(s.op.todo - {id}))
      else
        SetRow(s, id, Guarded(s.rows[id], seen.(state := TimedOut), seen.ref)).(op := TimingOut(s.op.todo - {id}))
    case OpEnd => s.(op := Idle)
    case MarkBegin(id, target, released) =>
      s.(op := Marking(id, s.rows[id].(state := target), Restrict(s.rows, released)))
    case MarkWrite =>
      SetRow(s, s.op.id, s.op.ti).(op := if s.run.Ended() then Reopening(map[], {}) else Idle)
    case RetryBegin(ids) => s.(op := Reopening(Restrict(s.rows, ids), {}))
    case ClearWrite(id) =>
      SetRow(s, id, Cleared(s.op.todo[id])).(op :=
        if s.op.Marking? then Marking(s.op.id, s.op.ti, s.op.todo - {id})
        else Reopening(s.op.todo - {id}, s.op.cleared + {id}))
    case Reopen => s.(run := RunRunning, op := Idle)
    case RecProbes(w) => SetPc(s, w, AfterProbe(s, w, RecMark, RecReset))
    case RecResets(w) => WorkerWrite(s, w, GivenBack(s.workers[w].ti), [])
    case RecMarks(w) => WorkerWrite(s, w, s.workers[w].ti.(state := Running), [Poll])
    case RecPolls(w) => SetPc(s, w, AfterProbe(s, w, Poll, FinishLost))
  }

  datatype Event = Event(step: Step, spawned: map<nat, Worker>)

  /** `trace` are the states of an execution and `events` the steps between them. */
  ghost predicate Execution(c: Config, trace: seq<State>, events: seq<Event>) {
    && |trace| == |events| + 1
    && Init(c, trace[0])
    && forall i :: 0 <= i < |events| ==> Next(c, trace[i], events[i].step, events[i].spawned, trace[i + 1])
  }

  predicate IsWorkerStep(step: Step) {
    step.PrepareFails? || step.Prepared? || step.CheckStops? || step.CheckPasses? || step.Launched? ||
    step.NoWorker? || step.LaunchErrs? || step.MarksRunning? || step.GivesBack? || step.FailsLaunch? ||
    step.Polls? || step.Finishes? || step.RecProbes? || step.RecResets? || step.RecMarks? || step.RecPolls?
  }

  predicate IsSchedulingStep(step: Step) {
    step.ListRun? || step.StartRun? || step.Block? || step.Requeue? || step.Harvest? || step.SkipReady? ||
    step.FailReady? || step.EndTick? || step.FinalizeRun?
  }

  predicate IsOperation(step: Step) {
    step.CancelBegin? || step.TimeoutBegin? || step.OpWrite? || step.OpEnd? || step.MarkBegin? || step.MarkWrite? ||
    step.RetryBegin? || step.ClearWrite? || step.Reopen?
  }

  ghost predicate SomeIn(rows: map<string, Row>, states: set<TaskState>) {
    exists id :: id in rows && rows[id].state in states
  }

  /** A finished run counts as a success exactly when it had tasks and each succeeded or was skipped, and as failed
      exactly when it had none or one of them failed, was blocked or timed out. A cancelled task that is left
      over never passes as a success: without a failed one beside it, and only then, the run is cancelled. */
  lemma SuccessMeansAllFine(c: Config, s: State)
    requires Enabled(c, s, FinalizeRun)
    ensures var run := Do(c, s, FinalizeRun).run;
            && (run == RunSuccess <==>
                s.rows != map[] && forall id :: id in s.rows ==> s.rows[id].state in {Success, Skipped})
            && (run == RunFailed <==> s.rows == map[] || SomeIn(s.rows, {Failed, UpstreamFailed, TimedOut}))
            && (run == RunCancelled <==>
                SomeIn(s.rows, {Cancelled}) && !SomeIn(s.rows, {Failed, UpstreamFailed, TimedOut}))
  {
    if s.rows != map[] && Outcome(s.rows) != RunSuccess {
      var id :| id in s.rows && s.rows[id].state !in {Success, Skipped};
    }
    if id :| id in s.rows &&
             (s.rows[id].state.Failed? || s.rows[id].state.UpstreamFailed? || s.rows[id].state.TimedOut?)
    {
      assert s.rows[id].state in {Failed, UpstreamFailed, TimedOut};
    } else if id :| id in s.rows && s.rows[id].state.Cancelled? {
      assert s.rows[id].state in {Cancelled};
    }
  }

  predicate IsWrite(step: Step) {
    step.PrepareFails? || step.MarksRunning? || step.GivesBack? || step.FailsLaunch? || step.Finishes? ||
    step.RecResets? || step.RecMarks?
  }

  /** Only a launch, an exit or a loss touches the executor's registry. */
  lemma WritesKeepRegistry(c: Config, s: State, step: Step)
    requires Enabled(c, s, step) && IsWrite(step)
    ensures Do(c, s, step).procs == s.procs && Do(c, s, step).run == s.run
  {
  }

  lemma MovesKeepRegistry(c: Config, s: State, step: Step)
    requires Enabled(c, s, step) && IsWorkerStep(step) && !IsWrite(step)
    ensures Do(c, s, step).run == s.run && (!step.Launched? ==> Do(c, s, step).procs == s.procs)
  {
  }

  lemma SchedulingKeepsRegistry(c: Config, s: State, step: Step)
    requires Enabled(c, s, step) && (IsSchedulingStep(step) || step.Admit?)
    ensures Do(c, s, step).procs == s.procs
    ensures Do(c, s, step).run != s.run ==> s.run in LegalPrior(Do(c, s, step).run)
  {
  }

  lemma OperationsKeepRegistry(c: Config, s: State, step: Step)
    requires Enabled(c, s, step) && IsOperation(step)
    ensures Do(c, s, step).procs == s.procs
    ensures Do(c, s, step).run != s.run ==> s.run in LegalPrior(Do(c, s, step).run)
  {
  }

  lemma ExecutorKeepsRun(c: Config, s: State, step: Step)
    requires Enabled(c, s, step) && (step.ProcExits? || step.ProcLost?)
    ensures Do(c, s, step).run == s.run && Do(c, s, step).procs.Keys == s.procs.Keys
  {
  }

  /** No step makes a run-state change that the store would refuse. */
  lemma RunChangesAreLegal(c: Config, s: State, step: Step, spawned: map<nat, Worker>, s': State)
    requires Next(c, s, step, spawned, s')
    ensures s'.run != s.run ==> s.run in LegalPrior(s'.run)
  {
    if step.Crash? || step.RecoverNext? {
    } else if IsWrite(step) {
      WritesKeepRegistry(c, s, step);
    } else if IsWorkerStep(step) {
      MovesKeepRegistry(c, s, step);
    } else if IsOperation(step) {
      OperationsKeepRegistry(c, s, step);
    } else if step.ProcExits? || step.ProcLost? {
      ExecutorKeepsRun(c, s, step);
    } else {
      SchedulingKeepsRegistry(c, s, step);
    }
  }
}
