/** Attempt references are never reused, over every interleaving of module Engine.

    The invariant says that the row's try number bounds every attempt a process was ever started for,
    and that a goroutine which may still launch, or may still undo, an attempt is the only one holding
    that attempt's reference. It needs an executor that keeps the record of a launched attempt at
    least while the attempt's row is still queued; `NeverReusesIff` in module EngineRefReuse
    shows that the condition cannot be dropped. */
module EngineRefs {
  import opened Engine
  import opened TaskStore
  import opened TriggerRules

  ghost predicate RowOk(r: Row) {
    && (r.ref.Attempt? ==> r.ref.try == r.tries >= 1)
    && (r.state.Scheduled? ==> r.ref.NoRef?)
    && (r.state.Queued? || r.state.Running? || r.state.UpForRetry? ==> r.ref.Attempt?)
  }

  /** The process of this attempt has certainly not been started. */
  predicate Unlaunched(pc: PC) {
    pc.Prepare? || pc.Check? || pc.Launch? || pc.GiveBack? || pc.LaunchFailed?
  }

  /** Nobody else holds this attempt's reference. */
  predicate Owner(pc: PC) {
    Unlaunched(pc) || pc.MarkRunning? || pc.RecProbe? || pc.RecReset? || pc.RecMark?
  }

  ghost predicate WorkerOk(s: State, wk: Worker) {
    && wk.task in s.rows
    && wk.ti.ref == Attempt(wk.ti.tries) && 1 <= wk.ti.tries <= s.rows[wk.task].tries
    && (Unlaunched(wk.pc) ==> wk.AttemptKey() !in s.procs)
    && (Owner(wk.pc) && Matches(s.rows[wk.task], wk.ti.ref) ==> s.rows[wk.task].state.Queued?)
    && (wk.pc.RecReset? && Matches(s.rows[wk.task], wk.ti.ref) ==> wk.AttemptKey() !in s.procs)
  }

  ghost predicate RowsOk(s: State) {
    forall id :: id in s.rows ==> RowOk(s.rows[id])
  }

  ghost predicate ProcsOk(s: State) {
    forall k :: k in s.procs ==>
      && k.task in s.rows && 1 <= k.try <= s.rows[k.task].tries
      && (s.procs[k].Lost? ==> !(s.rows[k.task].state.Queued? && s.rows[k.task].ref == Attempt(k.try)))
  }

  ghost predicate WorkersOk(s: State) {
    forall w :: w in s.workers ==> WorkerOk(s, s.workers[w])
  }

  ghost predicate OwnersAlone(s: State) {
    forall v, w :: v in s.workers && w in s.workers && v != w && Owner(s.workers[v].pc) ==>
      s.workers[v].AttemptKey() != s.workers[w].AttemptKey()
  }

  ghost predicate SnapshotOk(s: State, id: string, seen: Row) {
    id in s.rows && RowOk(seen) && seen.tries >= s.rows[id].tries
  }

  ghost predicate OpOk(s: State) {
    match s.op
    case Idle => true
    case Cancelling(todo) => forall id :: id in todo ==> SnapshotOk(s, id, todo[id])
    case TimingOut(todo) => forall id :: id in todo ==> SnapshotOk(s, id, todo[id])
    case Marking(id, ti, todo) =>
      && SnapshotOk(s, id, ti) && ti.state.IsTerminal() && id !in todo
      && forall r :: r in todo ==> SnapshotOk(s, r, todo[r])
    case Reopening(todo, _) => forall id :: id in todo ==> SnapshotOk(s, id, todo[id])
  }

  ghost predicate PhaseOk(s: State) {
    forall w :: w in s.workers ==>
      var pc := s.workers[w].pc;
      match s.phase
      case RecoverQueued => !Owner(pc) || RecoveryPc(pc)
      case RecoverRunning => !Owner(pc)
      case Ticking => !RecoveryPc(pc)
  }

  ghost predicate Inv(s: State) {
    RowsOk(s) && ProcsOk(s) && WorkersOk(s) && OwnersAlone(s) && OpOk(s) && PhaseOk(s)
  }

  lemma InvInit(c: Config, s: State)
    requires Init(c, s)
    ensures Inv(s)
  {
    forall id | id in s.rows ensures RowOk(s.rows[id]) {
      var i :| 0 <= i < |c.tasks| && c.tasks[i].id == id;
      assert c.tasks[i] in c.tasks;
    }
  }

  // ---- the ways a step can change the state ----

  /** A row that no attempt's guarded write can hit any more. */
  predicate Quiet(r: Row) {
    r.state.IsTerminal() || r.ref.NoRef?
  }

  ghost predicate OpAllows(s: State, id: string, row: Row) {
    match s.op
    case Idle => true
    case Cancelling(todo) => id in todo ==> todo[id].tries >= row.tries
    case TimingOut(todo) => id in todo ==> todo[id].tries >= row.tries
    case Marking(m, ti, todo) => (id == m ==> ti.tries >= row.tries) && (id in todo ==> todo[id].tries >= row.tries)
    case Reopening(todo, _) => id in todo ==> todo[id].tries >= row.tries
  }

  lemma InvSetQuietRow(s: State, id: string, row: Row)
    requires Inv(s) && id in s.rows && RowOk(row) && Quiet(row)
    requires row.tries >= s.rows[id].tries && OpAllows(s, id, row)
    ensures Inv(SetRow(s, id, row))
  {
    var s' := SetRow(s, id, row);
    assert RowsOk(s') && ProcsOk(s');
    assert WorkersOk(s') by {
      forall w | w in s'.workers ensures WorkerOk(s', s'.workers[w]) {
        assert WorkerOk(s, s.workers[w]);
      }
    }
    assert OwnersAlone(s') && PhaseOk(s');
    assert OpOk(s');
  }

  lemma InvSetPc(s: State, w: nat, pc: PC)
    requires Inv(s) && w in s.workers
    requires Unlaunched(pc) ==> Unlaunched(s.workers[w].pc)
    requires Owner(pc) ==> Owner(s.workers[w].pc)
    requires pc.RecReset? && Matches(s.rows[s.workers[w].task], s.workers[w].ti.ref)
             ==> s.workers[w].AttemptKey() !in s.procs
    requires Owner(pc) || RecoveryPc(pc) ==> RecoveryPc(pc) == RecoveryPc(s.workers[w].pc)
    ensures Inv(SetPc(s, w, pc))
  {
    var s' := SetPc(s, w, pc);
    assert RowsOk(s') && ProcsOk(s') && OpOk(s');
    assert WorkersOk(s') by {
      forall v | v in s'.workers ensures WorkerOk(s', s'.workers[v]) {
        assert WorkerOk(s, s.workers[v]);
      }
    }
    assert OwnersAlone(s') by {
      forall u, v | u in s'.workers && v in s'.workers && u != v && Owner(s'.workers[u].pc)
        ensures s'.workers[u].AttemptKey() != s'.workers[v].AttemptKey()
      {
        assert Owner(s.workers[u].pc);
        assert s.workers[u].AttemptKey() != s.workers[v].AttemptKey();
      }
    }
    assert PhaseOk(s');
  }

  lemma InvDrop(s: State, w: nat)
    requires Inv(s)
    ensures Inv(Drop(s, w))
  {
    var s' := Drop(s, w);
    assert forall v :: v in s'.workers ==> v in s.workers && s'.workers[v] == s.workers[v];
    assert RowsOk(s') && ProcsOk(s') && OpOk(s');
    assert WorkersOk(s') by {
      forall v | v in s'.workers ensures WorkerOk(s', s'.workers[v]) {
        assert WorkerOk(s, s.workers[v]);
      }
    }
    assert OwnersAlone(s') && PhaseOk(s');
  }

  ghost predicate NoOwner(s: State, k: Key) {
    forall v :: v in s.workers && Owner(s.workers[v].pc) ==> s.workers[v].AttemptKey() != k
  }

  lemma InvSetAttemptRow(s: State, id: string, row: Row)
    requires Inv(s) && id in s.rows && RowOk(row) && !row.state.Queued?
    requires row.tries == s.rows[id].tries && row.ref == s.rows[id].ref && NoOwner(s, Key(id, row.tries))
    ensures Inv(SetRow(s, id, row))
  {
    var s' := SetRow(s, id, row);
    assert RowsOk(s') && ProcsOk(s');
    assert WorkersOk(s') by {
      forall v | v in s'.workers ensures WorkerOk(s', s'.workers[v]) {
        assert WorkerOk(s, s.workers[v]);
      }
    }
    assert OwnersAlone(s') && PhaseOk(s') && OpOk(s');
  }

  lemma InvAddPoll(s: State, w: nat, wk: Worker)
    requires Inv(s) && w !in s.workers && WorkerOk(s, wk) && wk.pc == Poll && NoOwner(s, wk.AttemptKey())
    ensures Inv(s.(workers := s.workers[w := wk]))
  {
    var s' := s.(workers := s.workers[w := wk]);
    assert RowsOk(s') && ProcsOk(s') && OpOk(s') && PhaseOk(s');
    assert WorkersOk(s') by {
      forall v | v in s'.workers ensures WorkerOk(s', s'.workers[v]) {
        assert v != w ==> WorkerOk(s, s.workers[v]);
      }
    }
    assert OwnersAlone(s');
  }

  lemma UnappliedWrite(s: State, w: nat, row: Row, next: seq<PC>)
    requires Inv(s) && w in s.workers && s.workers[w].task in s.rows
    requires !Matches(s.rows[s.workers[w].task], s.workers[w].ti.ref)
    ensures WorkerWrite(s, w, row, next) == Drop(s, w) && Inv(Drop(s, w))
  {
    assert SetRow(s, s.workers[w].task, s.rows[s.workers[w].task]).rows == s.rows;
    InvDrop(s, w);
  }

  /** An attempt's own outcome: same try number, same reference, no longer queued. */
  lemma InvAttemptWrite(s: State, w: nat, row: Row, next: seq<PC>)
    requires Inv(s) && w in s.workers && s.workers[w].task in s.rows && RowOk(row)
    requires row.tries == s.workers[w].ti.tries && row.ref == s.workers[w].ti.ref && !row.state.Queued?
    requires next == [] || (next == [Poll] && row.state.Running?)
    ensures Inv(WorkerWrite(s, w, row, next))
  {
    var wk := s.workers[w];
    assert WorkerOk(s, wk);
    if Matches(s.rows[wk.task], wk.ti.ref) {
      assert RowOk(s.rows[wk.task]);
      var gone := Drop(s, w);
      InvDrop(s, w);
      assert NoOwner(gone, wk.AttemptKey()) by { OthersDiffer(s, w); }
      var moved := SetRow(gone, wk.task, row);
      InvSetAttemptRow(gone, wk.task, row);
      if next == [Poll] {
        InvAddPoll(moved, w, wk.(pc := Poll));
        assert WorkerWrite(s, w, row, next) == moved.(workers := moved.workers[w := wk.(pc := Poll)]);
      } else {
        assert WorkerWrite(s, w, row, next) == moved;
      }
    } else {
      UnappliedWrite(s, w, row, next);
    }
  }

  lemma OthersDiffer(s: State, w: nat)
    requires OwnersAlone(s) && w in s.workers
    ensures NoOwner(Drop(s, w), s.workers[w].AttemptKey())
    ensures Owner(s.workers[w].pc) ==>
              forall v :: v in Drop(s, w).workers ==> s.workers[v].AttemptKey() != s.workers[w].AttemptKey()
  {
    assert forall v :: v in Drop(s, w).workers ==> v in s.workers && v != w;
  }

  lemma InvLowerRow(s: State, id: string, row: Row)
    requires Inv(s) && id in s.rows && s.rows[id].tries >= 1
    requires row == GivenBack(s.rows[id]) ||
             row == GivenBack(s.rows[id].(state := row.state, maxRetries := row.maxRetries))
    requires Key(id, s.rows[id].tries) !in s.procs
    requires forall v :: v in s.workers ==> s.workers[v].AttemptKey() != Key(id, s.rows[id].tries)
    ensures Inv(SetRow(s, id, row))
  {
    var s' := SetRow(s, id, row);
    assert RowsOk(s');
    assert ProcsOk(s') by {
      forall k | k in s'.procs ensures 1 <= k.try <= s'.rows[k.task].tries {
        assert k != Key(id, s.rows[id].tries);
      }
    }
    assert WorkersOk(s') by {
      forall v | v in s'.workers ensures WorkerOk(s', s'.workers[v]) {
        assert WorkerOk(s, s.workers[v]);
        assert s.workers[v].AttemptKey() != Key(id, s.rows[id].tries);
      }
    }
    assert OwnersAlone(s') && PhaseOk(s') && OpOk(s');
  }

  /** Undoing a try number is safe: this worker is alone with the attempt, and it never ran. */
  lemma InvGiveBack(s: State, w: nat)
    requires Inv(s) && w in s.workers && s.workers[w].task in s.rows && Owner(s.workers[w].pc)
    requires Matches(s.rows[s.workers[w].task], s.workers[w].ti.ref) ==> s.workers[w].AttemptKey() !in s.procs
    ensures Inv(WorkerWrite(s, w, GivenBack(s.workers[w].ti), []))
  {
    var wk := s.workers[w];
    var row := GivenBack(wk.ti);
    assert WorkerOk(s, wk);
    if Matches(s.rows[wk.task], wk.ti.ref) {
      assert RowOk(s.rows[wk.task]);
      var gone := Drop(s, w);
      InvDrop(s, w);
      OthersDiffer(s, w);
      InvLowerRow(gone, wk.task, row);
      assert WorkerWrite(s, w, row, []) == SetRow(gone, wk.task, row);
    } else {
      UnappliedWrite(s, w, row, []);
    }
  }

  // ---- every step keeps the invariant ----

  lemma InvScheduling(c: Config, s: State, step: Step)
    requires Inv(s) && Enabled(c, s, step)
    requires IsSchedulingStep(step)
    ensures Inv(Do(c, s, step))
  {
    var s' := Do(c, s, step);
    match step
    case Block(t) => InvSetQuietRow(s, t.id, s'.rows[t.id]);
    case SkipReady(t) => InvSetQuietRow(s, t.id, s'.rows[t.id]);
    case FailReady(t) => InvSetQuietRow(s, t.id, s'.rows[t.id]);
    case Requeue(id) => InvSetQuietRow(s, id, s'.rows[id]);
    case _ => SameAttempts(s, s');
  }

  /** The invariant does not look at the run state or the harvest. */
  lemma SameAttempts(s: State, s': State)
    requires Inv(s) && s' == s.(run := s'.run, listed := s'.listed, harvest := s'.harvest)
    ensures Inv(s')
  {
  }

  lemma InvDispatch(s: State, id: string, w: nat)
    requires Inv(s) && id in s.rows && s.rows[id].state.Scheduled? && w !in s.workers && s.phase.Ticking? && s.op.Idle?
    ensures var ti := Dispatched(s.rows[id]);
            Inv(SetRow(s, id, ti).(workers := s.workers[w := Worker(id, ti, Prepare)]))
    ensures Key(id, s.rows[id].tries + 1) !in s.procs
  {
    var ti := Dispatched(s.rows[id]);
    var s' := SetRow(s, id, ti).(workers := s.workers[w := Worker(id, ti, Prepare)]);
    assert forall k :: k in s.procs ==> k.try <= s.rows[k.task].tries;
    assert ProcsOk(s');
    assert WorkersOk(s') by {
      forall v | v in s'.workers ensures WorkerOk(s', s'.workers[v]) {
        assert v != w ==> WorkerOk(s, s.workers[v]);
      }
    }
    assert OwnersAlone(s') by {
      assert forall v :: v in s.workers ==> WorkerOk(s, s.workers[v]);
    }
  }

  /** Dispatch takes a reference under which no process was ever started. */
  lemma InvAdmit(c: Config, s: State, step: Step)
    requires Inv(s) && Enabled(c, s, step) && step.Admit?
    ensures Inv(Do(c, s, step))
    ensures Key(step.id, s.rows[step.id].tries + 1) !in s.procs
  {
    InvDispatch(s, step.id, step.w);
    var ti := Dispatched(s.rows[step.id]);
    SameAttempts(SetRow(s, step.id, ti).(workers := s.workers[step.w := Worker(step.id, ti, Prepare)]), Do(c, s, step));
  }

  lemma InvMoves(c: Config, s: State, step: Step)
    requires Inv(s) && Enabled(c, s, step)
    requires step.Prepared? || step.CheckStops? || step.CheckPasses? || step.NoWorker? || step.LaunchErrs?
    ensures Inv(Do(c, s, step))
  {
    if step.CheckStops? {
      InvDrop(s, step.w);
    } else {
      var pc := if step.Prepared? then Check else if step.CheckPasses? then Launch
                else if step.NoWorker? then GiveBack else LaunchFailed;
      InvSetPc(s, step.w, pc);
    }
  }

  lemma InvProbes(c: Config, s: State, step: Step)
    requires Inv(s) && Enabled(c, s, step)
    requires step.Polls? || step.RecPolls?
    ensures Inv(Do(c, s, step))
  {
    InvSetPc(s, step.w, AfterProbe(s, step.w, Poll, FinishLost));
  }

  lemma InvRecProbes(c: Config, s: State, step: Step)
    requires Inv(s) && Enabled(c, s, step) && step.RecProbes?
    ensures Inv(Do(c, s, step))
  {
    assert WorkerOk(s, s.workers[step.w]);
    InvSetPc(s, step.w, AfterProbe(s, step.w, RecMark, RecReset));
  }

  /** A record appears for an attempt that nobody takes for unlaunched. */
  lemma InvRecord(s: State, k: Key)
    requires Inv(s) && k !in s.procs && k.task in s.rows && 1 <= k.try <= s.rows[k.task].tries
    requires forall v :: v in s.workers && s.workers[v].AttemptKey() == k ==>
               !Unlaunched(s.workers[v].pc) && !s.workers[v].pc.RecReset?
    ensures Inv(s.(procs := s.procs[k := Alive]))
  {
    var s' := s.(procs := s.procs[k := Alive]);
    assert WorkersOk(s') by {
      forall v | v in s'.workers ensures WorkerOk(s', s'.workers[v]) {
        assert WorkerOk(s, s.workers[v]);
      }
    }
  }

  lemma InvLaunched(c: Config, s: State, step: Step)
    requires Inv(s) && Enabled(c, s, step) && step.Launched?
    ensures Inv(Do(c, s, step))
    ensures s.workers[step.w].AttemptKey() !in s.procs
  {
    var wk := s.workers[step.w];
    assert WorkerOk(s, wk);
    InvSetPc(s, step.w, MarkRunning);
    InvRecord(SetPc(s, step.w, MarkRunning), wk.AttemptKey());
  }

  lemma InvMarksRunning(c: Config, s: State, step: Step)
    requires Inv(s) && Enabled(c, s, step)
    requires step.MarksRunning? || step.RecMarks?
    ensures Inv(Do(c, s, step))
  {
    assert WorkerOk(s, s.workers[step.w]);
    InvAttemptWrite(s, step.w, s.workers[step.w].ti.(state := Running), [Poll]);
  }

  lemma InvFailsBeforeLaunch(c: Config, s: State, step: Step)
    requires Inv(s) && Enabled(c, s, step)
    requires step.PrepareFails? || step.FailsLaunch?
    ensures Inv(Do(c, s, step))
  {
    assert WorkerOk(s, s.workers[step.w]);
    InvAttemptWrite(s, step.w, FailedAttempt(s.workers[step.w].ti), []);
  }

  lemma InvFinishes(c: Config, s: State, step: Step)
    requires Inv(s) && Enabled(c, s, step) && step.Finishes?
    ensures Inv(Do(c, s, step))
  {
    var wk := s.workers[step.w];
    assert WorkerOk(s, wk);
    var row := if wk.pc.FinishLost? then FailedAttempt(wk.ti) else FinishedAttempt(wk.ti, wk.pc.code);
    InvAttemptWrite(s, step.w, row, []);
  }

  lemma InvGiveBacks(c: Config, s: State, step: Step)
    requires Inv(s) && Enabled(c, s, step)
    requires step.GivesBack? || step.RecResets?
    ensures Inv(Do(c, s, step))
  {
    assert WorkerOk(s, s.workers[step.w]);
    InvGiveBack(s, step.w);
  }

  /** A record changes, and becomes lost only once its row has left queued. */
  lemma InvSetProc(s: State, k: Key, p: Proc)
    requires Inv(s) && k in s.procs
    requires p.Lost? ==> k.task in s.rows && !(s.rows[k.task].state.Queued? && s.rows[k.task].ref == Attempt(k.try))
    ensures Inv(s.(procs := s.procs[k := p]))
  {
    var s' := s.(procs := s.procs[k := p]);
    assert RowsOk(s') && ProcsOk(s');
    assert WorkersOk(s') by {
      forall w | w in s'.workers ensures WorkerOk(s', s'.workers[w]) {
        assert WorkerOk(s, s.workers[w]);
      }
    }
    assert OwnersAlone(s') && PhaseOk(s') && OpOk(s');
  }

  lemma InvExecutor(c: Config, s: State, step: Step)
    requires Inv(s) && Enabled(c, s, step) && !c.lossy
    requires step.ProcExits? || step.ProcLost?
    ensures Inv(Do(c, s, step))
  {
    InvSetProc(s, step.k, if step.ProcExits? then Exited(step.code) else Lost);
  }

  lemma InvSetRows(s: State, s': State)
    requires Inv(s) && s'.workers == s.workers && s'.procs == s.procs && s'.phase == s.phase
    requires s'.rows.Keys == s.rows.Keys
    requires forall id :: id in s.rows ==>
               s'.rows[id] == s.rows[id] ||
               (RowOk(s'.rows[id]) && Quiet(s'.rows[id]) && s'.rows[id].tries == s.rows[id].tries)
    requires OpOk(s')
    ensures Inv(s')
  {
    assert RowsOk(s') && ProcsOk(s');
    assert WorkersOk(s') by {
      forall w | w in s'.workers ensures WorkerOk(s', s'.workers[w]) {
        assert WorkerOk(s, s.workers[w]);
      }
    }
    assert OwnersAlone(s') && PhaseOk(s');
  }

  lemma InvOpWrite(c: Config, s: State, id: string)
    requires Inv(s) && Enabled(c, s, OpWrite(id))
    ensures Inv(Do(c, s, OpWrite(id)))
  {
    var s' := Do(c, s, OpWrite(id));
    var seen := s.op.todo[id];
    var shorter := s.(op := s'.op);
    assert Inv(shorter) by { InvSetRows(s, shorter); }
    assert SnapshotOk(s, id, seen) && RowOk(s.rows[id]);
    if s.op.Cancelling? || Matches(s.rows[id], seen.ref) {
      InvSetQuietRow(shorter, id, s'.rows[id]);
      assert s' == SetRow(shorter, id, s'.rows[id]);
    } else {
      assert s'.rows == s.rows;
    }
  }

  lemma InvMarkWrite(c: Config, s: State)
    requires Inv(s) && Enabled(c, s, MarkWrite)
    ensures Inv(Do(c, s, MarkWrite))
  {
    var s' := Do(c, s, MarkWrite);
    var idle := s.(op := s'.op);
    InvSetRows(s, idle);
    InvSetQuietRow(idle, s.op.id, s.op.ti);
  }

  lemma InvClearWrite(c: Config, s: State, id: string)
    requires Inv(s) && Enabled(c, s, ClearWrite(id))
    ensures Inv(Do(c, s, ClearWrite(id)))
  {
    var s' := Do(c, s, ClearWrite(id));
    var shorter := s.(op := s'.op);
    assert SnapshotOk(s, id, s.op.todo[id]);
    assert Inv(shorter) by { InvSetRows(s, shorter); }
    InvSetQuietRow(shorter, id, s'.rows[id]);
    assert s' == SetRow(shorter, id, s'.rows[id]);
  }

  lemma InvOpStarts(c: Config, s: State, step: Step)
    requires Inv(s) && Enabled(c, s, step)
    requires step.CancelBegin? || step.TimeoutBegin? || step.RetryBegin?
    ensures Inv(Do(c, s, step))
  {
    assert forall id :: id in s.rows ==> RowOk(s.rows[id]);
    InvSetRows(s, Do(c, s, step));
  }

  lemma InvMarkStarts(c: Config, s: State, step: Step)
    requires Inv(s) && Enabled(c, s, step) && step.MarkBegin?
    ensures Inv(Do(c, s, step))
  {
    assert forall id :: id in s.rows ==> RowOk(s.rows[id]);
    InvSetRows(s, Do(c, s, step));
  }

  lemma InvOpEnds(c: Config, s: State, step: Step)
    requires Inv(s) && Enabled(c, s, step) && (step.OpEnd? || step.Reopen?)
    ensures Inv(Do(c, s, step))
  {
    InvSetRows(s, Do(c, s, step));
  }

  lemma InvOpWrites(c: Config, s: State, step: Step)
    requires Inv(s) && Enabled(c, s, step) && (step.OpWrite? || step.MarkWrite? || step.ClearWrite?)
    ensures Inv(Do(c, s, step))
  {
    if step.OpWrite? {
      InvOpWrite(c, s, step.id);
    } else if step.MarkWrite? {
      InvMarkWrite(c, s);
    } else {
      InvClearWrite(c, s, step.id);
    }
  }

  lemma InvOperators(c: Config, s: State, step: Step)
    requires Inv(s) && Enabled(c, s, step) && IsOperation(step)
    ensures Inv(Do(c, s, step))
  {
    if step.OpWrite? || step.MarkWrite? || step.ClearWrite? {
      InvOpWrites(c, s, step);
    } else if step.OpEnd? || step.Reopen? {
      InvOpEnds(c, s, step);
    } else if step.MarkBegin? {
      InvMarkStarts(c, s, step);
    } else {
      InvOpStarts(c, s, step);
    }
  }

  lemma InvCrash(c: Config, s: State, spawned: map<nat, Worker>, s': State)
    requires Inv(s) && Next(c, s, Crash, spawned, s')
    ensures Inv(s')
  {
    assert RowsOk(s') && ProcsOk(s') && OpOk(s');
    assert WorkersOk(s') by {
      forall w | w in spawned ensures WorkerOk(s', spawned[w]) {
        assert RowOk(s.rows[spawned[w].task]);
      }
    }
    assert OwnersAlone(s') && PhaseOk(s');
  }

  lemma InvRecoveryEnds(s: State, s': State)
    requires Inv(s) && s.phase == RecoverRunning && s' == s.(phase := Ticking)
    requires forall w :: w in s.workers ==> !RecoveryPc(s.workers[w].pc)
    ensures Inv(s')
  {
    assert RowsOk(s') && ProcsOk(s') && OpOk(s');
    forall w | w in s'.workers ensures WorkerOk(s', s'.workers[w]) {
      assert WorkerOk(s, s.workers[w]);
    }
    assert OwnersAlone(s') && PhaseOk(s');
  }

  lemma InvSecondPass(s: State, spawned: map<nat, Worker>, s': State)
    requires Inv(s) && s.phase == RecoverQueued && spawned.Keys !! s.workers.Keys
    requires forall w :: w in s.workers ==> !RecoveryPc(s.workers[w].pc)
    requires Recovered(s.rows, Running, RecRunning, spawned)
    requires s' == s.(phase := RecoverRunning, workers := s.workers + spawned)
    ensures Inv(s')
  {
    assert RowsOk(s') && ProcsOk(s') && OpOk(s');
    forall w | w in s'.workers ensures WorkerOk(s', s'.workers[w]) && !Owner(s'.workers[w].pc) {
      if w in spawned {
        assert RowOk(s.rows[spawned[w].task]);
      } else {
        assert WorkerOk(s, s.workers[w]);
      }
    }
    assert OwnersAlone(s') && PhaseOk(s');
  }

  lemma InvRecoverNext(c: Config, s: State, spawned: map<nat, Worker>, s': State)
    requires Inv(s) && Next(c, s, RecoverNext, spawned, s')
    ensures Inv(s')
  {
    if s.phase == RecoverQueued {
      InvSecondPass(s, spawned, s');
    } else {
      InvRecoveryEnds(s, s');
    }
  }

  lemma InvWorkers(c: Config, s: State, step: Step)
    requires Inv(s) && Enabled(c, s, step) && IsWorkerStep(step)
    ensures Inv(Do(c, s, step))
  {
    if step.Launched? {
      InvLaunched(c, s, step);
    } else if step.GivesBack? || step.RecResets? {
      InvGiveBacks(c, s, step);
    } else if step.MarksRunning? || step.RecMarks? {
      InvMarksRunning(c, s, step);
    } else if step.PrepareFails? || step.FailsLaunch? {
      InvFailsBeforeLaunch(c, s, step);
    } else if step.Finishes? {
      InvFinishes(c, s, step);
    } else if step.Polls? || step.RecPolls? {
      InvProbes(c, s, step);
    } else if step.RecProbes? {
      InvRecProbes(c, s, step);
    } else {
      InvMoves(c, s, step);
    }
  }

  lemma InvDo(c: Config, s: State, step: Step)
    requires Inv(s) && Enabled(c, s, step) && !c.lossy && !step.Crash? && !step.RecoverNext?
    ensures Inv(Do(c, s, step))
  {
    if step.Admit? {
      InvAdmit(c, s, step);
    } else if step.ProcExits? || step.ProcLost? {
      InvExecutor(c, s, step);
    } else if IsOperation(step) {
      InvOperators(c, s, step);
    } else if IsSchedulingStep(step) {
      InvScheduling(c, s, step);
    } else {
      InvWorkers(c, s, step);
    }
  }

  lemma InvNext(c: Config, s: State, step: Step, spawned: map<nat, Worker>, s': State)
    requires Inv(s) && Next(c, s, step, spawned, s') && !c.lossy
    ensures Inv(s')
  {
    if step.Crash? {
      InvCrash(c, s, spawned, s');
    } else if step.RecoverNext? {
      InvRecoverNext(c, s, spawned, s');
    } else {
      InvDo(c, s, step);
    }
  }

  // ---- results about whole executions ----

  lemma {:induction false} InvThroughout(c: Config, trace: seq<State>, events: seq<Event>, i: nat)
    requires Execution(c, trace, events) && !c.lossy && i < |trace|
    ensures Inv(trace[i])
    decreases i
  {
    if i == 0 {
      InvInit(c, trace[0]);
    } else {
      InvThroughout(c, trace, events, i - 1);
      InvNext(c, trace[i - 1], events[i - 1].step, events[i - 1].spawned, trace[i]);
    }
  }

  /** The try number on the row bounds every attempt ever started. */
  lemma LaunchedTriesAreBounded(c: Config, trace: seq<State>, events: seq<Event>, i: nat, k: Key)
    requires Execution(c, trace, events) && !c.lossy && i < |trace| && k in trace[i].procs
    ensures k.task in trace[i].rows && 1 <= k.try <= trace[i].rows[k.task].tries
  {
    InvThroughout(c, trace, events, i);
  }

  function StartedBy(s: State, step: Step): set<Key> {
    if step.Launched? && step.w in s.workers then {s.workers[step.w].AttemptKey()} else {}
  }

  lemma RecordsOfStep(c: Config, s: State, step: Step)
    requires Enabled(c, s, step) && !step.Crash? && !step.RecoverNext?
    ensures Do(c, s, step).procs.Keys == s.procs.Keys + StartedBy(s, step)
  {
    if step.Launched? {
      LaunchRecords(c, s, step);
    } else {
      if IsWrite(step) {
        WritesKeepRegistry(c, s, step);
      } else if IsWorkerStep(step) {
        MovesKeepRegistry(c, s, step);
      } else if IsOperation(step) {
        OperationsKeepRegistry(c, s, step);
      } else if step.ProcExits? || step.ProcLost? {
        ExecutorKeepsRun(c, s, step);
      } else {
        SchedulingKeepsRegistry(c, s, step);
      }
      assert StartedBy(s, step) == {};
    }
  }

  /** The registry grows by what is launched, and by nothing else. */
  lemma RecordsGrow(c: Config, s: State, step: Step, spawned: map<nat, Worker>, s': State)
    requires Next(c, s, step, spawned, s')
    ensures s'.procs.Keys == s.procs.Keys + StartedBy(s, step)
  {
    if step.Crash? || step.RecoverNext? {
      assert s'.procs == s.procs;
    } else {
      RecordsOfStep(c, s, step);
    }
  }

  lemma LaunchRecords(c: Config, s: State, step: Step)
    requires Enabled(c, s, step) && step.Launched?
    ensures Do(c, s, step).procs.Keys == s.procs.Keys + StartedBy(s, step)
  {
  }

  lemma {:induction false} RecordsStayThroughout(c: Config, trace: seq<State>, events: seq<Event>, i: nat, j: nat)
    requires Execution(c, trace, events) && i <= j < |trace|
    ensures trace[i].procs.Keys <= trace[j].procs.Keys
    decreases j - i
  {
    if i < j {
      RecordsGrow(c, trace[i], events[i].step, events[i].spawned, trace[i + 1]);
      RecordsStayThroughout(c, trace, events, i + 1, j);
    }
  }

  ghost predicate LaunchesAt(trace: seq<State>, events: seq<Event>, i: nat, k: Key) {
    i < |events| && i < |trace| && events[i].step.Launched? && events[i].step.w in trace[i].workers &&
    trace[i].workers[events[i].step.w].AttemptKey() == k
  }

  /** Over a whole history, crashes, cancels, retries and marks included, the executor is asked to
      launch each attempt reference at most once. */
  lemma LaunchedAtMostOnce(c: Config, trace: seq<State>, events: seq<Event>, i: nat, j: nat, k: Key)
    requires Execution(c, trace, events) && !c.lossy
    requires LaunchesAt(trace, events, i, k) && LaunchesAt(trace, events, j, k)
    ensures i == j
  {
    var first, second := if i < j then i else j, if i < j then j else i;
    if first < second {
      RecordsGrow(c, trace[first], events[first].step, events[first].spawned, trace[first + 1]);
      RecordsStayThroughout(c, trace, events, first + 1, second);
      InvThroughout(c, trace, events, second);
      assert Next(c, trace[second], events[second].step, events[second].spawned, trace[second + 1]);
      InvLaunched(c, trace[second], events[second].step);
    }
  }

  ghost predicate DispatchesAt(trace: seq<State>, events: seq<Event>, j: nat, k: Key) {
    j < |events| && j < |trace| && events[j].step.Admit? && events[j].step.id in trace[j].rows &&
    k == Key(events[j].step.id, trace[j].rows[events[j].step.id].tries + 1)
  }

  /** Every dispatch picks a reference that no earlier step launched. */
  lemma DispatchIsFresh(c: Config, trace: seq<State>, events: seq<Event>, i: nat, j: nat, k: Key)
    requires Execution(c, trace, events) && !c.lossy
    requires LaunchesAt(trace, events, i, k) && i < j < |events|
    ensures !DispatchesAt(trace, events, j, k)
  {
    RecordsGrow(c, trace[i], events[i].step, events[i].spawned, trace[i + 1]);
    RecordsStayThroughout(c, trace, events, i + 1, j);
    InvThroughout(c, trace, events, j);
    assert Next(c, trace[j], events[j].step, events[j].spawned, trace[j + 1]);
    if events[j].step.Admit? {
      InvAdmit(c, trace[j], events[j].step);
    }
  }

  lemma WriteRespectsOverrides(s: State, w: nat, row: Row, next: seq<PC>, id: string)
    requires w in s.workers && s.workers[w].task in s.rows && id in s.rows
    ensures var s' := WorkerWrite(s, w, row, next);
            id in s'.rows && (s'.rows[id] != s.rows[id] ==>
              id == s.workers[w].task && !s.rows[id].state.IsTerminal() && s.rows[id].ref == s.workers[w].ti.ref)
  {
  }

  lemma MovesKeepRows(c: Config, s: State, step: Step)
    requires Enabled(c, s, step) && IsWorkerStep(step) && !IsWrite(step)
    ensures Do(c, s, step).rows == s.rows
  {
  }

  /** The row a goroutine tries to write, and where it goes if the write applies. */
  lemma WriteOf(c: Config, s: State, step: Step) returns (row: Row, next: seq<PC>)
    requires Enabled(c, s, step) && IsWrite(step)
    ensures step.w in s.workers && s.workers[step.w].task in s.rows
    ensures Do(c, s, step) == WorkerWrite(s, step.w, row, next)
    ensures row.state.Failed? ==> row.tries > row.maxRetries
  {
    var wk := s.workers[step.w];
    next := if step.MarksRunning? || step.RecMarks? then [Poll] else [];
    row :=
      if step.MarksRunning? || step.RecMarks? then wk.ti.(state := Running)
      else if step.GivesBack? || step.RecResets? then GivenBack(wk.ti)
      else if step.Finishes? && !wk.pc.FinishLost? then FinishedAttempt(wk.ti, wk.pc.code)
      else FailedAttempt(wk.ti);
  }

  /** A goroutine changes no terminal row, no row of another task, and no row that carries another
      attempt's reference: an operator's override is never overwritten. */
  lemma WorkersRespectOverrides(c: Config, s: State, step: Step, s': State, id: string)
    requires Next(c, s, step, map[], s') && IsWorkerStep(step) && id in s.rows
    ensures id in s'.rows && step.w in s.workers
    ensures s'.rows[id] != s.rows[id] ==>
              id == s.workers[step.w].task && !s.rows[id].state.IsTerminal() &&
                  s.rows[id].ref == s.workers[step.w].ti.ref
  {
    if IsWrite(step) {
      var row, next := WriteOf(c, s, step);
      WriteRespectsOverrides(s, step.w, row, next, id);
    } else {
      MovesKeepRows(c, s, step);
    }
  }
}
