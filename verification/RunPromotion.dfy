/** Which queued runs a tick starts (processActiveRuns and discardRun in internal/scheduler/scheduler.go):
    never past a cap of its own count, never leaving a slot idle, the most urgent run of a serial_priority
    DAG first. Over histories, in which anything may happen between the tick's listings and its starts:
    exactly when a DAG keeps within its cap, and a serial one never has two running runs. */
module RunPromotion {
  import opened RunQueue
  import opened RunStates
  import opened StableSort

  datatype Tally = Tally(running: map<string, nat>, global: nat, promoted: seq<Run>, discarded: seq<Run>)

  function Count(t: Tally, dag: string): nat {
    if dag in t.running then t.running[dag] else 0
  }

  /** One for serial policies and for DAGs the scheduler does not know. */
  function Cap(dags: Dags, dag: string): (n: nat)
    ensures n >= 1
    ensures dag in dags && !dags[dag].policy.Parallel? ==> n == 1
  {
    if dag !in dags || !dags[dag].policy.Parallel? || dags[dag].maxActiveRuns == 0 then 1 else dags[dag].maxActiveRuns
  }

  predicate Discards(dags: Dags, dag: string) {
    dag in dags && dags[dag].policy.SerialDiscard?
  }

  /** A run may start beside `n` others of its DAG: beside none always, beside some only under the parallel policy
      and below max_active_runs. */
  predicate MayJoin(dags: Dags, dag: string, n: nat) {
    n == 0 || (dag in dags && dags[dag].policy == Parallel && n < dags[dag].maxActiveRuns)
  }

  /** A run that finds another of its DAG is dropped under the serial_discard policy, and under no other. */
  predicate MustGo(dags: Dags, dag: string, n: nat) {
    n > 0 && dag in dags && dags[dag].policy == SerialDiscard
  }

  datatype Fate = GlobalFull | Held | Promoted | Discarded | Waits

  function Judge(dags: Dags, maxGlobal: nat, r: Run, t: Tally): Fate {
    if t.global >= maxGlobal then GlobalFull
    else if r.held then Held
    else if Count(t, r.dag) < Cap(dags, r.dag) then Promoted
    else if Discards(dags, r.dag) then Discarded
    else Waits
  }

  function Settle(dags: Dags, maxGlobal: nat, r: Run, t: Tally): Tally {
    match Judge(dags, maxGlobal, r, t)
    case Promoted =>
      t.(running := t.running[r.dag := Count(t, r.dag) + 1], global := t.global + 1, promoted := t.promoted + [r])
    case Discarded => t.(discarded := t.discarded + [r])
    case _ => t
  }

  /** The tally after the first `n` runs of the queue. */
  function Promote(dags: Dags, maxGlobal: nat, running: seq<Run>, queue: seq<Run>, n: nat): Tally
    requires n <= |queue|
  {
    if n == 0 then Tally(RunsBy(running), |running|, [], [])
    else Settle(dags, maxGlobal, queue[n - 1], Promote(dags, maxGlobal, running, queue, n - 1))
  }

  function FateOf(dags: Dags, maxGlobal: nat, running: seq<Run>, queue: seq<Run>, n: nat): Fate
    requires n < |queue|
  {
    Judge(dags, maxGlobal, queue[n], Promote(dags, maxGlobal, running, queue, n))
  }

  /** What a tick does with its two listings. */
  function TickTally(dags: Dags, maxGlobal: nat, running: seq<Run>, queued: seq<Run>): Tally {
    var queue := Reordered(dags, queued);
    Promote(dags, maxGlobal, running, queue, |queue|)
  }

  method CountRunning(running: seq<Run>) returns (runningBy: map<string, nat>)
    ensures runningBy == RunsBy(running)
  {
    runningBy := map[];
    for k := 0 to |running|
      invariant runningBy == RunsBy(running[..k])
    {
      RunsByNext(running, k);
      var d := running[k].dag;
      runningBy := runningBy[d := (if d in runningBy then runningBy[d] else 0) + 1];
    }
    assert running[..|running|] == running;
  }

  method Limits(dags: Dags, dag: string) returns (maxActive: nat, discards: bool)
    ensures maxActive == Cap(dags, dag) && discards == Discards(dags, dag)
  {
    maxActive, discards := 1, false;
    if dag in dags {
      discards := dags[dag].policy.SerialDiscard?;
      if dags[dag].maxActiveRuns > 0 {
        maxActive := dags[dag].maxActiveRuns;
      }
      if !dags[dag].policy.Parallel? {
        maxActive := 1;
      }
    }
  }

  /** The body of the loop, for one run. */
  method SettleNext(dags: Dags, maxGlobal: nat, r: Run, t: Tally) returns (t': Tally)
    requires t.global < maxGlobal
    ensures t' == Settle(dags, maxGlobal, r, t)
    ensures t'.promoted == t.promoted + if !r.held && MayJoin(dags, r.dag, Count(t, r.dag)) then [r] else []
    ensures t'.discarded == t.discarded + if !r.held && MustGo(dags, r.dag, Count(t, r.dag)) then [r] else []
  {
    if r.held {
      return t;
    }
    var maxActive, discards := Limits(dags, r.dag);
    var active := if r.dag in t.running then t.running[r.dag] else 0;
    if active >= maxActive {
      if discards {
        return t.(discarded := t.discarded + [r]);
      }
      return t;
    }
    t' := Tally(t.running[r.dag := active + 1], t.global + 1, t.promoted + [r], t.discarded);
  }

  /** The promotion loop, over the reordered queue; the runs to start and to discard. */
  method PromoteQueued(dags: Dags, maxGlobal: nat, running: seq<Run>, queued: seq<Run>) returns (t: Tally)
    ensures t == TickTally(dags, maxGlobal, running, queued)
    ensures forall r :: r in t.discarded ==> !r.held && r.dag in dags && dags[r.dag].policy == SerialDiscard
    ensures forall r :: r in t.promoted ==> !r.held
  {
    var queue := ReorderPriorityQueues(dags, queued);
    var runningBy := CountRunning(running);
    t := Tally(runningBy, |running|, [], []);
    for n := 0 to |queue|
      invariant t == Promote(dags, maxGlobal, running, queue, n)
      invariant forall r :: r in t.discarded ==> !r.held && r.dag in dags && dags[r.dag].policy == SerialDiscard
      invariant forall r :: r in t.promoted ==> !r.held
    {
      if t.global >= maxGlobal {
        NothingAfterFull(dags, maxGlobal, running, queue, n, |queue|);
        return;
      }
      t := SettleNext(dags, maxGlobal, queue[n], t);
    }
  }

  lemma {:induction false} NothingAfterFull(dags: Dags, maxGlobal: nat, running: seq<Run>, queue: seq<Run>, n: nat,
      m: nat)
    requires n <= m <= |queue| && Promote(dags, maxGlobal, running, queue, n).global >= maxGlobal
    ensures Promote(dags, maxGlobal, running, queue, m) == Promote(dags, maxGlobal, running, queue, n)
    decreases m
  {
    if n < m {
      NothingAfterFull(dags, maxGlobal, running, queue, n, m - 1);
    }
  }

  // ---- caps ----

  lemma OfDagAppend(runs: seq<Run>, r: Run, dag: string)
    ensures OfDag(runs + [r], dag) == OfDag(runs, dag) + if r.dag == dag then [r] else []
  {
    assert (runs + [r])[..|runs|] == runs;
  }

  ghost predicate TallyOk(dags: Dags, maxGlobal: nat, running: seq<Run>, t: Tally, dag: string) {
    && Count(t, dag) == |OfDag(running, dag)| + |OfDag(t.promoted, dag)|
    && t.global == |running| + |t.promoted|
    && (OfDag(t.promoted, dag) != [] ==> Count(t, dag) <= Cap(dags, dag))
    && (t.promoted != [] ==> t.global <= maxGlobal)
  }

  lemma CapsNext(dags: Dags, maxGlobal: nat, running: seq<Run>, r: Run, t: Tally, dag: string)
    requires TallyOk(dags, maxGlobal, running, t, dag)
    ensures TallyOk(dags, maxGlobal, running, Settle(dags, maxGlobal, r, t), dag)
  {
    OfDagAppend(t.promoted, r, dag);
  }

  /** The tally counts exactly, and no promotion passes its DAG's cap or the global one. */
  lemma {:induction false} CapsHold(dags: Dags, maxGlobal: nat, running: seq<Run>, queue: seq<Run>, n: nat, dag: string)
    requires n <= |queue|
    ensures TallyOk(dags, maxGlobal, running, Promote(dags, maxGlobal, running, queue, n), dag)
    decreases n
  {
    if n == 0 {
      RunsByCounts(running, dag);
    } else {
      CapsHold(dags, maxGlobal, running, queue, n - 1, dag);
      CapsNext(dags, maxGlobal, running, queue[n - 1], Promote(dags, maxGlobal, running, queue, n - 1), dag);
    }
  }

  lemma {:induction false} CountsGrow(dags: Dags, maxGlobal: nat, running: seq<Run>, queue: seq<Run>, m: nat, n: nat,
      dag: string)
    requires m <= n <= |queue|
    ensures Count(Promote(dags, maxGlobal, running, queue, m), dag) <=
            Count(Promote(dags, maxGlobal, running, queue, n), dag)
    ensures Promote(dags, maxGlobal, running, queue, m).global <= Promote(dags, maxGlobal, running, queue, n).global
    decreases n
  {
    if m < n {
      CountsGrow(dags, maxGlobal, running, queue, m, n - 1, dag);
    }
  }

  /** A run that keeps waiting, or is discarded, met a full DAG or a full scheduler, and it is still full. */
  lemma NoSlotIdle(dags: Dags, maxGlobal: nat, running: seq<Run>, queue: seq<Run>, n: nat)
    requires n < |queue|
    ensures var end := Promote(dags, maxGlobal, running, queue, |queue|);
            FateOf(dags, maxGlobal, running, queue, n).Promoted? || queue[n].held ||
            end.global >= maxGlobal || Count(end, queue[n].dag) >= Cap(dags, queue[n].dag)
  {
    CountsGrow(dags, maxGlobal, running, queue, n, |queue|, queue[n].dag);
  }

  // ---- which runs start and which are discarded ----

  /** How many runs of the DAG are running when the tick comes to the `n`th run of the queue. */
  function Beside(dags: Dags, maxGlobal: nat, running: seq<Run>, queue: seq<Run>, n: nat, dag: string): nat
    requires n <= |queue|
  {
    |OfDag(running, dag)| + |OfDag(Promote(dags, maxGlobal, running, queue, n).promoted, dag)|
  }

  /** The tick comes to the `n`th run of the queue before the global limit is reached, and it is not held. */
  predicate Reaches(dags: Dags, maxGlobal: nat, running: seq<Run>, queue: seq<Run>, n: nat)
    requires n < |queue|
  {
    |running| + |Promote(dags, maxGlobal, running, queue, n).promoted| < maxGlobal && !queue[n].held
  }

  lemma FateByPolicy(dags: Dags, maxGlobal: nat, running: seq<Run>, queue: seq<Run>, n: nat)
    requires n < |queue|
    ensures var dag := queue[n].dag;
            var beside := Beside(dags, maxGlobal, running, queue, n, dag);
            var reached := Reaches(dags, maxGlobal, running, queue, n);
            && (FateOf(dags, maxGlobal, running, queue, n).Promoted? <==> reached && MayJoin(dags, dag, beside))
            && (FateOf(dags, maxGlobal, running, queue, n).Discarded? <==> reached && MustGo(dags, dag, beside))
  {
    CapsHold(dags, maxGlobal, running, queue, n, queue[n].dag);
  }

  lemma {:induction false} ListedByFate(dags: Dags, maxGlobal: nat, running: seq<Run>, queue: seq<Run>, n: nat, r: Run)
    requires n <= |queue|
    ensures r in Promote(dags, maxGlobal, running, queue, n).promoted <==>
            exists i :: 0 <= i < n && queue[i] == r && FateOf(dags, maxGlobal, running, queue, i).Promoted?
    ensures r in Promote(dags, maxGlobal, running, queue, n).discarded <==>
            exists i :: 0 <= i < n && queue[i] == r && FateOf(dags, maxGlobal, running, queue, i).Discarded?
    decreases n
  {
    if n > 0 {
      ListedByFate(dags, maxGlobal, running, queue, n - 1, r);
      var fate := FateOf(dags, maxGlobal, running, queue, n - 1);
      assert fate.Promoted? ==> fate == FateOf(dags, maxGlobal, running, queue, n - 1);
    }
  }

  /** A tick starts exactly the runs it reaches with no other of their DAG running, or, for a parallel DAG, with
      fewer than max_active_runs. */
  lemma StartedIff(dags: Dags, maxGlobal: nat, running: seq<Run>, queued: seq<Run>, r: Run)
    ensures r in TickTally(dags, maxGlobal, running, queued).promoted <==>
            var queue := Reordered(dags, queued);
            exists n :: 0 <= n < |queue| && queue[n] == r && Reaches(dags, maxGlobal, running, queue, n) &&
                        var beside := Beside(dags, maxGlobal, running, queue, n, r.dag);
                        beside == 0 ||
                        (r.dag in dags && dags[r.dag].policy == Parallel && beside < dags[r.dag].maxActiveRuns)
  {
    var queue := Reordered(dags, queued);
    ListedByFate(dags, maxGlobal, running, queue, |queue|, r);
    forall n | 0 <= n < |queue|
      ensures FateOf(dags, maxGlobal, running, queue, n).Promoted? <==>
              Reaches(dags, maxGlobal, running, queue, n) &&
              MayJoin(dags, queue[n].dag, Beside(dags, maxGlobal, running, queue, n, queue[n].dag))
    {
      FateByPolicy(dags, maxGlobal, running, queue, n);
    }
  }

  /** A tick discards exactly the runs of serial_discard DAGs that it reaches with another run of the DAG running;
      a run of any other policy that is not started stays queued. */
  lemma DiscardedIff(dags: Dags, maxGlobal: nat, running: seq<Run>, queued: seq<Run>, r: Run)
    ensures r in TickTally(dags, maxGlobal, running, queued).discarded <==>
            var queue := Reordered(dags, queued);
            exists n :: 0 <= n < |queue| && queue[n] == r && Reaches(dags, maxGlobal, running, queue, n) &&
                        r.dag in dags && dags[r.dag].policy == SerialDiscard &&
                        Beside(dags, maxGlobal, running, queue, n, r.dag) > 0
  {
    var queue := Reordered(dags, queued);
    ListedByFate(dags, maxGlobal, running, queue, |queue|, r);
    forall n | 0 <= n < |queue|
      ensures FateOf(dags, maxGlobal, running, queue, n).Discarded? <==>
              Reaches(dags, maxGlobal, running, queue, n) &&
              MustGo(dags, queue[n].dag, Beside(dags, maxGlobal, running, queue, n, queue[n].dag))
    {
      FateByPolicy(dags, maxGlobal, running, queue, n);
    }
  }

  // ---- serial_priority ----

  lemma InDrainOrder(queue: seq<Run>, i: nat, j: nat)
    requires i < j < |queue| && queue[i].dag == queue[j].dag
    requires Sorted(OfDag(queue, queue[i].dag), MoreUrgent)
    ensures !MoreUrgent(queue[j], queue[i])
  {
    var dag := queue[i].dag;
    OfDagAt(queue, i);
    OfDagAt(queue, j);
    assert queue[..j][..i] == queue[..i];
    OfDagFits(queue[..j], i, dag);
  }

  /** A serial_priority DAG starts its most urgent run that is not held: none it leaves queued is more urgent
      than one it starts. */
  lemma MostUrgentFirst(dags: Dags, maxGlobal: nat, running: seq<Run>, queued: seq<Run>, i: nat, j: nat)
    requires i < |queued| && j < |queued|
    requires var queue := Reordered(dags, queued);
             && queue[i].dag == queue[j].dag && !queue[j].held
             && queue[i].dag in dags && dags[queue[i].dag].policy.SerialPriority?
             && FateOf(dags, maxGlobal, running, queue, i).Promoted?
             && !FateOf(dags, maxGlobal, running, queue, j).Promoted?
    ensures !MoreUrgent(Reordered(dags, queued)[j], Reordered(dags, queued)[i])
  {
    var queue := Reordered(dags, queued);
    if j < i {
      CountsGrow(dags, maxGlobal, running, queue, j, i, queue[i].dag);
    } else {
      ReorderedDrains(dags, queued, queue[i].dag);
      if i < j {
        InDrainOrder(queue, i, j);
      }
    }
  }

  // ---- histories ----

  datatype Stored = Stored(run: Run, state: RunState)

  /** The dag_runs table, by run id. */
  type Table = map<string, Stored>

  /** Where processActiveRuns is: it has listed the queue; it has listed the running runs too, and has settled
      the first `n` runs of the reordered queue. */
  datatype Tick = NoTick | Listed(queued: seq<Run>) | Promoting(queue: seq<Run>, running: seq<Run>, n: nat)

  /** `back` are the runs reactivated, and `over` the runs ended, since the tick listed the running runs and
      the queued ones. */
  datatype State = State(table: Table, tick: Tick, back: set<string>, over: set<string>)

  datatype Step =
    | Arrives(run: Run)
    | Ends(id: string, target: RunState)
    | Holds(id: string, held: bool)
    | Reactivates(id: string)
    | ListsQueued(queued: seq<Run>)
    | ListsRunning(running: seq<Run>)
    | Settles(starts: bool)
    | TickEnds

  ghost predicate Lists(table: Table, state: RunState, runs: seq<Run>) {
    && (forall r :: r in runs ==> r.id in table && table[r.id] == Stored(r, state))
    && (forall i, j :: 0 <= i < j < |runs| ==> runs[i].id != runs[j].id)
  }

  /** Reactivates is RetryTask, RetryRun or MarkTask on a run that has ended: none of them looks at the DAG's
      other runs. The tick lists some of the queued runs, then every running one, and settles the queue run by
      run; each is a step of its own, and anything may happen in between. A tick that crashes ends. */
  ghost predicate Enabled(s: State, step: Step) {
    match step
    case Arrives(run) => run.id !in s.table
    case Ends(id, target) => id in s.table && target.Ended()
    case Holds(id, _) => id in s.table
    case Reactivates(id) => id in s.table && s.table[id].state.Ended()
    case ListsQueued(queued) => s.tick.NoTick? && Lists(s.table, RunQueued, queued)
    case ListsRunning(running) =>
      && s.tick.Listed? && Lists(s.table, RunRunning, running)
      && (forall id :: id in s.table && s.table[id].state.RunRunning? ==> s.table[id].run in running)
    case Settles(_) => s.tick.Promoting? && s.tick.n < |s.tick.queue|
    case TickEnds => !s.tick.NoTick?
  }

  /** What the tick decides about the next run of its queue, from its own listings. */
  function NextFate(dags: Dags, maxGlobal: nat, s: State): Fate
    requires s.tick.Promoting? && s.tick.n < |s.tick.queue|
  {
    FateOf(dags, maxGlobal, s.tick.running, s.tick.queue, s.tick.n)
  }

  /** The store lets a run that is not running start, and a queued or running one be discarded, whatever the
      tick's listing said of it. */
  predicate CanStart(table: Table, id: string) {
    id in table && table[id].state in LegalPrior(RunRunning)
  }

  predicate CanDiscard(table: Table, id: string) {
    id in table && table[id].state in LegalPrior(RunCancelled)
  }

  function SetState(table: Table, id: string, state: RunState): Table
    requires id in table
  {
    table[id := table[id].(state := state)]
  }

  /** `starts` is false when processRun fails before it writes the run's state. */
  function Settled(dags: Dags, maxGlobal: nat, s: State, starts: bool): Table
    requires s.tick.Promoting? && s.tick.n < |s.tick.queue|
  {
    var fate, id := NextFate(dags, maxGlobal, s), s.tick.queue[s.tick.n].id;
    if fate.Promoted? && starts && CanStart(s.table, id) then SetState(s.table, id, RunRunning)
    else if fate.Discarded? && CanDiscard(s.table, id) then SetState(s.table, id, RunCancelled)
    else s.table
  }

  ghost function Do(dags: Dags, maxGlobal: nat, s: State, step: Step): State
    requires Enabled(s, step)
  {
    match step
    case Arrives(run) => s.(table := s.table[run.id := Stored(run, RunQueued)])
    case Ends(id, target) => s.(table := SetState(s.table, id, target), over := s.over + {id})
    case Holds(id, held) => s.(table := s.table[id := s.table[id].(run := s.table[id].run.(held := held))])
    case Reactivates(id) => s.(table := SetState(s.table, id, RunRunning), back := s.back + {id})
    case ListsQueued(queued) => s.(tick := Listed(queued), over := {})
    case ListsRunning(running) =>
      s.(tick := Promoting(Reordered(dags, s.tick.queued), running, 0), back := {})
    case Settles(starts) =>
      s.(table := Settled(dags, maxGlobal, s, starts), tick := s.tick.(n := s.tick.n + 1))
    case TickEnds => s.(tick := NoTick)
  }

  ghost predicate History(dags: Dags, maxGlobal: nat, trace: seq<State>, steps: seq<Step>) {
    && |trace| == |steps| + 1 && trace[0] == State(map[], NoTick, {}, {})
    && forall i :: 0 <= i < |steps| ==>
       Enabled(trace[i], steps[i]) && trace[i + 1] == Do(dags, maxGlobal, trace[i], steps[i])
  }

  ghost function RunningIn(table: Table, dag: string): set<string> {
    set id | id in table && table[id].state.RunRunning? && table[id].run.dag == dag
  }

  // ---- what the tick has counted ----

  ghost function IdsOf(runs: seq<Run>): set<string> {
    set r | r in runs :: r.id
  }

  lemma {:induction false} IdsAtMost(runs: seq<Run>)
    ensures |IdsOf(runs)| <= |runs|
    decreases |runs|
  {
    if runs != [] {
      var n := |runs| - 1;
      IdsAtMost(runs[..n]);
      assert runs == runs[..n] + [runs[n]];
      assert IdsOf(runs) == IdsOf(runs[..n]) + {runs[n].id};
    } else {
      assert IdsOf(runs) == {};
    }
  }

  lemma {:induction false} Smaller(a: set<string>, b: set<string>)
    requires a <= b
    ensures |a| <= |b|
    decreases a
  {
    if x :| x in a {
      Smaller(a - {x}, b - {x});
    }
  }

  predicate Known(table: Table, r: Run) {
    r.id in table && table[r.id].run.id == r.id && table[r.id].run.dag == r.dag
  }

  ghost predicate KeyedById(table: Table) {
    forall id :: id in table ==> table[id].run.id == id
  }

  ghost predicate TickKnown(s: State) {
    match s.tick
    case NoTick => true
    case Listed(queued) => forall r :: r in queued ==> Known(s.table, r)
    case Promoting(queue, _, n) => n <= |queue| && forall r :: r in queue ==> Known(s.table, r)
  }

  /** The runs the tick has counted for the DAG: those it listed as running and those it has promoted. */
  ghost function CountedIds(dags: Dags, maxGlobal: nat, tick: Tick, dag: string): set<string>
    requires tick.Promoting? && tick.n <= |tick.queue|
  {
    var t := Promote(dags, maxGlobal, tick.running, tick.queue, tick.n);
    IdsOf(OfDag(tick.running, dag)) + IdsOf(OfDag(t.promoted, dag))
  }

  /** Every running run that the tick has not counted was reactivated since its listing. */
  ghost predicate Counted(dags: Dags, maxGlobal: nat, s: State, dag: string) {
    s.tick.Promoting? && s.tick.n <= |s.tick.queue| ==>
      RunningIn(s.table, dag) <= CountedIds(dags, maxGlobal, s.tick, dag) + s.back
  }

  ghost predicate Tracks(dags: Dags, maxGlobal: nat, s: State, dag: string) {
    KeyedById(s.table) && TickKnown(s) && Counted(dags, maxGlobal, s, dag)
  }

  lemma IdsAppend(runs: seq<Run>, r: Run, dag: string)
    ensures IdsOf(OfDag(runs + [r], dag)) == IdsOf(OfDag(runs, dag)) + if r.dag == dag then {r.id} else {}
  {
    OfDagAppend(runs, r, dag);
  }

  lemma TracksSettles(dags: Dags, maxGlobal: nat, s: State, starts: bool, dag: string)
    requires Tracks(dags, maxGlobal, s, dag) && Enabled(s, Settles(starts))
    ensures Tracks(dags, maxGlobal, Do(dags, maxGlobal, s, Settles(starts)), dag)
  {
    var s' := Do(dags, maxGlobal, s, Settles(starts));
    var r := s.tick.queue[s.tick.n];
    assert r in s.tick.queue && Known(s.table, r);
    var t := Promote(dags, maxGlobal, s.tick.running, s.tick.queue, s.tick.n);
    IdsAppend(t.promoted, r, dag);
    assert RunningIn(s'.table, dag) <=
           RunningIn(s.table, dag) + if r.dag == dag && NextFate(dags, maxGlobal, s).Promoted? then {r.id} else {};
  }

  lemma TracksListing(dags: Dags, maxGlobal: nat, s: State, running: seq<Run>, dag: string)
    requires Tracks(dags, maxGlobal, s, dag) && Enabled(s, ListsRunning(running))
    ensures Tracks(dags, maxGlobal, Do(dags, maxGlobal, s, ListsRunning(running)), dag)
  {
    var s' := Do(dags, maxGlobal, s, ListsRunning(running));
    ReorderedPermutes(dags, s.tick.queued);
    forall r | r in s'.tick.queue ensures Known(s'.table, r) {
      assert r in multiset(s'.tick.queue);
      assert r in s.tick.queued;
    }
    OfDagMembers(running, dag);
    forall id | id in RunningIn(s.table, dag) ensures id in IdsOf(OfDag(running, dag)) {
      assert s.table[id].run in OfDag(running, dag);
    }
  }

  lemma TracksStep(dags: Dags, maxGlobal: nat, s: State, step: Step, dag: string)
    requires Tracks(dags, maxGlobal, s, dag) && Enabled(s, step)
    ensures Tracks(dags, maxGlobal, Do(dags, maxGlobal, s, step), dag)
  {
    if step.Settles? {
      TracksSettles(dags, maxGlobal, s, step.starts, dag);
    } else if step.ListsRunning? {
      TracksListing(dags, maxGlobal, s, step.running, dag);
    } else if !step.ListsQueued? && !step.TickEnds? {
      var s' := Do(dags, maxGlobal, s, step);
      assert s.back <= s'.back && RunningIn(s'.table, dag) <= RunningIn(s.table, dag) + s'.back;
    }
  }

  lemma {:induction false} TracksThroughout(dags: Dags, maxGlobal: nat, trace: seq<State>, steps: seq<Step>, i: nat,
      dag: string)
    requires History(dags, maxGlobal, trace, steps) && i < |trace|
    ensures Tracks(dags, maxGlobal, trace[i], dag)
    decreases i
  {
    if i > 0 {
      TracksThroughout(dags, maxGlobal, trace, steps, i - 1, dag);
      TracksStep(dags, maxGlobal, trace[i - 1], steps[i - 1], dag);
    }
  }

  // ---- the caps over histories ----

  predicate ReactivatesIn(s: State, step: Step, dag: string) {
    step.Reactivates? && step.id in s.table && s.table[step.id].run.dag == dag
  }

  /** The tick makes a run running. */
  predicate StartsRun(dags: Dags, maxGlobal: nat, s: State, step: Step) {
    && step.Settles? && step.starts && s.tick.Promoting? && s.tick.n < |s.tick.queue|
    && NextFate(dags, maxGlobal, s).Promoted? && CanStart(s.table, s.tick.queue[s.tick.n].id)
  }

  predicate StartsIn(dags: Dags, maxGlobal: nat, s: State, step: Step, dag: string) {
    StartsRun(dags, maxGlobal, s, step) && s.tick.queue[s.tick.n].dag == dag
  }

  /** A run of the DAG that was reactivated since the tick listed the running ones is running. */
  ghost predicate OneIsBack(s: State, dag: string) {
    RunningIn(s.table, dag) * s.back != {}
  }

  ghost predicate Room(dags: Dags, s: State, dag: string) {
    |RunningIn(s.table, dag)| < Cap(dags, dag)
  }

  /** A reactivation, and a start past one that came since the listing, finds the DAG below its cap. */
  ghost predicate FindsRoom(dags: Dags, maxGlobal: nat, s: State, step: Step, dag: string) {
    && (ReactivatesIn(s, step, dag) ==> Room(dags, s, dag))
    && (StartsIn(dags, maxGlobal, s, step, dag) && OneIsBack(s, dag) ==> Room(dags, s, dag))
  }

  /** The tick's own count is enough when nobody is back. */
  lemma CountLeavesRoom(dags: Dags, maxGlobal: nat, s: State, step: Step, dag: string)
    requires Tracks(dags, maxGlobal, s, dag) && StartsIn(dags, maxGlobal, s, step, dag) && !OneIsBack(s, dag)
    ensures Room(dags, s, dag)
  {
    var tick := s.tick;
    var t := Promote(dags, maxGlobal, tick.running, tick.queue, tick.n);
    CapsHold(dags, maxGlobal, tick.running, tick.queue, tick.n, dag);
    var listed, promoted := IdsOf(OfDag(tick.running, dag)), IdsOf(OfDag(t.promoted, dag));
    forall id | id in RunningIn(s.table, dag) ensures id in listed + promoted {
      assert id !in RunningIn(s.table, dag) * s.back;
    }
    Smaller(RunningIn(s.table, dag), listed + promoted);
    IdsAtMost(OfDag(tick.running, dag));
    IdsAtMost(OfDag(t.promoted, dag));
  }

  lemma AddsOne(dags: Dags, maxGlobal: nat, s: State, step: Step, dag: string)
    requires TickKnown(s) && Enabled(s, step)
    requires ReactivatesIn(s, step, dag) || StartsIn(dags, maxGlobal, s, step, dag)
    ensures |RunningIn(Do(dags, maxGlobal, s, step).table, dag)| == |RunningIn(s.table, dag)| + 1
  {
    var id := if step.Reactivates? then step.id else s.tick.queue[s.tick.n].id;
    assert step.Settles? ==> s.tick.queue[s.tick.n] in s.tick.queue;
    assert RunningIn(Do(dags, maxGlobal, s, step).table, dag) == RunningIn(s.table, dag) + {id};
  }

  lemma NothingStarts(dags: Dags, maxGlobal: nat, s: State, step: Step, dag: string)
    requires TickKnown(s) && Enabled(s, step)
    requires !ReactivatesIn(s, step, dag) && !StartsIn(dags, maxGlobal, s, step, dag)
    ensures RunningIn(Do(dags, maxGlobal, s, step).table, dag) <= RunningIn(s.table, dag)
  {
    assert step.Settles? ==> s.tick.queue[s.tick.n] in s.tick.queue;
  }

  lemma StepWithinCap(dags: Dags, maxGlobal: nat, s: State, step: Step, dag: string)
    requires Tracks(dags, maxGlobal, s, dag) && Enabled(s, step) && FindsRoom(dags, maxGlobal, s, step, dag)
    requires |RunningIn(s.table, dag)| <= Cap(dags, dag)
    ensures |RunningIn(Do(dags, maxGlobal, s, step).table, dag)| <= Cap(dags, dag)
  {
    if ReactivatesIn(s, step, dag) || StartsIn(dags, maxGlobal, s, step, dag) {
      if !step.Reactivates? && !OneIsBack(s, dag) {
        CountLeavesRoom(dags, maxGlobal, s, step, dag);
      }
      AddsOne(dags, maxGlobal, s, step, dag);
    } else {
      NothingStarts(dags, maxGlobal, s, step, dag);
      Smaller(RunningIn(Do(dags, maxGlobal, s, step).table, dag), RunningIn(s.table, dag));
    }
  }

  ghost predicate AlwaysFindRoom(dags: Dags, maxGlobal: nat, trace: seq<State>, steps: seq<Step>, dag: string) {
    forall i :: 0 <= i < |steps| && i < |trace| ==> FindsRoom(dags, maxGlobal, trace[i], steps[i], dag)
  }

  ghost predicate AlwaysWithin(dags: Dags, trace: seq<State>, dag: string) {
    forall i :: 0 <= i < |trace| ==> |RunningIn(trace[i].table, dag)| <= Cap(dags, dag)
  }

  lemma {:induction false} CapThroughout(dags: Dags, maxGlobal: nat, trace: seq<State>, steps: seq<Step>, i: nat,
      dag: string)
    requires History(dags, maxGlobal, trace, steps) && AlwaysFindRoom(dags, maxGlobal, trace, steps, dag)
    requires i < |trace|
    ensures |RunningIn(trace[i].table, dag)| <= Cap(dags, dag)
    decreases i
  {
    if i > 0 {
      CapThroughout(dags, maxGlobal, trace, steps, i - 1, dag);
      TracksThroughout(dags, maxGlobal, trace, steps, i - 1, dag);
      assert FindsRoom(dags, maxGlobal, trace[i - 1], steps[i - 1], dag);
      StepWithinCap(dags, maxGlobal, trace[i - 1], steps[i - 1], dag);
    } else {
      assert RunningIn(trace[0].table, dag) == {};
    }
  }

  lemma WithinMeansRoom(dags: Dags, maxGlobal: nat, trace: seq<State>, steps: seq<Step>, i: nat, dag: string)
    requires History(dags, maxGlobal, trace, steps) && AlwaysWithin(dags, trace, dag) && i < |steps|
    ensures FindsRoom(dags, maxGlobal, trace[i], steps[i], dag)
  {
    TracksThroughout(dags, maxGlobal, trace, steps, i, dag);
    assert |RunningIn(trace[i + 1].table, dag)| <= Cap(dags, dag);
    if ReactivatesIn(trace[i], steps[i], dag) || StartsIn(dags, maxGlobal, trace[i], steps[i], dag) {
      AddsOne(dags, maxGlobal, trace[i], steps[i], dag);
    }
  }

  /** Over any history of a fixed definition a DAG keeps within its cap if and only if every reactivation of
      one of its runs finds it below the cap, and so does every start by a tick while a run that was
      reactivated since the tick's listing is running. */
  lemma CapKeptIff(dags: Dags, maxGlobal: nat, trace: seq<State>, steps: seq<Step>, dag: string)
    requires History(dags, maxGlobal, trace, steps)
    ensures AlwaysWithin(dags, trace, dag) <==> AlwaysFindRoom(dags, maxGlobal, trace, steps, dag)
  {
    if AlwaysFindRoom(dags, maxGlobal, trace, steps, dag) {
      forall i | 0 <= i < |trace| ensures |RunningIn(trace[i].table, dag)| <= Cap(dags, dag) {
        CapThroughout(dags, maxGlobal, trace, steps, i, dag);
      }
    }
    if AlwaysWithin(dags, trace, dag) {
      forall i | 0 <= i < |steps| ensures FindsRoom(dags, maxGlobal, trace[i], steps[i], dag) {
        WithinMeansRoom(dags, maxGlobal, trace, steps, i, dag);
      }
    }
  }

  /** Over any history: the tick cancels a run only of a serial_discard DAG, not listed as held, and with another
      run of the DAG listed as running or started by the same tick. */
  lemma TickCancelsOnlyDiscards(dags: Dags, maxGlobal: nat, trace: seq<State>, steps: seq<Step>, i: nat, id: string)
    requires History(dags, maxGlobal, trace, steps) && i < |steps| && steps[i].Settles?
    requires id in trace[i].table && trace[i].table[id].state != RunCancelled
    requires id in trace[i + 1].table && trace[i + 1].table[id].state == RunCancelled
    ensures trace[i].tick.Promoting? && trace[i].tick.n < |trace[i].tick.queue|
    ensures var tick := trace[i].tick;
            var r, t := tick.queue[tick.n], Promote(dags, maxGlobal, tick.running, tick.queue, tick.n);
            && r.id == id && !r.held && r.dag in dags && dags[r.dag].policy == SerialDiscard
            && exists other :: other in tick.running + t.promoted && other.dag == r.dag
  {
    assert Enabled(trace[i], steps[i]) && trace[i + 1] == Do(dags, maxGlobal, trace[i], steps[i]);
    var tick := trace[i].tick;
    var r, t := tick.queue[tick.n], Promote(dags, maxGlobal, tick.running, tick.queue, tick.n);
    FateByPolicy(dags, maxGlobal, tick.running, tick.queue, tick.n);
    OfDagMembers(tick.running, r.dag);
    OfDagMembers(t.promoted, r.dag);
    if OfDag(tick.running, r.dag) != [] {
      assert OfDag(tick.running, r.dag)[0] in OfDag(tick.running, r.dag);
    } else {
      assert OfDag(t.promoted, r.dag)[0] in OfDag(t.promoted, r.dag);
    }
  }

  ghost predicate AtMostOneRunning(trace: seq<State>, dag: string) {
    forall i, a, b ::
      0 <= i < |trace| && a in RunningIn(trace[i].table, dag) && b in RunningIn(trace[i].table, dag) ==> a == b
  }

  /** No reactivation of the DAG's runs happens while one of them is running. */
  ghost predicate ReactivatedAlone(trace: seq<State>, steps: seq<Step>, dag: string) {
    forall i :: 0 <= i < |steps| && i < |trace| && ReactivatesIn(trace[i], steps[i], dag) ==>
        RunningIn(trace[i].table, dag) == {}
  }

  /** No tick starts a run of the DAG while one that was reactivated since the tick's listing is running. */
  ghost predicate StartedAlone(dags: Dags, maxGlobal: nat, trace: seq<State>, steps: seq<Step>, dag: string) {
    forall i :: 0 <= i < |steps| && i < |trace| && StartsIn(dags, maxGlobal, trace[i], steps[i], dag) ==>
        !OneIsBack(trace[i], dag)
  }

  lemma OneIsAtMostOne(ids: set<string>)
    ensures |ids| <= 1 <==> forall a, b :: a in ids && b in ids ==> a == b
  {
    if |ids| <= 1 {
      forall a, b | a in ids && b in ids ensures a == b {
        if a != b { Smaller({a, b}, ids); }
      }
    } else {
      var a :| a in ids;
      assert |ids - {a}| == |ids| - 1;
      var b :| b in ids - {a};
      assert a in ids && b in ids && a != b;
    }
  }

  lemma SerialRoom(dags: Dags, maxGlobal: nat, s: State, step: Step, dag: string)
    requires dag in dags && !dags[dag].policy.Parallel?
    ensures FindsRoom(dags, maxGlobal, s, step, dag) <==>
              && (ReactivatesIn(s, step, dag) ==> RunningIn(s.table, dag) == {})
              && (StartsIn(dags, maxGlobal, s, step, dag) ==> !OneIsBack(s, dag))
  {
    assert Room(dags, s, dag) <==> RunningIn(s.table, dag) == {};
    assert RunningIn(s.table, dag) == {} ==> !OneIsBack(s, dag);
  }

  /** A DAG with a serial policy never has two running runs if and only if no run of it is reactivated while
      another one is running, and no tick starts one while a run reactivated since its listing is running. */
  lemma SerialNeverTwoIff(dags: Dags, maxGlobal: nat, trace: seq<State>, steps: seq<Step>, dag: string)
    requires History(dags, maxGlobal, trace, steps) && dag in dags && !dags[dag].policy.Parallel?
    ensures AtMostOneRunning(trace, dag) <==>
              ReactivatedAlone(trace, steps, dag) && StartedAlone(dags, maxGlobal, trace, steps, dag)
  {
    CapKeptIff(dags, maxGlobal, trace, steps, dag);
    assert AtMostOneRunning(trace, dag) <==> AlwaysWithin(dags, trace, dag) by {
      forall i | 0 <= i < |trace|
        ensures |RunningIn(trace[i].table, dag)| <= 1 <==>
                  forall a, b :: a in RunningIn(trace[i].table, dag) && b in RunningIn(trace[i].table, dag) ==> a == b
      {
        OneIsAtMostOne(RunningIn(trace[i].table, dag));
      }
    }
    SerialRoomThroughout(dags, maxGlobal, trace, steps, dag);
  }

  lemma SerialRoomThroughout(dags: Dags, maxGlobal: nat, trace: seq<State>, steps: seq<Step>, dag: string)
    requires dag in dags && !dags[dag].policy.Parallel?
    ensures AlwaysFindRoom(dags, maxGlobal, trace, steps, dag) <==>
              ReactivatedAlone(trace, steps, dag) && StartedAlone(dags, maxGlobal, trace, steps, dag)
  {
    forall i | 0 <= i < |steps| && i < |trace|
      ensures FindsRoom(dags, maxGlobal, trace[i], steps[i], dag) <==>
                && (ReactivatesIn(trace[i], steps[i], dag) ==> RunningIn(trace[i].table, dag) == {})
                && (StartsIn(dags, maxGlobal, trace[i], steps[i], dag) ==> !OneIsBack(trace[i], dag))
    {
      SerialRoom(dags, maxGlobal, trace[i], steps[i], dag);
    }
  }

  // ---- the two ways to run beside another run ----

  function First(dag: string): Run {
    Run("r1", dag, 0, 1, false)
  }

  function Second(dag: string): Run {
    Run("r2", dag, 0, 2, false)
  }

  ghost predicate Happens(dags: Dags, maxGlobal: nat, trace: seq<State>, steps: seq<Step>, s: State) {
    History(dags, maxGlobal, trace, steps) && trace[|steps|] == s
  }

  lemma Then(dags: Dags, maxGlobal: nat, trace: seq<State>, steps: seq<Step>, s: State, step: Step)
    returns (trace': seq<State>, steps': seq<Step>, s': State)
    requires Happens(dags, maxGlobal, trace, steps, s) && Enabled(s, step)
    ensures s' == Do(dags, maxGlobal, s, step) && Happens(dags, maxGlobal, trace', steps', s')
    ensures trace' == trace + [s'] && steps' == steps + [step]
  {
    s' := Do(dags, maxGlobal, s, step);
    trace', steps' := trace + [s'], steps + [step];
  }

  lemma OneIsInOrder(dags: Dags, r: Run)
    ensures Reordered(dags, [r]) == [r]
  {
    ReorderedPermutes(dags, [r]);
    var queue := Reordered(dags, [r]);
    assert |queue| == 1;
    assert multiset(queue)[queue[0]] == multiset([r])[queue[0]];
  }

  /** A run arrives and is listed, nothing running. */
  lemma QueueOne(dags: Dags, maxGlobal: nat, trace: seq<State>, steps: seq<Step>, s: State, r: Run)
    returns (trace': seq<State>, steps': seq<Step>, s': State)
    requires Happens(dags, maxGlobal, trace, steps, s) && s.tick.NoTick? && r.id !in s.table
    requires forall id :: id in s.table ==> !s.table[id].state.RunRunning?
    ensures Happens(dags, maxGlobal, trace', steps', s')
    ensures s' == State(s.table[r.id := Stored(r, RunQueued)], Promoting([r], [], 0), {}, {})
    ensures steps' == steps + [Arrives(r), ListsQueued([r]), ListsRunning([])]
  {
    OneIsInOrder(dags, r);
    trace', steps', s' := Then(dags, maxGlobal, trace, steps, s, Arrives(r));
    trace', steps', s' := Then(dags, maxGlobal, trace', steps', s', ListsQueued([r]));
    trace', steps', s' := Then(dags, maxGlobal, trace', steps', s', ListsRunning([]));
  }

  lemma OneIsPromoted(dags: Dags, maxGlobal: nat, s: State, r: Run)
    requires maxGlobal >= 1 && !r.held && s.tick == Promoting([r], [], 0)
    ensures NextFate(dags, maxGlobal, s).Promoted?
  {
    assert Promote(dags, maxGlobal, [], [r], 0) == Tally(RunsBy([]), 0, [], []);
  }

  /** r1 has run and ended; r2 is queued, and a tick has listed it and no running run. */
  lemma SecondIsListed(dags: Dags, maxGlobal: nat, dag: string)
    returns (trace: seq<State>, steps: seq<Step>, s: State)
    requires maxGlobal >= 1
    ensures Happens(dags, maxGlobal, trace, steps, s)
    ensures s.tick == Promoting([Second(dag)], [], 0) && s.back == {}
    ensures s.table == map["r1" := Stored(First(dag), RunFailed), "r2" := Stored(Second(dag), RunQueued)]
    ensures forall step :: step in steps ==> !step.Reactivates?
  {
    s := State(map[], NoTick, {}, {});
    trace, steps := [s], [];
    trace, steps, s := QueueOne(dags, maxGlobal, trace, steps, s, First(dag));
    OneIsPromoted(dags, maxGlobal, s, First(dag));
    trace, steps, s := Then(dags, maxGlobal, trace, steps, s, Settles(true));
    trace, steps, s := Then(dags, maxGlobal, trace, steps, s, TickEnds);
    trace, steps, s := Then(dags, maxGlobal, trace, steps, s, Ends("r1", RunFailed));
    trace, steps, s := QueueOne(dags, maxGlobal, trace, steps, s, Second(dag));
  }

  lemma BothRun(trace: seq<State>, i: nat, dag: string)
    requires i < |trace| && "r1" in RunningIn(trace[i].table, dag) && "r2" in RunningIn(trace[i].table, dag)
    ensures !AtMostOneRunning(trace, dag)
  {
  }

  /** Whatever the policy and the caps, a finished run can be retried, or one of its tasks marked, while the
      next run is running: then both are. */
  lemma ReactivationRunsTwo(dags: Dags, maxGlobal: nat, dag: string) returns (trace: seq<State>, steps: seq<Step>)
    requires maxGlobal >= 1
    ensures History(dags, maxGlobal, trace, steps) && !AtMostOneRunning(trace, dag)
    ensures StartedAlone(dags, maxGlobal, trace, steps, dag)
  {
    var s;
    trace, steps, s := SecondIsListed(dags, maxGlobal, dag);
    NobodyBack(dags, maxGlobal, trace, steps, |steps|);
    OneIsPromoted(dags, maxGlobal, s, Second(dag));
    trace, steps, s := Then(dags, maxGlobal, trace, steps, s, Settles(true));
    trace, steps, s := Then(dags, maxGlobal, trace, steps, s, Reactivates("r1"));
    BothRun(trace, |steps|, dag);
  }

  /** Or it is retried while nothing of the DAG is running, and the tick, which has listed the running runs
      before that, starts the next run beside it. */
  lemma ReactivationInsideTickRunsTwo(dags: Dags, maxGlobal: nat, dag: string)
    returns (trace: seq<State>, steps: seq<Step>)
    requires maxGlobal >= 1
    ensures History(dags, maxGlobal, trace, steps) && !AtMostOneRunning(trace, dag)
    ensures ReactivatedAlone(trace, steps, dag)
  {
    var s;
    trace, steps, s := SecondIsListed(dags, maxGlobal, dag);
    assert RunningIn(s.table, dag) == {};
    var n := |steps|;
    assert forall i :: 0 <= i < n ==> steps[i] in steps;
    OneIsPromoted(dags, maxGlobal, s, Second(dag));
    trace, steps, s := Then(dags, maxGlobal, trace, steps, s, Reactivates("r1"));
    OneIsPromoted(dags, maxGlobal, s, Second(dag));
    trace, steps, s := Then(dags, maxGlobal, trace, steps, s, Settles(true));
    BothRun(trace, |steps|, dag);
  }

  /** Without a reactivation nobody is back. */
  lemma {:induction false} NobodyBack(dags: Dags, maxGlobal: nat, trace: seq<State>, steps: seq<Step>, i: nat)
    requires History(dags, maxGlobal, trace, steps) && i < |trace|
    requires forall step :: step in steps ==> !step.Reactivates?
    ensures forall k :: 0 <= k <= i ==> trace[k].back == {}
    decreases i
  {
    if i > 0 {
      NobodyBack(dags, maxGlobal, trace, steps, i - 1);
      assert steps[i - 1] in steps;
    }
  }

  // ---- a run that ends before the tick reaches it ----

  ghost predicate DistinctRuns(runs: seq<Run>) {
    forall i, j :: 0 <= i < j < |runs| ==> runs[i].id != runs[j].id
  }

  lemma {:induction false} TwoPlaces<T>(s: seq<T>, i: nat, j: nat)
    requires i < j < |s| && s[i] == s[j]
    ensures multiset(s)[s[i]] >= 2
  {
    assert s == s[..j] + [s[j]] + s[j + 1..];
    assert s[..j][i] == s[i];
  }

  lemma {:induction false} DistinctIsOnce(runs: seq<Run>, r: Run)
    requires DistinctRuns(runs)
    ensures multiset(runs)[r] <= 1
    decreases |runs|
  {
    if runs != [] {
      var n := |runs| - 1;
      var front := runs[..n];
      assert runs == front + [runs[n]];
      forall i, j | 0 <= i < j < |front| ensures front[i].id != front[j].id {
        assert runs[i].id != runs[j].id;
      }
      DistinctIsOnce(front, r);
      forall i | 0 <= i < n ensures front[i] != runs[n] {
        assert runs[i].id != runs[n].id;
      }
    }
  }

  lemma MembersDiffer(runs: seq<Run>, a: Run, b: Run)
    requires DistinctRuns(runs) && a in runs && b in runs && a.id == b.id
    ensures a == b
  {
    var i :| 0 <= i < |runs| && runs[i] == a;
    var j :| 0 <= j < |runs| && runs[j] == b;
    assert !(i < j) && !(j < i);
  }

  lemma ReorderedDistinct(dags: Dags, queued: seq<Run>)
    requires DistinctRuns(queued)
    ensures DistinctRuns(Reordered(dags, queued))
  {
    var queue := Reordered(dags, queued);
    ReorderedPermutes(dags, queued);
    forall i, j | 0 <= i < j < |queue| ensures queue[i].id != queue[j].id {
      DistinctIsOnce(queued, queue[i]);
      assert queue[i] in multiset(queue) && queue[j] in multiset(queue);
      if queue[i].id == queue[j].id {
        MembersDiffer(queued, queue[i], queue[j]);
        TwoPlaces(queue, i, j);
      }
    }
  }

  /** A run that the tick listed as queued still is, unless it ended since. */
  predicate StillQueued(s: State, id: string) {
    id in s.table && (s.table[id].state.RunQueued? <==> id !in s.over)
  }

  ghost predicate QueueStands(s: State) {
    match s.tick
    case NoTick => true
    case Listed(queued) => DistinctRuns(queued) && forall r :: r in queued ==> StillQueued(s, r.id)
    case Promoting(queue, _, n) =>
      DistinctRuns(queue) && forall i :: n <= i < |queue| ==> StillQueued(s, queue[i].id)
  }

  lemma StandsStep(dags: Dags, maxGlobal: nat, s: State, step: Step)
    requires QueueStands(s) && Enabled(s, step)
    ensures QueueStands(Do(dags, maxGlobal, s, step))
  {
    if step.ListsRunning? {
      var queue := Reordered(dags, s.tick.queued);
      ReorderedDistinct(dags, s.tick.queued);
      ReorderedPermutes(dags, s.tick.queued);
      forall i | 0 <= i < |queue| ensures StillQueued(s, queue[i].id) {
        assert queue[i] in multiset(queue);
        assert queue[i] in s.tick.queued;
      }
    }
  }

  lemma {:induction false} StandsThroughout(dags: Dags, maxGlobal: nat, trace: seq<State>, steps: seq<Step>, i: nat)
    requires History(dags, maxGlobal, trace, steps) && i < |trace|
    ensures QueueStands(trace[i])
    decreases i
  {
    if i > 0 {
      StandsThroughout(dags, maxGlobal, trace, steps, i - 1);
      StandsStep(dags, maxGlobal, trace[i - 1], steps[i - 1]);
    }
  }

  /** A tick starts only runs that are queued. */
  ghost predicate StartsQueued(dags: Dags, maxGlobal: nat, trace: seq<State>, steps: seq<Step>) {
    forall i :: 0 <= i < |steps| && i < |trace| && StartsRun(dags, maxGlobal, trace[i], steps[i]) ==>
      trace[i].table[trace[i].tick.queue[trace[i].tick.n].id].state.RunQueued?
  }

  /** No run that a tick has listed and goes on to start has ended, by a cancel say, in between. */
  ghost predicate NoneOver(dags: Dags, maxGlobal: nat, trace: seq<State>, steps: seq<Step>) {
    forall i :: 0 <= i < |steps| && i < |trace| && StartsRun(dags, maxGlobal, trace[i], steps[i]) ==>
      trace[i].tick.queue[trace[i].tick.n].id !in trace[i].over
  }

  /** A tick never brings a run back that has ended if and only if no run it starts ended after the tick had
      listed it: the store lets an ended run become running. */
  lemma StartsQueuedIff(dags: Dags, maxGlobal: nat, trace: seq<State>, steps: seq<Step>)
    requires History(dags, maxGlobal, trace, steps)
    ensures StartsQueued(dags, maxGlobal, trace, steps) <==> NoneOver(dags, maxGlobal, trace, steps)
  {
    forall i | 0 <= i < |steps| && StartsRun(dags, maxGlobal, trace[i], steps[i])
      ensures StillQueued(trace[i], trace[i].tick.queue[trace[i].tick.n].id)
    {
      StandsThroughout(dags, maxGlobal, trace, steps, i);
    }
  }

  /** Whatever the policies and the caps, a queued run can be cancelled after the tick has listed it, and the
      tick starts it all the same. */
  lemma LateCancelIsUndone(dags: Dags, maxGlobal: nat, r: Run) returns (trace: seq<State>, steps: seq<Step>)
    requires maxGlobal >= 1 && !r.held
    ensures History(dags, maxGlobal, trace, steps) && |steps| == 5
    ensures steps[3] == Ends(r.id, RunCancelled) && trace[5].table == map[r.id := Stored(r, RunRunning)]
    ensures forall step :: step in steps ==> !step.Reactivates?
  {
    var s := State(map[], NoTick, {}, {});
    trace, steps := [s], [];
    trace, steps, s := QueueOne(dags, maxGlobal, trace, steps, s, r);
    trace, steps, s := Then(dags, maxGlobal, trace, steps, s, Ends(r.id, RunCancelled));
    OneIsPromoted(dags, maxGlobal, s, r);
    trace, steps, s := Then(dags, maxGlobal, trace, steps, s, Settles(true));
  }
}
