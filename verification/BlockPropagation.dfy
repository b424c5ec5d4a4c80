/** Block propagation inside processRun (internal/scheduler/scheduler.go) and why it cannot wedge a run.

    The source walks the task list again and again, turning each scheduled task whose rule is
    hopeless into upstream_failed, until a pass changes nothing. The result is the least settled
    state above the initial one, so it does not depend on the order of the task list; and over an
    acyclic task set it always leaves something to do until every task is terminal. */
module BlockPropagation {
  import opened Dag
  import opened Graph
  import opened TriggerRules

  type States = map<string, TaskState>

  /** A dependency whose row does not exist yet counts as pending. */
  function StateOf(st: States, id: string): TaskState {
    if id in st then st[id] else Scheduled
  }

  function GateStates(t: Task, st: States): seq<TaskState> {
    seq(|t.deps|, i requires 0 <= i < |t.deps| => StateOf(st, t.deps[i]))
  }

  ghost predicate TaskReady(t: Task, st: States) {
    Ready(t.rule, GateStates(t, st))
  }

  ghost predicate TaskBlocked(t: Task, st: States) {
    Blocked(t.rule, GateStates(t, st))
  }

  ghost predicate CanBlock(t: Task, st: States) {
    t.id in st && st[t.id].Scheduled? && TaskBlocked(t, st)
  }

  /** No task can be blocked any more: where the source's loop stops. */
  ghost predicate Settled(tasks: seq<Task>, st: States) {
    forall t :: t in tasks ==> !CanBlock(t, st)
  }

  /** `b` differs from `a` only in scheduled tasks having become upstream_failed. */
  ghost predicate Below(a: States, b: States) {
    a.Keys == b.Keys &&
    forall id :: id in a ==> b[id] == a[id] || (a[id].Scheduled? && b[id].UpstreamFailed?)
  }

  ghost predicate LeastSettled(tasks: seq<Task>, st: States, result: States) {
    && Below(st, result)
    && Settled(tasks, result)
    && forall other :: Below(st, other) && Settled(tasks, other) ==> Below(result, other)
  }

  lemma BelowAdvancesGates(t: Task, a: States, b: States)
    requires Below(a, b)
    ensures Advances(GateStates(t, a), GateStates(t, b))
  {
  }

  /** One blocking step stays below every settled state above the start. */
  lemma BlockStepStaysBelow(tasks: seq<Task>, t: Task, a: States, settled: States)
    requires t in tasks && CanBlock(t, a) && Below(a, settled) && Settled(tasks, settled)
    ensures Below(a[t.id := UpstreamFailed], settled)
  {
    BelowAdvancesGates(t, a, settled);
    VerdictsAreStable(t.rule, GateStates(t, a), GateStates(t, settled));
    assert !CanBlock(t, settled);
  }

  /** States after blocking the tasks of `order` one after another. */
  ghost function AfterBlocks(st: States, order: seq<Task>): States {
    if order == [] then st
    else AfterBlocks(st, order[..|order| - 1])[order[|order| - 1].id := UpstreamFailed]
  }

  ghost predicate LegalBlocks(tasks: seq<Task>, st: States, order: seq<Task>) {
    order == [] ||
    (LegalBlocks(tasks, st, order[..|order| - 1]) &&
     order[|order| - 1] in tasks &&
     CanBlock(order[|order| - 1], AfterBlocks(st, order[..|order| - 1])))
  }

  /** Confluence: whatever tasks are blocked, and in whatever order, the states reached lie below
      every settled state; so every maximal blocking sequence ends in the same, least, one. */
  lemma {:induction false} BlocksStayBelow(tasks: seq<Task>, st: States, order: seq<Task>, settled: States)
    requires LegalBlocks(tasks, st, order) && Below(st, settled) && Settled(tasks, settled)
    ensures Below(AfterBlocks(st, order), settled)
    ensures Below(st, AfterBlocks(st, order))
    decreases |order|
  {
    if order != [] {
      var front := order[..|order| - 1];
      BlocksStayBelow(tasks, st, front, settled);
      BlockStepStaysBelow(tasks, order[|order| - 1], AfterBlocks(st, front), settled);
    }
  }

  lemma BelowAntisymmetric(a: States, b: States)
    requires Below(a, b) && Below(b, a)
    ensures a == b
  {
  }

  lemma BlockingIsConfluent(tasks: seq<Task>, st: States, order1: seq<Task>, order2: seq<Task>)
    requires LegalBlocks(tasks, st, order1) && Settled(tasks, AfterBlocks(st, order1))
    requires LegalBlocks(tasks, st, order2) && Settled(tasks, AfterBlocks(st, order2))
    ensures AfterBlocks(st, order1) == AfterBlocks(st, order2)
  {
    BlocksReachAbove(tasks, st, order1);
    BlocksReachAbove(tasks, st, order2);
    BlocksStayBelow(tasks, st, order1, AfterBlocks(st, order2));
    BlocksStayBelow(tasks, st, order2, AfterBlocks(st, order1));
    BelowAntisymmetric(AfterBlocks(st, order1), AfterBlocks(st, order2));
  }

  lemma {:induction false} BlocksReachAbove(tasks: seq<Task>, st: States, order: seq<Task>)
    requires LegalBlocks(tasks, st, order)
    ensures Below(st, AfterBlocks(st, order))
    decreases |order|
  {
    if order != [] {
      BlocksReachAbove(tasks, st, order[..|order| - 1]);
    }
  }

  /** The order of the task list is irrelevant. */
  lemma ListOrderIsIrrelevant(tasks: seq<Task>, shuffled: seq<Task>, st: States, r1: States, r2: States)
    requires forall t :: t in tasks <==> t in shuffled
    requires LeastSettled(tasks, st, r1) && LeastSettled(shuffled, st, r2)
    ensures r1 == r2
  {
    assert Settled(tasks, r2) && Settled(shuffled, r1);
    BelowAntisymmetric(r1, r2);
  }

  ghost function ScheduledIds(st: States): set<string> {
    set id | id in st && st[id].Scheduled?
  }

  /** The task instances of one run, as processRun holds them in `tiByTask`. */
  class RunView {
    var states: States

    constructor (states: States)
      ensures this.states == states
    {
      this.states := states;
    }

    /** taskGate */
    method TaskGate(t: Task) returns (ready: bool, blocked: bool)
      ensures ready <==> TaskReady(t, states)
      ensures blocked <==> TaskBlocked(t, states)
    {
      var gate: seq<TaskState> := [];
      for k := 0 to |t.deps|
        invariant gate == GateStates(t, states)[..k]
      {
        gate := gate + [if t.deps[k] in states then states[t.deps[k]] else Scheduled];
      }
      ready, blocked := EvalTriggerRule(t.rule, gate);
    }

    method PropagateBlocks(tasks: seq<Task>)
      modifies this
      ensures LeastSettled(tasks, old(states), states)
    {
      var changed := true;
      while changed
        invariant ReachedFrom(tasks, old(states))
        invariant !changed ==> Settled(tasks, states)
        decreases ScheduledIds(states), changed
      {
        changed := false;
        label pass:
        for k := 0 to |tasks|
          invariant ReachedFrom(tasks, old(states))
          invariant changed ==> ScheduledIds(states) < old@pass(ScheduledIds(states))
          invariant !changed ==> states == old@pass(states)
          invariant !changed ==> forall i :: 0 <= i < k ==> !CanBlock(tasks[i], states)
        {
          var t := tasks[k];
          if t.id in states && states[t.id].Scheduled? {
            var _, blocked := TaskGate(t);
            if blocked {
              forall other | Below(old(states), other) && Settled(tasks, other)
                ensures Below(states[t.id := UpstreamFailed], other)
              {
                BlockStepStaysBelow(tasks, t, states, other);
              }
              ghost var before := ScheduledIds(states);
              assert t.id in before;
              states := states[t.id := UpstreamFailed];
              assert ScheduledIds(states) == before - {t.id};
              changed := true;
            }
          }
        }
      }
    }

    ghost predicate ReachedFrom(tasks: seq<Task>, start: States)
      reads this
    {
      Below(start, states) &&
      forall other :: Below(start, other) && Settled(tasks, other) ==> Below(states, other)
    }
  }

  /** No run can wedge. With nothing queued, running or waiting for a retry, and propagation
      settled, either every task is terminal or some scheduled task's rule is ready. */
  lemma SettledRunProgresses(tasks: seq<Task>, st: States)
    requires DistinctIds(tasks) && ClosedDeps(tasks) && Acyclic(AdjOf(tasks))
    requires forall i :: 0 <= i < |tasks| ==> tasks[i].id in st
    requires forall id :: id in st ==> !st[id].Queued? && !st[id].Running? && !st[id].UpForRetry?
    requires Settled(tasks, st)
    ensures (forall i :: 0 <= i < |tasks| ==> st[tasks[i].id].IsTerminal()) ||
            exists i :: 0 <= i < |tasks| && st[tasks[i].id].Scheduled? && TaskReady(tasks[i], st)
  {
    var open := set i | 0 <= i < |tasks| && !st[tasks[i].id].IsTerminal() :: tasks[i].id;
    if open != {} {
      var n := MinimalMember(AdjOf(tasks), open);
      var i :| 0 <= i < |tasks| && tasks[i].id == n && !st[tasks[i].id].IsTerminal();
      AdjOfDistinct(tasks);
      var gate := GateStates(tasks[i], st);
      forall k | 0 <= k < |gate| ensures gate[k].IsTerminal() {
        var d := tasks[i].deps[k];
        assert Edge(AdjOf(tasks), n, d);
        assert HasTask(tasks, d);
        var j :| 0 <= j < |tasks| && tasks[j].id == d;
        assert d !in open;
      }
      DecidedWhenDone(tasks[i].rule, gate);
      assert tasks[i] in tasks && !CanBlock(tasks[i], st);
      assert st[tasks[i].id].Scheduled? && TaskReady(tasks[i], st);
    } else {
      forall i | 0 <= i < |tasks| ensures st[tasks[i].id].IsTerminal() {
        assert tasks[i].id !in open;
      }
    }
  }
}
