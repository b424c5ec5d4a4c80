/** Durable dependency triggers (internal/scheduler/scheduler.go, internal/store/postgres/postgres.go).

    A run's success and the event announcing it are one transaction; the event is consumed only after
    its downstreams have been looked at. Every store access of a delivery is a step of its own, and
    the tick's delivery, MarkRun's delivery, run-state changes and crashes interleave freely. Runs are
    rows with an id; that a DAG has one run for a date is the insert's doing, and is proved. */
module DependencyEvents {
  import opened RunStates

  // ---- runs ----

  datatype Run = Run(dag: string, date: int, state: RunState)

  /** The dag_runs table, by run id. */
  type Runs = map<string, Run>

  predicate ForPeriod(r: Run, dag: string, date: int) {
    r.dag == dag && r.date == date
  }

  predicate HasRun(runs: Runs, dag: string, date: int) {
    exists id :: id in runs && ForPeriod(runs[id], dag, date)
  }

  /** The run GetDagRunByLogicalDate finds is a success. */
  predicate Succeeded(runs: Runs, dag: string, date: int) {
    exists id :: id in runs && ForPeriod(runs[id], dag, date) && runs[id].state.RunSuccess?
  }

  /** The primary key and UNIQUE (dag_id, logical_date). */
  predicate Taken(runs: Runs, id: string, dag: string, date: int) {
    id in runs || HasRun(runs, dag, date)
  }

  ghost predicate Unique(runs: Runs) {
    forall i, j :: i in runs && j in runs && runs[i].dag == runs[j].dag && runs[i].date == runs[j].date ==> i == j
  }

  /** The dependency edges and registrations, fixed for the history. */
  datatype Config = Config(
    ups: map<string, seq<string>>,     // downstream -> its upstreams
    downs: map<string, seq<string>>,   // upstream -> its downstreams
    registered: set<string>,           // in the scheduler's cache
    launchable: set<string>,           // registered, with at least one task
    live: set<string>,                 // not deleted from the store
    stamp: int -> string,              // a date as it appears in a run id
    rearmMidDelivery: bool)            // a run may succeed again after a delivery of its event has passed a downstream

  /** runID */
  function RunId(c: Config, dag: string, date: int): string {
    dag + "__" + c.stamp(date)
  }

  /** Dates are written differently when they differ, and without underscores. */
  ghost predicate GoodStamps(c: Config) {
    && (forall d, e :: c.stamp(d) == c.stamp(e) ==> d == e)
    && (forall d :: '_' !in c.stamp(d))
  }

  lemma LastUnderscore(a: string, x: string)
    requires '_' !in x
    ensures (a + "__" + x)[|a| + 1] == '_'
    ensures forall k :: |a| + 2 <= k < |a| + 2 + |x| ==> (a + "__" + x)[k] != '_'
  {
  }

  lemma AfterUnderscores(a: string, x: string, b: string, y: string)
    requires a + "__" + x == b + "__" + y && '_' !in x && '_' !in y
    ensures a == b && x == y
  {
    LastUnderscore(a, x);
    LastUnderscore(b, y);
    assert |a| == |b|;
    assert (a + "__" + x)[..|a|] == a && (b + "__" + y)[..|b|] == b;
    assert (a + "__" + x)[|a| + 2..] == x && (b + "__" + y)[|b| + 2..] == y;
  }

  /** Different periods have different run ids. */
  lemma RunIdIsInjective(c: Config, a: string, d: int, b: string, e: int)
    requires GoodStamps(c) && RunId(c, a, d) == RunId(c, b, e)
    ensures a == b && d == e
  {
    AfterUnderscores(a, c.stamp(d), b, c.stamp(e));
  }

  function Ups(c: Config, dn: string): seq<string> {
    if dn in c.ups then c.ups[dn] else []
  }

  function Downs(c: Config, u: string): seq<string> {
    if u in c.downs then c.downs[u] else []
  }

  ghost predicate SameEdges(c: Config) {
    forall u, dn :: dn in Downs(c, u) <==> u in Ups(c, dn)
  }

  // ---- deliveries ----

  /** Where one delivery is with the event of `run`; `deferred` as in triggerDownstreams. */
  datatype PC =
    | NextEvent
    | NextDown(run: string, date: int, dns: seq<string>, deferred: bool)
    | CheckUps(run: string, date: int, dn: string, left: seq<string>, dns: seq<string>, deferred: bool)
    | Consume(run: string)

  datatype Delivery = Delivery(todo: seq<string>, pc: PC)

  /** `pending` are the runs with an unconsumed event. */
  datatype State = State(runs: Runs, pending: set<string>, deliveries: map<nat, Delivery>)

  datatype Step =
    | Arrives(id: string, dag: string, date: int)
    | Changes(id: string, target: RunState)
    | Succeeds(id: string)
    | Lists(p: nat, events: seq<string>)
    | Loads(p: nat)
    | TakesDown(p: nat)
    | ReadsUp(p: nat)
    | Creates(p: nat, full: bool)
    | Consumes(p: nat)
    | Dies(p: nat)

  /** This delivery of the run's event has gone past `dn`, and will consume the event. */
  predicate Passed(pc: PC, run: string, dn: string) {
    match pc
    case NextEvent => false
    case NextDown(r, _, dns, deferred) => r == run && dn !in dns && !deferred
    case CheckUps(r, _, at, _, dns, deferred) => r == run && dn != at && dn !in dns && !deferred
    case Consume(r) => r == run
  }

  ghost predicate NonePassed(s: State, run: string, dn: string) {
    forall p :: p in s.deliveries ==> !Passed(s.deliveries[p].pc, run, dn)
  }

  /** No delivery of the run's event has gone past a downstream of the run's DAG. */
  ghost predicate BeforeAll(c: Config, s: State, run: string) {
    run in s.runs && forall dn :: dn in Downs(c, s.runs[run].dag) ==> NonePassed(s, run, dn)
  }

  ghost predicate Init(s: State) {
    s.runs == map[] && s.pending == {} && s.deliveries == map[]
  }

  /** A run that arrives otherwise does not carry the id that another period's dependency run would get. */
  ghost predicate OwnName(c: Config, id: string, dag: string, date: int) {
    forall d, e :: id == RunId(c, d, e) ==> d == dag && e == date
  }

  ghost predicate Enabled(c: Config, s: State, step: Step) {
    match step
    case Arrives(id, dag, date) => !Taken(s.runs, id, dag, date) && OwnName(c, id, dag, date)
    case Changes(id, target) => id in s.runs && target != RunSuccess && s.runs[id].state in LegalPrior(target)
    case Succeeds(id) =>
      && id in s.runs && !s.runs[id].state.RunQueued? && !s.runs[id].state.RunSuccess?
      && (c.rearmMidDelivery || BeforeAll(c, s, id))
    case Lists(p, events) => p !in s.deliveries && forall id :: id in events ==> id in s.pending
    case Loads(p) => p in s.deliveries && s.deliveries[p].pc.NextEvent? && s.deliveries[p].todo != []
    case TakesDown(p) => p in s.deliveries && s.deliveries[p].pc.NextDown?
    case ReadsUp(p) => p in s.deliveries && s.deliveries[p].pc.CheckUps? && s.deliveries[p].pc.left != []
    case Creates(p, _) => p in s.deliveries && s.deliveries[p].pc.CheckUps? && s.deliveries[p].pc.left == []
    case Consumes(p) => p in s.deliveries && s.deliveries[p].pc.Consume?
    case Dies(p) => p in s.deliveries
  }

  function Goto(s: State, p: nat, pc: PC): State
    requires p in s.deliveries
  {
    s.(deliveries := s.deliveries[p := s.deliveries[p].(pc := pc)])
  }

  function WithState(runs: Runs, id: string, state: RunState): Runs
    requires id in runs
  {
    runs[id := runs[id].(state := state)]
  }

  function LoadedPc(c: Config, runs: Runs, id: string): PC {
    if id !in runs then Consume(id)
    else if runs[id].state.RunSuccess? then NextDown(id, runs[id].date, Downs(c, runs[id].dag), false)
    else if runs[id].state.Ended() then Consume(id)
    else NextEvent
  }

  /** CreateDagRunBounded for a dependency run; a deleted DAG is not a reason to defer, a full queue is. */
  function AfterCreate(c: Config, runs: Runs, dn: string, date: int, full: bool): (Runs, bool) {
    if dn !in c.launchable || dn !in c.live then (runs, false)
    else if full then (runs, true)
    else if Taken(runs, RunId(c, dn, date), dn, date) then (runs, false)
    else (runs[RunId(c, dn, date) := Run(dn, date, RunQueued)], false)
  }

  ghost function Do(c: Config, s: State, step: Step): State
    requires Enabled(c, s, step)
  {
    match step
    case Arrives(id, dag, date) => s.(runs := s.runs[id := Run(dag, date, RunQueued)])
    case Changes(id, target) => s.(runs := WithState(s.runs, id, target))
    case Succeeds(id) => s.(runs := WithState(s.runs, id, RunSuccess), pending := s.pending + {id})
    case Lists(p, events) => s.(deliveries := s.deliveries[p := Delivery(events, NextEvent)])
    case Loads(p) =>
      var id, rest := s.deliveries[p].todo[0], s.deliveries[p].todo[1..];
      s.(deliveries := s.deliveries[p := Delivery(rest, LoadedPc(c, s.runs, id))])
    case TakesDown(p) =>
      var at := s.deliveries[p].pc;
      if at.dns != [] then
        Goto(s, p, CheckUps(at.run, at.date, at.dns[0], Ups(c, at.dns[0]), at.dns[1..], at.deferred))
      else if at.deferred then Goto(s, p, NextEvent)
      else Goto(s, p, Consume(at.run))
    case ReadsUp(p) =>
      var at := s.deliveries[p].pc;
      if at.left[0] in c.registered && Succeeded(s.runs, at.left[0], at.date)
      then Goto(s, p, at.(left := at.left[1..]))
      else Goto(s, p, NextDown(at.run, at.date, at.dns, at.deferred))
    case Creates(p, full) =>
      var at := s.deliveries[p].pc;
      var (runs, waits) := AfterCreate(c, s.runs, at.dn, at.date, full);
      Goto(s, p, NextDown(at.run, at.date, at.dns, at.deferred || waits)).(runs := runs)
    case Consumes(p) => Goto(s, p, NextEvent).(pending := s.pending - {s.deliveries[p].pc.run})
    case Dies(p) => s.(deliveries := s.deliveries - {p})
  }

  ghost predicate Execution(c: Config, trace: seq<State>, steps: seq<Step>) {
    && |trace| == |steps| + 1 && Init(trace[0])
    && forall i :: 0 <= i < |steps| ==> Enabled(c, trace[i], steps[i]) && trace[i + 1] == Do(c, trace[i], steps[i])
  }

  // ---- the table stays consistent ----

  /** A run with the id of a period's dependency run is that period's run. */
  ghost predicate WellNamed(c: Config, runs: Runs) {
    forall id :: id in runs ==> OwnName(c, id, runs[id].dag, runs[id].date)
  }

  /** A delivery knows its run's date, and checks only upstreams of the downstream it is at. */
  ghost predicate PcFits(c: Config, runs: Runs, pc: PC) {
    && (pc.NextDown? || pc.CheckUps? ==> pc.run in runs && runs[pc.run].date == pc.date)
    && (pc.CheckUps? ==> forall x :: x in pc.left ==> x in Ups(c, pc.dn))
  }

  ghost predicate PcsFit(c: Config, s: State) {
    forall p :: p in s.deliveries ==> PcFits(c, s.runs, s.deliveries[p].pc)
  }

  ghost predicate Consistent(c: Config, s: State) {
    Unique(s.runs) && WellNamed(c, s.runs) && PcsFit(c, s)
  }

  /** Rows stay, keep their period, and new ones are for periods that had none. */
  ghost predicate Extends(before: Runs, after: Runs) {
    && (forall id :: id in before ==> id in after && ForPeriod(after[id], before[id].dag, before[id].date))
    && (forall id :: id in after && id !in before ==> !HasRun(before, after[id].dag, after[id].date))
    && (forall i, j :: i in after && j in after && i !in before && j !in before ==> i == j)
  }

  lemma HasRunStays(before: Runs, after: Runs, dag: string, date: int)
    requires forall id :: id in before ==> id in after && ForPeriod(after[id], before[id].dag, before[id].date)
    ensures HasRun(before, dag, date) ==> HasRun(after, dag, date)
  {
    if HasRun(before, dag, date) {
      var id :| id in before && ForPeriod(before[id], dag, date);
      assert ForPeriod(after[id], dag, date);
    }
  }

  lemma UniqueExtends(before: Runs, after: Runs)
    requires Unique(before) && Extends(before, after)
    ensures Unique(after)
  {
    forall i, j | i in after && j in after && after[i].dag == after[j].dag && after[i].date == after[j].date
      ensures i == j
    {
      if i in before && j !in before {
        assert ForPeriod(before[i], after[j].dag, after[j].date);
      } else if j in before && i !in before {
        assert ForPeriod(before[j], after[i].dag, after[i].date);
      }
    }
  }

  lemma StepExtends(c: Config, s: State, step: Step)
    requires Enabled(c, s, step)
    ensures Extends(s.runs, Do(c, s, step).runs)
  {
  }

  lemma NamesStay(c: Config, s: State, step: Step)
    requires GoodStamps(c) && WellNamed(c, s.runs) && Enabled(c, s, step)
    ensures WellNamed(c, Do(c, s, step).runs)
  {
    var after := Do(c, s, step).runs;
    forall id | id in after ensures OwnName(c, id, after[id].dag, after[id].date) {
      if id in s.runs {
        assert OwnName(c, id, s.runs[id].dag, s.runs[id].date);
      } else if step.Creates? {
        forall d, e | id == RunId(c, d, e) ensures d == after[id].dag && e == after[id].date {
          RunIdIsInjective(c, d, e, after[id].dag, after[id].date);
        }
      }
    }
  }

  lemma PcsStay(c: Config, s: State, step: Step)
    requires PcsFit(c, s) && Enabled(c, s, step)
    ensures PcsFit(c, Do(c, s, step))
  {
    var s' := Do(c, s, step);
    StepExtends(c, s, step);
    forall p | p in s'.deliveries ensures PcFits(c, s'.runs, s'.deliveries[p].pc) {
      if p in s.deliveries {
        assert PcFits(c, s.runs, s.deliveries[p].pc);
      }
    }
  }

  lemma ConsistentStep(c: Config, s: State, step: Step)
    requires GoodStamps(c) && Consistent(c, s) && Enabled(c, s, step)
    ensures Consistent(c, Do(c, s, step))
  {
    StepExtends(c, s, step);
    UniqueExtends(s.runs, Do(c, s, step).runs);
    NamesStay(c, s, step);
    PcsStay(c, s, step);
  }

  lemma {:induction false} ConsistentThroughout(c: Config, trace: seq<State>, steps: seq<Step>, i: nat)
    requires GoodStamps(c) && Execution(c, trace, steps) && i < |trace|
    ensures Consistent(c, trace[i])
    decreases i
  {
    if i > 0 {
      ConsistentThroughout(c, trace, steps, i - 1);
      ConsistentStep(c, trace[i - 1], steps[i - 1]);
    }
  }

  // ---- no trigger is lost ----

  /** A downstream that should be started for the date: all its upstreams succeeded, and it has no run. */
  ghost predicate Owed(c: Config, s: State, dn: string, date: int) {
    && dn in c.launchable && dn in c.live && Ups(c, dn) != [] && !HasRun(s.runs, dn, date)
    && forall u :: u in Ups(c, dn) ==> u in c.registered && Succeeded(s.runs, u, date)
  }

  /** This run's event will still lead some delivery to `dn`. */
  ghost predicate Announces(c: Config, s: State, id: string, dn: string, date: int) {
    && id in s.runs && s.runs[id].date == date && s.runs[id].dag in Ups(c, dn)
    && id in s.pending && NonePassed(s, id, dn)
  }

  ghost predicate Announced(c: Config, s: State, dn: string, date: int) {
    exists id :: Announces(c, s, id, dn, date)
  }

  ghost predicate NoneLost(c: Config, s: State) {
    forall dn, date :: Owed(c, s, dn, date) ==> Announced(c, s, dn, date)
  }

  /** Only a success makes a downstream owed. */
  lemma OwedBefore(c: Config, s: State, step: Step, dn: string, date: int)
    requires Enabled(c, s, step) && !step.Succeeds? && Owed(c, Do(c, s, step), dn, date)
    ensures Owed(c, s, dn, date)
  {
    var s' := Do(c, s, step);
    StepExtends(c, s, step);
    forall u | u in Ups(c, dn) ensures Succeeded(s.runs, u, date) {
      assert Succeeded(s'.runs, u, date);
      var id :| id in s'.runs && ForPeriod(s'.runs[id], u, date) && s'.runs[id].state.RunSuccess?;
      assert id in s.runs && s.runs[id] == s'.runs[id];
    }
    HasRunStays(s.runs, s'.runs, dn, date);
  }

  lemma OwedElsewhere(c: Config, s: State, id: string, dn: string, date: int)
    requires Enabled(c, s, Succeeds(id)) && Owed(c, Do(c, s, Succeeds(id)), dn, date)
    requires s.runs[id].date != date || s.runs[id].dag !in Ups(c, dn)
    ensures Owed(c, s, dn, date)
  {
    var s' := Do(c, s, Succeeds(id));
    forall u | u in Ups(c, dn) ensures Succeeded(s.runs, u, date) {
      assert Succeeded(s'.runs, u, date);
      var i :| i in s'.runs && ForPeriod(s'.runs[i], u, date) && s'.runs[i].state.RunSuccess?;
      assert i != id && s.runs[i] == s'.runs[i];
    }
    HasRunStays(s.runs, s'.runs, dn, date);
  }

  lemma SuccessAnnounces(c: Config, s: State, id: string, dn: string, date: int)
    requires SameEdges(c) && !c.rearmMidDelivery && NoneLost(c, s) && Enabled(c, s, Succeeds(id))
    requires Owed(c, Do(c, s, Succeeds(id)), dn, date)
    ensures Announced(c, Do(c, s, Succeeds(id)), dn, date)
  {
    var s' := Do(c, s, Succeeds(id));
    if s.runs[id].date == date && s.runs[id].dag in Ups(c, dn) {
      assert dn in Downs(c, s.runs[id].dag);
      assert NonePassed(s, id, dn);
      assert Announces(c, s', id, dn, date);
    } else {
      OwedElsewhere(c, s, id, dn, date);
      var i :| Announces(c, s, i, dn, date);
      assert Announces(c, s', i, dn, date);
    }
  }

  lemma HeadOrTail(dns: seq<string>)
    requires dns != []
    ensures forall x :: x in dns ==> x == dns[0] || x in dns[1..]
  {
  }

  predicate Delivering(step: Step) {
    step.Loads? || step.TakesDown? || step.ReadsUp? || step.Creates? || step.Consumes?
  }

  /** An owed downstream's upstream run is its DAG's only one for the date, so it is the success. */
  lemma AnnouncerSucceeded(c: Config, s: State, id: string, dn: string, date: int)
    requires Unique(s.runs) && Owed(c, s, dn, date) && Announces(c, s, id, dn, date)
    ensures s.runs[id].state.RunSuccess?
  {
    assert Succeeded(s.runs, s.runs[id].dag, date);
    var i :| i in s.runs && ForPeriod(s.runs[i], s.runs[id].dag, date) && s.runs[i].state.RunSuccess?;
    assert i == id;
  }

  lemma LoadStaysBefore(c: Config, s: State, p: nat, id: string, dn: string, date: int)
    requires SameEdges(c) && Consistent(c, s) && Enabled(c, s, Loads(p)) && Owed(c, s, dn, date)
    requires Announces(c, s, id, dn, date)
    ensures !Passed(LoadedPc(c, s.runs, s.deliveries[p].todo[0]), id, dn)
  {
    AnnouncerSucceeded(c, s, id, dn, date);
    assert dn in Downs(c, s.runs[id].dag);
  }

  /** While `dn` is owed, a delivery of an announcing event does not get past it. */
  lemma MoveStaysBefore(c: Config, s: State, step: Step, id: string, dn: string, date: int)
    requires SameEdges(c) && Consistent(c, s) && Enabled(c, s, step) && Delivering(step)
    requires Owed(c, s, dn, date) && Owed(c, Do(c, s, step), dn, date) && Announces(c, s, id, dn, date)
    ensures !Passed(Do(c, s, step).deliveries[step.p].pc, id, dn)
  {
    var at := s.deliveries[step.p].pc;
    assert PcFits(c, s.runs, at) && !Passed(at, id, dn);
    if step.Loads? {
      LoadStaysBefore(c, s, step.p, id, dn, date);
    } else if step.TakesDown? && at.dns != [] {
      HeadOrTail(at.dns);
    } else if step.Creates? && at.dn == dn && at.run == id && !step.full {
      CreatedOwed(c, s, dn, date);
    }
  }

  /** An owed downstream with room in the queue is created. */
  lemma CreatedOwed(c: Config, s: State, dn: string, date: int)
    requires WellNamed(c, s.runs) && Owed(c, s, dn, date)
    ensures HasRun(AfterCreate(c, s.runs, dn, date, false).0, dn, date)
  {
    var due := RunId(c, dn, date);
    if due in s.runs {
      assert OwnName(c, due, s.runs[due].dag, s.runs[due].date);
      assert ForPeriod(s.runs[due], dn, date);
    }
    assert ForPeriod(AfterCreate(c, s.runs, dn, date, false).0[due], dn, date);
  }

  lemma DeliveryKeeps(c: Config, s: State, step: Step, id: string, dn: string, date: int)
    requires SameEdges(c) && Consistent(c, s) && Enabled(c, s, step) && Delivering(step)
    requires Owed(c, s, dn, date) && Owed(c, Do(c, s, step), dn, date) && Announces(c, s, id, dn, date)
    ensures Announces(c, Do(c, s, step), id, dn, date)
  {
    var s' := Do(c, s, step);
    StepExtends(c, s, step);
    MoveStaysBefore(c, s, step, id, dn, date);
    forall q | q in s'.deliveries ensures !Passed(s'.deliveries[q].pc, id, dn) {
      if q != step.p {
        assert s'.deliveries[q] == s.deliveries[q];
      }
    }
    assert id in s'.pending by {
      if step.Consumes? { assert !Passed(s.deliveries[step.p].pc, id, dn); }
    }
  }

  lemma NoneLostStep(c: Config, s: State, step: Step)
    requires SameEdges(c) && !c.rearmMidDelivery && Consistent(c, s) && NoneLost(c, s) && Enabled(c, s, step)
    ensures NoneLost(c, Do(c, s, step))
  {
    var s' := Do(c, s, step);
    forall dn, date | Owed(c, s', dn, date) ensures Announced(c, s', dn, date) {
      if step.Succeeds? {
        SuccessAnnounces(c, s, step.id, dn, date);
      } else {
        OwedBefore(c, s, step, dn, date);
        var id :| Announces(c, s, id, dn, date);
        if Delivering(step) {
          DeliveryKeeps(c, s, step, id, dn, date);
        } else {
          assert Announces(c, s', id, dn, date);
        }
      }
    }
  }

  lemma {:induction false} NoneLostThroughout(c: Config, trace: seq<State>, steps: seq<Step>, i: nat)
    requires GoodStamps(c) && SameEdges(c) && !c.rearmMidDelivery && Execution(c, trace, steps) && i < |trace|
    ensures NoneLost(c, trace[i])
    decreases i
  {
    if i == 0 {
      forall dn, date ensures !Owed(c, trace[0], dn, date) {
        assert Ups(c, dn) != [] ==> Ups(c, dn)[0] in Ups(c, dn);
      }
    } else {
      NoneLostThroughout(c, trace, steps, i - 1);
      ConsistentThroughout(c, trace, steps, i - 1);
      NoneLostStep(c, trace[i - 1], steps[i - 1]);
    }
  }

  /** Whenever every upstream of a downstream is successful for a date, its run exists or some upstream
      run's event is still unconsumed: through full queues, retries, re-marks, concurrent deliveries and
      crashes. */
  lemma NoTriggerLost(c: Config, trace: seq<State>, steps: seq<Step>, i: nat, dn: string, date: int)
    requires GoodStamps(c) && SameEdges(c) && !c.rearmMidDelivery && Execution(c, trace, steps) && i < |trace|
    requires dn in c.launchable && dn in c.live && Ups(c, dn) != []
    requires forall u :: u in Ups(c, dn) ==> u in c.registered && Succeeded(trace[i].runs, u, date)
    ensures HasRun(trace[i].runs, dn, date) ||
            exists id :: id in trace[i].pending && id in trace[i].runs &&
                         trace[i].runs[id].dag in Ups(c, dn) && trace[i].runs[id].date == date
  {
    NoneLostThroughout(c, trace, steps, i);
    if !HasRun(trace[i].runs, dn, date) {
      assert Owed(c, trace[i], dn, date);
      var id :| Announces(c, trace[i], id, dn, date);
    }
  }

  lemma {:induction false} RowsStay(c: Config, trace: seq<State>, steps: seq<Step>, i: nat, j: nat, id: string)
    requires Execution(c, trace, steps) && i <= j < |trace| && id in trace[i].runs
    ensures id in trace[j].runs && ForPeriod(trace[j].runs[id], trace[i].runs[id].dag, trace[i].runs[id].date)
    decreases j - i
  {
    if i < j {
      StepExtends(c, trace[i], steps[i]);
      RowsStay(c, trace, steps, i + 1, j, id);
    }
  }

  ghost predicate AddsRun(trace: seq<State>, i: nat, id: string) {
    i + 1 < |trace| && id !in trace[i].runs && id in trace[i + 1].runs
  }

  lemma AddedToFreePeriod(c: Config, trace: seq<State>, steps: seq<Step>, i: nat, id: string)
    requires Execution(c, trace, steps) && AddsRun(trace, i, id)
    ensures !HasRun(trace[i].runs, trace[i + 1].runs[id].dag, trace[i + 1].runs[id].date)
  {
    StepExtends(c, trace[i], steps[i]);
  }

  lemma PeriodStaysTaken(c: Config, trace: seq<State>, steps: seq<Step>, i: nat, j: nat, id: string)
    requires Execution(c, trace, steps) && AddsRun(trace, i, id) && i < j < |trace|
    ensures HasRun(trace[j].runs, trace[i + 1].runs[id].dag, trace[i + 1].runs[id].date)
  {
    RowsStay(c, trace, steps, i + 1, j, id);
  }

  /** However often events are redelivered and whatever else creates runs, a DAG gets one run for a date:
      two insertions for the same period are the same insertion of the same row. */
  lemma OneRunPerDate(c: Config, trace: seq<State>, steps: seq<Step>, i: nat, j: nat, a: string, b: string)
    requires Execution(c, trace, steps) && AddsRun(trace, i, a) && AddsRun(trace, j, b)
    requires ForPeriod(trace[i + 1].runs[a], trace[j + 1].runs[b].dag, trace[j + 1].runs[b].date)
    ensures i == j && a == b
  {
    AddedToFreePeriod(c, trace, steps, i, a);
    AddedToFreePeriod(c, trace, steps, j, b);
    if i < j {
      PeriodStaysTaken(c, trace, steps, i, j, a);
    } else if j < i {
      PeriodStaysTaken(c, trace, steps, j, i, b);
    } else {
      StepExtends(c, trace[i], steps[i]);
    }
  }

  // ---- a downstream is started after all its upstreams, and then it is ----

  ghost predicate SucceededBy(trace: seq<State>, i: nat, u: string, date: int) {
    exists k :: 0 <= k <= i && k < |trace| && Succeeded(trace[k].runs, u, date)
  }

  /** A delivery has found each upstream successful that it no longer has to check. */
  ghost predicate ChecksDone(c: Config, trace: seq<State>, i: nat, pc: PC) {
    pc.CheckUps? ==>
      forall u :: u in Ups(c, pc.dn) && u !in pc.left ==> u in c.registered && SucceededBy(trace, i, u, pc.date)
  }

  lemma {:induction false} ChecksDoneThroughout(c: Config, trace: seq<State>, steps: seq<Step>, i: nat, p: nat)
    requires Execution(c, trace, steps) && i < |trace| && p in trace[i].deliveries
    ensures ChecksDone(c, trace, i, trace[i].deliveries[p].pc)
    decreases i
  {
    if i > 0 {
      var s, step, s' := trace[i - 1], steps[i - 1], trace[i];
      assert Enabled(c, s, step) && s' == Do(c, s, step);
      if p in s.deliveries {
        ChecksDoneThroughout(c, trace, steps, i - 1, p);
        var before, at := s.deliveries[p].pc, s'.deliveries[p].pc;
        if at.CheckUps? && at != before && step.ReadsUp? {
          HeadOrTail(before.left);
          assert Succeeded(trace[i - 1].runs, before.left[0], at.date);
        }
        if at.CheckUps? && (at == before || step.ReadsUp?) {
          forall u | u in Ups(c, at.dn) && u !in at.left
            ensures u in c.registered && SucceededBy(trace, i, u, at.date)
          {
            assert SucceededBy(trace, i - 1, u, at.date);
          }
        }
      }
    }
  }

  /** No dependency run is created early: each upstream is registered and its run for the date was a success by
      then. */
  lemma StartedAfterUpstreams(c: Config, trace: seq<State>, steps: seq<Step>, i: nat, u: string)
    requires Execution(c, trace, steps) && i < |steps| && steps[i].Creates? && trace[i + 1].runs != trace[i].runs
    ensures steps[i].p in trace[i].deliveries && trace[i].deliveries[steps[i].p].pc.CheckUps?
    ensures var at := trace[i].deliveries[steps[i].p].pc;
            && trace[i + 1].runs == trace[i].runs[RunId(c, at.dn, at.date) := Run(at.dn, at.date, RunQueued)]
            && at.dn in c.launchable && at.dn in c.live && !HasRun(trace[i].runs, at.dn, at.date)
            && (u in Ups(c, at.dn) ==> u in c.registered && SucceededBy(trace, i, u, at.date))
  {
    assert Enabled(c, trace[i], steps[i]);
    ChecksDoneThroughout(c, trace, steps, i, steps[i].p);
  }

  /** A step of this delivery, which finds room in the queue. */
  predicate Of(step: Step, p: nat) {
    && (step.Lists? || step.Loads? || step.TakesDown? || step.ReadsUp? || step.Creates? || step.Consumes?)
    && step.p == p
    && (step.Creates? ==> !step.full)
  }

  /** From a state the delivery can come to another one. */
  ghost predicate Comes(c: Config, start: State, p: nat, trace: seq<State>, steps: seq<Step>, s: State) {
    && |trace| == |steps| + 1 && trace[0] == start && trace[|steps|] == s
    && (forall i :: 0 <= i < |steps| ==> Of(steps[i], p))
    && forall i :: 0 <= i < |steps| ==> Enabled(c, trace[i], steps[i]) && trace[i + 1] == Do(c, trace[i], steps[i])
  }

  lemma Go(c: Config, start: State, p: nat, trace: seq<State>, steps: seq<Step>, s: State, step: Step)
    returns (trace': seq<State>, steps': seq<Step>, s': State)
    requires Comes(c, start, p, trace, steps, s) && Consistent(c, s) && GoodStamps(c)
    requires Enabled(c, s, step) && Of(step, p)
    ensures s' == Do(c, s, step) && Comes(c, start, p, trace', steps', s') && Consistent(c, s')
  {
    ConsistentStep(c, s, step);
    s' := Do(c, s, step);
    trace', steps' := trace + [s'], steps + [step];
  }

  /** The delivery checks all upstreams, or goes on to the next downstream. */
  lemma {:induction false} ReadsAll(c: Config, start: State, p: nat, trace: seq<State>, steps: seq<Step>, s: State)
    returns (trace': seq<State>, steps': seq<Step>, s': State)
    requires Comes(c, start, p, trace, steps, s) && Consistent(c, s) && GoodStamps(c)
    requires p in s.deliveries && s.deliveries[p].pc.CheckUps?
    ensures Comes(c, start, p, trace', steps', s') && Consistent(c, s') && s'.runs == s.runs && p in s'.deliveries
    ensures var at, at' := s.deliveries[p].pc, s'.deliveries[p].pc;
            || at' == at.(left := [])
            || (at' == NextDown(at.run, at.date, at.dns, at.deferred) &&
                exists u :: u in at.left && !(u in c.registered && Succeeded(s.runs, u, at.date)))
    decreases |s.deliveries[p].pc.left|
  {
    var at := s.deliveries[p].pc;
    trace', steps', s' := trace, steps, s;
    if at.left != [] {
      trace', steps', s' := Go(c, start, p, trace, steps, s, ReadsUp(p));
      if s'.deliveries[p].pc.CheckUps? {
        trace', steps', s' := ReadsAll(c, start, p, trace', steps', s');
      }
    }
  }

  lemma OwedUnlessCreated(c: Config, s: State, s': State, dn: string, date: int)
    requires Owed(c, s, dn, date) && !HasRun(s'.runs, dn, date)
    requires forall id :: id in s.runs ==> id in s'.runs && s'.runs[id] == s.runs[id]
    ensures Owed(c, s', dn, date)
  {
    forall u | u in Ups(c, dn) ensures Succeeded(s'.runs, u, date) {
      var id :| id in s.runs && ForPeriod(s.runs[id], u, date) && s.runs[id].state.RunSuccess?;
      assert id in s'.runs && s'.runs[id] == s.runs[id];
    }
  }

  /** One downstream of the delivery: with room in the queue an owed one is created, and none is deferred. */
  lemma DeliversNext(c: Config, start: State, p: nat, trace: seq<State>, steps: seq<Step>, s: State, dn: string)
    returns (trace': seq<State>, steps': seq<Step>, s': State)
    requires Comes(c, start, p, trace, steps, s) && Consistent(c, s) && GoodStamps(c)
    requires p in s.deliveries && s.deliveries[p].pc.NextDown? && s.deliveries[p].pc.dns != []
    ensures Comes(c, start, p, trace', steps', s') && Consistent(c, s') && p in s'.deliveries
    ensures var at := s.deliveries[p].pc;
            && s'.deliveries[p].pc == NextDown(at.run, at.date, at.dns[1..], at.deferred)
            && (Owed(c, s, dn, at.date) ==>
                HasRun(s'.runs, dn, at.date) || (Owed(c, s', dn, at.date) && at.dns[0] != dn))
  {
    var at := s.deliveries[p].pc;
    trace', steps', s' := Go(c, start, p, trace, steps, s, TakesDown(p));
    trace', steps', s' := ReadsAll(c, start, p, trace', steps', s');
    if s'.deliveries[p].pc.CheckUps? {
      if at.dns[0] == dn && Owed(c, s, dn, at.date) {
        CreatedOwed(c, s', dn, at.date);
      }
      trace', steps', s' := Go(c, start, p, trace', steps', s', Creates(p, false));
    }
    if Owed(c, s, dn, at.date) && !HasRun(s'.runs, dn, at.date) {
      OwedUnlessCreated(c, s, s', dn, at.date);
    }
  }

  lemma {:induction false} DeliversTo(c: Config, start: State, p: nat, trace: seq<State>, steps: seq<Step>, s: State,
      dn: string, date: int)
    returns (trace': seq<State>, steps': seq<Step>, s': State)
    requires Comes(c, start, p, trace, steps, s) && Consistent(c, s) && GoodStamps(c)
    requires p in s.deliveries && s.deliveries[p].pc.NextDown? && s.deliveries[p].pc.date == date
    requires dn in s.deliveries[p].pc.dns && Owed(c, s, dn, date)
    ensures Comes(c, start, p, trace', steps', s') && HasRun(s'.runs, dn, date)
    decreases |s.deliveries[p].pc.dns|
  {
    HeadOrTail(s.deliveries[p].pc.dns);
    trace', steps', s' := DeliversNext(c, start, p, trace, steps, s, dn);
    if !HasRun(s'.runs, dn, date) {
      trace', steps', s' := DeliversTo(c, start, p, trace', steps', s', dn, date);
    }
  }

  /** Whenever a downstream is owed a run in such an execution, one delivery of a pending event that is left alone
      and finds room in the queue creates it. */
  lemma OwedIsDelivered(c: Config, trace: seq<State>, steps: seq<Step>, p: nat, dn: string, date: int)
    returns (later: seq<State>, more: seq<Step>, s': State)
    requires GoodStamps(c) && SameEdges(c) && !c.rearmMidDelivery && Execution(c, trace, steps)
    requires Owed(c, trace[|steps|], dn, date) && p !in trace[|steps|].deliveries
    ensures Comes(c, trace[|steps|], p, later, more, s') && HasRun(s'.runs, dn, date)
  {
    var s := trace[|steps|];
    NoneLostThroughout(c, trace, steps, |steps|);
    ConsistentThroughout(c, trace, steps, |steps|);
    assert Announced(c, s, dn, date);
    var id :| Announces(c, s, id, dn, date);
    AnnouncerSucceeded(c, s, id, dn, date);
    later, more, s' := Go(c, s, p, [s], [], s, Lists(p, [id]));
    later, more, s' := Go(c, s, p, later, more, s', Loads(p));
    assert dn in Downs(c, s.runs[id].dag);
    assert s'.runs == s.runs && Owed(c, s', dn, date);
    later, more, s' := DeliversTo(c, s, p, later, more, s', dn, date);
  }

  lemma {:induction false} DeliversRest(c: Config, start: State, p: nat, trace: seq<State>, steps: seq<Step>, s: State)
    returns (trace': seq<State>, steps': seq<Step>, s': State)
    requires Comes(c, start, p, trace, steps, s) && Consistent(c, s) && GoodStamps(c)
    requires p in s.deliveries && s.deliveries[p].pc.NextDown? && !s.deliveries[p].pc.deferred
    ensures Comes(c, start, p, trace', steps', s') && Consistent(c, s') && p in s'.deliveries
    ensures s'.deliveries[p].pc == Consume(s.deliveries[p].pc.run)
    decreases |s.deliveries[p].pc.dns|
  {
    if s.deliveries[p].pc.dns == [] {
      trace', steps', s' := Go(c, start, p, trace, steps, s, TakesDown(p));
    } else {
      trace', steps', s' := DeliversNext(c, start, p, trace, steps, s, "");
      trace', steps', s' := DeliversRest(c, start, p, trace', steps', s');
    }
  }

  /** No event stays for ever: unless its run is active again, one delivery that is left alone and finds room in
      the queue consumes it, whatever its downstreams are. */
  lemma EventIsConsumed(c: Config, trace: seq<State>, steps: seq<Step>, p: nat, id: string)
    returns (later: seq<State>, more: seq<Step>, s': State)
    requires GoodStamps(c) && Execution(c, trace, steps)
    requires var s := trace[|steps|];
             p !in s.deliveries && id in s.pending && (id in s.runs ==> s.runs[id].state.Ended())
    ensures Comes(c, trace[|steps|], p, later, more, s') && id !in s'.pending
  {
    var s := trace[|steps|];
    ConsistentThroughout(c, trace, steps, |steps|);
    later, more, s' := Go(c, s, p, [s], [], s, Lists(p, [id]));
    later, more, s' := Go(c, s, p, later, more, s', Loads(p));
    if s'.deliveries[p].pc.NextDown? {
      later, more, s' := DeliversRest(c, s, p, later, more, s');
    }
    later, more, s' := Go(c, s, p, later, more, s', Consumes(p));
  }

  // ---- exactly when triggers can be lost ----

  /** A downstream is owed and no event is left to start it. */
  ghost predicate Loses(c: Config) {
    exists trace: seq<State>, steps: seq<Step>, i: nat, dn: string, date: int ::
      Execution(c, trace, steps) && i < |trace| && Owed(c, trace[i], dn, date) && trace[i].pending == {}
  }

  /** A downstream that can be owed at all. */
  ghost predicate CanBeOwed(c: Config, dn: string) {
    && dn in c.launchable && dn in c.live && Ups(c, dn) != [] && dn !in Ups(c, dn)
    && forall u :: u in Ups(c, dn) ==> u in c.registered
  }

  lemma SuccessIsRun(runs: Runs, dag: string, date: int)
    ensures Succeeded(runs, dag, date) ==> HasRun(runs, dag, date)
  {
  }

  lemma OwedCanBe(c: Config, s: State, dn: string, date: int)
    requires Owed(c, s, dn, date)
    ensures CanBeOwed(c, dn)
  {
    SuccessIsRun(s.runs, dn, date);
  }

  ghost predicate Happens(c: Config, trace: seq<State>, steps: seq<Step>, last: State) {
    Execution(c, trace, steps) && trace[|trace| - 1] == last
  }

  lemma Then(c: Config, trace: seq<State>, steps: seq<Step>, s: State, step: Step)
    requires Happens(c, trace, steps, s) && Enabled(c, s, step)
    ensures Happens(c, trace + [Do(c, s, step)], steps + [step], Do(c, s, step))
  {
    var longer, more := trace + [Do(c, s, step)], steps + [step];
    forall i | 0 <= i < |more| ensures Enabled(c, longer[i], more[i]) && longer[i + 1] == Do(c, longer[i], more[i]) {
      if i < |steps| {
        assert Enabled(c, trace[i], steps[i]) && trace[i + 1] == Do(c, trace[i], steps[i]);
      }
    }
  }

  /** An upstream succeeds and its event is pending; MarkRun sets the run to failed. */
  lemma SucceedAndFail(c: Config, trace: seq<State>, steps: seq<Step>, s: State, id: string, u: string, date: int)
    returns (trace': seq<State>, steps': seq<Step>)
    requires c.rearmMidDelivery && Happens(c, trace, steps, s)
    requires !Taken(s.runs, id, u, date) && OwnName(c, id, u, date) && s.pending == {}
    ensures Happens(c, trace', steps', s.(runs := s.runs[id := Run(u, date, RunFailed)], pending := {id}))
  {
    var s1 := Do(c, s, Arrives(id, u, date));
    Then(c, trace, steps, s, Arrives(id, u, date));
    var s2 := Do(c, s1, Changes(id, RunRunning));
    Then(c, trace + [s1], steps + [Arrives(id, u, date)], s1, Changes(id, RunRunning));
    var s3 := Do(c, s2, Succeeds(id));
    var trace3, steps3 := trace + [s1] + [s2], steps + [Arrives(id, u, date)] + [Changes(id, RunRunning)];
    Then(c, trace3, steps3, s2, Succeeds(id));
    Then(c, trace3 + [s3], steps3 + [Succeeds(id)], s3, Changes(id, RunFailed));
    trace', steps' := trace3 + [s3] + [Do(c, s3, Changes(id, RunFailed))],
        steps3 + [Succeeds(id)] + [Changes(id, RunFailed)];
    assert Do(c, s3, Changes(id, RunFailed)).runs == s.runs[id := Run(u, date, RunFailed)];
  }

  /** A delivery reads the failure, MarkRun sets the run to success again, and the delivery consumes the event
      that this has just re-armed. */
  lemma ConsumeRearmed(c: Config, trace: seq<State>, steps: seq<Step>, s: State, id: string)
    returns (trace': seq<State>, steps': seq<Step>)
    requires c.rearmMidDelivery && Happens(c, trace, steps, s)
    requires id in s.runs && s.runs[id].state == RunFailed && s.pending == {id} && s.deliveries == map[]
    ensures Happens(c, trace', steps', s.(runs := WithState(s.runs, id, RunSuccess), pending := {}))
  {
    var lists := Lists(0, [id]);
    var s1 := s.(deliveries := map[0 := Delivery([id], NextEvent)]);
    Then(c, trace, steps, s, lists);
    assert Do(c, s, lists) == s1;
    var s2 := s.(deliveries := map[0 := Delivery([], Consume(id))]);
    assert Do(c, s1, Loads(0)) == s2 by { assert [id][1..] == []; }
    Then(c, trace + [s1], steps + [lists], s1, Loads(0));
    var s3 := s2.(runs := WithState(s.runs, id, RunSuccess));
    assert Do(c, s2, Succeeds(id)) == s3;
    var trace2, steps2 := trace + [s1] + [s2], steps + [lists] + [Loads(0)];
    Then(c, trace2, steps2, s2, Succeeds(id));
    var s4 := s3.(pending := {}, deliveries := map[0 := Delivery([], NextEvent)]);
    assert Do(c, s3, Consumes(0)) == s4;
    Then(c, trace2 + [s3], steps2 + [Succeeds(id)], s3, Consumes(0));
    var s5 := s4.(deliveries := map[]);
    assert Do(c, s4, Dies(0)) == s5;
    var trace4, steps4 := trace2 + [s3] + [s4], steps2 + [Succeeds(id)] + [Consumes(0)];
    Then(c, trace4, steps4, s4, Dies(0));
    trace', steps' := trace4 + [s5], steps4 + [Dies(0)];
  }

  /** Nothing but successful runs of these DAGs for the date, under their usual ids. */
  ghost predicate OnlySuccesses(c: Config, s: State, dags: seq<string>, date: int) {
    && s.pending == {} && s.deliveries == map[]
    && (forall id :: id in s.runs ==>
          s.runs[id].dag in dags && s.runs[id].date == date && s.runs[id].state.RunSuccess? &&
              id == RunId(c, s.runs[id].dag, date))
    && (forall u :: u in dags ==> Succeeded(s.runs, u, date))
  }

  lemma {:induction false} LoseEvents(c: Config, dags: seq<string>, date: int)
    returns (trace: seq<State>, steps: seq<Step>, s: State)
    requires GoodStamps(c) && c.rearmMidDelivery
    ensures Happens(c, trace, steps, s) && OnlySuccesses(c, s, dags, date)
    decreases |dags|
  {
    if dags == [] {
      s := State(map[], {}, map[]);
      trace, steps := [s], [];
    } else {
      var u := dags[|dags| - 1];
      trace, steps, s := LoseEvents(c, dags[..|dags| - 1], date);
      if u !in dags[..|dags| - 1] {
        trace, steps, s := LoseOne(c, trace, steps, s, dags[..|dags| - 1], u, date);
      }
      assert dags == dags[..|dags| - 1] + [u];
      MembersOnly(c, s, dags[..|dags| - 1], u, dags, date);
    }
  }

  lemma MembersOnly(c: Config, s: State, front: seq<string>, u: string, dags: seq<string>, date: int)
    requires dags == front + [u]
    requires OnlySuccesses(c, s, front + [u], date) || (OnlySuccesses(c, s, front, date) && u in front)
    ensures OnlySuccesses(c, s, dags, date)
  {
    assert forall d :: d in dags <==> d in front || d == u;
  }

  lemma LoseOne(c: Config, trace: seq<State>, steps: seq<Step>, s: State, dags: seq<string>, u: string, date: int)
    returns (trace': seq<State>, steps': seq<Step>, s': State)
    requires GoodStamps(c) && c.rearmMidDelivery && Happens(c, trace, steps, s) && OnlySuccesses(c, s, dags, date) &&
             u !in dags
    ensures Happens(c, trace', steps', s') && OnlySuccesses(c, s', dags + [u], date)
  {
    var id := RunId(c, u, date);
    assert !Taken(s.runs, id, u, date) by {
      if id in s.runs { RunIdIsInjective(c, u, date, s.runs[id].dag, date); }
    }
    forall d, e | id == RunId(c, d, e) ensures d == u && e == date { RunIdIsInjective(c, d, e, u, date); }
    trace', steps' := SucceedAndFail(c, trace, steps, s, id, u, date);
    var failed := s.(runs := s.runs[id := Run(u, date, RunFailed)], pending := {id});
    trace', steps' := ConsumeRearmed(c, trace', steps', failed, id);
    s' := failed.(runs := WithState(failed.runs, id, RunSuccess), pending := {});
    forall d | d in dags + [u] ensures Succeeded(s'.runs, d, date) {
      if d == u {
        assert ForPeriod(s'.runs[id], u, date) && s'.runs[id].state.RunSuccess?;
      } else {
        assert Succeeded(s.runs, d, date);
        var i :| i in s.runs && ForPeriod(s.runs[i], d, date) && s.runs[i].state.RunSuccess?;
        assert s'.runs[i] == s.runs[i];
      }
    }
  }

  /** The trigger of every downstream that can be owed is lost in some history. */
  lemma RearmMidDeliveryLoses(c: Config, dn: string)
    requires GoodStamps(c) && c.rearmMidDelivery && CanBeOwed(c, dn)
    ensures Loses(c)
  {
    var trace, steps, s := LoseEvents(c, Ups(c, dn), 0);
    assert !HasRun(s.runs, dn, 0);
    assert Owed(c, s, dn, 0);
    assert trace[|trace| - 1] == s;
  }

  /** Triggers cannot be lost if and only if no run succeeds again after a delivery of its event has passed
      one of its downstreams, or there is no downstream that could be owed anyway. */
  lemma LosesIff(c: Config)
    requires GoodStamps(c) && SameEdges(c)
    ensures !Loses(c) <==> !c.rearmMidDelivery || forall dn :: !CanBeOwed(c, dn)
  {
    if Loses(c) {
      var trace: seq<State>, steps: seq<Step>, i: nat, dn: string, date: int :|
        Execution(c, trace, steps) && i < |trace| && Owed(c, trace[i], dn, date) && trace[i].pending == {};
      OwedCanBe(c, trace[i], dn, date);
      if !c.rearmMidDelivery {
        NoneLostThroughout(c, trace, steps, i);
      }
    }
    if dn :| c.rearmMidDelivery && CanBeOwed(c, dn) {
      RearmMidDeliveryLoses(c, dn);
    }
  }

  // ---- the deliveries themselves, run without interference ----

  predicate Satisfied(c: Config, runs: Runs, dn: string, date: int) {
    forall u :: u in Ups(c, dn) ==> u in c.registered && Succeeded(runs, u, date)
  }

  predicate Due(c: Config, runs: Runs, dn: string, date: int) {
    dn in c.launchable && dn in c.live && Satisfied(c, runs, dn, date)
  }

  /** The new runs are queued, due for the date and downstream of `u`; the old ones are as they were. */
  ghost predicate OnlyDueAdded(c: Config, u: string, date: int, before: Runs, after: Runs) {
    && (forall id :: id in before ==> id in after && after[id] == before[id])
    && (forall id :: id in after && id !in before ==>
          && id == RunId(c, after[id].dag, date) && after[id] == Run(after[id].dag, date, RunQueued)
          && after[id].dag in Downs(c, u) && Due(c, before, after[id].dag, date))
  }

  ghost predicate AllDueExist(c: Config, u: string, date: int, before: Runs, after: Runs) {
    forall dn :: dn in Downs(c, u) && Due(c, before, dn, date) ==> Taken(after, RunId(c, dn, date), dn, date)
  }

  /** Creating queued runs makes no upstream successful. */
  lemma SatisfiedStays(c: Config, u: string, date: int, before: Runs, after: Runs, dn: string)
    requires OnlyDueAdded(c, u, date, before, after)
    ensures Satisfied(c, after, dn, date) <==> Satisfied(c, before, dn, date)
  {
    forall x ensures Succeeded(after, x, date) <==> Succeeded(before, x, date) {
      if Succeeded(before, x, date) {
        var id :| id in before && ForPeriod(before[id], x, date) && before[id].state.RunSuccess?;
        assert after[id] == before[id];
      }
      if Succeeded(after, x, date) {
        var id :| id in after && ForPeriod(after[id], x, date) && after[id].state.RunSuccess?;
        assert id in before && after[id] == before[id];
      }
    }
  }

  lemma TakenStays(before: Runs, after: Runs, id: string, dag: string, date: int)
    requires forall i :: i in before ==> i in after && after[i] == before[i]
    ensures Taken(before, id, dag, date) ==> Taken(after, id, dag, date)
  {
    HasRunStays(before, after, dag, date);
  }

  datatype Insertion = Created | AlreadyExists | NotFound | QueueFull

  /** The store; `room` is what the global queue limit still admits. */
  class TriggerStore {
    var runs: Runs
    var pending: set<string>
    var room: nat

    constructor (runs: Runs, pending: set<string>, room: nat)
      ensures this.runs == runs && this.pending == pending && this.room == room
    {
      this.runs, this.pending, this.room := runs, pending, room;
    }

    /** GetDagRunByLogicalDate, as far as the gate uses it. */
    method SucceededFor(dag: string, date: int) returns (ok: bool)
      ensures ok <==> Succeeded(runs, dag, date)
    {
      var left := runs.Keys;
      while left != {}
        invariant left <= runs.Keys
        invariant forall id :: id in runs && id !in left ==>
                  !(ForPeriod(runs[id], dag, date) && runs[id].state.RunSuccess?)
        decreases |left|
      {
        var id :| id in left;
        left := left - {id};
        if ForPeriod(runs[id], dag, date) && runs[id].state.RunSuccess? {
          return true;
        }
      }
      ok := false;
    }

    method UpstreamsSucceeded(c: Config, dn: string, date: int) returns (allOK: bool)
      ensures allOK <==> Satisfied(c, runs, dn, date)
    {
      allOK := true;
      var ups := Ups(c, dn);
      for k := 0 to |ups|
        invariant allOK && forall i :: 0 <= i < k ==> ups[i] in c.registered && Succeeded(runs, ups[i], date)
      {
        var up := ups[k];
        assert up in Ups(c, dn);
        if up !in c.registered {
          return false;
        }
        var succeeded := SucceededFor(up, date);
        if !succeeded {
          return false;
        }
      }
    }

    /** CreateDagRunBounded: nothing for a deleted DAG; then the queue bound, before the uniqueness of the run. */
    method CreateBounded(c: Config, id: string, dag: string, date: int) returns (outcome: Insertion)
      modifies `runs, `room
      ensures outcome.NotFound? <==> dag !in c.live
      ensures outcome.QueueFull? <==> dag in c.live && old(room) == 0
      ensures outcome.AlreadyExists? <==> dag in c.live && old(room) > 0 && Taken(old(runs), id, dag, date)
      ensures runs == if outcome.Created? then old(runs)[id := Run(dag, date, RunQueued)] else old(runs)
      ensures room == if outcome.Created? then old(room) - 1 else old(room)
    {
      if dag !in c.live {
        return NotFound;
      }
      if room == 0 {
        return QueueFull;
      }
      if Taken(runs, id, dag, date) {
        return AlreadyExists;
      }
      runs := runs[id := Run(dag, date, RunQueued)];
      room := room - 1;
      outcome := Created;
    }

    /** One downstream of an event. */
    method TriggerOne(c: Config, ghost u: string, dn: string, date: int, ghost before: Runs) returns (deferred: bool)
      requires OnlyDueAdded(c, u, date, before, runs) && dn in Downs(c, u)
      modifies `runs, `room
      ensures OnlyDueAdded(c, u, date, before, runs) && OnlyDueAdded(c, u, date, old(runs), runs)
      ensures deferred ==> room == 0
      ensures !deferred && Due(c, before, dn, date) ==> Taken(runs, RunId(c, dn, date), dn, date)
      ensures room <= old(room)
    {
      deferred := false;
      var allOK := UpstreamsSucceeded(c, dn, date);
      SatisfiedStays(c, u, date, before, runs, dn);
      if allOK && dn in c.launchable {
        var outcome := CreateBounded(c, RunId(c, dn, date), dn, date);
        deferred := outcome.QueueFull?;
      }
    }

    method TriggerDownstreams(c: Config, u: string, date: int) returns (deferred: bool)
      modifies `runs, `room
      ensures OnlyDueAdded(c, u, date, old(runs), runs)
      ensures deferred ==> room == 0
      ensures !deferred ==> AllDueExist(c, u, date, old(runs), runs)
    {
      deferred := false;
      ghost var before := runs;
      var downs := Downs(c, u);
      for k := 0 to |downs|
        invariant OnlyDueAdded(c, u, date, before, runs)
        invariant deferred ==> room == 0
        invariant !deferred ==> forall i :: 0 <= i < k && Due(c, before, downs[i], date) ==>
                    Taken(runs, RunId(c, downs[i], date), downs[i], date)
      {
        ghost var earlier := runs;
        var waits := TriggerOne(c, u, downs[k], date, before);
        forall d | Taken(earlier, RunId(c, d, date), d, date) ensures Taken(runs, RunId(c, d, date), d, date) {
          TakenStays(earlier, runs, RunId(c, d, date), d, date);
        }
        deferred := deferred || waits;
      }
    }

    /** One event: consumed when its run is gone or over without success, or when every downstream that is
        due exists; kept while its run is active or the queue is full. */
    method ProcessEvent(c: Config, id: string)
      modifies this
      ensures pending == old(pending) || pending == old(pending) - {id}
      ensures id in old(runs) && old(runs)[id].state.RunSuccess? ==>
                var u, date := old(runs)[id].dag, old(runs)[id].date;
                OnlyDueAdded(c, u, date, old(runs), runs) &&
                (room == 0 || (id !in pending && AllDueExist(c, u, date, old(runs), runs)))
      ensures id in old(runs) && !old(runs)[id].state.RunSuccess? ==>
                runs == old(runs) &&
                pending == if old(runs)[id].state.Ended() then old(pending) - {id} else old(pending)
      ensures id !in old(runs) ==> runs == old(runs) && pending == old(pending) - {id}
      ensures id in old(pending) && id !in pending && id in old(runs) && old(runs)[id].state.RunSuccess? ==>
                AllDueExist(c, old(runs)[id].dag, old(runs)[id].date, old(runs), runs)
    {
      if id !in runs {
        pending := pending - {id};
        return;
      }
      if !runs[id].state.RunSuccess? {
        if runs[id].state.Ended() {
          pending := pending - {id};
        }
        return;
      }
      var deferred := TriggerDownstreams(c, runs[id].dag, runs[id].date);
      if !deferred {
        pending := pending - {id};
      }
    }
  }
}
