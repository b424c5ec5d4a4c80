/** The scheduler lease (internal/store/sqlite/lease.go, internal/store/postgres/lease.go).

    Each call reads the shared clock before its statements reach the database, and may be delayed in
    between; a first insert is a second statement after the select that found no row. While an instance
    is within ttl of its last successful acquire or renew, the row names it. */
module Lease {
  import opened Options

  /** `until` is None for a stored time that does not parse. */
  datatype Row = Row(holder: string, until: Option<int>)

  datatype Outcome = Granted | HeldBy(holder: string) | LostRace | LeaseLost

  /** Another holder's lease that has not run out at `now`. */
  predicate Live(row: Row, holder: string, now: int) {
    row.until.Some? && row.holder != holder && row.until.value > now
  }

  /** The row, and what a call did to it. */
  datatype Reply = Reply(row: Option<Row>, outcome: Outcome)

  function Grant(holder: string, now: int, ttl: int): Reply {
    Reply(Some(Row(holder, Some(now + ttl))), Granted)
  }

  function Acquire(row: Option<Row>, holder: string, now: int, ttl: int): Reply {
    if row.Some? && Live(row.value, holder, now) then Reply(row, HeldBy(row.value.holder))
    else Grant(holder, now, ttl)
  }

  /** ON CONFLICT DO NOTHING */
  function Insert(row: Option<Row>, holder: string, now: int, ttl: int): Reply {
    if row.Some? then Reply(row, LostRace) else Grant(holder, now, ttl)
  }

  function Renew(row: Option<Row>, holder: string, now: int, ttl: int): Reply {
    if row.Some? && row.value.holder == holder then Grant(holder, now, ttl) else Reply(row, LeaseLost)
  }

  function Release(row: Option<Row>, holder: string): Option<Row> {
    if row.Some? && row.value.holder == holder then None else row
  }

  /** The scheduler_lease table. */
  class LeaseTable {
    var row: Option<Row>

    constructor ()
      ensures row == None
    {
      row := None;
    }

    /** One serialised transaction, as in SQLite. */
    method AcquireLease(holder: string, now: int, ttl: int) returns (outcome: Outcome)
      modifies this
      ensures Reply(row, outcome) == Acquire(old(row), holder, now, ttl)
      ensures outcome.Granted? <==>
                (old(row).None? || old(row).value.holder == holder || old(row).value.until.None? ||
                 old(row).value.until.value <= now)
      ensures outcome.Granted? ==> row == Some(Row(holder, Some(now + ttl)))
      ensures !outcome.Granted? ==> row == old(row) && row.Some? && outcome == HeldBy(row.value.holder)
    {
      match row {
        case None =>
          row := Some(Row(holder, Some(now + ttl)));
        case Some(cur) =>
          if cur.until.Some? && cur.holder != holder && cur.until.value > now {
            return HeldBy(cur.holder);
          }
          row := Some(Row(holder, Some(now + ttl)));
      }
      outcome := Granted;
    }

    method RenewLease(holder: string, now: int, ttl: int) returns (outcome: Outcome)
      modifies this
      ensures Reply(row, outcome) == Renew(old(row), holder, now, ttl)
      ensures outcome.Granted? <==> old(row).Some? && old(row).value.holder == holder
      ensures row == if outcome.Granted? then Some(Row(holder, Some(now + ttl))) else old(row)
    {
      if row.None? || row.value.holder != holder {
        return LeaseLost;
      }
      row := Some(row.value.(until := Some(now + ttl)));
      outcome := Granted;
    }

    method ReleaseLease(holder: string)
      modifies this
      ensures row == Release(old(row), holder)
      ensures row.None? <==> old(row).None? || old(row).value.holder == holder
      ensures row.Some? ==> row == old(row)
    {
      if row.Some? && row.value.holder == holder {
        row := None;
      }
    }
  }

  // ---- many instances ----

  /** A call in progress, with the time it read. */
  datatype Call = Acquiring(now: int) | Inserting(now: int) | Renewing(now: int)

  /** `until[h]` is the end of the window h counts on after its last successful call. */
  datatype State = State(clock: int, row: Option<Row>, until: map<string, int>, calls: map<string, Call>)

  datatype Step =
    | Passes(time: nat)
    | Calls(h: string, renews: bool)
    | Selects(h: string)
    | Inserts(h: string)
    | Renews(h: string)
    | Releases(h: string)
    | Crashes(h: string)

  ghost predicate Init(s: State) {
    s.row == None && s.until == map[] && s.calls == map[]
  }

  ghost predicate Enabled(s: State, step: Step) {
    match step
    case Passes(_) => true
    case Calls(h, _) => h !in s.calls
    case Selects(h) => h in s.calls && s.calls[h].Acquiring?
    case Inserts(h) => h in s.calls && s.calls[h].Inserting?
    case Renews(h) => h in s.calls && s.calls[h].Renewing?
    case Releases(h) => h !in s.calls
    case Crashes(h) => true
  }

  /** A finished call: the caller learns of its window, or that it has none. */
  function Finish(s: State, h: string, r: Reply, ttl: int): State
    requires h in s.calls
  {
    s.(row := r.row, calls := s.calls - {h},
       until := if r.outcome.Granted? then s.until[h := s.calls[h].now + ttl]
                else if r.outcome.LeaseLost? then s.until - {h}
                else s.until)
  }

  ghost function Do(ttl: int, s: State, step: Step): State
    requires Enabled(s, step)
  {
    match step
    case Passes(time) => s.(clock := s.clock + time)
    case Calls(h, renews) => s.(calls := s.calls[h := if renews then Renewing(s.clock) else Acquiring(s.clock)])
    case Selects(h) =>
      if s.row.None? then s.(calls := s.calls[h := Inserting(s.calls[h].now)])
      else Finish(s, h, Acquire(s.row, h, s.calls[h].now, ttl), ttl)
    case Inserts(h) => Finish(s, h, Insert(s.row, h, s.calls[h].now, ttl), ttl)
    case Renews(h) => Finish(s, h, Renew(s.row, h, s.calls[h].now, ttl), ttl)
    case Releases(h) => s.(row := Release(s.row, h), until := s.until - {h})
    case Crashes(h) => s.(calls := s.calls - {h}, until := s.until - {h})
  }

  ghost predicate Execution(ttl: int, trace: seq<State>, steps: seq<Step>) {
    && |trace| == |steps| + 1 && Init(trace[0])
    && forall i :: 0 <= i < |steps| ==> Enabled(trace[i], steps[i]) && trace[i + 1] == Do(ttl, trace[i], steps[i])
  }

  predicate Within(s: State, h: string) {
    h in s.until && s.clock < s.until[h]
  }

  /** Whoever is inside its window is named by the row, with the end it counts on. */
  ghost predicate Inv(s: State) {
    && (forall h :: Within(s, h) ==> s.row == Some(Row(h, Some(s.until[h]))))
    && (forall h :: h in s.calls ==> s.calls[h].now <= s.clock)
  }

  lemma InvStep(ttl: int, s: State, step: Step)
    requires Inv(s) && Enabled(s, step)
    ensures Inv(Do(ttl, s, step))
  {
    var s' := Do(ttl, s, step);
    forall h | Within(s', h) ensures s'.row == Some(Row(h, Some(s'.until[h]))) {
      assert h in s.until && s'.until[h] == s.until[h] ==> Within(s, h);
    }
  }

  lemma {:induction false} InvThroughout(ttl: int, trace: seq<State>, steps: seq<Step>, i: nat)
    requires Execution(ttl, trace, steps) && i < |trace|
    ensures Inv(trace[i])
    decreases i
  {
    if i > 0 {
      InvThroughout(ttl, trace, steps, i - 1);
      InvStep(ttl, trace[i - 1], steps[i - 1]);
    }
  }

  /** No two instances are inside their windows at once, and the row names the one that is. */
  lemma OneHolder(ttl: int, trace: seq<State>, steps: seq<Step>, i: nat, g: string, h: string)
    requires Execution(ttl, trace, steps) && i < |trace| && Within(trace[i], g) && Within(trace[i], h)
    ensures g == h && trace[i].row.Some? && trace[i].row.value.holder == h
  {
    InvThroughout(ttl, trace, steps, i);
  }

  predicate Names(s: State, h: string) {
    s.row.Some? && s.row.value.holder == h
  }

  /** The acquire of `h` succeeds in this step. */
  predicate AcquiresNow(ttl: int, s: State, step: Step, h: string) {
    (step == Inserts(h) && h in s.calls && Insert(s.row, h, s.calls[h].now, ttl).outcome.Granted?) ||
    (step == Selects(h) && h in s.calls && s.row.Some? && Acquire(s.row, h, s.calls[h].now, ttl).outcome.Granted?)
  }

  lemma {:induction false} StaysUnnamed(ttl: int, trace: seq<State>, steps: seq<Step>, i: nat, j: nat, h: string)
    requires Execution(ttl, trace, steps) && i <= j < |trace| && !Names(trace[i], h)
    requires forall k :: i <= k < j ==> !AcquiresNow(ttl, trace[k], steps[k], h)
    ensures !Names(trace[j], h)
    decreases j - i
  {
    if i < j {
      var s, step := trace[i], steps[i];
      assert !AcquiresNow(ttl, s, step, h);
      assert !Names(Do(ttl, s, step), h);
      StaysUnnamed(ttl, trace, steps, i + 1, j, h);
    }
  }

  /** After a takeover every renew of the old holder fails, until it acquires again; and it ends the
      old holder's window. */
  lemma RenewFailsAfterTakeover(ttl: int, trace: seq<State>, steps: seq<Step>, i: nat, j: nat, h: string)
    requires Execution(ttl, trace, steps) && i <= j < |steps| && !Names(trace[i], h) && steps[j] == Renews(h)
    requires forall k :: i <= k < j ==> !AcquiresNow(ttl, trace[k], steps[k], h)
    ensures trace[j + 1].row == trace[j].row && !Within(trace[j + 1], h)
    ensures h in trace[j].calls && Renew(trace[j].row, h, trace[j].calls[h].now, ttl).outcome.LeaseLost?
  {
    StaysUnnamed(ttl, trace, steps, i, j, h);
    assert Enabled(trace[j], steps[j]);
  }

  // ---- a lease can be had ----

  /** `h` has the lease: the row names it until the end of its window. */
  predicate Holds(s: State, h: string, until: int) {
    s.row == Some(Row(h, Some(until))) && h in s.until && s.until[h] == until && h !in s.calls
  }

  /** A select that finds a row takes the lease exactly when the row is the caller's own, its time is unreadable,
      or its time is not after the caller's clock reading; otherwise the row and all windows stay. */
  lemma SelectTakesIff(ttl: int, trace: seq<State>, steps: seq<Step>, i: nat, h: string)
    requires Execution(ttl, trace, steps) && i < |steps| && steps[i] == Selects(h) && trace[i].row.Some?
    ensures h in trace[i].calls
    ensures var row, now := trace[i].row.value, trace[i].calls[h].now;
            if row.holder == h || row.until.None? || row.until.value <= now
            then Holds(trace[i + 1], h, now + ttl)
            else trace[i + 1].row == trace[i].row && trace[i + 1].until == trace[i].until
  {
    assert Enabled(trace[i], steps[i]);
  }

  /** A select that finds no row goes on to the insert, which takes the lease unless somebody came first. */
  lemma InsertTakesIff(ttl: int, trace: seq<State>, steps: seq<Step>, i: nat, h: string)
    requires Execution(ttl, trace, steps) && i < |steps|
    ensures steps[i] == Selects(h) && trace[i].row.None? ==>
              && h in trace[i].calls
              && trace[i + 1] == trace[i].(calls := trace[i].calls[h := Inserting(trace[i].calls[h].now)])
    ensures steps[i] == Inserts(h) ==>
              && h in trace[i].calls
              && (trace[i].row.None? ==> Holds(trace[i + 1], h, trace[i].calls[h].now + ttl))
              && (trace[i].row.Some? ==> trace[i + 1].row == trace[i].row && trace[i + 1].until == trace[i].until)
  {
    assert Enabled(trace[i], steps[i]);
  }

  lemma Then(ttl: int, trace: seq<State>, steps: seq<Step>, s: State, step: Step)
    returns (trace': seq<State>, steps': seq<Step>, s': State)
    requires Execution(ttl, trace, steps) && trace[|steps|] == s && Enabled(s, step)
    ensures s' == Do(ttl, s, step) && Execution(ttl, trace', steps') && trace'[|steps'|] == s'
    ensures trace' == trace + [s'] && steps' == steps + [step]
  {
    s' := Do(ttl, s, step);
    trace', steps' := trace + [s'], steps + [step];
  }

  /** Whatever happened before, and whoever holds the lease and has died, any other instance has it after
      waiting for the row's time to pass and one acquire; no step of anybody else is needed. */
  lemma StandbyTakesOver(ttl: int, trace: seq<State>, steps: seq<Step>, h: string)
    returns (trace': seq<State>, steps': seq<Step>)
    requires Execution(ttl, trace, steps) && ttl > 0 && h !in trace[|steps|].calls
    ensures Execution(ttl, trace', steps') && steps <= steps'
    ensures forall i :: |steps| <= i < |steps'| ==>
              steps'[i].Passes? || steps'[i] in {Calls(h, false), Selects(h), Inserts(h)}
    ensures Within(trace'[|steps'|], h)
  {
    var s := trace[|steps|];
    var wait := if s.row.Some? && s.row.value.until.Some? && s.row.value.until.value > s.clock
                then s.row.value.until.value - s.clock else 0;
    trace', steps', s := Then(ttl, trace, steps, s, Passes(wait));
    trace', steps', s := Then(ttl, trace', steps', s, Calls(h, false));
    var none := s.row.None?;
    trace', steps', s := Then(ttl, trace', steps', s, Selects(h));
    if none {
      trace', steps', s := Then(ttl, trace', steps', s, Inserts(h));
    }
  }

  /** A holder that renews while the row names it, in time or not, has the lease for another ttl from the
      renewal's clock reading; and only such a renew goes through. */
  lemma RenewExtendsIff(ttl: int, trace: seq<State>, steps: seq<Step>, i: nat, h: string)
    requires Execution(ttl, trace, steps) && i < |steps| && steps[i] == Renews(h)
    ensures h in trace[i].calls
    ensures if Names(trace[i], h) then Holds(trace[i + 1], h, trace[i].calls[h].now + ttl)
            else trace[i + 1].row == trace[i].row && !Within(trace[i + 1], h)
  {
    assert Enabled(trace[i], steps[i]);
  }
}
