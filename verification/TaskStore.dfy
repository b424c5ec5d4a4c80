/** Task-instance rows and the two ways of writing them (internal/store/postgres/postgres.go), with
    the row changes the scheduler computes (internal/scheduler/scheduler.go). */
module TaskStore {
  import opened TriggerRules

  /** executor_ref: empty, or the reference of the attempt with this try number. The string form
      and its injectivity are in module AttemptRefs. */
  datatype Ref = NoRef | Attempt(try: nat)

  datatype Row = Row(state: TaskState, tries: nat, maxRetries: nat, ref: Ref)

  /** The row UpdateTaskInstanceGuarded may overwrite: still this attempt's, and not terminal. */
  predicate Matches(row: Row, ref: Ref) {
    row.ref == ref && !row.state.IsTerminal()
  }

  function Guarded(row: Row, ti: Row, expectRef: Ref): Row {
    if Matches(row, expectRef) then ti else row
  }

  /** recordFailure */
  function FailedAttempt(ti: Row): Row {
    ti.(state := if ti.tries <= ti.maxRetries then UpForRetry else Failed)
  }

  const SKIP_EXIT_CODE := 99

  /** finalizeTask */
  function FinishedAttempt(ti: Row, exitCode: int): Row {
    if exitCode == 0 then ti.(state := Success)
    else if exitCode == SKIP_EXIT_CODE then ti.(state := Skipped)
    else FailedAttempt(ti)
  }

  /** What an exit code comes to: 0 is a success, 99 a skip, and any other code a retry while the attempts made do
      not exceed maxRetries, and the task's failure after that. Nothing else of the row changes. */
  predicate ByExitCode(ti: Row, exitCode: int, next: Row) {
    && next.tries == ti.tries && next.maxRetries == ti.maxRetries && next.ref == ti.ref
    && (next.state == Success <==> exitCode == 0)
    && (next.state == Skipped <==> exitCode == 99)
    && (next.state == UpForRetry <==> exitCode != 0 && exitCode != 99 && ti.tries <= ti.maxRetries)
    && (next.state == Failed <==> exitCode != 0 && exitCode != 99 && ti.tries > ti.maxRetries)
  }

  /** dispatch */
  function Dispatched(row: Row): Row {
    row.(state := Queued, tries := row.tries + 1, ref := Attempt(row.tries + 1))
  }

  /** The attempt was never launched: undo its try number. */
  function GivenBack(ti: Row): Row {
    ti.(state := Scheduled, tries := if ti.tries > 0 then ti.tries - 1 else 0, ref := NoRef)
  }

  /** Requeue, retry and mark-release: a fresh attempt later, try number kept. */
  function Cleared(row: Row): Row {
    row.(state := Scheduled, ref := NoRef)
  }

  /** The task_instances table of one run. */
  class TaskTable {
    var rows: map<string, Row>

    constructor ()
      ensures rows == map[]
    {
      rows := map[];
    }

    /** UpdateTaskInstance: unconditional; false is ErrNotFound. */
    method Update(id: string, ti: Row) returns (found: bool)
      modifies this
      ensures found <==> id in old(rows)
      ensures rows == if found then old(rows)[id := ti] else old(rows)
    {
      found := id in rows;
      if found {
        rows := rows[id := ti];
      }
    }

    /** UpdateTaskInstanceGuarded: the compare-and-swap of the attempt goroutines. */
    method UpdateGuarded(id: string, ti: Row, expectRef: Ref) returns (applied: bool)
      modifies this
      ensures applied <==> id in old(rows) && Matches(old(rows)[id], expectRef)
      ensures id in old(rows) ==> rows == old(rows)[id := Guarded(old(rows)[id], ti, expectRef)]
      ensures id !in old(rows) ==> rows == old(rows)
    {
      applied := id in rows && rows[id].ref == expectRef && !rows[id].state.IsTerminal();
      if applied {
        rows := rows[id := ti];
      }
    }

    /** dispatch: scheduled -> queued under the next try's reference. */
    method Dispatch(id: string) returns (ti: Row)
      requires id in rows
      modifies this
      ensures ti == Dispatched(old(rows)[id]) && rows == old(rows)[id := ti]
    {
      ti := rows[id];
      ti := ti.(tries := ti.tries + 1);
      ti := ti.(state := Queued);
      ti := ti.(ref := Attempt(ti.tries));
      var _ := Update(id, ti);
    }

    /** finalizeTask and recordFailure, from an attempt's own copy of the row. */
    method Finish(id: string, ti: Row, exitCode: int) returns (applied: bool)
      requires id in rows
      modifies this
      ensures applied <==> Matches(old(rows)[id], ti.ref)
      ensures rows == old(rows)[id := Guarded(old(rows)[id], FinishedAttempt(ti, exitCode), ti.ref)]
      ensures applied ==> ByExitCode(ti, exitCode, rows[id])
    {
      var next := ti;
      if exitCode == 0 || exitCode == SKIP_EXIT_CODE {
        next := next.(state := Success);
        if exitCode == SKIP_EXIT_CODE {
          next := next.(state := Skipped);
        }
      } else if ti.tries <= ti.maxRetries {
        next := next.(state := UpForRetry);
      } else {
        next := next.(state := Failed);
      }
      applied := UpdateGuarded(id, next, ti.ref);
    }

    /** clearAndReactivate: the named rows go back to scheduled, keeping their try numbers. */
    method Clear(ids: seq<string>)
      modifies this
      ensures rows.Keys == old(rows).Keys
      ensures forall id :: id in rows ==>
                rows[id] == if id in ids then Cleared(old(rows)[id]) else old(rows)[id]
    {
      for k := 0 to |ids|
        invariant rows.Keys == old(rows).Keys
        invariant forall id :: id in rows ==>
                    rows[id] == if id in ids[..k] then Cleared(old(rows)[id]) else old(rows)[id]
      {
        if ids[k] in rows {
          var _ := Update(ids[k], rows[ids[k]].(state := Scheduled, ref := NoRef));
        }
      }
    }
  }
}
