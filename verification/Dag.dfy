/** A workflow's task list as the parser hands it to the scheduler (internal/model/model.go). */
module Dag {
  import opened Graph
  import opened TriggerRules

  datatype Task = Task(id: string, deps: seq<string>, rule: Rule, retries: nat)

  ghost predicate DistinctIds(tasks: seq<Task>) {
    forall i, j :: 0 <= i < j < |tasks| ==> tasks[i].id != tasks[j].id
  }

  ghost predicate HasTask(tasks: seq<Task>, id: string) {
    exists i :: 0 <= i < |tasks| && tasks[i].id == id
  }

  ghost function Ids(tasks: seq<Task>): set<string> {
    set t | t in tasks :: t.id
  }

  /** Every dependency names a task of the list. */
  ghost predicate ClosedDeps(tasks: seq<Task>) {
    forall i, d :: 0 <= i < |tasks| && d in tasks[i].deps ==> HasTask(tasks, d)
  }

  /** The adjacency map the parser builds: a later task with the same id wins. */
  function AdjOf(tasks: seq<Task>): Adj {
    if tasks == [] then map[]
    else
      var last := tasks[|tasks| - 1];
      AdjOf(tasks[..|tasks| - 1])[last.id := last.deps]
  }

  lemma {:induction false} AdjOfDistinct(tasks: seq<Task>)
    requires DistinctIds(tasks)
    ensures forall i :: 0 <= i < |tasks| ==> tasks[i].id in AdjOf(tasks) && AdjOf(tasks)[tasks[i].id] == tasks[i].deps
    ensures forall a :: a in AdjOf(tasks) ==> HasTask(tasks, a)
    decreases |tasks|
  {
    if tasks != [] {
      var front := tasks[..|tasks| - 1];
      AdjOfDistinct(front);
      forall a | a in AdjOf(tasks) ensures HasTask(tasks, a) {
        if a in AdjOf(front) {
          var i :| 0 <= i < |front| && front[i].id == a;
          assert tasks[i].id == a;
        } else {
          assert tasks[|tasks| - 1].id == a;
        }
      }
    }
  }

  /** What the scheduling results start from, and the parser guarantees (module FrontEnd). */
  ghost predicate Sound(tasks: seq<Task>) {
    DistinctIds(tasks) && ClosedDeps(tasks) && Acyclic(AdjOf(tasks))
  }
}
