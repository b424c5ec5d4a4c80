/** detectCycle (internal/scheduler/parser/parser.go): a three-coloured depth-first search.

    The source's recursive closure over `color` is the class `CycleDetector`; a node missing from
    `color` is white, exactly as a Go map lookup reads. The gray nodes are always the search path,
    and the black nodes, in the order they were finished, are a topological order. */
module CycleDetection {
  import opened Dag
  import opened Graph

  datatype Color = Gray | Black

  datatype Verdict = NoCycle | CycleFound(path: seq<string>, repeated: string)

  /** The reported path really closes: its last node depends on the repeated one, which the
      path already visited. */
  ghost predicate RealCycle(adj: Adj, v: Verdict) {
    v.CycleFound? && IsPath(adj, v.path + [v.repeated]) &&
    exists i :: 0 <= i < |v.path| && v.path[i] == v.repeated && IsCycle(adj, (v.path + [v.repeated])[i..])
  }

  lemma RealCycleRefutesAcyclic(adj: Adj, v: Verdict)
    requires RealCycle(adj, v)
    ensures !Acyclic(adj)
  {
  }

  lemma GrayHit(adj: Adj, path: seq<string>, m: string)
    requires path != [] && IsPath(adj, path) && Edge(adj, path[|path| - 1], m) && m in path
    ensures RealCycle(adj, CycleFound(path, m))
  {
    var p := path + [m];
    forall k | 0 <= k < |p| - 1 ensures Edge(adj, p[k], p[k + 1]) {
      if k < |path| - 1 { assert Edge(adj, path[k], path[k + 1]); }
    }
    var i :| 0 <= i < |path| && path[i] == m;
    RepeatIsCycle(adj, p, i, |path|);
    assert p[i..] == p[i..|path| + 1];
  }

  class CycleDetector {
    const adj: Adj
    var color: map<string, Color>
    ghost var finished: seq<string>

    constructor (adj: Adj)
      ensures this.adj == adj && color == map[] && finished == []
    {
      this.adj := adj;
      color := map[];
      finished := [];
    }

    /** The search state while `path` is being explored. */
    ghost predicate Valid(path: seq<string>)
      reads this
    {
      && color.Keys <= Nodes(adj)
      && (forall x :: x in color && color[x].Gray? <==> x in path)
      && (forall x :: x in color && color[x].Black? <==> x in finished)
      && (path != [] ==> IsPath(adj, path))
      && DepsFirst(adj, finished)
    }

    ghost function White(): set<string>
      reads this
    {
      Nodes(adj) - color.Keys
    }

    method Visit(n: string, path: seq<string>) returns (v: Verdict)
      requires Valid(path) && n in White()
      requires path != [] ==> Edge(adj, path[|path| - 1], n)
      modifies this
      ensures v.CycleFound? ==> RealCycle(adj, v)
      ensures v.NoCycle? ==> Valid(path) && n in finished && old(finished) <= finished
      ensures v.NoCycle? ==> White() < old(White())
      decreases White()
    {
      color := color[n := Gray];
      var here := path + [n];
      assert Valid(here) by { ExtendPath(path, n); }
      var deps := if n in adj then adj[n] else [];
      ghost var entry := White();
      for k := 0 to |deps|
        invariant Valid(here) && White() <= entry < old(White())
        invariant old(finished) <= finished
        invariant forall i :: 0 <= i < k ==> deps[i] in finished
      {
        var m := deps[k];
        assert Edge(adj, n, m);
        if m in color && color[m].Gray? {
          GrayHit(adj, here, m);
          return CycleFound(here, m);
        }
        if m !in color {
          v := Visit(m, here);
          if v.CycleFound? {
            return;
          }
        }
      }
      assert n !in finished;
      color := color[n := Black];
      finished := finished + [n];
      FinishNode(finished[..|finished| - 1], n);
      assert path != [] ==> IsPath(adj, path);
      assert forall x :: x in path ==> x in here && x != n;
      v := NoCycle;
    }

    method VisitIfWhite(id: string) returns (v: Verdict)
      requires Valid([]) && id in adj
      modifies this
      ensures v.CycleFound? ==> RealCycle(adj, v)
      ensures v.NoCycle? ==> Valid([]) && id in finished && old(finished) <= finished
    {
      if id !in color {
        v := Visit(id, []);
      } else {
        assert color[id].Black?;
        v := NoCycle;
      }
    }

    lemma ExtendPath(path: seq<string>, n: string)
      requires path != [] ==> IsPath(adj, path) && Edge(adj, path[|path| - 1], n)
      ensures IsPath(adj, path + [n])
    {
      var p := path + [n];
      forall k | 0 <= k < |p| - 1 ensures Edge(adj, p[k], p[k + 1]) {
        if k < |path| - 1 { assert Edge(adj, path[k], path[k + 1]); }
      }
    }

    lemma FinishNode(order: seq<string>, n: string)
      requires DepsFirst(adj, order) && n !in order
      requires forall d :: Edge(adj, n, d) ==> d in order
      ensures DepsFirst(adj, order + [n])
    {
      var next := order + [n];
      forall i, d | 0 <= i < |next| && Edge(adj, next[i], d) ensures d in next[..i] {
        if i < |order| {
          assert d in order[..i];
          assert next[..i] == order[..i];
        } else {
          assert next[..i] == order;
        }
      }
    }
  }

  method BuildAdj(tasks: seq<Task>) returns (adj: Adj)
    ensures adj == AdjOf(tasks)
  {
    adj := map[];
    for i := 0 to |tasks|
      invariant adj == AdjOf(tasks[..i])
    {
      assert tasks[..i + 1][..i] == tasks[..i];
      adj := adj[tasks[i].id := tasks[i].deps];
    }
    assert tasks[..|tasks|] == tasks;
  }

  /** Returns nil exactly when the dependency graph has no directed cycle; otherwise the error
      names a real one. */
  method DetectCycle(tasks: seq<Task>) returns (v: Verdict)
    ensures v.NoCycle? <==> Acyclic(AdjOf(tasks))
    ensures v.CycleFound? ==> RealCycle(AdjOf(tasks), v)
  {
    var adj := BuildAdj(tasks);
    var search := new CycleDetector(adj);
    TaskIdsAreKeys(tasks);
    for i := 0 to |tasks|
      invariant search.Valid([])
      invariant forall k :: 0 <= k < i ==> tasks[k].id in search.finished
    {
      v := search.VisitIfWhite(tasks[i].id);
      if v.CycleFound? {
        RealCycleRefutesAcyclic(adj, v);
        return;
      }
    }
    EverythingFinished(tasks, search.finished);
    v := NoCycle;
  }

  lemma TaskIdsAreKeys(tasks: seq<Task>)
    ensures forall i :: 0 <= i < |tasks| ==> tasks[i].id in AdjOf(tasks)
  {
    KeysComeFromTasks(tasks);
    forall i | 0 <= i < |tasks| ensures tasks[i].id in AdjOf(tasks) {
      assert HasTask(tasks, tasks[i].id);
    }
  }

  lemma EverythingFinished(tasks: seq<Task>, finished: seq<string>)
    requires DepsFirst(AdjOf(tasks), finished)
    requires forall k :: 0 <= k < |tasks| ==> tasks[k].id in finished
    ensures Acyclic(AdjOf(tasks))
  {
    KeysComeFromTasks(tasks);
    TopoOrderIsAcyclic(AdjOf(tasks), finished);
  }

  lemma {:induction false} KeysComeFromTasks(tasks: seq<Task>)
    ensures forall a :: a in AdjOf(tasks) <==> HasTask(tasks, a)
    decreases |tasks|
  {
    if tasks != [] {
      var front := tasks[..|tasks| - 1];
      KeysComeFromTasks(front);
      forall a ensures HasTask(tasks, a) <==> HasTask(front, a) || a == tasks[|tasks| - 1].id {
        if HasTask(front, a) {
          var i :| 0 <= i < |front| && front[i].id == a;
          assert tasks[i].id == a;
        }
      }
    }
  }
}
