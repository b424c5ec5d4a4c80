/** Dependency graphs: an adjacency map from a task to the tasks it depends on.

    Everything the parser and the scheduler rely on follows from three facts proved here:
    a topological order excludes cycles, an acyclic graph has one, and in an acyclic graph every
    non-empty set of nodes has a member with no dependency in the set. */
module Graph {

  type Adj = map<string, seq<string>>

  predicate Edge(adj: Adj, a: string, b: string) {
    a in adj && b in adj[a]
  }

  ghost predicate IsPath(adj: Adj, p: seq<string>) {
    |p| >= 1 && forall i :: 0 <= i < |p| - 1 ==> Edge(adj, p[i], p[i + 1])
  }

  /** A closed walk along at least one edge. */
  ghost predicate IsCycle(adj: Adj, p: seq<string>) {
    |p| >= 2 && IsPath(adj, p) && p[0] == p[|p| - 1]
  }

  ghost predicate Acyclic(adj: Adj) {
    forall p :: !IsCycle(adj, p)
  }

  ghost predicate Reach(adj: Adj, a: string, b: string) {
    exists p :: IsPath(adj, p) && p[0] == a && p[|p| - 1] == b
  }

  ghost predicate Distinct(s: seq<string>) {
    forall i, j :: 0 <= i < j < |s| ==> s[i] != s[j]
  }

  ghost function Elements(s: seq<string>): (r: set<string>)
    ensures forall x :: x in r <==> x in s
  {
    set x | x in s
  }

  /** Every node and everything a node points to. */
  ghost function Nodes(adj: Adj): (r: set<string>) {
    adj.Keys + set a, b | a in adj && b in adj[a] :: b
  }

  /** Each member's dependencies come before it. */
  ghost predicate DepsFirst(adj: Adj, order: seq<string>) {
    Distinct(order) &&
    forall i, d :: 0 <= i < |order| && Edge(adj, order[i], d) ==> d in order[..i]
  }

  ghost predicate TopoOrder(adj: Adj, order: seq<string>) {
    DepsFirst(adj, order) && forall a :: a in adj ==> a in order
  }

  ghost function Position(order: seq<string>, x: string): (i: nat)
    requires x in order
    ensures i < |order| && order[i] == x
  {
    var i :| 0 <= i < |order| && order[i] == x;
    i
  }

  lemma {:induction false} PositionsDescend(adj: Adj, order: seq<string>, p: seq<string>)
    requires DepsFirst(adj, order) && IsPath(adj, p) && p[0] in order
    ensures p[|p| - 1] in order
    ensures Position(order, p[|p| - 1]) <= Position(order, p[0]) - (|p| - 1)
    decreases |p|
  {
    if |p| > 1 {
      var i := Position(order, p[0]);
      assert Edge(adj, p[0], p[1]);
      assert p[1] in order[..i];
      var j :| 0 <= j < i && order[j] == p[1];
      assert Position(order, p[1]) == j;
      var q := p[1..];
      forall k | 0 <= k < |q| - 1 ensures Edge(adj, q[k], q[k + 1]) {
        assert Edge(adj, p[k + 1], p[k + 2]);
      }
      PositionsDescend(adj, order, q);
    }
  }

  lemma TopoOrderIsAcyclic(adj: Adj, order: seq<string>)
    requires TopoOrder(adj, order)
    ensures Acyclic(adj)
  {
    forall p ensures !IsCycle(adj, p) {
      if IsCycle(adj, p) {
        assert Edge(adj, p[0], p[1]);
        PositionsDescend(adj, order, p);
      }
    }
  }

  ghost predicate HasSuccessorIn(adj: Adj, nodes: set<string>, x: string) {
    exists d :: d in nodes && Edge(adj, x, d)
  }

  /** Every node of the set has a successor in it. */
  ghost predicate SelfFeeding(adj: Adj, nodes: set<string>) {
    forall x {:trigger HasSuccessorIn(adj, nodes, x)} :: x in nodes ==> HasSuccessorIn(adj, nodes, x)
  }

  /** A walk of `n` edges inside a self-feeding set. */
  lemma {:induction false} WalkInside(adj: Adj, nodes: set<string>, start: string, n: nat)
    returns (p: seq<string>)
    requires start in nodes
    requires SelfFeeding(adj, nodes)
    ensures IsPath(adj, p) && |p| == n + 1
    ensures forall i :: 0 <= i < |p| ==> p[i] in nodes
    decreases n
  {
    if n == 0 {
      p := [start];
    } else {
      var q := WalkInside(adj, nodes, start, n - 1);
      assert HasSuccessorIn(adj, nodes, q[|q| - 1]);
      var d :| d in nodes && Edge(adj, q[|q| - 1], d);
      p := q + [d];
      forall i | 0 <= i < |p| - 1 ensures Edge(adj, p[i], p[i + 1]) {
        if i < |q| - 1 { assert Edge(adj, q[i], q[i + 1]); }
      }
    }
  }

  lemma {:induction false} DistinctFits(s: seq<string>, bound: set<string>)
    requires Distinct(s) && forall i :: 0 <= i < |s| ==> s[i] in bound
    ensures |s| <= |bound|
    decreases |s|
  {
    if s != [] {
      var last := s[|s| - 1];
      DistinctFits(s[..|s| - 1], bound - {last});
    }
  }

  lemma RepeatIsCycle(adj: Adj, p: seq<string>, i: nat, j: nat)
    requires IsPath(adj, p) && i < j < |p| && p[i] == p[j]
    ensures IsCycle(adj, p[i..j + 1])
  {
    var c := p[i..j + 1];
    forall k | 0 <= k < |c| - 1 ensures Edge(adj, c[k], c[k + 1]) {
      assert Edge(adj, p[i + k], p[i + k + 1]);
    }
  }

  lemma LongWalkCycles(adj: Adj, nodes: set<string>, start: string)
    requires start in nodes
    requires SelfFeeding(adj, nodes)
    ensures !Acyclic(adj)
  {
    var p := WalkInside(adj, nodes, start, |nodes|);
    if Distinct(p) {
      DistinctFits(p, nodes);
    }
    var i, j :| 0 <= i < j < |p| && p[i] == p[j];
    RepeatIsCycle(adj, p, i, j);
  }

  /** The nodes of a cycle all have a successor among themselves. */
  lemma CycleFeedsItself(adj: Adj, p: seq<string>)
    requires IsCycle(adj, p)
    ensures SelfFeeding(adj, Elements(p))
  {
    forall x | x in Elements(p) ensures HasSuccessorIn(adj, Elements(p), x) {
      var i :| 0 <= i < |p| && p[i] == x;
      var j := if i == |p| - 1 then 0 else i;
      assert Edge(adj, p[j], p[j + 1]) && p[j + 1] in Elements(p);
    }
  }

  /** A map that keeps edges carries cycles over. */
  lemma CycleImage(adj: Adj, image: Adj, f: string -> string, p: seq<string>)
    requires IsCycle(adj, p)
    requires forall x, y :: Edge(adj, x, y) ==> Edge(image, f(x), f(y))
    ensures !Acyclic(image)
  {
    var q := seq(|p|, i requires 0 <= i < |p| => f(p[i]));
    forall i | 0 <= i < |q| - 1 ensures Edge(image, q[i], q[i + 1]) {
      assert Edge(adj, p[i], p[i + 1]);
    }
    assert IsCycle(image, q);
  }

  /** In an acyclic graph some member of any non-empty set depends on nothing in the set. */
  lemma MinimalMember(adj: Adj, nodes: set<string>) returns (n: string)
    requires Acyclic(adj) && nodes != {}
    ensures n in nodes && forall d :: Edge(adj, n, d) ==> d !in nodes
  {
    if x :| x in nodes && !HasSuccessorIn(adj, nodes, x) {
      n := x;
    } else {
      n :| n in nodes;
      forall x | x in nodes ensures HasSuccessorIn(adj, nodes, x) {}
      LongWalkCycles(adj, nodes, n);
      assert false;
    }
  }

  /** Extends an order by nodes whose dependencies are all placed, until nothing is left. */
  lemma {:induction false} OrderRest(adj: Adj, order: seq<string>, rest: set<string>)
    returns (full: seq<string>)
    requires Acyclic(adj) && DepsFirst(adj, order)
    requires rest == Nodes(adj) - Elements(order)
    ensures TopoOrder(adj, full)
    decreases rest
  {
    if rest == {} {
      forall a | a in adj ensures a in order {
        assert a !in rest;
      }
      full := order;
    } else {
      var n := MinimalMember(adj, rest);
      var next := order + [n];
      forall i, d | 0 <= i < |next| && Edge(adj, next[i], d) ensures d in next[..i] {
        if i < |order| {
          assert d in order[..i];
          assert next[..i] == order[..i];
        } else {
          assert d in Nodes(adj);
          assert next[..i] == order;
        }
      }
      full := OrderRest(adj, next, Nodes(adj) - Elements(next));
    }
  }

  lemma AcyclicIffTopoOrder(adj: Adj)
    ensures Acyclic(adj) <==> exists order :: TopoOrder(adj, order)
  {
    if Acyclic(adj) {
      var order := OrderRest(adj, [], Nodes(adj) - Elements([]));
    }
    if order :| TopoOrder(adj, order) {
      TopoOrderIsAcyclic(adj, order);
    }
  }
}
