/** foreach expansion (expandForeach in internal/scheduler/parser/parser.go).

    A task with a foreach list becomes one shard per item, and every dependency on it becomes a
    dependency on all its shards. The expanded graph has a cycle exactly when the graph over the
    original tasks has one, where a dependency that names a single shard counts as one on its task. */
module Foreach {
  import opened Dag
  import opened Decimal
  import opened Graph
  import opened TriggerRules

  /** A task as written, with its foreach items. */
  datatype Listed = Listed(task: Task, items: seq<string>)

  datatype Expansion = Expanded(tasks: seq<Listed>) | NeedsId | TooManyShards | TooManyTasks

  const MAX_TASKS := 1000

  function TasksOf(listed: seq<Listed>): seq<Task> {
    seq(|listed|, i requires 0 <= i < |listed| => listed[i].task)
  }

  function ShardId(id: string, i: nat): string {
    id + "_" + Itoa(i)
  }

  function ShardIds(t: Listed): seq<string> {
    seq(|t.items|, i requires 0 <= i < |t.items| => ShardId(t.task.id, i))
  }

  /** The tasks that stand for `t`, with its dependencies still as written. */
  function Spread(t: Listed): seq<Listed> {
    if t.items == [] then [t]
    else seq(|t.items|, i requires 0 <= i < |t.items| => Listed(t.task.(id := ShardId(t.task.id, i)), []))
  }

  /** The first `n` pieces, one after the other. */
  function Join<T>(pieces: seq<seq<T>>, n: nat): seq<T>
    requires n <= |pieces|
  {
    if n == 0 then [] else Join(pieces, n - 1) + pieces[n - 1]
  }

  function Pieces(listed: seq<Listed>): seq<seq<Listed>> {
    seq(|listed|, i requires 0 <= i < |listed| => Spread(listed[i]))
  }

  /** The tasks that stand for all tasks, in order. */
  function SpreadAll(listed: seq<Listed>): seq<Listed> {
    Join(Pieces(listed), |listed|)
  }

  type Shards = map<string, seq<string>>

  function Lookup(shards: Shards, id: string): seq<string> {
    if id in shards then shards[id] else []
  }

  function ShardsUpTo(listed: seq<Listed>, n: nat): Shards
    requires n <= |listed|
  {
    if n == 0 then map[]
    else
      var t, before := listed[n - 1], ShardsUpTo(listed, n - 1);
      if t.items == [] then before
      else before[t.task.id := Lookup(before, t.task.id) + ShardIds(t)]
  }

  function ShardsOf(listed: seq<Listed>): Shards {
    ShardsUpTo(listed, |listed|)
  }

  /** What a dependency on `d` is rewritten to. */
  function Targets(shards: Shards, d: string): seq<string> {
    if d in shards then shards[d] else [d]
  }

  function Rewrite(shards: Shards, deps: seq<string>): seq<string> {
    if deps == [] then []
    else Rewrite(shards, deps[..|deps| - 1]) + Targets(shards, deps[|deps| - 1])
  }

  function Rewritten(shards: Shards, t: Listed): Listed {
    t.(task := t.task.(deps := Rewrite(shards, t.task.deps)))
  }

  function RewriteAll(shards: Shards, listed: seq<Listed>): seq<Listed> {
    seq(|listed|, i requires 0 <= i < |listed| => Rewritten(shards, listed[i]))
  }

  predicate Spreadable(t: Listed) {
    t.items == [] || (t.task.id != "" && |t.items| <= MAX_TASKS)
  }

  ghost predicate NoForeach(listed: seq<Listed>) {
    forall t :: t in listed ==> t.items == []
  }

  method HasForeach(listed: seq<Listed>) returns (hasAny: bool)
    ensures hasAny <==> !NoForeach(listed)
  {
    for k := 0 to |listed|
      invariant forall i :: 0 <= i < k ==> listed[i].items == []
    {
      if listed[k].items != [] {
        return true;
      }
    }
    hasAny := false;
  }

  ghost predicate SpreadSoFar(listed: seq<Listed>, n: nat, out: seq<Listed>, shards: Shards) {
    && n <= |listed| && out == Join(Pieces(listed), n) && shards == ShardsUpTo(listed, n)
    && forall i :: 0 <= i < n ==> Spreadable(listed[i])
  }

  lemma SpreadNext(listed: seq<Listed>, n: nat, out: seq<Listed>, shards: Shards)
    requires SpreadSoFar(listed, n, out, shards) && n < |listed| && Spreadable(listed[n])
    ensures SpreadSoFar(listed, n + 1, out + Spread(listed[n]),
                        if listed[n].items == [] then shards
                        else shards[listed[n].task.id := Lookup(shards, listed[n].task.id) + ShardIds(listed[n])])
  {
  }

  lemma SpreadDone(listed: seq<Listed>, out: seq<Listed>, shards: Shards)
    requires SpreadSoFar(listed, |listed|, out, shards)
    ensures out == SpreadAll(listed) && shards == ShardsOf(listed) && forall t :: t in listed ==> Spreadable(t)
  {
  }

  /** The first loop: the tasks with foreach spread out, and the shards of each id. */
  method SpreadTasks(listed: seq<Listed>) returns (r: Expansion, shards: Shards)
    ensures r.Expanded? <==> forall t :: t in listed ==> Spreadable(t)
    ensures r.Expanded? ==> r.tasks == SpreadAll(listed) && shards == ShardsOf(listed)
    ensures r.NeedsId? ==> exists t :: t in listed && t.items != [] && t.task.id == ""
    ensures r.TooManyShards? ==> exists t :: t in listed && |t.items| > MAX_TASKS
    ensures !r.TooManyTasks?
  {
    var out: seq<Listed> := [];
    shards := map[];
    for k := 0 to |listed|
      invariant SpreadSoFar(listed, k, out, shards)
    {
      var t := listed[k];
      assert t in listed;
      if t.items != [] && t.task.id == "" {
        return NeedsId, shards;
      }
      if |t.items| > MAX_TASKS {
        return TooManyShards, shards;
      }
      SpreadNext(listed, k, out, shards);
      if t.items == [] {
        out := out + [t];
      } else {
        out, shards := AddShards(t, out, shards);
      }
    }
    SpreadDone(listed, out, shards);
    r := Expanded(out);
  }

  method ExpandForeach(listed: seq<Listed>) returns (r: Expansion)
    ensures NoForeach(listed) ==> r == Expanded(listed)
    ensures !NoForeach(listed) ==>
              (r.Expanded? <==> (forall t :: t in listed ==> Spreadable(t)) && |SpreadAll(listed)| <= MAX_TASKS)
    ensures !NoForeach(listed) && r.Expanded? ==> r.tasks == RewriteAll(ShardsOf(listed), SpreadAll(listed))
    ensures r.NeedsId? ==> exists t :: t in listed && t.items != [] && t.task.id == ""
    ensures r.TooManyShards? ==> exists t :: t in listed && |t.items| > MAX_TASKS
    ensures r.TooManyTasks? ==> |SpreadAll(listed)| > MAX_TASKS
  {
    var hasAny := HasForeach(listed);
    if !hasAny {
      return Expanded(listed);
    }
    var shards: Shards;
    r, shards := SpreadTasks(listed);
    if !r.Expanded? {
      return;
    }
    if |r.tasks| > MAX_TASKS {
      return TooManyTasks;
    }
    var out := RewriteDeps(shards, r.tasks);
    r := Expanded(out);
  }

  method AddShards(t: Listed, out: seq<Listed>, shards: Shards) returns (out': seq<Listed>, shards': Shards)
    requires t.items != []
    ensures out' == out + Spread(t)
    ensures shards' == shards[t.task.id := Lookup(shards, t.task.id) + ShardIds(t)]
  {
    out', shards' := out, shards;
    for i := 0 to |t.items|
      invariant out' == out + Spread(t)[..i]
      invariant i == 0 ==> shards' == shards
      invariant i > 0 ==> shards' == shards[t.task.id := Lookup(shards, t.task.id) + ShardIds(t)[..i]]
    {
      var id := ShardId(t.task.id, i);
      assert Spread(t)[..i + 1] == Spread(t)[..i] + [Spread(t)[i]];
      assert ShardIds(t)[..i + 1] == ShardIds(t)[..i] + [id];
      var longer := Lookup(shards', t.task.id) + [id];
      assert longer == Lookup(shards, t.task.id) + ShardIds(t)[..i + 1];
      shards' := shards'[t.task.id := longer];
      out' := out' + [Listed(t.task.(id := id), [])];
    }
    assert Spread(t)[..|t.items|] == Spread(t) && ShardIds(t)[..|t.items|] == ShardIds(t);
  }

  method RewriteDeps(shards: Shards, listed: seq<Listed>) returns (out: seq<Listed>)
    ensures out == RewriteAll(shards, listed)
  {
    out := listed;
    for i := 0 to |listed|
      invariant |out| == |listed|
      invariant forall k :: 0 <= k < |out| ==> out[k] == if k < i then Rewritten(shards, listed[k]) else listed[k]
    {
      var deps := out[i].task.deps;
      var nd: seq<string> := [];
      for j := 0 to |deps|
        invariant nd == Rewrite(shards, deps[..j])
      {
        assert deps[..j + 1][..j] == deps[..j];
        nd := nd + if deps[j] in shards then shards[deps[j]] else [deps[j]];
      }
      assert deps[..|deps|] == deps;
      out := out[i := out[i].(task := out[i].task.(deps := nd))];
    }
  }

  // ---- what the expanded graph means ----

  ghost predicate IsForeach(listed: seq<Listed>, id: string) {
    exists t :: t in listed && t.items != [] && t.task.id == id
  }

  /** `x` is the plain task or one of the shards that stand for `t`. */
  ghost predicate StandsFor(x: string, t: Listed) {
    if t.items == [] then x == t.task.id else x in ShardIds(t)
  }

  ghost predicate DistinctListed(listed: seq<Listed>) {
    DistinctIds(TasksOf(listed))
  }

  lemma SameTask(listed: seq<Listed>, t: Listed, u: Listed)
    requires DistinctListed(listed) && t in listed && u in listed && t.task.id == u.task.id
    ensures t == u
  {
    var i :| 0 <= i < |listed| && listed[i] == t;
    var j :| 0 <= j < |listed| && listed[j] == u;
    if i < j {
      DifferentIds(listed, i, j);
    } else if j < i {
      DifferentIds(listed, j, i);
    }
  }

  lemma DifferentIds(listed: seq<Listed>, i: nat, j: nat)
    requires DistinctListed(listed) && i < j < |listed|
    ensures listed[i].task.id != listed[j].task.id
  {
    assert TasksOf(listed)[i].id != TasksOf(listed)[j].id;
  }

  /** Among the first `n`, `y` is a shard of a foreach task with this id. */
  ghost predicate ShardIn(listed: seq<Listed>, n: nat, id: string, y: string)
    requires n <= |listed|
  {
    exists i :: 0 <= i < n && listed[i].items != [] && listed[i].task.id == id && y in ShardIds(listed[i])
  }

  lemma {:induction false} ShardsUpToMean(listed: seq<Listed>, n: nat, id: string, y: string)
    requires n <= |listed|
    ensures y in Lookup(ShardsUpTo(listed, n), id) <==> ShardIn(listed, n, id, y)
    ensures id in ShardsUpTo(listed, n) <==>
              exists i :: 0 <= i < n && listed[i].items != [] && listed[i].task.id == id
    decreases n
  {
    if n > 0 {
      ShardsUpToMean(listed, n - 1, id, y);
    }
  }

  /** The shard map holds exactly the ids of foreach tasks, with all their shards. */
  lemma ShardsMean(listed: seq<Listed>, id: string, y: string)
    ensures id in ShardsOf(listed) <==> IsForeach(listed, id)
    ensures id in ShardsOf(listed) ==>
              (y in ShardsOf(listed)[id] <==>
               exists u :: u in listed && u.items != [] && u.task.id == id && y in ShardIds(u))
  {
    ShardsUpToMean(listed, |listed|, id, y);
    if u :| u in listed && u.items != [] && u.task.id == id && y in ShardIds(u) {
      var i :| 0 <= i < |listed| && listed[i] == u;
      assert ShardIn(listed, |listed|, id, y);
    }
    if t :| t in listed && t.items != [] && t.task.id == id {
      var i :| 0 <= i < |listed| && listed[i] == t;
    }
  }

  lemma {:induction false} RewriteHolds(shards: Shards, deps: seq<string>)
    ensures forall y :: y in Rewrite(shards, deps) <==> exists d :: d in deps && y in Targets(shards, d)
    decreases |deps|
  {
    if deps != [] {
      var front, last := deps[..|deps| - 1], deps[|deps| - 1];
      RewriteHolds(shards, front);
      assert forall d :: d in deps <==> d in front || d == last;
    }
  }

  lemma SpreadMembers(t: Listed, x: Listed)
    ensures x in Spread(t) ==>
              StandsFor(x.task.id, t) && x.task == t.task.(id := x.task.id) && (t.items == [] ==> x == t)
  {
    if x in Spread(t) && t.items != [] {
      var k :| 0 <= k < |t.items| && Spread(t)[k] == x;
      assert ShardIds(t)[k] == x.task.id;
    }
  }

  lemma {:induction false} JoinMembers<T>(pieces: seq<seq<T>>, n: nat, x: T)
    requires n <= |pieces|
    ensures x in Join(pieces, n) <==> exists i :: 0 <= i < n && x in pieces[i]
    decreases n
  {
    if n > 0 {
      JoinMembers(pieces, n - 1, x);
    }
  }

  lemma SpreadAllMembers(listed: seq<Listed>, x: Listed)
    ensures x in SpreadAll(listed) <==> exists t :: t in listed && x in Spread(t)
  {
    JoinMembers(Pieces(listed), |listed|, x);
    if x in SpreadAll(listed) {
      var i :| 0 <= i < |listed| && x in Pieces(listed)[i];
      assert listed[i] in listed;
    }
    if t :| t in listed && x in Spread(t) {
      var i :| 0 <= i < |listed| && listed[i] == t;
      assert x in Pieces(listed)[i];
    }
  }

  /** The expanded tasks, without the checks on their number. */
  function Expand(listed: seq<Listed>): seq<Listed> {
    RewriteAll(ShardsOf(listed), SpreadAll(listed))
  }

  lemma {:induction false} NothingToExpand(listed: seq<Listed>, n: nat)
    requires NoForeach(listed) && n <= |listed|
    ensures Join(Pieces(listed), n) == listed[..n] && ShardsUpTo(listed, n) == map[]
    decreases n
  {
    if n > 0 {
      NothingToExpand(listed, n - 1);
      assert listed[n - 1] in listed;
    }
  }

  lemma {:induction false} RewriteNothing(deps: seq<string>)
    ensures Rewrite(map[], deps) == deps
    decreases |deps|
  {
    if deps != [] {
      RewriteNothing(deps[..|deps| - 1]);
    }
  }

  /** The early return for a list without foreach agrees with the general case. */
  lemma NoForeachUnchanged(listed: seq<Listed>)
    requires NoForeach(listed)
    ensures Expand(listed) == listed
  {
    NothingToExpand(listed, |listed|);
    assert listed[..|listed|] == listed;
    forall i | 0 <= i < |listed| ensures Expand(listed)[i] == listed[i] {
      RewriteNothing(listed[i].task.deps);
    }
  }

  /** `d` is a dependency of `t` and `y` one of the tasks that stand for it. */
  ghost predicate LeadsTo(listed: seq<Listed>, t: Listed, d: string, y: string) {
    d in t.task.deps &&
    if IsForeach(listed, d) then exists u :: u in listed && u.items != [] && u.task.id == d && y in ShardIds(u)
    else y == d
  }

  ghost predicate Leads(listed: seq<Listed>, t: Listed, y: string) {
    exists d :: LeadsTo(listed, t, d, y)
  }

  lemma TargetsMean(listed: seq<Listed>, t: Listed, d: string, y: string)
    ensures LeadsTo(listed, t, d, y) <==> d in t.task.deps && y in Targets(ShardsOf(listed), d)
  {
    ShardsMean(listed, d, y);
  }

  lemma ExpandedMembers(listed: seq<Listed>, x: Task)
    ensures x in TasksOf(Expand(listed)) ==>
              exists t :: t in listed && StandsFor(x.id, t) && forall y :: y in x.deps <==> Leads(listed, t, y)
  {
    if x in TasksOf(Expand(listed)) {
      var i :| 0 <= i < |Expand(listed)| && Expand(listed)[i].task == x;
      var s := SpreadAll(listed)[i];
      SpreadAllMembers(listed, s);
      var t :| t in listed && s in Spread(t);
      SpreadMembers(t, s);
      RewriteHolds(ShardsOf(listed), t.task.deps);
      forall y ensures y in x.deps <==> Leads(listed, t, y) {
        forall d ensures LeadsTo(listed, t, d, y) <==> d in t.task.deps && y in Targets(ShardsOf(listed), d) {
          TargetsMean(listed, t, d, y);
        }
      }
    }
  }

  /** A task of the expansion is one of the written list, or a shard of one, with its rule, its retries and its
      dependencies, rewritten; nothing is left to expand. */
  lemma ExpansionKeepsRest(listed: seq<Listed>, x: Listed)
    requires x in Expand(listed)
    ensures x.items == []
    ensures exists t :: t in listed && StandsFor(x.task.id, t) && x.task.rule == t.task.rule &&
                        x.task.retries == t.task.retries && forall y :: y in x.task.deps <==> Leads(listed, t, y)
  {
    var i :| 0 <= i < |Expand(listed)| && Expand(listed)[i] == x;
    var s := SpreadAll(listed)[i];
    SpreadAllMembers(listed, s);
    var t :| t in listed && s in Spread(t);
    SpreadMembers(t, s);
    RewriteHolds(ShardsOf(listed), t.task.deps);
    forall y ensures y in x.task.deps <==> Leads(listed, t, y) {
      forall d ensures LeadsTo(listed, t, d, y) <==> d in t.task.deps && y in Targets(ShardsOf(listed), d) {
        TargetsMean(listed, t, d, y);
      }
    }
  }

  lemma MembersExpanded(listed: seq<Listed>, t: Listed, id: string) returns (x: Task)
    requires t in listed && StandsFor(id, t)
    ensures x in TasksOf(Expand(listed)) && x.id == id
  {
    var s: Listed;
    if t.items == [] {
      s := t;
    } else {
      var k :| 0 <= k < |t.items| && ShardIds(t)[k] == id;
      s := Spread(t)[k];
    }
    assert s in Spread(t) && s.task.id == id;
    SpreadAllMembers(listed, s);
    var i :| 0 <= i < |SpreadAll(listed)| && SpreadAll(listed)[i] == s;
    assert Expand(listed)[i].task.id == id;
    x := TasksOf(Expand(listed))[i];
  }

  /** Each task and shard depends on exactly all the tasks that stand for its original dependencies. */
  lemma ExpandedEdges(listed: seq<Listed>, x: string, y: string)
    requires DistinctListed(Expand(listed))
    ensures Edge(AdjOf(TasksOf(Expand(listed))), x, y) <==>
              exists t :: t in listed && StandsFor(x, t) && Leads(listed, t, y)
  {
    var out := TasksOf(Expand(listed));
    AdjOfDistinct(out);
    if Edge(AdjOf(out), x, y) {
      var i :| 0 <= i < |out| && out[i].id == x;
      ExpandedMembers(listed, out[i]);
    }
    if t :| t in listed && StandsFor(x, t) && Leads(listed, t, y) {
      var m := MembersExpanded(listed, t, x);
      ExpandedMembers(listed, m);
      var u :| u in listed && StandsFor(x, u) && forall z :: z in m.deps <==> Leads(listed, u, z);
      StandsForOne(listed, x, t, u);
      var i :| 0 <= i < |out| && out[i] == m;
    }
  }

  /** With distinct expanded ids a task or shard stands for one original task only. */
  lemma StandsForOne(listed: seq<Listed>, x: string, t: Listed, u: Listed)
    requires DistinctListed(Expand(listed))
    requires t in listed && u in listed && StandsFor(x, t) && StandsFor(x, u)
    ensures t == u
  {
    StandsAt(listed, x, t);
    StandsAt(listed, x, u);
    var i :| 0 <= i < |listed| && listed[i] == t;
    var j :| 0 <= j < |listed| && listed[j] == u;
    if i < j {
      TwoPlaces(listed, x, i, j);
    } else if j < i {
      TwoPlaces(listed, x, j, i);
    }
  }

  lemma StandsAt(listed: seq<Listed>, x: string, t: Listed)
    requires StandsFor(x, t)
    ensures exists k :: 0 <= k < |Spread(t)| && Spread(t)[k].task.id == x
  {
    if t.items == [] {
      assert Spread(t)[0].task.id == x;
    } else {
      var k :| 0 <= k < |t.items| && ShardIds(t)[k] == x;
      assert Spread(t)[k].task.id == x;
    }
  }

  /** Where piece `i` begins in the joined sequence. */
  ghost function Offset<T>(pieces: seq<seq<T>>, i: nat): nat
    requires i <= |pieces|
  {
    if i == 0 then 0 else Offset(pieces, i - 1) + |pieces[i - 1]|
  }

  lemma {:induction false} OffsetsClimb<T>(pieces: seq<seq<T>>, i: nat, j: nat)
    requires i < j <= |pieces|
    ensures Offset(pieces, i) + |pieces[i]| <= Offset(pieces, j)
    decreases j
  {
    if i < j - 1 {
      OffsetsClimb(pieces, i, j - 1);
    }
  }

  lemma {:induction false} JoinLength<T>(pieces: seq<seq<T>>, n: nat)
    requires n <= |pieces|
    ensures |Join(pieces, n)| == Offset(pieces, n)
    decreases n
  {
    if n > 0 {
      JoinLength(pieces, n - 1);
    }
  }

  lemma {:induction false} JoinAt<T>(pieces: seq<seq<T>>, n: nat, i: nat, k: nat)
    requires i < n <= |pieces| && k < |pieces[i]|
    ensures Offset(pieces, i) + k < |Join(pieces, n)|
    ensures Join(pieces, n)[Offset(pieces, i) + k] == pieces[i][k]
    decreases n
  {
    JoinLength(pieces, n - 1);
    if i < n - 1 {
      JoinAt(pieces, n - 1, i, k);
    }
  }

  lemma PlaceOf(listed: seq<Listed>, x: string, i: nat) returns (a: nat)
    requires i < |listed| && StandsFor(x, listed[i])
    ensures Offset(Pieces(listed), i) <= a < Offset(Pieces(listed), i) + |Pieces(listed)[i]|
    ensures a < |SpreadAll(listed)| && SpreadAll(listed)[a].task.id == x
  {
    StandsAt(listed, x, listed[i]);
    var k :| 0 <= k < |Spread(listed[i])| && Spread(listed[i])[k].task.id == x;
    JoinAt(Pieces(listed), |listed|, i, k);
    a := Offset(Pieces(listed), i) + k;
  }

  lemma TwoPlaces(listed: seq<Listed>, x: string, i: nat, j: nat)
    requires i < j < |listed| && StandsFor(x, listed[i]) && StandsFor(x, listed[j])
    ensures !DistinctListed(Expand(listed))
  {
    var a := PlaceOf(listed, x, i);
    var b := PlaceOf(listed, x, j);
    OffsetsClimb(Pieces(listed), i, j);
    SameIdTwice(listed, a, b);
  }

  lemma SameIdTwice(listed: seq<Listed>, a: nat, b: nat)
    requires a < b < |SpreadAll(listed)| && SpreadAll(listed)[a].task.id == SpreadAll(listed)[b].task.id
    ensures !DistinctListed(Expand(listed))
  {
    assert TasksOf(Expand(listed))[a].id == TasksOf(Expand(listed))[b].id;
  }

  // ---- cycles ----

  /** The original task that an expanded task stands for. */
  ghost function OwnerOf(listed: seq<Listed>, x: string): string {
    if t :| t in listed && StandsFor(x, t) then t.task.id else x
  }

  /** The original task that a dependency means; naming a single shard means the shard's task. */
  ghost function DepOwner(listed: seq<Listed>, d: string): string {
    if IsForeach(listed, d) then d else OwnerOf(listed, d)
  }

  ghost function OwnedDeps(listed: seq<Listed>, t: Task): Task {
    t.(deps := seq(|t.deps|, i requires 0 <= i < |t.deps| => DepOwner(listed, t.deps[i])))
  }

  /** The original tasks, each depending on original tasks. */
  ghost function Contracted(listed: seq<Listed>): seq<Task> {
    seq(|listed|, i requires 0 <= i < |listed| => OwnedDeps(listed, listed[i].task))
  }

  ghost predicate OwnedEdge(listed: seq<Listed>, a: string, b: string) {
    exists t, d :: t in listed && t.task.id == a && d in t.task.deps && b == DepOwner(listed, d)
  }

  lemma ContractedDistinct(listed: seq<Listed>)
    requires DistinctListed(listed)
    ensures DistinctIds(Contracted(listed))
  {
    var con := Contracted(listed);
    forall i, j | 0 <= i < j < |con| ensures con[i].id != con[j].id {
      DifferentIds(listed, i, j);
    }
  }

  lemma ContractedEdges(listed: seq<Listed>, a: string, b: string)
    requires DistinctListed(listed)
    ensures Edge(AdjOf(Contracted(listed)), a, b) <==> OwnedEdge(listed, a, b)
  {
    var con := Contracted(listed);
    ContractedDistinct(listed);
    AdjOfDistinct(con);
    if Edge(AdjOf(con), a, b) {
      var i :| 0 <= i < |con| && con[i].id == a;
      var k :| 0 <= k < |con[i].deps| && con[i].deps[k] == b;
      assert listed[i] in listed && listed[i].task.deps[k] in listed[i].task.deps;
    }
    if OwnedEdge(listed, a, b) {
      var t, d :| t in listed && t.task.id == a && d in t.task.deps && b == DepOwner(listed, d);
      var i :| 0 <= i < |listed| && listed[i] == t;
      var k :| 0 <= k < |t.task.deps| && t.task.deps[k] == d;
      assert con[i].id == a && con[i].deps[k] == b;
    }
  }

  lemma OwnerIs(listed: seq<Listed>, x: string, t: Listed)
    requires DistinctListed(listed) && DistinctListed(Expand(listed)) && t in listed && StandsFor(x, t)
    ensures OwnerOf(listed, x) == t.task.id
  {
    var u :| u in listed && StandsFor(x, u) && OwnerOf(listed, x) == u.task.id;
    StandsForOne(listed, x, t, u);
  }

  lemma LeadsToOwner(listed: seq<Listed>, t: Listed, d: string, y: string)
    requires DistinctListed(listed) && DistinctListed(Expand(listed)) && LeadsTo(listed, t, d, y)
    ensures OwnerOf(listed, y) == DepOwner(listed, d)
  {
    if IsForeach(listed, d) {
      var u :| u in listed && u.items != [] && u.task.id == d && y in ShardIds(u);
      OwnerIs(listed, y, u);
    }
  }

  ghost function ExpandedAdj(listed: seq<Listed>): Adj {
    AdjOf(TasksOf(Expand(listed)))
  }

  lemma EdgeContracts(listed: seq<Listed>, x: string, y: string)
    requires DistinctListed(listed) && DistinctListed(Expand(listed)) && Edge(ExpandedAdj(listed), x, y)
    ensures Edge(AdjOf(Contracted(listed)), OwnerOf(listed, x), OwnerOf(listed, y))
  {
    ExpandedEdges(listed, x, y);
    var t :| t in listed && StandsFor(x, t) && Leads(listed, t, y);
    var d :| LeadsTo(listed, t, d, y);
    OwnerIs(listed, x, t);
    LeadsToOwner(listed, t, d, y);
    ContractedEdges(listed, t.task.id, OwnerOf(listed, y));
  }

  lemma CycleContracts(listed: seq<Listed>, p: seq<string>)
    requires DistinctListed(listed) && DistinctListed(Expand(listed)) && IsCycle(ExpandedAdj(listed), p)
    ensures !Acyclic(AdjOf(Contracted(listed)))
  {
    var owner := x => OwnerOf(listed, x);
    forall x, y | Edge(ExpandedAdj(listed), x, y) ensures Edge(AdjOf(Contracted(listed)), owner(x), owner(y)) {
      EdgeContracts(listed, x, y);
    }
    CycleImage(ExpandedAdj(listed), AdjOf(Contracted(listed)), owner, p);
  }

  /** Some task or shard stands for `t`. */
  lemma SomeStands(t: Listed) returns (x: string)
    ensures StandsFor(x, t)
  {
    x := if t.items == [] then t.task.id else ShardIds(t)[0];
  }

  ghost predicate IsExpanded(listed: seq<Listed>, x: string) {
    exists t :: t in listed && StandsFor(x, t)
  }

  /** A dependency on an original task leads to some expanded task that stands for it. */
  lemma LeadsSomewhere(listed: seq<Listed>, t: Listed, d: string) returns (y: string)
    requires DistinctListed(listed) && DistinctListed(Expand(listed)) && d in t.task.deps
    requires exists v :: v in listed && v.task.id == DepOwner(listed, d)
    ensures LeadsTo(listed, t, d, y) && IsExpanded(listed, y) && OwnerOf(listed, y) == DepOwner(listed, d)
  {
    if IsForeach(listed, d) {
      var u :| u in listed && u.items != [] && u.task.id == d;
      y := ShardIds(u)[0];
      assert StandsFor(y, u);
      OwnerIs(listed, y, u);
    } else {
      y := d;
      var v :| v in listed && v.task.id == DepOwner(listed, d);
      if v.task.id == d {
        assert v.items == [] && StandsFor(d, v);
      }
    }
  }

  ghost function ExpandedOf(listed: seq<Listed>, owners: set<string>): (r: set<string>)
    requires DistinctListed(listed)
    ensures forall x :: x in r <==> IsExpanded(listed, x) && OwnerOf(listed, x) in owners
  {
    var ids := set t | t in TasksOf(Expand(listed)) :: t.id;
    assert forall x :: IsExpanded(listed, x) ==> x in ids by {
      forall x | IsExpanded(listed, x) ensures x in ids {
        var t :| t in listed && StandsFor(x, t);
        var m := MembersExpanded(listed, t, x);
      }
    }
    set x | x in ids && IsExpanded(listed, x) && OwnerOf(listed, x) in owners
  }

  lemma CycleExpands(listed: seq<Listed>, p: seq<string>)
    requires DistinctListed(listed) && DistinctListed(Expand(listed)) && IsCycle(AdjOf(Contracted(listed)), p)
    ensures !Acyclic(ExpandedAdj(listed))
  {
    CycleFeedsItself(AdjOf(Contracted(listed)), p);
    OwnersExpand(listed, Elements(p), p[0]);
  }

  lemma OwnersExpand(listed: seq<Listed>, owners: set<string>, a: string)
    requires DistinctListed(listed) && DistinctListed(Expand(listed)) && a in owners
    requires SelfFeeding(AdjOf(Contracted(listed)), owners)
    ensures !Acyclic(ExpandedAdj(listed))
  {
    var x := SomeInside(listed, owners, a);
    StepsInside(listed, owners);
    LongWalkCycles(ExpandedAdj(listed), ExpandedOf(listed, owners), x);
  }

  lemma SomeInside(listed: seq<Listed>, owners: set<string>, a: string) returns (x: string)
    requires DistinctListed(listed) && DistinctListed(Expand(listed))
    requires a in owners && HasSuccessorIn(AdjOf(Contracted(listed)), owners, a)
    ensures x in ExpandedOf(listed, owners)
  {
    var start := ListedIn(listed, owners, a);
    x := SomeStands(start);
    OwnerIs(listed, x, start);
  }

  lemma StepsInside(listed: seq<Listed>, owners: set<string>)
    requires DistinctListed(listed) && DistinctListed(Expand(listed))
    requires SelfFeeding(AdjOf(Contracted(listed)), owners)
    ensures SelfFeeding(ExpandedAdj(listed), ExpandedOf(listed, owners))
  {
    forall x | x in ExpandedOf(listed, owners)
      ensures HasSuccessorIn(ExpandedAdj(listed), ExpandedOf(listed, owners), x)
    {
      StepInside(listed, owners, x);
    }
  }

  /** An owner on a cycle is an original task. */
  lemma ListedIn(listed: seq<Listed>, owners: set<string>, a: string) returns (t: Listed)
    requires DistinctListed(listed) && HasSuccessorIn(AdjOf(Contracted(listed)), owners, a)
    ensures t in listed && t.task.id == a
    ensures exists d :: d in t.task.deps && DepOwner(listed, d) in owners
  {
    var b :| b in owners && Edge(AdjOf(Contracted(listed)), a, b);
    ContractedEdges(listed, a, b);
    var u, d :| u in listed && u.task.id == a && d in u.task.deps && b == DepOwner(listed, d);
    t := u;
  }

  lemma StepInside(listed: seq<Listed>, owners: set<string>, x: string)
    requires DistinctListed(listed) && DistinctListed(Expand(listed))
    requires SelfFeeding(AdjOf(Contracted(listed)), owners)
    requires x in ExpandedOf(listed, owners)
    ensures HasSuccessorIn(ExpandedAdj(listed), ExpandedOf(listed, owners), x)
  {
    var t := ListedIn(listed, owners, OwnerOf(listed, x));
    var u :| u in listed && StandsFor(x, u);
    OwnerIs(listed, x, u);
    SameTask(listed, t, u);
    var d :| d in t.task.deps && DepOwner(listed, d) in owners;
    var v := ListedIn(listed, owners, DepOwner(listed, d));
    var y := LeadsSomewhere(listed, t, d);
    ExpandedEdges(listed, x, y);
    assert Leads(listed, t, y);
  }

  /** The expanded graph is acyclic exactly when the graph over the original tasks is. */
  lemma ExpansionKeepsCycles(listed: seq<Listed>)
    requires DistinctListed(listed) && DistinctListed(Expand(listed))
    ensures Acyclic(ExpandedAdj(listed)) <==> Acyclic(AdjOf(Contracted(listed)))
  {
    if !Acyclic(ExpandedAdj(listed)) {
      var p :| IsCycle(ExpandedAdj(listed), p);
      CycleContracts(listed, p);
    }
    if !Acyclic(AdjOf(Contracted(listed))) {
      var p :| IsCycle(AdjOf(Contracted(listed)), p);
      CycleExpands(listed, p);
    }
  }

  /** No dependency names a single shard. */
  ghost predicate NoBareShards(listed: seq<Listed>) {
    forall t, d, u :: t in listed && d in t.task.deps && u in listed && u.items != [] && d in ShardIds(u) ==>
      IsForeach(listed, d)
  }

  /** When no dependency names a single shard, that is the graph as it was written. */
  lemma WrittenGraphKeepsCycles(listed: seq<Listed>)
    requires DistinctListed(listed) && DistinctListed(Expand(listed)) && NoBareShards(listed)
    ensures Acyclic(ExpandedAdj(listed)) <==> Acyclic(AdjOf(TasksOf(listed)))
  {
    forall i | 0 <= i < |listed| ensures Contracted(listed)[i] == TasksOf(listed)[i] {
      var t := listed[i];
      forall k | 0 <= k < |t.task.deps| ensures DepOwner(listed, t.task.deps[k]) == t.task.deps[k] {
        assert t in listed && t.task.deps[k] in t.task.deps;
      }
      assert OwnedDeps(listed, t.task).deps == t.task.deps;
    }
    assert Contracted(listed) == TasksOf(listed);
    ExpansionKeepsCycles(listed);
  }

  // ---- what the conditions exclude ----

  lemma FirstShard(t: Listed)
    requires |t.items| == 1
    ensures ShardIds(t) == [t.task.id + "_0"]
    ensures Spread(t) == [Listed(t.task.(id := t.task.id + "_0"), [])]
  {
    assert Digit(0) == '0';
    assert Itoa(0) == "0";
    assert t.task.id + "_" + "0" == t.task.id + "_0";
    assert ShardIds(t)[0] == t.task.id + "_0";
  }

  const SHARDED: Listed := Listed(Task("a", ["b"], AllSuccess, 0), ["x"])
  const NAMES_SHARD: Listed := Listed(Task("b", ["a_0"], AllSuccess, 0), [])

  const SHARD_OF_A: Listed := Listed(Task("a_0", ["b"], AllSuccess, 0), [])

  lemma BareShardExpansion()
    ensures SpreadAll([SHARDED, NAMES_SHARD]) == [SHARD_OF_A, NAMES_SHARD]
    ensures ShardIds(SHARDED) == ["a_0"]
  {
    var listed := [SHARDED, NAMES_SHARD];
    FirstShard(SHARDED);
    assert "a" + "_0" == "a_0";
    assert Join(Pieces(listed), 1) == [SHARD_OF_A];
  }

  lemma WrittenIsAcyclic()
    ensures Acyclic(AdjOf(TasksOf([SHARDED, NAMES_SHARD]))) && DistinctListed([SHARDED, NAMES_SHARD])
  {
    var tasks := TasksOf([SHARDED, NAMES_SHARD]);
    assert tasks[0] == SHARDED.task && tasks[1] == NAMES_SHARD.task;
    AdjOfDistinct(tasks);
    var order := ["a_0", "b", "a"];
    forall i, d | 0 <= i < |order| && Edge(AdjOf(tasks), order[i], d) ensures d in order[..i] {
      assert i == 1 ==> order[..i][0] == "a_0";
      assert i == 2 ==> order[..i][1] == "b";
      assert i != 0 by { assert !HasTask(tasks, "a_0"); }
    }
    TopoOrderIsAcyclic(AdjOf(tasks), order);
  }

  /** A dependency that names a single shard can close a cycle the written graph does not have. */
  lemma BareShardClosesCycle()
    ensures var listed := [SHARDED, NAMES_SHARD];
            && DistinctListed(listed) && DistinctListed(Expand(listed))
            && Acyclic(AdjOf(TasksOf(listed))) && !Acyclic(ExpandedAdj(listed))
  {
    var listed := [SHARDED, NAMES_SHARD];
    BareShardExpansion();
    WrittenIsAcyclic();
    assert DistinctListed(Expand(listed));
    assert StandsFor("a_0", SHARDED) && StandsFor("b", NAMES_SHARD);
    assert LeadsTo(listed, SHARDED, "b", "b") && LeadsTo(listed, NAMES_SHARD, "a_0", "a_0");
    ExpandedEdges(listed, "a_0", "b");
    ExpandedEdges(listed, "b", "a_0");
    assert IsCycle(ExpandedAdj(listed), ["a_0", "b", "a_0"]);
  }

  // ---- an id that a plain and a foreach task share ----

  ghost predicate IsPlain(listed: seq<Listed>, id: string) {
    exists t :: t in listed && t.items == [] && t.task.id == id
  }

  /** No dependency names an id that both a plain and a foreach task carry. */
  ghost predicate NoSharedDeps(listed: seq<Listed>) {
    forall t, d :: t in listed && d in t.task.deps ==> !(IsPlain(listed, d) && IsForeach(listed, d))
  }

  /** `y` is the plain task, or a shard, that stands for a task with this id. */
  ghost predicate Bears(listed: seq<Listed>, id: string, y: string) {
    exists u :: u in listed && u.task.id == id && StandsFor(y, u)
  }

  /** Each dependency is rewritten to all that stand for the tasks of that id. */
  ghost predicate TargetsAreAll(listed: seq<Listed>) {
    forall t, d, y :: t in listed && d in t.task.deps && Bears(listed, d, y) ==> y in Targets(ShardsOf(listed), d)
  }

  /** In the expanded graph, each task and shard depends on all of them. */
  ghost predicate DependsOnAll(listed: seq<Listed>) {
    forall t, d, x, y :: t in listed && d in t.task.deps && StandsFor(x, t) && Bears(listed, d, y) ==>
      Edge(ExpandedAdj(listed), x, y)
  }

  lemma UnsharedReaches(listed: seq<Listed>, t: Listed, d: string, y: string)
    requires t in listed && d in t.task.deps && Bears(listed, d, y)
    requires !(IsPlain(listed, d) && IsForeach(listed, d))
    ensures LeadsTo(listed, t, d, y)
  {
    var u :| u in listed && u.task.id == d && StandsFor(y, u);
    assert u.items == [] ==> IsPlain(listed, d);
  }

  /** Shards have longer ids than their task. */
  lemma NotItsOwnShard(u: Listed)
    ensures u.task.id !in ShardIds(u)
  {
    forall k | 0 <= k < |u.items| ensures ShardIds(u)[k] != u.task.id {
      assert |ShardId(u.task.id, k)| > |u.task.id|;
    }
  }

  /** A dependency on a shared id skips the plain task, which bears that id itself. */
  lemma SharedIdLosesDependency(listed: seq<Listed>, d: string)
    requires IsPlain(listed, d) && IsForeach(listed, d)
    ensures Bears(listed, d, d) && d !in Targets(ShardsOf(listed), d)
  {
    var p :| p in listed && p.items == [] && p.task.id == d;
    assert StandsFor(d, p);
    ShardsMean(listed, d, d);
    forall u | u in listed && u.task.id == d ensures d !in ShardIds(u) {
      NotItsOwnShard(u);
    }
  }

  /** For every list: each dependency is rewritten to all the tasks that stand for a task of that id if and only
      if none names an id that both a plain and a foreach task carry. */
  lemma TargetsAreAllIff(listed: seq<Listed>)
    ensures TargetsAreAll(listed) <==> NoSharedDeps(listed)
  {
    if NoSharedDeps(listed) {
      forall t, d, y | t in listed && d in t.task.deps && Bears(listed, d, y)
        ensures y in Targets(ShardsOf(listed), d)
      {
        UnsharedReaches(listed, t, d, y);
        TargetsMean(listed, t, d, y);
      }
    } else {
      var t, d :| t in listed && d in t.task.deps && IsPlain(listed, d) && IsForeach(listed, d);
      SharedIdLosesDependency(listed, d);
    }
  }

  lemma SharedEdgeMissing(listed: seq<Listed>, t: Listed, x: string, d: string)
    requires DistinctListed(Expand(listed)) && t in listed && StandsFor(x, t)
    requires IsPlain(listed, d) && IsForeach(listed, d)
    ensures !Edge(ExpandedAdj(listed), x, d)
  {
    ExpandedEdges(listed, x, d);
    var p :| p in listed && p.items == [] && p.task.id == d;
    forall s, e | s in listed && StandsFor(x, s) ensures !LeadsTo(listed, s, e, d) {
      forall u | u in listed && u.items != [] ensures d !in ShardIds(u) {
        if d in ShardIds(u) {
          StandsForOne(listed, d, p, u);
        }
      }
    }
  }

  /** The same of the expanded graph, for every list whose expansion has distinct ids, as the parser demands. */
  lemma DependsOnAllIff(listed: seq<Listed>)
    requires DistinctListed(Expand(listed))
    ensures DependsOnAll(listed) <==> NoSharedDeps(listed)
  {
    if NoSharedDeps(listed) {
      forall t, d, x, y | t in listed && d in t.task.deps && StandsFor(x, t) && Bears(listed, d, y)
        ensures Edge(ExpandedAdj(listed), x, y)
      {
        UnsharedReaches(listed, t, d, y);
        assert Leads(listed, t, y);
        ExpandedEdges(listed, x, y);
      }
    } else {
      var t, d :| t in listed && d in t.task.deps && IsPlain(listed, d) && IsForeach(listed, d);
      var x := SomeStands(t);
      SharedIdLosesDependency(listed, d);
      SharedEdgeMissing(listed, t, x, d);
    }
  }
}
