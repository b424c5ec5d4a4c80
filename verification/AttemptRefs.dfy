/** Attempt references: the scheduler's attemptRef and the worker hub's splitRef
    (internal/scheduler/scheduler.go, internal/workerhub/hub.go).

    The reference is the executor's idempotency key, so two attempts must never share one; and a
    restarted hub recovers run, task and try number from the string alone. */
module AttemptRefs {
  import opened Decimal
  import opened Options

  datatype Parts = Parts(runId: string, taskId: string, try: nat)

  function AttemptRef(runId: string, taskId: string, try: nat): string {
    runId + "/" + taskId + "/" + Itoa(try)
  }

  /** Index of the first slash, |s| when there is none. */
  function FirstSlash(s: string): (i: nat)
    ensures i <= |s| && (i < |s| ==> s[i] == '/') && '/' !in s[..i]
  {
    if s == [] || s[0] == '/' then 0
    else
      var k := FirstSlash(s[1..]);
      assert s[..k + 1] == [s[0]] + s[1..][..k];
      k + 1
  }

  /** Index of the last slash, |s| when there is none. */
  function LastSlash(s: string): (j: nat)
    ensures j <= |s| && (j < |s| ==> s[j] == '/' && '/' !in s[j + 1..]) && (j == |s| ==> '/' !in s)
  {
    if s == [] then 0
    else if s[|s| - 1] == '/' then |s| - 1
    else
      var front := s[..|s| - 1];
      var j := LastSlash(front);
      assert s == front + [s[|s| - 1]];
      if j == |front| then |s| else
      assert s[j + 1..] == front[j + 1..] + [s[|s| - 1]];
      j
  }

  function SplitRef(ref: string): Option<Parts> {
    var i, j := FirstSlash(ref), LastSlash(ref);
    if i == |ref| || i == 0 || j <= i then None
    else
      match Atoi(ref[j + 1..])
      case None => None
      case Some(n) => Some(Parts(ref[..i], ref[i + 1..j], n))
  }

  lemma SlashFree(s: string)
    requires '/' !in s
    ensures forall m :: 0 <= m < |s| ==> s[m] != '/'
  {
  }

  lemma FirstSlashIs(s: string, i: nat)
    requires i < |s| && s[i] == '/' && '/' !in s[..i]
    ensures FirstSlash(s) == i
  {
    var k := FirstSlash(s);
    SlashFree(s[..i]);
    SlashFree(s[..k]);
    assert forall m :: 0 <= m < i ==> s[..i][m] == s[m];
    assert forall m :: 0 <= m < k ==> s[..k][m] == s[m];
  }

  lemma LastSlashIs(s: string, j: nat)
    requires j < |s| && s[j] == '/' && '/' !in s[j + 1..]
    ensures LastSlash(s) == j
  {
    var k := LastSlash(s);
    var after := if k < |s| then k + 1 else 0;
    SlashFree(s[j + 1..]);
    SlashFree(s[after..]);
    assert forall m :: j < m < |s| ==> s[j + 1..][m - (j + 1)] == s[m];
    assert forall m :: after <= m < |s| ==> s[after..][m - after] == s[m];
  }

  /** The hub reads back exactly what the scheduler wrote, for every task id and try number, as
      long as the run id is a non-empty string without a slash. */
  lemma SplitRefInvertsAttemptRef(runId: string, taskId: string, try: nat)
    requires runId != "" && '/' !in runId
    ensures SplitRef(AttemptRef(runId, taskId, try)) == Some(Parts(runId, taskId, try))
  {
    var ref, digits := AttemptRef(runId, taskId, try), Itoa(try);
    var i, j := |runId|, |runId| + 1 + |taskId|;
    assert ref[..i] == runId && ref[i + 1..j] == taskId && ref[j + 1..] == digits;
    forall k | 0 <= k < |digits| ensures digits[k] != '/' {
      assert IsDigit(digits[k]);
    }
    FirstSlashIs(ref, i);
    LastSlashIs(ref, j);
    AtoiItoa(try);
  }

  /** Distinct attempts have distinct references. */
  lemma AttemptRefIsInjective(r1: string, t1: string, n1: nat, r2: string, t2: string, n2: nat)
    requires r1 != "" && '/' !in r1 && r2 != "" && '/' !in r2
    requires AttemptRef(r1, t1, n1) == AttemptRef(r2, t2, n2)
    ensures r1 == r2 && t1 == t2 && n1 == n2
  {
    SplitRefInvertsAttemptRef(r1, t1, n1);
    SplitRefInvertsAttemptRef(r2, t2, n2);
  }
}
