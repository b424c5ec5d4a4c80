/** Task states and the six trigger rules (internal/model/model.go, internal/model/state.go).

    `Ready` and `Blocked` say what each rule means for a task's dependency states; the counting
    loop `EvalTriggerRule` is proved against them. The lemmas characterise `Blocked` without
    mentioning any rule: it holds exactly when no way of finishing the dependencies can make
    the rule ready. */
module TriggerRules {

  datatype TaskState =
    | Scheduled | Queued | Running | UpForRetry
    | Success | Failed | UpstreamFailed | Skipped | Cancelled | TimedOut
  {
    predicate IsTerminal() {
      Success? || Failed? || UpstreamFailed? || Skipped? || Cancelled? || TimedOut?
    }

    /** The terminal non-successes that a trigger rule counts as failures. */
    predicate CountsAsFailure() {
      Failed? || UpstreamFailed? || TimedOut? || Cancelled?
    }
  }

  datatype Rule = AllSuccess | AllDone | OneSuccess | OneFailed | AllFailed | NoneFailed

  ghost predicate AllTerminal(deps: seq<TaskState>) {
    forall i :: 0 <= i < |deps| ==> deps[i].IsTerminal()
  }

  ghost predicate SomeSuccess(deps: seq<TaskState>) {
    exists i :: 0 <= i < |deps| && deps[i].Success?
  }

  ghost predicate SomeFailure(deps: seq<TaskState>) {
    exists i :: 0 <= i < |deps| && deps[i].CountsAsFailure()
  }

  ghost predicate SomeSkip(deps: seq<TaskState>) {
    exists i :: 0 <= i < |deps| && deps[i].Skipped?
  }

  ghost predicate EverySuccess(deps: seq<TaskState>) {
    forall i :: 0 <= i < |deps| ==> deps[i].Success?
  }

  ghost predicate EveryFailure(deps: seq<TaskState>) {
    forall i :: 0 <= i < |deps| ==> deps[i].CountsAsFailure()
  }

  /** The rule is satisfied: the task may be dispatched. */
  ghost predicate Ready(rule: Rule, deps: seq<TaskState>) {
    deps == [] ||
    match rule
    case AllSuccess => EverySuccess(deps)
    case AllDone => AllTerminal(deps)
    case OneSuccess => SomeSuccess(deps)
    case OneFailed => SomeFailure(deps)
    case AllFailed => EveryFailure(deps)
    case NoneFailed => AllTerminal(deps) && !SomeFailure(deps)
  }

  /** The rule can no longer be satisfied: the task becomes upstream_failed. */
  ghost predicate Blocked(rule: Rule, deps: seq<TaskState>) {
    deps != [] &&
    match rule
    case AllSuccess => SomeFailure(deps) || SomeSkip(deps)
    case AllDone => false
    case OneSuccess => AllTerminal(deps) && !SomeSuccess(deps)
    case OneFailed => AllTerminal(deps) && !SomeFailure(deps)
    case AllFailed => SomeSuccess(deps) || SomeSkip(deps)
    case NoneFailed => SomeFailure(deps)
  }

  method EvalTriggerRule(rule: Rule, deps: seq<TaskState>) returns (ready: bool, blocked: bool)
    ensures ready <==> Ready(rule, deps)
    ensures blocked <==> Blocked(rule, deps)
  {
    var n := |deps|;
    if n == 0 {
      return true, false;
    }
    var succ, fail, skip, done := 0, 0, 0, 0;
    for k := 0 to n
      invariant 0 <= succ <= k && 0 <= fail <= k && 0 <= skip <= k && 0 <= done <= k
      invariant succ > 0 <==> SomeSuccess(deps[..k])
      invariant succ == k <==> EverySuccess(deps[..k])
      invariant fail > 0 <==> SomeFailure(deps[..k])
      invariant fail == k <==> EveryFailure(deps[..k])
      invariant skip > 0 <==> SomeSkip(deps[..k])
      invariant done == k <==> AllTerminal(deps[..k])
    {
      assert deps[..k + 1] == deps[..k] + [deps[k]];
      match deps[k] {
        case Success => succ := succ + 1;
        case Failed | UpstreamFailed | TimedOut | Cancelled => fail := fail + 1;
        case Skipped => skip := skip + 1;
        case _ =>
      }
      if deps[k].IsTerminal() {
        done := done + 1;
      }
      ExtendByOne(deps[..k], deps[k]);
    }
    assert deps[..n] == deps;
    var allDone := done == n;
    match rule {
      case AllDone => return allDone, false;
      case OneSuccess => return succ >= 1, allDone && succ == 0;
      case OneFailed => return fail >= 1, allDone && fail == 0;
      case AllFailed =>
        return allDone && fail == n, succ > 0 || skip > 0;
      case NoneFailed => return allDone && fail == 0, fail > 0;
      case AllSuccess => return succ == n, fail > 0 || skip > 0;
    }
  }

  lemma ExtendByOne(deps: seq<TaskState>, d: TaskState)
    ensures SomeSuccess(deps + [d]) <==> SomeSuccess(deps) || d.Success?
    ensures SomeFailure(deps + [d]) <==> SomeFailure(deps) || d.CountsAsFailure()
    ensures SomeSkip(deps + [d]) <==> SomeSkip(deps) || d.Skipped?
    ensures EverySuccess(deps + [d]) <==> EverySuccess(deps) && d.Success?
    ensures EveryFailure(deps + [d]) <==> EveryFailure(deps) && d.CountsAsFailure()
    ensures AllTerminal(deps + [d]) <==> AllTerminal(deps) && d.IsTerminal()
  {
    var all := deps + [d];
    assert all[|deps|] == d;
    assert forall i :: 0 <= i < |deps| ==> all[i] == deps[i];
  }

  /** The failures, all of them terminal. */
  const FAILURES: set<TaskState> := {Failed, UpstreamFailed, TimedOut, Cancelled}

  /** A rule looks only at which states occur among the dependencies: every verdict in terms of that set. */
  lemma ReadyByStates(rule: Rule, deps: seq<TaskState>)
    requires deps != []
    ensures var states := set d | d in deps;
            Ready(rule, deps) <==>
              match rule
              case AllSuccess => states == {Success}
              case AllDone => states !! {Scheduled, Queued, Running, UpForRetry}
              case OneSuccess => Success in states
              case OneFailed => !(states !! FAILURES)
              case AllFailed => states <= FAILURES
              case NoneFailed => states <= {Success, Skipped}
  {
    var states := set d | d in deps;
    assert deps[0] in states;
    assert forall i :: 0 <= i < |deps| ==> deps[i] in states;
    assert forall d :: d in states ==> exists i :: 0 <= i < |deps| && deps[i] == d;
    match rule
    case AllSuccess =>
      assert EverySuccess(deps) <==> forall d :: d in states ==> d == Success;
    case AllDone =>
      assert AllTerminal(deps) <==> forall d :: d in states ==> d.IsTerminal();
    case OneSuccess =>
    case OneFailed =>
      assert SomeFailure(deps) <==> exists d :: d in states && d in FAILURES;
    case AllFailed =>
      assert EveryFailure(deps) <==> forall d :: d in states ==> d in FAILURES;
    case NoneFailed =>
      assert AllTerminal(deps) <==> forall d :: d in states ==> d.IsTerminal();
      assert SomeFailure(deps) <==> exists d :: d in states && d in FAILURES;
  }

  /** `later` can follow `deps`: terminal dependencies keep their state, the others are free. */
  ghost predicate Advances(deps: seq<TaskState>, later: seq<TaskState>) {
    |deps| == |later| &&
    forall i :: 0 <= i < |deps| && deps[i].IsTerminal() ==> later[i] == deps[i]
  }

  ghost predicate Completion(deps: seq<TaskState>, later: seq<TaskState>) {
    Advances(deps, later) && AllTerminal(later)
  }

  lemma ReadyExcludesBlocked(rule: Rule, deps: seq<TaskState>)
    ensures !(Ready(rule, deps) && Blocked(rule, deps))
  {
    if deps != [] {
      assert deps[0].Success? || deps[0].CountsAsFailure() || deps[0].Skipped? || !deps[0].IsTerminal();
    }
  }

  /** Once every dependency is terminal the rule has decided. */
  lemma DecidedWhenDone(rule: Rule, deps: seq<TaskState>)
    requires AllTerminal(deps)
    ensures Ready(rule, deps) <==> !Blocked(rule, deps)
  {
    ReadyExcludesBlocked(rule, deps);
  }

  /** Both verdicts are stable: no progress of the unfinished dependencies withdraws them. */
  lemma VerdictsAreStable(rule: Rule, deps: seq<TaskState>, later: seq<TaskState>)
    requires Advances(deps, later)
    ensures Blocked(rule, deps) ==> Blocked(rule, later)
    ensures Ready(rule, deps) ==> Ready(rule, later)
  {
    if i :| 0 <= i < |deps| && deps[i].Success? { assert later[i].Success?; }
    if i :| 0 <= i < |deps| && deps[i].CountsAsFailure() { assert later[i].CountsAsFailure(); }
    if i :| 0 <= i < |deps| && deps[i].Skipped? { assert later[i].Skipped?; }
  }

  /** The dependency states with every unfinished one set to `s`. */
  function FinishWith(deps: seq<TaskState>, s: TaskState): (r: seq<TaskState>) {
    seq(|deps|, i requires 0 <= i < |deps| => if deps[i].IsTerminal() then deps[i] else s)
  }

  /** upstream_failed is given to exactly the hopeless tasks: a task is blocked if and only if
      no completion of its dependencies would make its rule ready. */
  lemma BlockedIffHopeless(rule: Rule, deps: seq<TaskState>)
    ensures Blocked(rule, deps) <==>
            forall later :: Completion(deps, later) ==> !Ready(rule, later)
  {
    if Blocked(rule, deps) {
      forall later | Completion(deps, later) ensures !Ready(rule, later) {
        VerdictsAreStable(rule, deps, later);
        ReadyExcludesBlocked(rule, later);
      }
    } else {
      var best := if rule.OneFailed? || rule.AllFailed? then Failed else Success;
      var later := FinishWith(deps, best);
      assert Completion(deps, later);
      assert Ready(rule, later) by { HopefulCompletion(rule, deps, best); }
    }
  }

  lemma HopefulCompletion(rule: Rule, deps: seq<TaskState>, best: TaskState)
    requires !Blocked(rule, deps)
    requires best == if rule.OneFailed? || rule.AllFailed? then Failed else Success
    ensures Ready(rule, FinishWith(deps, best))
  {
    var later := FinishWith(deps, best);
    if deps != [] {
      match rule
      case AllSuccess | AllDone | AllFailed | NoneFailed =>
      case OneSuccess =>
        if SomeSuccess(deps) {
          var i :| 0 <= i < |deps| && deps[i].Success?;
          assert later[i].Success?;
        } else {
          var i :| 0 <= i < |deps| && !deps[i].IsTerminal();
          assert later[i].Success?;
        }
      case OneFailed =>
        if SomeFailure(deps) {
          var i :| 0 <= i < |deps| && deps[i].CountsAsFailure();
          assert later[i].CountsAsFailure();
        } else {
          var i :| 0 <= i < |deps| && !deps[i].IsTerminal();
          assert later[i].CountsAsFailure();
        }
    }
  }
}
