/** Running the actions of a countermeasure (pkg/actions/action.go). Performing an action may
    succeed or fail: `fails(i, k)` says whether the k-th attempt of action `i` fails. */
module Execution {
  import opened Admission

  /** What a run does: it performs an action, and records events about the countermeasure. */
  datatype Effect =
    | Performed(action: nat, attempt: nat)
    | Normal(action: nat, dryRun: bool)
    | Warning(action: nat)

  type Failures = (nat, nat) -> bool

  /** How often an action may be attempted. */
  function Limit(impl: Impl, steps: nat): nat {
    if impl.retryEnabled then steps else 1
  }

  /** The action fails for good: all the attempts it is given fail. */
  ghost predicate FailsForGood(actions: seq<Impl>, steps: nat, fails: Failures, i: nat)
    requires i < |actions|
  {
    forall k: nat :: k < Limit(actions[i], steps) ==> fails(i, k)
  }

  /** The bounded retry: attempts until one succeeds, the error is not to be retried, or `steps` have
      been made. */
  method OnError(steps: nat, retriable: bool, i: nat, fails: Failures) returns (failed: bool, attempts: nat)
    requires steps >= 1
    ensures 1 <= attempts <= if retriable then steps else 1
    ensures forall k: nat :: k < attempts - 1 ==> fails(i, k)
    ensures failed == fails(i, attempts - 1)
    ensures failed ==> attempts == if retriable then steps else 1
  {
    attempts := 0;
    while attempts < steps
      invariant attempts <= steps && (attempts > 0 ==> retriable)
      invariant forall k: nat :: k < attempts ==> fails(i, k)
    {
      failed := fails(i, attempts);
      attempts := attempts + 1;
      if !failed || !retriable {
        return;
      }
    }
    failed := true;
  }

  // ---------- the trace of a run ----------

  function Tries(i: nat, n: nat): (r: seq<Effect>)
    ensures |r| == n && forall k :: 0 <= k < n ==> r[k] == Performed(i, k)
  {
    seq(n, k requires 0 <= k < n => Performed(i, k))
  }

  /** The attempts made on action `i`, of which `k` have been made and failed. */
  function Attempts(limit: nat, fails: Failures, i: nat, k: nat): (n: nat)
    requires k < limit
    ensures k < n <= limit
    ensures forall j: nat :: k <= j < n - 1 ==> fails(i, j)
    ensures fails(i, n - 1) ==> n == limit
    decreases limit - k
  {
    if !fails(i, k) || k + 1 == limit then k + 1 else Attempts(limit, fails, i, k + 1)
  }

  function AttemptsOf(actions: seq<Impl>, steps: nat, fails: Failures, i: nat): nat
    requires i < |actions| && steps >= 1
  {
    Attempts(Limit(actions[i], steps), fails, i, 0)
  }

  /** What a run does from action `i` on. */
  function RunTrace(actions: seq<Impl>, dryRun: bool, steps: nat, fails: Failures, i: nat): seq<Effect>
    requires i <= |actions| && steps >= 1
    decreases |actions| - i
  {
    if i == |actions| then [] else
      var n := AttemptsOf(actions, steps, fails, i);
      if fails(i, n - 1) then Tries(i, n) + [Warning(i)]
      else Tries(i, n) + [Normal(i, dryRun)] + RunTrace(actions, dryRun, steps, fails, i + 1)
  }

  lemma {:induction false} AttemptsUnique(limit: nat, fails: Failures, i: nat, k: nat, n: nat)
    requires k < n <= limit && (forall j: nat :: k <= j < n - 1 ==> fails(i, j)) && (fails(i, n - 1) ==> n == limit)
    ensures n == Attempts(limit, fails, i, k)
    decreases limit - k
  {
  }

  lemma Regroup(t: seq<Effect>, tries: seq<Effect>, e: Effect, rest: seq<Effect>)
    ensures t + (tries + [e] + rest) == t + tries + [e] + rest
    ensures t + (tries + [e]) == t + tries + [e]
  {
  }

  /** Runs the actions in order, and stops at the first that fails for good. */
  method Run(actions: seq<Impl>, dryRun: bool, steps: nat, fails: Failures) returns (trace: seq<Effect>)
    requires steps >= 1
    ensures trace == RunTrace(actions, dryRun, steps, fails, 0)
  {
    trace := [];
    for i := 0 to |actions|
      invariant trace + RunTrace(actions, dryRun, steps, fails, i) == RunTrace(actions, dryRun, steps, fails, 0)
    {
      var failed, attempts := OnError(steps, actions[i].retryEnabled, i, fails);
      AttemptsUnique(Limit(actions[i], steps), fails, i, 0, attempts);
      ghost var rest := if failed then [] else RunTrace(actions, dryRun, steps, fails, i + 1);
      Regroup(trace, Tries(i, attempts), if failed then Warning(i) else Normal(i, dryRun), rest);
      trace := trace + Tries(i, attempts);
      if failed {
        return trace + [Warning(i)];
      }
      trace := trace + [Normal(i, dryRun)];
    }
  }

  // ---------- what a run promises ----------

  /** The first action, from `i` on, that fails for good; the number of actions if none does. */
  ghost function FirstFailure(actions: seq<Impl>, steps: nat, fails: Failures, i: nat): (r: nat)
    requires i <= |actions|
    ensures i <= r <= |actions|
    ensures forall j :: i <= j < r ==> !FailsForGood(actions, steps, fails, j)
    ensures r < |actions| ==> FailsForGood(actions, steps, fails, r)
    decreases |actions| - i
  {
    if i == |actions| || FailsForGood(actions, steps, fails, i) then i else FirstFailure(actions, steps, fails, i + 1)
  }

  /** The events recorded, in order. */
  function Records(t: seq<Effect>): seq<Effect> {
    if t == [] then [] else (if t[0].Performed? then [] else [t[0]]) + Records(t[1..])
  }

  /** One Normal event for each action from `i` up to `done`, then a Warning if `done` is an action. */
  function Outcomes(i: nat, done: nat, total: nat, dryRun: bool): seq<Effect>
    decreases done - i
  {
    if i < done then [Normal(i, dryRun)] + Outcomes(i + 1, done, total, dryRun)
    else if done < total then [Warning(done)] else []
  }

  function Performances(t: seq<Effect>, i: nat): nat {
    if t == [] then 0 else (if t[0].Performed? && t[0].action == i then 1 else 0) + Performances(t[1..], i)
  }

  lemma {:induction false} RecordsAppend(t: seq<Effect>, u: seq<Effect>)
    ensures Records(t + u) == Records(t) + Records(u)
    decreases |t|
  {
    if t == [] {
      assert t + u == u;
    } else {
      assert (t + u)[1..] == t[1..] + u;
      RecordsAppend(t[1..], u);
    }
  }

  lemma {:induction false} PerformancesAppend(t: seq<Effect>, u: seq<Effect>, i: nat)
    ensures Performances(t + u, i) == Performances(t, i) + Performances(u, i)
    decreases |t|
  {
    if t == [] {
      assert t + u == u;
    } else {
      assert (t + u)[1..] == t[1..] + u;
      PerformancesAppend(t[1..], u, i);
    }
  }

  lemma {:induction false} OnlyTries(t: seq<Effect>, i: nat)
    requires forall k :: 0 <= k < |t| ==> t[k].Performed? && t[k].action == i
    ensures Records(t) == [] && forall j :: Performances(t, j) == if i == j then |t| else 0
    decreases |t|
  {
    if t != [] {
      OnlyTries(t[1..], i);
    }
  }

  /** One action's part of the trace: its attempts, then one event. */
  lemma SegmentCounts(i: nat, n: nat, e: Effect, rest: seq<Effect>)
    requires !e.Performed?
    ensures Records(Tries(i, n) + [e] + rest) == [e] + Records(rest)
    ensures forall j :: Performances(Tries(i, n) + [e] + rest, j) == (if i == j then n else 0) + Performances(rest, j)
  {
    OnlyTries(Tries(i, n), i);
    assert Records([e]) == [e];
    RecordsAppend(Tries(i, n), [e]);
    RecordsAppend(Tries(i, n) + [e], rest);
    forall j: nat ensures Performances(Tries(i, n) + [e] + rest, j) == (if i == j then n else 0) + Performances(rest, j) {
      PerformancesAppend(Tries(i, n), [e], j);
      PerformancesAppend(Tries(i, n) + [e], rest, j);
      assert Performances([e], j) == 0;
    }
  }

  /** Every effect comes after those of earlier actions; an action's attempts come in order, and before its
      event. */
  ghost predicate InDocumentOrder(t: seq<Effect>, i: nat) {
    && (forall p :: 0 <= p < |t| ==> t[p].action >= i)
    && (forall p, q :: 0 <= p < q < |t| ==> t[p].action <= t[q].action)
    && (forall p, q :: 0 <= p < q < |t| && t[p].action == t[q].action ==>
          t[p].Performed? && (t[q].Performed? ==> t[p].attempt < t[q].attempt))
  }

  ghost predicate TraceOK(actions: seq<Impl>, dryRun: bool, steps: nat, fails: Failures, i: nat, t: seq<Effect>, done: nat)
    requires i <= |actions| && steps >= 1
  {
    && Records(t) == Outcomes(i, done, |actions|, dryRun)
    && forall j: nat :: Performances(t, j) == if i <= j <= done && j < |actions| then AttemptsOf(actions, steps, fails, j) else 0
  }

  lemma {:induction false} TraceFrom(actions: seq<Impl>, dryRun: bool, steps: nat, fails: Failures, i: nat)
    requires i <= |actions| && steps >= 1
    ensures TraceOK(actions, dryRun, steps, fails, i, RunTrace(actions, dryRun, steps, fails, i), FirstFailure(actions, steps, fails, i))
    decreases |actions| - i
  {
    if i < |actions| {
      var n := AttemptsOf(actions, steps, fails, i);
      assert FailsForGood(actions, steps, fails, i) <==> fails(i, n - 1);
      if fails(i, n - 1) {
        SegmentCounts(i, n, Warning(i), []);
        assert Tries(i, n) + [Warning(i)] + [] == Tries(i, n) + [Warning(i)];
      } else {
        TraceFrom(actions, dryRun, steps, fails, i + 1);
        SegmentCounts(i, n, Normal(i, dryRun), RunTrace(actions, dryRun, steps, fails, i + 1));
      }
    }
  }

  lemma SegmentInOrder(i: nat, n: nat, e: Effect, rest: seq<Effect>)
    requires !e.Performed? && e.action == i && InDocumentOrder(rest, i + 1)
    ensures InDocumentOrder(Tries(i, n) + [e] + rest, i)
  {
    var t := Tries(i, n) + [e] + rest;
    assert forall p :: 0 <= p < n ==> t[p] == Performed(i, p);
    assert t[n] == e;
    assert forall p :: n < p < |t| ==> t[p] == rest[p - n - 1];
  }

  lemma {:induction false} TraceInOrder(actions: seq<Impl>, dryRun: bool, steps: nat, fails: Failures, i: nat)
    requires i <= |actions| && steps >= 1
    ensures InDocumentOrder(RunTrace(actions, dryRun, steps, fails, i), i)
    decreases |actions| - i
  {
    if i < |actions| {
      var n := AttemptsOf(actions, steps, fails, i);
      if fails(i, n - 1) {
        SegmentInOrder(i, n, Warning(i), []);
        assert Tries(i, n) + [Warning(i)] + [] == Tries(i, n) + [Warning(i)];
      } else {
        TraceInOrder(actions, dryRun, steps, fails, i + 1);
        SegmentInOrder(i, n, Normal(i, dryRun), RunTrace(actions, dryRun, steps, fails, i + 1));
      }
    }
  }

  lemma {:induction false} OutcomesAre(i: nat, done: nat, total: nat, dryRun: bool)
    requires i <= done <= total
    ensures var r := Outcomes(i, done, total, dryRun);
            && |r| == done - i + (if done < total then 1 else 0)
            && (forall k :: i <= k < done ==> r[k - i] == Normal(k, dryRun))
            && (done < total ==> r[done - i] == Warning(done))
    decreases done - i
  {
    if i < done {
      OutcomesAre(i + 1, done, total, dryRun);
      var rest := Outcomes(i + 1, done, total, dryRun);
      assert Outcomes(i, done, total, dryRun)[1..] == rest;
    }
  }

  // ---------- what a run promises, in its own terms ----------

  /** Action `j` was attempted `n` times, and only the last attempt succeeded. */
  ghost predicate Succeeded(impl: Impl, steps: nat, fails: Failures, j: nat, n: nat) {
    && 1 <= n <= (if impl.retryEnabled then steps else 1)
    && !fails(j, n - 1) && forall k: nat :: k < n - 1 ==> fails(j, k)
  }

  /** Action `j` was attempted as often as it may be, and every attempt failed. */
  ghost predicate GaveUp(impl: Impl, steps: nat, fails: Failures, j: nat, n: nat) {
    n == (if impl.retryEnabled then steps else 1) && forall k: nat :: k < n ==> fails(j, k)
  }

  /** The trace is that of a run whose first `done` actions succeeded, and the next, if any, failed for good. */
  ghost predicate RunsAs(actions: seq<Impl>, dryRun: bool, steps: nat, fails: Failures, t: seq<Effect>, done: nat) {
    && done <= |actions|
    && (forall j :: 0 <= j < done ==> Succeeded(actions[j], steps, fails, j, Performances(t, j)))
    && (done < |actions| ==> GaveUp(actions[done], steps, fails, done, Performances(t, done)))
    && (forall j: nat :: j > done || j >= |actions| ==> Performances(t, j) == 0)
    && InDocumentOrder(t, 0)
    && |Records(t)| == done + (if done < |actions| then 1 else 0)
    && (forall j :: 0 <= j < done ==> Records(t)[j] == Normal(j, dryRun))
    && (done < |actions| ==> Records(t)[done] == Warning(done))
  }

  lemma AttemptsDecide(actions: seq<Impl>, steps: nat, fails: Failures, j: nat)
    requires j < |actions| && steps >= 1
    ensures var n := AttemptsOf(actions, steps, fails, j);
            if FailsForGood(actions, steps, fails, j) then GaveUp(actions[j], steps, fails, j, n)
            else Succeeded(actions[j], steps, fails, j, n)
  {
  }

  /** For every list of actions and every pattern of failures: the actions that succeed are those
      before the first that fails for good; those are performed once if they do not retry and at most
      `steps` times otherwise, up to the first success; nothing after the failure is performed;
      everything happens in document order; and the events recorded are one Normal for each success
      followed by at most one Warning. */
  lemma RunnerTrace(actions: seq<Impl>, dryRun: bool, steps: nat, fails: Failures)
    requires steps >= 1
    ensures RunsAs(actions, dryRun, steps, fails, RunTrace(actions, dryRun, steps, fails, 0), FirstFailure(actions, steps, fails, 0))
  {
    var done := FirstFailure(actions, steps, fails, 0);
    TraceFrom(actions, dryRun, steps, fails, 0);
    TraceInOrder(actions, dryRun, steps, fails, 0);
    OutcomesAre(0, done, |actions|, dryRun);
    forall j: nat | j <= done && j < |actions|
      ensures if j < done then Succeeded(actions[j], steps, fails, j, AttemptsOf(actions, steps, fails, j))
              else GaveUp(actions[j], steps, fails, j, AttemptsOf(actions, steps, fails, j))
    {
      AttemptsDecide(actions, steps, fails, j);
    }
  }
}
