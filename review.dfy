/** The review of a run: the process exit code, the number of queries
    counted as executed, and the closing message. */
module Review {
  import opened Wrappers
  import opened GoStrings
  import opened Engine
  import opened Playbooks

  // ---------------------------------------------------------------------------
  // What the statuses contain

  /** Some target carries a target-level error slice; an empty one counts too. */
  predicate HasInitError(statuses: seq<TargetStatus>) {
    exists i :: 0 <= i < |statuses| && statuses[i].errors.Some?
  }

  /** Some step of the list reported a query error. */
  predicate StepsErr(steps: seq<StepStatus>) {
    exists i :: 0 <= i < |steps| && Failed(steps[i])
  }

  /** Some target reported a query error. */
  predicate HasQueryError(statuses: seq<TargetStatus>) {
    exists i :: 0 <= i < |statuses| && StepsErr(statuses[i].steps)
  }

  /** The number of query statuses in a list of steps. */
  function StepsQueries(steps: seq<StepStatus>): nat {
    if |steps| == 0 then 0 else StepsQueries(steps[..|steps| - 1]) + |steps[|steps| - 1].queries|
  }

  /** The number of query statuses across all targets. */
  function Total(statuses: seq<TargetStatus>): nat {
    if |statuses| == 0 then 0 else Total(statuses[..|statuses| - 1]) + StepsQueries(statuses[|statuses| - 1].steps)
  }

  /** The query count as accumulated target by target: a target with a query
      error sets it back to zero, later targets add all of their queries. */
  function Counted(statuses: seq<TargetStatus>): nat {
    if |statuses| == 0 then 0
    else
      var last := statuses[|statuses| - 1];
      if StepsErr(last.steps) then 0 else Counted(statuses[..|statuses| - 1]) + StepsQueries(last.steps)
  }

  /** The exit code: 7 for both kinds of error, 5 for target errors, 6 for
      query errors, 8 when nothing ran, 0 for success. */
  function ExitCode(initErrors: bool, queryErrors: bool, queryCount: nat): int {
    if initErrors && queryErrors then 7
    else if initErrors then 5
    else if queryErrors then 6
    else if queryCount == 0 then 8
    else 0
  }

  function Outcome(statuses: seq<TargetStatus>): (int, nat) {
    (ExitCode(HasInitError(statuses), HasQueryError(statuses), Counted(statuses)), Counted(statuses))
  }

  // ---------------------------------------------------------------------------
  // getExitCodeAndQueryCount

  lemma StepsPrefix(steps: seq<StepStatus>, s: nat)
    requires s < |steps|
    ensures StepsQueries(steps[..s + 1]) == StepsQueries(steps[..s]) + |steps[s].queries|
    ensures StepsErr(steps[..s + 1]) <==> StepsErr(steps[..s]) || Failed(steps[s])
  {
    assert steps[..s + 1][..s] == steps[..s];
    if StepsErr(steps[..s + 1]) && !Failed(steps[s]) {
      var j :| 0 <= j < s + 1 && Failed(steps[..s + 1][j]);
      assert steps[..s][j] == steps[j];
    }
    if StepsErr(steps[..s]) {
      var j :| 0 <= j < s && Failed(steps[..s][j]);
      assert steps[..s + 1][j] == steps[j];
    }
    if Failed(steps[s]) {
      assert steps[..s + 1][s] == steps[s];
    }
  }

  lemma StatusesPrefix(statuses: seq<TargetStatus>, i: nat)
    requires i < |statuses|
    ensures HasInitError(statuses[..i + 1]) <==> HasInitError(statuses[..i]) || statuses[i].errors.Some?
    ensures HasQueryError(statuses[..i + 1]) <==> HasQueryError(statuses[..i]) || StepsErr(statuses[i].steps)
    ensures Counted(statuses[..i + 1]) ==
      if StepsErr(statuses[i].steps) then 0 else Counted(statuses[..i]) + StepsQueries(statuses[i].steps)
  {
    var p := statuses[..i + 1];
    assert p[..i] == statuses[..i];
    assert p[i] == statuses[i];
    if HasInitError(p) {
      var j :| 0 <= j < i + 1 && p[j].errors.Some?;
      if j < i { assert statuses[..i][j] == p[j]; }
    }
    if HasInitError(statuses[..i]) {
      var j :| 0 <= j < i && statuses[..i][j].errors.Some?;
      assert p[j] == statuses[..i][j];
    }
    if HasQueryError(p) {
      var j :| 0 <= j < i + 1 && StepsErr(p[j].steps);
      if j < i { assert statuses[..i][j] == p[j]; }
    }
    if HasQueryError(statuses[..i]) {
      var j :| 0 <= j < i && StepsErr(statuses[..i][j].steps);
      assert p[j] == statuses[..i][j];
    }
  }

  /** Counts the executed queries target by target and decides the exit code;
      a query error stops the count for the rest of that target. */
  method GetExitCodeAndQueryCount(statuses: seq<TargetStatus>) returns (exitCode: int, queryCount: int)
    ensures (exitCode, queryCount) == Outcome(statuses)
  {
    var initErrors := false;
    var queryErrors := false;
    queryCount := 0;
    for i := 0 to |statuses|
      invariant initErrors == HasInitError(statuses[..i])
      invariant queryErrors == HasQueryError(statuses[..i])
      invariant queryCount == Counted(statuses[..i])
    {
      var targetStatus := statuses[i];
      StatusesPrefix(statuses, i);
      if targetStatus.errors.Some? {
        initErrors := true;
      }
      ghost var before := queryCount;
      label CheckQueries:
      for s := 0 to |targetStatus.steps|
        invariant !StepsErr(targetStatus.steps[..s])
        invariant queryCount == before + StepsQueries(targetStatus.steps[..s])
        invariant queryErrors == HasQueryError(statuses[..i])
      {
        var stepStatus := targetStatus.steps[s];
        StepsPrefix(targetStatus.steps, s);
        for k := 0 to |stepStatus.queries|
          invariant forall j :: 0 <= j < k ==> stepStatus.queries[j].error.None?
          invariant queryCount == before + StepsQueries(targetStatus.steps[..s]) + k
        {
          if stepStatus.queries[k].error.Some? {
            assert Failed(stepStatus);
            assert StepsErr(targetStatus.steps) by {
              assert targetStatus.steps[s] == stepStatus;
            }
            queryErrors := true;
            queryCount := 0;
            break CheckQueries;
          }
          queryCount := queryCount + 1;
        }
      }
      assert statuses[..i + 1][i] == targetStatus;
      assert targetStatus.steps[..|targetStatus.steps|] == targetStatus.steps;
    }
    assert statuses[..|statuses|] == statuses;
    exitCode := ExitCode(initErrors, queryErrors, queryCount);
  }

  // ---------------------------------------------------------------------------
  // What the count and the code mean

  /** Without query errors, every query status is counted. */
  lemma {:induction false} NoQueryErrorCountsAll(statuses: seq<TargetStatus>)
    requires !HasQueryError(statuses)
    ensures Counted(statuses) == Total(statuses)
  {
    if |statuses| > 0 {
      var n := |statuses| - 1;
      assert !StepsErr(statuses[n].steps);
      NoQueryErrorCountsAll(statuses[..n]);
    }
  }

  lemma {:induction false} TotalAppend(a: seq<TargetStatus>, b: seq<TargetStatus>)
    ensures Total(a + b) == Total(a) + Total(b)
    decreases |b|
  {
    if |b| == 0 {
      assert a + b == a;
    } else {
      assert (a + b)[..|a + b| - 1] == a + b[..|b| - 1];
      TotalAppend(a, b[..|b| - 1]);
    }
  }

  lemma TotalSnoc(a: seq<TargetStatus>, x: TargetStatus)
    ensures Total(a + [x]) == Total(a) + StepsQueries(x.steps)
  {
    assert (a + [x])[..|a|] == a;
  }

  lemma NoQueryErrorSnoc(a: seq<TargetStatus>, x: TargetStatus)
    requires !HasQueryError(a) && !StepsErr(x.steps)
    ensures !HasQueryError(a + [x])
  {
    var ax := a + [x];
    forall j | 0 <= j < |ax| ensures !StepsErr(ax[j].steps) {
      if j < |a| {
        assert ax[j] == a[j];
      }
    }
  }

  /** The count is the number of query statuses of the targets after the last
      target with a query error (of all targets, when there is none). */
  lemma {:induction false} CountedIsTotalAfterLastError(statuses: seq<TargetStatus>)
    ensures exists k :: (0 <= k <= |statuses| && Counted(statuses) == Total(statuses[k..]) &&
                         !HasQueryError(statuses[k..]) && (k > 0 ==> StepsErr(statuses[k - 1].steps)))
  {
    if |statuses| == 0 {
      assert Counted(statuses) == Total(statuses[0..]);
    } else {
      var n := |statuses| - 1;
      var front, last := statuses[..n], statuses[n];
      if StepsErr(last.steps) {
        assert statuses[n + 1..] == [];
        assert Counted(statuses) == Total(statuses[n + 1..]);
      } else {
        assert Counted(statuses) == Counted(front) + StepsQueries(last.steps);
        CountedIsTotalAfterLastError(front);
        var k :| 0 <= k <= n && Counted(front) == Total(front[k..]) &&
          !HasQueryError(front[k..]) && (k > 0 ==> StepsErr(front[k - 1].steps));
        ExtendSuffix(statuses, k);
      }
    }
  }

  lemma ExtendSuffix(statuses: seq<TargetStatus>, k: nat)
    requires k < |statuses|
    requires !StepsErr(statuses[|statuses| - 1].steps)
    requires !HasQueryError(statuses[..|statuses| - 1][k..])
    ensures Total(statuses[k..]) == Total(statuses[..|statuses| - 1][k..]) + StepsQueries(statuses[|statuses| - 1].steps)
    ensures !HasQueryError(statuses[k..])
    ensures k > 0 ==> statuses[k - 1] == statuses[..|statuses| - 1][k - 1]
  {
    var n := |statuses| - 1;
    var front, last := statuses[..n], statuses[n];
    assert front[k..] + [last] == statuses[k..];
    TotalSnoc(front[k..], last);
    NoQueryErrorSnoc(front[k..], last);
  }

  /** The exit code read against the statuses: each code means exactly one
      combination of target errors, query errors and queries run. */
  lemma ExitCodes(statuses: seq<TargetStatus>)
    ensures Outcome(statuses).0 in {0, 5, 6, 7, 8}
    ensures Outcome(statuses).0 == 7 <==> HasInitError(statuses) && HasQueryError(statuses)
    ensures Outcome(statuses).0 == 5 <==> HasInitError(statuses) && !HasQueryError(statuses)
    ensures Outcome(statuses).0 == 6 <==> !HasInitError(statuses) && HasQueryError(statuses)
    ensures Outcome(statuses).0 == 8 <==>
      !HasInitError(statuses) && !HasQueryError(statuses) && Total(statuses) == 0
    ensures Outcome(statuses).0 == 0 <==>
      !HasInitError(statuses) && !HasQueryError(statuses) && Total(statuses) > 0
  {
    if !HasQueryError(statuses) {
      NoQueryErrorCountsAll(statuses);
    }
  }

  /** Nothing to review gives code 8 and a count of 0. */
  lemma NoStatuses()
    ensures Outcome([]) == (8, 0)
  {
  }

  /** Error statuses produced before anything runs (a step or query not found,
      a file that fails to load) give code 5 for any non-empty target list. */
  lemma RejectedRunExitCode(targets: seq<Target>, message: string)
    requires |targets| > 0
    ensures Outcome(PerTargetError(targets, message)) == (5, 0)
  {
    var r := PerTargetError(targets, message);
    assert r[0].errors.Some?;
    assert !HasQueryError(r) by {
      forall i | 0 <= i < |r| ensures !StepsErr(r[i].steps) {
        assert r[i].steps == [];
      }
    }
    assert Total(r) == 0 by {
      TotalOfStepless(r);
    }
    NoQueryErrorCountsAll(r);
  }

  lemma {:induction false} TotalOfStepless(statuses: seq<TargetStatus>)
    requires forall i :: 0 <= i < |statuses| ==> statuses[i].steps == []
    ensures Total(statuses) == 0
  {
    if |statuses| > 0 {
      TotalOfStepless(statuses[..|statuses| - 1]);
    }
  }

  /** An empty, non-nil target error slice is still a target error. */
  lemma EmptyErrorSliceCounts()
    ensures Outcome([TargetStatus("t", Some([]), [])]) == (5, 0)
  {
    var s := [TargetStatus("t", Some([]), [])];
    assert s[0].errors.Some?;
    assert !StepsErr(s[0].steps);
    assert s[..0] == [];
  }

  // ---------------------------------------------------------------------------
  // Independence from arrival order and from the zero-valued step prefix

  lemma {:induction false} StepsQueriesAppend(a: seq<StepStatus>, b: seq<StepStatus>)
    ensures StepsQueries(a + b) == StepsQueries(a) + StepsQueries(b)
    decreases |b|
  {
    if |b| == 0 {
      assert a + b == a;
    } else {
      assert (a + b)[..|a + b| - 1] == a + b[..|b| - 1];
      StepsQueriesAppend(a, b[..|b| - 1]);
    }
  }

  lemma {:induction false} ZeroStepsEmpty(n: nat)
    ensures StepsQueries(ZeroSteps(n)) == 0 && !StepsErr(ZeroSteps(n))
  {
    if n > 0 {
      assert ZeroSteps(n)[..n - 1] == ZeroSteps(n - 1);
      ZeroStepsEmpty(n - 1);
    }
  }

  /** The zero-valued step statuses in front of the executed ones add no
      query and no error. */
  lemma ZeroPrefixIgnored(n: nat, executed: seq<StepStatus>)
    ensures StepsQueries(ZeroSteps(n) + executed) == StepsQueries(executed)
    ensures StepsErr(ZeroSteps(n) + executed) <==> StepsErr(executed)
  {
    ZeroStepsEmpty(n);
    StepsQueriesAppend(ZeroSteps(n), executed);
    var all := ZeroSteps(n) + executed;
    if StepsErr(all) {
      var i :| 0 <= i < |all| && Failed(all[i]);
      assert all[i] == executed[i - n];
    }
    if StepsErr(executed) {
      var i :| 0 <= i < |executed| && Failed(executed[i]);
      assert all[i + n] == executed[i];
    }
  }

  lemma TotalSplit(statuses: seq<TargetStatus>, j: nat)
    requires j <= |statuses|
    ensures Total(statuses) == Total(statuses[..j]) + Total(statuses[j..])
  {
    assert statuses[..j] + statuses[j..] == statuses;
    TotalAppend(statuses[..j], statuses[j..]);
  }

  lemma TotalFirst(statuses: seq<TargetStatus>)
    requires |statuses| > 0
    ensures Total(statuses) == StepsQueries(statuses[0].steps) + Total(statuses[1..])
  {
    TotalSplit(statuses, 1);
    assert statuses[..1][..0] == [];
  }

  /** Removing one element keeps the total of the rest. */
  lemma TotalWithout(statuses: seq<TargetStatus>, j: nat)
    requires j < |statuses|
    ensures Total(statuses) == Total(statuses[..j] + statuses[j + 1..]) + StepsQueries(statuses[j].steps)
  {
    TotalSplit(statuses, j);
    TotalFirst(statuses[j..]);
    assert statuses[j..][1..] == statuses[j + 1..];
    TotalAppend(statuses[..j], statuses[j + 1..]);
  }

  lemma {:induction false} TotalOfPermutation(a: seq<TargetStatus>, b: seq<TargetStatus>)
    requires multiset(a) == multiset(b)
    ensures Total(a) == Total(b)
    decreases |a|
  {
    if |a| > 0 {
      var n := |a| - 1;
      var x := a[n];
      assert x in multiset(b);
      var j :| 0 <= j < |b| && b[j] == x;
      var rest := b[..j] + b[j + 1..];
      assert b == b[..j] + [x] + b[j + 1..];
      assert a == a[..n] + [x];
      assert multiset(a) == multiset(a[..n]) + multiset{x};
      assert multiset(b) == multiset(b[..j]) + multiset{x} + multiset(b[j + 1..]);
      assert multiset(rest) == multiset(b[..j]) + multiset(b[j + 1..]);
      assert multiset(a[..n]) == multiset(a) - multiset{x};
      assert multiset(rest) == multiset(b) - multiset{x};
      TotalOfPermutation(a[..n], rest);
      TotalWithout(b, j);
    } else {
      assert |multiset(b)| == 0;
    }
  }

  /** The order in which target statuses arrive does not change the exit
      code, nor the count when no query failed. */
  lemma ArrivalOrderIrrelevant(a: seq<TargetStatus>, b: seq<TargetStatus>)
    requires multiset(a) == multiset(b)
    ensures Outcome(a).0 == Outcome(b).0
    ensures !HasQueryError(a) ==> Outcome(a) == Outcome(b)
  {
    assert HasInitError(a) <==> HasInitError(b) by {
      if HasInitError(a) {
        var i :| 0 <= i < |a| && a[i].errors.Some?;
        assert a[i] in multiset(b);
      }
      if HasInitError(b) {
        var i :| 0 <= i < |b| && b[i].errors.Some?;
        assert b[i] in multiset(a);
      }
    }
    assert HasQueryError(a) <==> HasQueryError(b) by {
      if HasQueryError(a) {
        var i :| 0 <= i < |a| && StepsErr(a[i].steps);
        assert a[i] in multiset(b);
      }
      if HasQueryError(b) {
        var i :| 0 <= i < |b| && StepsErr(b[i].steps);
        assert b[i] in multiset(a);
      }
    }
    TotalOfPermutation(a, b);
    ExitCodes(a);
    ExitCodes(b);
    if !HasQueryError(a) {
      NoQueryErrorCountsAll(a);
      NoQueryErrorCountsAll(b);
    }
  }

  // ---------------------------------------------------------------------------
  // review

  /** The success line, printed only at the highest verbosity. */
  function SuccessMessage(queryCount: nat, targetCount: nat, verbosity: int, maxVerbosity: int): string {
    if verbosity == maxVerbosity then
      "SUCCESS: " + DecimalString(queryCount) + " queries executed against " + DecimalString(targetCount) + " targets"
    else ""
  }

  const NoQueriesWarning := "WARNING: No queries to run\n"

  /** The failure report; `render` stands for executing the report template,
      whose own failure is reported only when verbosity is above 0. */
  function FailureMessage(statuses: seq<TargetStatus>, verbosity: int,
                          render: seq<TargetStatus> -> Result<string, string>): string
  {
    match render(statuses)
    case Ok(m) => m
    case Err(e) => if verbosity > 0 then "ERROR: executing failure message template itself failed: " + e else ""
  }

  /** The exit code and the closing message of a run. */
  function ReviewRun(statuses: seq<TargetStatus>, verbosity: int, maxVerbosity: int,
                     render: seq<TargetStatus> -> Result<string, string>): (int, string)
  {
    var (exitCode, queryCount) := Outcome(statuses);
    if exitCode == 0 then (exitCode, SuccessMessage(queryCount, |statuses|, verbosity, maxVerbosity))
    else if exitCode == 8 then (exitCode, NoQueriesWarning)
    else (exitCode, FailureMessage(statuses, verbosity, render))
  }

  /** Which message goes with which code: silence on success below the highest
      verbosity, the warning when nothing ran, the failure report otherwise. */
  lemma ReviewMessages(statuses: seq<TargetStatus>, verbosity: int, maxVerbosity: int,
                       render: seq<TargetStatus> -> Result<string, string>)
    ensures var (code, message) := ReviewRun(statuses, verbosity, maxVerbosity, render);
      && code == Outcome(statuses).0
      && (code == 0 && verbosity != maxVerbosity ==> message == "")
      && (code == 0 && verbosity == maxVerbosity ==>
            message == "SUCCESS: " + DecimalString(Total(statuses)) + " queries executed against "
                       + DecimalString(|statuses|) + " targets")
      && (code == 8 ==> message == NoQueriesWarning)
      && (code in {5, 6, 7} ==> message == FailureMessage(statuses, verbosity, render))
  {
    ExitCodes(statuses);
    if Outcome(statuses).0 == 0 {
      NoQueryErrorCountsAll(statuses);
    }
  }

  /** An empty run warns that there was nothing to do. */
  lemma ReviewNoStatuses(verbosity: int, maxVerbosity: int,
                         render: seq<TargetStatus> -> Result<string, string>)
    ensures ReviewRun([], verbosity, maxVerbosity, render) == (8, "WARNING: No queries to run\n")
  {
  }
}
