/** The older engine: runs the steps from `-fromStep` on every Postgres-like
    target, failing fast per target.  Queries are read and run by the client
    itself, given the joined path of their file. */
module LegacyRun {
  import opened Wrappers
  import opened GoStrings
  import opened Playbooks
  import LegacyPlaybook
  import Engine

  const RedshiftType := "redshift"
  const PostgresType := "postgres"
  const PostgresqlType := "postgresql"

  const ErrorUnsupportedDbType := "Database type is unsupported"
  const ErrorFromStepNotFound := "The fromStep argument did not match any available steps"

  datatype QueryStatus = QueryStatus(query: Query, path: string, affected: int, error: Option<string>)

  datatype StepStatus = StepStatus(name: string, index: int, queries: seq<QueryStatus>)

  /** `errors` is None for Go's nil slice. */
  datatype TargetStatus = TargetStatus(name: string, errors: Option<seq<string>>, steps: seq<StepStatus>)

  function FromStepNotFound(targetName: string, fromStep: string): TargetStatus {
    TargetStatus(targetName, Some([ErrorFromStepNotFound + ": " + fromStep]), [])
  }

  function UnsupportedDbType(targetName: string, targetType: string): TargetStatus {
    TargetStatus(targetName, Some([ErrorUnsupportedDbType + ": " + targetType]), [])
  }

  // ---------------------------------------------------------------------------
  // The inline fromStep search

  /** Where the run starts: step 0 without `-fromStep`, the first step of
      that name with it, and nowhere when no step has the name. */
  function StartIndex(steps: seq<Step>, fromStep: string): Option<nat> {
    if fromStep == "" then Some(0) else Engine.FirstStepNamed(steps, fromStep)
  }

  /** The older search picks the same steps as the newer `trimSteps`, and
      fails exactly when the newer one does. */
  lemma {:induction false} StartIndexAgreesWithTrimSteps(steps: seq<Step>, fromStep: string,
                                                         targets: seq<Target>)
    ensures StartIndex(steps, fromStep).None? <==> Engine.TrimmedSteps(steps, fromStep, targets).Err?
    ensures StartIndex(steps, fromStep).Some? ==>
      StartIndex(steps, fromStep).value <= |steps| &&
      Engine.TrimmedSteps(steps, fromStep, targets) == Ok(steps[StartIndex(steps, fromStep).value..])
  {
    if fromStep == "" {
      assert steps[0..] == steps;
    }
  }

  // ---------------------------------------------------------------------------
  // routeAndRun

  /** Only Redshift and PostgreSQL targets are run, whatever the case of
      their type. */
  predicate Supported(targetType: string) {
    var t := ToLower(targetType);
    t == RedshiftType || t == PostgresType || t == PostgresqlType
  }

  /** Matching ignores case: a type is supported exactly when the newer
      engine would send it to its Postgres client. */
  lemma SupportedTypes(targetType: string)
    ensures Supported(targetType) <==> Engine.DriverFor(targetType) == Some(Engine.PostgresDriver)
    ensures Supported("Redshift") && Supported("POSTGRESQL") && !Supported("mysql")
    ensures Supported("REDSH\U{0130}FT")
  {
    assert ToLower("Redshift") == "redshift";
    assert ToLower("POSTGRESQL") == "postgresql";
    assert ToLower("mysql") == "mysql";
    assert ToLower("REDSH\U{0130}FT") == "redshift";
  }

  // ---------------------------------------------------------------------------
  // runQueries and runSteps

  /** A Postgres client for one target: the status of a query, given the
      path of its file and the playbook variables. */
  datatype Db = Db(target: LegacyPlaybook.Target,
                   runQuery: (Query, string, map<string, Value>) -> QueryStatus)

  /** The statuses of the queries in launch order; every query file is
      joined onto the SQL root by `pathJoin`. */
  function Expected(db: Db, sqlroot: string, queries: seq<Query>, variables: map<string, Value>,
                    pathJoin: (string, string) -> string): (r: seq<QueryStatus>)
    ensures |r| == |queries|
  {
    seq(|queries|, i requires 0 <= i < |queries| => db.runQuery(queries[i], pathJoin(sqlroot, queries[i].file), variables))
  }

  /** Runs the queries of one step concurrently and collects every status in
      whatever order it arrives. */
  method RunQueries(db: Db, sqlroot: string, stepIndex: int, stepName: string, queries: seq<Query>,
                    variables: map<string, Value>, pathJoin: (string, string) -> string)
    returns (status: StepStatus)
    ensures status.name == stepName && status.index == stepIndex
    ensures multiset(status.queries) == multiset(Expected(db, sqlroot, queries, variables, pathJoin))
    ensures |status.queries| == |queries|
  {
    var queryChannel: multiset<QueryStatus> := multiset{};
    for k := 0 to |queries|
      invariant queryChannel == multiset(Expected(db, sqlroot, queries[..k], variables, pathJoin))
    {
      var queryPath := pathJoin(sqlroot, queries[k].file);
      assert Expected(db, sqlroot, queries[..k + 1], variables, pathJoin)
        == Expected(db, sqlroot, queries[..k], variables, pathJoin) + [db.runQuery(queries[k], queryPath, variables)];
      queryChannel := queryChannel + multiset{db.runQuery(queries[k], queryPath, variables)};
    }
    assert queries[..|queries|] == queries;
    var allStatuses: seq<QueryStatus> := [];
    for i := 0 to |queries|
      invariant multiset(allStatuses) + queryChannel == multiset(Expected(db, sqlroot, queries, variables, pathJoin))
      invariant |queryChannel| == |queries| - i
    {
      var s :| s in queryChannel;
      queryChannel := queryChannel - multiset{s};
      allStatuses := allStatuses + [s];
    }
    return StepStatus(stepName, stepIndex, allStatuses);
  }

  predicate Failed(s: StepStatus) {
    exists i :: 0 <= i < |s.queries| && s.queries[i].error.Some?
  }

  /** The status of step `index`: its name and index, and its queries'
      statuses in some order. */
  ghost predicate IsStepOutcome(s: StepStatus, db: Db, sqlroot: string, step: Step, index: int,
                                variables: map<string, Value>, pathJoin: (string, string) -> string)
  {
    && s.name == step.name && s.index == index
    && multiset(s.queries) == multiset(Expected(db, sqlroot, step.queries, variables, pathJoin))
  }

  /** `executed` are the statuses of the steps run in order, numbered from 1,
      up to and including the first one that failed. */
  ghost predicate FailFastRun(executed: seq<StepStatus>, db: Db, sqlroot: string, steps: seq<Step>,
                              variables: map<string, Value>, pathJoin: (string, string) -> string)
  {
    && |executed| <= |steps|
    && (forall i :: 0 <= i < |executed| ==> IsStepOutcome(executed[i], db, sqlroot, steps[i], i + 1, variables, pathJoin))
    && (forall i :: 0 <= i < |executed| - 1 ==> !Failed(executed[i]))
    && (|executed| < |steps| ==> |executed| > 0 && Failed(executed[|executed| - 1]))
  }

  /** The zero-valued step statuses the result slice is created with. */
  function ZeroSteps(n: nat): (r: seq<StepStatus>)
    ensures |r| == n && forall i :: 0 <= i < n ==> r[i] == StepStatus("", 0, [])
  {
    seq(n, _ => StepStatus("", 0, []))
  }

  /** As in the newer engine: one zero status per step, then the steps run. */
  ghost predicate RunStepsOutcome(status: TargetStatus, db: Db, sqlroot: string, steps: seq<Step>,
                                  variables: map<string, Value>, pathJoin: (string, string) -> string)
  {
    && status.name == db.target.name && status.errors == None
    && |steps| <= |status.steps| && status.steps[..|steps|] == ZeroSteps(|steps|)
    && FailFastRun(status.steps[|steps|..], db, sqlroot, steps, variables, pathJoin)
  }

  /** Runs the steps in order against one database, stopping after the first
      step in which a query fails. */
  method RunSteps(db: Db, sqlroot: string, steps: seq<Step>, variables: map<string, Value>,
                  pathJoin: (string, string) -> string)
    returns (status: TargetStatus)
    ensures RunStepsOutcome(status, db, sqlroot, steps, variables, pathJoin)
  {
    var allStatuses := ZeroSteps(|steps|);
    ghost var executed: seq<StepStatus> := [];
    label FailFast:
    for i := 0 to |steps|
      invariant allStatuses == ZeroSteps(|steps|) + executed
      invariant |executed| == i
      invariant forall j :: 0 <= j < i ==> IsStepOutcome(executed[j], db, sqlroot, steps[j], j + 1, variables, pathJoin)
      invariant forall j :: 0 <= j < i ==> !Failed(executed[j])
    {
      var stp := steps[i];
      var stepStatus := RunQueries(db, sqlroot, i + 1, stp.name, stp.queries, variables, pathJoin);
      allStatuses := allStatuses + [stepStatus];
      executed := executed + [stepStatus];
      for k := 0 to |stepStatus.queries|
        invariant forall j :: 0 <= j < k ==> stepStatus.queries[j].error.None?
      {
        if stepStatus.queries[k].error.Some? {
          assert Failed(stepStatus);
          break FailFast;
        }
      }
    }
    status := TargetStatus(db.target.name, None, allStatuses);
    assert status.steps[..|steps|] == ZeroSteps(|steps|);
    assert status.steps[|steps|..] == executed;
  }

  /** The zero prefix doubles the reported steps at most: a target whose run
      reports fewer than twice its steps stopped on a failed step. */
  lemma RunStepsLength(status: TargetStatus, db: Db, sqlroot: string, steps: seq<Step>,
                       variables: map<string, Value>, pathJoin: (string, string) -> string)
    requires RunStepsOutcome(status, db, sqlroot, steps, variables, pathJoin)
    ensures |steps| <= |status.steps| <= 2 * |steps|
    ensures |status.steps| < 2 * |steps| ==> Failed(status.steps[|status.steps| - 1])
  {
    var executed := status.steps[|steps|..];
    assert |status.steps| == |steps| + |executed|;
    if |executed| < |steps| {
      assert status.steps[|status.steps| - 1] == executed[|executed| - 1];
    }
  }

  // ---------------------------------------------------------------------------
  // routeAndRun and Run

  /** Opens a Postgres client for a target. */
  type Connector = LegacyPlaybook.Target -> ((Query, string, map<string, Value>) -> QueryStatus)

  /** What a target reports: an unsupported type is refused, any other target
      runs the steps fail-fast on its client. */
  ghost predicate TargetOutcome(s: TargetStatus, t: LegacyPlaybook.Target, sqlroot: string, steps: seq<Step>,
                                variables: map<string, Value>, connect: Connector,
                                pathJoin: (string, string) -> string)
  {
    if Supported(t.targetType) then RunStepsOutcome(s, Db(t, connect(t)), sqlroot, steps, variables, pathJoin)
    else s == UnsupportedDbType(t.name, t.targetType)
  }

  /** Sends a target to the Postgres client, or refuses its type. */
  method RouteAndRun(target: LegacyPlaybook.Target, sqlroot: string, steps: seq<Step>,
                     variables: map<string, Value>, connect: Connector, pathJoin: (string, string) -> string)
    returns (status: TargetStatus)
    ensures TargetOutcome(status, target, sqlroot, steps, variables, connect, pathJoin)
    ensures status.name == target.name
    ensures status.errors.Some? <==> !Supported(target.targetType)
  {
    if Supported(target.targetType) {
      status := RunSteps(Db(target, connect(target)), sqlroot, steps, variables, pathJoin);
    } else {
      status := UnsupportedDbType(target.name, target.targetType);
    }
  }

  /** Runs a playbook: an unknown `-fromStep` gives one error per target and
      runs nothing; otherwise every target runs the steps from the chosen one
      on, and exactly one status per target is collected, in arrival order.
      `launched` are the statuses in target order. */
  method Run(pb: LegacyPlaybook.Playbook, sqlroot: string, fromStep: string, connect: Connector,
             pathJoin: (string, string) -> string)
    returns (statuses: seq<TargetStatus>, ghost launched: seq<TargetStatus>)
    ensures match StartIndex(pb.steps, fromStep)
      case None =>
        && |statuses| == |pb.targets|
        && forall i :: 0 <= i < |pb.targets| ==> statuses[i] == FromStepNotFound(pb.targets[i].name, fromStep)
      case Some(k) =>
        && k <= |pb.steps|
        && |launched| == |pb.targets| && multiset(statuses) == multiset(launched)
        && forall i :: 0 <= i < |pb.targets| ==>
             TargetOutcome(launched[i], pb.targets[i], sqlroot, pb.steps[k..], pb.variables.entries, connect, pathJoin)
  {
    launched := [];
    var stepIndex := 0;
    if fromStep != "" {
      var found := false;
      for i := 0 to |pb.steps|
        invariant !found
        invariant forall j :: 0 <= j < i ==> pb.steps[j].name != fromStep
      {
        if pb.steps[i].name == fromStep {
          found := true;
          stepIndex := i;
          assert Engine.FirstStepNamed(pb.steps, fromStep) == Some(i) by {
            FirstStepNamedAt(pb.steps, fromStep, i);
          }
          break;
        }
      }
      if !found {
        assert Engine.FirstStepNamed(pb.steps, fromStep) == None;
        statuses := [];
        for t := 0 to |pb.targets|
          invariant |statuses| == t
          invariant forall j :: 0 <= j < t ==> statuses[j] == FromStepNotFound(pb.targets[j].name, fromStep)
        {
          statuses := statuses + [FromStepNotFound(pb.targets[t].name, fromStep)];
        }
        return statuses, launched;
      }
    }
    var steps := pb.steps[stepIndex..];
    var variables := pb.variables.entries;
    var targetChannel: multiset<TargetStatus> := multiset{};
    for i := 0 to |pb.targets|
      invariant targetChannel == multiset(launched) && |launched| == i
      invariant forall j :: 0 <= j < i ==>
        TargetOutcome(launched[j], pb.targets[j], sqlroot, steps, variables, connect, pathJoin)
    {
      var status := RouteAndRun(pb.targets[i], sqlroot, steps, variables, connect, pathJoin);
      targetChannel := targetChannel + multiset{status};
      launched := launched + [status];
    }
    statuses := [];
    for i := 0 to |pb.targets|
      invariant multiset(statuses) + targetChannel == multiset(launched)
      invariant |targetChannel| == |pb.targets| - i
    {
      var status :| status in targetChannel;
      targetChannel := targetChannel - multiset{status};
      statuses := statuses + [status];
    }
  }

  /** The first step of a name found by a forward scan is the one
      `FirstStepNamed` gives. */
  lemma {:induction false} FirstStepNamedAt(steps: seq<Step>, name: string, i: nat, k: nat := 0)
    requires k <= i < |steps| && steps[i].name == name
    requires forall j :: k <= j < i ==> steps[j].name != name
    ensures Engine.FirstStepNamed(steps, name, k) == Some(i)
    decreases i - k
  {
    if k < i {
      FirstStepNamedAt(steps, name, i, k + 1);
    }
  }
}
