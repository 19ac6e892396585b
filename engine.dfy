/** The playbook execution engine: choosing the steps (or the single query) to
    run, loading their SQL, running them target by target with fail-fast steps,
    and collecting one status per target.  Each target and each query of a step
    runs concurrently in the program; here the fan-out is a loop and the fan-in
    takes the results in any order. */
module Engine {
  import opened Wrappers
  import opened GoStrings
  import opened Playbooks
  import opened QueryPrep

  const RedshiftType := "redshift"
  const MySqlType := "mysql"
  const PostgresType := "postgres"
  const PostgresqlType := "postgresql"
  const SnowflakeType := "snowflake"
  const BigQueryType := "bigquery"

  const ErrorUnsupportedDbType := "Database type is unsupported"
  const ErrorFromStepNotFound := "The fromStep argument did not match any available steps"
  const ErrorQueryFailedInit := "An error occurred loading the SQL file"
  const ErrorRunQueryNotFound := "The runQuery argument did not match any available queries"

  datatype ReadyQuery = ReadyQuery(script: string, name: string, path: string)

  datatype ReadyStep = ReadyStep(name: string, queries: seq<ReadyQuery>)

  datatype QueryStatus = QueryStatus(query: ReadyQuery, path: string, affected: int, error: Option<string>)

  datatype StepStatus = StepStatus(name: string, index: int, queries: seq<QueryStatus>)

  /** `errors` is None for a nil slice: only a nil slice means "no target error". */
  datatype TargetStatus = TargetStatus(name: string, errors: Option<seq<string>>, steps: seq<StepStatus>)

  // ---------------------------------------------------------------------------
  // One error status per target

  /** `r` holds, in target order, one status per target carrying the target's
      name, the single error `message` and no steps. */
  ghost predicate ReportsToEach(r: seq<TargetStatus>, targets: seq<Target>, message: string) {
    |r| == |targets| &&
    forall i :: 0 <= i < |targets| ==> r[i] == TargetStatus(targets[i].name, Some([message]), [])
  }

  function PerTargetError(targets: seq<Target>, message: string): (r: seq<TargetStatus>)
    ensures ReportsToEach(r, targets, message)
  {
    seq(|targets|, i requires 0 <= i < |targets| => TargetStatus(targets[i].name, Some([message]), []))
  }

  function FromStepMessage(fromStep: string): string {
    ErrorFromStepNotFound + ": " + fromStep
  }

  function RunQueryMessage(runQuery: string): string {
    ErrorRunQueryNotFound + ": '" + runQuery + "'"
  }

  /** The statuses reporting that `fromStep` names no step. */
  method FromStepNotFound(targets: seq<Target>, fromStep: string) returns (statuses: seq<TargetStatus>)
    ensures ReportsToEach(statuses, targets, FromStepMessage(fromStep))
  {
    statuses := [];
    for i := 0 to |targets|
      invariant ReportsToEach(statuses, targets[..i], FromStepMessage(fromStep))
    {
      statuses := statuses + [TargetStatus(targets[i].name, Some([FromStepMessage(fromStep)]), [])];
    }
  }

  /** The statuses reporting that the `-runQuery` argument names no query. */
  method RunQueryNotFound(targets: seq<Target>, runQuery: string) returns (statuses: seq<TargetStatus>)
    ensures ReportsToEach(statuses, targets, RunQueryMessage(runQuery))
  {
    statuses := [];
    for i := 0 to |targets|
      invariant ReportsToEach(statuses, targets[..i], RunQueryMessage(runQuery))
    {
      statuses := statuses + [TargetStatus(targets[i].name, Some([RunQueryMessage(runQuery)]), [])];
    }
  }

  // ---------------------------------------------------------------------------
  // trimSteps

  /** The index of the first step called `name`, searching from `k`. */
  function FirstStepNamed(steps: seq<Step>, name: string, k: nat := 0): (r: Option<nat>)
    requires k <= |steps|
    ensures r.Some? ==> k <= r.value < |steps| && steps[r.value].name == name
    ensures forall j :: k <= j < |steps| && (r.None? || j < r.value) ==> steps[j].name != name
    decreases |steps| - k
  {
    if k == |steps| then None
    else if steps[k].name == name then Some(k)
    else FirstStepNamed(steps, name, k + 1)
  }

  /** The steps left after `-fromStep`: all of them for an empty name, those from
      the first step with that name on, or one error per target when none has it. */
  function TrimmedSteps(steps: seq<Step>, fromStep: string, targets: seq<Target>)
    : Result<seq<Step>, seq<TargetStatus>>
  {
    if fromStep == "" then Ok(steps)
    else match FirstStepNamed(steps, fromStep)
      case Some(i) => Ok(steps[i..])
      case None => Err(PerTargetError(targets, FromStepMessage(fromStep)))
  }

  /** Drops the steps before the first one called `fromStep`. */
  method TrimSteps(steps: seq<Step>, fromStep: string, targets: seq<Target>)
    returns (r: Result<seq<Step>, seq<TargetStatus>>)
    ensures r == TrimmedSteps(steps, fromStep, targets)
  {
    var stepIndex := 0;
    if fromStep != "" {
      var found := false;
      for i := 0 to |steps|
        invariant !found
        invariant forall j :: 0 <= j < i ==> steps[j].name != fromStep
      {
        if steps[i].name == fromStep {
          found := true;
          stepIndex := i;
          assert FirstStepNamed(steps, fromStep) == Some(i) by {
            var f := FirstStepNamed(steps, fromStep);
            assert f.Some? && f.value <= i;
            assert !(f.value < i);
          }
          break;
        }
      }
      if !found {
        var statuses := FromStepNotFound(targets, fromStep);
        assert statuses == PerTargetError(targets, FromStepMessage(fromStep));
        return Err(statuses);
      }
    }
    return Ok(steps[stepIndex..]);
  }

  /** With a name, the kept steps start at the first step of that name; and a
      name that matches no step keeps nothing. */
  lemma TrimmedStepsSuffix(steps: seq<Step>, fromStep: string, targets: seq<Target>)
    ensures fromStep == "" ==> TrimmedSteps(steps, fromStep, targets) == Ok(steps)
    ensures TrimmedSteps(steps, fromStep, targets).Ok? ==>
      exists i :: 0 <= i <= |steps| && TrimmedSteps(steps, fromStep, targets).value == steps[i..] &&
        (fromStep != "" ==>
           (i < |steps| && steps[i].name == fromStep && forall j :: 0 <= j < i ==> steps[j].name != fromStep))
    ensures TrimmedSteps(steps, fromStep, targets).Err? <==>
      fromStep != "" && forall j :: 0 <= j < |steps| ==> steps[j].name != fromStep
  {
    if fromStep == "" {
      assert steps[0..] == steps;
    } else if FirstStepNamed(steps, fromStep).Some? {
      var i := FirstStepNamed(steps, fromStep).value;
      assert TrimmedSteps(steps, fromStep, targets).value == steps[i..];
    }
  }

  // ---------------------------------------------------------------------------
  // trimToQuery, as written

  /** What trimToQuery produces: the steps to run, error statuses, or a panic
      from indexing past the end of a slice. */
  datatype Selection = Selected(steps: seq<Step>) | Rejected(statuses: seq<TargetStatus>) | IndexOutOfRange

  /** The index of the first query called `name`. */
  function FirstQueryNamed(queries: seq<Query>, name: string, k: nat := 0): (r: Option<nat>)
    requires k <= |queries|
    ensures r.Some? ==> k <= r.value < |queries| && queries[r.value].name == name
    ensures forall j :: k <= j < |queries| && (r.None? || j < r.value) ==> queries[j].name != name
    decreases |queries| - k
  {
    if k == |queries| then None
    else if queries[k].name == name then Some(k)
    else FirstQueryNamed(queries, name, k + 1)
  }

  /** trimToQuery as written: the text before the first "::" selects the step,
      the text after it the query.  Without "::" the query name is read past
      the end of the parts (once there is a query to compare it with), and an
      empty step name keeps every step, so the first one is taken. */
  function QuerySelection(steps: seq<Step>, runQuery: string, targets: seq<Target>): Selection {
    var parts := Split(runQuery, "::");
    match TrimmedSteps(steps, parts[0], targets)
    case Err(statuses) => Rejected(statuses)
    case Ok(trimmed) =>
      if |trimmed| == 0 then IndexOutOfRange
      else
        var step := trimmed[0];
        if |step.queries| == 0 then Rejected(PerTargetError(targets, RunQueryMessage(runQuery)))
        else if |parts| < 2 then IndexOutOfRange
        else match FirstQueryNamed(step.queries, parts[1])
          case None => Rejected(PerTargetError(targets, RunQueryMessage(runQuery)))
          case Some(j) => Selected([step.(queries := [step.queries[j]])])
  }

  method TrimToQuery(steps: seq<Step>, runQuery: string, targets: seq<Target>) returns (r: Selection)
    ensures r == QuerySelection(steps, runQuery, targets)
  {
    var runQueryParts := Split(runQuery, "::");
    var trim := TrimSteps(steps, runQueryParts[0], targets);
    if trim.Err? {
      return Rejected(trim.error);
    }
    var trimmed := trim.value;
    if |trimmed| == 0 {
      return IndexOutOfRange;
    }
    var step := trimmed[0];
    var queries: seq<Query> := [];
    ghost var chosen: nat := 0;
    for k := 0 to |step.queries|
      invariant queries == []
      invariant k > 0 ==> |runQueryParts| >= 2 && forall j :: 0 <= j < k ==> step.queries[j].name != runQueryParts[1]
    {
      if |runQueryParts| < 2 {
        return IndexOutOfRange;
      }
      if step.queries[k].name == runQueryParts[1] {
        queries := queries + [step.queries[k]];
        chosen := k;
        assert FirstQueryNamed(step.queries, runQueryParts[1]) == Some(k) by {
          var f := FirstQueryNamed(step.queries, runQueryParts[1]);
          assert f.Some? && f.value <= k;
          assert !(f.value < k);
        }
        break;
      }
    }
    if |queries| == 0 {
      var statuses := RunQueryNotFound(targets, runQuery);
      assert statuses == PerTargetError(targets, RunQueryMessage(runQuery));
      return Rejected(statuses);
    }
    assert |runQueryParts| >= 2 && FirstQueryNamed(step.queries, runQueryParts[1]) == Some(chosen);
    assert queries == [step.queries[chosen]];
    step := step.(queries := queries);
    return Selected([step]);
  }

  /** A successful selection is one step: the first step with the given name,
      holding only the first query with the given name. */
  lemma SelectionIsFirstMatch(steps: seq<Step>, runQuery: string, targets: seq<Target>)
    requires QuerySelection(steps, runQuery, targets).Selected?
    ensures var parts := Split(runQuery, "::");
      var r := QuerySelection(steps, runQuery, targets).steps;
      |parts| >= 2 && |r| == 1 &&
      exists i, j :: 0 <= i < |steps| && 0 <= j < |steps[i].queries| &&
        (parts[0] != "" ==> steps[i].name == parts[0] && forall k :: 0 <= k < i ==> steps[k].name != parts[0]) &&
        (parts[0] == "" ==> i == 0) &&
        steps[i].queries[j].name == parts[1] &&
        (forall k :: 0 <= k < j ==> steps[i].queries[k].name != parts[1]) &&
        r[0] == Step(steps[i].name, [steps[i].queries[j]])
  {
    var parts := Split(runQuery, "::");
    TrimmedStepsSuffix(steps, parts[0], targets);
    var trimmed := TrimmedSteps(steps, parts[0], targets).value;
    var i := if parts[0] == "" then 0 else FirstStepNamed(steps, parts[0]).value;
    assert trimmed == steps[i..];
    var j := FirstQueryNamed(trimmed[0].queries, parts[1]).value;
    assert steps[i] == trimmed[0];
  }

  /** The playbook shape of the argument tests: one step "foo" holding one query "bar". */
  function FooBarSteps(): seq<Step> {
    [Step("foo", [Query("bar", "", false)])]
  }

  lemma SplitWithoutSeparator(s: string)
    requires forall i :: 0 <= i < |s| ==> s[i] != ':'
    ensures Split(s, "::") == [s]
  {
    forall i: nat ensures !OccursAt(s, "::", i) {
      if i + 2 <= |s| {
        assert s[i..i + 2][0] == s[i];
      }
    }
  }

  lemma SplitAtSeparator(a: string, b: string)
    requires forall i :: 0 <= i < |a| ==> a[i] != ':'
    requires forall i :: 0 <= i < |b| ==> b[i] != ':'
    ensures Split(a + "::" + b, "::") == [a, b]
  {
    var s := a + "::" + b;
    assert s[|a|..|a| + 2] == "::";
    assert s[..|a|] == a;
    assert s[|a| + 2..] == b;
    FirstSeparatorAt(s, |a|);
    SplitWithoutSeparator(b);
  }

  lemma FirstSeparatorAt(s: string, n: nat)
    requires n + 2 <= |s| && s[n..n + 2] == "::"
    requires forall i :: 0 <= i < n ==> s[i] != ':'
    ensures IndexOf(s, "::") == n
  {
    assert OccursAt(s, "::", n);
    forall i: nat | i < n ensures !OccursAt(s, "::", i) {
      assert s[i..i + 2][0] == s[i];
    }
  }

  /** "foo" names an existing step but has no "::": the query name is read
      past the end of the parts, which panics. */
  lemma MissingSeparatorPanics(targets: seq<Target>)
    ensures QuerySelection(FooBarSteps(), "foo", targets) == IndexOutOfRange
  {
    SplitWithoutSeparator("foo");
    assert FirstStepNamed(FooBarSteps(), "foo") == Some(0);
  }

  /** "::bar" has an empty step name, which keeps every step, so the first
      step's query "bar" is selected instead of the argument being refused. */
  lemma EmptyStepNameSelectsFirstStep(targets: seq<Target>)
    ensures QuerySelection(FooBarSteps(), "::bar", targets) == Selected([Step("foo", [Query("bar", "", false)])])
  {
    SplitAtSeparator("", "bar");
    assert "" + "::" + "bar" == "::bar";
    assert FooBarSteps()[0..] == FooBarSteps();
    assert FirstQueryNamed(FooBarSteps()[0].queries, "bar") == Some(0);
  }

  /** With no steps at all, an empty step name indexes the empty step list. */
  lemma EmptyArgumentWithoutStepsPanics(targets: seq<Target>)
    ensures QuerySelection([], "", targets) == IndexOutOfRange
  {
    SplitWithoutSeparator("");
  }

  // ---------------------------------------------------------------------------
  // trimToQuery, with the argument checked

  /** The step and query names of a well-formed `step::query` argument: both
      present and non-empty.  Text after a second "::" is ignored, as before. */
  function QueryArgument(runQuery: string): (r: Option<(string, string)>)
    ensures r.Some? <==>
      (|Split(runQuery, "::")| >= 2 && Split(runQuery, "::")[0] != "" && Split(runQuery, "::")[1] != "")
    ensures r.Some? ==> r.value == (Split(runQuery, "::")[0], Split(runQuery, "::")[1])
  {
    var parts := Split(runQuery, "::");
    if |parts| < 2 || parts[0] == "" || parts[1] == "" then None else Some((parts[0], parts[1]))
  }

  /** trimToQuery with a malformed argument refused up front with
      `argumentError` for every target. */
  function CheckedSelection(steps: seq<Step>, runQuery: string, targets: seq<Target>,
                            argumentError: string): Result<seq<Step>, seq<TargetStatus>>
  {
    match QueryArgument(runQuery)
    case None => Err(PerTargetError(targets, argumentError))
    case Some(_) =>
      match QuerySelection(steps, runQuery, targets)
      case Selected(s) => Ok(s)
      case Rejected(st) => Err(st)
      case IndexOutOfRange => Ok([])
  }

  /** A well-formed argument never reaches a panic, and then the checked
      version does exactly what the original does. */
  lemma CheckedAgreesOnWellFormed(steps: seq<Step>, runQuery: string, targets: seq<Target>,
                                  argumentError: string)
    requires QueryArgument(runQuery).Some?
    ensures QuerySelection(steps, runQuery, targets) != IndexOutOfRange
    ensures match QuerySelection(steps, runQuery, targets)
      case Selected(s) => CheckedSelection(steps, runQuery, targets, argumentError) == Ok(s)
      case Rejected(st) => CheckedSelection(steps, runQuery, targets, argumentError) == Err(st)
      case IndexOutOfRange => false
  {
    var parts := Split(runQuery, "::");
    TrimmedStepsSuffix(steps, parts[0], targets);
  }

  /** Arguments of the argument tests without "::" are refused with the
      argument error, for every target, and no step is kept. */
  lemma ArgumentsWithoutSeparatorRefused(steps: seq<Step>, targets: seq<Target>, argumentError: string)
    ensures CheckedSelection(steps, "foobar", targets, argumentError) == Err(PerTargetError(targets, argumentError))
    ensures CheckedSelection(steps, "foo", targets, argumentError) == Err(PerTargetError(targets, argumentError))
    ensures CheckedSelection(steps, "", targets, argumentError) == Err(PerTargetError(targets, argumentError))
  {
    assert QueryArgument("foobar").None? by { SplitWithoutSeparator("foobar"); }
    assert QueryArgument("foo").None? by { SplitWithoutSeparator("foo"); }
    assert QueryArgument("").None? by { SplitWithoutSeparator(""); }
  }

  /** "::bar" splits into an empty step name and "bar". */
  lemma EmptyStepNameMalformed()
    ensures QueryArgument("::bar").None?
  {
    SplitAtSeparator("", "bar");
    assert "" + "::" + "bar" == "::bar";
  }

  /** "foo::" splits into "foo" and an empty query name. */
  lemma EmptyQueryNameMalformed()
    ensures QueryArgument("foo::").None?
  {
    SplitAtSeparator("foo", "");
    assert "foo" + "::" + "" == "foo::";
  }

  /** Arguments of the argument tests with an empty step or query name are
      refused the same way. */
  lemma ArgumentsWithEmptyNameRefused(steps: seq<Step>, targets: seq<Target>, argumentError: string)
    ensures CheckedSelection(steps, "::bar", targets, argumentError) == Err(PerTargetError(targets, argumentError))
    ensures CheckedSelection(steps, "foo::", targets, argumentError) == Err(PerTargetError(targets, argumentError))
  {
    EmptyStepNameMalformed();
    EmptyQueryNameMalformed();
  }

  /** The checked selection as the program would run it. */
  method CheckedTrimToQuery(steps: seq<Step>, runQuery: string, targets: seq<Target>, argumentError: string)
    returns (r: Result<seq<Step>, seq<TargetStatus>>)
    ensures r == CheckedSelection(steps, runQuery, targets, argumentError)
  {
    var parts := Split(runQuery, "::");
    if |parts| < 2 || parts[0] == "" || parts[1] == "" {
      return Err(PerTargetError(targets, argumentError));
    }
    CheckedAgreesOnWellFormed(steps, runQuery, targets, argumentError);
    var selection := TrimToQuery(steps, runQuery, targets);
    match selection {
      case Selected(s) => r := Ok(s);
      case Rejected(st) => r := Err(st);
    }
  }

  // ---------------------------------------------------------------------------
  // loadSteps

  /** A query made ready: its prepared SQL, its name and its resolved path;
      on failure, the resolved path and the preparation error. */
  function ReadyQueryOf(q: Query, sp: SqlProvider, variables: map<string, Value>, engine: TemplateEngine)
    : Result<ReadyQuery, (string, string)>
  {
    var path := sp.resolveKey(q.file);
    match PrepareQuery(q.file, sp, q.template, variables, engine)
    case Ok(text) => Ok(ReadyQuery(text, q.name, path))
    case Err(e) => Err((path, e))
  }

  /** `done` followed by the outcome of the rest, or the rest's failure. */
  function Then<T>(done: seq<T>, rest: Result<seq<T>, (string, string)>): Result<seq<T>, (string, string)> {
    match rest
    case Ok(more) => Ok(done + more)
    case Err(e) => Err(e)
  }

  lemma ThenNothing<T>(rest: Result<seq<T>, (string, string)>)
    ensures Then([], rest) == rest
  {
    if rest.Ok? {
      assert [] + rest.value == rest.value;
    }
  }

  lemma ThenOneMore<T>(done: seq<T>, x: T, rest: Result<seq<T>, (string, string)>)
    ensures Then(done, Then([x], rest)) == Then(done + [x], rest)
  {
    if rest.Ok? {
      assert done + ([x] + rest.value) == (done + [x]) + rest.value;
    }
  }

  /** The queries made ready in order, stopping at the first that fails. */
  function LoadedQueries(queries: seq<Query>, sp: SqlProvider, variables: map<string, Value>,
                         engine: TemplateEngine): Result<seq<ReadyQuery>, (string, string)>
  {
    if |queries| == 0 then Ok([])
    else match ReadyQueryOf(queries[0], sp, variables, engine)
      case Err(e) => Err(e)
      case Ok(r) => Then([r], LoadedQueries(queries[1..], sp, variables, engine))
  }

  /** The steps made ready in order, stopping at the first query that fails. */
  function LoadedSteps(steps: seq<Step>, sp: SqlProvider, variables: map<string, Value>,
                       engine: TemplateEngine): Result<seq<ReadyStep>, (string, string)>
  {
    if |steps| == 0 then Ok([])
    else match LoadedQueries(steps[0].queries, sp, variables, engine)
      case Err(e) => Err(e)
      case Ok(qs) => Then([ReadyStep(steps[0].name, qs)], LoadedSteps(steps[1..], sp, variables, engine))
  }

  function LoadQueryFailed(targetName: string, queryPath: string, error: string): TargetStatus {
    TargetStatus(targetName, Some([ErrorQueryFailedInit + ": " + queryPath + ": " + error]), [])
  }

  /** The outcome of loadSteps: the ready steps, or one load failure per target. */
  function LoadOutcome(steps: seq<Step>, sp: SqlProvider, variables: map<string, Value>,
                       engine: TemplateEngine, targets: seq<Target>): Result<seq<ReadyStep>, seq<TargetStatus>>
  {
    match LoadedSteps(steps, sp, variables, engine)
    case Ok(ready) => Ok(ready)
    case Err((path, e)) =>
      Err(seq(|targets|, i requires 0 <= i < |targets| => LoadQueryFailed(targets[i].name, path, e)))
  }

  /** Every query prepares without error. */
  ghost predicate AllQueriesPrepare(queries: seq<Query>, sp: SqlProvider, variables: map<string, Value>,
                                    engine: TemplateEngine)
  {
    forall j :: 0 <= j < |queries| ==> PrepareQuery(queries[j].file, sp, queries[j].template, variables, engine).Ok?
  }

  /** Queries load iff every one prepares, and then each ready query carries
      the prepared SQL, the query's name and its resolved path, in order. */
  lemma {:induction false} LoadedQueriesShape(queries: seq<Query>, sp: SqlProvider,
      variables: map<string, Value>, engine: TemplateEngine)
    ensures LoadedQueries(queries, sp, variables, engine).Ok? <==> AllQueriesPrepare(queries, sp, variables, engine)
    ensures LoadedQueries(queries, sp, variables, engine).Ok? ==>
      var rs := LoadedQueries(queries, sp, variables, engine).value;
      |rs| == |queries| &&
      forall j :: 0 <= j < |queries| ==>
        rs[j] == ReadyQuery(PrepareQuery(queries[j].file, sp, queries[j].template, variables, engine).value,
                            queries[j].name, sp.resolveKey(queries[j].file))
    decreases |queries|
  {
    if |queries| > 0 {
      LoadedQueriesShape(queries[1..], sp, variables, engine);
      if AllQueriesPrepare(queries, sp, variables, engine) {
        assert AllQueriesPrepare(queries[1..], sp, variables, engine) by {
          forall j | 0 <= j < |queries| - 1
            ensures PrepareQuery(queries[1..][j].file, sp, queries[1..][j].template, variables, engine).Ok?
          {
            assert queries[1..][j] == queries[j + 1];
          }
        }
      } else {
        var j :| 0 <= j < |queries| && PrepareQuery(queries[j].file, sp, queries[j].template, variables, engine).Err?;
        if j > 0 {
          assert queries[1..][j - 1] == queries[j];
        }
      }
      if LoadedQueries(queries, sp, variables, engine).Ok? {
        forall j | 1 <= j < |queries| ensures PrepareQuery(queries[j].file, sp, queries[j].template, variables, engine).Ok? {
          assert queries[1..][j - 1] == queries[j];
        }
      }
    }
  }

  /** Steps load iff every query of every step prepares; then the ready steps
      keep the steps' names, in order, with their queries made ready. */
  lemma {:induction false} LoadedStepsShape(steps: seq<Step>, sp: SqlProvider,
      variables: map<string, Value>, engine: TemplateEngine)
    ensures LoadedSteps(steps, sp, variables, engine).Ok? <==>
      forall i :: 0 <= i < |steps| ==> AllQueriesPrepare(steps[i].queries, sp, variables, engine)
    ensures LoadedSteps(steps, sp, variables, engine).Ok? ==>
      var rs := LoadedSteps(steps, sp, variables, engine).value;
      |rs| == |steps| &&
      forall i :: 0 <= i < |steps| ==>
        rs[i].name == steps[i].name && Ok(rs[i].queries) == LoadedQueries(steps[i].queries, sp, variables, engine)
    decreases |steps|
  {
    if |steps| > 0 {
      LoadedStepsShape(steps[1..], sp, variables, engine);
      LoadedQueriesShape(steps[0].queries, sp, variables, engine);
      forall i | 1 <= i < |steps| ensures steps[1..][i - 1] == steps[i] { }
      if !LoadedSteps(steps, sp, variables, engine).Ok? && LoadedQueries(steps[0].queries, sp, variables, engine).Ok? {
        var i :| 0 <= i < |steps| - 1 && !AllQueriesPrepare(steps[1..][i].queries, sp, variables, engine);
        assert steps[1..][i] == steps[i + 1];
      }
    }
  }

  /** The ready queries of one step, filled into an array of their count. */
  method LoadQueries(queries: seq<Query>, sp: SqlProvider, variables: map<string, Value>, engine: TemplateEngine)
    returns (r: Result<seq<ReadyQuery>, (string, string)>)
    ensures r == LoadedQueries(queries, sp, variables, engine)
  {
    var readyQueries := new ReadyQuery[|queries|];
    ThenNothing(LoadedQueries(queries, sp, variables, engine));
    assert queries[0..] == queries;
    for j := 0 to |queries|
      invariant LoadedQueries(queries, sp, variables, engine)
        == Then(readyQueries[..j], LoadedQueries(queries[j..], sp, variables, engine))
    {
      var query := queries[j];
      var prepared := PrepareQuery(query.file, sp, query.template, variables, engine);
      var queryPath := sp.resolveKey(query.file);
      assert queries[j..][1..] == queries[j + 1..];
      if prepared.Err? {
        return Err((queryPath, prepared.error));
      }
      readyQueries[j] := ReadyQuery(prepared.value, query.name, queryPath);
      assert readyQueries[..j + 1] == readyQueries[..j] + [readyQueries[j]];
      ThenOneMore(readyQueries[..j], readyQueries[j], LoadedQueries(queries[j + 1..], sp, variables, engine));
    }
    assert queries[|queries|..] == [];
    assert readyQueries[..] == readyQueries[..|queries|];
    assert readyQueries[..] + [] == readyQueries[..];
    return Ok(readyQueries[..]);
  }

  /** Loads every query of every step ahead of time, failing at the first bad
      query with one load failure per target. */
  method LoadSteps(steps: seq<Step>, sp: SqlProvider, variables: map<string, Value>,
                   engine: TemplateEngine, targets: seq<Target>)
    returns (r: Result<seq<ReadyStep>, seq<TargetStatus>>)
    ensures r == LoadOutcome(steps, sp, variables, engine, targets)
  {
    var readySteps := new ReadyStep[|steps|];
    ThenNothing(LoadedSteps(steps, sp, variables, engine));
    assert steps[0..] == steps;
    for i := 0 to |steps|
      invariant LoadedSteps(steps, sp, variables, engine)
        == Then(readySteps[..i], LoadedSteps(steps[i..], sp, variables, engine))
    {
      var step := steps[i];
      var queries := LoadQueries(step.queries, sp, variables, engine);
      assert steps[i..][1..] == steps[i + 1..];
      if queries.Err? {
        var (queryPath, error) := queries.error;
        var allStatuses: seq<TargetStatus> := [];
        for t := 0 to |targets|
          invariant allStatuses == seq(t, k requires 0 <= k < t => LoadQueryFailed(targets[k].name, queryPath, error))
        {
          allStatuses := allStatuses + [LoadQueryFailed(targets[t].name, queryPath, error)];
        }
        return Err(allStatuses);
      }
      readySteps[i] := ReadyStep(step.name, queries.value);
      assert readySteps[..i + 1] == readySteps[..i] + [readySteps[i]];
      ThenOneMore(readySteps[..i], readySteps[i], LoadedSteps(steps[i + 1..], sp, variables, engine));
    }
    assert steps[|steps|..] == [];
    assert readySteps[..] == readySteps[..|steps|];
    assert readySteps[..] + [] == readySteps[..];
    return Ok(readySteps[..]);
  }

  // ---------------------------------------------------------------------------
  // Routing targets to database clients

  datatype Driver = MySqlDriver | PostgresDriver | SnowflakeDriver | BigQueryDriver

  /** The client for a target type, compared in lower case; Redshift and
      PostgreSQL share the Postgres client. */
  function DriverFor(targetType: string): Option<Driver> {
    var t := ToLower(targetType);
    if t == MySqlType then Some(MySqlDriver)
    else if t == RedshiftType || t == PostgresType || t == PostgresqlType then Some(PostgresDriver)
    else if t == SnowflakeType then Some(SnowflakeDriver)
    else if t == BigQueryType then Some(BigQueryDriver)
    else None
  }

  lemma LowerCharIdempotent(c: char)
    ensures LowerChar(LowerChar(c)) == LowerChar(c)
  {
  }

  /** The type is matched case-insensitively, every supported type has a
      client, and any other type has none. */
  lemma DriverForTypes(targetType: string)
    ensures DriverFor(ToLower(targetType)) == DriverFor(targetType)
    ensures DriverFor(targetType).None? <==>
      ToLower(targetType) !in [RedshiftType, MySqlType, PostgresType, PostgresqlType, SnowflakeType, BigQueryType]
    ensures DriverFor("MySQL") == Some(MySqlDriver) && DriverFor("Redshift") == Some(PostgresDriver)
    ensures DriverFor("bigquery") == Some(BigQueryDriver) && DriverFor("SNOWFLAKE") == Some(SnowflakeDriver)
    ensures DriverFor("B\U{0130}GQUERY") == Some(BigQueryDriver) && DriverFor("SNOWFLA\U{212A}E") == Some(SnowflakeDriver)
  {
    var t := ToLower(targetType);
    forall i | 0 <= i < |t| ensures ToLower(t)[i] == t[i] {
      LowerCharIdempotent(targetType[i]);
    }
    assert ToLower(t) == t;
    assert ToLower("MySQL") == "mysql";
    assert ToLower("Redshift") == "redshift";
    assert ToLower("bigquery") == "bigquery";
    assert ToLower("SNOWFLAKE") == "snowflake";
    assert ToLower("B\U{0130}GQUERY") == "bigquery";
    assert ToLower("SNOWFLA\U{212A}E") == "snowflake";
  }

  function UnsupportedDbType(targetName: string, targetType: string): TargetStatus {
    TargetStatus(targetName, Some([ErrorUnsupportedDbType + ": " + targetType]), [])
  }

  // ---------------------------------------------------------------------------
  // runQueries and runSteps

  /** A connected database client: its target, and the outcome of running a
      query with the dry-run and show-output flags. */
  datatype Db = Db(target: Target, runQuery: (ReadyQuery, bool, bool) -> QueryStatus)

  /** The statuses of the queries, in launch order. */
  function Expected(db: Db, queries: seq<ReadyQuery>, dryRun: bool, show: bool): (r: seq<QueryStatus>)
    ensures |r| == |queries|
  {
    seq(|queries|, i requires 0 <= i < |queries| => db.runQuery(queries[i], dryRun, show))
  }

  /** Runs the queries of one step concurrently: every query is launched, and
      every status is collected in whatever order it arrives. */
  method RunQueries(db: Db, stepIndex: int, stepName: string, queries: seq<ReadyQuery>, dryRun: bool, show: bool)
    returns (status: StepStatus)
    ensures status.name == stepName && status.index == stepIndex
    ensures multiset(status.queries) == multiset(Expected(db, queries, dryRun, show))
    ensures |status.queries| == |queries|
  {
    var channel: multiset<QueryStatus> := multiset{};
    for k := 0 to |queries|
      invariant channel == multiset(Expected(db, queries[..k], dryRun, show))
    {
      assert Expected(db, queries[..k + 1], dryRun, show)
        == Expected(db, queries[..k], dryRun, show) + [db.runQuery(queries[k], dryRun, show)];
      channel := channel + multiset{db.runQuery(queries[k], dryRun, show)};
    }
    assert queries[..|queries|] == queries;
    var allStatuses: seq<QueryStatus> := [];
    for i := 0 to |queries|
      invariant multiset(allStatuses) + channel == multiset(Expected(db, queries, dryRun, show))
      invariant |channel| == |queries| - i
    {
      var s :| s in channel;
      channel := channel - multiset{s};
      allStatuses := allStatuses + [s];
    }
    return StepStatus(stepName, stepIndex, allStatuses);
  }

  /** Some query of the step reported an error. */
  predicate Failed(s: StepStatus) {
    exists i :: 0 <= i < |s.queries| && s.queries[i].error.Some?
  }

  /** Whether a step failed does not depend on the order of its statuses. */
  lemma FailedByContents(a: StepStatus, b: StepStatus)
    requires multiset(a.queries) == multiset(b.queries)
    ensures Failed(a) <==> Failed(b)
  {
    if Failed(a) {
      var i :| 0 <= i < |a.queries| && a.queries[i].error.Some?;
      assert a.queries[i] in multiset(b.queries);
    }
    if Failed(b) {
      var i :| 0 <= i < |b.queries| && b.queries[i].error.Some?;
      assert b.queries[i] in multiset(a.queries);
    }
  }

  /** `s` is what running `step` as step number `index` can report. */
  ghost predicate IsStepOutcome(s: StepStatus, db: Db, step: ReadyStep, index: int, dryRun: bool, show: bool) {
    s.name == step.name && s.index == index &&
    multiset(s.queries) == multiset(Expected(db, step.queries, dryRun, show))
  }

  /** `executed` are the statuses of the steps run in order, numbered from 1,
      up to and including the first one that failed. */
  ghost predicate FailFastRun(executed: seq<StepStatus>, db: Db, steps: seq<ReadyStep>, dryRun: bool, show: bool) {
    |executed| <= |steps| &&
    (forall i :: 0 <= i < |executed| ==> IsStepOutcome(executed[i], db, steps[i], i + 1, dryRun, show)) &&
    (forall i :: 0 <= i < |executed| - 1 ==> !Failed(executed[i])) &&
    (|executed| < |steps| ==> |executed| > 0 && Failed(executed[|executed| - 1]))
  }

  /** The query outcomes of a step contain an error. */
  predicate StepErrs(db: Db, step: ReadyStep, dryRun: bool, show: bool) {
    exists j :: 0 <= j < |step.queries| && db.runQuery(step.queries[j], dryRun, show).error.Some?
  }

  /** How many steps run: up to and including the first step with an error. */
  function ExecutedCount(db: Db, steps: seq<ReadyStep>, dryRun: bool, show: bool, k: nat := 0): (n: nat)
    requires k <= |steps|
    ensures k <= n <= |steps|
    decreases |steps| - k
  {
    if k == |steps| then k
    else if StepErrs(db, steps[k], dryRun, show) then k + 1
    else ExecutedCount(db, steps, dryRun, show, k + 1)
  }

  lemma StepErrsIffFailed(s: StepStatus, db: Db, step: ReadyStep, index: int, dryRun: bool, show: bool)
    requires IsStepOutcome(s, db, step, index, dryRun, show)
    ensures Failed(s) <==> StepErrs(db, step, dryRun, show)
  {
    var e := StepStatus(step.name, index, Expected(db, step.queries, dryRun, show));
    FailedByContents(s, e);
    if StepErrs(db, step, dryRun, show) {
      var j :| 0 <= j < |step.queries| && db.runQuery(step.queries[j], dryRun, show).error.Some?;
      assert e.queries[j].error.Some?;
    }
  }

  /** However the statuses of each step arrive, a fail-fast run executes
      exactly the steps up to and including the first one with an error. */
  lemma {:induction false} FailFastRunLength(executed: seq<StepStatus>, db: Db, steps: seq<ReadyStep>,
                                             dryRun: bool, show: bool, k: nat)
    requires FailFastRun(executed, db, steps, dryRun, show)
    requires k <= |executed|
    requires k < |executed| || k == |steps| || (k > 0 && Failed(executed[k - 1]))
    ensures |executed| == ExecutedCount(db, steps, dryRun, show, k) || (k > 0 && |executed| == k)
    decreases |steps| - k
  {
    if k < |steps| && k < |executed| {
      StepErrsIffFailed(executed[k], db, steps[k], k + 1, dryRun, show);
      if Failed(executed[k]) {
        assert k == |executed| - 1;
      } else {
        FailFastRunLength(executed, db, steps, dryRun, show, k + 1);
      }
    }
  }

  lemma FailFastRunCount(executed: seq<StepStatus>, db: Db, steps: seq<ReadyStep>, dryRun: bool, show: bool)
    requires FailFastRun(executed, db, steps, dryRun, show)
    ensures |executed| == ExecutedCount(db, steps, dryRun, show)
  {
    if |executed| == 0 {
      assert |steps| == 0;
    } else {
      FailFastRunLength(executed, db, steps, dryRun, show, 0);
    }
  }

  /** The zero-valued step statuses the result slice is created with. */
  function ZeroSteps(n: nat): (r: seq<StepStatus>)
    ensures |r| == n && forall i :: 0 <= i < n ==> r[i] == StepStatus("", 0, [])
  {
    seq(n, _ => StepStatus("", 0, []))
  }

  /** The status of running the steps against one target: the slice starts
      with one zero status per step, followed by the statuses of the steps
      run in order until one fails. */
  ghost predicate RunStepsOutcome(status: TargetStatus, db: Db, steps: seq<ReadyStep>, dryRun: bool, show: bool) {
    status.name == db.target.name && status.errors == None &&
    |steps| <= |status.steps| && status.steps[..|steps|] == ZeroSteps(|steps|) &&
    FailFastRun(status.steps[|steps|..], db, steps, dryRun, show)
  }

  /** Runs the steps in order against one database, stopping after the first
      step in which a query fails. */
  method RunSteps(db: Db, steps: seq<ReadyStep>, dryRun: bool, show: bool) returns (status: TargetStatus)
    ensures RunStepsOutcome(status, db, steps, dryRun, show)
  {
    var allStatuses := ZeroSteps(|steps|);
    ghost var executed: seq<StepStatus> := [];
    label FailFast:
    for i := 0 to |steps|
      invariant allStatuses == ZeroSteps(|steps|) + executed
      invariant |executed| == i
      invariant forall j :: 0 <= j < i ==> IsStepOutcome(executed[j], db, steps[j], j + 1, dryRun, show)
      invariant forall j :: 0 <= j < i ==> !Failed(executed[j])
    {
      var stp := steps[i];
      var stepStatus := RunQueries(db, i + 1, stp.name, stp.queries, dryRun, show);
      allStatuses := allStatuses + [stepStatus];
      executed := executed + [stepStatus];
      for k := 0 to |stepStatus.queries|
        invariant forall j :: 0 <= j < k ==> stepStatus.queries[j].error.None?
      {
        if stepStatus.queries[k].error.Some? {
          assert Failed(stepStatus);
          break FailFast;
        }
      }
    }
    status := TargetStatus(db.target.name, None, allStatuses);
    assert status.steps[..|steps|] == ZeroSteps(|steps|);
    assert status.steps[|steps|..] == executed;
  }

  // ---------------------------------------------------------------------------
  // routeAndRun and Run

  /** Opens a client of the given kind for a target: the outcome of each query
      it will run. */
  type Connector = (Driver, Target) -> ((ReadyQuery, bool, bool) -> QueryStatus)

  /** What a target reports: an unsupported type is refused, any other target
      runs the steps fail-fast on its client. */
  ghost predicate TargetOutcome(s: TargetStatus, t: Target, ready: seq<ReadyStep>, connect: Connector,
                                dryRun: bool, show: bool)
  {
    match DriverFor(t.targetType)
    case None => s == UnsupportedDbType(t.name, t.targetType)
    case Some(d) => RunStepsOutcome(s, Db(t, connect(d, t)), ready, dryRun, show)
  }

  /** A target's status carries its name, and a target error exactly when its
      type has no client; then no step was run. */
  lemma TargetOutcomeErrors(s: TargetStatus, t: Target, ready: seq<ReadyStep>, connect: Connector,
                            dryRun: bool, show: bool)
    requires TargetOutcome(s, t, ready, connect, dryRun, show)
    ensures s.name == t.name
    ensures s.errors.Some? <==> DriverFor(t.targetType).None?
    ensures s.errors.Some? ==> s.steps == []
    ensures s.errors.None? ==> |ready| <= |s.steps| <= 2 * |ready|
    ensures s.errors.None? && |s.steps| < 2 * |ready| ==> Failed(s.steps[|s.steps| - 1])
  {
    if DriverFor(t.targetType).Some? {
      var executed := s.steps[|ready|..];
      assert |s.steps| == |ready| + |executed|;
      if |executed| < |ready| {
        assert s.steps[|s.steps| - 1] == executed[|executed| - 1];
      }
    }
  }

  /** Sends a target to the client for its type and runs the steps on it. */
  method RouteAndRun(target: Target, readySteps: seq<ReadyStep>, connect: Connector, dryRun: bool, show: bool)
    returns (status: TargetStatus)
    ensures TargetOutcome(status, target, readySteps, connect, dryRun, show)
  {
    match DriverFor(target.targetType) {
      case None =>
        status := UnsupportedDbType(target.name, target.targetType);
      case Some(d) =>
        status := RunSteps(Db(target, connect(d, target)), readySteps, dryRun, show);
    }
  }

  /** The steps to run: the single query named by `-runQuery` when it is
      given, and otherwise the steps from `-fromStep` on. */
  function ChosenSteps(steps: seq<Step>, fromStep: string, runQuery: string, targets: seq<Target>,
                       argumentError: string): Result<seq<Step>, seq<TargetStatus>>
  {
    if runQuery != "" then CheckedSelection(steps, runQuery, targets, argumentError)
    else TrimmedSteps(steps, fromStep, targets)
  }

  /** Runs a playbook: chooses and loads the steps, then runs them on every
      target concurrently and collects one status per target in whatever
      order they finish.  With `fillTemplates` the filled queries are only
      logged and nothing is run.  `launched` are the statuses in target order. */
  method Run(pb: Playbook, sp: SqlProvider, fromStep: string, runQuery: string, dryRun: bool,
             fillTemplates: bool, show: bool, engine: TemplateEngine, connect: Connector, argumentError: string)
    returns (statuses: seq<TargetStatus>, ghost launched: seq<TargetStatus>)
    ensures match ChosenSteps(pb.steps, fromStep, runQuery, pb.targets, argumentError)
      case Err(rejected) => statuses == rejected
      case Ok(steps) =>
        match LoadOutcome(steps, sp, pb.variables.entries, engine, pb.targets)
        case Err(failed) => statuses == failed
        case Ok(ready) =>
          if fillTemplates then statuses == []
          else
            && |launched| == |pb.targets|
            && multiset(statuses) == multiset(launched)
            && forall i :: 0 <= i < |pb.targets| ==>
                 TargetOutcome(launched[i], pb.targets[i], ready, connect, dryRun, show)
  {
    launched := [];
    var chosen;
    if runQuery != "" {
      chosen := CheckedTrimToQuery(pb.steps, runQuery, pb.targets, argumentError);
    } else {
      chosen := TrimSteps(pb.steps, fromStep, pb.targets);
    }
    if chosen.Err? {
      return chosen.error, launched;
    }
    var loaded := LoadSteps(chosen.value, sp, pb.variables.entries, engine, pb.targets);
    if loaded.Err? {
      return loaded.error, launched;
    }
    if fillTemplates {
      return [], launched;
    }
    var readySteps := loaded.value;
    var targetChannel: multiset<TargetStatus> := multiset{};
    for i := 0 to |pb.targets|
      invariant targetChannel == multiset(launched) && |launched| == i
      invariant forall j :: 0 <= j < i ==> TargetOutcome(launched[j], pb.targets[j], readySteps, connect, dryRun, show)
    {
      var status := RouteAndRun(pb.targets[i], readySteps, connect, dryRun, show);
      targetChannel := targetChannel + multiset{status};
      launched := launched + [status];
    }
    statuses := [];
    for i := 0 to |pb.targets|
      invariant multiset(statuses) + targetChannel == multiset(launched)
      invariant |targetChannel| == |pb.targets| - i
    {
      var status :| status in targetChannel;
      targetChannel := targetChannel - multiset{status};
      statuses := statuses + [status];
    }
  }
}
