# sql-runner, modelled in Dafny

This is a model of the playbook execution engine of sql-runner, the tool that
runs SQL playbooks against Redshift, PostgreSQL, MySQL, Snowflake and BigQuery.
A playbook lists targets (databases) and steps. Each step holds queries (SQL
files, optionally templated).

The model covers:

- choosing the steps to run: `-fromStep` or a single `-runQuery step::query`;
- loading every query up front through an SQL provider and a template engine;
- running the steps against each target in order. A target stops after the
  first step in which a query failed, but every query inside a step still
  runs;
- deriving the process exit code (0, 5, 6, 7 or 8) and the closing message;
- smaller pieces:
  - the MySQL multi-statement splitter and its `DELIMITER` blocks;
  - the Ruby-YAML leading-colon cleaner;
  - `-var key=value` parsing and the merge of those variables into the
    playbook's shared variable map;
  - the `-sqlroot` decision table;
  - the lock-flag precedence and the lock file state machine;
  - the unlock rule;
  - the `Results` accumulator the PostgreSQL driver scans rows into;
  - the MySQL target's row counting;
- the older engine in `run/`, `playbook/` and the root `options.go`, as
  separate, smaller variants.

## How the model is laid out

- One module per Go source file.
- `GoStrings` gives the behaviour of the Go `strings` functions the code
  relies on: `Index`, `Split`, `SplitAfter`, `SplitN(…, 2)`, `Join`, `Trim`,
  and `ToLower`. `Wrappers` gives `Option` and `Result`.
- Strings are sequences of characters, not of UTF-8 bytes.
- Go errors are their message strings. The nil/non-nil distinction matters for
  a target's `Errors` slice, because `review` tests it against nil. That slice
  is therefore an `Option<seq<string>>`, and an empty non-nil slice is
  `Some([])`.
- Every goroutine fan-out and channel fan-in is a sequential launch loop
  followed by a collection loop. The collection loop takes the statuses out of
  a multiset in any order, so each postcondition states a permutation.
- Maps the code mutates in place are classes:
  - the playbook's `Variables`, which every copy of a `Playbook` value shares;
  - the `-var` map;
  - `LockFile` and its key store;
  - the scanner's `Results`.
- Databases, the SQL provider, the template engine, Consul, the file system
  and the clock are parameters:
  - `Db.runQuery`, the MySQL `Client` and the `Connector` for drivers;
  - `SqlProvider` and `TemplateEngine`;
  - a `KeyStore` of present keys for Consul and the file system;
  - a `now` string for the clock.
- The count of successful queries follows the code: a query error resets the
  count to 0 and skips the rest of that target's steps. The result is the
  number of queries reported after the last error.

## Model

| member | source | states |
|---|---|---|
| QueryPrep.FillTemplate | sql_runner/db.go:72-84 | fails exactly when the parse or the execution fails, with that error; otherwise gives the executed text |
| QueryPrep.PrepareQueryOutcomes | sql_runner/db.go:51-69 | a fetch error is returned as is; a plain query is the fetched text unchanged; a template query is the filled text; success iff the fetch and (for templates) the parse and execution succeed |
| Engine.PerTargetError | sql_runner/run.go:160-172 | one status per target in target order, each with the target's name, exactly one error with the message and no steps |
| Engine.FromStepNotFound | sql_runner/run.go:194-206 | one "fromStep not found" status per target, in target order, with no steps |
| Engine.RunQueryNotFound | sql_runner/run.go:160-172 | one "runQuery not found" status per target, in target order, with no steps |
| Engine.FirstStepNamed | sql_runner/run.go:179-185 | the index found holds the name and no earlier index does; None means no step has it |
| Engine.TrimSteps | sql_runner/run.go:175-191 | the loop computes `TrimmedSteps`: all steps for an empty name, the suffix from the first match, or per-target errors |
| Engine.TrimmedStepsSuffix | sql_runner/run.go:175-191 | empty `fromStep` keeps the steps unchanged; a success is `steps[i..]` for the first index `i` with that name; an error iff a name is given that no step has |
| Engine.FirstQueryNamed | sql_runner/run.go:144-149 | the index found holds the query name and no earlier index does |
| Engine.TrimToQuery | sql_runner/run.go:134-157 | the loop as written computes `QuerySelection`, panic outcome included |
| Engine.SelectionIsFirstMatch | sql_runner/run.go:134-157 | a selection is exactly one step, the first with the step name, holding only the first query with the query name, with its other fields kept |
| Engine.MissingSeparatorPanics | sql_runner/run.go:135-145 | "foo" with a step "foo" indexes past the split parts: the as-written code panics |
| Engine.EmptyStepNameSelectsFirstStep | sql_runner/run.go:135-141 | "::bar" selects query "bar" of the first step instead of being refused |
| Engine.EmptyArgumentWithoutStepsPanics | sql_runner/run.go:135-141 | an empty argument on a playbook with no steps indexes an empty step list |
| Engine.QueryArgument | sql_runner/run_test.go:102-131 | an argument is well formed iff it has a "::" and non-empty step and query parts, and then yields those two parts |
| Engine.CheckedAgreesOnWellFormed | sql_runner/run.go:134-157 | on a well-formed argument the as-written selection never panics and the checked selection gives the same steps or errors |
| Engine.ArgumentsWithoutSeparatorRefused | sql_runner/run_test.go:102-131 | "foobar", "foo" and "" get the argument-format error for every target |
| Engine.EmptyStepNameMalformed | sql_runner/run_test.go:114-119 | "::bar" is not a well-formed argument |
| Engine.EmptyQueryNameMalformed | sql_runner/run_test.go:120-125 | "foo::" is not a well-formed argument |
| Engine.ArgumentsWithEmptyNameRefused | sql_runner/run_test.go:114-125 | "::bar" and "foo::" get the argument-format error for every target |
| Engine.CheckedTrimToQuery | sql_runner/run.go:134-157 | the run-query selection with malformed arguments refused, as `CheckedSelection` |
| Engine.LoadedQueriesShape | sql_runner/run.go:219-233 | loading succeeds iff every query prepares; the ready queries then keep count and order, each with the query's name, its resolved path and its prepared text |
| Engine.LoadedStepsShape | sql_runner/run.go:210-238 | loading succeeds iff every query of every step prepares; the ready steps then keep count, order and names |
| Engine.LoadQueries | sql_runner/run.go:216-234 | filling the ready-query array by index gives `LoadedQueries`, stopping at the first failure |
| Engine.LoadSteps | sql_runner/run.go:210-238 | filling the ready-step array gives the loaded steps, or one `loadQueryFailed` status per target for the first failing query |
| Engine.DriverForTypes | sql_runner/run.go:254-279 | the target type is matched after Go's lower-casing, including U+0130 and the Kelvin sign; no client iff the type is none of the six supported ones |
| Engine.RunQueries | sql_runner/run.go:324-360 | the step status has the step's name and index and exactly one status per query, a permutation of the launched queries' outcomes |
| Engine.FailedByContents | sql_runner/run.go:305-311 | whether a step failed depends only on the multiset of its query statuses, not their arrival order |
| Engine.StepErrsIffFailed | sql_runner/run.go:305-311 | a step status reports a failure iff one of the step's queries errs |
| Engine.ExecutedCount | sql_runner/run.go:296-317 | the number of steps run lies between the start and the number of steps |
| Engine.FailFastRunLength | sql_runner/run.go:300-313 | a fail-fast run executes exactly the steps up to and including the first one with an error |
| Engine.FailFastRunCount | sql_runner/run.go:296-317 | the executed step statuses number `ExecutedCount` |
| Engine.ZeroSteps | sql_runner/run.go:298 | the slice starts with `len(steps)` zero-valued step statuses |
| Engine.RunSteps | sql_runner/run.go:296-317 | the target's name, no target error, the zero prefix, then the steps run in order with index i+1, stopping after the first failed step |
| Engine.TargetOutcomeErrors | sql_runner/run.go:254-289 | a target status carries the target's name; a target error iff the type is unsupported, and then no steps; otherwise between n and 2n steps, and fewer than 2n only when the last one failed |
| Engine.RouteAndRun | sql_runner/run.go:254-279 | an unsupported type gives `unsupportedDbType`; any other type runs the steps fail-fast on its client |
| Engine.Run | sql_runner/run.go:76-129 | the steps come from the corrected run-query selection `ChosenSteps` or from `trimSteps`; selection errors and load errors are returned as they are; filling templates returns nothing; otherwise exactly one status per target, a permutation of the per-target outcomes |
| Review.GetExitCodeAndQueryCount | sql_runner/review.go:79-116 | the loop with its labelled break computes `Outcome`: the precedence 7, 5, 6, 8, 0 and the count after the last error |
| Review.NoQueryErrorCountsAll | sql_runner/review.go:85-100 | without query errors the count is the number of all query statuses |
| Review.CountedIsTotalAfterLastError | sql_runner/review.go:89-96 | the count is the number of query statuses of the targets after the last target with a query error |
| Review.ExitCodes | sql_runner/review.go:102-115 | the code is one of 0, 5, 6, 7, 8, and each code holds iff its condition over the statuses holds |
| Review.NoStatuses | sql_runner/review.go:79-116 | no statuses give code 8 and count 0 |
| Review.RejectedRunExitCode | sql_runner/review.go:85-88 | a selection or load error reported per target gives code 5 and count 0 |
| Review.EmptyErrorSliceCounts | sql_runner/review.go:86-88 | an empty but non-nil error slice is still a target error |
| Review.ZeroPrefixIgnored | sql_runner/review.go:90-98 | the zero-valued steps in front add no query and no error |
| Review.TotalOfPermutation | sql_runner/review.go:90-98 | the number of query statuses does not depend on the order of the targets |
| Review.ArrivalOrderIrrelevant | sql_runner/review.go:85-100 | the exit code does not depend on the order the target statuses arrive in, and without query errors neither does the count |
| Review.ReviewMessages | sql_runner/review.go:36-56 | code 0 gives the success message (empty below the highest verbosity), 8 the no-queries warning, any other code the failure report |
| Review.ReviewNoStatuses | sql_runner/review.go:41-44 | an empty run gives (8, "WARNING: No queries to run\n") |
| MySqlUtils.KeptLines | sql_runner/mysql_utils.go:15-24 | the kept lines are exactly the lines without "--" |
| MySqlUtils.KeptLinesAppend | sql_runner/mysql_utils.go:15-24 | the filter splits over concatenation, so order and repetitions are kept |
| MySqlUtils.KeptLinesAround | sql_runner/mysql_utils.go:17-21 | a line is kept, in its place, exactly when it holds no "--" |
| MySqlUtils.FormatQueryString | sql_runner/mysql_utils.go:10-29 | the loop gives `FormatQuery`, and the result has no newline, no "--" and no leading or trailing space |
| MySqlUtils.FormatQueryIsFormatted | sql_runner/mysql_utils.go:10-29 | every formatted query is one trimmed line without a comment marker |
| MySqlUtils.FormatQueryFixpoint | sql_runner/mysql_utils.go:10-29 | formatting leaves already formatted text unchanged |
| MySqlUtils.FormatQueryIdempotent | sql_runner/mysql_utils.go:10-29 | formatting twice is formatting once |
| MySqlUtils.DelimiterCommandAtStart | sql_runner/mysql_utils.go:31-33 | the index is 0 iff the space-trimmed command starts with a word that Go's lower-casing turns into "delimiter" |
| MySqlUtils.MatchEndAt | sql_runner/mysql_utils.go:39-40 | the end of a match of `(DELIMITER\|delimiter)\s+;` at a position, if there is one |
| MySqlUtils.LeftmostFrom | sql_runner/mysql_utils.go:39-40 | the leftmost match: it matches, and no earlier position does |
| MySqlUtils.TerminatingOutcomes | sql_runner/mysql_utils.go:38-47 | true iff the leftmost match ends at the end; an error iff it ends earlier; false without a match |
| MySqlUtils.FormatMultiqueryString | sql_runner/mysql_utils.go:50-81 | the loop gives `Assemble` over the ";\n" chunks; no statement is empty or holds a newline |
| MySqlUtils.HandleChunk | sql_runner/mysql_utils.go:62-77 | one loop iteration is one `Step` of the delimiter state machine |
| MySqlUtils.StepClean | sql_runner/mysql_utils.go:62-77 | one chunk's step emits and keeps pending only non-empty formatted statements |
| MySqlUtils.AssembleClean | sql_runner/mysql_utils.go:58-76 | every emitted statement is non-empty, formatted and newline-free |
| MySqlUtils.AssembleWithoutDelimiters | sql_runner/mysql_utils.go:57-80 | without DELIMITER chunks the statements are the non-empty formatted chunks, in order |
| MySqlUtils.UnterminatedBlockDropped | sql_runner/mysql_utils.go:63-80 | an open block that is never closed emits nothing |
| MySqlUtils.IsSelectQueryIff | sql_runner/mysql_utils.go:84-87 | a SELECT iff the text starts with "select" in any case followed by a space or the end |
| MySqlUtils.UpperCaseSelect | sql_runner/mysql_utils.go:84-87 | "SELECT * FROM t" is a SELECT |
| MySqlUtils.NewlineAfterSelect | sql_runner/mysql_utils.go:84-87 | "select\n1" is not a SELECT |
| MySqlUtils.BlankBeforeSelect | sql_runner/mysql_utils.go:84-87 | " select 1" is not a SELECT |
| MySqlUtils.IsSelectQueryExamples | sql_runner/mysql_utils.go:84-87 | "SELECT * FROM t" is one; "select\n1" and " select 1" are not |
| YamlUtils.PrefixEnd | sql_runner/yaml_utils.go:25 | the first group `\s*-?\s*` is taken as long as possible |
| YamlUtils.ReplaceLine | sql_runner/yaml_utils.go:56 | on a line, one ':' right after the prefix is removed and the rest kept verbatim; a line without it gets only a newline |
| YamlUtils.ColonDropped | sql_runner/yaml_utils.go:25 | a newline-free line with ':' right after its prefix comes out as the line without that ':', plus a newline |
| YamlUtils.CleanLinesNewlines | sql_runner/yaml_utils.go:55-57 | newline-free lines produce exactly one newline each |
| YamlUtils.CleanYaml | sql_runner/yaml_utils.go:49-59 | the buffer is each cleaned line in order, with one more newline than the input |
| YamlUtils.CleanEmpty | sql_runner/yaml_utils_test.go:51-52 | an empty playbook cleans to "\n" |
| YamlUtils.CleanTopLevelKey | sql_runner/yaml_utils_test.go:43-45 | ":hello: world" becomes "hello: world\n" |
| YamlUtils.CleanIndentedKey | sql_runner/yaml_utils_test.go:47-49 | four spaces, ':' and "world: hello" keep the spaces and lose the colon |
| YamlUtils.TemplateErrorLost | sql_runner/yaml_utils.go:38-41 | as written, a failing template with a decoder that accepts "" yields no error |
| YamlUtils.ParsePlaybookYaml | sql_runner/yaml_utils.go:30-44 | a template error always yields an error; no error means the template filled and the decoder accepted the filled text |
| YamlUtils.TemplateErrorReported | sql_runner/yaml_utils.go:30-44 | with the error kept, every template error is reported and a filled template is decoded as filled |
| CliOptions.KeyValue | sql_runner/options.go:29-33 | no pair iff there is no '='; otherwise the key has no '=' and key + "=" + value is the argument |
| CliOptions.KeyValueExample | sql_runner/options.go:29-33 | "a=b=c" gives key "a" and value "b=c" |
| CliOptions.IgnoredArgument | sql_runner/options.go:30 | an argument without '=' has no key and value |
| CliOptions.CliVariables.Set | sql_runner/options.go:28-36 | never fails; `key=value` overwrites that one key; an argument without '=' changes nothing |
| CliOptions.RepeatedKey | sql_runner/options.go:33 | a repeated key keeps the later value |
| CliOptions.ArgumentWithoutEquals | sql_runner/options.go:30 | an argument without '=' leaves the map unchanged |
| CliOptions.NewOptions | sql_runner/options.go:55-57 | every option at its zero value and an empty, new variables map |
| LegacyOptions.NewOptions | options.go:46-48 | every option at its zero value and an empty, new variables map |
| Playbooks.NewPlaybook | sql_runner/playbook.go:39-41 | no targets, no steps and an empty, new variables map |
| Playbooks.Merged | sql_runner/playbook.go:46-48 | the keys are the union; every command-line key has its command-line value; other keys keep theirs |
| Playbooks.MergedNothing | sql_runner/playbook.go:43-49 | merging no variables changes nothing |
| Playbooks.MergedIdempotent | sql_runner/playbook.go:43-49 | merging the same variables twice is merging them once |
| Playbooks.MergeCLIVariables | sql_runner/playbook.go:43-49 | the shared map of the caller is updated to `Merged`; the playbook returned is the one given, so targets and steps are unchanged |
| Playbooks.MergeNothingIntoNew | sql_runner/playbook_test.go:29-33 | a new playbook merged with no variables is still empty |
| Playbooks.CliOverridesPlaybook | sql_runner/playbook_test.go:35-45 | a command-line value wins over the playbook's own value |
| LegacyPlaybook.NewPlaybook | playbook/playbook.go:38-40 | no targets, no steps and an empty, new variables map |
| LegacyPlaybook.MergeCLIVariables | playbook/playbook.go:52-57 | the shared map is updated to `Merged`; targets and steps are unchanged |
| LegacyPlaybook.ParsePlaybook | playbook/playbook.go:43-50 | a parse error is returned as is with nothing merged; on success the variables are merged |
| LegacyYaml.CleanRubyYaml | playbook/yaml.go:77-83 | each cleaned line plus a newline, in order; one newline per newline-free line; no lines give "" |
| MainLogic.AbsConsulPathIsParent | sql_runner/main.go:261-265 | no '/' gives ""; otherwise the result followed by "/" and a last segment without '/' is the path |
| MainLogic.AbsConsulPathExample | sql_runner/main.go:261-265 | "a/b/c.yml" gives "a/b" |
| MainLogic.OtherSqlRootUnchanged | sql_runner/main.go:254-255 | any value other than BINARY, PLAYBOOK and PLAYBOOK_CHILD is returned unchanged without error |
| MainLogic.ConsulOnlyForLockIgnoresConsul | sql_runner/main.go:225-236 | with Consul only for the lock, the address plays no part and PLAYBOOK_CHILD is an error |
| MainLogic.SqlRootErrors | sql_runner/main.go:220-257 | each error names the option and arises exactly in its case: BINARY with Consul, PLAYBOOK_CHILD without it, PLAYBOOK_CHILD with Consul only for the lock |
| MainLogic.SqlRootTestCases | sql_runner/main_test.go:75-110 | BINARY with Consul and PLAYBOOK_CHILD without it fail; PLAYBOOK_CHILD with Consul gives the playbook path; any other value passes through |
| MainLogic.PlaybookWithConsulTestCase | sql_runner/main.go:244-246 | PLAYBOOK with Consul gives the playbook's parent key |
| MainLogic.LockChoicePrecedence | sql_runner/main.go:185-210 | no lock on a dry run or without a lock flag; otherwise lock, soft lock, check lock, delete lock in that order, soft only for the soft lock |
| MainLogic.LockFileFromOptions | sql_runner/main.go:185-215 | no lock and no error when none is chosen; otherwise a new, unlocked lock with the chosen path, softness and Consul address, with an error iff its key exists |
| MainLogic.UnlockUnlessErrors | sql_runner/main.go:76-81 | the lock is released iff the exit code is 0 or 8 or the lock is soft; so a hard lock stays exactly when the run reported an error |
| LockFiles.LockFile.Lock | sql_runner/lock_file.go:49-90 | fails with "already locked" when locked; otherwise fails on a missing directory, a file that cannot be opened or Consul being down, changing nothing, and on a failed write after the file was created, leaving the file; on success the key exists and `locked` is set |
| LockFiles.LockFile.Unlock | sql_runner/lock_file.go:93-116 | ignores `locked`; succeeds iff the local file exists or Consul answers, then removes the key and clears `locked`; a failure changes nothing |
| LockFiles.InitLockFile | sql_runner/lock_file.go:33-46 | copies the path, softness and address, starts unlocked, and errors iff the key already exists |
| LockFiles.LocalLockCycle | sql_runner/lock_file_test.go:36-64 | lock, lock again (refused), init again (refused), unlock, unlock again (no such file) |
| LockFiles.ConsulLockCycle | sql_runner/lock_file_test.go:82-108 | the same cycle on Consul, where the second unlock succeeds |
| LockFiles.LockWithoutDirectory | sql_runner/lock_file.go:60-63 | a local lock without its directory is refused and stays unlocked |
| LockFiles.LockWriteFailure | sql_runner/lock_file.go:65-76 | a failed write leaves the lock unlocked, but the created file makes the next start report "found on start" |
| Scanner.Results.Init | sql_runner/scanner.go:28-40 | never fails; empties the rows and the column names, zeroes both counters and establishes the invariant |
| Scanner.Results.ScanColumn | sql_runner/scanner.go:50-66 | never fails; one more element; column 0 appends a new row holding the text and one more row; any other column appends to the last row only; the name is recorded while the row is the first; the invariant is kept |
| Scanner.UniformTotal | sql_runner/scanner.go:63 | a table of equal-width rows holds rows × width elements |
| Scanner.ScanRow | sql_runner/scanner.go:50-66 | the cells of one row, scanned column by column, append exactly that row and record the names while it is the first |
| Scanner.ScanTable | sql_runner/scanner.go:28-66 | after Init and every cell in order, the accumulator holds exactly the table, the names of the first row, and matching counters |
| MySqlTarget.IsSelect | sql_runner/mysql_target.go:94-98 | a SELECT iff the script starts with "select" in any case followed by a space or the end |
| MySqlTarget.StringList | sql_runner/mysql_target.go:131-141 | same length; a NULL cell becomes "NULL" and any other cell its text |
| MySqlTarget.PrintedRows | sql_runner/mysql_target.go:173-183 | at most one printed row per row, and as many as rows iff every row scans |
| MySqlTarget.PrintTable | sql_runner/mysql_target.go:158-187 | unreadable column names give count 0 and "Unable to read columns"; otherwise the scanned rows are printed in order and counted |
| MySqlTarget.AffectedRows | sql_runner/mysql_target.go:144-155 | without printing every row counts; with printing only rows that scan; the count never exceeds the rows |
| MySqlTarget.InterpretRows | sql_runner/mysql_target.go:144-155 | the count is `AffectedRows`; an error only when printing and the column names are unreadable |
| MySqlTarget.DriverError | sql_runner/mysql_target.go:115-125 | an error iff the driver call the query makes (query for a SELECT, exec otherwise) fails |
| MySqlTarget.ShadowedErrorLost | sql_runner/mysql_target.go:116-127 | as written, a failing driver call leaves the status without error, where the corrected run reports it |
| MySqlTarget.AsWrittenStepsNeverFail | sql_runner/mysql_target.go:101-128 | as written, no step on a MySQL target ever fails, so the target never stops early |
| MySqlTarget.Status | sql_runner/mysql_target.go:101-128 | the status keeps the query and its path; a dry run reports 0 rows and no error; otherwise the error is the driver's |
| MySqlTarget.StepFailsOnDriverError | sql_runner/mysql_target.go:101-128 | with errors reported, a step fails iff it is not a dry run and some query's driver call fails |
| MySqlTarget.RunQuery | sql_runner/mysql_target.go:101-128 | the run with the driver's error reported computes `Status` |
| MySqlTarget.RunQueryAsWritten | sql_runner/mysql_target.go:101-128 | the run as written computes `StatusAsWritten`, whose error is always empty |
| LegacyRun.StartIndexAgreesWithTrimSteps | run/run.go:63-86 | the inline search fails exactly when the newer `trimSteps` does, and otherwise keeps the same suffix |
| LegacyRun.SupportedTypes | run/run.go:120-128 | only redshift, postgres and postgresql run, after Go's lower-casing: exactly the types the newer engine sends to its Postgres client |
| LegacyRun.RunQueries | run/run.go:174-207 | the step's name and index, and exactly one status per query, a permutation of the outcomes for the joined paths |
| LegacyRun.ZeroSteps | run/run.go:148 | the slice starts with `len(steps)` zero-valued step statuses |
| LegacyRun.RunSteps | run/run.go:146-167 | the target's name, no target error, the zero prefix, then the steps in order with index i+1, stopping after the first failed step |
| LegacyRun.RunStepsLength | run/run.go:146-167 | between n and 2n step statuses, and fewer than 2n only when the last one failed |
| LegacyRun.RouteAndRun | run/run.go:119-139 | the status carries the target's name, and a target error iff the type is unsupported |
| LegacyRun.Run | run/run.go:59-106 | an unknown `fromStep` gives one `fromStepNotFound` per target and runs nothing; otherwise exactly one status per target, a permutation of the per-target outcomes on the steps from the first match |
| LegacyRun.FirstStepNamedAt | run/run.go:66-72 | the forward scan stops at the first step of that name |

## Left out

- Concurrency: goroutines and channels are sequential loops. The collection
  order is arbitrary, and every result is stated up to permutation.
- Logging and printing are left out:
  - every `log.Printf`;
  - the filled queries shown by `-fillTemplates`;
  - the table the MySQL target renders. The model keeps the rows it is
    given.
- The connection probe of a MySQL dry run only logs, so it is left out.
- The database drivers are abstract functions: `NewMySQLTarget`,
  `IsConnectable`, `GetTarget`, the PostgreSQL, Snowflake and BigQuery
  targets, and the calls into the MySQL driver. They are network I/O through
  third-party SDKs.
- The SQL providers, Consul and file reads are abstract. This includes
  `readLines`, `loadLocalFile` and the playbook providers, and the legacy
  client's reading of the SQL file at the joined path. `path.Join` is the
  `pathJoin` parameter.
- Template and YAML engines are uninterpreted functions:
  - `text/template` parse and execute;
  - the template function registries, which depend on the clock, the
    environment, randomness and AWS credentials;
  - `yaml.Unmarshal`;
  - the failure-report template.
- Exit, verbosity and flags: `VerbosityOption` and `MAX_VERBOSITY` are
  parameters, and `processFlags`, `GetFlagSet` and the `os.Exit` paths are
  command-line plumbing.
- `osext.ExecutableFolder` and `filepath.Abs(filepath.Dir(…))` in
  `resolveSqlRoot` are given as `Result` parameters.
- The in-place `options.sqlroot` assignment in `main` is not modelled.
- The text of the argument-format error is not defined in sql_runner/run.go,
  so it is the `argumentError` parameter.
- Behaviour that only the tests describe (`Playbook.Validate`, an erroring
  `NewPostgresTarget`, `parsePrivateKey`, a three-argument `resolveSqlRoot`)
  does not exist in this version of the code. It is not modelled, apart from the cases
  `SqlRootTestCases` states against the four-argument function.
- The legacy `CLIVariables.Set` (options.go:28-36) is character for character
  the newer one. It is modelled once, as `CliOptions.CliVariables.Set`.
- The vendored go-pg libraries are left out.
- Integer widths: the row counts (`int64`) and counters are unbounded.
- Scanner.Results.ScanColumn: a non-zero column before any row panics in the
  code. Here that is a precondition, since the driver always starts a row at
  column 0.
- Engine.CheckedSelection: text after a second "::" is ignored, as in the
  code. The argument tests do not say whether a second separator should be
  refused.
- LockFiles.LockFile.LockExists: Consul is either up, and answers with its
  keys, or down. A fetch that fails but still returns a value is not
  represented.
- Engine.Run: the `-runQuery` steps come from the corrected selection
  (`ChosenSteps`, through `CheckedTrimToQuery`), not from the `trimToQuery`
  that run.go:81-82 calls. For "foo" the code panics, and for "::bar" it runs
  query "bar" of the first step; here both give the argument-format error for
  every target. `TrimToQuery` and `QuerySelection` model the code as written.
- GoStrings.LowerChar: non-ASCII letters other than U+0130 and U+212A keep
  their case. Go lowers them to non-ASCII letters, and every lowered string is
  only compared with an ASCII word, so no comparison changes.
- MySqlUtils.DelimiterCommandIndex: counts characters where Go counts bytes.
  The two agree at 0, the only value the code tests.
- Engine.TrimToQuery: the copy made of the chosen step is a value here, so the
  caller's steps are trivially untouched.

## Findings

| source | as written | input that shows it | evidently intended | confidence | as-written member | corrected member |
|---|---|---|---|---|---|---|
| sql_runner/run.go:135-145 | the argument is split on "::" and part 1 is read without checking; part 0 goes through `trimSteps`, where "" means every step | "foo" with a step "foo" panics with index out of range; "::bar" selects query "bar" of the first step | a malformed argument gets a per-target argument-format error (sql_runner/run_test.go:102-131) | not executed | Engine.MissingSeparatorPanics | Engine.CheckedTrimToQuery |
| sql_runner/mysql_target.go:116 | `rows, err :=` and `res, err :=` declare new `err` variables inside the branches, so line 127 returns the outer `err`, which is always nil | a non-dry-run query whose `Exec` fails | the status carries the driver's error, so the target stops and the exit code is 6 | not executed | MySqlTarget.ShadowedErrorLost | MySqlTarget.RunQuery |
| sql_runner/yaml_utils.go:38-41 | the template error is assigned to `err` and then overwritten by the decoder's error; the decoder is given "" | a playbook whose template fails while the decoder accepts the empty document | the template error is returned | not executed | YamlUtils.TemplateErrorLost | YamlUtils.ParsePlaybookYaml |
