/** The MySQL target's own logic: deciding whether a query is a SELECT, turning
    scanned cells into printable text, counting result rows, and the status a
    query run reports.  The driver is a pair of abstract calls. */
module MySqlTarget {
  import opened Wrappers
  import opened GoStrings
  import MySqlUtils
  import opened Engine
  import opened Playbooks

  // ---------------------------------------------------------------------------
  // isSelectQuery

  /** A ready query is a SELECT when its script is, by the rule of
      `MySqlUtils.IsSelectQuery`: the six letters "select" in any case, then
      a space or nothing. */
  function IsSelect(query: ReadyQuery): (r: bool)
    ensures r <==>
      |query.script| >= 6 && ToLower(query.script[..6]) == "select" &&
      (|query.script| == 6 || query.script[6] == ' ')
  {
    MySqlUtils.IsSelectQueryIff(query.script);
    MySqlUtils.IsSelectQuery(query.script)
  }

  // ---------------------------------------------------------------------------
  // stringList

  /** The text of one scanned cell; SQL NULL is shown as "NULL". */
  function Cell(sp: Option<string>): string {
    match sp
    case Some(s) => s
    case None => "NULL"
  }

  /** The printable row of a scanned row. */
  function Rendered(spList: seq<Option<string>>): (r: seq<string>)
    ensures |r| == |spList|
  {
    seq(|spList|, i requires 0 <= i < |spList| => Cell(spList[i]))
  }

  /** Fills a new slice cell by cell: a NULL becomes "NULL", any other cell
      its text. */
  method StringList(spList: seq<Option<string>>) returns (sList: seq<string>)
    ensures |sList| == |spList|
    ensures forall i :: 0 <= i < |spList| && spList[i].Some? ==> sList[i] == spList[i].value
    ensures forall i :: 0 <= i < |spList| && spList[i].None? ==> sList[i] == "NULL"
    ensures sList == Rendered(spList)
  {
    var a := new string[|spList|];
    for i := 0 to |spList|
      invariant forall k :: 0 <= k < i ==> a[k] == Cell(spList[k])
    {
      if spList[i].Some? {
        a[i] := spList[i].value;
      } else {
        a[i] := "NULL";
      }
    }
    sList := a[..];
  }

  // ---------------------------------------------------------------------------
  // interpretRows and printTable

  /** What the driver returns for a SELECT: the column names or the error of
      reading them, and for every row either its cells or the error of
      scanning it. */
  datatype Rows = Rows(columns: Result<seq<string>, string>, rows: seq<Result<seq<Option<string>>, string>>)

  const ErrorReadColumns := "Unable to read columns"

  /** The rows handed to the table writer: the rows that scanned, rendered,
      in order. */
  function PrintedRows(rows: seq<Result<seq<Option<string>>, string>>): (t: seq<seq<string>>)
    ensures |t| <= |rows|
    ensures |t| == |rows| <==> forall i :: 0 <= i < |rows| ==> rows[i].Ok?
  {
    if |rows| == 0 then []
    else
      var front := rows[..|rows| - 1];
      assert forall i :: 0 <= i < |front| ==> front[i] == rows[i];
      PrintedRows(front) +
        match rows[|rows| - 1]
        case Ok(cells) => [Rendered(cells)]
        case Err(_) => []
  }

  /** Prints the rows that scan and counts them; rows that fail to scan are
      logged and skipped.  Unreadable column names end it before any row. */
  method PrintTable(rs: Rows) returns (affected: int, err: Option<string>, table: seq<seq<string>>)
    ensures rs.columns.Err? ==> affected == 0 && err == Some(ErrorReadColumns) && table == []
    ensures rs.columns.Ok? ==> err == None && table == PrintedRows(rs.rows) && affected == |table|
  {
    affected := 0;
    table := [];
    if rs.columns.Err? {
      return affected, Some(ErrorReadColumns), table;
    }
    for i := 0 to |rs.rows|
      invariant table == PrintedRows(rs.rows[..i])
      invariant affected == |table|
    {
      assert rs.rows[..i + 1][..i] == rs.rows[..i];
      match rs.rows[i]
      case Err(_) =>
      case Ok(cells) =>
        affected := affected + 1;
        var line := StringList(cells);
        table := table + [line];
    }
    assert rs.rows[..|rs.rows|] == rs.rows;
    err := None;
  }

  /** The number of rows a SELECT reports: every row when nothing is printed,
      only the rows that scan when the table is printed, none when the
      column names cannot be read. */
  function AffectedRows(rs: Rows, shouldPrintTable: bool): (n: int)
    ensures 0 <= n <= |rs.rows|
    ensures !shouldPrintTable ==> n == |rs.rows|
    ensures shouldPrintTable && rs.columns.Err? ==> n == 0
    ensures shouldPrintTable && rs.columns.Ok? ==>
      (n == |rs.rows| <==> forall i :: 0 <= i < |rs.rows| ==> rs.rows[i].Ok?)
  {
    if !shouldPrintTable then |rs.rows|
    else if rs.columns.Err? then 0
    else |PrintedRows(rs.rows)|
  }

  /** Counts the rows of a SELECT, printing them when asked. */
  method InterpretRows(rs: Rows, shouldPrintTable: bool) returns (affected: int, funcErr: Option<string>)
    ensures affected == AffectedRows(rs, shouldPrintTable)
    ensures funcErr.Some? <==> shouldPrintTable && rs.columns.Err?
    ensures funcErr.Some? ==> funcErr == Some(ErrorReadColumns)
  {
    affected := 0;
    funcErr := None;
    if !shouldPrintTable {
      for i := 0 to |rs.rows|
        invariant affected == i
      {
        affected := affected + 1;
      }
    } else {
      var printed;
      affected, funcErr, printed := PrintTable(rs);
    }
  }

  // ---------------------------------------------------------------------------
  // RunQuery

  /** The driver: running a SELECT gives its rows, anything else the number
      of rows it changed; either can fail. */
  datatype Client = Client(query: string -> Result<Rows, string>, exec: string -> Result<int, string>)

  /** The row count a query run reports when it is not a dry run; a failed
      call leaves it at 0. */
  function Affected(client: Client, query: ReadyQuery, show: bool): int {
    if IsSelect(query) then
      match client.query(query.script)
      case Ok(rs) => AffectedRows(rs, show)
      case Err(_) => 0
    else
      match client.exec(query.script)
      case Ok(n) => n
      case Err(_) => 0
  }

  /** The error of the driver call the query makes, if it failed. */
  function DriverError(client: Client, query: ReadyQuery): (e: Option<string>)
    ensures IsSelect(query) ==> (e.Some? <==> client.query(query.script).Err?)
    ensures !IsSelect(query) ==> (e.Some? <==> client.exec(query.script).Err?)
  {
    if IsSelect(query) then
      match client.query(query.script)
      case Ok(_) => None
      case Err(e) => Some(e)
    else
      match client.exec(query.script)
      case Ok(_) => None
      case Err(e) => Some(e)
  }

  /** The status as the code builds it: the error it returns is the one
      declared at the top, which the driver calls never assign. */
  function StatusAsWritten(client: Client, query: ReadyQuery, dryRun: bool, show: bool): QueryStatus {
    if dryRun then QueryStatus(query, query.path, 0, None)
    else QueryStatus(query, query.path, Affected(client, query, show), None)
  }

  /** A failing driver call goes unreported: the status has no error. */
  lemma {:induction false} ShadowedErrorLost(client: Client, query: ReadyQuery, show: bool)
    requires DriverError(client, query).Some?
    ensures StatusAsWritten(client, query, false, show).error == None
    ensures Status(client, query, false, show).error == DriverError(client, query)
  {
  }

  /** Hence with the code as written no step on a MySQL target ever fails, so
      the target never stops early. */
  lemma AsWrittenStepsNeverFail(client: Client, target: Target, queries: seq<ReadyQuery>,
      dryRun: bool, show: bool, s: StepStatus)
    requires multiset(s.queries) ==
      multiset(Expected(Db(target, (q, d, sh) => StatusAsWritten(client, q, d, sh)), queries, dryRun, show))
    ensures !Failed(s)
  {
    var db := Db(target, (q, d, sh) => StatusAsWritten(client, q, d, sh));
    var e := StepStatus(s.name, s.index, Expected(db, queries, dryRun, show));
    FailedByContents(s, e);
    assert !Failed(e);
  }

  /** The status with the driver's error reported: what the query run is
      evidently meant to return. */
  function Status(client: Client, query: ReadyQuery, dryRun: bool, show: bool): (s: QueryStatus)
    ensures s.query == query && s.path == query.path
    ensures dryRun ==> s.affected == 0 && s.error == None
    ensures !dryRun ==> s.error == DriverError(client, query)
  {
    if dryRun then QueryStatus(query, query.path, 0, None)
    else QueryStatus(query, query.path, Affected(client, query, show), DriverError(client, query))
  }

  /** With errors reported, a step fails exactly when it is not a dry run and
      one of its queries' driver calls failed, whatever the arrival order. */
  lemma StepFailsOnDriverError(client: Client, target: Target, queries: seq<ReadyQuery>,
      dryRun: bool, show: bool, s: StepStatus)
    requires multiset(s.queries) ==
      multiset(Expected(Db(target, (q, d, sh) => Status(client, q, d, sh)), queries, dryRun, show))
    ensures Failed(s) <==> !dryRun && exists i :: 0 <= i < |queries| && DriverError(client, queries[i]).Some?
  {
    var db := Db(target, (q, d, sh) => Status(client, q, d, sh));
    var e := StepStatus(s.name, s.index, Expected(db, queries, dryRun, show));
    FailedByContents(s, e);
    if !dryRun && exists i :: 0 <= i < |queries| && DriverError(client, queries[i]).Some? {
      var i :| 0 <= i < |queries| && DriverError(client, queries[i]).Some?;
      assert e.queries[i].error.Some?;
    }
  }

  /** Runs one query.  A dry run only probes the connection (the probe is
      logged, not reported); otherwise a SELECT is queried and its rows
      counted, anything else is executed and its changed rows taken.  The
      error of the query or the execution is what the status reports. */
  method RunQuery(client: Client, query: ReadyQuery, dryRun: bool, showQueryOutput: bool)
    returns (status: QueryStatus)
    ensures status == Status(client, query, dryRun, showQueryOutput)
  {
    var err: Option<string> := None;
    if dryRun {
      return QueryStatus(query, query.path, 0, None);
    }
    var affected := 0;
    if IsSelect(query) {
      var rows := client.query(query.script);
      if rows.Ok? {
        var counted, _ := InterpretRows(rows.value, showQueryOutput);
        affected := counted;
      } else {
        err := Some(rows.error);
      }
    } else {
      var res := client.exec(query.script);
      if res.Ok? {
        affected := res.value;
      } else {
        err := Some(res.error);
      }
    }
    return QueryStatus(query, query.path, affected, err);
  }

  /** The run as written: each driver call's error lands in a variable local
      to its branch, and the status carries the outer one, still empty. */
  method RunQueryAsWritten(client: Client, query: ReadyQuery, dryRun: bool, showQueryOutput: bool)
    returns (status: QueryStatus)
    ensures status == StatusAsWritten(client, query, dryRun, showQueryOutput)
  {
    var err: Option<string> := None;
    if dryRun {
      return QueryStatus(query, query.path, 0, None);
    }
    var affected := 0;
    if IsSelect(query) {
      var rows := client.query(query.script);
      var innerErr := if rows.Ok? then None else Some(rows.error);
      if innerErr == None {
        var counted, _ := InterpretRows(rows.value, showQueryOutput);
        affected := counted;
      }
    } else {
      var res := client.exec(query.script);
      var innerErr := if res.Ok? then None else Some(res.error);
      if innerErr == None {
        affected := res.value;
      }
    }
    return QueryStatus(query, query.path, affected, err);
  }
}
