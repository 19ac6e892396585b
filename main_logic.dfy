/** The decisions the command makes around a run: where the SQL files are,
    which lock to take, and whether to release it afterwards. */
module MainLogic {
  import opened Wrappers
  import opened GoStrings
  import opened CliOptions
  import opened LockFiles
  import opened Engine
  import opened Review

  const SqlRootBinary := "BINARY"
  const SqlRootPlaybook := "PLAYBOOK"
  const SqlRootPlaybookChild := "PLAYBOOK_CHILD"

  function WithConsulError(sqlroot: string): string {
    "Cannot use " + sqlroot + " option with -consul argument"
  }

  function WithoutConsulError(sqlroot: string): string {
    "Cannot use " + sqlroot + " option without -consul argument"
  }

  function ConsulOnlyForLockError(sqlroot: string): string {
    "Cannot use " + sqlroot + " option with -consulOnlyForLock argument"
  }

  // ---------------------------------------------------------------------------
  // getAbsConsulPath

  /** The Consul path one level up: the path without its last '/'-separated
      segment. */
  function GetAbsConsulPath(path: string): string {
    var parts := Split(path, "/");
    Join(parts[..|parts| - 1], "/")
  }

  lemma {:induction false} JoinLast(parts: seq<string>, sep: string)
    requires |parts| >= 2
    ensures Join(parts, sep) == Join(parts[..|parts| - 1], sep) + sep + parts[|parts| - 1]
    decreases |parts|
  {
    if |parts| > 2 {
      JoinLast(parts[1..], sep);
      assert parts[1..][..|parts| - 2] == parts[..|parts| - 1][1..];
    }
  }

  /** The result is what comes before the last '/', or "" without a '/'. */
  lemma AbsConsulPathIsParent(path: string)
    ensures '/' !in path ==> GetAbsConsulPath(path) == ""
    ensures '/' in path ==>
      exists last :: GetAbsConsulPath(path) + "/" + last == path && '/' !in last
  {
    var parts := Split(path, "/");
    ContainsChar(path, '/');
    if '/' !in path {
      SplitNoSep(path, "/");
    } else {
      assert |parts| >= 2;
      JoinSplit(path, "/");
      JoinLast(parts, "/");
      var last := parts[|parts| - 1];
      SplitPiecesFree(path, "/");
      ContainsChar(last, '/');
      assert GetAbsConsulPath(path) + "/" + last == path;
    }
  }

  lemma AbsConsulPathExample()
    ensures GetAbsConsulPath("a/b/c.yml") == "a/b"
  {
    var p := "a/b/c.yml";
    assert p[3] == '/';
    assert p[4..] == "c.yml";
    forall j | 3 < j < |p| ensures p[j] != '/' {
      assert p[j] == p[4..][j - 4];
    }
    AbsConsulPathIsParent(p);
    var last :| GetAbsConsulPath(p) + "/" + last == p && '/' !in last;
    ParentBeforeLastSlash(p, GetAbsConsulPath(p), last, 3);
    assert p[..3] == "a/b";
  }

  // ---------------------------------------------------------------------------
  // resolveSqlRoot

  /** Where the SQL files are.  `executableFolder` and `absPlaybookDir` stand
      for the two file-system lookups (the folder of the running binary, the
      absolute directory of the playbook); they are used only where the
      original calls them. */
  function ResolveSqlRoot(sqlroot: string, playbookPath: string, consulAddress: string, consulOnlyForLock: bool,
                          executableFolder: Result<string, string>, absPlaybookDir: Result<string, string>)
    : Result<string, string>
  {
    if consulOnlyForLock then
      if sqlroot == SqlRootBinary then executableFolder
      else if sqlroot == SqlRootPlaybook then absPlaybookDir
      else if sqlroot == SqlRootPlaybookChild then Err(ConsulOnlyForLockError(sqlroot))
      else Ok(sqlroot)
    else if sqlroot == SqlRootBinary then
      if consulAddress != "" then Err(WithConsulError(sqlroot)) else executableFolder
    else if sqlroot == SqlRootPlaybook then
      if consulAddress != "" then Ok(GetAbsConsulPath(playbookPath)) else absPlaybookDir
    else if sqlroot == SqlRootPlaybookChild then
      if consulAddress != "" then Ok(playbookPath) else Err(WithoutConsulError(sqlroot))
    else Ok(sqlroot)
  }

  /** Any other value is a path and comes back unchanged, whatever the rest. */
  lemma OtherSqlRootUnchanged(sqlroot: string, playbookPath: string, consulAddress: string, consulOnlyForLock: bool,
                              executableFolder: Result<string, string>, absPlaybookDir: Result<string, string>)
    requires sqlroot !in {SqlRootBinary, SqlRootPlaybook, SqlRootPlaybookChild}
    ensures ResolveSqlRoot(sqlroot, playbookPath, consulAddress, consulOnlyForLock, executableFolder, absPlaybookDir)
      == Ok(sqlroot)
  {
  }

  /** With Consul used only for the lock, the Consul address plays no part,
      and the result is the one without Consul except that PLAYBOOK_CHILD,
      which needs Consul, is refused. */
  lemma ConsulOnlyForLockIgnoresConsul(sqlroot: string, playbookPath: string, consulAddress: string,
                                       executableFolder: Result<string, string>, absPlaybookDir: Result<string, string>)
    ensures ResolveSqlRoot(sqlroot, playbookPath, consulAddress, true, executableFolder, absPlaybookDir)
      == ResolveSqlRoot(sqlroot, playbookPath, "", true, executableFolder, absPlaybookDir)
    ensures sqlroot != SqlRootPlaybookChild ==>
      ResolveSqlRoot(sqlroot, playbookPath, consulAddress, true, executableFolder, absPlaybookDir)
      == ResolveSqlRoot(sqlroot, playbookPath, "", false, executableFolder, absPlaybookDir)
    ensures ResolveSqlRoot(SqlRootPlaybookChild, playbookPath, consulAddress, true, executableFolder, absPlaybookDir)
      == Err(ConsulOnlyForLockError("PLAYBOOK_CHILD"))
  {
  }

  /** The errors of the resolution: each names the option, and they arise
      exactly from a Consul address that does not fit the option, or from a
      file-system lookup that failed. */
  lemma SqlRootErrors(sqlroot: string, playbookPath: string, consulAddress: string, consulOnlyForLock: bool,
                      executableFolder: Result<string, string>, absPlaybookDir: Result<string, string>)
    ensures var r := ResolveSqlRoot(sqlroot, playbookPath, consulAddress, consulOnlyForLock,
                                    executableFolder, absPlaybookDir);
      var useConsul := consulAddress != "" && !consulOnlyForLock;
      (r.Err? <==>
        (sqlroot == SqlRootBinary && (useConsul || executableFolder.Err?)) ||
        (sqlroot == SqlRootPlaybook && !useConsul && absPlaybookDir.Err?) ||
        (sqlroot == SqlRootPlaybookChild && !useConsul))
  {
  }

  /** The cases of the resolution tests that the four-argument version still
      answers the same way (no Consul-only-for-lock). */
  lemma SqlRootTestCases(playbookPath: string, executableFolder: Result<string, string>,
                         absPlaybookDir: Result<string, string>)
    ensures ResolveSqlRoot("BINARY", playbookPath, "localhost:8500", false, executableFolder, absPlaybookDir)
      == Err(WithConsulError("BINARY"))
    ensures ResolveSqlRoot("PLAYBOOK_CHILD", playbookPath, "", false, executableFolder, absPlaybookDir)
      == Err(WithoutConsulError("PLAYBOOK_CHILD"))
    ensures ResolveSqlRoot("PLAYBOOK_CHILD", playbookPath, "localhost:8500", false, executableFolder, absPlaybookDir)
      == Ok(playbookPath)
    ensures ResolveSqlRoot("random", playbookPath, "localhost:8500", false, executableFolder, absPlaybookDir)
      == Ok("random")
  {
  }

  lemma ParentBeforeLastSlash(p: string, r: string, last: string, k: nat)
    requires r + "/" + last == p && '/' !in last
    requires k < |p| && p[k] == '/' && forall j :: k < j < |p| ==> p[j] != '/'
    ensures r == p[..k]
  {
    assert p[|r|] == '/';
    assert forall j :: |r| < j < |p| ==> p[j] == last[j - |r| - 1];
    assert |r| == k;
    assert p[..|r|] == r;
  }

  /** PLAYBOOK with Consul resolves to the playbook's parent key. */
  lemma PlaybookWithConsulTestCase(executableFolder: Result<string, string>, absPlaybookDir: Result<string, string>)
    ensures ResolveSqlRoot("PLAYBOOK", "../integration/resources/good-postgres.yml", "localhost:8500", false,
                           executableFolder, absPlaybookDir) == Ok("../integration/resources")
  {
    var p := "../integration/resources/good-postgres.yml";
    assert p[24] == '/';
    assert p[25..] == "good-postgres.yml";
    forall j | 24 < j < |p| ensures p[j] != '/' {
      assert p[j] == p[25..][j - 25];
    }
    AbsConsulPathIsParent(p);
    var last :| GetAbsConsulPath(p) + "/" + last == p && '/' !in last;
    ParentBeforeLastSlash(p, GetAbsConsulPath(p), last, 24);
    assert p[..24] == "../integration/resources";
  }

  // ---------------------------------------------------------------------------
  // LockFileFromOptions

  /** The lock asked for, as its path and whether it is soft: none on a dry
      run; otherwise -lock, -softLock, -checkLock and -deleteLock in that order
      of precedence. */
  function LockChoice(options: Options): Option<(string, bool)> {
    if options.dryRun then None
    else if options.lock != "" then Some((options.lock, false))
    else if options.softLock != "" then Some((options.softLock, true))
    else if options.checkLock != "" then Some((options.checkLock, false))
    else if options.deleteLock != "" then Some((options.deleteLock, false))
    else None
  }

  /** A lock is chosen unless it is a dry run or no lock flag is set; the path
      is the first flag set in precedence order, and the lock is soft exactly
      when that flag is -softLock. */
  lemma LockChoicePrecedence(options: Options)
    ensures LockChoice(options).None? <==>
      options.dryRun || (options.lock == "" && options.softLock == "" && options.checkLock == "" && options.deleteLock == "")
    ensures LockChoice(options).Some? ==>
      var (path, soft) := LockChoice(options).value;
      && path != ""
      && path in [options.lock, options.softLock, options.checkLock, options.deleteLock]
      && (soft <==> options.lock == "" && path == options.softLock)
      && (options.lock != "" ==> path == options.lock)
  {
  }

  /** The lock for a run, with the error of a lock key that already exists. */
  method LockFileFromOptions(options: Options, store: KeyStore) returns (lf: Option<LockFile>, err: Option<string>)
    ensures LockChoice(options).None? ==> lf.None? && err.None?
    ensures LockChoice(options).Some? ==>
      && lf.Some? && fresh(lf.value)
      && (lf.value.path, lf.value.softLock) == LockChoice(options).value
      && lf.value.consulAddress == options.consul && !lf.value.locked
      && (err.Some? <==> lf.value.LockExists(store))
  {
    match LockChoice(options) {
      case None =>
        return None, None;
      case Some((lockPath, isSoftLock)) =>
        var lockFile;
        lockFile, err := InitLockFile(lockPath, isSoftLock, options.consul, store);
        lf := Some(lockFile);
    }
  }

  // ---------------------------------------------------------------------------
  // The unlock after a run

  /** The lock is released after a successful run, after a run with nothing
      to do, and always for a soft lock. */
  predicate ShouldUnlock(exitCode: int, softLock: bool) {
    exitCode == 0 || exitCode == 8 || softLock
  }

  /** A hard lock stays in place exactly when the run reported an error of
      either kind. */
  lemma UnlockUnlessErrors(statuses: seq<TargetStatus>, softLock: bool)
    ensures ShouldUnlock(Outcome(statuses).0, softLock) <==>
      softLock || (!HasInitError(statuses) && !HasQueryError(statuses))
  {
    ExitCodes(statuses);
  }
}
