/** The MySQL helpers that tidy a script and cut a multi-statement script into
    single statements, honouring `DELIMITER` blocks (stored procedures). */
module MySqlUtils {
  import opened GoStrings
  import opened Wrappers

  // ---------------------------------------------------------------------------
  // FormatQueryString

  /** The lines kept by FormatQueryString: those without "--", in order. */
  function KeptLines(lines: seq<string>): (kept: seq<string>)
    ensures |kept| <= |lines|
    ensures forall l :: l in kept <==> l in lines && IndexOf(l, "--") == -1
  {
    if |lines| == 0 then []
    else
      var last := lines[|lines| - 1];
      assert lines == lines[..|lines| - 1] + [last];
      KeptLines(lines[..|lines| - 1]) + (if IndexOf(last, "--") == -1 then [last] else [])
  }

  /** Filtering splits over concatenation, so the kept lines keep their order
      and each kept line appears as often as in the input. */
  lemma {:induction false} KeptLinesAppend(a: seq<string>, b: seq<string>)
    ensures KeptLines(a + b) == KeptLines(a) + KeptLines(b)
    decreases |b|
  {
    if |b| == 0 {
      assert a + b == a;
    } else {
      assert (a + b)[..|a + b| - 1] == a + b[..|b| - 1];
      KeptLinesAppend(a, b[..|b| - 1]);
    }
  }

  /** One line between any others is kept exactly when it has no "--". */
  lemma KeptLinesAround(a: seq<string>, l: string, b: seq<string>)
    ensures KeptLines(a + [l] + b) == KeptLines(a) + (if IndexOf(l, "--") == -1 then [l] else []) + KeptLines(b)
  {
    KeptLinesAppend(a + [l], b);
    KeptLinesAppend(a, [l]);
    assert [l][..0] == [];
  }

  /** The text FormatQueryString produces. */
  function FormatQuery(q: string): string {
    Trim(Join(KeptLines(Split(q, "\n")), " "), ' ')
  }

  /** Already formatted: one line, no comment marker, no surrounding blanks. */
  ghost predicate Formatted(t: string) {
    '\n' !in t && !Contains(t, "--") && (t == "" || (t[0] != ' ' && t[|t| - 1] != ' '))
  }

  /** Lines are cut at "\n", every line holding "--" is dropped, the rest are
      joined with single spaces and the blanks around the result are trimmed.
      (The tab and ";\n" replacements computed first are never used, so tabs survive.) */
  method FormatQueryString(q: string) returns (r: string)
    ensures r == FormatQuery(q)
    ensures Formatted(r)
  {
    var lines := Split(q, "\n");
    var kept: seq<string> := [];
    for i := 0 to |lines|
      invariant kept == KeptLines(lines[..i])
    {
      if IndexOf(lines[i], "--") == -1 {
        kept := kept + [lines[i]];
      }
      assert lines[..i + 1][..i] == lines[..i];
    }
    assert lines[..|lines|] == lines;
    r := Trim(Join(kept, " "), ' ');
    FormatQueryIsFormatted(q);
  }

  /** The result of formatting holds no newline and no "--" and is trimmed. */
  lemma FormatQueryIsFormatted(q: string)
    ensures Formatted(FormatQuery(q))
  {
    var lines := Split(q, "\n");
    var kept := KeptLines(lines);
    SplitPiecesFree(q, "\n");
    forall k | 0 <= k < |kept| ensures '\n' !in kept[k] && !Contains(kept[k], "--") {
      assert kept[k] in kept;
      var j :| 0 <= j < |lines| && lines[j] == kept[k];
      ContainsChar(kept[k], '\n');
    }
    JoinExcludesChar(kept, " ", '\n');
    JoinExcludesPattern(kept, ' ', "--");
    var joined := Join(kept, " ");
    var r := Trim(joined, ' ');
    assert r == joined[TrimStart(joined, ' ')..TrimEnd(joined, ' ')];
    if Contains(r, "--") {
      TrimContains(joined, ' ', "--");
    }
  }

  /** Formatting leaves formatted text alone. */
  lemma FormatQueryFixpoint(t: string)
    requires Formatted(t)
    ensures FormatQuery(t) == t
  {
    ContainsChar(t, '\n');
    SplitNoSep(t, "\n");
    assert IndexOf(t, "--") == -1;
    assert KeptLines([t]) == [t];
    TrimUnchanged(t, ' ');
  }

  /** Formatting twice is formatting once. */
  lemma FormatQueryIdempotent(q: string)
    ensures FormatQuery(FormatQuery(q)) == FormatQuery(q)
  {
    FormatQueryIsFormatted(q);
    FormatQueryFixpoint(FormatQuery(q));
  }

  // ---------------------------------------------------------------------------
  // DelimiterCommandIndex

  /** Where "delimiter" first occurs in the lower-cased, blank-trimmed command, or -1. */
  function DelimiterCommandIndex(command: string): int {
    IndexOf(ToLower(Trim(command, ' ')), "delimiter")
  }

  /** The index is 0 exactly when the trimmed command starts with the word
      "delimiter" in any letter case. */
  lemma DelimiterCommandAtStart(command: string)
    ensures DelimiterCommandIndex(command) == 0 <==>
      var t := Trim(command, ' ');
      |t| >= 9 && ToLower(t[..9]) == "delimiter"
  {
    var t := Trim(command, ' ');
    var l := ToLower(t);
    if |t| >= 9 {
      assert l[..9] == ToLower(t[..9]);
      if ToLower(t[..9]) == "delimiter" {
        assert OccursAt(l, "delimiter", 0);
      }
    }
  }

  // ---------------------------------------------------------------------------
  // IsTerminatingDelimiterLine: the pattern `(DELIMITER|delimiter)(\s+);`

  /** Go's `\s`: tab, newline, form feed, carriage return and space. */
  predicate IsSpace(c: char) {
    c == '\t' || c == '\n' || c == '\U{000C}' || c == '\r' || c == ' '
  }

  /** How many `\s` characters start at position `i`. */
  function SpaceRun(s: string, i: nat): (n: nat)
    requires i <= |s|
    ensures i + n <= |s|
    ensures forall k :: i <= k < i + n ==> IsSpace(s[k])
    ensures i + n < |s| ==> !IsSpace(s[i + n])
    decreases |s| - i
  {
    if i < |s| && IsSpace(s[i]) then 1 + SpaceRun(s, i + 1) else 0
  }

  predicate KeywordAt(s: string, p: nat) {
    p + 9 <= |s| && (s[p..p + 9] == "DELIMITER" || s[p..p + 9] == "delimiter")
  }

  /** The pattern matches the text `s[p..e]`. */
  ghost predicate TerminatorAt(s: string, p: nat, e: nat) {
    KeywordAt(s, p) && p + 11 <= e <= |s| && s[e - 1] == ';' &&
    forall k :: p + 9 <= k < e - 1 ==> IsSpace(s[k])
  }

  /** The end of the match starting at `p`, if the pattern matches there. */
  function MatchEndAt(s: string, p: nat): (r: Option<nat>)
    ensures forall e: nat :: TerminatorAt(s, p, e) <==> r == Some(e)
  {
    if KeywordAt(s, p) then
      var n := SpaceRun(s, p + 9);
      if n > 0 && p + 9 + n < |s| && s[p + 9 + n] == ';' then Some(p + 9 + n + 1) else None
    else None
  }

  /** The leftmost match at or after `p`, as (start, end). */
  function LeftmostFrom(s: string, p: nat): (r: Option<(nat, nat)>)
    ensures r.None? ==> forall q: nat, e: nat :: p <= q ==> !TerminatorAt(s, q, e)
    ensures r.Some? ==> p <= r.value.0 && TerminatorAt(s, r.value.0, r.value.1)
    ensures r.Some? ==> forall q: nat, e: nat :: p <= q < r.value.0 ==> !TerminatorAt(s, q, e)
    decreases |s| - p
  {
    if p + 9 > |s| then None
    else match MatchEndAt(s, p)
      case Some(e) => Some((p, e))
      case None => LeftmostFrom(s, p + 1)
  }

  /** Whether the command ends by restoring the ";" delimiter: true when the
      leftmost match ends the string, an error when it ends earlier, false
      when nothing matches. */
  function IsTerminatingDelimiterLine(command: string): Result<bool, string> {
    match LeftmostFrom(command, 0)
    case None => Ok(false)
    case Some((_, e)) =>
      if e != |command| then
        Err("IsTerminatingDelimiterLine: delimiter line contains unexpected characters \"" + command + "\"")
      else Ok(true)
  }

  ghost predicate IsLeftmostMatch(s: string, p: nat, e: nat) {
    TerminatorAt(s, p, e) && forall q: nat, e': nat :: q < p ==> !TerminatorAt(s, q, e')
  }

  /** The three outcomes, stated over the leftmost match of the pattern. */
  lemma TerminatingOutcomes(command: string)
    ensures IsTerminatingDelimiterLine(command) == Ok(true) <==>
      exists p: nat :: IsLeftmostMatch(command, p, |command|)
    ensures IsTerminatingDelimiterLine(command).Err? <==>
      exists p: nat, e: nat :: IsLeftmostMatch(command, p, e) && e != |command|
    ensures IsTerminatingDelimiterLine(command) == Ok(false) <==>
      forall p: nat, e: nat :: !TerminatorAt(command, p, e)
  {
    var m := LeftmostFrom(command, 0);
    if m.Some? {
      var (p, e) := m.value;
      assert IsLeftmostMatch(command, p, e);
      forall p': nat, e': nat | IsLeftmostMatch(command, p', e') ensures p' == p && e' == e {
        assert !(p' < p) && !(p < p');
        assert MatchEndAt(command, p) == Some(e) && MatchEndAt(command, p) == Some(e');
      }
    }
  }

  // ---------------------------------------------------------------------------
  // FormatMultiqueryString

  /** What one formatted chunk `c` does, given whether a DELIMITER block is
      open and the chunks gathered in it: the statements it emits, and the new
      block state. */
  function Step(c: string, open: bool, pending: seq<string>): (seq<string>, bool, seq<string>) {
    if |c| == 0 then ([], open, pending)
    else if DelimiterCommandIndex(c) == 0 then ([], true, pending + [c])
    else if open then
      if IsTerminatingDelimiterLine(c) == Ok(true) then
        ([FormatQuery(Join(pending + [c], " "))], false, [])
      else ([], true, pending + [c])
    else ([c], open, pending)
  }

  /** The statements produced from the ";\n"-separated chunks, given whether a
      DELIMITER block is open and the chunks gathered in it so far. */
  function Assemble(chunks: seq<string>, open: bool, pending: seq<string>): seq<string>
    decreases |chunks|
  {
    if |chunks| == 0 then []
    else
      var (emitted, open', pending') := Step(FormatQuery(chunks[0]), open, pending);
      emitted + Assemble(chunks[1..], open', pending')
  }

  /** Splits a script into statements: cut after every ";\n", format each
      chunk, skip empty ones, and gather a DELIMITER block up to its
      terminating chunk into one statement; an unterminated block is dropped. */
  method FormatMultiqueryString(q: string) returns (statements: seq<string>)
    ensures statements == Assemble(SplitAfter(q, ";\n"), false, [])
    ensures forall k :: 0 <= k < |statements| ==> statements[k] != "" && '\n' !in statements[k]
  {
    var chunks := SplitAfter(q, ";\n");
    statements := [];
    var open := false;
    var pending: seq<string> := [];
    for i := 0 to |chunks|
      invariant statements + Assemble(chunks[i..], open, pending) == Assemble(chunks, false, [])
    {
      var c := FormatQueryString(chunks[i]);
      AssembleFrom(chunks, i, open, pending);
      ghost var before := statements;
      var emitted;
      emitted, open, pending := HandleChunk(c, open, pending);
      statements := statements + emitted;
      ghost var tail := Assemble(chunks[i + 1..], open, pending);
      AppendAssoc(before, emitted, tail);
    }
    assert chunks[|chunks|..] == [];
    AssembleClean(chunks, false, []);
  }

  lemma AppendAssoc(a: seq<string>, b: seq<string>, c: seq<string>)
    ensures (a + b) + c == a + (b + c)
  {
  }

  /** Assemble on the chunks from position `i` is the step for chunk `i`
      followed by Assemble on the chunks after it. */
  lemma AssembleFrom(chunks: seq<string>, i: nat, open: bool, pending: seq<string>)
    requires i < |chunks|
    ensures var (emitted, open', pending') := Step(FormatQuery(chunks[i]), open, pending);
      Assemble(chunks[i..], open, pending) == emitted + Assemble(chunks[i + 1..], open', pending')
  {
    assert chunks[i..][0] == chunks[i];
    assert chunks[i..][1..] == chunks[i + 1..];
  }

  /** The body of the loop in FormatMultiqueryString for one formatted chunk. */
  method HandleChunk(c: string, open: bool, pending: seq<string>)
    returns (emitted: seq<string>, open': bool, pending': seq<string>)
    ensures (emitted, open', pending') == Step(c, open, pending)
  {
    emitted, open', pending' := [], open, pending;
    if |c| == 0 {
      return;
    }
    if DelimiterCommandIndex(c) == 0 {
      open' := true;
      pending' := pending + [c];
    } else if open {
      pending' := pending + [c];
      var terminates := IsTerminatingDelimiterLine(c);
      if terminates == Ok(true) {
        open' := false;
        var block := FormatQueryString(Join(pending', " "));
        emitted := [block];
        pending' := [];
      }
    } else {
      emitted := [c];
    }
  }

  ghost predicate Statement(t: string) {
    Formatted(t) && t != ""
  }

  /** Joining non-empty formatted statements with spaces gives a formatted statement. */
  lemma {:induction false} JoinStatements(parts: seq<string>)
    requires |parts| > 0 && forall k :: 0 <= k < |parts| ==> Statement(parts[k])
    ensures Statement(Join(parts, " "))
  {
    var j := Join(parts, " ");
    forall k | 0 <= k < |parts| ensures '\n' !in parts[k] && !Contains(parts[k], "--") { }
    JoinExcludesChar(parts, " ", '\n');
    JoinExcludesPattern(parts, ' ', "--");
    if |parts| > 1 {
      JoinStatements(parts[1..]);
      var rest := Join(parts[1..], " ");
      assert j == parts[0] + " " + rest;
      assert j[0] == parts[0][0];
      assert j[|j| - 1] == rest[|rest| - 1];
    }
  }

  /** Every element is a statement. */
  ghost predicate AllStatements(ts: seq<string>) {
    forall k :: 0 <= k < |ts| ==> Statement(ts[k])
  }

  lemma AllStatementsAppend(a: seq<string>, b: seq<string>)
    requires AllStatements(a) && AllStatements(b)
    ensures AllStatements(a + b)
  {
    forall k | 0 <= k < |a + b| ensures Statement((a + b)[k]) {
      if k >= |a| {
        assert (a + b)[k] == b[k - |a|];
      }
    }
  }

  /** One step on a formatted chunk emits only statements and keeps only
      statements pending. */
  lemma StepClean(c: string, open: bool, pending: seq<string>)
    requires Formatted(c)
    requires AllStatements(pending)
    ensures AllStatements(Step(c, open, pending).0)
    ensures AllStatements(Step(c, open, pending).2)
  {
    if |c| == 0 {
    } else if DelimiterCommandIndex(c) == 0 {
      AllStatementsAppend(pending, [c]);
    } else if open {
      AllStatementsAppend(pending, [c]);
      if IsTerminatingDelimiterLine(c) == Ok(true) {
        JoinStatements(pending + [c]);
        FormatQueryFixpoint(Join(pending + [c], " "));
      }
    }
  }

  /** Every statement produced is non-empty and holds no newline. */
  lemma {:induction false} AssembleClean(chunks: seq<string>, open: bool, pending: seq<string>)
    requires AllStatements(pending)
    ensures AllStatements(Assemble(chunks, open, pending))
    decreases |chunks|
  {
    if |chunks| > 0 {
      var c := FormatQuery(chunks[0]);
      FormatQueryIsFormatted(chunks[0]);
      var st := Step(c, open, pending);
      StepClean(c, open, pending);
      AssembleClean(chunks[1..], st.1, st.2);
      assert Assemble(chunks, open, pending) == st.0 + Assemble(chunks[1..], st.1, st.2);
      AllStatementsAppend(st.0, Assemble(chunks[1..], st.1, st.2));
    }
  }

  /** The chunks that are kept when no DELIMITER block is involved. */
  function NonEmptyFormatted(chunks: seq<string>): seq<string> {
    if |chunks| == 0 then []
    else
      var c := FormatQuery(chunks[0]);
      (if c == "" then [] else [c]) + NonEmptyFormatted(chunks[1..])
  }

  /** Without any chunk starting with "delimiter", every non-empty formatted
      chunk is a statement of its own, in order. */
  lemma {:induction false} AssembleWithoutDelimiters(chunks: seq<string>)
    requires forall k :: 0 <= k < |chunks| ==> DelimiterCommandIndex(FormatQuery(chunks[k])) != 0
    ensures Assemble(chunks, false, []) == NonEmptyFormatted(chunks)
  {
    if |chunks| > 0 {
      AssembleWithoutDelimiters(chunks[1..]);
    }
  }

  /** A chunk that could close an open block. */
  predicate Closes(chunk: string) {
    var c := FormatQuery(chunk);
    c != "" && DelimiterCommandIndex(c) != 0 && IsTerminatingDelimiterLine(c) == Ok(true)
  }

  /** An open block that no later chunk closes produces nothing. */
  lemma {:induction false} UnterminatedBlockDropped(chunks: seq<string>, pending: seq<string>)
    requires forall k :: 0 <= k < |chunks| ==> !Closes(chunks[k])
    ensures Assemble(chunks, true, pending) == []
  {
    if |chunks| > 0 {
      var c := FormatQuery(chunks[0]);
      if |c| == 0 {
        UnterminatedBlockDropped(chunks[1..], pending);
      } else {
        UnterminatedBlockDropped(chunks[1..], pending + [c]);
      }
    }
  }

  // ---------------------------------------------------------------------------
  // IsSelectQuery

  /** The text before the first space, lower-cased, is "select". */
  function IsSelectQuery(command: string): bool {
    ToLower(Split(command, " ")[0]) == "select"
  }

  /** A command is a SELECT exactly when it starts with the six letters
      "select" in any case, followed by a space or by nothing. */
  lemma IsSelectQueryIff(command: string)
    ensures IsSelectQuery(command) <==>
      |command| >= 6 && ToLower(command[..6]) == "select" && (|command| == 6 || command[6] == ' ')
  {
    var i := IndexOf(command, " ");
    var first := Split(command, " ")[0];
    assert first == if i == -1 then command else command[..i];
    if |command| >= 6 && ToLower(command[..6]) == "select" && (|command| == 6 || command[6] == ' ') {
      forall k | 0 <= k < 6 ensures command[k] != ' ' {
        assert ToLower(command[..6])[k] == LowerChar(command[k]);
      }
      if |command| == 6 {
        forall j: nat ensures !OccursAt(command, " ", j) {
          if j < 6 { assert command[j..j + 1] == [command[j]]; }
        }
        assert command[..6] == command;
      } else {
        assert OccursAt(command, " ", 6);
        forall j: nat | j < 6 ensures !OccursAt(command, " ", j) {
          assert command[j..j + 1] == [command[j]];
        }
        assert i == 6;
      }
    }
    if IsSelectQuery(command) {
      assert |first| == 6;
      if i != -1 {
        assert command[i..i + 1] == " ";
      }
    }
  }

  /** A word that lower-cases to "select", then a space, starts a SELECT. */
  lemma SelectFollowedBySpace(w: string, rest: string)
    requires ToLower(w) == "select"
    ensures IsSelectQuery(w + " " + rest)
  {
    var q := w + " " + rest;
    assert q[..6] == w;
    assert q[6] == ' ';
    IsSelectQueryIff(q);
  }

  /** An upper-case keyword followed by a space is a SELECT. */
  lemma UpperCaseSelect()
    ensures IsSelectQuery("SELECT * FROM t")
  {
    var w := "SELECT";
    assert ToLower(w) == "select" by {
      var l := ToLower(w);
      assert l[0] == 's';
      assert l[1] == 'e';
      assert l[2] == 'l';
      assert l[3] == 'e';
      assert l[4] == 'c';
      assert l[5] == 't';
    }
    SelectFollowedBySpace(w, "* FROM t");
    assert w + " " + "* FROM t" == "SELECT * FROM t";
  }

  /** A newline does not end the keyword. */
  lemma NewlineAfterSelect()
    ensures !IsSelectQuery("select\n1")
  {
    var q := "select\n1";
    IsSelectQueryIff(q);
    assert q[6] == '\n';
  }

  /** A leading blank hides the keyword. */
  lemma BlankBeforeSelect()
    ensures !IsSelectQuery(" select 1")
  {
    var q := " select 1";
    IsSelectQueryIff(q);
    assert ToLower(q[..6])[0] == LowerChar(' ');
  }

  /** Only a space ends the keyword: a newline after it, or a leading blank,
      makes the command a non-SELECT. */
  lemma IsSelectQueryExamples()
    ensures IsSelectQuery("SELECT * FROM t")
    ensures !IsSelectQuery("select\n1")
    ensures !IsSelectQuery(" select 1")
  {
    UpperCaseSelect();
    NewlineAfterSelect();
    BlankBeforeSelect();
  }
}
