/** Cleaning of playbooks written for the Ruby YAML loader, whose keys start
    with a ':' (`:targets:`), and the playbook parse that follows it. */
module YamlUtils {
  import opened GoStrings
  import opened Wrappers

  // ---------------------------------------------------------------------------
  // The pattern ^(\s*-?\s*):?(.*)$ replaced by "${1}${2}\n"

  /** Go's `\s`: tab, newline, form feed, carriage return and space. */
  predicate IsSpace(c: char) {
    c == '\t' || c == '\n' || c == '\U{000C}' || c == '\r' || c == ' '
  }

  /** Length of the leading run of `\s` characters from position `i`. */
  function SpacesFrom(line: string, i: nat): (n: nat)
    requires i <= |line|
    ensures i + n <= |line|
    ensures forall k :: i <= k < i + n ==> IsSpace(line[k])
    ensures i + n == |line| || !IsSpace(line[i + n])
    decreases |line| - i
  {
    if i < |line| && IsSpace(line[i]) then 1 + SpacesFrom(line, i + 1) else 0
  }

  /** End of the first group `\s*-?\s*`, each part taken as long as possible. */
  function PrefixEnd(line: string): (p: nat)
    ensures p <= |line|
    ensures forall k :: 0 <= k < p ==> IsSpace(line[k]) || line[k] == '-'
    ensures forall j, k :: 0 <= j < k < p && line[j] == '-' ==> line[k] != '-'
    ensures p == |line| || (!IsSpace(line[p]) && (line[p] == '-' ==> '-' in line[..p]))
  {
    var a := SpacesFrom(line, 0);
    if a < |line| && line[a] == '-' then
      var p := a + 1 + SpacesFrom(line, a + 1);
      assert line[..p][a] == '-';
      p
    else a
  }

  /** Start of the second group: just after the optional ':'. */
  function RestStart(line: string): (q: nat)
    ensures PrefixEnd(line) <= q <= |line|
  {
    var p := PrefixEnd(line);
    if p < |line| && line[p] == ':' then p + 1 else p
  }

  /** The replacement applied to one line.  `.` does not match a newline, so a
      line with a newline after the prefix does not match and is left as it is. */
  function RubyYamlReplace(line: string): string {
    var p, q := PrefixEnd(line), RestStart(line);
    if '\n' in line[q..] then line else line[..p] + line[q..] + "\n"
  }

  /** A line without newlines always matches: the one ':' right after its
      prefix is dropped, the rest is kept verbatim, and a newline is added. */
  lemma ReplaceLine(line: string)
    requires '\n' !in line
    ensures var p := PrefixEnd(line);
      var r := RubyYamlReplace(line);
      if p < |line| && line[p] == ':' then line == r[..p] + ":" + r[p..|r| - 1] && r[|r| - 1] == '\n'
      else r == line + "\n"
  {
    var p, q := PrefixEnd(line), RestStart(line);
    assert '\n' !in line[q..] by {
      forall k | 0 <= k < |line| - q ensures line[q..][k] != '\n' {
        assert line[q..][k] == line[q + k];
      }
    }
    var r := RubyYamlReplace(line);
    if p < |line| && line[p] == ':' {
      assert r == line[..p] + line[p + 1..] + "\n";
      assert r[..p] == line[..p];
      assert r[p..|r| - 1] == line[p + 1..];
      assert line == line[..p] + ":" + line[p + 1..];
    } else {
      assert line[..p] + line[p..] == line;
    }
  }

  /** Number of occurrences of `c`. */
  function Count(s: string, c: char): nat {
    if |s| == 0 then 0 else (if s[0] == c then 1 else 0) + Count(s[1..], c)
  }

  lemma {:induction false} CountAppend(a: string, b: string, c: char)
    ensures Count(a + b, c) == Count(a, c) + Count(b, c)
  {
    if |a| > 0 {
      assert (a + b)[1..] == a[1..] + b;
      CountAppend(a[1..], b, c);
    } else {
      assert a + b == b;
    }
  }

  lemma {:induction false} CountAbsent(s: string, c: char)
    requires c !in s
    ensures Count(s, c) == 0
  {
    if |s| > 0 {
      CountAbsent(s[1..], c);
    }
  }

  /** Splitting at a one-character separator gives one more piece than there are separators. */
  lemma {:induction false} SplitPieceCount(s: string, c: char)
    ensures |Split(s, [c])| == Count(s, c) + 1
    decreases |s|
  {
    var i := IndexOf(s, [c]);
    ContainsChar(s, c);
    if i == -1 {
      CountAbsent(s, c);
    } else {
      var rest := s[i + 1..];
      SplitPieceCount(rest, c);
      assert c !in s[..i] by {
        forall j | 0 <= j < i ensures s[j] != c {
          assert !OccursAt(s, [c], j);
          assert s[j..j + 1] == [s[j]];
        }
      }
      assert s[i..i + 1] == [c];
      assert s == s[..i] + [c] + rest;
      CountAbsent(s[..i], c);
      CountAppend(s[..i] + [c], rest, c);
      CountAppend(s[..i], [c], c);
    }
  }

  // ---------------------------------------------------------------------------
  // cleanYaml

  /** The buffer after writing the replacement of every line, in order. */
  function CleanLines(lines: seq<string>): string {
    if |lines| == 0 then ""
    else CleanLines(lines[..|lines| - 1]) + RubyYamlReplace(lines[|lines| - 1])
  }

  /** Newline-free lines give exactly one newline each. */
  /** A replaced newline-free line is a newline-free body and one newline. */
  lemma ReplacedBody(line: string)
    requires '\n' !in line
    ensures var r := RubyYamlReplace(line);
      |r| > 0 && r == r[..|r| - 1] + "\n" && '\n' !in r[..|r| - 1]
  {
    ReplaceLine(line);
    var r := RubyYamlReplace(line);
    var p := PrefixEnd(line);
    var body := r[..|r| - 1];
    assert r == body + "\n";
    if p < |line| && line[p] == ':' {
      assert line == body[..p] + ":" + body[p..];
      assert '\n' !in body[..p] && '\n' !in body[p..];
      assert body == body[..p] + body[p..];
    }
  }

  lemma {:induction false} CleanLinesNewlines(lines: seq<string>)
    requires forall k :: 0 <= k < |lines| ==> '\n' !in lines[k]
    ensures Count(CleanLines(lines), '\n') == |lines|
  {
    if |lines| > 0 {
      var last := lines[|lines| - 1];
      CleanLinesNewlines(lines[..|lines| - 1]);
      ReplacedBody(last);
      var r := RubyYamlReplace(last);
      var body := r[..|r| - 1];
      CountAbsent(body, '\n');
      CountAppend(body, "\n", '\n');
      CountAppend(CleanLines(lines[..|lines| - 1]), r, '\n');
    }
  }

  /** Cuts the raw playbook at every newline and writes the cleaned lines, each
      followed by a newline, into one buffer. */
  method CleanYaml(rawYaml: string) returns (cleaned: string)
    ensures cleaned == CleanLines(Split(rawYaml, "\n"))
    ensures Count(cleaned, '\n') == Count(rawYaml, '\n') + 1
  {
    var lines := Split(rawYaml, "\n");
    cleaned := "";
    for i := 0 to |lines|
      invariant cleaned == CleanLines(lines[..i])
    {
      cleaned := cleaned + RubyYamlReplace(lines[i]);
      assert lines[..i + 1][..i] == lines[..i];
    }
    assert lines[..|lines|] == lines;
    SplitPiecesFree(rawYaml, "\n");
    forall k | 0 <= k < |lines| ensures '\n' !in lines[k] {
      ContainsChar(lines[k], '\n');
    }
    CleanLinesNewlines(lines);
    SplitPieceCount(rawYaml, '\n');
  }

  /** An empty (or nil) playbook cleans to a single newline. */
  lemma CleanEmpty()
    ensures CleanLines(Split("", "\n")) == "\n"
  {
    assert Split("", "\n") == [""];
    assert CleanLines([""]) == CleanLines([]) + RubyYamlReplace("");
  }

  /** A newline-free line with a ':' right after its prefix loses just that ':'. */
  lemma ColonDropped(line: string, p: nat)
    requires '\n' !in line
    requires PrefixEnd(line) == p && p < |line| && line[p] == ':'
    ensures RubyYamlReplace(line) == line[..p] + line[p + 1..] + "\n"
  {
    assert RestStart(line) == p + 1;
    var rest := line[p + 1..];
    assert '\n' !in rest by {
      forall k | 0 <= k < |rest| ensures rest[k] != '\n' {
        assert rest[k] == line[p + 1 + k];
      }
    }
  }

  /** A key written with a leading ':' loses it. */
  lemma CleanTopLevelKey()
    ensures RubyYamlReplace(":hello: world") == "hello: world\n"
  {
    var l := ":hello: world";
    assert PrefixEnd(l) == 0 by { assert SpacesFrom(l, 0) == 0; }
    assert '\n' !in l;
    ColonDropped(l, 0);
    assert l[1..] == "hello: world";
  }

  /** Four spaces, a ':' and a key: the first group is the four spaces. */
  lemma IndentedPrefix(indent: string, key: string)
    requires indent == "    "
    ensures PrefixEnd(indent + ":" + key) == 4
  {
    var l := indent + ":" + key;
    assert l[4] == ':';
    assert SpacesFrom(l, 4) == 0;
    assert SpacesFrom(l, 3) == 1;
    assert SpacesFrom(l, 2) == 2;
    assert SpacesFrom(l, 1) == 3;
    assert SpacesFrom(l, 0) == 4;
  }

  /** Indentation in front of the ':' is kept: "    :world: hello" becomes
      "    world: hello" and a newline. */
  lemma CleanIndentedKey()
    ensures RubyYamlReplace("    " + ":" + "world: hello") == "    " + "world: hello" + "\n"
  {
    var indent, key := "    ", "world: hello";
    var l := indent + ":" + key;
    IndentedPrefix(indent, key);
    assert '\n' !in l by {
      assert '\n' !in key;
    }
    ColonDropped(l, 4);
    assert l[..4] == indent && l[5..] == key;
  }

  // ---------------------------------------------------------------------------
  // parsePlaybookYaml

  /** The outcome of the YAML decoder: what it managed to fill in, and its error. */
  datatype Decoded<P> = Decoded(playbook: P, error: Option<string>)

  /** The playbook text handed to the template engine. */
  function Cleaned(rawYaml: string): string {
    CleanLines(Split(rawYaml, "\n"))
  }

  /** The parse as written: the template error is assigned to `err` and then
      overwritten by the decoder's error, so the decoder reads "" instead. */
  function ParsePlaybookYamlAsWritten<P>(rawYaml: string, variables: map<string, string>,
      fill: (string, map<string, string>) -> Result<string, string>,
      decode: string -> Decoded<P>): Decoded<P>
  {
    var str := match fill(Cleaned(rawYaml), variables)
      case Ok(s) => s
      case Err(_) => "";
    decode(str)
  }

  /** A template that fails, with a decoder that accepts the empty document,
      yields no error at all. */
  lemma TemplateErrorLost<P>(rawYaml: string, variables: map<string, string>,
      fill: (string, map<string, string>) -> Result<string, string>,
      decode: string -> Decoded<P>)
    requires fill(Cleaned(rawYaml), variables).Err?
    requires decode("").error.None?
    ensures ParsePlaybookYamlAsWritten(rawYaml, variables, fill, decode).error.None?
  {
  }

  /** The parse with the template error reported: only a filled template is
      decoded; a template error comes back with the untouched playbook. */
  function ParsePlaybookYaml<P>(rawYaml: string, variables: map<string, string>,
      fill: (string, map<string, string>) -> Result<string, string>,
      decode: string -> Decoded<P>, empty: P): (r: Decoded<P>)
    ensures fill(Cleaned(rawYaml), variables).Err? ==> r.error.Some?
    ensures r.error.None? ==>
      fill(Cleaned(rawYaml), variables).Ok? && decode(fill(Cleaned(rawYaml), variables).value).error.None?
  {
    match fill(Cleaned(rawYaml), variables)
    case Err(e) => Decoded(empty, Some(e))
    case Ok(s) => decode(s)
  }

  /** Every template error is reported, and a filled template is decoded as filled. */
  lemma TemplateErrorReported<P>(rawYaml: string, variables: map<string, string>,
      fill: (string, map<string, string>) -> Result<string, string>,
      decode: string -> Decoded<P>, empty: P)
    ensures var r := ParsePlaybookYaml(rawYaml, variables, fill, decode, empty);
      match fill(Cleaned(rawYaml), variables)
      case Err(e) => r.error == Some(e)
      case Ok(s) => r == decode(s)
  {
  }
}
