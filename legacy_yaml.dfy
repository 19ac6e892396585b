/** The older Ruby-YAML cleaner, which receives the playbook already cut into lines. */
module LegacyYaml {
  import opened YamlUtils

  /** Writes the cleaned form of every line, each followed by a newline, into one buffer. */
  method CleanRubyYaml(lines: seq<string>) returns (cleaned: string)
    ensures cleaned == CleanLines(lines)
    ensures (forall k :: 0 <= k < |lines| ==> '\n' !in lines[k]) ==> Count(cleaned, '\n') == |lines|
    ensures |lines| == 0 ==> cleaned == ""
  {
    cleaned := "";
    for i := 0 to |lines|
      invariant cleaned == CleanLines(lines[..i])
    {
      cleaned := cleaned + RubyYamlReplace(lines[i]);
      assert lines[..i + 1][..i] == lines[..i];
    }
    assert lines[..|lines|] == lines;
    if forall k :: 0 <= k < |lines| ==> '\n' !in lines[k] {
      CleanLinesNewlines(lines);
    }
  }
}
