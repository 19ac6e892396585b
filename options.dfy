/** The command-line options and the repeatable `-var key=value` flag. */
module CliOptions {
  import opened GoStrings
  import opened Wrappers

  /** The key and value of a `key=value` argument: cut at the first '=', so
      the value may hold further '=' characters. */
  function KeyValue(arg: string): (r: Option<(string, string)>)
    ensures r.None? <==> '=' !in arg
    ensures r.Some? ==> r.value.0 + "=" + r.value.1 == arg && '=' !in r.value.0
  {
    var split := SplitFirst(arg, "=");
    ContainsChar(arg, '=');
    if |split| > 1 then
      ContainsChar(split[0], '=');
      Some((split[0], split[1]))
    else None
  }

  /** A value with '=' cuts at the first one, whatever follows. */
  lemma KeyValueExample()
    ensures KeyValue("a=b=c") == Some(("a", "b=c"))
  {
    KeyValueExampleAt("a=b=c", "a", "b=c");
  }

  /** The map behind the `-var` flag; the flag package calls Set once per occurrence. */
  class CliVariables {
    var entries: map<string, string>

    constructor()
      ensures entries == map[]
    {
      entries := map[];
    }

    /** Stores `key=value`, overwriting an earlier value for the key; an
        argument without '=' is ignored.  Never fails. */
    method Set(arg: string) returns (err: Option<string>)
      modifies this
      ensures err == None
      ensures KeyValue(arg).Some? ==> entries == old(entries)[KeyValue(arg).value.0 := KeyValue(arg).value.1]
      ensures KeyValue(arg).None? ==> entries == old(entries)
    {
      var split := SplitFirst(arg, "=");
      if |split| > 1 {
        var key := split[0];
        var val := split[1];
        entries := entries[key := val];
      }
      return None;
    }
  }

  /** Two `-var` flags for the same key: the later value wins. */
  method RepeatedKey() returns (vars: CliVariables)
    ensures vars.entries == map["a" := "2"]
  {
    vars := new CliVariables();
    KeyValueExampleAt("a=1", "a", "1");
    var _ := vars.Set("a=1");
    KeyValueExampleAt("a=2", "a", "2");
    var _ := vars.Set("a=2");
  }

  /** An argument without '=' leaves the variables as they were. */
  method ArgumentWithoutEquals() returns (vars: CliVariables)
    ensures vars.entries == map["b" := "x=y"]
  {
    vars := new CliVariables();
    KeyValueExampleAt("b=x=y", "b", "x=y");
    var _ := vars.Set("b=x=y");
    IgnoredArgument();
    var _ := vars.Set("ignored");
  }

  /** An argument without '=' has no key. */
  lemma IgnoredArgument()
    ensures KeyValue("ignored") == None
  {
    assert forall j :: 0 <= j < |"ignored"| ==> "ignored"[j] != '=';
  }

  /** A one-character key followed by '=' splits there. */
  lemma KeyValueExampleAt(arg: string, k: string, v: string)
    requires |k| == 1 && k != "=" && arg == k + "=" + v
    ensures KeyValue(arg) == Some((k, v))
  {
    assert arg[1] == '=';
    var r := KeyValue(arg).value;
    assert r.0 + "=" + r.1 == arg;
    assert forall j :: 0 <= j < |r.0| ==> r.0[j] == arg[j];
    assert arg[|r.0|] == '=';
    assert r.0 == arg[..1] == k;
    assert r.1 == arg[2..] == v;
  }

  datatype Options = Options(help: bool, version: bool, playbook: string, sqlroot: string,
                             fromStep: string, dryRun: bool, consul: string, lock: string,
                             softLock: string, checkLock: string, deleteLock: string,
                             runQuery: string, continueOnError: bool, variables: CliVariables)

  /** Options before any flag is read: every field at its zero value and an
      empty, allocated variables map. */
  method NewOptions() returns (o: Options)
    ensures fresh(o.variables) && o.variables.entries == map[]
    ensures o == Options(false, false, "", "", "", false, "", "", "", "", "", "", false, o.variables)
  {
    var vars := new CliVariables();
    o := Options(false, false, "", "", "", false, "", "", "", "", "", "", false, vars);
  }
}
