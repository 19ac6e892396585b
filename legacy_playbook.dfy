/** The older playbook package: a smaller target record, and a parse that
    merges the command-line variables only when it succeeded. */
module LegacyPlaybook {
  import opened Wrappers
  import Playbooks

  datatype Target = Target(name: string, targetType: string, host: string, database: string,
                           port: string, username: string, password: string, ssl: bool)

  /** Steps and queries have the same fields as in the newer package. */
  datatype Playbook = Playbook(targets: seq<Target>, variables: Playbooks.VariableMap,
                               steps: seq<Playbooks.Step>)

  method NewPlaybook() returns (p: Playbook)
    ensures fresh(p.variables)
    ensures p.targets == [] && p.steps == [] && p.variables.entries == map[]
  {
    var vars := new Playbooks.VariableMap();
    p := Playbook([], vars, []);
  }

  /** Writes every command-line variable into the (shared) variable map. */
  method MergeCLIVariables(p: Playbook, cli: map<string, string>) returns (r: Playbook)
    modifies p.variables
    ensures r == p
    ensures p.variables.entries == Playbooks.Merged(old(p.variables.entries), cli)
  {
    var remaining := cli.Keys;
    ghost var done: set<string> := {};
    while remaining != {}
      invariant remaining <= cli.Keys && done == cli.Keys - remaining
      invariant p.variables.entries == Playbooks.MergedSoFar(old(p.variables.entries), cli, done)
      decreases remaining
    {
      var k :| k in remaining;
      Playbooks.MergeOneMore(old(p.variables.entries), cli, done, k);
      p.variables.entries := p.variables.entries[k := Playbooks.CliValue(cli[k])];
      remaining := remaining - {k};
      done := done + {k};
    }
    assert done == cli.Keys;
    r := p;
  }

  /** The map a successful parse would write to, and nothing otherwise. */
  function MergeTarget(parsed: Result<Playbook, string>): set<Playbooks.VariableMap> {
    if parsed.Ok? then {parsed.value.variables} else {}
  }

  /** Given the outcome of reading and decoding the playbook: on success the
      command-line variables are merged in; an error is returned as it is and
      nothing is merged. */
  method ParsePlaybook(parsed: Result<Playbook, string>, cli: map<string, string>)
    returns (r: Result<Playbook, string>)
    modifies MergeTarget(parsed)
    ensures r == parsed
    ensures parsed.Ok? ==>
      parsed.value.variables.entries == Playbooks.Merged(old(parsed.value.variables.entries), cli)
  {
    r := parsed;
    if parsed.Ok? {
      var merged := MergeCLIVariables(parsed.value, cli);
      r := Ok(merged);
    }
  }
}
