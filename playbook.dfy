/** The playbook read from YAML, and the merge of the `-var key=value`
    command-line variables into it. */
module Playbooks {

  /** A playbook variable: a string given on the command line, or whatever the
      YAML decoder produced (kept as its source text). */
  datatype Value = CliValue(text: string) | YamlValue(node: string)

  /** A Go map, shared by every copy of the playbook that refers to it. */
  class VariableMap {
    var entries: map<string, Value>

    constructor()
      ensures entries == map[]
    {
      entries := map[];
    }
  }

  datatype Target = Target(name: string, targetType: string, host: string, database: string,
                           port: string, username: string, password: string, region: string,
                           account: string, warehouse: string, project: string, ssl: bool)

  datatype Query = Query(name: string, file: string, template: bool)

  datatype Step = Step(name: string, queries: seq<Query>)

  /** `Variables` is a reference: copying the playbook does not copy the map. */
  datatype Playbook = Playbook(targets: seq<Target>, variables: VariableMap, steps: seq<Step>)

  /** A playbook with no targets, no steps and an empty (allocated) variable map. */
  method NewPlaybook() returns (p: Playbook)
    ensures fresh(p.variables)
    ensures p.targets == [] && p.steps == [] && p.variables.entries == map[]
  {
    var vars := new VariableMap();
    p := Playbook([], vars, []);
  }

  /** The variables after the command-line ones are written over them. */
  function Merged(vars: map<string, Value>, cli: map<string, string>): (r: map<string, Value>)
    ensures r.Keys == vars.Keys + cli.Keys
    ensures forall k :: k in cli ==> r[k] == CliValue(cli[k])
    ensures forall k :: k in vars && k !in cli ==> r[k] == vars[k]
  {
    vars + map k | k in cli :: CliValue(cli[k])
  }

  /** Merging nothing changes nothing. */
  lemma MergedNothing(vars: map<string, Value>)
    ensures Merged(vars, map[]) == vars
  {
  }

  /** Merging the same variables twice is merging them once. */
  lemma MergedIdempotent(vars: map<string, Value>, cli: map<string, string>)
    ensures Merged(Merged(vars, cli), cli) == Merged(vars, cli)
  {
  }

  /** The playbook's variables with the command-line keys in `done` written over them. */
  function MergedSoFar(vars: map<string, Value>, cli: map<string, string>, done: set<string>): map<string, Value>
    requires done <= cli.Keys
  {
    vars + map k | k in done :: CliValue(cli[k])
  }

  /** Writing one more command-line key extends the merge by that key. */
  lemma MergeOneMore(vars: map<string, Value>, cli: map<string, string>, done: set<string>, k: string)
    requires done <= cli.Keys && k in cli
    ensures MergedSoFar(vars, cli, done)[k := CliValue(cli[k])] == MergedSoFar(vars, cli, done + {k})
  {
  }

  /** Writes every command-line variable into the playbook's map, in whatever
      order the map is walked.  The receiver is a copy, but the map it refers to
      is the caller's, so the caller sees the new variables. */
  method MergeCLIVariables(p: Playbook, cli: map<string, string>) returns (r: Playbook)
    modifies p.variables
    ensures r == p
    ensures p.variables.entries == Merged(old(p.variables.entries), cli)
  {
    var remaining := cli.Keys;
    ghost var done: set<string> := {};
    while remaining != {}
      invariant remaining <= cli.Keys && done == cli.Keys - remaining
      invariant p.variables.entries == MergedSoFar(old(p.variables.entries), cli, done)
      decreases remaining
    {
      var k :| k in remaining;
      MergeOneMore(old(p.variables.entries), cli, done, k);
      p.variables.entries := p.variables.entries[k := CliValue(cli[k])];
      remaining := remaining - {k};
      done := done + {k};
    }
    assert done == cli.Keys;
    r := p;
  }

  /** A new playbook merged with no variables is still a new playbook. */
  method MergeNothingIntoNew() returns (r: Playbook)
    ensures r.targets == [] && r.steps == [] && r.variables.entries == map[]
  {
    var p := NewPlaybook();
    r := MergeCLIVariables(p, map[]);
  }

  /** Command-line values win over the playbook's own values for the same key. */
  method CliOverridesPlaybook() returns (r: Playbook)
    ensures r.variables.entries == map["a" := CliValue("cli"), "b" := YamlValue("2")]
  {
    var p := NewPlaybook();
    p.variables.entries := map["a" := YamlValue("1"), "b" := YamlValue("2")];
    r := MergeCLIVariables(p, map["a" := "cli"]);
  }
}
