/** The older command-line options: only the playbook, the SQL root and the
    variables.  The `-var` flag is the same `key=value` map as in the newer
    options. */
module LegacyOptions {
  import CliOptions

  datatype Options = Options(help: bool, version: bool, playbook: string, sqlroot: string,
                             variables: CliOptions.CliVariables)

  /** Every field at its zero value and an empty, allocated variables map. */
  method NewOptions() returns (o: Options)
    ensures fresh(o.variables) && o.variables.entries == map[]
    ensures o == Options(false, false, "", "", o.variables)
  {
    var vars := new CliOptions.CliVariables();
    o := Options(false, false, "", "", vars);
  }
}
