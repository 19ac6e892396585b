/** Reading a query's SQL and filling it in as a template.  Where the SQL is
    stored and how templates are parsed and executed are parameters. */
module QueryPrep {
  import opened Wrappers
  import Playbooks

  /** A source of SQL text: local files under the SQL root, or Consul keys. */
  datatype SqlProvider = SqlProvider(resolveKey: string -> string,
                                     getSql: string -> Result<string, string>)

  /** The template engine: a parse that may fail with a message, and an
      execution against the playbook variables that may fail too. */
  datatype TemplateEngine = TemplateEngine(
    parse: string -> Option<string>,
    execute: (string, map<string, Playbooks.Value>) -> Result<string, string>)

  /** Parses then executes the script as a template; either failure is returned. */
  function FillTemplate(script: string, variables: map<string, Playbooks.Value>,
                        engine: TemplateEngine): (r: Result<string, string>)
    ensures r.Err? <==> engine.parse(script).Some? || engine.execute(script, variables).Err?
    ensures engine.parse(script).Some? ==> r == Err(engine.parse(script).value)
    ensures engine.parse(script).None? ==> r == engine.execute(script, variables)
  {
    match engine.parse(script)
    case Some(e) => Err(e)
    case None => engine.execute(script, variables)
  }

  /** Fetches the SQL; a template query is filled in as well. */
  function PrepareQuery(queryPath: string, sp: SqlProvider, template: bool,
                        variables: map<string, Playbooks.Value>, engine: TemplateEngine): Result<string, string>
  {
    match sp.getSql(queryPath)
    case Err(e) => Err(e)
    case Ok(script) => if template then FillTemplate(script, variables, engine) else Ok(script)
  }

  /** The outcomes of preparing a query: a fetch error comes first, a plain
      query is the fetched text unchanged, a template query is the filled text,
      and a failure anywhere yields no text. */
  lemma PrepareQueryOutcomes(queryPath: string, sp: SqlProvider, template: bool,
                             variables: map<string, Playbooks.Value>, engine: TemplateEngine)
    ensures var r := PrepareQuery(queryPath, sp, template, variables, engine);
      && (sp.getSql(queryPath).Err? ==> r == Err(sp.getSql(queryPath).error))
      && (sp.getSql(queryPath).Ok? && !template ==> r == sp.getSql(queryPath))
      && (sp.getSql(queryPath).Ok? && template ==>
            r == FillTemplate(sp.getSql(queryPath).value, variables, engine))
      && (r.Ok? <==>
            (sp.getSql(queryPath).Ok? &&
             (template ==> engine.parse(sp.getSql(queryPath).value).None? &&
                           engine.execute(sp.getSql(queryPath).value, variables).Ok?)))
  {
  }
}
