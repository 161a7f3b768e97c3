/**
 * Configuration of the two dataset runners: the configuration record read
 * from the environment (and, for the dataset script, the command line),
 * the required-field check and the required-environment check, each of
 * which names every missing entry in its error message.
 */
module RunConfig {
  import opened Wrappers
  import opened Values
  import opened Text

  /**
   * Which runner is configured. The dataset runner names a fixed dataset
   * and reads the graph id from `INKEEP_AGENT_ID`; the dataset script takes
   * the dataset id as its first argument and reads `INKEEP_GRAPH_ID`.
   */
  datatype Runner = DatasetRunner | DatasetScript

  /** The configuration field that designates the dataset. */
  function DatasetKey(runner: Runner): string {
    match runner
    case DatasetRunner => "datasetName"
    case DatasetScript => "datasetId"
  }

  /** The environment variable the graph id is read from. */
  function GraphVar(runner: Runner): string {
    match runner
    case DatasetRunner => "INKEEP_AGENT_ID"
    case DatasetScript => "INKEEP_GRAPH_ID"
  }

  /** The dataset the dataset runner always evaluates. */
  const FixedDatasetName: string := "inkeep-weather-example-dataset"

  /** A configuration before validation: every field may be unset. */
  datatype PartialConfig = PartialConfig(
    dataset: Option<string>,
    tenantId: Option<string>,
    projectId: Option<string>,
    graphId: Option<string>,
    runName: Option<string>,
    baseUrl: Option<string>,
    apiKey: Option<string>)

  /** A validated configuration: the four required fields are non-empty strings. */
  datatype Config = Config(
    dataset: string,
    tenantId: string,
    projectId: string,
    graphId: string,
    runName: Option<string>,
    baseUrl: Option<string>,
    apiKey: Option<string>)

  /** The required configuration fields, in the order they are checked. */
  function RequiredFields(runner: Runner): seq<string> {
    [DatasetKey(runner), "tenantId", "projectId", "graphId"]
  }

  /** The environment variables that must be set and non-empty. */
  const RequiredEnvVars: seq<string> := [
    "LANGFUSE_PUBLIC_KEY",
    "LANGFUSE_SECRET_KEY",
    "LANGFUSE_BASE_URL",
    "INKEEP_AGENTS_RUN_API_KEY",
    "INKEEP_AGENTS_RUN_API_URL"
  ]

  /** `config[key]` for a required field name. */
  function FieldOf(c: PartialConfig, runner: Runner, key: string): Option<string> {
    if key == DatasetKey(runner) then c.dataset
    else if key == "tenantId" then c.tenantId
    else if key == "projectId" then c.projectId
    else if key == "graphId" then c.graphId
    else None
  }

  /** `names.filter(n => !value(n))`: the names whose value is unset or empty, in order. */
  function MissingNames(names: seq<string>, value: string -> Option<string>): (missing: seq<string>)
    ensures |missing| <= |names|
  {
    if names == [] then []
    else
      var rest := MissingNames(names[1..], value);
      if Present(value(names[0])) then rest else [names[0]] + rest
  }

  /** A name is reported missing exactly when it is listed and its value is unset or empty. */
  lemma {:induction false} MissingNamesMembers(names: seq<string>, value: string -> Option<string>)
    ensures forall n :: n in MissingNames(names, value) <==> n in names && !Present(value(n))
  {
    if names != [] {
      MissingNamesMembers(names[1..], value);
      assert forall n :: n in names <==> n == names[0] || n in names[1..];
    }
  }

  /**
   * The filter keeps order, which fixes the text of the error message: the
   * missing names of a concatenation are those of each part, in turn, and a
   * single name is missing exactly when its value is unset or empty.
   */
  lemma {:induction false} MissingNamesInOrder(a: seq<string>, b: seq<string>, value: string -> Option<string>)
    ensures MissingNames(a + b, value) == MissingNames(a, value) + MissingNames(b, value)
    ensures |a| == 1 ==> MissingNames(a, value) == if Present(value(a[0])) then [] else a
  {
    if a != [] {
      assert (a + b)[1..] == a[1..] + b;
      MissingNamesInOrder(a[1..], b, value);
      if |a| == 1 {
        assert a[1..] == [];
      }
    } else {
      assert a + b == b;
    }
  }

  /** The required fields of `c` that are unset or empty. */
  function MissingFields(c: PartialConfig, runner: Runner): (missing: seq<string>)
    ensures DatasetKey(runner) in missing <==> !Present(c.dataset)
    ensures "tenantId" in missing <==> !Present(c.tenantId)
    ensures "projectId" in missing <==> !Present(c.projectId)
    ensures "graphId" in missing <==> !Present(c.graphId)
    ensures forall n :: n in missing ==> n in RequiredFields(runner)
  {
    MissingNamesMembers(RequiredFields(runner), k => FieldOf(c, runner, k));
    MissingNames(RequiredFields(runner), k => FieldOf(c, runner, k))
  }

  function MissingParametersMessage(missing: seq<string>): string {
    "Missing required parameters: " + Join(missing, ", ")
  }

  function MissingEnvMessage(missing: seq<string>): string {
    "Missing required environment variables: " + Join(missing, ", ")
  }

  /**
   * `validateRequiredConfig`: fails exactly when a required field is unset
   * or empty, and the message lists every such field.
   */
  function ValidateRequiredConfig(c: PartialConfig, runner: Runner): (r: Option<string>)
    ensures r.None? <==> Present(c.dataset) && Present(c.tenantId) && Present(c.projectId) && Present(c.graphId)
    ensures r.Some? ==> MissingFields(c, runner) != []
                        && r.value == MissingParametersMessage(MissingFields(c, runner))
  {
    var missing := MissingFields(c, runner);
    if |missing| > 0 then
      assert missing[0] in RequiredFields(runner);
      Some(MissingParametersMessage(missing))
    else
      None
  }

  /** The required environment variables that are unset or empty. */
  function MissingEnvVars(env: map<string, string>): (missing: seq<string>)
    ensures forall n :: n in missing <==> n in RequiredEnvVars && !Present(Lookup(env, n))
  {
    MissingNamesMembers(RequiredEnvVars, n => Lookup(env, n));
    MissingNames(RequiredEnvVars, n => Lookup(env, n))
  }

  /**
   * `validateRequiredEnvVars`: fails exactly when a required variable is
   * unset or empty, and the message lists every such variable.
   */
  function ValidateRequiredEnvVars(env: map<string, string>): (r: Option<string>)
    ensures r.None? <==> forall i :: 0 <= i < |RequiredEnvVars| ==> Present(Lookup(env, RequiredEnvVars[i]))
    ensures r.Some? ==> MissingEnvVars(env) != [] && r.value == MissingEnvMessage(MissingEnvVars(env))
  {
    var missing := MissingEnvVars(env);
    NoneMissingIffAllPresent(env, RequiredEnvVars);
    if |missing| > 0 then Some(MissingEnvMessage(missing)) else None
  }

  /** The two ways of detecting a missing name agree: none missing exactly when all are present. */
  lemma NoneMissingIffAllPresent(env: map<string, string>, names: seq<string>)
    ensures MissingNames(names, n => Lookup(env, n)) == [] <==> AllPresent(env, names)
  {
    var missing := MissingNames(names, n => Lookup(env, n));
    MissingNamesMembers(names, n => Lookup(env, n));
    if missing != [] {
      assert missing[0] in missing;
    }
  }

  /** The message of the dataset script when no argument is given. */
  const UsageMessage: string := "Missing required parameter: dataset-id\nUsage: pnpm start <dataset-id>"

  /** The configuration as read, before validation. */
  function ReadConfig(runner: Runner, env: map<string, string>, args: seq<string>): (c: PartialConfig)
    requires runner.DatasetScript? ==> args != []
    ensures c.tenantId == Lookup(env, "INKEEP_TENANT_ID") && c.projectId == Lookup(env, "INKEEP_PROJECT_ID")
    ensures c.graphId == Lookup(env, GraphVar(runner))
    ensures c.runName == Lookup(env, "INKEEP_RUN_NAME")
    ensures c.baseUrl == Lookup(env, "INKEEP_AGENTS_RUN_API_URL") && c.apiKey == Lookup(env, "INKEEP_AGENTS_RUN_API_KEY")
    ensures c.dataset == Some(if runner.DatasetRunner? then FixedDatasetName else args[0])
  {
    PartialConfig(
      Some(if runner.DatasetRunner? then FixedDatasetName else args[0]),
      Lookup(env, "INKEEP_TENANT_ID"),
      Lookup(env, "INKEEP_PROJECT_ID"),
      Lookup(env, GraphVar(runner)),
      Lookup(env, "INKEEP_RUN_NAME"),
      Lookup(env, "INKEEP_AGENTS_RUN_API_URL"),
      Lookup(env, "INKEEP_AGENTS_RUN_API_KEY"))
  }

  /**
   * `parseAndValidateConfig`: the argument check (dataset script only), then
   * the required fields, then the required environment; the first failing
   * check gives the error.
   */
  function ParseAndValidateConfig(runner: Runner, env: map<string, string>, args: seq<string>): (r: Result<Config, string>)
    ensures runner.DatasetScript? && args == [] ==> r == Failure(UsageMessage)
    ensures ((runner.DatasetScript? ==> args != []) && ValidateRequiredConfig(ReadConfig(runner, env, args), runner).Some?)
            ==> r == Failure(ValidateRequiredConfig(ReadConfig(runner, env, args), runner).value)
    ensures ((runner.DatasetScript? ==> args != []) && ValidateRequiredConfig(ReadConfig(runner, env, args), runner).None?
             && ValidateRequiredEnvVars(env).Some?)
            ==> r == Failure(ValidateRequiredEnvVars(env).value)
    ensures r.Success? <==>
              && (runner.DatasetScript? ==> args != [])
              && ValidateRequiredConfig(ReadConfig(runner, env, args), runner).None?
              && ValidateRequiredEnvVars(env).None?
    ensures r.Success? ==> ReadConfig(runner, env, args) == PartialConfig(
              Some(r.value.dataset), Some(r.value.tenantId), Some(r.value.projectId), Some(r.value.graphId),
              r.value.runName, r.value.baseUrl, r.value.apiKey)
  {
    if runner.DatasetScript? && args == [] then Failure(UsageMessage)
    else
      var c := ReadConfig(runner, env, args);
      match ValidateRequiredConfig(c, runner)
      case Some(msg) => Failure(msg)
      case None =>
        match ValidateRequiredEnvVars(env)
        case Some(msg) => Failure(msg)
        case None =>
          Success(Config(c.dataset.value, c.tenantId.value, c.projectId.value, c.graphId.value,
                         c.runName, c.baseUrl, c.apiKey))
  }

  /**
   * A validated configuration carries a non-empty API key and base URL:
   * both are read from variables the environment check requires.
   */
  lemma ValidConfigHasEndpoint(runner: Runner, env: map<string, string>, args: seq<string>)
    ensures ParseAndValidateConfig(runner, env, args).Success? ==>
              && Present(ParseAndValidateConfig(runner, env, args).value.apiKey)
              && Present(ParseAndValidateConfig(runner, env, args).value.baseUrl)
  {
    if ParseAndValidateConfig(runner, env, args).Success? {
      assert Present(Lookup(env, RequiredEnvVars[3])) && Present(Lookup(env, RequiredEnvVars[4]));
    }
  }

  /** The dataset script configures the dataset named by its first argument. */
  lemma ScriptDatasetIsFirstArgument(env: map<string, string>, args: seq<string>)
    ensures ParseAndValidateConfig(DatasetScript, env, args).Success? ==>
              args != [] && ParseAndValidateConfig(DatasetScript, env, args).value.dataset == args[0]
  {
  }

  /** With the graph id alone unset, the dataset runner reports that field alone. */
  lemma {:induction false} OnlyGraphFieldMissing(c: PartialConfig)
    requires Present(c.dataset) && Present(c.tenantId) && Present(c.projectId) && !Present(c.graphId)
    ensures MissingFields(c, DatasetRunner) == ["graphId"]
  {
    var f := k => FieldOf(c, DatasetRunner, k);
    assert MissingNames(["graphId"], f) == ["graphId"];
    assert MissingNames(["projectId", "graphId"], f) == ["graphId"];
    assert MissingNames(["tenantId", "projectId", "graphId"], f) == ["graphId"];
    assert MissingNames(["datasetName", "tenantId", "projectId", "graphId"], f) == ["graphId"];
  }

  /** Scenario: only the graph id is unset; the message names that field alone. */
  lemma {:induction false} OnlyGraphMissing(env: map<string, string>)
    requires Lookup(env, "INKEEP_TENANT_ID") == Some("t") && Lookup(env, "INKEEP_PROJECT_ID") == Some("p")
    requires Lookup(env, "INKEEP_AGENT_ID") == None
    ensures ParseAndValidateConfig(DatasetRunner, env, []) == Failure("Missing required parameters: graphId")
  {
    var c := ReadConfig(DatasetRunner, env, []);
    OnlyGraphFieldMissing(c);
    assert Join(["graphId"], ", ") == "graphId";
    assert MissingParametersMessage(["graphId"]) == "Missing required parameters: graphId";
    assert ValidateRequiredConfig(c, DatasetRunner) == Some("Missing required parameters: graphId");
  }
}
