/** streamlit/session.py: the connector used by the web app. Importing the module
    already reads all seven variables into a module-level dict, so an unset one raises
    `KeyError` at import, before the class's own check can run. */
module StreamlitSession {
  import opened Py
  import opened Connection

  const Required := [
    "SNOWFLAKE_ACCOUNT", "SNOWFLAKE_USER", "SNOWFLAKE_PASSWORD", "SNOWFLAKE_ROLE",
    "SNOWFLAKE_DATABASE", "SNOWFLAKE_WAREHOUSE", "SNOWFLAKE_SCHEMA"]

  const Params := [
    Param("account", "SNOWFLAKE_ACCOUNT"),
    Param("user", "SNOWFLAKE_USER"),
    Param("password", "SNOWFLAKE_PASSWORD"),
    Param("role", "SNOWFLAKE_ROLE"),
    Param("database", "SNOWFLAKE_DATABASE"),
    Param("warehouse", "SNOWFLAKE_WAREHOUSE"),
    Param("schema", "SNOWFLAKE_SCHEMA")]

  const MissingPrefix := "Missing required enviroment variable: "

  const Connector := Profile(Required, Params, MissingPrefix)

  /** The module-level `connection_parameters`, read when the module is imported. */
  function ModuleParameters(env: map<string, string>): (r: Result<map<string, string>>)
    ensures r.Ok? <==> forall j :: 0 <= j < |Required| ==> Required[j] in env
  {
    assert Variables(Params) == Required;
    ReadParams(Params, env)
  }

  /** Importing fails with `KeyError` naming the first unset variable. */
  lemma ImportFailsFirst(env: map<string, string>, k: nat)
    requires k < |Required| && Required[k] !in env
    requires forall j :: 0 <= j < k ==> Required[j] in env
    ensures ModuleParameters(env) == Err(KeyError(Required[k]))
  {
    assert Variables(Params) == Required;
    FirstMissingAt(Required, env, k);
  }

  /** Whenever the constructor would raise its `ValueError`, the import has already
      raised `KeyError` for the same variable; once the import succeeded the
      constructor succeeds too, with the module-level parameters. */
  lemma CheckUnreachableAfterImport(env: map<string, string>)
    ensures Validate(Connector, env).Err? ==>
              exists v :: Validate(Connector, env) == Err(ValueError("Missing required enviroment variable: " + v))
                          && ModuleParameters(env) == Err(KeyError(v))
    ensures ModuleParameters(env).Ok? ==> Validate(Connector, env) == ModuleParameters(env)
  {
    assert Variables(Params) == Required;
    var m := FirstMissingOf(Required, env);
    if m.Some? {
      assert Validate(Connector, env) == Err(ValueError(MissingPrefix + m.value));
      assert FirstMissingOf(Variables(Params), env) == m;
      assert ReadParams(Params, env).Err?;
      assert ModuleParameters(env) == Err(KeyError(m.value));
    }
  }
}
