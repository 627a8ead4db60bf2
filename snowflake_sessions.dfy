/** snowflake/sessions.py: the connector used by the search module. It checks all
    seven variables it reads, database included, so its constructor can fail only with
    `ValueError`. */
module SnowflakeSessions {
  import opened Py
  import opened Connection

  const Required := [
    "SNOWFLAKE_ACCOUNT", "SNOWFLAKE_USER", "SNOWFLAKE_PASSWORD", "SNOWFLAKE_ROLE",
    "SNOWFLAKE_DATABASE", "SNOWFLAKE_WAREHOUSE", "SNOWFLAKE_SCHEMA"]

  const Params := [
    Param("account", "SNOWFLAKE_ACCOUNT"),
    Param("user", "SNOWFLAKE_USER"),
    Param("password", "SNOWFLAKE_PASSWORD"),
    Param("role", "SNOWFLAKE_ROLE"),
    Param("database", "SNOWFLAKE_DATABASE"),
    Param("warehouse", "SNOWFLAKE_WAREHOUSE"),
    Param("schema", "SNOWFLAKE_SCHEMA")]

  const MissingPrefix := "Missing required environment variable: "

  const Connector := Profile(Required, Params, MissingPrefix)

  /** The first unset variable, in list order, is named in a `ValueError`. */
  lemma MissingChecked(env: map<string, string>, k: nat)
    requires k < |Required| && Required[k] !in env
    requires forall j :: 0 <= j < k ==> Required[j] in env
    ensures Validate(Connector, env) == Err(ValueError("Missing required environment variable: " + Required[k]))
  {
    FirstMissingAt(Required, env, k);
  }

  /** Every variable read is checked first: construction succeeds exactly when all
      seven are set and never raises `KeyError`. */
  lemma EveryReadChecked(env: map<string, string>)
    ensures Validate(Connector, env).Ok? <==> forall j :: 0 <= j < |Required| ==> Required[j] in env
    ensures Validate(Connector, env).Err? ==> Validate(Connector, env).error.ValueError?
  {
    assert Variables(Params) == Required;
  }

  /** No parameter key is repeated, and these are the seven keys. */
  lemma ParamKeys()
    ensures forall i, j :: 0 <= i < j < |Params| ==> Params[i].key != Params[j].key
    ensures (set i | 0 <= i < |Params| :: Params[i].key)
         == {"account", "user", "password", "role", "database", "warehouse", "schema"}
  {
    forall i, j | 0 <= i < j < |Params| ensures Params[i].key != Params[j].key {
      assert |Params[i].key| != |Params[j].key| || Params[i].key[0] != Params[j].key[0];
    }
    assert Params[0].key == "account" && Params[1].key == "user" && Params[2].key == "password";
    assert Params[3].key == "role" && Params[4].key == "database";
    assert Params[5].key == "warehouse" && Params[6].key == "schema";
  }

  /** Once constructed, the parameters are the seven values under their own keys. */
  lemma ParametersRead(env: map<string, string>)
    requires forall j :: 0 <= j < |Required| ==> Required[j] in env
    ensures Validate(Connector, env).Ok?
    ensures var p := Validate(Connector, env).value;
            && p.Keys == {"account", "user", "password", "role", "database", "warehouse", "schema"}
            && p["account"] == env["SNOWFLAKE_ACCOUNT"] && p["user"] == env["SNOWFLAKE_USER"]
            && p["password"] == env["SNOWFLAKE_PASSWORD"] && p["role"] == env["SNOWFLAKE_ROLE"]
            && p["database"] == env["SNOWFLAKE_DATABASE"]
            && p["warehouse"] == env["SNOWFLAKE_WAREHOUSE"] && p["schema"] == env["SNOWFLAKE_SCHEMA"]
  {
    assert FirstMissingOf(Required, env).None?;
    assert forall i :: 0 <= i < |Params| ==> Params[i].variable == Required[i];
    ParamKeys();
    ParamsRead(Params, env);
    var p := ReadParams(Params, env).value;
    assert p[Params[0].key] == env[Params[0].variable];
    assert p[Params[1].key] == env[Params[1].variable];
    assert p[Params[2].key] == env[Params[2].variable];
    assert p[Params[3].key] == env[Params[3].variable];
    assert p[Params[4].key] == env[Params[4].variable];
    assert p[Params[5].key] == env[Params[5].variable];
    assert p[Params[6].key] == env[Params[6].variable];
  }
}
