/** utils/sessions.py: the connector used by the document utilities. It checks only
    four variables, but reads six, so a missing warehouse or schema slips past the
    check and surfaces as `KeyError`; it passes no database. */
module UtilsSessions {
  import opened Py
  import opened Connection

  const Required := ["SNOWFLAKE_ACCOUNT", "SNOWFLAKE_USER", "SNOWFLAKE_PASSWORD", "SNOWFLAKE_ROLE"]

  const Params := [
    Param("account", "SNOWFLAKE_ACCOUNT"),
    Param("user", "SNOWFLAKE_USER"),
    Param("password", "SNOWFLAKE_PASSWORD"),
    Param("role", "SNOWFLAKE_ROLE"),
    Param("warehouse", "SNOWFLAKE_WAREHOUSE"),
    Param("schema", "SNOWFLAKE_SCHEMA")]

  const MissingPrefix := "missing required varibale "

  const Connector := Profile(Required, Params, MissingPrefix)

  /** The first of the four checked variables that is unset is named in a
      `ValueError`. */
  lemma MissingChecked(env: map<string, string>, k: nat)
    requires k < |Required| && Required[k] !in env
    requires forall j :: 0 <= j < k ==> Required[j] in env
    ensures Validate(Connector, env) == Err(ValueError("missing required varibale " + Required[k]))
  {
    FirstMissingAt(Required, env, k);
  }

  /** With the four checked variables set, an unset warehouse or schema raises
      `KeyError` (the warehouse first); with both set the parameters are the six
      variables' values and hold no database. */
  lemma UncheckedVariables(env: map<string, string>)
    requires forall j :: 0 <= j < |Required| ==> Required[j] in env
    ensures "SNOWFLAKE_WAREHOUSE" !in env ==>
              Validate(Connector, env) == Err(KeyError("SNOWFLAKE_WAREHOUSE"))
    ensures "SNOWFLAKE_WAREHOUSE" in env && "SNOWFLAKE_SCHEMA" !in env ==>
              Validate(Connector, env) == Err(KeyError("SNOWFLAKE_SCHEMA"))
    ensures "SNOWFLAKE_WAREHOUSE" in env && "SNOWFLAKE_SCHEMA" in env ==>
              && Validate(Connector, env).Ok?
              && var p := Validate(Connector, env).value;
                 && p.Keys == {"account", "user", "password", "role", "warehouse", "schema"}
                 && "database" !in p
                 && p["account"] == env["SNOWFLAKE_ACCOUNT"] && p["user"] == env["SNOWFLAKE_USER"]
                 && p["password"] == env["SNOWFLAKE_PASSWORD"] && p["role"] == env["SNOWFLAKE_ROLE"]
                 && p["warehouse"] == env["SNOWFLAKE_WAREHOUSE"] && p["schema"] == env["SNOWFLAKE_SCHEMA"]
  {
    var vars := Variables(Params);
    assert FirstMissingOf(Required, env).None?;
    if "SNOWFLAKE_WAREHOUSE" !in env {
      FirstMissingAt(vars, env, 4);
    } else if "SNOWFLAKE_SCHEMA" !in env {
      FirstMissingAt(vars, env, 5);
    } else {
      ParamsRead(Params, env);
      assert (set i | 0 <= i < |Params| :: Params[i].key)
          == {"account", "user", "password", "role", "warehouse", "schema"} by {
        assert Params[0].key == "account" && Params[1].key == "user" && Params[2].key == "password";
        assert Params[3].key == "role" && Params[4].key == "warehouse" && Params[5].key == "schema";
      }
      assert Params[0].key == "account" && Params[1].key == "user" && Params[2].key == "password";
      assert Params[3].key == "role" && Params[4].key == "warehouse" && Params[5].key == "schema";
    }
  }
}
