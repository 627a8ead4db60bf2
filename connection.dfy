/** The Snowflake connector shared, with small differences, by utils/sessions.py,
    snowflake/sessions.py and streamlit/session.py: check that the required
    environment variables are set, read the connection parameters, and keep one
    session, created lazily. The three classes differ only in the variables they check,
    the parameters they read and the wording of the error; a `Profile` holds those.
    The environment is a map (it already holds what `load_dotenv` adds); whether
    `Session.builder...create()` succeeds is foreign and given per call. */
module Connection {
  import opened Py

  /** One connection parameter: the key in the parameter dict and the environment
      variable its value is read from. */
  datatype Param = Param(key: string, variable: string)

  /** What distinguishes the three connectors. */
  datatype Profile = Profile(required: seq<string>, params: seq<Param>, missingPrefix: string)

  /** The first of `required` that is not set, if any. */
  function FirstMissingOf(required: seq<string>, env: map<string, string>): (m: Option<string>)
    ensures m.None? <==> forall i :: 0 <= i < |required| ==> required[i] in env
    ensures m.Some? ==>
              exists k :: 0 <= k < |required| && required[k] == m.value && m.value !in env
                          && forall j :: 0 <= j < k ==> required[j] in env
    decreases |required|
  {
    if |required| == 0 then None
    else if required[0] !in env then Some(required[0])
    else
      var rest := FirstMissingOf(required[1..], env);
      assert rest.Some? ==>
               exists k :: 1 <= k < |required| && required[k] == rest.value && rest.value !in env
                           && forall j :: 0 <= j < k ==> required[j] in env by {
        if rest.Some? {
          var k :| 0 <= k < |required[1..]| && required[1..][k] == rest.value && rest.value !in env
                   && forall j :: 0 <= j < k ==> required[1..][j] in env;
          assert required[k + 1] == rest.value;
          assert forall j :: 0 <= j < k + 1 ==> required[j] in env by {
            forall j | 0 <= j < k + 1 ensures required[j] in env {
              if j > 0 {
                assert required[j] == required[1..][j - 1];
              }
            }
          }
        }
      }
      assert rest.None? ==> forall i :: 0 <= i < |required| ==> required[i] in env by {
        if rest.None? {
          forall i | 0 <= i < |required| ensures required[i] in env {
            if i > 0 {
              assert required[i] == required[1..][i - 1];
            }
          }
        }
      }
      rest
  }

  /** Only the first unset variable can be reported. */
  lemma FirstMissingAt(required: seq<string>, env: map<string, string>, k: nat)
    requires k < |required| && required[k] !in env
    requires forall j :: 0 <= j < k ==> required[j] in env
    ensures FirstMissingOf(required, env) == Some(required[k])
  {
    var m := FirstMissingOf(required, env);
    var k' :| 0 <= k' < |required| && required[k'] == m.value && m.value !in env
              && forall j :: 0 <= j < k' ==> required[j] in env;
    assert k' == k;
  }

  /** The validation loop: checks the variables in list order and stops at the first
      one that is not set. */
  method FirstMissing(required: seq<string>, env: map<string, string>) returns (missing: Option<string>)
    ensures missing == FirstMissingOf(required, env)
  {
    for i := 0 to |required|
      invariant forall j :: 0 <= j < i ==> required[j] in env
    {
      if required[i] !in env {
        FirstMissingAt(required, env, i);
        return Some(required[i]);
      }
    }
    missing := None;
  }

  /** The environment variables the parameters are read from, in order. */
  function Variables(params: seq<Param>): (r: seq<string>)
    ensures |r| == |params| && forall i :: 0 <= i < |params| ==> r[i] == params[i].variable
  {
    seq(|params|, i requires 0 <= i < |params| => params[i].variable)
  }

  /** The parameter dict once every variable is set: entries in order, a later entry
      for the same key replacing an earlier one. */
  function Dict(params: seq<Param>, env: map<string, string>): map<string, string>
    requires forall i :: 0 <= i < |params| ==> params[i].variable in env
    decreases |params|
  {
    if |params| == 0 then map[]
    else
      var last := params[|params| - 1];
      Dict(params[..|params| - 1], env)[last.key := env[last.variable]]
  }

  /** The dict's keys are exactly the parameters' keys. */
  lemma {:induction false} DictKeys(params: seq<Param>, env: map<string, string>)
    requires forall i :: 0 <= i < |params| ==> params[i].variable in env
    ensures Dict(params, env).Keys == set i | 0 <= i < |params| :: params[i].key
    decreases |params|
  {
    if |params| > 0 {
      var init := params[..|params| - 1];
      var last := params[|params| - 1];
      DictKeys(init, env);
      var all := set i | 0 <= i < |params| :: params[i].key;
      var before := set i | 0 <= i < |init| :: init[i].key;
      forall i | 0 <= i < |init|
        ensures params[i].key in before
      {
        assert init[i].key == params[i].key;
      }
      assert all == before + {last.key};
    }
  }

  /** With distinct keys, each key maps to the value of its own variable. */
  lemma {:induction false} DictValues(params: seq<Param>, env: map<string, string>)
    requires forall i :: 0 <= i < |params| ==> params[i].variable in env
    requires forall i, j :: 0 <= i < j < |params| ==> params[i].key != params[j].key
    ensures forall i :: 0 <= i < |params| ==> params[i].key in Dict(params, env)
                                              && Dict(params, env)[params[i].key] == env[params[i].variable]
    decreases |params|
  {
    if |params| > 0 {
      var init := params[..|params| - 1];
      var last := params[|params| - 1];
      DictValues(init, env);
      forall i | 0 <= i < |params|
        ensures params[i].key in Dict(params, env) && Dict(params, env)[params[i].key] == env[params[i].variable]
      {
        if i < |init| {
          assert init[i] == params[i];
          assert params[i].key != last.key;
        }
      }
    }
  }

  /** The parameter dict literal: the variables are read in order and the first one
      that is not set raises `KeyError`. */
  function ReadParams(params: seq<Param>, env: map<string, string>): (r: Result<map<string, string>>)
    ensures r.Ok? <==> forall i :: 0 <= i < |params| ==> params[i].variable in env
    ensures r.Err? ==> r.error == KeyError(FirstMissingOf(Variables(params), env).value)
  {
    match FirstMissingOf(Variables(params), env)
    case Some(v) => Err(KeyError(v))
    case None => Ok(Dict(params, env))
  }

  /** With every variable set and no key repeated, the dict holds exactly the
      parameters' keys, each with the value of its own variable. */
  lemma ParamsRead(params: seq<Param>, env: map<string, string>)
    requires forall i :: 0 <= i < |params| ==> params[i].variable in env
    requires forall i, j :: 0 <= i < j < |params| ==> params[i].key != params[j].key
    ensures ReadParams(params, env).Ok?
    ensures ReadParams(params, env).value.Keys == set i | 0 <= i < |params| :: params[i].key
    ensures forall i :: 0 <= i < |params| ==> ReadParams(params, env).value[params[i].key] == env[params[i].variable]
  {
    DictKeys(params, env);
    DictValues(params, env);
  }

  /** What a connector's constructor does: `ValueError` naming the first required
      variable that is not set, else the parameters read (which may still raise). */
  function Validate(profile: Profile, env: map<string, string>): (r: Result<map<string, string>>)
    ensures r.Ok? <==> (forall i :: 0 <= i < |profile.required| ==> profile.required[i] in env)
                       && (forall i :: 0 <= i < |profile.params| ==> profile.params[i].variable in env)
    ensures FirstMissingOf(profile.required, env).Some? ==>
              r == Err(ValueError(profile.missingPrefix + FirstMissingOf(profile.required, env).value))
    ensures FirstMissingOf(profile.required, env).None? && r.Err? ==>
              r == Err(KeyError(FirstMissingOf(Variables(profile.params), env).value))
  {
    match FirstMissingOf(profile.required, env)
    case Some(v) => Err(ValueError(profile.missingPrefix + v))
    case None => ReadParams(profile.params, env)
  }

  /** An opaque handle for a Snowpark session. */
  type SessionHandle = nat

  class Connector {
    const parameters: map<string, string>
    /** `self.session`. */
    var session: Option<SessionHandle>
    /** The parameter dicts handed to `Session.builder.configs(...).create()`, one per
        connection attempt. */
    var attempts: seq<map<string, string>>
    /** The sessions `close()` was called on. */
    var closeRequests: seq<SessionHandle>

    constructor (parameters: map<string, string>)
      ensures this.parameters == parameters && session == None && attempts == [] && closeRequests == []
    {
      this.parameters := parameters;
      session := None;
      attempts := [];
      closeRequests := [];
    }

    /** `__connect()`: one attempt with the stored parameters; the new session, or
        `None` when creating it raised (the exception is printed, not raised). */
    method Connect(created: Option<SessionHandle>)
      modifies this
      ensures session == created && attempts == old(attempts) + [parameters] && closeRequests == old(closeRequests)
    {
      session := created;
      attempts := attempts + [parameters];
    }

    /** `get_session()`: connects only when no session is held and returns the held
        one; `created` is what the attempt would give. A failed attempt leaves `None`,
        so the next call tries again. */
    method GetSession(created: Option<SessionHandle>) returns (s: Option<SessionHandle>)
      modifies this
      ensures old(session).Some? ==> session == old(session) && attempts == old(attempts)
      ensures old(session).None? ==> session == created && attempts == old(attempts) + [parameters]
      ensures s == session && closeRequests == old(closeRequests)
    {
      if session.None? {
        Connect(created);
      }
      s := session;
    }

    /** `close_connection()` / `close_session()`: calls `close()` on the held session, if
        any; an exception from it is printed, never raised, and the stored session is
        kept. */
    method Close()
      modifies this
      ensures session == old(session) && attempts == old(attempts)
      ensures closeRequests == old(closeRequests) + (if session.Some? then [session.value] else [])
    {
      if session.Some? {
        closeRequests := closeRequests + [session.value];
      }
    }
  }

  /** A connector's constructor: the validation loop, then the parameter dict; the new
      connector holds no session. */
  method NewConnector(profile: Profile, env: map<string, string>) returns (r: Result<Connector>)
    ensures r.Err? <==> Validate(profile, env).Err?
    ensures r.Err? ==> r.error == Validate(profile, env).error
    ensures r.Ok? ==> fresh(r.value) && r.value.parameters == Validate(profile, env).value
                      && r.value.session == None && r.value.attempts == [] && r.value.closeRequests == []
  {
    var missing := FirstMissing(profile.required, env);
    if missing.Some? {
      return Err(ValueError(profile.missingPrefix + missing.value));
    }
    var params := ReadParams(profile.params, env);
    if params.Err? {
      return Err(params.error);
    }
    var c := new Connector(params.value);
    r := Ok(c);
  }
}
