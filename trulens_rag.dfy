/** snowflake/trulens_eval.py: the `RAG` application evaluated with TruLens. It
    retrieves passages from a Cortex search service and asks a model to answer from
    them. The search service, the prompt builder of the base class and `Complete` are
    foreign and given as functions. */
module TrulensRag {
  import opened Py
  import opened SecretLoader

  const Apology := "Something unexpected happened. Contact customer support."
  const DataColumn := "DATA"
  const CompletionModel := "mistral-large2"

  /** An opaque handle for a `Root` or a `Session`; absent handles are `None`. */
  type Handle = nat

  /** `RAG(root, session, limit_to_retirve=5)`. */
  datatype Rag = Rag(root: Option<Handle>, session: Option<Handle>, limit: int := 5)

  /** The search service named by three secrets: database, schema, service. */
  datatype ServiceRef = ServiceRef(database: Option<string>, schema: Option<string>, service: Option<string>)

  /** `search(query=..., columns=[...], limit=...)`. */
  datatype SearchRequest = SearchRequest(query: string, columns: seq<string>, limit: int)

  /** What the search call does: return result records, or raise. */
  datatype SearchOutcome = Results(results: seq<map<string, string>>) | SearchFailed(message: string)

  /** What `retrieve_context` returns: the fixed two-key dict when a handle is missing,
      or the list of passages. */
  datatype Context = Degraded(input: string, response: string) | Passages(passages: seq<string>)

  /** The foreign side: where secrets come from, the search service, the base class's
      `create_prompt`, and `Complete(model, prompt)`. */
  datatype Services = Services(
    secrets: SecretEnv,
    search: (ServiceRef, SearchRequest) -> SearchOutcome,
    createPrompt: (string, Context) -> string,
    complete: (string, string) -> Result<string>)

  /** A constructor call with only the handles gets a limit of five. */
  lemma DefaultLimit(root: Option<Handle>, session: Option<Handle>)
    ensures Rag(root, session).limit == 5
  {
  }

  /** `[curr["DATA"] for curr in resp.results]`: the `DATA` value of every result, in
      order; `KeyError` when a result lacks it. */
  function ProjectData(results: seq<map<string, string>>): (r: Result<seq<string>>)
    ensures r.Ok? <==> forall i :: 0 <= i < |results| ==> DataColumn in results[i]
    ensures r.Ok? ==> |r.value| == |results| && forall i :: 0 <= i < |results| ==> r.value[i] == results[i][DataColumn]
    ensures r.Err? ==> r.error == KeyError(DataColumn)
  {
    if forall i :: 0 <= i < |results| ==> DataColumn in results[i] then
      Ok(seq(|results|, i requires 0 <= i < |results| && DataColumn in results[i] => results[i][DataColumn]))
    else Err(KeyError(DataColumn))
  }

  /** The three secret lookups, in order; the first `KeyError` propagates. Without a
      secrets file this names the first of the three variables that is unset; with
      one, nothing is raised and each name is what `get_secret` answers. */
  function LocateService(secrets: SecretEnv): (r: Result<ServiceRef>)
    ensures r.Ok? <==> secrets.secretsFileExists
                       || ("SNOWFLAKE_DATABASE" in secrets.env && "SNOWFLAKE_SCHEMA" in secrets.env
                           && "SNOWFLAKE_CORTEX_SEARCH_SERVICE" in secrets.env)
    ensures r.Err? ==> r.error == KeyError(if "SNOWFLAKE_DATABASE" !in secrets.env then "SNOWFLAKE_DATABASE"
                                           else if "SNOWFLAKE_SCHEMA" !in secrets.env then "SNOWFLAKE_SCHEMA"
                                           else "SNOWFLAKE_CORTEX_SEARCH_SERVICE")
    ensures r.Ok? ==> r.value == ServiceRef(GetSecret(secrets, "SNOWFLAKE_DATABASE").value,
                                            GetSecret(secrets, "SNOWFLAKE_SCHEMA").value,
                                            GetSecret(secrets, "SNOWFLAKE_CORTEX_SEARCH_SERVICE").value)
  {
    match GetSecret(secrets, "SNOWFLAKE_DATABASE")
    case Err(e) => Err(e)
    case Ok(database) =>
      match GetSecret(secrets, "SNOWFLAKE_SCHEMA")
      case Err(e) => Err(e)
      case Ok(schema) =>
        match GetSecret(secrets, "SNOWFLAKE_CORTEX_SEARCH_SERVICE")
        case Err(e) => Err(e)
        case Ok(service) => Ok(ServiceRef(database, schema, service))
  }

  /** The request `retrieve_context` sends: the query unchanged, column `DATA` only,
      and the configured limit. */
  function Request(rag: Rag, query: string): SearchRequest {
    SearchRequest(query, [DataColumn], rag.limit)
  }

  /** `retrieve_context(query)`: the fixed apology exactly when a handle is missing;
      otherwise the passages, or the exception of a secret lookup (`KeyError`), of the
      search (propagated) or of a result without `DATA` (`KeyError`). */
  function RetrieveContext(rag: Rag, env: Services, query: string): (r: Result<Context>)
    ensures (r.Ok? && r.value.Degraded?) <==> rag.root.None? || rag.session.None?
    ensures r.Ok? && r.value.Degraded? ==> r.value == Degraded(query, Apology)
    ensures r.Err? ==> r.error.KeyError? || r.error.Raised?
  {
    if rag.root.None? || rag.session.None? then Ok(Degraded(query, Apology))
    else
      match LocateService(env.secrets)
      case Err(e) => Err(e)
      case Ok(ref) =>
        match env.search(ref, Request(rag, query))
        case SearchFailed(m) => Err(Raised(m))
        case Results(results) =>
          if |results| == 0 then Ok(Passages([]))
          else
            match ProjectData(results)
            case Err(e) => Err(e)
            case Ok(passages) => Ok(Passages(passages))
  }

  /** Without a root or a session the answer is the fixed apology for that query, and
      neither the secrets nor the search service are consulted. */
  lemma MissingHandleDegrades(rag: Rag, env1: Services, env2: Services, query: string)
    requires rag.root.None? || rag.session.None?
    ensures RetrieveContext(rag, env1, query) == Ok(Degraded(query, Apology))
    ensures RetrieveContext(rag, env1, query) == RetrieveContext(rag, env2, query)
  {
  }

  /** With both handles, every search result's `DATA` value is returned in order, one
      per result; no results give the empty list. The search sees the query as asked,
      column `DATA` and the configured limit. */
  lemma RetrievedPassages(rag: Rag, env: Services, query: string)
    requires rag.root.Some? && rag.session.Some?
    requires LocateService(env.secrets).Ok?
    ensures var outcome := env.search(LocateService(env.secrets).value, SearchRequest(query, ["DATA"], rag.limit));
            && (outcome.SearchFailed? ==> RetrieveContext(rag, env, query) == Err(Raised(outcome.message)))
            && (outcome.Results? && |outcome.results| == 0 ==> RetrieveContext(rag, env, query) == Ok(Passages([])))
            && ((outcome.Results? && forall i :: 0 <= i < |outcome.results| ==> "DATA" in outcome.results[i]) ==>
                  && RetrieveContext(rag, env, query).Ok?
                  && RetrieveContext(rag, env, query).value.Passages?
                  && var passages := RetrieveContext(rag, env, query).value.passages;
                     && |passages| == |outcome.results|
                     && forall i :: 0 <= i < |passages| ==> passages[i] == outcome.results[i]["DATA"])
            && ((outcome.Results? && exists i :: 0 <= i < |outcome.results| && "DATA" !in outcome.results[i]) ==>
                  RetrieveContext(rag, env, query) == Err(KeyError("DATA")))
  {
  }

  /** `generate_completion(query, context_str)`: `Complete` with `mistral-large2` on
      the base class's prompt for that query and context. */
  function GenerateCompletion(env: Services, query: string, context: Context): (r: Result<string>)
    ensures r == env.complete("mistral-large2", env.createPrompt(query, context))
  {
    env.complete(CompletionModel, env.createPrompt(query, context))
  }

  /** `query(query)`: the retrieved context, exactly as returned, is passed with the
      original question to `generate_completion`; a retrieval exception propagates. */
  function Query(rag: Rag, env: Services, query: string): (r: Result<string>)
    ensures RetrieveContext(rag, env, query).Err? ==> r == Err(RetrieveContext(rag, env, query).error)
    ensures rag.root.None? || rag.session.None? ==>
              r == env.complete("mistral-large2", env.createPrompt(query, Degraded(query, Apology)))
  {
    match RetrieveContext(rag, env, query)
    case Err(e) => Err(e)
    case Ok(context) => GenerateCompletion(env, query, context)
  }

  /** The answer is the model's completion of the prompt built from the question and the
      unmodified retrieval result; without a root or session, that result is the
      apology dict. */
  lemma QueryComposes(rag: Rag, env: Services, query: string)
    ensures RetrieveContext(rag, env, query).Ok? ==>
              Query(rag, env, query) == env.complete("mistral-large2", env.createPrompt(query, RetrieveContext(rag, env, query).value))
    ensures RetrieveContext(rag, env, query).Err? ==> Query(rag, env, query) == Err(RetrieveContext(rag, env, query).error)
    ensures rag.root.None? || rag.session.None? ==>
              Query(rag, env, query) == env.complete("mistral-large2", env.createPrompt(query, Degraded(query, Apology)))
  {
  }
}
