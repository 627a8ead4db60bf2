/** snowflake/conversation_chain.py: `KnowledgeGraphGenerator`, which asks a Mistral
    chat model to turn one question and its answer into a small knowledge graph. The
    model client is created lazily on first use; what the model answers is foreign. */
module ConversationChain {
  import opened Py

  const DefaultModel := "mistral-large-latest"
  const ApiKeyVariable := "MISTRALAI_API"
  const Temperature: real := 0.5

  /** The template's literal parts, whitespace included: the preamble, the tag before
      the query, the line break between the two texts, the tag before the response,
      and the closing instructions. */
  const Preamble := " \n        Construct a concise knowledge graph from the conversation below.\n         **Context**:\n         - Focus on key entities, relationships, and attributes.\n         - The graph should capture no more than 5-7 nodes, formatted like:\n            [ (\'Entity 1\', \'Relationship\', \'Entity 2\'), (\'Entity 3\', \'Attribute\', \'Value\'), ... ]\n         - Only include relevant details from the current conversation, avoiding outdated context.\n         **Input**:\n         "
  const QueryLabel := "Query: \""
  const Separator := "\"\n         "
  const ResponseLabel := "LLM Response: \""
  const Closing := "\"\n         **Output**: A concise knowledge graph in the format:\n         [ (\'Entity 1\', \'Relationship\', \'Entity 2\'), (\'Entity 3\', \'Attribute\', \'Value\'), ... ]\n         "

  /** A template with two holes: the literal text before the first, the tag that
      introduces it, the text between the two, the tag that introduces the second, and
      the text after it. */
  datatype Template = Template(preamble: string, queryTag: string, separator: string,
                               responseTag: string, closing: string)

  /** The knowledge-graph prompt's template. */
  const GraphTemplate := Template(Preamble, QueryLabel, Separator, ResponseLabel, Closing)

  /** The template with both texts inserted verbatim. */
  function Fill(t: Template, query: string, response: string): string {
    t.preamble + t.queryTag + query + t.separator + t.responseTag + response + t.closing
  }

  /** Where the query starts in a filled template. */
  function QueryAt(t: Template): nat {
    |t.preamble| + |t.queryTag|
  }

  /** Where the response starts in a filled template. */
  function ResponseAt(t: Template, query: string): nat {
    |t.preamble| + |t.queryTag| + |query| + |t.separator| + |t.responseTag|
  }

  /** `prompt(user_query, llm_response)`: the fixed template with both texts inserted
      verbatim. The query sits right after `Query: "`, the response right after
      `LLM Response: "`, and the query comes first. */
  function Prompt(userQuery: string, llmResponse: string): (p: string)
    ensures var q := QueryAt(GraphTemplate);
            var a := ResponseAt(GraphTemplate, userQuery);
            && q + |userQuery| < a && a + |llmResponse| <= |p|
            && p[q - |QueryLabel|..q] == QueryLabel
            && p[q..q + |userQuery|] == userQuery
            && p[a - |ResponseLabel|..a] == ResponseLabel
            && p[a..a + |llmResponse|] == llmResponse
  {
    FillEmbedsBoth(GraphTemplate, userQuery, llmResponse);
    Fill(GraphTemplate, userQuery, llmResponse)
  }

  /** A text inserted between a tag and the rest of a template sits verbatim right
      after the tag. */
  lemma Hole(pre: string, tag: string, x: string, post: string)
    ensures var p := pre + tag + x + post;
            var at := |pre| + |tag|;
            && at + |x| <= |p|
            && p[at - |tag|..at] == tag
            && p[at..at + |x|] == x
  {
    var p := pre + tag + x + post;
    var at := |pre| + |tag|;
    assert p == pre + (tag + x + post);
    assert p[at - |tag|..at] == (tag + x + post)[..|tag|];
    assert p[at..at + |x|] == (tag + x + post)[|tag|..|tag| + |x|];
  }

  /** In any filled template the query sits verbatim right after its tag, and the
      response verbatim right after its own, later in the text. */
  lemma FillEmbedsBoth(t: Template, query: string, response: string)
    ensures var p := Fill(t, query, response);
            var q := QueryAt(t);
            var a := ResponseAt(t, query);
            && q + |query| + |t.responseTag| <= a && a + |response| <= |p|
            && p[q - |t.queryTag|..q] == t.queryTag
            && p[q..q + |query|] == query
            && p[a - |t.responseTag|..a] == t.responseTag
            && p[a..a + |response|] == response
  {
    FillEmbedsQuery(t, query, response);
    FillEmbedsResponse(t, query, response);
  }

  /** The query sits verbatim right after its tag. */
  lemma FillEmbedsQuery(t: Template, query: string, response: string)
    ensures var p := Fill(t, query, response);
            var q := QueryAt(t);
            && q + |query| <= |p|
            && p[q - |t.queryTag|..q] == t.queryTag
            && p[q..q + |query|] == query
  {
    var rest := t.separator + t.responseTag + response + t.closing;
    assert Fill(t, query, response) == t.preamble + t.queryTag + query + rest;
    Hole(t.preamble, t.queryTag, query, rest);
  }

  /** The response sits verbatim right after its tag. */
  lemma FillEmbedsResponse(t: Template, query: string, response: string)
    ensures var p := Fill(t, query, response);
            var a := ResponseAt(t, query);
            && a + |response| <= |p|
            && p[a - |t.responseTag|..a] == t.responseTag
            && p[a..a + |response|] == response
  {
    var pre := t.preamble + t.queryTag + query + t.separator;
    Hole(pre, t.responseTag, response, t.closing);
  }

  /** `ChatMistralAI(model_name=..., api_key=..., temperature=...)`. */
  datatype Llm = ChatMistralAI(modelName: string, apiKey: Option<string>, temperature: real)

  class KnowledgeGraphGenerator {
    const apiKey: Option<string>
    const modelName: string
    var llm: Option<Llm>

    /** `KnowledgeGraphGenerator(model_name="mistral-large-latest")`: the API key is
        read from `MISTRALAI_API` (None when unset; `env` already holds what
        `load_dotenv` adds), and no model handle exists yet. */
    constructor (env: map<string, string>, modelName: string := DefaultModel)
      ensures apiKey == (if ApiKeyVariable in env then Some(env[ApiKeyVariable]) else None)
      ensures this.modelName == modelName && llm == None
    {
      apiKey := if ApiKeyVariable in env then Some(env[ApiKeyVariable]) else None;
      this.modelName := modelName;
      llm := None;
    }

    /** `initialize_llm()`: a client for the configured model and key at temperature
        0.5. */
    method InitializeLlm()
      modifies this
      ensures llm == Some(ChatMistralAI(modelName, apiKey, 0.5))
    {
      llm := Some(ChatMistralAI(modelName, apiKey, Temperature));
    }

    /** `generate_knowledge_graph(user_query, llm_response)`: creates the client only
        when none exists and otherwise reuses it, then sends exactly the prompt for the
        two texts; a failing model call raises after the client was created. */
    method GenerateKnowledgeGraph(userQuery: string, llmResponse: string, predict: (Llm, string) -> Result<string>)
      returns (graph: Result<string>)
      modifies this
      ensures old(llm).Some? ==> llm == old(llm)
      ensures old(llm).None? ==> llm == Some(ChatMistralAI(modelName, apiKey, 0.5))
      ensures llm.Some? && graph == predict(llm.value, Prompt(userQuery, llmResponse))
    {
      var promptText := Prompt(userQuery, llmResponse);
      if llm.None? {
        InitializeLlm();
      }
      graph := predict(llm.value, promptText);
    }
  }
}
