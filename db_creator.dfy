/** snowflake/dbCreator.py: `CortexSearchModule`, which loads a PDF, creates a
    database and schema, pairs every chunk of the text with a classification prompt,
    and appends the pairs to a table.

    `load_pdf_content` uses `async for` inside a plain `def`, which Python rejects
    when compiling the module; the model gives the evident intent, an ordinary loop
    over the loaded pages. */
module DbCreator {
  import opened Py
  import opened Text
  import opened Pages
  import opened Splitting
  import opened Backend

  const DatabaseName := "CORTEX_CONNECT_DB"
  const SchemaName := "CORTEX_SEARCH_SCHEMA"
  const ResultTable := "CORTEX_SEARCH_TABLE"
  const ChunkSize := 1512
  const ChunkOverlap := 256

  const PromptHead := "Given the document content: <chunk content: "
  const PromptTail := ">, identify the relevant category."

  /** The start of the splitter's exception when `pages_text` was never set: it
      searches `None` with a regular expression. The rest of the message depends on
      the Python version. */
  const NoTextMessage := "expected string or bytes-like object"

  /** The classification prompt for one chunk. */
  function PromptFor(chunk: string): (r: string)
    ensures |r| == |PromptHead| + |chunk| + |PromptTail|
    ensures r[..|PromptHead|] == PromptHead
    ensures r[|PromptHead|..|PromptHead| + |chunk|] == chunk
    ensures r[|PromptHead| + |chunk|..] == PromptTail
  {
    PromptHead + chunk + PromptTail
  }

  /** Reads the chunk back out of a prompt: what lies between the fixed head and
      tail. */
  function ChunkOfPrompt(prompt: string): Option<string> {
    if |prompt| >= |PromptHead| + |PromptTail|
       && prompt[..|PromptHead|] == PromptHead
       && prompt[|prompt| - |PromptTail|..] == PromptTail
    then Some(prompt[|PromptHead|..|prompt| - |PromptTail|])
    else None
  }

  /** Every chunk is embedded verbatim: it can be read back out of its prompt. */
  lemma PromptRoundTrip(chunk: string)
    ensures ChunkOfPrompt(PromptFor(chunk)) == Some(chunk)
  {
    var p := PromptFor(chunk);
    assert p[|p| - |PromptTail|..] == PromptTail;
  }

  /** Different chunks get different prompts. */
  lemma PromptInjective(c1: string, c2: string)
    requires PromptFor(c1) == PromptFor(c2)
    ensures c1 == c2
  {
    PromptRoundTrip(c1);
    PromptRoundTrip(c2);
  }

  /** The `prompts` comprehension: one prompt per chunk, in chunk order. */
  function Prompts(chunks: seq<string>): (r: seq<string>)
    ensures |r| == |chunks|
    ensures forall i :: 0 <= i < |chunks| ==> r[i] == PromptFor(chunks[i])
  {
    seq(|chunks|, i requires 0 <= i < |chunks| => PromptFor(chunks[i]))
  }

  /** The table `chunk_text` builds: columns `chunks` and `prompts`, one row per
      chunk, each prompt embedding its row's chunk right after the fixed head. */
  function PromptTable(chunks: seq<string>): (r: Frame)
    ensures Column(r, "chunks") == Some(chunks)
    ensures Column(r, "prompts").Some? && |Column(r, "prompts").value| == |chunks|
    ensures forall i :: 0 <= i < |chunks| ==>
              var prompt := Column(r, "prompts").value[i];
              |PromptHead| + |chunks[i]| <= |prompt| && prompt[|PromptHead|..|PromptHead| + |chunks[i]|] == chunks[i]
  {
    Frame(["chunks", "prompts"], [chunks, Prompts(chunks)])
  }

  /** Both columns have one entry per chunk, and each row pairs a chunk with the
      prompt that embeds it, so the chunks can be recovered from the prompts alone. */
  lemma PromptTableRows(chunks: seq<string>)
    ensures Column(PromptTable(chunks), "chunks") == Some(chunks)
    ensures Column(PromptTable(chunks), "prompts").Some?
    ensures var prompts := Column(PromptTable(chunks), "prompts").value;
            && |prompts| == |chunks|
            && forall i :: 0 <= i < |chunks| ==> ChunkOfPrompt(prompts[i]) == Some(chunks[i])
  {
    var prompts := Column(PromptTable(chunks), "prompts").value;
    assert prompts == Prompts(chunks);
    forall i | 0 <= i < |chunks|
      ensures ChunkOfPrompt(prompts[i]) == Some(chunks[i])
    {
      PromptRoundTrip(chunks[i]);
    }
  }

  /** What the PDF reader raises, unchanged: the module has no handler of its own. */
  function LoadError(load: LoadOutcome): Error
    requires !load.Loaded?
  {
    match load
    case Missing(m) => FileNotFoundError(m)
    case Broken(m) => Raised(m)
  }

  /** `create_database_and_schema`'s calls. */
  function SetupCommands(): seq<Command> {
    [CreateDatabase(DatabaseName, true), CreateSchema(DatabaseName, SchemaName, true)]
  }

  /** `store_results_in_snowflake`'s calls. */
  function StoreCommands(frame: Frame): seq<Command> {
    [CreateDataFrame(frame), SaveAsTable(ResultTable, "append")]
  }

  class CortexSearchModule {
    const platform: Platform
    const pdfPath: string
    var pagesText: Option<string>

    constructor (platform: Platform, pdfPath: string)
      ensures this.platform == platform && this.pdfPath == pdfPath && pagesText == None
    {
      this.platform := platform;
      this.pdfPath := pdfPath;
      pagesText := None;
    }

    /** `load_pdf_content()`: the page texts in page order joined with "\n" become
        `pages_text`; a reader exception propagates and leaves `pages_text` as it
        was. */
    method LoadPdfContent(load: LoadOutcome) returns (r: Result<()>)
      modifies this
      ensures load.Loaded? ==> r == Ok(()) && pagesText == Some(Join("\n", Contents(load.pages)))
      ensures load.Loaded? ==>
                forall i :: 0 <= i < |load.pages| ==>
                  var at := Offset("\n", Contents(load.pages), i);
                  at + |load.pages[i].pageContent| <= |pagesText.value|
                  && pagesText.value[at..at + |load.pages[i].pageContent|] == load.pages[i].pageContent
      ensures !load.Loaded? ==> r == Err(LoadError(load)) && pagesText == old(pagesText)
    {
      if !load.Loaded? {
        return Err(LoadError(load));
      }
      var text := JoinPages(load.pages, "\n");
      pagesText := Some(text);
      r := Ok(());
    }

    /** `create_database_and_schema()`: creates (or replaces) `CORTEX_CONNECT_DB`, then
        (or replaces) `CORTEX_SEARCH_SCHEMA` inside it; an exception propagates and
        stops the sequence. */
    method CreateDatabaseAndSchema() returns (r: Result<()>)
      modifies platform
      ensures platform.log == old(platform.log) + Issued(platform.outcome, old(platform.log), SetupCommands())
      ensures r == Raising(FirstFailure(platform.outcome, old(platform.log), SetupCommands()))
    {
      var cmds := SetupCommands();
      RunTwo(platform.outcome, platform.log, cmds[0], cmds[1]);
      var o := platform.Issue(cmds[0]);
      if o.Failed? {
        return Err(Raised(o.message));
      }
      o := platform.Issue(cmds[1]);
      if o.Failed? {
        return Err(Raised(o.message));
      }
      r := Ok(());
    }

    /** `chunk_text()`: `pages_text` split with size 1512 and overlap 256, and a table
        pairing each chunk, in order, with its prompt; the splitter's exception
        propagates, and text that was never loaded makes it raise `TypeError`. */
    method ChunkText(split: Splitter) returns (r: Result<Frame>)
      ensures pagesText.None? ==> r.Err? && r.error.TypeError?
      ensures pagesText.Some? && split(pagesText.value, ChunkSize, ChunkOverlap).SplitFailed? ==>
                r == Err(Raised(split(pagesText.value, ChunkSize, ChunkOverlap).message))
      ensures pagesText.Some? && split(pagesText.value, ChunkSize, ChunkOverlap).Chunks? ==>
                r == Ok(PromptTable(split(pagesText.value, ChunkSize, ChunkOverlap).chunks))
    {
      if pagesText.None? {
        return Err(TypeError(NoTextMessage));
      }
      match split(pagesText.value, ChunkSize, ChunkOverlap)
      case SplitFailed(m) =>
        r := Err(Raised(m));
      case Chunks(chunks) =>
        r := Ok(PromptTable(chunks));
    }

    /** `store_results_in_snowflake(result_df)`: the table becomes a Snowpark frame and
        is appended to `CORTEX_SEARCH_TABLE`; an exception propagates. */
    method StoreResults(frame: Frame) returns (r: Result<()>)
      modifies platform
      ensures platform.log == old(platform.log) + Issued(platform.outcome, old(platform.log), StoreCommands(frame))
      ensures r == Raising(FirstFailure(platform.outcome, old(platform.log), StoreCommands(frame)))
    {
      var cmds := StoreCommands(frame);
      RunTwo(platform.outcome, platform.log, cmds[0], cmds[1]);
      var o := platform.Issue(cmds[0]);
      if o.Failed? {
        return Err(Raised(o.message));
      }
      o := platform.Issue(cmds[1]);
      if o.Failed? {
        return Err(Raised(o.message));
      }
      r := Ok(());
    }

    /** `run()`: load, then database and schema, then chunking, then storage; the first
        exception stops the rest. Nothing is sent when loading fails, the splitter is
        not consulted when setup fails, and the table appended is the prompt table of
        the loaded text's chunks. */
    method Run(load: LoadOutcome, split: Splitter) returns (r: Result<()>)
      modifies this, platform
      ensures !load.Loaded? ==> r == Err(LoadError(load)) && platform.log == old(platform.log)
      ensures load.Loaded? ==> pagesText == Some(Join("\n", Contents(load.pages)))
      ensures load.Loaded? ==>
                var log0 := old(platform.log);
                var failure := FirstFailure(platform.outcome, log0, SetupCommands());
                && (failure.Some? ==>
                      r == Err(Raised(failure.value)) && platform.log == log0 + Issued(platform.outcome, log0, SetupCommands()))
                && (failure.None? ==>
                      var log1 := log0 + SetupCommands();
                      var outcome := split(Join("\n", Contents(load.pages)), ChunkSize, ChunkOverlap);
                      && (outcome.SplitFailed? ==> r == Err(Raised(outcome.message)) && platform.log == log1)
                      && (outcome.Chunks? ==>
                            var cmds := StoreCommands(PromptTable(outcome.chunks));
                            && platform.log == log1 + Issued(platform.outcome, log1, cmds)
                            && r == Raising(FirstFailure(platform.outcome, log1, cmds))))
    {
      r := LoadPdfContent(load);
      if r.Err? {
        return;
      }
      ghost var log0 := platform.log;
      r := CreateDatabaseAndSchema();
      if r.Err? {
        return;
      }
      IssuedAll(platform.outcome, log0, SetupCommands());
      var resultDf := ChunkText(split);
      if resultDf.Err? {
        return Err(resultDf.error);
      }
      r := StoreResults(resultDf.value);
    }
  }
}
