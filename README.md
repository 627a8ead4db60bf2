# Termify, modelled in Dafny

Termify answers questions about legal terms from documents stored in Snowflake. Its own
logic is small and sits between foreign libraries:

- it loads PDFs and joins their page texts;
- it splits the text into chunks and cleans them;
- it writes chunk tables and CSV rows;
- it provisions a per-user schema, table and Cortex search service;
- it retrieves passages and asks a model for an answer;
- it builds a knowledge-graph prompt;
- it resolves secrets and opens Snowflake sessions;
- it keeps the chat page's session state.

This project models that logic and proves what it promises. There is one module per
source file, plus a few shared modules:

- `Py`: Python vocabulary. Optional values, exceptions as the error half of a
  `Result`, `f"{x}"` rendering, and the column-major pandas `Frame`.
- `Text`: `sep.join`, `str.split`, `endswith` and `os.path.join`, with their
  round-trip lemmas.
- `Pages`: the page-joining loader shared by the two document parsers and the search
  module.
- `Splitting`: the text splitter, as an uninterpreted function.
- `Backend`: the trace of commands sent to Snowflake. Whether each one raises is given
  by an oracle.
- `Connection`: the connector class shared by the three `sessions.py` variants. A
  `Profile` holds what differs between them.

Every foreign call is a parameter of the member that makes it. This covers the PDF
reader, the splitter, SQL and API calls, Cortex search, `Complete`, the Mistral
client's `predict`, session creation and the search application's answer. A Python
exception is an `Err` value. Objects whose fields the source updates are classes:
`Connector`, `Cortex`, `CortexSearchModule`, `KnowledgeGraphGenerator`, `Platform` and
`AppState`. Loops become methods with loop invariants, each proved against a
specification function.

Where the code cannot run as written, the model follows the evident intent and says so:

- `snowflake/dbCreator.py:19` uses `async for` inside a plain `def`, which Python
  rejects when compiling the module. `LoadPdfContent` models the intended page loop.
- `utils/Custom_cortex.py:34` does not await `chunkCreator`. This is modelled as
  written, and separately corrected; see Findings.
- `streamlit/app.py:15` imports `RAG` from `snowflake.main`, and
  `snowflake/trulens_eval.py:7` imports it from `main`. `snowflake/main.py:1-8`
  defines no `RAG`, so both modules fail at import. `App` and `TrulensRag` model what
  the modules do once that import succeeds.

## Model

| member | source | states |
|---|---|---|
| Py.Column | utils/datasets.py:66 | `df[name]` exists exactly when some column has that name, and is that column's data |
| Text.Join | utils/doc_utils.py:48 | the joined text starts with the first part, unchanged |
| Text.JoinLength | utils/doc_utils.py:48 | the joined text is as long as the parts plus one separator between each two |
| Text.JoinAt | utils/doc_utils.py:48 | every part appears unchanged at its own offset in the joined text |
| Text.JoinSeparatorAt | utils/docParser.py:50 | exactly one separator stands between each part and the next |
| Text.SplitOn | streamlit/app.py:109 | `split(c)` yields at least one piece, and no piece contains `c` |
| Text.SplitOnCount | streamlit/app.py:109 | splitting yields one piece more than there are occurrences of the separator |
| Text.JoinSplitOn | streamlit/app.py:109 | joining the pieces back with the separator gives the original string |
| Text.PathJoin | utils/datasets.py:56 | the joined path ends with the file name |
| Pages.Contents | utils/doc_utils.py:44-47 | one text per page, in page order |
| Pages.JoinPages | utils/doc_utils.py:44-48 | the collecting loop gives the page texts joined with the separator, each page at its own offset |
| Pages.PdfLoader | utils/doc_utils.py:42-54 | pages joined with ", " in page order. A missing file gives `FileNotFoundError` naming the path; any other failure gives `RuntimeError` with the cause. The same code is utils/docParser.py:42-58 |
| DocParser.ParserDefaults | utils/docParser.py:30-39 | a parser built with only a path has chunk size 1500 and overlap 256; the default path is the sample PDF |
| DocParser.ChunksColumn | utils/docParser.py:71 | the `CHUNKS` column of the table is exactly the chunk list |
| DocParser.Chunked | utils/docParser.py:61-73 | a missing file gives `FileNotFoundError` naming the path, another reader failure `RuntimeError`, and a splitter failure its own exception; otherwise the `CHUNKS` column is the chunks as split |
| DocParser.ChunkCreator | utils/docParser.py:61-73 | it splits with the parser's own size and overlap. There is one uncleaned `CHUNKS` row per chunk, in order. Loader and splitter exceptions propagate unchanged |
| DocUtils.DropSpecial | utils/doc_utils.py:60 | the first substitution never lengthens the text, leaves only `[a-zA-Z0-9\s]`, and keeps a single character exactly when it is one of those |
| DocUtils.DropSpecialConcat | utils/doc_utils.py:60 | the first substitution works character by character: its result on a concatenation is the concatenation of its results, so every whitespace character survives it |
| DocUtils.DropSpecialShape | utils/doc_utils.py:60 | the first substitution leaves text made only of `[a-zA-Z0-9\s]` unchanged |
| DocUtils.SkipSpace | utils/doc_utils.py:61 | `lstrip` gives a suffix of the input that does not start with whitespace |
| DocUtils.StripRight | utils/doc_utils.py:61 | `rstrip` gives a prefix of the input that does not end with whitespace |
| DocUtils.CollapseShape | utils/doc_utils.py:61 | after the second substitution, whitespace occurs only as single plain spaces |
| DocUtils.CollapseKeepsWords | utils/doc_utils.py:60-61 | collapsing kept characters yields only letters, digits and spaces |
| DocUtils.CollapseKeptIsWords | utils/doc_utils.py:60-61 | collapsing kept characters yields words separated by single spaces |
| DocUtils.StripWords | utils/doc_utils.py:61 | stripping such words leaves no space at either end |
| DocUtils.CleanChunk | utils/doc_utils.py:60-61 | cleaning removes only other characters and extra whitespace: every letter and digit of the chunk is kept, all of them and in their original order |
| DocUtils.CleanChunkIsNormal | utils/doc_utils.py:60-61 | a cleaned chunk holds only ASCII letters, digits and single spaces, and has no space at either end |
| DocUtils.CollapseFixesCollapsed | utils/doc_utils.py:61 | the whitespace collapse leaves already-collapsed text unchanged |
| DocUtils.CleanChunkFixesNormal | utils/doc_utils.py:60-61 | cleaning leaves a chunk in normal form unchanged |
| DocUtils.CleanChunkIdempotent | utils/doc_utils.py:60-61 | cleaning twice equals cleaning once |
| DocUtils.DropSpecialKeepsAlnums | utils/doc_utils.py:60 | the first substitution keeps every letter and digit, in order |
| DocUtils.SkipSpaceKeepsAlnums | utils/doc_utils.py:61 | left-stripping keeps every letter and digit |
| DocUtils.StripRightKeepsAlnums | utils/doc_utils.py:61 | right-stripping keeps every letter and digit |
| DocUtils.CollapseKeepsAlnums | utils/doc_utils.py:61 | collapsing whitespace keeps every letter and digit, in order |
| DocUtils.CollapseRunKeepsAlnums | utils/doc_utils.py:61 | replacing a leading whitespace run by one space keeps the letters and digits |
| DocUtils.CollapseCharKeepsAlnums | utils/doc_utils.py:61 | a leading non-space character is kept by the collapse, together with the letters and digits after it |
| DocUtils.CleanChunkEmptyIff | utils/doc_utils.py:60-62 | a chunk cleans to `""` exactly when it has no ASCII letter or digit |
| DocUtils.SkipSpaceConcat | utils/doc_utils.py:61 | `lstrip` of text ending in a non-space character only touches that text, and leaves it non-empty |
| DocUtils.SkipSpaceRun | utils/doc_utils.py:61 | `lstrip` removes a whole whitespace run in front of a non-space character, and nothing after it |
| DocUtils.CollapseConcat | utils/doc_utils.py:61 | no whitespace run crosses the end of text ending in a non-space character, so the collapse works on the two parts separately |
| DocUtils.CollapseCons | utils/doc_utils.py:61 | a leading character that is not whitespace is kept by the collapse |
| DocUtils.CollapseSeparates | utils/doc_utils.py:61 | the whitespace run between two normal texts becomes exactly one space, and the texts are left alone |
| DocUtils.CleanChunkSeparates | utils/doc_utils.py:60-61 | cleaning joins two clean texts separated by any non-empty whitespace run with exactly one space: `"a \t\n b"` becomes `"a b"` |
| DocUtils.CleanItemsNormal | utils/doc_utils.py:57-64 | entries cleaned one by one, each by one loop iteration: every string is in normal form and keeps its letters and digits; a value whose cleaning raises is kept unmodified |
| DocUtils.CleanText | utils/doc_utils.py:56-66 | one entry per input, at the same position. Every string is cleaned to normal form, keeping its letters and digits, and an empty result is kept. A value whose cleaning raises is kept unmodified |
| DocUtils.CleanAll | utils/doc_utils.py:78 | one cleaned chunk per chunk, in order |
| DocUtils.CleanChunks | utils/doc_utils.py:78 | `clean_text` applied to the splitter's chunks gives every chunk cleaned, in order |
| DocUtils.CleanAllNormal | utils/doc_utils.py:78 | every cleaned chunk is in normal form |
| DocUtils.Chunked | utils/doc_utils.py:69-82 | it raises exactly when the splitter does, as `RuntimeError` with the source's prefix and the cause; otherwise the `CHUNKS` column is every chunk cleaned, in splitter order |
| DocUtils.ChunkCreator | utils/doc_utils.py:69-82 | it splits with the processor's size and overlap. There is one `CHUNKS` row per chunk, in splitter order, each cleaned and in normal form. A splitter failure is wrapped as `RuntimeError` |
| Datasets.RowsOf | utils/datasets.py:66-67 | one `(folder, chunk)` row per chunk, in chunk order |
| Datasets.RowsByAppend | utils/datasets.py:50-67 | the rows of a concatenated listing are the rows of each part, in order |
| Datasets.RowsBySkip | utils/datasets.py:50-67 | an item that yields no rows can be dropped from anywhere in the listing |
| Datasets.RowsBySource | utils/datasets.py:50-67 | every row comes from one item of the listing |
| Datasets.ParseFile | utils/datasets.py:56-64 | each file's parser gets the file's full path and the processor's chunk size and overlap |
| Datasets.ReadChunks | utils/datasets.py:55-66 | a `.json` file yields the `CHUNKS` column of its parse. Any other file, or a parse that raises, yields nothing |
| Datasets.WriteChunkRows | utils/datasets.py:66-67 | the row-writing loop writes one row per chunk, under the folder's name, in chunk order |
| Datasets.WriteFileRows | utils/datasets.py:55-69 | the inner body writes exactly the file's rows |
| Datasets.WriteEntryRows | utils/datasets.py:50-69 | a directory's files are visited in listing order; any other entry writes nothing |
| Datasets.Process | utils/datasets.py:45-69 | the CSV holds the header `name,data` first, then every row of every `.json` file of every directory, folder by folder and file by file |
| Datasets.FilesRowsAppend | utils/datasets.py:54-69 | a directory's rows follow its file listing: the rows of a concatenation are the rows of the parts, in order |
| Datasets.SkippedFileLeavesNoRows | utils/datasets.py:55-69 | a file not named `*.json`, or whose parse raises, contributes no rows, and the walk goes on |
| Datasets.EntriesRowsAppend | utils/datasets.py:50-69 | the rows follow the root listing, folder by folder |
| Datasets.PlainFileIgnored | utils/datasets.py:53 | only directories are descended into; a plain file in the root changes nothing |
| Datasets.FileChunks | utils/datasets.py:55-66 | a `.json` file whose parse succeeds contributes exactly the chunks of that parse, unchanged and in order; any other file contributes none |
| Datasets.RowsOfSource | utils/datasets.py:66-67 | a row written for a chunk list names the folder and holds one of the chunks |
| Datasets.FileRowsProvenance | utils/datasets.py:64-67 | every row of a file names its folder and holds one of the file's chunks |
| Datasets.FilesRowsProvenance | utils/datasets.py:54-67 | every row of a directory names the folder and holds a chunk of one of its files |
| Datasets.RowProvenance | utils/datasets.py:50-67 | every row after the header names a directory of the listing and holds a chunk of one of its files |
| Backend.IssuedPrefix | utils/Custom_cortex.py:19-27 | statements run in order: what is sent is a non-empty prefix of what was asked, stopping at the first that raises |
| Backend.IssuedAll | utils/Custom_cortex.py:19-27 | when none raises, every statement asked for is sent |
| Backend.FailureIsLast | utils/Custom_cortex.py:19-27 | the statement that raises is the last one sent, and its message is the one reported |
| Backend.ShiftLast | utils/Custom_cortex.py:19-27 | the trace before the last statement, seen from one statement later, is unchanged |
| Backend.OneCommand | utils/Custom_cortex.py:22 | a single call is sent, and its failure is the one reported |
| Backend.RunTwo | utils/Custom_cortex.py:21-22 | the second statement is sent only when the first completes |
| Backend.RunThree | utils/Custom_cortex.py:44-58 | each of three statements is sent only when all before it complete |
| Backend.Platform.Issue | utils/Custom_cortex.py:21 | a statement is appended to the trace, and the oracle decides whether it raised |
| SecretLoader.GetSecret | utils/secret_loader.py:4-14 | it raises `KeyError` exactly when there is no secrets file and the variable is unset |
| SecretLoader.EnvWithoutFile | utils/secret_loader.py:7-8 | without a secrets file, the environment's value is returned |
| SecretLoader.SecretsWin | utils/secret_loader.py:10-12 | with a secrets file that holds the key, the secret is returned whatever the environment says |
| SecretLoader.NoEnvFallback | utils/secret_loader.py:10-14 | with a secrets file that lacks the key the result is `None`, even when the environment has it |
| SecretLoader.EnvIgnoredWithFile | utils/secret_loader.py:10-14 | with a secrets file, the environment is never consulted |
| SecretLoader.SecretsIgnoredWithoutFile | utils/secret_loader.py:7-8 | without a secrets file, the secrets are never consulted |
| CustomCortex.ServiceReadsStoredTable | utils/Custom_cortex.py:36-56 | data is appended to `DATA`. The service selects and indexes `CHUNKS` from that same table, which is the chunk table's one column |
| CustomCortex.Cortex.constructor | utils/Custom_cortex.py:8-16 | the table is `DATA`; the schema, service, database, warehouse and chunking settings are those given |
| CustomCortex.NewCortex | utils/Custom_cortex.py:8-16 | the database secret is read, then the warehouse secret, and a `KeyError` from either escapes. Chunking defaults to 700/50 |
| CustomCortex.Cortex.CreateSchema | utils/Custom_cortex.py:18-27 | `USE DATABASE` then `CREATE SCHEMA IF NOT EXISTS`, stopping at the first that raises; true exactly when neither raised |
| CustomCortex.Cortex.UploadData | utils/Custom_cortex.py:30-34 | the loader's exception propagates; otherwise the un-awaited chunking coroutine for the loaded text is returned |
| CustomCortex.Cortex.UploadDataAwaited | utils/Custom_cortex.py:30-34 | corrected: the loaded text is chunked and cleaned by the processor |
| CustomCortex.Cortex.StoreData | utils/Custom_cortex.py:36-40 | a table becomes a frame and is appended to `DATA`, and exceptions propagate. A coroutine is refused with `TypeError` before anything is sent |
| CustomCortex.Cortex.CreateCortexService | utils/Custom_cortex.py:42-62 | `USE DATABASE`, `USE SCHEMA`, then `CREATE CORTEX SEARCH SERVICE`, stopping at the first that raises; it never raises itself |
| CustomCortex.Cortex.DeleteSchema | utils/Custom_cortex.py:64-70 | a drop is requested and nothing is raised, whatever the drop does |
| CustomCortex.Cortex.CreateService | utils/Custom_cortex.py:72-77 | as written: nothing follows a failed schema step. After a created schema, a loaded file ends in `TypeError`, and only the schema statements were ever sent |
| CustomCortex.Cortex.CreateServiceAwaited | utils/Custom_cortex.py:72-77 | corrected: after a created schema comes upload, then store, then service creation. Upload and store exceptions propagate; a failed service creation does not |
| CustomCortex.FullProvisioning | utils/Custom_cortex.py:72-77 | with everything accepted, exactly seven statements go out in order. The frame appended to `DATA` is the corrected upload's frame, whose `CHUNKS` column is every chunk of the loaded text cleaned |
| DbCreator.PromptFor | snowflake/dbCreator.py:51 | the prompt is the fixed head, the chunk verbatim, then the fixed tail |
| DbCreator.PromptRoundTrip | snowflake/dbCreator.py:50-53 | the chunk can be read back out of its prompt |
| DbCreator.PromptInjective | snowflake/dbCreator.py:50-53 | different chunks get different prompts |
| DbCreator.Prompts | snowflake/dbCreator.py:50-53 | one prompt per chunk, in chunk order |
| DbCreator.PromptTable | snowflake/dbCreator.py:54-57 | the `chunks` column is the chunk list; the `prompts` column has one prompt per chunk, each embedding its row's chunk right after the fixed head |
| DbCreator.PromptTableRows | snowflake/dbCreator.py:54-57 | the columns `chunks` and `prompts` have equal length, and each prompt embeds its row's chunk |
| DbCreator.CortexSearchModule.constructor | snowflake/dbCreator.py:11-14 | it keeps the session and path, with no text loaded |
| DbCreator.CortexSearchModule.LoadPdfContent | snowflake/dbCreator.py:16-21 | the page texts are joined with "\n" in page order into `pages_text`; a reader exception leaves it as it was |
| DbCreator.CortexSearchModule.CreateDatabaseAndSchema | snowflake/dbCreator.py:23-39 | the database is created or replaced, then the schema inside it; an exception stops the sequence |
| DbCreator.CortexSearchModule.ChunkText | snowflake/dbCreator.py:41-62 | it splits with 1512/256 and returns the prompt table of the chunks, in order. Splitter exceptions propagate, and text that was never loaded ends in `TypeError` |
| DbCreator.CortexSearchModule.StoreResults | snowflake/dbCreator.py:64-67 | the table is appended to `CORTEX_SEARCH_TABLE`; exceptions propagate |
| DbCreator.CortexSearchModule.Run | snowflake/dbCreator.py:69-73 | load, then database and schema, then chunking, then storage; the first exception stops the rest |
| TrulensRag.DefaultLimit | snowflake/trulens_eval.py:18-21 | the retrieval limit defaults to 5 |
| TrulensRag.LocateService | snowflake/trulens_eval.py:32-36 | the database, schema and service secrets are read in that order. Without a secrets file, `KeyError` names the first unset one; otherwise the names are what `get_secret` answers |
| TrulensRag.ProjectData | snowflake/trulens_eval.py:42 | each result's `DATA` value, same length and order; `KeyError` when a result lacks it |
| TrulensRag.RetrieveContext | snowflake/trulens_eval.py:24-44 | the apology dict is returned exactly when a root or session is missing; otherwise the only exceptions are `KeyError` and the search's own |
| TrulensRag.MissingHandleDegrades | snowflake/trulens_eval.py:25-29 | without a root or session, the fixed apology dict is returned and nothing is searched |
| TrulensRag.RetrievedPassages | snowflake/trulens_eval.py:31-44 | the search sees the query, column `DATA` and the limit. The result is each `DATA` value in order, or `[]` when there are no results |
| TrulensRag.GenerateCompletion | snowflake/trulens_eval.py:47-49 | `Complete` is called with model `mistral-large2` on the base class's prompt for that query and context |
| TrulensRag.Query | snowflake/trulens_eval.py:52-54 | a retrieval exception propagates; with a root or session missing, the model is still asked, with the apology dict as context |
| TrulensRag.QueryComposes | snowflake/trulens_eval.py:47-54 | `Complete("mistral-large2", create_prompt(query, context))`, where the context is the unmodified retrieval result; without a root or a session, it is the apology dict |
| ConversationChain.Hole | snowflake/conversation_chain.py:50-51 | text inserted after a tag sits verbatim right after it |
| ConversationChain.FillEmbedsQuery | snowflake/conversation_chain.py:41-55 | in a two-hole template, the query sits verbatim right after its tag |
| ConversationChain.FillEmbedsResponse | snowflake/conversation_chain.py:41-55 | in a two-hole template, the response sits verbatim right after its tag |
| ConversationChain.FillEmbedsBoth | snowflake/conversation_chain.py:41-55 | in a two-hole template, each text sits verbatim after its tag, query first |
| ConversationChain.Prompt | snowflake/conversation_chain.py:41-55 | the query sits verbatim after `Query: "`, the response verbatim after `LLM Response: "`, and the query comes first |
| ConversationChain.KnowledgeGraphGenerator.constructor | snowflake/conversation_chain.py:26-31 | the API key comes from `MISTRALAI_API` (`None` when unset), and there is no model handle yet |
| ConversationChain.KnowledgeGraphGenerator.InitializeLlm | snowflake/conversation_chain.py:33-39 | the client uses the configured model and key, at temperature 0.5 |
| ConversationChain.KnowledgeGraphGenerator.GenerateKnowledgeGraph | snowflake/conversation_chain.py:57-62 | the client is created only when none exists and is otherwise reused; the model receives exactly the prompt |
| Connection.FirstMissingOf | utils/sessions.py:21-23 | there is no missing variable exactly when all are set; otherwise it is the first unset one in list order |
| Connection.FirstMissingAt | utils/sessions.py:21-23 | only the first unset variable can be reported |
| Connection.FirstMissing | utils/sessions.py:21-23 | the validation loop reports the first unset variable, in list order |
| Connection.Variables | utils/sessions.py:25-32 | the variables read, in parameter order |
| Connection.DictKeys | utils/sessions.py:25-32 | the dict's keys are exactly the parameter keys |
| Connection.DictValues | utils/sessions.py:25-32 | each key maps to its own variable's value |
| Connection.ReadParams | utils/sessions.py:25-32 | the dict is built exactly when every variable is set; otherwise `KeyError` names the first unset one |
| Connection.ParamsRead | utils/sessions.py:25-32 | with every variable set, the dict holds exactly the keys, each with its variable's value |
| Connection.Validate | utils/sessions.py:13-32 | construction succeeds exactly when every checked and every read variable is set. `ValueError` names the first unset checked variable; otherwise `KeyError` names the first unset read variable |
| Connection.Connector.constructor | utils/sessions.py:33 | a new connector holds no session |
| Connection.Connector.Connect | utils/sessions.py:35-41 | one attempt with the stored parameters; a failure leaves `None` |
| Connection.Connector.GetSession | utils/sessions.py:43-46 | it connects only when no session is held; a held one is returned without reconnecting |
| Connection.Connector.Close | utils/sessions.py:48-56 | `close()` is called on a held session; nothing is raised, and the session is kept |
| Connection.NewConnector | utils/sessions.py:10-33 | `ValueError` for the first unset checked variable, then the parameter read; the new connector holds no session and has made no connection attempt or close request |
| UtilsSessions.MissingChecked | utils/sessions.py:13-23 | `ValueError` names the first unset of ACCOUNT, USER, PASSWORD, ROLE |
| UtilsSessions.UncheckedVariables | utils/sessions.py:25-32 | with the four set, an unset warehouse or schema raises `KeyError`. Otherwise there are exactly six keys and no `database` |
| SnowflakeSessions.MissingChecked | snowflake/sessions.py:9-21 | `ValueError` names the first unset of the seven, in list order |
| SnowflakeSessions.EveryReadChecked | snowflake/sessions.py:9-32 | construction succeeds exactly when all seven are set, and never raises `KeyError` |
| SnowflakeSessions.ParamKeys | snowflake/sessions.py:24-32 | the seven keys are distinct |
| SnowflakeSessions.ParametersRead | snowflake/sessions.py:24-32 | each of the seven keys maps to its environment variable |
| StreamlitSession.ModuleParameters | streamlit/session.py:7-15 | the import succeeds exactly when all seven variables are set |
| StreamlitSession.ImportFailsFirst | streamlit/session.py:7-15 | the import raises `KeyError` for the first unset variable |
| StreamlitSession.CheckUnreachableAfterImport | streamlit/session.py:19-41 | the constructor's `ValueError` can only occur where the import already raised for the same variable. After a successful import, the instance parameters equal the module-level ones |
| App.Initialized | streamlit/app.py:32-54 | initialisation adds exactly the missing state keys and never overwrites a stored value |
| App.InitializedConnection | streamlit/app.py:34-42 | a missing session, root or chat application gets the new session, the root, and an application built on the stored root and session |
| App.InitializedChat | streamlit/app.py:44-54 | a missing history is empty and a missing welcome flag is set; a missing document or status is `None` |
| App.InitializedIdempotent | streamlit/app.py:32-54 | a second initialisation changes nothing |
| App.StreamPieces | streamlit/app.py:108-111 | one piece per word of `split(" ")`, each followed by a space |
| App.ConcatSpaced | streamlit/app.py:108-111 | concatenating the space-suffixed words gives the words joined by spaces, plus one trailing space |
| App.StreamReassembles | streamlit/app.py:108-111 | the pieces concatenate to the response plus one space, and there is one more piece than the response has spaces |
| App.BubbleFor | streamlit/app.py:114-120 | a message is drawn with its text unchanged, as `user` exactly when the user sent it, and as `assistant` otherwise |
| App.OpenSession | streamlit/app.py:35-36 | the connector's exception, or the session its first attempt gives |
| App.AppState.constructor | streamlit/app.py:32 | the session state starts empty |
| App.AppState.InitializeSessionState | streamlit/app.py:32-54 | a connector is built only when no session is stored. Its exception leaves the state unchanged. Otherwise the state becomes the initialised one and is ready |
| App.AppState.ClearChat | streamlit/app.py:64-68 | it resets exactly the four chat keys and leaves the session, root and application untouched |
| App.AppState.ShowWelcome | streamlit/app.py:101-105 | the banner is shown exactly when `first_load` is set, and it clears the flag |
| App.AppState.Replay | streamlit/app.py:114-120 | one bubble per stored message, in insertion order, with user messages as `user` |
| App.AppState.ChatTurn | streamlit/app.py:123-133 | no input changes nothing. Otherwise the user message is stored, then the ai answer, which is streamed in pieces. An exception leaves only the user message added |

## Left out

- The text splitter's strategy. LangChain's splitter is foreign, so the model makes no claim about chunk sizes or overlaps beyond passing them on.
- The PDF reader. What it yields for a path is a `LoadOutcome`: the pages, a missing file, or another failure.
- Snowflake itself. `Session`, `Root`, SQL execution, `save_as_table`, Cortex `search` and `Complete` are a command trace with an outcome oracle, or function parameters.
- The Mistral client's `predict`, and the search application's answer in the chat page. Both are function parameters.
- `DbCreator.CortexSearchModule.ChunkText`: when no text was loaded, LangChain's splitter is taken to raise `TypeError` on `None`. The message depends on the Python version and is not promised. The library is not part of this model.
- `CustomCortex.Cortex.StoreData`: Snowpark's `create_dataframe` is taken to refuse a coroutine with `TypeError` before contacting the server. The library is not part of this model.
- `create_prompt`, which `RAG` inherits from a base class that the repository does not define. snowflake/main.py has no `RAG`, so the chat page's `RAG` is not part of this model either.
- Streamlit rendering: `st.write`, `st.success`, `st.warning`, spinners, page configuration and `time.sleep` in `stream_output`. The methods that show a success or a warning return which one they show.
- The upload feature `file_uploade_feature`, streamlit/app.py:71-96. It is defined but never called: its only call, at streamlit/app.py:139, is commented out.
- Console output. This covers the connectors' and the walk's `print` calls, and `delete_schema`'s message.
- `asyncio`. The code is sequential, so awaited calls are ordinary calls.
- The TruLens feedback driver and its floating-point scoring, snowflake/trulens_eval.py:57-108.
- The scripts: run.py, snowflake/fetch.py, backend/main.py and snowflake/main.py.
- The broken duplicates in libs/.
- utils/datasets.py `main()`. It refers to folder constants that are never defined.
- Opening and encoding the CSV file. The writer is the sequence of rows written.
- The directory listing is given as a value in `os.listdir` order, not read from disk.
- `KnowledgeGraphGenerator.chat_history`, which is created but never used.
- `load_dotenv`. The environment map already holds what it adds.
- `SecretLoader.GetSecret`: the `FileNotFoundError` branch when the secrets file vanishes between the existence check and the read is not modelled. That path would also return `None`.
- Python's truthiness of handles. A session, root or handle counts as absent exactly when it is `None`.
- Unicode beyond the character classes. `\s` is the set of characters `str.isspace` accepts, and the alphanumerics are ASCII `[a-zA-Z0-9]`.

## Findings

| source | as written | input that shows it | evidently intended | confidence | as-written member | corrected member |
|---|---|---|---|---|---|---|
| utils/Custom_cortex.py:34 | `_upload_data` returns `self.chunkCreator(raw_texts)` without `await`, so `_store_data` receives a coroutine and `create_dataframe` raises `TypeError`. No data is stored and `_createCortexService` is never reached | any PDF that loads, with `USE DATABASE` and `CREATE SCHEMA` both completing | `return await self.chunkCreator(raw_texts)`: the cleaned chunk table is appended to `DATA` and the search service is created over it | not executed | CustomCortex.Cortex.CreateService | CustomCortex.Cortex.CreateServiceAwaited |
