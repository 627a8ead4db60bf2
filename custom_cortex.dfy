/** utils/Custom_cortex.py: `customCortex`, which provisions one user's search
    service: a schema, the chunked PDF stored in table `DATA`, and a Cortex search
    service over that table. Every statement it sends goes to the backend's command
    trace; whether a statement raises is the backend's oracle. */
module CustomCortex {
  import opened Py
  import opened Text
  import opened Pages
  import opened Splitting
  import opened Backend
  import opened SecretLoader
  import DocUtils

  const TableName := "DATA"
  const AppendMode := "append"
  const TargetLag := "1 days"
  const EmbeddingModel := "snowflake-arctic-embed-l-v2.0"

  /** Snowpark's `create_dataframe` accepts a list, a tuple or a pandas DataFrame and
      raises `TypeError` with this message for anything else, before contacting the
      server. */
  const NotAFrameMessage := "create_dataframe() function only accepts data as a list, tuple or a pandas DataFrame."

  /** What `_upload_data` hands to `_store_data`: the coroutine object of a
      `chunkCreator` call that was never awaited (it holds the text it would chunk), or
      the awaited chunk table. */
  datatype Upload = PendingChunks(text: string) | Table(frame: Frame)

  /** `_create_schema`'s statements. */
  function SchemaCommands(database: Option<string>, schema: string): seq<Command> {
    [UseDatabase(Render(database)), CreateSchemaIfNotExists(schema)]
  }

  /** `_store_data`'s calls for a table. */
  function StoreCommands(frame: Frame): seq<Command> {
    [CreateDataFrame(frame), SaveAsTable(TableName, AppendMode)]
  }

  /** `_createCortexService`'s statements. */
  function ServiceCommands(database: Option<string>, schema: string, service: string, warehouse: Option<string>): seq<Command> {
    [UseDatabase(Render(database)), UseSchema(schema),
     CreateSearchService(service, "CHUNKS", Render(warehouse), TargetLag, EmbeddingModel, "CHUNKS", TableName)]
  }

  /** The search service is built over the table and column the data is stored in: it
      selects and indexes `CHUNKS`, the chunk table's one column, from the table the
      frame is appended to. */
  lemma ServiceReadsStoredTable(database: Option<string>, schema: string, service: string, warehouse: Option<string>, rows: seq<string>)
    ensures var create := ServiceCommands(database, schema, service, warehouse)[2];
            var save := StoreCommands(DocUtils.ChunksFrame(rows))[1];
            && create.fromTable == save.table == "DATA" && save.mode == "append"
            && create.selectColumn == create.onColumn
            && Column(DocUtils.ChunksFrame(rows), create.selectColumn) == Some(rows)
  {
  }

  /** What the corrected upload yields: the loaded text chunked and cleaned by the
      processor. */
  function UploadedFrame(p: DocUtils.DocumentProcessor, path: string, load: LoadOutcome, split: Splitter): Result<Frame> {
    match LoadedText(path, load)
    case Err(e) => Err(e)
    case Ok(text) => DocUtils.Chunked(p, text, split)
  }

  /** A successful corrected upload loaded the document, and the splitter cut its
      pages, joined with ", ", into chunks; the frame's `CHUNKS` column holds every
      one of them cleaned. */
  lemma UploadedChunks(p: DocUtils.DocumentProcessor, path: string, load: LoadOutcome, split: Splitter, frame: Frame)
    requires UploadedFrame(p, path, load, split) == Ok(frame)
    ensures load.Loaded?
    ensures var parts := split(Join(", ", Contents(load.pages)), p.chunkSize, p.overlap);
            parts.Chunks? && Column(frame, "CHUNKS") == Some(DocUtils.CleanAll(parts.chunks))
  {
  }

  class Cortex {
    const platform: Platform
    const tableName: string
    const schema: string
    const database: Option<string>
    const serviceName: string
    const warehouse: Option<string>
    const processor: DocUtils.DocumentProcessor

    constructor (platform: Platform, schema: string, serviceName: string,
                 database: Option<string>, warehouse: Option<string>, chunkSize: int, overlap: int)
      ensures this.platform == platform && tableName == TableName && this.schema == schema
      ensures this.database == database && this.serviceName == serviceName && this.warehouse == warehouse
      ensures processor == DocUtils.DocumentProcessor(chunkSize, overlap)
    {
      this.platform := platform;
      tableName := TableName;
      this.schema := schema;
      this.database := database;
      this.serviceName := serviceName;
      this.warehouse := warehouse;
      processor := DocUtils.DocumentProcessor(chunkSize, overlap);
    }

    /** `_create_schema()`: `USE DATABASE` and then `CREATE SCHEMA IF NOT EXISTS`,
        stopping at the first that raises; true exactly when neither raised. */
    method CreateSchema() returns (created: bool)
      modifies platform
      ensures platform.log == old(platform.log) + Issued(platform.outcome, old(platform.log), SchemaCommands(database, schema))
      ensures created <==> FirstFailure(platform.outcome, old(platform.log), SchemaCommands(database, schema)).None?
    {
      var cmds := SchemaCommands(database, schema);
      RunTwo(platform.outcome, platform.log, cmds[0], cmds[1]);
      var o := platform.Issue(cmds[0]);
      if o.Failed? {
        return false;
      }
      o := platform.Issue(cmds[1]);
      created := o.Done?;
    }

    /** `_upload_data(pdf_path)` as written: the loader's exceptions propagate, and on
        success the result is the `chunkCreator` coroutine, never awaited, so no chunk
        is made. */
    method UploadData(pdfPath: string, load: LoadOutcome) returns (r: Result<Upload>)
      ensures r.Ok? <==> load.Loaded?
      ensures r.Ok? ==> r.value == PendingChunks(Join(", ", Contents(load.pages)))
      ensures r.Err? ==> r.error == LoadedText(pdfPath, load).error
    {
      var rawTexts := PdfLoader(pdfPath, load);
      if rawTexts.Err? {
        return Err(rawTexts.error);
      }
      r := Ok(PendingChunks(rawTexts.value));
    }

    /** `_upload_data(pdf_path)` with the chunking awaited: the loaded text chunked and
        cleaned by the processor, one row per chunk. */
    method UploadDataAwaited(pdfPath: string, load: LoadOutcome, split: Splitter) returns (r: Result<Upload>)
      ensures r.Ok? <==> UploadedFrame(processor, pdfPath, load, split).Ok?
      ensures r.Ok? ==> r.value == Table(UploadedFrame(processor, pdfPath, load, split).value)
      ensures r.Err? ==> r.error == UploadedFrame(processor, pdfPath, load, split).error
    {
      var rawTexts := PdfLoader(pdfPath, load);
      if rawTexts.Err? {
        return Err(rawTexts.error);
      }
      var frame := DocUtils.ChunkCreator(processor, rawTexts.value, split);
      if frame.Err? {
        return Err(frame.error);
      }
      r := Ok(Table(frame.value));
    }

    /** `_store_data(df)`: a table is turned into a Snowpark frame and appended to
        `DATA`, stopping at the first call that raises, whose exception propagates; a
        coroutine is refused by `create_dataframe` with `TypeError` before anything is
        sent. */
    method StoreData(df: Upload) returns (r: Result<()>)
      modifies platform
      ensures df.PendingChunks? ==> r == Err(TypeError(NotAFrameMessage)) && platform.log == old(platform.log)
      ensures df.Table? ==>
                && platform.log == old(platform.log) + Issued(platform.outcome, old(platform.log), StoreCommands(df.frame))
                && r == Raising(FirstFailure(platform.outcome, old(platform.log), StoreCommands(df.frame)))
    {
      if df.PendingChunks? {
        return Err(TypeError(NotAFrameMessage));
      }
      var cmds := StoreCommands(df.frame);
      RunTwo(platform.outcome, platform.log, cmds[0], cmds[1]);
      var o := platform.Issue(cmds[0]);
      if o.Failed? {
        return Err(Raised(o.message));
      }
      o := platform.Issue(cmds[1]);
      if o.Failed? {
        return Err(Raised(o.message));
      }
      r := Ok(());
    }

    /** `_createCortexService()`: `USE DATABASE`, `USE SCHEMA`, then `CREATE CORTEX
        SEARCH SERVICE` over `CHUNKS` of `DATA`, stopping at the first that raises. It
        never raises itself; the result says whether the success message or the warning
        is shown. */
    method CreateCortexService() returns (created: bool)
      modifies platform
      ensures platform.log == old(platform.log)
                + Issued(platform.outcome, old(platform.log), ServiceCommands(database, schema, serviceName, warehouse))
      ensures created <==> FirstFailure(platform.outcome, old(platform.log), ServiceCommands(database, schema, serviceName, warehouse)).None?
    {
      var cmds := ServiceCommands(database, schema, serviceName, warehouse);
      RunThree(platform.outcome, platform.log, cmds[0], cmds[1], cmds[2]);
      var o := platform.Issue(cmds[0]);
      if o.Failed? {
        return false;
      }
      o := platform.Issue(cmds[1]);
      if o.Failed? {
        return false;
      }
      o := platform.Issue(cmds[2]);
      created := o.Done?;
    }

    /** `delete_schema()`: asks for the schema to be dropped and never raises, whatever
        the drop does. */
    method DeleteSchema()
      modifies platform
      ensures platform.log == old(platform.log) + [DropSchema(database, schema)]
    {
      var _ := platform.Issue(DropSchema(database, schema));
    }

    /** `Create_service(file_path)` as written. Nothing follows a failed schema step.
        After a created schema, the upload hands the un-awaited coroutine to
        `_store_data`, which raises `TypeError` (or the loader's exception propagates
        first): the schema statements are the only ones ever sent, so no data is stored
        and no search service is created. */
    method CreateService(filePath: string, load: LoadOutcome) returns (r: Result<()>)
      modifies platform
      ensures platform.log == old(platform.log) + Issued(platform.outcome, old(platform.log), SchemaCommands(database, schema))
      ensures FirstFailure(platform.outcome, old(platform.log), SchemaCommands(database, schema)).Some? ==> r == Ok(())
      ensures FirstFailure(platform.outcome, old(platform.log), SchemaCommands(database, schema)).None? ==>
                r == (if load.Loaded? then Err(TypeError(NotAFrameMessage)) else Err(LoadedText(filePath, load).error))
    {
      var createdSchema := CreateSchema();
      if createdSchema {
        var df := UploadData(filePath, load);
        if df.Err? {
          return Err(df.error);
        }
        r := StoreData(df.value);
        // The coroutine is always refused, so the rest of `Create_service` is never
        // reached.
        assert r.Err?;
        return;
      }
      r := Ok(());
    }

    /** `Create_service(file_path)` with the upload awaited: after a created schema, the
        chunk table is appended to `DATA` and then the search service is created; an
        exception from loading, chunking or storing propagates and stops the sequence,
        while a failed service creation only warns. */
    method CreateServiceAwaited(filePath: string, load: LoadOutcome, split: Splitter) returns (r: Result<()>)
      modifies platform
      ensures var log0 := old(platform.log);
              var schemaCmds := SchemaCommands(database, schema);
              FirstFailure(platform.outcome, log0, schemaCmds).Some? ==>
                platform.log == log0 + Issued(platform.outcome, log0, schemaCmds) && r == Ok(())
      ensures var log1 := old(platform.log) + SchemaCommands(database, schema);
              var uploaded := UploadedFrame(processor, filePath, load, split);
              FirstFailure(platform.outcome, old(platform.log), SchemaCommands(database, schema)).None? ==>
                && (uploaded.Err? ==> platform.log == log1 && r == Err(uploaded.error))
                && (uploaded.Ok? ==>
                      var storeCmds := StoreCommands(uploaded.value);
                      var failure := FirstFailure(platform.outcome, log1, storeCmds);
                      && (failure.Some? ==>
                            platform.log == log1 + Issued(platform.outcome, log1, storeCmds) && r == Err(Raised(failure.value)))
                      && (failure.None? ==>
                            var log2 := log1 + storeCmds;
                            var serviceCmds := ServiceCommands(database, schema, serviceName, warehouse);
                            platform.log == log2 + Issued(platform.outcome, log2, serviceCmds) && r == Ok(())))
    {
      ghost var log0 := platform.log;
      var createdSchema := CreateSchema();
      if createdSchema {
        IssuedAll(platform.outcome, log0, SchemaCommands(database, schema));
        var df := UploadDataAwaited(filePath, load, split);
        if df.Err? {
          return Err(df.error);
        }
        ghost var log1 := platform.log;
        r := StoreData(df.value);
        if r.Err? {
          return;
        }
        IssuedAll(platform.outcome, log1, StoreCommands(df.value.frame));
        var _ := CreateCortexService();
      }
      r := Ok(());
    }
  }

  /** `customCortex(session, root, schema, service_name, chunk_size=700, overlap=50)`:
      the database and warehouse names come from `get_secret`, the database first; a
      `KeyError` from either escapes the constructor. The session and the root handle
      both talk to `platform`. */
  method NewCortex(platform: Platform, schema: string, serviceName: string, secrets: SecretEnv,
                   chunkSize: int := 700, overlap: int := 50) returns (r: Result<Cortex>)
    ensures GetSecret(secrets, "USER_DATABASE").Err? ==> r == Err(KeyError("USER_DATABASE"))
    ensures GetSecret(secrets, "USER_DATABASE").Ok? && GetSecret(secrets, "SNOWFLAKE_WAREHOUSE").Err? ==>
              r == Err(KeyError("SNOWFLAKE_WAREHOUSE"))
    ensures r.Ok? <==> GetSecret(secrets, "USER_DATABASE").Ok? && GetSecret(secrets, "SNOWFLAKE_WAREHOUSE").Ok?
    ensures r.Ok? ==>
              && fresh(r.value)
              && r.value.platform == platform && r.value.tableName == "DATA"
              && r.value.schema == schema && r.value.serviceName == serviceName
              && r.value.database == GetSecret(secrets, "USER_DATABASE").value
              && r.value.warehouse == GetSecret(secrets, "SNOWFLAKE_WAREHOUSE").value
              && r.value.processor == DocUtils.DocumentProcessor(chunkSize, overlap)
  {
    var database := GetSecret(secrets, "USER_DATABASE");
    if database.Err? {
      return Err(database.error);
    }
    var warehouse := GetSecret(secrets, "SNOWFLAKE_WAREHOUSE");
    if warehouse.Err? {
      return Err(warehouse.error);
    }
    var c := new Cortex(platform, schema, serviceName, database.value, warehouse.value, chunkSize, overlap);
    r := Ok(c);
  }

  /** With every statement accepted and the document loaded and split, the corrected
      provisioning sends exactly seven commands, in this order: the two schema
      statements, the frame creation and the append to `DATA` of the uploaded frame,
      whose `CHUNKS` column is every chunk of the loaded text cleaned, and the three
      service statements. */
  lemma FullProvisioning(outcome: Oracle, log0: seq<Command>, database: Option<string>, schema: string,
                         service: string, warehouse: Option<string>,
                         processor: DocUtils.DocumentProcessor, path: string, load: LoadOutcome, split: Splitter,
                         frame: Frame)
    requires forall l, c :: outcome(l, c) == Done
    requires UploadedFrame(processor, path, load, split) == Ok(frame)
    ensures load.Loaded?
    ensures var parts := split(Join(", ", Contents(load.pages)), processor.chunkSize, processor.overlap);
            parts.Chunks? && Column(frame, "CHUNKS") == Some(DocUtils.CleanAll(parts.chunks))
    ensures var cmds := SchemaCommands(database, schema) + StoreCommands(frame);
            var all := cmds + ServiceCommands(database, schema, service, warehouse);
            && FirstFailure(outcome, log0, SchemaCommands(database, schema)).None?
            && FirstFailure(outcome, log0 + SchemaCommands(database, schema), StoreCommands(frame)).None?
            && (log0 + cmds) + Issued(outcome, log0 + cmds, ServiceCommands(database, schema, service, warehouse)) == log0 + all
            && |all| == 7
            && all[2] == CreateDataFrame(frame) && all[3] == SaveAsTable("DATA", "append")
            && all[6].CreateSearchService?
  {
    UploadedChunks(processor, path, load, split, frame);
    var s := ServiceCommands(database, schema, service, warehouse);
    var sc := SchemaCommands(database, schema);
    var st := StoreCommands(frame);
    RunTwo(outcome, log0, sc[0], sc[1]);
    RunTwo(outcome, log0 + sc, st[0], st[1]);
    RunThree(outcome, log0 + (sc + st), s[0], s[1], s[2]);
    assert [s[0], s[1], s[2]] == s;
    assert (log0 + (sc + st)) + s == log0 + ((sc + st) + s);
  }
}
