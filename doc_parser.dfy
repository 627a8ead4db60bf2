/** utils/docParser.py: `DocumentParser`, the loader-plus-splitter used by the batch
    CSV job (utils/datasets.py). Unlike `DocumentProcessor` it does not clean the
    chunks and has no error handler of its own in `chunkCreator`. */
module DocParser {
  import opened Py
  import opened Text
  import opened Pages
  import opened Splitting
  import DocUtils

  /** The constructor's defaults: a fixed sample path, chunk size 1500, overlap 256. */
  datatype DocumentParser = DocumentParser(
    path: string := "/home/pranav/snowflake/Lorem_ipsum.pdf",
    chunkSize: int := 1500,
    chunkOverlap: int := 256)

  /** A parser built with only a path gets the 1500/256 chunking defaults. */
  lemma ParserDefaults(path: string)
    ensures DocumentParser(path).chunkSize == 1500 && DocumentParser(path).chunkOverlap == 256
    ensures DocumentParser().path == "/home/pranav/snowflake/Lorem_ipsum.pdf"
  {
  }

  /** What `chunkCreator()` returns or raises: the loader's exception unchanged, else
      the splitter's exception unchanged, else one "CHUNKS" row per splitter chunk. */
  function Chunked(p: DocumentParser, load: LoadOutcome, split: Splitter): (r: Result<Frame>)
    ensures load.Missing? ==> r == Err(FileNotFoundError(NotFoundPrefix + p.path))
    ensures load.Broken? ==> r == Err(RuntimeError(LoadErrorPrefix + load.message))
    ensures load.Loaded? ==>
              var outcome := split(Join(", ", Contents(load.pages)), p.chunkSize, p.chunkOverlap);
              && (outcome.SplitFailed? ==> r == Err(Raised(outcome.message)))
              && (outcome.Chunks? ==> r.Ok? && Column(r.value, "CHUNKS") == Some(outcome.chunks))
  {
    match LoadedText(p.path, load)
    case Err(e) => Err(e)
    case Ok(text) =>
      match split(text, p.chunkSize, p.chunkOverlap)
      case SplitFailed(m) => Err(Raised(m))
      case Chunks(cs) => Ok(DocUtils.ChunksFrame(cs))
  }

  /** The chunks of a successful parse, read back from the frame's "CHUNKS" column. */
  lemma ChunksColumn(rows: seq<string>)
    ensures Column(DocUtils.ChunksFrame(rows), "CHUNKS") == Some(rows)
  {
  }

  /** `chunkCreator()`: loads the parser's own path, splits the joined text with the
      parser's own chunk size and overlap, and returns the chunks as they come, in
      order and uncleaned; loader and splitter exceptions propagate unchanged. */
  method ChunkCreator(p: DocumentParser, load: LoadOutcome, split: Splitter) returns (r: Result<Frame>)
    ensures r == Chunked(p, load, split)
    ensures load.Missing? ==> r == Err(FileNotFoundError(NotFoundPrefix + p.path))
    ensures load.Broken? ==> r == Err(RuntimeError(LoadErrorPrefix + load.message))
    ensures load.Loaded? ==>
              var outcome := split(Join(", ", Contents(load.pages)), p.chunkSize, p.chunkOverlap);
              && (outcome.Chunks? ==> r == Ok(Frame(["CHUNKS"], [outcome.chunks])))
              && (outcome.SplitFailed? ==> r == Err(Raised(outcome.message)))
  {
    var docText := PdfLoader(p.path, load);
    if docText.Err? {
      return Err(docText.error);
    }
    match split(docText.value, p.chunkSize, p.chunkOverlap)
    case SplitFailed(m) =>
      r := Err(Raised(m));
    case Chunks(chunks) =>
      r := Ok(DocUtils.ChunksFrame(chunks));
  }
}
