/** utils/datasets.py: `JSONToCSVProcessor.process`, the batch job that walks a
    folder of category folders, chunks every `.json` file in them with
    `DocumentParser`, and writes one `(folder, chunk)` CSV row per chunk after a
    `name,data` header. The folder tree is given as a listing; the CSV writer is an
    append-only sequence of rows. */
module Datasets {
  import opened Py
  import opened Text
  import opened Pages
  import opened Splitting
  import opened DocParser
  import DocUtils

  /** One name in the root folder's listing, in `os.listdir` order: a directory with
      the names it lists, or anything else (`os.path.isdir` is false). */
  datatype Entry = Directory(name: string, children: seq<string>) | PlainFile(name: string)

  /** One CSV record of two cells. */
  datatype Row = Row(name: string, data: string)

  const Header := Row("name", "data")

  datatype JsonToCsvProcessor = JsonToCsvProcessor(
    folderPath: string, outputCsvPath: string, chunkSize: int, chunkOverlap: int)

  /** The foreign side of the job: what the PDF reader does for each path, and the
      text splitter. */
  datatype Sources = Sources(load: string -> LoadOutcome, split: Splitter)

  /** The parser built for one file: its full path, and the processor's chunk size and
      overlap. */
  function ParserFor(p: JsonToCsvProcessor, dirPath: string, file: string): DocumentParser {
    DocumentParser(PathJoin(dirPath, file), p.chunkSize, p.chunkOverlap)
  }

  /** One row per chunk, all under the folder's name, in chunk order. */
  function RowsOf(folder: string, chunks: seq<string>): (r: seq<Row>)
    ensures |r| == |chunks|
    ensures forall i :: 0 <= i < |chunks| ==> r[i] == Row(folder, chunks[i])
  {
    seq(|chunks|, i requires 0 <= i < |chunks| => Row(folder, chunks[i]))
  }

  /** What `parser.chunkCreator()` returns or raises for one file of a folder. */
  function Parsed(p: JsonToCsvProcessor, src: Sources, dirPath: string, file: string): Result<Frame> {
    var parser := ParserFor(p, dirPath, file);
    Chunked(parser, src.load(parser.path), src.split)
  }

  /** The chunks written for one file: a `.json` file whose parse succeeds
      contributes exactly the chunks of its parse, unchanged and in order; any other
      file contributes none. */
  function FileChunks(p: JsonToCsvProcessor, src: Sources, dirPath: string, file: string): (r: seq<string>)
    ensures EndsWith(file, ".json") && Parsed(p, src, dirPath, file).Ok? ==>
              Parsed(p, src, dirPath, file) == Ok(DocUtils.ChunksFrame(r))
    ensures !(EndsWith(file, ".json") && Parsed(p, src, dirPath, file).Ok?) ==> r == []
  {
    if !EndsWith(file, ".json") then []
    else
      match Parsed(p, src, dirPath, file)
      case Err(_) => []
      case Ok(frame) =>
        match Column(frame, "CHUNKS")
        case None => []
        case Some(col) => col
  }

  /** The rows one file contributes: one per chunk written for it, under the folder's
      name. */
  function FileRows(p: JsonToCsvProcessor, src: Sources, folder: string, dirPath: string, file: string): seq<Row> {
    RowsOf(folder, FileChunks(p, src, dirPath, file))
  }

  /** The rows of a sequence of items, item by item, given the rows of one item. */
  function RowsBy<T>(rowsOf: T -> seq<Row>, xs: seq<T>): seq<Row>
    decreases |xs|
  {
    if |xs| == 0 then [] else RowsBy(rowsOf, xs[..|xs| - 1]) + rowsOf(xs[|xs| - 1])
  }

  /** The rows of a concatenation are the rows of each part, in order. */
  lemma {:induction false} RowsByAppend<T>(rowsOf: T -> seq<Row>, a: seq<T>, b: seq<T>)
    ensures RowsBy(rowsOf, a + b) == RowsBy(rowsOf, a) + RowsBy(rowsOf, b)
    decreases |b|
  {
    if |b| == 0 {
      assert a + b == a;
    } else {
      var b' := b[..|b| - 1];
      assert (a + b)[..|a + b| - 1] == a + b';
      assert (a + b)[|a + b| - 1] == b[|b| - 1];
      RowsByAppend(rowsOf, a, b');
    }
  }

  /** An item without rows can be dropped from anywhere in the sequence. */
  lemma RowsBySkip<T>(rowsOf: T -> seq<Row>, a: seq<T>, x: T, b: seq<T>)
    requires rowsOf(x) == []
    ensures RowsBy(rowsOf, a + [x] + b) == RowsBy(rowsOf, a + b)
  {
    RowsByAppend(rowsOf, a + [x], b);
    RowsByAppend(rowsOf, a, [x]);
    RowsByAppend(rowsOf, a, b);
    assert [x][..0] == [];
  }

  /** Every row comes from one of the items. */
  lemma {:induction false} RowsBySource<T>(rowsOf: T -> seq<Row>, xs: seq<T>, r: Row)
    requires r in RowsBy(rowsOf, xs)
    ensures exists j :: 0 <= j < |xs| && r in rowsOf(xs[j])
    decreases |xs|
  {
    var init := xs[..|xs| - 1];
    if r in RowsBy(rowsOf, init) {
      RowsBySource(rowsOf, init, r);
      var j :| 0 <= j < |init| && r in rowsOf(init[j]);
      assert xs[j] == init[j];
    } else {
      assert r in rowsOf(xs[|xs| - 1]);
    }
  }

  /** The rows of one file of a directory, as a function of the file name. */
  function FileRowsIn(p: JsonToCsvProcessor, src: Sources, folder: string, dirPath: string): string -> seq<Row> {
    file => FileRows(p, src, folder, dirPath, file)
  }

  /** The rows of a directory's files, file by file in listing order. */
  function FilesRows(p: JsonToCsvProcessor, src: Sources, folder: string, dirPath: string, files: seq<string>): seq<Row> {
    RowsBy(FileRowsIn(p, src, folder, dirPath), files)
  }

  /** The rows one root entry contributes: its files' rows if it is a directory. */
  function EntryRows(p: JsonToCsvProcessor, src: Sources, e: Entry): seq<Row> {
    if e.Directory? then FilesRows(p, src, e.name, PathJoin(p.folderPath, e.name), e.children) else []
  }

  /** The rows of one root entry, as a function of the entry. */
  function EntryRowsOf(p: JsonToCsvProcessor, src: Sources): Entry -> seq<Row> {
    e => EntryRows(p, src, e)
  }

  /** The rows of the whole listing, folder by folder. */
  function EntriesRows(p: JsonToCsvProcessor, src: Sources, es: seq<Entry>): seq<Row> {
    RowsBy(EntryRowsOf(p, src), es)
  }

  /** Builds the file's own parser (its full path, the processor's chunk size and
      overlap) and runs `chunkCreator()` on it. */
  method ParseFile(p: JsonToCsvProcessor, src: Sources, folderFullPath: string, fileName: string)
    returns (chunksDf: Result<Frame>)
    ensures chunksDf == Parsed(p, src, folderFullPath, fileName)
  {
    var fileFullPath := PathJoin(folderFullPath, fileName);
    var parser := DocumentParser(fileFullPath, p.chunkSize, p.chunkOverlap);
    chunksDf := ChunkCreator(parser, src.load(fileFullPath), src.split);
  }

  /** The chunks the walk writes for one file: a `.json` file is parsed with a parser
      of its own and its "CHUNKS" column read; a file with another name is passed
      over, and a parse that raises gives nothing. */
  method ReadChunks(p: JsonToCsvProcessor, src: Sources, folderFullPath: string, fileName: string)
    returns (chunks: seq<string>)
    ensures chunks == FileChunks(p, src, folderFullPath, fileName)
  {
    chunks := [];
    if EndsWith(fileName, ".json") {
      var chunksDf := ParseFile(p, src, folderFullPath, fileName);
      if chunksDf.Ok? {
        var column := Column(chunksDf.value, "CHUNKS");
        if column.Some? {
          chunks := column.value;
        }
      }
    }
  }

  /** The writes for one file's chunks: each chunk becomes a row under the folder's
      name, in chunk order. */
  method WriteChunkRows(folder: string, chunks: seq<string>) returns (rows: seq<Row>)
    ensures rows == RowsOf(folder, chunks)
  {
    rows := [];
    for k := 0 to |chunks|
      invariant rows == RowsOf(folder, chunks)[..k]
    {
      rows := rows + [Row(folder, chunks[k])];
      assert RowsOf(folder, chunks)[..k + 1] == RowsOf(folder, chunks)[..k] + [Row(folder, chunks[k])];
    }
    assert RowsOf(folder, chunks)[..|chunks|] == RowsOf(folder, chunks);
  }

  /** The inner body of the walk for one file: each chunk written for it becomes a row
      under the folder's name, in chunk order. */
  method WriteFileRows(p: JsonToCsvProcessor, src: Sources, folder: string, folderFullPath: string, fileName: string)
    returns (rows: seq<Row>)
    ensures rows == FileRows(p, src, folder, folderFullPath, fileName)
  {
    var chunks := ReadChunks(p, src, folderFullPath, fileName);
    rows := WriteChunkRows(folder, chunks);
  }

  /** The walk over one root entry: a directory's files in listing order; anything
      else is passed over. */
  method WriteEntryRows(p: JsonToCsvProcessor, src: Sources, entry: Entry) returns (rows: seq<Row>)
    ensures rows == EntryRows(p, src, entry)
  {
    rows := [];
    if entry.Directory? {
      var folderFullPath := PathJoin(p.folderPath, entry.name);
      for j := 0 to |entry.children|
        invariant rows == FilesRows(p, src, entry.name, folderFullPath, entry.children[..j])
      {
        assert entry.children[..j + 1][..j] == entry.children[..j];
        var fileRows := WriteFileRows(p, src, entry.name, folderFullPath, entry.children[j]);
        rows := rows + fileRows;
      }
      assert entry.children[..|entry.children|] == entry.children;
    }
  }

  /** `process()`: the file holds the header, then the rows of every chunk of every
      `.json` file inside every directory of the listing, folder by folder and file by
      file, each chunk once and in parser order; a file whose parse raises is skipped
      and the walk goes on. */
  method Process(p: JsonToCsvProcessor, listing: seq<Entry>, src: Sources) returns (csv: seq<Row>)
    ensures csv == [Header] + EntriesRows(p, src, listing)
  {
    var rows: seq<Row> := [];
    for i := 0 to |listing|
      invariant rows == EntriesRows(p, src, listing[..i])
    {
      assert listing[..i + 1][..i] == listing[..i];
      var entryRows := WriteEntryRows(p, src, listing[i]);
      rows := rows + entryRows;
    }
    assert listing[..|listing|] == listing;
    csv := [Header] + rows;
  }

  /** The rows of a concatenated file list are the rows of each part, in order. */
  lemma FilesRowsAppend(p: JsonToCsvProcessor, src: Sources, folder: string, dirPath: string, a: seq<string>, b: seq<string>)
    ensures FilesRows(p, src, folder, dirPath, a + b)
         == FilesRows(p, src, folder, dirPath, a) + FilesRows(p, src, folder, dirPath, b)
  {
    RowsByAppend(FileRowsIn(p, src, folder, dirPath), a, b);
  }

  /** A file that is not named `*.json`, or whose parse raises, leaves no trace: the
      directory's rows are those it would have without that file. */
  lemma SkippedFileLeavesNoRows(p: JsonToCsvProcessor, src: Sources, folder: string, dirPath: string,
                                a: seq<string>, f: string, b: seq<string>)
    requires !EndsWith(f, ".json") || Parsed(p, src, dirPath, f).Err?
    ensures FilesRows(p, src, folder, dirPath, a + [f] + b) == FilesRows(p, src, folder, dirPath, a + b)
  {
    assert FileChunks(p, src, dirPath, f) == [];
    assert FileRowsIn(p, src, folder, dirPath)(f) == [];
    RowsBySkip(FileRowsIn(p, src, folder, dirPath), a, f, b);
  }

  /** The rows of a concatenated listing are the rows of each part, in order. */
  lemma EntriesRowsAppend(p: JsonToCsvProcessor, src: Sources, a: seq<Entry>, b: seq<Entry>)
    ensures EntriesRows(p, src, a + b) == EntriesRows(p, src, a) + EntriesRows(p, src, b)
  {
    RowsByAppend(EntryRowsOf(p, src), a, b);
  }

  /** Only directories are descended into: a plain file in the root listing changes
      nothing. */
  lemma PlainFileIgnored(p: JsonToCsvProcessor, src: Sources, a: seq<Entry>, name: string, b: seq<Entry>)
    ensures EntriesRows(p, src, a + [PlainFile(name)] + b) == EntriesRows(p, src, a + b)
  {
    assert EntryRowsOf(p, src)(PlainFile(name)) == [];
    RowsBySkip(EntryRowsOf(p, src), a, PlainFile(name), b);
  }

  /** A row written for a list of chunks names the folder and holds one of them. */
  lemma RowsOfSource(folder: string, chunks: seq<string>, r: Row)
    requires r in RowsOf(folder, chunks)
    ensures r.name == folder && r.data in chunks
  {
    var k :| 0 <= k < |chunks| && RowsOf(folder, chunks)[k] == r;
    assert r.data == chunks[k];
  }

  /** Where a row of one file comes from: its first cell names the folder and its
      second is one of the file's chunks. */
  lemma FileRowsProvenance(p: JsonToCsvProcessor, src: Sources, folder: string, dirPath: string, file: string, r: Row)
    requires r in FileRows(p, src, folder, dirPath, file)
    ensures r.name == folder && r.data in FileChunks(p, src, dirPath, file)
  {
    RowsOfSource(folder, FileChunks(p, src, dirPath, file), r);
  }

  /** Where a row of a directory comes from: its first cell names the folder and its
      second is a chunk of one of the directory's files. */
  lemma FilesRowsProvenance(p: JsonToCsvProcessor, src: Sources, folder: string, dirPath: string,
                            files: seq<string>, r: Row)
    requires r in FilesRows(p, src, folder, dirPath, files)
    ensures r.name == folder
    ensures exists j :: 0 <= j < |files| && r.data in FileChunks(p, src, dirPath, files[j])
  {
    RowsBySource(FileRowsIn(p, src, folder, dirPath), files, r);
    var j :| 0 <= j < |files| && r in FileRowsIn(p, src, folder, dirPath)(files[j]);
    FileRowsProvenance(p, src, folder, dirPath, files[j], r);
  }

  /** Every row after the header names a directory of the listing and holds a chunk of
      a `.json` file inside it whose parse succeeded. */
  lemma RowProvenance(p: JsonToCsvProcessor, src: Sources, es: seq<Entry>, r: Row)
    requires r in EntriesRows(p, src, es)
    ensures exists k :: 0 <= k < |es| && es[k].Directory? && es[k].name == r.name
              && exists j :: 0 <= j < |es[k].children|
                   && r.data in FileChunks(p, src, PathJoin(p.folderPath, es[k].name), es[k].children[j])
  {
    RowsBySource(EntryRowsOf(p, src), es, r);
    var k :| 0 <= k < |es| && r in EntryRowsOf(p, src)(es[k]);
    assert es[k].Directory?;
    FilesRowsProvenance(p, src, es[k].name, PathJoin(p.folderPath, es[k].name), es[k].children, r);
  }
}
