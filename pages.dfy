/** Reading a PDF page by page and joining the page texts, as `pdfLoader` in
    utils/doc_utils.py and `__pdfLoader` in utils/docParser.py do (the two are the
    same code), and as `load_pdf_content` in snowflake/dbCreator.py does with a
    different separator and no error mapping. The PDF reader itself is foreign: what
    it yields for a path is given as a `LoadOutcome`. */
module Pages {
  import opened Py
  import opened Text

  /** One page produced by the PDF reader's lazy load; only its text is used. */
  datatype Page = Page(pageContent: string)

  /** What the PDF reader does for one path: yield every page, or raise
      `FileNotFoundError`, or raise any other exception (possibly after some pages). */
  datatype LoadOutcome =
    | Loaded(pages: seq<Page>)
    | Missing(message: string)
    | Broken(message: string)

  const NotFoundPrefix := "File not found at path: "
  const LoadErrorPrefix := "An error occurred while loading the document: "

  /** The page texts, in page order. */
  function Contents(pages: seq<Page>): (r: seq<string>)
    ensures |r| == |pages|
    ensures forall i :: 0 <= i < |pages| ==> r[i] == pages[i].pageContent
  {
    seq(|pages|, i requires 0 <= i < |pages| => pages[i].pageContent)
  }

  /** Collects the page texts one page at a time and joins them with `sep`: every
      page's text appears unchanged at its own offset, in page order. */
  method JoinPages(pages: seq<Page>, sep: string) returns (text: string)
    ensures text == Join(sep, Contents(pages))
    ensures forall i :: 0 <= i < |pages| ==>
              var at := Offset(sep, Contents(pages), i);
              at + |pages[i].pageContent| <= |text| && text[at..at + |pages[i].pageContent|] == pages[i].pageContent
  {
    var collected: seq<string> := [];
    for i := 0 to |pages|
      invariant collected == Contents(pages)[..i]
    {
      collected := collected + [pages[i].pageContent];
    }
    assert collected == Contents(pages);
    text := Join(sep, collected);
    forall i | 0 <= i < |pages|
      ensures var at := Offset(sep, Contents(pages), i);
              at + |pages[i].pageContent| <= |text| && text[at..at + |pages[i].pageContent|] == pages[i].pageContent
    {
      JoinAt(sep, Contents(pages), i);
    }
  }

  /** What the loader returns or raises for `path`: the pages joined with ", ", or a
      `FileNotFoundError` naming the path, or a `RuntimeError` carrying the cause. */
  function LoadedText(path: string, outcome: LoadOutcome): Result<string> {
    match outcome
    case Loaded(pages) => Ok(Join(", ", Contents(pages)))
    case Missing(_) => Err(FileNotFoundError(NotFoundPrefix + path))
    case Broken(m) => Err(RuntimeError(LoadErrorPrefix + m))
  }

  /** `pdfLoader(path)`: the page texts in page order joined with ", " (no reordering,
      no de-duplication); a missing file re-raised as `FileNotFoundError` naming the
      path; any other failure wrapped as `RuntimeError`. */
  method PdfLoader(path: string, outcome: LoadOutcome) returns (r: Result<string>)
    ensures r == LoadedText(path, outcome)
    ensures r.Ok? <==> outcome.Loaded?
    ensures outcome.Loaded? ==>
              forall i :: 0 <= i < |outcome.pages| ==>
                var at := Offset(", ", Contents(outcome.pages), i);
                at + |outcome.pages[i].pageContent| <= |r.value| &&
                r.value[at..at + |outcome.pages[i].pageContent|] == outcome.pages[i].pageContent
    ensures outcome.Missing? ==> r == Err(FileNotFoundError(NotFoundPrefix + path))
    ensures outcome.Broken? ==> r == Err(RuntimeError(LoadErrorPrefix + outcome.message))
  {
    match outcome
    case Loaded(pages) =>
      var text := JoinPages(pages, ", ");
      r := Ok(text);
    case Missing(_) =>
      r := Err(FileNotFoundError(NotFoundPrefix + path));
    case Broken(m) =>
      r := Err(RuntimeError(LoadErrorPrefix + m));
  }
}
