/** LangChain's recursive character text splitter, which every chunking step
    delegates to. Its splitting strategy is foreign and not modelled: a `Splitter`
    is any function from (text, chunk size, chunk overlap) to the chunks it returns
    or the exception it raises. */
module Splitting {

  datatype SplitResult = Chunks(chunks: seq<string>) | SplitFailed(message: string)

  /** `RecursiveCharacterTextSplitter(chunk_size, chunk_overlap, length_function=len).split_text`. */
  type Splitter = (string, int, int) -> SplitResult
}
