/** langchain's `RecursiveCharacterTextSplitter` is a library outside this model. It is represented
    by its configuration and an opaque splitting function supplied by the caller; no property of
    the chunks it returns (size bounds, overlap, reconstruction) is assumed. */
module TextSplitter {

  import opened PyValue

  /** `RecursiveCharacterTextSplitter(chunk_size=..., chunk_overlap=..., separators=...)`. The sizes
      are whatever Python values the caller handed over. */
  datatype SplitterConfig = SplitterConfig(chunkSize: Value, overlap: Value, separators: seq<string>)

  /** `splitter.split_text(text)` */
  type Splitter = (SplitterConfig, string) -> seq<string>
}
