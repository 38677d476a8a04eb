/** The single-vector-space connector (`QdrantConnector`): destructive recreate of its collection,
    a per-chunk upload loop that stops at the first failed upsert, and result shaping for dense
    search. */
module Connector {

  import opened Wrappers
  import opened PyValue
  import opened VectorStore
  import opened TextSplitter

  const DefaultCollectionName: string := "pdf_documents"
  const DefaultEmbeddingModel: string := "sentence-transformers/paraphrase-multilingual-MiniLM-L12-v2"
  const DefaultSearchLimit: int := 5

  /** `_get_sentence_splitter(chunk_size, overlap)`: paragraph, line, sentence, word, character. */
  function SentenceSplitter(chunkSize: Value, overlap: Value): SplitterConfig {
    SplitterConfig(chunkSize, overlap, ["\n\n", "\n", ".", " ", ""])
  }

  /** The exception raised by `metadata["chunk_size"]` and `metadata["overlap"]`, which are read
      before anything else happens. */
  function SplitterKeysError(metadata: Option<Dict>): (e: Option<PyError>)
    ensures e.None? <==> metadata.Some? && "chunk_size" in metadata.value && "overlap" in metadata.value
  {
    if metadata.None? then Some(TypeError("'NoneType' object is not subscriptable"))
    else if "chunk_size" !in metadata.value then Some(KeyError("chunk_size"))
    else if "overlap" !in metadata.value then Some(KeyError("overlap"))
    else None
  }

  /** The collections `recreate_collection` leaves behind. Every failure is swallowed: a failed
      listing or delete changes nothing, a failed create leaves the collection deleted. */
  function Recreated(cs: map<string, Collection>, name: string, dim: nat,
                     listFault: bool, deleteFault: bool, createFault: bool): map<string, Collection>
  {
    if listFault then cs
    else if name in cs && deleteFault then cs
    else if createFault then cs - {name}
    else cs[name := Collection(Plain(dim, Cosine), [])]
  }

  /** On success the collection exists, is empty, has the embedder's dimension and cosine distance,
      and no other collection changed. */
  lemma RecreateEmptiesCollection(cs: map<string, Collection>, name: string, dim: nat)
    ensures var cs' := Recreated(cs, name, dim, false, false, false);
            && name in cs' && cs'[name] == Collection(Plain(dim, Cosine), [])
            && cs'.Keys == cs.Keys + {name}
            && forall other :: other in cs && other != name ==> cs'[other] == cs[other]
  {
  }

  /** Recreating twice leaves the state of recreating once, whatever the first call's faults. */
  lemma {:induction false} RecreateIdempotent(cs: map<string, Collection>, name: string, dim: nat,
                                              listFault: bool, deleteFault: bool, createFault: bool)
    ensures Recreated(Recreated(cs, name, dim, listFault, deleteFault, createFault), name, dim, false, false, false)
            == Recreated(cs, name, dim, false, false, false)
  {
  }

  /** A search result row: `text`, `score`, `file_name` (default "unknown") and `chunk_index`
      (default 0). */
  datatype Row = Row(text: Value, score: real, fileName: Value, chunkIndex: Value)

  function Get(d: Dict, key: string, default: Value): Value {
    if key in d then d[key] else default
  }

  /** The row for one hit, whose payload has a `text`. */
  function HitRow(h: Hit): Row
    requires "text" in h.payload
  {
    Row(h.payload["text"], h.score, Get(h.payload, "file_name", Str("unknown")), Get(h.payload, "chunk_index", Int(0)))
  }

  /** The rows for the hits, in the server's order, or the KeyError of the first hit without `text`. */
  function ShapeHits(hits: seq<Hit>): (r: Result<seq<Row>, PyError>)
    ensures r.Ok? <==> forall i :: 0 <= i < |hits| ==> "text" in hits[i].payload
    ensures r.Err? ==> r.error == KeyError("text")
    ensures r.Ok? ==> |r.value| == |hits|
    ensures r.Ok? ==> forall i :: 0 <= i < |hits| ==>
              && r.value[i].text == hits[i].payload["text"]
              && r.value[i].score == hits[i].score
              && r.value[i].fileName == (if "file_name" in hits[i].payload then hits[i].payload["file_name"] else Str("unknown"))
              && r.value[i].chunkIndex == (if "chunk_index" in hits[i].payload then hits[i].payload["chunk_index"] else Int(0))
  {
    if forall i :: 0 <= i < |hits| ==> "text" in hits[i].payload then
      Ok(seq(|hits|, i requires 0 <= i < |hits| && "text" in hits[i].payload => HitRow(hits[i])))
    else Err(KeyError("text"))
  }

  class QdrantConnector {
    const server: Server
    const collectionName: string
    const embeddingModel: string
    /** `get_sentence_embedding_dimension()` of the embedding model. */
    const dim: nat
    const split: Splitter

    constructor (server: Server, collectionName: string, embeddingModel: string, dim: nat, split: Splitter)
      ensures this.server == server && this.collectionName == collectionName
      ensures this.embeddingModel == embeddingModel && this.dim == dim && this.split == split
    {
      this.server := server;
      this.collectionName := collectionName;
      this.embeddingModel := embeddingModel;
      this.dim := dim;
      this.split := split;
    }

    /** `recreate_collection()`: delete the collection if it is listed, then create it empty.
        Exceptions are caught and printed, never raised. */
    method RecreateCollection(listFault: bool, deleteFault: bool, createFault: bool)
      requires server.Valid()
      modifies server
      ensures server.Valid() && server.issued == old(server.issued)
      ensures server.collections == Recreated(old(server.collections), collectionName, dim, listFault, deleteFault, createFault)
    {
      var names := server.ListCollections(listFault);
      if names.None? {
        return;
      }
      if collectionName in names.value {
        var deleted := server.DeleteCollection(collectionName, deleteFault);
        if !deleted {
          return;
        }
      }
      var created := server.CreateCollection(collectionName, Plain(dim, Cosine), createFault);
    }

    /** `upload_to_qdrant(text, metadata)`: split the text with the chunk size and overlap from
        the metadata, then upsert one point per chunk, returning at the first failed upsert. */
    method UploadToQdrant(text: string, metadata: Option<Dict>, faults: set<nat>) returns (raised: Option<PyError>)
      requires server.Valid()
      modifies server
      ensures server.Valid()
      ensures raised == SplitterKeysError(metadata)
      ensures raised.Some? ==> server.collections == old(server.collections) && server.issued == old(server.issued)
      ensures raised.None? ==>
                (server.collections, server.issued)
                == Uploaded(old(server.collections), old(server.issued), collectionName, Unnamed(dim),
                            split(SentenceSplitter(metadata.value["chunk_size"], metadata.value["overlap"]), text),
                            metadata, faults)
    {
      raised := SplitterKeysError(metadata);
      if raised.Some? {
        return;
      }
      var chunks := split(SentenceSplitter(metadata.value["chunk_size"], metadata.value["overlap"]), text);
      UploadChunks(server, collectionName, Unnamed(dim), chunks, metadata, faults);
    }

    /** `search_similar(query, limit)`: one row per hit the server returns, in its order. */
    method SearchSimilar(query: string, rank: Ranking, limit: int := DefaultSearchLimit) returns (r: Result<seq<Row>, PyError>)
      ensures collectionName !in server.collections ==> r == Err(CollectionNotFound(collectionName))
      ensures collectionName in server.collections ==>
                r == ShapeHits(rank(server.collections, Search(collectionName, query, limit)))
    {
      if collectionName !in server.collections {
        return Err(CollectionNotFound(collectionName));
      }
      var hits := rank(server.collections, Search(collectionName, query, limit));
      var rows: seq<Row> := [];
      var i := 0;
      while i < |hits|
        invariant 0 <= i <= |hits|
        invariant forall j :: 0 <= j < i ==> "text" in hits[j].payload
        invariant |rows| == i
        invariant forall j :: 0 <= j < i ==> rows[j] == HitRow(hits[j])
      {
        var payload := hits[i].payload;
        if "text" !in payload {
          return Err(KeyError("text"));
        }
        rows := rows + [Row(payload["text"], hits[i].score, Get(payload, "file_name", Str("unknown")),
                            Get(payload, "chunk_index", Int(0)))];
        i := i + 1;
      }
      assert ShapeHits(hits).value == rows;
      r := Ok(rows);
    }
  }
}
