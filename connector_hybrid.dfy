/** The dense + sparse connector (`QdrantConnectorHybrid`): a conditional create run from the
    constructor, the same per-chunk upload loop over named vectors, and a two-stage query whose
    dense prefetch is ten times the final limit. */
module ConnectorHybrid {

  import opened Wrappers
  import opened PyValue
  import opened VectorStore
  import opened TextSplitter

  const DefaultCollectionName: string := "pdf_documents"
  const DefaultEmbeddingModel: string := "jinaai/jina-embeddings-v2-small-en"
  const DefaultSearchLimit: int := 5

  /** The name the create call uses, whatever `collection_name` is. */
  const CreatedCollectionName: string := "pdf_documents_sparse_and_dense"
  const DenseVectorName: string := "jina-small"
  const SparseVectorName: string := "bm25"
  const SparseModel: string := "Qdrant/bm25"

  /** One named 512-dimensional cosine space and one named sparse space with the IDF modifier. */
  const HybridSchema: Schema := Hybrid(DenseVectorName, 512, Cosine, SparseVectorName, Idf)

  /** The fixed `sentence_splitter`: 500 characters, 50 overlap, no character-level separator. */
  const SentenceSplitter: SplitterConfig := SplitterConfig(Int(500), Int(50), ["\n\n", "\n", ".", " "])

  /** The collections `_ensure_collection_exists` leaves behind: it creates the hard-coded name when
      `name` is not listed; failures (including the name already being taken) are swallowed. */
  function Ensured(cs: map<string, Collection>, name: string, listFault: bool, createFault: bool): map<string, Collection>
  {
    if listFault || name in cs || createFault || CreatedCollectionName in cs then cs
    else cs[CreatedCollectionName := Collection(HybridSchema, [])]
  }

  /** If the configured collection is already listed, nothing is created. */
  lemma EnsureExistingIsNoOp(cs: map<string, Collection>, name: string, listFault: bool, createFault: bool)
    requires name in cs
    ensures Ensured(cs, name, listFault, createFault) == cs
  {
  }

  /** The create call never targets `name` itself: when it differs from the hard-coded name, a
      missing `name` is still missing afterwards, and only the hard-coded name can appear. */
  lemma EnsureCreatesOtherName(cs: map<string, Collection>, name: string, listFault: bool, createFault: bool)
    requires name != CreatedCollectionName
    ensures var cs' := Ensured(cs, name, listFault, createFault);
            && (name in cs' <==> name in cs)
            && cs'.Keys <= cs.Keys + {CreatedCollectionName}
            && forall other :: other in cs ==> other in cs' && cs'[other] == cs[other]
  {
  }

  /** Constructing a second connector after a successful first one changes nothing, whatever
      faults the second run meets: either `name` is listed, or the hard-coded name is taken. */
  lemma EnsureIdempotent(cs: map<string, Collection>, name: string, listFault: bool, createFault: bool)
    ensures var once := Ensured(cs, name, false, false);
            Ensured(once, name, listFault, createFault) == once
  {
  }

  /** The two-stage query `search_similar` sends: a dense prefetch of `10 * limit` candidates, then
      `limit` results ranked on the sparse space, with payloads. */
  function HybridQuery(collection: string, model: string, query: string, limit: int): (q: Request)
    ensures q.Query? && q.collection == collection && q.withPayload
    ensures q.prefetch.query == Document(query, model) && q.prefetch.using == DenseVectorName
    ensures q.query == Document(query, SparseModel) && q.using == SparseVectorName
    ensures q.limit == limit && q.prefetch.limit == 10 * limit
    ensures limit >= 1 ==> q.prefetch.limit > q.limit
  {
    Query(collection, Prefetch(Document(query, model), DenseVectorName, 10 * limit),
          Document(query, SparseModel), SparseVectorName, limit, true)
  }

  /** `[result.payload["text"] for result in points]`: the texts in the server's order, or the
      KeyError of the first point without one. */
  function PayloadTexts(hits: seq<Hit>): (r: Result<seq<Value>, PyError>)
    ensures r.Ok? <==> forall i :: 0 <= i < |hits| ==> "text" in hits[i].payload
    ensures r.Err? ==> r.error == KeyError("text")
    ensures r.Ok? ==> |r.value| == |hits| && forall i :: 0 <= i < |hits| ==> r.value[i] == hits[i].payload["text"]
  {
    if hits == [] then Ok([])
    else if "text" !in hits[0].payload then Err(KeyError("text"))
    else match PayloadTexts(hits[1..])
      case Ok(rest) => Ok([hits[0].payload["text"]] + rest)
      case Err(e) => Err(e)
  }

  class QdrantConnectorHybrid {
    const server: Server
    const collectionName: string
    const embeddingModel: string
    /** Output dimension of `embeddingModel` as the server computes it. */
    const modelDim: nat
    const split: Splitter

    /** `__init__`: store the settings, then ensure the collection exists. */
    constructor (server: Server, modelDim: nat, split: Splitter, listFault: bool, createFault: bool,
                 embeddingModel: string := DefaultEmbeddingModel, collectionName: string := DefaultCollectionName)
      requires server.Valid()
      modifies server
      ensures this.server == server && this.collectionName == collectionName
      ensures this.embeddingModel == embeddingModel && this.modelDim == modelDim && this.split == split
      ensures server.Valid() && server.issued == old(server.issued)
      ensures server.collections == Ensured(old(server.collections), collectionName, listFault, createFault)
    {
      this.server := server;
      this.collectionName := collectionName;
      this.embeddingModel := embeddingModel;
      this.modelDim := modelDim;
      this.split := split;
      new;
      EnsureCollectionExists(listFault, createFault);
    }

    /** The vectors every uploaded point carries: the chunk embedded by `embeddingModel` under
        "jina-small" and by BM25 under "bm25". */
    function PointShape(): VectorShape {
      Named(DenseVectorName, modelDim, SparseVectorName)
    }

    /** `_ensure_collection_exists()`: if `collection_name` is not listed, create the hard-coded
        collection. Exceptions are caught and printed, never raised. */
    method EnsureCollectionExists(listFault: bool, createFault: bool)
      requires server.Valid()
      modifies server
      ensures server.Valid() && server.issued == old(server.issued)
      ensures server.collections == Ensured(old(server.collections), collectionName, listFault, createFault)
    {
      var names := server.ListCollections(listFault);
      if names.None? {
        return;
      }
      if collectionName !in names.value {
        var created := server.CreateCollection(CreatedCollectionName, HybridSchema, createFault);
      }
    }

    /** `upload_to_qdrant(text, metadata)`: split with the fixed splitter, then upsert one point per
        chunk into `collection_name`, returning at the first failed upsert. Metadata is optional and
        merged only when truthy. */
    method UploadToQdrant(text: string, metadata: Option<Dict>, faults: set<nat>)
      requires server.Valid()
      modifies server
      ensures server.Valid()
      ensures (server.collections, server.issued)
              == Uploaded(old(server.collections), old(server.issued), collectionName, PointShape(),
                          split(SentenceSplitter, text), metadata, faults)
    {
      var chunks := split(SentenceSplitter, text);
      UploadChunks(server, collectionName, PointShape(), chunks, metadata, faults);
    }

    /** `search_similar(query, limit)`: the payload texts of the points the two-stage query returns. */
    function SearchSimilar(query: string, rank: Ranking, limit: int := DefaultSearchLimit): (r: Result<seq<Value>, PyError>)
      reads server
      ensures collectionName !in server.collections ==> r == Err(CollectionNotFound(collectionName))
      ensures collectionName in server.collections ==>
                var hits := rank(server.collections, HybridQuery(collectionName, embeddingModel, query, limit));
                && (r.Ok? <==> forall i :: 0 <= i < |hits| ==> "text" in hits[i].payload)
                && (r.Err? ==> r.error == KeyError("text"))
                && (r.Ok? ==> |r.value| == |hits| && forall i :: 0 <= i < |hits| ==> r.value[i] == hits[i].payload["text"])
    {
      if collectionName !in server.collections then Err(CollectionNotFound(collectionName))
      else PayloadTexts(rank(server.collections, HybridQuery(collectionName, embeddingModel, query, limit)))
    }
  }

  /** With the default settings on a store that has neither name, the constructor creates
      "pdf_documents_sparse_and_dense" while uploads target "pdf_documents", which does not exist:
      every upload stores nothing. */
  lemma DefaultNamesDisagree(cs: map<string, Collection>, issued: nat, modelDim: nat, chunks: seq<string>,
                             metadata: Option<Dict>, faults: set<nat>)
    requires DefaultCollectionName !in cs
    ensures var cs' := Ensured(cs, DefaultCollectionName, false, false);
            && DefaultCollectionName !in cs'
            && Uploaded(cs', issued, DefaultCollectionName, Named(DenseVectorName, modelDim, SparseVectorName),
                        chunks, metadata, faults).0 == cs'
  {
  }
}
