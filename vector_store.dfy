/** The Qdrant server as both connectors see it: named collections, each with a schema and an
    ordered sequence of points. Every client call may fail; the fault flag passed to each call is
    the oracle that decides whether the transport or the server raised. uuid4 point ids are drawn
    from a counter, which makes each one fresh. Embedding values are not modelled, only the shape of
    the vectors a point carries, which decides whether the collection's schema accepts it. */
module VectorStore {

  import opened Wrappers
  import opened PyValue

  datatype Distance = Cosine

  datatype SparseModifier = Idf

  /** A collection's declared vector spaces. */
  datatype Schema =
    | Plain(size: nat, distance: Distance)
    | Hybrid(denseName: string, denseSize: nat, distance: Distance, sparseName: string, modifier: SparseModifier)

  /** The vectors a point carries: one unnamed dense vector, or a named dense and a named sparse one. */
  datatype VectorShape =
    | Unnamed(dim: nat)
    | Named(denseName: string, denseDim: nat, sparseName: string)

  datatype Point = Point(id: nat, vectors: VectorShape, payload: Dict)

  datatype Collection = Collection(schema: Schema, points: seq<Point>)

  /** A scored hit as the server returns it. Scores are floating point and only passed through. */
  datatype Hit = Hit(id: nat, score: real, payload: Dict)

  /** A query sent to the server. The query vector is represented by the text it embeds. */
  datatype Request =
    | Search(collection: string, queryText: string, limit: int)
    | Query(collection: string, prefetch: Prefetch, query: Document, using: string, limit: int, withPayload: bool)

  /** A text the server embeds itself with the named model. */
  datatype Document = Document(text: string, model: string)

  datatype Prefetch = Prefetch(query: Document, using: string, limit: int)

  /** Ranking is the server's business (cosine scores, BM25 weights, fusion): an opaque function of
      the stored collections and the request, giving the hits in the server's order. */
  type Ranking = (map<string, Collection>, Request) -> seq<Hit>

  /** Whether a schema accepts a point with the given vectors. A dimension mismatch is a hard failure. */
  predicate Fits(schema: Schema, shape: VectorShape) {
    match (schema, shape)
    case (Plain(size, _), Unnamed(dim)) => size == dim
    case (Hybrid(dn, size, _, sn, _), Named(dn', dim, sn')) => dn == dn' && size == dim && sn == sn'
    case _ => false
  }

  /** Whether an upsert of a point with this shape into `name` can succeed. */
  predicate Accepts(cs: map<string, Collection>, name: string, shape: VectorShape) {
    name in cs && Fits(cs[name].schema, shape)
  }

  /** Qdrant's upsert of one point: a point with the same id is replaced, otherwise it is appended. */
  function UpsertPoints(points: seq<Point>, p: Point): (r: seq<Point>)
    ensures (forall i :: 0 <= i < |points| ==> points[i].id != p.id) ==> r == points + [p]
    ensures (exists i :: 0 <= i < |points| && points[i].id == p.id) ==> |r| == |points| && p in r
    ensures forall i :: 0 <= i < |points| && points[i].id == p.id && (forall j :: 0 <= j < i ==> points[j].id != p.id)
                        ==> r == points[i := p]
  {
    if points == [] then [p]
    else if points[0].id == p.id then [p] + points[1..]
    else [points[0]] + UpsertPoints(points[1..], p)
  }

  /** Every stored id is below `bound`. */
  ghost predicate IdsBelow(cs: map<string, Collection>, bound: nat) {
    forall name, i :: name in cs && 0 <= i < |cs[name].points| ==> cs[name].points[i].id < bound
  }

  class Server {
    var collections: map<string, Collection>
    /** How many uuid4 values have been drawn; the next one is `issued`. */
    var issued: nat

    /** Every stored id was drawn before, so a newly drawn id is fresh. */
    ghost predicate Valid()
      reads this
    {
      IdsBelow(collections, issued)
    }

    constructor (initial: map<string, Collection>, drawn: nat)
      requires IdsBelow(initial, drawn)
      ensures Valid()
      ensures collections == initial && issued == drawn
    {
      collections := initial;
      issued := drawn;
    }

    /** `uuid.uuid4()`: an id that no stored point carries. */
    method FreshId() returns (id: nat)
      requires Valid()
      modifies this
      ensures Valid()
      ensures id == old(issued) && issued == old(issued) + 1
      ensures collections == old(collections)
      ensures forall name, i :: name in collections && 0 <= i < |collections[name].points| ==>
                collections[name].points[i].id != id
    {
      id := issued;
      issued := issued + 1;
    }

    /** `get_collections()`: the names of all collections, or an exception. */
    method ListCollections(fault: bool) returns (names: Option<set<string>>)
      ensures names == if fault then None else Some(collections.Keys)
    {
      if fault {
        names := None;
      } else {
        names := Some(collections.Keys);
      }
    }

    /** `delete_collection(name)`: drops the collection and all its points. */
    method DeleteCollection(name: string, fault: bool) returns (ok: bool)
      requires Valid()
      modifies this
      ensures Valid() && issued == old(issued)
      ensures ok == !fault
      ensures collections == if ok then old(collections) - {name} else old(collections)
    {
      ok := !fault;
      if ok {
        collections := collections - {name};
      }
    }

    /** `create_collection(name, ...)`: fails when the name is already taken. */
    method CreateCollection(name: string, schema: Schema, fault: bool) returns (ok: bool)
      requires Valid()
      modifies this
      ensures Valid() && issued == old(issued)
      ensures ok == (!fault && name !in old(collections))
      ensures collections == if ok then old(collections)[name := Collection(schema, [])] else old(collections)
    {
      ok := !fault && name !in collections;
      if ok {
        collections := collections[name := Collection(schema, [])];
      }
    }

    /** `upsert(name, [p])`: fails when the collection is missing or its schema does not accept the
        point's vectors. `p.id` was drawn by FreshId. */
    method Upsert(name: string, p: Point, fault: bool) returns (ok: bool)
      requires Valid() && p.id < issued
      modifies this
      ensures Valid() && issued == old(issued)
      ensures ok == (!fault && Accepts(old(collections), name, p.vectors))
      ensures collections ==
                if ok then old(collections)[name := Collection(old(collections)[name].schema, UpsertPoints(old(collections)[name].points, p))]
                else old(collections)
    {
      ok := !fault && Accepts(collections, name, p.vectors);
      if ok {
        var c := collections[name];
        var points := UpsertPoints(c.points, p);
        forall i | 0 <= i < |points| ensures points[i].id < issued {
          UpsertPointsIds(c.points, p, i);
        }
        collections := collections[name := Collection(c.schema, points)];
      }
    }
  }

  lemma {:induction false} UpsertPointsIds(points: seq<Point>, p: Point, i: nat)
    requires i < |UpsertPoints(points, p)|
    ensures UpsertPoints(points, p)[i] == p || UpsertPoints(points, p)[i] in points
  {
    if points != [] && points[0].id != p.id && i > 0 {
      UpsertPointsIds(points[1..], p, i - 1);
      assert UpsertPoints(points, p)[i] == UpsertPoints(points[1..], p)[i - 1];
    }
  }

  // ---------------------------------------------------------------------------
  // What the per-chunk upload loops of both connectors write

  /** The payload of the i-th chunk: `text`, `chunk_index` and `chunk_length`, then the caller's
      metadata merged over them when it is truthy. */
  function ChunkPayload(chunk: string, index: nat, metadata: Option<Dict>): Dict {
    var base := map["text" := Str(chunk), "chunk_index" := Int(index), "chunk_length" := Int(|chunk|)];
    if Truthy(metadata) then base + metadata.value else base
  }

  /** A chunk's payload holds its text, index and length, with truthy metadata merged over them
      (the metadata wins on a shared key); falsy metadata adds nothing. */
  lemma ChunkPayloadFields(chunk: string, index: nat, metadata: Option<Dict>)
    ensures var p := ChunkPayload(chunk, index, metadata);
            && (Truthy(metadata) ==> forall k :: k in metadata.value ==> k in p && p[k] == metadata.value[k])
            && p.Keys == {"text", "chunk_index", "chunk_length"} + (if Truthy(metadata) then metadata.value.Keys else {})
            && (!(Truthy(metadata) && "text" in metadata.value) ==> p["text"] == Str(chunk))
            && (!(Truthy(metadata) && "chunk_index" in metadata.value) ==> p["chunk_index"] == Int(index))
            && (!(Truthy(metadata) && "chunk_length" in metadata.value) ==> p["chunk_length"] == Int(|chunk|))
  {
  }

  /** The points the loop writes for `chunks`, the j-th with id `firstId + j`: one point per
      chunk, all with the loop's vector shape, with increasing (so distinct) ids drawn from
      `firstId` up. */
  function ChunkPoints(chunks: seq<string>, metadata: Option<Dict>, shape: VectorShape, firstId: nat): (ps: seq<Point>)
    ensures |ps| == |chunks|
    ensures forall j :: 0 <= j < |ps| ==> firstId <= ps[j].id < firstId + |chunks| && ps[j].vectors == shape
    ensures forall j, k :: 0 <= j < k < |ps| ==> ps[j].id < ps[k].id
  {
    seq(|chunks|, j requires 0 <= j < |chunks| => Point(firstId + j, shape, ChunkPayload(chunks[j], j, metadata)))
  }

  /** The payload of the j-th point carries the j-th chunk's text and the position j as
      `chunk_index`, unless the metadata overrides those keys. */
  lemma ChunkPointsPayloads(chunks: seq<string>, metadata: Option<Dict>, shape: VectorShape, firstId: nat)
    ensures var ps := ChunkPoints(chunks, metadata, shape, firstId);
            forall j :: 0 <= j < |ps| ==>
              && (!(Truthy(metadata) && "text" in metadata.value) ==> ps[j].payload["text"] == Str(chunks[j]))
              && (!(Truthy(metadata) && "chunk_index" in metadata.value) ==> ps[j].payload["chunk_index"] == Int(j))
  {
    var ps := ChunkPoints(chunks, metadata, shape, firstId);
    forall j | 0 <= j < |ps|
      ensures !(Truthy(metadata) && "text" in metadata.value) ==> ps[j].payload["text"] == Str(chunks[j])
      ensures !(Truthy(metadata) && "chunk_index" in metadata.value) ==> ps[j].payload["chunk_index"] == Int(j)
    {
      ChunkPayloadFields(chunks[j], j, metadata);
    }
  }

  /** Index of the first upsert that fails among `n` attempts, or `n` when none does: the
      collection refuses every point, or the transport fails at the indices in `faults`. */
  function FirstFailure(n: nat, accepted: bool, faults: set<nat>): (k: nat)
    ensures k <= n
    ensures k > 0 ==> accepted
    ensures forall j :: 0 <= j < k ==> j !in faults
    ensures k < n ==> !accepted || k in faults
  {
    if !accepted then 0 else FirstFaultFrom(0, n, faults)
  }

  function FirstFaultFrom(i: nat, n: nat, faults: set<nat>): (k: nat)
    requires i <= n
    ensures i <= k <= n
    ensures forall j :: i <= j < k ==> j !in faults
    ensures k < n ==> k in faults
    decreases n - i
  {
    if i == n || i in faults then i else FirstFaultFrom(i + 1, n, faults)
  }

  /** The one index at which every earlier upsert succeeded and this one failed is FirstFailure. */
  lemma FirstFailureUnique(n: nat, accepted: bool, faults: set<nat>, k: nat)
    requires k <= n
    requires k > 0 ==> accepted
    requires forall j :: 0 <= j < k ==> j !in faults
    requires k < n ==> !accepted || k in faults
    ensures FirstFailure(n, accepted, faults) == k
  {
  }

  /** The collections after `ps` were appended to `name` (nothing when `ps` is empty). */
  function AppendPoints(cs: map<string, Collection>, name: string, ps: seq<Point>): map<string, Collection>
    requires ps == [] || name in cs
  {
    if ps == [] then cs else cs[name := Collection(cs[name].schema, cs[name].points + ps)]
  }

  /** The state one per-chunk upload loop leaves behind: a uuid is drawn before each attempt, the
      chunks before the first failed upsert are stored in order, and the loop stops there. */
  function Uploaded(cs: map<string, Collection>, issued: nat, name: string, shape: VectorShape,
                    chunks: seq<string>, metadata: Option<Dict>, faults: set<nat>): (map<string, Collection>, nat)
  {
    var k := FirstFailure(|chunks|, Accepts(cs, name, shape), faults);
    (AppendPoints(cs, name, ChunkPoints(chunks[..k], metadata, shape, issued)),
     issued + (if k < |chunks| then k + 1 else k))
  }

  /** What an upload stores: exactly one point per chunk up to the first failed upsert, in chunk
      order, after the points already there; later chunks are not written; no other collection
      changes; and the run is complete exactly when no upsert failed. */
  lemma UploadStoresPrefix(cs: map<string, Collection>, issued: nat, name: string, shape: VectorShape,
                           chunks: seq<string>, metadata: Option<Dict>, faults: set<nat>)
    requires name in cs
    ensures var (cs', _) := Uploaded(cs, issued, name, shape, chunks, metadata, faults);
            var k := FirstFailure(|chunks|, Accepts(cs, name, shape), faults);
            && cs'.Keys == cs.Keys
            && (forall other :: other in cs && other != name ==> cs'[other] == cs[other])
            && cs'[name].schema == cs[name].schema
            && |cs'[name].points| == |cs[name].points| + k
            && cs'[name].points[..|cs[name].points|] == cs[name].points
            && (forall j :: 0 <= j < k ==>
                  cs'[name].points[|cs[name].points| + j].payload == ChunkPayload(chunks[j], j, metadata))
            && (k == |chunks| <==> |chunks| == 0 || (Accepts(cs, name, shape) && forall j :: 0 <= j < |chunks| ==> j !in faults))
  {
    var k := FirstFailure(|chunks|, Accepts(cs, name, shape), faults);
    var ps := ChunkPoints(chunks[..k], metadata, shape, issued);
    AppendPointsShape(cs, name, ps);
    FirstFailureComplete(|chunks|, Accepts(cs, name, shape), faults);
    StoredAfter(cs[name].points, chunks, k, metadata, shape, issued);
  }

  /** The points already stored, followed by the first `k` chunks' points: the old points come
      first, then the j-th chunk's payload at offset j. */
  lemma StoredAfter(before: seq<Point>, chunks: seq<string>, k: nat, metadata: Option<Dict>,
                    shape: VectorShape, firstId: nat)
    requires k <= |chunks|
    ensures var all := before + ChunkPoints(chunks[..k], metadata, shape, firstId);
            && |all| == |before| + k
            && all[..|before|] == before
            && forall j :: 0 <= j < k ==> all[|before| + j].payload == ChunkPayload(chunks[j], j, metadata)
  {
    var ps := ChunkPoints(chunks[..k], metadata, shape, firstId);
    assert (before + ps)[..|before|] == before;
    forall j | 0 <= j < k
      ensures (before + ps)[|before| + j].payload == ChunkPayload(chunks[j], j, metadata)
    {
      assert chunks[..k][j] == chunks[j];
    }
  }

  /** Appending to one collection keeps the names, the other collections and the schema. */
  lemma AppendPointsShape(cs: map<string, Collection>, name: string, ps: seq<Point>)
    requires name in cs
    ensures var cs' := AppendPoints(cs, name, ps);
            && cs'.Keys == cs.Keys
            && (forall other :: other in cs && other != name ==> cs'[other] == cs[other])
            && cs'[name] == Collection(cs[name].schema, cs[name].points + ps)
  {
    if ps == [] {
      assert cs[name].points + ps == cs[name].points;
    }
  }

  /** The upload runs to the end exactly when there is nothing to upload, or the collection
      accepts the points and no upsert fails. */
  lemma FirstFailureComplete(n: nat, accepted: bool, faults: set<nat>)
    ensures FirstFailure(n, accepted, faults) == n <==> n == 0 || (accepted && forall j :: 0 <= j < n ==> j !in faults)
  {
  }

  /** A collection that does not accept the point shape (missing, or the wrong schema) receives
      nothing, whatever the faults. */
  lemma UploadToUnacceptingCollection(cs: map<string, Collection>, issued: nat, name: string, shape: VectorShape,
                                      chunks: seq<string>, metadata: Option<Dict>, faults: set<nat>)
    requires !Accepts(cs, name, shape)
    ensures Uploaded(cs, issued, name, shape, chunks, metadata, faults).0 == cs
  {
  }

  /** One more successful upsert extends the stored prefix by the next chunk's point. */
  lemma AppendNextPoint(cs0: map<string, Collection>, name: string, chunks: seq<string>, i: nat,
                        metadata: Option<Dict>, shape: VectorShape, id0: nat)
    requires i < |chunks| && name in cs0
    ensures var before := AppendPoints(cs0, name, ChunkPoints(chunks[..i], metadata, shape, id0));
            var p := Point(id0 + i, shape, ChunkPayload(chunks[i], i, metadata));
            name in before &&
            AppendPoints(cs0, name, ChunkPoints(chunks[..i + 1], metadata, shape, id0))
            == before[name := Collection(before[name].schema, before[name].points + [p])]
  {
    var p := Point(id0 + i, shape, ChunkPayload(chunks[i], i, metadata));
    var a := ChunkPoints(chunks[..i], metadata, shape, id0);
    var b := ChunkPoints(chunks[..i + 1], metadata, shape, id0);
    assert b == a + [p] by {
      forall j | 0 <= j < |b| ensures b[j] == (a + [p])[j] {
        if j < i { assert chunks[..i + 1][j] == chunks[..i][j]; }
      }
    }
    var before := AppendPoints(cs0, name, a);
    assert before[name].schema == cs0[name].schema;
    assert before[name].points == cs0[name].points + a;
    assert cs0[name].points + a + [p] == cs0[name].points + b;
    assert AppendPoints(cs0, name, b) == cs0[name := Collection(cs0[name].schema, cs0[name].points + b)];
  }

  /** The per-chunk loop both connectors run: draw a uuid, upsert the chunk's point, and return at
      the first failed upsert. `faults` holds the chunk indices whose upsert the transport fails. */
  method UploadChunks(server: Server, name: string, shape: VectorShape, chunks: seq<string>,
                      metadata: Option<Dict>, faults: set<nat>)
    requires server.Valid()
    modifies server
    ensures server.Valid()
    ensures (server.collections, server.issued)
            == Uploaded(old(server.collections), old(server.issued), name, shape, chunks, metadata, faults)
  {
    ghost var cs0 := server.collections;
    ghost var id0 := server.issued;
    var i := 0;
    while i < |chunks|
      invariant 0 <= i <= |chunks|
      invariant server.Valid()
      invariant i > 0 ==> Accepts(cs0, name, shape)
      invariant forall j :: 0 <= j < i ==> j !in faults
      invariant server.collections == AppendPoints(cs0, name, ChunkPoints(chunks[..i], metadata, shape, id0))
      invariant server.issued == id0 + i
    {
      ghost var before := server.collections;
      AcceptsKept(cs0, name, ChunkPoints(chunks[..i], metadata, shape, id0), shape);
      var id := server.FreshId();
      var point := Point(id, shape, ChunkPayload(chunks[i], i, metadata));
      var ok := server.Upsert(name, point, i in faults);
      if !ok {
        UploadedStopsAt(cs0, id0, name, shape, chunks, metadata, faults, i);
        return;
      }
      assert i !in faults;
      UploadStep(cs0, name, chunks, i, metadata, shape, id0, before);
      i := i + 1;
    }
    UploadedStopsAt(cs0, id0, name, shape, chunks, metadata, faults, i);
  }

  /** Appending points keeps the collection's schema, so whether it accepts a shape is unchanged. */
  lemma AcceptsKept(cs: map<string, Collection>, name: string, ps: seq<Point>, shape: VectorShape)
    requires ps == [] || name in cs
    ensures Accepts(AppendPoints(cs, name, ps), name, shape) <==> Accepts(cs, name, shape)
  {
  }

  /** One iteration of the upload loop: upserting the next chunk's point with a fresh id into the
      stored prefix gives the prefix one chunk longer. */
  lemma UploadStep(cs0: map<string, Collection>, name: string, chunks: seq<string>, i: nat,
                   metadata: Option<Dict>, shape: VectorShape, id0: nat, before: map<string, Collection>)
    requires i < |chunks| && name in cs0
    requires before == AppendPoints(cs0, name, ChunkPoints(chunks[..i], metadata, shape, id0))
    requires IdsBelow(before, id0 + i)
    ensures var p := Point(id0 + i, shape, ChunkPayload(chunks[i], i, metadata));
            name in before &&
            before[name := Collection(before[name].schema, UpsertPoints(before[name].points, p))]
            == AppendPoints(cs0, name, ChunkPoints(chunks[..i + 1], metadata, shape, id0))
  {
    var p := Point(id0 + i, shape, ChunkPayload(chunks[i], i, metadata));
    AppendNextPoint(cs0, name, chunks, i, metadata, shape, id0);
    AppendFreshPoint(before, name, p, id0 + i);
  }

  /** Upserting a point whose id no stored point carries appends it. */
  lemma AppendFreshPoint(cs: map<string, Collection>, name: string, p: Point, id: nat)
    requires IdsBelow(cs, id) && p.id == id && name in cs
    ensures UpsertPoints(cs[name].points, p) == cs[name].points + [p]
  {
    assert forall i :: 0 <= i < |cs[name].points| ==> cs[name].points[i].id != p.id;
  }

  /** A loop that stops at chunk `k` (first failure, or the end) leaves the state `Uploaded` names. */
  lemma UploadedStopsAt(cs: map<string, Collection>, issued: nat, name: string, shape: VectorShape,
                        chunks: seq<string>, metadata: Option<Dict>, faults: set<nat>, k: nat)
    requires k <= |chunks|
    requires k > 0 ==> Accepts(cs, name, shape)
    requires forall j :: 0 <= j < k ==> j !in faults
    requires k < |chunks| ==> !Accepts(cs, name, shape) || k in faults
    ensures k > 0 ==> name in cs
    ensures Uploaded(cs, issued, name, shape, chunks, metadata, faults)
            == (AppendPoints(cs, name, ChunkPoints(chunks[..k], metadata, shape, issued)),
                issued + (if k < |chunks| then k + 1 else k))
  {
    FirstFailureUnique(|chunks|, Accepts(cs, name, shape), faults, k);
  }
}
