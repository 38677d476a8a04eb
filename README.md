# PDF research assistant: a verified model of its core

This project models the core of a small retrieval-augmented question answering system. PDFs are
downloaded from a list of URLs. Their text is extracted page by page and split into chunks. Each
chunk is stored as a point in a Qdrant collection, with a payload holding the text, its index,
its length and the file's metadata. A question is answered by searching that collection,
filling a prompt template with the question and the hits, and sending the prompt to a language
model. A Streamlit chat front end calls the backend and keeps the chat history. A Grafana
provisioning script points a dashboard at a new datasource.

The model is written in Dafny, one module per source file:

- `VectorStore` (vector_store.dfy) is the Qdrant server as the connectors see it. It is a
  `Server` class holding named collections, each with a schema and an ordered sequence of
  points. uuid4 ids are drawn from a counter, so every new id is fresh. `UploadChunks` is the
  per-chunk upload loop both connectors run. It is proved against the specification function
  `Uploaded`.
- `Connector` and `ConnectorHybrid` are the two connector classes.
- `PdfToQdrant` covers text extraction and `process_pdf`.
- `Injest` covers the ingestion script: `unquote`, the download target, `list_urls` and the
  order of the entry point's steps.
- `Rag` covers `build_prompt` and `rag`.
- `GrafanaInit` covers the dashboard rewrite.
- `FrontendApp` covers `call_backend_api`, the error test, the removal of reasoning tags, and
  the chat history.
- `PyValue` and `PyText` give Python's JSON-like values, exceptions and the `str` methods the
  source uses (`strip`, `split`, `join`, `replace`, `startswith`, `endswith`, `str(int)`,
  `os.path.basename`).
- `Wrappers` holds `Option` and `Result`. `TextSplitter` holds the splitter's configuration.

Things the program does not control are parameters. These are: whether each client call fails
(fault flags and fault sets), how the server ranks hits, how the text splitter cuts text, what
PyPDF2 finds in a file, how an HTTP request ends, Python's `str()` of a value, and timestamps.

## Model

| member | source | states |
|---|---|---|
| VectorStore.Server.constructor | backend/qdrant_connector.py:18 | a client over a store whose stored ids were all drawn before; the store is as given |
| VectorStore.Server.FreshId | backend/qdrant_connector.py:69 | `uuid4()` returns an id no stored point carries; collections are unchanged |
| VectorStore.Server.ListCollections | backend/qdrant_connector.py:32-33 | the names of all collections, or None when the call fails |
| VectorStore.Server.DeleteCollection | backend/qdrant_connector.py:36 | on success the collection and its points are gone; a failure changes nothing |
| VectorStore.Server.CreateCollection | backend/qdrant_connector.py:39-45 | succeeds exactly when the call does not fail and the name is free; then an empty collection with the schema exists |
| VectorStore.Server.Upsert | backend/qdrant_connector.py:86-89 | succeeds exactly when the collection exists and its schema accepts the point's vectors; then the point is stored by id |
| VectorStore.UpsertPoints | backend/qdrant_connector.py:86-89 | a point with a new id is appended; a point with a known id replaces the first point with that id, and every other point stays where it was |
| VectorStore.ChunkPayload | backend/qdrant_connector.py:72-78 | the payload dict of one chunk, with truthy metadata merged over it; its keys and values are stated by ChunkPayloadFields |
| VectorStore.ChunkPayloadFields | backend/qdrant_connector.py:72-78 | the payload has `text`, `chunk_index` and `chunk_length` of the chunk; truthy metadata is merged over them and wins on shared keys; falsy metadata adds nothing |
| VectorStore.ChunkPoints | backend/qdrant_connector.py:68-84 | one point per chunk, all with the loop's vector shape; the ids increase along the chunks, so they are distinct, and lie between the first drawn id and that id plus the number of chunks |
| VectorStore.ChunkPointsPayloads | backend/qdrant_connector.py:72-78 | the j-th point's payload holds the j-th chunk as `text` and j as `chunk_index`, unless the metadata overrides those keys |
| VectorStore.FirstFailure | backend/qdrant_connector.py:85-93 | the index of the first failed upsert: every earlier upsert succeeded, and this one failed or it is the end |
| VectorStore.FirstFailureComplete | backend/qdrant_connector.py:85-93 | the loop runs to the end exactly when there are no chunks, or the collection accepts the points and no upsert fails |
| VectorStore.FirstFailureUnique | backend/qdrant_connector.py:85-93 | only one index meets the first-failure conditions |
| VectorStore.Uploaded | backend/qdrant_connector.py:68-93 | the store and the uuid counter after one per-chunk upload loop; what is stored is stated by UploadStoresPrefix and UploadedStopsAt |
| VectorStore.UploadStoresPrefix | backend/qdrant_connector.py:68-93 | an upload appends exactly the chunks before the first failure, in order, after the points already there, with their payloads; no other collection changes; the run completes exactly when no upsert fails |
| VectorStore.UploadToUnacceptingCollection | backend/qdrant_connector.py:85-93 | a missing collection, or one whose schema refuses the vectors, receives nothing |
| VectorStore.UploadChunks | backend/qdrant_connector.py:68-93 | the upload loop leaves the store and the id counter exactly as `Uploaded` says, and keeps every stored id fresh |
| VectorStore.UploadStep | backend/qdrant_connector.py:68-90 | one successful iteration, upserting the next chunk's point with a fresh id, extends the stored prefix by that chunk |
| VectorStore.AppendNextPoint | backend/qdrant_connector.py:85-90 | one more successful upsert extends the stored prefix by the next chunk's point |
| VectorStore.AppendFreshPoint | backend/qdrant_connector.py:69-89 | upserting a point with a fresh id appends it |
| VectorStore.UploadedStopsAt | backend/qdrant_connector.py:85-93 | a loop stopping at the first failure (or the end) leaves the state `Uploaded` names |
| Connector.SplitterKeysError | backend/qdrant_connector.py:66 | the upload raises before anything happens exactly when metadata is None (TypeError) or lacks `chunk_size` or `overlap` (KeyError) |
| Connector.Recreated | backend/qdrant_connector.py:29-48 | the store after `recreate_collection`, given which of the list, delete and create calls fail; what it promises is stated by RecreateEmptiesCollection and RecreateIdempotent |
| Connector.RecreateEmptiesCollection | backend/qdrant_connector.py:29-48 | after a successful recreate the collection exists, is empty, has the embedder's dimension and cosine distance, and no other collection changed |
| Connector.RecreateIdempotent | backend/qdrant_connector.py:29-48 | a successful recreate after any earlier recreate gives the same store as one recreate |
| Connector.ShapeHits | backend/qdrant_connector.py:116-125 | one row per hit in server order with `text`, `score`, `file_name` (default "unknown") and `chunk_index` (default 0); KeyError exactly when some hit has no `text` |
| Connector.QdrantConnector.constructor | backend/qdrant_connector.py:11-20 | stores the collection name, the embedding model and its dimension |
| Connector.QdrantConnector.RecreateCollection | backend/qdrant_connector.py:29-48 | deletes the listed collection, then creates it empty; every failure is swallowed and leaves the state `Recreated` names |
| Connector.QdrantConnector.UploadToQdrant | backend/qdrant_connector.py:50-93 | raises the metadata error before any write; otherwise splits with the metadata's chunk size and overlap and runs the upload loop over the chunks |
| Connector.QdrantConnector.SearchSimilar | backend/qdrant_connector.py:95-125 | the rows of the hits the server ranks for the query and limit (5 by default); an error for a missing collection |
| ConnectorHybrid.Ensured | backend/qdrant_connector_hybrid.py:30-57 | the store after `_ensure_collection_exists`, given which calls fail; what it promises is stated by the three Ensure lemmas below |
| ConnectorHybrid.EnsureExistingIsNoOp | backend/qdrant_connector_hybrid.py:30-57 | when the configured collection is listed, nothing is created |
| ConnectorHybrid.EnsureCreatesOtherName | backend/qdrant_connector_hybrid.py:36-52 | the create call only ever adds "pdf_documents_sparse_and_dense"; a missing configured collection with another name stays missing |
| ConnectorHybrid.EnsureIdempotent | backend/qdrant_connector_hybrid.py:30-57 | constructing again after a successful construction changes nothing, whatever faults the second run meets |
| ConnectorHybrid.HybridQuery | backend/qdrant_connector_hybrid.py:112-131 | the query prefetches `10 * limit` dense candidates under "jina-small", then ranks `limit` results on "bm25" with payloads |
| ConnectorHybrid.PayloadTexts | backend/qdrant_connector_hybrid.py:132 | the payload texts in server order; KeyError exactly when some point has no `text` |
| ConnectorHybrid.QdrantConnectorHybrid.constructor | backend/qdrant_connector_hybrid.py:10-20 | stores the settings (the model and collection name default to the source's defaults), then leaves the store as `Ensured` says |
| ConnectorHybrid.QdrantConnectorHybrid.EnsureCollectionExists | backend/qdrant_connector_hybrid.py:30-57 | creates the hard-coded collection with a 512-dimensional dense space and an IDF sparse space when the configured name is not listed; failures are swallowed |
| ConnectorHybrid.QdrantConnectorHybrid.UploadToQdrant | backend/qdrant_connector_hybrid.py:59-109 | splits with the fixed 500/50 splitter and runs the upload loop with named dense and sparse vectors into the configured collection |
| ConnectorHybrid.QdrantConnectorHybrid.SearchSimilar | backend/qdrant_connector_hybrid.py:111-132 | the payload texts of the points the two-stage query returns, in order; the result is KeyError("text") exactly when one lacks `text`; an error for a missing collection |
| ConnectorHybrid.DefaultNamesDisagree | backend/qdrant_connector_hybrid.py:36-39 | with the default name on a store that has neither collection, the constructor creates another name and every upload stores nothing |
| PdfToQdrant.Concat | backend/pdf_to_qdrant.py:23-26 | the page texts joined in order exist exactly when every page's extraction succeeds |
| PdfToQdrant.ConcatAppend | backend/pdf_to_qdrant.py:23-26 | the text of two runs of pages is the first run's text followed by the second's |
| PdfToQdrant.ConcatPage | backend/pdf_to_qdrant.py:23-26 | each page's text sits in the result at the offset of the pages before it |
| PdfToQdrant.PdfMetadata | backend/pdf_to_qdrant.py:44-49 | exactly the keys `file_name` (the basename), `file_path`, `chunk_size` and `overlap` with the given values |
| PdfToQdrant.PdfChunkPayload | backend/pdf_to_qdrant.py:44-51 | a stored PDF chunk keeps its own text, index and length and carries the file's name, path and split settings |
| PdfToQdrant.PdfProcessor.constructor | backend/pdf_to_qdrant.py:7-17 | stores the connector |
| PdfToQdrant.ExtractedText | backend/pdf_to_qdrant.py:19-29 | the text `_extract_pdf` returns, "" for an unreadable file or a failing page; ExtractPdf's loop is proved to compute it |
| PdfToQdrant.PdfProcessor.ExtractPdf | backend/pdf_to_qdrant.py:19-29 | the pages' texts joined in order; "" when the file cannot be read or any page fails |
| PdfToQdrant.PdfProcessor.ProcessPdf | backend/pdf_to_qdrant.py:31-51 | a blank extraction returns the error dict and writes nothing; otherwise the text is split with the given sizes (1000 and 100 by default) and uploaded once with the metadata record, and the result is None |
| PyText.Split | backend/injest.py:32 | `str.split(sep)`: never an empty list; ListUrlsAreLines and SplitJoin show it is undone by Join |
| PyText.Join | backend/injest.py:32 | `sep.join(parts)`, the reference inverse of Split |
| PyText.ReplaceAll | frontend/app.py:277 | `str.replace(p, r)`, left to right without overlaps; ReplaceIsJoinOfSplit relates it to Split and Join |
| PyText.SplitJoin | backend/injest.py:32 | joining the parts of a split with the separator gives back the text |
| PyText.ReplaceIsJoinOfSplit | frontend/app.py:277 | `s.replace(p, r)` equals `r.join(s.split(p))` |
| PyText.IntToString | frontend/app.py:195 | `str()` of an int in decimal; StatusRecoverable reads the status code back from it |
| PyText.Strip | backend/pdf_to_qdrant.py:39 | `str.strip()`: the result has no leading or trailing whitespace, is empty exactly when the input is all whitespace, and leaves an already trimmed input unchanged |
| PyText.Basename | backend/pdf_to_qdrant.py:45 | `os.path.basename`: the text after the last '/' |
| PyText.LastSegmentIsBasename | backend/injest.py:11 | `url.split("/")[-1]` is the text after the last '/' and equals the basename |
| Injest.Unquote | backend/injest.py:11 | `unquote` never makes the text longer; what it decodes is stated by the three lemmas below |
| Injest.UnquoteFirstPercent | backend/injest.py:11 | up to the first '%' the text is kept; a `%XY` with two hex digits there becomes the one character it names, a bare '%' is kept, and decoding resumes after it |
| Injest.UnquoteWithoutPercent | backend/injest.py:11 | a name without '%' decodes to itself |
| Injest.UnquoteQuote | backend/injest.py:11 | decoding undoes percent-encoding of octet-sized characters |
| Injest.PathJoin | backend/injest.py:14 | `Path(dest) / name` ends with the name |
| Injest.DownloadTarget | backend/injest.py:10-14 | ValueError("The URL does not point to a PDF file.") exactly when the decoded last segment does not end in ".pdf"; otherwise the URL is fetched into the folder under that name |
| Injest.DownloadLandsInFolder | backend/injest.py:11-14 | a decoded name without '/' is saved directly in the folder, under that basename, ending in ".pdf" |
| Injest.JoinPlainName | backend/injest.py:14 | a folder not ending in '/' and a slash-free ".pdf" name are joined with one '/'; the base name of the result is the name and it ends in ".pdf" |
| Injest.ListUrls | backend/injest.py:28-34 | no URLs exactly when the file is empty |
| Injest.ListUrlsAreLines | backend/injest.py:28-34 | the URLs of a non-empty file joined with '\n' give back the file; there is one more than there are newlines; none contains a newline |
| Injest.TrailingNewlineRaises | backend/injest.py:28-34 | a file ending in a newline yields an empty last URL, whose download raises ValueError |
| Injest.DownloadAll | backend/injest.py:40-42 | only downloads happen, at most one per URL; all of them when nothing raises |
| Injest.IngestMain | backend/injest.py:37-51 | the steps the script performs and the exception that stops it, if any; their order is stated by IngestOrder |
| Injest.IngestOrder | backend/injest.py:37-51 | the collection is recreated once, after every download and before any PDF; every PDF is processed once with 800 and 100; a raising download stops everything |
| Injest.AfterDownloadsOrder | backend/injest.py:46-51 | after the downloads comes exactly one recreation of the collection, then one processing step per PDF, in order, with 800 and 100; recreation happens nowhere else |
| Injest.DownloadsFollowUrls | backend/injest.py:40-42 | each download is the one derived from the URL at the same position; when nothing raises every URL was fetched without an HTTP error; otherwise the script stops at the first URL that raises, with its exception |
| Rag.BuildPrompt | backend/rag.py:9-22 | the prompt starts with "nothink/" and has no surrounding whitespace |
| Rag.PromptStartsWithNoThink | backend/rag.py:9-22 | stripping the filled template keeps its head, so the prompt opens with "nothink/" |
| Rag.TemplateFacts | backend/rag.py:10-19 | the stripped template starts with "nothink/", its "CONTEXT: x" line ends in a visible character, and only whitespace precedes the context |
| Rag.BuildPromptShape | backend/rag.py:9-22 | the prompt is the template head, the query verbatim, the "CONTEXT: x" line and the context with only its trailing whitespace removed (nothing after the line when the context is blank) |
| Rag.AnswerQuery | backend/rag.py:24-37 | searches the default collection with limit 5 and sends the caller's model the prompt built from the same query and the rows; search errors propagate |
| GrafanaInit.SetDatasourceUid | grafana/init.py:132 | the datasource dict gets the uid; no key is added or removed and no other key changes |
| GrafanaInit.RewriteTarget | grafana/init.py:136-138 | one target: a non-dict raises at `.get`, a dict datasource gets the uid and counts one, anything else is kept; UpdateTarget is proved to compute it |
| GrafanaInit.RewritePanel | grafana/init.py:131-138 | one panel: a non-dict raises, a dict datasource gets the uid, else a list of targets is rewritten; PanelEffect states what changes |
| GrafanaInit.RewriteTargets | grafana/init.py:135-138 | a successful run over the targets returns one target per input |
| GrafanaInit.RewritePanels | grafana/init.py:130-138 | a successful run over the panels returns one panel per input |
| GrafanaInit.PanelItems | grafana/init.py:130 | what `for panel in dashboard.get("panels", [])` iterates, or the exception it raises, for each kind of `panels` value |
| GrafanaInit.RewriteDashboard | grafana/init.py:129-145 | the rewritten dashboard without `id`, `uid` and `version`, with the count; DashboardEffect states what changes and UpdateDashboard is proved to compute it |
| GrafanaInit.DashboardPayload | grafana/init.py:148-152 | the body holds the dashboard, `overwrite` true and the fixed message |
| GrafanaInit.UpdateDashboard | grafana/init.py:129-145 | the nested loop and the three pops give the dashboard and count `RewriteDashboard` defines, or the first exception |
| GrafanaInit.UpdatePanels | grafana/init.py:130-138 | the outer loop gives `RewritePanels`: the panels in order, stopping at the first exception |
| GrafanaInit.UpdatePanel | grafana/init.py:131-138 | one panel's loop body gives `RewritePanel` |
| GrafanaInit.UpdateTargets | grafana/init.py:135-138 | the inner loop gives `RewriteTargets` |
| GrafanaInit.UpdateTarget | grafana/init.py:136-138 | one target's loop body gives `RewriteTarget`: a non-dict raises, a dict datasource gets the uid and counts one, anything else is kept |
| GrafanaInit.PanelsStep | grafana/init.py:130-138 | the run over one more panel extends the run before it by that panel |
| GrafanaInit.TargetsStep | grafana/init.py:135-138 | the run over one more target extends the run before it by that target |
| GrafanaInit.RewriteErrorPersists | grafana/init.py:130-138 | once a panel raises, the whole loop raises that exception |
| GrafanaInit.TargetErrorPersists | grafana/init.py:135-138 | once a target raises, the inner loop raises that exception |
| GrafanaInit.TargetsPointwise | grafana/init.py:135-138 | the targets loop succeeds exactly when every target is a dict; each target is rewritten on its own; the count is the number of targets with a dict datasource |
| GrafanaInit.TargetsSucceed | grafana/init.py:135-138 | the targets loop succeeds exactly when every target is a dict |
| GrafanaInit.TargetsCount | grafana/init.py:135-138 | a successful targets loop counts the targets whose datasource is a dict |
| GrafanaInit.TargetsElements | grafana/init.py:135-138 | a successful targets loop rewrites each target on its own |
| GrafanaInit.PanelsPointwise | grafana/init.py:130-138 | the panels loop succeeds exactly when every panel does; each panel is rewritten on its own; the count is the sum over the panels |
| GrafanaInit.PanelsSucceed | grafana/init.py:130-138 | the panels loop succeeds exactly when every panel does |
| GrafanaInit.PanelsCount | grafana/init.py:130-138 | a successful panels loop counts the sum of the panels' rewrites |
| GrafanaInit.PanelsElements | grafana/init.py:130-138 | a successful panels loop rewrites each panel on its own |
| GrafanaInit.PanelCount | grafana/init.py:131-138 | a panel counts 1 for a dict datasource, else the number of its targets with one |
| GrafanaInit.PanelEffect | grafana/init.py:131-138 | a dict datasource gets the uid and the targets are untouched; otherwise exactly the targets with a dict datasource get it; keys are never added or removed |
| GrafanaInit.DashboardEffect | grafana/init.py:129-145 | succeeds exactly when the dashboard is a dict whose panels iterate and rewrite; then `id`, `uid` and `version` are gone, other keys are kept, only a list of panels changes, and the count is the total over the panels |
| FrontendApp.CallBackendApi | frontend/app.py:161-204 | 200 with a JSON dict gives its `response`, else its `text`, else `str()` of it; other JSON gives its `str()`; non-JSON gives the body text; any other status or any exception gives a text starting with "Error:" with the source's message |
| FrontendApp.ErrorText | frontend/app.py:197-204 | an exception's reply is "Error:" followed by that branch's message |
| FrontendApp.StatusRecoverable | frontend/app.py:195 | the status code can be read back from the error text for a non-200 reply |
| FrontendApp.IsError | frontend/app.py:272 | `isinstance(response, str) and response.startswith("Error:")`; ErrorClassification says which replies satisfy it |
| FrontendApp.ErrorClassification | frontend/app.py:272 | every non-200 or exception reply is flagged as an error; a 200 non-JSON reply is flagged exactly when its text starts with "Error:" |
| FrontendApp.StripThink | frontend/app.py:285 | removing the tags never lengthens the reply |
| FrontendApp.StripThinkWithoutTags | frontend/app.py:285 | a reply without either tag is stored unchanged |
| FrontendApp.AssistantMessage | frontend/app.py:283-288 | the assistant entry holds the stripped reply, the timestamp and the error flag of the unstripped reply |
| FrontendApp.ChatSession.constructor | frontend/app.py:158-159 | the history starts empty |
| FrontendApp.ChatSession.Clear | frontend/app.py:233-235 | "Clear Chat" empties the history |
| FrontendApp.ChatSession.Submit | frontend/app.py:253-288 | an empty input does nothing; otherwise the user entry is appended, "nothink/ " plus the prompt is sent, and the assistant entry follows; a non-string reply raises at `.replace` after only the user entry |
| FrontendApp.AlternatingHistory | frontend/app.py:253-288 | any history made of (user, assistant) pairs has two entries per pair, alternating user and assistant |
| FrontendApp.ChatSession.ChatAfterClear | frontend/app.py:233-288 | "Clear Chat" followed by k non-empty inputs answered with strings leaves 2k entries, alternating user and assistant, the user entries holding the prompts in order |

## Left out

- Embeddings are not modelled. The sentence-transformer, jina and BM25 models are reduced to the shape of the vectors a point carries (a dimension, vector names), which decides whether a schema accepts the point. An exception from `encode` is not modelled.
- The server's ranking (cosine scores, BM25 weights, prefetch fusion) is a function parameter. Scores are passed through as reals. Floating point is not modelled.
- The text splitter is an opaque function of its configuration and the text. No size, overlap or reconstruction property of its chunks is modelled.
- PyPDF2 is reduced to what it yields: an unreadable file, or pages whose extraction gives a string or fails. Files, streams and `open` are not modelled.
- Every network call is left out (the download stream and file write, Ollama's `generate`, the POST to `/ask`, the health check, Grafana's HTTP API). The model keeps what is sent and how the call ends.
- Connector.QdrantConnector.SearchSimilar: a search on a missing collection is modelled as a `CollectionNotFound` error. Other transport errors from `search` are not modelled.
- ConnectorHybrid.QdrantConnectorHybrid.SearchSimilar: a query on a missing collection is modelled as a `CollectionNotFound` error. Other transport errors from `query_points` are not modelled.
- ConnectorHybrid.QdrantConnectorHybrid.UploadToQdrant: draws one uuid per chunk, where the source draws two. The first is only printed, so the stored points are the same.
- Rag.AnswerQuery: returns the request sent to the model server (model and prompt), not Ollama's response. The host and port come from the environment and are not modelled.
- Injest.Unquote: decodes each `%XY` escape to one character whose code is the octet. UTF-8 sequences of several escapes are not combined into one character.
- Injest.PathJoin: joins with one '/' and lets an absolute name replace the folder. pathlib's normalisation of "." and repeated separators is not modelled.
- Injest.IngestMain: `urls.txt` is given as its text, and a missing file is not modelled. The PDFs found in the data folder are given as a list in the order the directory listing yields them.
- The printed log lines of every module are left out.
- grafana/init.py is modelled only from the dashboard rewrite to the payload. Loading the JSON file, creating the datasource and the HTTP requests are left out.
- frontend/app.py rendering (page configuration, CSS, markdown and captions, the model select box) and the health check are left out. Timestamps are parameters.
- backend/app.py, backend/db.py and notebooks/questions.py are not part of this model.
- Dict key order is not modelled; dicts are maps. `str()` of a dict lists its keys in insertion order, and the model does not capture that order where the source prints one.
- FrontendApp.CallBackendApi: `str(result)` of a parsed JSON reply (frontend/app.py:189-191) is the parameter `pyStr` applied to a map. So the key order in which the backend sent the object, which Python's `str()` reproduces, is not captured.
- Rag.BuildPrompt: the context text `str(search_results)` is a parameter. The order of the keys inside each result dict is therefore not modelled.
