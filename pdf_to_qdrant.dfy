/** `PDFToQdrant`: extract the text of a PDF page by page and hand it, with a small metadata
    record, to the plain connector's upload. */
module PdfToQdrant {

  import opened Wrappers
  import opened PyValue
  import opened PyText
  import opened VectorStore
  import opened Connector

  const DefaultChunkSize: int := 1000
  const DefaultOverlap: int := 100
  const ExtractionFailedMessage: string := "Failed to extract text from PDF"

  /** What PyPDF2 finds at a path: the file cannot be opened or parsed, or it has pages whose
      `extract_text()` either returns a string or raises (`None` here). */
  datatype PdfContent = Unreadable | Document(pages: seq<Option<string>>)

  /** The page texts joined in page order, or None when some page fails. */
  function Concat(pages: seq<Option<string>>): (r: Option<string>)
    ensures r.Some? <==> forall i :: 0 <= i < |pages| ==> pages[i].Some?
  {
    if pages == [] then Some("")
    else
      var init := Concat(pages[..|pages| - 1]);
      var last := pages[|pages| - 1];
      if init.Some? && last.Some? then Some(init.value + last.value) else None
  }

  /** Concatenation is compositional: the text of two runs of pages is the text of the first run
      followed by the text of the second. */
  lemma {:induction false} ConcatAppend(a: seq<Option<string>>, b: seq<Option<string>>)
    requires Concat(a).Some? && Concat(b).Some?
    ensures Concat(a + b) == Some(Concat(a).value + Concat(b).value)
    decreases |b|
  {
    if b == [] {
      assert a + b == a;
      assert Concat(a).value + "" == Concat(a).value;
    } else {
      var b' := b[..|b| - 1];
      assert (a + b)[..|a + b| - 1] == a + b';
      assert (a + b)[|a + b| - 1] == b[|b| - 1];
      assert Concat(b').Some? by {
        assert forall j :: 0 <= j < |b'| ==> b'[j] == b[j];
      }
      ConcatAppend(a, b');
      var last := b[|b| - 1].value;
      assert Concat(a).value + Concat(b').value + last == Concat(a).value + (Concat(b').value + last);
    }
  }

  /** Each page's text sits in the result at the offset of the pages before it. */
  lemma ConcatPage(pages: seq<Option<string>>, i: nat)
    requires i < |pages| && Concat(pages).Some?
    ensures var before := Concat(pages[..i]).value;
            var t := Concat(pages).value;
            |before| + |pages[i].value| <= |t| && t[|before|..|before| + |pages[i].value|] == pages[i].value
  {
    assert pages == pages[..i] + [pages[i]] + pages[i + 1..];
    assert [pages[i]][..0] == [];
    assert "" + pages[i].value == pages[i].value;
    ConcatAppend(pages[..i], [pages[i]]);
    ConcatAppend(pages[..i] + [pages[i]], pages[i + 1..]);
  }

  /** What `_extract_pdf` returns: the joined page texts, or "" after any error. */
  function ExtractedText(content: PdfContent): string {
    if content.Unreadable? then ""
    else match Concat(content.pages)
      case Some(t) => t
      case None => ""
  }

  /** The metadata record `process_pdf` attaches to every chunk. */
  function PdfMetadata(pdfPath: string, chunkSize: int, overlap: int): (m: Dict)
    ensures m.Keys == {"file_name", "file_path", "chunk_size", "overlap"}
    ensures m["file_name"] == Str(Basename(pdfPath)) && m["file_path"] == Str(pdfPath)
    ensures m["chunk_size"] == Int(chunkSize) && m["overlap"] == Int(overlap)
  {
    map["file_name" := Str(Basename(pdfPath)), "file_path" := Str(pdfPath),
        "chunk_size" := Int(chunkSize), "overlap" := Int(overlap)]
  }

  /** The dict `process_pdf` returns when there is nothing to upload. */
  const ExtractionFailed: Dict := map["error" := Str(ExtractionFailedMessage)]

  /** A stored chunk of a PDF keeps its own text and index, and carries the file's name, path and
      the split settings: the metadata never overwrites the chunk's fields. */
  lemma PdfChunkPayload(chunk: string, index: nat, pdfPath: string, chunkSize: int, overlap: int)
    ensures var p := ChunkPayload(chunk, index, Some(PdfMetadata(pdfPath, chunkSize, overlap)));
            && p.Keys == {"text", "chunk_index", "chunk_length", "file_name", "file_path", "chunk_size", "overlap"}
            && p["text"] == Str(chunk) && p["chunk_index"] == Int(index) && p["chunk_length"] == Int(|chunk|)
            && p["file_name"] == Str(Basename(pdfPath)) && p["file_path"] == Str(pdfPath)
            && p["chunk_size"] == Int(chunkSize) && p["overlap"] == Int(overlap)
  {
    var m := PdfMetadata(pdfPath, chunkSize, overlap);
    assert "file_name" in m;
    ChunkPayloadFields(chunk, index, Some(m));
  }

  class PdfProcessor {
    const connector: QdrantConnector

    constructor (connector: QdrantConnector)
      ensures this.connector == connector
    {
      this.connector := connector;
    }

    /** `_extract_pdf(pdf_path)`: `text += page.extract_text()` over the pages; any exception
        (opening, parsing, a page) is caught and gives "". */
    method ExtractPdf(content: PdfContent) returns (text: string)
      ensures text == ExtractedText(content)
    {
      if content.Unreadable? {
        return "";
      }
      var pages := content.pages;
      text := "";
      var i := 0;
      while i < |pages|
        invariant 0 <= i <= |pages|
        invariant Concat(pages[..i]) == Some(text)
      {
        if pages[i].None? {
          assert !(forall j :: 0 <= j < |pages| ==> pages[j].Some?);
          return "";
        }
        assert pages[..i + 1][..i] == pages[..i];
        text := text + pages[i].value;
        i := i + 1;
      }
      assert pages[..i] == pages;
    }

    /** `process_pdf(pdf_path, chunk_size, overlap)`: a blank extraction returns the error dict
        and uploads nothing; otherwise the whole text is uploaded once with the metadata record,
        and the result is None. */
    method ProcessPdf(pdfPath: string, content: PdfContent, faults: set<nat>,
                      chunkSize: int := DefaultChunkSize, overlap: int := DefaultOverlap)
      returns (r: Option<Dict>)
      requires connector.server.Valid()
      modifies connector.server
      ensures connector.server.Valid()
      ensures AllSpace(ExtractedText(content)) ==>
                && r == Some(ExtractionFailed)
                && connector.server.collections == old(connector.server.collections)
                && connector.server.issued == old(connector.server.issued)
      ensures !AllSpace(ExtractedText(content)) ==>
                && r.None?
                && (connector.server.collections, connector.server.issued)
                   == Uploaded(old(connector.server.collections), old(connector.server.issued),
                               connector.collectionName, Unnamed(connector.dim),
                               connector.split(SentenceSplitter(Int(chunkSize), Int(overlap)), ExtractedText(content)),
                               Some(PdfMetadata(pdfPath, chunkSize, overlap)), faults)
    {
      var text := ExtractPdf(content);
      if Strip(text) == [] {
        return Some(ExtractionFailed);
      }
      var metadata := PdfMetadata(pdfPath, chunkSize, overlap);
      var raised := connector.UploadToQdrant(text, Some(metadata), faults);
      r := None;
    }
  }
}
