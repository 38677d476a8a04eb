/** The ingestion script: the URL list, the file name a download is saved under, and the order
    of the steps its entry point runs. */
module Injest {

  import opened Wrappers
  import opened PyValue
  import opened PyText

  const NotPdfMessage: string := "The URL does not point to a PDF file."
  const IngestChunkSize: int := 800
  const IngestOverlap: int := 100

  // ---------------------------------------------------------------------------
  // Percent-decoding (`urllib.parse.unquote`) and its inverse

  predicate IsHex(c: char) {
    ('0' <= c <= '9') || ('a' <= c <= 'f') || ('A' <= c <= 'F')
  }

  function HexValue(c: char): (v: nat)
    requires IsHex(c)
    ensures v < 16
  {
    if '0' <= c <= '9' then c as int - '0' as int
    else if 'a' <= c <= 'f' then c as int - 'a' as int + 10
    else c as int - 'A' as int + 10
  }

  /** The character a `%XY` escape stands for (one octet, read as a code point). */
  function DecodeOctet(hi: char, lo: char): (c: char)
    requires IsHex(hi) && IsHex(lo)
    ensures (c as int) < 256
  {
    (16 * HexValue(hi) + HexValue(lo)) as char
  }

  /** Whether a `%` starts a valid escape at position 0 of `s`. */
  predicate EscapeAt(s: string) {
    |s| >= 3 && s[0] == '%' && IsHex(s[1]) && IsHex(s[2])
  }

  /** `unquote(s)`: every `%XY` with two hex digits (either case) becomes the octet it names,
      read left to right; a `%` not followed by two hex digits is kept as it is. */
  function Unquote(s: string): (r: string)
    ensures |r| <= |s|
    decreases |s|
  {
    if s == [] then []
    else if EscapeAt(s) then [DecodeOctet(s[1], s[2])] + Unquote(s[3..])
    else [s[0]] + Unquote(s[1..])
  }

  /** A string without '%' is its own decoding (the fast path `unquote` takes). */
  lemma {:induction false} UnquoteWithoutPercent(s: string)
    requires forall i :: 0 <= i < |s| ==> s[i] != '%'
    ensures Unquote(s) == s
    decreases |s|
  {
    if s != [] {
      UnquoteWithoutPercent(s[1..]);
    }
  }

  /** Decoding up to the first '%': the text before it is kept; a valid `%XY` there becomes the
      one character it names, and a bare '%' is kept; decoding then resumes after it. */
  lemma {:induction false} UnquoteFirstPercent(s: string, i: nat)
    requires i < |s| && s[i] == '%' && forall j :: 0 <= j < i ==> s[j] != '%'
    ensures EscapeAt(s[i..]) ==> Unquote(s) == s[..i] + [DecodeOctet(s[i + 1], s[i + 2])] + Unquote(s[i + 3..])
    ensures !EscapeAt(s[i..]) ==> Unquote(s) == s[..i] + "%" + Unquote(s[i + 1..])
    decreases i
  {
    if i > 0 {
      var t := s[1..];
      assert !EscapeAt(s);
      UnquoteFirstPercent(t, i - 1);
      assert t[i - 1..] == s[i..];
      assert s[..i] == [s[0]] + t[..i - 1];
      if EscapeAt(s[i..]) {
        assert t[i - 1 + 3..] == s[i + 3..];
      } else {
        assert t[i - 1 + 1..] == s[i + 1..];
      }
    }
  }

  /** The characters section 2.3 of RFC 3986 calls unreserved. */
  predicate Unreserved(c: char) {
    ('A' <= c <= 'Z') || ('a' <= c <= 'z') || ('0' <= c <= '9') || c == '-' || c == '.' || c == '_' || c == '~'
  }

  function HexDigit(v: nat): (c: char)
    requires v < 16
    ensures IsHex(c) && HexValue(c) == v
  {
    if v < 10 then ('0' as int + v) as char else ('A' as int + v - 10) as char
  }

  /** The escape `%XY` (upper-case digits) for one octet-sized character. */
  function EscapeChar(c: char): (e: string)
    requires (c as int) < 256
    ensures |e| == 3 && EscapeAt(e) && DecodeOctet(e[1], e[2]) == c
  {
    ['%', HexDigit(c as int / 16), HexDigit(c as int % 16)]
  }

  /** `quote(s)`: every character outside the unreserved set and '/' is escaped. The reference
      encoder for the decoder above, on octet-sized characters. */
  function Quote(s: string): (r: string)
    requires forall i :: 0 <= i < |s| ==> (s[i] as int) < 256
    ensures |r| >= |s|
    decreases |s|
  {
    if s == [] then []
    else (if Unreserved(s[0]) || s[0] == '/' then [s[0]] else EscapeChar(s[0])) + Quote(s[1..])
  }

  /** Decoding undoes encoding: `unquote(quote(s)) == s`. */
  lemma {:induction false} UnquoteQuote(s: string)
    requires forall i :: 0 <= i < |s| ==> (s[i] as int) < 256
    ensures Unquote(Quote(s)) == s
    decreases |s|
  {
    if s != [] {
      var rest := Quote(s[1..]);
      UnquoteQuote(s[1..]);
      if Unreserved(s[0]) || s[0] == '/' {
        var q := [s[0]] + rest;
        assert !EscapeAt(q) && q[1..] == rest;
      } else {
        var e := EscapeChar(s[0]);
        var q := e + rest;
        assert EscapeAt(q) && q[1] == e[1] && q[2] == e[2] && q[3..] == rest;
      }
      assert s == [s[0]] + s[1..];
    }
  }

  // ---------------------------------------------------------------------------
  // download_pdf: file name and destination

  /** `Path(dest) / name`: an absolute name replaces the folder; otherwise one '/' joins them. */
  function PathJoin(dest: string, name: string): (p: string)
    ensures EndsWith(p, name)
  {
    if StartsWith(name, "/") || dest == [] then name
    else if EndsWith(dest, "/") then dest + name
    else dest + "/" + name
  }

  /** The request `download_pdf` makes and the path it writes. */
  datatype Fetch = Fetch(url: string, path: string)

  /** `download_pdf(url, dest_folder)` up to the request: the file name is the decoded text after
      the last '/' of the URL, and a name without the ".pdf" suffix raises ValueError before any
      request is made. */
  function DownloadTarget(url: string, dest: string): (r: Result<Fetch, PyError>)
    ensures r.Err? <==> !EndsWith(Unquote(LastSegment(url)), ".pdf")
    ensures r.Err? ==> r.error == ValueError(NotPdfMessage)
    ensures r.Ok? ==> r.value.url == url && r.value.path == PathJoin(dest, Unquote(LastSegment(url)))
  {
    var filename := Unquote(LastSegment(url));
    if !EndsWith(filename, ".pdf") then Err(ValueError(NotPdfMessage))
    else Ok(Fetch(url, PathJoin(dest, filename)))
  }

  /** A plain file name (no '/' anywhere once decoded) lands directly in the folder under its own
      name, and the saved file ends with ".pdf". */
  lemma DownloadLandsInFolder(url: string, dest: string)
    requires dest != [] && !EndsWith(dest, "/")
    requires DownloadTarget(url, dest).Ok?
    requires forall i :: 0 <= i < |Unquote(LastSegment(url))| ==> Unquote(LastSegment(url))[i] != '/'
    ensures var path := DownloadTarget(url, dest).value.path;
            var name := Unquote(LastSegment(url));
            && path == dest + "/" + name
            && Basename(path) == name
            && EndsWith(path, ".pdf")
  {
    JoinPlainName(dest, Unquote(LastSegment(url)));
  }

  /** Joining a folder and a slash-free ".pdf" name puts one '/' between them, and the base name
      of the result is the name. */
  lemma JoinPlainName(dest: string, name: string)
    requires dest != [] && !EndsWith(dest, "/")
    requires EndsWith(name, ".pdf")
    requires forall i :: 0 <= i < |name| ==> name[i] != '/'
    ensures var path := PathJoin(dest, name);
            path == dest + "/" + name && Basename(path) == name && EndsWith(path, ".pdf")
  {
    assert !StartsWith(name, "/") by {
      assert name[0] != '/';
    }
    var path := dest + "/" + name;
    assert IsLastSegment(path, name) by {
      assert path[|path| - |name|..] == name;
      assert path[|path| - |name| - 1] == '/';
    }
    LastSegmentUnique(path, name, Basename(path));
    assert path[|path| - 4..] == name[|name| - 4..];
  }

  // ---------------------------------------------------------------------------
  // list_urls

  /** `list_urls(path)` given the file's text: nothing for an empty file, else one URL per
      '\n'-separated line. */
  function ListUrls(text: string): (urls: seq<string>)
    ensures urls == [] <==> text == []
  {
    if text == [] then [] else Split(text, "\n")
  }

  /** The URLs of a non-empty file are its lines: joining them gives back the file, there is one
      more than there are newlines, and none contains a newline. */
  lemma ListUrlsAreLines(text: string)
    requires text != []
    ensures Join(ListUrls(text), "\n") == text
    ensures |ListUrls(text)| == Count(text, '\n') + 1
    ensures forall k :: 0 <= k < |ListUrls(text)| ==> Count(ListUrls(text)[k], '\n') == 0
  {
    SplitJoin(text, "\n");
    SplitOnChar(text, '\n');
  }

  /** A file ending in a newline yields a last, empty URL, whose download raises ValueError. */
  lemma {:induction false} TrailingNewlineRaises(text: string, dest: string)
    requires text != [] && text[|text| - 1] == '\n'
    ensures var urls := ListUrls(text);
            urls[|urls| - 1] == [] && DownloadTarget(urls[|urls| - 1], dest) == Err(ValueError(NotPdfMessage))
  {
    SplitEndsWithSep(text, '\n');
  }

  /** Splitting a string that ends with the separator gives an empty last part. */
  lemma {:induction false} SplitEndsWithSep(s: string, c: char)
    requires s != [] && s[|s| - 1] == c
    ensures var parts := Split(s, [c]); parts[|parts| - 1] == []
    decreases |s|
  {
    if |s| == 1 {
      assert s[..1] == [c];
      assert Split(s, [c]) == [[]] + Split(s[1..], [c]);
    } else if s[..1] == [c] {
      SplitEndsWithSep(s[1..], c);
    } else {
      SplitEndsWithSep(s[1..], c);
      var rest := Split(s[1..], [c]);
    }
  }

  // ---------------------------------------------------------------------------
  // The entry point

  /** What the script does, in order. */
  datatype Step =
    | Download(fetch: Fetch)
    | RecreateCollection
    | ProcessPdf(path: string, chunkSize: int, overlap: int)

  /** Download every URL in order, given what `download_pdf` derives from each; the first one that
      raises (a name without ".pdf", or a failed request at an index in `failed`) ends the script. */
  function DownloadAll(targets: seq<Result<Fetch, PyError>>, failed: set<nat>, from: nat): (r: (seq<Step>, Option<PyError>))
    requires from <= |targets|
    ensures forall k :: 0 <= k < |r.0| ==> r.0[k].Download?
    ensures |r.0| <= |targets| - from
    ensures r.1.None? ==> |r.0| == |targets| - from
    decreases |targets| - from
  {
    if from == |targets| then ([], None)
    else match targets[from]
      case Err(e) => ([], Some(e))
      case Ok(f) =>
        if from in failed then ([Download(f)], Some(HTTPError(f.url)))
        else
          var (rest, e) := DownloadAll(targets, failed, from + 1);
          ([Download(f)] + rest, e)
  }

  /** What `download_pdf` derives from each listed URL. */
  function Targets(urls: seq<string>, dest: string): (ts: seq<Result<Fetch, PyError>>)
    ensures |ts| == |urls|
  {
    seq(|urls|, i requires 0 <= i < |urls| => DownloadTarget(urls[i], dest))
  }

  /** `__main__`: download the listed URLs, recreate the collection, then process every PDF in the
      data folder (`pdfFiles`, as the directory listing gives them) with 800/100. */
  function IngestMain(urlsText: string, dest: string, failed: set<nat>, pdfFiles: seq<string>): (r: (seq<Step>, Option<PyError>))
  {
    var (downloads, e) := DownloadAll(Targets(ListUrls(urlsText), dest), failed, 0);
    if e.Some? then (downloads, e)
    else (AfterDownloads(downloads, pdfFiles), None)
  }

  /** The steps of a run whose downloads all succeeded: the downloads, the recreation of the
      collection, then one processing step per PDF. */
  function AfterDownloads(downloads: seq<Step>, pdfFiles: seq<string>): seq<Step> {
    downloads + [RecreateCollection] + seq(|pdfFiles|, i requires 0 <= i < |pdfFiles| => ProcessPdf(pdfFiles[i], IngestChunkSize, IngestOverlap))
  }

  /** Recreation sits between the downloads and the PDFs and happens nowhere else. */
  lemma AfterDownloadsOrder(downloads: seq<Step>, pdfFiles: seq<string>)
    requires forall k :: 0 <= k < |downloads| ==> downloads[k].Download?
    ensures var steps := AfterDownloads(downloads, pdfFiles);
            var n := |downloads|;
            && |steps| == n + 1 + |pdfFiles|
            && (forall k :: 0 <= k < n ==> steps[k] == downloads[k])
            && steps[n] == RecreateCollection
            && (forall k :: 0 <= k < |steps| && k != n ==> steps[k] != RecreateCollection)
            && (forall k :: 0 <= k < |pdfFiles| ==> steps[n + 1 + k] == ProcessPdf(pdfFiles[k], 800, 100))
  {
    var steps := AfterDownloads(downloads, pdfFiles);
    var n := |downloads|;
    forall k | 0 <= k < |steps| && k != n ensures steps[k] != RecreateCollection {
      if k < n {
        assert steps[k] == downloads[k];
      } else {
        assert steps[k] == ProcessPdf(pdfFiles[k - n - 1], 800, 100);
      }
    }
  }

  /** The collection is recreated exactly once, after every download and before any PDF is
      processed, and every PDF is processed once with chunk size 800 and overlap 100; if a
      download raises, nothing is recreated or processed. */
  lemma IngestOrder(urlsText: string, dest: string, failed: set<nat>, pdfFiles: seq<string>)
    ensures var (steps, e) := IngestMain(urlsText, dest, failed, pdfFiles);
            var n := |ListUrls(urlsText)|;
            && (e.Some? ==> forall k :: 0 <= k < |steps| ==> steps[k].Download?)
            && (e.None? ==>
                  && |steps| == n + 1 + |pdfFiles|
                  && (forall k :: 0 <= k < n ==> steps[k].Download?)
                  && steps[n] == RecreateCollection
                  && (forall k :: 0 <= k < |steps| && k != n ==> steps[k] != RecreateCollection)
                  && (forall k :: 0 <= k < |pdfFiles| ==> steps[n + 1 + k] == ProcessPdf(pdfFiles[k], 800, 100)))
  {
    var urls := ListUrls(urlsText);
    var targets := Targets(urls, dest);
    var (downloads, e) := DownloadAll(targets, failed, 0);
    if e.None? {
      assert |downloads| == |urls|;
      AfterDownloadsOrder(downloads, pdfFiles);
    }
  }

  /** Every download that happens is the one `download_pdf` derives from the URL at the same
      position in the file, and the script stops at the first URL that raises. */
  lemma {:induction false} DownloadsFollowUrls(targets: seq<Result<Fetch, PyError>>, failed: set<nat>, from: nat)
    requires from <= |targets|
    ensures var (steps, e) := DownloadAll(targets, failed, from);
            && (forall k :: 0 <= k < |steps| ==> targets[from + k] == Ok(steps[k].fetch))
            && (forall i :: from <= i < from + |steps| - 1 ==> i !in failed)
            && (e.None? ==> forall i :: from <= i < from + |steps| ==> i !in failed)
            && (e.Some? ==> var last := from + |steps|;
                  || (last < |targets| && targets[last].Err? && e.value == targets[last].error)
                  || (|steps| > 0 && last - 1 in failed && e.value == HTTPError(steps[|steps| - 1].fetch.url)))
    decreases |targets| - from
  {
    var (steps, e) := DownloadAll(targets, failed, from);
    if from < |targets| && targets[from].Ok? && from !in failed {
      var (rest, e') := DownloadAll(targets, failed, from + 1);
      DownloadsFollowUrls(targets, failed, from + 1);
      assert steps == [Download(targets[from].value)] + rest && e == e';
      forall k | 1 <= k < |steps| ensures targets[from + k] == Ok(steps[k].fetch) {
        assert steps[k] == rest[k - 1];
        assert targets[(from + 1) + (k - 1)] == Ok(rest[k - 1].fetch);
      }
      if e.Some? && |rest| > 0 {
        assert steps[|steps| - 1] == rest[|rest| - 1];
      }
    }
  }
}
