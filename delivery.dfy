/** The recording delivery route of routes/recordingRoutes.js: `GET /:year/:month/:day/:file` under
    `/recordings`. The date segments are validated, the storage root is resolved, an encrypted
    variant is preferred when it exists with its metadata, and otherwise the first plain file among
    the candidate extensions is served whole or, for a `Range: bytes=start-end` header, as a
    window (a subset of RFC 7233, sections 2.1, 4.2 and 4.4). */
module Delivery {
  import opened Common
  import opened TokenCache

  type Disk = map<string, Bytes>

  /** `/^\d{4}$/`. */
  predicate IsYear(s: string) {
    |s| == 4 && AllDigits(s)
  }

  /** `/^\d{2}$/`. */
  predicate IsMonthDay(s: string) {
    |s| == 2 && AllDigits(s)
  }

  const RECORDINGS_DIR: string := "recordings"
  const MP3: string := ".mp3"
  const WAV: string := ".wav"
  const ENC: string := ".enc"
  const META: string := ".meta.json"
  const AUDIO_MPEG: string := "audio/mpeg"
  const AUDIO_WAV: string := "audio/wav"

  /** The response headers the route sets. */
  datatype Header = ContentType | ContentDisposition | AcceptRanges | ContentRange | ContentLength
  {
    /** The header's name on the wire. */
    function Name(): string {
      match this
      case ContentType => "Content-Type"
      case ContentDisposition => "Content-Disposition"
      case AcceptRanges => "Accept-Ranges"
      case ContentRange => "Content-Range"
      case ContentLength => "Content-Length"
    }
  }

  /** `getRecordingsRoot()`: the configured download path, else the `ZOOM_DOWNLOAD_PATH`
      environment variable, joined with "recordings"; nothing when neither is set. A failed
      configuration lookup counts as no configuration. `cfg` is the first stored configuration, of
      any company. */
  function RecordingsRoot(cfg: Option<ZoomConfigDoc>, env: Option<string>): (root: Option<string>)
    ensures root.Some? <==> (cfg.Some? && Truthy(cfg.value.downloadPath)) || Truthy(env)
  {
    var base := Or(if cfg.Some? then cfg.value.downloadPath else None, env);
    if Truthy(base) then Some(Join(base.value, RECORDINGS_DIR)) else None
  }

  /** `contentTypeFor(ext)`. */
  function ContentTypeFor(ext: string): string
  {
    if ext == WAV then AUDIO_WAV else AUDIO_MPEG
  }

  /** The index of the last '.' of `s`. */
  function LastDot(s: string): (r: Option<nat>)
    ensures r.Some? ==> r.value < |s| && s[r.value] == '.' && forall j :: r.value < j < |s| ==> s[j] != '.'
    ensures r.None? ==> '.' !in s
  {
    if s == [] then None
    else if s[|s| - 1] == '.' then Some(|s| - 1)
    else LastDot(s[..|s| - 1])
  }

  /** `path.extname(file)` for a name without "/": from the last '.' on, except that a name
      starting with its only dot run (".mp3") or the name ".." has none. */
  function Extname(file: string): (ext: string)
    ensures ext == "" || (ext[0] == '.' && EndsWith(file, ext) && |ext| < |file|)
  {
    match LastDot(file)
    case None => ""
    case Some(i) =>
      if i == 0 || file == ".." then ""
      else
        assert file[|file| - |file[i..]|..] == file[i..];
        file[i..]
  }

  /** `path.basename(file, ext)` for a name without "/": the name with the suffix `ext` removed
      when it is a proper suffix (the comparison is case-sensitive). Node returns "" when `ext` is
      the whole name, where this keeps the name; the route never asks for that, since the extension
      it passes is a proper suffix (`Extname`) or not a suffix at all. */
  function Basename(file: string, ext: string): (base: string)
    ensures EndsWith(file, ext) && |ext| < |file| ==> base + ext == file
    ensures !EndsWith(file, ext) ==> base == file
  {
    if EndsWith(file, ext) && |ext| < |file| then
      assert file == file[..|file| - |ext|] + file[|file| - |ext|..];
      file[..|file| - |ext|]
    else file
  }

  /** The extensions tried in order: the requested one, else ".mp3" then ".wav". */
  function TryExts(requestedExt: string): seq<string>
  {
    if requestedExt != "" then [requestedExt] else [MP3, WAV]
  }

  /** The request's path parameters. */
  datatype Request = Request(year: string, month: string, day: string, file: string, range: Option<string>)

  /** What is sent: text, nothing, a whole file, an inclusive byte window of a file, or the
      decrypted and decompressed stream of an encrypted file. */
  /** What serving the encrypted variant comes to, given the encrypted file and its metadata. The
      metadata may not parse or give a usable IV and tag, and then the handler's catch answers 500.
      The decrypt-and-gunzip pipeline may fail before its first byte reaches the response (a wrong
      key, a corrupt file), and then its callback answers 500 "Stream error". Otherwise the
      decrypted stream is sent. */
  datatype Decryption = BadMetadata | StreamError | Streamed

  datatype Body = NoBody | Text(text: string) | WholeFile(path: string) | FileWindow(path: string, first: nat, last: nat)
                | DecryptedStream(path: string)

  datatype Response = Response(status: int, headers: map<Header, string>, body: Body)

  /** A response before the handler has touched it. */
  const FRESH: Response := Response(200, map[], NoBody)

  function Disposition(name: string): string {
    "inline; filename=\"" + name + "\""
  }

  // ---------------------------------------------------------------------------------------------
  // The Range header

  /** `/^bytes=(\d*)-(\d*)$/.exec(h)`: the two digit groups, when the header matches. */
  function MatchRange(h: string): (m: Option<(string, string)>)
    ensures m.Some? ==> AllDigits(m.value.0) && AllDigits(m.value.1)
  {
    if StartsWith(h, "bytes=") && Includes(h[6..], "-") then
      var a := BeforeFirst(h[6..], "-");
      var b := AfterFirst(h[6..], "-");
      if AllDigits(a) && AllDigits(b) then Some((a, b)) else None
    else None
  }

  /** A header matches exactly when it is "bytes=", digits, "-", digits; the groups are those
      digits. */
  lemma MatchRangeIff(h: string, a: string, b: string)
    ensures MatchRange(h) == Some((a, b)) <==> (AllDigits(a) && AllDigits(b) && h == "bytes=" + a + "-" + b)
  {
    if AllDigits(a) && AllDigits(b) && h == "bytes=" + a + "-" + b {
      DigitsRangeMatches(h, a, b);
    }
    if MatchRange(h) == Some((a, b)) {
      MatchedRangeShape(h, a, b);
    }
  }

  lemma DigitsRangeMatches(h: string, a: string, b: string)
    requires AllDigits(a) && AllDigits(b) && h == "bytes=" + a + "-" + b
    ensures MatchRange(h) == Some((a, b))
  {
    var rest := h[6..];
    assert rest == a + "-" + b;
    assert MarksSeparator("-", 0);
    assert '-' !in a by {
      forall j | 0 <= j < |a| ensures a[j] != '-' {
        assert IsDigit(a[j]);
      }
    }
    FirstOccurrenceAfter(a, "-", b, 0);
    assert rest[..|a|] == a;
    assert rest[|a| + 1..] == b;
  }

  lemma MatchedRangeShape(h: string, a: string, b: string)
    requires MatchRange(h) == Some((a, b))
    ensures AllDigits(a) && AllDigits(b) && h == "bytes=" + a + "-" + b
  {
    var rest := h[6..];
    assert h == h[..6] + rest;
    assert rest == BeforeFirst(rest, "-") + "-" + AfterFirst(rest, "-");
  }

  /** The three headers set for every plain file. */
  function PlainHeaders(ext: string, base: string): map<Header, string> {
    map[ContentType := ContentTypeFor(ext)][ContentDisposition := Disposition(base + ext)][AcceptRanges := "bytes"]
  }

  /** The first byte a matching header names: `match[1] ? parseInt(match[1], 10) : 0`. */
  function RangeFirst(a: string): nat
    requires AllDigits(a)
  {
    if a != "" then DecimalValue(a) else 0
  }

  /** The last byte a matching header names: `match[2] ? parseInt(match[2], 10) : total - 1`. */
  function RangeLast(b: string, total: nat): int
    requires AllDigits(b)
  {
    if b != "" then DecimalValue(b) else total - 1
  }

  /** The answer to the window `first`..`last` of a file of `total` bytes: 416 for an empty window
      or one past the end, else 206 with the window. */
  function WindowResponse(path: string, headers: map<Header, string>, total: nat, first: nat, last: int): Response {
    if first > last || last >= total then
      Response(416, headers[ContentRange := "bytes */" + NatToString(total)], NoBody)
    else
      Response(206, headers[ContentRange := "bytes " + NatToString(first) + "-" + NatToString(last) + "/" + NatToString(total)]
                           [ContentLength := NatToString(last - first + 1)],
               FileWindow(path, first, last))
  }

  /** The response for the plain file at `path` of `total` bytes. */
  function PlainResponse(path: string, ext: string, base: string, total: nat, range: Option<string>): Response {
    var m := if Truthy(range) then MatchRange(range.value) else None;
    if m.None? then
      Response(200, PlainHeaders(ext, base)[ContentLength := NatToString(total)], WholeFile(path))
    else
      WindowResponse(path, PlainHeaders(ext, base), total, RangeFirst(m.value.0), RangeLast(m.value.1, total))
  }

  /** A window answer keeps the headers already set and adds the range headers. */
  lemma WindowShape(path: string, headers: map<Header, string>, total: nat, first: nat, last: int)
    ensures var r := WindowResponse(path, headers, total, first, last);
      && (r.status == 206 ==>
            r.body == FileWindow(path, first, last) && first <= last < total
            && ContentLength in r.headers && r.headers[ContentLength] == NatToString(last - first + 1))
      && (r.status == 416 ==> r.body == NoBody && r.headers[ContentRange] == "bytes */" + NatToString(total))
      && r.status in {206, 416}
      && (forall h :: h in headers && h != ContentRange && h != ContentLength ==> h in r.headers && r.headers[h] == headers[h])
  {
  }

  /** What every plain-file response satisfies: a 206 window lies inside the file and its
      Content-Length counts its bytes, a 200 sends the whole file with its size, a 416 names the
      size, and the type and range headers are set. */
  predicate PlainShape(r: Response, path: string, ext: string, total: nat) {
    && (r.status == 206 ==>
          r.body.FileWindow? && r.body.path == path && r.body.first <= r.body.last < total
          && ContentLength in r.headers && r.headers[ContentLength] == NatToString(r.body.last - r.body.first + 1))
    && (r.status == 200 ==> r.body == WholeFile(path) && ContentLength in r.headers && r.headers[ContentLength] == NatToString(total))
    && (r.status == 416 ==> r.body == NoBody && ContentRange in r.headers && r.headers[ContentRange] == "bytes */" + NatToString(total))
    && r.status in {200, 206, 416}
    && AcceptRanges in r.headers && r.headers[AcceptRanges] == "bytes"
    && ContentType in r.headers && r.headers[ContentType] == ContentTypeFor(ext)
  }

  lemma WindowPlainShape(path: string, ext: string, base: string, total: nat, first: nat, last: int)
    ensures PlainShape(WindowResponse(path, PlainHeaders(ext, base), total, first, last), path, ext, total)
  {
    var h := PlainHeaders(ext, base);
    assert h[AcceptRanges] == "bytes" && h[ContentType] == ContentTypeFor(ext);
    WindowShape(path, h, total, first, last);
  }

  /** A served window lies inside the file, and its Content-Length counts exactly its bytes. */
  lemma WindowInBounds(path: string, ext: string, base: string, total: nat, range: Option<string>)
    ensures var r := PlainResponse(path, ext, base, total, range);
      && (r.status == 206 ==>
            r.body.FileWindow? && r.body.path == path && r.body.first <= r.body.last < total
            && ContentLength in r.headers && r.headers[ContentLength] == NatToString(r.body.last - r.body.first + 1))
      && (r.status == 200 ==> r.body == WholeFile(path) && r.headers[ContentLength] == NatToString(total))
      && (r.status == 416 ==> r.body == NoBody && r.headers[ContentRange] == "bytes */" + NatToString(total))
      && r.status in {200, 206, 416}
      && r.headers[AcceptRanges] == "bytes" && r.headers[ContentType] == ContentTypeFor(ext)
  {
    var m := if Truthy(range) then MatchRange(range.value) else None;
    var r := PlainResponse(path, ext, base, total, range);
    if m.None? {
      var h := PlainHeaders(ext, base);
      assert h[AcceptRanges] == "bytes" && h[ContentType] == ContentTypeFor(ext);
      assert r == Response(200, h[ContentLength := NatToString(total)], WholeFile(path));
    } else {
      var first, last := RangeFirst(m.value.0), RangeLast(m.value.1, total);
      assert r == WindowResponse(path, PlainHeaders(ext, base), total, first, last);
      WindowPlainShape(path, ext, base, total, first, last);
    }
    assert PlainShape(r, path, ext, total);
  }

  /** The window of a matching header: a missing start means 0, a missing end means the last
      byte; an empty window or one past the end is refused with 416. */
  lemma RangeWindow(path: string, ext: string, base: string, total: nat, a: string, b: string)
    requires AllDigits(a) && AllDigits(b)
    ensures var r := PlainResponse(path, ext, base, total, Some("bytes=" + a + "-" + b));
      var first: int := if a != "" then DecimalValue(a) else 0;
      var last: int := if b != "" then DecimalValue(b) else total - 1;
      && (first <= last < total ==> r.status == 206 && r.body == FileWindow(path, first, last))
      && (!(first <= last < total) ==> r.status == 416)
  {
    MatchRangeIff("bytes=" + a + "-" + b, a, b);
  }

  /** A suffix range `bytes=-N` is read from the start of the file: it is served as the first N + 1
      bytes, not as the last N that section 2.1 of RFC 7233 gives a suffix range. */
  lemma SuffixRangeReadFromStart(path: string, ext: string, base: string, total: nat, b: string)
    requires AllDigits(b) && b != "" && DecimalValue(b) < total
    ensures var r := PlainResponse(path, ext, base, total, Some("bytes=-" + b));
      r.status == 206 && r.body == FileWindow(path, 0, DecimalValue(b))
  {
    assert "bytes=-" + b == "bytes=" + "" + "-" + b;
    RangeWindow(path, ext, base, total, "", b);
  }

  /** The first byte RFC 7233 gives a matching header: as `RangeFirst`, except that a suffix range
      `bytes=-N` starts N bytes before the end, or at 0 when the file has fewer. */
  function IntendedFirst(a: string, b: string, total: nat): nat
    requires AllDigits(a) && AllDigits(b)
  {
    if a == "" && b != "" then (if DecimalValue(b) >= total then 0 else total - DecimalValue(b))
    else RangeFirst(a)
  }

  /** The last byte RFC 7233 gives a matching header: as `RangeLast`, except that a suffix range
      ends at the last byte of the file. */
  function IntendedLast(a: string, b: string, total: nat): int
    requires AllDigits(a) && AllDigits(b)
  {
    if a == "" && b != "" then total - 1 else RangeLast(b, total)
  }

  /** The digit groups of a present, matching Range header. */
  function RangeMatch(range: Option<string>): (m: Option<(string, string)>)
    ensures m.Some? ==> AllDigits(m.value.0) && AllDigits(m.value.1)
  {
    if Truthy(range) then MatchRange(range.value) else None
  }

  /** The plain-file response with suffix ranges read as section 2.1 of RFC 7233 reads them. */
  function IntendedPlainResponse(path: string, ext: string, base: string, total: nat, range: Option<string>): Response {
    IntendedResponseFor(path, ext, base, total, RangeMatch(range))
  }

  /** The intended response given the header's digit groups, if it matched. */
  function IntendedResponseFor(path: string, ext: string, base: string, total: nat, m: Option<(string, string)>): Response
    requires m.Some? ==> AllDigits(m.value.0) && AllDigits(m.value.1)
  {
    if m.None? then
      Response(200, PlainHeaders(ext, base)[ContentLength := NatToString(total)], WholeFile(path))
    else
      WindowResponse(path, PlainHeaders(ext, base), total, IntendedFirst(m.value.0, m.value.1, total),
                     IntendedLast(m.value.0, m.value.1, total))
  }

  /** Under the intended reading a suffix range `bytes=-N` (a header matching with an empty first
      group and N as the second) serves the last min(N, total) bytes, with that many as
      Content-Length, and is refused with 416 when that is none. */
  lemma SuffixRangeServesTail(path: string, ext: string, base: string, total: nat, h: string, b: string)
    requires MatchRange(h) == Some(("", b)) && b != ""
    ensures var r := IntendedPlainResponse(path, ext, base, total, Some(h));
      var k := if DecimalValue(b) < total then DecimalValue(b) else total;
      && (k > 0 ==> r.status == 206 && r.body == FileWindow(path, total - k, total - 1)
                    && r.headers[ContentLength] == NatToString(k))
      && (k == 0 ==> r.status == 416)
  {
    MatchedNonEmpty(h);
    assert RangeMatch(Some(h)) == Some(("", b));
    SuffixTail(path, ext, base, total, b);
  }

  lemma SuffixTail(path: string, ext: string, base: string, total: nat, b: string)
    requires AllDigits(b) && b != ""
    ensures var r := IntendedResponseFor(path, ext, base, total, Some(("", b)));
      var k := if DecimalValue(b) < total then DecimalValue(b) else total;
      && (k > 0 ==> r.status == 206 && r.body == FileWindow(path, total - k, total - 1)
                    && r.headers[ContentLength] == NatToString(k))
      && (k == 0 ==> r.status == 416)
  {
    var k := if DecimalValue(b) < total then DecimalValue(b) else total;
    assert IntendedFirst("", b, total) == total - k;
    assert IntendedLast("", b, total) == total - 1;
    TailWindow(path, PlainHeaders(ext, base), total, k);
  }

  /** A matching header holds at least "bytes=-". */
  lemma MatchedNonEmpty(h: string)
    requires MatchRange(h).Some?
    ensures |h| >= 7
  {
    assert StartsWith(h, "bytes=") && Includes(h[6..], "-");
    var i := IndexOf(h[6..], "-").value;
    assert OccursAt(h[6..], "-", i);
  }

  /** The window of the last `k` bytes. */
  lemma TailWindow(path: string, headers: map<Header, string>, total: nat, k: nat)
    requires k <= total
    ensures var r := WindowResponse(path, headers, total, total - k, total - 1);
      && (k > 0 ==> r.status == 206 && r.body == FileWindow(path, total - k, total - 1)
                    && r.headers[ContentLength] == NatToString(k))
      && (k == 0 ==> r.status == 416)
  {
    if k > 0 {
      assert (total - 1) - (total - k) + 1 == k;
    }
  }

  /** Every header other than a suffix range gets the same answer under both readings. */
  lemma IntendedAgreesOtherwise(path: string, ext: string, base: string, total: nat, range: Option<string>)
    requires Truthy(range) && MatchRange(range.value).Some? ==>
      MatchRange(range.value).value.0 != "" || MatchRange(range.value).value.1 == ""
    ensures IntendedPlainResponse(path, ext, base, total, range) == PlainResponse(path, ext, base, total, range)
  {
  }

  /** A header that does not match, like `bytes=0-10,20-30` or `items=0-1`, is ignored and the whole
      file is sent. */
  lemma UnmatchedRangeIgnored(path: string, ext: string, base: string, total: nat, h: string)
    requires MatchRange(h).None?
    ensures PlainResponse(path, ext, base, total, Some(h)) == PlainResponse(path, ext, base, total, None)
  {
  }

  // ---------------------------------------------------------------------------------------------
  // The handler

  /** The index of the first extension whose file exists. */
  function FirstExisting(dayDir: string, base: string, exts: seq<string>, disk: Disk): (r: Option<nat>)
    ensures r.Some? ==> r.value < |exts| && Join(dayDir, base + exts[r.value]) in disk
    ensures r.Some? ==> forall j :: 0 <= j < r.value ==> Join(dayDir, base + exts[j]) !in disk
    ensures r.None? ==> forall j :: 0 <= j < |exts| ==> Join(dayDir, base + exts[j]) !in disk
  {
    if exts == [] then None
    else if Join(dayDir, base + exts[0]) in disk then Some(0)
    else match FirstExisting(dayDir, base, exts[1..], disk)
      case None => None
      case Some(i) => Some(i + 1)
  }

  /** `path.join(root, year, month, day)`. */
  function DayDir(root: string, q: Request): string {
    Join(Join(Join(root, q.year), q.month), q.day)
  }

  function RequestedExt(q: Request): string {
    ToLower(Extname(q.file))
  }

  function BaseName(q: Request): string {
    if RequestedExt(q) != "" then Basename(q.file, RequestedExt(q)) else q.file
  }

  function EncPath(root: string, q: Request): string {
    Join(DayDir(root, q), BaseName(q) + ENC)
  }

  /** The whole route. `decipher` says what the encrypted variant comes to. */
  function Serve(q: Request, cfg: Option<ZoomConfigDoc>, env: Option<string>, disk: Disk, decipher: (Bytes, Bytes) -> Decryption): Response {
    if !IsYear(q.year) || !IsMonthDay(q.month) || !IsMonthDay(q.day) then
      Response(400, map[], Text("Invalid date path"))
    else match RecordingsRoot(cfg, env)
      case None => Response(500, map[], Text("Download path not configured"))
      case Some(root) =>
        var encPath := EncPath(root, q);
        if encPath in disk && encPath + META in disk then
          var headers := map[ContentType := AUDIO_MPEG][ContentDisposition := Disposition(BaseName(q) + MP3)]
                            [AcceptRanges := "none"];
          match decipher(disk[encPath], disk[encPath + META])
          case BadMetadata => Response(500, map[], Text("Server error"))
          case StreamError => Response(500, headers, Text("Stream error"))
          case Streamed => Response(200, headers, DecryptedStream(encPath))
        else ServeCandidates(DayDir(root, q), BaseName(q), TryExts(RequestedExt(q)), disk, q.range)
  }

  /** The plain-file part of the route: the first candidate that exists is served, else 404. */
  function ServeCandidates(dayDir: string, base: string, exts: seq<string>, disk: Disk, range: Option<string>): Response {
    match FirstExisting(dayDir, base, exts, disk)
    case None => Response(404, map[], Text("Recording not found"))
    case Some(i) =>
      var path := Join(dayDir, base + exts[i]);
      PlainResponse(path, exts[i], base, |disk[path]|, range)
  }

  /** Past validation, root resolution and the encrypted check, the first candidate file that
      exists is served. */
  lemma FirstExistingServed(q: Request, cfg: Option<ZoomConfigDoc>, env: Option<string>, disk: Disk, decipher: (Bytes, Bytes) -> Decryption,
                            root: string, i: nat)
    requires IsYear(q.year) && IsMonthDay(q.month) && IsMonthDay(q.day)
    requires RecordingsRoot(cfg, env) == Some(root)
    requires !(EncPath(root, q) in disk && EncPath(root, q) + META in disk)
    requires FirstExisting(DayDir(root, q), BaseName(q), TryExts(RequestedExt(q)), disk) == Some(i)
    ensures var ext := TryExts(RequestedExt(q))[i];
      var path := Join(DayDir(root, q), BaseName(q) + ext);
      Serve(q, cfg, env, disk, decipher) == PlainResponse(path, ext, BaseName(q), |disk[path]|, q.range)
  {
  }

  /** A malformed date is refused with 400 before the configuration or the disk is consulted. */
  lemma BadDateRefused(q: Request, cfg1: Option<ZoomConfigDoc>, env1: Option<string>, disk1: Disk, decipher1: (Bytes, Bytes) -> Decryption,
                       cfg2: Option<ZoomConfigDoc>, env2: Option<string>, disk2: Disk, decipher2: (Bytes, Bytes) -> Decryption)
    requires !IsYear(q.year) || !IsMonthDay(q.month) || !IsMonthDay(q.day)
    ensures Serve(q, cfg1, env1, disk1, decipher1).status == 400
    ensures Serve(q, cfg1, env1, disk1, decipher1) == Serve(q, cfg2, env2, disk2, decipher2)
  {
  }

  /** Without a configured or environment download path the answer is 500. */
  lemma NoRootRefused(q: Request, cfg: Option<ZoomConfigDoc>, env: Option<string>, disk: Disk, decipher: (Bytes, Bytes) -> Decryption)
    requires IsYear(q.year) && IsMonthDay(q.month) && IsMonthDay(q.day)
    requires !(cfg.Some? && Truthy(cfg.value.downloadPath)) && !Truthy(env)
    ensures Serve(q, cfg, env, disk, decipher) == Response(500, map[], Text("Download path not configured"))
  {
  }

  /** With both the encrypted file and its metadata present and usable, the encrypted variant is
      answered as MPEG audio without range support: the decrypted stream with 200, or 500 "Stream
      error" when the pipeline fails before its first byte. The Range header makes no difference. */
  lemma EncryptedIgnoresRange(q: Request, cfg: Option<ZoomConfigDoc>, env: Option<string>, disk: Disk, decipher: (Bytes, Bytes) -> Decryption,
                              other: Option<string>)
    requires IsYear(q.year) && IsMonthDay(q.month) && IsMonthDay(q.day)
    requires RecordingsRoot(cfg, env).Some?
    requires var p := EncPath(RecordingsRoot(cfg, env).value, q);
      p in disk && p + META in disk && decipher(disk[p], disk[p + META]) != BadMetadata
    ensures var p := EncPath(RecordingsRoot(cfg, env).value, q);
      var r := Serve(q, cfg, env, disk, decipher);
      && r.headers[ContentType] == AUDIO_MPEG && r.headers[AcceptRanges] == "none"
      && (decipher(disk[p], disk[p + META]) == Streamed ==> r.status == 200 && r.body == DecryptedStream(p))
      && (decipher(disk[p], disk[p + META]) == StreamError ==> r.status == 500 && r.body == Text("Stream error"))
    ensures Serve(q, cfg, env, disk, decipher) == Serve(q.(range := other), cfg, env, disk, decipher)
  {
  }

  /** Without a requested extension ".mp3" is preferred to ".wav"; the ".wav" file is served only
      when no ".mp3" exists; with neither the answer is 404. */
  lemma Mp3Preferred(q: Request, cfg: Option<ZoomConfigDoc>, env: Option<string>, disk: Disk, decipher: (Bytes, Bytes) -> Decryption)
    requires IsYear(q.year) && IsMonthDay(q.month) && IsMonthDay(q.day)
    requires RecordingsRoot(cfg, env).Some? && Extname(q.file) == ""
    requires var p := EncPath(RecordingsRoot(cfg, env).value, q); !(p in disk && p + META in disk)
    ensures var dir := DayDir(RecordingsRoot(cfg, env).value, q);
      var mp3, wav := Join(dir, q.file + MP3), Join(dir, q.file + WAV);
      var r := Serve(q, cfg, env, disk, decipher);
      && (mp3 in disk ==> r == PlainResponse(mp3, MP3, q.file, |disk[mp3]|, q.range))
      && (mp3 !in disk && wav in disk ==> r == PlainResponse(wav, WAV, q.file, |disk[wav]|, q.range))
      && (mp3 !in disk && wav !in disk ==> r.status == 404)
  {
    var root := RecordingsRoot(cfg, env).value;
    var dir := DayDir(root, q);
    assert ToLower("") == "";
    assert BaseName(q) == q.file;
    assert RequestedExt(q) == "" && TryExts(RequestedExt(q)) == [MP3, WAV];
    if Join(dir, q.file + MP3) !in disk && Join(dir, q.file + WAV) in disk {
      assert [MP3, WAV][0] == MP3 && [MP3, WAV][1..] == [WAV];
      assert FirstExisting(dir, q.file, [WAV], disk) == Some(0);
      assert FirstExisting(dir, q.file, [MP3, WAV], disk) == Some(1);
    }
  }

  /** A requested extension is the only one tried: when that file is missing the answer is 404,
      even if the other format exists. */
  lemma RequestedExtOnly(q: Request, cfg: Option<ZoomConfigDoc>, env: Option<string>, disk: Disk, decipher: (Bytes, Bytes) -> Decryption)
    requires IsYear(q.year) && IsMonthDay(q.month) && IsMonthDay(q.day)
    requires RecordingsRoot(cfg, env).Some? && RequestedExt(q) != ""
    requires var p := EncPath(RecordingsRoot(cfg, env).value, q); !(p in disk && p + META in disk)
    ensures var file := Join(DayDir(RecordingsRoot(cfg, env).value, q), BaseName(q) + RequestedExt(q));
      var r := Serve(q, cfg, env, disk, decipher);
      && (file in disk ==> r == PlainResponse(file, RequestedExt(q), BaseName(q), |disk[file]|, q.range))
      && (file !in disk ==> r == Response(404, map[], Text("Recording not found")))
  {
    var root := RecordingsRoot(cfg, env).value;
    var dir, ext := DayDir(root, q), RequestedExt(q);
    assert TryExts(ext) == [ext];
    assert Serve(q, cfg, env, disk, decipher) == ServeCandidates(dir, BaseName(q), [ext], disk, q.range);
    assert [ext][1..] == [];
    assert FirstExisting(dir, BaseName(q), [ext][1..], disk) == None;
  }

  /** Joining onto a fixed directory tells non-empty names apart. */
  lemma JoinInjective(dir: string, x: string, y: string)
    requires x != "" && y != "" && Join(dir, x) == Join(dir, y)
    ensures x == y
  {
    if dir != "" && EndsWith(dir, "/") {
      assert (dir + x)[|dir|..] == x && (dir + y)[|dir|..] == y;
    } else if dir != "" {
      assert (dir + "/" + x)[|dir| + 1..] == x && (dir + "/" + y)[|dir| + 1..] == y;
    }
  }

  /** The served file is labelled audio/wav exactly when it is the ".wav" file of the name, and
      audio/mpeg otherwise, whichever candidate is served. */
  lemma ServedTypeMatchesFile(dayDir: string, base: string, exts: seq<string>, disk: Disk, range: Option<string>)
    requires forall j :: 0 <= j < |exts| ==> exts[j] != ""
    ensures var r := ServeCandidates(dayDir, base, exts, disk, range);
      && (r.status == 404 <==> FirstExisting(dayDir, base, exts, disk).None?)
      && (r.status != 404 ==>
            var served := Join(dayDir, base + exts[FirstExisting(dayDir, base, exts, disk).value]);
            && r.headers[ContentType] in {AUDIO_WAV, AUDIO_MPEG}
            && (r.headers[ContentType] == AUDIO_WAV <==> served == Join(dayDir, base + WAV)))
  {
    var f := FirstExisting(dayDir, base, exts, disk);
    if f.Some? {
      var ext := exts[f.value];
      var path := Join(dayDir, base + ext);
      WindowInBounds(path, ext, base, |disk[path]|, range);
      if path == Join(dayDir, base + WAV) {
        JoinInjective(dayDir, base + ext, base + WAV);
        assert (base + ext)[|base|..] == ext && (base + WAV)[|base|..] == WAV;
      }
    }
  }

  /** An extension with a capital letter stays on the name: the extension is lower-cased before
      the case-sensitive suffix removal, so the only candidate looked up is the whole file name
      followed by the lower-cased extension (`abc.MP3` is searched for as `abc.MP3.mp3`). */
  lemma UpperCaseExtensionKept(q: Request)
    requires Extname(q.file) != "" && ToLower(Extname(q.file)) != Extname(q.file)
    ensures BaseName(q) == q.file
    ensures TryExts(RequestedExt(q)) == [ToLower(Extname(q.file))]
  {
    var e := Extname(q.file);
    var lower := ToLower(e);
    assert q.file[|q.file| - |e|..] == e;
    assert !EndsWith(q.file, lower);
  }

  /** The name the route evidently means to look up: the file name without the extension it was
      given, whatever its case. */
  function IntendedBaseName(q: Request): (base: string)
    ensures Extname(q.file) != "" ==> base + Extname(q.file) == q.file
    ensures Extname(q.file) == "" ==> base == q.file
  {
    var e := Extname(q.file);
    if e != "" then Basename(q.file, e) else q.file
  }

  /** The intended name agrees with the route's for a lower-case extension, and for any extension
      the file looked up is the name with its extension lower-cased (`abc.MP3` as `abc.mp3`). */
  lemma IntendedBaseNameLowersExtension(q: Request)
    ensures ToLower(Extname(q.file)) == Extname(q.file) ==> IntendedBaseName(q) == BaseName(q)
    ensures Extname(q.file) != "" ==>
      IntendedBaseName(q) + RequestedExt(q) == q.file[..|q.file| - |Extname(q.file)|] + ToLower(Extname(q.file))
  {
    var e := Extname(q.file);
    if e != "" {
      assert IntendedBaseName(q) + e == q.file;
      assert IntendedBaseName(q) == q.file[..|q.file| - |e|];
    }
  }

  /** `abc.MP3` as the route reads it and as it is evidently meant. */
  lemma UpperCaseExample(q: Request)
    requires q.file == "abc.MP3"
    ensures BaseName(q) == "abc.MP3" && RequestedExt(q) == MP3
    ensures IntendedBaseName(q) + RequestedExt(q) == "abc.mp3"
  {
    assert LastDot("abc.MP3") == Some(3) by {
      assert "abc.MP3"[..6] == "abc.MP";
      assert "abc.MP"[..5] == "abc.M";
      assert "abc.M"[..4] == "abc.";
    }
    assert "abc.MP3"[3..] == ".MP3";
    assert ToLower(".MP3") == MP3;
    UpperCaseExtensionKept(q);
    IntendedBaseNameLowersExtension(q);
    assert "abc.MP3"[..3] == "abc";
  }

  // ---------------------------------------------------------------------------------------------
  // The handler, writing its response step by step

  /** Express's `res`: the status, headers and body the handler sets. */
  class ResponseWriter {
    var statusCode: int
    var headers: map<Header, string>
    var body: Body

    function Snapshot(): Response
      reads this
    {
      Response(statusCode, headers, body)
    }

    constructor ()
      ensures Snapshot() == FRESH
    {
      statusCode, headers, body := 200, map[], NoBody;
    }

    /** `res.setHeader(name, value)`. */
    method SetHeader(name: Header, value: string)
      modifies this
      ensures Snapshot() == old(Snapshot()).(headers := old(headers)[name := value])
    {
      headers := headers[name := value];
    }

    /** `res.status(code).send(...)` and `.end()`: the status and the body. */
    method Send(code: int, b: Body)
      modifies this
      ensures Snapshot() == old(Snapshot()).(status := code, body := b)
    {
      statusCode, body := code, b;
    }
  }

  /** One plain file: the three headers, then the range, the whole file or 416. */
  method ServePlain(res: ResponseWriter, path: string, ext: string, base: string, total: nat, range: Option<string>)
    requires res.Snapshot() == FRESH
    modifies res
    ensures res.Snapshot() == PlainResponse(path, ext, base, total, range)
  {
    res.SetHeader(ContentType, ContentTypeFor(ext));
    res.SetHeader(ContentDisposition, Disposition(base + ext));
    res.SetHeader(AcceptRanges, "bytes");
    if Truthy(range) {
      var m := MatchRange(range.value);
      if m.Some? {
        var (a, b) := m.value;
        SendWindow(res, path, total, RangeFirst(a), RangeLast(b, total));
        return;
      }
    }
    res.SetHeader(ContentLength, NatToString(total));
    res.Send(200, WholeFile(path));
  }

  /** The range branch: 416 for a window outside the file, or 206 with the window and its length. */
  method SendWindow(res: ResponseWriter, path: string, total: nat, first: nat, last: int)
    requires res.statusCode == 200 && res.body == NoBody
    modifies res
    ensures res.Snapshot() == WindowResponse(path, old(res.headers), total, first, last)
  {
    if first > last || last >= total {
      res.SetHeader(ContentRange, "bytes */" + NatToString(total));
      res.Send(416, NoBody);
      return;
    }
    res.SetHeader(ContentRange, "bytes " + NatToString(first) + "-" + NatToString(last) + "/" + NatToString(total));
    res.SetHeader(ContentLength, NatToString(last - first + 1));
    res.Send(206, FileWindow(path, first, last));
  }

  /** The GET handler. */
  method HandleGet(q: Request, cfg: Option<ZoomConfigDoc>, env: Option<string>, disk: Disk, decipher: (Bytes, Bytes) -> Decryption,
                   res: ResponseWriter)
    requires res.Snapshot() == FRESH
    modifies res
    ensures res.Snapshot() == Serve(q, cfg, env, disk, decipher)
  {
    if !IsYear(q.year) || !IsMonthDay(q.month) || !IsMonthDay(q.day) {
      res.Send(400, Text("Invalid date path"));
      return;
    }
    var root := RecordingsRoot(cfg, env);
    if root.None? {
      res.Send(500, Text("Download path not configured"));
      return;
    }
    var dayDir := DayDir(root.value, q);
    var baseName := BaseName(q);
    var encPath := Join(dayDir, baseName + ENC);
    var metaPath := encPath + META;
    if encPath in disk && metaPath in disk {
      var outcome := decipher(disk[encPath], disk[metaPath]);
      if outcome == BadMetadata {
        res.Send(500, Text("Server error"));
        return;
      }
      res.SetHeader(ContentType, AUDIO_MPEG);
      res.SetHeader(ContentDisposition, Disposition(baseName + MP3));
      res.SetHeader(AcceptRanges, "none");
      if outcome == StreamError {
        res.Send(500, Text("Stream error"));
      } else {
        res.Send(200, DecryptedStream(encPath));
      }
      return;
    }
    ServeFirstExisting(res, dayDir, baseName, TryExts(RequestedExt(q)), disk, q.range);
  }

  /** The loop over the candidate extensions: the first file that exists is served. */
  method ServeFirstExisting(res: ResponseWriter, dayDir: string, baseName: string, tryExts: seq<string>, disk: Disk,
                            range: Option<string>)
    requires res.Snapshot() == FRESH
    modifies res
    ensures res.Snapshot() == ServeCandidates(dayDir, baseName, tryExts, disk, range)
  {
    for i := 0 to |tryExts|
      invariant res.Snapshot() == FRESH
      invariant forall j :: 0 <= j < i ==> Join(dayDir, baseName + tryExts[j]) !in disk
    {
      var plainPath := Join(dayDir, baseName + tryExts[i]);
      if plainPath !in disk {
        continue;
      }
      assert FirstExisting(dayDir, baseName, tryExts, disk) == Some(i);
      assert ServeCandidates(dayDir, baseName, tryExts, disk, range)
          == PlainResponse(plainPath, tryExts[i], baseName, |disk[plainPath]|, range);
      ServePlain(res, plainPath, tryExts[i], baseName, |disk[plainPath]|, range);
      return;
    }
    assert FirstExisting(dayDir, baseName, tryExts, disk).None?;
    res.Send(404, Text("Recording not found"));
  }
}
