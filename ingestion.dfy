/** `handleEngagementEnded` (utils/zoom.js): the ingestion run for one ended engagement. It skips an
    engagement already stored with its file on disk; otherwise it obtains a token, fetches the
    engagement and its recording, stores the audio under a date-sharded path unless that file
    exists, fetches and parses the transcript when there is one, and upserts the record. */
module Ingestion {
  import opened Common
  import opened EngagementModel
  import opened Retry
  import opened Recording
  import opened TokenCache
  import opened EngagementFields
  import opened TranscriptParser

  /** The file system: file path to contents. */
  type Disk = map<string, Bytes>

  /** The stored engagements and the files beside them. */
  datatype World = World(db: Store, disk: Disk)

  /** Zoom's API as the run sees it. `recordings` and `transcript` take the attempt number, so that
      each retry may see a different answer. */
  datatype ZoomApi = ZoomApi(
    exchange: Credentials -> Outcome<TokenGrant>,
    engagement: (string, string) -> Outcome<EngagementData>,
    recordings: (string, string, nat) -> Outcome<RecordingsResponse>,
    transcript: (string, string, nat) -> Outcome<string>,
    download: (string, string) -> Outcome<Bytes>)

  const RECORDINGS_DIR: string := "recordings"

  // ---------------------------------------------------------------------------------------------
  // The date-sharded layout

  /** `String(getFullYear())`. */
  function YearSegment(d: CalendarDate): string {
    NatToString(d.year)
  }

  /** `String(getMonth() + 1).padStart(2, "0")`; the month is already counted from 1. */
  function MonthSegment(d: CalendarDate): string {
    Pad2(d.month)
  }

  /** `String(getDate()).padStart(2, "0")`. */
  function DaySegment(d: CalendarDate): string {
    Pad2(d.day)
  }

  /** `cfg?.downloadPath || ""`, where `cfg` is the first stored configuration, of any company. */
  function BasePath(doc: Option<ZoomConfigDoc>): string {
    if doc.Some? then OrDefault(doc.value.downloadPath, "") else ""
  }

  /** `path.join(basePath, "recordings", YYYY, MM, DD, fileName)`. */
  function LocalPath(base: string, d: CalendarDate, fileName: string): (p: string)
    ensures fileName != "" ==> EndsWith(p, fileName)
  {
    var p := Join(Join(Join(Join(Join(base, RECORDINGS_DIR), YearSegment(d)), MonthSegment(d)), DaySegment(d)), fileName);
    JoinEndsWith(Join(Join(Join(Join(base, RECORDINGS_DIR), YearSegment(d)), MonthSegment(d)), DaySegment(d)), fileName);
    p
  }

  lemma JoinEndsWith(a: string, b: string)
    ensures EndsWith(Join(a, b), b)
  {
    if a != "" && b != "" {
      var r := Join(a, b);
      assert r[|r| - |b|..] == b;
    }
  }

  /** `/recordings/${YYYY}/${MM}/${DD}/${fileName}`. */
  function PublicUrl(d: CalendarDate, fileName: string): string {
    "/" + RECORDINGS_DIR + "/" + YearSegment(d) + "/" + MonthSegment(d) + "/" + DaySegment(d) + "/" + fileName
  }

  lemma SegmentsNonEmpty(d: CalendarDate)
    ensures YearSegment(d) != "" && MonthSegment(d) != "" && DaySegment(d) != ""
    ensures !EndsWith(YearSegment(d), "/") && !EndsWith(MonthSegment(d), "/") && !EndsWith(DaySegment(d), "/")
  {
    assert |NatToString(d.month)| >= 1 && |NatToString(d.day)| >= 1;
    assert IsDigit(YearSegment(d)[|YearSegment(d)| - 1]);
    assert IsDigit(MonthSegment(d)[|MonthSegment(d)| - 1]);
    assert IsDigit(DaySegment(d)[|DaySegment(d)| - 1]);
  }

  /** Joining two segments neither of which ends in "/" puts one separator between them. */
  lemma JoinStep(a: string, b: string)
    requires a != "" && !EndsWith(a, "/") && b != "" && !EndsWith(b, "/")
    ensures Join(a, b) == a + "/" + b && !EndsWith(Join(a, b), "/")
  {
    var r := a + "/" + b;
    assert r[|r| - 1..] == b[|b| - 1..];
  }

  /** Joining four further segments onto a directory `x`. */
  lemma JoinFour(x: string, y: string, m: string, dd: string, f: string)
    requires x != "" && !EndsWith(x, "/") && y != "" && !EndsWith(y, "/")
    requires m != "" && !EndsWith(m, "/") && dd != "" && !EndsWith(dd, "/") && f != ""
    ensures Join(Join(Join(Join(x, y), m), dd), f) == x + "/" + y + "/" + m + "/" + dd + "/" + f
  {
    JoinStep(x, y);
    JoinStep(x + "/" + y, m);
    JoinStep(x + "/" + y + "/" + m, dd);
  }

  /** The date-and-file tail shared by the local path and the public URL. */
  function DateTail(d: CalendarDate, fileName: string): string {
    "/" + YearSegment(d) + "/" + MonthSegment(d) + "/" + DaySegment(d) + "/" + fileName
  }

  /** A chain of segments joined with "/" onto `x` is `x` followed by the date tail. */
  lemma ChainIsTail(x: string, d: CalendarDate, f: string)
    ensures x + "/" + YearSegment(d) + "/" + MonthSegment(d) + "/" + DaySegment(d) + "/" + f == x + DateTail(d, f)
  {
    var y, m, dd := YearSegment(d), MonthSegment(d), DaySegment(d);
    AppendAssoc(x, "/", y);
    AppendAssoc(x, "/" + y, "/");
    AppendAssoc(x, "/" + y + "/", m);
    AppendAssoc(x, "/" + y + "/" + m, "/");
    AppendAssoc(x, "/" + y + "/" + m + "/", dd);
    AppendAssoc(x, "/" + y + "/" + m + "/" + dd, "/");
    AppendAssoc(x, "/" + y + "/" + m + "/" + dd + "/", f);
  }

  /** The public URL names the stored file with the same segments. Without a configured base
      directory the local path is the public URL without its leading "/". */
  lemma PublicUrlMatchesRelativePath(d: CalendarDate, fileName: string)
    requires fileName != ""
    ensures "/" + LocalPath("", d, fileName) == PublicUrl(d, fileName)
  {
    var y, m, dd := YearSegment(d), MonthSegment(d), DaySegment(d);
    SegmentsNonEmpty(d);
    assert Join("", RECORDINGS_DIR) == RECORDINGS_DIR;
    JoinFour(RECORDINGS_DIR, y, m, dd, fileName);
    ChainIsTail(RECORDINGS_DIR, d, fileName);
    ChainIsTail("/" + RECORDINGS_DIR, d, fileName);
    AppendAssoc("/", RECORDINGS_DIR, DateTail(d, fileName));
  }

  /** Under a base directory that does not end in a separator, the local path is the base
      followed by the public URL. */
  lemma PublicUrlMatchesLocalPath(base: string, d: CalendarDate, fileName: string)
    requires fileName != "" && base != "" && !EndsWith(base, "/")
    ensures LocalPath(base, d, fileName) == base + PublicUrl(d, fileName)
  {
    var y, m, dd := YearSegment(d), MonthSegment(d), DaySegment(d);
    var t := DateTail(d, fileName);
    SegmentsNonEmpty(d);
    JoinStep(base, RECORDINGS_DIR);
    JoinFour(base + "/" + RECORDINGS_DIR, y, m, dd, fileName);
    ChainIsTail(base + "/" + RECORDINGS_DIR, d, fileName);
    ChainIsTail("/" + RECORDINGS_DIR, d, fileName);
    AppendAssoc(base, "/", RECORDINGS_DIR);
    AppendAssoc(base, "/" + RECORDINGS_DIR, t);
  }

  // ---------------------------------------------------------------------------------------------
  // The steps of the run

  /** `existing?.localPath && fs.existsSync(existing.localPath)`. */
  predicate Processed(w: World, id: string) {
    id in w.db && w.db[id].localPath != "" && w.db[id].localPath in w.disk
  }

  /** The successive recording requests of one run. */
  function RecordingFetches(api: ZoomApi, token: string, id: string): nat -> Outcome<RecordingsResponse> {
    (k: nat) => api.recordings(token, id, k)
  }

  /** The successive transcript requests of one run. */
  function TranscriptFetches(api: ZoomApi, token: string, url: string): nat -> Outcome<string> {
    (k: nat) => api.transcript(token, url, k)
  }

  /** How `streamDownload` leaves the target when the request fails. As written it opens the write
      stream, creating an empty file, before it sends the request, and nothing removes that file;
      the corrected download leaves no file behind. */
  datatype DownloadMode = AsWritten | Corrected

  /** `streamDownload`: the fetched bytes are written to `path`. After a failed request the target
      holds an empty file as written, and is absent when corrected. */
  function StreamDownload(mode: DownloadMode, disk: Disk, path: string, fetched: Outcome<Bytes>): (r: (Outcome<string>, Disk))
    ensures r.0.Ok? <==> fetched.Ok?
    ensures r.0.Ok? ==> r.0.value == path && r.1 == disk[path := fetched.value]
    ensures r.0.Err? ==> r.0 == Err(fetched.status, fetched.message)
    ensures r.0.Err? ==> r.1 == (if mode == Corrected then disk else disk[path := []])
  {
    var before := if mode == Corrected then disk else disk[path := []];
    match fetched
    case Ok(bytes) => (Ok(path), before[path := bytes])
    case Err(s, m) => (Err(s, m), before)
  }

  /** After a failed request the download as written leaves an empty file at the target, where the
      corrected one leaves the disk as it was. */
  lemma FailedDownloadLeavesEmptyFile(disk: Disk, path: string, status: Option<int>, message: string)
    requires path !in disk
    ensures var (r, disk') := StreamDownload(AsWritten, disk, path, Err(status, message));
      r.Err? && path in disk' && disk'[path] == [] && disk'.Keys == disk.Keys + {path}
    ensures StreamDownload(Corrected, disk, path, Err(status, message)).1 == disk
  {
  }

  /** Step 2 of the run: the recording is downloaded to `path` unless a file is already there.
      Existing files are kept as they are, only `path` can be added, and a corrected failure leaves
      the disk as it was. */
  function PlaceRecording(mode: DownloadMode, disk: Disk, path: string, fetched: Outcome<Bytes>): (r: (Outcome<string>, Disk))
    ensures forall p :: p in disk ==> p in r.1 && r.1[p] == disk[p]
    ensures r.1.Keys <= disk.Keys + {path}
    ensures r.0.Err? ==> path !in disk && r.1 == (if mode == Corrected then disk else disk[path := []])
    ensures r.0.Ok? ==> r.0.value == path && path in r.1
    ensures path in disk ==> r == (Ok(path), disk)
    ensures path !in disk ==> r == StreamDownload(mode, disk, path, fetched)
  {
    if path in disk then (Ok(path), disk) else StreamDownload(mode, disk, path, fetched)
  }

  /** The transcript stored by the run: the parse of the fetched text, or nothing when the
      recording has no transcript or the fetch finally fails. */
  function TranscriptOf(api: ZoomApi, token: string, rec: RecordingEntry): (t: seq<TranscriptLine>)
    ensures !Truthy(rec.transcriptUrl) ==> t == []
  {
    if !Truthy(rec.transcriptUrl) then []
    else
      match Retried(TranscriptFetches(api, token, rec.transcriptUrl.value))
      case Ok(vtt) => Parse(vtt)
      case Err(_, _) => []
  }

  /** A transcript that cannot be fetched leaves the transcript empty; one that can is parsed, and
      then every entry has a speaker and a text. */
  lemma TranscriptTolerated(api: ZoomApi, token: string, rec: RecordingEntry)
    ensures Truthy(rec.transcriptUrl) && Retried(TranscriptFetches(api, token, rec.transcriptUrl.value)).Err? ==>
      TranscriptOf(api, token, rec) == []
    ensures Truthy(rec.transcriptUrl) && Retried(TranscriptFetches(api, token, rec.transcriptUrl.value)).Ok? ==>
      TranscriptOf(api, token, rec) == Parse(Retried(TranscriptFetches(api, token, rec.transcriptUrl.value)).value)
    ensures forall e :: e in TranscriptOf(api, token, rec) ==> NonBlank(e)
  {
    if Truthy(rec.transcriptUrl) {
      var o := Retried(TranscriptFetches(api, token, rec.transcriptUrl.value));
      if o.Ok? {
        ParseFromNonBlank(Lines(o.value), "");
      }
    }
  }

  /** The update written by `findOneAndUpdate`; `companyId` and `createdAt` are not part of it. */
  function Record(id: string, info: RecordingInfo, data: EngagementData, transcript: seq<TranscriptLine>,
                  path: string, url: string, now: Instant): Engagement
  {
    Engagement(
      None, id, OrDefault(data.direction, ""), info.startTime,
      DurationField(info.duration, info.recording.duration, data),
      NumOr(data.waitingDuration, 0), NumOr(data.handlingDuration, 0), NumOr(data.wrapUpDuration, 0),
      AgentField(data), AcceptTypeField(data),
      OrDefault(data.upgradedToChannelType, NO_VALUE), OrDefault(data.transferType, NO_VALUE),
      QueueField(data), OrDefault(Or(info.recording.channel, data.channel), ""), FlowField(data),
      DispositionField(data), ConsumerField(data), OrDefault(data.source, ""), NotesField(data),
      transcript, VoicemailField(data), ConsentField(data), info.downloadUrl, path, url,
      now.epochMs, now.epochMs)
  }

  /** The run after the token has been obtained: what it returns and the collection and disk it
      leaves. */
  function Ingest(mode: DownloadMode, id: string, token: string, api: ZoomApi, doc: Option<ZoomConfigDoc>, w: World,
                  now: Instant)
    : (Outcome<Engagement>, World)
  {
    match api.engagement(token, id)
    case Err(s, m) => (Err(s, m), w)
    case Ok(data) =>
      match Retried(RecordingAttempts(RecordingFetches(api, token, id), id, now))
      case Err(s, m) => (Err(s, m), w)
      case Ok(info) =>
        var path := LocalPath(BasePath(doc), info.startTime.local, info.fileName);
        var url := PublicUrl(info.startTime.local, info.fileName);
        var placed := PlaceRecording(mode, w.disk, path, api.download(info.downloadUrl, token));
        if placed.0.Err? then (Err(placed.0.status, placed.0.message), World(w.db, placed.1))
        else
          var u := Record(id, info, data, TranscriptOf(api, token, info.recording), path, url, now);
          var db' := Upsert(w.db, u, now);
          (Ok(db'[id]), World(db', placed.1))
  }

  /** The recording selected for a successful run, and the path and URL derived from it. */
  lemma IngestOk(mode: DownloadMode, id: string, token: string, api: ZoomApi, doc: Option<ZoomConfigDoc>, w: World, now: Instant)
    requires Ingest(mode, id, token, api, doc, w, now).0.Ok?
    ensures var info := Retried(RecordingAttempts(RecordingFetches(api, token, id), id, now));
      var (r, w') := Ingest(mode, id, token, api, doc, w, now);
      && info.Ok?
      && r.value.engagementId == id
      && r.value.localPath == LocalPath(BasePath(doc), info.value.startTime.local, info.value.fileName)
      && r.value.publicUrl == PublicUrl(info.value.startTime.local, info.value.fileName)
      && r.value.recordingUrl == info.value.downloadUrl
      && r.value.transcript == TranscriptOf(api, token, info.value.recording)
  {
  }

  /** Idempotence: a successful run leaves the engagement processed, so the next run for the same
      id returns the saved record and changes nothing. */
  lemma {:induction false} IngestMarksProcessed(mode: DownloadMode, id: string, token: string, api: ZoomApi, doc: Option<ZoomConfigDoc>,
                                               w: World, now: Instant)
    requires Ingest(mode, id, token, api, doc, w, now).0.Ok?
    ensures var (r, w') := Ingest(mode, id, token, api, doc, w, now);
      Processed(w', id) && w'.db[id] == r.value
  {
    var info := Retried(RecordingAttempts(RecordingFetches(api, token, id), id, now)).value;
    SelectNonEmptyName(RecordingFetches(api, token, id), id, now);
    var path := LocalPath(BasePath(doc), info.startTime.local, info.fileName);
    assert EndsWith(path, info.fileName);
  }

  /** The file name of any selected recording is not empty. */
  lemma SelectNonEmptyName(fetch: nat -> Outcome<RecordingsResponse>, id: string, now: Instant)
    requires Retried(RecordingAttempts(fetch, id, now)).Ok?
    ensures Retried(RecordingAttempts(fetch, id, now)).value.fileName != ""
  {
    var k := StopAttempt(RecordingAttempts(fetch, id, now));
    assert RecordingAttempts(fetch, id, now)(k) == RecordingAttempt(fetch(k), id, now);
    SelectOk(fetch(k).value, id, now);
  }

  /** No existing file is ever overwritten or removed, and at most one file is added. */
  lemma IngestPreservesFiles(mode: DownloadMode, id: string, token: string, api: ZoomApi, doc: Option<ZoomConfigDoc>, w: World, now: Instant)
    ensures var w' := Ingest(mode, id, token, api, doc, w, now).1;
      && (forall p :: p in w.disk ==> p in w'.disk && w'.disk[p] == w.disk[p])
      && |w'.disk.Keys - w.disk.Keys| <= 1
  {
    var path := IngestDisk(mode, id, token, api, doc, w, now);
    NewKeysAtMostOne(w.disk.Keys, Ingest(mode, id, token, api, doc, w, now).1.disk.Keys, path);
  }

  /** The disk after a run keeps every file of the disk before it and adds at most the one at `path`. */
  lemma IngestDisk(mode: DownloadMode, id: string, token: string, api: ZoomApi, doc: Option<ZoomConfigDoc>, w: World,
                   now: Instant)
    returns (path: string)
    ensures var d := Ingest(mode, id, token, api, doc, w, now).1.disk;
      && (forall p :: p in w.disk ==> p in d && d[p] == w.disk[p])
      && d.Keys <= w.disk.Keys + {path}
  {
    path := "";
    match api.engagement(token, id)
    case Err(_, _) =>
    case Ok(data) =>
      match Retried(RecordingAttempts(RecordingFetches(api, token, id), id, now))
      case Err(_, _) =>
      case Ok(info) =>
        path := LocalPath(BasePath(doc), info.startTime.local, info.fileName);
        var placed := PlaceRecording(mode, w.disk, path, api.download(info.downloadUrl, token));
        if placed.0.Err? {
          assert Ingest(mode, id, token, api, doc, w, now).1 == World(w.db, placed.1);
        } else {
          var u := Record(id, info, data, TranscriptOf(api, token, info.recording), path,
                          PublicUrl(info.startTime.local, info.fileName), now);
          assert Ingest(mode, id, token, api, doc, w, now).1 == World(Upsert(w.db, u, now), placed.1);
        }
  }

  /** The only file a successful run can add is the record's own recording. */
  lemma IngestAddsOnlyItsFile(mode: DownloadMode, id: string, token: string, api: ZoomApi, doc: Option<ZoomConfigDoc>, w: World, now: Instant)
    requires Ingest(mode, id, token, api, doc, w, now).0.Ok?
    ensures var (r, w') := Ingest(mode, id, token, api, doc, w, now);
      w'.disk.Keys - w.disk.Keys <= {r.value.localPath}
  {
    IngestOk(mode, id, token, api, doc, w, now);
  }

  /** With the corrected download a failed run leaves the collection and the disk as they were. */
  lemma IngestFailureChangesNothing(id: string, token: string, api: ZoomApi, doc: Option<ZoomConfigDoc>, w: World,
                                    now: Instant)
    requires Ingest(Corrected, id, token, api, doc, w, now).0.Err?
    ensures Ingest(Corrected, id, token, api, doc, w, now).1 == w
  {
  }

  /** As written, a run whose download fails leaves the collection as it was but an empty file at
      the recording's path; a run that fails earlier changes nothing. */
  lemma FailedRunLeavesEmptyFile(id: string, token: string, api: ZoomApi, doc: Option<ZoomConfigDoc>, w: World,
                                 now: Instant)
    requires Ingest(AsWritten, id, token, api, doc, w, now).0.Err?
    ensures var info := Retried(RecordingAttempts(RecordingFetches(api, token, id), id, now));
      var w' := Ingest(AsWritten, id, token, api, doc, w, now).1;
      && w'.db == w.db
      && (api.engagement(token, id).Ok? && info.Ok? ==>
            var path := LocalPath(BasePath(doc), info.value.startTime.local, info.value.fileName);
            path !in w.disk && w'.disk == w.disk[path := []])
      && (api.engagement(token, id).Err? || info.Err? ==> w'.disk == w.disk)
  {
  }

  /** As written, the next run for the same recording after such a failure finds the empty file,
      skips the download and saves a record whose `localPath` is that empty file; the engagement
      then counts as processed, so no later run downloads it. */
  lemma RetryAfterFailedDownload(id: string, token: string, api: ZoomApi, doc: Option<ZoomConfigDoc>, w: World,
                                 now: Instant, later: Instant)
    requires Ingest(AsWritten, id, token, api, doc, w, now).0.Err?
    requires api.engagement(token, id).Ok?
    requires Retried(RecordingAttempts(RecordingFetches(api, token, id), id, now)).Ok?
    requires Retried(RecordingAttempts(RecordingFetches(api, token, id), id, later))
          == Retried(RecordingAttempts(RecordingFetches(api, token, id), id, now))
    ensures var info := Retried(RecordingAttempts(RecordingFetches(api, token, id), id, now)).value;
      var path := LocalPath(BasePath(doc), info.startTime.local, info.fileName);
      var w1 := Ingest(AsWritten, id, token, api, doc, w, now).1;
      var (r2, w2) := Ingest(AsWritten, id, token, api, doc, w1, later);
      && r2.Ok? && r2.value.localPath == path
      && w2.disk == w1.disk && w2.disk[path] == []
      && Processed(w2, id)
  {
    var info := Retried(RecordingAttempts(RecordingFetches(api, token, id), id, now)).value;
    var path := LocalPath(BasePath(doc), info.startTime.local, info.fileName);
    var w1 := Ingest(AsWritten, id, token, api, doc, w, now).1;
    assert path in w1.disk;
    assert PlaceRecording(AsWritten, w1.disk, path, api.download(info.downloadUrl, token)) == (Ok(path), w1.disk);
    IngestMarksProcessed(AsWritten, id, token, api, doc, w1, later);
  }

  lemma NewKeysAtMostOne(before: set<string>, after: set<string>, path: string)
    requires after - before <= {path}
    ensures |after - before| <= 1
  {
    if path in after - before {
      assert after - before == {path};
    } else {
      assert after - before == {};
    }
  }

  /** Only the engagement's own record changes, and the collection stays keyed by id. */
  lemma IngestTouchesOneRecord(mode: DownloadMode, id: string, token: string, api: ZoomApi, doc: Option<ZoomConfigDoc>, w: World, now: Instant)
    ensures var (r, w') := Ingest(mode, id, token, api, doc, w, now);
      && w'.db.Keys <= w.db.Keys + {id}
      && (forall k :: k in w.db && k != id ==> w'.db[k] == w.db[k])
      && (KeyedById(w.db) ==> KeyedById(w'.db))
  {
  }

  /** Step 2 of the run as written: the download happens only when no file exists at the target,
      and the target is created empty before the request is sent. */
  method DownloadIfAbsent(disk: Disk, path: string, fetch: () -> Outcome<Bytes>)
    returns (dl: Outcome<string>, disk': Disk)
    ensures (dl, disk') == PlaceRecording(AsWritten, disk, path, fetch())
  {
    if path in disk {
      return Ok(path), disk;
    }
    disk' := disk[path := []];
    var fetched := fetch();
    if fetched.Err? {
      return Err(fetched.status, fetched.message), disk';
    }
    dl, disk' := Ok(path), disk'[path := fetched.value];
  }

  /** The transcript step: fetched with retries when the recording names one, then parsed. */
  method FetchTranscript(api: ZoomApi, token: string, rec: RecordingEntry) returns (transcript: seq<TranscriptLine>)
    ensures transcript == TranscriptOf(api, token, rec)
  {
    transcript := [];
    if Truthy(rec.transcriptUrl) {
      var vtt, _, _ := WithRetry(TranscriptFetches(api, token, rec.transcriptUrl.value), TRANSCRIPT_WAIT_MS);
      if vtt.Ok? {
        transcript := ParseTranscript(vtt.value);
      }
    }
  }

  /** The run from the engagement request on, with the token obtained. */
  method IngestWithToken(id: string, token: string, api: ZoomApi, doc: Option<ZoomConfigDoc>, db: Store, disk: Disk,
                         now: Instant)
    returns (r: Outcome<Engagement>, db': Store, disk': Disk)
    ensures (r, World(db', disk')) == Ingest(AsWritten, id, token, api, doc, World(db, disk), now)
  {
    var data := api.engagement(token, id);
    if data.Err? {
      return Err(data.status, data.message), db, disk;
    }
    var rec, _, _ := GetRecording(RecordingFetches(api, token, id), id, now);
    if rec.Err? {
      return Err(rec.status, rec.message), db, disk;
    }
    var info := rec.value;
    var absPath := LocalPath(BasePath(doc), info.startTime.local, info.fileName);
    var publicUrl := PublicUrl(info.startTime.local, info.fileName);
    var dl;
    dl, disk' := DownloadIfAbsent(disk, absPath, () => api.download(info.downloadUrl, token));
    if dl.Err? {
      return Err(dl.status, dl.message), db, disk';
    }
    var transcript := FetchTranscript(api, token, info.recording);
    db' := Upsert(db, Record(id, info, data.value, transcript, absPath, publicUrl, now), now);
    r := Ok(db'[id]);
  }

  /** `handleEngagementEnded(engagementId)`: `db`, `disk`, `doc` (the first stored configuration, of any company), the
      cipher's `decrypt`, `api` and `now` stand for the database, the file system, the
      configuration collection, utils/crypto.js, Zoom and the clock. */
  method HandleEngagementEnded(session: ZoomSession, id: string, db: Store, disk: Disk, doc: Option<ZoomConfigDoc>,
                               decrypt: string -> Option<string>, api: ZoomApi, now: Instant)
    returns (r: Outcome<Engagement>, db': Store, disk': Disk)
    modifies session
    ensures Processed(World(db, disk), id) ==>
      r == Ok(db[id]) && db' == db && disk' == disk && session.State() == old(session.State())
    ensures !Processed(World(db, disk), id) ==>
      var (t, c) := AccessToken(old(session.State()), now.epochMs, doc, decrypt, api.exchange);
      && session.State() == c
      && (t.Err? ==> r == Err(t.status, t.message) && db' == db && disk' == disk)
      && (t.Ok? ==> (r, World(db', disk')) == Ingest(AsWritten, id, t.value, api, doc, World(db, disk), now))
  {
    if id in db && db[id].localPath != "" && db[id].localPath in disk {
      return Ok(db[id]), db, disk;
    }
    var t, _ := session.GetAccessToken(now.epochMs, doc, decrypt, api.exchange);
    if t.Err? {
      return Err(t.status, t.message), db, disk;
    }
    r, db', disk' := IngestWithToken(id, t.value, api, doc, db, disk, now);
  }
}
