/** The recording selection of `getRecording` (utils/zoom.js): from the recordings listed for an
    engagement, the first voice entry is taken, or else the first entry; the entry must name a
    download location; the local file name and the start time and duration of the recording are
    derived with fallbacks. */
module Recording {
  import opened Common
  import opened EngagementModel
  import opened Retry

  const VOICE: string := "voice"
  const DEFAULT_EXT: string := ".mp3"

  /** One entry of the `recordings` array the recordings endpoint returns. `startTime` is the
      `start_time` string already read as a date. */
  datatype RecordingEntry = RecordingEntry(
    channel: Option<string>,
    downloadUrl: Option<string>,
    url: Option<string>,
    fileExtension: Option<string>,
    startTime: Option<Instant>,
    duration: Option<int>,
    transcriptUrl: Option<string>)

  /** The body of the recordings endpoint's response. */
  datatype RecordingsResponse = RecordingsResponse(
    recordings: Option<seq<RecordingEntry>>,
    startTime: Option<Instant>,
    duration: Option<int>)

  /** What `getRecording` hands back to the ingestion run. */
  datatype RecordingInfo = RecordingInfo(
    downloadUrl: string,
    fileName: string,
    startTime: Instant,
    duration: int,
    recording: RecordingEntry)

  predicate IsVoice(e: RecordingEntry) {
    e.channel == Some(VOICE)
  }

  /** `recordings.findIndex(r => r.channel === "voice")`, as an optional index. */
  function FindVoice(recs: seq<RecordingEntry>): (r: Option<nat>)
    ensures r.Some? ==> r.value < |recs| && IsVoice(recs[r.value])
    ensures r.Some? ==> forall j :: 0 <= j < r.value ==> !IsVoice(recs[j])
    ensures r.None? <==> forall j :: 0 <= j < |recs| ==> !IsVoice(recs[j])
  {
    if recs == [] then None
    else if IsVoice(recs[0]) then Some(0)
    else match FindVoice(recs[1..])
      case None => None
      case Some(i) => Some(i + 1)
  }

  /** `res.data.recordings || []`: an array, even an empty one, is kept. */
  function Listed(resp: RecordingsResponse): seq<RecordingEntry> {
    if resp.recordings.Some? then resp.recordings.value else []
  }

  /** `recordings.find(r => r.channel === "voice") || recordings[0]`. */
  function Chosen(recs: seq<RecordingEntry>): (r: Option<RecordingEntry>)
    ensures r.None? <==> recs == []
    ensures r.Some? ==> r.value in recs
    ensures r.Some? && (exists j :: 0 <= j < |recs| && IsVoice(recs[j])) ==> IsVoice(r.value)
    ensures r.Some? && (forall j :: 0 <= j < |recs| ==> !IsVoice(recs[j])) ==> r.value == recs[0]
  {
    match FindVoice(recs)
    case Some(i) => Some(recs[i])
    case None => if recs == [] then None else Some(recs[0])
  }

  /** `rec.file_extension ? "." + rec.file_extension : ".mp3"`. */
  function Extension(rec: RecordingEntry): (ext: string)
    ensures |ext| >= 2 && ext[0] == '.'
  {
    if Truthy(rec.fileExtension) then "." + rec.fileExtension.value else DEFAULT_EXT
  }

  /** The selection applied to one successful response; `now` is the clock at that attempt. Both
      errors are thrown locally and so carry no HTTP status. */
  function Select(resp: RecordingsResponse, id: string, now: Instant): (r: Outcome<RecordingInfo>)
    ensures r.Err? ==> r.status.None?
    ensures r.Err? <==> Listed(resp) == [] || !Truthy(Or(Chosen(Listed(resp)).value.downloadUrl, Chosen(Listed(resp)).value.url))
  {
    match Chosen(Listed(resp))
    case None => Err(None, "No recording entries found for engagement")
    case Some(rec) =>
      var dl := Or(rec.downloadUrl, rec.url);
      if !Truthy(dl) then Err(None, "Recording has no download_url")
      else
        var start := if rec.startTime.Some? then rec.startTime.value
                     else if resp.startTime.Some? then resp.startTime.value
                     else now;
        var duration := if TruthyNum(rec.duration) then rec.duration.value else NumOr(resp.duration, 0);
        Ok(RecordingInfo(dl.value, id + Extension(rec), start, duration, rec))
  }

  /** A successful selection is a listed entry, preferably a voice one, with a non-empty download
      location taken from `download_url` or else `url`, and a file name made of the engagement id
      and a dotted extension. */
  lemma SelectOk(resp: RecordingsResponse, id: string, now: Instant)
    requires Select(resp, id, now).Ok?
    ensures var info := Select(resp, id, now).value;
      && info.recording in Listed(resp)
      && ((exists j :: 0 <= j < |Listed(resp)| && IsVoice(Listed(resp)[j])) ==> IsVoice(info.recording))
      && info.downloadUrl != ""
      && (if Truthy(info.recording.downloadUrl) then Some(info.downloadUrl) == info.recording.downloadUrl
          else Some(info.downloadUrl) == info.recording.url)
      && StartsWith(info.fileName, id)
      && info.fileName[|id|..] == Extension(info.recording)
      && EndsWith(info.fileName, Extension(info.recording))
  {
    var info := Select(resp, id, now).value;
    assert info.fileName == id + Extension(info.recording);
    assert info.fileName[..|id|] == id;
  }

  /** The start time falls back from the entry to the response to the clock, and the duration
      from the entry to the response to 0. */
  lemma SelectFallbacks(resp: RecordingsResponse, id: string, now: Instant)
    requires Select(resp, id, now).Ok?
    ensures var info := Select(resp, id, now).value;
      && info.startTime == (if info.recording.startTime.Some? then info.recording.startTime.value
                            else if resp.startTime.Some? then resp.startTime.value else now)
      && (TruthyNum(info.recording.duration) ==> info.duration == info.recording.duration.value)
      && (!TruthyNum(info.recording.duration) && TruthyNum(resp.duration) ==> info.duration == resp.duration.value)
      && (!TruthyNum(info.recording.duration) && !TruthyNum(resp.duration) ==> info.duration == 0)
  {
  }

  /** One attempt of `getRecording`: a failed request keeps its status, a response is selected. */
  function RecordingAttempt(resp: Outcome<RecordingsResponse>, id: string, now: Instant): Outcome<RecordingInfo> {
    match resp
    case Err(status, message) => Err(status, message)
    case Ok(body) => Select(body, id, now)
  }

  /** The attempts of `getRecording`, numbered from 1; `fetch(k)` is the k-th request's outcome. */
  function RecordingAttempts(fetch: nat -> Outcome<RecordingsResponse>, id: string, now: Instant)
    : nat -> Outcome<RecordingInfo>
  {
    (k: nat) => RecordingAttempt(fetch(k), id, now)
  }

  /** An empty listing, or an entry without a download location, is retried like a 404: the
      locally thrown error has no status. */
  lemma LocalErrorsRetried(resp: RecordingsResponse, id: string, now: Instant)
    requires Listed(resp) == [] || !Truthy(Or(Chosen(Listed(resp)).value.downloadUrl, Chosen(Listed(resp)).value.url))
    ensures Retries(RecordingAttempt(Ok(resp), id, now))
  {
  }

  /** `getRecording(accessToken, engagementId)` with its retries; the caller sees the last
      attempt's outcome. */
  method GetRecording(fetch: nat -> Outcome<RecordingsResponse>, id: string, now: Instant)
    returns (r: Outcome<RecordingInfo>, attempts: nat, waits: seq<nat>)
    ensures r == Retried(RecordingAttempts(fetch, id, now))
    ensures 1 <= attempts <= MAX_ATTEMPTS && |waits| == attempts - 1
    ensures forall i :: 0 <= i < |waits| ==> waits[i] == RECORDING_WAIT_MS
    ensures r.Ok? ==> exists k :: 1 <= k <= attempts && fetch(k).Ok? && r == Select(fetch(k).value, id, now)
  {
    r, attempts, waits := WithRetry(RecordingAttempts(fetch, id, now), RECORDING_WAIT_MS);
    assert RecordingAttempts(fetch, id, now)(attempts) == RecordingAttempt(fetch(attempts), id, now);
  }
}
