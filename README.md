# Zoom Contact Center recording backend, modelled in Dafny

This project models the decision and transformation logic of an Express backend for Zoom
Contact Center recordings. The backend does five things:

- It receives the `contact_center.engagement_ended` webhook.
- It obtains an OAuth access token from a cache, fetching a new one when the cached token has expired.
- It fetches the engagement and its recordings, retrying while Zoom reports them not ready.
- It downloads the audio into a date-sharded directory, parses the WebVTT transcript, and
  upserts one engagement record per `engagementId`.
- It serves the stored audio back, with byte ranges.

Around this core sit the CORS origin policy, the bearer-token middleware, signup and login, the
masked configuration routes, and the role-based listing of engagements.

Network calls, the database, the disk, the clock and the cipher are inputs to the model:

- Each HTTP call is a function returning `Ok(data)` or `Err(status, message)`.
- The disk is a map from path to bytes, and the database a map keyed by the unique id.
- The cipher is a pair of functions, with the authenticated-encryption promise as a predicate.

Code that changes state step by step is modelled imperatively:

- The module-level token cache of `utils/zoom.js` is the class `TokenCache.ZoomSession`.
- The transcript loop, the retry loop and the ingestion run are methods.
- The delivery handler writes to a `Delivery.ResponseWriter` object.

Each method is proved equal to a specification function, and the properties are proved about
those functions.

Modules:

| module | file | models |
|---|---|---|
| `Common` | common.dfy | JavaScript truthiness, `trim`, `split`, `indexOf`, digits, `path.join` |
| `Envelope` | envelope.dfy | utils/crypto.js |
| `EngagementModel` | engagement.dfy | models/Engagement.js and the keyed upsert |
| `Retry` | retry.dfy | the bounded retry of `getRecording` and `fetchTranscriptWithRetry` |
| `Recording` | recording.dfy | `getRecording`'s selection |
| `TranscriptParser` | transcript.dfy | the cue loop in `handleEngagementEnded` |
| `TokenCache` | token.dfy | `loadZoomConfig` and `getAccessToken` |
| `EngagementFields` | fields.dfy | the derived record fields |
| `Ingestion` | ingestion.dfy | `handleEngagementEnded` and `streamDownload` |
| `Delivery` | delivery.dfy | routes/recordingRoutes.js |
| `IngestDeliver` | roundtrip.dfy | ingestion and delivery combined |
| `Webhooks` | webhooks.dfy | routes/webhookRoutes.js and routes/zoomRoutes.js |
| `Cors` | cors.dfy | the origin policy and the error handler of server.js |
| `Auth` | auth.dfy | routes/authRoutes.js and middleware/auth.js |
| `ConfigRoutes` | config_routes.dfy | routes/configRoutes.js |
| `Listing` | listing.dfy | routes/engagementRoutes.js |

Where the code and the system's own description differ, the model follows the code:

- The fallback speaker of the transcript parser is `"Unknown"`.
- Local selection errors of `getRecording` carry no status, so they are retried.
- `notes` is `""` unless the upstream value is an array.
- Ingestion falls back to an empty base directory, but delivery falls back to the
  `ZOOM_DOWNLOAD_PATH` environment variable.

Four behaviours of the code look unintended. Each is proved as written and beside a corrected
definition, and each is a row of the findings table at the end:

- A failed download leaves an empty file that the next run takes for the recording.
- The tokens signed at login carry no `name` claim, so an agent holding one is listed nothing.
- A requested extension in capitals is looked up with the extension still on the name.
- A suffix range `bytes=-N` is served from the start of the file.

The ingestion run, its methods and the route handlers follow the code as written. The corrected
download is the `Corrected` mode of `Ingestion.DownloadMode`.

## Model

| member | source | states |
|---|---|---|
| Envelope.Unframe | utils/crypto.js:16-20 | The iv, tag and data slices concatenate back to the buffer. A buffer of at least 28 bytes gives a 12-byte IV and a 16-byte tag; a shorter one gives no data. |
| Envelope.FramingRoundTrip | utils/crypto.js:13-20 | Splitting `iv ‖ tag ‖ enc` with a 12-byte IV and a 16-byte tag recovers the three parts. |
| Envelope.Encrypt | utils/crypto.js:8-14 | The envelope starts with this call's IV. Under an authenticated cipher it is 28 bytes longer than the ciphertext. |
| Envelope.DecryptEncrypt | utils/crypto.js:8-25 | Decrypting an envelope made under the process key gives the plaintext back. |
| Envelope.DistinctIvDistinctEnvelope | utils/crypto.js:8-13 | Encryptions with different IVs never give the same envelope. |
| EngagementModel.Upsert | utils/zoom.js:272-306 | Only the record under `engagementId` is written, and every other record is kept. The written record equals the update, except `companyId` and `createdAt`, which are kept from an existing record or take the schema values. The collection stays keyed by id. |
| EngagementModel.UpsertIdempotent | utils/zoom.js:272-306 | Repeating the same upsert changes nothing. |
| Retry.StopFrom | utils/zoom.js:94-105 | The attempt at which retrying stops lies between the current attempt and 5. |
| Retry.StopFromIsFirstFinal | utils/zoom.js:94-105 | Every attempt before the stopping one failed with status 404, 202 or none. A stop before attempt 5 is a success or a failure with any other status. |
| Retry.NonRetryableFailsFirst | utils/zoom.js:96-104 | A first failure with any other status is final after one attempt. |
| Retry.NeverReadyExhausts | utils/zoom.js:97-101 | When every attempt is retryable, exactly 5 attempts are made and the fifth outcome is returned. |
| Retry.WithRetry | utils/zoom.js:134-152 | The loop makes between 1 and 5 attempts. It returns the first final outcome and waits the given time before each retry, so there are at most 4 waits. |
| Recording.FindVoice | utils/zoom.js:76 | The result is the first index whose channel is "voice", or none exactly when no entry is voice. |
| Recording.Chosen | utils/zoom.js:74-78 | The choice is a listed entry, and there is none only for an empty list. It is a voice entry when there is one, else entry 0. |
| Recording.Extension | utils/zoom.js:83 | The extension starts with "." and has at least one more character. |
| Recording.Select | utils/zoom.js:74-81 | Selection fails exactly when the list is empty or the chosen entry has neither download_url nor url. Such failures carry no status. |
| Recording.SelectOk | utils/zoom.js:76-92 | The selected entry is listed and is voice when any is. The download URL is download_url, else url, and not empty. The file name is the id followed by the extension. |
| Recording.SelectFallbacks | utils/zoom.js:87-90 | The start time falls back from the entry to the response to now. The duration falls back from the entry to the response to 0. |
| Recording.LocalErrorsRetried | utils/zoom.js:78-97 | The two local selection errors are retried. |
| Recording.GetRecording | utils/zoom.js:64-106 | The retried selection is made with 1 to 5 attempts and a 10-second wait before each retry. A success is some attempt's selection. |
| TranscriptParser.CueTime | utils/zoom.js:231-233 | The cue time has no "." and is a prefix of the trimmed text before the first "-->". |
| TranscriptParser.SpeakerShape | utils/zoom.js:239-246 | The speaker of a labelled line is non-empty, starts the line and has at most 30 characters. |
| TranscriptParser.SpokenTextShape | utils/zoom.js:239-248 | The text of a labelled line is non-empty and ends the line. |
| TranscriptParser.CueEntryShape | utils/zoom.js:239-259 | An emitted entry has the current time and a non-empty text ending the line. Its speaker is either "Unknown" or a non-empty prefix of the line of at most 30 characters. |
| TranscriptParser.SpeakerDetectedIff | utils/zoom.js:239-259 | A speaker is read exactly when the emitted text is not the whole line. |
| TranscriptParser.SkipStep | utils/zoom.js:226 | Blank lines, "WEBVTT" and all-digit lines emit nothing and keep the time. |
| TranscriptParser.TimingStep | utils/zoom.js:229-234 | A line with "-->" emits nothing and sets the time to its cue time. |
| TranscriptParser.EmitStep | utils/zoom.js:239-259 | Any other line emits one entry and keeps the time. |
| TranscriptParser.OutputNonBlank | utils/zoom.js:239-259 | No line emits an entry with an empty speaker or text. |
| TranscriptParser.ParseFrom | utils/zoom.js:224-260 | A parse has at most one entry per line. |
| TranscriptParser.ParseFromNonBlank | utils/zoom.js:224-260 | Every parsed entry has a speaker and a text. |
| TranscriptParser.ParseAppend | utils/zoom.js:224-260 | Parsing two runs of lines one after the other is parsing the first, then the second from the time the first leaves. This means output order follows input order. |
| TranscriptParser.LineByLine | utils/zoom.js:224-260 | Line j's entries sit between those of the earlier and later lines, stamped with the time the earlier lines leave. |
| TranscriptParser.TimeAfterAppend | utils/zoom.js:222-234 | The time after two runs is the time after the second, started from the time after the first. |
| TranscriptParser.TimeIsLatestCue | utils/zoom.js:222-234 | The current time is the cue time of the latest timing line, or the starting time when there was none. |
| TranscriptParser.ParseStep | utils/zoom.js:224-260 | One line keeps the loop invariant. |
| TranscriptParser.ParseLine | utils/zoom.js:225-259 | One pass of the loop body updates the time and the entries as the specification does for that line. |
| TranscriptParser.ParseLines | utils/zoom.js:222-260 | The loop yields the parse of all lines from an empty time. |
| TranscriptParser.ParseTranscript | utils/zoom.js:221-260 | The transcript is the parse of the text split into lines. |
| TokenCache.ConfigLoadedOnce | utils/zoom.js:12-13 | Once loaded, the credentials are returned whatever the store and the cipher say. |
| TokenCache.MissingConfigThrows | utils/zoom.js:15-16 | A missing configuration throws, with no status, and caches nothing. |
| TokenCache.LoadCachesResult | utils/zoom.js:18-23 | A successful load caches exactly what it returns and leaves the token alone. |
| TokenCache.FreshTokenReused | utils/zoom.js:27-30 | A fresh cached token is returned unchanged, without consulting the store, the cipher or the token endpoint. |
| TokenCache.ExchangeCachesToken | utils/zoom.js:32-43 | A new token is cached with expiry `now + (expires_in - 60) * 1000`, where `now` is read before the exchange. |
| TokenCache.FailedRefreshKeepsToken | utils/zoom.js:32-41 | A failed load or exchange leaves the cached token and expiry as they were. |
| TokenCache.FreshUntilExpiry | utils/zoom.js:27-43 | A non-empty token just obtained is reused at every later instant before its expiry. |
| TokenCache.ShortGrantNeverReused | utils/zoom.js:28-41 | A token granted for 60 seconds or less is stale as soon as it is cached. |
| TokenCache.ZoomSession.constructor | utils/zoom.js:8-10 | The cache starts empty with expiry 0. |
| TokenCache.ZoomSession.LoadZoomConfig | utils/zoom.js:12-24 | The result and the new cache are those of the specification `LoadConfig`. |
| TokenCache.ZoomSession.GetAccessToken | utils/zoom.js:26-44 | The result and the new cache are those of `AccessToken`. The token endpoint is called exactly when the token is stale and the credentials load. |
| EngagementFields.ConsumerField | utils/zoom.js:209-214 | The consumer column is never empty. |
| EngagementFields.ConsumerCases | utils/zoom.js:209-214 | The column starts with a present name and ends with a present number. It is "-" when neither is present, and otherwise only when a present part is itself "-". With both present and no line break in the name, the first line break splits the column back into the name and the number. |
| EngagementFields.NoConsumer | utils/zoom.js:209-214 | Without a consumer the column is "-". |
| EngagementFields.AgentColumnRoundTrip | utils/zoom.js:279 | Splitting the agent column on ", " gives back every agent's name in order, an absent name as "", when no name holds a comma. |
| EngagementFields.SingleAgent | utils/zoom.js:279 | A single agent's name is the whole agent column. |
| EngagementFields.DispositionSource | utils/zoom.js:282-284 | When `dispositions` is an array, even an empty one, the `disposition` field is ignored. A non-empty column is the first array entry's name in that case, and the `disposition` field otherwise. |
| EngagementFields.NotesField | utils/zoom.js:285-287 | Notes are "" unless the upstream value is an array. A single note's content is the whole column. |
| EngagementFields.NotesColumnRoundTrip | utils/zoom.js:285-287 | Splitting the notes column on " \| " gives back every note's content in order, an absent one as "", when no content holds a "\|". |
| EngagementFields.TwoNotes | utils/zoom.js:285-287 | Two notes are joined with " \| ". |
| EngagementFields.AcceptTypeOrderFree | utils/zoom.js:294 | The accept type depends only on which events occurred: reordering the events does not change it. |
| EngagementFields.AcceptTypeKeptByLaterEvents | utils/zoom.js:294 | Once "manual", the column stays "manual" whatever events are appended. |
| EngagementFields.DurationFallsBack | utils/zoom.js:277 | The duration is the first non-zero of the selected, the recording's and the engagement's, else 0. |
| EngagementFields.EmptyDataDefaults | utils/zoom.js:272-306 | An empty engagement body gives "-", "" or false in every derived column, never an error. |
| Ingestion.LocalPath | utils/zoom.js:182-190 | The target path ends with the file name. |
| Ingestion.SegmentsNonEmpty | utils/zoom.js:185-187 | The year, month and day segments are non-empty and do not end in "/". |
| Ingestion.PublicUrlMatchesRelativePath | utils/zoom.js:182-194 | Without a base directory, the local path is the public URL without its leading "/". |
| Ingestion.ChainIsTail | utils/zoom.js:182-194 | Joining the year, month, day and file name onto a prefix gives the prefix followed by the shared date tail of the public URL. |
| Ingestion.PublicUrlMatchesLocalPath | utils/zoom.js:182-194 | Under a base directory, the local path is the base followed by the public URL: both use the same year, month, day and file name. |
| Ingestion.StreamDownload | utils/zoom.js:108-131 | A successful download writes exactly the fetched bytes at the path. After a failed request the target holds an empty file as written, and the disk is unchanged in the corrected mode. |
| Ingestion.FailedDownloadLeavesEmptyFile | utils/zoom.js:108-131 | As written, a failed request leaves an empty file at an absent target and adds only that path. The corrected download leaves the disk as it was. |
| Ingestion.TranscriptOf | utils/zoom.js:216-269 | A recording without a transcript URL gets an empty transcript. |
| Ingestion.TranscriptTolerated | utils/zoom.js:218-266 | A transcript that finally cannot be fetched leaves the transcript empty; a fetched one is parsed. Every stored entry is non-blank. |
| Ingestion.IngestOk | utils/zoom.js:165-309 | A successful run stores the selected recording's URL, the derived local path and public URL, and the transcript, under the engagement's id. |
| Ingestion.IngestMarksProcessed | utils/zoom.js:159-163 | After a successful run, the record's local path exists on disk. The guard then returns the saved record on the next run. |
| Ingestion.SelectNonEmptyName | utils/zoom.js:83-84 | Every selected file name is non-empty. |
| Ingestion.IngestPreservesFiles | utils/zoom.js:196-206 | No existing file is overwritten or removed, and at most one file is added. |
| Ingestion.IngestDisk | utils/zoom.js:165-206 | In either mode, a run keeps every existing file unchanged and adds at most the file at one path. |
| Ingestion.IngestAddsOnlyItsFile | utils/zoom.js:182-206 | The only file a successful run can add is at the local path of the record it returns. |
| Ingestion.IngestFailureChangesNothing | utils/zoom.js:165-206 | (Corrected.) With the corrected download, a failed run leaves both the collection and the disk as they were. |
| Ingestion.FailedRunLeavesEmptyFile | utils/zoom.js:108-206 | As written, a failed run never changes the collection. When the engagement and recording were fetched, the failure was the download, and it leaves an empty file at the recording's absent path. An earlier failure changes nothing. |
| Ingestion.RetryAfterFailedDownload | utils/zoom.js:155-306 | As written, after a failed download the next run for the same recording finds the empty file and does not download. It returns success with that file as `localPath`, leaves the disk as it is, and marks the engagement processed. |
| Ingestion.PlaceRecording | utils/zoom.js:196-206 | An existing file at the path is kept and reported as success without a download. Otherwise the recording is downloaded there. Existing files are never changed and only the path can be added. A failure leaves an empty file at the path as written, and the disk as it was in the corrected mode. |
| Ingestion.IngestTouchesOneRecord | utils/zoom.js:272-306 | Only the engagement's own record changes, and the collection stays keyed by id. |
| Ingestion.DownloadIfAbsent | utils/zoom.js:196-206 | The download happens only when no file exists at the target. The target is created empty before the request, so the result and disk are those of `PlaceRecording` with the download as written. |
| Ingestion.FetchTranscript | utils/zoom.js:216-269 | The transcript step yields the specification's transcript. |
| Ingestion.IngestWithToken | utils/zoom.js:167-309 | The run after the token equals the specification `Ingest` with the download as written. |
| Ingestion.HandleEngagementEnded | utils/zoom.js:155-310 | A processed engagement is returned with no token fetch and nothing changed. Otherwise the token cache is updated as `AccessToken` says, and a token failure changes nothing else. The rest is `Ingest` with the download as written. |
| Delivery.RecordingsRoot | routes/recordingRoutes.js:18-22 | There is a root exactly when the configured download path or the environment path is set. |
| Delivery.ServedTypeMatchesFile | routes/recordingRoutes.js:71-106 | With no candidate file the answer is 404, and otherwise the first existing one is served. The served file is labelled audio/wav exactly when it is the name's ".wav" file, and audio/mpeg otherwise. |
| Delivery.LastDot | routes/recordingRoutes.js:39 | The result is the index of the last "." of the name, or none when it has no dot. |
| Delivery.Extname | routes/recordingRoutes.js:39 | The extension is empty or a dotted, proper suffix of the name. |
| Delivery.Basename | routes/recordingRoutes.js:40 | Removing a proper suffix leaves what precedes it; a non-suffix removes nothing. |
| Delivery.RequestedExtOnly | routes/recordingRoutes.js:71-106 | A requested extension is the only one tried. Its file is served when it exists, and otherwise the answer is 404 "Recording not found", even if the other format exists. |
| Delivery.MatchRangeIff | routes/recordingRoutes.js:86 | A header matches exactly when it is "bytes=" digits "-" digits, and the groups are those digits. |
| Delivery.WindowInBounds | routes/recordingRoutes.js:80-103 | A 206 window satisfies start ≤ end < total, with Content-Length end − start + 1. A 200 sends the whole file with Content-Length total. A 416 carries `bytes */total`. Accept-Ranges is "bytes" on every plain response. |
| Delivery.RangeWindow | routes/recordingRoutes.js:86-97 | A missing start means 0 and a missing end means total − 1. A window that is empty or past the end gets 416. |
| Delivery.SuffixRangeReadFromStart | routes/recordingRoutes.js:86-97 | As written, any "bytes=-N" with N below the file size gets 206 with bytes 0 to N, not the last N bytes. |
| Delivery.SuffixRangeServesTail | routes/recordingRoutes.js:86-97 | (Corrected.) A suffix range "bytes=-N" serves the last min(N, size) bytes with 206 and that many as Content-Length. When that is no bytes the answer is 416. |
| Delivery.SuffixTail | routes/recordingRoutes.js:86-97 | (Corrected.) The same for the digit groups of a matched header. |
| Delivery.IntendedAgreesOtherwise | routes/recordingRoutes.js:84-103 | (Corrected.) Every header other than a suffix range gets the same answer as the code gives. |
| Delivery.UnmatchedRangeIgnored | routes/recordingRoutes.js:84-103 | A header that does not match is treated as no header. |
| Delivery.FirstExisting | routes/recordingRoutes.js:72-74 | The result is the first candidate whose file exists, or none when none does. |
| Delivery.FirstExistingServed | routes/recordingRoutes.js:70-104 | The first existing candidate is served as a plain file. |
| Delivery.BadDateRefused | routes/recordingRoutes.js:31-33 | A malformed date gets 400, whatever the configuration and disk hold. |
| Delivery.NoRootRefused | routes/recordingRoutes.js:35-36 | Without a download path the answer is 500. |
| Delivery.EncryptedIgnoresRange | routes/recordingRoutes.js:43-67 | With both ".enc" and ".enc.meta.json" present and usable metadata, the answer carries audio/mpeg and Accept-Ranges none. It is the decrypted stream with 200, or 500 "Stream error" when the pipeline fails before its first byte. The Range header makes no difference. |
| Delivery.Mp3Preferred | routes/recordingRoutes.js:71-106 | Without a requested extension, ".mp3" is served as a plain file when present, otherwise ".wav". With neither the answer is 404. |
| Delivery.WindowShape | routes/recordingRoutes.js:89-97 | A 206 answer carries the window, with first ≤ last < total and Content-Length last − first + 1. A 416 answer has no body and carries `bytes */total`. No other status is possible, and the headers already set are kept. |
| Delivery.UpperCaseExtensionKept | routes/recordingRoutes.js:39-40 | As written, a name whose extension has a capital letter keeps that extension in the base name. The only file looked up is the whole name followed by the lower-cased extension. |
| Delivery.UpperCaseExample | routes/recordingRoutes.js:39-40 | "abc.MP3" is looked up as "abc.MP3.mp3", where the corrected name gives "abc.mp3". |
| Delivery.IntendedBaseName | routes/recordingRoutes.js:39-40 | (Corrected.) The base name followed by the name's own extension is the name. Without an extension it is the name. |
| Delivery.IntendedBaseNameLowersExtension | routes/recordingRoutes.js:39-40 | (Corrected.) The corrected base name agrees with the route for a lower-case extension. For any extension, the file looked up is the name with its extension lower-cased. |
| Delivery.ResponseWriter.constructor | routes/recordingRoutes.js:28 | A response starts with no status, headers or body. |
| Delivery.ResponseWriter.SetHeader | routes/recordingRoutes.js:80-82 | Sets one header and changes nothing else. |
| Delivery.ResponseWriter.Send | routes/recordingRoutes.js:92 | Sets the status and body and keeps the headers. |
| Delivery.ServePlain | routes/recordingRoutes.js:76-103 | The headers and body written for a plain file are those of `PlainResponse`. |
| Delivery.SendWindow | routes/recordingRoutes.js:89-97 | Starting from a fresh status and no body, the writer ends up holding exactly `WindowResponse` for the previously set headers. |
| Delivery.ServeFirstExisting | routes/recordingRoutes.js:71-106 | The loop over candidate extensions writes `ServeCandidates`: the first existing file is served, and with none the answer is 404 "Recording not found". |
| Delivery.HandleGet | routes/recordingRoutes.js:28-111 | The response written by the handler is the specification `Serve`. |
| IngestDeliver.SegmentsValid | utils/zoom.js:185-187 | Stored date segments pass the route's date validation for four-digit years. |
| IngestDeliver.ExtnameOfStored | utils/zoom.js:83-84 | The extension of a stored file name is the one ingestion appended. |
| IngestDeliver.DeliveryFindsIngestedFile | routes/recordingRoutes.js:28-104 | Requesting the public URL's segments serves the file ingestion wrote. This holds with a configured download path, no encrypted variant and a lower-case extension. |
| Webhooks.Webhook | routes/webhookRoutes.js:12-60 | A missing or non-object body gets 400. The handler is called exactly for engagement_ended with a truthy id, `object.engagement_id` else `engagement.id`. Then 200 means the handler resolved and 500 means it threw. URL validation echoes the token. |
| Webhooks.WebhookIdPreference | routes/webhookRoutes.js:25-32 | The object id wins over the engagement reference. Without either the answer is 400 and there is no call. |
| Webhooks.UrlValidationEcho | routes/webhookRoutes.js:43-51 | A plainToken is echoed as encryptedToken with 200; a missing one gets 400. |
| Webhooks.OtherEventsIgnored | routes/webhookRoutes.js:53-55 | Any other event gets 200 "Event ignored" and no call. |
| Webhooks.ZoomWebhook | routes/zoomRoutes.js:8-31 | The handler is called, with `payload.engagement_id`, exactly for engagement_ended with a payload. The answer is 200 {received: true} unless something throws, which gives 500. |
| Webhooks.PayloadShapesDiffer | routes/zoomRoutes.js:16 | A payload with only `object.engagement_id` is processed by /webhook, while /api/zoom calls the handler with undefined. |
| Webhooks.RecordingUrls | routes/zoomRoutes.js:34-61 | 200 is returned exactly when a voice entry exists, with its URLs. 404 means no voice entry, and 500 means a token or request failure. |
| Webhooks.RecordingUrlsFirstVoice | routes/zoomRoutes.js:47-56 | The URLs are the first voice entry's, with an empty transcript URL reported as null. |
| Webhooks.NoVoiceFallbackDiffers | routes/zoomRoutes.js:46-51 | A list with no voice entry gets 404 here, while ingestion takes its first entry. |
| Cors.AbsentOrUnparseable | server.js:36-50 | An absent origin is allowed; one that does not parse is refused. |
| Cors.AllowedMeansTrusted | server.js:36-51 | An allowed origin is the Vercel origin or has a trusted host. |
| Cors.TrustedHostsAllowed | server.js:41-44 | localhost and 127.0.0.1 are allowed on any port, and so are subdomains of ngrok-free.app and ngrok.io. |
| Cors.NgrokApexRefused | server.js:44 | The bare host ngrok.io is refused. |
| Cors.AllowListRedundant | server.js:28-56 | Every listed origin passes the dynamic check, so the decision equals `dynamicOriginAllow`. |
| Cors.ErrorStatus | server.js:150 | The status is err.status when truthy, else 500; it is never 0. |
| Cors.ErrorMessage | server.js:152 | The message is err.message when non-empty, else "Internal Server Error". |
| Cors.CorsGate | server.js:53-63 | A request passes exactly when the decision allows it. A refusal is 500. |
| Cors.RefusalNamesOrigin | server.js:58-61 | A refused origin gets a 500 whose message names it. |
| Auth.DashRuns | routes/authRoutes.js:18 | The replacement leaves no whitespace, and is empty only for empty input. |
| Auth.CompanySlug | routes/authRoutes.js:18 | The slug is non-empty with no whitespace, and "default" for an absent or empty name. |
| Auth.DashRunsSplit | routes/authRoutes.js:18 | A whitespace run between two texts becomes exactly one "-". |
| Auth.DashRunsConcat | routes/authRoutes.js:18 | The replacement works piecewise on a cut outside a whitespace run. |
| Auth.DashRunsNoWhitespace | routes/authRoutes.js:18 | A text without whitespace is left unchanged. |
| Auth.DashRunsLowerCase | routes/authRoutes.js:18 | The replacement keeps a lower-case text lower-case. |
| Auth.SlugIdempotent | routes/authRoutes.js:18 | The slug of a slug is itself. |
| Auth.SignupRole | routes/authRoutes.js:19 | The role is the given one, else "agent". |
| Auth.ClaimsCarryOnlyIdRoleCompany | routes/authRoutes.js:6-12 | Users with the same id, role and company get the same token claims, whatever their email, password, username or phone. The claims carry no name. |
| Auth.SignupCompanyStable | routes/authRoutes.js:17-19 | Signing up with a derived company id as the company name joins the same company. Email and password are passed to `create` as given. |
| Auth.Signup | routes/authRoutes.js:15-25 | A rejected creation gets 400 with its message. Otherwise the created user is returned with its signed claims. |
| Auth.SignupDefaults | routes/authRoutes.js:18-19 | Without company and role, the user is an agent of "default". |
| Auth.Login | routes/authRoutes.js:28-36 | A session is opened exactly when the email is known and the password matches. Otherwise the answer is 401 "Invalid credentials". |
| Auth.LoginDoesNotRevealEmails | routes/authRoutes.js:31-33 | An unknown email and a wrong password get the same answer. |
| Auth.BearerToken | middleware/auth.js:5 | There is a token exactly when the header starts with "Bearer ", and it is the rest of the header. |
| Auth.Authenticate | middleware/auth.js:3-16 | `next` runs exactly for a non-empty bearer token the verifier accepts, with its claims as the user. Everything else gets 401. |
| Auth.MissingTokenCases | middleware/auth.js:4-7 | A missing header, another scheme or an empty token gets "Auth token missing" without verification. |
| Auth.LowerCaseSchemeRefused | middleware/auth.js:5-7 | "bearer " in lower case counts as missing. |
| Auth.RefusedToken | middleware/auth.js:13-15 | A token the verifier refuses gets "Invalid or expired token". |
| Auth.LoginTokenAccepted | middleware/auth.js:9-12 | A token signed at login passes with exactly its claims. |
| ConfigRoutes.LastFour | routes/configRoutes.js:15-16 | The result is the last four characters, or the whole of a shorter value. |
| ConfigRoutes.Mask | routes/configRoutes.js:15-16 | The mask is "****" followed by the last four characters. |
| ConfigRoutes.MaskShowsOnlyLastFour | routes/configRoutes.js:15-16 | Two values have the same mask exactly when their last four characters agree. |
| ConfigRoutes.ShortValueShownWhole | routes/configRoutes.js:15-16 | A value of at most four characters is shown whole. |
| ConfigRoutes.ViewConfig | routes/configRoutes.js:10-20 | With no configuration the answer is null. Otherwise it is the masked client and account ids and the download path or "". |
| ConfigRoutes.ViewIgnoresSecret | routes/configRoutes.js:14-19 | The view does not depend on the stored client secret. |
| ConfigRoutes.SaveConfig | routes/configRoutes.js:23-38 | A form missing the client id, secret or account id throws and stores nothing. A complete one writes only the company's document, with its companyId and the download path or "". The collection keeps one document per company. |
| ConfigRoutes.LastSaveWins | routes/configRoutes.js:24-35 | Of two saves for one company, the second wins when it is complete, and otherwise the first stays. |
| ConfigRoutes.SaveThenView | routes/configRoutes.js:10-38 | What a complete form saved reads back masked. An incomplete form leaves the view as it was. |
| ConfigRoutes.SavedEmptyPathFallsBack | routes/configRoutes.js:32 | A saved empty path makes delivery use the environment path and ingestion the base "", when the unfiltered lookup returns the saving company's document. That is certain only when no other company has a configuration. |
| ConfigRoutes.OtherCompanyPathUsed | utils/zoom.js:179-180 | When the unfiltered lookup returns another company's document, its download path is used by delivery and ingestion, whatever this company saved. |
| Listing.Insert | routes/engagementRoutes.js:13 | Inserting keeps the list newest first and adds exactly one record. |
| Listing.SortNewestFirst | routes/engagementRoutes.js:13 | The result is newest first and a permutation of its input. |
| Listing.OwnedBy | routes/engagementRoutes.js:15 | The result holds exactly the records whose agent is the name, as often as stored. |
| Listing.ListAll | routes/engagementRoutes.js:7-25 | Records are newest first. They are listed exactly for admins and agents when the query succeeds. Other roles get 403, and a failed query 500. |
| Listing.AdminSeesAll | routes/engagementRoutes.js:12-13 | An admin gets every record exactly once. |
| Listing.AgentSeesOwn | routes/engagementRoutes.js:14-15 | An agent gets exactly their own records. |
| Listing.OtherRolesRefused | routes/engagementRoutes.js:16-18 | Other roles get 403 whatever the collection holds. |
| Listing.LoginAgentListsNothing | routes/engagementRoutes.js:14-15 | As written, an agent with a login token, which has no name, is listed nothing whatever the collection holds. |
| Listing.NamedClaims | routes/authRoutes.js:6-12 | (Corrected.) The claims with the user's name added: the name is the username, and without it they are the login claims. |
| Listing.NamedAgentSeesOwn | routes/engagementRoutes.js:14-15 | (Corrected.) With the name in the token, an agent gets exactly the records whose agent is their name, each as often as stored, newest first. |

## Left out

- HTTP calls (axios), MongoDB, the file system, timers and the clock are parameters or inputs. The model does not cover time spent waiting, only the number and length of the waits.
- AES-256-GCM, the SHA-256 key derivation, gzip, base64 and UTF-8 encoding are foreign. The cipher is an abstract pair of functions with its promise as a predicate. `decrypt` in `TokenCache`, `Ingestion` and `ConfigRoutes` is a function from stored string to plaintext.
- Parsing the ".meta.json" file, building the decipher and running the pipeline up to its first byte are one function `decipher` with three outcomes. The streamed decryption is the body `DecryptedStream`. A pipeline error after the first byte has been sent, when the handler can no longer change the status, is not modelled.
- `ZoomConfig.findOne()` is called with no company filter in `loadZoomConfig` (utils/zoom.js:15), in the ingestion run (utils/zoom.js:179) and in the recordings route (routes/recordingRoutes.js:19). Which company's document it returns depends on the database's natural order. The model takes that document as an input (`doc`, `cfg`) and does not choose it.
- `new URL(origin)` is a parameter giving the hostname. `AllowListRedundant` relies on it reading the hosts of the five listed origins.
- `jwt.sign`, `jwt.verify` and bcrypt are parameters. The `roles("admin")` middleware is not part of this model; the configuration routes take the authenticated company.
- The zoomRoutes POST computes `payload.account_id || "default"`, but `handleEngagementEnded` ignores that second argument, so it is not modelled.
- `getRecordingUrls` (utils/zoom.js:54-61) is exported but called by no modelled route.
- utils/compressAudio.js, config/db.js, models/User.js and models/ZoomConfig.js are not part of this model. The one rule of models/ZoomConfig.js, one document per company, is `ConfigRoutes.OnePerCompany`.
- Express, helmet, compression, morgan, the route mounting, the health endpoints and console logging are plumbing.
- Two concurrent runs for one engagement can both pass the ingestion guard. This is concurrency and is not modelled; each run is sequential.
- A missing `access_token` in the token response is modelled as the empty token "", which is never reused.
- `new Date(start_time)` is an input instant. Invalid dates are not modelled, and one `now` serves a whole run.
- `toLowerCase` is modelled on ASCII letters only. `path.join` is modelled for segments that need no normalisation (no "..", ".", repeated or trailing separators). File names are taken without "/".
- Numbers in the range header are read as unbounded naturals, with no `parseInt` precision limit.
- An async rejection that Express 4 does not catch (in the login route, when `decrypt` throws in the configuration routes, or when `encrypt` is given an absent credential) is modelled as an outcome. What the client then sees is not modelled.
- Agents without a `name` claim: `Listing.OwnedBy` treats `{agent: undefined}` as matching no record. This reflects the driver sending it as null, which matches no stored record because every record has a string agent.
- Records with equal start times are listed in insertion order, which the database leaves unspecified.
- Ingestion.StreamDownload models only a request that is rejected before any byte is written. Failures after piping starts are not modelled. A write error rejects and leaves a partial file at the target. An error while reading the response body is not listened for, so the download never settles and a partial file stays on disk.
- Webhooks.RecordingUrls and Webhooks.Webhook take the token result and the handler's outcome as inputs. The token-cache refresh that the route triggers and the handler's effects on the collection and disk are not composed into them; `Ingestion.HandleEngagementEnded` models that handler on its own.

## Findings

| source | as written | input that shows it | evidently intended | confidence | as-written member | corrected member |
|---|---|---|---|---|---|---|
| utils/zoom.js:108-131 | `streamDownload` opens the write stream, creating an empty file, before requesting the download. A failed request leaves that empty file behind. On the next run the existence check at line 197 skips the download, and the record points at the empty file. | A first run whose download request fails with 404, then a second run for the same engagement: the second returns success with a 0-byte recording. | A failed download leaves no file at the target, so a later run downloads again. | not executed | Ingestion.FailedRunLeavesEmptyFile / Ingestion.RetryAfterFailedDownload | Ingestion.IngestFailureChangesNothing |
| routes/authRoutes.js:6-12 | `sign` puts only id, role and companyId in the token, but the agent listing at routes/engagementRoutes.js:15 filters on `req.user.name`. | An agent logs in and lists engagements: the filter is on an undefined name and the list is empty. | The token carries the user's name, so an agent sees their own records. | not executed | Listing.LoginAgentListsNothing | Listing.NamedAgentSeesOwn |
| routes/recordingRoutes.js:39-40 | The extension is lower-cased before `path.basename` removes it, and that removal is case-sensitive. | GET .../abc.MP3 with abc.mp3 on disk: the route looks for abc.MP3.mp3 and answers 404. | The extension as given is removed from the name, and the lower-cased one is looked up. | not executed | Delivery.UpperCaseExample / Delivery.UpperCaseExtensionKept | Delivery.IntendedBaseNameLowersExtension |
| routes/recordingRoutes.js:86-89 | An empty first group becomes 0, so "bytes=-N" is read as "bytes=0-N". | Range "bytes=-500" on a 10000-byte file: the route sends bytes 0 to 500, where section 2.1 of RFC 7233 gives the last 500 bytes. | A suffix range serves the last N bytes of the file. | not executed | Delivery.SuffixRangeReadFromStart | Delivery.SuffixRangeServesTail |
