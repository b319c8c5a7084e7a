# Haivision Makito X4 decoder plugin: a verified model of its core

The plugin connects a button-panel controller to a Haivision Makito X4
decoder over the decoder's REST API. Every poll it reads the device status,
then the stats and configuration of decoders 0..3, and turns each raw record
into a flat set of display variables. At fixed multiples of a poll counter it
also refreshes the stream list, the preset list, the preview settings, the
decoder dropdown and the decoder thumbnails. The buttons issue start/stop,
stream-assignment, stream-editing, preset and reboot requests. The feedbacks
colour buttons from the stored records.

This project models that core in Dafny:

- `js.dfy` (`Js`): the JavaScript values the plugin handles. It covers JSON
  values, truthiness, `x || d`, `String(n)`, `Number(s)`, `parseInt(s)` and
  loose `==` against a string.
- `reconciler.dfy` (`Reconciler`): `processDecoderStatus` and
  `processDecoderConfig` as total functions from a record to the decoder's
  variables. It includes every enumeration table and its fallback.
- `snapshot.dfy` (`Snapshot`): the instance's stored state as a value, plus
  one specification function per step of a poll and per list refresh. Each
  function gives the new state, the requests issued and the variables
  published.
- `poller.dfy` (`Poller.Instance`): the class whose fields the plugin updates
  in place. Its methods follow the source's loops and are proved equal to
  the specification functions.
- `poll_facts.dfy` (`PollFacts`) and `list_facts.dfy` (`ListFacts`): the
  counter and cadence, the thumbnail check, per-decoder isolation, the
  rebuilt stream map, the re-derived stream names, and what a failure
  leaves alone.
- `session.dfy` (`Session`): the pure parts of the HTTP helper. These are
  path normalisation, the cookie jar with its `Set-Cookie` capture and
  `Cookie` header, reply classification with the 401 rule, and the login
  test. The class `Session.Client` holds the jar and the `authenticated`
  flag.
- `feedbacks.dfy` (`Feedbacks`): the six feedback callbacks and how they
  agree with the published variables.
- `actions.dfy` (`Actions`): the action callbacks. Each is a method that
  returns the requests it would issue, given the replies to the requests
  before it.

Network replies are inputs. Each request of a poll has a reply that is
`Ok(value)` or `Fail`, where `Fail` is a thrown error. A poll is one call
with all of its replies.

## Behaviour worth knowing

Each of these follows from the code as written, and the model keeps it.

- Thumbnails are requested for decoder states 0, 1 and 2, stopped decoders
  included. The thumbnail check reads the counter before it is incremented. So it
  fires in the poll after each stream-list refresh (polls 4, 7, 10, …),
  never in the same poll as one (`PollFacts.ThumbnailIssued`,
  `PollFacts.ThumbnailAfterStreamRefresh`,
  `PollFacts.ThumbnailNotWithStreams`).
- A config whose `streamId` is missing from the stream list shows
  `stream_name` `None`. The other ten stream variables still come from the
  `/apis/streams/<id>` fetch, which does not consult the list. They take
  their defaults only when that fetch fails or has no `data`.
- `buildDeviceChoices` labels decoders `Decoder 0`..`Decoder 3`, with
  numeric ids. The fallback list in the actions and the feedbacks uses ids
  `'0'`..`'3'` with labels `Decoder 1`..`Decoder 4`. Since the decoder list
  starts as `[]`, an empty list is what triggers that fallback.
- `authenticate` tests `cookies['SessionID']` for truthiness:
  - an empty `SessionID` value fails the login;
  - a `SessionID` kept from an earlier login makes the login succeed even
    when the new reply sets none (`Session.LoginByStoredCookie`).
- After a failed stream-list request, `streamChoices` is `[]`. An empty
  array is truthy, so the stream dropdowns then offer nothing, not even
  `No Stream` (`Actions.StreamDropdownAfterFailure`).
- The status options `running`, `stopped` and `error` on the preset buttons
  can never loosely equal a numeric state. The `decoder_status` feedback is
  never lit for them (`Feedbacks.DecoderStatusWords`).

## Model

| member | source | states |
|---|---|---|
| Js.OrElse | main.js:596-597 | `x \|\| d` gives the value when it is present and truthy, and `d` otherwise |
| Js.ParseIntDigits | src/feedbacks.js:162 | `parseInt` of a run of decimal digits is their value |
| Js.ParseIntNegated | src/feedbacks.js:162 | `parseInt` of a minus sign and digits is the negated value |
| Js.IntToStringParseInt | src/feedbacks.js:162 | `parseInt(String(n)) == n` for every integer |
| Js.IntToStringNumber | src/feedbacks.js:52 | `Number(String(n)) == n`, the conversion loose `==` applies to a status string |
| Js.IntToStringInjective | main.js:441 | distinct decoder numbers give distinct property keys |
| Js.NatToStringRoundTrip | main.js:441 | reading back the decimal digits of n gives n |
| Reconciler.ProcessDecoderStatus | main.js:507-733 | fails exactly when the response is `null` (reading `.stats` throws); otherwise yields the variables |
| Reconciler.StateLabelTable | main.js:511-550 | states 0/1/2 are Stopped / Started (No Signal) / Active, -1 goes through the trouble table, any other n is `Unknown (n)`, absent is `Unknown` |
| Reconciler.StateLabelExact | main.js:511-550 | each of Stopped, Started (No Signal), Active and Unknown arises from exactly one state |
| Reconciler.TroubleLabelShape | main.js:525-549 | no trouble label reads like one of the plain state labels |
| Reconciler.TroubleLabelTable | main.js:525-549 | trouble codes -1..-4 are named, 0 and absent give Not Decoding, any other n gives `Error (n)` |
| Reconciler.TroubleLabelNotDecoding | main.js:525-549 | Not Decoding is shown exactly for an absent or falsy trouble code |
| Reconciler.SignalAgreesWithState | main.js:728-730 | `signal` is Good exactly for Active, No Signal exactly for Started (No Signal), Error exactly for state -1, and Offline otherwise |
| Reconciler.StreamStateTable | main.js:552-570 | stream states 0..7 and -1..-3 are named, any other n is `Code n`, absent is Unknown |
| Reconciler.MultisyncTable | main.js:571-583 | multisync codes 0..5 are named; otherwise the device's `multisyncStatus` text, or Unknown |
| Reconciler.ProtocolTable | main.js:776-785 | encapsulations 2/3/34/64 are TS over UDP / RTP / SRT and RTSP, any other n is `Type n` |
| Reconciler.ProtocolNeverNone | main.js:776-785 | a computed protocol label is never the `None` of the no-stream defaults |
| Reconciler.ConnectionTable | main.js:786-794 | connection states 3/2/1 are Active / Connecting / Waiting, and anything else is Not Connected |
| Reconciler.BasicKeysFixed | main.js:592-604 | the basic and stream-state group writes the same ten variables for every record |
| Reconciler.VideoKeysFixed | main.js:606-621 | the video input and timing group writes a fixed key set |
| Reconciler.OutputKeysFixed | main.js:623-642 | the video output, frame and buffering group writes a fixed key set |
| Reconciler.AudioKeysFixed | main.js:644-664 | the audio group writes a fixed key set |
| Reconciler.SyncKeysFixed | main.js:666-679 | the delay and multisync group writes a fixed key set |
| Reconciler.MetadataKeysFixed | main.js:681-708 | the KLV, caption, timecode and AFD group writes a fixed key set |
| Reconciler.ClockKeysFixed | main.js:710-730 | the clock, HDR, reset and signal group writes a fixed key set |
| Reconciler.StatusKeysFixed | main.js:588-732 | every non-null record yields exactly the same set of variables, whatever fields it holds |
| Reconciler.StatusLookup | main.js:588-732 | each published variable takes the value of the last group that writes it |
| Reconciler.GroupsDisjoint | main.js:588-730 | no variable is written by two groups |
| Reconciler.BasicPublished | main.js:592-604 | the basic group's values are published unchanged |
| Reconciler.VideoPublished | main.js:606-621 | the video group's values are published unchanged |
| Reconciler.OutputPublished | main.js:623-642 | the output group's values are published unchanged |
| Reconciler.AudioPublished | main.js:644-664 | the audio group's values are published unchanged |
| Reconciler.SyncPublished | main.js:666-679 | the sync group's values are published unchanged |
| Reconciler.MetadataPublished | main.js:681-708 | the metadata group's values are published unchanged |
| Reconciler.ClockPublished | main.js:710-730 | the clock group's values, `signal` among them, are published unchanged |
| Reconciler.StatusGroupsPublished | main.js:588-732 | the published record is the union of the seven groups |
| Reconciler.StatePublished | main.js:594-595 | the published `state` of any record, bare or under `stats`, is its table label, and `state_code` is its own `state`, or -999 when it has none |
| Reconciler.StreamStatePublished | main.js:600-601 | the published `stream_state` is the stream-state label, and `stream_state_code` is the record's own `streamState`, or -999 |
| Reconciler.IdPublished | main.js:593 | the published `id` is the record's own `id`, kept even when falsy, and the decoder's number only when the record has none |
| Reconciler.MultisyncPublished | main.js:671 | the published `multisync_status` is the multisync label of the record's code and text |
| Reconciler.StatusOfEmptyRecord | main.js:593-602 | a record without fields gives Unknown labels, codes -999, the decoder number as id, trouble code 0 and stream id N/A |
| Reconciler.StatusOfEmptyRecordDerived | main.js:671-730 | without fields, multisync is Unknown, signal Offline, last reset Never and HDR type SDR |
| Reconciler.StatusEnvelope | main.js:508-509 | the `{ stats: … }` envelope makes no difference to the result |
| Reconciler.ProcessDecoderConfig | main.js:737-841 | fails exactly for a `null` response, and writes variables exactly when the record is truthy |
| Reconciler.ConfigKeysFixed | main.js:759-836 | every run that writes anything writes the same fourteen keys; Ok(None) exactly for a falsy record |
| Reconciler.ConfigFallback | main.js:824-836 | with no stream detail, the ten stream variables take exactly the defaults written at main.js:826-835 |
| Reconciler.ConfigProtocolNone | main.js:814-826 | the protocol reads None exactly when no stream detail was obtained |
| Reconciler.BitrateSuppression | main.js:803-812 | the live bitrate is shown only for stored stats with `state > 0`; otherwise it is `0 kbps` |
| Reconciler.SrtSourceAddress | main.js:796-801 | for SRT with `stats.srt`: the remote address, else the peer address, else the plain one; other streams use the plain one; the result is truthy |
| Reconciler.StreamNameLookup | main.js:764-769 | a negative, absent or unlisted stream id shows None, and a listed one shows the stream's name |
| Snapshot.FirstNull | main.js:921-922 | the index of the first `null` stream entry, where `stream.info` throws |
| Snapshot.PresetChoices | main.js:1006-1009 | one dropdown entry per preset, with the name as both id and label |
| Poller.Instance.constructor | main.js:12-20 | the instance starts with counter 0, empty maps and an empty decoder list |
| Poller.Instance.ReadDecoder | main.js:437-470 | one iteration of the decoder loop yields the state, requests and variables of its specification |
| Poller.Instance.HandleConfig | main.js:444-466 | storing the config, reconciling it and the thumbnail check, as specified |
| Poller.Instance.ReadDecoders | main.js:436-471 | the `for` loop over decoders 0..3, as specified |
| Poller.Instance.GetStreamList | main.js:910-984 | `getStreamList`, as specified |
| Poller.Instance.VisitStreams | main.js:921-947 | the `forEach` completes exactly when no entry is `null`; the map holds the entries before the first `null`; the choices start with No Stream |
| Poller.Instance.RederiveStreamNames | main.js:949-969 | publishes the stream count, then each stored decoder's `stream_name` |
| Poller.Instance.GetPresetList | main.js:986-1024 | `getPresetList`, as specified |
| Poller.Instance.GetPreviewSettings | main.js:1026-1044 | `getPreviewSettings`, as specified |
| Poller.Instance.BuildDeviceChoices | main.js:864-899 | `buildDeviceChoices`, as specified |
| Poller.Instance.GetDeviceStatus | main.js:418-504 | one whole poll: the new state, requests and variables of the poll specification |
| Poller.Instance.Refresh | main.js:475-499 | the counter increment and the refreshes due at the new count |
| PollFacts.StepFacts | main.js:437-470 | an iteration leaves the counter alone and issues the requests its decoder's replies call for |
| PollFacts.LoopFacts | main.js:436-471 | the loop leaves the counter alone and issues the per-decoder requests in order |
| PollFacts.LoopRequestsPerDecoder | main.js:436-471 | every request the loop issues belongs to one decoder |
| PollFacts.DevicePhaseFacts | main.js:421-472 | the status request, then the decoder loop only for a truthy status body |
| PollFacts.StreamListShape | main.js:912 | a stream refresh issues one request and keeps the counter |
| PollFacts.PresetListShape | main.js:988 | a preset refresh issues one request and keeps the counter |
| PollFacts.PreviewShape | main.js:1028 | a preview refresh issues one request and keeps the counter |
| PollFacts.BuildChoicesShape | main.js:866-872 | the choice rebuild requests the four decoders' configurations in order |
| PollFacts.PresetStageFacts | main.js:482-484 | the preset stage appends its request when due |
| PollFacts.StreamStageFacts | main.js:487-489 | the stream stage appends its request when due |
| PollFacts.PreviewStageFacts | main.js:492-494 | the preview stage appends its request when due |
| PollFacts.ChoicesStageFacts | main.js:497-499 | the choices stage appends its requests when due |
| PollFacts.RefreshCounter | main.js:475-480 | the refresh phase increments the counter by exactly one |
| PollFacts.RefreshRequestsIssued | main.js:475-499 | the refresh phase issues exactly the refresh requests due at the new count |
| PollFacts.RefreshNotPerDecoder | main.js:475-499 | no refresh request is a decoder-loop request or the status request |
| PollFacts.PollCounterShape | main.js:418-480 | the counter grows by one when `/apis/status` answered, and is unchanged otherwise |
| PollFacts.PollShape | main.js:418-502 | the requests of a whole poll, in order |
| PollFacts.PollCounter | main.js:418-480 | the counter moves by one exactly when the status request answered; a failed one changes nothing |
| PollFacts.RefreshIssued | main.js:475-499 | a refresh request is issued exactly when the status request answered and it is due at the incremented count |
| PollFacts.PresetCadence | main.js:482-484 | presets are requested exactly in successful polls whose new count is a multiple of 5 |
| PollFacts.StreamCadence | main.js:487-489 | streams are requested exactly in successful polls whose new count is a multiple of 3 |
| PollFacts.PreviewCadence | main.js:492-494 | preview settings are requested exactly in successful polls whose new count is a multiple of 10 |
| PollFacts.ChoicesCadence | main.js:497-499 | decoder j's choice request is issued exactly in successful polls whose new count is a multiple of 20, for j in 0..3 |
| PollFacts.LoopThumbnails | main.js:452-467 | the loop requests decoder i's thumbnail exactly when the thumbnail check passes for i |
| PollFacts.ThumbnailIssued | main.js:452-467 | a thumbnail is requested exactly when the count before the poll is a non-zero multiple of 3, i's stats and config were read, and i's state is 0, 1 or 2 |
| PollFacts.ThumbnailAfterStreamRefresh | main.js:453-489 | the thumbnail check is due at the count after each stream-list refresh |
| PollFacts.ThumbnailNotWithStreams | main.js:453-489 | a thumbnail request and a stream-list request never share a poll |
| PollFacts.StepStatusMap | main.js:439-442 | an iteration stores its stats reply under its own key |
| PollFacts.StepConfigMap | main.js:444-448 | an iteration stores its config only when the stats were readable and the config fetch answered |
| PollFacts.LoopStatusMap | main.js:436-471 | `decodersStatus` after the loop is determined by the replies alone |
| PollFacts.LoopConfigMap | main.js:436-471 | `decodersConfig` after the loop is determined by the replies alone |
| PollFacts.StatusSlot | main.js:436-471 | decoder j's stats slot depends only on j's own reply |
| PollFacts.ConfigSlot | main.js:436-471 | decoder j's config slot depends only on j's own replies |
| PollFacts.OtherStatusKeys | main.js:436-471 | keys other than the decoders' own are not touched in `decodersStatus` |
| PollFacts.OtherConfigKeys | main.js:436-471 | keys other than the decoders' own are not touched in `decodersConfig` |
| PollFacts.LoopContinues | main.js:468-470 | every decoder's stats are requested whatever happened to the others |
| PollFacts.PresetStageKeeps | main.js:482-484 | the preset refresh leaves the decoder slots alone |
| PollFacts.StreamStageKeeps | main.js:487-489 | the stream refresh leaves the decoder slots alone |
| PollFacts.PreviewStageKeeps | main.js:492-494 | the preview refresh leaves the decoder slots alone |
| PollFacts.ChoicesStageKeeps | main.js:497-499 | the choice rebuild leaves the decoder slots alone |
| PollFacts.RefreshKeeps | main.js:475-499 | the whole refresh phase leaves the decoder slots alone |
| PollFacts.PollDecoders | main.js:418-502 | after a poll the decoder slots are those the loop left |
| PollFacts.PollStatusSlot | main.js:436-471 | after a poll, j's stats slot holds j's fetched record, or its old value when the fetch failed or the loop did not run |
| PollFacts.PollConfigSlot | main.js:436-471 | after a poll, j's config slot holds j's fetched config only when j's stats were readable and its config fetch answered, else its old value |
| PollFacts.ConfigFailureKeepsConfig | main.js:444-449 | when only j's config fetch fails, j's stats are updated and its config keeps its previous value |
| PollFacts.PollContinues | main.js:436-471 | in a poll with a truthy status body, every decoder's stats are requested |
| PollFacts.StepPublishesOwn | main.js:437-449 | an iteration publishes only its own decoder's variables |
| PollFacts.ConfigPublishes | main.js:737-841 | the config variables are published exactly when `processDecoderConfig` produces some |
| ListFacts.StreamMapDomain | main.js:921-925 | a key is in the built map exactly when it was there before or an entry with `info` has that id |
| ListFacts.StreamMapValue | main.js:921-925 | a new key holds the name of the last entry with that id |
| ListFacts.StreamNameTruthy | main.js:923 | a stream's display name, its name or `Stream <id>`, is never falsy |
| ListFacts.StreamMapTruthy | main.js:923-924 | every name in the map is truthy |
| ListFacts.StreamMapRebuilt | main.js:916-925 | after a completed refresh the map holds exactly the ids of the entries with `info`, whatever it held before |
| ListFacts.StreamMapFromScratch | main.js:914-947 | the rebuilt list, map and choices do not depend on the previous state |
| ListFacts.ChoicesDomain | main.js:919-946 | one choice, under its id, for each entry with `info` |
| ListFacts.StreamChoicesMatchMap | main.js:919-946 | the choices start with No Stream, and the other ids are exactly the map's keys |
| ListFacts.StreamListFailure | main.js:978-983 | a failed request empties `streamList` and `streamChoices` and leaves everything else, the map included |
| ListFacts.StreamListNoData | main.js:913-977 | a falsy reply or one without `data` changes nothing |
| ListFacts.PresetListFailure | main.js:989-1023 | a failed request, a falsy body or a missing `data` leaves the state unchanged |
| ListFacts.PreviewFailure | main.js:1029-1043 | a failed request or a falsy body leaves the state unchanged |
| ListFacts.RederiveOne | main.js:955-969 | the re-derivation writes decoder j's `stream_name` once, and only when j has a stored config |
| ListFacts.StreamNamesRederived | main.js:955-969 | after a completed refresh each stored decoder's `stream_name` is re-derived from the new map; other decoders are untouched |
| ListFacts.StaleStreamName | main.js:959-967 | a decoder whose stream id is missing from the new list reads None |
| ListFacts.ListedStreamName | main.js:959-963 | a decoder whose stream is listed reads the name of the last entry with that id |
| ListFacts.PresetRefresh | main.js:989-1016 | a preset array gives one choice per name; the preset variables follow the reply |
| ListFacts.PreviewRefresh | main.js:1026-1044 | a truthy reply is stored and published as three device-wide variables, none blank: the device's port and quality or 8080 and Unknown, and a service that reads Enabled exactly when the device reports one |
| ListFacts.DecoderChoicesComplete | main.js:864-890 | the rebuilt list always holds decoders 0..3 in order, and an unreadable one is labelled `Decoder <i>` |
| Session.NormalizeUnderApis | main.js:273-277 | every request path starts with `/apis` |
| Session.NormalizeFixedPoints | main.js:273-277 | a path is sent unchanged exactly when it already starts with `/apis` |
| Session.NormalizeIdempotent | main.js:273-277 | normalising twice is normalising once |
| Session.NormalizeKeepsEndpoint | main.js:273-277 | the caller's endpoint is kept whole, behind at most `/apis/` |
| Session.Split | main.js:315 | `split` yields at least one piece |
| Session.JoinSplit | main.js:315 | joining the pieces with the separator gives back the text |
| Session.SplitPieces | main.js:315 | no piece contains the separator |
| Session.SplitWhole | main.js:315 | text without the separator is one piece |
| Session.SplitAt | main.js:315 | the first separator ends the first piece |
| Session.SplitFirst | main.js:315 | the first piece is the text up to the first separator |
| Session.CookiePairSound | main.js:313-320 | a stored pair has no `;` or `=` in its name or value, and is the header's `name=value` up to the first `;` |
| Session.CookiePairComplete | main.js:313-320 | every `name=value` header, alone or followed by `;`, is stored |
| Session.GetPresent | main.js:317 | a name reads back a value exactly when it is stored |
| Session.PutGet | main.js:317 | after `cookies[name] = value` the name reads back that value |
| Session.PutGetOther | main.js:317 | storing one name leaves the other names' values alone |
| Session.PutNames | main.js:317 | storing adds that name and no other |
| Session.PutLength | main.js:317 | a stored name keeps its place; a new one is added once |
| Session.PutWellFormed | main.js:317 | storing a header's pair keeps the jar well formed |
| Session.CaptureWellFormed | main.js:313-320 | capturing headers keeps the jar well formed |
| Session.CaptureLastWins | main.js:313-320 | the last header that names a cookie decides its value |
| Session.CaptureKeeps | main.js:313-320 | a cookie that no header names keeps its value |
| Session.CaptureGrows | main.js:313-320 | capturing never removes a name |
| Session.EntriesPlain | main.js:295-297 | the `name=value` entries contain no `;`, one per cookie |
| Session.SplitJoined | main.js:295-297 | splitting the joined entries on `;` gives the first entry and the others with their leading space |
| Session.EntryPairOf | main.js:295-297 | an entry splits back into its name and value |
| Session.LaterPairsSpaced | main.js:295-297 | the later entries read back as the rest of the jar |
| Session.CookieHeaderRoundTrip | main.js:294-297 | the `Cookie` header carries exactly the jar: read back, it gives the same names and values in the same order |
| Session.Resolve | main.js:326-346 | resolves exactly on 2xx; an empty body gives `{}`, a parsable body its value, an unparsable one `{ raw: body }` |
| Session.UnauthorizedEndsSession | main.js:335-340 | a 401 empties the jar, lowers `authenticated` and rejects, whatever cookies came with it |
| Session.OtherRepliesKeepSession | main.js:312-345 | any other reply keeps the flag and only adds cookies |
| Session.LoginNeedsSuccess | main.js:165-188 | a login succeeds only on a 2xx reply |
| Session.LoginByNewCookie | main.js:176-183 | a 2xx reply whose last `SessionID` cookie is set logs in exactly when that value is non-empty |
| Session.LoginByStoredCookie | main.js:176-183 | a 2xx reply that sets no `SessionID` logs in exactly when the jar already held a non-empty one |
| Session.LoginPathNormal | main.js:170 | the login path is already normal |
| Session.Client.constructor | main.js:133-134 | a connection starts with an empty jar and not authenticated |
| Session.Client.Prepare | main.js:273-298 | the request path is normalised under `/apis`, no `Cookie` header exactly for an empty jar, and the header carries the jar exactly |
| Session.Client.CaptureCookies | main.js:313-320 | the `forEach` over `Set-Cookie` stores what the capture function describes and keeps the jar well formed |
| Session.Client.Complete | main.js:312-346 | the result is the reply's resolution, the jar is the captured jar (emptied on 401), and the flag drops only on 401 |
| Session.Client.Authenticate | main.js:165-188 | returns true exactly when the login succeeds; the jar follows the reply; the flag is raised on success |
| Feedbacks.StateColor | src/feedbacks.js:64-96 | a style exactly for stored states 0, 1, 2 and -1; otherwise `{}` |
| Feedbacks.NothingStored | src/feedbacks.js:50-54 | with nothing stored, every decoder feedback is off |
| Feedbacks.DecoderStatusMatchesCode | src/feedbacks.js:48-55 | a numeric stored state matches exactly the dropdown id that prints it |
| Feedbacks.NotANumber | src/feedbacks.js:52 | a word that starts and ends like no number is not converted to one |
| Feedbacks.DecoderStatusWords | src/feedbacks.js:52 | `running`, `stopped` and `error` never match a numeric state |
| Feedbacks.PublishedSignal | main.js:728-730 | the `signal` published for a stored record is derived from its stored state |
| Feedbacks.FeedbacksFollowSignal | src/feedbacks.js:123-152 | signal-present exactly for Good, has-error exactly for Error, and the green, yellow and red colours exactly for Good, No Signal and Error |
| Feedbacks.SignalFeedbacksPublished | src/feedbacks.js:123-152 | signal-present and has-error light exactly when the published `signal` is Good or Error |
| Feedbacks.StateColorFollowsSignal | src/feedbacks.js:76-90 | the green, yellow and red styles follow the published `signal` |
| Feedbacks.StoppedColorIsStopped | src/feedbacks.js:71-75 | grey is shown exactly when the published `state` is Stopped |
| Feedbacks.ConnectionMatchesVariable | src/feedbacks.js:107-110 | `connection_status` agrees with the `connection_status` variable published from the same body |
| Feedbacks.ThumbnailForDecoder | src/feedbacks.js:161-177 | decoder i's option shows its stored thumbnail exactly when one is stored and non-empty |
| Feedbacks.LoopKeepsDeviceInfo | main.js:436-471 | the decoder loop does not touch the stored device status |
| Feedbacks.StepKeepsDeviceInfo | main.js:437-470 | an iteration does not touch the stored device status |
| Feedbacks.RefreshKeepsDeviceInfo | main.js:475-499 | the refreshes do not touch the stored device status |
| Feedbacks.ConnectionAfterPoll | main.js:421-425 | after a poll, `connection_status` follows that poll's status reply when it was truthy, and keeps its previous answer otherwise |
| Actions.DecoderChoicesOr | src/actions.js:3-12 | a non-empty choice list is used as is, and an empty one gives the four default decoders |
| Actions.DefaultChoicesNumbered | src/actions.js:6-11 | the fallback lists decoder i with id `String(i)` and label `Decoder i+1` |
| Actions.StreamChoicesOr | src/actions.js:166 | the stored stream choices, or only No Stream when none are stored |
| Actions.StreamDropdownAfterFailure | main.js:978-983 | after a failed refresh the stream dropdown is empty; before any refresh it offers No Stream |
| Actions.ControlCommand | main.js:844-862 | start and stop PUT `/apis/decoders/<n>/start` or `/stop`, with no body |
| Actions.ToggleChoice | src/actions.js:43-55 | stop exactly when the stored state is 1 or 2; start otherwise or when nothing is stored |
| Actions.DecoderToggle | src/actions.js:40-55 | the toggle issues the command its choice names |
| Actions.DecoderRestart | src/actions.js:61-67 | restart issues stop, then start |
| Actions.RunningLabel | main.js:513-550 | only states 1 and 2 carry a running label |
| Actions.ToggleFollowsLabel | src/actions.js:43-55 | the toggle stops a decoder exactly when its published `state` says it runs |
| Actions.ToggleFollowsStateLabel | src/actions.js:43-55 | the toggle stops a decoder exactly when its state label is a running one |
| Actions.OverridesDetermines | src/actions.js:181-184 | a spread-and-override body is determined by its base and its changes |
| Actions.AssignStream | src/actions.js:169-200 | GET the config, then PUT it only when `info` is present, as `info` with only `streamId` replaced by the parsed id |
| Actions.UnassignStream | src/actions.js:210-238 | as assigning, with `streamId` -1 |
| Actions.AssignedLabel | src/actions.js:191-192 | the logged name is No Stream for -1; for any other id, over a map whose names are all truthy, the map's name for a listed id and `Stream n` otherwise |
| Actions.ListedStreamLabel | src/actions.js:191-192 | after a completed refresh, a listed stream is logged by its name and an unlisted one as `Stream n` |
| Actions.OverrideStep | src/actions.js:660-662 | setting one more field extends the changes by that field |
| Actions.EditStream | src/actions.js:646-676 | `-1` is refused before any request; otherwise GET, then PUT only with `data`, as `data.info` overridden by the non-empty options, the port parsed |
| Actions.CreateStream | src/actions.js:556-577 | POST the stream; `srtMode` and `latency` are present exactly for encapsulation `34`; the encapsulation is sent as an integer |
| Actions.ChoiceIdSentAsInteger | src/actions.js:173 | a dropdown id is sent as the integer it prints |
| Actions.DeleteStream | src/actions.js:597-612 | no request unless confirmed and the stream is not `-1`; then one DELETE |
| Actions.EnablePreview | src/actions.js:483-498 | GET the preview settings, then PUT them with only `enabled` replaced |
| Actions.RebootDevice | src/actions.js:688-705 | no request unless confirmed; the status message depends on `upgrade === 1`; no message after a failed request |
| Actions.WithCfg | src/actions.js:288-291 | the name ends with `.cfg`; it is unchanged exactly when it already did; otherwise only `.cfg` is appended |
| Actions.WithCfgIdempotent | src/actions.js:288-291 | forcing the suffix twice is forcing it once |
| Actions.EnsureCfg | src/actions.js:287-291 | the in-place suffix step yields the suffixed name |
| Actions.SavePreset | src/actions.js:285-299 | PUT the suffixed preset with the `startup` flag |
| Actions.PresetCommand | src/actions.js:311-450 | load (lines 311-325), duplicate (414-426) and set-startup (438-450) PUT `/load`, `/duplicate` or `/startup` on the suffixed preset, with no body |
| Actions.PresetOperationsDistinct | src/actions.js:311-450 | the three operations never address the same endpoint, whatever the preset names |
| Actions.DeletePreset | src/actions.js:343-359 | no request unless confirmed; then DELETE the suffixed preset |
| Actions.RenamePreset | src/actions.js:383-402 | both names get the suffix, and the overwrite flag is sent |

## Left out

- HTTP and HTTPS transport: sockets, TLS, chunked bodies, the 5 s timeout and `makeRequestBinary`. A request's outcome is an input. In the poll and the actions, `Fail` stands for any rejected request (a transport failure or a non-2xx status). `Session` takes the status code and headers as inputs, and there `Fail` is a transport failure only.
- `JSON.parse` and `JSON.stringify`. A reply carries its body text and the parsed value (or none) as inputs. A request body is a JSON value.
- Floating-point numbers and hexadecimal or exponent notation in `Number` and `parseInt`. Numbers are integers, and only decimal text is converted.
- Timers: `setInterval` in `startPolling` and the `setTimeout` refreshes after start, stop, restart, assignment and stream changes. One call of `GetDeviceStatus` is one poll. The restart's two-second delay is modelled only as the order of its two requests.
- Concurrency: calls that are not awaited (`processDecoderConfig`, `getThumbnail`, the list refreshes) are treated as running to completion in source order.
- Host-framework calls. `setVariableValues` is a log of publications. `checkFeedbacks`, `log`, `updateActions`/`updateFeedbacks` and `combineRgb` are left out, and colours are RGB triples. `updateStatus` appears only as the reboot message.
- The thumbnail body: decoding, resizing and base64 encoding. A stored thumbnail is an opaque string.
- `init`, `initConnection`, `configUpdated`, `getConfigFields`, `destroy` and `getDeviceInfo`: connection set-up and configuration, outside the poll engine.
- variables.js and src/presets.js: declarative tables with no logic. The model's stream defaults equal those in variables.js.
- `custom_api_call`: it needs a JSON parser for its body option.
- `select_decoder_source`, `configure_decoder_preview`, `set_preset_autosave` and `fetch_decoder_thumbnail`: pass-through requests with no rule of their own.
- Spreading a value that is not an object (`{ ...array }`, `{ ...string }`) is modelled as spreading nothing.
- Property order: the cookie jar keeps names in insertion order. JavaScript lists integer-like property names first, and that ordering is not modelled.
- Actions.AssignedLabel: for an id that does not parse (NaN) the contract states the label only when the stream map has no `NaN` key.
- `preset_count` when the preset `data` has no `length` (a number, or an object without one): the variable is left out of the publication instead of being set to `undefined`.
