/**
 * The snapshot the plugin keeps of the device, and what one poll
 * (`getDeviceStatus`) and each list refresh (`getStreamList`,
 * `getPresetList`, `getPreviewSettings`, `buildDeviceChoices`) do to it.
 *
 * The network is an input: `Replies` gives, for every request a poll may
 * issue, the value it resolves to or `Fail` when it rejects. Each operation
 * returns the new snapshot and the requests it issued, in order. Calls the
 * source starts without awaiting them are taken to complete in the order
 * they are started.
 */
module Snapshot {
  import opened Js
  import opened Reconciler

  /** A dropdown entry `{ id, label }` (`label` is `text` here). */
  datatype Choice = Choice(id: Json, text: Json)

  /** `presetInfo`, whose fields are copied from the preset reply. */
  datatype PresetInfo = PresetInfo(autosave: Option<Json>, active: Option<Json>,
                                   activeIsStartup: Option<Json>, activeWasModified: Option<Json>)

  /** The state the plugin keeps between polls. `decodersStatus` and
      `decodersConfig` are keyed by `String(i)`, as JavaScript keys them;
      `None` is a field that has never been assigned. */
  datatype Snapshot = Snapshot(
    counter: nat,
    deviceInfo: Option<Json>,
    decodersStatus: map<string, Json>,
    decodersConfig: map<string, Json>,
    thumbnails: map<int, string>,
    streamList: Option<Json>,
    streamMap: map<string, Json>,
    streamChoices: Option<seq<Choice>>,
    decoderChoices: seq<Choice>,
    presetList: Option<Json>,
    presetInfo: Option<PresetInfo>,
    presetChoices: Option<seq<Choice>>,
    previewSettings: Option<Json>)

  /** The state after the constructor: no thumbnails and no decoder choices. */
  const Initial := Snapshot(0, None, map[], map[], map[], None, map[], None, [], None, None, None, None)

  /** One `setVariableValues` call, recorded by the inputs its values are
      computed from (`Values` computes them). */
  datatype Publication =
    | DeviceStatusVars(status: Json)
    | DecoderStatusVars(decoder: int, record: Json)
    | DecoderConfigVars(decoder: int, record: Json, streamReply: Result<Json>,
                        stored: Option<Json>, streamMap: map<string, Json>)
    | StreamCountVar(count: nat)
    | StreamNameVar(decoder: int, name: Json)
    | PresetVarsOf(presets: Json, data: Json)
    | PreviewVarsOf(preview: Json)

  /** The requests a poll can issue. */
  datatype Request =
    | StatusReq
    | DecoderStatsReq(decoder: int)
    | DecoderConfigReq(decoder: int)
    | StreamReq(stream: string)
    | ThumbnailReq(decoder: int)
    | PresetsReq
    | StreamsReq
    | PreviewReq
    | ChoiceConfigReq(decoder: int)

  /** The endpoint of each request. */
  function Path(q: Request): string {
    match q
    case StatusReq => "/apis/status"
    case DecoderStatsReq(i) => "/apis/decoders/" + IntToString(i) + "/stats"
    case DecoderConfigReq(i) => "/apis/decoders/" + IntToString(i)
    case StreamReq(id) => "/apis/streams/" + id
    case ThumbnailReq(i) => "/apis/decoders/" + IntToString(i) + "/preview"
    case PresetsReq => "/apis/presets"
    case StreamsReq => "/apis/streams"
    case PreviewReq => "/apis/preview"
    case ChoiceConfigReq(i) => "/apis/decoders/" + IntToString(i)
  }

  /** What each request resolves to; a per-decoder request the map does not
      answer fails. `stream[i]` answers decoder i's fetch of its assigned
      stream; `thumbnail[i]` is `Ok(t)` when the preview image was fetched
      and encoded as `t`, and `Fail` when the fetch failed, returned nothing
      or could not be decoded. */
  datatype Replies = Replies(
    status: Result<Json>,
    decoderStats: map<int, Result<Json>>,
    decoderConfig: map<int, Result<Json>>,
    stream: map<int, Result<Json>>,
    thumbnail: map<int, Result<string>>,
    presets: Result<Json>,
    streams: Result<Json>,
    preview: Result<Json>,
    choiceConfig: map<int, Result<Json>>)

  function At<T>(m: map<int, Result<T>>, i: int): Result<T> {
    if i in m then m[i] else Fail
  }

  /** The effect of an operation: the new snapshot, the requests issued and
      the variables published, in order. */
  datatype Outcome = Outcome(state: Snapshot, issued: seq<Request>, published: seq<Publication>)

  /** The key of decoder i in `decodersStatus` and `decodersConfig`. */
  function Key(i: int): string {
    IntToString(i)
  }

  // ---------------------------------------------------------------------
  // getDeviceStatus

  /** `this.presetListCounter && this.presetListCounter % 3 === 0`, read before
      the poll increments the counter. */
  predicate ThumbnailDue(counter: nat) {
    counter != 0 && counter % 3 == 0
  }

  /** `stats && (stats.state === 2 || stats.state === 1 || stats.state === 0)`
      on the decoder's unwrapped stats. */
  predicate ThumbnailWanted(decoderStats: Json) {
    var stats := StatsOf(decoderStats);
    Truthy(stats) && Field(stats, "state") in {Some(Num(0)), Some(Num(1)), Some(Num(2))}
  }

  /** `getThumbnail('decoder', i)`. */
  function ThumbnailSpec(s: Snapshot, i: int, reply: Result<string>): Snapshot {
    if reply.Ok? then s.(thumbnails := s.thumbnails[i := reply.value]) else s
  }

  /** `processDecoderConfig(cfg, i)` started after `decodersConfig[i]` is
      stored: for an assigned stream it first fetches the stream, then it
      publishes the decoder's configuration variables. A `null` record makes
      it reject without affecting the poll, and a falsy record publishes
      nothing (the two cases where `ProcessDecoderConfig` gives no variables). */
  function ConfigSpec(s: Snapshot, r: Replies, i: int, cfg: Json): (Snapshot, seq<Request>, seq<Publication>) {
    if cfg.Null? then (s, [], [])
    else
      var config := ConfigOf(cfg);
      var issued := if Truthy(config) && StreamAssigned(config) then [StreamReq(Interpolate(Field(config, "streamId")))] else [];
      var stored := Lookup(s.decodersStatus, Key(i));
      if Truthy(config)
      then (s, issued, [DecoderConfigVars(i, cfg, At(r.stream, i), stored, s.streamMap)])
      else (s, issued, [])
  }

  /** What an iteration does once decoder i's configuration `cfg` has been
      fetched and stored: `processDecoderConfig` and, when due, the thumbnail
      fetch. Only the requests and publications of this part are listed. */
  function AfterConfig(s: Snapshot, r: Replies, i: int, stats: Json, cfg: Json): Outcome {
    var (s3, q3, p3) := ConfigSpec(s, r, i, cfg);
    var thumb := ThumbnailDue(s.counter) && ThumbnailWanted(stats);
    Outcome(if thumb then ThumbnailSpec(s3, i, At(r.thumbnail, i)) else s3,
            q3 + (if thumb then [ThumbnailReq(i)] else []), p3)
  }

  /** One iteration of the decoder loop, inside its own `try`: a failed stats
      fetch, or a `null` stats record (the one record `ProcessDecoderStatus`
      throws on), ends the iteration; so does a failed configuration fetch. */
  function DecoderStep(s: Snapshot, r: Replies, i: int): Outcome {
    var statsReply := At(r.decoderStats, i);
    if statsReply.Fail? then Outcome(s, [DecoderStatsReq(i)], [])
    else
      var stats := statsReply.value;
      var s1 := s.(decodersStatus := s.decodersStatus[Key(i) := stats]);
      if stats.Null? then Outcome(s1, [DecoderStatsReq(i)], [])
      else
        var configReply := At(r.decoderConfig, i);
        if configReply.Fail? then Outcome(s1, [DecoderStatsReq(i), DecoderConfigReq(i)], [DecoderStatusVars(i, stats)])
        else
          var s2 := s1.(decodersConfig := s1.decodersConfig[Key(i) := configReply.value]);
          Then(Outcome(s2, [DecoderStatsReq(i), DecoderConfigReq(i)], [DecoderStatusVars(i, stats)]),
               AfterConfig(s2, r, i, stats, configReply.value))
  }

  /** The first n iterations of `for (let i = 0; i < 4; i++)`. */
  function DecoderLoop(s: Snapshot, r: Replies, n: nat): Outcome
    decreases n
  {
    if n == 0 then Outcome(s, [], [])
    else
      var o := DecoderLoop(s, r, n - 1);
      var o2 := DecoderStep(o.state, r, n - 1);
      Outcome(o2.state, o.issued + o2.issued, o.published + o2.published)
  }

  /** Run `second` after `first`. */
  function Then(first: Outcome, second: Outcome): Outcome {
    Outcome(second.state, first.issued + second.issued, first.published + second.published)
  }

  /** The first half of a poll, inside the `try` of `getDeviceStatus()`: a
      truthy `/apis/status` body is stored and published, then the four
      decoders are read. */
  function DevicePhase(s: Snapshot, body: Json, r: Replies): Outcome {
    if Truthy(body)
    then Then(Outcome(s.(deviceInfo := Some(body)), [StatusReq], [DeviceStatusVars(body)]),
              DecoderLoop(s.(deviceInfo := Some(body)), r, 4))
    else Outcome(s, [StatusReq], [])
  }

  /** `this.presetListCounter++` */
  function Bump(o: Outcome): Outcome {
    o.(state := o.state.(counter := o.state.counter + 1))
  }

  /** `if (counter % 5 === 0) getPresetList()` */
  function PresetStage(o: Outcome, r: Replies): Outcome {
    if o.state.counter % 5 == 0 then Then(o, PresetListSpec(o.state, r.presets)) else o
  }

  /** `if (counter % 3 === 0) getStreamList()` */
  function StreamStage(o: Outcome, r: Replies): Outcome {
    if o.state.counter % 3 == 0 then Then(o, StreamListSpec(o.state, r.streams)) else o
  }

  /** `if (counter % 10 === 0) getPreviewSettings()` */
  function PreviewStage(o: Outcome, r: Replies): Outcome {
    if o.state.counter % 10 == 0 then Then(o, PreviewSpec(o.state, r.preview)) else o
  }

  /** `if (counter % 20 === 0) buildDeviceChoices()` */
  function ChoicesStage(o: Outcome, r: Replies): Outcome {
    if o.state.counter % 20 == 0 then Then(o, BuildChoicesSpec(o.state, r.choiceConfig)) else o
  }

  /** The second half: the counter is incremented and the refreshes due at
      the new count run, in the order of the source. */
  function RefreshPhase(o: Outcome, r: Replies): Outcome {
    ChoicesStage(PreviewStage(StreamStage(PresetStage(Bump(o), r), r), r), r)
  }

  /** One poll, `getDeviceStatus()`. A failed `/apis/status` request throws
      out of the whole poll before the counter moves. */
  function PollSpec(s: Snapshot, r: Replies): Outcome {
    if r.status.Fail? then Outcome(s, [StatusReq], [])
    else RefreshPhase(DevicePhase(s, r.status.value, r), r)
  }

  // ---------------------------------------------------------------------
  // getStreamList

  /** `stream.info.id` as a property key. */
  function StreamKey(info: Json): string {
    Interpolate(Field(info, "id"))
  }

  /** `stream.info.name || 'Stream <id>'` */
  function StreamName(info: Json): Json {
    FieldOr(info, "name", Str("Stream " + StreamKey(info)))
  }

  /** The `encapTypes` table, looked up by property key. */
  function EncapTag(key: string): Option<string> {
    if key == "2" then Some("UDP")
    else if key == "3" then Some("RTP")
    else if key == "34" then Some("SRT")
    else if key == "64" then Some("RTSP")
    else None
  }

  /** The dropdown entry of a stream: its name, then ` (address:port)` when
      both are set, then ` [tag]` for a known encapsulation. */
  function StreamChoice(info: Json): Choice {
    var address := Field(info, "address");
    var port := Field(info, "port");
    var withAddress := if Present(address) && Present(port)
      then " (" + ToString(address.value) + ":" + ToString(port.value) + ")" else "";
    var tag := EncapTag(Interpolate(Field(info, "encapsulation")));
    var withTag := if tag.Some? then " [" + tag.value + "]" else "";
    var name := StreamName(info);
    Choice(Str(StreamKey(info)), if withAddress + withTag == "" then name else Str(ToString(name) + withAddress + withTag))
  }

  /** The first stream-list entry, always present after a successful refresh. */
  const NoStreamChoice := Choice(Str("-1"), Str("No Stream"))

  /** The index of the first `null` entry (reading `.info` of it throws),
      or the length of the list. */
  function FirstNull(elems: seq<Json>): (k: nat)
    ensures k <= |elems|
    ensures forall j :: 0 <= j < k ==> !elems[j].Null?
    ensures k < |elems| ==> elems[k].Null?
  {
    if elems == [] then 0
    else if elems[0].Null? then 0
    else 1 + FirstNull(elems[1..])
  }

  /** The stream map after `forEach` has visited `elems` (none of them
      `null`): each entry with a truthy `info` sets its id to its name. */
  function StreamMapOf(m: map<string, Json>, elems: seq<Json>): map<string, Json>
    decreases |elems|
  {
    if elems == [] then m
    else
      var last := elems[|elems| - 1];
      var m1 := StreamMapOf(m, elems[..|elems| - 1]);
      if Present(Field(last, "info")) then m1[StreamKey(Field(last, "info").value) := StreamName(Field(last, "info").value)]
      else m1
  }

  /** The choices pushed while `forEach` visits `elems`. */
  function StreamChoicesOf(elems: seq<Json>): seq<Choice>
    decreases |elems|
  {
    if elems == [] then []
    else
      var last := elems[|elems| - 1];
      StreamChoicesOf(elems[..|elems| - 1]) + (if Present(Field(last, "info")) then [StreamChoice(Field(last, "info").value)] else [])
  }

  /** Visiting one more entry extends the map and the choices by that
      entry alone. */
  lemma StreamsVisitStep(m: map<string, Json>, elems: seq<Json>, k: nat)
    requires k < |elems|
    ensures var info := Field(elems[k], "info");
      && StreamMapOf(m, elems[..k + 1]) ==
         (if Present(info) then StreamMapOf(m, elems[..k])[StreamKey(info.value) := StreamName(info.value)] else StreamMapOf(m, elems[..k]))
      && StreamChoicesOf(elems[..k + 1]) ==
         StreamChoicesOf(elems[..k]) + (if Present(info) then [StreamChoice(info.value)] else [])
  {
    assert elems[..k + 1][..k] == elems[..k];
    assert elems[..k + 1][k] == elems[k];
  }

  /** The `stream_name` re-derived for each of the decoders 0..d-1 that has
      a stored config, from the stream map `m`. */
  function RederiveNames(decodersConfig: map<string, Json>, m: map<string, Json>, d: nat): seq<Publication>
    decreases d
  {
    if d == 0 then []
    else
      var i := d - 1;
      RederiveNames(decodersConfig, m, d - 1)
      + if Key(i) in decodersConfig && Truthy(decodersConfig[Key(i)])
        then [StreamNameVar(i, StreamNameFor(m, Field(ConfigOf(decodersConfig[Key(i)]), "streamId")))]
        else []
  }

  /** What `getStreamList()` leaves in `streamList`, `streamMap` and
      `streamChoices`, and what it publishes. */
  datatype StreamFields = StreamFields(list: Option<Json>, streamMap: map<string, Json>,
                                       choices: Option<seq<Choice>>, published: seq<Publication>)

  /** A failed request, a `data` that is not an array and a `null` entry all
      end in the `catch`, which empties `streamList` and `streamChoices`; by
      then the last two have already reset the map. A falsy body or a
      missing `data` changes nothing. */
  function StreamRefresh(s: Snapshot, reply: Result<Json>): StreamFields {
    var kept := StreamFields(s.streamList, s.streamMap, s.streamChoices, []);
    if reply.Fail? then kept.(list := Some(Arr([])), choices := Some([]))
    else
      var streams := reply.value;
      if !(Truthy(streams) && Present(Field(streams, "data"))) then kept
      else
        var data := Field(streams, "data").value;
        if !data.Arr? then StreamFields(Some(Arr([])), map[], Some([]), [])
        else
          var k := FirstNull(data.elems);
          var m := StreamMapOf(map[], data.elems[..k]);
          if k < |data.elems| then StreamFields(Some(Arr([])), m, Some([]), [])
          else
            StreamFields(Some(data), m, Some([NoStreamChoice] + StreamChoicesOf(data.elems)),
                         [StreamCountVar(|data.elems|)] + RederiveNames(s.decodersConfig, m, 4))
  }

  /** `getStreamList()` */
  function StreamListSpec(s: Snapshot, reply: Result<Json>): Outcome {
    var f := StreamRefresh(s, reply);
    Outcome(s.(streamList := f.list, streamMap := f.streamMap, streamChoices := f.choices), [StreamsReq], f.published)
  }

  // ---------------------------------------------------------------------
  // getPresetList, getPreviewSettings, buildDeviceChoices

  /** `v.length` of the preset `data`: arrays and strings have one, an object
      may carry a `length` field. */
  function Length(v: Json): Option<Json> {
    match v
    case Arr(e) => Some(Num(|e|))
    case Str(t) => Some(Num(|t|))
    case Obj(_) => Field(v, "length")
    case _ => None
  }

  function PresetVars(presets: Json, data: Json): Vars {
    var base := map[
      "preset_active" := FieldOr(presets, "active", Str("None")),
      "preset_autosave" := Str(if Present(Field(presets, "autosave")) then "Enabled" else "Disabled"),
      "preset_modified" := YesNo(presets, "activeWasModified")
    ];
    if Length(data).Some? then base["preset_count" := Length(data).value] else base
  }

  /** One dropdown entry per preset name: `{ id: preset, label: preset }`. */
  function PresetChoices(elems: seq<Json>): (c: seq<Choice>)
    ensures |c| == |elems|
    ensures forall k :: 0 <= k < |c| ==> c[k] == Choice(elems[k], elems[k])
  {
    seq(|elems|, k requires 0 <= k < |elems| => Choice(elems[k], elems[k]))
  }

  /** `getPresetList()`: a failed request changes nothing. */
  function PresetListSpec(s: Snapshot, reply: Result<Json>): Outcome {
    if reply.Fail? || !Truthy(reply.value) || !Present(Field(reply.value, "data")) then Outcome(s, [PresetsReq], [])
    else
      var presets := reply.value;
      var data := Field(presets, "data").value;
      var info := PresetInfo(Field(presets, "autosave"), Field(presets, "active"),
                             Field(presets, "activeIsStartup"), Field(presets, "activeWasModified"));
      Outcome(s.(presetList := Some(data), presetInfo := Some(info),
                 presetChoices := if data.Arr? then Some(PresetChoices(data.elems)) else s.presetChoices),
              [PresetsReq], [PresetVarsOf(presets, data)])
  }

  function PreviewVars(preview: Json): Vars {
    map[
      "preview_service" := Str(if Present(Field(preview, "service")) then "Enabled" else "Disabled"),
      "preview_port" := FieldOr(preview, "port", Num(8080)),
      "preview_quality" := FieldOr(preview, "quality", Str("Unknown"))
    ]
  }

  /** `getPreviewSettings()`: a failed request or a falsy body changes nothing. */
  function PreviewSpec(s: Snapshot, reply: Result<Json>): Outcome {
    if reply.Fail? || !Truthy(reply.value) then Outcome(s, [PreviewReq], [])
    else Outcome(s.(previewSettings := Some(reply.value)), [PreviewReq], [PreviewVarsOf(reply.value)])
  }

  /** The label `buildDeviceChoices` gives decoder i. */
  function DecoderChoice(i: int, reply: Result<Json>): Choice {
    var fallback := Str("Decoder " + IntToString(i));
    if reply.Ok? && Truthy(reply.value) && Present(Field(reply.value, "info"))
    then Choice(Num(i), FieldOr(Field(reply.value, "info").value, "name", fallback))
    else Choice(Num(i), fallback)
  }

  /** `buildDeviceChoices()`: one entry per decoder 0..3, whatever the replies. */
  function BuildChoicesSpec(s: Snapshot, replies: map<int, Result<Json>>): Outcome {
    Outcome(s.(decoderChoices := [DecoderChoice(0, At(replies, 0)), DecoderChoice(1, At(replies, 1)),
                                  DecoderChoice(2, At(replies, 2)), DecoderChoice(3, At(replies, 3))]),
            [ChoiceConfigReq(0), ChoiceConfigReq(1), ChoiceConfigReq(2), ChoiceConfigReq(3)], [])
  }

  // ---------------------------------------------------------------------
  // The published variables

  /** The system variables written from a truthy `/apis/status` body. */
  function DeviceVars(status: Json): Vars {
    var temperature := Field(status, "temperature");
    map[
      "device_status" := FieldOr(status, "cardStatus", Str("Unknown")),
      "device_uptime" := FieldOr(status, "uptime", Str("0 days 00:00:00")),
      "device_uptime_seconds" := FieldOr(status, "uptimeSec", Num(0)),
      "device_httpd_uptime" := FieldOr(status, "httpdUptime", Str("0")),
      "device_temperature" :=
        if Present(temperature) then Str(ToString(temperature.value) + "°C") else Str("Unknown"),
      "connection_status" :=
        Str(if Field(status, "cardStatus") == Some(Str("OK")) then "Connected" else "Error")
    ]
  }

  /** The decoder a publication belongs to (its variables are prefixed
      `decoder<i>_`), or `None` for system variables. */
  function Owner(p: Publication): Option<int> {
    match p
    case DecoderStatusVars(i, _) => Some(i)
    case DecoderConfigVars(i, _, _, _, _) => Some(i)
    case StreamNameVar(i, _) => Some(i)
    case _ => None
  }

  /** The values one publication writes. */
  function Values(p: Publication): Vars {
    match p
    case DeviceStatusVars(status) => DeviceVars(status)
    case DecoderStatusVars(i, record) =>
      var v := ProcessDecoderStatus(record, i); if v.Ok? then v.value else map[]
    case DecoderConfigVars(i, record, reply, stored, m) =>
      var v := ProcessDecoderConfig(record, i, reply, stored, m);
      if v.Ok? && v.value.Some? then v.value.value else map[]
    case StreamCountVar(n) => map["stream_count" := Num(n)]
    case StreamNameVar(_, name) => map["stream_name" := name]
    case PresetVarsOf(presets, data) => PresetVars(presets, data)
    case PreviewVarsOf(preview) => PreviewVars(preview)
  }

  /** Decoder i's variables after the publications `ps`, on top of `vars`. */
  function DecoderVarsAfter(vars: Vars, ps: seq<Publication>, i: int): Vars
    decreases |ps|
  {
    if ps == [] then vars
    else
      var before := DecoderVarsAfter(vars, ps[..|ps| - 1], i);
      var p := ps[|ps| - 1];
      if Owner(p) == Some(i) then before + Values(p) else before
  }

  // ---------------------------------------------------------------------
  // Reading the store

  /** The record stored for a decoder as the actions and feedbacks read it,
      `decodersStatus[key].stats || decodersStatus[key]`; `None` when
      nothing truthy is stored under the key. */
  function StoredStats(status: map<string, Json>, key: string): Option<Json> {
    var record := Lookup(status, key);
    if Present(record) then Some(StatsOf(record.value)) else None
  }

  /** `stats.state` of that record; `None` also when there is no record. */
  function StoredState(status: map<string, Json>, key: string): Option<Json> {
    var stats := StoredStats(status, key);
    if stats.Some? then Field(stats.value, "state") else None
  }
}
