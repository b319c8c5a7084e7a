/**
 * The state reconciler: `processDecoderStatus` and `processDecoderConfig`
 * turn one decoder's raw stats or configuration record into the flat set of
 * display variables the plugin publishes for that decoder.
 *
 * A decoder's variables are written `decoder<n>_<key>`; a `Vars` map holds
 * one decoder's variables keyed by `<key>`.
 */
module Reconciler {
  import opened Js

  type Vars = map<string, Json>

  // ---------------------------------------------------------------------
  // Enumeration tables

  /** The nested trouble-code table used when the decoder state is -1. */
  function TroubleLabel(troubleCode: Option<Json>): string {
    if !Present(troubleCode) then "Not Decoding"
    else if troubleCode.value == Num(-1) then "Unsupported Stream"
    else if troubleCode.value == Num(-2) then "Unlicensed"
    else if troubleCode.value == Num(-3) then "Oversubscribed"
    else if troubleCode.value == Num(-4) then "No Memory"
    else "Error (" + ToString(troubleCode.value) + ")"
  }

  /** Decoder `state`, compared with `===`. */
  function StateLabel(state: Option<Json>, troubleCode: Option<Json>): string {
    if state.None? then "Unknown"
    else if state.value == Num(0) then "Stopped"
    else if state.value == Num(1) then "Started (No Signal)"
    else if state.value == Num(2) then "Active"
    else if state.value == Num(-1) then TroubleLabel(troubleCode)
    else "Unknown (" + ToString(state.value) + ")"
  }

  function StreamStateLabel(streamState: Option<Json>): string {
    if streamState.None? then "Unknown"
    else
      var v := streamState.value;
      if v == Num(0) then "Unknown"
      else if v == Num(1) then "Stopped"
      else if v == Num(2) then "Listening"
      else if v == Num(3) then "Active"
      else if v == Num(4) then "Resolving"
      else if v == Num(5) then "Connecting"
      else if v == Num(6) then "Scrambled"
      else if v == Num(7) then "Securing"
      else if v == Num(-1) then "Invalid"
      else if v == Num(-2) then "Failed"
      else if v == Num(-3) then "Unlicensed"
      else "Code " + ToString(v)
  }

  /** `multisyncStatusCode`; an unlisted code falls back to the device's own
      `multisyncStatus` text. */
  function MultisyncLabel(code: Option<Json>, text: Option<Json>): Json {
    if code.None? then Str("Unknown")
    else
      var v := code.value;
      if v == Num(0) then Str("Unset")
      else if v == Num(1) then Str("Working")
      else if v == Num(2) then Str("NTP Not Set")
      else if v == Num(3) then Str("Timecode Not Present")
      else if v == Num(4) then Str("Timecode Invalid")
      else if v == Num(5) then Str("Outside Range")
      else OrElse(text, Str("Unknown"))
  }

  /** The simplified `signal` variable. */
  function Signal(state: Option<Json>): string {
    if state == Some(Num(2)) then "Good"
    else if state == Some(Num(1)) then "No Signal"
    else if state == Some(Num(-1)) then "Error"
    else "Offline"
  }

  /** `v !== undefined ? v : d` */
  function DefinedOr(o: Option<Json>, d: Json): Json {
    if o.Some? then o.value else d
  }

  /** Stream `encapsulation`, compared with `switch`. */
  function ProtocolLabel(encapsulation: Option<Json>): string {
    if encapsulation == Some(Num(2)) then "TS over UDP"
    else if encapsulation == Some(Num(3)) then "TS over RTP"
    else if encapsulation == Some(Num(34)) then "TS over SRT"
    else if encapsulation == Some(Num(64)) then "RTSP"
    else "Type " + Interpolate(encapsulation)
  }

  /** Stream connection `state`. */
  function ConnectionLabel(state: Option<Json>): string {
    if state == Some(Num(3)) then "Active"
    else if state == Some(Num(2)) then "Connecting"
    else if state == Some(Num(1)) then "Waiting"
    else "Not Connected"
  }

  // ---------------------------------------------------------------------
  // processDecoderStatus

  /** `response.stats || response`; reading `.stats` of `null` throws. */
  function StatsOf(response: Json): Json {
    Unwrap(response, "stats")
  }

  function FirstAudioPair(stats: Json): Json {
    var pairs := Field(stats, "audioPairs");
    if Present(pairs) && Present(Index(pairs.value, 0)) then Index(pairs.value, 0).value
    else Obj(map[])
  }

  function BasicVars(s: Json, deviceNum: int): Vars {
    map[
      "id" := DefinedOr(Field(s, "id"), Num(deviceNum)),
      "state" := Str(StateLabel(Field(s, "state"), Field(s, "troubleCode"))),
      "state_code" := DefinedOr(Field(s, "state"), Num(-999)),
      "trouble_code" := FieldOr(s, "troubleCode", Num(0)),
      "uptime" := FieldOr(s, "uptime", Str("00:00:00")),
      "stream_state" := Str(StreamStateLabel(Field(s, "streamState"))),
      "stream_state_code" := DefinedOr(Field(s, "streamState"), Num(-999)),
      "stream_id" := DefinedOr(Field(s, "streamId"), Str("N/A")),
      "stream_has_srt_to_udp" := YesNo(s, "streamHasSrtToUdp"),
      "decoder_started" := YesNo(s, "decoderHasBeenStarted")
    ]
  }

  function VideoVars(s: Json): Vars {
    map[
      "preprocessor_state" := FieldOr(s, "preprocessorState", Str("Unknown")),
      "vframer_packets" := FieldOr(s, "vframerNumInputPackets", Num(0)),
      "video_input_resolution" := FieldOr(s, "videoInputResolution", Str("Unknown")),
      "video_input_framerate" := FieldOr(s, "videoInputFrameRate", Str("0")),
      "video_algorithm" := FieldOr(s, "videoAlgorithm", Str("Unknown")),
      "video_profile" := FieldOr(s, "videoProfile", Str("Unknown")),
      "video_level" := FieldOr(s, "videoLevel", Str("Unknown")),
      "video_framing" := FieldOr(s, "videoFraming", Str("Unknown")),
      "video_slices" := FieldOr(s, "videoSlicesPerFrame", Str("0")),
      "video_latency" := FieldOr(s, "videoLatency", Str("0")),
      "stc_to_pcr_lead" := FieldOr(s, "stcToPcrLeadTime", Str("0")),
      "video_stc_lead" := FieldOr(s, "videoStcLeadTime", Str("0")),
      "video_stc_details" := FieldOr(s, "videoStcLeadTimeDetails", Str("N/A"))
    ]
  }

  function OutputVars(s: Json): Vars {
    map[
      "video_decoder_state" := FieldOr(s, "videoDecoderState", Str("Unknown")),
      "video_output_format" := FieldOr(s, "videoOutputFormat", Str("Unknown")),
      "video_display_format" := FieldOr(s, "videoDisplayFormat", Str("Unknown")),
      "video_display_resolution" := FieldOr(s, "videoDisplayResolution", Str("Unknown")),
      "video_framerate" := FieldOr(s, "videoFrameRate", Str("0")),
      "load_percentage" := FieldOr(s, "loadPercentage", Num(0)),
      "still_image" := FieldOr(s, "stillImage", Str("None")),
      "displayed_frames" := FieldOr(s, "displayedOutputFrames", Str("0")),
      "skipped_frames" := FieldOr(s, "skippedOutputFrames", Str("0")),
      "replayed_frames" := FieldOr(s, "replayedOutputFrames", Str("0")),
      "corrupted_frames" := FieldOr(s, "corruptedFrames", Str("0")),
      "oversubscribed_frames" := FieldOr(s, "oversubscribedFrames", Str("0")),
      "buffer_mode" := FieldOr(s, "bufferingMode", Str("Unknown")),
      "buffer_state" := FieldOr(s, "bufferingState", Str("Unknown")),
      "buffer_adjustments" := FieldOr(s, "bufferingAdjustments", Str("0"))
    ]
  }

  function AudioVars(s: Json): Vars {
    var a := FirstAudioPair(s);
    map[
      "audio_state" := FieldOr(s, "audioState", Str("Unknown")),
      "audio_pairs_count" := FieldOr(s, "audioPairsAmount", Num(0)),
      "audio_sample_rate" := FieldOr(s, "audioSampleRate", Str("0")),
      "audio_played_frames" := FieldOr(s, "audioPlayedFrames", Str("0")),
      "audio_skipped_frames" := FieldOr(s, "audioSkippedFrames", Str("0")),
      "audio_avsync" := FieldOr(a, "avSyncMs", Num(0)),
      "audio_bitrate" := FieldOr(a, "bitrateInKbps", Num(0)),
      "audio_compression" := FieldOr(a, "compression", Str("Unknown")),
      "audio_db_left" := FieldOr(a, "dbLeft", Str("-∞")),
      "audio_db_left_max" := FieldOr(a, "dbLeftMax", Str("-∞")),
      "audio_db_right" := FieldOr(a, "dbRight", Str("-∞")),
      "audio_db_right_max" := FieldOr(a, "dbRightMax", Str("-∞")),
      "audio_discontinuities" := FieldOr(a, "discontinuities", Num(0)),
      "audio_input_layout" := FieldOr(a, "inputLayout", Str("Unknown")),
      "audio_output_layout" := FieldOr(a, "outputLayout", Str("Unknown")),
      "audio_language" := FieldOr(a, "language", Str("Unknown")),
      "audio_sample_in" := FieldOr(a, "sampeRateIn", Num(0)),
      "audio_sample_out" := FieldOr(a, "sampeRateOut", Num(0))
    ]
  }

  function SyncVars(s: Json): Vars {
    map[
      "delay_min" := FieldOr(s, "delayRangeMinMs", Num(0)),
      "delay_max" := FieldOr(s, "delayRangeMaxMs", Num(0)),
      "multisync_status" := MultisyncLabel(Field(s, "multisyncStatusCode"), Field(s, "multisyncStatus")),
      "multisync_delay_actual" := FieldOr(s, "multisyncDelayActual", Str("N/A")),
      "multisync_delay_range" := FieldOr(s, "multisyncDelayRange", Str("N/A")),
      "multisync_delay_set" := FieldOr(s, "multisyncDelaySet", Str("N/A")),
      "multisync_system_time" := FieldOr(s, "multisyncSystemTime", Str("N/A")),
      "multisync_timecode" := FieldOr(s, "multisyncTimecode", Str("N/A")),
      "multisync_time_diff" := FieldOr(s, "multisyncTimeDiff", Str("N/A")),
      "multisync_tc_packets" := FieldOr(s, "multisyncTimecodePackets", Str("0")),
      "multisync_transmission" := FieldOr(s, "multisyncTransmissionTime", Str("N/A"))
    ]
  }

  function MetadataVars(s: Json): Vars {
    map[
      "has_klv" := YesNo(s, "klv"),
      "klv_payload_bytes" := FieldOr(s, "klvPayloadBytes", Str("0")),
      "klv_received" := FieldOr(s, "klvReceivedPackets", Str("0")),
      "klv_output" := FieldOr(s, "klvOutputPackets", Str("0")),
      "klv_latency" := FieldOr(s, "klvLatency", Str("0")),
      "has_cc" := YesNo(s, "closedCaption"),
      "cc_payload_bytes" := FieldOr(s, "ccPayloadBytes", Str("0")),
      "cc_received" := FieldOr(s, "ccReceivedPackets", Str("0")),
      "cc_output" := FieldOr(s, "ccOutputPackets", Str("0")),
      "cc_latency" := FieldOr(s, "ccLatency", Str("0")),
      "has_timecode" := YesNo(s, "timeCode"),
      "tc_payload_bytes" := FieldOr(s, "tcPayloadBytes", Str("0")),
      "tc_received" := FieldOr(s, "tcReceivedPackets", Str("0")),
      "tc_output" := FieldOr(s, "tcOutputPackets", Str("0")),
      "tc_latency" := FieldOr(s, "tcLatency", Str("0")),
      "tc_value" := FieldOr(s, "tcTimecodeValue", Str("N/A")),
      "has_afd" := YesNo(s, "afd"),
      "afd_payload_bytes" := FieldOr(s, "afdcPayloadBytes", Str("0")),
      "afd_received" := FieldOr(s, "afdReceivedPackets", Str("0")),
      "afd_output" := FieldOr(s, "afdOutputPackets", Str("0")),
      "afd_latency" := FieldOr(s, "afdLatency", Str("0"))
    ]
  }

  function ClockVars(s: Json): Vars {
    map[
      "clock_mode" := FieldOr(s, "clockTrackingMode", Str("Unknown")),
      "clock_status" := FieldOr(s, "clockStatus", Str("Unknown")),
      "clock_resync_count" := FieldOr(s, "clockReSyncCount", Num(0)),
      "clock_current_stc" := FieldOr(s, "clockCurrentStc", Str("Unknown")),
      "clock_stc_avg" := FieldOr(s, "clockStcAvg", Str("Unknown")),
      "hdr_type_in" := FieldOr(s, "hdrTypeIn", Str("SDR")),
      "hdr_type" := FieldOr(s, "hdrType", Str("SDR")),
      "hdr_primaries" := FieldOr(s, "hdrColourPrimaries", Str("Unknown")),
      "hdr_transfer" := FieldOr(s, "hdrTransferCharacteristics", Str("Unknown")),
      "hdr_matrix" := FieldOr(s, "hdrMatrixCoefficients", Str("Unknown")),
      "last_reset" := FieldOr(s, "lastReset", Str("Never")),
      "signal" := Str(Signal(Field(s, "state")))
    ]
  }

  /** `processDecoderStatus(response, deviceNum)`: the variables written for
      one decoder from its `/apis/decoders/<n>/stats` response. Reading
      `.stats` of a `null` response throws. */
  function ProcessDecoderStatus(response: Json, deviceNum: int): (r: Result<Vars>)
    ensures r.Fail? <==> response.Null?
  {
    if response.Null? then Fail
    else
      var s := StatsOf(response);
      Ok(BasicVars(s, deviceNum) + VideoVars(s) + OutputVars(s) + AudioVars(s)
         + SyncVars(s) + MetadataVars(s) + ClockVars(s))
  }

  // ---------------------------------------------------------------------
  // processDecoderConfig

  /** `config.streamId !== undefined && config.streamId >= 0` */
  predicate StreamAssigned(config: Json) {
    NonNegative(Field(config, "streamId"))
  }

  /** `response.info || response` */
  function ConfigOf(response: Json): Json {
    Unwrap(response, "info")
  }

  /** The request for the stream assigned to a decoder. */
  function StreamPath(config: Json): string {
    "/apis/streams/" + Interpolate(Field(config, "streamId"))
  }

  /** The `data` of the assigned stream's reply, when a stream is assigned and
      its fetch returned a body with `data`. */
  function StreamDetails(config: Json, reply: Result<Json>): Option<Json> {
    if StreamAssigned(config) && reply.Ok? && Truthy(reply.value) && Present(Field(reply.value, "data"))
    then Some(Field(reply.value, "data").value)
    else None
  }

  /** The stored stats of the decoder say it is started: `(s.stats || s).state > 0`. */
  predicate DecoderStarted(stored: Option<Json>) {
    Present(stored) && Positive(Field(StatsOf(stored.value), "state"))
  }

  /** `streamMap[streamId]` when the id is `>= 0` and the entry is truthy, else 'None'. */
  function StreamNameFor(streamMap: map<string, Json>, streamId: Option<Json>): Json {
    if NonNegative(streamId) && ToString(streamId.value) in streamMap && Truthy(streamMap[ToString(streamId.value)])
    then streamMap[ToString(streamId.value)]
    else Str("None")
  }

  /** The source address; an SRT stream reports its peer under `stats.srt`. */
  function SourceAddress(info: Json, stats: Json): Json {
    var plain := FieldOr(stats, "sourceAddress", Str("Unknown"));
    var srt := Field(stats, "srt");
    if Field(info, "encapsulation") == Some(Num(34)) && Present(srt)
    then OrElse(Field(srt.value, "remoteAddress"), OrElse(Field(srt.value, "peerAddress"), plain))
    else plain
  }

  /** The ten stream variables when the assigned stream's detail is known. */
  function StreamDetailVars(detail: Json, started: bool): Vars {
    var info := FieldOr(detail, "info", Obj(map[]));
    var stats := FieldOr(detail, "stats", Obj(map[]));
    map[
      "stream_protocol" := Str(ProtocolLabel(Field(info, "encapsulation"))),
      "stream_address" := FieldOr(info, "address", Str("N/A")),
      "stream_port" := FieldOr(info, "port", Str("N/A")),
      "stream_bitrate" := if started then FieldOr(stats, "bitrate", Str("0 kbps")) else Str("0 kbps"),
      "stream_source_address" := SourceAddress(info, stats),
      "stream_uptime" := FieldOr(stats, "uptime", Str("0s")),
      "stream_connection_state" := Str(ConnectionLabel(Field(stats, "state"))),
      "stream_received_packets" := FieldOr(stats, "receivedPackets", Str("0")),
      "stream_received_bytes" := FieldOr(stats, "receivedBytes", Str("0")),
      "stream_summary" := FieldOr(stats, "streamSummary", Str("No data"))
    ]
  }

  /** The ten stream variables when no stream detail is available. */
  const StreamDefaults: Vars := map[
    "stream_protocol" := Str("None"),
    "stream_address" := Str("N/A"),
    "stream_port" := Str("N/A"),
    "stream_bitrate" := Str("0 kbps"),
    "stream_source_address" := Str("Unknown"),
    "stream_uptime" := Str("0s"),
    "stream_connection_state" := Str("Not Connected"),
    "stream_received_packets" := Str("0"),
    "stream_received_bytes" := Str("0"),
    "stream_summary" := Str("No stream")
  ]

  const StreamKeys: set<string> := {
    "stream_protocol", "stream_address", "stream_port", "stream_bitrate",
    "stream_source_address", "stream_uptime", "stream_connection_state",
    "stream_received_packets", "stream_received_bytes", "stream_summary"
  }

  const ConfigKeys: set<string> := {"name", "stream_assigned", "stream_id_config", "stream_name"} + StreamKeys

  /** `processDecoderConfig(response, deviceNum)`.
      `streamReply` is the reply to `StreamPath` (used only when a stream is
      assigned), `stored` the decoder's entry in `decodersStatus` and
      `streamMap` the current stream-id-to-name map. `Ok(None)`: the record
      is falsy and nothing is written; `Fail`: reading `.info` of `null`
      throws. */
  function ProcessDecoderConfig(response: Json, deviceNum: int, streamReply: Result<Json>,
                                stored: Option<Json>, streamMap: map<string, Json>): (r: Result<Option<Vars>>)
    ensures r.Fail? <==> response.Null?
    ensures r.Ok? ==> (r.value.Some? <==> Truthy(ConfigOf(response)))
  {
    if response.Null? then Fail
    else
      var config := ConfigOf(response);
      if !Truthy(config) then Ok(None)
      else
        var id := Field(config, "streamId");
        var detail := StreamDetails(config, streamReply);
        var stream := if detail.Some? then StreamDetailVars(detail.value, DecoderStarted(stored)) else StreamDefaults;
        Ok(Some(map[
          "name" := FieldOr(config, "name", Str("Decoder " + IntToString(deviceNum))),
          "stream_assigned" := Str(if StreamAssigned(config) then "Yes" else "No"),
          "stream_id_config" := DefinedOr(id, Num(-1)),
          "stream_name" := StreamNameFor(streamMap, id)
        ] + stream))
  }

  // ---------------------------------------------------------------------
  // Reference tables, as the device documents its codes

  const StateNames: map<int, string> := map[0 := "Stopped", 1 := "Started (No Signal)", 2 := "Active"]

  const TroubleNames: map<int, string> :=
    map[-1 := "Unsupported Stream", -2 := "Unlicensed", -3 := "Oversubscribed", -4 := "No Memory"]

  const StreamStateNames: map<int, string> := map[
    0 := "Unknown", 1 := "Stopped", 2 := "Listening", 3 := "Active", 4 := "Resolving",
    5 := "Connecting", 6 := "Scrambled", 7 := "Securing", -1 := "Invalid", -2 := "Failed", -3 := "Unlicensed"
  ]

  const MultisyncNames: map<int, string> := map[
    0 := "Unset", 1 := "Working", 2 := "NTP Not Set", 3 := "Timecode Not Present",
    4 := "Timecode Invalid", 5 := "Outside Range"
  ]

  const ProtocolNames: map<int, string> := map[2 := "TS over UDP", 3 := "TS over RTP", 34 := "TS over SRT", 64 := "RTSP"]

  const ConnectionNames: map<int, string> := map[1 := "Waiting", 2 := "Connecting", 3 := "Active"]

  // ---------------------------------------------------------------------
  // Lemmas: the enumeration tables

  /** Decoder state: 0/1/2 name the state, -1 defers to the trouble table,
      any other number n is 'Unknown (n)', and an absent state is 'Unknown'. */
  lemma StateLabelTable(n: int, troubleCode: Option<Json>)
    ensures StateLabel(Some(Num(n)), troubleCode) ==
      if n in StateNames then StateNames[n]
      else if n == -1 then TroubleLabel(troubleCode)
      else "Unknown (" + IntToString(n) + ")"
    ensures StateLabel(None, troubleCode) == "Unknown"
  {
  }

  /** Each of the four plain labels arises from exactly one case. */
  lemma StateLabelExact(state: Option<Json>, troubleCode: Option<Json>)
    ensures StateLabel(state, troubleCode) == "Stopped" <==> state == Some(Num(0))
    ensures StateLabel(state, troubleCode) == "Started (No Signal)" <==> state == Some(Num(1))
    ensures StateLabel(state, troubleCode) == "Active" <==> state == Some(Num(2))
    ensures StateLabel(state, troubleCode) == "Unknown" <==> state.None?
  {
    if state.Some? && state.value != Num(0) && state.value != Num(1) && state.value != Num(2) {
      if state.value == Num(-1) {
        TroubleLabelShape(troubleCode);
      } else {
        var u := "Unknown (" + ToString(state.value) + ")";
        assert u[0] == 'U' && |u| > 9;
      }
    }
  }

  /** The labels of the trouble table never read like a plain state label. */
  lemma TroubleLabelShape(troubleCode: Option<Json>)
    ensures var t := TroubleLabel(troubleCode);
      t != "Stopped" && t != "Started (No Signal)" && t != "Active" && t != "Unknown"
  {
    if Present(troubleCode) {
      var e := "Error (" + ToString(troubleCode.value) + ")";
      assert e[0] == 'E';
    }
  }

  /** Trouble codes -1..-4 are named, an absent or falsy code (0 included) is
      'Not Decoding', any other number n is 'Error (n)'. */
  lemma TroubleLabelTable(n: int)
    ensures TroubleLabel(Some(Num(n))) ==
      if n in TroubleNames then TroubleNames[n]
      else if n == 0 then "Not Decoding"
      else "Error (" + IntToString(n) + ")"
    ensures TroubleLabel(None) == "Not Decoding"
  {
  }

  /** 'Not Decoding' is exactly the absent or falsy trouble code. */
  lemma TroubleLabelNotDecoding(troubleCode: Option<Json>)
    ensures TroubleLabel(troubleCode) == "Not Decoding" <==> !Present(troubleCode)
  {
    if Present(troubleCode) {
      var e := "Error (" + ToString(troubleCode.value) + ")";
      assert e[0] == 'E';
    }
  }

  /** `signal` agrees with the state label: 'Good' exactly for 'Active',
      'No Signal' exactly for 'Started (No Signal)', 'Error' exactly for the
      trouble state -1, 'Offline' for everything else. */
  lemma SignalAgreesWithState(state: Option<Json>, troubleCode: Option<Json>)
    ensures Signal(state) == "Good" <==> StateLabel(state, troubleCode) == "Active"
    ensures Signal(state) == "No Signal" <==> StateLabel(state, troubleCode) == "Started (No Signal)"
    ensures Signal(state) == "Error" <==> state == Some(Num(-1))
    ensures Signal(state) == "Offline" <==>
      state != Some(Num(1)) && state != Some(Num(2)) && state != Some(Num(-1))
  {
    StateLabelExact(state, troubleCode);
  }

  /** Stream state: the eleven listed codes are named; any other number n is
      'Code n'; an absent stream state is 'Unknown'. */
  lemma StreamStateTable(n: int)
    ensures StreamStateLabel(Some(Num(n))) ==
      if n in StreamStateNames then StreamStateNames[n] else "Code " + IntToString(n)
    ensures StreamStateLabel(None) == "Unknown"
  {
  }

  /** Multisync status: codes 0..5 are named; any other code shows the
      device's own `multisyncStatus` text, or 'Unknown'. */
  lemma MultisyncTable(n: int, text: Option<Json>)
    ensures MultisyncLabel(Some(Num(n)), text) ==
      if n in MultisyncNames then Str(MultisyncNames[n])
      else if Present(text) then text.value
      else Str("Unknown")
    ensures MultisyncLabel(None, text) == Str("Unknown")
  {
  }

  /** Encapsulation: 2/3/34/64 are named protocols, any other number n is 'Type n'. */
  lemma ProtocolTable(n: int)
    ensures ProtocolLabel(Some(Num(n))) ==
      if n in ProtocolNames then ProtocolNames[n] else "Type " + IntToString(n)
  {
  }

  /** A protocol label is never the 'None' of the no-stream fallback. */
  lemma ProtocolNeverNone(encapsulation: Option<Json>)
    ensures ProtocolLabel(encapsulation) != "None"
  {
    var l := ProtocolLabel(encapsulation);
    assert l[0] == 'T' || l[0] == 'R';
  }

  /** Connection state: 3/2/1 are named, anything else is 'Not Connected'. */
  lemma ConnectionTable(state: Option<Json>)
    ensures ConnectionLabel(state) ==
      if state.Some? && state.value.Num? && state.value.n in ConnectionNames
      then ConnectionNames[state.value.n] else "Not Connected"
  {
  }

  // ---------------------------------------------------------------------
  // Lemmas: processDecoderStatus

  lemma UnionKeys(a: Vars, b: Vars)
    ensures (a + b).Keys == a.Keys + b.Keys
  {
  }

  // The names of the variables each group writes.
  const BasicKeys: set<string> := {"id", "state", "state_code", "trouble_code", "uptime", "stream_state", "stream_state_code", "stream_id", "stream_has_srt_to_udp", "decoder_started"}
  const VideoKeys: set<string> := {"preprocessor_state", "vframer_packets", "video_input_resolution", "video_input_framerate", "video_algorithm", "video_profile", "video_level", "video_framing", "video_slices", "video_latency", "stc_to_pcr_lead", "video_stc_lead", "video_stc_details"}
  const OutputKeys: set<string> := {"video_decoder_state", "video_output_format", "video_display_format", "video_display_resolution", "video_framerate", "load_percentage", "still_image", "displayed_frames", "skipped_frames", "replayed_frames", "corrupted_frames", "oversubscribed_frames", "buffer_mode", "buffer_state", "buffer_adjustments"}
  const AudioKeys: set<string> := {"audio_state", "audio_pairs_count", "audio_sample_rate", "audio_played_frames", "audio_skipped_frames", "audio_avsync", "audio_bitrate", "audio_compression", "audio_db_left", "audio_db_left_max", "audio_db_right", "audio_db_right_max", "audio_discontinuities", "audio_input_layout", "audio_output_layout", "audio_language", "audio_sample_in", "audio_sample_out"}
  const SyncKeys: set<string> := {"delay_min", "delay_max", "multisync_status", "multisync_delay_actual", "multisync_delay_range", "multisync_delay_set", "multisync_system_time", "multisync_timecode", "multisync_time_diff", "multisync_tc_packets", "multisync_transmission"}
  const MetadataKeys: set<string> := {"has_klv", "klv_payload_bytes", "klv_received", "klv_output", "klv_latency", "has_cc", "cc_payload_bytes", "cc_received", "cc_output", "cc_latency", "has_timecode", "tc_payload_bytes", "tc_received", "tc_output", "tc_latency", "tc_value", "has_afd", "afd_payload_bytes", "afd_received", "afd_output", "afd_latency"}
  const ClockKeys: set<string> := {"clock_mode", "clock_status", "clock_resync_count", "clock_current_stc", "clock_stc_avg", "hdr_type_in", "hdr_type", "hdr_primaries", "hdr_transfer", "hdr_matrix", "last_reset", "signal"}

  const StatusKeys: set<string> :=
    BasicKeys + VideoKeys + OutputKeys + AudioKeys + SyncKeys + MetadataKeys + ClockKeys

  lemma BasicKeysFixed(s: Json, n: int)
    ensures BasicVars(s, n).Keys == BasicKeys
  {
  }

  lemma VideoKeysFixed(s: Json)
    ensures VideoVars(s).Keys == VideoKeys
  {
  }

  lemma OutputKeysFixed(s: Json)
    ensures OutputVars(s).Keys == OutputKeys
  {
  }

  lemma AudioKeysFixed(s: Json)
    ensures AudioVars(s).Keys == AudioKeys
  {
  }

  lemma SyncKeysFixed(s: Json)
    ensures SyncVars(s).Keys == SyncKeys
  {
  }

  lemma MetadataKeysFixed(s: Json)
    ensures MetadataVars(s).Keys == MetadataKeys
  {
  }

  lemma ClockKeysFixed(s: Json)
    ensures ClockVars(s).Keys == ClockKeys
  {
  }

  /** Every run writes the same hundred variables, whatever the record holds. */
  lemma StatusKeysFixed(response: Json, deviceNum: int)
    requires !response.Null?
    ensures ProcessDecoderStatus(response, deviceNum).Ok?
    ensures ProcessDecoderStatus(response, deviceNum).value.Keys == StatusKeys
  {
    var s := StatsOf(response);
    var b, vi, o, a, sy, me, c := BasicVars(s, deviceNum), VideoVars(s), OutputVars(s), AudioVars(s), SyncVars(s), MetadataVars(s), ClockVars(s);
    BasicKeysFixed(s, deviceNum);
    VideoKeysFixed(s);
    OutputKeysFixed(s);
    AudioKeysFixed(s);
    SyncKeysFixed(s);
    MetadataKeysFixed(s);
    ClockKeysFixed(s);
    UnionKeys(b, vi);
    UnionKeys(b + vi, o);
    UnionKeys(b + vi + o, a);
    UnionKeys(b + vi + o + a, sy);
    UnionKeys(b + vi + o + a + sy, me);
    UnionKeys(b + vi + o + a + sy + me, c);
  }

  lemma UnionLookup(a: Vars, b: Vars, k: string)
    ensures Lookup(a + b, k) == if k in b then Lookup(b, k) else Lookup(a, k)
  {
  }

  /** Which group a variable's value comes from: a later group wins. */
  lemma StatusLookup(response: Json, deviceNum: int, k: string)
    requires !response.Null?
    ensures var v := ProcessDecoderStatus(response, deviceNum).value; var s := StatsOf(response);
      && (k in ClockKeys ==> Lookup(v, k) == Lookup(ClockVars(s), k))
      && (k !in ClockKeys && k in MetadataKeys ==> Lookup(v, k) == Lookup(MetadataVars(s), k))
      && ((k !in ClockKeys && k !in MetadataKeys && k in SyncKeys) ==> Lookup(v, k) == Lookup(SyncVars(s), k))
      && ((k !in ClockKeys && k !in MetadataKeys && k !in SyncKeys && k in AudioKeys) ==> Lookup(v, k) == Lookup(AudioVars(s), k))
      && ((k !in ClockKeys && k !in MetadataKeys && k !in SyncKeys && k !in AudioKeys && k in OutputKeys) ==> Lookup(v, k) == Lookup(OutputVars(s), k))
      && ((k !in ClockKeys && k !in MetadataKeys && k !in SyncKeys && k !in AudioKeys && k !in OutputKeys && k in VideoKeys) ==> Lookup(v, k) == Lookup(VideoVars(s), k))
      && ((k !in ClockKeys && k !in MetadataKeys && k !in SyncKeys && k !in AudioKeys && k !in OutputKeys && k !in VideoKeys) ==> Lookup(v, k) == Lookup(BasicVars(s, deviceNum), k))
  {
    var s := StatsOf(response);
    var b, vi, o, a, sy, me, c := BasicVars(s, deviceNum), VideoVars(s), OutputVars(s), AudioVars(s), SyncVars(s), MetadataVars(s), ClockVars(s);
    VideoKeysFixed(s);
    OutputKeysFixed(s);
    AudioKeysFixed(s);
    SyncKeysFixed(s);
    MetadataKeysFixed(s);
    ClockKeysFixed(s);
    UnionLookup(b + vi + o + a + sy + me, c, k);
    UnionLookup(b + vi + o + a + sy, me, k);
    UnionLookup(b + vi + o + a, sy, k);
    UnionLookup(b + vi + o, a, k);
    UnionLookup(b + vi, o, k);
    UnionLookup(b, vi, k);
  }

  // No variable is written by two groups (one pair of groups at a time).
  lemma BasicVideoDisjoint() ensures BasicKeys !! VideoKeys {}
  lemma BasicOutputDisjoint() ensures BasicKeys !! OutputKeys {}
  lemma BasicAudioDisjoint() ensures BasicKeys !! AudioKeys {}
  lemma BasicSyncDisjoint() ensures BasicKeys !! SyncKeys {}
  lemma BasicMetadataDisjoint() ensures BasicKeys !! MetadataKeys {}
  lemma BasicClockDisjoint() ensures BasicKeys !! ClockKeys {}
  lemma VideoOutputDisjoint() ensures VideoKeys !! OutputKeys {}
  lemma VideoAudioDisjoint() ensures VideoKeys !! AudioKeys {}
  lemma VideoSyncDisjoint() ensures VideoKeys !! SyncKeys {}
  lemma VideoMetadataDisjoint() ensures VideoKeys !! MetadataKeys {}
  lemma VideoClockDisjoint() ensures VideoKeys !! ClockKeys {}
  lemma OutputAudioDisjoint() ensures OutputKeys !! AudioKeys {}
  lemma OutputSyncDisjoint() ensures OutputKeys !! SyncKeys {}
  lemma OutputMetadataDisjoint() ensures OutputKeys !! MetadataKeys {}
  lemma OutputClockDisjoint() ensures OutputKeys !! ClockKeys {}
  lemma AudioSyncDisjoint() ensures AudioKeys !! SyncKeys {}
  lemma AudioMetadataDisjoint() ensures AudioKeys !! MetadataKeys {}
  lemma AudioClockDisjoint() ensures AudioKeys !! ClockKeys {}
  lemma SyncMetadataDisjoint() ensures SyncKeys !! MetadataKeys {}
  lemma SyncClockDisjoint() ensures SyncKeys !! ClockKeys {}
  lemma MetadataClockDisjoint() ensures MetadataKeys !! ClockKeys {}

  lemma GroupsDisjoint()
    ensures BasicKeys !! VideoKeys
    ensures BasicKeys !! OutputKeys
    ensures BasicKeys !! AudioKeys
    ensures BasicKeys !! SyncKeys
    ensures BasicKeys !! MetadataKeys
    ensures BasicKeys !! ClockKeys
    ensures VideoKeys !! OutputKeys
    ensures VideoKeys !! AudioKeys
    ensures VideoKeys !! SyncKeys
    ensures VideoKeys !! MetadataKeys
    ensures VideoKeys !! ClockKeys
    ensures OutputKeys !! AudioKeys
    ensures OutputKeys !! SyncKeys
    ensures OutputKeys !! MetadataKeys
    ensures OutputKeys !! ClockKeys
    ensures AudioKeys !! SyncKeys
    ensures AudioKeys !! MetadataKeys
    ensures AudioKeys !! ClockKeys
    ensures SyncKeys !! MetadataKeys
    ensures SyncKeys !! ClockKeys
    ensures MetadataKeys !! ClockKeys
  {
    BasicVideoDisjoint();
    BasicOutputDisjoint();
    BasicAudioDisjoint();
    BasicSyncDisjoint();
    BasicMetadataDisjoint();
    BasicClockDisjoint();
    VideoOutputDisjoint();
    VideoAudioDisjoint();
    VideoSyncDisjoint();
    VideoMetadataDisjoint();
    VideoClockDisjoint();
    OutputAudioDisjoint();
    OutputSyncDisjoint();
    OutputMetadataDisjoint();
    OutputClockDisjoint();
    AudioSyncDisjoint();
    AudioMetadataDisjoint();
    AudioClockDisjoint();
    SyncMetadataDisjoint();
    SyncClockDisjoint();
    MetadataClockDisjoint();
  }

  /** Each group's variables reach the published record unchanged. */
  lemma BasicPublished(response: Json, deviceNum: int)
    requires !response.Null?
    ensures var v := ProcessDecoderStatus(response, deviceNum).value; var s := StatsOf(response);
      forall k :: k in BasicKeys ==> Lookup(v, k) == Lookup(BasicVars(s, deviceNum), k)
  {
    BasicVideoDisjoint();
    BasicOutputDisjoint();
    BasicAudioDisjoint();
    BasicSyncDisjoint();
    BasicMetadataDisjoint();
    BasicClockDisjoint();
    forall k | k in BasicKeys {
      StatusLookup(response, deviceNum, k);
    }
  }

  lemma VideoPublished(response: Json, deviceNum: int)
    requires !response.Null?
    ensures var v := ProcessDecoderStatus(response, deviceNum).value; var s := StatsOf(response);
      forall k :: k in VideoKeys ==> Lookup(v, k) == Lookup(VideoVars(s), k)
  {
    BasicVideoDisjoint();
    VideoOutputDisjoint();
    VideoAudioDisjoint();
    VideoSyncDisjoint();
    VideoMetadataDisjoint();
    VideoClockDisjoint();
    forall k | k in VideoKeys {
      StatusLookup(response, deviceNum, k);
    }
  }

  lemma OutputPublished(response: Json, deviceNum: int)
    requires !response.Null?
    ensures var v := ProcessDecoderStatus(response, deviceNum).value; var s := StatsOf(response);
      forall k :: k in OutputKeys ==> Lookup(v, k) == Lookup(OutputVars(s), k)
  {
    BasicOutputDisjoint();
    VideoOutputDisjoint();
    OutputAudioDisjoint();
    OutputSyncDisjoint();
    OutputMetadataDisjoint();
    OutputClockDisjoint();
    forall k | k in OutputKeys {
      StatusLookup(response, deviceNum, k);
    }
  }

  lemma AudioPublished(response: Json, deviceNum: int)
    requires !response.Null?
    ensures var v := ProcessDecoderStatus(response, deviceNum).value; var s := StatsOf(response);
      forall k :: k in AudioKeys ==> Lookup(v, k) == Lookup(AudioVars(s), k)
  {
    BasicAudioDisjoint();
    VideoAudioDisjoint();
    OutputAudioDisjoint();
    AudioSyncDisjoint();
    AudioMetadataDisjoint();
    AudioClockDisjoint();
    forall k | k in AudioKeys {
      StatusLookup(response, deviceNum, k);
    }
  }

  lemma SyncPublished(response: Json, deviceNum: int)
    requires !response.Null?
    ensures var v := ProcessDecoderStatus(response, deviceNum).value; var s := StatsOf(response);
      forall k :: k in SyncKeys ==> Lookup(v, k) == Lookup(SyncVars(s), k)
  {
    BasicSyncDisjoint();
    VideoSyncDisjoint();
    OutputSyncDisjoint();
    AudioSyncDisjoint();
    SyncMetadataDisjoint();
    SyncClockDisjoint();
    forall k | k in SyncKeys {
      StatusLookup(response, deviceNum, k);
    }
  }

  lemma MetadataPublished(response: Json, deviceNum: int)
    requires !response.Null?
    ensures var v := ProcessDecoderStatus(response, deviceNum).value; var s := StatsOf(response);
      forall k :: k in MetadataKeys ==> Lookup(v, k) == Lookup(MetadataVars(s), k)
  {
    BasicMetadataDisjoint();
    VideoMetadataDisjoint();
    OutputMetadataDisjoint();
    AudioMetadataDisjoint();
    SyncMetadataDisjoint();
    MetadataClockDisjoint();
    forall k | k in MetadataKeys {
      StatusLookup(response, deviceNum, k);
    }
  }

  lemma ClockPublished(response: Json, deviceNum: int)
    requires !response.Null?
    ensures var v := ProcessDecoderStatus(response, deviceNum).value; var s := StatsOf(response);
      forall k :: k in ClockKeys ==> Lookup(v, k) == Lookup(ClockVars(s), k)
  {
    BasicClockDisjoint();
    VideoClockDisjoint();
    OutputClockDisjoint();
    AudioClockDisjoint();
    SyncClockDisjoint();
    MetadataClockDisjoint();
    forall k | k in ClockKeys {
      StatusLookup(response, deviceNum, k);
    }
  }

  /** The published record is the union of the seven groups: every variable
      holds the value its own group computed from the record. */
  lemma StatusGroupsPublished(response: Json, deviceNum: int)
    requires !response.Null?
    ensures var v := ProcessDecoderStatus(response, deviceNum).value;
      var s := StatsOf(response);
      && (forall k :: k in BasicKeys ==> Lookup(v, k) == Lookup(BasicVars(s, deviceNum), k))
      && (forall k :: k in VideoKeys ==> Lookup(v, k) == Lookup(VideoVars(s), k))
      && (forall k :: k in OutputKeys ==> Lookup(v, k) == Lookup(OutputVars(s), k))
      && (forall k :: k in AudioKeys ==> Lookup(v, k) == Lookup(AudioVars(s), k))
      && (forall k :: k in SyncKeys ==> Lookup(v, k) == Lookup(SyncVars(s), k))
      && (forall k :: k in MetadataKeys ==> Lookup(v, k) == Lookup(MetadataVars(s), k))
      && (forall k :: k in ClockKeys ==> Lookup(v, k) == Lookup(ClockVars(s), k))
  {
    BasicPublished(response, deviceNum);
    VideoPublished(response, deviceNum);
    OutputPublished(response, deviceNum);
    AudioPublished(response, deviceNum);
    SyncPublished(response, deviceNum);
    MetadataPublished(response, deviceNum);
    ClockPublished(response, deviceNum);
  }

  /** The codes and labels of one record: the state and stream-state labels
      come from their tables, an absent `state` or `streamState` gives the
      code -999, and an absent `id` the decoder's own number. */
  lemma BasicEntries(s: Json, deviceNum: int)
    ensures var b := BasicVars(s, deviceNum);
      && b["state"] == Str(StateLabel(Field(s, "state"), Field(s, "troubleCode")))
      && b["state_code"] == DefinedOr(Field(s, "state"), Num(-999))
      && b["stream_state"] == Str(StreamStateLabel(Field(s, "streamState")))
      && b["stream_state_code"] == DefinedOr(Field(s, "streamState"), Num(-999))
      && b["id"] == DefinedOr(Field(s, "id"), Num(deviceNum))
  {
  }

  lemma MultisyncEntry(s: Json)
    ensures SyncVars(s)["multisync_status"] == MultisyncLabel(Field(s, "multisyncStatusCode"), Field(s, "multisyncStatus"))
  {
  }

  /** The `state` variable published for a record is its state label, and
      `state_code` the record's own `state`, or -999 when it has none. */
  lemma StatePublished(response: Json, deviceNum: int)
    requires !response.Null?
    ensures var v := ProcessDecoderStatus(response, deviceNum).value; var s := StatsOf(response);
      && Lookup(v, "state") == Some(Str(StateLabel(Field(s, "state"), Field(s, "troubleCode"))))
      && Lookup(v, "state_code") == Some(if Field(s, "state").Some? then Field(s, "state").value else Num(-999))
  {
    BasicPublished(response, deviceNum);
    assert "state" in BasicKeys && "state_code" in BasicKeys;
    BasicEntries(StatsOf(response), deviceNum);
  }

  /** The published `stream_state` is the stream-state label, and
      `stream_state_code` the record's own `streamState`, or -999. */
  lemma StreamStatePublished(response: Json, deviceNum: int)
    requires !response.Null?
    ensures var v := ProcessDecoderStatus(response, deviceNum).value; var s := StatsOf(response);
      && Lookup(v, "stream_state") == Some(Str(StreamStateLabel(Field(s, "streamState"))))
      && Lookup(v, "stream_state_code") == Some(if Field(s, "streamState").Some? then Field(s, "streamState").value else Num(-999))
  {
    BasicPublished(response, deviceNum);
    assert "stream_state" in BasicKeys && "stream_state_code" in BasicKeys;
    BasicEntries(StatsOf(response), deviceNum);
  }

  /** The published `id` is the record's own `id`, even a falsy one, and the
      decoder's number only when the record has none. */
  lemma IdPublished(response: Json, deviceNum: int)
    requires !response.Null?
    ensures var v := ProcessDecoderStatus(response, deviceNum).value; var s := StatsOf(response);
      Lookup(v, "id") == Some(if Field(s, "id").Some? then Field(s, "id").value else Num(deviceNum))
  {
    BasicPublished(response, deviceNum);
    assert "id" in BasicKeys;
    BasicEntries(StatsOf(response), deviceNum);
  }

  /** The published `multisync_status` is the multisync label of the
      record's code and text. */
  lemma MultisyncPublished(response: Json, deviceNum: int)
    requires !response.Null?
    ensures var v := ProcessDecoderStatus(response, deviceNum).value; var s := StatsOf(response);
      Lookup(v, "multisync_status") == Some(MultisyncLabel(Field(s, "multisyncStatusCode"), Field(s, "multisyncStatus")))
  {
    SyncPublished(response, deviceNum);
    assert "multisync_status" in SyncKeys;
    MultisyncEntry(StatsOf(response));
  }

  /** A record with none of the fields: every code is -999 and every label is
      its 'Unknown' fallback. */
  lemma StatusOfEmptyRecord(deviceNum: int)
    ensures var b := BasicVars(Obj(map[]), deviceNum);
      && b["state"] == Str("Unknown") && b["state_code"] == Num(-999)
      && b["stream_state"] == Str("Unknown") && b["stream_state_code"] == Num(-999)
      && b["id"] == Num(deviceNum) && b["trouble_code"] == Num(0) && b["stream_id"] == Str("N/A")
  {
  }

  /** ... and the multisync, signal, reset and HDR values fall back to
      'Unknown', 'Offline', 'Never' and 'SDR'. */
  lemma StatusOfEmptyRecordDerived()
    ensures var e := Obj(map[]);
      && SyncVars(e)["multisync_status"] == Str("Unknown")
      && ClockVars(e)["signal"] == Str("Offline") && ClockVars(e)["last_reset"] == Str("Never")
      && ClockVars(e)["hdr_type"] == Str("SDR")
  {
    MultisyncEntry(Obj(map[]));
  }

  /** The `{ stats: {...} }` envelope makes no difference. */
  lemma StatusEnvelope(inner: Json, deviceNum: int)
    requires Truthy(inner) && !Present(Field(inner, "stats"))
    ensures ProcessDecoderStatus(Obj(map["stats" := inner]), deviceNum) == ProcessDecoderStatus(inner, deviceNum)
  {
    assert StatsOf(Obj(map["stats" := inner])) == inner == StatsOf(inner);
  }

  // ---------------------------------------------------------------------
  // Lemmas: processDecoderConfig

  /** Every run that writes anything writes exactly the same fourteen
      variables, ten of them about the assigned stream. */
  lemma ConfigKeysFixed(response: Json, deviceNum: int, streamReply: Result<Json>,
                        stored: Option<Json>, streamMap: map<string, Json>)
    ensures var r := ProcessDecoderConfig(response, deviceNum, streamReply, stored, streamMap);
      r.Ok? && r.value.Some? ==> r.value.value.Keys == ConfigKeys
    ensures ProcessDecoderConfig(response, deviceNum, streamReply, stored, streamMap).Ok? <==> !response.Null?
    ensures ProcessDecoderConfig(response, deviceNum, streamReply, stored, streamMap) == Ok(None) <==>
      !response.Null? && !Truthy(ConfigOf(response))
  {
  }

  /** No detail (no stream assigned, a negative id, a failed fetch, or a reply
      without `data`): the ten stream variables take exactly their defaults. */
  lemma ConfigFallback(response: Json, deviceNum: int, streamReply: Result<Json>,
                       stored: Option<Json>, streamMap: map<string, Json>)
    requires !response.Null? && Truthy(ConfigOf(response))
    requires var c := ConfigOf(response);
      !StreamAssigned(c) || streamReply.Fail? || !Truthy(streamReply.value) || !Present(Field(streamReply.value, "data"))
    ensures var v := ProcessDecoderConfig(response, deviceNum, streamReply, stored, streamMap).value.value;
      forall k :: k in StreamDefaults ==> v[k] == StreamDefaults[k]
  {
  }

  /** 'None' as protocol shows exactly that no stream detail was obtained. */
  lemma ConfigProtocolNone(response: Json, deviceNum: int, streamReply: Result<Json>,
                           stored: Option<Json>, streamMap: map<string, Json>)
    requires !response.Null? && Truthy(ConfigOf(response))
    ensures var v := ProcessDecoderConfig(response, deviceNum, streamReply, stored, streamMap).value.value;
      v["stream_protocol"] == Str("None") <==> StreamDetails(ConfigOf(response), streamReply).None?
  {
    var d := StreamDetails(ConfigOf(response), streamReply);
    if d.Some? {
      var info := FieldOr(d.value, "info", Obj(map[]));
      ProtocolNeverNone(Field(info, "encapsulation"));
    }
  }

  /** Bitrate suppression: the live bitrate (or '0 kbps') is shown only when
      stored stats exist for the decoder with `state > 0`; otherwise it is
      '0 kbps' whatever the stream reports. */
  lemma BitrateSuppression(response: Json, deviceNum: int, streamReply: Result<Json>,
                           stored: Option<Json>, streamMap: map<string, Json>)
    requires !response.Null? && Truthy(ConfigOf(response))
    ensures var v := ProcessDecoderConfig(response, deviceNum, streamReply, stored, streamMap).value.value;
      var d := StreamDetails(ConfigOf(response), streamReply);
      v["stream_bitrate"] ==
        if d.Some? && DecoderStarted(stored)
        then FieldOr(FieldOr(d.value, "stats", Obj(map[])), "bitrate", Str("0 kbps"))
        else Str("0 kbps")
    ensures !DecoderStarted(stored) ==>
      ProcessDecoderConfig(response, deviceNum, streamReply, stored, streamMap).value.value["stream_bitrate"] == Str("0 kbps")
  {
  }

  /** The SRT override: for encapsulation 34 with `stats.srt`, the source
      address is the SRT remote address, else the peer address, else the
      plain source address; other streams use the plain one. */
  lemma SrtSourceAddress(info: Json, stats: Json)
    ensures Field(info, "encapsulation") == Some(Num(34)) && Present(Field(stats, "srt"))
            && Present(Field(Field(stats, "srt").value, "remoteAddress")) ==>
      SourceAddress(info, stats) == Field(Field(stats, "srt").value, "remoteAddress").value
    ensures Field(info, "encapsulation") != Some(Num(34)) || !Present(Field(stats, "srt")) ==>
      SourceAddress(info, stats) == FieldOr(stats, "sourceAddress", Str("Unknown"))
    ensures Truthy(SourceAddress(info, stats))
  {
  }

  /** Stale reference: an id that is not a key of the stream map (a stream
      that is gone) shows 'None', a negative or absent id too; a known id
      shows its name. */
  lemma StreamNameLookup(streamMap: map<string, Json>, streamId: Option<Json>)
    ensures !NonNegative(streamId) ==> StreamNameFor(streamMap, streamId) == Str("None")
    ensures NonNegative(streamId) && ToString(streamId.value) !in streamMap ==>
      StreamNameFor(streamMap, streamId) == Str("None")
    ensures NonNegative(streamId) && ToString(streamId.value) in streamMap
            && Truthy(streamMap[ToString(streamId.value)]) ==>
      StreamNameFor(streamMap, streamId) == streamMap[ToString(streamId.value)]
    ensures Truthy(StreamNameFor(streamMap, streamId))
  {
  }
}
