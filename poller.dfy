/**
 * The module instance's polling state and the methods that update it in
 * place. Each method is proved to produce the snapshot, the requests and
 * the publications its specification function describes; the properties of
 * those functions are proved in the PollFacts and ListFacts modules.
 */
module Poller {
  import opened Js
  import opened Reconciler
  import opened Snapshot

  class Instance {
    var presetListCounter: nat
    var deviceInfo: Option<Json>
    var decodersStatus: map<string, Json>
    var decodersConfig: map<string, Json>
    var decoderThumbnails: map<int, string>
    var streamList: Option<Json>
    var streamMap: map<string, Json>
    var streamChoices: Option<seq<Choice>>
    var decoderChoices: seq<Choice>
    var presetList: Option<Json>
    var presetInfo: Option<PresetInfo>
    var presetChoices: Option<seq<Choice>>
    var previewSettings: Option<Json>

    function State(): Snapshot
      reads this
    {
      Snapshot(presetListCounter, deviceInfo, decodersStatus, decodersConfig, decoderThumbnails,
               streamList, streamMap, streamChoices, decoderChoices, presetList, presetInfo,
               presetChoices, previewSettings)
    }

    constructor ()
      ensures State() == Initial
    {
      presetListCounter := 0;
      deviceInfo := None;
      decodersStatus := map[];
      decodersConfig := map[];
      decoderThumbnails := map[];
      streamList := None;
      streamMap := map[];
      streamChoices := None;
      decoderChoices := [];
      presetList := None;
      presetInfo := None;
      presetChoices := None;
      previewSettings := None;
    }

    /** One iteration of the decoder loop of `getDeviceStatus()`. */
    method ReadDecoder(r: Replies, i: int) returns (issued: seq<Request>, published: seq<Publication>)
      modifies this
      ensures Outcome(State(), issued, published) == DecoderStep(old(State()), r, i)
    {
      issued := [DecoderStatsReq(i)];
      published := [];
      var statsReply := At(r.decoderStats, i);
      if statsReply.Fail? {
        return;
      }
      var decoderStats := statsReply.value;
      decodersStatus := decodersStatus[Key(i) := decoderStats];
      if decoderStats.Null? {
        return;
      }
      published := [DecoderStatusVars(i, decoderStats)];
      issued := issued + [DecoderConfigReq(i)];
      var configReply := At(r.decoderConfig, i);
      if configReply.Fail? {
        return;
      }
      decodersConfig := decodersConfig[Key(i) := configReply.value];
      var q, p := HandleConfig(r, i, decoderStats, configReply.value);
      issued := issued + q;
      published := published + p;
    }

    /** `processDecoderConfig(decoderConfig, i)` followed by the thumbnail
        check, once the configuration is stored. */
    method HandleConfig(r: Replies, i: int, decoderStats: Json, decoderConfig: Json)
      returns (issued: seq<Request>, published: seq<Publication>)
      modifies this
      ensures Outcome(State(), issued, published) == AfterConfig(old(State()), r, i, decoderStats, decoderConfig)
    {
      ghost var s0 := State();
      issued := [];
      published := [];
      if !decoderConfig.Null? {
        var config := ConfigOf(decoderConfig);
        if Truthy(config) && StreamAssigned(config) {
          issued := [StreamReq(Interpolate(Field(config, "streamId")))];
        }
        if Truthy(config) {
          published := [DecoderConfigVars(i, decoderConfig, At(r.stream, i), Lookup(decodersStatus, Key(i)), streamMap)];
        }
      }
      assert ConfigSpec(s0, r, i, decoderConfig) == (s0, issued, published);
      if presetListCounter != 0 && presetListCounter % 3 == 0 && ThumbnailWanted(decoderStats) {
        issued := issued + [ThumbnailReq(i)];
        var thumbnail := At(r.thumbnail, i);
        if thumbnail.Ok? {
          decoderThumbnails := decoderThumbnails[i := thumbnail.value];
        }
      }
    }

    /** `for (let i = 0; i < 4; i++)` over the decoders. */
    method ReadDecoders(r: Replies) returns (issued: seq<Request>, published: seq<Publication>)
      modifies this
      ensures Outcome(State(), issued, published) == DecoderLoop(old(State()), r, 4)
    {
      issued := [];
      published := [];
      var i := 0;
      while i < 4
        invariant 0 <= i <= 4
        invariant Outcome(State(), issued, published) == DecoderLoop(old(State()), r, i)
      {
        var q, p := ReadDecoder(r, i);
        issued := issued + q;
        published := published + p;
        i := i + 1;
      }
    }

    /** `getStreamList()` */
    method GetStreamList(reply: Result<Json>) returns (issued: seq<Request>, published: seq<Publication>)
      modifies this
      ensures Outcome(State(), issued, published) == StreamListSpec(old(State()), reply)
    {
      issued := [StreamsReq];
      published := [];
      if reply.Fail? {
        streamList := Some(Arr([]));
        streamChoices := Some([]);
        return;
      }
      var streams := reply.value;
      if !(Truthy(streams) && Present(Field(streams, "data"))) {
        return;
      }
      var data := Field(streams, "data").value;
      streamList := Some(data);
      streamMap := map[];
      streamChoices := Some([NoStreamChoice]);
      if !data.Arr? {
        streamList := Some(Arr([]));
        streamChoices := Some([]);
        return;
      }
      var complete, m, choices := VisitStreams(data.elems);
      streamMap := m;
      if !complete {
        streamList := Some(Arr([]));
        streamChoices := Some([]);
        return;
      }
      streamChoices := Some(choices);
      published := RederiveStreamNames(|data.elems|);
    }

    /** `streams.data.forEach(...)` on a fresh map and choice list: each
        entry with `info` adds its name to the map and its choice to the
        list; a `null` entry throws, leaving the map filled so far. */
    static method VisitStreams(elems: seq<Json>) returns (complete: bool, m: map<string, Json>, choices: seq<Choice>)
      ensures complete <==> FirstNull(elems) == |elems|
      ensures m == StreamMapOf(map[], elems[..FirstNull(elems)])
      ensures complete ==> choices == [NoStreamChoice] + StreamChoicesOf(elems)
    {
      m := map[];
      choices := [NoStreamChoice];
      var k := 0;
      assert elems[..0] == [];
      assert [NoStreamChoice] + StreamChoicesOf(elems[..0]) == [NoStreamChoice];
      while k < |elems|
        invariant 0 <= k <= |elems|
        invariant forall j :: 0 <= j < k ==> !elems[j].Null?
        invariant m == StreamMapOf(map[], elems[..k])
        invariant choices == [NoStreamChoice] + StreamChoicesOf(elems[..k])
      {
        var stream := elems[k];
        if stream.Null? {
          assert FirstNull(elems) == k;
          return false, m, choices;
        }
        StreamsVisitStep(map[], elems, k);
        var info := Field(stream, "info");
        ghost var added := if Present(info) then [StreamChoice(info.value)] else [];
        if Present(info) {
          m := m[StreamKey(info.value) := StreamName(info.value)];
          choices := choices + [StreamChoice(info.value)];
        }
        assert choices == [NoStreamChoice] + (StreamChoicesOf(elems[..k]) + added);
        k := k + 1;
      }
      assert elems[..k] == elems;
      return true, m, choices;
    }

    /** The `for` loop that re-derives each configured decoder's
        `stream_name` after `stream_count` is published. */
    method RederiveStreamNames(count: nat) returns (published: seq<Publication>)
      ensures published == [StreamCountVar(count)] + RederiveNames(decodersConfig, streamMap, 4)
    {
      published := [StreamCountVar(count)];
      var i := 0;
      while i < 4
        invariant 0 <= i <= 4
        invariant published == [StreamCountVar(count)] + RederiveNames(decodersConfig, streamMap, i)
      {
        if Key(i) in decodersConfig && Truthy(decodersConfig[Key(i)]) {
          var config := ConfigOf(decodersConfig[Key(i)]);
          published := published + [StreamNameVar(i, StreamNameFor(streamMap, Field(config, "streamId")))];
        }
        i := i + 1;
      }
    }

    /** `getPresetList()` */
    method GetPresetList(reply: Result<Json>) returns (issued: seq<Request>, published: seq<Publication>)
      modifies this
      ensures Outcome(State(), issued, published) == PresetListSpec(old(State()), reply)
    {
      issued := [PresetsReq];
      published := [];
      if reply.Fail? || !Truthy(reply.value) || !Present(Field(reply.value, "data")) {
        return;
      }
      var presets := reply.value;
      var data := Field(presets, "data").value;
      presetList := Some(data);
      presetInfo := Some(PresetInfo(Field(presets, "autosave"), Field(presets, "active"),
                                    Field(presets, "activeIsStartup"), Field(presets, "activeWasModified")));
      published := [PresetVarsOf(presets, data)];
      if data.Arr? {
        presetChoices := Some(PresetChoices(data.elems));
      }
    }

    /** `getPreviewSettings()` */
    method GetPreviewSettings(reply: Result<Json>) returns (issued: seq<Request>, published: seq<Publication>)
      modifies this
      ensures Outcome(State(), issued, published) == PreviewSpec(old(State()), reply)
    {
      issued := [PreviewReq];
      published := [];
      if reply.Ok? && Truthy(reply.value) {
        previewSettings := Some(reply.value);
        published := [PreviewVarsOf(reply.value)];
      }
    }

    /** `buildDeviceChoices()`: the list is reset, then one entry is pushed
        per decoder. */
    method BuildDeviceChoices(replies: map<int, Result<Json>>) returns (issued: seq<Request>, published: seq<Publication>)
      modifies this
      ensures Outcome(State(), issued, published) == BuildChoicesSpec(old(State()), replies)
    {
      ghost var target := BuildChoicesSpec(State(), replies);
      decoderChoices := [];
      issued := [];
      published := [];
      var i := 0;
      while i < 4
        invariant 0 <= i <= 4
        invariant decoderChoices == target.state.decoderChoices[..i]
        invariant issued == target.issued[..i]
        invariant State() == old(State()).(decoderChoices := decoderChoices)
      {
        decoderChoices := decoderChoices + [DecoderChoice(i, At(replies, i))];
        issued := issued + [ChoiceConfigReq(i)];
        i := i + 1;
      }
    }

    /** `getDeviceStatus()`, one poll. */
    method GetDeviceStatus(r: Replies) returns (issued: seq<Request>, published: seq<Publication>)
      modifies this
      ensures Outcome(State(), issued, published) == PollSpec(old(State()), r)
    {
      issued := [StatusReq];
      published := [];
      if r.status.Fail? {
        return;
      }
      var statusData := r.status.value;
      if Truthy(statusData) {
        deviceInfo := Some(statusData);
        published := [DeviceStatusVars(statusData)];
        var q, p := ReadDecoders(r);
        issued := issued + q;
        published := published + p;
      }
      ghost var o1 := DevicePhase(old(State()), statusData, r);
      assert Outcome(State(), issued, published) == o1;
      issued, published := Refresh(r, issued, published);
    }

    /** The counter increment and the refreshes due at the new count, after
        the requests `issued0` and publications `published0` of the poll so
        far. */
    method Refresh(r: Replies, issued0: seq<Request>, published0: seq<Publication>)
      returns (issued: seq<Request>, published: seq<Publication>)
      modifies this
      ensures Outcome(State(), issued, published) == RefreshPhase(Outcome(old(State()), issued0, published0), r)
    {
      issued, published := issued0, published0;
      presetListCounter := presetListCounter + 1;
      ghost var o2 := Bump(Outcome(old(State()), issued0, published0));
      assert Outcome(State(), issued, published) == o2;
      if presetListCounter % 5 == 0 {
        var q, p := GetPresetList(r.presets);
        issued := issued + q;
        published := published + p;
      }
      ghost var o3 := PresetStage(o2, r);
      assert Outcome(State(), issued, published) == o3;
      if presetListCounter % 3 == 0 {
        var q, p := GetStreamList(r.streams);
        issued := issued + q;
        published := published + p;
      }
      ghost var o4 := StreamStage(o3, r);
      assert Outcome(State(), issued, published) == o4;
      if presetListCounter % 10 == 0 {
        var q, p := GetPreviewSettings(r.preview);
        issued := issued + q;
        published := published + p;
      }
      ghost var o5 := PreviewStage(o4, r);
      assert Outcome(State(), issued, published) == o5;
      if presetListCounter % 20 == 0 {
        var q, p := BuildDeviceChoices(r.choiceConfig);
        issued := issued + q;
        published := published + p;
      }
    }
  }
}
