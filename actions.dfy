/**
 * The actions: what each button press sends to the device. A callback is a
 * method that returns the requests it issues, in order, given the replies
 * to its earlier requests; the rules the callbacks share (the toggle
 * choice, the `.cfg` suffix, request bodies copied from the device's
 * current settings with a few fields replaced) are functions. Logging and
 * the delayed refreshes after a change are not modelled.
 */
module Actions {
  import opened Js
  import opened Reconciler
  import opened Snapshot
  import opened ListFacts

  /** One request: its method, its endpoint and its JSON body. */
  datatype Command = Command(verb: string, path: string, body: Option<Json>)

  // ---------------------------------------------------------------------
  // Dropdown choices

  const DefaultDecoderChoices: seq<Choice> :=
    [Choice(Str("0"), Str("Decoder 1")), Choice(Str("1"), Str("Decoder 2")),
     Choice(Str("2"), Str("Decoder 3")), Choice(Str("3"), Str("Decoder 4"))]

  /** `getDecoderChoices()`, and its copy `getDeviceChoices()` among the
      feedbacks: the built choices, or the four decoders when none were
      built. */
  function DecoderChoicesOr(choices: seq<Choice>): (r: seq<Choice>)
    ensures |r| > 0
    ensures |choices| > 0 ==> r == choices
    ensures |choices| == 0 ==> r == DefaultDecoderChoices
  {
    if |choices| > 0 then choices else DefaultDecoderChoices
  }

  /** The fallback lists decoder i as id `String(i)`, label `Decoder i+1`. */
  lemma DefaultChoicesNumbered(i: int)
    requires 0 <= i < 4
    ensures DefaultDecoderChoices[i] == Choice(Str(IntToString(i)), Str("Decoder " + IntToString(i + 1)))
  {
    if i == 0 {
      assert IntToString(0) == [DigitChar(0)] == "0";
      assert IntToString(1) == [DigitChar(1)] == "1";
      assert "Decoder " + "1" == "Decoder 1";
    } else if i == 1 {
      assert IntToString(1) == [DigitChar(1)] == "1";
      assert IntToString(2) == [DigitChar(2)] == "2";
      assert "Decoder " + "2" == "Decoder 2";
    } else if i == 2 {
      assert IntToString(2) == [DigitChar(2)] == "2";
      assert IntToString(3) == [DigitChar(3)] == "3";
      assert "Decoder " + "3" == "Decoder 3";
    } else if i == 3 {
      assert IntToString(3) == [DigitChar(3)] == "3";
      assert IntToString(4) == [DigitChar(4)] == "4";
      assert "Decoder " + "4" == "Decoder 4";
    }
  }

  /** `self.streamChoices || [{ id: '-1', label: 'No Stream' }]`. */
  function StreamChoicesOr(choices: Option<seq<Choice>>): (r: seq<Choice>)
    ensures choices.None? ==> r == [NoStreamChoice]
    ensures choices.Some? ==> r == choices.value
  {
    if choices.Some? then choices.value else [NoStreamChoice]
  }

  /** An array is truthy even when empty: after a failed stream refresh the
      stream dropdowns offer nothing, not even `No Stream`; before the
      first refresh they offer only `No Stream`. */
  lemma StreamDropdownAfterFailure(s: Snapshot)
    ensures StreamChoicesOr(StreamListSpec(s, Fail).state.streamChoices) == []
    ensures StreamChoicesOr(Initial.streamChoices) == [NoStreamChoice]
  {
    StreamListFailure(s);
  }

  // ---------------------------------------------------------------------
  // Start, stop, toggle

  datatype Control = Start | Stop

  /** `startDecoder(n)` / `stopDecoder(n)`, and so `decoder_start`,
      `decoder_stop` and the two halves of `decoder_restart`. */
  function ControlCommand(c: Control, deviceNum: string): (cmd: Command)
    ensures StartsWith(cmd.path, "/apis/decoders/" + deviceNum)
    ensures EndsWith(cmd.path, if c == Start then "/start" else "/stop")
    ensures cmd.verb == "PUT" && cmd.body.None?
  {
    var path := "/apis/decoders/" + deviceNum + (if c == Start then "/start" else "/stop");
    assert path[..|"/apis/decoders/" + deviceNum|] == "/apis/decoders/" + deviceNum;
    Command("PUT", path, None)
  }

  /** The choice `decoder_toggle` makes: stop a decoder whose stored state
      is 1 or 2, start it otherwise or when nothing is stored. */
  function ToggleChoice(status: map<string, Json>, deviceNum: string): (c: Control)
    ensures c == Stop <==> StoredState(status, deviceNum) in {Some(Num(1)), Some(Num(2))}
  {
    if StoredStats(status, deviceNum).Some? then
      var state := StoredState(status, deviceNum);
      if state == Some(Num(1)) || state == Some(Num(2)) then Stop else Start
    else Start
  }

  /** `decoder_toggle` */
  method DecoderToggle(status: map<string, Json>, deviceNum: string) returns (cmd: Command)
    ensures cmd == ControlCommand(ToggleChoice(status, deviceNum), deviceNum)
  {
    var stored := StoredStats(status, deviceNum);
    if stored.Some? {
      var stats := stored.value;
      if Field(stats, "state") == Some(Num(1)) || Field(stats, "state") == Some(Num(2)) {
        cmd := ControlCommand(Stop, deviceNum);
      } else {
        cmd := ControlCommand(Start, deviceNum);
      }
    } else {
      cmd := ControlCommand(Start, deviceNum);
    }
  }

  /** `decoder_restart`: stop now, start two seconds later. */
  method DecoderRestart(deviceNum: string) returns (cmds: seq<Command>)
    ensures cmds == [ControlCommand(Stop, deviceNum), ControlCommand(Start, deviceNum)]
  {
    var stop := ControlCommand(Stop, deviceNum);
    var start := ControlCommand(Start, deviceNum);
    cmds := [stop, start];
  }

  /** Only states 1 and 2 carry a running label. */
  lemma RunningLabel(state: Option<Json>, troubleCode: Option<Json>)
    ensures StateLabel(state, troubleCode) in {"Started (No Signal)", "Active"} <==> state in {Some(Num(1)), Some(Num(2))}
  {
    if state.Some? && state.value == Num(-1) && Present(troubleCode) {
      var t := troubleCode.value;
      if t != Num(-1) && t != Num(-2) && t != Num(-3) && t != Num(-4) {
        assert TroubleLabel(troubleCode)[0] == 'E';
      }
    } else if state.Some? && !(state.value in {Num(0), Num(1), Num(2), Num(-1)}) {
      assert StateLabel(state, troubleCode)[0] == 'U';
    }
  }

  /** The toggle stops a decoder exactly when its published `state` label
      says it is running. */
  lemma ToggleFollowsLabel(status: map<string, Json>, deviceNum: string, n: int)
    requires Present(Lookup(status, deviceNum))
    ensures ToggleChoice(status, deviceNum) == Stop <==>
      Lookup(ProcessDecoderStatus(status[deviceNum], n).value, "state") in {Some(Str("Started (No Signal)")), Some(Str("Active"))}
  {
    StatePublished(status[deviceNum], n);
    ToggleFollowsStateLabel(status, deviceNum);
  }

  lemma ToggleFollowsStateLabel(status: map<string, Json>, deviceNum: string)
    requires Present(Lookup(status, deviceNum))
    ensures var s := StatsOf(status[deviceNum]);
      ToggleChoice(status, deviceNum) == Stop <==> StateLabel(Field(s, "state"), Field(s, "troubleCode")) in {"Started (No Signal)", "Active"}
  {
    var s := StatsOf(status[deviceNum]);
    RunningLabel(Field(s, "state"), Field(s, "troubleCode"));
  }

  // ---------------------------------------------------------------------
  // Bodies copied from the device with some fields replaced

  /** `{ ...v }` of a value that may be `undefined`: an object's own
      properties, and nothing for anything else. */
  function Spread(v: Option<Json>): map<string, Json> {
    if v.Some? && v.value.Obj? then v.value.fields else map[]
  }

  /** `body` is `base` with exactly the properties of `changes` set. */
  ghost predicate Overrides(body: map<string, Json>, base: map<string, Json>, changes: map<string, Json>) {
    && body.Keys == base.Keys + changes.Keys
    && (forall k :: k in changes ==> Lookup(body, k) == Lookup(changes, k))
    && (forall k :: k !in changes ==> Lookup(body, k) == Lookup(base, k))
  }

  /** Two bodies that override the same base with the same changes are the
      same body. */
  lemma OverridesDetermines(b1: map<string, Json>, b2: map<string, Json>, base: map<string, Json>, changes: map<string, Json>)
    requires Overrides(b1, base, changes) && Overrides(b2, base, changes)
    ensures b1 == b2
  {
    forall k | k in b1
      ensures k in b2 && b1[k] == b2[k]
    {
      if k in changes {
        assert Lookup(b1, k) == Lookup(b2, k);
      } else {
        assert Lookup(b1, k) == Lookup(b2, k);
      }
    }
  }

  function DecoderPath(deviceNum: string): string {
    "/apis/decoders/" + deviceNum
  }

  /** `assign_stream_to_decoder`: fetch the decoder's configuration, then
      put back its `info` with `streamId` replaced by the chosen id (`null`
      when it does not parse). A failed fetch, or a reply without a truthy
      `info`, ends the action. */
  method AssignStream(deviceNum: string, streamOption: string, current: Result<Json>) returns (cmds: seq<Command>)
    ensures 1 <= |cmds| <= 2 && cmds[0] == Command("GET", DecoderPath(deviceNum), None)
    ensures |cmds| == 2 <==> current.Ok? && Present(Field(current.value, "info"))
    ensures |cmds| == 2 ==> cmds[1].verb == "PUT" && cmds[1].path == DecoderPath(deviceNum)
    ensures |cmds| == 2 ==> (cmds[1].body.Some? && cmds[1].body.value.Obj? &&
      Overrides(cmds[1].body.value.fields, Spread(Field(current.value, "info")),
                map["streamId" := NumberOrNull(ParseInt(streamOption))]))
  {
    cmds := [Command("GET", DecoderPath(deviceNum), None)];
    if current.Fail? {
      return;
    }
    var currentConfig := current.value;
    if !Truthy(currentConfig) || !Present(Field(currentConfig, "info")) {
      return;
    }
    var streamId := NumberOrNull(ParseInt(streamOption));
    var decoderData := Spread(Field(currentConfig, "info"))["streamId" := streamId];
    cmds := cmds + [Command("PUT", DecoderPath(deviceNum), Some(Obj(decoderData)))];
  }

  /** `unassign_stream_from_decoder`: as assigning, with `streamId` -1. */
  method UnassignStream(deviceNum: string, current: Result<Json>) returns (cmds: seq<Command>)
    ensures 1 <= |cmds| <= 2 && cmds[0] == Command("GET", DecoderPath(deviceNum), None)
    ensures |cmds| == 2 <==> current.Ok? && Present(Field(current.value, "info"))
    ensures |cmds| == 2 ==> cmds[1].verb == "PUT" && cmds[1].path == DecoderPath(deviceNum)
    ensures |cmds| == 2 ==> (cmds[1].body.Some? && cmds[1].body.value.Obj? &&
      Overrides(cmds[1].body.value.fields, Spread(Field(current.value, "info")), map["streamId" := Num(-1)]))
  {
    cmds := [Command("GET", DecoderPath(deviceNum), None)];
    if current.Fail? {
      return;
    }
    var currentConfig := current.value;
    if !Truthy(currentConfig) || !Present(Field(currentConfig, "info")) {
      return;
    }
    var decoderData := Spread(Field(currentConfig, "info"))["streamId" := Num(-1)];
    cmds := cmds + [Command("PUT", DecoderPath(deviceNum), Some(Obj(decoderData)))];
  }

  /** The name an assignment is logged with: `No Stream` for -1, else the
      truthy stream-map name, else `Stream n` (`parseInt` gives NaN for a
      non-numeric id, written `None`). */
  function AssignedLabel(streamMap: map<string, Json>, streamId: Option<int>): (text: string)
    ensures streamId == Some(-1) ==> text == "No Stream"
    ensures streamId.None? && !Present(Lookup(streamMap, "NaN")) ==> text == "Stream NaN"
    ensures streamId.Some? && streamId != Some(-1) && (forall k :: k in streamMap ==> Truthy(streamMap[k])) ==>
      text == if IntToString(streamId.value) in streamMap then ToString(streamMap[IntToString(streamId.value)])
              else "Stream " + IntToString(streamId.value)
  {
    var key := if streamId.Some? then IntToString(streamId.value) else "NaN";
    if streamId == Some(-1) then "No Stream"
    else if Present(Lookup(streamMap, key)) then ToString(streamMap[key])
    else "Stream " + key
  }

  /** After a completed stream refresh every listed stream is logged by its
      name, never as `Stream n`, and an unlisted one as `Stream n`. */
  lemma ListedStreamLabel(s: Snapshot, reply: Result<Json>, id: int)
    requires Refreshed(reply) && id != -1
    ensures var m := StreamListSpec(s, reply).state.streamMap;
      AssignedLabel(m, Some(id)) == if IntToString(id) in m then ToString(m[IntToString(id)]) else "Stream " + IntToString(id)
  {
    var elems := Entries(reply);
    assert elems[..|elems|] == elems;
    StreamMapTruthy(map[], elems);
  }

  function StreamPath(streamId: string): string {
    "/apis/streams/" + streamId
  }

  /** The fields `edit_stream` replaces: each non-empty option, the port as
      `parseInt` reads it (`null` when it does not parse). */
  function EditChanges(name: string, address: string, port: string): map<string, Json> {
    var withName: map<string, Json> := if name != "" then map["name" := Str(name)] else map[];
    var withAddress := if address != "" then withName["address" := Str(address)] else withName;
    if port != "" then withAddress["port" := NumberOrNull(ParseInt(port))] else withAddress
  }

  /** Setting one more field extends the changes by that field. */
  lemma OverrideStep(body: map<string, Json>, base: map<string, Json>, changes: map<string, Json>, k: string, v: Json)
    requires Overrides(body, base, changes)
    ensures Overrides(body[k := v], base, changes[k := v])
  {
  }

  /** `edit_stream`: the `No Stream` entry is refused before any request;
      otherwise fetch the stream and, when the reply has a truthy `data`,
      put back `data.info` with the non-empty options replaced. */
  method EditStream(streamId: string, name: string, address: string, port: string, current: Result<Json>)
    returns (cmds: seq<Command>)
    ensures streamId == "-1" ==> cmds == []
    ensures streamId != "-1" ==> 1 <= |cmds| <= 2 && cmds[0] == Command("GET", StreamPath(streamId), None)
    ensures |cmds| == 2 <==> streamId != "-1" && current.Ok? && Truthy(current.value) && Present(Field(current.value, "data"))
    ensures |cmds| == 2 ==> cmds[1].verb == "PUT" && cmds[1].path == StreamPath(streamId)
    ensures |cmds| == 2 ==> (cmds[1].body.Some? && cmds[1].body.value.Obj? &&
      Overrides(cmds[1].body.value.fields, Spread(Field(Field(current.value, "data").value, "info")),
                EditChanges(name, address, port)))
  {
    if streamId == "-1" {
      return [];
    }
    cmds := [Command("GET", StreamPath(streamId), None)];
    if current.Fail? {
      return;
    }
    var currentStream := current.value;
    if !Truthy(currentStream) || !Present(Field(currentStream, "data")) {
      return;
    }
    var base := Spread(Field(Field(currentStream, "data").value, "info"));
    var streamData := base;
    ghost var changes: map<string, Json> := map[];
    if name != "" {
      OverrideStep(streamData, base, changes, "name", Str(name));
      streamData := streamData["name" := Str(name)];
      changes := changes["name" := Str(name)];
    }
    if address != "" {
      OverrideStep(streamData, base, changes, "address", Str(address));
      streamData := streamData["address" := Str(address)];
      changes := changes["address" := Str(address)];
    }
    if port != "" {
      OverrideStep(streamData, base, changes, "port", NumberOrNull(ParseInt(port)));
      streamData := streamData["port" := NumberOrNull(ParseInt(port))];
      changes := changes["port" := NumberOrNull(ParseInt(port))];
    }
    assert changes == EditChanges(name, address, port);
    cmds := cmds + [Command("PUT", StreamPath(streamId), Some(Obj(streamData)))];
  }

  /** `create_stream`: the SRT mode and latency are sent only for
      encapsulation `34`; the encapsulation and mode ids go as integers. */
  method CreateStream(name: string, encapsulation: string, address: string, port: int, srtMode: string, latency: int)
    returns (cmd: Command)
    ensures cmd.verb == "POST" && cmd.path == "/apis/streams" && cmd.body.Some? && cmd.body.value.Obj?
    ensures var b := cmd.body.value.fields;
      && ("srtMode" in b <==> encapsulation == "34") && ("latency" in b <==> encapsulation == "34")
      && Lookup(b, "name") == Some(Str(name)) && Lookup(b, "address") == Some(Str(address))
      && Lookup(b, "port") == Some(Num(port))
      && Lookup(b, "encapsulation") == Some(NumberOrNull(ParseInt(encapsulation)))
      && (encapsulation == "34" ==> Lookup(b, "srtMode") == Some(NumberOrNull(ParseInt(srtMode))) && Lookup(b, "latency") == Some(Num(latency)))
  {
    var streamData := map["name" := Str(name), "encapsulation" := NumberOrNull(ParseInt(encapsulation)),
                          "address" := Str(address), "port" := Num(port)];
    if encapsulation == "34" {
      streamData := streamData["srtMode" := NumberOrNull(ParseInt(srtMode))];
      streamData := streamData["latency" := Num(latency)];
    }
    cmd := Command("POST", "/apis/streams", Some(Obj(streamData)));
  }

  /** A dropdown id is sent as the integer it prints. */
  lemma ChoiceIdSentAsInteger(n: int)
    ensures NumberOrNull(ParseInt(IntToString(n))) == Num(n)
  {
    IntToStringParseInt(n);
  }

  /** `delete_stream`: nothing unless confirmed, and never the `No Stream`
      entry. */
  method DeleteStream(streamId: string, confirm: bool) returns (cmds: seq<Command>)
    ensures cmds == [] <==> !confirm || streamId == "-1"
    ensures cmds != [] ==> cmds == [Command("DELETE", StreamPath(streamId), None)]
  {
    if !confirm {
      return [];
    }
    if streamId == "-1" {
      return [];
    }
    cmds := [Command("DELETE", StreamPath(streamId), None)];
  }

  /** `enable_preview_service`: fetch the preview settings and put them
      back with only `enabled` replaced. */
  method EnablePreview(enabled: bool, current: Result<Json>) returns (cmds: seq<Command>)
    ensures 1 <= |cmds| <= 2 && cmds[0] == Command("GET", "/apis/services/preview", None)
    ensures |cmds| == 2 <==> current.Ok?
    ensures |cmds| == 2 ==> cmds[1].verb == "PUT" && cmds[1].path == "/apis/services/preview"
    ensures |cmds| == 2 ==> (cmds[1].body.Some? && cmds[1].body.value.Obj? &&
      Overrides(cmds[1].body.value.fields, Spread(Some(current.value)), map["enabled" := Bool(enabled)]))
  {
    cmds := [Command("GET", "/apis/services/preview", None)];
    if current.Fail? {
      return;
    }
    var updatedSettings := Spread(Some(current.value))["enabled" := Bool(enabled)];
    cmds := cmds + [Command("PUT", "/apis/services/preview", Some(Obj(updatedSettings)))];
  }

  /** `reboot_device`: nothing unless confirmed; the status message then
      depends on the reply's `upgrade` flag, and a failed reboot request
      sets none. */
  method RebootDevice(confirm: bool, reply: Result<Json>) returns (cmds: seq<Command>, message: Option<string>)
    ensures cmds == (if confirm then [Command("POST", "/apis/reboot", None)] else [])
    ensures message.Some? <==> confirm && reply.Ok?
    ensures message.Some? ==> (message.value ==
      if Field(reply.value, "upgrade") == Some(Num(1)) then "Device rebooting with upgrade..." else "Device rebooting...")
  {
    if !confirm {
      return [], None;
    }
    cmds := [Command("POST", "/apis/reboot", None)];
    if reply.Fail? {
      return cmds, None;
    }
    var response := reply.value;
    if Truthy(response) && Field(response, "upgrade") == Some(Num(1)) {
      message := Some("Device rebooting with upgrade...");
    } else {
      message := Some("Device rebooting...");
    }
  }

  // ---------------------------------------------------------------------
  // Presets

  /** A preset file name: `.cfg` is appended unless the name already ends
      with it. */
  function WithCfg(name: string): (r: string)
    ensures EndsWith(r, ".cfg")
    ensures r == name <==> EndsWith(name, ".cfg")
    ensures StartsWith(r, name) && |r| <= |name| + 4
  {
    if EndsWith(name, ".cfg") then name
    else
      var r := name + ".cfg";
      assert r[|r| - 4..] == ".cfg";
      assert r[..|name|] == name;
      r
  }

  /** Forcing the suffix twice is forcing it once. */
  lemma WithCfgIdempotent(name: string)
    ensures WithCfg(WithCfg(name)) == WithCfg(name)
  {
  }

  function PresetPath(name: string): string {
    "/apis/presets/" + name
  }

  /** `let presetName = ...; if (!presetName.endsWith('.cfg')) presetName
      += '.cfg'`, the first step of every preset action. */
  method EnsureCfg(name: string) returns (presetName: string)
    ensures presetName == WithCfg(name)
  {
    presetName := name;
    if !EndsWith(presetName, ".cfg") {
      presetName := presetName + ".cfg";
    }
  }

  /** `save_system_preset` */
  method SavePreset(name: string, startup: bool) returns (cmd: Command)
    ensures cmd == Command("PUT", PresetPath(WithCfg(name)), Some(Obj(map["startup" := Bool(startup)])))
  {
    var presetName := EnsureCfg(name);
    cmd := Command("PUT", PresetPath(presetName), Some(Obj(map["startup" := Bool(startup)])));
  }

  /** The preset actions that PUT to a sub-path of the preset with no body:
      `load_system_preset`, `duplicate_system_preset` and
      `set_startup_preset`. */
  datatype PresetOperation = Load | Duplicate | SetStartup

  function OperationSuffix(op: PresetOperation): string {
    match op
    case Load => "/load"
    case Duplicate => "/duplicate"
    case SetStartup => "/startup"
  }

  method PresetCommand(name: string, op: PresetOperation) returns (cmd: Command)
    ensures cmd == Command("PUT", PresetPath(WithCfg(name)) + OperationSuffix(op), None)
  {
    var presetName := EnsureCfg(name);
    cmd := Command("PUT", PresetPath(presetName) + OperationSuffix(op), None);
  }

  /** The three operations never address the same endpoint, whatever the
      preset names: their paths end in different characters. */
  lemma PresetOperationsDistinct(a: string, b: string, op1: PresetOperation, op2: PresetOperation)
    requires op1 != op2
    ensures PresetPath(a) + OperationSuffix(op1) != PresetPath(b) + OperationSuffix(op2)
  {
    var p, q := PresetPath(a) + OperationSuffix(op1), PresetPath(b) + OperationSuffix(op2);
    assert p[|p| - 1] == OperationSuffix(op1)[|OperationSuffix(op1)| - 1];
    assert q[|q| - 1] == OperationSuffix(op2)[|OperationSuffix(op2)| - 1];
  }

  /** `delete_system_preset`: nothing unless confirmed. */
  method DeletePreset(name: string, confirm: bool) returns (cmds: seq<Command>)
    ensures cmds == (if confirm then [Command("DELETE", PresetPath(WithCfg(name)), None)] else [])
  {
    if !confirm {
      return [];
    }
    var presetName := EnsureCfg(name);
    cmds := [Command("DELETE", PresetPath(presetName), None)];
  }

  /** `rename_system_preset`: both names get the suffix. */
  method RenamePreset(currentName: string, newName: string, overwrite: bool) returns (cmd: Command)
    ensures cmd == Command("PUT", PresetPath(WithCfg(currentName)) + "/rename",
                           Some(Obj(map["name" := Str(WithCfg(newName)), "overwriteIfAlreadyExists" := Bool(overwrite)])))
  {
    var current := EnsureCfg(currentName);
    var renamed := EnsureCfg(newName);
    cmd := Command("PUT", PresetPath(current) + "/rename",
                   Some(Obj(map["name" := Str(renamed), "overwriteIfAlreadyExists" := Bool(overwrite)])));
  }
}
