/**
 * What the list refreshes guarantee: the stream map rebuilt from scratch,
 * the stream choices matching it, each configured decoder's `stream_name`
 * re-derived from the new map, the decoder choices, and what a failed
 * refresh leaves untouched.
 */
module ListFacts {
  import opened Js
  import opened Reconciler
  import opened Snapshot

  /** A stream-list entry with a truthy `info`. */
  predicate HasInfo(e: Json) {
    Present(Field(e, "info"))
  }

  function InfoOf(e: Json): Json
    requires HasInfo(e)
  {
    Field(e, "info").value
  }

  /** A reply that reaches the end of the `forEach`: a truthy body whose
      `data` is an array without `null` entries. */
  predicate Refreshed(reply: Result<Json>) {
    && reply.Ok? && Truthy(reply.value) && Present(Field(reply.value, "data"))
    && Field(reply.value, "data").value.Arr?
    && FirstNull(Field(reply.value, "data").value.elems) == |Field(reply.value, "data").value.elems|
  }

  function Entries(reply: Result<Json>): seq<Json>
    requires Refreshed(reply)
  {
    Field(reply.value, "data").value.elems
  }

  // ---------------------------------------------------------------------
  // The stream map

  /** A key is in the map built from `elems` exactly when it was already in
      `m` or some entry with `info` has that id. */
  lemma {:induction false} StreamMapDomain(m: map<string, Json>, elems: seq<Json>, k: string)
    ensures k in StreamMapOf(m, elems) <==>
      k in m || exists j :: 0 <= j < |elems| && HasInfo(elems[j]) && StreamKey(InfoOf(elems[j])) == k
    decreases |elems|
  {
    if elems != [] {
      var init := elems[..|elems| - 1];
      StreamMapDomain(m, init, k);
      assert forall j :: 0 <= j < |init| ==> init[j] == elems[j];
      var last := |elems| - 1;
      if exists j :: 0 <= j < |elems| && HasInfo(elems[j]) && StreamKey(InfoOf(elems[j])) == k {
        var j :| 0 <= j < |elems| && HasInfo(elems[j]) && StreamKey(InfoOf(elems[j])) == k;
        if j < last {
          assert init[j] == elems[j];
        }
      }
    }
  }

  /** A key that was not in `m` holds the name of the last entry with that
      id: later entries overwrite earlier ones. */
  lemma {:induction false} StreamMapValue(m: map<string, Json>, elems: seq<Json>, k: string)
    requires k in StreamMapOf(m, elems) && k !in m
    ensures exists j ::
      && 0 <= j < |elems| && HasInfo(elems[j]) && StreamKey(InfoOf(elems[j])) == k
      && StreamMapOf(m, elems)[k] == StreamName(InfoOf(elems[j]))
      && forall j' :: j < j' < |elems| && HasInfo(elems[j']) ==> StreamKey(InfoOf(elems[j'])) != k
    decreases |elems|
  {
    var last := |elems| - 1;
    var init := elems[..last];
    if HasInfo(elems[last]) && StreamKey(InfoOf(elems[last])) == k {
      assert StreamMapOf(m, elems)[k] == StreamName(InfoOf(elems[last]));
    } else {
      assert StreamMapOf(m, elems) == StreamMapOf(m, init) || StreamMapOf(m, elems) == StreamMapOf(m, init)[StreamKey(InfoOf(elems[last])) := StreamName(InfoOf(elems[last]))];
      StreamMapValue(m, init, k);
      var j :| && 0 <= j < |init| && HasInfo(init[j]) && StreamKey(InfoOf(init[j])) == k
               && StreamMapOf(m, init)[k] == StreamName(InfoOf(init[j]))
               && forall j' :: j < j' < |init| && HasInfo(init[j']) ==> StreamKey(InfoOf(init[j'])) != k;
      assert init[j] == elems[j];
      forall j' | j < j' < |elems| && HasInfo(elems[j'])
        ensures StreamKey(InfoOf(elems[j'])) != k
      {
        if j' < last {
          assert init[j'] == elems[j'];
        }
      }
    }
  }

  /** A stream's display name is never falsy. */
  lemma StreamNameTruthy(info: Json)
    ensures Truthy(StreamName(info))
  {
  }

  /** Every name in a map built from truthy names is truthy, so a decoder
      whose stream is listed gets that stream's name. */
  lemma {:induction false} StreamMapTruthy(m: map<string, Json>, elems: seq<Json>)
    requires forall k :: k in m ==> Truthy(m[k])
    ensures forall k :: k in StreamMapOf(m, elems) ==> Truthy(StreamMapOf(m, elems)[k])
    decreases |elems|
  {
    if elems != [] {
      StreamMapTruthy(m, elems[..|elems| - 1]);
      var last := elems[|elems| - 1];
      if HasInfo(last) {
        StreamNameTruthy(InfoOf(last));
      }
    }
  }

  /** After a completed refresh the map holds exactly the ids of the entries
      with `info`, whatever it held before. */
  lemma StreamMapRebuilt(s: Snapshot, reply: Result<Json>, k: string)
    requires Refreshed(reply)
    ensures var elems := Entries(reply);
      k in StreamListSpec(s, reply).state.streamMap <==>
      exists j :: 0 <= j < |elems| && HasInfo(elems[j]) && StreamKey(InfoOf(elems[j])) == k
  {
    var elems := Entries(reply);
    assert elems[..|elems|] == elems;
    StreamMapDomain(map[], elems, k);
  }

  /** The rebuilt map does not depend on the old one: two snapshots that
      receive the same reply end with the same map and choices. */
  lemma StreamMapFromScratch(s1: Snapshot, s2: Snapshot, reply: Result<Json>)
    requires reply.Ok? && Truthy(reply.value) && Present(Field(reply.value, "data"))
    ensures StreamListSpec(s1, reply).state.streamMap == StreamListSpec(s2, reply).state.streamMap
    ensures StreamListSpec(s1, reply).state.streamChoices == StreamListSpec(s2, reply).state.streamChoices
    ensures StreamListSpec(s1, reply).state.streamList == StreamListSpec(s2, reply).state.streamList
  {
  }

  // ---------------------------------------------------------------------
  // The stream choices

  predicate HasChoice(cs: seq<Choice>, id: Json) {
    exists c :: c in cs && c.id == id
  }

  /** A choice is pushed for each entry with `info`, under its id. */
  lemma {:induction false} ChoicesDomain(elems: seq<Json>, k: string)
    ensures HasChoice(StreamChoicesOf(elems), Str(k)) <==>
      exists j :: 0 <= j < |elems| && HasInfo(elems[j]) && StreamKey(InfoOf(elems[j])) == k
    decreases |elems|
  {
    if elems != [] {
      var init := elems[..|elems| - 1];
      var last := elems[|elems| - 1];
      ChoicesDomain(init, k);
      assert forall j :: 0 <= j < |init| ==> init[j] == elems[j];
      var tail := if HasInfo(last) then [StreamChoice(InfoOf(last))] else [];
      assert StreamChoicesOf(elems) == StreamChoicesOf(init) + tail;
      if HasChoice(StreamChoicesOf(elems), Str(k)) {
        var c :| c in StreamChoicesOf(elems) && c.id == Str(k);
        if c !in StreamChoicesOf(init) {
          assert c in tail;
        }
      }
      if exists j :: 0 <= j < |elems| && HasInfo(elems[j]) && StreamKey(InfoOf(elems[j])) == k {
        var j :| 0 <= j < |elems| && HasInfo(elems[j]) && StreamKey(InfoOf(elems[j])) == k;
        if j < |elems| - 1 {
          assert init[j] == elems[j];
        } else {
          assert StreamChoice(InfoOf(last)) in StreamChoicesOf(elems);
        }
      }
    }
  }

  /** After a completed refresh the choices start with "No Stream", and
      the other choices are exactly the stream map's keys. */
  lemma StreamChoicesMatchMap(s: Snapshot, reply: Result<Json>, k: string)
    requires Refreshed(reply)
    ensures var t := StreamListSpec(s, reply).state;
      && t.streamChoices.Some? && |t.streamChoices.value| > 0
      && t.streamChoices.value[0] == NoStreamChoice
      && (HasChoice(t.streamChoices.value[1..], Str(k)) <==> k in t.streamMap)
  {
    var elems := Entries(reply);
    StreamMapRebuilt(s, reply, k);
    ChoicesDomain(elems, k);
    var cs := StreamListSpec(s, reply).state.streamChoices.value;
    assert cs[1..] == StreamChoicesOf(elems);
  }

  // ---------------------------------------------------------------------
  // Failures

  /** A failed request empties `streamList` and `streamChoices` and leaves
      everything else, the stream map included, as it was. */
  lemma StreamListFailure(s: Snapshot)
    ensures StreamListSpec(s, Fail) ==
      Outcome(s.(streamList := Some(Arr([])), streamChoices := Some([])), [StreamsReq], [])
  {
  }

  /** A reply without `data` changes nothing. */
  lemma StreamListNoData(s: Snapshot, reply: Result<Json>)
    requires reply.Ok? && !(Truthy(reply.value) && Present(Field(reply.value, "data")))
    ensures StreamListSpec(s, reply) == Outcome(s, [StreamsReq], [])
  {
  }

  /** A failed request, a falsy body or one without `data` leaves the
      snapshot as it was. */
  lemma PresetListFailure(s: Snapshot, reply: Result<Json>)
    requires reply.Fail? || !Truthy(reply.value) || !Present(Field(reply.value, "data"))
    ensures PresetListSpec(s, reply) == Outcome(s, [PresetsReq], [])
  {
  }

  lemma PreviewFailure(s: Snapshot, reply: Result<Json>)
    requires reply.Fail? || !Truthy(reply.value)
    ensures PreviewSpec(s, reply) == Outcome(s, [PreviewReq], [])
  {
  }

  // ---------------------------------------------------------------------
  // Re-derived stream names

  /** Publishing `a` then `b` is publishing `a + b`. */
  lemma {:induction false} DecoderVarsAfterConcat(vars: Vars, a: seq<Publication>, b: seq<Publication>, i: int)
    ensures DecoderVarsAfter(vars, a + b, i) == DecoderVarsAfter(DecoderVarsAfter(vars, a, i), b, i)
    decreases |b|
  {
    if b == [] {
      assert a + b == a;
    } else {
      var init := b[..|b| - 1];
      DecoderVarsAfterConcat(vars, a, init, i);
      assert (a + b)[..|a + b| - 1] == a + init;
    }
  }

  /** One `stream_name` publication touches only its own decoder. */
  lemma StreamNameStep(vars: Vars, i: int, name: Json, j: int)
    ensures DecoderVarsAfter(vars, [StreamNameVar(i, name)], j) ==
      if i == j then vars + map["stream_name" := name] else vars
  {
    assert [StreamNameVar(i, name)][..0] == [];
  }

  /** The `stream_name` a decoder gets from the stored configuration `d` and
      the stream map `m`, when it has a stored, truthy configuration. */
  function RederivedName(dc: map<string, Json>, m: map<string, Json>, j: int): Option<Json> {
    if Key(j) in dc && Truthy(dc[Key(j)])
    then Some(StreamNameFor(m, Field(ConfigOf(dc[Key(j)]), "streamId")))
    else None
  }

  /** The re-derivation loop writes decoder j's `stream_name` once, and only
      when j has a stored configuration. */
  lemma {:induction false} RederiveOne(vars: Vars, dc: map<string, Json>, m: map<string, Json>, d: nat, j: int)
    ensures DecoderVarsAfter(vars, RederiveNames(dc, m, d), j) ==
      if 0 <= j < d && RederivedName(dc, m, j).Some?
      then vars + map["stream_name" := RederivedName(dc, m, j).value] else vars
    decreases d
  {
    if d > 0 {
      var i := d - 1;
      RederiveOne(vars, dc, m, d - 1, j);
      var before := RederiveNames(dc, m, d - 1);
      if Key(i) in dc && Truthy(dc[Key(i)]) {
        var name := StreamNameFor(m, Field(ConfigOf(dc[Key(i)]), "streamId"));
        assert RederiveNames(dc, m, d) == before + [StreamNameVar(i, name)];
        DecoderVarsAfterConcat(vars, before, [StreamNameVar(i, name)], j);
        StreamNameStep(DecoderVarsAfter(vars, before, j), i, name, j);
      } else {
        assert RederiveNames(dc, m, d) == before + [];
        assert before + [] == before;
      }
    }
  }

  /** After a completed refresh, each decoder 0..3 with a stored
      configuration has its `stream_name` re-derived from the new map; the
      other decoders' variables are untouched. */
  lemma StreamNamesRederived(s: Snapshot, reply: Result<Json>, vars: Vars, j: int)
    requires Refreshed(reply)
    ensures var o := StreamListSpec(s, reply);
      DecoderVarsAfter(vars, o.published, j) ==
      if 0 <= j < 4 && RederivedName(s.decodersConfig, o.state.streamMap, j).Some?
      then vars + map["stream_name" := RederivedName(s.decodersConfig, o.state.streamMap, j).value] else vars
  {
    var o := StreamListSpec(s, reply);
    var elems := Entries(reply);
    assert elems[..|elems|] == elems;
    var rest := RederiveNames(s.decodersConfig, o.state.streamMap, 4);
    assert o.published == [StreamCountVar(|elems|)] + rest;
    DecoderVarsAfterConcat(vars, [StreamCountVar(|elems|)], rest, j);
    assert [StreamCountVar(|elems|)][..0] == [];
    RederiveOne(vars, s.decodersConfig, o.state.streamMap, 4, j);
  }

  /** A decoder whose stream id is not in the new list reads "None". */
  lemma StaleStreamName(s: Snapshot, reply: Result<Json>, j: int)
    requires Refreshed(reply)
    requires Key(j) in s.decodersConfig && Truthy(s.decodersConfig[Key(j)])
    requires var id := Field(ConfigOf(s.decodersConfig[Key(j)]), "streamId"); var elems := Entries(reply);
      id.Some? && forall e :: e in elems && HasInfo(e) ==> StreamKey(InfoOf(e)) != ToString(id.value)
    ensures RederivedName(s.decodersConfig, StreamListSpec(s, reply).state.streamMap, j) == Some(Str("None"))
  {
    var id := Field(ConfigOf(s.decodersConfig[Key(j)]), "streamId");
    var elems := Entries(reply);
    StreamMapRebuilt(s, reply, ToString(id.value));
    StreamNameLookup(StreamListSpec(s, reply).state.streamMap, id);
  }

  /** A decoder whose non-negative stream id is listed reads the name of the
      last entry with that id. */
  lemma ListedStreamName(s: Snapshot, reply: Result<Json>, j: int, e: nat)
    requires Refreshed(reply)
    requires Key(j) in s.decodersConfig && Truthy(s.decodersConfig[Key(j)])
    requires var id := Field(ConfigOf(s.decodersConfig[Key(j)]), "streamId"); var elems := Entries(reply);
      && NonNegative(id) && e < |elems| && HasInfo(elems[e]) && StreamKey(InfoOf(elems[e])) == ToString(id.value)
      && forall e' :: e < e' < |elems| && HasInfo(elems[e']) ==> StreamKey(InfoOf(elems[e'])) != ToString(id.value)
    ensures RederivedName(s.decodersConfig, StreamListSpec(s, reply).state.streamMap, j) ==
      Some(StreamName(InfoOf(Entries(reply)[e])))
  {
    var id := Field(ConfigOf(s.decodersConfig[Key(j)]), "streamId");
    var elems := Entries(reply);
    var k := ToString(id.value);
    assert elems[..|elems|] == elems;
    var m := StreamMapOf(map[], elems);
    StreamMapDomain(map[], elems, k);
    StreamMapValue(map[], elems, k);
    var w :| && 0 <= w < |elems| && HasInfo(elems[w]) && StreamKey(InfoOf(elems[w])) == k
             && m[k] == StreamName(InfoOf(elems[w]))
             && forall j' :: w < j' < |elems| && HasInfo(elems[j']) ==> StreamKey(InfoOf(elems[j'])) != k;
    assert w == e;
    StreamNameTruthy(InfoOf(elems[e]));
    StreamNameLookup(m, id);
  }

  // ---------------------------------------------------------------------
  // Presets, preview and decoder choices

  /** A preset array gives one choice per name, with the name as both id
      and label, and a `preset_count` equal to its length; other `data`
      keeps the previous choices. */
  lemma PresetRefresh(s: Snapshot, reply: Result<Json>)
    requires reply.Ok? && Truthy(reply.value) && Present(Field(reply.value, "data"))
    ensures var data := Field(reply.value, "data").value; var t := PresetListSpec(s, reply).state;
      && t.presetList == Some(data)
      && (data.Arr? ==> t.presetChoices.Some? && |t.presetChoices.value| == |data.elems|
                        && forall k :: 0 <= k < |data.elems| ==> t.presetChoices.value[k] == Choice(data.elems[k], data.elems[k]))
      && (!data.Arr? ==> t.presetChoices == s.presetChoices)
      && (data.Arr? ==> PresetVars(reply.value, data)["preset_count"] == Num(|data.elems|))
  {
  }

  /** A truthy preview reply is stored and published as three device-wide
      variables, none of them blank: the port and quality the device gave,
      or the defaults 8080 and "Unknown", and a service that reads "Enabled"
      exactly when the device reports one. */
  lemma PreviewRefresh(s: Snapshot, reply: Result<Json>)
    requires reply.Ok? && Truthy(reply.value)
    ensures var o := PreviewSpec(s, reply); var p := reply.value;
      && o.state == s.(previewSettings := Some(p))
      && |o.published| == 1 && Owner(o.published[0]).None?
      && var vars := Values(o.published[0]);
      && vars.Keys == {"preview_service", "preview_port", "preview_quality"}
      && (forall k :: k in vars ==> Truthy(vars[k]))
      && (vars["preview_service"] == Str("Enabled") <==> Present(Field(p, "service")))
      && vars["preview_port"] == (if Present(Field(p, "port")) then Field(p, "port").value else Num(8080))
      && vars["preview_quality"] == (if Present(Field(p, "quality")) then Field(p, "quality").value else Str("Unknown"))
  {
    var p := reply.value;
    assert PreviewSpec(s, reply).published == [PreviewVarsOf(p)];
    assert Values(PreviewVarsOf(p)) == PreviewVars(p);
    PreviewVarsShape(p);
  }

  lemma PreviewVarsShape(p: Json)
    ensures var vars := PreviewVars(p);
      && vars.Keys == {"preview_service", "preview_port", "preview_quality"}
      && (forall k :: k in vars ==> Truthy(vars[k]))
      && (vars["preview_service"] == Str("Enabled") <==> Present(Field(p, "service")))
      && vars["preview_port"] == (if Present(Field(p, "port")) then Field(p, "port").value else Num(8080))
      && vars["preview_quality"] == (if Present(Field(p, "quality")) then Field(p, "quality").value else Str("Unknown"))
  {
    var vars := PreviewVars(p);
    assert vars.Keys == {"preview_service", "preview_port", "preview_quality"};
    assert Truthy(vars["preview_port"]) && Truthy(vars["preview_quality"]);
  }

  /** `buildDeviceChoices` always lists the four decoders with ids 0..3; a
      decoder whose configuration cannot be read is labelled `Decoder <i>`. */
  lemma DecoderChoicesComplete(s: Snapshot, replies: map<int, Result<Json>>, j: int)
    requires 0 <= j < 4
    ensures var cs := BuildChoicesSpec(s, replies).state.decoderChoices;
      && |cs| == 4 && cs[j].id == Num(j)
      && (At(replies, j).Fail? ==> cs[j].text == Str("Decoder " + IntToString(j)))
      && Truthy(cs[j].text)
  {
  }
}
