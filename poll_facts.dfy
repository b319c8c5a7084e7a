/**
 * What a poll and the list refreshes guarantee: the counter and the refresh
 * cadence, the thumbnail check one tick behind the stream refresh, the
 * isolation of the four decoders from one another, and what a failure
 * leaves untouched.
 */
module PollFacts {
  import opened Js
  import opened Reconciler
  import opened Snapshot

  // ---------------------------------------------------------------------
  // Requests issued by the decoder loop

  /** The requests `processDecoderConfig` issues for a configuration record. */
  function ConfigRequests(cfg: Json): seq<Request> {
    if cfg.Null? then []
    else
      var config := ConfigOf(cfg);
      if Truthy(config) && StreamAssigned(config) then [StreamReq(Interpolate(Field(config, "streamId")))] else []
  }

  /** The requests of decoder i's iteration, which depend on the snapshot only
      through the counter. */
  function StepRequests(counter: nat, r: Replies, i: int): seq<Request> {
    var statsReply := At(r.decoderStats, i);
    if statsReply.Fail? || statsReply.value.Null? then [DecoderStatsReq(i)]
    else if At(r.decoderConfig, i).Fail? then [DecoderStatsReq(i), DecoderConfigReq(i)]
    else
      [DecoderStatsReq(i), DecoderConfigReq(i)] + ConfigRequests(At(r.decoderConfig, i).value)
      + (if ThumbnailDue(counter) && ThumbnailWanted(statsReply.value) then [ThumbnailReq(i)] else [])
  }

  function LoopRequests(counter: nat, r: Replies, n: nat): seq<Request>
    decreases n
  {
    if n == 0 then [] else LoopRequests(counter, r, n - 1) + StepRequests(counter, r, n - 1)
  }

  /** A request that belongs to one decoder's iteration. */
  predicate PerDecoder(q: Request) {
    q.DecoderStatsReq? || q.DecoderConfigReq? || q.StreamReq? || q.ThumbnailReq?
  }

  lemma StepFacts(s: Snapshot, r: Replies, i: int)
    ensures DecoderStep(s, r, i).state.counter == s.counter
    ensures DecoderStep(s, r, i).issued == StepRequests(s.counter, r, i)
  {
  }

  /** The loop leaves the counter alone and issues exactly the per-decoder
      requests of each iteration, in order. */
  lemma {:induction false} LoopFacts(s: Snapshot, r: Replies, n: nat)
    ensures DecoderLoop(s, r, n).state.counter == s.counter
    ensures DecoderLoop(s, r, n).issued == LoopRequests(s.counter, r, n)
    decreases n
  {
    if n > 0 {
      LoopFacts(s, r, n - 1);
      StepFacts(DecoderLoop(s, r, n - 1).state, r, n - 1);
    }
  }

  lemma {:induction false} LoopRequestsPerDecoder(counter: nat, r: Replies, n: nat)
    ensures forall q :: q in LoopRequests(counter, r, n) ==> PerDecoder(q)
    decreases n
  {
    if n > 0 {
      LoopRequestsPerDecoder(counter, r, n - 1);
    }
  }

  // ---------------------------------------------------------------------
  // Counter and cadence

  function PresetPart(c: nat): seq<Request> {
    if c % 5 == 0 then [PresetsReq] else []
  }

  function StreamPart(c: nat): seq<Request> {
    if c % 3 == 0 then [StreamsReq] else []
  }

  function PreviewPart(c: nat): seq<Request> {
    if c % 10 == 0 then [PreviewReq] else []
  }

  function ChoicesPart(c: nat): seq<Request> {
    if c % 20 == 0 then [ChoiceConfigReq(0), ChoiceConfigReq(1), ChoiceConfigReq(2), ChoiceConfigReq(3)] else []
  }

  /** The refresh requests issued at count c, in order. */
  function RefreshRequests(c: nat): seq<Request> {
    PresetPart(c) + StreamPart(c) + PreviewPart(c) + ChoicesPart(c)
  }

  lemma AppendAssoc<T>(a: seq<T>, p: seq<T>, t: seq<T>, v: seq<T>, h: seq<T>)
    ensures a + p + t + v + h == a + (p + t + v + h)
  {
  }

  lemma DevicePhaseFacts(s: Snapshot, body: Json, r: Replies)
    ensures DevicePhase(s, body, r).state.counter == s.counter
    ensures DevicePhase(s, body, r).issued == [StatusReq] + (if Truthy(body) then LoopRequests(s.counter, r, 4) else [])
  {
    if Truthy(body) {
      LoopFacts(s.(deviceInfo := Some(body)), r, 4);
    }
  }

  lemma StreamListShape(s: Snapshot, reply: Result<Json>)
    ensures StreamListSpec(s, reply).state.counter == s.counter
    ensures StreamListSpec(s, reply).issued == [StreamsReq]
  {
  }

  lemma PresetListShape(s: Snapshot, reply: Result<Json>)
    ensures PresetListSpec(s, reply).state.counter == s.counter
    ensures PresetListSpec(s, reply).issued == [PresetsReq]
  {
  }

  lemma PreviewShape(s: Snapshot, reply: Result<Json>)
    ensures PreviewSpec(s, reply).state.counter == s.counter
    ensures PreviewSpec(s, reply).issued == [PreviewReq]
  {
  }

  lemma BuildChoicesShape(s: Snapshot, replies: map<int, Result<Json>>)
    ensures BuildChoicesSpec(s, replies).state.counter == s.counter
    ensures BuildChoicesSpec(s, replies).issued == [ChoiceConfigReq(0), ChoiceConfigReq(1), ChoiceConfigReq(2), ChoiceConfigReq(3)]
  {
  }

  lemma PresetStageFacts(o: Outcome, r: Replies)
    ensures PresetStage(o, r).state.counter == o.state.counter
    ensures PresetStage(o, r).issued == o.issued + PresetPart(o.state.counter)
  {
    PresetListShape(o.state, r.presets);
  }

  lemma StreamStageFacts(o: Outcome, r: Replies)
    ensures StreamStage(o, r).state.counter == o.state.counter
    ensures StreamStage(o, r).issued == o.issued + StreamPart(o.state.counter)
  {
    StreamListShape(o.state, r.streams);
  }

  lemma PreviewStageFacts(o: Outcome, r: Replies)
    ensures PreviewStage(o, r).state.counter == o.state.counter
    ensures PreviewStage(o, r).issued == o.issued + PreviewPart(o.state.counter)
  {
    PreviewShape(o.state, r.preview);
  }

  lemma ChoicesStageFacts(o: Outcome, r: Replies)
    ensures ChoicesStage(o, r).state.counter == o.state.counter
    ensures ChoicesStage(o, r).issued == o.issued + ChoicesPart(o.state.counter)
  {
    BuildChoicesShape(o.state, r.choiceConfig);
  }

  lemma RefreshCounter(o: Outcome, r: Replies)
    ensures RefreshPhase(o, r).state.counter == o.state.counter + 1
  {
    var o2 := Bump(o);
    PresetStageFacts(o2, r);
    var o3 := PresetStage(o2, r);
    StreamStageFacts(o3, r);
    var o4 := StreamStage(o3, r);
    PreviewStageFacts(o4, r);
    ChoicesStageFacts(PreviewStage(o4, r), r);
  }

  lemma RefreshRequestsIssued(o: Outcome, r: Replies)
    ensures RefreshPhase(o, r).issued == o.issued + RefreshRequests(o.state.counter + 1)
  {
    var c := o.state.counter + 1;
    var o2 := Bump(o);
    PresetStageFacts(o2, r);
    var o3 := PresetStage(o2, r);
    StreamStageFacts(o3, r);
    var o4 := StreamStage(o3, r);
    PreviewStageFacts(o4, r);
    var o5 := PreviewStage(o4, r);
    ChoicesStageFacts(o5, r);
    AppendAssoc(o.issued, PresetPart(c), StreamPart(c), PreviewPart(c), ChoicesPart(c));
  }

  lemma PresetsDue(c: nat)
    ensures PresetsReq in RefreshRequests(c) <==> c % 5 == 0
  {
  }

  lemma StreamsDue(c: nat)
    ensures StreamsReq in RefreshRequests(c) <==> c % 3 == 0
  {
  }

  lemma PreviewDue(c: nat)
    ensures PreviewReq in RefreshRequests(c) <==> c % 10 == 0
  {
  }

  lemma ChoicesDue(c: nat, j: int)
    ensures ChoiceConfigReq(j) in RefreshRequests(c) <==> c % 20 == 0 && 0 <= j < 4
  {
  }

  lemma RefreshNotPerDecoder(c: nat)
    ensures forall q :: q in RefreshRequests(c) ==> !PerDecoder(q) && q != StatusReq
  {
  }

  /** The counter after a poll. */
  lemma PollCounterShape(s: Snapshot, r: Replies)
    ensures PollSpec(s, r).state.counter == if r.status.Ok? then s.counter + 1 else s.counter
  {
    if r.status.Ok? {
      DevicePhaseFacts(s, r.status.value, r);
      RefreshCounter(DevicePhase(s, r.status.value, r), r);
    }
  }

  /** The requests of a whole poll, in order. */
  lemma PollShape(s: Snapshot, r: Replies)
    ensures PollSpec(s, r).issued ==
      if r.status.Fail? then [StatusReq]
      else [StatusReq] + (if Truthy(r.status.value) then LoopRequests(s.counter, r, 4) else []) + RefreshRequests(s.counter + 1)
  {
    if r.status.Ok? {
      DevicePhaseFacts(s, r.status.value, r);
      RefreshRequestsIssued(DevicePhase(s, r.status.value, r), r);
    }
  }

  /** The counter moves by one exactly when `/apis/status` answered; when it
      did not, the poll changes nothing and publishes nothing. */
  lemma PollCounter(s: Snapshot, r: Replies)
    ensures PollSpec(s, r).state.counter == if r.status.Ok? then s.counter + 1 else s.counter
    ensures r.status.Fail? ==> PollSpec(s, r) == Outcome(s, [StatusReq], [])
  {
    PollCounterShape(s, r);
  }

  /** A request that is neither the status request nor one of a decoder's
      is issued exactly when `/apis/status` answered and the refresh it
      belongs to is due at the incremented count. */
  lemma RefreshIssued(s: Snapshot, r: Replies, x: Request)
    requires !PerDecoder(x) && x != StatusReq
    ensures x in PollSpec(s, r).issued <==> r.status.Ok? && x in RefreshRequests(s.counter + 1)
  {
    PollShape(s, r);
    if r.status.Ok? {
      var l := if Truthy(r.status.value) then LoopRequests(s.counter, r, 4) else [];
      LoopRequestsPerDecoder(s.counter, r, 4);
      assert x !in l;
      assert PollSpec(s, r).issued == [StatusReq] + l + RefreshRequests(s.counter + 1);
    }
  }

  /** The preset list is refreshed every 5th successful poll, counted after
      the increment. */
  lemma PresetCadence(s: Snapshot, r: Replies)
    ensures PresetsReq in PollSpec(s, r).issued <==> r.status.Ok? && (s.counter + 1) % 5 == 0
  {
    RefreshIssued(s, r, PresetsReq);
    PresetsDue(s.counter + 1);
  }

  /** The stream list every 3rd. */
  lemma StreamCadence(s: Snapshot, r: Replies)
    ensures StreamsReq in PollSpec(s, r).issued <==> r.status.Ok? && (s.counter + 1) % 3 == 0
  {
    RefreshIssued(s, r, StreamsReq);
    StreamsDue(s.counter + 1);
  }

  /** The preview settings every 10th. */
  lemma PreviewCadence(s: Snapshot, r: Replies)
    ensures PreviewReq in PollSpec(s, r).issued <==> r.status.Ok? && (s.counter + 1) % 10 == 0
  {
    RefreshIssued(s, r, PreviewReq);
    PreviewDue(s.counter + 1);
  }

  /** The decoder choices every 20th, one configuration request per decoder. */
  lemma ChoicesCadence(s: Snapshot, r: Replies, j: int)
    ensures ChoiceConfigReq(j) in PollSpec(s, r).issued <==> r.status.Ok? && (s.counter + 1) % 20 == 0 && 0 <= j < 4
  {
    RefreshIssued(s, r, ChoiceConfigReq(j));
    ChoicesDue(s.counter + 1, j);
  }

  // ---------------------------------------------------------------------
  // The thumbnail check

  lemma {:induction false} LoopThumbnails(counter: nat, r: Replies, n: nat, i: int)
    ensures ThumbnailReq(i) in LoopRequests(counter, r, n) <==>
      && 0 <= i < n && ThumbnailDue(counter)
      && At(r.decoderStats, i).Ok? && !At(r.decoderStats, i).value.Null?
      && At(r.decoderConfig, i).Ok? && ThumbnailWanted(At(r.decoderStats, i).value)
    decreases n
  {
    if n > 0 {
      LoopThumbnails(counter, r, n - 1, i);
      var q := StepRequests(counter, r, n - 1);
      assert ThumbnailReq(i) in q ==> i == n - 1;
    }
  }

  /** A thumbnail is requested for decoder i exactly when the count before
      this poll is a non-zero multiple of 3, the status, stats and config
      requests of i succeeded and i's state is 0, 1 or 2. */
  lemma ThumbnailIssued(s: Snapshot, r: Replies, i: int)
    ensures ThumbnailReq(i) in PollSpec(s, r).issued <==>
      && r.status.Ok? && Truthy(r.status.value)
      && 0 <= i < 4 && ThumbnailDue(s.counter)
      && At(r.decoderStats, i).Ok? && !At(r.decoderStats, i).value.Null?
      && At(r.decoderConfig, i).Ok? && ThumbnailWanted(At(r.decoderStats, i).value)
  {
    PollShape(s, r);
    LoopThumbnails(s.counter, r, 4, i);
    if r.status.Ok? {
      var loop := if Truthy(r.status.value) then LoopRequests(s.counter, r, 4) else [];
      var refresh := RefreshRequests(s.counter + 1);
      assert ThumbnailReq(i) !in refresh;
      assert PollSpec(s, r).issued == [StatusReq] + loop + refresh;
    }
  }

  /** The thumbnail check reads the counter before it is incremented, so it
      is due in the poll right after each stream-list refresh... */
  lemma ThumbnailAfterStreamRefresh(s: Snapshot, r: Replies)
    requires r.status.Ok?
    ensures ThumbnailDue(PollSpec(s, r).state.counter) <==> StreamsReq in PollSpec(s, r).issued
  {
    PollCounter(s, r);
    StreamCadence(s, r);
  }

  /** ... and never in the same poll as one. */
  lemma ThumbnailNotWithStreams(s: Snapshot, r: Replies, i: int)
    ensures ThumbnailReq(i) in PollSpec(s, r).issued ==> StreamsReq !in PollSpec(s, r).issued
  {
    if ThumbnailReq(i) in PollSpec(s, r).issued {
      ThumbnailIssued(s, r, i);
      NextNotDue(s.counter);
      StreamCadence(s, r);
    }
  }

  lemma NextNotDue(c: nat)
    requires ThumbnailDue(c)
    ensures (c + 1) % 3 != 0
  {
  }

  // ---------------------------------------------------------------------
  // Per-decoder isolation

  /** An iteration stores the stats record it fetched under its own key. */
  lemma StepStatusMap(s: Snapshot, r: Replies, i: int)
    ensures DecoderStep(s, r, i).state.decodersStatus ==
      if At(r.decoderStats, i).Ok? then s.decodersStatus[Key(i) := At(r.decoderStats, i).value] else s.decodersStatus
  {
  }

  /** ... and the configuration only when the stats were readable and the
      configuration was fetched. */
  lemma StepConfigMap(s: Snapshot, r: Replies, i: int)
    ensures DecoderStep(s, r, i).state.decodersConfig ==
      var stats := At(r.decoderStats, i);
      if stats.Ok? && !stats.value.Null? && At(r.decoderConfig, i).Ok?
      then s.decodersConfig[Key(i) := At(r.decoderConfig, i).value] else s.decodersConfig
  {
  }

  /** `decodersStatus` after the first n iterations, from the replies alone. */
  function StatusAfter(m: map<string, Json>, r: Replies, n: nat): map<string, Json>
    decreases n
  {
    if n == 0 then m
    else
      var before := StatusAfter(m, r, n - 1);
      if At(r.decoderStats, n - 1).Ok? then before[Key(n - 1) := At(r.decoderStats, n - 1).value] else before
  }

  /** `decodersConfig` after the first n iterations. */
  function ConfigAfter(m: map<string, Json>, r: Replies, n: nat): map<string, Json>
    decreases n
  {
    if n == 0 then m
    else
      var before := ConfigAfter(m, r, n - 1);
      var stats := At(r.decoderStats, n - 1);
      if stats.Ok? && !stats.value.Null? && At(r.decoderConfig, n - 1).Ok?
      then before[Key(n - 1) := At(r.decoderConfig, n - 1).value] else before
  }

  lemma {:induction false} LoopStatusMap(s: Snapshot, r: Replies, n: nat)
    ensures DecoderLoop(s, r, n).state.decodersStatus == StatusAfter(s.decodersStatus, r, n)
    decreases n
  {
    if n > 0 {
      LoopStatusMap(s, r, n - 1);
      StepStatusMap(DecoderLoop(s, r, n - 1).state, r, n - 1);
    }
  }

  lemma {:induction false} LoopConfigMap(s: Snapshot, r: Replies, n: nat)
    ensures DecoderLoop(s, r, n).state.decodersConfig == ConfigAfter(s.decodersConfig, r, n)
    decreases n
  {
    if n > 0 {
      LoopConfigMap(s, r, n - 1);
      StepConfigMap(DecoderLoop(s, r, n - 1).state, r, n - 1);
    }
  }

  /** Decoder j's stats slot after n iterations depends on j's own reply
      only: it holds the fetched record, or keeps its old value. */
  lemma {:induction false} StatusSlot(m: map<string, Json>, r: Replies, n: nat, j: int)
    ensures Lookup(StatusAfter(m, r, n), Key(j)) ==
      if 0 <= j < n && At(r.decoderStats, j).Ok? then Some(At(r.decoderStats, j).value) else Lookup(m, Key(j))
    decreases n
  {
    if n > 0 {
      StatusSlot(m, r, n - 1, j);
      if Key(n - 1) == Key(j) {
        IntToStringInjective(n - 1, j);
      }
    }
  }

  /** Decoder j's configuration slot: the fetched configuration when j's
      stats were fetched and readable and its configuration was fetched,
      otherwise the old value. */
  lemma {:induction false} ConfigSlot(m: map<string, Json>, r: Replies, n: nat, j: int)
    ensures Lookup(ConfigAfter(m, r, n), Key(j)) ==
      var stats := At(r.decoderStats, j);
      if 0 <= j < n && stats.Ok? && !stats.value.Null? && At(r.decoderConfig, j).Ok?
      then Some(At(r.decoderConfig, j).value) else Lookup(m, Key(j))
    decreases n
  {
    if n > 0 {
      ConfigSlot(m, r, n - 1, j);
      if Key(n - 1) == Key(j) {
        IntToStringInjective(n - 1, j);
      }
    }
  }

  /** Keys that are not one of the first n decoders' keys are untouched. */
  lemma {:induction false} OtherStatusKeys(m: map<string, Json>, r: Replies, n: nat, k: string)
    requires forall j :: 0 <= j < n ==> k != Key(j)
    ensures Lookup(StatusAfter(m, r, n), k) == Lookup(m, k)
    decreases n
  {
    if n > 0 {
      OtherStatusKeys(m, r, n - 1, k);
    }
  }

  lemma {:induction false} OtherConfigKeys(m: map<string, Json>, r: Replies, n: nat, k: string)
    requires forall j :: 0 <= j < n ==> k != Key(j)
    ensures Lookup(ConfigAfter(m, r, n), k) == Lookup(m, k)
    decreases n
  {
    if n > 0 {
      OtherConfigKeys(m, r, n - 1, k);
    }
  }

  /** Every decoder's stats are requested whatever happened to the others:
      a failure ends only its own iteration. */
  lemma {:induction false} LoopContinues(counter: nat, r: Replies, n: nat, j: int)
    requires 0 <= j < n
    ensures DecoderStatsReq(j) in LoopRequests(counter, r, n)
    decreases n
  {
    if j < n - 1 {
      LoopContinues(counter, r, n - 1, j);
    }
  }

  /** The refreshes leave the decoders' slots alone. */
  predicate SameDecoders(a: Snapshot, b: Snapshot) {
    a.decodersStatus == b.decodersStatus && a.decodersConfig == b.decodersConfig
  }

  lemma PresetStageKeeps(o: Outcome, r: Replies)
    ensures SameDecoders(o.state, PresetStage(o, r).state)
  {
  }

  lemma StreamStageKeeps(o: Outcome, r: Replies)
    ensures SameDecoders(o.state, StreamStage(o, r).state)
  {
  }

  lemma PreviewStageKeeps(o: Outcome, r: Replies)
    ensures SameDecoders(o.state, PreviewStage(o, r).state)
  {
  }

  lemma ChoicesStageKeeps(o: Outcome, r: Replies)
    ensures SameDecoders(o.state, ChoicesStage(o, r).state)
  {
  }

  lemma RefreshKeeps(o: Outcome, r: Replies)
    ensures SameDecoders(o.state, RefreshPhase(o, r).state)
  {
    var o2 := Bump(o);
    PresetStageKeeps(o2, r);
    var o3 := PresetStage(o2, r);
    StreamStageKeeps(o3, r);
    var o4 := StreamStage(o3, r);
    PreviewStageKeeps(o4, r);
    ChoicesStageKeeps(PreviewStage(o4, r), r);
  }

  /** The decoder slots after a poll are those after the decoder loop. */
  lemma PollDecoders(s: Snapshot, r: Replies)
    ensures var t := PollSpec(s, r).state;
      if r.status.Ok? && Truthy(r.status.value)
      then SameDecoders(t, DecoderLoop(s.(deviceInfo := Some(r.status.value)), r, 4).state)
      else SameDecoders(t, s)
  {
    if r.status.Ok? {
      RefreshKeeps(DevicePhase(s, r.status.value, r), r);
    }
  }

  /** The stats slot of decoder j after a poll holds j's fetched record, or
      its old value when the fetch failed or the poll stopped early. */
  lemma PollStatusSlot(s: Snapshot, r: Replies, j: int)
    ensures Lookup(PollSpec(s, r).state.decodersStatus, Key(j)) ==
      if r.status.Ok? && Truthy(r.status.value) && 0 <= j < 4 && At(r.decoderStats, j).Ok?
      then Some(At(r.decoderStats, j).value) else Lookup(s.decodersStatus, Key(j))
  {
    PollDecoders(s, r);
    if r.status.Ok? && Truthy(r.status.value) {
      LoopStatusMap(s.(deviceInfo := Some(r.status.value)), r, 4);
      StatusSlot(s.decodersStatus, r, 4, j);
    }
  }

  /** Decoder j's configuration slot after a poll. */
  lemma PollConfigSlot(s: Snapshot, r: Replies, j: int)
    ensures Lookup(PollSpec(s, r).state.decodersConfig, Key(j)) ==
      var stats := At(r.decoderStats, j);
      if r.status.Ok? && Truthy(r.status.value) && 0 <= j < 4 && stats.Ok? && !stats.value.Null? && At(r.decoderConfig, j).Ok?
      then Some(At(r.decoderConfig, j).value) else Lookup(s.decodersConfig, Key(j))
  {
    PollDecoders(s, r);
    if r.status.Ok? && Truthy(r.status.value) {
      LoopConfigMap(s.(deviceInfo := Some(r.status.value)), r, 4);
      ConfigSlot(s.decodersConfig, r, 4, j);
    }
  }

  /** When only decoder j's configuration fetch fails, its stats are updated
      and its configuration keeps its previous value. */
  lemma ConfigFailureKeepsConfig(s: Snapshot, r: Replies, j: int)
    requires r.status.Ok? && Truthy(r.status.value) && 0 <= j < 4
    requires At(r.decoderStats, j).Ok? && !At(r.decoderStats, j).value.Null? && At(r.decoderConfig, j).Fail?
    ensures Lookup(PollSpec(s, r).state.decodersStatus, Key(j)) == Some(At(r.decoderStats, j).value)
    ensures Lookup(PollSpec(s, r).state.decodersConfig, Key(j)) == Lookup(s.decodersConfig, Key(j))
  {
    PollStatusSlot(s, r, j);
    PollConfigSlot(s, r, j);
  }

  /** Whatever the replies, each decoder's stats are requested in a poll
      whose status request succeeded with a truthy body. */
  lemma PollContinues(s: Snapshot, r: Replies, j: int)
    requires r.status.Ok? && Truthy(r.status.value) && 0 <= j < 4
    ensures DecoderStatsReq(j) in PollSpec(s, r).issued
  {
    PollShape(s, r);
    LoopContinues(s.counter, r, 4, j);
  }

  /** Each iteration publishes only its own decoder's variables, and
      publishes the configuration variables exactly when
      `processDecoderConfig` produces some. */
  lemma StepPublishesOwn(s: Snapshot, r: Replies, i: int)
    ensures forall p :: p in DecoderStep(s, r, i).published ==> Owner(p) == Some(i)
  {
  }

  lemma ConfigPublishes(s: Snapshot, r: Replies, i: int, cfg: Json)
    ensures var result := ProcessDecoderConfig(cfg, i, At(r.stream, i), Lookup(s.decodersStatus, Key(i)), s.streamMap);
      (ConfigSpec(s, r, i, cfg).2 != []) <==> result.Ok? && result.value.Some?
  {
  }
}
