/**
 * The feedbacks: read-only tests of the store that colour a button. Each
 * one looks up the record stored for the selected decoder (or the device
 * status, or a thumbnail) and compares or switches on it. Colours are RGB
 * triples; the host packs them with `combineRgb`.
 */
module Feedbacks {
  import opened Js
  import opened Reconciler
  import opened Snapshot

  datatype Rgb = Rgb(red: int, green: int, blue: int)

  /** The style an advanced feedback returns; `{}` is `None`. */
  datatype Style = Style(bgcolor: Rgb, color: Rgb)

  const White := Rgb(255, 255, 255)
  const Black := Rgb(0, 0, 0)
  const StoppedStyle := Style(Rgb(128, 128, 128), White)
  const NoSignalStyle := Style(Rgb(255, 255, 0), Black)
  const ActiveStyle := Style(Rgb(0, 255, 0), Black)
  const ErrorStyle := Style(Rgb(255, 0, 0), White)

  /** `decoder_status`: a record is stored for the decoder and its state
      loosely equals (`==`) the chosen status. */
  predicate DecoderStatus(status: map<string, Json>, deviceNum: string, chosen: string) {
    StoredStats(status, deviceNum).Some? && LooseEqualsString(StoredState(status, deviceNum), chosen)
  }

  /** `decoder_state_color`: a `switch` on the stored state. */
  function StateColor(status: map<string, Json>, deviceNum: string): (style: Option<Style>)
    ensures style.Some? <==> StoredState(status, deviceNum) in {Some(Num(0)), Some(Num(1)), Some(Num(2)), Some(Num(-1))}
  {
    var state := StoredState(status, deviceNum);
    if StoredStats(status, deviceNum).None? then None
    else if state == Some(Num(0)) then Some(StoppedStyle)
    else if state == Some(Num(1)) then Some(NoSignalStyle)
    else if state == Some(Num(2)) then Some(ActiveStyle)
    else if state == Some(Num(-1)) then Some(ErrorStyle)
    else None
  }

  /** `connection_status`: the stored device status reports `cardStatus`
      `'OK'`. */
  predicate ConnectionStatus(deviceInfo: Option<Json>) {
    Present(deviceInfo) && Field(deviceInfo.value, "cardStatus") == Some(Str("OK"))
  }

  /** `decoder_signal_present`: the stored state is exactly 2. */
  predicate SignalPresent(status: map<string, Json>, deviceNum: string) {
    StoredStats(status, deviceNum).Some? && StoredState(status, deviceNum) == Some(Num(2))
  }

  /** `decoder_has_error`: the stored state is exactly -1. */
  predicate HasError(status: map<string, Json>, deviceNum: string) {
    StoredStats(status, deviceNum).Some? && StoredState(status, deviceNum) == Some(Num(-1))
  }

  /** `decoder_thumbnail`: the option is read with `parseInt`, and a stored,
      non-empty thumbnail becomes the button's `png64` image. */
  function Thumbnail(thumbnails: map<int, string>, deviceNum: string): Option<string> {
    var n := ParseInt(deviceNum);
    if n.Some? && n.value in thumbnails && thumbnails[n.value] != "" then Some(thumbnails[n.value]) else None
  }

  // ---------------------------------------------------------------------
  // With nothing stored, every decoder feedback is off

  lemma NothingStored(status: map<string, Json>, deviceNum: string, chosen: string)
    requires !Present(Lookup(status, deviceNum))
    ensures !DecoderStatus(status, deviceNum, chosen)
    ensures StateColor(status, deviceNum).None?
    ensures !SignalPresent(status, deviceNum) && !HasError(status, deviceNum)
  {
  }

  // ---------------------------------------------------------------------
  // The feedbacks agree with the published variables

  /** The status dropdown's ids are the decimal state codes: a stored
      numeric state matches exactly the id that prints it. */
  lemma DecoderStatusMatchesCode(status: map<string, Json>, deviceNum: string, n: int, m: int)
    requires StoredState(status, deviceNum) == Some(Num(n))
    ensures DecoderStatus(status, deviceNum, IntToString(m)) <==> n == m
  {
    IntToStringNumber(m);
  }

  /** A word that does not start or end like a number is not one. */
  lemma NotANumber(w: string)
    requires |w| > 0 && !IsSpace(w[0]) && !IsSpace(w[|w| - 1])
    requires !IsDigit(w[0]) && w[0] != '-' && w[0] != '+'
    ensures StringToNumber(w) == None
  {
    assert TrimStart(w) == w;
    assert TrimEnd(w) == w;
    assert !AllDigits(w);
  }

  /** A status word that is not a number never matches a numeric state (the
      words `running`, `stopped` and `error` among them). */
  lemma DecoderStatusWords(status: map<string, Json>, deviceNum: string, n: int)
    requires StoredState(status, deviceNum) == Some(Num(n))
    ensures !DecoderStatus(status, deviceNum, "running")
    ensures !DecoderStatus(status, deviceNum, "stopped")
    ensures !DecoderStatus(status, deviceNum, "error")
  {
    NotANumber("running");
    NotANumber("stopped");
    NotANumber("error");
  }

  /** The `signal` variable published for a stored record. */
  lemma PublishedSignal(status: map<string, Json>, deviceNum: string, n: int)
    requires Present(Lookup(status, deviceNum))
    ensures Lookup(ProcessDecoderStatus(status[deviceNum], n).value, "signal") == Some(Str(Signal(StoredState(status, deviceNum))))
  {
    var record := status[deviceNum];
    ClockPublished(record, n);
    assert "signal" in ClockKeys;
  }

  /** The feedbacks read the signal the way the `signal` variable does. */
  lemma FeedbacksFollowSignal(status: map<string, Json>, deviceNum: string)
    requires Present(Lookup(status, deviceNum))
    ensures var signal := Signal(StoredState(status, deviceNum));
      && (SignalPresent(status, deviceNum) <==> signal == "Good")
      && (HasError(status, deviceNum) <==> signal == "Error")
      && (StateColor(status, deviceNum) == Some(ActiveStyle) <==> signal == "Good")
      && (StateColor(status, deviceNum) == Some(NoSignalStyle) <==> signal == "No Signal")
      && (StateColor(status, deviceNum) == Some(ErrorStyle) <==> signal == "Error")
  {
  }

  /** `decoder_signal_present` lights exactly when the decoder's published
      `signal` is `Good`, and `decoder_has_error` exactly when it is
      `Error`. */
  lemma SignalFeedbacksPublished(status: map<string, Json>, deviceNum: string, n: int)
    requires Present(Lookup(status, deviceNum))
    ensures var signal := Lookup(ProcessDecoderStatus(status[deviceNum], n).value, "signal");
      && (SignalPresent(status, deviceNum) <==> signal == Some(Str("Good")))
      && (HasError(status, deviceNum) <==> signal == Some(Str("Error")))
  {
    PublishedSignal(status, deviceNum, n);
    FeedbacksFollowSignal(status, deviceNum);
  }

  /** The three signal colours follow the published `signal`. */
  lemma StateColorFollowsSignal(status: map<string, Json>, deviceNum: string, n: int)
    requires Present(Lookup(status, deviceNum))
    ensures var signal := Lookup(ProcessDecoderStatus(status[deviceNum], n).value, "signal");
      && (StateColor(status, deviceNum) == Some(ActiveStyle) <==> signal == Some(Str("Good")))
      && (StateColor(status, deviceNum) == Some(NoSignalStyle) <==> signal == Some(Str("No Signal")))
      && (StateColor(status, deviceNum) == Some(ErrorStyle) <==> signal == Some(Str("Error")))
  {
    PublishedSignal(status, deviceNum, n);
    FeedbacksFollowSignal(status, deviceNum);
  }

  /** Grey is shown exactly when the published `state` label is
      `Stopped`. */
  lemma StoppedColorIsStopped(status: map<string, Json>, deviceNum: string, n: int)
    requires Present(Lookup(status, deviceNum))
    ensures StateColor(status, deviceNum) == Some(StoppedStyle) <==>
      Lookup(ProcessDecoderStatus(status[deviceNum], n).value, "state") == Some(Str("Stopped"))
  {
    var s := StatsOf(status[deviceNum]);
    StatePublished(status[deviceNum], n);
    StateLabelExact(Field(s, "state"), Field(s, "troubleCode"));
  }

  /** `connection_status` agrees with the `connection_status` variable
      published from the same status body. */
  lemma ConnectionMatchesVariable(body: Json)
    requires Truthy(body)
    ensures ConnectionStatus(Some(body)) <==> DeviceVars(body)["connection_status"] == Str("Connected")
  {
  }

  /** A thumbnail stored for decoder i is shown for the option `String(i)`. */
  lemma ThumbnailForDecoder(thumbnails: map<int, string>, i: int)
    ensures Thumbnail(thumbnails, IntToString(i)).Some? <==> i in thumbnails && thumbnails[i] != ""
    ensures Thumbnail(thumbnails, IntToString(i)).Some? ==> Thumbnail(thumbnails, IntToString(i)).value == thumbnails[i]
  {
    IntToStringParseInt(i);
  }

  // ---------------------------------------------------------------------
  // The connection feedback across a poll

  lemma {:induction false} LoopKeepsDeviceInfo(s: Snapshot, r: Replies, n: nat)
    ensures DecoderLoop(s, r, n).state.deviceInfo == s.deviceInfo
  {
    if n > 0 {
      LoopKeepsDeviceInfo(s, r, n - 1);
      var o := DecoderLoop(s, r, n - 1);
      StepKeepsDeviceInfo(o.state, r, n - 1);
    }
  }

  lemma StepKeepsDeviceInfo(s: Snapshot, r: Replies, i: int)
    ensures DecoderStep(s, r, i).state.deviceInfo == s.deviceInfo
  {
  }

  lemma RefreshKeepsDeviceInfo(o: Outcome, r: Replies)
    ensures RefreshPhase(o, r).state.deviceInfo == o.state.deviceInfo
  {
    var o2 := Bump(o);
    var o3 := PresetStage(o2, r);
    assert o3.state.deviceInfo == o.state.deviceInfo;
    var o4 := StreamStage(o3, r);
    assert o4.state.deviceInfo == o.state.deviceInfo;
    var o5 := PreviewStage(o4, r);
    assert o5.state.deviceInfo == o.state.deviceInfo;
  }

  /** After a poll the connection feedback reflects that poll's status
      reply when it was truthy; a failed or falsy reply leaves the previous
      answer showing. */
  lemma ConnectionAfterPoll(s: Snapshot, r: Replies)
    ensures ConnectionStatus(PollSpec(s, r).state.deviceInfo) ==
      if r.status.Ok? && Truthy(r.status.value)
      then Field(r.status.value, "cardStatus") == Some(Str("OK"))
      else ConnectionStatus(s.deviceInfo)
  {
    if r.status.Ok? {
      var body := r.status.value;
      var o := DevicePhase(s, body, r);
      RefreshKeepsDeviceInfo(o, r);
      if Truthy(body) {
        LoopKeepsDeviceInfo(s.(deviceInfo := Some(body)), r, 4);
      }
    }
  }
}
