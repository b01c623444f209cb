/**
 * The submit-and-outcome controller of the chart-analysis page, as values.
 *
 * `View` is one snapshot of the component's seven state slots. Every event
 * handler of the page is a function from the snapshot before it to the
 * snapshot after it. The encoder and the remote analysis service are
 * parameters: total functions whose settled value (resolved or rejected)
 * stands for the awaited promise.
 */
module AnalysisController {
  import opened Wrappers

  /** The file the user picked. Any `File` object is truthy; absence is `None`. */
  datatype File = File(name: string, mimeType: string, bytes: seq<bv8>)

  /** What the encoder produces for the remote call. */
  datatype Encoded = Encoded(base64: string, mimeType: string)

  /**
   * The value a promise is rejected with. `ErrorValue` is any non-nullish
   * thrown value; its `message` property is `None` when it has none (a thrown
   * string, for one). `Nullish` is a rejection with `null` or `undefined`.
   */
  datatype Rejection = ErrorValue(message: Option<string>) | Nullish

  /** The settled state of an awaited promise. */
  datatype Attempt<T> = Resolved(value: T) | Rejected(reason: Rejection)

  /** One call to the remote analysis service, with its arguments in order. */
  datatype RemoteCall = RemoteCall(base64: string, mimeType: string, pairName: string, timeframe: string)

  /** The seven state slots of the component. */
  datatype View = View(
    pairName: string,
    timeframe: string,
    chartImage: Option<File>,
    chartImagePreview: Option<string>,
    analysisResult: Option<string>,
    isLoading: bool,
    error: Option<string>)

  type Encoder = File -> Attempt<Encoded>
  type Analyzer = (string, string, string, string) -> Attempt<string>

  const MissingInputMessage := "Please provide a chart image, pair name, and timeframe."
  const FallbackMessage := "An unexpected error occurred."

  /** The state right after mounting: every slot at its `useState` default. */
  function Initial(): (v: View)
    ensures Quiescent(v)
    ensures IsButtonDisabled(v)
    ensures v.analysisResult.None? && v.error.None?
  {
    View("", "", None, None, None, false, None)
  }

  /** The validation gate: a JavaScript falsiness test, so only `""` fails for a string. */
  predicate MissingInput(v: View)
  {
    v.chartImage.None? || v.pairName == "" || v.timeframe == ""
  }

  /** The `disabled` attribute of the analyse button. */
  function IsButtonDisabled(v: View): (disabled: bool)
    ensures disabled <==> MissingInput(v) || v.isLoading
    ensures !disabled ==> !MissingInput(v) && !v.isLoading
  {
    v.chartImage.None? || v.pairName == "" || v.timeframe == "" || v.isLoading
  }

  /** The text inputs and the picked image (and its preview) are the same in both snapshots. */
  predicate SameInputs(a: View, b: View)
  {
    a.pairName == b.pairName && a.timeframe == b.timeframe &&
    a.chartImage == b.chartImage && a.chartImagePreview == b.chartImagePreview
  }

  /**
   * What the catch block stores in the error slot: the rejection's message
   * when it is truthy, the fallback text otherwise. For a nullish reason,
   * reading `.message` throws before anything is stored: `None`.
   */
  function CaughtMessage(reason: Rejection): (m: Option<string>)
    ensures m.None? <==> reason.Nullish?
    ensures m.Some? ==> m.value != ""
    ensures reason.ErrorValue? && reason.message.Some? && reason.message.value != "" ==> m == reason.message
    ensures reason.ErrorValue? && (reason.message.None? || reason.message == Some("")) ==> m == Some(FallbackMessage)
  {
    match reason
    case Nullish => None
    case ErrorValue(message) =>
      if message.Some? && message.value != "" then message else Some(FallbackMessage)
  }

  /** The three setter calls that start a valid submission. */
  function Loading(v: View): View
  {
    v.(isLoading := true, error := None, analysisResult := None)
  }

  /** The try block: encode the file, then (only if that resolved) ask the remote service. */
  function Outcome(file: File, pairName: string, timeframe: string, encode: Encoder, analyze: Analyzer): Attempt<string>
  {
    match encode(file)
    case Rejected(reason) => Rejected(reason)
    case Resolved(enc) => analyze(enc.base64, enc.mimeType, pairName, timeframe)
  }

  /** The result or catch branch, then the finally block. */
  function Finished(v: View, outcome: Attempt<string>): View
  {
    match outcome
    case Resolved(text) => v.(analysisResult := Some(text), isLoading := false)
    case Rejected(reason) =>
      var m := CaughtMessage(reason);
      v.(error := if m.Some? then m else v.error, isLoading := false)
  }

  /** The snapshot after the click handler has run to completion. */
  function AfterClick(v: View, encode: Encoder, analyze: Analyzer): (r: View)
    // no branch touches the inputs
    ensures SameInputs(r, v)
    // the gate only sets the error: a previous result and the loading flag stay
    ensures MissingInput(v) ==> r == v.(error := Some(MissingInputMessage))
    // a valid submission always ends with loading cleared
    ensures !MissingInput(v) ==> !r.isLoading
    // an encoding failure is reported, and the remote service is not involved
    ensures !MissingInput(v) && encode(v.chartImage.value).Rejected? ==>
      r.analysisResult == None && r.error == CaughtMessage(encode(v.chartImage.value).reason)
    // otherwise the remote reply (asked with base64, media type, pair name, timeframe) decides
    ensures !MissingInput(v) && encode(v.chartImage.value).Resolved? ==>
      var enc := encode(v.chartImage.value).value;
      match analyze(enc.base64, enc.mimeType, v.pairName, v.timeframe)
      case Resolved(text) => r.analysisResult == Some(text) && r.error == None
      case Rejected(reason) => r.analysisResult == None && r.error == CaughtMessage(reason)
    // a valid submission never leaves both a result and an error
    ensures !MissingInput(v) ==> !(r.analysisResult.Some? && r.error.Some?)
  {
    if MissingInput(v) then v.(error := Some(MissingInputMessage))
    else Finished(Loading(v), Outcome(v.chartImage.value, v.pairName, v.timeframe, encode, analyze))
  }

  /** The calls to the remote service that one run of the click handler makes. */
  function RemoteCallsOf(v: View, encode: Encoder): (calls: seq<RemoteCall>)
    ensures |calls| <= 1
    ensures MissingInput(v) ==> calls == []
    ensures !MissingInput(v) ==> (calls == [] <==> encode(v.chartImage.value).Rejected?)
    ensures calls != [] ==>
      var enc := encode(v.chartImage.value).value;
      calls[0] == RemoteCall(enc.base64, enc.mimeType, v.pairName, v.timeframe)
  {
    if MissingInput(v) then []
    else match encode(v.chartImage.value)
      case Rejected(_) => []
      case Resolved(enc) => [RemoteCall(enc.base64, enc.mimeType, v.pairName, v.timeframe)]
  }

  /** The image picker's handler (the preview is filled in later, by the reader). */
  function AfterImageChange(v: View, file: Option<File>): (r: View)
    ensures r.chartImage == file
    ensures file.None? ==> r.chartImagePreview == None
    ensures file.Some? ==> r.chartImagePreview == v.chartImagePreview
    ensures r.pairName == v.pairName && r.timeframe == v.timeframe
    ensures r.analysisResult == v.analysisResult && r.isLoading == v.isLoading && r.error == v.error
  {
    match file
    case Some(f) => v.(chartImage := Some(f))
    case None => v.(chartImage := None, chartImagePreview := None)
  }

  /** The file reader's completion callback: stores whatever it read, `null` included. */
  function AfterPreviewRead(v: View, result: Option<string>): View
  {
    v.(chartImagePreview := result)
  }

  /** What the user can do on the page. */
  datatype Event =
    | PairNameTyped(text: string)
    | TimeframeTyped(text: string)
    | ImageChosen(file: Option<File>)
    | PreviewRead(result: Option<string>)
    | AnalyzePressed(encode: Encoder, analyze: Analyzer)

  /** One event; a press on a disabled button does not reach the handler. */
  function Step(v: View, e: Event): View
  {
    match e
    case PairNameTyped(text) => v.(pairName := text)
    case TimeframeTyped(text) => v.(timeframe := text)
    case ImageChosen(file) => AfterImageChange(v, file)
    case PreviewRead(result) => AfterPreviewRead(v, result)
    case AnalyzePressed(encode, analyze) =>
      if IsButtonDisabled(v) then v else AfterClick(v, encode, analyze)
  }

  /** The events in order. */
  function Run(v: View, events: seq<Event>): View
    decreases |events|
  {
    if |events| == 0 then v else Run(Step(v, events[0]), events[1..])
  }

  /**
   * Between events: nothing is loading, a result and an error are never shown
   * together, and a shown error is never the empty string.
   */
  predicate Quiescent(v: View)
  {
    !v.isLoading &&
    !(v.analysisResult.Some? && v.error.Some?) &&
    (v.error.Some? ==> v.error.value != "")
  }

  lemma StepKeepsQuiescent(v: View, e: Event)
    requires Quiescent(v)
    ensures Quiescent(Step(v, e))
  {
  }

  /** Every sequence of events on the page keeps the page quiescent. */
  lemma {:induction false} RunKeepsQuiescent(v: View, events: seq<Event>)
    requires Quiescent(v)
    ensures Quiescent(Run(v, events))
    decreases |events|
  {
    if |events| != 0 {
      StepKeepsQuiescent(v, events[0]);
      RunKeepsQuiescent(Step(v, events[0]), events[1..]);
    }
  }

  /** Hence whatever the user does, the validation branch's stale result never shows beside an error. */
  lemma {:induction false} ReachableIsQuiescent(events: seq<Event>)
    ensures Quiescent(Run(Initial(), events))
  {
    RunKeepsQuiescent(Initial(), events);
  }

  /** A picked PNG chart, for the scenarios below. */
  const ChartPng := File("chart.png", "image/png", [0x89, 0x50, 0x4E, 0x47])

  /** The snapshot once the PNG is picked and "BTC/USD" and "H4" are typed. */
  const Filled := View("BTC/USD", "H4", Some(ChartPng), None, None, false, None)

  /** Pick the PNG, type the pair name and the timeframe, press the button. */
  function FillAndPress(encode: Encoder, analyze: Analyzer): seq<Event>
  {
    [ImageChosen(Some(ChartPng)), PairNameTyped("BTC/USD"), TimeframeTyped("H4"), AnalyzePressed(encode, analyze)]
  }

  /** Through the page, those four events end in one run of the click handler on `Filled`. */
  lemma FillAndPressRunsHandler(encode: Encoder, analyze: Analyzer)
    ensures Run(Initial(), FillAndPress(encode, analyze)) == AfterClick(Filled, encode, analyze)
  {
    var events := FillAndPress(encode, analyze);
    var picked := Step(Initial(), events[0]);
    var named := Step(picked, events[1]);
    assert Step(named, events[2]) == Filled;
    assert Run(Initial(), events) == Run(picked, events[1..]);
    assert events[1..][1..] == events[2..];
    assert Run(picked, events[1..]) == Run(named, events[2..]);
    assert events[2..][1..] == events[3..];
    assert Run(named, events[2..]) == Run(Filled, events[3..]);
    assert events[3..][1..] == [];
    assert Run(Filled, events[3..]) == Step(Filled, events[3]);
  }

  /** The user fills in everything and the service answers "Bullish trend". */
  lemma ScenarioBullishTrend(encode: Encoder, analyze: Analyzer)
    requires encode(ChartPng).Resolved?
    requires analyze(encode(ChartPng).value.base64, encode(ChartPng).value.mimeType, "BTC/USD", "H4") == Resolved("Bullish trend")
    ensures var v := Run(Initial(), FillAndPress(encode, analyze));
      v.analysisResult == Some("Bullish trend") && v.error == None && !v.isLoading
  {
    FillAndPressRunsHandler(encode, analyze);
  }

  /** The user fills in everything and the service rejects with an error that has no message. */
  lemma ScenarioNoMessage(encode: Encoder, analyze: Analyzer)
    requires encode(ChartPng).Resolved?
    requires analyze(encode(ChartPng).value.base64, encode(ChartPng).value.mimeType, "BTC/USD", "H4") == Rejected(ErrorValue(None))
    ensures var v := Run(Initial(), FillAndPress(encode, analyze));
      v.analysisResult == None && v.error == Some(FallbackMessage) && !v.isLoading
  {
    FillAndPressRunsHandler(encode, analyze);
  }

  /**
   * Without an image the button is disabled and a press changes nothing; the
   * handler itself, called directly, reports the missing input and calls no one.
   */
  lemma ScenarioNoImage(encode: Encoder, analyze: Analyzer)
    ensures var v := View("BTC/USD", "H4", None, None, None, false, None);
      Step(v, AnalyzePressed(encode, analyze)) == v &&
      AfterClick(v, encode, analyze).error == Some(MissingInputMessage) &&
      RemoteCallsOf(v, encode) == []
  {
  }

  /**
   * Called directly (not through the enabled button), the gate keeps an
   * earlier result beside its error message: a snapshot that is not quiescent.
   */
  lemma GateKeepsStaleResult(encode: Encoder, analyze: Analyzer)
    requires encode(ChartPng).Resolved?
    requires analyze(encode(ChartPng).value.base64, encode(ChartPng).value.mimeType, "BTC/USD", "H4") == Resolved("Bullish trend")
    ensures var done := AfterClick(Filled, encode, analyze);
      var stale := AfterClick(AfterImageChange(done, None), encode, analyze);
      stale.analysisResult == Some("Bullish trend") && stale.error == Some(MissingInputMessage) &&
      !Quiescent(stale)
  {
  }

  /**
   * The gate tests truthiness only: any non-empty pair name and timeframe,
   * whitespace-only ones included, pass it and reach the service unchanged.
   */
  lemma TruthyInputsPassGate(v: View, encode: Encoder)
    requires v.chartImage.Some? && v.pairName != "" && v.timeframe != ""
    requires encode(v.chartImage.value).Resolved?
    ensures !MissingInput(v) && !IsButtonDisabled(v.(isLoading := false))
    ensures |RemoteCallsOf(v, encode)| == 1
    ensures RemoteCallsOf(v, encode)[0].pairName == v.pairName
    ensures RemoteCallsOf(v, encode)[0].timeframe == v.timeframe
  {
  }

  /** Typing the same pair name twice is the same as typing it once. */
  lemma PairNameTypedIdempotent(v: View, text: string)
    ensures Step(Step(v, PairNameTyped(text)), PairNameTyped(text)) == Step(v, PairNameTyped(text))
  {
  }
}
