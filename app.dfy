/**
 * The page component as an object: each `useState` slot is a field, each
 * setter call an assignment, and each handler a method. `Snapshot()` reads
 * the slots as a `View`, so every method is specified by the transition of
 * AnalysisController that it carries out.
 *
 * Ghost fields record what the outside world sees: the files handed to the
 * encoder, the calls made to the remote service, the state of the slots at
 * each of those calls, and how many times loading was switched on.
 */
module AppComponent {
  import opened Wrappers
  import opened AnalysisController

  class App {
    var pairName: string
    var timeframe: string
    var chartImage: Option<File>
    var chartImagePreview: Option<string>
    var analysisResult: Option<string>
    var isLoading: bool
    var error: Option<string>

    ghost var encodeCalls: seq<File>
    ghost var remoteCalls: seq<RemoteCall>
    ghost var statesAtCalls: seq<View>
    ghost var loadingStarts: nat

    function Snapshot(): View
      reads this
    {
      View(pairName, timeframe, chartImage, chartImagePreview, analysisResult, isLoading, error)
    }

    /** Mounting: every slot at its default, nothing called yet. */
    constructor ()
      ensures Snapshot() == Initial()
      ensures encodeCalls == [] && remoteCalls == [] && statesAtCalls == [] && loadingStarts == 0
    {
      pairName, timeframe := "", "";
      chartImage, chartImagePreview := None, None;
      analysisResult, isLoading, error := None, false, None;
      encodeCalls, remoteCalls, statesAtCalls, loadingStarts := [], [], [], 0;
    }

    /** The pair-name field's change handler. */
    method SetPairName(text: string)
      modifies this`pairName
      ensures Snapshot() == old(Snapshot()).(pairName := text)
    {
      pairName := text;
    }

    /** The timeframe field's change handler. */
    method SetTimeframe(text: string)
      modifies this`timeframe
      ensures Snapshot() == old(Snapshot()).(timeframe := text)
    {
      timeframe := text;
    }

    /** The image picker's handler; a picked file's preview arrives later, through PreviewLoaded. */
    method HandleImageChange(file: Option<File>)
      modifies this`chartImage, this`chartImagePreview
      ensures Snapshot() == AfterImageChange(old(Snapshot()), file)
      ensures file.None? ==> chartImage.None? && chartImagePreview.None?
      ensures file.Some? ==> chartImage == file && chartImagePreview == old(chartImagePreview)
    {
      if file.Some? {
        chartImage := file;
      } else {
        chartImage := None;
        chartImagePreview := None;
      }
    }

    /** The file reader's completion callback. */
    method PreviewLoaded(result: Option<string>)
      modifies this`chartImagePreview
      ensures Snapshot() == AfterPreviewRead(old(Snapshot()), result)
    {
      chartImagePreview := result;
    }

    /** The three setter calls that open a valid submission; the button is disabled afterwards. */
    method BeginAnalysis()
      modifies this`isLoading, this`error, this`analysisResult, this`loadingStarts
      ensures Snapshot() == Loading(old(Snapshot()))
      ensures isLoading && error.None? && analysisResult.None?
      ensures IsButtonDisabled(Snapshot())
      ensures loadingStarts == old(loadingStarts) + 1
    {
      isLoading := true;
      loadingStarts := loadingStarts + 1;
      error := None;
      analysisResult := None;
    }

    /**
     * The result or catch branch, then the finally block. `fulfilled` is false
     * exactly when the catch block itself throws (a nullish rejection reason):
     * the handler's promise then rejects, after the finally block has run.
     */
    method FinishAnalysis(outcome: Attempt<string>) returns (fulfilled: bool)
      modifies this`isLoading, this`error, this`analysisResult
      ensures Snapshot() == Finished(old(Snapshot()), outcome)
      ensures !isLoading
      ensures fulfilled <==> outcome != Rejected(Nullish)
    {
      fulfilled := true;
      match outcome {
        case Resolved(text) =>
          analysisResult := Some(text);
        case Rejected(reason) =>
          var m := CaughtMessage(reason);
          if m.Some? {
            error := m;
          } else {
            fulfilled := false;
          }
      }
      isLoading := false;
    }

    /** The analyse button's click handler, run to completion. */
    method HandleAnalyzeClick(encode: Encoder, analyze: Analyzer) returns (fulfilled: bool)
      modifies this`isLoading, this`error, this`analysisResult, this`loadingStarts
      modifies this`encodeCalls, this`remoteCalls, this`statesAtCalls
      ensures Snapshot() == AfterClick(old(Snapshot()), encode, analyze)
      ensures remoteCalls == old(remoteCalls) + RemoteCallsOf(old(Snapshot()), encode)
      // the gate calls no one and switches nothing on
      ensures MissingInput(old(Snapshot())) ==>
        encodeCalls == old(encodeCalls) && statesAtCalls == old(statesAtCalls) &&
        loadingStarts == old(loadingStarts) && fulfilled
      // a valid submission encodes the picked file once and enters loading once
      ensures !MissingInput(old(Snapshot())) ==>
        encodeCalls == old(encodeCalls) + [old(chartImage).value] &&
        loadingStarts == old(loadingStarts) + 1
      // every outside call sees loading on and the previous outcome cleared
      ensures old(statesAtCalls) <= statesAtCalls
      ensures |statesAtCalls| == |old(statesAtCalls)| + (|encodeCalls| - |old(encodeCalls)|) + (|remoteCalls| - |old(remoteCalls)|)
      ensures forall i | |old(statesAtCalls)| <= i < |statesAtCalls| :: statesAtCalls[i] == Loading(old(Snapshot()))
      ensures !fulfilled <==>
        !MissingInput(old(Snapshot())) &&
        Outcome(old(chartImage).value, old(pairName), old(timeframe), encode, analyze) == Rejected(Nullish)
    {
      if chartImage.None? || pairName == "" || timeframe == "" {
        error := Some(MissingInputMessage);
        return true;
      }
      var file := chartImage.value;
      BeginAnalysis();

      encodeCalls := encodeCalls + [file];
      statesAtCalls := statesAtCalls + [Snapshot()];
      var outcome: Attempt<string>;
      match encode(file) {
        case Rejected(reason) =>
          outcome := Rejected(reason);
        case Resolved(enc) =>
          remoteCalls := remoteCalls + [RemoteCall(enc.base64, enc.mimeType, pairName, timeframe)];
          statesAtCalls := statesAtCalls + [Snapshot()];
          outcome := analyze(enc.base64, enc.mimeType, pairName, timeframe);
      }
      fulfilled := FinishAnalysis(outcome);
    }
  }
}
