/** The application shell: analysing a batch of photographs, building the
    claims guide from their combined summary, resetting, and choosing which
    screen to show.

    The two model-backed services are oracles: `analyze` answers for one
    photograph, `guide` answers for one summary. The parallel fan-out over the
    photographs is modelled as a sequential map that fails when any element
    fails; results are matched to photographs by position, never by
    completion order. */
module Batch {
  import opened Results
  import opened Types
  import opened Summary

  /** The shell's state hooks. */
  datatype AppState = AppState(
    analysisResults: Option<seq<AnalysisResult>>,
    claimsInfo: Option<ClaimsInformation>,
    isLoading: bool,
    loadingMessage: string,
    error: Option<string>)

  /** The state before anything was submitted. */
  const InitialApp := AppState(None, None, false, "", None)

  const AnalysingMessage := "Performing advanced vehicle analysis..."
  const GuideMessage := "Generating tailored insurance guide..."
  const UnknownError := "An unknown error occurred during analysis."

  /** The fixed guide used when no photograph shows any damage. */
  const NoClaimGuide := ClaimsInformation(
    [EligibleClaim("No Claim Recommended",
                   "No significant damage was detected that would typically warrant an insurance claim.")],
    ["No action is needed at this time."],
    ["None, as no claim is being filed."])

  /** One request to the model service, in the order they are issued. */
  datatype ServiceCall = AnalyzeImage(index: nat) | GenerateClaimsGuide(summary: string)

  /** What one submission does: the states rendered while it waits on the
      service (one per `await`), the state it leaves behind, and the service
      requests it issued. */
  datatype BatchRun = BatchRun(rendered: seq<AppState>, final: AppState, calls: seq<ServiceCall>)

  /** The screen the shell renders. */
  datatype View =
    | LoadingView(message: string)
    | ErrorView(message: string)
    | ReportView(results: seq<AnalysisResult>, claims: Option<ClaimsInformation>)
    | UploadView

  /** The message shown for a rejection: an `Error`'s own message, otherwise
      the fixed unknown-error text. */
  function ErrorText(f: Fault): string
  {
    match f
    case ErrorInstance(m) => m
    case OtherThrown => UnknownError
  }

  /** Screen selection: loading first, then a (non-empty) error, then the
      report when results exist, and the upload form otherwise. An empty
      error string is falsy and does not select the error screen. */
  function ViewOf(s: AppState): View
  {
    if s.isLoading then LoadingView(s.loadingMessage)
    else if s.error.Some? && s.error.value != "" then ErrorView(s.error.value)
    else if s.analysisResults.Some? then ReportView(s.analysisResults.value, s.claimsInfo)
    else UploadView
  }

  /** Every photograph analysed, all-or-nothing. On success the analyses are
      in the photographs' order; on failure the reported fault is that of the
      first photograph whose analysis failed. */
  function AnalyzeAll<F>(files: seq<F>, analyze: F -> Result<DamageAnalysis>): (r: Result<seq<DamageAnalysis>>)
    ensures r.Success? <==> forall i :: 0 <= i < |files| ==> analyze(files[i]).Success?
    ensures r.Success? ==>
      && |r.value| == |files|
      && forall i :: 0 <= i < |files| ==> r.value[i] == analyze(files[i]).value
    ensures r.Failure? ==>
      exists i :: 0 <= i < |files| && analyze(files[i]) == Failure(r.fault) &&
        forall j :: 0 <= j < i ==> analyze(files[j]).Success?
  {
    if files == [] then Success([])
    else
      match analyze(files[0])
      case Failure(f) => Failure(f)
      case Success(a) =>
        match AnalyzeAll(files[1..], analyze)
        case Failure(f) =>
          assert forall i :: 1 <= i < |files| ==> files[1..][i - 1] == files[i];
          Failure(f)
        case Success(rest) => Success([a] + rest)
  }

  /** Each preview joined with the analysis at the same position. */
  function PairResults(previews: seq<string>, analyses: seq<DamageAnalysis>): (r: seq<AnalysisResult>)
    requires |previews| == |analyses|
    ensures |r| == |previews|
    ensures forall i :: 0 <= i < |r| ==> r[i].image == previews[i] && r[i].analysis == analyses[i]
  {
    if previews == [] then []
    else [AnalysisResult(previews[0], analyses[0])] + PairResults(previews[1..], analyses[1..])
  }

  /** The `finally` block: loading is over. */
  function Settle(s: AppState): AppState
  {
    s.(isLoading := false, loadingMessage := "")
  }

  /** The requests to analyse photographs 0 .. n-1. */
  function AnalyzeCalls(n: nat): (r: seq<ServiceCall>)
    ensures |r| == n && forall i :: 0 <= i < n ==> r[i] == AnalyzeImage(i)
  {
    if n == 0 then [] else AnalyzeCalls(n - 1) + [AnalyzeImage(n - 1)]
  }

  /** The summaries sent to the claims-guide service, in order. */
  function GuideRequests(calls: seq<ServiceCall>): seq<string>
  {
    if calls == [] then []
    else (if calls[0].GenerateClaimsGuide? then [calls[0].summary] else []) + GuideRequests(calls[1..])
  }

  /** Submitting a batch of photographs. */
  function HandleFileAnalysis<F>(
    s: AppState,
    files: seq<F>,
    preview: F -> string,
    analyze: F -> Result<DamageAnalysis>,
    guide: string -> Result<ClaimsInformation>): (run: BatchRun)
    ensures |files| == 0 ==> run == BatchRun([], s, [])
    ensures |files| > 0 ==> !run.final.isLoading && run.final.loadingMessage == ""
    ensures |files| > 0 ==>
      && 1 <= |run.rendered| <= 2
      && forall k :: 0 <= k < |run.rendered| ==> run.rendered[k].isLoading
  {
    if |files| == 0 then BatchRun([], s, [])
    else
      var started := s.(isLoading := true, error := None, analysisResults := None,
                        claimsInfo := None, loadingMessage := AnalysingMessage);
      var previews := seq(|files|, i requires 0 <= i < |files| => preview(files[i]));
      match AnalyzeAll(files, analyze)
      case Failure(f) =>
        BatchRun([started], Settle(started.(error := Some(ErrorText(f)))), AnalyzeCalls(|files|))
      case Success(analyses) =>
        var results := PairResults(previews, analyses);
        var shown := started.(analysisResults := Some(results), loadingMessage := GuideMessage);
        var summary := DamageSummary(results);
        if summary != "" then
          var calls := AnalyzeCalls(|files|) + [GenerateClaimsGuide(summary)];
          match guide(summary)
          case Success(c) => BatchRun([started, shown], Settle(shown.(claimsInfo := Some(c))), calls)
          case Failure(f) => BatchRun([started, shown], Settle(shown.(error := Some(ErrorText(f)))), calls)
        else
          BatchRun([started], Settle(shown.(claimsInfo := Some(NoClaimGuide))), AnalyzeCalls(|files|))
  }

  /** "Try Again" / "New Analysis": back to the upload form. The loading
      message is left as it was. */
  function Reset(s: AppState): (r: AppState)
    ensures ViewOf(r) == UploadView
    ensures r.analysisResults == None && r.claimsInfo == None && r.error == None
    ensures r.loadingMessage == s.loadingMessage
  {
    s.(analysisResults := None, claimsInfo := None, error := None, isLoading := false)
  }

  // ---------------------------------------------------------------------------
  // properties of a submission
  // ---------------------------------------------------------------------------

  lemma {:induction false} GuideRequestsAppend(a: seq<ServiceCall>, b: seq<ServiceCall>)
    ensures GuideRequests(a + b) == GuideRequests(a) + GuideRequests(b)
  {
    if a == [] {
      assert a + b == b;
    } else {
      assert (a + b)[1..] == a[1..] + b;
      GuideRequestsAppend(a[1..], b);
    }
  }

  lemma {:induction false} AnalyzeCallsHaveNoGuide(n: nat)
    ensures GuideRequests(AnalyzeCalls(n)) == []
  {
    if n > 0 {
      AnalyzeCallsHaveNoGuide(n - 1);
      GuideRequestsAppend(AnalyzeCalls(n - 1), [AnalyzeImage(n - 1)]);
    }
  }

  /** While a submission waits on the service the loading screen is shown, and
      once it is over the loading screen is gone. */
  lemma BatchShowsLoadingWhileWaiting<F>(
    s: AppState, files: seq<F>, preview: F -> string,
    analyze: F -> Result<DamageAnalysis>, guide: string -> Result<ClaimsInformation>)
    requires |files| > 0
    ensures var run := HandleFileAnalysis(s, files, preview, analyze, guide);
      && (forall k :: 0 <= k < |run.rendered| ==> ViewOf(run.rendered[k]).LoadingView?)
      && run.rendered[0].loadingMessage == AnalysingMessage
      && !ViewOf(run.final).LoadingView?
  {
  }

  /** Every photograph is sent for analysis exactly once, in order, before
      anything else; whatever else is requested is a claims guide. */
  lemma BatchAnalyzesEachImageOnce<F>(
    s: AppState, files: seq<F>, preview: F -> string,
    analyze: F -> Result<DamageAnalysis>, guide: string -> Result<ClaimsInformation>)
    ensures var run := HandleFileAnalysis(s, files, preview, analyze, guide);
      && |files| <= |run.calls| <= |files| + 1
      && (forall i :: 0 <= i < |files| ==> run.calls[i] == AnalyzeImage(i))
      && (forall k :: |files| <= k < |run.calls| ==> run.calls[k].GenerateClaimsGuide?)
  {
  }

  /** If any photograph's analysis fails, nothing is reported: no results, no
      claims guide, no claims request, and the error shown is the failing
      analysis's message (the first failing one in submission order). */
  lemma BatchAllOrNothing<F>(
    s: AppState, files: seq<F>, preview: F -> string,
    analyze: F -> Result<DamageAnalysis>, guide: string -> Result<ClaimsInformation>, i: nat)
    requires i < |files| && analyze(files[i]).Failure?
    ensures var run := HandleFileAnalysis(s, files, preview, analyze, guide);
      && run.final.analysisResults == None
      && run.final.claimsInfo == None
      && GuideRequests(run.calls) == []
      && (exists j :: 0 <= j < |files| && analyze(files[j]).Failure? &&
            run.final.error == Some(ErrorText(analyze(files[j]).fault)) &&
            forall k :: 0 <= k < j ==> analyze(files[k]).Success?)
  {
    AnalyzeCallsHaveNoGuide(|files|);
  }

  /** When every analysis succeeds the report holds one result per photograph,
      result i pairing photograph i's preview with photograph i's analysis. */
  lemma BatchResultsPaired<F>(
    s: AppState, files: seq<F>, preview: F -> string,
    analyze: F -> Result<DamageAnalysis>, guide: string -> Result<ClaimsInformation>)
    requires |files| > 0
    requires forall i :: 0 <= i < |files| ==> analyze(files[i]).Success?
    ensures var run := HandleFileAnalysis(s, files, preview, analyze, guide);
      && run.final.analysisResults.Some?
      && |run.final.analysisResults.value| == |files|
      && forall i :: 0 <= i < |files| ==>
           run.final.analysisResults.value[i] == AnalysisResult(preview(files[i]), analyze(files[i]).value)
  {
  }

  /** The claims-guide service is asked exactly once, with the combined
      summary, when every analysis succeeded and some damage was found;
      otherwise it is not asked at all. */
  lemma BatchGuideRequestedOnce<F>(
    s: AppState, files: seq<F>, preview: F -> string,
    analyze: F -> Result<DamageAnalysis>, guide: string -> Result<ClaimsInformation>)
    ensures var run := HandleFileAnalysis(s, files, preview, analyze, guide);
      var allOk := forall i :: 0 <= i < |files| ==> analyze(files[i]).Success?;
      && (!allOk || |files| == 0 ==> GuideRequests(run.calls) == [])
      && (allOk && |files| > 0 ==>
            run.final.analysisResults.Some? &&
            var summary := DamageSummary(run.final.analysisResults.value);
            GuideRequests(run.calls) == (if summary == "" then [] else [summary]))
  {
    AnalyzeCallsHaveNoGuide(|files|);
    var run := HandleFileAnalysis(s, files, preview, analyze, guide);
    if run.calls != AnalyzeCalls(|files|) {
      var summary := run.calls[|files|].summary;
      GuideRequestsAppend(AnalyzeCalls(|files|), [GenerateClaimsGuide(summary)]);
    }
  }

  /** No damage in any photograph: the fixed no-claim guide is used, the
      claims service is not asked, and the report is shown. */
  lemma BatchNoDamageUsesFallback<F>(
    s: AppState, files: seq<F>, preview: F -> string,
    analyze: F -> Result<DamageAnalysis>, guide: string -> Result<ClaimsInformation>)
    requires |files| > 0
    requires forall i :: 0 <= i < |files| ==> analyze(files[i]).Success?
    requires forall i :: 0 <= i < |files| ==> analyze(files[i]).value.damages == []
    ensures var run := HandleFileAnalysis(s, files, preview, analyze, guide);
      && run.final.claimsInfo == Some(NoClaimGuide)
      && run.final.error == None
      && GuideRequests(run.calls) == []
      && ViewOf(run.final).ReportView?
  {
    AnalyzeCallsHaveNoGuide(|files|);
    var run := HandleFileAnalysis(s, files, preview, analyze, guide);
    var results := run.final.analysisResults.value;
    DamageSummaryEmptyIff(results);
  }

  /** Some damage found: the guide's answer becomes the claims information; if
      the guide request fails, the results stay set but the error screen is
      shown and no claims information exists. */
  lemma BatchGuideOutcome<F>(
    s: AppState, files: seq<F>, preview: F -> string,
    analyze: F -> Result<DamageAnalysis>, guide: string -> Result<ClaimsInformation>, i: nat, j: nat)
    requires forall k :: 0 <= k < |files| ==> analyze(files[k]).Success?
    requires i < |files| && j < |analyze(files[i]).value.damages|
    ensures var run := HandleFileAnalysis(s, files, preview, analyze, guide);
      var summary := DamageSummary(run.final.analysisResults.value);
      && summary != ""
      && (guide(summary).Success? ==>
            run.final.claimsInfo == Some(guide(summary).value) && run.final.error == None &&
            ViewOf(run.final) == ReportView(run.final.analysisResults.value, Some(guide(summary).value)))
      && (guide(summary).Failure? ==>
            run.final.analysisResults.Some? && run.final.claimsInfo == None &&
            run.final.error == Some(ErrorText(guide(summary).fault)) &&
            (ErrorText(guide(summary).fault) != "" ==> ViewOf(run.final).ErrorView?))
  {
    var run := HandleFileAnalysis(s, files, preview, analyze, guide);
    var results := run.final.analysisResults.value;
    DamageSummaryEmptyIff(results);
    assert results[i].analysis.damages != [];
  }

  /** The shell starts on the upload form, and resetting after a failed
      submission returns to it. */
  lemma UploadFirstAndAfterReset<F>(
    files: seq<F>, preview: F -> string,
    analyze: F -> Result<DamageAnalysis>, guide: string -> Result<ClaimsInformation>)
    ensures ViewOf(InitialApp) == UploadView
    ensures ViewOf(Reset(HandleFileAnalysis(InitialApp, files, preview, analyze, guide).final)) == UploadView
  {
  }
}
