/** The application controller (App.tsx): the two-step flow from URL input to
    the critique form, its loading flags and error slots, and the choice of what
    the results panel shows. Each asynchronous handler is split into an atomic
    start step and an atomic settle step that receives the service's outcome. */
module App {
  import opened Wrappers
  import opened Types
  import opened Strings
  import GeminiService

  datatype AppStep = UrlInput | CritiqueForm

  /** The eight pieces of component state. */
  datatype AppState = AppState(
    appStep: AppStep,
    critique: Option<CritiqueResult>,
    isLoading: bool,
    isScraping: bool,
    error: Option<string>,
    scrapingError: Option<string>,
    scrapedBrandInfo: Option<BrandInfo>,
    showGuide: bool)

  const Initial := AppState(UrlInput, None, false, false, None, None, None, false)

  const UnknownScrapeError := "An unknown error occurred during scraping."
  const UnknownAnalysisError := "An unknown error occurred during analysis."

  /** The text a failed scrape leaves in `scrapingError`. */
  function ScrapingErrorText(err: Thrown): (text: string)
    ensures text != ""
    ensures err.ErrorValue? ==> EndsWith(text, err.message)
  {
    match err
    case ErrorValue(m) => "Scraping failed: " + m
    case OtherValue => UnknownScrapeError
  }

  /** The text a failed critique leaves in `error`. */
  function AnalysisErrorText(err: Thrown): (text: string)
    ensures text != ""
    ensures err.ErrorValue? ==> |text| >= 17 + |err.message| && text[17..17 + |err.message|] == err.message
  {
    match err
    case ErrorValue(m) => "Analysis failed: " + m + ". Check console for details."
    case OtherValue => UnknownAnalysisError
  }

  // ---------------------------------------------------------------------------
  // Transitions, one per handler step

  /** handleUrlSubmit before its await: the scraping flag on, the old scrape error gone. */
  function StartScrape(s: AppState): (r: AppState)
    ensures r.isScraping && r.scrapingError == None
    ensures r.(isScraping := s.isScraping, scrapingError := s.scrapingError) == s
    ensures Valid(s) ==> Valid(r)
  {
    s.(isScraping := true, scrapingError := None)
  }

  /** handleUrlSubmit after its await: the try or catch branch, then finally.
      Only the flag, the step, the scraped data and the scrape error can change. */
  function SettleScrape(s: AppState, outcome: Result<BrandInfo, Thrown>): (r: AppState)
    ensures !r.isScraping
    ensures outcome.Success? ==>
              r.appStep == CritiqueForm && r.scrapedBrandInfo == Some(outcome.value) && r.scrapingError == s.scrapingError
    ensures outcome.Failure? ==>
              r.appStep == s.appStep && r.scrapedBrandInfo == s.scrapedBrandInfo
              && r.scrapingError == Some(ScrapingErrorText(outcome.error))
    ensures r.(isScraping := s.isScraping, appStep := s.appStep,
               scrapedBrandInfo := s.scrapedBrandInfo, scrapingError := s.scrapingError) == s
    ensures Valid(s) ==> Valid(r)
  {
    match outcome
    case Success(data) => s.(scrapedBrandInfo := Some(data), appStep := CritiqueForm, isScraping := false)
    case Failure(err) => s.(scrapingError := Some(ScrapingErrorText(err)), isScraping := false)
  }

  /** handleCritiqueRequest before its await: loading, with no result and no error. */
  function StartCritique(s: AppState): (r: AppState)
    ensures r.isLoading && r.critique == None && r.error == None
    ensures r.(isLoading := s.isLoading, critique := s.critique, error := s.error) == s
    ensures Valid(s) ==> Valid(r)
  {
    s.(isLoading := true, critique := None, error := None)
  }

  /** handleCritiqueRequest after its await: the result or the error is recorded and
      loading ends. Settling an outstanding request keeps the invariant and leaves
      exactly one of result and error set. */
  function SettleCritique(s: AppState, outcome: Result<CritiqueResult, Thrown>): (r: AppState)
    ensures !r.isLoading
    ensures outcome.Success? ==> r.critique == Some(outcome.value) && r.error == s.error
    ensures outcome.Failure? ==> r.error == Some(AnalysisErrorText(outcome.error)) && r.critique == s.critique
    ensures r.(isLoading := s.isLoading, critique := s.critique, error := s.error) == s
    ensures Valid(s) && s.isLoading ==> Valid(r) && (r.critique.Some? <==> r.error.None?)
  {
    match outcome
    case Success(result) => s.(critique := Some(result), isLoading := false)
    case Failure(err) => s.(error := Some(AnalysisErrorText(err)), isLoading := false)
  }

  /** handleReset: back to URL input with result, both errors and scraped data gone;
      the two flags and the guide are left as they were. */
  function Reset(s: AppState): (r: AppState)
    ensures r.appStep == UrlInput && r.critique == None && r.error == None
    ensures r.scrapingError == None && r.scrapedBrandInfo == None
    ensures r.isLoading == s.isLoading && r.isScraping == s.isScraping && r.showGuide == s.showGuide
    ensures Valid(s) ==> Valid(r)
  {
    s.(appStep := UrlInput, critique := None, error := None, scrapingError := None, scrapedBrandInfo := None)
  }

  /** Everything that can happen to the controller. */
  datatype Event =
    | UrlSubmitted
    | ScrapeSettled(scrape: Result<BrandInfo, Thrown>)
    | CritiqueRequested
    | CritiqueSettled(analysis: Result<CritiqueResult, Thrown>)
    | ResetClicked
    | GuideOpened
    | GuideClosed

  /** One event. Only the guide events touch the guide, and they touch nothing else;
      every event the UI can deliver keeps the invariant. */
  function Apply(s: AppState, e: Event): (r: AppState)
    ensures e.GuideOpened? || e.GuideClosed? ==> r == s.(showGuide := e.GuideOpened?)
    ensures !(e.GuideOpened? || e.GuideClosed?) ==> r.showGuide == s.showGuide
    ensures Valid(s) && Enabled(s, e) ==> Valid(r)
  {
    match e
    case UrlSubmitted => StartScrape(s)
    case ScrapeSettled(outcome) => SettleScrape(s, outcome)
    case CritiqueRequested => StartCritique(s)
    case CritiqueSettled(outcome) => SettleCritique(s, outcome)
    case ResetClicked => Reset(s)
    case GuideOpened => s.(showGuide := true)
    case GuideClosed => s.(showGuide := false)
  }

  function Run(s: AppState, events: seq<Event>): AppState
    decreases |events|
  {
    if events == [] then s else Run(Apply(s, events[0]), events[1..])
  }

  /** Whether the UI can deliver `e` now: a submit button is disabled while its
      request is outstanding, and a request settles only while it is outstanding. */
  predicate Enabled(s: AppState, e: Event) {
    match e
    case UrlSubmitted => !s.isScraping
    case ScrapeSettled(_) => s.isScraping
    case CritiqueRequested => !s.isLoading
    case CritiqueSettled(_) => s.isLoading
    case _ => true
  }

  /** Every event of the run is enabled when it happens. */
  predicate Feasible(s: AppState, events: seq<Event>)
    decreases |events|
  {
    events == [] || (Enabled(s, events[0]) && Feasible(Apply(s, events[0]), events[1..]))
  }

  predicate IsScrapeSuccess(e: Event) {
    e.ScrapeSettled? && e.scrape.Success?
  }

  // ---------------------------------------------------------------------------
  // What each handler promises

  /** A successful scrape stores the data, moves to the critique form, leaves no
      scrape error and ends with the scraping flag off; nothing else changes. */
  lemma ScrapeSuccess(s: AppState, data: BrandInfo)
    ensures var r := SettleScrape(StartScrape(s), Success(data));
      && r.scrapedBrandInfo == Some(data) && r.appStep == CritiqueForm
      && r.scrapingError == None && !r.isScraping
      && r.(scrapedBrandInfo := s.scrapedBrandInfo, appStep := s.appStep,
            scrapingError := s.scrapingError, isScraping := s.isScraping) == s
  {
  }

  /** A failed scrape keeps the step and the scraped data and records the failure. */
  lemma ScrapeFailure(s: AppState, err: Thrown)
    ensures var r := SettleScrape(StartScrape(s), Failure(err));
      && r.appStep == s.appStep && r.scrapedBrandInfo == s.scrapedBrandInfo
      && r.scrapingError == Some(ScrapingErrorText(err)) && !r.isScraping
      && r.(scrapingError := s.scrapingError, isScraping := s.isScraping) == s
    ensures err.ErrorValue? ==> ScrapingErrorText(err) == "Scraping failed: " + err.message
  {
  }

  /** Starting a critique clears the previous result and error; once it settles
      exactly one of them is set, the loading flag is off, and the step and the
      scraped data are as before. */
  lemma CritiqueRound(s: AppState, outcome: Result<CritiqueResult, Thrown>)
    ensures var started := StartCritique(s);
      started.critique == None && started.error == None && started.isLoading
    ensures var r := SettleCritique(StartCritique(s), outcome);
      && (r.critique.Some? <==> r.error.None?)
      && (outcome.Success? ==> r.critique == Some(outcome.value))
      && (outcome.Failure? ==> r.error == Some(AnalysisErrorText(outcome.error)))
      && !r.isLoading
      && r.appStep == s.appStep && r.scrapedBrandInfo == s.scrapedBrandInfo
  {
  }

  lemma AnalysisErrorTexts(m: string)
    ensures AnalysisErrorText(ErrorValue(m)) == "Analysis failed: " + m + ". Check console for details."
    ensures AnalysisErrorText(OtherValue) == UnknownAnalysisError
  {
  }

  /** The step moves forward only through a successful scrape and back only through reset. */
  lemma StepMoves(s: AppState, e: Event)
    ensures s.appStep == UrlInput && Apply(s, e).appStep == CritiqueForm ==> IsScrapeSuccess(e)
    ensures s.appStep == CritiqueForm && Apply(s, e).appStep == UrlInput ==> e == ResetClicked
    ensures IsScrapeSuccess(e) ==> Apply(s, e).appStep == CritiqueForm
    ensures e == ResetClicked ==> Apply(s, e).appStep == UrlInput
  {
  }

  /** From the initial state, the critique form is reached only by a run holding a successful scrape. */
  lemma {:induction false} CritiqueFormNeedsScrape(s: AppState, events: seq<Event>)
    requires s.appStep == UrlInput
    requires Run(s, events).appStep == CritiqueForm
    ensures exists k :: 0 <= k < |events| && IsScrapeSuccess(events[k])
    decreases |events|
  {
    if events != [] {
      var next := Apply(s, events[0]);
      if next.appStep == CritiqueForm {
        StepMoves(s, events[0]);
        assert IsScrapeSuccess(events[0]);
      } else {
        CritiqueFormNeedsScrape(next, events[1..]);
        var k :| 0 <= k < |events[1..]| && IsScrapeSuccess(events[1..][k]);
        assert IsScrapeSuccess(events[k + 1]);
      }
    }
  }

  /** What holds of every reachable state: the form step always has scraped data,
      a pending scrape has no scrape error, a pending critique has neither result
      nor error, and result and error are never both set. */
  predicate Valid(s: AppState) {
    && (s.appStep == CritiqueForm ==> s.scrapedBrandInfo.Some?)
    && (s.isScraping ==> s.scrapingError == None)
    && (s.isLoading ==> s.critique == None && s.error == None)
    && !(s.critique.Some? && s.error.Some?)
  }

  lemma {:induction false} ValidRun(s: AppState, events: seq<Event>)
    requires Valid(s) && Feasible(s, events)
    ensures Valid(Run(s, events))
    decreases |events|
  {
    if events != [] {
      ValidRun(Apply(s, events[0]), events[1..]);
    }
  }

  lemma ReachableValid(events: seq<Event>)
    requires Feasible(Initial, events)
    ensures Valid(Run(Initial, events))
  {
    ValidRun(Initial, events);
  }

  /** Without an API key a scrape attempt ends with the key message on the URL screen. */
  lemma MissingKeyScrape(s: AppState, url: string,
                         generate: GeminiService.Request -> Result<string, Thrown>,
                         parse: string -> Option<BrandInfo>)
    ensures var outcome := GeminiService.ScrapeBrandInfo(None, url, generate, parse).result;
      var r := SettleScrape(StartScrape(s), outcome);
      r.scrapingError == Some("Scraping failed: " + GeminiService.MissingApiKeyMessage)
      && r.appStep == s.appStep
  {
    var c := GeminiService.ScrapeBrandInfo(None, url, generate, parse);
    assert !GeminiService.HasApiKey(None);
    assert c.result == Failure(ErrorValue(GeminiService.MissingApiKeyMessage));
  }

  // ---------------------------------------------------------------------------
  // Rendering

  datatype Panel = LoaderPanel | ErrorPanel(message: string) | ResultsPanel(critique: CritiqueResult) | AwaitingPanel

  datatype Screen =
    | UrlScreen(isLoading: bool, error: Option<string>)
    | FormScreen(isLoading: bool, initialBrandInfo: Option<BrandInfo>, panel: Panel)

  /** The results panel: the loader while loading, else a non-empty error, else the
      critique, else the placeholder. */
  function ResultsPanelFor(s: AppState): (panel: Panel)
    ensures panel == LoaderPanel <==> s.isLoading
    ensures panel.ErrorPanel? <==> !s.isLoading && s.error.Some? && s.error.value != ""
    ensures panel.ErrorPanel? ==> Some(panel.message) == s.error
    ensures panel.ResultsPanel? <==> !s.isLoading && (s.error.None? || s.error.value == "") && s.critique.Some?
    ensures panel.ResultsPanel? ==> Some(panel.critique) == s.critique
    ensures panel == AwaitingPanel <==> !s.isLoading && (s.error.None? || s.error.value == "") && s.critique.None?
  {
    if s.isLoading then LoaderPanel
    else if s.error.Some? && s.error.value != "" then ErrorPanel(s.error.value)
    else if s.critique.Some? then ResultsPanel(s.critique.value)
    else AwaitingPanel
  }

  /** renderContent: the URL screen on the first step, else the form pre-filled with
      the scraped data beside the results panel. In a state that keeps the
      invariant the form always has scraped data to show. */
  function RenderContent(s: AppState): (screen: Screen)
    ensures screen.UrlScreen? <==> s.appStep == UrlInput
    ensures screen.UrlScreen? ==> screen.isLoading == s.isScraping && screen.error == s.scrapingError
    ensures screen.FormScreen? ==>
              screen.isLoading == s.isLoading && screen.initialBrandInfo == s.scrapedBrandInfo
              && screen.panel == ResultsPanelFor(s)
    ensures Valid(s) && screen.FormScreen? ==> screen.initialBrandInfo.Some?
  {
    match s.appStep
    case UrlInput => UrlScreen(s.isScraping, s.scrapingError)
    case CritiqueForm => FormScreen(s.isLoading, s.scrapedBrandInfo, ResultsPanelFor(s))
  }

  /** In every state reachable from the initial one, the critique form is pre-filled. */
  lemma ReachableFormPrefilled(events: seq<Event>)
    requires Feasible(Initial, events)
    ensures RenderContent(Run(Initial, events)).FormScreen? ==>
              RenderContent(Run(Initial, events)).initialBrandInfo.Some?
  {
    ReachableValid(events);
  }

  /** After a critique settles, the panel shows its result or its error. */
  lemma SettledPanel(s: AppState, outcome: Result<CritiqueResult, Thrown>)
    ensures var r := SettleCritique(StartCritique(s), outcome);
      && (outcome.Success? ==> ResultsPanelFor(r) == ResultsPanel(outcome.value))
      && (outcome.Failure? ==> ResultsPanelFor(r) == ErrorPanel(AnalysisErrorText(outcome.error)))
  {
  }

  // ---------------------------------------------------------------------------
  // The component

  class AppController {
    var appStep: AppStep
    var critique: Option<CritiqueResult>
    var isLoading: bool
    var isScraping: bool
    var error: Option<string>
    var scrapingError: Option<string>
    var scrapedBrandInfo: Option<BrandInfo>
    var showGuide: bool

    function State(): AppState
      reads this
    {
      AppState(appStep, critique, isLoading, isScraping, error, scrapingError, scrapedBrandInfo, showGuide)
    }

    constructor()
      ensures State() == Initial
    {
      appStep, critique, isLoading, isScraping := UrlInput, None, false, false;
      error, scrapingError, scrapedBrandInfo, showGuide := None, None, None, false;
    }

    method HandleUrlSubmitStart()
      modifies this
      ensures State() == StartScrape(old(State()))
    {
      isScraping := true;
      scrapingError := None;
    }

    method HandleUrlSubmitSettle(outcome: Result<BrandInfo, Thrown>)
      modifies this
      ensures State() == SettleScrape(old(State()), outcome)
    {
      match outcome {
        case Success(data) =>
          scrapedBrandInfo := Some(data);
          appStep := CritiqueForm;
        case Failure(err) =>
          scrapingError := Some(ScrapingErrorText(err));
      }
      isScraping := false;
    }

    method HandleCritiqueRequestStart()
      modifies this
      ensures State() == StartCritique(old(State()))
    {
      isLoading := true;
      critique := None;
      error := None;
    }

    method HandleCritiqueRequestSettle(outcome: Result<CritiqueResult, Thrown>)
      modifies this
      ensures State() == SettleCritique(old(State()), outcome)
    {
      match outcome {
        case Success(result) =>
          critique := Some(result);
        case Failure(err) =>
          error := Some(AnalysisErrorText(err));
      }
      isLoading := false;
    }

    method HandleReset()
      modifies this
      ensures State() == Reset(old(State()))
    {
      appStep := UrlInput;
      critique := None;
      error := None;
      scrapingError := None;
      scrapedBrandInfo := None;
    }

    /** The results display's explain button and the guide's close button. */
    method SetShowGuide(show: bool)
      modifies this
      ensures State() == old(State()).(showGuide := show)
    {
      showGuide := show;
    }
  }
}
