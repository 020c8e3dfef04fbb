/**
 * The screen's page-load state machine as values: what each callback of the
 * WebView, the refresh button and the back key does to the two views, the
 * message log (every toast), the log of load requests sent
 * to the WebView, the log of links handed to external apps, the WebView's
 * history depth and whether the screen has been closed.
 *
 * The class in main_activity.dfy performs these transitions in place. Each of
 * its methods is specified by a transition here applied to the state before
 * the call: the constructor by `OnCreate`, the refresh listener by
 * `LoadUrlInWebView`, and every other method by the transition of the same name.
 */
module PageLoad {
  import opened Wrappers
  import opened Platform
  import Connectivity
  import Routing

  const TargetUrl: string := "https://www.biea.xyz"
  const NoInternetMessage: string :=
    "No internet connection. Please check your network settings and try again."
  const EmptyPageMessage: string :=
    "Failed to load page content. The page may be empty or an issue occurred."
  const ConnectFailedMessage: string :=
    "Failed to connect or load the page. Please check your internet connection or the URL."
  const ExternalLinkMessage: string := "Could not open external link."

  datatype Screen = Screen(
    progressBar: Visibility,
    webView: Visibility,
    messages: seq<string>,
    loadRequests: seq<string>,
    externalOpens: seq<string>,
    historyDepth: nat,
    finished: bool)

  /** The loading indicator and the page shown together. */
  predicate BothVisible(s: Screen) {
    s.progressBar == Visible && s.webView == Visible
  }

  /** Neither log of outgoing requests, nor the history, nor the closed flag has changed. */
  predicate SameNavigation(s: Screen, r: Screen) {
    r.loadRequests == s.loadRequests && r.externalOpens == s.externalOpens &&
    r.historyDepth == s.historyDepth && r.finished == s.finished
  }

  /** `showError`: one more entry in the message log. */
  function ShowError(s: Screen, message: string): (r: Screen)
    ensures r.messages == s.messages + [message]
    ensures r.progressBar == s.progressBar && r.webView == s.webView && SameNavigation(s, r)
  {
    s.(messages := s.messages + [message])
  }

  // ---------------------------------------------------------------------------
  // Loading the site (first load and the refresh button)
  // ---------------------------------------------------------------------------

  /**
   * `loadUrlInWebView`: with a connection, show the indicator, hide the page
   * and ask the WebView for the site; without one, hide both and report it.
   */
  function LoadUrlInWebView(s: Screen, network: Option<Connectivity.ActiveNetwork>): (r: Screen)
    ensures Connectivity.IsNetworkAvailable(network) ==>
      r.progressBar == Visible && r.webView == Gone &&
      r.loadRequests == s.loadRequests + [TargetUrl] && r.messages == s.messages
    ensures !Connectivity.IsNetworkAvailable(network) ==>
      r.progressBar == Gone && r.webView == Gone &&
      r.loadRequests == s.loadRequests && r.messages == s.messages + [NoInternetMessage]
    ensures !BothVisible(r)
    ensures r.externalOpens == s.externalOpens && r.historyDepth == s.historyDepth && r.finished == s.finished
  {
    if Connectivity.IsNetworkAvailable(network) then
      s.(webView := Gone, progressBar := Visible, loadRequests := s.loadRequests + [TargetUrl])
    else
      ShowError(s.(progressBar := Gone, webView := Gone), NoInternetMessage)
  }

  /**
   * `onCreate`: the views start as the layout declares them, nothing has been
   * reported or requested, the history is empty, and the site is loaded once.
   */
  function OnCreate(progressBarLayout: Visibility, webViewLayout: Visibility,
                    network: Option<Connectivity.ActiveNetwork>): (r: Screen)
    ensures !BothVisible(r) && r.historyDepth == 0 && !r.finished && r.externalOpens == []
    ensures Connectivity.IsNetworkAvailable(network) ==>
      r.progressBar == Visible && r.webView == Gone &&
      r.loadRequests == [TargetUrl] && r.messages == []
    ensures !Connectivity.IsNetworkAvailable(network) ==>
      r.progressBar == Gone && r.webView == Gone &&
      r.loadRequests == [] && r.messages == [NoInternetMessage]
  {
    LoadUrlInWebView(Screen(progressBarLayout, webViewLayout, [], [], [], 0, false), network)
  }

  // ---------------------------------------------------------------------------
  // WebViewClient callbacks
  // ---------------------------------------------------------------------------

  /** `onPageStarted`: whatever came before, the indicator shows and the page hides. */
  function OnPageStarted(s: Screen): (r: Screen)
    ensures r.progressBar == Visible && r.webView == Gone && !BothVisible(r)
    ensures r.messages == s.messages && SameNavigation(s, r)
  {
    s.(progressBar := Visible, webView := Gone)
  }

  /**
   * The test `onPageFinished` uses to decide that the page has arrived. A
   * missing view reads as content height 0 and progress 0, so it never passes.
   */
  predicate PageHasContent(view: Option<PageMetrics>)
    ensures view.None? ==> !PageHasContent(view)
    ensures view.Some? ==>
      (PageHasContent(view) <==> view.value.contentHeight > 0 || view.value.progress == 100)
  {
    var contentHeight := if view.Some? then view.value.contentHeight else 0;
    var progress := if view.Some? then view.value.progress else 0;
    contentHeight > 0 || progress == 100
  }

  /**
   * `onPageFinished`: a page with content (or complete progress) is shown and
   * the indicator hidden; otherwise both are hidden and one message explains
   * why, chosen by the connection check at that moment.
   */
  function OnPageFinished(s: Screen, view: Option<PageMetrics>,
                          network: Option<Connectivity.ActiveNetwork>): (r: Screen)
    ensures PageHasContent(view) ==>
      r.progressBar == Gone && r.webView == Visible && r.messages == s.messages
    ensures !PageHasContent(view) ==>
      r.progressBar == Gone && r.webView == Gone &&
      r.messages == s.messages +
        [if Connectivity.IsNetworkAvailable(network) then EmptyPageMessage else NoInternetMessage]
    ensures !BothVisible(r) && SameNavigation(s, r)
  {
    if PageHasContent(view) then
      s.(progressBar := Gone, webView := Visible)
    else
      var hidden := s.(progressBar := Gone, webView := Gone);
      if Connectivity.IsNetworkAvailable(network) then ShowError(hidden, EmptyPageMessage)
      else ShowError(hidden, NoInternetMessage)
  }

  /** The test on `request?.isForMainFrame`: a missing request is not the main frame. */
  predicate IsMainFrame(request: Option<ResourceRequest>)
    ensures request.None? ==> !IsMainFrame(request)
    ensures request.Some? ==> (IsMainFrame(request) <==> request.value.isForMainFrame)
  {
    request.Some? && request.value.isForMainFrame
  }

  /** The error codes that earn the second, connection-oriented message. */
  const ConnectivityErrorCodes: set<ErrorCode> := {HostLookup, Connect, Timeout, UnsupportedScheme}

  /**
   * The test on `error?.errorCode`: a present error whose code is one of the
   * four connection failures. A missing error never qualifies.
   */
  predicate IsConnectivityError(error: Option<ResourceError>)
    ensures IsConnectivityError(error) <==> error.Some? && error.value.errorCode in ConnectivityErrorCodes
  {
    error.Some? &&
    (error.value.errorCode == HostLookup || error.value.errorCode == Connect ||
     error.value.errorCode == Timeout || error.value.errorCode == UnsupportedScheme)
  }

  /** `"Error: ${error?.description}"`: the template prints "null" when there is no error object. */
  function ErrorText(error: Option<ResourceError>): (text: string)
    ensures |text| >= |"Error: "| && text[..|"Error: "|] == "Error: "
    ensures text[|"Error: "|..] == if error.Some? then error.value.description else "null"
  {
    "Error: " + (if error.Some? then error.value.description else "null")
  }

  /**
   * `onReceivedError`: errors of sub-resources are ignored; an error of the
   * main frame hides both views and reports the error's description, followed
   * by the connection hint when the code is a connection failure.
   */
  function OnReceivedError(s: Screen, request: Option<ResourceRequest>,
                           error: Option<ResourceError>): (r: Screen)
    ensures !IsMainFrame(request) ==> r == s
    ensures IsMainFrame(request) ==>
      r.progressBar == Gone && r.webView == Gone &&
      |s.messages| < |r.messages| <= |s.messages| + 2 &&
      r.messages[..|s.messages|] == s.messages &&
      r.messages[|s.messages|] == ErrorText(error)
    ensures IsMainFrame(request) ==>
      (|r.messages| == |s.messages| + 2 <==> IsConnectivityError(error))
    ensures IsMainFrame(request) && IsConnectivityError(error) ==>
      r.messages[|s.messages| + 1] == ConnectFailedMessage
    ensures !BothVisible(r) || BothVisible(s)
    ensures SameNavigation(s, r)
  {
    if !IsMainFrame(request) then s
    else
      var reported := ShowError(s.(progressBar := Gone, webView := Gone), ErrorText(error));
      if IsConnectivityError(error) then ShowError(reported, ConnectFailedMessage) else reported
  }

  /**
   * `shouldOverrideUrlLoading`: returns the screen afterwards and the value
   * returned to the WebView. An in-app URL changes nothing and returns false;
   * any other URL is handed to an external app (or, when no app takes it,
   * reported) and returns true.
   */
  function ShouldOverrideUrlLoading(s: Screen, request: Option<ResourceRequest>,
                                    launchSucceeds: bool): (r: (Screen, bool))
    ensures r.1 == Routing.OverridesUrlLoading(request)
    ensures !r.1 ==> r.0 == s
    ensures r.1 && launchSucceeds ==>
      r.0.externalOpens == s.externalOpens + [Routing.RequestUrl(request)] &&
      r.0.messages == s.messages
    ensures r.1 && !launchSucceeds ==>
      r.0.externalOpens == s.externalOpens && r.0.messages == s.messages + [ExternalLinkMessage]
    ensures r.0.progressBar == s.progressBar && r.0.webView == s.webView
    ensures r.0.loadRequests == s.loadRequests && r.0.historyDepth == s.historyDepth &&
      r.0.finished == s.finished
  {
    var url := Routing.RequestUrl(request);
    if !Routing.OverridesUrlLoading(request) then (s, false)
    else if launchSucceeds then (s.(externalOpens := s.externalOpens + [url]), true)
    else (s.(messages := s.messages + [ExternalLinkMessage]), true)
  }

  // ---------------------------------------------------------------------------
  // WebChromeClient callback and the back key
  // ---------------------------------------------------------------------------

  /**
   * `onProgressChanged`: brings back a hidden indicator while loading is
   * under way. It never touches the page view and never hides the indicator,
   * so it can leave both visible.
   */
  function OnProgressChanged(s: Screen, newProgress: int): (r: Screen)
    ensures r.webView == s.webView && r.messages == s.messages && SameNavigation(s, r)
    ensures r.progressBar == s.progressBar || r.progressBar == Visible
    ensures r.progressBar != s.progressBar <==> newProgress < 100 && s.progressBar == Gone
    ensures BothVisible(r) && !BothVisible(s) <==>
      newProgress < 100 && s.progressBar == Gone && s.webView == Visible
  {
    if newProgress < 100 && s.progressBar == Gone then s.(progressBar := Visible) else s
  }

  /**
   * `onBackPressed`: steps back one page when the WebView has history (it
   * can go back exactly when its history is not empty); otherwise the
   * platform's default closes the screen.
   */
  function OnBackPressed(s: Screen): (r: Screen)
    ensures s.historyDepth > 0 ==> r.historyDepth + 1 == s.historyDepth && r.finished == s.finished
    ensures s.historyDepth == 0 ==> r.historyDepth == 0 && r.finished
    ensures r.progressBar == s.progressBar && r.webView == s.webView && r.messages == s.messages
    ensures r.loadRequests == s.loadRequests && r.externalOpens == s.externalOpens
  {
    if s.historyDepth > 0 then s.(historyDepth := s.historyDepth - 1) else s.(finished := true)
  }

  // ---------------------------------------------------------------------------
  // Sequences of events
  // ---------------------------------------------------------------------------

  /**
   * One event the screen reacts to, carrying the inputs its handler reads.
   * `PageVisited` is the WebView adding a page to its own back history, which
   * no handler of the screen does but which makes going back possible.
   */
  datatype Event =
    | Reload(network: Option<Connectivity.ActiveNetwork>)
    | Started
    | Finished(view: Option<PageMetrics>, network: Option<Connectivity.ActiveNetwork>)
    | Failed(request: Option<ResourceRequest>, error: Option<ResourceError>)
    | UrlLoading(request: Option<ResourceRequest>, launchSucceeds: bool)
    | ProgressTick(newProgress: int)
    | Back
    | PageVisited

  /**
   * The screen after one event. Every event other than a progress tick keeps
   * the two views from being visible together; a progress tick makes them so
   * only when it arrives below 100 with the page shown and the indicator gone.
   */
  function Step(s: Screen, e: Event): (r: Screen)
    ensures !e.ProgressTick? && !BothVisible(s) ==> !BothVisible(r)
    ensures BothVisible(r) && !BothVisible(s) ==>
      e.ProgressTick? && e.newProgress < 100 && s.webView == Visible && s.progressBar == Gone
  {
    match e
    case Reload(network) => LoadUrlInWebView(s, network)
    case Started => OnPageStarted(s)
    case Finished(view, network) => OnPageFinished(s, view, network)
    case Failed(request, error) => OnReceivedError(s, request, error)
    case UrlLoading(request, launchSucceeds) => ShouldOverrideUrlLoading(s, request, launchSucceeds).0
    case ProgressTick(newProgress) => OnProgressChanged(s, newProgress)
    case Back => OnBackPressed(s)
    case PageVisited => s.(historyDepth := s.historyDepth + 1)
  }

  /** The screen after a sequence of events, in order. */
  function Run(s: Screen, events: seq<Event>): Screen
    decreases |events|
  {
    if events == [] then s else Run(Step(s, events[0]), events[1..])
  }

  /**
   * With no progress tick among the events, a screen that does not show both
   * views never comes to show both.
   */
  lemma {:induction false} NoTicksKeepAtMostOneVisible(s: Screen, events: seq<Event>)
    requires !BothVisible(s)
    requires forall i :: 0 <= i < |events| ==> !events[i].ProgressTick?
    ensures !BothVisible(Run(s, events))
    decreases |events|
  {
    if events != [] {
      assert forall i :: 0 <= i < |events[1..]| ==> events[1..][i] == events[i + 1];
      NoTicksKeepAtMostOneVisible(Step(s, events[0]), events[1..]);
    }
  }

  /**
   * Whenever a run ends with both views visible, having started without, some
   * progress tick below 100 arrived while the page was shown and the
   * indicator was gone: the progress callback is the only way in.
   */
  lemma {:induction false} BothVisibleOnlyThroughProgress(s: Screen, events: seq<Event>)
    requires !BothVisible(s) && BothVisible(Run(s, events))
    ensures exists i ::
              && 0 <= i < |events|
              && events[i].ProgressTick? && events[i].newProgress < 100
              && Run(s, events[..i]).webView == Visible && Run(s, events[..i]).progressBar == Gone
    decreases |events|
  {
    assert events != [];
    var next := Step(s, events[0]);
    if BothVisible(next) {
      assert events[..0] == [];
      assert Run(s, events[..0]) == s;
    } else {
      BothVisibleOnlyThroughProgress(next, events[1..]);
      var j :| 0 <= j < |events[1..]| && events[1..][j].ProgressTick? && events[1..][j].newProgress < 100 &&
        Run(next, events[1..][..j]).webView == Visible && Run(next, events[1..][..j]).progressBar == Gone;
      assert events[..j + 1][0] == events[0];
      assert events[..j + 1][1..] == events[1..][..j];
      assert Run(s, events[..j + 1]) == Run(next, events[1..][..j]);
      assert events[j + 1] == events[1..][j];
    }
  }

  /**
   * Both views can be visible at once: the site loads, a page with content
   * finishes, and a late progress report below 100 brings the indicator back
   * over the shown page.
   */
  lemma BothVisibleIsReachable()
    ensures var online := Some(Connectivity.ActiveNetwork(Some({Connectivity.Wifi})));
      BothVisible(Run(OnCreate(Gone, Gone, online),
                      [Started, Finished(Some(PageMetrics(1200, 100)), online), ProgressTick(10)]))
  {
    var online := Some(Connectivity.ActiveNetwork(Some({Connectivity.Wifi})));
    var s0 := OnCreate(Gone, Gone, online);
    var s1 := OnPageStarted(s0);
    var s2 := OnPageFinished(s1, Some(PageMetrics(1200, 100)), online);
    assert Run(s0, [Started, Finished(Some(PageMetrics(1200, 100)), online), ProgressTick(10)])
        == Run(s1, [Finished(Some(PageMetrics(1200, 100)), online), ProgressTick(10)])
        == Run(s2, [ProgressTick(10)]);
  }

  /**
   * The back key steps back inside the WebView once it has visited a page:
   * the screen stays open and the history is empty again.
   */
  lemma GoingBackIsReachable(network: Option<Connectivity.ActiveNetwork>)
    ensures var r := Run(OnCreate(Gone, Gone, network), [PageVisited, Back]);
      r.historyDepth == 0 && !r.finished
  {
    var s0 := OnCreate(Gone, Gone, network);
    assert Run(s0, [PageVisited, Back]) == Run(s0.(historyDepth := 1), [Back]);
  }

  /** A finished page whose progress is 100 is shown even when it reports no content height. */
  lemma CompleteProgressOverridesEmptyContent(s: Screen, contentHeight: int,
                                              network: Option<Connectivity.ActiveNetwork>)
    requires contentHeight <= 0
    ensures var r := OnPageFinished(s, Some(PageMetrics(contentHeight, 100)), network);
      r.webView == Visible && r.progressBar == Gone && r.messages == s.messages
  {
  }
}
