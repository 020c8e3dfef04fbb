/**
 * The screen itself: the two view visibilities and the logs live in fields,
 * and each handler updates them in place. Every method is specified by a
 * transition in module PageLoad applied to the state before the call: the
 * constructor by `OnCreate`, the refresh listener by `LoadUrlInWebView`, and
 * every other method by the transition of the same name.
 */
module Activity {
  import opened Wrappers
  import opened Platform
  import Connectivity
  import Routing
  import PageLoad

  class MainActivity {
    var progressBarVisibility: Visibility
    var webViewVisibility: Visibility
    /** Every toast shown, oldest first. */
    var messages: seq<string>
    /** Every URL passed to `webView.loadUrl`, oldest first. */
    var loadRequests: seq<string>
    /** Every URL handed to an external app that accepted it, oldest first. */
    var externalOpens: seq<string>
    /** The depth of the WebView's back history, which the WebView itself grows as pages are visited. */
    var historyDepth: nat
    /** Whether the default back action has closed the screen. */
    var finished: bool

    /** The fields as one value, the form the transitions in PageLoad work on. */
    function State(): PageLoad.Screen
      reads this
    {
      PageLoad.Screen(progressBarVisibility, webViewVisibility, messages, loadRequests,
                      externalOpens, historyDepth, finished)
    }

    /**
     * `onCreate`: the views as the layout declares them, then the first load
     * of the site.
     */
    constructor (progressBarLayout: Visibility, webViewLayout: Visibility,
                 network: Option<Connectivity.ActiveNetwork>)
      ensures State() == PageLoad.OnCreate(progressBarLayout, webViewLayout, network)
    {
      progressBarVisibility := progressBarLayout;
      webViewVisibility := webViewLayout;
      messages := [];
      loadRequests := [];
      externalOpens := [];
      historyDepth := 0;
      finished := false;
      new;
      LoadUrlInWebView(network);
    }

    method ShowError(message: string)
      modifies this
      ensures State() == PageLoad.ShowError(old(State()), message)
    {
      messages := messages + [message];
    }

    method LoadUrlInWebView(network: Option<Connectivity.ActiveNetwork>)
      modifies this
      ensures State() == PageLoad.LoadUrlInWebView(old(State()), network)
    {
      if Connectivity.IsNetworkAvailable(network) {
        webViewVisibility := Gone;
        progressBarVisibility := Visible;
        loadRequests := loadRequests + [PageLoad.TargetUrl];
      } else {
        progressBarVisibility := Gone;
        webViewVisibility := Gone;
        ShowError(PageLoad.NoInternetMessage);
      }
    }

    /** The refresh button's click listener: the same load, from whatever state the screen is in. */
    method OnRefreshClicked(network: Option<Connectivity.ActiveNetwork>)
      modifies this
      ensures State() == PageLoad.LoadUrlInWebView(old(State()), network)
    {
      LoadUrlInWebView(network);
    }

    method OnPageStarted()
      modifies this
      ensures State() == PageLoad.OnPageStarted(old(State()))
    {
      progressBarVisibility := Visible;
      webViewVisibility := Gone;
    }

    method OnPageFinished(view: Option<PageMetrics>, network: Option<Connectivity.ActiveNetwork>)
      modifies this
      ensures State() == PageLoad.OnPageFinished(old(State()), view, network)
    {
      var contentHeight := if view.Some? then view.value.contentHeight else 0;
      var progress := if view.Some? then view.value.progress else 0;
      if contentHeight > 0 || progress == 100 {
        progressBarVisibility := Gone;
        webViewVisibility := Visible;
      } else {
        progressBarVisibility := Gone;
        webViewVisibility := Gone;
        if Connectivity.IsNetworkAvailable(network) {
          ShowError(PageLoad.EmptyPageMessage);
        } else {
          ShowError(PageLoad.NoInternetMessage);
        }
      }
    }

    method OnReceivedError(request: Option<ResourceRequest>, error: Option<ResourceError>)
      modifies this
      ensures State() == PageLoad.OnReceivedError(old(State()), request, error)
    {
      if request.Some? && request.value.isForMainFrame {
        progressBarVisibility := Gone;
        webViewVisibility := Gone;
        var errorMessage := "Error: " + (if error.Some? then error.value.description else "null");
        ShowError(errorMessage);
        if error.Some? {
          var code := error.value.errorCode;
          if code == HostLookup || code == Connect || code == Timeout || code == UnsupportedScheme {
            ShowError(PageLoad.ConnectFailedMessage);
          }
        }
      }
    }

    /**
     * Returns false for a URL that stays in the WebView; otherwise asks an
     * external app to open it, which succeeds when `launchSucceeds` holds,
     * and returns true either way.
     */
    method ShouldOverrideUrlLoading(request: Option<ResourceRequest>, launchSucceeds: bool)
      returns (handled: bool)
      modifies this
      ensures (State(), handled) == PageLoad.ShouldOverrideUrlLoading(old(State()), request, launchSucceeds)
    {
      var url := Routing.RequestUrl(request);
      if Routing.StartsWith(url, Routing.HttpOrigin) || Routing.StartsWith(url, Routing.HttpsOrigin) {
        handled := false;
      } else {
        if launchSucceeds {
          externalOpens := externalOpens + [url];
        } else {
          messages := messages + [PageLoad.ExternalLinkMessage];
        }
        handled := true;
      }
    }

    method OnProgressChanged(newProgress: int)
      modifies this
      ensures State() == PageLoad.OnProgressChanged(old(State()), newProgress)
    {
      if newProgress < 100 && progressBarVisibility == Gone {
        progressBarVisibility := Visible;
      }
    }

    method OnBackPressed()
      modifies this
      ensures State() == PageLoad.OnBackPressed(old(State()))
    {
      if historyDepth > 0 {
        historyDepth := historyDepth - 1;
      } else {
        finished := true;
      }
    }
  }
}
