# BieaWebViewer page-load state machine

BieaWebViewer is a one-screen Android app that shows the site `www.biea.xyz`
in an embedded WebView, with a refresh button, a loading indicator, a
connectivity check and error messages shown as toasts. This project models
the logic of its only activity, `MainActivity`, in Dafny:

- `Connectivity` — `isNetworkAvailable`: an active network with capabilities
  whose transports include Wi-Fi, cellular or Ethernet.
- `Routing` — the prefix test of `shouldOverrideUrlLoading` that keeps
  `http://www.biea.xyz…` and `https://www.biea.xyz…` inside the WebView and
  sends every other URL to an external app.
- `PageLoad` — the screen as a value (`Screen`: the visibility of the
  progress bar and of the WebView, the log of messages shown, the log of URLs
  passed to `webView.loadUrl`, the log of links handed to external apps, the
  WebView's history depth, and whether the screen has closed) and one
  transition function per handler. `Event`, `Step` and `Run` replay a
  sequence of handler calls.
- `Activity.MainActivity` — the same handlers as methods of a class that
  updates these fields in place; each method's postcondition is that the new
  state is the `PageLoad` transition of the old one.
- `Platform` and `Wrappers` — the Android inputs as plain data (visibility,
  WebView requests, errors and error codes, page metrics) and `Option` for
  Kotlin's nullable values.

Platform inputs are parameters: whether a network is available is computed
from an `Option<ActiveNetwork>` argument, whether an external app accepts a
link is a boolean, and each WebView callback receives the values it reads.

Kotlin's null handling is modelled as written. A missing request is tested
under the URL string "null", so it goes to an external app, and it is never
the main frame. A missing error is reported as "Error: null" and gets no
second message. A missing view counts as content height 0 and progress 0.

**The progress bar and the page can be visible together.** One might expect
the screen never to show the loading indicator and the page at the same
time; the code does not guarantee it. Every handler that sets the views
leaves at most one of them visible, and the other handlers leave the views
alone (`Step`). `onProgressChanged` is the exception (MainActivity.kt:140-141).
It shows a progress bar that is gone whenever progress is below 100, and it
never hides the page. `BothVisibleIsReachable` gives a run that ends with
both views visible: load, page started, page finished with content, then
progress 10. `BothVisibleOnlyThroughProgress` proves that such a progress
event is the only way to get there. `NoTicksKeepAtMostOneVisible` proves that
on any run without progress events the two are never visible together.

## Model

| member | source | states |
|---|---|---|
| Connectivity.IsNetworkAvailable | BieaWebViewer/app/src/main/java/com/example/bieawebviewer/MainActivity.kt:179-192 | available iff there is an active network, it has capabilities, and some transport among them is Wi-Fi, cellular or Ethernet |
| Connectivity.AvailabilityIsMonotone | BieaWebViewer/app/src/main/java/com/example/bieawebviewer/MainActivity.kt:186-191 | a network that is available stays available when more transports are added |
| Connectivity.OtherTransportsAloneAreUnavailable | BieaWebViewer/app/src/main/java/com/example/bieawebviewer/MainActivity.kt:186-191 | a network whose transports are all outside Wi-Fi, cellular and Ethernet (VPN only, Bluetooth, USB, ...) counts as unavailable |
| Routing.StartsWith | BieaWebViewer/app/src/main/java/com/example/bieawebviewer/MainActivity.kt:115 | `startsWith` holds iff the prefix is no longer than the string and matches it character by character, with no case folding |
| Routing.StartsWithIffExtends | BieaWebViewer/app/src/main/java/com/example/bieawebviewer/MainActivity.kt:115 | `startsWith(prefix)` holds exactly when the string is the prefix followed by some rest |
| Routing.IsInAppUrl | BieaWebViewer/app/src/main/java/com/example/bieawebviewer/MainActivity.kt:115 | a URL stays in the app iff it is `http://www.biea.xyz` or `https://www.biea.xyz` followed by any text, with no host boundary or case folding |
| Routing.RequestUrl | BieaWebViewer/app/src/main/java/com/example/bieawebviewer/MainActivity.kt:113 | the tested string is the request's URL; with no request it is the text "null", which is not an in-app URL |
| Routing.OverridesUrlLoading | BieaWebViewer/app/src/main/java/com/example/bieawebviewer/MainActivity.kt:112-128 | the returned flag is false iff there is a request whose URL is one of the two origin strings followed by anything; a missing request is always handled externally |
| Routing.RoutingExamples | BieaWebViewer/app/src/main/java/com/example/bieawebviewer/MainActivity.kt:113-117 | site pages and the look-alike `https://www.biea.xyz.other.com` stay in; `https://example.com`, an upper-case scheme, a missing `www.`, a missing scheme and a missing request go out |
| PageLoad.ShowError | BieaWebViewer/app/src/main/java/com/example/bieawebviewer/MainActivity.kt:199-200 | appends exactly the given message and changes nothing else |
| PageLoad.LoadUrlInWebView | BieaWebViewer/app/src/main/java/com/example/bieawebviewer/MainActivity.kt:162-173 | online: bar visible, page gone, exactly one load of `https://www.biea.xyz`, no message; offline: both gone, exactly the no-internet message, no load; never both visible |
| PageLoad.OnCreate | BieaWebViewer/app/src/main/java/com/example/bieawebviewer/MainActivity.kt:153-154 | after the first load from any layout: empty history, not closed; online bar visible, page gone, one load and no message; offline both gone, no load and only the no-internet message |
| PageLoad.OnPageStarted | BieaWebViewer/app/src/main/java/com/example/bieawebviewer/MainActivity.kt:52-56 | from any state: bar visible, page gone, all logs unchanged |
| PageLoad.PageHasContent | BieaWebViewer/app/src/main/java/com/example/bieawebviewer/MainActivity.kt:66 | a present view passes iff its content height is positive or its progress is exactly 100; a missing view (read as 0 and 0) never passes |
| PageLoad.OnPageFinished | BieaWebViewer/app/src/main/java/com/example/bieawebviewer/MainActivity.kt:63-81 | content height > 0 or progress 100: bar gone, page shown, no message; otherwise both gone and exactly one message, "Failed to load page content…" when online and "No internet connection…" when offline |
| PageLoad.GoingBackIsReachable | BieaWebViewer/app/src/main/java/com/example/bieawebviewer/MainActivity.kt:214-215 | after the WebView has visited one page, the back key steps back inside it: history empty again and the screen still open |
| PageLoad.CompleteProgressOverridesEmptyContent | BieaWebViewer/app/src/main/java/com/example/bieawebviewer/MainActivity.kt:66-68 | progress 100 shows the page even when the content height is 0 or less |
| PageLoad.IsMainFrame | BieaWebViewer/app/src/main/java/com/example/bieawebviewer/MainActivity.kt:91 | a present request is the main frame iff its flag says so; a missing request never is |
| PageLoad.ErrorText | BieaWebViewer/app/src/main/java/com/example/bieawebviewer/MainActivity.kt:94 | the first message is "Error: " followed by the error's description, or by "null" when there is no error object |
| PageLoad.IsConnectivityError | BieaWebViewer/app/src/main/java/com/example/bieawebviewer/MainActivity.kt:98-101 | holds iff an error is present and its code is host lookup, connect, timeout or unsupported scheme; a missing error never qualifies |
| PageLoad.OnReceivedError | BieaWebViewer/app/src/main/java/com/example/bieawebviewer/MainActivity.kt:88-105 | not the main frame (or no request): nothing changes; main frame: both gone, "Error: " + description appended first, then a second message "Failed to connect…" iff the code is host lookup, connect, timeout or unsupported scheme, so one or two messages |
| PageLoad.ShouldOverrideUrlLoading | BieaWebViewer/app/src/main/java/com/example/bieawebviewer/MainActivity.kt:112-128 | the returned flag is `Routing.OverridesUrlLoading`; an in-app URL changes nothing; otherwise the URL is handed out when an app accepts it, or exactly "Could not open external link." is appended; views never change |
| PageLoad.OnProgressChanged | BieaWebViewer/app/src/main/java/com/example/bieawebviewer/MainActivity.kt:137-145 | never changes the page view or hides the bar; the bar changes iff progress < 100 and the bar was gone; it creates the both-visible state iff additionally the page was visible |
| PageLoad.OnBackPressed | BieaWebViewer/app/src/main/java/com/example/bieawebviewer/MainActivity.kt:213-219 | `canGoBack()` is a non-empty history; with history: one entry popped and the screen stays open; without: history unchanged and the screen closes; views and logs unchanged |
| PageLoad.Step | BieaWebViewer/app/src/main/java/com/example/bieawebviewer/MainActivity.kt:47-219 | every handler but onProgressChanged keeps "not both visible"; a step that creates both-visible is a progress event below 100 with the page shown and the bar gone |
| PageLoad.NoTicksKeepAtMostOneVisible | BieaWebViewer/app/src/main/java/com/example/bieawebviewer/MainActivity.kt:47-219 | any run of handler calls without a progress event keeps "not both visible" |
| PageLoad.BothVisibleOnlyThroughProgress | BieaWebViewer/app/src/main/java/com/example/bieawebviewer/MainActivity.kt:137-145 | a run that ends with both visible, having started otherwise, contains a progress event below 100 that arrived while the page was shown and the bar gone |
| PageLoad.BothVisibleIsReachable | BieaWebViewer/app/src/main/java/com/example/bieawebviewer/MainActivity.kt:137-145 | load, page started, page finished with content, then progress 10 leaves both the bar and the page visible |
| Activity.MainActivity.constructor | BieaWebViewer/app/src/main/java/com/example/bieawebviewer/MainActivity.kt:31-155 | the new screen is `PageLoad.OnCreate` of the layout's visibilities and the network |
| Activity.MainActivity.ShowError | BieaWebViewer/app/src/main/java/com/example/bieawebviewer/MainActivity.kt:199-206 | the new state is `PageLoad.ShowError` of the old one |
| Activity.MainActivity.LoadUrlInWebView | BieaWebViewer/app/src/main/java/com/example/bieawebviewer/MainActivity.kt:162-173 | the new state is `PageLoad.LoadUrlInWebView` of the old one |
| Activity.MainActivity.OnRefreshClicked | BieaWebViewer/app/src/main/java/com/example/bieawebviewer/MainActivity.kt:149-151 | a refresh is the same load as the first one, from whatever state the screen is in |
| Activity.MainActivity.OnPageStarted | BieaWebViewer/app/src/main/java/com/example/bieawebviewer/MainActivity.kt:52-56 | the new state is `PageLoad.OnPageStarted` of the old one |
| Activity.MainActivity.OnPageFinished | BieaWebViewer/app/src/main/java/com/example/bieawebviewer/MainActivity.kt:63-81 | the new state is `PageLoad.OnPageFinished` of the old one |
| Activity.MainActivity.OnReceivedError | BieaWebViewer/app/src/main/java/com/example/bieawebviewer/MainActivity.kt:88-105 | the new state is `PageLoad.OnReceivedError` of the old one |
| Activity.MainActivity.ShouldOverrideUrlLoading | BieaWebViewer/app/src/main/java/com/example/bieawebviewer/MainActivity.kt:112-128 | the new state and the returned flag are those of `PageLoad.ShouldOverrideUrlLoading` |
| Activity.MainActivity.OnProgressChanged | BieaWebViewer/app/src/main/java/com/example/bieawebviewer/MainActivity.kt:137-145 | the new state is `PageLoad.OnProgressChanged` of the old one |
| Activity.MainActivity.OnBackPressed | BieaWebViewer/app/src/main/java/com/example/bieawebviewer/MainActivity.kt:213-219 | the new state is `PageLoad.OnBackPressed` of the old one |

## Left out

- Layout inflation, `findViewById`, the refresh button widget and the root layout (lines 33-39): views are two visibility fields. The layout file's initial visibilities are not available, so they are constructor parameters.
- WebView settings (JavaScript, DOM storage, cache mode, lines 42-44): they configure the browser engine, which is not modelled.
- Rendering, the HTTP fetch, and the order in which the WebView delivers or supersedes its callbacks: each callback is an event the environment chooses, with its inputs as parameters.
- How the WebView's back history grows as pages are visited: the history belongs to the browser engine. The model keeps only its depth. A `PageVisited` event in runs adds one entry, and only `onBackPressed` removes entries.
- `ConnectivityManager`/`getSystemService`: replaced by the active-network argument. `Intent`, `Uri.parse` and `startActivity`: replaced by the `launchSucceeds` argument. A failed launch is the exception path that shows the toast.
- Toast durations and the commented-out Snackbar alternative (lines 201-205).
- The numeric values of the `ERROR_*` and `TRANSPORT_*` constants: they are enumerations, with `OtherCode` for any error code outside the named ones.
- The superclass calls (`super.onPageStarted`, `super.onReceivedError`, ...): they are platform code. The one with a visible effect, `super.onBackPressed`, is modelled as closing the screen.
- Threading: all handlers run one at a time on the UI thread, so the model is a single sequence of events.
