/**
 * The values the Android platform hands to the screen's callbacks, reduced to
 * plain data: view visibility, the requests and errors a WebView reports, and
 * the two page measurements read when a page finishes.
 */
module Platform {

  /** The three values of `View.visibility`. */
  datatype Visibility = Visible | Invisible | Gone

  /**
   * The error codes a WebView resource error may carry (`WebViewClient.ERROR_*`).
   * Their numeric values belong to the platform and are not modelled;
   * `OtherCode` stands for any value outside the named ones.
   */
  datatype ErrorCode =
    | Unknown
    | HostLookup
    | UnsupportedAuthScheme
    | Authentication
    | ProxyAuthentication
    | Connect
    | Io
    | Timeout
    | RedirectLoop
    | UnsupportedScheme
    | FailedSslHandshake
    | BadUrl
    | File
    | FileNotFound
    | TooManyRequests
    | UnsafeResource
    | OtherCode(code: int)

  /** A `WebResourceRequest`: the requested URL, as its string form, and whether it is the top-level document. */
  datatype ResourceRequest = ResourceRequest(url: string, isForMainFrame: bool)

  /** A `WebResourceError`: its code and its description text. */
  datatype ResourceError = ResourceError(errorCode: ErrorCode, description: string)

  /** The WebView's `contentHeight` and `progress` at the moment a page finishes. */
  datatype PageMetrics = PageMetrics(contentHeight: int, progress: int)
}
