/**
 * The decision `shouldOverrideUrlLoading` makes for a link: URLs on the site's
 * own origin stay inside the embedded browser, everything else is handed to
 * an external app.
 */
module Routing {
  import opened Wrappers
  import opened Platform

  const HttpOrigin: string := "http://www.biea.xyz"
  const HttpsOrigin: string := "https://www.biea.xyz"

  /** Kotlin's `String.startsWith`: a case-sensitive prefix test. */
  predicate StartsWith(s: string, prefix: string)
    ensures StartsWith(s, prefix) <==>
      |prefix| <= |s| && forall i :: 0 <= i < |prefix| ==> s[i] == prefix[i]
  {
    |prefix| <= |s| && s[..|prefix|] == prefix
  }

  /**
   * A URL that stays in the app: it starts with either origin string. So it
   * stays in exactly when it is one of the two origin strings followed by
   * anything at all: the test looks at no host boundary, path or letter case.
   */
  predicate IsInAppUrl(url: string)
    ensures IsInAppUrl(url) <==>
      (exists rest :: HttpOrigin + rest == url) || (exists rest :: HttpsOrigin + rest == url)
  {
    StartsWithIffExtends(url, HttpOrigin);
    StartsWithIffExtends(url, HttpsOrigin);
    StartsWith(url, HttpOrigin) || StartsWith(url, HttpsOrigin)
  }

  /**
   * The string the screen tests: `request?.url.toString()`, which is the
   * text "null" when there is no request, and that text is not an in-app URL.
   */
  function RequestUrl(request: Option<ResourceRequest>): (url: string)
    ensures request.Some? ==> url == request.value.url
    ensures request.None? ==> url == "null" && !IsInAppUrl(url)
  {
    match request
    case None => "null"
    case Some(r) => r.url
  }

  /**
   * The value `shouldOverrideUrlLoading` returns: true when the link is
   * handled outside the WebView. It is false exactly when there is a request
   * whose URL is an origin string followed by anything.
   */
  predicate OverridesUrlLoading(request: Option<ResourceRequest>)
    ensures !OverridesUrlLoading(request) <==>
      request.Some? &&
      ((exists rest :: HttpOrigin + rest == request.value.url) ||
       (exists rest :: HttpsOrigin + rest == request.value.url))
  {
    !IsInAppUrl(RequestUrl(request))
  }

  /** `StartsWith` holds exactly when the string is the prefix followed by something. */
  lemma {:induction false} StartsWithIffExtends(s: string, prefix: string)
    ensures StartsWith(s, prefix) <==> exists rest :: prefix + rest == s
  {
    if StartsWith(s, prefix) {
      assert prefix + s[|prefix|..] == s;
    }
    if exists rest :: prefix + rest == s {
      var rest :| prefix + rest == s;
      assert s[..|prefix|] == (prefix + rest)[..|prefix|] == prefix;
    }
  }

  /**
   * The routing decision on concrete links: pages of the site stay in the app,
   * other sites go out, a look-alike host that merely starts with the origin
   * stays in, an upper-case scheme, a missing "www." or a missing scheme goes
   * out, and a missing request (tested as "null") goes out.
   */
  lemma RoutingExamples()
    ensures !OverridesUrlLoading(Some(ResourceRequest("https://www.biea.xyz/page", true)))
    ensures !OverridesUrlLoading(Some(ResourceRequest("http://www.biea.xyz", true)))
    ensures OverridesUrlLoading(Some(ResourceRequest("https://example.com", true)))
    ensures !OverridesUrlLoading(Some(ResourceRequest("https://www.biea.xyz.other.com", true)))
    ensures OverridesUrlLoading(Some(ResourceRequest("HTTPS://www.biea.xyz", true)))
    ensures OverridesUrlLoading(Some(ResourceRequest("https://biea.xyz", true)))
    ensures OverridesUrlLoading(Some(ResourceRequest("www.biea.xyz", true)))
    ensures OverridesUrlLoading(None)
  {
    assert HttpsOrigin + "/page" == "https://www.biea.xyz/page";
    assert HttpsOrigin + ".other.com" == "https://www.biea.xyz.other.com";
    assert HttpOrigin + "" == "http://www.biea.xyz";
    assert "https://example.com"[..|HttpOrigin|][4] != HttpOrigin[4];
    assert "HTTPS://www.biea.xyz"[..|HttpOrigin|][0] != HttpOrigin[0];
    assert "HTTPS://www.biea.xyz"[..|HttpsOrigin|][0] != HttpsOrigin[0];
  }
}
