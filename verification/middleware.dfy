/** The Next.js middleware: a decision, from the `user-agent` header and the request path, to let
    the request through or to redirect it between the desktop site and the mobile site. */
module Middleware {
  import opened Options
  import opened JsText

  /** The alternatives of the user-agent pattern, in its order. */
  const MobileTokens: seq<string> :=
    ["android", "webos", "iphone", "ipad", "ipod", "blackberry", "iemobile", "opera mini"]

  /** The alternatives of the static-file pattern: a path ending in `.` and one of these. */
  const StaticExtensions: seq<string> :=
    ["png", "jpg", "jpeg", "gif", "svg", "ico", "woff", "woff2", "ttf", "eot"]

  /** `request.headers.get("user-agent") || ""`. */
  function UserAgent(header: Option<string>): string {
    match header
    case None => ""
    case Some(ua) => ua
  }

  /** Whether one of the first `n` tokens occurs in the lower-cased user agent. */
  predicate AnyToken(lower: string, n: nat)
    requires n <= |MobileTokens|
  {
    n > 0 && (AnyToken(lower, n - 1) || Contains(lower, MobileTokens[n - 1]))
  }

  /** The `i`-flagged pattern `android|webos|...|opera mini` matched against the user agent: the
      tokens are ASCII, and with the `i` flag (and no `u` flag) only ASCII letters fold onto them. */
  predicate IsMobile(userAgent: string) {
    AnyToken(LowerAsciiString(userAgent), |MobileTokens|)
  }

  /** `t` occurs at index `i` of `s` when case is ignored, character by character. */
  predicate MatchesAt(s: string, t: string, i: int) {
    0 <= i && i + |t| <= |s| && forall j :: 0 <= j < |t| ==> LowerAscii(s[i + j]) == t[j]
  }

  /** The paths the middleware never redirects: the API, Next.js internals, the favicon, and
      static files by extension. The extension test is case-sensitive and anchored at the end. */
  predicate Excluded(pathname: string) {
    StartsWith(pathname, "/api") || StartsWith(pathname, "/_next") || StartsWith(pathname, "/favicon.ico") ||
    exists i :: 0 <= i < |StaticExtensions| && EndsWith(pathname, "." + StaticExtensions[i])
  }

  datatype Decision = Next | Redirect(pathname: string)

  /** `middleware`. */
  function Decide(header: Option<string>, pathname: string): Decision {
    var isMobile := IsMobile(UserAgent(header));
    if Excluded(pathname) then Next
    else if isMobile && !StartsWith(pathname, "/mobile") then Redirect("/mobile")
    else if !isMobile && StartsWith(pathname, "/mobile") then Redirect("/")
    else Next
  }

  lemma {:induction false} AnyTokenIff(ua: string, n: nat)
    requires n <= |MobileTokens|
    ensures AnyToken(LowerAsciiString(ua), n) <==>
      exists k, i :: 0 <= k < n && MatchesAt(ua, MobileTokens[k], i)
  {
    var lower := LowerAsciiString(ua);
    if n > 0 {
      AnyTokenIff(ua, n - 1);
      var t := MobileTokens[n - 1];
      forall i | MatchesAt(ua, t, i) ensures Contains(lower, t) {
        assert lower[i..i + |t|] == t;
        ContainsAt(lower, t, i);
      }
      if Contains(lower, t) {
        var i := IndexOf(lower, t, 0);
        forall j | 0 <= j < |t| ensures LowerAscii(ua[i + j]) == t[j] {
          assert lower[i..i + |t|][j] == t[j];
        }
        assert MatchesAt(ua, MobileTokens[n - 1], i);
      }
    }
  }

  /** The user agent counts as mobile exactly when one of the eight tokens occurs in it, letters
      compared without regard to ASCII case. A missing header counts as the empty string, and so
      as desktop. */
  lemma IsMobileIff(header: Option<string>)
    ensures IsMobile(UserAgent(header)) <==>
      exists k, i :: 0 <= k < |MobileTokens| && MatchesAt(UserAgent(header), MobileTokens[k], i)
    ensures header.None? ==> !IsMobile(UserAgent(header))
  {
    AnyTokenIff(UserAgent(header), |MobileTokens|);
  }

  /** Excluded paths always pass through, whoever asks. */
  lemma ExcludedPass(header: Option<string>, pathname: string)
    requires Excluded(pathname)
    ensures Decide(header, pathname) == Next
  {
  }

  /** A mobile client is sent to `/mobile` exactly when the path is not excluded and does not
      already start with `/mobile`; a desktop client is sent to `/` exactly when the path is not
      excluded and starts with `/mobile`; every other request passes through. */
  lemma Redirects(header: Option<string>, pathname: string)
    ensures var mobile := IsMobile(UserAgent(header));
      (Decide(header, pathname) == Redirect("/mobile") <==>
         !Excluded(pathname) && mobile && !StartsWith(pathname, "/mobile")) &&
      (Decide(header, pathname) == Redirect("/") <==>
         !Excluded(pathname) && !mobile && StartsWith(pathname, "/mobile")) &&
      (Decide(header, pathname).Redirect? ==>
         Decide(header, pathname) == Redirect("/mobile") || Decide(header, pathname) == Redirect("/"))
  {
  }

  /** Neither redirect target is excluded. */
  lemma TargetsNotExcluded()
    ensures !Excluded("/mobile") && !Excluded("/")
  {
    assert "/mobile"[..4][1] != "/api"[1] && "/mobile"[..6][1] != "/_next"[1];
    forall i | 0 <= i < |StaticExtensions|
      ensures !EndsWith("/mobile", "." + StaticExtensions[i]) && !EndsWith("/", "." + StaticExtensions[i])
    {
      assert |"." + StaticExtensions[i]| >= 4;
      var e := "." + StaticExtensions[i];
      if |e| <= 7 {
        assert "/mobile"[7 - |e|..][0] != '.';
      }
    }
  }

  /** No redirect loop: the same client asking for the redirect's target is let through. */
  lemma NoRedirectLoop(header: Option<string>, pathname: string)
    requires Decide(header, pathname).Redirect?
    ensures Decide(header, Decide(header, pathname).pathname) == Next
  {
    TargetsNotExcluded();
  }
}
