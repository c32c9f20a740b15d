/**
 * The request guard that sits in front of the dashboard pages: requests for
 * the auth library's own routes pass, dashboard pages need a session token,
 * and anything else passes.
 */
module Middleware {
  import opened JsString

  /** The parts of the request URL the guard reads or rewrites. */
  datatype Url = Url(origin: string, pathname: string, search: string, hash: string)

  datatype Response = Next | Redirect(location: Url)

  const SignedOutPath: string := "/signed-out"

  /** `/dashboard` itself or anything below `/dashboard/`. */
  predicate IsProtected(pathname: string)
  {
    pathname == "/dashboard" || StartsWith(pathname, "/dashboard/")
  }

  /**
   * `middleware(req)`, with the presence of a session token as a parameter
   * (the token is only looked up after the `/api/auth` prefix check).
   */
  function Guard(url: Url, hasToken: bool): (r: Response)
    ensures StartsWith(url.pathname, "/api/auth") ==> r == Next
    ensures !StartsWith(url.pathname, "/api/auth") ==>
      (r.Redirect? <==> IsProtected(url.pathname) && !hasToken)
    ensures r.Redirect? ==> r.location == url.(pathname := SignedOutPath, search := "")
  {
    if StartsWith(url.pathname, "/api/auth") then Next
    else if IsProtected(url.pathname) && !hasToken then
      Redirect(url.(pathname := SignedOutPath, search := ""))
    else Next
  }

  /** The redirect keeps origin and fragment and is itself let through: no redirect loop. */
  lemma RedirectTargetPasses(url: Url, hasToken: bool)
    requires Guard(url, hasToken).Redirect?
    ensures var loc := Guard(url, hasToken).location;
      loc.origin == url.origin && loc.hash == url.hash && Guard(loc, false) == Next
  {
    var loc := Guard(url, hasToken).location;
    assert loc.pathname[..2] == "/s";
  }

  /** Protection goes by path segment: "/dashboardx" is not protected. */
  lemma ProtectionIsBySegment()
    ensures IsProtected("/dashboard") && IsProtected("/dashboard/42/settings")
    ensures !IsProtected("/dashboardx")
  {
    assert "/dashboard/42/settings"[..11] == "/dashboard/";
    assert "/dashboardx"[..11][10] == 'x' != "/dashboard/"[10];
  }

  /** With a token every request passes. */
  lemma TokenAlwaysPasses(url: Url)
    ensures Guard(url, true) == Next
  {
  }
}
