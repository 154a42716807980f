/**
 * The routing decision of `updateSession` (src/lib/supabase/middleware.ts),
 * run on every request: webhooks pass, a protected page without a session
 * goes to the login page (remembering where it was going), the login pages
 * with a session go to the calendar, everything else passes.
 */
module Middleware {
  import opened Strings

  /** `/login` and `/forgot-password`, as raw prefixes. */
  predicate IsAuthRoute(path: string) {
    StartsWith(path, "/login") || StartsWith(path, "/forgot-password")
  }

  const ProtectedPrefixes: seq<string> := [
    "/admin", "/inbox", "/calendar", "/interventions", "/reports",
    "/invoices", "/quotes", "/products", "/technician"]

  /** The nine application sections, as raw prefixes (so `/adminx` is protected too). */
  predicate IsProtectedRoute(path: string) {
    exists i :: 0 <= i < |ProtectedPrefixes| && StartsWith(path, ProtectedPrefixes[i])
  }

  predicate IsApiWebhook(path: string) {
    StartsWith(path, "/api/webhooks")
  }

  datatype Decision =
    | PassThrough
    | RedirectToLogin(redirectParam: string)   // `/login?redirect=<path>`
    | RedirectToCalendar

  /** The decision for a request to `path`, with or without a signed-in user. */
  function UpdateSession(path: string, hasUser: bool): (d: Decision)
    ensures IsApiWebhook(path) ==> d == PassThrough
    ensures d.RedirectToLogin? <==> !IsApiWebhook(path) && IsProtectedRoute(path) && !hasUser
    ensures d.RedirectToLogin? ==> d.redirectParam == path
    ensures d == RedirectToCalendar <==> !IsApiWebhook(path) && IsAuthRoute(path) && hasUser
  {
    if IsApiWebhook(path) then PassThrough
    else if IsProtectedRoute(path) && !hasUser then RedirectToLogin(path)
    else if IsAuthRoute(path) && hasUser then RedirectToCalendar
    else PassThrough
  }

  /** A page of the login flow is never a protected page, so the two redirects never compete. */
  lemma AuthRoutesAreNotProtected(path: string)
    requires IsAuthRoute(path)
    ensures !IsProtectedRoute(path)
  {
    assert path[1] == 'l' || path[1] == 'f' by {
      if StartsWith(path, "/login") { assert path[..6][1] == path[1]; }
      else { assert path[..16][1] == path[1]; }
    }
  }

  /**
   * The redirects settle: the login page is reachable without a session,
   * and the calendar with one, so neither redirect leads to another.
   */
  lemma RedirectsSettle()
    ensures UpdateSession("/login", false) == PassThrough
    ensures UpdateSession("/calendar", true) == PassThrough
  {
    var login := "/login";
    assert IsAuthRoute(login) by { assert login[..6] == "/login"; }
    AuthRoutesAreNotProtected(login);
    var cal := "/calendar";
    assert !IsAuthRoute(cal) by { assert cal[1] == 'c'; }
  }

  /** The section test is a raw prefix test: `/adminx` counts as protected. */
  lemma RawPrefixTest()
    ensures IsProtectedRoute("/adminx")
    ensures UpdateSession("/adminx", false) == RedirectToLogin("/adminx")
  {
    var p := "/adminx";
    assert StartsWith(p, ProtectedPrefixes[0]) by { assert p[..6] == "/admin"; }
    assert !IsApiWebhook(p) by { assert p[1] == 'a'; }
  }
}
