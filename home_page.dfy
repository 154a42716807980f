/**
 * The root page (src/app/page.tsx): it only redirects, to the login page
 * without a session, to the technician's day for a technician and to the
 * calendar for everybody else.
 */
module HomePage {
  import opened Wrappers
  import opened Strings
  import opened Database
  import Middleware

  /**
   * The redirect for a session whose auth id is `authId`. The profile is
   * read with `.single()`; a failed read leaves it null, which lands on
   * the calendar.
   */
  function HomeRedirect(authId: Option<Id>, users: map<Id, User>, profileFails: bool): (r: string)
    ensures r == "/login" <==> authId.None?
    ensures r == "/technician/today" <==>
      authId.Some? && !profileFails && authId.value in users && users[authId.value].role == Technician
    ensures r == "/calendar" <==>
      authId.Some? && (profileFails || authId.value !in users || users[authId.value].role != Technician)
  {
    if authId.None? then "/login"
    else if !profileFails && authId.value in users && users[authId.value].role == Technician then
      "/technician/today"
    else "/calendar"
  }

  /** The page the root redirects to is let through by the session middleware: no second redirect follows. */
  lemma HomeRedirectSettles(authId: Option<Id>, users: map<Id, User>, profileFails: bool)
    ensures Middleware.UpdateSession(HomeRedirect(authId, users, profileFails), authId.Some?)
      == Middleware.PassThrough
  {
    var r := HomeRedirect(authId, users, profileFails);
    if authId.None? {
      Middleware.RedirectsSettle();
    } else if r == "/calendar" {
      Middleware.RedirectsSettle();
    } else {
      assert r == "/technician/today";
      assert !Middleware.IsAuthRoute(r) by { assert r[1] == 't'; }
      assert !Middleware.IsApiWebhook(r) by { assert r[1] == 't'; }
    }
  }
}
