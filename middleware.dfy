/**
 * The request middleware's routing decision (lib/supabase/middleware.ts): without the
 * backend's URL and key every request passes; otherwise a visitor without a session is
 * sent from the dashboard pages to the login page, and a signed-in user is sent from
 * the login page to the dashboard.
 */
module Middleware {
  import opened Wrappers
  import opened Text
  import opened Roles

  const LoginPath: string := "/login"
  const HomePath: string := "/"

  datatype SessionOutcome = PassThrough | RedirectTo(path: string)

  /** `pathname.startsWith('/login')` */
  predicate IsAuthPage(path: string) {
    StartsWith(path, "/login")
  }

  /** The root, or a path starting with one of the four dashboard sections. */
  predicate IsDashboardPage(path: string) {
    path == "/"
    || StartsWith(path, "/soldiers")
    || StartsWith(path, "/movements")
    || StartsWith(path, "/review")
    || StartsWith(path, "/admin")
  }

  /** No path is both: a login path is too long to be "/" and has 'l' where the sections differ. */
  lemma PageKindsDisjoint(path: string)
    ensures !(IsAuthPage(path) && IsDashboardPage(path))
  {
    if IsAuthPage(path) {
      assert path[1] == "/login"[1];
    }
  }

  /**
   * `updateSession`. `url` and `anonKey` are the two environment variables; `user` is
   * the session's user, asked for only once both are set.
   */
  function UpdateSession(url: Option<string>, anonKey: Option<string>, user: Option<SessionUser>, path: string)
    : (o: SessionOutcome)
    ensures !Truthy(url) || !Truthy(anonKey) ==> o == PassThrough
    ensures Truthy(url) && Truthy(anonKey) && user.None? && IsDashboardPage(path) ==> o == RedirectTo(LoginPath)
    ensures Truthy(url) && Truthy(anonKey) && user.Some? && IsAuthPage(path) ==> o == RedirectTo(HomePath)
    ensures o == PassThrough <==>
      !Truthy(url) || !Truthy(anonKey) || (user.None? && !IsDashboardPage(path)) || (user.Some? && !IsAuthPage(path))
  {
    if !Truthy(url) || !Truthy(anonKey) then PassThrough
    else if user.None? && IsDashboardPage(path) then RedirectTo(LoginPath)
    else if user.Some? && IsAuthPage(path) then RedirectTo(HomePath)
    else PassThrough
  }

  /** At most one rule applies: the outcome is a redirect to the login page or home only by its own rule. */
  lemma OneRuleFires(url: Option<string>, anonKey: Option<string>, user: Option<SessionUser>, path: string)
    ensures UpdateSession(url, anonKey, user, path) == RedirectTo(LoginPath) ==> user.None? && IsDashboardPage(path)
    ensures UpdateSession(url, anonKey, user, path) == RedirectTo(HomePath) ==> user.Some? && IsAuthPage(path)
  {
    PageKindsDisjoint(path);
  }

  /** A redirect target is let through on the next request by the same visitor: no redirect loop. */
  lemma NoRedirectLoop(url: Option<string>, anonKey: Option<string>, user: Option<SessionUser>, path: string)
    requires UpdateSession(url, anonKey, user, path).RedirectTo?
    ensures UpdateSession(url, anonKey, user, UpdateSession(url, anonKey, user, path).path) == PassThrough
  {
    PageKindsDisjoint(LoginPath);
  }

  /** Every page below a dashboard section is a dashboard page, and so is a longer name such as "/adminx". */
  lemma SectionPrefixes(rest: string)
    ensures IsDashboardPage("/soldiers" + rest) && IsDashboardPage("/admin" + rest)
    ensures IsDashboardPage("/movements" + rest) && IsDashboardPage("/review" + rest)
    ensures IsAuthPage("/login" + rest)
  {
    assert ("/soldiers" + rest)[..9] == "/soldiers";
    assert ("/admin" + rest)[..6] == "/admin";
    assert ("/movements" + rest)[..10] == "/movements";
    assert ("/review" + rest)[..7] == "/review";
    assert ("/login" + rest)[..6] == "/login";
  }

  /** A visitor without a session on a dashboard page ends at the login page, which then passes. */
  lemma SignedOutReachesLogin(url: string, anonKey: string, path: string)
    requires url != "" && anonKey != "" && IsDashboardPage(path)
    ensures UpdateSession(Some(url), Some(anonKey), None, path) == RedirectTo(LoginPath)
    ensures UpdateSession(Some(url), Some(anonKey), None, LoginPath) == PassThrough
  {
    PageKindsDisjoint(LoginPath);
    SectionPrefixes("");
  }
}
