/** The request middleware: paths under the public and framework prefixes
    pass without an auth check; every other path needs a signed-in user and
    otherwise redirects to the login page with `next` set to the path. */
module Middleware {
  import opened Strings

  const PublicPaths: seq<string> := ["/admin/login", "/healthz", "/api/public"]
  const FrameworkPaths: seq<string> := ["/_next", "/favicon.ico", "/robots.txt", "/sitemap.xml", "/auth"]
  const LoginPath := "/admin/login"

  datatype Outcome =
    | PassThrough
    /** A redirect to `target?next=<path>`. */
    | Redirect(target: string, next: string)

  /** The response, and whether the user was looked up. */
  datatype Decision = Decision(outcome: Outcome, userLookedUp: bool)

  predicate IsPublic(pathname: string)
  {
    StartsWithAny(pathname, PublicPaths)
  }

  predicate IsFramework(pathname: string)
  {
    StartsWithAny(pathname, FrameworkPaths)
  }

  /** `middleware(req)`, with `hasUser` the auth service's answer. */
  function Middleware(pathname: string, hasUser: bool): (d: Decision)
    ensures IsPublic(pathname) || IsFramework(pathname) <==> !d.userLookedUp
    ensures !d.userLookedUp ==> d.outcome == PassThrough
    ensures d.userLookedUp ==>
      (d.outcome == PassThrough <==> hasUser) &&
      (!hasUser ==> d.outcome == Redirect(LoginPath, pathname))
  {
    if IsPublic(pathname) || IsFramework(pathname) then Decision(PassThrough, false)
    else if !hasUser then Decision(Redirect(LoginPath, pathname), true)
    else Decision(PassThrough, true)
  }

  /** The matcher `/((?!.*\.).*)`: the middleware runs on paths with no dot. */
  predicate Matched(pathname: string)
  {
    StartsWith(pathname, "/") && '.' !in pathname
  }

  /** A request as the framework serves it: unmatched paths skip the middleware. */
  function Serve(pathname: string, hasUser: bool): (d: Decision)
    ensures d.outcome.Redirect? ==> Matched(pathname) && !hasUser && d.outcome.next == pathname
    ensures !Matched(pathname) ==> d == Decision(PassThrough, false)
    ensures Matched(pathname) ==> d == Middleware(pathname, hasUser)
  {
    if Matched(pathname) then Middleware(pathname, hasUser) else Decision(PassThrough, false)
  }

  /** Matching is by raw prefix: `/authors` counts as a framework path, and
      `/admin/login-help` as public. */
  lemma RawPrefixes()
    ensures IsFramework("/authors")
    ensures IsPublic("/admin/login-help")
    ensures Middleware("/authors", false) == Decision(PassThrough, false)
  {
    assert StartsWith("/authors", FrameworkPaths[4]);
    assert StartsWith("/admin/login-help", PublicPaths[0]);
  }

  /** The storefront is in neither list: without a user, `/` and `/fruver`
      redirect to the login page. */
  lemma StorefrontNeedsUser()
    ensures Serve("/", false) == Decision(Redirect(LoginPath, "/"), true)
    ensures Serve("/fruver", false) == Decision(Redirect(LoginPath, "/fruver"), true)
    ensures Serve("/fruver", true) == Decision(PassThrough, true)
  {
    assert !IsPublic("/") && !IsFramework("/") by {
      forall i | 0 <= i < |PublicPaths| ensures !StartsWith("/", PublicPaths[i]) { }
      forall i | 0 <= i < |FrameworkPaths| ensures !StartsWith("/", FrameworkPaths[i]) { }
    }
    assert !IsPublic("/fruver") && !IsFramework("/fruver") by {
      forall i | 0 <= i < |PublicPaths| ensures !StartsWith("/fruver", PublicPaths[i]) { }
      forall i | 0 <= i < |FrameworkPaths| ensures !StartsWith("/fruver", FrameworkPaths[i]) {
        var j := if i == 1 then 2 else 1;
        assert "/fruver"[j] != FrameworkPaths[i][j];
      }
    }
  }
}
