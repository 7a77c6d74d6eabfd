/** The page-routing decision made for every request before it reaches a page. */
module Middleware {
  /** The pages reachable without signing in. */
  const PublicPaths: seq<string> := ["/login", "/register"]

  predicate IsPublicPath(pathname: string) {
    pathname in PublicPaths
  }

  datatype Decision = RedirectToLogin(from: string) | RedirectToDashboard | PassThrough

  function Decide(hasUser: bool, pathname: string): (d: Decision)
    ensures d.RedirectToLogin? <==> !hasUser && !IsPublicPath(pathname)
    ensures d.RedirectToLogin? ==> d.from == pathname
    ensures d.RedirectToDashboard? <==> hasUser && IsPublicPath(pathname)
    ensures d.PassThrough? <==> hasUser != IsPublicPath(pathname)
  {
    var isPublic := IsPublicPath(pathname);
    if !hasUser && !isPublic then RedirectToLogin(pathname)
    else if hasUser && isPublic then RedirectToDashboard
    else PassThrough
  }

  lemma PublicExactly(pathname: string)
    ensures IsPublicPath(pathname) <==> pathname == "/login" || pathname == "/register"
  {
  }

  /** Apart from the `from` it carries, the decision depends only on (user present, path public). */
  lemma DecisionDependsOnClassOnly(hasUser: bool, p: string, q: string)
    requires IsPublicPath(p) == IsPublicPath(q)
    ensures Decide(hasUser, p).RedirectToLogin? == Decide(hasUser, q).RedirectToLogin?
    ensures !Decide(hasUser, p).RedirectToLogin? ==> Decide(hasUser, p) == Decide(hasUser, q)
  {
  }
}
