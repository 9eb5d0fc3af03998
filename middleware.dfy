/** The route guard of the web front end: from the request path and whether a
    user is signed in, pass the request on or redirect it. */
module RouteGuard {

  datatype Decision = Pass | RedirectToLogin | RedirectToDashboard

  predicate StartsWith(s: string, prefix: string) {
    |prefix| <= |s| && s[..|prefix|] == prefix
  }

  /** Build output and static files: any path under `/_next` or `/static`,
      or with a dot anywhere. */
  predicate IsAsset(path: string) {
    StartsWith(path, "/_next") || StartsWith(path, "/static") || '.' in path
  }

  const PublicRoutes: seq<string> := ["/login", "/register", "/auth/callback"]

  /** `publicRoutes.some(r => path.startsWith(r))` */
  predicate IsPublic(path: string) {
    exists r :: r in PublicRoutes && StartsWith(path, r)
  }

  /** The public paths are exactly those under one of the three prefixes. */
  lemma PublicPrefixes(path: string)
    ensures IsPublic(path) <==>
      StartsWith(path, "/login") || StartsWith(path, "/register") || StartsWith(path, "/auth/callback")
  {
    if StartsWith(path, "/login") {
      assert PublicRoutes[0] == "/login";
    } else if StartsWith(path, "/register") {
      assert PublicRoutes[1] == "/register";
    } else if StartsWith(path, "/auth/callback") {
      assert PublicRoutes[2] == "/auth/callback";
    }
  }

  /** `middleware`: assets first, then the signed-out redirect, then the
      signed-in redirect away from the login page. */
  function Decide(path: string, signedIn: bool): (d: Decision)
    ensures IsAsset(path) ==> d == Pass
    ensures d == RedirectToLogin <==> !IsAsset(path) && !signedIn && !IsPublic(path)
    ensures d == RedirectToDashboard <==> !IsAsset(path) && signedIn && path == "/login"
  {
    if IsAsset(path) then Pass
    else if !signedIn && !IsPublic(path) then RedirectToLogin
    else if signedIn && path == "/login" then RedirectToDashboard
    else Pass
  }

  /** A path with no dot whose second character is neither `_` nor `s` is a page. */
  lemma PageNotAsset(path: string)
    requires forall i :: 0 <= i < |path| ==> path[i] != '.'
    requires |path| >= 2 && path[1] != '_' && path[1] != 's'
    ensures !IsAsset(path)
  {
  }

  /** A signed-out request for a public page is never redirected. */
  lemma PublicPagesOpen(path: string)
    requires IsPublic(path)
    ensures Decide(path, false) == Pass
  {
  }

  /** Only the login page itself sends a signed-in user to the dashboard:
      `/register` and paths that merely start with `/login` pass. */
  lemma OnlyExactLoginRedirects()
    ensures Decide("/login", true) == RedirectToDashboard
    ensures Decide("/register", true) == Pass
    ensures Decide("/login/", true) == Pass
  {
    PageNotAsset("/login");
    PageNotAsset("/register");
    PageNotAsset("/login/");
  }

  /** The prefix test makes any path that starts with `/login` public, so a
      signed-out user reaches `/loginhelp` without a redirect. */
  lemma PrefixWidensPublic()
    ensures Decide("/loginhelp", false) == Pass
  {
    assert StartsWith("/loginhelp", PublicRoutes[0]);
    PageNotAsset("/loginhelp");
  }

  /** The asset check comes first: a signed-in user asking for a login path
      with a dot in it is not sent to the dashboard. */
  lemma AssetCheckFirst()
    ensures Decide("/login.html", true) == Pass
    ensures Decide("/dashboard.json", false) == Pass
  {
    assert '.' in "/login.html";
    assert '.' in "/dashboard.json";
  }

  /** A signed-out request for a protected page goes to the login page. */
  lemma ProtectedPagesClosed()
    ensures Decide("/dashboard", false) == RedirectToLogin
    ensures Decide("/dashboard", true) == Pass
  {
    PageNotAsset("/dashboard");
    assert !IsPublic("/dashboard") by {
      PublicPrefixes("/dashboard");
    }
  }
}
