/**
 * The request guard in front of every page: the locale prefix is stripped,
 * a request for a protected route without an `authToken` cookie is sent to
 * the login page of its locale, and every other request goes on to the
 * internationalisation handler.
 */
module Middleware {
  import opened Common
  import opened Text

  const Locales: seq<string> := ["en", "fr"]
  const DefaultLocale: string := "en"
  const ProtectedRoutes: seq<string> := ["/workbench", "/dashboard"]

  /**
   * `pathname.replace(/^\/(en|fr)/, '') || '/'`: the pattern is anchored at the start and has no
   * segment boundary, so `/english` loses its first three characters too; an empty remainder
   * becomes `/`.
   */
  function WithoutLocale(pathname: string): (r: string)
    ensures r != []
  {
    var stripped :=
      if |pathname| >= 3 && pathname[0] == '/' && (pathname[1..3] == "en" || pathname[1..3] == "fr")
      then pathname[3..] else pathname;
    if stripped == [] then "/" else stripped
  }

  /** `routes.some(route => path.startsWith(route))` */
  predicate SomePrefix(routes: seq<string>, path: string)
    decreases |routes|
  {
    routes != [] && (StartsWith(path, routes[0]) || SomePrefix(routes[1..], path))
  }

  predicate IsProtected(path: string) {
    SomePrefix(ProtectedRoutes, WithoutLocale(path))
  }

  /** `locales.find(locale => pathname.startsWith('/' + locale))` */
  function FindLocale(locales: seq<string>, pathname: string): (r: Option<string>)
    ensures r.Some? ==> r.value in locales && StartsWith(pathname, "/" + r.value)
    ensures r.None? <==> forall k :: 0 <= k < |locales| ==> !StartsWith(pathname, "/" + locales[k])
    decreases |locales|
  {
    if locales == [] then None
    else if StartsWith(pathname, "/" + locales[0]) then Some(locales[0])
    else
      var r := FindLocale(locales[1..], pathname);
      assert forall k :: 1 <= k < |locales| ==> locales[1..][k - 1] == locales[k];
      r
  }

  /** The locale of the login page a redirect goes to. */
  function CurrentLocale(pathname: string): string {
    FindLocale(Locales, pathname).GetOr(DefaultLocale)
  }

  /** What the middleware does with a request. `Redirect` carries the login path and the `from` query value. */
  datatype Outcome = Redirect(loginPath: string, from: string) | I18nRouting

  /** An `authToken` cookie that is missing or empty counts as no token (`!authToken`). */
  predicate HasToken(cookie: Option<string>) {
    cookie.Some? && cookie.value != ""
  }

  /**
   * The request is redirected exactly when the route is protected and no token came with it; the
   * redirect goes to the login page of a supported locale and remembers the full original path.
   */
  function Route(pathname: string, cookie: Option<string>): (r: Outcome)
    ensures r.Redirect? <==> IsProtected(pathname) && !HasToken(cookie)
    ensures r.Redirect? ==> (&& CurrentLocale(pathname) in Locales
                             && r.loginPath == "/" + CurrentLocale(pathname) + "/login"
                             && r.from == pathname)
  {
    if IsProtected(pathname) && !HasToken(cookie) then
      Redirect("/" + CurrentLocale(pathname) + "/login", pathname)
    else I18nRouting
  }

  /** A route is protected exactly when its path, less the locale, begins with one of the two protected routes. */
  lemma ProtectedIff(pathname: string)
    ensures IsProtected(pathname) <==>
      StartsWith(WithoutLocale(pathname), "/workbench") || StartsWith(WithoutLocale(pathname), "/dashboard")
  {
    var p := WithoutLocale(pathname);
    assert ProtectedRoutes[1..] == ["/dashboard"];
    assert ProtectedRoutes[1..][1..] == [];
  }

  /**
   * The two ways the locale is read agree: when the path begins with `/en` or `/fr` the stripped path
   * is what follows that prefix and the login page uses that locale; otherwise nothing is stripped
   * and the login page is the English one.
   */
  lemma LocaleAgreement(pathname: string)
    ensures StartsWith(pathname, "/en") || StartsWith(pathname, "/fr") ==>
      && pathname == "/" + CurrentLocale(pathname) + pathname[3..]
      && WithoutLocale(pathname) == (if |pathname| == 3 then "/" else pathname[3..])
    ensures !(StartsWith(pathname, "/en") || StartsWith(pathname, "/fr")) ==>
      && CurrentLocale(pathname) == "en"
      && WithoutLocale(pathname) == (if pathname == [] then "/" else pathname)
  {
    if StartsWith(pathname, "/en") || StartsWith(pathname, "/fr") {
      assert pathname[..3] == "/" + pathname[1..3];
      assert pathname == pathname[..3] + pathname[3..];
    } else {
      assert !StartsWith(pathname, "/" + Locales[0]) && !StartsWith(pathname, "/" + Locales[1]);
    }
  }

  /** A protected page under a locale, even one whose name only begins like a protected route, needs a token. */
  lemma PrefixedRoutesProtected()
    ensures IsProtected("/en/workbenchX")
    ensures IsProtected("/fr/dashboard/history")
  {
    var w := "/en/workbenchX";
    assert w[1..3] == "en";
    assert WithoutLocale(w) == "/workbenchX";
    assert "/workbenchX"[..|"/workbench"|] == "/workbench";
    var d := "/fr/dashboard/history";
    assert d[1..3] == "fr";
    assert WithoutLocale(d) == "/dashboard/history";
    assert "/dashboard/history"[..|"/dashboard"|] == "/dashboard";
    ProtectedIff(w);
    ProtectedIff(d);
  }

  /** A protected route without a locale prefix is still protected, and the locale roots are not. */
  lemma UnprefixedRoutesProtected()
    ensures IsProtected("/dashboard")
    ensures !IsProtected("/en") && !IsProtected("/")
  {
    var d := "/dashboard";
    assert d[1..3] == "da" != "en" && d[1..3] != "fr";
    assert WithoutLocale(d) == d;
    ProtectedIff(d);
    assert "/en"[1..3] == "en";
    assert WithoutLocale("/en") == "/";
    ProtectedIff("/en");
    ProtectedIff("/");
  }

  /** Without a token, a French dashboard page goes to the French login page and comes back to where it was. */
  lemma FrenchDashboardRedirect(cookie: Option<string>)
    requires !HasToken(cookie)
    ensures Route("/fr/dashboard", cookie) == Redirect("/fr/login", "/fr/dashboard")
  {
    var d := "/fr/dashboard";
    assert d[1..3] == "fr";
    assert WithoutLocale(d) == "/dashboard";
    ProtectedIff(d);
    assert d[..3] == "/fr" && d[1] != 'e';
    assert !StartsWith(d, "/" + Locales[0]);
    assert StartsWith(d, "/" + Locales[1]);
  }
}
