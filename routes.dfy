/**
 * The application's route table and its two guards. Routes are tried in
 * the router's ranking order: a static path beats the catch-all `*`, and
 * among routes with the same path the one declared first wins. No route
 * asks for case-sensitive matching, so a visited path matches a declared
 * one when the two agree after lower-casing and dropping trailing slashes.
 */
module Routes {
  import opened Wrappers
  import opened Json
  import opened Text
  import opened Storage
  import opened Session

  datatype Page =
    | HomePage | ContactPage | InquiryPage | CareerPage | ServicePage | EventsPage
    | AboutPage | GalleryPage | LoginPage | SignupPage | VerifyPage | DashboardPage
    /** Renders nothing and navigates to "/". */
    | NotFoundRedirect

  /** The wrapper around a route's element. */
  datatype Guard = Open | ProtectedRoute | VerifyRoute

  datatype Route = Route(path: string, guard: Guard, page: Page)

  const CatchAll := "*"
  const LoginPath := "/admin/login"

  /** The table exactly as declared, with "/admin/verify" and "/admin" declared twice. */
  const AppRoutesAsWritten: seq<Route> := [
    Route("/", Open, HomePage),
    Route("/contact", Open, ContactPage),
    Route("/inquiry", Open, InquiryPage),
    Route("/career", Open, CareerPage),
    Route("/services", Open, ServicePage),
    Route("/events", Open, EventsPage),
    Route("/about", Open, AboutPage),
    Route("/gallery", Open, GalleryPage),
    Route("/admin/login", Open, LoginPage),
    Route("/admin/signup", Open, SignupPage),
    Route("/admin/verify", Open, VerifyPage),
    Route("/admin", Open, DashboardPage),
    Route("/admin/verify", VerifyRoute, VerifyPage),
    Route("/admin", ProtectedRoute, DashboardPage),
    Route(CatchAll, Open, NotFoundRedirect)
  ]

  /** The table with only the guarded declarations of the two admin paths. */
  const AppRoutes: seq<Route> := AppRoutesAsWritten[..10] + AppRoutesAsWritten[12..]

  /** `s` without its trailing slashes; a lone "/" is kept. */
  function StripTrailingSlashes(s: string): (r: string)
    ensures |r| <= |s| && r == s[..|r|]
    ensures forall i :: |r| <= i < |s| ==> s[i] == '/'
    ensures |s| >= 1 ==> |r| >= 1
    ensures |r| > 1 ==> r[|r| - 1] != '/'
  {
    if |s| > 1 && s[|s| - 1] == '/' then StripTrailingSlashes(s[..|s| - 1]) else s
  }

  /** The form in which the router compares paths: lower case, no trailing slash. */
  function Normalize(p: string): (r: string)
    ensures |r| <= |p|
  {
    ToLower(StripTrailingSlashes(p))
  }

  /** No capital letter and no trailing slash after the first character. */
  predicate NormalPath(s: string) {
    (forall i :: 0 <= i < |s| ==> !IsUpper(s[i])) && (|s| <= 1 || s[|s| - 1] != '/')
  }

  /** A path already in that form is its own normal form. */
  lemma NormalOf(s: string)
    requires NormalPath(s)
    ensures Normalize(s) == s
  {
  }

  /** Trailing slashes added to a path that has a first character are stripped again. */
  lemma {:induction false} StripAddedSlashes(s: string, slashes: nat)
    requires |s| >= 1
    ensures StripTrailingSlashes(s + seq(slashes, _ => '/')) == StripTrailingSlashes(s)
    decreases slashes
  {
    if slashes > 0 {
      var t := s + seq(slashes, _ => '/');
      var u := s + seq(slashes - 1, _ => '/');
      assert |t| > 1 && t[|t| - 1] == '/' && t[..|t| - 1] == u;
      assert StripTrailingSlashes(t) == StripTrailingSlashes(u);
      StripAddedSlashes(s, slashes - 1);
    } else {
      assert s + seq(slashes, _ => '/') == s;
    }
  }

  /** Stripping slashes and lower-casing can be done in either order. */
  lemma {:induction false} StripLower(s: string)
    ensures StripTrailingSlashes(ToLower(s)) == ToLower(StripTrailingSlashes(s))
    decreases |s|
  {
    var l := ToLower(s);
    if |s| > 1 && s[|s| - 1] == '/' {
      assert l[|l| - 1] == '/';
      assert l[..|l| - 1] == ToLower(s[..|s| - 1]);
      StripLower(s[..|s| - 1]);
    } else if |s| > 1 {
      assert l[|l| - 1] != '/';
    }
  }

  /** The router ignores trailing slashes and the case of ASCII letters. */
  lemma NormalizeIgnoresSlashesAndCase(s: string, slashes: nat)
    requires |s| >= 1
    ensures Normalize(s + seq(slashes, _ => '/')) == Normalize(s)
    ensures Normalize(ToLower(s)) == Normalize(s)
  {
    StripAddedSlashes(s, slashes);
    StripLower(s);
    ToLowerTwice(StripTrailingSlashes(s));
  }

  /**
   * A declared path, other than the catch-all, matches a visited one when
   * it equals the visited path's normal form. Every declared path is its
   * own normal form (`TablesNormal`), so this is the router's comparison of
   * the two normal forms.
   */
  predicate Matches(route: Route, p: string) {
    route.path != CatchAll && route.path == Normalize(p)
  }

  /** `i` is the first route that matches `p`. */
  predicate FirstWithPath(table: seq<Route>, p: string, i: int) {
    0 <= i < |table| && Matches(table[i], p) && forall j :: 0 <= j < i ==> !Matches(table[j], p)
  }

  function FindPath(table: seq<Route>, p: string): (r: Option<nat>)
    ensures r.Some? ==> FirstWithPath(table, p, r.value)
    ensures r.None? <==> forall j :: 0 <= j < |table| ==> !Matches(table[j], p)
  {
    if table == [] then None
    else if Matches(table[0], p) then Some(0)
    else match FindPath(table[1..], p)
      case None => None
      case Some(k) => Some(k + 1)
  }

  /** `i` is the first catch-all route. */
  predicate FirstCatchAll(table: seq<Route>, i: int) {
    0 <= i < |table| && table[i].path == CatchAll && forall j :: 0 <= j < i ==> table[j].path != CatchAll
  }

  function FindCatchAll(table: seq<Route>): (r: Option<nat>)
    ensures r.Some? ==> FirstCatchAll(table, r.value)
    ensures r.None? <==> forall j :: 0 <= j < |table| ==> table[j].path != CatchAll
  {
    if table == [] then None
    else if table[0].path == CatchAll then Some(0)
    else match FindCatchAll(table[1..])
      case None => None
      case Some(k) => Some(k + 1)
  }

  /** The route a path renders: the first route matching it, else the first catch-all. */
  function Resolve(table: seq<Route>, path: string): (r: Option<Route>)
    ensures (exists i :: 0 <= i < |table| && Matches(table[i], path)) ==>
      exists i :: FirstWithPath(table, path, i) && r == Some(table[i])
    ensures (forall j :: 0 <= j < |table| ==> !Matches(table[j], path)) ==>
      (r.None? <==> forall j :: 0 <= j < |table| ==> table[j].path != CatchAll) &&
      (r.Some? ==> exists i :: FirstCatchAll(table, i) && r == Some(table[i]))
  {
    match FindPath(table, path)
    case Some(i) => Some(table[i])
    case None =>
      match FindCatchAll(table)
      case Some(i) => Some(table[i])
      case None => None
  }

  /**
   * The navigation a guard's effect performs. `ProtectedRoute` sends the
   * visitor to the login page when the token or the user id is missing or
   * empty, `VerifyRoute` only when the token is.
   */
  function GuardEffect(g: Guard, items: map<string, string>): (e: Effect)
    ensures e == GoTo(LoginPath) <==>
      (g == ProtectedRoute && (!Holds(items, "token") || !Holds(items, "userid"))) ||
      (g == VerifyRoute && !Holds(items, "token"))
    ensures e != GoTo(LoginPath) ==> e == Stay
  {
    match g
    case Open => Stay
    case ProtectedRoute => if !Holds(items, "token") || !Holds(items, "userid") then GoTo(LoginPath) else Stay
    case VerifyRoute => if !Holds(items, "token") then GoTo(LoginPath) else Stay
  }

  /** What a visit shows and where it then navigates. */
  datatype Visit = Visit(shown: Page, effect: Effect)

  /**
   * Visiting `path`: the resolved page is rendered whatever its guard
   * decides (a guard returns its children either way), and the effect is
   * the guard's, or the catch-all's navigation to "/".
   */
  function VisitPath(table: seq<Route>, path: string, items: map<string, string>): (v: Option<Visit>)
    ensures v.Some? <==> Resolve(table, path).Some?
    ensures v.Some? ==> v.value.shown == Resolve(table, path).value.page
    ensures v.Some? && v.value.shown != NotFoundRedirect ==>
      v.value.effect == GuardEffect(Resolve(table, path).value.guard, items)
    ensures v.Some? && v.value.shown == NotFoundRedirect ==> v.value.effect == GoTo("/")
  {
    match Resolve(table, path)
    case None => None
    case Some(route) =>
      if route.page == NotFoundRedirect then Some(Visit(NotFoundRedirect, GoTo("/")))
      else Some(Visit(route.page, GuardEffect(route.guard, items)))
  }

  /** The paths the table declares, other than the catch-all. */
  const DeclaredPaths: set<string> :=
    {"/", "/contact", "/inquiry", "/career", "/services", "/events", "/about", "/gallery",
     "/admin/login", "/admin/signup", "/admin/verify", "/admin"}

  /**
   * Every path the table declares is already in the router's normal form
   * (so, by `NormalOf`, it is its own `Normalize`).
   */
  lemma TablesNormal()
    ensures forall p :: p in DeclaredPaths ==> NormalPath(p)
  {
  }

  /** A route that matches, with none matching before it, is the one rendered. */
  lemma FirstMatchResolves(table: seq<Route>, p: string, k: nat, items: map<string, string>)
    requires k < |table| && Matches(table[k], p)
    requires forall j :: 0 <= j < k ==> !Matches(table[j], p)
    ensures Resolve(table, p) == Some(table[k])
    ensures table[k].page != NotFoundRedirect ==>
      VisitPath(table, p, items) == Some(Visit(table[k].page, GuardEffect(table[k].guard, items)))
  {
    forall i | FirstWithPath(table, p, i)
      ensures i == k
    {
      assert !(i < k) && !(k < i);
    }
  }

  /** "/admin/", "/Admin" and "/ADMIN//" all mean "/admin" to the router. */
  lemma AdminSpellings()
    ensures Normalize("/admin/") == "/admin" && Normalize("/Admin") == "/admin" && Normalize("/ADMIN//") == "/admin"
  {
    NormalOf("/admin");
    NormalizeIgnoresSlashesAndCase("/admin", 1);
    assert "/admin" + seq(1, _ => '/') == "/admin/";
    assert ToLower("/Admin") == "/admin";
    NormalizeIgnoresSlashesAndCase("/Admin", 0);
    assert ToLower("/ADMIN") == "/admin";
    NormalizeIgnoresSlashesAndCase("/ADMIN", 2);
    assert "/ADMIN" + seq(2, _ => '/') == "/ADMIN//";
    NormalizeIgnoresSlashesAndCase("/admin", 0);
  }

  /**
   * As declared, any spelling of "/admin" renders the dashboard with no
   * guard, so no one is sent to log in; likewise for "/admin/verify".
   */
  lemma AdminUnguardedAsWritten(p: string, q: string, items: map<string, string>)
    requires Normalize(p) == "/admin" && Normalize(q) == "/admin/verify"
    ensures Resolve(AppRoutesAsWritten, p) == Some(Route("/admin", Open, DashboardPage))
    ensures Resolve(AppRoutesAsWritten, q) == Some(Route("/admin/verify", Open, VerifyPage))
    ensures VisitPath(AppRoutesAsWritten, p, items) == Some(Visit(DashboardPage, Stay))
  {
    DashboardUnguardedAsWritten(p, items);
    VerifyUnguardedAsWritten(q, items);
  }

  lemma DashboardUnguardedAsWritten(p: string, items: map<string, string>)
    requires Normalize(p) == "/admin"
    ensures Resolve(AppRoutesAsWritten, p) == Some(Route("/admin", Open, DashboardPage))
    ensures VisitPath(AppRoutesAsWritten, p, items) == Some(Visit(DashboardPage, Stay))
  {
    FirstMatchResolves(AppRoutesAsWritten, p, 11, items);
  }

  lemma VerifyUnguardedAsWritten(q: string, items: map<string, string>)
    requires Normalize(q) == "/admin/verify"
    ensures Resolve(AppRoutesAsWritten, q) == Some(Route("/admin/verify", Open, VerifyPage))
  {
    FirstMatchResolves(AppRoutesAsWritten, q, 10, items);
  }

  /** As declared, "/admin/" renders the unguarded dashboard too. */
  lemma AdminSlashUnguardedAsWritten(items: map<string, string>)
    ensures VisitPath(AppRoutesAsWritten, "/admin/", items) == Some(Visit(DashboardPage, Stay))
  {
    AdminSpellings();
    DashboardUnguardedAsWritten("/admin/", items);
  }

  /** With the duplicates removed, both admin paths, however spelt, go through their guards. */
  lemma AdminGuarded(p: string, q: string, items: map<string, string>)
    requires Normalize(p) == "/admin" && Normalize(q) == "/admin/verify"
    ensures Resolve(AppRoutes, p) == Some(Route("/admin", ProtectedRoute, DashboardPage))
    ensures Resolve(AppRoutes, q) == Some(Route("/admin/verify", VerifyRoute, VerifyPage))
    ensures VisitPath(AppRoutes, p, items) == Some(Visit(DashboardPage, GuardEffect(ProtectedRoute, items)))
    ensures VisitPath(AppRoutes, p, items).value.effect == GoTo(LoginPath) <==>
      !Holds(items, "token") || !Holds(items, "userid")
  {
    DashboardGuarded(p, items);
    VerifyGuarded(q, items);
  }

  lemma DashboardGuarded(p: string, items: map<string, string>)
    requires Normalize(p) == "/admin"
    ensures Resolve(AppRoutes, p) == Some(Route("/admin", ProtectedRoute, DashboardPage))
    ensures VisitPath(AppRoutes, p, items) == Some(Visit(DashboardPage, GuardEffect(ProtectedRoute, items)))
  {
    FirstMatchResolves(AppRoutes, p, 11, items);
  }

  lemma VerifyGuarded(q: string, items: map<string, string>)
    requires Normalize(q) == "/admin/verify"
    ensures Resolve(AppRoutes, q) == Some(Route("/admin/verify", VerifyRoute, VerifyPage))
  {
    FirstMatchResolves(AppRoutes, q, 10, items);
  }

  /** Any spelling of the login page's path shows the login page, with no guard. */
  lemma LoginPageOpen(p: string, items: map<string, string>)
    requires Normalize(p) == LoginPath
    ensures VisitPath(AppRoutes, p, items) == Some(Visit(LoginPage, Stay))
    ensures VisitPath(AppRoutesAsWritten, p, items) == Some(Visit(LoginPage, Stay))
  {
    LoginFirstAt(AppRoutes, p, items);
    LoginFirstAt(AppRoutesAsWritten, p, items);
  }

  lemma LoginFirstAt(table: seq<Route>, p: string, items: map<string, string>)
    requires table == AppRoutes || table == AppRoutesAsWritten
    requires Normalize(p) == LoginPath
    ensures VisitPath(table, p, items) == Some(Visit(LoginPage, Stay))
  {
    FirstMatchResolves(table, p, 8, items);
  }

  /** Every path whose normal form the table does not declare shows the redirect and goes to "/". */
  lemma UnknownPathsGoHome(table: seq<Route>, path: string, items: map<string, string>)
    requires table == AppRoutes || table == AppRoutesAsWritten
    requires Normalize(path) !in DeclaredPaths
    ensures VisitPath(table, path, items) == Some(Visit(NotFoundRedirect, GoTo("/")))
  {
    assert forall j :: 0 <= j < |table| ==> table[j].path in DeclaredPaths + {CatchAll};
    assert forall j :: 0 <= j < |table| ==> !Matches(table[j], path);
    var last := |table| - 1;
    assert table[last].path == CatchAll;
    forall i | FirstCatchAll(table, i)
      ensures table[i].page == NotFoundRedirect
    {
      assert !(i < last);
    }
  }

  /**
   * After "Login successful" the protected dashboard lets the visitor stay
   * unless the response's token or id is the empty string: a missing field
   * is stored as the non-empty text "undefined".
   */
  lemma SessionPassesProtectedRoute(items: map<string, string>, d: Obj)
    ensures GuardEffect(ProtectedRoute, StoreSession(items, d)) == Stay <==>
      Get(d, "token") != Str("") && Get(d, "id") != Str("")
  {
    var s := StoreSession(items, d);
    assert SessionKeys[0] == ("token", "token") && SessionKeys[1] == ("userid", "id");
    assert s["token"] == ToText(Get(d, "token")) && s["userid"] == ToText(Get(d, "id"));
    ToTextEmpty(Get(d, "token"));
    ToTextEmpty(Get(d, "id"));
  }

  lemma ToTextEmpty(v: Value)
    ensures ToText(v) == "" <==> v == Str("")
  {
  }
}
