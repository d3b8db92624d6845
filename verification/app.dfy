/** The application shell: route gating (`ProtectedRoute`, `UnProtected`), the
    route table of `AppContent`, the header's page titles, the sidebar menu and
    the dark-mode toggle. Paths are matched exactly as written. */
module App {
  import opened Values

  /** Which guard wraps a route. */
  datatype Access = PublicOnly | Protected

  /** The pages the route table can show. */
  datatype Page =
    | HomePage | LoginPage | SignupPage
    | DashboardPage | MyFarmsPage | YieldPredictionPage | CropRecommenderPage | PestIdentifierPage

  /** What a route element produces: the page, or a `<Navigate replace>` to a path. */
  datatype Outcome = Show(page: Page) | Redirect(to: string)

  /** A row of the route table. */
  datatype Route = Route(path: string, access: Access, page: Page)

  /** The route table, in declaration order (the catch-all is `Resolve`'s fallback). */
  const Routes: seq<Route> := [
    Route("/", PublicOnly, HomePage),
    Route("/login", PublicOnly, LoginPage),
    Route("/signup", PublicOnly, SignupPage),
    Route("/dashboard", Protected, DashboardPage),
    Route("/my-farms", Protected, MyFarmsPage),
    Route("/yield-prediction", Protected, YieldPredictionPage),
    Route("/recommend", Protected, CropRecommenderPage),
    Route("/identify", Protected, PestIdentifierPage)
  ]

  /** The paths wrapped in `UnProtected`. */
  predicate IsPublicPath(p: string) {
    p == "/" || p == "/login" || p == "/signup"
  }

  /** The paths wrapped in `ProtectedRoute`. */
  predicate IsProtectedPath(p: string) {
    p == "/dashboard" || p == "/my-farms" || p == "/yield-prediction" || p == "/recommend" || p == "/identify"
  }

  /** The first route whose path is `path`, if any. */
  function Lookup(routes: seq<Route>, path: string): (r: Option<Route>)
    ensures r.Some? ==> r.value in routes && r.value.path == path
    ensures r.None? ==> forall i :: 0 <= i < |routes| ==> routes[i].path != path
  {
    if routes == [] then None
    else if routes[0].path == path then Some(routes[0])
    else Lookup(routes[1..], path)
  }

  /** `ProtectedRoute`: the children when logged in, otherwise a redirect to `/login`. */
  function ProtectedRoute(loggedIn: bool, page: Page): (o: Outcome)
    ensures o.Show? <==> loggedIn
    ensures o.Show? ==> o.page == page
    ensures o.Redirect? ==> o.to == "/login"
  {
    if !loggedIn then Redirect("/login") else Show(page)
  }

  /** `UnProtected`: the children when logged out, otherwise a redirect to `/dashboard`. */
  function UnProtected(loggedIn: bool, page: Page): (o: Outcome)
    ensures o.Show? <==> !loggedIn
    ensures o.Show? ==> o.page == page
    ensures o.Redirect? ==> o.to == "/dashboard"
  {
    if loggedIn then Redirect("/dashboard") else Show(page)
  }

  /** The guard a route's access tag stands for. */
  function Guard(access: Access, loggedIn: bool, page: Page): Outcome {
    match access
    case Protected => ProtectedRoute(loggedIn, page)
    case PublicOnly => UnProtected(loggedIn, page)
  }

  /** The element the router renders for `path`: the guarded page of its route, or
      the catch-all redirect to `/`. */
  function Resolve(path: string, loggedIn: bool): (o: Outcome)
    ensures IsPublicPath(path) ==> o == UnProtected(loggedIn, Lookup(Routes, path).value.page)
    ensures IsProtectedPath(path) ==> o == ProtectedRoute(loggedIn, Lookup(Routes, path).value.page)
    ensures !IsPublicPath(path) && !IsProtectedPath(path) ==> o == Redirect("/")
  {
    LookupRoutes(path);
    match Lookup(Routes, path)
    case None => Redirect("/")
    case Some(route) => Guard(route.access, loggedIn, route.page)
  }

  /** Which route the table yields for a path: one tagged public-only for the three
      public paths, one tagged protected for the five protected paths, none for
      any other path. */
  lemma LookupRoutes(path: string)
    ensures IsPublicPath(path) ==> Lookup(Routes, path).Some? && Lookup(Routes, path).value.access == PublicOnly
    ensures IsProtectedPath(path) ==> Lookup(Routes, path).Some? && Lookup(Routes, path).value.access == Protected
    ensures !IsPublicPath(path) && !IsProtectedPath(path) ==> Lookup(Routes, path).None?
  {
    RoutesAgreeWithAccess();
    var r := Lookup(Routes, path);
    if IsPublicPath(path) {
      assert path == Routes[0].path || path == Routes[1].path || path == Routes[2].path;
    } else if IsProtectedPath(path) {
      assert path == Routes[3].path || path == Routes[4].path || path == Routes[5].path
        || path == Routes[6].path || path == Routes[7].path;
    }
    if r.Some? {
      assert r.value in Routes && r.value.path == path;
    }
  }

  /** In any session state exactly one of a protected and a public-only route shows
      its page; the other redirects. */
  lemma ExactlyOneGuardShows(loggedIn: bool, p: Page, q: Page)
    ensures ProtectedRoute(loggedIn, p).Show? != UnProtected(loggedIn, q).Show?
  {
  }

  /** The access tag of the page a route shows. */
  function AccessOf(page: Page): Access {
    if page in {HomePage, LoginPage, SignupPage} then PublicOnly else Protected
  }

  /** The router's answer after following redirects, at most `hops` of them. */
  function Navigate(path: string, loggedIn: bool, hops: nat): Outcome
    decreases hops
  {
    match Resolve(path, loggedIn)
    case Show(p) => Show(p)
    case Redirect(to) => if hops == 0 then Redirect(to) else Navigate(to, loggedIn, hops - 1)
  }

  /** Every path lands on a page within two redirects, and the page is a protected
      one exactly when the user is logged in: logged-in users land on `/dashboard`
      from any public or unknown path, logged-out users on `/login` from any
      protected path and on `/` from an unknown one. */
  lemma EveryPathLands(path: string, loggedIn: bool)
    ensures Navigate(path, loggedIn, 2).Show?
    ensures AccessOf(Navigate(path, loggedIn, 2).page) == (if loggedIn then Protected else PublicOnly)
    ensures IsProtectedPath(path) && !loggedIn ==> Navigate(path, loggedIn, 2) == Show(LoginPage)
    ensures IsPublicPath(path) && loggedIn ==> Navigate(path, loggedIn, 2) == Show(DashboardPage)
    ensures !IsPublicPath(path) && !IsProtectedPath(path) ==>
      Navigate(path, loggedIn, 2) == Show(if loggedIn then DashboardPage else HomePage)
  {
    if IsProtectedPath(path) {
      LandsFromProtected(path, loggedIn);
    } else if IsPublicPath(path) {
      LandsFromPublic(path, loggedIn);
    } else {
      LandsFromUnknown(path, loggedIn);
    }
  }

  /** A protected path shows its own page to a logged-in user and sends anyone
      else to the login page. */
  lemma LandsFromProtected(path: string, loggedIn: bool)
    requires IsProtectedPath(path)
    ensures Navigate(path, loggedIn, 2) == (if loggedIn then Show(Lookup(Routes, path).value.page) else Show(LoginPage))
    ensures AccessOf(Navigate(path, loggedIn, 2).page) == (if loggedIn then Protected else PublicOnly)
  {
    RoutesAgreeWithAccess();
    if !loggedIn {
      assert Resolve(path, loggedIn) == Redirect("/login");
      assert Resolve("/login", false) == Show(LoginPage);
      assert Navigate("/login", false, 1) == Show(LoginPage);
    }
  }

  /** A public-only path shows its own page to a logged-out user and sends a
      logged-in one to the dashboard. */
  lemma LandsFromPublic(path: string, loggedIn: bool)
    requires IsPublicPath(path)
    ensures Navigate(path, loggedIn, 2) == (if loggedIn then Show(DashboardPage) else Show(Lookup(Routes, path).value.page))
    ensures AccessOf(Navigate(path, loggedIn, 2).page) == (if loggedIn then Protected else PublicOnly)
  {
    RoutesAgreeWithAccess();
    if loggedIn {
      assert Resolve(path, loggedIn) == Redirect("/dashboard");
      assert Resolve("/dashboard", true) == Show(DashboardPage);
      assert Navigate("/dashboard", true, 1) == Show(DashboardPage);
    }
  }

  /** An unknown path goes to `/`, which is the home page when logged out and
      redirects once more, to the dashboard, when logged in. */
  lemma LandsFromUnknown(path: string, loggedIn: bool)
    requires !IsPublicPath(path) && !IsProtectedPath(path)
    ensures Navigate(path, loggedIn, 2) == Show(if loggedIn then DashboardPage else HomePage)
  {
    assert Resolve(path, loggedIn) == Redirect("/");
    assert Navigate(path, loggedIn, 2) == Navigate("/", loggedIn, 1);
    if loggedIn {
      assert Resolve("/", true) == Redirect("/dashboard");
      assert Navigate("/", true, 1) == Navigate("/dashboard", true, 0);
      assert Resolve("/dashboard", true) == Show(DashboardPage);
    } else {
      assert Resolve("/", false) == Show(HomePage);
    }
  }

  /** Each route's guard matches its page and its path's class. */
  lemma RoutesAgreeWithAccess()
    ensures forall r :: r in Routes ==> r.access == AccessOf(r.page)
    ensures forall r :: r in Routes ==> (r.access == Protected <==> IsProtectedPath(r.path))
    ensures forall r :: r in Routes ==> (r.access == PublicOnly <==> IsPublicPath(r.path))
  {
    forall r | r in Routes
      ensures r.access == AccessOf(r.page)
      ensures r.access == Protected <==> IsProtectedPath(r.path)
      ensures r.access == PublicOnly <==> IsPublicPath(r.path)
    {
      var i :| 0 <= i < |Routes| && Routes[i] == r;
      if i < 3 {
        assert r == Routes[0] || r == Routes[1] || r == Routes[2];
      } else {
        assert r == Routes[3] || r == Routes[4] || r == Routes[5] || r == Routes[6] || r == Routes[7];
      }
    }
  }

  /** `getPageTitle`: the header title for a path. */
  function PageTitle(pathname: string): string {
    match pathname
    case "/dashboard" => "Dashboard"
    case "/my-farms" => "My Farms"
    case "/recommend" => "Crop Recommender"
    case "/identify" => "Pest Identifier"
    case "/yield-prediction" => "Yield Prediction"
    case _ => "Farm Management"
  }

  /** Only the five protected paths have titles of their own, and no two share one. */
  lemma TitlesNameProtectedPages(p: string, q: string)
    ensures PageTitle(p) != "Farm Management" <==> IsProtectedPath(p)
    ensures IsProtectedPath(p) && IsProtectedPath(q) && p != q ==> PageTitle(p) != PageTitle(q)
  {
  }

  /** A sidebar entry. */
  datatype MenuItem = MenuItem(path: string, caption: string)

  /** The sidebar's `menuItems`, in order. */
  const MenuItems: seq<MenuItem> := [
    MenuItem("/dashboard", "Dashboard"),
    MenuItem("/my-farms", "My Farms"),
    MenuItem("/yield-prediction", "Yield Prediction"),
    MenuItem("/recommend", "Crop Recommender"),
    MenuItem("/identify", "Pest Identifier")
  ]

  /** The menu lists exactly the protected routes, each once, and each entry's label
      is the header title of the page it opens; so a logged-in user following the
      menu is never redirected. */
  lemma MenuMatchesProtectedRoutes(loggedIn: bool)
    ensures forall i :: 0 <= i < |MenuItems| ==> IsProtectedPath(MenuItems[i].path)
    ensures forall p :: IsProtectedPath(p) ==> exists i :: 0 <= i < |MenuItems| && MenuItems[i].path == p
    ensures forall i, j :: 0 <= i < j < |MenuItems| ==> MenuItems[i].path != MenuItems[j].path
    ensures forall i :: 0 <= i < |MenuItems| ==> PageTitle(MenuItems[i].path) == MenuItems[i].caption
    ensures loggedIn ==> forall i :: 0 <= i < |MenuItems| ==> Resolve(MenuItems[i].path, loggedIn).Show?
  {
    assert MenuItems[0].path == "/dashboard";
    assert MenuItems[1].path == "/my-farms";
    assert MenuItems[2].path == "/yield-prediction";
    assert MenuItems[3].path == "/recommend";
    assert MenuItems[4].path == "/identify";
  }

  /** The theme preference and the persistent storage it is saved in. */
  datatype Theme = Theme(darkMode: bool, storage: map<string, string>)

  /** The mode read back at start-up: `localStorage.getItem('darkMode') === 'true'`. */
  predicate SavedDarkMode(storage: map<string, string>) {
    "darkMode" in storage && storage["darkMode"] == "true"
  }

  /** `String(b)` for a boolean. */
  function BoolText(b: bool): string {
    if b then "true" else "false"
  }

  /** `toggleDarkMode`: flips the mode and saves the new value as text. */
  function ToggleDarkMode(t: Theme): (r: Theme)
    ensures r.darkMode == !t.darkMode
    ensures SavedDarkMode(r.storage) == r.darkMode
    ensures forall k :: k != "darkMode" ==> (k in r.storage <==> k in t.storage)
    ensures forall k :: k != "darkMode" && k in t.storage ==> r.storage[k] == t.storage[k]
  {
    var newMode := !t.darkMode;
    Theme(newMode, t.storage["darkMode" := BoolText(newMode)])
  }

  /** Toggling twice restores the mode, and the saved value then reads back as it. */
  lemma ToggleTwiceRestores(t: Theme)
    ensures ToggleDarkMode(ToggleDarkMode(t)).darkMode == t.darkMode
    ensures SavedDarkMode(ToggleDarkMode(ToggleDarkMode(t)).storage) == t.darkMode
  {
  }
}
