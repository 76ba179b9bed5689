/**
 * The route table and the navigation guard. The guard first bootstraps the
 * session when it is not authenticated, then sends an unauthenticated visit
 * to a protected page to `Login`, and a visit by a user whose role the page
 * does not admit to `Home`.
 */
module Router {
  import opened Remote
  import Users

  /** A route's `meta`: a route declared without one has neither flag. */
  datatype RouteMeta = RouteMeta(requiresAuth: bool, roles: Option<seq<Users.Role>>)

  const NoMeta: RouteMeta := RouteMeta(false, None)

  /** A static path, or `/:pathMatch(.*)*`, which matches any path. */
  datatype Pattern = Exact(path: string) | AnyPath

  datatype RouteRecord =
    | Page(pattern: Pattern, name: string, meta: RouteMeta)
    | Redirect(pattern: Pattern, target: string)

  /** The application's routes, in declaration order. */
  const Routes: seq<RouteRecord> := [
    Page(Exact("/login"), "Login", NoMeta),
    Page(Exact("/forgot-password"), "ForgotPassword", NoMeta),
    Page(Exact("/reset-password"), "ResetPassword", NoMeta),
    Page(Exact("/register"), "Register", NoMeta),
    Page(Exact("/home"), "Home", RouteMeta(true, None)),
    Page(Exact("/slots"), "SlotsList", RouteMeta(true, None)),
    Page(Exact("/audio"), "AudioList", RouteMeta(true, Some([Users.ADMIN, Users.ADVERTISER]))),
    Page(Exact("/profile"), "Profile", RouteMeta(true, None)),
    Redirect(Exact("/"), "/home"),
    Redirect(AnyPath, "/home")
  ]

  /** The pages anyone may open. */
  const PublicPages: set<string> := {"Login", "ForgotPassword", "ResetPassword", "Register"}

  function LowerAscii(c: char): char
  {
    if 'A' <= c <= 'Z' then (c as int + 32) as char else c
  }

  function Lower(s: string): (r: string)
    ensures |r| == |s|
  {
    if s == [] then [] else [LowerAscii(s[0])] + Lower(s[1..])
  }

  /**
   * The router's default matching: letter case is ignored and one trailing
   * slash is optional.
   */
  predicate Matches(p: Pattern, path: string)
  {
    match p
    case AnyPath => true
    case Exact(q) => Lower(path) == q || Lower(path) == q + "/"
  }

  /** A path without upper-case ASCII letters is its own lower-case form. */
  lemma {:induction false} LowerKeepsLowercase(s: string)
    requires forall i :: 0 <= i < |s| ==> !('A' <= s[i] <= 'Z')
    ensures Lower(s) == s
  {
    if s != [] {
      LowerKeepsLowercase(s[1..]);
      assert s == [s[0]] + s[1..];
    }
  }

  /**
   * The position of the record a path selects, searching from position
   * `i`. The router ranks static paths above the catch-all, and the static
   * paths here are distinct, so the first match in declaration order is
   * the one it picks; the catch-all makes the search always succeed.
   */
  function SelectFrom(path: string, i: nat): (k: nat)
    requires i < |Routes|
    ensures i <= k < |Routes| && Matches(Routes[k].pattern, path)
    ensures forall j :: i <= j < k ==> !Matches(Routes[j].pattern, path)
    decreases |Routes| - i
  {
    if i == |Routes| - 1 || Matches(Routes[i].pattern, path) then i
    else SelectFrom(path, i + 1)
  }

  /** The position of the record a path selects. */
  function Select(path: string): (k: nat)
    ensures k < |Routes| && Matches(Routes[k].pattern, path)
    ensures forall j :: 0 <= j < k ==> !Matches(Routes[j].pattern, path)
  {
    SelectFrom(path, 0)
  }

  /** `/home` selects the Home page. */
  lemma HomePathIsHome()
    ensures Select("/home") == 4
  {
    LowerKeepsLowercase("/home");
    assert Matches(Routes[4].pattern, "/home");
    assert !Matches(Routes[0].pattern, "/home");
    assert !Matches(Routes[1].pattern, "/home");
    assert !Matches(Routes[2].pattern, "/home");
    assert !Matches(Routes[3].pattern, "/home");
  }

  /** The page a path ends on once the router has followed its redirect. */
  function Resolve(path: string): (r: RouteRecord)
    ensures r.Page? && r in Routes
  {
    var rec := Routes[Select(path)];
    if rec.Page? then rec
    else
      HomePathIsHome();
      Routes[Select(rec.target)]
  }

  /** `/` and every path no page declares land on Home. */
  lemma UnknownPathsGoHome(path: string)
    requires path == "/" || forall k :: 0 <= k < 8 ==> !Matches(Routes[k].pattern, path)
    ensures Resolve(path).name == "Home" && Resolve(path).meta == RouteMeta(true, None)
  {
    HomePathIsHome();
    if path == "/" {
      LowerKeepsLowercase("/");
      assert Matches(Routes[8].pattern, path);
      assert forall k :: 0 <= k < 8 ==> !Matches(Routes[k].pattern, path);
    }
  }

  /** The page `next({ name })` sends the navigation to. */
  function Named(name: string): Option<RouteRecord>
  {
    if name == "Login" then Some(Routes[0])
    else if name == "Home" then Some(Routes[4])
    else None
  }

  datatype Navigation = Proceed | RedirectTo(name: string)

  /**
   * The guard's decision, once the session is settled: authentication is
   * checked before roles; an empty role list admits nobody.
   */
  function Decide(isAuth: bool, role: Option<Users.Role>, meta: RouteMeta): (nav: Navigation)
    ensures meta.requiresAuth && !isAuth ==> nav == RedirectTo("Login")
    ensures (!(meta.requiresAuth && !isAuth) && meta.roles.Some? &&
             (role.None? || role.value !in meta.roles.value)) ==> nav == RedirectTo("Home")
    ensures nav == Proceed <==> (!meta.requiresAuth || isAuth) &&
                                (meta.roles.None? || (role.Some? && role.value in meta.roles.value))
  {
    if meta.requiresAuth && !isAuth then RedirectTo("Login")
    else if meta.roles.Some? && (role.None? || role.value !in meta.roles.value) then RedirectTo("Home")
    else Proceed
  }

  /** Login, password recovery and registration open in every session state. */
  lemma PublicPagesProceed(path: string, isAuth: bool, role: Option<Users.Role>)
    requires Resolve(path).name in PublicPages
    ensures Decide(isAuth, role, Resolve(path).meta) == Proceed
  {
    assert Resolve(path) in Routes;
  }

  /** `/audio` admits only administrators and advertisers, and checks sign-in first. */
  lemma AudioAccess(isAuth: bool, role: Option<Users.Role>)
    ensures !isAuth ==> Decide(isAuth, role, Resolve("/audio").meta) == RedirectTo("Login")
    ensures isAuth && role == Some(Users.RADIO_REPRESENTATIVE) ==>
              Decide(isAuth, role, Resolve("/audio").meta) == RedirectTo("Home")
    ensures isAuth && role.Some? && role.value in {Users.ADMIN, Users.ADVERTISER} ==>
              Decide(isAuth, role, Resolve("/audio").meta) == Proceed
  {
    LowerKeepsLowercase("/audio");
    assert Matches(Routes[6].pattern, "/audio");
    assert forall k :: 0 <= k < 6 ==> !Matches(Routes[k].pattern, "/audio");
  }

  /**
   * The guard never redirects twice in a row. A redirect to Login happens
   * only signed out, and Login admits everyone, whatever the next
   * bootstrap makes of the session; a redirect to Home happens only signed
   * in, so the next navigation runs no bootstrap and Home admits every
   * signed-in user.
   */
  lemma NoDoubleRedirect(path: string, isAuth: bool, role: Option<Users.Role>,
                         nextAuth: bool, nextRole: Option<Users.Role>)
    requires isAuth ==> nextAuth == isAuth && nextRole == role
    ensures var nav := Decide(isAuth, role, Resolve(path).meta);
            nav.RedirectTo? ==>
              Named(nav.name).Some? && Decide(nextAuth, nextRole, Named(nav.name).value.meta) == Proceed
  {
    var page := Resolve(path);
    assert page in Routes;
  }

  /**
   * `router.beforeEach`: when the session is not authenticated the guard
   * awaits the bootstrap first; then it decides on the settled session.
   */
  method BeforeEach(user: Users.UserStore, to: RouteRecord, bootstrap: Users.Session -> Users.Session)
    returns (nav: Navigation, bootstrapped: bool)
    requires to.Page?
    modifies user
    ensures bootstrapped <==> !old(user.isAuth)
    ensures bootstrapped ==> user.State() == bootstrap(old(user.State()))
    ensures !bootstrapped ==> user.State() == old(user.State())
    ensures nav == Decide(user.isAuth, Users.RoleOf(user.profile), to.meta)
  {
    bootstrapped := !user.isAuth;
    if bootstrapped {
      user.Init(bootstrap);
    }
    var isAuth := user.isAuth;
    var userRole := Users.RoleOf(user.profile);
    if to.meta.requiresAuth && !isAuth {
      return RedirectTo("Login"), bootstrapped;
    }
    if to.meta.roles.Some? && (userRole.None? || userRole.value !in to.meta.roles.value) {
      return RedirectTo("Home"), bootstrapped;
    }
    nav := Proceed;
  }
}
