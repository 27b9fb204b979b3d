/**
 * Phase resolution and the route guards (App.tsx): from the session flags
 * to one of three outcomes per route — the loading placeholder, a redirect,
 * or the route's own page.
 */
module Routing {
  import opened Wrappers
  import opened Types
  import opened Api

  const REGISTER: string := "/register"
  const VERIFY_EMAIL: string := "/verify-email"
  const ONBOARDING: string := "/onboarding"
  const DASHBOARD: string := "/dashboard"
  const ROOT: string := "/"

  /**
   * What the guards read from the session: the reducer's three fields and
   * `isTransitioning`, an external flag here.
   */
  datatype GuardInput = GuardInput(isAuthenticated: bool, loading: bool, isTransitioning: bool, user: Option<User>)

  /** A guard's outcome. */
  datatype Decision = ShowLoading | Redirect(to: string) | RenderPage

  /** The four phases of the funnel, in order. */
  datatype Phase = Anonymous | PendingVerification | PendingOnboarding | Active

  /** The route table: which element answers a URL path (exact match; everything else is `*`). */
  datatype Route = LoginRoute | RegisterRoute | VerifyEmailRoute | OnboardingRoute | DashboardRoute | RootRoute | CatchAll

  /** `user?.emailVerified` and `user?.profileCompleted`, with an absent user reading as false. */
  predicate Verified(g: GuardInput) {
    g.user.Some? && g.user.value.emailVerified
  }

  predicate Completed(g: GuardInput) {
    g.user.Some? && g.user.value.profileCompleted
  }

  /** `shouldShowLoading`. */
  predicate Busy(g: GuardInput) {
    g.loading || g.isTransitioning
  }

  /** `getRedirectPath()`. */
  function RedirectPath(g: GuardInput): (p: string)
    ensures p == LOGIN_PATH <==> !g.isAuthenticated
    ensures p == VERIFY_EMAIL <==> g.isAuthenticated && !Verified(g)
    ensures p == ONBOARDING <==> g.isAuthenticated && Verified(g) && !Completed(g)
    ensures p == DASHBOARD <==> g.isAuthenticated && Verified(g) && Completed(g)
  {
    if !g.isAuthenticated then LOGIN_PATH
    else if !Verified(g) then VERIFY_EMAIL
    else if !Completed(g) then ONBOARDING
    else DASHBOARD
  }

  /** The phase a session is in: the same precedence, stated as a classification. */
  function PhaseOf(g: GuardInput): Phase {
    if !g.isAuthenticated then Anonymous
    else if !Verified(g) then PendingVerification
    else if !Completed(g) then PendingOnboarding
    else Active
  }

  /** The page each phase belongs on. */
  function CanonicalPath(p: Phase): string {
    match p
    case Anonymous => LOGIN_PATH
    case PendingVerification => VERIFY_EMAIL
    case PendingOnboarding => ONBOARDING
    case Active => DASHBOARD
  }

  /** `getRedirectPath()` is the canonical page of the session's phase. */
  lemma RedirectPathIsPhasePath(g: GuardInput)
    ensures RedirectPath(g) == CanonicalPath(PhaseOf(g))
  {
  }

  /** `ProtectedRoute`. */
  function Protected(g: GuardInput): (d: Decision)
    ensures d == ShowLoading <==> Busy(g)
    ensures d.Redirect? ==> d.to == RedirectPath(g) && d.to != DASHBOARD
  {
    if Busy(g) then ShowLoading
    else if !g.isAuthenticated then Redirect(LOGIN_PATH)
    else if !Verified(g) then Redirect(VERIFY_EMAIL)
    else if !Completed(g) then Redirect(ONBOARDING)
    else RenderPage
  }

  /** `AuthRoute`. */
  function Entry(g: GuardInput): (d: Decision)
    ensures d == ShowLoading <==> Busy(g)
    ensures d.Redirect? ==> d.to == RedirectPath(g) && d.to != LOGIN_PATH
  {
    if Busy(g) then ShowLoading
    else
      var path := RedirectPath(g);
      if path != LOGIN_PATH then Redirect(path) else RenderPage
  }

  /** `OnboardingRoute`. */
  function Onboarding(g: GuardInput): (d: Decision)
    ensures d == ShowLoading <==> Busy(g)
    ensures d.Redirect? ==> d.to == RedirectPath(g) && d.to != ONBOARDING
  {
    if Busy(g) then ShowLoading
    else if !g.isAuthenticated then Redirect(LOGIN_PATH)
    else if !Verified(g) then Redirect(VERIFY_EMAIL)
    else if Completed(g) then Redirect(DASHBOARD)
    else RenderPage
  }

  /** `VerificationRoute`. */
  function Verification(g: GuardInput): (d: Decision)
    ensures d == ShowLoading <==> Busy(g)
    ensures d.Redirect? ==> d.to == RedirectPath(g) && (d.to == ONBOARDING || d.to == DASHBOARD)
  {
    if Busy(g) then ShowLoading
    else if g.isAuthenticated && Verified(g) then
      if !Completed(g) then Redirect(ONBOARDING) else Redirect(DASHBOARD)
    else RenderPage
  }

  /** The paths the `<Routes>` table names. */
  const ROUTE_PATHS: set<string> := {LOGIN_PATH, REGISTER, VERIFY_EMAIL, ONBOARDING, DASHBOARD, ROOT}

  /** The path a route is declared with; `*` for the catch-all. */
  function PathOf(route: Route): string {
    match route
    case LoginRoute => LOGIN_PATH
    case RegisterRoute => REGISTER
    case VerifyEmailRoute => VERIFY_EMAIL
    case OnboardingRoute => ONBOARDING
    case DashboardRoute => DASHBOARD
    case RootRoute => ROOT
    case CatchAll => "*"
  }

  /** Route matching of the `<Routes>` table: a declared path selects its own route, anything else the catch-all. */
  function Match(path: string): (r: Route)
    ensures r.CatchAll? <==> path !in ROUTE_PATHS
    ensures !r.CatchAll? ==> PathOf(r) == path
  {
    if path == LOGIN_PATH then LoginRoute
    else if path == REGISTER then RegisterRoute
    else if path == VERIFY_EMAIL then VerifyEmailRoute
    else if path == ONBOARDING then OnboardingRoute
    else if path == DASHBOARD then DashboardRoute
    else if path == ROOT then RootRoute
    else CatchAll
  }

  /** The element each route renders; `/` and `*` redirect to the dashboard unconditionally. */
  function Element(route: Route, g: GuardInput): (d: Decision)
    ensures Guarded(route) ==> (d == ShowLoading <==> Busy(g))
    ensures Guarded(route) && d.Redirect? ==> d.to == RedirectPath(g)
    ensures !Guarded(route) ==> d == Redirect(DASHBOARD)
  {
    match route
    case LoginRoute => Entry(g)
    case RegisterRoute => Entry(g)
    case VerifyEmailRoute => Verification(g)
    case OnboardingRoute => Onboarding(g)
    case DashboardRoute => Protected(g)
    case RootRoute => Redirect(DASHBOARD)
    case CatchAll => Redirect(DASHBOARD)
  }

  /** The phases in which each guarded route shows its own page. */
  predicate Admits(route: Route, p: Phase) {
    match route
    case LoginRoute => p == Anonymous
    case RegisterRoute => p == Anonymous
    case VerifyEmailRoute => p == Anonymous || p == PendingVerification
    case OnboardingRoute => p == PendingOnboarding
    case DashboardRoute => p == Active
    case RootRoute => false
    case CatchAll => false
  }

  predicate Guarded(route: Route) {
    !route.RootRoute? && !route.CatchAll?
  }

  /**
   * Every guard follows one rule: while loading or transitioning it shows the
   * placeholder; otherwise it renders exactly in the phases it admits, and
   * every redirect goes to `getRedirectPath()`.
   */
  lemma GuardRule(route: Route, g: GuardInput)
    requires Guarded(route)
    ensures Busy(g) ==> Element(route, g) == ShowLoading
    ensures !Busy(g) ==> (Element(route, g) == RenderPage <==> Admits(route, PhaseOf(g)))
    ensures !Busy(g) && !Admits(route, PhaseOf(g)) ==> Element(route, g) == Redirect(RedirectPath(g))
  {
  }

  /** `ProtectedRoute` renders exactly for verified, onboarded sessions, and otherwise sends them to `getRedirectPath()`. */
  lemma ProtectedRenders(g: GuardInput)
    requires !Busy(g)
    ensures Protected(g) == RenderPage <==> g.isAuthenticated && Verified(g) && Completed(g)
    ensures Protected(g) != RenderPage ==> Protected(g) == Redirect(RedirectPath(g))
  {
  }

  /** `AuthRoute` renders exactly when `getRedirectPath()` is the login page. */
  lemma EntryRenders(g: GuardInput)
    requires !Busy(g)
    ensures Entry(g) == RenderPage <==> RedirectPath(g) == LOGIN_PATH
    ensures Entry(g) != RenderPage ==> Entry(g) == Redirect(RedirectPath(g))
  {
  }

  /** `OnboardingRoute`: completed sessions go forward, earlier phases go back. */
  lemma OnboardingRenders(g: GuardInput)
    requires !Busy(g)
    ensures Onboarding(g) == RenderPage <==> g.isAuthenticated && Verified(g) && !Completed(g)
    ensures g.isAuthenticated && Verified(g) && Completed(g) ==> Onboarding(g) == Redirect(DASHBOARD)
    ensures !g.isAuthenticated ==> Onboarding(g) == Redirect(LOGIN_PATH)
    ensures g.isAuthenticated && !Verified(g) ==> Onboarding(g) == Redirect(VERIFY_EMAIL)
  {
  }

  /** `VerificationRoute`: open to anonymous and unverified sessions; verified ones move on. */
  lemma VerificationRenders(g: GuardInput)
    requires !Busy(g)
    ensures Verification(g) == RenderPage <==> !g.isAuthenticated || !Verified(g)
    ensures g.isAuthenticated && Verified(g) ==> Verification(g) == Redirect(RedirectPath(g))
  {
  }

  /** No route ever redirects to itself. */
  lemma NoSelfRedirect(route: Route, g: GuardInput)
    ensures Element(route, g).Redirect? ==> Match(Element(route, g).to) != route
  {
  }

  /** The route named by `getRedirectPath()` renders its page whenever nothing is loading. */
  lemma RedirectTargetRenders(g: GuardInput)
    requires !Busy(g)
    ensures Element(Match(RedirectPath(g)), g) == RenderPage
  {
  }

  /** The path reached from `path` after following at most `hops` redirects. */
  function Follow(path: string, g: GuardInput, hops: nat): string
    decreases hops
  {
    if hops == 0 then path
    else match Element(Match(path), g)
      case Redirect(to) => Follow(to, g, hops - 1)
      case _ => path
  }

  /**
   * Navigation settles: from any path, at most two redirects lead to a page
   * that renders, and it is the requested page or `getRedirectPath()`.
   */
  lemma NavigationSettles(path: string, g: GuardInput)
    requires !Busy(g)
    ensures Element(Match(Follow(path, g, 2)), g) == RenderPage
    ensures Follow(path, g, 2) == path || Follow(path, g, 2) == RedirectPath(g)
  {
    var first := Element(Match(path), g);
    RedirectTargetRenders(g);
    if first.Redirect? {
      var next := first.to;
      if Match(path).RootRoute? || Match(path).CatchAll? {
        assert next == DASHBOARD;
        if Element(Match(next), g).Redirect? {
          assert Element(Match(next), g) == Redirect(RedirectPath(g));
        }
      } else {
        GuardRule(Match(path), g);
        assert next == RedirectPath(g);
      }
    }
  }
}
