/**
 * The role guards of the protected pages put side by side: which page each
 * path shows, which roles each page admits and where it sends the others,
 * and how the guards combine with the login landing path and the auth gate.
 */
module Navigation {
  import opened Wrappers
  import opened Session
  import opened Guards
  import AppShell
  import Login
  import Dashboard
  import Settings
  import ActivityLogs
  import ExpenditureForm
  import AssignmentForm
  import PurchaseForm
  import AssetForm

  /** The pages of this model, and any other path. */
  datatype Route =
    | DashboardRoute | SettingsRoute | ActivityLogsRoute | ExpendituresRoute
    | NewExpenditureRoute | NewAssignmentRoute | NewPurchaseRoute | NewAssetRoute
    | OtherRoute(path: string)

  function PathOf(r: Route): string {
    match r
    case DashboardRoute => "/dashboard"
    case SettingsRoute => "/settings"
    case ActivityLogsRoute => "/activity-logs"
    case ExpendituresRoute => "/expenditures"
    case NewExpenditureRoute => "/expenditures/new"
    case NewAssignmentRoute => "/assignments/new"
    case NewPurchaseRoute => "/purchases/new"
    case NewAssetRoute => "/assets/new"
    case OtherRoute(p) => p
  }

  /** The page a path shows. */
  function RouteAt(path: string): (r: Route)
    ensures PathOf(r) == path
  {
    match path
    case "/dashboard" => DashboardRoute
    case "/settings" => SettingsRoute
    case "/activity-logs" => ActivityLogsRoute
    case "/expenditures" => ExpendituresRoute
    case "/expenditures/new" => NewExpenditureRoute
    case "/assignments/new" => NewAssignmentRoute
    case "/purchases/new" => NewPurchaseRoute
    case "/assets/new" => NewAssetRoute
    case _ => OtherRoute(path)
  }

  /** Every page of the model is found again at its own path. */
  lemma RouteAtPathOf(r: Route)
    requires !r.OtherRoute?
    ensures RouteAt(PathOf(r)) == r
  {
  }

  /** The guard each page runs; the expenditure list and every page outside the model run none. */
  function GuardAt(r: Route, user: Option<User>): GuardResult {
    match r
    case DashboardRoute => Dashboard.Guard(user)
    case SettingsRoute => Settings.Guard(user)
    case ActivityLogsRoute => ActivityLogs.Guard(user)
    case NewExpenditureRoute => ExpenditureForm.Guard(user)
    case NewAssignmentRoute => AssignmentForm.Guard(user)
    case NewPurchaseRoute => PurchaseForm.Guard(user)
    case NewAssetRoute => AssetForm.Guard(user)
    case ExpendituresRoute => Admit
    case OtherRoute(_) => Admit
  }

  /** The table of the pages that restrict roles: the roles they admit. */
  function AllowedRoles(r: Route): set<Role> {
    match r
    case DashboardRoute => {Admin}
    case SettingsRoute => {Admin}
    case ActivityLogsRoute => {Admin}
    case NewExpenditureRoute => {Admin, BaseCommander, LogisticsOfficer}
    case NewAssignmentRoute => {Admin, BaseCommander}
    case NewPurchaseRoute => {Admin, LogisticsOfficer}
    case NewAssetRoute => {Admin, LogisticsOfficer}
    case _ => {}
  }

  predicate Restricted(r: Route) {
    !(r.ExpendituresRoute? || r.OtherRoute?)
  }

  /** The table of the pages that restrict roles: where they send everyone else. */
  function FallbackOf(r: Route): string {
    match r
    case DashboardRoute => "/assets"
    case SettingsRoute => "/dashboard"
    case ActivityLogsRoute => "/dashboard"
    case NewExpenditureRoute => "/expenditures"
    case NewAssignmentRoute => "/assignments"
    case NewPurchaseRoute => "/purchases"
    case NewAssetRoute => "/assets"
    case _ => ""
  }

  /**
   * Each page's guard agrees with the table: a signed-in user passes exactly
   * when the page is unrestricted or admits the user's role, and is
   * otherwise sent to the page's fallback; nobody signed in always passes.
   */
  lemma GuardsFollowTable(r: Route, u: User)
    ensures GuardAt(r, Some(u)).Admit? <==> !Restricted(r) || u.role in AllowedRoles(r)
    ensures GuardAt(r, Some(u)).Deny? ==> GuardAt(r, Some(u)).fallback == FallbackOf(r)
    ensures GuardAt(r, None) == Admit
  {
  }

  /** An Admin passes every guard, and a role outside the three passes none. */
  lemma AdminEverywhereUnknownNowhere(r: Route, u: User)
    ensures u.role == Admin ==> GuardAt(r, Some(u)) == Admit
    ensures u.role.Unrecognized? ==> (GuardAt(r, Some(u)).Admit? <==> !Restricted(r))
  {
  }

  /** The page after `hops` guard redirects. */
  function Follow(r: Route, user: Option<User>, hops: nat): Route
    decreases hops
  {
    if hops == 0 then r
    else match GuardAt(r, user)
      case Admit => r
      case Deny(fallback) => Follow(RouteAt(fallback), user, hops - 1)
  }

  /**
   * The redirects end: from any page, at most two guard redirects reach a
   * page that admits the user, and no guard sends a user back to the page
   * it came from or to a public page that would bounce a signed-in user.
   * For a non-Admin sent on from the dashboard this rests on /assets being
   * an `OtherRoute`: the /assets list page is outside the model and is
   * taken to run no guard.
   */
  lemma GuardRedirectsSettle(r: Route, user: Option<User>)
    ensures GuardAt(Follow(r, user, 2), user) == Admit
    ensures GuardAt(r, user).Deny? ==>
      RouteAt(GuardAt(r, user).fallback) != r && GuardAt(r, user).fallback !in AppShell.PublicPaths
  {
    var g := GuardAt(r, user);
    if g.Deny? {
      var next := RouteAt(g.fallback);
      assert next == DashboardRoute || next.OtherRoute? || next == ExpendituresRoute;
      if next == DashboardRoute {
        assert RouteAt("/assets") == OtherRoute("/assets");
      }
    }
  }

  /**
   * The page login lands on admits the user who just signed in, and the
   * auth gate leaves a signed-in user there: logging in ends on a page that
   * renders. A non-Admin lands on /assets, which is outside the model and
   * is taken to run no guard, so for them this rests on that assumption.
   * Login signs in through the auth context while the gate reads the auth
   * store; the gate is given the signed-in state, on the assumption that
   * the two agree once login returns.
   */
  lemma LandingAdmits(u: User, isInitialized: bool)
    ensures GuardAt(RouteAt(Login.LandingPath(u.role)), Some(u)) == Admit
    ensures AppShell.Gate(false, isInitialized, true, Login.LandingPath(u.role)) == AppShell.Stay
  {
  }
}
