/**
 * The application shell: the `loading` gate and the authentication redirect
 * that run on every page (src/pages/_app.tsx).
 */
module AppShell {

  const LoginPath := "/login"
  const DashboardPath := "/dashboard"

  /** The pages an anonymous visitor may see. */
  const PublicPaths: set<string> := {"/login", "/register", "/forgot-password", "/reset-password"}

  datatype Redirect = Stay | Push(target: string)

  /**
   * The redirect effect for a given set of public paths: nothing while
   * loading; an anonymous visitor outside the public pages goes to the login
   * page; a signed-in visitor on a public page goes to the dashboard.
   */
  function GateFor(publicPaths: set<string>, loading: bool, isAuthenticated: bool, path: string): (r: Redirect)
    ensures loading ==> r == Stay
    ensures r == Push(LoginPath) <==> !loading && !isAuthenticated && path !in publicPaths
    ensures r == Push(DashboardPath) <==> !loading && isAuthenticated && path in publicPaths
    ensures r.Push? ==> r.target in {LoginPath, DashboardPath}
  {
    if loading then Stay
    else if !isAuthenticated && path !in publicPaths then Push(LoginPath)
    else if isAuthenticated && path in publicPaths then Push(DashboardPath)
    else Stay
  }

  /**
   * The effect as the shell runs it. It reads the store's `isInitialized`
   * but never tests it: the gate is the shell's own `loading` flag.
   */
  function Gate(loading: bool, isInitialized: bool, isAuthenticated: bool, path: string): Redirect {
    GateFor(PublicPaths, loading, isAuthenticated, path)
  }

  lemma GateIgnoresInitialized(loading: bool, isAuthenticated: bool, path: string)
    ensures Gate(loading, false, isAuthenticated, path) == Gate(loading, true, isAuthenticated, path)
  {
  }

  /** The target of a redirect does not redirect again: there is no redirect loop. */
  lemma NoRedirectLoop(isInitialized: bool, isAuthenticated: bool, path: string)
    ensures var r := Gate(false, isInitialized, isAuthenticated, path);
            r.Push? ==> Gate(false, isInitialized, isAuthenticated, r.target) == Stay
  {
  }

  /** From `path`, following at most one redirect reaches a page that stays put. */
  predicate Settles(publicPaths: set<string>, isAuthenticated: bool, path: string) {
    var r := GateFor(publicPaths, false, isAuthenticated, path);
    r.Push? ==> GateFor(publicPaths, false, isAuthenticated, r.target) == Stay
  }

  /**
   * For any set of public paths, the gate is free of loops exactly when the
   * login page is public and the dashboard is not.
   */
  lemma LoopFreeIff(publicPaths: set<string>)
    ensures (forall a, p :: Settles(publicPaths, a, p))
            <==> LoginPath in publicPaths && DashboardPath !in publicPaths
  {
    if LoginPath !in publicPaths {
      assert !Settles(publicPaths, false, LoginPath);
    } else if DashboardPath in publicPaths {
      assert !Settles(publicPaths, true, DashboardPath);
    }
  }

  /** What the shell renders: the loading screen, or the page inside the layout. */
  datatype Screen = LoadingScreen | PageInLayout

  /**
   * The shell's state. `loading` starts true; a timer started when the shell
   * mounts, and again whenever the store's flags change, sets it to false.
   */
  class App {
    var loading: bool

    constructor ()
      ensures loading
    {
      loading := true;
    }

    /** The timer's callback, `setLoading(false)`. */
    method TimerElapsed()
      modifies this
      ensures !loading
    {
      loading := false;
    }

    function Screen(): (s: Screen)
      reads this
      ensures s == LoadingScreen <==> loading
    {
      if loading then LoadingScreen else PageInLayout
    }

    /** The redirect the effect issues in the current state. */
    function Redirect(isInitialized: bool, isAuthenticated: bool, path: string): (r: Redirect)
      reads this
      ensures loading ==> r == Stay
      ensures !loading ==> r == Gate(false, isInitialized, isAuthenticated, path)
    {
      Gate(loading, isInitialized, isAuthenticated, path)
    }
  }
}
