/** The page frame: the navigation shell, or the bare page (src/components/layout/Layout.tsx). */
module Layout {
  import AppShell

  /** The layout's own copy of the public-path list. */
  const PublicPaths: set<string> := {"/login", "/register", "/forgot-password", "/reset-password"}

  datatype Frame = Bare | WithNavigation

  /** The sidebar and navbar appear only for a signed-in visitor on a page that is not public. */
  function FrameFor(isAuthenticated: bool, path: string): (f: Frame)
    ensures f == WithNavigation <==> isAuthenticated && path !in PublicPaths
    ensures !isAuthenticated ==> f == Bare
    ensures path in PublicPaths ==> f == Bare
  {
    if path in PublicPaths || !isAuthenticated then Bare else WithNavigation
  }

  lemma SamePublicPaths()
    ensures PublicPaths == AppShell.PublicPaths
  {
  }

  /**
   * Whenever the navigation shows, the shell's gate leaves the page alone.
   * The layout reads `isAuthenticated` from the auth context and the shell
   * from the auth store; both are the one flag here, on the assumption that
   * they agree.
   */
  lemma NavigationOnlyWhereGateStays(isInitialized: bool, isAuthenticated: bool, path: string)
    ensures FrameFor(isAuthenticated, path) == WithNavigation
            ==> AppShell.Gate(false, isInitialized, isAuthenticated, path) == AppShell.Stay
  {
  }

  /**
   * On a page the gate leaves alone, the navigation shows exactly for a
   * signed-in visitor, under the same assumption that the context's and the
   * store's `isAuthenticated` agree.
   */
  lemma SettledFrame(isInitialized: bool, isAuthenticated: bool, path: string)
    requires AppShell.Gate(false, isInitialized, isAuthenticated, path) == AppShell.Stay
    ensures FrameFor(isAuthenticated, path) == WithNavigation <==> isAuthenticated
  {
  }
}
