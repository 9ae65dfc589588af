/**
 * The role guard each protected page repeats: when a signed-in user's role
 * is not on the page's list, an effect shows an error toast and pushes the
 * page's fallback, and the page renders nothing.
 */
module Guards {
  import opened Wrappers
  import opened Session

  datatype GuardResult = Admit | Deny(fallback: string)

  /**
   * `if (user && !allowed(user.role)) router.push(fallback)`. With nobody
   * signed in the guard lets the page through.
   */
  function Check(user: Option<User>, allowed: Role -> bool, fallback: string): (g: GuardResult)
    ensures g.Deny? <==> user.Some? && !allowed(user.value.role)
    ensures g.Deny? ==> g.fallback == fallback
    ensures user.None? ==> g == Admit
  {
    if user.Some? && !allowed(user.value.role) then Deny(fallback) else Admit
  }

  /** The redirects the guard's effect issues: one for a denial, none otherwise. */
  function Pushes(g: GuardResult): (ps: seq<string>)
    ensures |ps| == if g.Deny? then 1 else 0
    ensures g.Deny? ==> ps[0] == g.fallback
  {
    if g.Deny? then [g.fallback] else []
  }
}
