/**
 * The session record every page reads from the authentication store: the
 * signed-in user, with the role the backend assigned and the base the user
 * belongs to.
 */
module Session {
  import opened Wrappers

  /**
   * The role string sent by the backend. The three known roles get their own
   * constructor; any other string is kept as `Unrecognized`, because the pages
   * compare `user.role` against string literals and some guards test for a
   * role outside the three.
   */
  datatype Role = Admin | BaseCommander | LogisticsOfficer | Unrecognized(name: string)

  datatype User = User(id: string, username: string, role: Role, assignedBase: Option<string>)

  /** The role string as the backend spells it. */
  function RoleName(r: Role): string {
    match r
    case Admin => "Admin"
    case BaseCommander => "BaseCommander"
    case LogisticsOfficer => "LogisticsOfficer"
    case Unrecognized(name) => name
  }

  /** Reads a role string: the comparisons `role === 'Admin'` and so on. */
  function ParseRole(s: string): (r: Role)
    ensures RoleName(r) == s
    ensures r.Unrecognized? <==> s !in {"Admin", "BaseCommander", "LogisticsOfficer"}
  {
    if s == "Admin" then Admin
    else if s == "BaseCommander" then BaseCommander
    else if s == "LogisticsOfficer" then LogisticsOfficer
    else Unrecognized(s)
  }

  /** A role value that some backend string produces (an `Unrecognized` one never spells a known role). */
  predicate Canonical(r: Role) {
    r.Unrecognized? ==> r.name !in {"Admin", "BaseCommander", "LogisticsOfficer"}
  }

  lemma ParseRoleName(r: Role)
    requires Canonical(r)
    ensures ParseRole(RoleName(r)) == r
  {
  }

  /** `user.assignedBase` used as a JavaScript condition: present and not the empty string. */
  predicate HasBase(u: User) {
    u.assignedBase.Some? && u.assignedBase.value != ""
  }

  /** `user?.role === r`: false when nobody is signed in. */
  predicate HasRole(user: Option<User>, r: Role) {
    user.Some? && user.value.role == r
  }

  /**
   * The base a role-restricted page starts from: the user's assigned base when
   * the user has role `r` and a base (`user?.role === r && user.assignedBase ?
   * user.assignedBase : ''`), and '' otherwise.
   */
  function HomeBase(user: Option<User>, r: Role): (b: string)
    ensures b != "" <==> HasRole(user, r) && HasBase(user.value)
    ensures b != "" ==> user.value.assignedBase == Some(b)
  {
    if HasRole(user, r) && HasBase(user.value) then user.value.assignedBase.value else ""
  }
}
