/**
 * The new-asset page (src/pages/assets/new.tsx): its schema, its role guard,
 * the initial values and the locked base select of a logistics officer.
 */
module AssetForm {
  import opened Wrappers
  import opened Session
  import opened Guards
  import opened ApiErrors
  import opened Forms

  datatype AssetValues = AssetValues(name: string, assetType: string, base: string, openingBalance: NumberInput)

  datatype Field = NameField | TypeField | BaseField | OpeningBalance

  /** The fields AssetSchema rejects: name, type and base are required, and the opening balance is a number of at least 0. */
  function SchemaErrors(v: AssetValues): (errs: set<Field>)
    ensures NameField in errs <==> v.name == ""
    ensures TypeField in errs <==> v.assetType == ""
    ensures BaseField in errs <==> v.base == ""
    ensures OpeningBalance in errs <==> !AtLeastZero(v.openingBalance)
  {
    (if v.name == "" then {NameField} else {})
    + (if v.assetType == "" then {TypeField} else {})
    + (if v.base == "" then {BaseField} else {})
    + (if !AtLeastZero(v.openingBalance) then {OpeningBalance} else {})
  }

  /** The page's guard: a signed-in user who is neither Admin nor logistics officer goes back to /assets. */
  function Guard(user: Option<User>): (g: GuardResult)
    ensures g.Deny? <==> user.Some? && user.value.role != Admin && user.value.role != LogisticsOfficer
    ensures g.Deny? ==> g.fallback == "/assets"
  {
    Check(user, r => r == Admin || r == LogisticsOfficer, "/assets")
  }

  /** The starting values: a logistics officer's base (or ''), an opening balance of 0, no name and no type. */
  function InitialValues(user: Option<User>): (v: AssetValues)
    ensures v.base == HomeBase(user, LogisticsOfficer)
    ensures v.name == "" && v.assetType == "" && v.openingBalance == Some(0.0)
  {
    AssetValues("", "",
      if user.Some? && user.value.role == LogisticsOfficer && user.value.assignedBase.Some?
         && user.value.assignedBase.value != "" then user.value.assignedBase.value else "",
      Some(0.0))
  }

  /** The base select is locked for a logistics officer with a base. */
  predicate BaseSelectLocked(user: Option<User>) {
    HasRole(user, LogisticsOfficer) && HasBase(user.value)
  }

  /**
   * The starting form fails on the name and the type; it fails on the base
   * exactly when the select is not locked to the officer's base; the
   * opening balance of 0 passes.
   */
  lemma InitialErrors(user: Option<User>)
    ensures SchemaErrors(InitialValues(user)) ==
      {NameField, TypeField} + (if BaseSelectLocked(user) then {} else {BaseField})
  {
  }

  /** A locked select shows the officer's own base, so the officer can only create assets at that base. */
  lemma LockedBaseIsHome(user: Option<User>, v: AssetValues)
    requires BaseSelectLocked(user) && v.base == InitialValues(user).base
    ensures Some(v.base) == user.value.assignedBase && BaseField !in SchemaErrors(v)
  {
  }

  const FailedText := "Failed to create asset"

  /** What a submit of `v` does: nothing unless the schema passes, then the new asset's page or the error toast. */
  function Submit(v: AssetValues, reply: Reply): (o: SubmitOutcome)
    ensures o == NotSent <==> SchemaErrors(v) != {}
    ensures o.Navigate? <==> SchemaErrors(v) == {} && reply.Created?
    ensures o.Navigate? ==> o.path == "/assets/" + reply.id
    ensures o.ErrorToast? ==> o.message != ""
  {
    CreateOutcome(SchemaErrors(v) == {}, reply, "/assets", FailedText)
  }

  /** The page renders nothing for a role the guard refuses, and the form otherwise. */
  predicate Renders(user: Option<User>) {
    !(user.Some? && user.value.role != Admin && user.value.role != LogisticsOfficer)
  }

  lemma RendersIffAdmitted(user: Option<User>)
    ensures Renders(user) <==> Guard(user).Admit?
  {
  }
}
