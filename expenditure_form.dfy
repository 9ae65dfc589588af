/**
 * The new-expenditure page (src/pages/expenditures/new.tsx): its schema
 * with the conditional operation name, its role guard, the asset list a
 * base commander is narrowed to, the initial values and the effect that
 * keeps the base field on the chosen asset's base.
 */
module ExpenditureForm {
  import opened Wrappers
  import opened Session
  import opened Guards
  import opened Inventory
  import opened ApiErrors
  import opened Forms

  datatype ExpenditureValues = ExpenditureValues(
    asset: string, base: string, quantity: NumberInput, reason: string,
    expendedBy: Person, expenditureDate: string,
    operationName: string, location: string, notes: string)

  datatype Field = AssetField | BaseField | Quantity | Reason | ExpendedBy(part: PersonField)
                 | ExpenditureDate | OperationName

  /** The reasons for which the schema's `when` makes the operation name required. */
  predicate NamedActivity(reason: string) {
    reason == "Operation" || reason == "Training"
  }

  /**
   * The fields ExpenditureSchema rejects. The operation name is required only
   * for an Operation or a Training; location and notes are never rejected.
   */
  function SchemaErrors(v: ExpenditureValues): (errs: set<Field>)
    ensures AssetField in errs <==> v.asset == ""
    ensures BaseField in errs <==> v.base == ""
    ensures Quantity in errs <==> !PositiveWhole(v.quantity)
    ensures Reason in errs <==> v.reason == ""
    ensures forall p :: ExpendedBy(p) in errs <==> p in PersonErrors(v.expendedBy)
    ensures ExpenditureDate in errs <==> v.expenditureDate == ""
    ensures OperationName in errs <==> NamedActivity(v.reason) && v.operationName == ""
  {
    set f | f in AllFields && Rejects(v, f)
  }

  const AllFields := [AssetField, BaseField, Quantity, Reason, ExpendedBy(Name), ExpendedBy(Rank), ExpendedBy(Id),
                      ExpenditureDate, OperationName]

  /** Whether the schema's rule for field `f` rejects the values. */
  predicate Rejects(v: ExpenditureValues, f: Field) {
    match f
    case AssetField => v.asset == ""
    case BaseField => v.base == ""
    case Quantity => !PositiveWhole(v.quantity)
    case Reason => v.reason == ""
    case ExpendedBy(p) => p in PersonErrors(v.expendedBy)
    case ExpenditureDate => v.expenditureDate == ""
    case OperationName => NamedActivity(v.reason) && v.operationName == ""
  }

  /** An accepted expenditure has every required field, a whole positive quantity, and a name for an operation or training. */
  lemma AcceptedForm(v: ExpenditureValues)
    requires SchemaErrors(v) == {}
    ensures v.asset != "" && v.base != "" && v.reason != "" && v.expenditureDate != ""
    ensures v.expendedBy.name != "" && v.expendedBy.rank != "" && v.expendedBy.id != ""
    ensures v.quantity.Some? && v.quantity.value >= 1.0 && Whole(v.quantity.value)
    ensures NamedActivity(v.reason) ==> v.operationName != ""
  {
    assert ExpendedBy(Name) !in SchemaErrors(v);
    assert ExpendedBy(Rank) !in SchemaErrors(v);
    assert ExpendedBy(Id) !in SchemaErrors(v);
  }

  /** For any other reason the operation name, the location and the notes do not affect the verdict. */
  lemma FreeTextIgnored(v: ExpenditureValues, name: string, location: string, notes: string)
    requires !NamedActivity(v.reason)
    ensures SchemaErrors(v.(operationName := name, location := location, notes := notes)) == SchemaErrors(v)
  {
  }

  /** Switching the reason to Operation or Training with no name adds exactly the operation-name error. */
  lemma OperationNeedsName(v: ExpenditureValues, reason: string)
    requires !NamedActivity(v.reason) && v.reason != "" && NamedActivity(reason) && v.operationName == ""
    ensures SchemaErrors(v.(reason := reason)) == SchemaErrors(v) + {OperationName}
  {
  }

  /** The page's guard: a signed-in user outside the three roles goes back to /expenditures. */
  function Guard(user: Option<User>): (g: GuardResult)
    ensures g.Deny? <==> user.Some? && user.value.role.Unrecognized?
    ensures g.Deny? ==> g.fallback == "/expenditures"
  {
    Check(user, r => r == Admin || r == BaseCommander || r == LogisticsOfficer, "/expenditures")
  }

  /**
   * The starting values: the query's asset id (or ''), a base commander's
   * base (or ''), a quantity of 1, today's date and everything else empty.
   */
  function InitialValues(user: Option<User>, queryAsset: Option<string>, today: string): (v: ExpenditureValues)
    ensures v.asset == (if queryAsset.Some? && queryAsset.value != "" then queryAsset.value else "")
    ensures v.base == HomeBase(user, BaseCommander)
    ensures v.quantity == Some(1.0) && v.expenditureDate == today
    ensures v.reason == "" && v.expendedBy == NoPerson && v.operationName == "" && v.location == "" && v.notes == ""
  {
    ExpenditureValues(
      if queryAsset.Some? && queryAsset.value != "" then queryAsset.value else "",
      if user.Some? && user.value.role == BaseCommander && user.value.assignedBase.Some?
         && user.value.assignedBase.value != "" then user.value.assignedBase.value else "",
      Some(1.0), "", NoPerson, today, "", "", "")
  }

  /** The starting form is never accepted: the reason and the person are still missing. */
  lemma InitialValuesRejected(user: Option<User>, queryAsset: Option<string>, today: string)
    ensures var errs := SchemaErrors(InitialValues(user, queryAsset, today));
      Reason in errs && ExpendedBy(Name) in errs && ExpendedBy(Rank) in errs && ExpendedBy(Id) in errs
      && Quantity !in errs && OperationName !in errs
  {
  }

  const FailedText := "Failed to create expenditure"

  datatype View = Nothing | LoadingView | FormView

  /** The page's state: the loading and submitting flags, the asset list, the selected asset and the form values. */
  class NewExpenditurePage {
    const user: Option<User>
    const queryAsset: Option<string>
    var isLoading: bool
    var isSubmitting: bool
    var availableAssets: seq<Asset>
    var selectedAsset: Option<Asset>
    var values: ExpenditureValues

    /**
     * What the page keeps true: a base commander with a base only ever
     * lists, and only ever records, assets of that base; and a selected
     * asset's base is the base in the form.
     */
    predicate Valid()
      reads this
    {
      (HomeBase(user, BaseCommander) != "" ==>
         values.base == HomeBase(user, BaseCommander)
         && forall a :: a in availableAssets ==> a.base == HomeBase(user, BaseCommander))
      && (selectedAsset.Some? ==> selectedAsset.value.base == values.base)
    }

    constructor (user: Option<User>, queryAsset: Option<string>, today: string)
      ensures Valid()
      ensures this.user == user && this.queryAsset == queryAsset
      ensures isLoading && !isSubmitting && availableAssets == [] && selectedAsset.None?
      ensures values == InitialValues(user, queryAsset, today)
    {
      this.user := user;
      this.queryAsset := queryAsset;
      isLoading := true;
      isSubmitting := false;
      availableAssets := [];
      selectedAsset := None;
      values := InitialValues(user, queryAsset, today);
    }

    /** Nothing for a role the guard refuses, the loading screen until the assets are in, then the form. */
    function ViewFor(): (v: View)
      reads this
      ensures v == Nothing <==> Guard(user).Deny?
      ensures v == FormView <==> Guard(user).Admit? && !isLoading
    {
      if user.Some? && user.value.role.Unrecognized? then Nothing
      else if isLoading then LoadingView
      else FormView
    }

    /** The asset select is locked when the page was opened for one asset. */
    predicate AssetSelectLocked()
      reads this
    {
      queryAsset.Some? && queryAsset.value != ""
    }

    /** The base select is locked for a base commander and while an asset is selected. */
    predicate BaseSelectLocked()
      reads this
    {
      HasRole(user, BaseCommander) || selectedAsset.Some?
    }

    /** The fetch effect runs only with a signed-in user, and starts loading. */
    method StartFetch() returns (sent: bool)
      modifies this
      ensures sent <==> user.Some?
      ensures isLoading == (sent || old(isLoading))
      ensures isSubmitting == old(isSubmitting) && availableAssets == old(availableAssets)
      ensures selectedAsset == old(selectedAsset) && values == old(values)
    {
      sent := user.Some?;
      if sent {
        isLoading := true;
      }
    }

    /**
     * The assets arrive: the list is narrowed for a base commander with a
     * base, and an asset named in the query that is on the list is selected
     * with its id and base put in the form. Loading ends.
     */
    method AssetsLoaded(assets: seq<Asset>)
      requires Valid()
      modifies this
      ensures Valid()
      ensures !isLoading && isSubmitting == old(isSubmitting)
      ensures availableAssets == VisibleAssets(assets, user, BaseCommander)
      ensures var pick := Preselect(availableAssets, queryAsset);
        if pick.Some? then
          selectedAsset == pick && values == old(values).(asset := pick.value.id, base := pick.value.base)
        else
          selectedAsset == old(selectedAsset) && values == old(values)
    {
      var filtered := assets;
      if user.Some? && user.value.role == BaseCommander && user.value.assignedBase.Some? && user.value.assignedBase.value != "" {
        filtered := AtBase(assets, user.value.assignedBase.value);
      }
      availableAssets := filtered;
      if queryAsset.Some? && queryAsset.value != "" {
        var asset := FindById(filtered, queryAsset.value);
        if asset.Some? {
          selectedAsset := asset;
          values := values.(asset := asset.value.id, base := asset.value.base);
        }
      }
      isLoading := false;
    }

    /** The fetch fails: the list stays as it was and loading ends. */
    method AssetsFailed()
      modifies this
      ensures !isLoading
      ensures isSubmitting == old(isSubmitting) && availableAssets == old(availableAssets)
      ensures selectedAsset == old(selectedAsset) && values == old(values)
    {
      isLoading := false;
    }

    /**
     * The effect on the asset field and the list: the listed asset with the
     * form's asset id becomes the selection (or none), and a found asset's
     * base replaces the form's base.
     */
    method SyncSelectedAsset()
      requires Valid()
      modifies this
      ensures Valid()
      ensures selectedAsset == FindById(availableAssets, values.asset)
      ensures values == old(values).(base := SyncedBase(availableAssets, values.asset, old(values.base)))
      ensures isLoading == old(isLoading) && isSubmitting == old(isSubmitting) && availableAssets == old(availableAssets)
    {
      var asset := FindById(availableAssets, values.asset);
      selectedAsset := asset;
      if asset.Some? {
        values := values.(base := asset.value.base);
      }
    }

    /** Picking an asset in the (unlocked) select, followed by the effect. */
    method ChooseAsset(id: string)
      requires Valid() && !AssetSelectLocked()
      modifies this
      ensures Valid()
      ensures selectedAsset == FindById(availableAssets, id)
      ensures values == old(values).(asset := id, base := SyncedBase(availableAssets, id, old(values.base)))
      ensures isLoading == old(isLoading) && isSubmitting == old(isSubmitting) && availableAssets == old(availableAssets)
    {
      values := values.(asset := id);
      SyncSelectedAsset();
    }

    /** Picking a base in the (unlocked) select. */
    method ChooseBase(base: string)
      requires Valid() && !BaseSelectLocked()
      modifies this
      ensures Valid()
      ensures values == old(values).(base := base)
      ensures isLoading == old(isLoading) && isSubmitting == old(isSubmitting)
      ensures availableAssets == old(availableAssets) && selectedAsset == old(selectedAsset)
    {
      values := values.(base := base);
    }

    /** Typing in any other field. */
    method EditDetails(v: ExpenditureValues)
      requires Valid() && v.asset == values.asset && v.base == values.base
      modifies this
      ensures Valid()
      ensures values == v
      ensures isLoading == old(isLoading) && isSubmitting == old(isSubmitting)
      ensures availableAssets == old(availableAssets) && selectedAsset == old(selectedAsset)
    {
      values := v;
    }

    /** Submitting: Formik runs the handler only when the schema passes, and the handler sets `isSubmitting`. */
    method StartSubmit() returns (sent: bool)
      modifies this
      ensures sent <==> SchemaErrors(values) == {}
      ensures isSubmitting == (sent || old(isSubmitting))
      ensures isLoading == old(isLoading) && values == old(values)
      ensures availableAssets == old(availableAssets) && selectedAsset == old(selectedAsset)
    {
      sent := SchemaErrors(values) == {};
      if sent {
        isSubmitting := true;
      }
    }

    /** The create call settles: the new record's page, or the error toast; `isSubmitting` is cleared. */
    method FinishSubmit(reply: Reply) returns (o: SubmitOutcome)
      modifies this
      ensures o == CreateOutcome(true, reply, "/expenditures", FailedText)
      ensures !isSubmitting
      ensures isLoading == old(isLoading) && values == old(values)
      ensures availableAssets == old(availableAssets) && selectedAsset == old(selectedAsset)
    {
      match reply {
        case Created(id) =>
          o := Navigate("/expenditures/" + id);
        case Rejected(e) =>
          o := ErrorToast(if e.response.Some? && BodyError(e.response.value) != "" then BodyError(e.response.value) else FailedText);
      }
      isSubmitting := false;
    }
  }
}
