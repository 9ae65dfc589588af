/**
 * The new-assignment page (src/pages/assignments/new.tsx): its schema, its
 * role guard, the asset list a base commander is narrowed to, the
 * preselection from the query, the initial values and the effect that keeps
 * the base field on the chosen asset's base.
 */
module AssignmentForm {
  import opened Wrappers
  import opened Session
  import opened Guards
  import opened Inventory
  import opened ApiErrors
  import opened Forms

  datatype AssignmentValues = AssignmentValues(
    asset: string, base: string, quantity: NumberInput, assignedTo: Person,
    purpose: string, startDate: string, endDate: string, notes: string)

  datatype Field = AssetField | BaseField | Quantity | AssignedTo(part: PersonField) | Purpose | StartDate

  /** The fields AssignmentSchema rejects; the end date and the notes are optional and never rejected. */
  function SchemaErrors(v: AssignmentValues): (errs: set<Field>)
    ensures AssetField in errs <==> v.asset == ""
    ensures BaseField in errs <==> v.base == ""
    ensures Quantity in errs <==> !PositiveWhole(v.quantity)
    ensures forall p :: AssignedTo(p) in errs <==> p in PersonErrors(v.assignedTo)
    ensures Purpose in errs <==> v.purpose == ""
    ensures StartDate in errs <==> v.startDate == ""
  {
    set f | f in AllFields && Rejects(v, f)
  }

  const AllFields := [AssetField, BaseField, Quantity, AssignedTo(Name), AssignedTo(Rank), AssignedTo(Id), Purpose, StartDate]

  /** Whether the schema's rule for field `f` rejects the values. */
  predicate Rejects(v: AssignmentValues, f: Field) {
    match f
    case AssetField => v.asset == ""
    case BaseField => v.base == ""
    case Quantity => !PositiveWhole(v.quantity)
    case AssignedTo(p) => p in PersonErrors(v.assignedTo)
    case Purpose => v.purpose == ""
    case StartDate => v.startDate == ""
  }

  /** An accepted assignment names its asset, base, purpose, start date and a complete assignee, with a whole positive quantity. */
  lemma AcceptedForm(v: AssignmentValues)
    requires SchemaErrors(v) == {}
    ensures v.asset != "" && v.base != "" && v.purpose != "" && v.startDate != ""
    ensures v.assignedTo.name != "" && v.assignedTo.rank != "" && v.assignedTo.id != ""
    ensures v.quantity.Some? && v.quantity.value >= 1.0 && Whole(v.quantity.value)
  {
    assert AssignedTo(Name) !in SchemaErrors(v);
    assert AssignedTo(Rank) !in SchemaErrors(v);
    assert AssignedTo(Id) !in SchemaErrors(v);
  }

  /** The end date and the notes are optional: whatever they hold, the verdict is the same. */
  lemma OptionalFields(v: AssignmentValues, endDate: string, notes: string)
    ensures SchemaErrors(v.(endDate := endDate, notes := notes)) == SchemaErrors(v)
  {
  }

  /** The page's guard: a signed-in user who is neither Admin nor base commander goes back to /assignments. */
  function Guard(user: Option<User>): (g: GuardResult)
    ensures g.Deny? <==> user.Some? && user.value.role != Admin && user.value.role != BaseCommander
    ensures g.Deny? ==> g.fallback == "/assignments"
  {
    Check(user, r => r == Admin || r == BaseCommander, "/assignments")
  }

  /**
   * The starting values: the query's asset id (or ''), a base commander's
   * base (or ''), a quantity of 1, nobody assigned, today as the start date
   * and everything else empty.
   */
  function InitialValues(user: Option<User>, queryAsset: Option<string>, today: string): (v: AssignmentValues)
    ensures v.asset == (if queryAsset.Some? && queryAsset.value != "" then queryAsset.value else "")
    ensures v.base == HomeBase(user, BaseCommander)
    ensures v.quantity == Some(1.0) && v.assignedTo == NoPerson && v.startDate == today
    ensures v.purpose == "" && v.endDate == "" && v.notes == ""
  {
    AssignmentValues(
      if queryAsset.Some? && queryAsset.value != "" then queryAsset.value else "",
      if user.Some? && user.value.role == BaseCommander && user.value.assignedBase.Some?
         && user.value.assignedBase.value != "" then user.value.assignedBase.value else "",
      Some(1.0), NoPerson, "", today, "", "")
  }

  /** The starting form is never accepted: the purpose and the assignee are still missing. */
  lemma InitialValuesRejected(user: Option<User>, queryAsset: Option<string>, today: string)
    ensures var errs := SchemaErrors(InitialValues(user, queryAsset, today));
      Purpose in errs && AssignedTo(Name) in errs && AssignedTo(Rank) in errs && AssignedTo(Id) in errs
      && Quantity !in errs
  {
  }

  const FailedText := "Failed to create assignment"

  datatype View = Nothing | LoadingView | FormView

  /** The page's state: the loading and submitting flags, the asset list, the selected asset and the form values. */
  class NewAssignmentPage {
    const user: Option<User>
    const queryAsset: Option<string>
    var isLoading: bool
    var isSubmitting: bool
    var availableAssets: seq<Asset>
    var selectedAsset: Option<Asset>
    var values: AssignmentValues

    /**
     * What the page keeps true: a base commander with a base only ever
     * lists, and only ever records, assets of that base; and a selected
     * asset's base is the base in the form.
     */
    predicate Valid()
      reads this
    {
      (HomeBase(user, BaseCommander) != "" ==>
         values.base == HomeBase(user, BaseCommander)
         && forall a :: a in availableAssets ==> a.base == HomeBase(user, BaseCommander))
      && (selectedAsset.Some? ==> selectedAsset.value.base == values.base)
    }

    constructor (user: Option<User>, queryAsset: Option<string>, today: string)
      ensures Valid()
      ensures this.user == user && this.queryAsset == queryAsset
      ensures isLoading && !isSubmitting && availableAssets == [] && selectedAsset.None?
      ensures values == InitialValues(user, queryAsset, today)
    {
      this.user := user;
      this.queryAsset := queryAsset;
      isLoading := true;
      isSubmitting := false;
      availableAssets := [];
      selectedAsset := None;
      values := InitialValues(user, queryAsset, today);
    }

    /** Nothing for a role the guard refuses, the loading screen until the assets are in, then the form. */
    function ViewFor(): (v: View)
      reads this
      ensures v == Nothing <==> Guard(user).Deny?
      ensures v == FormView <==> Guard(user).Admit? && !isLoading
    {
      if user.Some? && user.value.role != Admin && user.value.role != BaseCommander then Nothing
      else if isLoading then LoadingView
      else FormView
    }

    /** The asset select is locked when the page was opened for one asset. */
    predicate AssetSelectLocked()
      reads this
    {
      queryAsset.Some? && queryAsset.value != ""
    }

    /** The base select is locked for a base commander and while an asset is selected. */
    predicate BaseSelectLocked()
      reads this
    {
      HasRole(user, BaseCommander) || selectedAsset.Some?
    }

    /** The fetch effect runs only with a signed-in user, and starts loading. */
    method StartFetch() returns (sent: bool)
      modifies this
      ensures sent <==> user.Some?
      ensures isLoading == (sent || old(isLoading))
      ensures isSubmitting == old(isSubmitting) && availableAssets == old(availableAssets)
      ensures selectedAsset == old(selectedAsset) && values == old(values)
    {
      sent := user.Some?;
      if sent {
        isLoading := true;
      }
    }

    /**
     * The available assets arrive: the list is narrowed for a base commander
     * with a base, and an asset named by a single query id that is on the
     * list is selected
     * with its id and base put in the form. Loading ends.
     */
    method AssetsLoaded(assets: seq<Asset>)
      requires Valid()
      modifies this
      ensures Valid()
      ensures !isLoading && isSubmitting == old(isSubmitting)
      ensures availableAssets == VisibleAssets(assets, user, BaseCommander)
      ensures var pick := Preselect(availableAssets, queryAsset);
        if pick.Some? then
          selectedAsset == pick && values == old(values).(asset := pick.value.id, base := pick.value.base)
        else
          selectedAsset == old(selectedAsset) && values == old(values)
    {
      var filtered := assets;
      if user.Some? && user.value.role == BaseCommander && user.value.assignedBase.Some? && user.value.assignedBase.value != "" {
        filtered := AtBase(assets, user.value.assignedBase.value);
      }
      availableAssets := filtered;
      if queryAsset.Some? && queryAsset.value != "" {
        var asset := FindById(filtered, queryAsset.value);
        if asset.Some? {
          selectedAsset := asset;
          values := values.(asset := asset.value.id, base := asset.value.base);
        }
      }
      isLoading := false;
    }

    /** The fetch fails: the list stays as it was and loading ends. */
    method AssetsFailed()
      modifies this
      ensures !isLoading
      ensures isSubmitting == old(isSubmitting) && availableAssets == old(availableAssets)
      ensures selectedAsset == old(selectedAsset) && values == old(values)
    {
      isLoading := false;
    }

    /**
     * The effect on the asset field and the list: the listed asset with the
     * form's asset id becomes the selection (or none), and a found asset's
     * base replaces the form's base.
     */
    method SyncSelectedAsset()
      requires Valid()
      modifies this
      ensures Valid()
      ensures selectedAsset == FindById(availableAssets, values.asset)
      ensures values == old(values).(base := SyncedBase(availableAssets, values.asset, old(values.base)))
      ensures isLoading == old(isLoading) && isSubmitting == old(isSubmitting) && availableAssets == old(availableAssets)
    {
      var asset := FindById(availableAssets, values.asset);
      selectedAsset := asset;
      if asset.Some? {
        values := values.(base := asset.value.base);
      }
    }

    /** Picking an asset in the (unlocked) select, followed by the effect. */
    method ChooseAsset(id: string)
      requires Valid() && !AssetSelectLocked()
      modifies this
      ensures Valid()
      ensures selectedAsset == FindById(availableAssets, id)
      ensures values == old(values).(asset := id, base := SyncedBase(availableAssets, id, old(values.base)))
      ensures isLoading == old(isLoading) && isSubmitting == old(isSubmitting) && availableAssets == old(availableAssets)
    {
      values := values.(asset := id);
      SyncSelectedAsset();
    }

    /** Picking a base in the (unlocked) select. */
    method ChooseBase(base: string)
      requires Valid() && !BaseSelectLocked()
      modifies this
      ensures Valid()
      ensures values == old(values).(base := base)
      ensures isLoading == old(isLoading) && isSubmitting == old(isSubmitting)
      ensures availableAssets == old(availableAssets) && selectedAsset == old(selectedAsset)
    {
      values := values.(base := base);
    }

    /** Typing in any other field. */
    method EditDetails(v: AssignmentValues)
      requires Valid() && v.asset == values.asset && v.base == values.base
      modifies this
      ensures Valid()
      ensures values == v
      ensures isLoading == old(isLoading) && isSubmitting == old(isSubmitting)
      ensures availableAssets == old(availableAssets) && selectedAsset == old(selectedAsset)
    {
      values := v;
    }

    /** Submitting: Formik runs the handler only when the schema passes, and the handler sets `isSubmitting`. */
    method StartSubmit() returns (sent: bool)
      modifies this
      ensures sent <==> SchemaErrors(values) == {}
      ensures isSubmitting == (sent || old(isSubmitting))
      ensures isLoading == old(isLoading) && values == old(values)
      ensures availableAssets == old(availableAssets) && selectedAsset == old(selectedAsset)
    {
      sent := SchemaErrors(values) == {};
      if sent {
        isSubmitting := true;
      }
    }

    /** The create call settles: the new record's page, or the error toast; `isSubmitting` is cleared. */
    method FinishSubmit(reply: Reply) returns (o: SubmitOutcome)
      modifies this
      ensures o == CreateOutcome(true, reply, "/assignments", FailedText)
      ensures !isSubmitting
      ensures isLoading == old(isLoading) && values == old(values)
      ensures availableAssets == old(availableAssets) && selectedAsset == old(selectedAsset)
    {
      match reply {
        case Created(id) =>
          o := Navigate("/assignments/" + id);
        case Rejected(e) =>
          o := ErrorToast(if e.response.Some? && BodyError(e.response.value) != "" then BodyError(e.response.value) else FailedText);
      }
      isSubmitting := false;
    }
  }
}
