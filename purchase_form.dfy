/**
 * The new-purchase page (src/pages/purchases/new.tsx): its schema, its role
 * guard, the asset list a logistics officer is narrowed to, the
 * preselection that copies an asset's name, type and base into the form,
 * and the total cost it displays.
 */
module PurchaseForm {
  import opened Wrappers
  import opened Session
  import opened Guards
  import opened Inventory
  import opened ApiErrors
  import opened Forms

  datatype PurchaseValues = PurchaseValues(
    assetName: string, assetType: string, base: string, supplier: string,
    quantity: NumberInput, unitCost: NumberInput, purchaseDate: string,
    invoiceNumber: string, notes: string)

  datatype Field = AssetName | AssetType | BaseField | Supplier | Quantity | UnitCost | PurchaseDate

  /**
   * The fields PurchaseSchema rejects: the quantity must be a positive whole
   * number and the unit cost positive; the invoice number and the notes are
   * never rejected.
   */
  function SchemaErrors(v: PurchaseValues): (errs: set<Field>)
    ensures AssetName in errs <==> v.assetName == ""
    ensures AssetType in errs <==> v.assetType == ""
    ensures BaseField in errs <==> v.base == ""
    ensures Supplier in errs <==> v.supplier == ""
    ensures Quantity in errs <==> !PositiveWhole(v.quantity)
    ensures UnitCost in errs <==> !Positive(v.unitCost)
    ensures PurchaseDate in errs <==> v.purchaseDate == ""
  {
    set f | f in AllFields && Rejects(v, f)
  }

  const AllFields := [AssetName, AssetType, BaseField, Supplier, Quantity, UnitCost, PurchaseDate]

  /** Whether the schema's rule for field `f` rejects the values. */
  predicate Rejects(v: PurchaseValues, f: Field) {
    match f
    case AssetName => v.assetName == ""
    case AssetType => v.assetType == ""
    case BaseField => v.base == ""
    case Supplier => v.supplier == ""
    case Quantity => !PositiveWhole(v.quantity)
    case UnitCost => !Positive(v.unitCost)
    case PurchaseDate => v.purchaseDate == ""
  }

  /** The invoice number and the notes are optional: whatever they hold, the verdict is the same. */
  lemma OptionalFields(v: PurchaseValues, invoiceNumber: string, notes: string)
    ensures SchemaErrors(v.(invoiceNumber := invoiceNumber, notes := notes)) == SchemaErrors(v)
  {
  }

  /** The page's guard: a signed-in user who is neither Admin nor logistics officer goes back to /purchases. */
  function Guard(user: Option<User>): (g: GuardResult)
    ensures g.Deny? <==> user.Some? && user.value.role != Admin && user.value.role != LogisticsOfficer
    ensures g.Deny? ==> g.fallback == "/purchases"
  {
    Check(user, r => r == Admin || r == LogisticsOfficer, "/purchases")
  }

  /**
   * The starting values: a logistics officer's base (or ''), a quantity of
   * 1, a unit cost of 0, today's date and everything else empty.
   */
  function InitialValues(user: Option<User>, today: string): (v: PurchaseValues)
    ensures v.base == HomeBase(user, LogisticsOfficer)
    ensures v.quantity == Some(1.0) && v.unitCost == Some(0.0) && v.purchaseDate == today
    ensures v.assetName == "" && v.assetType == "" && v.supplier == "" && v.invoiceNumber == "" && v.notes == ""
  {
    PurchaseValues("", "",
      if user.Some? && user.value.role == LogisticsOfficer && user.value.assignedBase.Some?
         && user.value.assignedBase.value != "" then user.value.assignedBase.value else "",
      "", Some(1.0), Some(0.0), today, "", "")
  }

  /**
   * The starting unit cost of 0 fails the schema, so the starting form is
   * rejected even with everything else filled in; its quantity passes.
   */
  lemma InitialUnitCostRejected(user: Option<User>, today: string, name: string, assetType: string, base: string, supplier: string)
    ensures var v := InitialValues(user, today);
      UnitCost in SchemaErrors(v.(assetName := name, assetType := assetType, base := base, supplier := supplier))
      && Quantity !in SchemaErrors(v)
  {
  }

  /** `quantity * unitCost`, where an emptied number input ('') counts as 0. */
  function TotalCost(v: PurchaseValues): (t: real) {
    v.quantity.GetOr(0.0) * v.unitCost.GetOr(0.0)
  }

  /**
   * The total is the product of the two figures the schema checks: positive
   * for every accepted form, at least the unit cost, and 0 for the starting
   * form.
   */
  lemma TotalCostOfAccepted(v: PurchaseValues)
    requires SchemaErrors(v) == {}
    ensures TotalCost(v) == v.quantity.value * v.unitCost.value
    ensures TotalCost(v) >= v.unitCost.value > 0.0
  {
    var q, u := v.quantity.value, v.unitCost.value;
    assert q >= 1.0;
    calc {
      q * u;
    ==  u + (q - 1.0) * u;
    >=  { assert (q - 1.0) * u >= 0.0; }
      u;
    }
  }

  /** With either input emptied the display shows 0, and the starting form shows 0. */
  lemma TotalCostZero(v: PurchaseValues, user: Option<User>, today: string)
    ensures v.quantity.None? || v.unitCost.None? ==> TotalCost(v) == 0.0
    ensures TotalCost(InitialValues(user, today)) == 0.0
  {
  }

  const FailedText := "Failed to create purchase"

  datatype View = Nothing | LoadingView | FormView

  /** The page's state: the loading and submitting flags, the asset list, the selected asset and the form values. */
  class NewPurchasePage {
    const user: Option<User>
    const queryAsset: Option<string>
    var isLoading: bool
    var isSubmitting: bool
    var availableAssets: seq<Asset>
    var selectedAsset: Option<Asset>
    var values: PurchaseValues

    /**
     * What the page keeps true: a logistics officer with a base only ever
     * lists, and only ever records purchases for, that base.
     */
    predicate Valid()
      reads this
    {
      HomeBase(user, LogisticsOfficer) != "" ==>
        values.base == HomeBase(user, LogisticsOfficer)
        && forall a :: a in availableAssets ==> a.base == HomeBase(user, LogisticsOfficer)
    }

    constructor (user: Option<User>, queryAsset: Option<string>, today: string)
      ensures Valid()
      ensures this.user == user && this.queryAsset == queryAsset
      ensures isLoading && !isSubmitting && availableAssets == [] && selectedAsset.None?
      ensures values == InitialValues(user, today)
    {
      this.user := user;
      this.queryAsset := queryAsset;
      isLoading := true;
      isSubmitting := false;
      availableAssets := [];
      selectedAsset := None;
      values := InitialValues(user, today);
    }

    /** Nothing for a role the guard refuses, the loading screen until the assets are in, then the form. */
    function ViewFor(): (v: View)
      reads this
      ensures v == Nothing <==> Guard(user).Deny?
      ensures v == FormView <==> Guard(user).Admit? && !isLoading
    {
      if user.Some? && user.value.role != Admin && user.value.role != LogisticsOfficer then Nothing
      else if isLoading then LoadingView
      else FormView
    }

    /** The base select is locked for a logistics officer with a base. */
    predicate BaseSelectLocked()
      reads this
    {
      HomeBase(user, LogisticsOfficer) != ""
    }

    /** The fetch effect runs only with a signed-in user, and starts loading. */
    method StartFetch() returns (sent: bool)
      modifies this
      ensures sent <==> user.Some?
      ensures isLoading == (sent || old(isLoading))
      ensures isSubmitting == old(isSubmitting) && availableAssets == old(availableAssets)
      ensures selectedAsset == old(selectedAsset) && values == old(values)
    {
      sent := user.Some?;
      if sent {
        isLoading := true;
      }
    }

    /**
     * The assets arrive: the list is narrowed for a logistics officer with a
     * base, and an asset named in the query that is on the list is selected,
     * its name, type and base copied into the form. Loading ends.
     */
    method AssetsLoaded(assets: seq<Asset>)
      requires Valid()
      modifies this
      ensures Valid()
      ensures !isLoading && isSubmitting == old(isSubmitting)
      ensures availableAssets == VisibleAssets(assets, user, LogisticsOfficer)
      ensures var pick := Preselect(availableAssets, queryAsset);
        if pick.Some? then
          selectedAsset == pick
          && values == old(values).(assetName := pick.value.name, assetType := pick.value.assetType, base := pick.value.base)
        else
          selectedAsset == old(selectedAsset) && values == old(values)
    {
      var filtered := assets;
      if user.Some? && user.value.role == LogisticsOfficer && user.value.assignedBase.Some? && user.value.assignedBase.value != "" {
        filtered := AtBase(assets, user.value.assignedBase.value);
      }
      availableAssets := filtered;
      if queryAsset.Some? && queryAsset.value != "" {
        var asset := FindById(filtered, queryAsset.value);
        if asset.Some? {
          selectedAsset := asset;
          values := values.(assetName := asset.value.name, assetType := asset.value.assetType, base := asset.value.base);
        }
      }
      isLoading := false;
    }

    /** The fetch fails: the list stays as it was and loading ends. */
    method AssetsFailed()
      modifies this
      ensures !isLoading
      ensures isSubmitting == old(isSubmitting) && availableAssets == old(availableAssets)
      ensures selectedAsset == old(selectedAsset) && values == old(values)
    {
      isLoading := false;
    }

    /** Typing in the form; the base only changes through an unlocked select. */
    method Edit(v: PurchaseValues)
      requires Valid() && (BaseSelectLocked() ==> v.base == values.base)
      modifies this
      ensures Valid()
      ensures values == v
      ensures isLoading == old(isLoading) && isSubmitting == old(isSubmitting)
      ensures availableAssets == old(availableAssets) && selectedAsset == old(selectedAsset)
    {
      values := v;
    }

    /** Submitting: Formik runs the handler only when the schema passes, and the handler sets `isSubmitting`. */
    method StartSubmit() returns (sent: bool)
      modifies this
      ensures sent <==> SchemaErrors(values) == {}
      ensures isSubmitting == (sent || old(isSubmitting))
      ensures isLoading == old(isLoading) && values == old(values)
      ensures availableAssets == old(availableAssets) && selectedAsset == old(selectedAsset)
    {
      sent := SchemaErrors(values) == {};
      if sent {
        isSubmitting := true;
      }
    }

    /** The create call settles: the new record's page, or the error toast; `isSubmitting` is cleared. */
    method FinishSubmit(reply: Reply) returns (o: SubmitOutcome)
      modifies this
      ensures o == CreateOutcome(true, reply, "/purchases", FailedText)
      ensures !isSubmitting
      ensures isLoading == old(isLoading) && values == old(values)
      ensures availableAssets == old(availableAssets) && selectedAsset == old(selectedAsset)
    {
      match reply {
        case Created(id) =>
          o := Navigate("/purchases/" + id);
        case Rejected(e) =>
          o := ErrorToast(if e.response.Some? && BodyError(e.response.value) != "" then BodyError(e.response.value) else FailedText);
      }
      isSubmitting := false;
    }
  }
}
