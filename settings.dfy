/**
 * The system-settings page (src/pages/settings/index.tsx): the settings
 * record, the asset-type and base lists an administrator edits, the
 * maintenance-mode switch, and the page's Admin-only guard.
 */
module Settings {
  import opened Wrappers
  import opened Session
  import opened Text
  import opened Lists
  import opened Guards
  import opened Toasts

  datatype SystemSettings = SystemSettings(
    systemName: string, organizationName: string, logo: string, theme: string,
    defaultCurrency: string, dateFormat: string, timeFormat: string, timezone: string,
    emailNotifications: bool, maintenanceMode: bool,
    assetTypes: seq<string>, bases: seq<string>)

  /** The settings the page starts from and reloads (there is no settings service call). */
  const MockSettings := SystemSettings(
    "Military Asset Management System", "Department of Defense", "/logo.png", "default",
    "USD", "MM/DD/YYYY", "12h", "America/New_York",
    true, false,
    ["Weapon", "Vehicle", "Equipment", "Ammunition", "Medical", "Food"],
    ["Base Alpha", "Base Bravo", "Base Charlie"])

  /** A list an administrator can have built: no duplicates, and every entry non-empty and already trimmed. */
  predicate WellFormedList(xs: seq<string>) {
    Distinct(xs) && forall x :: x in xs ==> x != "" && Trimmed(x)
  }

  lemma MockSettingsWellFormed()
    ensures WellFormedList(MockSettings.assetTypes) && WellFormedList(MockSettings.bases)
  {
    MockAssetTypesWellFormed();
    MockBasesWellFormed();
  }

  lemma MockAssetTypesWellFormed()
    ensures WellFormedList(MockSettings.assetTypes)
  {
    var xs := MockSettings.assetTypes;
    forall i, j | 0 <= i < j < |xs| ensures xs[i] != xs[j] {
      assert xs[i][0] != xs[j][0];
    }
    forall i | 0 <= i < |xs| ensures xs[i] != "" && Trimmed(xs[i]) {
      PrintableNotSpace(xs[i][0]);
      PrintableNotSpace(xs[i][|xs[i]| - 1]);
    }
  }

  lemma MockBasesWellFormed()
    ensures WellFormedList(MockSettings.bases)
  {
    var xs := MockSettings.bases;
    forall i, j | 0 <= i < j < |xs| ensures xs[i] != xs[j] {
      assert xs[i][5] != xs[j][5];
    }
    forall i | 0 <= i < |xs| ensures xs[i] != "" && Trimmed(xs[i]) {
      PrintableNotSpace(xs[i][0]);
      PrintableNotSpace(xs[i][|xs[i]| - 1]);
    }
  }

  /**
   * The add handlers' list step: the trimmed input appended at the end, or
   * None when it is blank or already listed (both leave the list alone).
   */
  function AddEntry(xs: seq<string>, input: string): (r: Option<seq<string>>)
    ensures r.None? <==> Trim(input) == "" || Trim(input) in xs
    ensures r.Some? ==> |r.value| == |xs| + 1 && r.value[..|xs|] == xs && r.value[|xs|] == Trim(input)
  {
    var v := Trim(input);
    if v == "" || v in xs then None else Some(xs + [v])
  }

  /** The three toasts of one add handler. */
  datatype AddTexts = AddTexts(blank: string, duplicate: string, added: string)

  /** What an add handler leaves behind: the list, the text input, and the toast raised. */
  datatype AddResult = AddResult(list: seq<string>, input: string, toast: Toast)

  /**
   * An add handler on one list: a blank input raises the blank error and a
   * listed one the duplicate error, both leaving list and input alone;
   * otherwise the trimmed input is appended, the input cleared and success raised.
   */
  function Add(xs: seq<string>, input: string, texts: AddTexts): (a: AddResult)
    ensures Trim(input) == "" ==> a == AddResult(xs, input, Error(texts.blank))
    ensures Trim(input) != "" && Trim(input) in xs ==> a == AddResult(xs, input, Error(texts.duplicate))
    ensures Trim(input) != "" && Trim(input) !in xs ==> a == AddResult(xs + [Trim(input)], "", Success(texts.added))
  {
    match AddEntry(xs, input)
    case Some(ys) => AddResult(ys, "", Success(texts.added))
    case None => AddResult(xs, input, Error(if Trim(input) == "" then texts.blank else texts.duplicate))
  }

  /** An accepted entry is exactly the input with its surrounding whitespace removed, so it never needs trimming again. */
  lemma AddedEntryTrimmed(xs: seq<string>, input: string)
    requires AddEntry(xs, input).Some?
    ensures var v := AddEntry(xs, input).value[|xs|];
      v != "" && Trimmed(v) && Trim(v) == v && v !in xs
  {
    TrimIdempotent(input);
  }

  /** Adding keeps a list well formed. */
  lemma AddKeepsWellFormed(xs: seq<string>, input: string, texts: AddTexts)
    requires WellFormedList(xs)
    ensures WellFormedList(Add(xs, input, texts).list)
  {
    if AddEntry(xs, input).Some? {
      AppendFreshKeepsDistinct(xs, Trim(input));
    }
  }

  /** The same input a second time is refused as a duplicate. */
  lemma AddTwiceRejected(xs: seq<string>, input: string)
    requires AddEntry(xs, input).Some?
    ensures AddEntry(AddEntry(xs, input).value, input).None?
  {
    assert Trim(input) == AddEntry(xs, input).value[|xs|];
  }

  /** Removing what was just added gives the list back. */
  lemma {:induction false} RemoveUndoesAdd(xs: seq<string>, input: string)
    requires AddEntry(xs, input).Some?
    ensures Without(AddEntry(xs, input).value, Trim(input)) == xs
  {
    var v := Trim(input);
    WithoutAppend(xs, [v], v);
    assert Without([v], v) == [];
  }

  /** Removing keeps a list well formed. */
  lemma RemoveKeepsWellFormed(xs: seq<string>, x: string)
    requires WellFormedList(xs)
    ensures WellFormedList(Without(xs, x))
  {
    WithoutKeepsDistinct(xs, x);
  }

  /** The pushes of the page's guard: a signed-in user whose role is not Admin goes to /dashboard. */
  function Guard(user: Option<User>): (g: GuardResult)
    ensures g.Deny? <==> user.Some? && user.value.role != Admin
    ensures g.Deny? ==> g.fallback == "/dashboard"
  {
    Check(user, r => r == Admin, "/dashboard")
  }

  datatype View = LoadingView | Nothing | Panel

  /** What the page renders: the loading screen first, then nothing for a non-Admin user, else the settings tabs. */
  function ViewFor(isLoading: bool, user: Option<User>): (v: View)
    ensures v == Panel <==> !isLoading && Guard(user) == Admit
    ensures v == Nothing <==> !isLoading && Guard(user).Deny?
  {
    if isLoading then LoadingView
    else if user.Some? && user.value.role != Admin then Nothing
    else Panel
  }

  /** A non-Admin user is sent to the dashboard and never sees the settings. */
  lemma NonAdminNeverSeesSettings(isLoading: bool, user: Option<User>)
    requires user.Some? && user.value.role != Admin
    ensures Pushes(Guard(user)) == ["/dashboard"]
    ensures ViewFor(isLoading, user) != Panel
  {
  }

  const AssetTypeBlankText := "Please enter an asset type"
  const AssetTypeExistsText := "Asset type already exists"
  const AssetTypeAddedText := "Asset type added successfully"
  const AssetTypeRemovedText := "Asset type removed successfully"
  const BaseBlankText := "Please enter a base name"
  const BaseExistsText := "Base already exists"
  const BaseAddedText := "Base added successfully"
  const BaseRemovedText := "Base removed successfully"
  const AssetTypeTexts := AddTexts(AssetTypeBlankText, AssetTypeExistsText, AssetTypeAddedText)
  const BaseTexts := AddTexts(BaseBlankText, BaseExistsText, BaseAddedText)

  /** The toast the maintenance switch raises, worded from the mode before the switch. */
  function MaintenanceText(wasOn: bool): string {
    "Maintenance mode " + (if wasOn then "disabled" else "enabled")
  }

  /** The page's state: the settings record, the two text inputs and the loading flag. */
  class SettingsPage {
    var isLoading: bool
    var settings: SystemSettings
    var newAssetType: string
    var newBase: string

    /** Both lists stay free of duplicates and of untrimmed or empty entries. */
    ghost predicate Valid()
      reads this
    {
      WellFormedList(settings.assetTypes) && WellFormedList(settings.bases)
    }

    constructor ()
      ensures Valid()
      ensures isLoading && settings == MockSettings && newAssetType == "" && newBase == ""
    {
      isLoading := true;
      settings := MockSettings;
      newAssetType := "";
      newBase := "";
      MockSettingsWellFormed();
    }

    /** The load effect's timer callback: the mock settings are installed and loading ends. */
    method SettingsLoaded()
      modifies this
      ensures Valid()
      ensures !isLoading && settings == MockSettings
      ensures newAssetType == old(newAssetType) && newBase == old(newBase)
    {
      settings := MockSettings;
      isLoading := false;
      MockSettingsWellFormed();
    }

    method EditNewAssetType(value: string)
      modifies this
      ensures newAssetType == value
      ensures settings == old(settings) && newBase == old(newBase) && isLoading == old(isLoading)
    {
      newAssetType := value;
    }

    method EditNewBase(value: string)
      modifies this
      ensures newBase == value
      ensures settings == old(settings) && newAssetType == old(newAssetType) && isLoading == old(isLoading)
    {
      newBase := value;
    }

    /**
     * The asset-type add handler: `Add` on the asset-type list and its input,
     * with the asset-type toasts. No other setting changes.
     */
    method AddAssetType() returns (t: Toast)
      requires Valid()
      modifies this
      ensures Valid()
      ensures var a := Add(old(settings.assetTypes), old(newAssetType), AssetTypeTexts);
        settings == old(settings).(assetTypes := a.list) && newAssetType == a.input && t == a.toast
      ensures newBase == old(newBase) && isLoading == old(isLoading)
    {
      var a := Add(settings.assetTypes, newAssetType, AssetTypeTexts);
      AddKeepsWellFormed(settings.assetTypes, newAssetType, AssetTypeTexts);
      var others := settings.bases;
      assert WellFormedList(others);
      settings := settings.(assetTypes := a.list);
      assert settings.bases == others;
      newAssetType := a.input;
      t := a.toast;
    }

    /** Every occurrence of `x` leaves the list; the others keep their order; nothing else changes. */
    method RemoveAssetType(x: string) returns (t: Toast)
      requires Valid()
      modifies this
      ensures Valid()
      ensures settings == old(settings).(assetTypes := Without(old(settings.assetTypes), x))
      ensures t == Success(AssetTypeRemovedText)
      ensures newAssetType == old(newAssetType) && newBase == old(newBase) && isLoading == old(isLoading)
    {
      RemoveKeepsWellFormed(settings.assetTypes, x);
      settings := settings.(assetTypes := Without(settings.assetTypes, x));
      t := Success(AssetTypeRemovedText);
    }

    /** The base add handler: `Add` on the base list and its input, with the base toasts. */
    method AddBase() returns (t: Toast)
      requires Valid()
      modifies this
      ensures Valid()
      ensures var a := Add(old(settings.bases), old(newBase), BaseTexts);
        settings == old(settings).(bases := a.list) && newBase == a.input && t == a.toast
      ensures newAssetType == old(newAssetType) && isLoading == old(isLoading)
    {
      var a := Add(settings.bases, newBase, BaseTexts);
      AddKeepsWellFormed(settings.bases, newBase, BaseTexts);
      var others := settings.assetTypes;
      assert WellFormedList(others);
      settings := settings.(bases := a.list);
      assert settings.assetTypes == others;
      newBase := a.input;
      t := a.toast;
    }

    method RemoveBase(x: string) returns (t: Toast)
      requires Valid()
      modifies this
      ensures Valid()
      ensures settings == old(settings).(bases := Without(old(settings.bases), x))
      ensures t == Success(BaseRemovedText)
      ensures newAssetType == old(newAssetType) && newBase == old(newBase) && isLoading == old(isLoading)
    {
      RemoveKeepsWellFormed(settings.bases, x);
      settings := settings.(bases := Without(settings.bases, x));
      t := Success(BaseRemovedText);
    }

    /** Only the maintenance flag flips; the toast names the mode the switch leaves behind. */
    method ToggleMaintenanceMode() returns (t: Toast)
      requires Valid()
      modifies this
      ensures Valid()
      ensures settings == old(settings).(maintenanceMode := !old(settings.maintenanceMode))
      ensures t == Success(MaintenanceText(old(settings.maintenanceMode)))
      ensures newAssetType == old(newAssetType) && newBase == old(newBase) && isLoading == old(isLoading)
    {
      t := Success(MaintenanceText(settings.maintenanceMode));
      settings := settings.(maintenanceMode := !settings.maintenanceMode);
    }
  }

  /** The switch's toast describes the new mode: "enabled" exactly when maintenance is now on. */
  lemma MaintenanceTextNamesNewMode(wasOn: bool)
    ensures MaintenanceText(wasOn) == "Maintenance mode enabled" <==> !wasOn
    ensures MaintenanceText(wasOn) == "Maintenance mode disabled" <==> wasOn
  {
  }
}
