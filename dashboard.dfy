/**
 * The Admin dashboard (src/pages/dashboard.tsx): its guard, its optional
 * filters and the query they make up, the base commander's base filter,
 * and the summary figures it shows.
 */
module Dashboard {
  import opened Wrappers
  import opened Session
  import opened Guards

  /** The page's guard: a signed-in user whose role is not Admin goes to /assets. */
  function Guard(user: Option<User>): (g: GuardResult)
    ensures g.Deny? <==> user.Some? && user.value.role != Admin
    ensures g.Deny? ==> g.fallback == "/assets"
  {
    Check(user, r => r == Admin, "/assets")
  }

  /** An optional filter used as a condition: defined and non-empty. */
  predicate IsSet(f: Option<string>) {
    f.Some? && f.value != ""
  }

  /** `e.target.value || undefined`: what a select or date input stores; the empty option stores nothing. */
  function FromInput(v: string): (f: Option<string>)
    ensures f.None? <==> v == ""
    ensures f.Some? ==> f.value == v
  {
    if v != "" then Some(v) else None
  }

  /** `value={filter || ''}`: what the input shows for a stored filter. */
  function Shown(f: Option<string>): string {
    if IsSet(f) then f.value else ""
  }

  /** Storing a choice and showing it gives the choice back; a stored filter is always unset or set, never ''. */
  lemma InputRoundTrip(v: string, f: Option<string>)
    ensures Shown(FromInput(v)) == v
    ensures f != Some("") ==> FromInput(Shown(f)) == f
    ensures FromInput(v) != Some("")
  {
  }

  datatype DateRange = DateRange(startDate: Option<string>, endDate: Option<string>)

  /** The base filter the page starts with: a base commander's `assignedBase` (itself possibly undefined), nothing otherwise. */
  function InitialBaseFilter(user: Option<User>): (f: Option<string>)
    ensures HasRole(user, BaseCommander) ==> f == user.value.assignedBase
    ensures !HasRole(user, BaseCommander) ==> f.None?
  {
    if HasRole(user, BaseCommander) then user.value.assignedBase else None
  }

  /** The base select is offered to every role except the base commander. */
  predicate BaseSelectShown(user: Option<User>) {
    !HasRole(user, BaseCommander)
  }

  /** The parameter object of a dashboard request; None for a property the page did not set. */
  datatype DashboardRequest = DashboardRequest(
    base: Option<string>, assetType: Option<string>, startDate: Option<string>, endDate: Option<string>)

  /** The request for the current filters: exactly the filters that are set. */
  function Query(baseFilter: Option<string>, assetTypeFilter: Option<string>, range: DateRange): (q: DashboardRequest)
    ensures q.base.Some? <==> IsSet(baseFilter)
    ensures q.assetType.Some? <==> IsSet(assetTypeFilter)
    ensures q.startDate.Some? <==> IsSet(range.startDate)
    ensures q.endDate.Some? <==> IsSet(range.endDate)
    ensures q.base.Some? ==> q.base == baseFilter
    ensures q.assetType.Some? ==> q.assetType == assetTypeFilter
    ensures q.startDate.Some? ==> q.startDate == range.startDate
    ensures q.endDate.Some? ==> q.endDate == range.endDate
  {
    DashboardRequest(
      if IsSet(baseFilter) then baseFilter else None,
      if IsSet(assetTypeFilter) then assetTypeFilter else None,
      if IsSet(range.startDate) then range.startDate else None,
      if IsSet(range.endDate) then range.endDate else None)
  }

  /**
   * The first request of a base commander with a base is scoped to that
   * base; with no base (or for any other role) it covers every base.
   */
  lemma InitialQueryScope(user: Option<User>)
    ensures var q := Query(InitialBaseFilter(user), None, DateRange(None, None));
      (q.base.Some? <==> HasRole(user, BaseCommander) && HasBase(user.value))
      && (q.base.Some? ==> q.base == user.value.assignedBase)
      && q.assetType.None? && q.startDate.None? && q.endDate.None?
  {
  }

  /** The four figures on the summary cards. */
  datatype Summary = Summary(totalAssets: int, totalAvailable: int, totalAssigned: int, totalExpended: int)

  /**
   * `data?.summary.x || 0` for the four cards, in their order: the figures
   * of the loaded data, or zeros when there is none.
   */
  function CardValues(data: Option<Summary>): (vs: seq<int>)
    ensures |vs| == 4
    ensures data.None? ==> vs == [0, 0, 0, 0]
    ensures data.Some? ==> vs == [data.value.totalAssets, data.value.totalAvailable, data.value.totalAssigned, data.value.totalExpended]
  {
    match data
    case None => [0, 0, 0, 0]
    case Some(s) =>
      [if s.totalAssets != 0 then s.totalAssets else 0,
       if s.totalAvailable != 0 then s.totalAvailable else 0,
       if s.totalAssigned != 0 then s.totalAssigned else 0,
       if s.totalExpended != 0 then s.totalExpended else 0]
  }

  datatype View = LoadingView | DashboardPanel

  /** The page's state: its filters, the loaded data and the loading flag. */
  class DashboardPage {
    const user: Option<User>
    var baseFilter: Option<string>
    var assetTypeFilter: Option<string>
    var dateRange: DateRange
    var isLoading: bool
    var data: Option<Summary>

    constructor (user: Option<User>)
      ensures this.user == user
      ensures baseFilter == InitialBaseFilter(user) && assetTypeFilter.None? && dateRange == DateRange(None, None)
      ensures isLoading && data.None?
    {
      this.user := user;
      baseFilter := if user.Some? && user.value.role == BaseCommander then user.value.assignedBase else None;
      assetTypeFilter := None;
      dateRange := DateRange(None, None);
      isLoading := true;
      data := None;
    }

    /** The loading screen until data has been fetched, then the dashboard. */
    function ViewFor(): (v: View)
      reads this
      ensures v == LoadingView <==> isLoading
    {
      if isLoading then LoadingView else DashboardPanel
    }

    /** The query `fetchDashboardData` builds, property by property, or None when the user is not an Admin. */
    method RequestParams() returns (params: Option<DashboardRequest>)
      ensures params == if HasRole(user, Admin) then Some(Query(baseFilter, assetTypeFilter, dateRange)) else None
    {
      if !HasRole(user, Admin) {
        return None;
      }
      var q := DashboardRequest(None, None, None, None);
      if baseFilter.Some? && baseFilter.value != "" {
        q := q.(base := baseFilter);
      }
      if assetTypeFilter.Some? && assetTypeFilter.value != "" {
        q := q.(assetType := assetTypeFilter);
      }
      if dateRange.startDate.Some? && dateRange.startDate.value != "" {
        q := q.(startDate := dateRange.startDate);
      }
      if dateRange.endDate.Some? && dateRange.endDate.value != "" {
        q := q.(endDate := dateRange.endDate);
      }
      params := Some(q);
    }

    /**
     * The fetch effect: only an Admin's page sends a request and starts
     * loading. Nothing else ever clears `isLoading`, so a non-Admin page
     * stays on the loading screen until the guard's redirect takes it away.
     */
    method StartFetch() returns (params: Option<DashboardRequest>)
      modifies this
      ensures params == if HasRole(user, Admin) then Some(Query(baseFilter, assetTypeFilter, dateRange)) else None
      ensures isLoading == (params.Some? || old(isLoading))
      ensures baseFilter == old(baseFilter) && assetTypeFilter == old(assetTypeFilter) && dateRange == old(dateRange)
      ensures data == old(data)
    {
      params := RequestParams();
      if params.Some? {
        isLoading := true;
      }
    }

    /** The request settles: the data is replaced on success and kept on failure; loading ends either way. */
    method FinishFetch(reply: Option<Summary>)
      modifies this
      ensures !isLoading
      ensures data == if reply.Some? then reply else old(data)
      ensures baseFilter == old(baseFilter) && assetTypeFilter == old(assetTypeFilter) && dateRange == old(dateRange)
    {
      if reply.Some? {
        data := reply;
      }
      isLoading := false;
    }

    /** The base commander effect: a base commander with a base filters on it. */
    method ApplyCommanderBase()
      modifies this
      ensures baseFilter == if HasRole(user, BaseCommander) && HasBase(user.value) then user.value.assignedBase else old(baseFilter)
      ensures assetTypeFilter == old(assetTypeFilter) && dateRange == old(dateRange)
      ensures isLoading == old(isLoading) && data == old(data)
    {
      if user.Some? && user.value.role == BaseCommander && user.value.assignedBase.Some? && user.value.assignedBase.value != "" {
        baseFilter := user.value.assignedBase;
      }
    }

    method SelectBase(v: string)
      modifies this
      ensures baseFilter == FromInput(v)
      ensures assetTypeFilter == old(assetTypeFilter) && dateRange == old(dateRange)
      ensures isLoading == old(isLoading) && data == old(data)
    {
      baseFilter := if v != "" then Some(v) else None;
    }

    method SelectAssetType(v: string)
      modifies this
      ensures assetTypeFilter == FromInput(v)
      ensures baseFilter == old(baseFilter) && dateRange == old(dateRange)
      ensures isLoading == old(isLoading) && data == old(data)
    {
      assetTypeFilter := if v != "" then Some(v) else None;
    }

    /** `setDateRange(prev => ({ ...prev, startDate: v || undefined }))`: the end date is kept. */
    method SetStartDate(v: string)
      modifies this
      ensures dateRange == DateRange(FromInput(v), old(dateRange.endDate))
      ensures baseFilter == old(baseFilter) && assetTypeFilter == old(assetTypeFilter)
      ensures isLoading == old(isLoading) && data == old(data)
    {
      dateRange := dateRange.(startDate := if v != "" then Some(v) else None);
    }

    method SetEndDate(v: string)
      modifies this
      ensures dateRange == DateRange(old(dateRange.startDate), FromInput(v))
      ensures baseFilter == old(baseFilter) && assetTypeFilter == old(assetTypeFilter)
      ensures isLoading == old(isLoading) && data == old(data)
    {
      dateRange := dateRange.(endDate := if v != "" then Some(v) else None);
    }
  }
}
