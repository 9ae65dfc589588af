/**
 * The activity-log page (src/pages/activity-logs/index.tsx): an Admin-only
 * list whose filters, page, page size and sort column become the query of
 * the log request.
 */
module ActivityLogs {
  import opened Wrappers
  import opened Session
  import opened Sorting
  import opened Queries
  import opened Guards

  /** The six filter inputs; `action` and `resourceType` are selects whose first option is 'All'. */
  datatype LogFilters = LogFilters(
    username: string, action: string, resourceType: string,
    resourceId: string, startDate: string, endDate: string)

  datatype FilterKey = UsernameKey | ActionKey | ResourceTypeKey | ResourceIdKey | StartDateKey | EndDateKey

  const NoFilters := LogFilters("", "", "", "", "", "")

  /** `{ ...prev, [name]: value }` for one of the six filter names. */
  function SetFilter(fs: LogFilters, k: FilterKey, value: string): (r: LogFilters)
    ensures k == UsernameKey ==> r == fs.(username := value)
    ensures k == ActionKey ==> r == fs.(action := value)
    ensures k == ResourceTypeKey ==> r == fs.(resourceType := value)
    ensures k == ResourceIdKey ==> r == fs.(resourceId := value)
    ensures k == StartDateKey ==> r == fs.(startDate := value)
    ensures k == EndDateKey ==> r == fs.(endDate := value)
  {
    match k
    case UsernameKey => fs.(username := value)
    case ActionKey => fs.(action := value)
    case ResourceTypeKey => fs.(resourceType := value)
    case ResourceIdKey => fs.(resourceId := value)
    case StartDateKey => fs.(startDate := value)
    case EndDateKey => fs.(endDate := value)
  }

  /**
   * The parameter object of a log request; an optional property the page
   * did not set is None. Dates travel as `new Date(raw).toISOString()`,
   * kept here as the raw input (the conversion is not modelled).
   */
  datatype LogRequest = LogRequest(
    limit: int, skip: int, sortBy: string, sortOrder: string,
    username: Option<string>, action: Option<string>, resourceType: Option<string>,
    resourceId: Option<string>, startDate: Option<IsoDate>, endDate: Option<IsoDate>)

  datatype IsoDate = IsoDate(raw: string)

  /** A select filter takes part in the request only when set to something other than 'All'. */
  predicate Selected(v: string) {
    v != "" && v != "All"
  }

  const GreenBadge := "bg-green-100 text-green-800"
  const BlueBadge := "bg-blue-100 text-blue-800"
  const PurpleBadge := "bg-purple-100 text-purple-800"
  const YellowBadge := "bg-yellow-100 text-yellow-800"
  const RedBadge := "bg-red-100 text-red-800"
  const IndigoBadge := "bg-indigo-100 text-indigo-800"
  const PinkBadge := "bg-pink-100 text-pink-800"
  const TealBadge := "bg-teal-100 text-teal-800"
  const GrayBadge := "bg-gray-100 text-gray-800"

  /** The actions the badge switch names, in its order. */
  const BadgeActions := ["Login", "Logout", "Create", "Update", "Delete", "Transfer", "Assign", "Return", "Failed Login"]

  /** The colour of an action's badge. */
  function ActionBadgeClass(action: string): (c: string)
    ensures c == GrayBadge <==> action !in BadgeActions
    ensures c == RedBadge <==> action == "Delete" || action == "Failed Login"
  {
    if action == "Login" then GreenBadge
    else if action == "Logout" then BlueBadge
    else if action == "Create" then PurpleBadge
    else if action == "Update" then YellowBadge
    else if action == "Delete" then RedBadge
    else if action == "Transfer" then IndigoBadge
    else if action == "Assign" then PinkBadge
    else if action == "Return" then TealBadge
    else if action == "Failed Login" then RedBadge
    else GrayBadge
  }

  /** Apart from 'Delete' and 'Failed Login', which share red, different named actions get different badges. */
  lemma BadgesTellActionsApart(a: string, b: string)
    requires a in BadgeActions && b in BadgeActions && a != b
    requires !(a in {"Delete", "Failed Login"} && b in {"Delete", "Failed Login"})
    ensures ActionBadgeClass(a) != ActionBadgeClass(b)
  {
  }

  /** The page's guard: a signed-in user whose role is not Admin goes to /dashboard. */
  function Guard(user: Option<User>): (g: GuardResult)
    ensures g.Deny? <==> user.Some? && user.value.role != Admin
    ensures g.Deny? ==> g.fallback == "/dashboard"
  {
    Check(user, r => r == Admin, "/dashboard")
  }

  datatype View = Nothing | LoadingView | LogsPanel

  /**
   * What the page renders: nothing for a non-Admin user (checked first), the
   * loading screen while the first page of logs is on its way, else the logs.
   */
  function ViewFor(user: Option<User>, isLoading: bool, logCount: nat): (v: View)
    ensures v == Nothing <==> Guard(user).Deny?
    ensures v == LoadingView <==> Guard(user) == Admit && isLoading && logCount == 0
  {
    if user.Some? && user.value.role != Admin then Nothing
    else if isLoading && logCount == 0 then LoadingView
    else LogsPanel
  }

  /** The query for the current controls: the paging and sort properties, and each filter that is set. */
  function Query(limit: int, page: int, sortBy: string, sortOrder: SortOrder, fs: LogFilters): LogRequest {
    LogRequest(limit, Skip(page, limit), sortBy, OrderName(sortOrder),
      if fs.username != "" then Some(fs.username) else None,
      if Selected(fs.action) then Some(fs.action) else None,
      if Selected(fs.resourceType) then Some(fs.resourceType) else None,
      if fs.resourceId != "" then Some(fs.resourceId) else None,
      if fs.startDate != "" then Some(IsoDate(fs.startDate)) else None,
      if fs.endDate != "" then Some(IsoDate(fs.endDate)) else None)
  }

  /**
   * The page size, offset and sort always reach the request; a text filter
   * exactly when it is non-empty; the two selects only when set to
   * something other than 'All'; dates go converted.
   */
  lemma QuerySendsSetFilters(limit: int, page: int, sortBy: string, sortOrder: SortOrder, fs: LogFilters)
    ensures var q := Query(limit, page, sortBy, sortOrder, fs);
      q.limit == limit && q.skip == Skip(page, limit) && q.sortBy == sortBy && q.sortOrder == OrderName(sortOrder)
      && Sent(q.username, fs.username != "", fs.username)
      && Sent(q.action, fs.action != "" && fs.action != "All", fs.action)
      && Sent(q.resourceType, fs.resourceType != "" && fs.resourceType != "All", fs.resourceType)
      && Sent(q.resourceId, fs.resourceId != "", fs.resourceId)
      && Sent(q.startDate, fs.startDate != "", IsoDate(fs.startDate))
      && Sent(q.endDate, fs.endDate != "", IsoDate(fs.endDate))
  {
  }

  /** Choosing 'All' in a select sends the same request as leaving it empty. */
  lemma AllIsNoFilter(limit: int, page: int, sortBy: string, sortOrder: SortOrder, fs: LogFilters)
    ensures Query(limit, page, sortBy, sortOrder, fs.(action := "All")) == Query(limit, page, sortBy, sortOrder, fs.(action := ""))
    ensures Query(limit, page, sortBy, sortOrder, fs.(resourceType := "All")) == Query(limit, page, sortBy, sortOrder, fs.(resourceType := ""))
  {
  }

  /** The page's state: the filters, the paging and sort controls, and what the last request returned. */
  class ActivityLogsPage {
    const user: Option<User>
    var isLoading: bool
    var logCount: nat
    var totalLogs: int
    var page: int
    var limit: int
    var filters: LogFilters
    var sortBy: string
    var sortOrder: SortOrder

    constructor (user: Option<User>)
      ensures this.user == user
      ensures isLoading && logCount == 0 && totalLogs == 0
      ensures page == 1 && limit == 20 && filters == NoFilters
      ensures sortBy == "timestamp" && sortOrder == Desc
    {
      this.user := user;
      isLoading := true;
      logCount := 0;
      totalLogs := 0;
      page := 1;
      limit := 20;
      filters := NoFilters;
      sortBy := "timestamp";
      sortOrder := Desc;
    }

    /** The query `fetchActivityLogs` builds, property by property, or None when the user is not an Admin and no request is made. */
    method RequestParams() returns (params: Option<LogRequest>)
      ensures params == if HasRole(user, Admin) then Some(Query(limit, page, sortBy, sortOrder, filters)) else None
    {
      if !HasRole(user, Admin) {
        return None;
      }
      var fs := filters;
      var q := LogRequest(limit, (page - 1) * limit, sortBy, OrderName(sortOrder),
        None, None, None, None, None, None);
      if fs.username != "" {
        q := q.(username := Some(fs.username));
      }
      if fs.action != "" && fs.action != "All" {
        q := q.(action := Some(fs.action));
      }
      if fs.resourceType != "" && fs.resourceType != "All" {
        q := q.(resourceType := Some(fs.resourceType));
      }
      if fs.resourceId != "" {
        q := q.(resourceId := Some(fs.resourceId));
      }
      if fs.startDate != "" {
        q := q.(startDate := Some(IsoDate(fs.startDate)));
      }
      if fs.endDate != "" {
        q := q.(endDate := Some(IsoDate(fs.endDate)));
      }
      params := Some(q);
    }

    /** The request goes out: loading starts, for an Admin only. */
    method StartFetch() returns (params: Option<LogRequest>)
      modifies this
      ensures params == if HasRole(user, Admin) then Some(Query(limit, page, sortBy, sortOrder, filters)) else None
      ensures isLoading == (params.Some? || old(isLoading))
      ensures logCount == old(logCount) && totalLogs == old(totalLogs)
      ensures page == old(page) && limit == old(limit) && filters == old(filters)
      ensures sortBy == old(sortBy) && sortOrder == old(sortOrder)
    {
      params := RequestParams();
      if params.Some? {
        isLoading := true;
      }
    }

    /** The request settles: the rows and total replace the old ones on success; loading ends either way. */
    method FinishFetch(reply: Option<(nat, int)>)
      modifies this
      ensures !isLoading
      ensures reply.Some? ==> logCount == reply.value.0 && totalLogs == reply.value.1
      ensures reply.None? ==> logCount == old(logCount) && totalLogs == old(totalLogs)
      ensures page == old(page) && limit == old(limit) && filters == old(filters)
      ensures sortBy == old(sortBy) && sortOrder == old(sortOrder)
    {
      if reply.Some? {
        logCount := reply.value.0;
        totalLogs := reply.value.1;
      }
      isLoading := false;
    }

    /** One filter takes the new value and the list goes back to page 1: the next request skips no rows. */
    method HandleFilterChange(k: FilterKey, value: string)
      modifies this
      ensures filters == SetFilter(old(filters), k, value) && page == 1
      ensures Query(limit, page, sortBy, sortOrder, filters).skip == 0
      ensures limit == old(limit) && sortBy == old(sortBy) && sortOrder == old(sortOrder)
      ensures isLoading == old(isLoading) && logCount == old(logCount) && totalLogs == old(totalLogs)
    {
      filters := SetFilter(filters, k, value);
      page := 1;
    }

    method HandlePageChange(newPage: int)
      modifies this
      ensures page == newPage
      ensures limit == old(limit) && filters == old(filters) && sortBy == old(sortBy) && sortOrder == old(sortOrder)
      ensures isLoading == old(isLoading) && logCount == old(logCount) && totalLogs == old(totalLogs)
    {
      page := newPage;
    }

    /** A new page size takes effect from page 1: the next request skips no rows. */
    method HandleLimitChange(newLimit: int)
      modifies this
      ensures limit == newLimit && page == 1
      ensures Query(limit, page, sortBy, sortOrder, filters).skip == 0
      ensures filters == old(filters) && sortBy == old(sortBy) && sortOrder == old(sortOrder)
      ensures isLoading == old(isLoading) && logCount == old(logCount) && totalLogs == old(totalLogs)
    {
      limit := newLimit;
      page := 1;
    }

    /** The sort select: the rule of Sorting.NextSort; the page is kept. */
    method HandleSortChange(field: string)
      modifies this
      ensures SortState(sortBy, sortOrder) == NextSort(SortState(old(sortBy), old(sortOrder)), field)
      ensures page == old(page) && limit == old(limit) && filters == old(filters)
      ensures isLoading == old(isLoading) && logCount == old(logCount) && totalLogs == old(totalLogs)
    {
      if sortBy == field {
        sortOrder := if sortOrder == Asc then Desc else Asc;
      } else {
        sortBy := field;
        sortOrder := Desc;
      }
    }

    /** The arrow button next to the select flips the order and keeps the column. */
    method ToggleSortOrder()
      modifies this
      ensures sortBy == old(sortBy) && sortOrder == Flip(old(sortOrder))
      ensures page == old(page) && limit == old(limit) && filters == old(filters)
      ensures isLoading == old(isLoading) && logCount == old(logCount) && totalLogs == old(totalLogs)
    {
      sortOrder := if sortOrder == Asc then Desc else Asc;
    }
  }
}
