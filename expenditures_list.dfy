/**
 * The expenditure list (src/pages/expenditures/index.tsx): its filters,
 * which start scoped to a base commander's own base, its paging and sort
 * controls, and the query they make up.
 */
module ExpendituresList {
  import opened Wrappers
  import opened Session
  import opened Sorting
  import opened Queries

  /** The filter record; `base` can be undefined (None), as when a base commander has no assigned base. */
  datatype Filters = Filters(
    base: Option<string>, assetType: string, reason: string,
    startDate: string, endDate: string, search: string)

  /** `filters.base` used as a condition: defined and non-empty. */
  predicate BaseSet(fs: Filters) {
    fs.base.Some? && fs.base.value != ""
  }

  /**
   * The filters the page starts from and the Reset button restores: a base
   * commander's `assignedBase` as the base (whatever it is, even undefined),
   * '' for everyone else, and every other filter empty.
   */
  function InitialFilters(user: Option<User>): (fs: Filters)
    ensures HasRole(user, BaseCommander) ==> fs.base == user.value.assignedBase
    ensures !HasRole(user, BaseCommander) ==> fs.base == Some("")
    ensures fs.assetType == "" && fs.reason == "" && fs.startDate == "" && fs.endDate == "" && fs.search == ""
  {
    Filters(if HasRole(user, BaseCommander) then user.value.assignedBase else Some(""), "", "", "", "", "")
  }

  /** The base select is locked for a base commander. */
  predicate BaseSelectLocked(user: Option<User>) {
    HasRole(user, BaseCommander)
  }

  /** The parameter object of an expenditure request; None for a property the page did not set. */
  datatype ExpenditureRequest = ExpenditureRequest(
    sortBy: string, sortOrder: string, limit: int, skip: int,
    base: Option<string>, assetType: Option<string>, reason: Option<string>,
    startDate: Option<string>, endDate: Option<string>, search: Option<string>)

  /** The query for the current controls: the paging and sort properties, and each filter that is set. */
  function Query(sortBy: string, sortOrder: SortOrder, limit: int, page: int, fs: Filters): ExpenditureRequest {
    ExpenditureRequest(sortBy, OrderName(sortOrder), limit, Skip(page, limit),
      if BaseSet(fs) then fs.base else None,
      if fs.assetType != "" then Some(fs.assetType) else None,
      if fs.reason != "" then Some(fs.reason) else None,
      if fs.startDate != "" then Some(fs.startDate) else None,
      if fs.endDate != "" then Some(fs.endDate) else None,
      if fs.search != "" then Some(fs.search) else None)
  }

  /** A filter reaches the request exactly when it is set, unchanged; the dates go as typed. */
  lemma QuerySendsSetFilters(sortBy: string, sortOrder: SortOrder, limit: int, page: int, fs: Filters)
    ensures var q := Query(sortBy, sortOrder, limit, page, fs);
      (q.base.Some? <==> BaseSet(fs)) && (q.base.Some? ==> q.base == fs.base)
      && Sent(q.assetType, fs.assetType != "", fs.assetType)
      && Sent(q.reason, fs.reason != "", fs.reason)
      && Sent(q.startDate, fs.startDate != "", fs.startDate)
      && Sent(q.endDate, fs.endDate != "", fs.endDate)
      && Sent(q.search, fs.search != "", fs.search)
      && q.skip == Skip(page, limit) && q.limit == limit
  {
  }

  /**
   * Before any filter is touched, a base commander with a base asks only for
   * that base's expenditures, and everyone else asks for all bases.
   */
  lemma InitialQueryScope(user: Option<User>, sortBy: string, sortOrder: SortOrder, limit: int, page: int)
    ensures var q := Query(sortBy, sortOrder, limit, page, InitialFilters(user));
      (q.base.Some? <==> HasRole(user, BaseCommander) && HasBase(user.value))
      && (q.base.Some? ==> q.base == user.value.assignedBase)
      && q.assetType.None? && q.reason.None? && q.startDate.None? && q.endDate.None? && q.search.None?
  {
  }

  /** `canCreateExpenditure`: any of the three known roles. */
  predicate CanCreateExpenditure(user: Option<User>) {
    HasRole(user, Admin) || HasRole(user, BaseCommander) || HasRole(user, LogisticsOfficer)
  }

  /** Only a role outside the three, or nobody signed in, loses the "Record Expenditure" button. */
  lemma CreateButtonHidden(user: Option<User>)
    ensures !CanCreateExpenditure(user) <==> user.None? || user.value.role.Unrecognized?
  {
  }

  const BlueBadge := "bg-blue-100 text-blue-800"
  const PurpleBadge := "bg-purple-100 text-purple-800"
  const YellowBadge := "bg-yellow-100 text-yellow-800"
  const OrangeBadge := "bg-orange-100 text-orange-800"
  const RedBadge := "bg-red-100 text-red-800"
  const GrayBadge := "bg-gray-100 text-gray-800"

  const BadgeReasons := ["Training", "Operation", "Maintenance", "Damaged", "Lost"]

  /** The colour of a reason's badge: one per named reason, gray for any other. */
  function ReasonBadgeClass(reason: string): (c: string)
    ensures c == GrayBadge <==> reason !in BadgeReasons
  {
    if reason == "Training" then BlueBadge
    else if reason == "Operation" then PurpleBadge
    else if reason == "Maintenance" then YellowBadge
    else if reason == "Damaged" then OrangeBadge
    else if reason == "Lost" then RedBadge
    else GrayBadge
  }

  /** The five named reasons get five different badges. */
  lemma ReasonBadgesDistinct(a: string, b: string)
    requires a in BadgeReasons && b in BadgeReasons && a != b
    ensures ReasonBadgeClass(a) != ReasonBadgeClass(b)
  {
  }

  /** The page's state: the rows of the last request and the controls that shape the next. */
  class ExpendituresPage {
    const user: Option<User>
    var isLoading: bool
    var rowCount: nat
    var total: int
    var hasMore: bool
    var page: int
    var limit: int
    var filters: Filters
    var sortBy: string
    var sortOrder: SortOrder

    constructor (user: Option<User>)
      ensures this.user == user
      ensures isLoading && rowCount == 0 && total == 0 && !hasMore
      ensures page == 1 && limit == 10 && filters == InitialFilters(user)
      ensures sortBy == "expenditureDate" && sortOrder == Desc
    {
      this.user := user;
      isLoading := true;
      rowCount := 0;
      total := 0;
      hasMore := false;
      page := 1;
      limit := 10;
      filters := InitialFilters(user);
      sortBy := "expenditureDate";
      sortOrder := Desc;
    }

    /** The parameter object `fetchExpenditures` builds, property by property. */
    method RequestParams() returns (q: ExpenditureRequest)
      ensures q == Query(sortBy, sortOrder, limit, page, filters)
    {
      var fs := filters;
      q := ExpenditureRequest(sortBy, OrderName(sortOrder), limit, (page - 1) * limit,
        None, None, None, None, None, None);
      if fs.base.Some? && fs.base.value != "" {
        q := q.(base := fs.base);
      }
      if fs.assetType != "" {
        q := q.(assetType := Some(fs.assetType));
      }
      if fs.reason != "" {
        q := q.(reason := Some(fs.reason));
      }
      if fs.startDate != "" {
        q := q.(startDate := Some(fs.startDate));
      }
      if fs.endDate != "" {
        q := q.(endDate := Some(fs.endDate));
      }
      if fs.search != "" {
        q := q.(search := Some(fs.search));
      }
    }

    /** The request goes out: loading starts. */
    method StartFetch() returns (q: ExpenditureRequest)
      modifies this
      ensures q == Query(sortBy, sortOrder, limit, page, filters)
      ensures isLoading
      ensures rowCount == old(rowCount) && total == old(total) && hasMore == old(hasMore)
      ensures page == old(page) && limit == old(limit) && filters == old(filters)
      ensures sortBy == old(sortBy) && sortOrder == old(sortOrder)
    {
      q := RequestParams();
      isLoading := true;
    }

    /** The request settles: on success the rows, total and `hasMore` are replaced; loading ends either way. */
    method FinishFetch(reply: Option<(nat, int, bool)>)
      modifies this
      ensures !isLoading
      ensures reply.Some? ==> rowCount == reply.value.0 && total == reply.value.1 && hasMore == reply.value.2
      ensures reply.None? ==> rowCount == old(rowCount) && total == old(total) && hasMore == old(hasMore)
      ensures page == old(page) && limit == old(limit) && filters == old(filters)
      ensures sortBy == old(sortBy) && sortOrder == old(sortOrder)
    {
      if reply.Some? {
        rowCount := reply.value.0;
        total := reply.value.1;
        hasMore := reply.value.2;
      }
      isLoading := false;
    }

    /** A column header click: the rule of Sorting.NextSort; the page is kept. */
    method HandleSort(field: string)
      modifies this
      ensures SortState(sortBy, sortOrder) == NextSort(SortState(old(sortBy), old(sortOrder)), field)
      ensures page == old(page) && limit == old(limit) && filters == old(filters)
      ensures isLoading == old(isLoading) && rowCount == old(rowCount) && total == old(total) && hasMore == old(hasMore)
    {
      if sortBy == field {
        sortOrder := if sortOrder == Asc then Desc else Asc;
      } else {
        sortBy := field;
        sortOrder := Desc;
      }
    }

    /** New filters replace the old ones and the list goes back to page 1: the next request skips no rows. */
    method HandleFilterChange(newFilters: Filters)
      modifies this
      ensures filters == newFilters && page == 1
      ensures Query(sortBy, sortOrder, limit, page, filters).skip == 0
      ensures limit == old(limit) && sortBy == old(sortBy) && sortOrder == old(sortOrder)
      ensures isLoading == old(isLoading) && rowCount == old(rowCount) && total == old(total) && hasMore == old(hasMore)
    {
      filters := newFilters;
      page := 1;
    }

    method HandlePageChange(newPage: int)
      modifies this
      ensures page == newPage
      ensures limit == old(limit) && filters == old(filters) && sortBy == old(sortBy) && sortOrder == old(sortOrder)
      ensures isLoading == old(isLoading) && rowCount == old(rowCount) && total == old(total) && hasMore == old(hasMore)
    {
      page := newPage;
    }

    /** A new page size takes effect from page 1: the next request skips no rows. */
    method HandleLimitChange(newLimit: int)
      modifies this
      ensures limit == newLimit && page == 1
      ensures Query(sortBy, sortOrder, limit, page, filters).skip == 0
      ensures filters == old(filters) && sortBy == old(sortBy) && sortOrder == old(sortOrder)
      ensures isLoading == old(isLoading) && rowCount == old(rowCount) && total == old(total) && hasMore == old(hasMore)
    {
      limit := newLimit;
      page := 1;
    }

    /** The Reset button restores the initial filters; unlike a filter change, it leaves the page where it is. */
    method ResetFilters()
      modifies this
      ensures filters == InitialFilters(user)
      ensures page == old(page) && limit == old(limit) && sortBy == old(sortBy) && sortOrder == old(sortOrder)
      ensures isLoading == old(isLoading) && rowCount == old(rowCount) && total == old(total) && hasMore == old(hasMore)
    {
      filters := Filters(if user.Some? && user.value.role == BaseCommander then user.value.assignedBase else Some(""),
        "", "", "", "", "");
    }
  }
}
