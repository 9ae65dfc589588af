/**
 * What the list pages' request parameters have in common: the sort order
 * as the backend spells it, the offset arithmetic of their pagination, and
 * the rule that an optional parameter is sent only when its filter is set.
 */
module Queries {
  import opened Wrappers
  import opened Sorting

  /** The order as the request spells it. */
  function OrderName(o: SortOrder): string {
    if o == Asc then "asc" else "desc"
  }

  /** The number of rows the backend skips for a 1-based page: `(page - 1) * limit`. */
  function Skip(page: int, limit: int): int {
    (page - 1) * limit
  }

  /**
   * An optional property of a parameter object (None when the object does
   * not have it) is present exactly when `present`, and then holds `v`.
   */
  predicate Sent<T(==)>(o: Option<T>, present: bool, v: T) {
    (o.Some? <==> present) && (o.Some? ==> o.value == v)
  }
}
