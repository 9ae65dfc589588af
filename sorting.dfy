/** The column-sort state shared by the activity-log and expenditure lists. */
module Sorting {

  datatype SortOrder = Asc | Desc

  /** `sortOrder === 'asc' ? 'desc' : 'asc'`. */
  function Flip(o: SortOrder): (r: SortOrder)
    ensures r != o
  {
    if o == Asc then Desc else Asc
  }

  datatype SortState = SortState(sortBy: string, order: SortOrder)

  /**
   * Clicking the column `field`: the current column flips its order; any
   * other column becomes the sort column, descending.
   */
  function NextSort(s: SortState, field: string): (r: SortState)
    ensures r.sortBy == field
    ensures s.sortBy == field ==> r.order == Flip(s.order)
    ensures s.sortBy != field ==> r.order == Desc
  {
    if s.sortBy == field then SortState(s.sortBy, Flip(s.order)) else SortState(field, Desc)
  }

  /** Two clicks on the current column restore the state. */
  lemma SameColumnTwice(s: SortState)
    ensures NextSort(NextSort(s, s.sortBy), s.sortBy) == s
  {
  }

  /** Two clicks on a new column leave it ascending. */
  lemma NewColumnTwice(s: SortState, field: string)
    requires field != s.sortBy
    ensures NextSort(NextSort(s, field), field) == SortState(field, Asc)
  {
  }
}
