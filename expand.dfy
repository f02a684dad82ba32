/**
 * The expandable rows of the list components: `expandedId` holds the id of
 * the one row whose details are open, or nothing.
 */
module Expand {
  import opened Options

  /** `toggleExpand(id)`: `expandedId === id ? null : id`. */
  function ToggleExpanded(current: Option<int>, id: int): (next: Option<int>)
    ensures next == Some(id) <==> current != Some(id)
    ensures next.None? <==> current == Some(id)
  {
    if current == Some(id) then None else Some(id)
  }

  /**
   * Toggling the same row twice restores the previous value when no row or
   * that same row was open.
   */
  lemma ToggleTwiceRestores(current: Option<int>, id: int)
    requires current.None? || current == Some(id)
    ensures ToggleExpanded(ToggleExpanded(current, id), id) == current
  {
  }

  /**
   * When another row is open, toggling a row twice closes every row: the
   * first toggle opens it in place of the other, the second closes it.
   */
  lemma ToggleTwiceFromOtherRowCloses(other: int, id: int)
    requires other != id
    ensures ToggleExpanded(ToggleExpanded(Some(other), id), id) == None
  {
  }
}
