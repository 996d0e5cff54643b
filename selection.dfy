/**
 * ui/components/multiselect/MultiSelectableList.kt: the device list's
 * selection state machine. The caller owns a list of selected items and a
 * separate selection-mode flag; a long click enters selection mode, a click
 * in selection mode toggles an item, and a click outside it opens the item.
 */
module Selection {
  import opened Util
  import opened KotlinList

  class MultiSelectableList<T(==)> {
    /** `selectedItems`, in the order the items were selected. */
    var selected: seq<T>
    /** `selectionState.value`. */
    var inSelectionMode: bool

    /**
     * No item is selected twice, and outside selection mode nothing is
     * selected (the screen clears both together).
     */
    ghost predicate Valid()
      reads this
    {
      Distinct(selected) && (!inSelectionMode ==> selected == [])
    }

    /** The screen starts with an empty selection, outside selection mode. */
    constructor ()
      ensures selected == [] && !inSelectionMode
      ensures Valid()
    {
      selected := [];
      inSelectionMode := false;
    }

    /**
     * `handleItemClick`: in selection mode, toggle the item's membership and
     * stay in selection mode; otherwise leave the selection alone and hand the
     * item to `onItemClick`, returned here as `clicked`.
     */
    method Click(item: T) returns (clicked: Option<T>)
      requires Valid()
      modifies this
      ensures old(inSelectionMode) ==> selected == Toggle(old(selected), item) && inSelectionMode && clicked == None
      ensures !old(inSelectionMode) ==> selected == old(selected) && !inSelectionMode && clicked == Some(item)
      ensures Valid()
    {
      if inSelectionMode {
        ToggleDistinct(selected, item);
        if item in selected {
          selected := RemoveFirst(selected, item);
        } else {
          selected := selected + [item];
        }
        clicked := None;
      } else {
        clicked := Some(item);
      }
    }

    /** `handleItemLongClick`: outside selection mode, select the item and enter the mode. */
    method LongClick(item: T)
      requires Valid()
      modifies this
      ensures !old(inSelectionMode) ==> selected == old(selected) + [item] && selected == [item] && inSelectionMode
      ensures old(inSelectionMode) ==> selected == old(selected) && inSelectionMode
      ensures Valid()
    {
      if !inSelectionMode {
        selected := selected + [item];
        inSelectionMode := true;
      }
    }

    /** The screen's `clearSelection`: empty the selection and leave selection mode. */
    method ClearSelection()
      modifies this
      ensures selected == [] && !inSelectionMode
      ensures Valid()
    {
      selected := [];
      inSelectionMode := false;
    }
  }

  /**
   * Long-clicking an item and then clicking it again empties the selection
   * but stays in selection mode: only the screen leaves the mode.
   */
  method DeselectLast<T(==)>(item: T) returns (selected: seq<T>, inSelectionMode: bool)
    ensures selected == [] && inSelectionMode
  {
    var list := new MultiSelectableList<T>();
    list.LongClick(item);
    var clicked := list.Click(item);
    selected, inSelectionMode := list.selected, list.inSelectionMode;
  }

  /**
   * A click outside selection mode opens the item; after a long click on it,
   * a click on another item adds that one behind it, and a click on the same
   * item deselects it.
   */
  method OpenThenSelect<T(==)>(first: T, second: T) returns (clicked: Option<T>, selected: seq<T>)
    ensures clicked == Some(first)
    ensures first != second ==> selected == [first, second]
    ensures first == second ==> selected == []
  {
    var list := new MultiSelectableList<T>();
    clicked := list.Click(first);
    list.LongClick(first);
    var again := list.Click(second);
    selected := list.selected;
  }
}
