/**
 * ui/components/MultiSelectableList.kt: the older selection list, which has
 * no mode flag of its own: the list is in selection mode exactly while some
 * item is selected.
 */
module LegacySelection {
  import opened Util
  import opened KotlinList

  class MultiSelectableList<T(==)> {
    /** `selectedItems`, in the order the items were selected. */
    var selected: seq<T>

    ghost predicate Valid()
      reads this
    {
      Distinct(selected)
    }

    /** `isInSelectionMode`: some item is selected. */
    function InSelectionMode(): (mode: bool)
      reads this
      ensures mode <==> selected != []
    {
      |selected| > 0
    }

    constructor ()
      ensures selected == [] && !InSelectionMode()
      ensures Valid()
    {
      selected := [];
    }

    /**
     * The item's `onClick`: in selection mode, toggle the item; otherwise
     * leave the selection alone and hand the item to `onItemClick`, returned
     * here as `clicked`. Deselecting the only selected item leaves selection
     * mode.
     */
    method Click(item: T) returns (clicked: Option<T>)
      requires Valid()
      modifies this
      ensures old(InSelectionMode()) ==> selected == Toggle(old(selected), item) && clicked == None
      ensures !old(InSelectionMode()) ==> selected == old(selected) && clicked == Some(item)
      ensures old(selected) == [item] ==> !InSelectionMode()
      ensures Valid()
    {
      if |selected| > 0 {
        ToggleDistinct(selected, item);
        if item in selected {
          selected := RemoveFirst(selected, item);
        } else {
          selected := selected + [item];
        }
        clicked := None;
      } else {
        clicked := Some(item);
      }
    }

    /** The item's `onLongClick`: outside selection mode, selecting the item enters it. */
    method LongClick(item: T)
      requires Valid()
      modifies this
      ensures !old(InSelectionMode()) ==> selected == [item] && InSelectionMode()
      ensures old(InSelectionMode()) ==> selected == old(selected)
      ensures Valid()
    {
      if |selected| == 0 {
        selected := selected + [item];
      }
    }
  }

  /**
   * Long-clicking an item and clicking it again leaves selection mode, and the
   * next click on it opens it.
   */
  method DeselectLast<T(==)>(item: T) returns (inSelectionMode: bool, clicked: Option<T>)
    ensures !inSelectionMode && clicked == Some(item)
  {
    var list := new MultiSelectableList<T>();
    list.LongClick(item);
    var first := list.Click(item);
    inSelectionMode := list.InSelectionMode();
    clicked := list.Click(item);
  }
}
