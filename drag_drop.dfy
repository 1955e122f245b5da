// The drop guard the task and step lists share. The element a drop lands on
// is resolved by the browser; here it arrives as `target`: `None` when the
// drop is not over a list item, otherwise that item's position among its
// siblings (-1 if the lookup fails).

module DragDrop {
  import opened Base

  /** The position `onDrop` asks the store to move the dragged item to, if
      any: only while an item is being dragged, over an item, at a found
      position other than the one it was dragged from. */
  function DropTarget(dragging: bool, draggedIndex: int, target: Option<int>): (r: Option<int>)
    ensures r.Some? ==> dragging && target == r && r.value != -1 && r.value != draggedIndex
    ensures dragging && target.Some? && target.value != -1 && target.value != draggedIndex ==> r == target
  {
    if !dragging then None
    else if target.None? then None
    else if target.value != -1 && target.value != draggedIndex then target
    else None
  }
}
