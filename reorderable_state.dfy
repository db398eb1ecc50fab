/**
 * The reorder engine that reads a lazy list's visible items (AkariReorderableState.kt): the
 * dragged item's centre must fall inside another visible item's inclusive extent.
 */
module ReorderableState {
  import opened Wrappers
  import opened Search
  import opened DragEvents
  import opened LazyLayout

  /** `offset + dragOffset + size / 2f`: where the dragged item's centre is drawn. */
  function DragMidPoint(item: ItemInfo, dragOffset: real): real {
    item.offset as real + dragOffset + item.size as real / 2.0
  }

  /** `midPoint in offset..(offset + size)`. */
  predicate ContainsPoint(item: ItemInfo, y: real) {
    item.offset as real <= y <= (item.offset + item.size) as real
  }

  /** A visible item other than the dragged one whose extent contains the dragged centre `mid`. */
  predicate IsTarget(item: ItemInfo, from: int, mid: real) {
    item.index != from && ContainsPoint(item, mid)
  }

  /**
   * The position of the swap target among the visible items: the first item in list order, other
   * than the dragged one, whose extent contains the dragged centre; `None` when the dragged item
   * is not visible or no item qualifies.
   */
  function ReorderTarget(items: seq<ItemInfo>, from: int, dragOffset: real): (r: Option<nat>)
    ensures r.Some? ==> VisiblePosition(items, from).Some? && r.value < |items|
    ensures r.Some? ==>
      var mid := DragMidPoint(items[VisiblePosition(items, from).value], dragOffset);
      && IsTarget(items[r.value], from, mid)
      && forall q :: 0 <= q < r.value ==> !IsTarget(items[q], from, mid)
    ensures r.None? ==>
      || VisiblePosition(items, from).None?
      || var mid := DragMidPoint(items[VisiblePosition(items, from).value], dragOffset);
         forall q :: 0 <= q < |items| ==> !IsTarget(items[q], from, mid)
  {
    match VisiblePosition(items, from)
    case None => None
    case Some(d) =>
      var mid := DragMidPoint(items[d], dragOffset);
      FirstIndex(items, (it: ItemInfo) => IsTarget(it, from, mid))
  }

  /** The offset correction after a swap with `target`: minus its size downwards, plus its size upwards. */
  function Correction(from: int, target: ItemInfo): real {
    if target.index > from then -(target.size as real) else target.size as real
  }

  /** With a list laid out in order, an undisplaced dragged item never triggers a swap. */
  lemma {:induction false} NoReorderAtRest(items: seq<ItemInfo>, from: int)
    requires InListOrder(items)
    ensures ReorderTarget(items, from, 0.0) == None
  {
    match VisiblePosition(items, from)
    case None =>
    case Some(d) =>
      var mid := DragMidPoint(items[d], 0.0);
      forall q | 0 <= q < |items|
        ensures !IsTarget(items[q], from, mid)
      {
        if q < d {
          assert items[q].offset + items[q].size <= items[d].offset;
        } else if q > d {
          assert items[d].offset + items[d].size <= items[q].offset;
        }
      }
  }

  class ReorderableState {
    var draggedIndex: Option<int>
    var draggedOffsetY: real
    var draggedItemSize: int
    // Whether the host installed each optional hook.
    var onDragStart: bool
    var onReorder: bool
    var onDragEnd: bool
    // The calls made to onMove and to the installed hooks, in order.
    var log: seq<Event>

    constructor ()
      ensures draggedIndex == None && draggedOffsetY == 0.0 && draggedItemSize == 0
      ensures !onDragStart && !onReorder && !onDragEnd && log == []
    {
      draggedIndex := None;
      draggedOffsetY := 0.0;
      draggedItemSize := 0;
      onDragStart, onReorder, onDragEnd := false, false, false;
      log := [];
    }

    method StartDragging(index: int, itemSize: int)
      modifies this`draggedIndex, this`draggedOffsetY, this`draggedItemSize, this`log
      ensures draggedIndex == Some(index) && draggedOffsetY == 0.0 && draggedItemSize == itemSize
      ensures log == old(log) + Fire(onDragStart, DragStart)
    {
      draggedIndex := Some(index);
      draggedOffsetY := 0.0;
      draggedItemSize := itemSize;
      if onDragStart {
        log := log + [DragStart];
      }
    }

    method DragBy(delta: real)
      modifies this`draggedOffsetY
      ensures draggedOffsetY == old(draggedOffsetY) + delta
    {
      draggedOffsetY := draggedOffsetY + delta;
    }

    method StopDragging()
      modifies this`draggedIndex, this`draggedOffsetY, this`draggedItemSize, this`log
      ensures draggedIndex == None && draggedOffsetY == 0.0 && draggedItemSize == 0
      ensures log == old(log) + (if old(draggedIndex).Some? then Fire(onDragEnd, DragEnd) else [])
    {
      if draggedIndex.Some? {
        if onDragEnd {
          log := log + [DragEnd];
        }
      }
      draggedIndex := None;
      draggedOffsetY := 0.0;
      draggedItemSize := 0;
    }

    /**
     * At most one swap per call, with the target `ReorderTarget` picks; `draggedItemSize` is
     * neither read nor written.
     */
    method TryReorder(layoutInfo: LayoutInfo)
      modifies this`draggedIndex, this`draggedOffsetY, this`log
      ensures old(draggedIndex).None? ==>
        draggedIndex == old(draggedIndex) && draggedOffsetY == old(draggedOffsetY) && log == old(log)
      ensures old(draggedIndex).Some? ==>
        var items := layoutInfo.visibleItemsInfo;
        var from := old(draggedIndex).value;
        match ReorderTarget(items, from, old(draggedOffsetY))
        case None =>
          draggedIndex == old(draggedIndex) && draggedOffsetY == old(draggedOffsetY) && log == old(log)
        case Some(t) =>
          && draggedIndex == Some(items[t].index)
          && draggedOffsetY == old(draggedOffsetY) + Correction(from, items[t])
          && log == old(log) + [Move(from, items[t].index)] + Fire(onReorder, Reorder)
    {
      if draggedIndex.None? {
        return;
      }
      var from := draggedIndex.value;
      var visibleItems := layoutInfo.visibleItemsInfo;

      var draggedItem: Option<ItemInfo> := None;
      var i := 0;
      while i < |visibleItems|
        invariant 0 <= i <= |visibleItems|
        invariant forall q :: 0 <= q < i ==> visibleItems[q].index != from
        invariant draggedItem.None?
        invariant unchanged(this)
      {
        if visibleItems[i].index == from {
          draggedItem := Some(visibleItems[i]);
          break;
        }
        i := i + 1;
      }
      if draggedItem.None? {
        return;
      }
      assert VisiblePosition(visibleItems, from) == Some(i);

      var dragged := draggedItem.value;
      var midPoint := DragMidPoint(dragged, draggedOffsetY);

      var targetIndex: Option<int> := None;
      var targetSize := 0;
      var j := 0;
      while j < |visibleItems|
        invariant 0 <= j <= |visibleItems|
        invariant forall q :: 0 <= q < j ==> !IsTarget(visibleItems[q], from, midPoint)
        invariant targetIndex.None?
        invariant unchanged(this)
      {
        var item := visibleItems[j];
        if item.index != from {
          var start := item.offset as real;
          var end := (item.offset + item.size) as real;
          if start <= midPoint <= end {
            targetIndex := Some(item.index);
            targetSize := item.size;
            break;
          }
        }
        j := j + 1;
      }
      if targetIndex.None? {
        return;
      }
      assert ReorderTarget(visibleItems, from, draggedOffsetY) == Some(j);

      var target := targetIndex.value;
      if target != from {
        log := log + [Move(from, target)];
        if onReorder {
          log := log + [Reorder];
        }
        var offsetAdjustment := if target > from then -(targetSize as real) else targetSize as real;
        draggedOffsetY := draggedOffsetY + offsetAdjustment;
        draggedIndex := Some(target);
      }
    }
  }
}
