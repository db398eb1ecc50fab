/**
 * The reorder engine of the lazy column (AkariReorderableLazyState.kt): the dragged item's
 * centre, clamped to the viewport, must cross a neighbour's centre in the direction of travel.
 */
module ReorderableLazyState {
  import opened Wrappers
  import opened Search
  import opened DragEvents
  import opened LazyLayout

  /** Kotlin's `coerceIn(lo, hi)`, which throws unless `lo <= hi`. */
  function Clamp(x: real, lo: real, hi: real): (r: real)
    requires lo <= hi
    ensures lo <= r <= hi
    ensures lo <= x <= hi ==> r == x
    ensures x < lo ==> r == lo
    ensures x > hi ==> r == hi
  {
    if x < lo then lo else if x > hi then hi else x
  }

  /** An item with a larger index is passed when the centre goes beyond its centre, a smaller one when it goes before. */
  predicate ShouldSwap(from: int, item: ItemInfo, centre: real) {
    || (from < item.index && centre > MidPoint(item))
    || (from > item.index && centre < MidPoint(item))
  }

  /** The viewport check `coerceIn` makes when the dragged item is visible. */
  predicate ViewportOrdered(layout: LayoutInfo, from: int) {
    VisiblePosition(layout.visibleItemsInfo, from).Some? ==>
      layout.viewportStartOffset <= layout.viewportEndOffset
  }

  /** The dragged item's centre, displaced by the drag and clamped to the viewport. */
  function ClampedCentre(layout: LayoutInfo, dragged: ItemInfo, dragOffset: real): real
    requires layout.viewportStartOffset <= layout.viewportEndOffset
  {
    Clamp(MidPoint(dragged) + dragOffset,
          layout.viewportStartOffset as real, layout.viewportEndOffset as real)
  }

  /**
   * The position of the item the dragged one has crossed: the first visible item, in list
   * order, that should be swapped with; `None` when the dragged item is not visible or nothing
   * is crossed.
   */
  function CrossedTarget(layout: LayoutInfo, from: int, dragOffset: real): (r: Option<nat>)
    requires ViewportOrdered(layout, from)
    ensures r.Some? ==> VisiblePosition(layout.visibleItemsInfo, from).Some?
    ensures r.Some? ==>
      var items := layout.visibleItemsInfo;
      var c := ClampedCentre(layout, items[VisiblePosition(items, from).value], dragOffset);
      && r.value < |items|
      && ShouldSwap(from, items[r.value], c)
      && forall q :: 0 <= q < r.value ==> !ShouldSwap(from, items[q], c)
    ensures r.None? ==>
      var items := layout.visibleItemsInfo;
      || VisiblePosition(items, from).None?
      || var c := ClampedCentre(layout, items[VisiblePosition(items, from).value], dragOffset);
         forall q :: 0 <= q < |items| ==> !ShouldSwap(from, items[q], c)
  {
    var items := layout.visibleItemsInfo;
    match VisiblePosition(items, from)
    case None => None
    case Some(d) =>
      var c := ClampedCentre(layout, items[d], dragOffset);
      FirstIndex(items, (it: ItemInfo) => ShouldSwap(from, it, c))
  }

  /** `ShouldSwap` never holds for the dragged item itself, so skipping it changes nothing. */
  lemma ShouldSwapSkipsDragged(from: int, item: ItemInfo, centre: real)
    requires item.index == from
    ensures !ShouldSwap(from, item, centre)
  {
  }

  /**
   * With the list laid out in order and the dragged item's centre inside the viewport, an
   * undisplaced drag never triggers a swap.
   */
  lemma {:induction false} NoCrossingAtRest(layout: LayoutInfo, from: int)
    requires InListOrder(layout.visibleItemsInfo)
    requires layout.viewportStartOffset <= layout.viewportEndOffset
    requires VisiblePosition(layout.visibleItemsInfo, from).Some? ==>
      var m := MidPoint(layout.visibleItemsInfo[VisiblePosition(layout.visibleItemsInfo, from).value]);
      layout.viewportStartOffset as real <= m <= layout.viewportEndOffset as real
    ensures CrossedTarget(layout, from, 0.0) == None
  {
    var items := layout.visibleItemsInfo;
    match VisiblePosition(items, from)
    case None =>
    case Some(d) =>
      var c := ClampedCentre(layout, items[d], 0.0);
      assert c == MidPoint(items[d]);
      forall q | 0 <= q < |items|
        ensures !ShouldSwap(from, items[q], c)
      {
        if q < d {
          assert items[q].offset + items[q].size <= items[d].offset;
        } else if q > d {
          assert items[d].offset + items[d].size <= items[q].offset;
        }
      }
  }

  class LazyState {
    var draggedIndex: Option<int>
    var draggedOffsetY: real
    var draggedItemSize: int
    // Whether the host passed the public hooks to the constructor (fixed for the state's life).
    const onDragStart: bool
    const onDragEnd: bool
    // Whether the internal hooks are installed (reassignable by the library's own composables).
    var onInternalDragStart: bool
    var onInternalReorder: bool
    var onInternalDragEnd: bool
    // The calls made to onMove and to the installed hooks, in order.
    var log: seq<Event>

    constructor (hasDragStart: bool, hasDragEnd: bool)
      ensures draggedIndex == None && draggedOffsetY == 0.0 && draggedItemSize == 0
      ensures onDragStart == hasDragStart && onDragEnd == hasDragEnd
      ensures !onInternalDragStart && !onInternalReorder && !onInternalDragEnd && log == []
    {
      draggedIndex := None;
      draggedOffsetY := 0.0;
      draggedItemSize := 0;
      onDragStart, onDragEnd := hasDragStart, hasDragEnd;
      onInternalDragStart, onInternalReorder, onInternalDragEnd := false, false, false;
      log := [];
    }

    /** Starts a session; the internal hook fires before the public one. */
    method StartDragging(index: int, itemSize: int)
      modifies this`draggedIndex, this`draggedOffsetY, this`draggedItemSize, this`log
      ensures draggedIndex == Some(index) && draggedOffsetY == 0.0 && draggedItemSize == itemSize
      ensures log == old(log) + Fire(onInternalDragStart, InternalDragStart) + Fire(onDragStart, DragStart)
    {
      draggedIndex := Some(index);
      draggedOffsetY := 0.0;
      draggedItemSize := itemSize;
      if onInternalDragStart {
        log := log + [InternalDragStart];
      }
      if onDragStart {
        log := log + [DragStart];
      }
    }

    method DragBy(delta: real)
      modifies this`draggedOffsetY
      ensures draggedOffsetY == old(draggedOffsetY) + delta
    {
      draggedOffsetY := draggedOffsetY + delta;
    }

    /** Ends the session; the end hooks, internal first, fire only if a session was active. */
    method StopDragging()
      modifies this`draggedIndex, this`draggedOffsetY, this`draggedItemSize, this`log
      ensures draggedIndex == None && draggedOffsetY == 0.0 && draggedItemSize == 0
      ensures log == old(log) +
        (if old(draggedIndex).Some?
         then Fire(onInternalDragEnd, InternalDragEnd) + Fire(onDragEnd, DragEnd)
         else [])
    {
      if draggedIndex.Some? {
        if onInternalDragEnd {
          log := log + [InternalDragEnd];
        }
        if onDragEnd {
          log := log + [DragEnd];
        }
      }
      draggedIndex := None;
      draggedOffsetY := 0.0;
      draggedItemSize := 0;
    }

    /**
     * At most one swap per call, with the item `CrossedTarget` picks; only `onMove` and the
     * internal reorder hook are told, and the offset moves by the target's size against the
     * direction of travel.
     */
    method TryReorder(layoutInfo: LayoutInfo)
      requires draggedIndex.Some? ==> ViewportOrdered(layoutInfo, draggedIndex.value)
      modifies this`draggedIndex, this`draggedOffsetY, this`log
      ensures old(draggedIndex).None? ==>
        draggedIndex == old(draggedIndex) && draggedOffsetY == old(draggedOffsetY) && log == old(log)
      ensures old(draggedIndex).Some? ==>
        var items := layoutInfo.visibleItemsInfo;
        var from := old(draggedIndex).value;
        match CrossedTarget(layoutInfo, from, old(draggedOffsetY))
        case None =>
          draggedIndex == old(draggedIndex) && draggedOffsetY == old(draggedOffsetY) && log == old(log)
        case Some(t) =>
          && draggedIndex == Some(items[t].index)
          && draggedOffsetY == old(draggedOffsetY) + (if items[t].index > from then -1 else 1) as real * items[t].size as real
          && log == old(log) + [Move(from, items[t].index)] + Fire(onInternalReorder, InternalReorder)
    {
      if draggedIndex.None? {
        return;
      }
      var from := draggedIndex.value;
      var visibleItems := layoutInfo.visibleItemsInfo;

      var draggedItem: Option<ItemInfo> := None;
      var i := 0;
      while i < |visibleItems|
        invariant 0 <= i <= |visibleItems|
        invariant forall q :: 0 <= q < i ==> visibleItems[q].index != from
        invariant draggedItem.None?
        invariant unchanged(this)
      {
        if visibleItems[i].index == from {
          draggedItem := Some(visibleItems[i]);
          break;
        }
        i := i + 1;
      }
      if draggedItem.None? {
        return;
      }
      assert VisiblePosition(visibleItems, from) == Some(i);

      var dragged := draggedItem.value;
      var draggedCenter := dragged.offset as real + dragged.size as real / 2.0 + draggedOffsetY;
      var clampedCenter := Clamp(draggedCenter,
                                 layoutInfo.viewportStartOffset as real, layoutInfo.viewportEndOffset as real);
      assert clampedCenter == ClampedCentre(layoutInfo, dragged, draggedOffsetY);
      ghost var offset0 := draggedOffsetY;

      var j := 0;
      while j < |visibleItems|
        invariant 0 <= j <= |visibleItems|
        invariant forall q :: 0 <= q < j ==> !ShouldSwap(from, visibleItems[q], clampedCenter)
        invariant unchanged(this)
      {
        var item := visibleItems[j];
        if item.index != from {
          var targetCenter := item.offset as real + item.size as real / 2.0;
          var shouldSwap := (from < item.index && clampedCenter > targetCenter)
                            || (from > item.index && clampedCenter < targetCenter);
          if shouldSwap {
            assert CrossedTarget(layoutInfo, from, offset0) == Some(j);
            log := log + [Move(from, item.index)];
            if onInternalReorder {
              log := log + [InternalReorder];
            }
            var direction := if item.index > from then -1 else 1;
            draggedOffsetY := draggedOffsetY + (direction * item.size) as real;
            draggedIndex := Some(item.index);
            return;
          }
        }
        j := j + 1;
      }
      assert CrossedTarget(layoutInfo, from, offset0) == None;
    }
  }
}
