/**
 * The auto-scroll rule of the lazy column (AkariReorderableLazyColumn.kt): while a drag is
 * active, each frame scrolls by an amount proportional to how deep the dragged item's centre
 * is inside a 100-pixel band at either viewport edge, at most 15 pixels per frame.
 */
module AutoScroll {
  import opened Wrappers
  import opened LazyLayout
  import opened ReorderableState

  const ScrollThreshold: real := 100.0
  const MaxScrollStep: real := 15.0

  /** `coerceIn(0f, 1f)`. */
  function ClampUnit(x: real): (r: real)
    ensures 0.0 <= r <= 1.0
    ensures 0.0 <= x <= 1.0 ==> r == x
  {
    if x < 0.0 then 0.0 else if x > 1.0 then 1.0 else x
  }

  /** The centre is in the band at the viewport start. */
  predicate InStartZone(centre: real, start: int) {
    centre < start as real + ScrollThreshold
  }

  /** The centre is in the band at the viewport end. */
  predicate InEndZone(centre: real, end: int) {
    centre > end as real - ScrollThreshold
  }

  /**
   * The per-frame scroll amount: negative (towards the start) in the start band, positive in
   * the end band, zero elsewhere; the start band wins where the two overlap.
   */
  function ScrollAmount(centre: real, start: int, end: int): (r: real)
    ensures -MaxScrollStep <= r <= MaxScrollStep
    ensures InStartZone(centre, start) ==> r < 0.0
    ensures !InStartZone(centre, start) && InEndZone(centre, end) ==> r > 0.0
    ensures r == 0.0 <==> !InStartZone(centre, start) && !InEndZone(centre, end)
  {
    if InStartZone(centre, start) then
      var proximity := 1.0 - (centre - start as real) / ScrollThreshold;
      -MaxScrollStep * ClampUnit(proximity)
    else if InEndZone(centre, end) then
      var proximity := 1.0 - (end as real - centre) / ScrollThreshold;
      MaxScrollStep * ClampUnit(proximity)
    else
      0.0
  }

  /** A centre at or beyond an edge scrolls at full speed. */
  lemma FullSpeedAtEdges(centre: real, start: int, end: int)
    ensures centre <= start as real ==> ScrollAmount(centre, start, end) == -MaxScrollStep
    ensures centre >= end as real && !InStartZone(centre, start) ==>
              ScrollAmount(centre, start, end) == MaxScrollStep
  {
  }

  /** The further the centre goes towards the end, the more the list scrolls towards the end. */
  lemma ScrollAmountMonotone(c1: real, c2: real, start: int, end: int)
    requires c1 <= c2
    ensures ScrollAmount(c1, start, end) <= ScrollAmount(c2, start, end)
  {
    if InStartZone(c2, start) {
      assert InStartZone(c1, start);
    } else if InEndZone(c2, end) && !InStartZone(c1, start) && !InEndZone(c1, end) {
      assert ScrollAmount(c1, start, end) == 0.0;
    }
  }

  /** The lazy column's `isDragging` gate: the effect exists only while a drag is active. */
  predicate IsDragging(draggedIndex: Option<int>) {
    draggedIndex.Some?
  }

  /**
   * One frame of the effect for the state's `draggedIndex` and `draggedOffsetY`: the amount
   * handed to `scrollBy`, or `None` when no scroll is requested.
   */
  function ScrollRequest(draggedIndex: Option<int>, draggedOffsetY: real, layout: LayoutInfo): (r: Option<real>)
    ensures r.Some? <==>
      && IsDragging(draggedIndex)
      && VisiblePosition(layout.visibleItemsInfo, draggedIndex.value).Some?
      && var c := DragMidPoint(layout.visibleItemsInfo[VisiblePosition(layout.visibleItemsInfo, draggedIndex.value).value], draggedOffsetY);
         InStartZone(c, layout.viewportStartOffset) || InEndZone(c, layout.viewportEndOffset)
    ensures r.Some? ==> r.value != 0.0 && -MaxScrollStep <= r.value <= MaxScrollStep
    ensures r.Some? ==>
      var items := layout.visibleItemsInfo;
      r.value == ScrollAmount(DragMidPoint(items[VisiblePosition(items, draggedIndex.value).value], draggedOffsetY),
                              layout.viewportStartOffset, layout.viewportEndOffset)
  {
    if !IsDragging(draggedIndex) then None
    else
      var items := layout.visibleItemsInfo;
      match VisiblePosition(items, draggedIndex.value)
      case None => None
      case Some(d) =>
        var amount := ScrollAmount(DragMidPoint(items[d], draggedOffsetY),
                                   layout.viewportStartOffset, layout.viewportEndOffset);
        if amount != 0.0 then Some(amount) else None
  }

  /** Once the drag has stopped no frame asks for a scroll, whatever the layout. */
  lemma NoScrollWhenNotDragging(draggedOffsetY: real, layout: LayoutInfo)
    ensures ScrollRequest(None, draggedOffsetY, layout) == None
  {
  }

  /** The scroll direction agrees with the band the centre is in. */
  lemma ScrollDirection(draggedIndex: Option<int>, draggedOffsetY: real, layout: LayoutInfo)
    requires ScrollRequest(draggedIndex, draggedOffsetY, layout).Some?
    ensures var items := layout.visibleItemsInfo;
      var c := DragMidPoint(items[VisiblePosition(items, draggedIndex.value).value], draggedOffsetY);
      var a := ScrollRequest(draggedIndex, draggedOffsetY, layout).value;
      (a < 0.0 <==> InStartZone(c, layout.viewportStartOffset))
  {
  }
}
