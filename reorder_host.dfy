/**
 * How a host drives the engines (reorderableComponents/AkariReorderableItem.kt): on every drag
 * delta it calls `dragBy` and then `tryReorder`, and its `onMove` applies the list move. Also a
 * few concrete sessions.
 */
module ReorderHost {
  import opened Wrappers
  import opened DragEvents
  import opened HostList
  import opened LazyLayout
  import Column = ReorderableColumnState
  import Lazy = ReorderableLazyState

  /**
   * One drag delta in a column host whose registry only holds indices of `items`: the returned
   * list is a permutation of `items` with the dragged element at the (possibly new) dragged index.
   */
  method ColumnDragStep<T>(state: Column.ColumnState, items: seq<T>, deltaY: real) returns (moved: seq<T>)
    requires state.draggedIndex.Some? && 0 <= state.draggedIndex.value < |items|
    requires forall k :: k in state.itemBounds ==> 0 <= k < |items|
    modifies state`draggedIndex, state`draggedOffsetY, state`log
    ensures state.draggedIndex.Some? && 0 <= state.draggedIndex.value < |moved|
    ensures moved[state.draggedIndex.value] == items[old(state.draggedIndex).value]
    ensures multiset(moved) == multiset(items)
    ensures var from := old(state.draggedIndex).value;
      var bounds := state.itemBounds;
      if state.draggedIndex == old(state.draggedIndex) then
        && moved == items && state.log == old(state.log)
        && (from in bounds ==>
              Column.HasNoCandidate(bounds, from, Column.Centre(bounds[from], old(state.draggedOffsetY) + deltaY)))
      else
        && from in bounds
        && Column.IsCandidate(bounds, from, Column.Centre(bounds[from], old(state.draggedOffsetY) + deltaY), state.draggedIndex.value)
        && moved == MoveItem(items, from, state.draggedIndex.value)
        && state.log == old(state.log) + [Move(from, state.draggedIndex.value)] + Fire(state.onReorder, Reorder)
  {
    state.DragBy(deltaY);
    var from := state.draggedIndex.value;
    var n := |state.log|;
    state.TryReorder();
    if |state.log| > n && state.log[n].Move? {
      var to := state.log[n].to;
      MovedElementAtTarget(items, from, to);
      MoveItemPermutes(items, from, to);
      moved := MoveItem(items, from, to);
    } else {
      moved := items;
    }
  }

  /** The same step for a lazy host whose visible items are indices of `items`. */
  method LazyDragStep<T>(state: Lazy.LazyState, layout: LayoutInfo, items: seq<T>, deltaY: real) returns (moved: seq<T>)
    requires state.draggedIndex.Some? && 0 <= state.draggedIndex.value < |items|
    requires Lazy.ViewportOrdered(layout, state.draggedIndex.value)
    requires forall q :: 0 <= q < |layout.visibleItemsInfo| ==> 0 <= layout.visibleItemsInfo[q].index < |items|
    modifies state`draggedIndex, state`draggedOffsetY, state`log
    ensures state.draggedIndex.Some? && 0 <= state.draggedIndex.value < |moved|
    ensures moved[state.draggedIndex.value] == items[old(state.draggedIndex).value]
    ensures multiset(moved) == multiset(items)
  {
    state.DragBy(deltaY);
    var from := state.draggedIndex.value;
    var n := |state.log|;
    state.TryReorder(layout);
    if |state.log| > n && state.log[n].Move? {
      var to := state.log[n].to;
      MovedElementAtTarget(items, from, to);
      MoveItemPermutes(items, from, to);
      moved := MoveItem(items, from, to);
    } else {
      moved := items;
    }
  }

  /** Stopping twice ends the drag once: the second call adds nothing to the log. */
  method StopTwice(state: Column.ColumnState)
    modifies state`draggedIndex, state`draggedOffsetY, state`log
    ensures state.draggedIndex.None?
    ensures state.log == old(state.log) + (if old(state.draggedIndex).Some? then Fire(state.onDragEnd, DragEnd) else [])
  {
    state.StopDragging();
    state.StopDragging();
  }

  /** An index with no registered bounds never moves, whatever the drag. */
  method UnregisteredNeverMoves(state: Column.ColumnState, index: int, deltaY: real)
    requires index !in state.itemBounds
    modifies state`draggedIndex, state`draggedOffsetY, state`log
    ensures state.log == old(state.log) + Fire(state.onDragStart, DragStart)
  {
    state.StartDragging(index);
    state.DragBy(deltaY);
    state.TryReorder();
  }

  /**
   * Two rows `[0, 50]` and `[50, 100]`: dragging row 0 by 60 puts its centre at 85, inside row
   * 1, so row 0 moves to 1 and the offset drops by row 1's height to 10.
   */
  method TwoRowSwap() returns (log: seq<Event>, draggedIndex: Option<int>, offset: real)
    ensures log == [Move(0, 1)] && draggedIndex == Some(1) && offset == 10.0
  {
    var state := new Column.ColumnState();
    state.RegisterItemBounds(0, 0, 50);
    state.RegisterItemBounds(1, 50, 100);
    state.StartDragging(0);
    state.DragBy(60.0);
    assert state.itemBounds == map[0 := Column.IntRange(0, 50), 1 := Column.IntRange(50, 100)];
    assert Column.IsCandidate(state.itemBounds, 0, Column.Centre(state.itemBounds[0], 60.0), 1);
    state.TryReorder();
    log, draggedIndex, offset := state.log, state.draggedIndex, state.draggedOffsetY;
  }

  /** Five rows of height 40, the i-th spanning `[40 i, 40 i + 40]`. */
  function FiveRows(): map<int, Column.IntRange> {
    map[0 := Column.IntRange(0, 40), 1 := Column.IntRange(40, 80), 2 := Column.IntRange(80, 120),
        3 := Column.IntRange(120, 160), 4 := Column.IntRange(160, 200)]
  }

  /** A fresh column whose host has registered its five rows one by one, as each is laid out. */
  method FiveRowColumn() returns (state: Column.ColumnState)
    ensures fresh(state)
    ensures state.itemBounds == FiveRows()
    ensures state.draggedIndex == None && state.draggedOffsetY == 0.0 && state.log == []
    ensures !state.onDragStart && !state.onReorder && !state.onDragEnd
  {
    state := new Column.ColumnState();
    var i := 0;
    while i < 5
      invariant 0 <= i <= 5
      invariant state.itemBounds == map k | 0 <= k < i :: Column.IntRange(40 * k, 40 * k + 40)
      invariant state.draggedIndex == None && state.draggedOffsetY == 0.0 && state.log == []
      invariant !state.onDragStart && !state.onReorder && !state.onDragEnd
    {
      state.RegisterItemBounds(i, 40 * i, 40 * i + 40);
      i := i + 1;
    }
  }

  /**
   * Dragging row 2 of `FiveRows()` up by 50 puts its centre at 50, which lies in row 1 and in
   * no other row.
   */
  lemma FiveRowsDragUpFacts(k: int)
    ensures 2 in FiveRows() && Column.Centre(FiveRows()[2], 0.0 + -50.0) == 50.0
    ensures Column.IsCandidate(FiveRows(), 2, 50.0, 1)
    ensures Column.IsCandidate(FiveRows(), 2, 50.0, k) ==> k == 1
  {
  }

  /**
   * Five rows of height 40 holding A..E: dragging C (index 2) up by 50 puts its centre at 50,
   * inside B's `[40, 80]`, so the engine asks for `onMove(2, 1)`, the host's list becomes
   * A, C, B, D, E and the dragged index is 1.
   */
  method FiveRowDragUp() returns (items: seq<char>, draggedIndex: Option<int>, log: seq<Event>)
    ensures items == ['A', 'C', 'B', 'D', 'E'] && draggedIndex == Some(1) && log == [Move(2, 1)]
  {
    var state := FiveRowColumn();
    state.StartDragging(2);
    FiveRowsDragUpFacts(1);
    state.DragBy(-50.0);
    assert Column.IsCandidate(state.itemBounds, 2, Column.Centre(state.itemBounds[2], state.draggedOffsetY), 1);
    state.TryReorder();
    FiveRowsDragUpFacts(state.draggedIndex.value);
    MoveCUpOne();
    items := MoveItem(['A', 'B', 'C', 'D', 'E'], 2, state.draggedIndex.value);
    draggedIndex, log := state.draggedIndex, state.log;
  }

  lemma MoveCUpOne()
    ensures MoveItem(['A', 'B', 'C', 'D', 'E'], 2, 1) == ['A', 'C', 'B', 'D', 'E']
  {
    var xs := ['A', 'B', 'C', 'D', 'E'];
    assert xs[..2] + xs[3..] == ['A', 'B', 'D', 'E'];
  }

  /**
   * Three visible items of size 100 at offsets 0, 100, 200: dragging item 0 down by 120 puts its
   * centre at 170, past item 1's centre (150) but not item 2's (250), so exactly one swap with
   * item 1 happens and the offset drops to 20.
   */
  method LazyDirectionAwareSwap() returns (log: seq<Event>, draggedIndex: Option<int>, offset: real)
    ensures log == [Move(0, 1)] && draggedIndex == Some(1) && offset == 20.0
  {
    var state := new Lazy.LazyState(false, false);
    var layout := LayoutInfo([ItemInfo(0, 0, 100), ItemInfo(1, 100, 100), ItemInfo(2, 200, 100)], 0, 300);
    state.StartDragging(0, 100);
    state.DragBy(120.0);
    assert VisiblePosition(layout.visibleItemsInfo, 0) == Some(0);
    assert Lazy.ClampedCentre(layout, layout.visibleItemsInfo[0], 120.0) == 170.0;
    assert Lazy.ShouldSwap(0, layout.visibleItemsInfo[1], 170.0);
    assert !Lazy.ShouldSwap(0, layout.visibleItemsInfo[0], 170.0);
    state.TryReorder(layout);
    log, draggedIndex, offset := state.log, state.draggedIndex, state.draggedOffsetY;
  }
}
