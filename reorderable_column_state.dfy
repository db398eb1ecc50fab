/**
 * The reorder engine of the non-lazy column (AkariReorderableColumnState.kt): a registry from
 * item index to its inclusive vertical extent, a drag session, and the "centre entered a
 * neighbour's extent" policy.
 */
module ReorderableColumnState {
  import opened Wrappers
  import opened DragEvents

  /** Kotlin's `top..bottom`: an inclusive integer range. */
  datatype IntRange = IntRange(first: int, last: int)

  function Height(r: IntRange): int {
    r.last - r.first
  }

  /** The dragged item's visual centre: the middle of its registered range shifted by the drag offset. */
  function Centre(r: IntRange, offset: real): real {
    r.first as real + Height(r) as real / 2.0 + offset
  }

  predicate Contains(r: IntRange, y: real) {
    r.first as real <= y <= r.last as real
  }

  /** `k` is a registered entry other than `from` whose range contains `y`: a possible swap target. */
  predicate IsCandidate(bounds: map<int, IntRange>, from: int, y: real, k: int) {
    k in bounds && k != from && Contains(bounds[k], y)
  }

  /** No registered entry is a swap target for `from` at `y`. */
  ghost predicate HasNoCandidate(bounds: map<int, IntRange>, from: int, y: real) {
    forall k :: !IsCandidate(bounds, from, y, k)
  }

  /** The offset correction after a swap: minus the target's height downwards, plus the dragged item's height upwards. */
  function Adjustment(bounds: map<int, IntRange>, from: int, target: int): real
    requires from in bounds && target in bounds
  {
    if target > from then -(Height(bounds[target]) as real) else Height(bounds[from]) as real
  }

  /**
   * When the registered ranges other than `from`'s meet `from`'s range at most at its end points
   * and `from` has a positive height, an undisplaced item has no candidate: no swap without movement.
   */
  lemma {:induction false} NoCandidateAtRest(bounds: map<int, IntRange>, from: int, k: int)
    requires from in bounds && Height(bounds[from]) > 0
    requires forall j :: j in bounds && j != from ==>
               bounds[j].last <= bounds[from].first || bounds[j].first >= bounds[from].last
    ensures !IsCandidate(bounds, from, Centre(bounds[from], 0.0), k)
  {
    var c := Centre(bounds[from], 0.0);
    assert bounds[from].first as real < c < bounds[from].last as real;
    if k in bounds && k != from {
      assert bounds[k].last <= bounds[from].first || bounds[k].first >= bounds[from].last;
    }
  }

  class ColumnState {
    var draggedIndex: Option<int>
    var draggedOffsetY: real
    var itemBounds: map<int, IntRange>
    // Whether the host installed each optional hook (a null hook is never invoked).
    var onDragStart: bool
    var onReorder: bool
    var onDragEnd: bool
    // The calls made to onMove and to the installed hooks, in order.
    var log: seq<Event>

    constructor ()
      ensures draggedIndex == None && draggedOffsetY == 0.0 && itemBounds == map[]
      ensures !onDragStart && !onReorder && !onDragEnd && log == []
    {
      draggedIndex := None;
      draggedOffsetY := 0.0;
      itemBounds := map[];
      onDragStart, onReorder, onDragEnd := false, false, false;
      log := [];
    }

    /** A drag is active, its item has bounds, and some other entry contains its centre. */
    ghost predicate CanReorder()
      reads this
    {
      && draggedIndex.Some?
      && draggedIndex.value in itemBounds
      && exists k :: IsCandidate(itemBounds, draggedIndex.value,
                                 Centre(itemBounds[draggedIndex.value], draggedOffsetY), k)
    }

    /** Overwrites the entry for `index`; every other entry is kept. */
    method RegisterItemBounds(index: int, top: int, bottom: int)
      modifies this`itemBounds
      ensures itemBounds == old(itemBounds)[index := IntRange(top, bottom)]
    {
      itemBounds := itemBounds[index := IntRange(top, bottom)];
    }

    /** Starts a session on `index`, silently replacing any active one. */
    method StartDragging(index: int)
      modifies this`draggedIndex, this`draggedOffsetY, this`log
      ensures draggedIndex == Some(index) && draggedOffsetY == 0.0
      ensures log == old(log) + Fire(onDragStart, DragStart)
    {
      draggedIndex := Some(index);
      draggedOffsetY := 0.0;
      if onDragStart {
        log := log + [DragStart];
      }
    }

    /** Accumulates the drag delta, whether or not a drag is active. */
    method DragBy(deltaY: real)
      modifies this`draggedOffsetY
      ensures draggedOffsetY == old(draggedOffsetY) + deltaY
    {
      draggedOffsetY := draggedOffsetY + deltaY;
    }

    /** Ends the session: `onDragEnd` fires only if one was active; the session is reset either way. */
    method StopDragging()
      modifies this`draggedIndex, this`draggedOffsetY, this`log
      ensures draggedIndex == None && draggedOffsetY == 0.0
      ensures log == old(log) + (if old(draggedIndex).Some? then Fire(onDragEnd, DragEnd) else [])
    {
      if draggedIndex.Some? {
        if onDragEnd {
          log := log + [DragEnd];
        }
      }
      draggedIndex := None;
      draggedOffsetY := 0.0;
    }

    /**
     * Looks for a registered entry, other than the dragged one, whose range contains the dragged
     * item's centre. The registry is a hash map, so no order among several candidates is assumed.
     */
    method TryReorder()
      modifies this`draggedIndex, this`draggedOffsetY, this`log
      ensures !old(CanReorder()) ==>
        draggedIndex == old(draggedIndex) && draggedOffsetY == old(draggedOffsetY) && log == old(log)
      ensures old(CanReorder()) ==>
        var from := old(draggedIndex).value;
        && draggedIndex.Some?
        && IsCandidate(itemBounds, from, Centre(itemBounds[from], old(draggedOffsetY)), draggedIndex.value)
        && log == old(log) + [Move(from, draggedIndex.value)] + Fire(onReorder, Reorder)
        && draggedOffsetY == old(draggedOffsetY) + Adjustment(itemBounds, from, draggedIndex.value)
    {
      if draggedIndex.None? {
        return;
      }
      var from := draggedIndex.value;
      if from !in itemBounds {
        return;
      }
      var currentRange := itemBounds[from];
      var centreY := Centre(currentRange, draggedOffsetY);

      var targetIndex: Option<int> := None;
      var entries := itemBounds.Keys;
      while entries != {}
        invariant entries <= itemBounds.Keys
        invariant targetIndex.None?
        invariant forall k :: k in itemBounds && k !in entries ==> !IsCandidate(itemBounds, from, centreY, k)
        invariant unchanged(this)
        decreases entries
      {
        if forall x :: x !in entries {
          assert false;
        }
        var k :| k in entries;
        if k != from && Contains(itemBounds[k], centreY) {
          targetIndex := Some(k);
          break;
        }
        entries := entries - {k};
      }

      if targetIndex.None? {
        return;
      }
      var target := targetIndex.value;
      assert IsCandidate(itemBounds, from, centreY, target);
      if target != from {
        log := log + [Move(from, target)];
        if onReorder {
          log := log + [Reorder];
        }
        draggedIndex := Some(target);

        // Both look-ups succeed: the registry is not changed by the callbacks.
        var fromHeight := Height(itemBounds[from]);
        var targetHeight := Height(itemBounds[target]);
        var offsetAdjustment := if target > from then -(targetHeight as real) else fromHeight as real;
        draggedOffsetY := draggedOffsetY + offsetAdjustment;
      }
    }
  }
}
