/**
 * The observable effects of the reorder engines: the host's `onMove(from, to)` callback and
 * the optional notification hooks, recorded in call order.
 */
module DragEvents {

  datatype Event =
    | Move(from: int, to: int)   // onMove(from, to)
    | DragStart                  // onDragStart
    | Reorder                    // onReorder
    | DragEnd                    // onDragEnd
    | InternalDragStart          // onInternalDragStart
    | InternalReorder            // onInternalReorder
    | InternalDragEnd            // onInternalDragEnd

  /** `hook?.invoke()`: an optional hook contributes its event only when the host installed it. */
  function Fire(installed: bool, e: Event): seq<Event> {
    if installed then [e] else []
  }
}
