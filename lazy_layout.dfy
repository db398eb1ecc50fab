/**
 * The part of a lazy list's layout the reorder engines read: the visible items in list order
 * (index, offset and size along the scroll axis) and the viewport's start and end offsets.
 */
module LazyLayout {
  import opened Wrappers
  import opened Search

  datatype ItemInfo = ItemInfo(index: int, offset: int, size: int)

  datatype LayoutInfo = LayoutInfo(visibleItemsInfo: seq<ItemInfo>, viewportStartOffset: int, viewportEndOffset: int)

  /** The position, among the visible items, of the first one showing list index `index`. */
  function VisiblePosition(items: seq<ItemInfo>, index: int): (r: Option<nat>)
    ensures r.Some? ==> r.value < |items| && items[r.value].index == index
    ensures r.Some? ==> forall q :: 0 <= q < r.value ==> items[q].index != index
    ensures r.None? ==> forall q :: 0 <= q < |items| ==> items[q].index != index
  {
    FirstIndex(items, (it: ItemInfo) => it.index == index)
  }

  /** The layout centre of an item: `offset + size / 2f`. */
  function MidPoint(item: ItemInfo): real {
    item.offset as real + item.size as real / 2.0
  }

  /**
   * The visible items are laid out in list order without overlapping, each with a positive size:
   * what a lazy column reports for a list it has not yet been told to reorder.
   */
  ghost predicate InListOrder(items: seq<ItemInfo>) {
    && (forall q :: 0 <= q < |items| ==> items[q].size > 0)
    && (forall p, q :: 0 <= p < q < |items| ==>
          items[p].index < items[q].index && items[p].offset + items[p].size <= items[q].offset)
  }
}
