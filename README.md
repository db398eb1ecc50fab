# AkariUI drag-to-reorder engines and text-field rules, modelled in Dafny

AkariUI is an Android Jetpack Compose component library. This project models the parts of it that hold logic rather than rendering glue. It states and proves properties of that model.

- **Reorder engines.** There are three independent state classes. Each turns "the dragged item's centre has reached a neighbour" into a single `onMove(from, to)` request. Each then corrects its own drag offset and re-points its dragged index.
  - `AkariReorderableColumnState` (`ReorderableColumnState.ColumnState`) keeps a registry from row index to its inclusive `[top, bottom]` range.
  - `AkariReorderableState` (`ReorderableState.ReorderableState`) searches the lazy list's visible items for one whose extent contains the centre.
  - `AkariReorderableLazyState` (`ReorderableLazyState.LazyState`) clamps the centre to the viewport and swaps with the first item whose centre has been crossed in the direction of travel.
- **Engines as classes.** Each engine is a class with the source's mutable fields.
  - The host callback `onMove` and the optional hooks become an appended event log (`DragEvents.Event`).
  - A hook is a boolean saying whether it is installed.
  - Layouts are records `(index, offset, size)`.
  - Drag offsets are `real`.
  - The host's list update `add(to, removeAt(from))` is `HostList.MoveItem`.
  - How a host drives an engine (`dragBy`, then `tryReorder`, then apply the move) is `ReorderHost`.
- **Auto-scroll amount.** The lazy column's per-frame auto-scroll amount and its gating are `AutoScroll`.
- **Text fields.**
  - The mutable behaviour object and `validateValues` are `TextFieldBehavior`. Its pure twin with the `normalized*` getters is `TextFieldConfigBehavior`.
  - The style object is `TextFieldStyle`.
  - The immutable state record is `TextFieldState`, and the builder DSL is `TextFieldStateBuilder`.
  - The colour table is `TextFieldVisuals`.
  - The composable's decision rules are `TextField`.
  - The decoration box's predicates and integer measure/place arithmetic are `TextFieldDefaults`.
- **Checkbox colours.** The checkbox colour choice is `CheckBoxColors`.

Kotlin `Int` line counts are the 32-bit `TextFieldConfigBehavior.Int32`. Pixel sizes in the layout are unbounded `nat`/`int`. Colours, keyboard options, shapes, callbacks and composable slots are opaque identities: the model only tells them apart.

Where informal descriptions of the library and the code differ, the model follows the code.
- The column registry is a `mutableStateMapOf`, which is a hash map. When several registered rows contain the centre, the code therefore promises no particular one, not "the first registered". `ColumnState.TryReorder` picks an arbitrary candidate (`var k :| k in entries`). Its contract holds for whichever one is picked.
- `AkariReorderableLazyState.tryReorder` fires only the internal reorder hook. It has no public one.

## Model

| member | source | states |
|---|---|---|
| ReorderableColumnState.ColumnState.RegisterItemBounds | uicomponents/src/main/java/com/akari/uicomponents/reorderableComponents/AkariReorderableColumnState.kt:30-32 | the registry maps `index` to `[top, bottom]` afterwards and every other entry is kept |
| ReorderableColumnState.ColumnState.StartDragging | uicomponents/src/main/java/com/akari/uicomponents/reorderableComponents/AkariReorderableColumnState.kt:34-38 | index set, offset 0, `onDragStart` logged once if installed, even when a drag was already active |
| ReorderableColumnState.ColumnState.DragBy | uicomponents/src/main/java/com/akari/uicomponents/reorderableComponents/AkariReorderableColumnState.kt:40-42 | the offset grows by the delta whether or not a drag is active; nothing else changes |
| ReorderableColumnState.ColumnState.StopDragging | uicomponents/src/main/java/com/akari/uicomponents/reorderableComponents/AkariReorderableColumnState.kt:44-50 | `onDragEnd` logged only if a drag was active; index cleared and offset 0 in every case |
| ReorderableColumnState.ColumnState.TryReorder | uicomponents/src/main/java/com/akari/uicomponents/reorderableComponents/AkariReorderableColumnState.kt:52-90 | with no drag, no bounds for the dragged index, or no other row containing the centre `first + (last-first)/2 + offset`: nothing changes; otherwise the new index is a registered row other than `from` whose range contains that centre, `onMove(from, to)` then `onReorder` are logged once, and the offset moves by minus the target's height (downwards) or plus the dragged row's height (upwards) |
| ReorderableColumnState.NoCandidateAtRest | uicomponents/src/main/java/com/akari/uicomponents/reorderableComponents/AkariReorderableColumnState.kt:56-68 | when rows meet only at their ends, an undisplaced row has no swap candidate |
| Search.FirstIndex | uicomponents/src/main/java/com/akari/uicomponents/reorderableComponents/AkariReorderableState.kt:78-88 | the scan-and-break loop: the result is the first position whose element satisfies the test, and `None` exactly when none does |
| LazyLayout.VisiblePosition | uicomponents/src/main/java/com/akari/uicomponents/reorderableComponents/AkariReorderableState.kt:64-71 | the first visible item with the dragged index, or `None` when it is not visible |
| ReorderableState.ReorderTarget | uicomponents/src/main/java/com/akari/uicomponents/reorderableComponents/AkariReorderableState.kt:73-90 | the first visible item, in list order, other than the dragged one, whose `[offset, offset+size]` contains `offset + dragOffset + size/2` of the dragged item; `None` when the dragged item is invisible or nothing qualifies |
| ReorderableState.NoReorderAtRest | uicomponents/src/main/java/com/akari/uicomponents/reorderableComponents/AkariReorderableState.kt:73-88 | for visible items laid out in order with positive sizes, an undisplaced drag finds no target |
| ReorderableState.ReorderableState.StartDragging | uicomponents/src/main/java/com/akari/uicomponents/reorderableComponents/AkariReorderableState.kt:40-45 | index, offset 0 and item size set; `onDragStart` logged once if installed |
| ReorderableState.ReorderableState.DragBy | uicomponents/src/main/java/com/akari/uicomponents/reorderableComponents/AkariReorderableState.kt:47-49 | the offset grows by the delta unconditionally |
| ReorderableState.ReorderableState.StopDragging | uicomponents/src/main/java/com/akari/uicomponents/reorderableComponents/AkariReorderableState.kt:51-58 | `onDragEnd` logged only if a drag was active; index, offset and size reset every time |
| ReorderableState.ReorderableState.TryReorder | uicomponents/src/main/java/com/akari/uicomponents/reorderableComponents/AkariReorderableState.kt:59-104 | no change without a drag or without a `ReorderTarget`; otherwise exactly one `onMove(from, target)` then `onReorder`, offset `-targetSize` downwards and `+targetSize` upwards, index `target`; the item size is neither read nor written |
| ReorderableLazyState.Clamp | uicomponents/src/main/java/com/akari/uicomponents/reorderableComponents/AkariReorderableLazyState.kt:124-127 | `coerceIn`: the result lies in the bounds and is the input when the input does |
| ReorderableLazyState.CrossedTarget | uicomponents/src/main/java/com/akari/uicomponents/reorderableComponents/AkariReorderableLazyState.kt:117-136 | the first visible item, in list order, with `from < index` and clamped centre beyond its midpoint, or `from > index` and centre before it; `None` when the dragged item is invisible or nothing qualifies |
| ReorderableLazyState.ShouldSwapSkipsDragged | uicomponents/src/main/java/com/akari/uicomponents/reorderableComponents/AkariReorderableLazyState.kt:130-136 | the swap test never holds for the dragged item itself |
| ReorderableLazyState.NoCrossingAtRest | uicomponents/src/main/java/com/akari/uicomponents/reorderableComponents/AkariReorderableLazyState.kt:119-136 | for an ordered layout whose dragged centre is inside the viewport, an undisplaced drag crosses nothing |
| ReorderableLazyState.LazyState.constructor | uicomponents/src/main/java/com/akari/uicomponents/reorderableComponents/AkariReorderableLazyState.kt:24-63 | public hooks fixed by the constructor, internal hooks not installed, no drag |
| ReorderableLazyState.LazyState.StartDragging | uicomponents/src/main/java/com/akari/uicomponents/reorderableComponents/AkariReorderableLazyState.kt:69-80 | index, offset 0 and size set; `onInternalDragStart` then `onDragStart` logged, each if installed |
| ReorderableLazyState.LazyState.DragBy | uicomponents/src/main/java/com/akari/uicomponents/reorderableComponents/AkariReorderableLazyState.kt:86-89 | the offset grows by the delta unconditionally |
| ReorderableLazyState.LazyState.StopDragging | uicomponents/src/main/java/com/akari/uicomponents/reorderableComponents/AkariReorderableLazyState.kt:94-105 | `onInternalDragEnd` then `onDragEnd` only if a drag was active; index, offset and size reset |
| ReorderableLazyState.LazyState.TryReorder | uicomponents/src/main/java/com/akari/uicomponents/reorderableComponents/AkariReorderableLazyState.kt:113-149 | no change without a drag or without a `CrossedTarget`; otherwise exactly one `onMove(from, j.index)` and only `onInternalReorder`, offset `+(j.index > from ? -1 : 1) * j.size`, index `j.index`; requires an ordered viewport when the dragged item is visible, the case in which `coerceIn` would otherwise throw |
| AutoScroll.ClampUnit | uicomponents/src/main/java/com/akari/uicomponents/reorderableComponents/AkariReorderableLazyColumn.kt:123-128 | `coerceIn(0f, 1f)` lands in `[0, 1]` and keeps values already there |
| AutoScroll.ScrollAmount | uicomponents/src/main/java/com/akari/uicomponents/reorderableComponents/AkariReorderableLazyColumn.kt:121-131 | the amount lies in `[-15, 15]`; it is negative in the start band, which wins where the bands overlap, positive in the end band, and 0 exactly outside both |
| AutoScroll.FullSpeedAtEdges | uicomponents/src/main/java/com/akari/uicomponents/reorderableComponents/AkariReorderableLazyColumn.kt:122-129 | at or beyond an edge the amount is the full 15 pixels towards it |
| AutoScroll.ScrollAmountMonotone | uicomponents/src/main/java/com/akari/uicomponents/reorderableComponents/AkariReorderableLazyColumn.kt:121-131 | the amount never decreases as the centre moves towards the end |
| AutoScroll.ScrollRequest | uicomponents/src/main/java/com/akari/uicomponents/reorderableComponents/AkariReorderableLazyColumn.kt:106-136 | a scroll is requested exactly when a drag is active, the dragged item is visible and its centre `offset + draggedOffsetY + size/2` is in a band; the requested amount is exactly `ScrollAmount` of that centre against the viewport bounds, so `FullSpeedAtEdges` and `ScrollAmountMonotone` apply to it; it is non-zero and bounded |
| AutoScroll.NoScrollWhenNotDragging | uicomponents/src/main/java/com/akari/uicomponents/reorderableComponents/AkariReorderableLazyColumn.kt:70-72 | with no dragged index no frame requests a scroll |
| AutoScroll.ScrollDirection | uicomponents/src/main/java/com/akari/uicomponents/reorderableComponents/AkariReorderableLazyColumn.kt:121-131 | a requested scroll is towards the start exactly when the centre is in the start band |
| HostList.MoveItem | app/src/main/java/com/akari/uicomponents/ui/examples/ReorderableColumnExample.kt:62 | the host's move keeps the list length |
| HostList.MoveItemAt | app/src/main/java/com/akari/uicomponents/ui/examples/ReorderableColumnExample.kt:62 | where each element ends up: the moved one at `to`, those in between shifted by one, the rest in place |
| HostList.MovedElementAtTarget | app/src/main/java/com/akari/uicomponents/ui/examples/ReorderableColumnExample.kt:62 | after the move the dragged element sits at the new dragged index |
| HostList.MoveItemPermutes | app/src/main/java/com/akari/uicomponents/ui/examples/ReorderableColumnExample.kt:62 | the move is a permutation |
| HostList.MoveItemInverse | app/src/main/java/com/akari/uicomponents/ui/examples/ReorderableColumnExample.kt:62 | moving back from `to` to `from` restores the list |
| ReorderHost.ColumnDragStep | uicomponents/src/main/java/com/akari/uicomponents/reorderableComponents/AkariReorderableItem.kt:167-175 | one drag delta (`dragBy`, `tryReorder`, host move): the list stays a permutation and the dragged element is at the dragged index; either nothing moved and no row contains the centre, or the move went to a candidate row |
| ReorderHost.LazyDragStep | uicomponents/src/main/java/com/akari/uicomponents/reorderableComponents/AkariReorderableItem.kt:73-80 | the same for the lazy engine: a permutation with the dragged element at the dragged index |
| ReorderHost.StopTwice | uicomponents/src/main/java/com/akari/uicomponents/reorderableComponents/AkariReorderableColumnState.kt:44-50 | stopping twice logs `onDragEnd` at most once |
| ReorderHost.UnregisteredNeverMoves | uicomponents/src/main/java/com/akari/uicomponents/reorderableComponents/AkariReorderableColumnState.kt:52-54 | a dragged row without bounds never requests a move |
| ReorderHost.TwoRowSwap | uicomponents/src/main/java/com/akari/uicomponents/reorderableComponents/AkariReorderableColumnState.kt:52-88 | rows `[0,50]`, `[50,100]`, drag row 0 by 60: `onMove(0, 1)`, index 1, offset 10 |
| ReorderHost.FiveRowDragUp | uicomponents/src/main/java/com/akari/uicomponents/reorderableComponents/AkariReorderableColumnState.kt:52-88 | five rows of height 40, drag row 2 by -50: `onMove(2, 1)`, list A C B D E, index 1 |
| ReorderHost.LazyDirectionAwareSwap | uicomponents/src/main/java/com/akari/uicomponents/reorderableComponents/AkariReorderableLazyState.kt:129-147 | three items of size 100, drag item 0 by 120 (centre 170): exactly one swap, with item 1 and not item 2, offset 20 |
| TextFieldBehavior.Behavior.constructor | uicomponents/src/main/java/com/akari/uicomponents/textFields/AkariTextFieldBehavior.kt:31-42 | the default arguments: enabled, editable, multi-line, `maxLines = Int.MAX_VALUE`, `minLines = 1` |
| TextFieldBehavior.Behavior.ValidateValues | uicomponents/src/main/java/com/akari/uicomponents/textFields/AkariTextFieldBehavior.kt:43-51 | only `minLines`/`maxLines` are written, and they end up as the configuration record's `normalizedMinLines`/`normalizedMaxLines` for the same inputs |
| TextFieldBehavior.Validated | uicomponents/src/main/java/com/akari/uicomponents/textFields/AkariTextFieldBehavior.kt:43-51 | after validation `1 <= minLines <= maxLines`, both are 1 for a single-line field, a multi-line minimum never decreases, and no other field changes |
| TextFieldBehavior.ValidatedKeepsValid | uicomponents/src/main/java/com/akari/uicomponents/textFields/AkariTextFieldBehavior.kt:48-50 | a multi-line behaviour with `1 <= minLines <= maxLines` is left unchanged |
| TextFieldBehavior.ValidatedIdempotent | uicomponents/src/main/java/com/akari/uicomponents/textFields/AkariTextFieldBehavior.kt:43-51 | validating twice equals validating once |
| TextFieldConfigBehavior.Behavior.NormalizedMinLines | uicomponents/src/main/java/com/akari/uicomponents/textFields/config/AkariTextFieldBehavior.kt:46 | at least 1; 1 for a single-line field; otherwise at least `minLines` and equal to it when it is already positive |
| TextFieldConfigBehavior.Behavior.NormalizedMaxLines | uicomponents/src/main/java/com/akari/uicomponents/textFields/config/AkariTextFieldBehavior.kt:47 | at least the normalised minimum; 1 for a single-line field; otherwise at least `maxLines` and equal to it when it already reaches the minimum |
| TextFieldConfigBehavior.Behavior.Normalized | uicomponents/src/main/java/com/akari/uicomponents/textFields/config/AkariTextFieldBehavior.kt:46-47 | the normalised record has valid line counts and differs from the original only in them |
| TextFieldConfigBehavior.DefaultNormalization | uicomponents/src/main/java/com/akari/uicomponents/textFields/config/AkariTextFieldBehavior.kt:38-47 | the defaults normalise to `(1, Int.MAX_VALUE)` |
| TextFieldConfigBehavior.NormalizationKeepsValid | uicomponents/src/main/java/com/akari/uicomponents/textFields/config/AkariTextFieldBehavior.kt:46-47 | valid multi-line counts normalise to themselves |
| TextFieldConfigBehavior.NormalizationIdempotent | uicomponents/src/main/java/com/akari/uicomponents/textFields/config/AkariTextFieldBehavior.kt:46-47 | normalising twice equals normalising once |
| TextFieldConfigBehavior.NormalizationDependsOnLinesOnly | uicomponents/src/main/java/com/akari/uicomponents/textFields/config/AkariTextFieldBehavior.kt:46-47 | only `singleLine`, `minLines` and `maxLines` decide the normalised pair |
| TextFieldStyle.Style.constructor | uicomponents/src/main/java/com/akari/uicomponents/textFields/AkariTextFieldStyle.kt:25-35 | the fields take the arguments and the outer minimum height is the inner one plus 16dp, fixed at construction |
| TextFieldState.MakeValue | uicomponents/src/main/java/com/akari/uicomponents/textFields/state/AkariTextFieldState.kt:71-77 | a toolkit value keeps its text and has its selection moved into the text |
| TextFieldState.Create | uicomponents/src/main/java/com/akari/uicomponents/textFields/state/AkariTextFieldState.kt:62-66 | construction succeeds exactly when the behaviour has `maxLines >= minLines`, and yields the record unchanged |
| TextFieldState.EmptyIsBlank | uicomponents/src/main/java/com/akari/uicomponents/textFields/state/AkariTextFieldState.kt:68-69 | an empty text is blank |
| TextFieldState.BlankNotEmpty | uicomponents/src/main/java/com/akari/uicomponents/textFields/state/AkariTextFieldState.kt:68-69 | a blank text need not be empty |
| TextFieldState.UpdateValue | uicomponents/src/main/java/com/akari/uicomponents/textFields/state/AkariTextFieldState.kt:71-73 | the copy has the new text, the old selection moved into it, and every other field of the receiver; it fails exactly when the shared behaviour now breaks the constructor's check |
| TextFieldState.ClearValue | uicomponents/src/main/java/com/akari/uicomponents/textFields/state/AkariTextFieldState.kt:75-77 | the copy is empty with selection `(0, 0)` and every other field of the receiver |
| TextFieldState.UpdateLastWins | uicomponents/src/main/java/com/akari/uicomponents/textFields/state/AkariTextFieldState.kt:71-73 | two updates equal the last one when the selection fits the middle text |
| TextFieldState.UpdateRoundTrip | uicomponents/src/main/java/com/akari/uicomponents/textFields/state/AkariTextFieldState.kt:71-73 | writing a text and then the original back restores the state when the selection fits both |
| TextFieldState.ClearAfterUpdate | uicomponents/src/main/java/com/akari/uicomponents/textFields/state/AkariTextFieldState.kt:71-77 | clearing after an update equals clearing the original |
| TextFieldStateBuilder.Variant.constructor | uicomponents/src/main/java/com/akari/uicomponents/textFields/AkariTextFieldVariant.kt:18-25 | a variant holds one style and one behaviour object |
| TextFieldStateBuilder.Builder.constructor | uicomponents/src/main/java/com/akari/uicomponents/textFields/state/AkariTextFieldStateBuilder.kt:24-41 | new default style and behaviour objects: the style has `shape`, `borderThickness`, `colors` and `cursorBrush` absent, no height overrides and an inner height of 24 (so a field height of 40); `labelBehavior = EXTERNAL`, `isError = false`, every slot absent |
| TextFieldStateBuilder.Builder.SelectVariant | uicomponents/src/main/java/com/akari/uicomponents/textFields/state/AkariTextFieldStateBuilder.kt:43-46 | the builder's style and behaviour become the variant's own objects |
| TextFieldStateBuilder.Builder.SelectVariantCopy | uicomponents/src/main/java/com/akari/uicomponents/textFields/state/AkariTextFieldStateBuilder.kt:43-46 | the corrected selector: fresh objects with the variant's field values |
| TextFieldStateBuilder.Builder.StyleBlock | uicomponents/src/main/java/com/akari/uicomponents/textFields/state/AkariTextFieldStateBuilder.kt:51-53 | the block rewrites the current style object in place; the builder keeps the same object |
| TextFieldStateBuilder.Builder.BehaviorBlock | uicomponents/src/main/java/com/akari/uicomponents/textFields/state/AkariTextFieldStateBuilder.kt:58-60 | the block rewrites the current behaviour object in place |
| TextFieldStateBuilder.Builder.Build | uicomponents/src/main/java/com/akari/uicomponents/textFields/state/AkariTextFieldStateBuilder.kt:69-89 | the behaviour is validated first, so the state's constructor check passes and `build` never throws; the state holds every builder field unchanged |
| TextFieldStateBuilder.SharedVariantLeaks | uicomponents/src/main/java/com/akari/uicomponents/textFields/state/AkariTextFieldStateBuilder.kt:43-60 | one field's `behavior { singleLine = true }` after `variant { v }` makes a later field built from `v` single-line |
| TextFieldStateBuilder.CopiedVariantIsolates | uicomponents/src/main/java/com/akari/uicomponents/textFields/state/AkariTextFieldStateBuilder.kt:43-60 | with copying, the later field and the variant stay multi-line |
| TextFieldVisuals.ColorMapComplete | uicomponents/src/main/java/com/akari/uicomponents/textFields/internalConfig/AkariTextFieldVisuals.kt:62-99 | every component and state has an entry, and it is that component's family colour for the state |
| TextFieldVisuals.Visuals.GetColorForComponent | uicomponents/src/main/java/com/akari/uicomponents/textFields/internalConfig/AkariTextFieldVisuals.kt:105-106 | the look-up always finds the table entry, so the `unfocusedIndicatorColor` fallback is never used |
| TextFieldVisuals.Visuals.Invoke | uicomponents/src/main/java/com/akari/uicomponents/textFields/internalConfig/AkariTextFieldVisuals.kt:102-103 | `visuals(c)` is the colour of `c` in the state fixed at construction |
| TextFieldVisuals.HintMatchesText | uicomponents/src/main/java/com/akari/uicomponents/textFields/internalConfig/AkariTextFieldVisuals.kt:75-92 | HINT and TEXT get the same colour in every state |
| TextFieldVisuals.BorderUsesIndicatorColors | uicomponents/src/main/java/com/akari/uicomponents/textFields/internalConfig/AkariTextFieldVisuals.kt:63-68 | BORDER takes the unfocused, focused, error and disabled indicator colours |
| TextFieldVisuals.ErrorStateUsesErrorColors | uicomponents/src/main/java/com/akari/uicomponents/textFields/internalConfig/AkariTextFieldVisuals.kt:62-99 | in the error state every row gives its `error*` colour |
| TextField.VisualStateOf | uicomponents/src/main/java/com/akari/uicomponents/textFields/AkariTextField.kt:109-118 | ERROR exactly when in error; otherwise FOCUSED exactly when focused; otherwise DISABLED exactly when disabled; otherwise UNFOCUSED |
| TextField.RememberedVisualState.Shown | uicomponents/src/main/java/com/akari/uicomponents/textFields/AkariTextField.kt:106-118 | the visual state as written: ERROR exactly when the first composition's state was in error, FOCUSED exactly when it was not and the field is focused; the state handed in later is not consulted |
| TextField.RememberedVisualState.constructor | uicomponents/src/main/java/com/akari/uicomponents/textFields/AkariTextField.kt:109-110 | the keyless `remember` captures the state object of the composition that creates it |
| TextField.StaleErrorState | uicomponents/src/main/java/com/akari/uicomponents/textFields/AkariTextField.kt:68-79 | with `isError = text.length < 3`, a field composed empty and then handed the state for "abc" while focused still shows ERROR, where the new state's flags give FOCUSED |
| TextField.ErrorColorsWin | uicomponents/src/main/java/com/akari/uicomponents/textFields/AkariTextField.kt:109-126 | a field whose visual state was derived with the error flag set draws in error colours whatever its focus and enabled flags |
| TextField.PlaceholderAfterEdits | uicomponents/src/main/java/com/akari/uicomponents/textFields/AkariTextField.kt:180 | the placeholder shows exactly for an empty text with a placeholder: after clearing when one exists, after an update when the new text is empty too |
| TextField.ReadOnlyNeverRequestsFocus | uicomponents/src/main/java/com/akari/uicomponents/textFields/AkariTextField.kt:243-246 | a read-only field never requests focus |
| TextField.SelectAll | uicomponents/src/main/java/com/akari/uicomponents/textFields/AkariTextField.kt:198-202 | the emitted value keeps the text and selects `[0, length)` |
| TextField.FocusStep | uicomponents/src/main/java/com/akari/uicomponents/textFields/AkariTextField.kt:195-208 | gaining focus with `autoSelectOnFocus` and the flag unset emits one select-all value and sets the flag; any other gain emits nothing; losing focus clears the flag and emits nothing |
| TextField.AutoSelectAtMostOncePerSession | uicomponents/src/main/java/com/akari/uicomponents/textFields/AkariTextField.kt:195-208 | during a session without focus loss at most one select-all is emitted, none if the flag was already set |
| TextField.NoAutoSelectNoEmission | uicomponents/src/main/java/com/akari/uicomponents/textFields/AkariTextField.kt:197 | with `autoSelectOnFocus` off no focus change emits a value |
| TextField.ReselectAfterFocusLoss | uicomponents/src/main/java/com/akari/uicomponents/textFields/AkariTextField.kt:205-207 | after a loss of focus the next gain selects again |
| TextField.FocusSelection.OnFocusChanged | uicomponents/src/main/java/com/akari/uicomponents/textFields/AkariTextField.kt:195-208 | the handler updates the flag and emits as `FocusStep` says |
| TextFieldDefaults.PlaceholderAndResting | uicomponents/src/main/java/com/akari/uicomponents/textFields/internalConfig/AkariTextFieldDefaults.kt:162-202 | the placeholder shows exactly for empty text when the label is external or the field is focused; with the built-in label it shows only while the label floats |
| TextFieldDefaults.BorderThickness | uicomponents/src/main/java/com/akari/uicomponents/textFields/internalConfig/AkariTextFieldDefaults.kt:144-150 | focused: the style's focused thickness, else 2dp; unfocused: the style's unfocused thickness, else 1dp |
| TextFieldDefaults.Constraints.ConstrainWidth | uicomponents/src/main/java/com/akari/uicomponents/textFields/internalConfig/AkariTextFieldDefaults.kt:438-445 | the width lands in `[minWidth, maxWidth]` and is kept when already there |
| TextFieldDefaults.Constraints.ConstrainHeight | uicomponents/src/main/java/com/akari/uicomponents/textFields/internalConfig/AkariTextFieldDefaults.kt:446 | the height lands in `[minHeight, maxHeight]` and is kept when already there |
| TextFieldDefaults.TextFieldMaxWidth | uicomponents/src/main/java/com/akari/uicomponents/textFields/internalConfig/AkariTextFieldDefaults.kt:416-424 | the occupied width (icons, prefix, suffix, side paddings) plus the text-field limit is the maximum width when it fits, and the limit is 0 otherwise |
| TextFieldDefaults.ContentHeight | uicomponents/src/main/java/com/akari/uicomponents/textFields/internalConfig/AkariTextFieldDefaults.kt:432-436 | the tallest of the text field and the two icons, plus top and bottom padding |
| TextFieldDefaults.Measure | uicomponents/src/main/java/com/akari/uicomponents/textFields/internalConfig/AkariTextFieldDefaults.kt:399-446 | the text field is measured within the remaining width; the box is the constrained row width by the constrained content height |
| TextFieldDefaults.RowFitsWhenDecorationsFit | uicomponents/src/main/java/com/akari/uicomponents/textFields/internalConfig/AkariTextFieldDefaults.kt:416-445 | when the decorations fit in the maximum width, so does the whole row |
| TextFieldDefaults.LabelTarget | uicomponents/src/main/java/com/akari/uicomponents/textFields/internalConfig/AkariTextFieldDefaults.kt:493-508 | floating: exactly `(0, -(h*3/4))`, so the label straddles the top border (its top at or above 0, its bottom at or below it); resting: over the text field, vertically centred |
| TextFieldDefaults.Place | uicomponents/src/main/java/com/akari/uicomponents/textFields/internalConfig/AkariTextFieldDefaults.kt:448-513 | children left to right (leading, prefix, left padding, text field with the placeholder on it, right padding, suffix, trailing), each at `height/2 - h/2`; a label target only when there is a label |
| TextFieldDefaults.PlacementIsLeftToRight | uicomponents/src/main/java/com/akari/uicomponents/textFields/internalConfig/AkariTextFieldDefaults.kt:450-490 | placed children do not overlap, and the trailing icon ends where the row ends |
| TextFieldDefaults.RowEndsAtBoxEdge | uicomponents/src/main/java/com/akari/uicomponents/textFields/internalConfig/AkariTextFieldDefaults.kt:438-490 | when the decorations fit and the row reaches the minimum width, the last child ends at the box's right edge |
| CheckBoxColors.SlotFor | uicomponents/src/main/java/com/akari/uicomponents/checkbox/AkariCheckBoxColors.kt:35-45 | a disabled slot exactly when disabled, a checked slot exactly when checked |
| CheckBoxColors.SlotForUnique | uicomponents/src/main/java/com/akari/uicomponents/checkbox/AkariCheckBoxColors.kt:35-45 | those two facts determine the slot |
| CheckBoxColors.CheckBoxColors.BoxColor | uicomponents/src/main/java/com/akari/uicomponents/checkbox/AkariCheckBoxColors.kt:35-39 | the box colour is the palette's colour for the slot of `(enabled, checked)`: never a disabled colour when enabled, never an enabled one when disabled |
| CheckBoxColors.CheckBoxColors.BorderColor | uicomponents/src/main/java/com/akari/uicomponents/checkbox/AkariCheckBoxColors.kt:41-45 | the same split over the border colours |

## Left out

- Rendering, animation and graphics-layer effects are the UI toolkit's. This covers item transforms while dragging, the label scale, `animateColorAsState`, the checkbox transitions and the border cut-path drawing in `AkariTextFieldDefaults.kt:300-370`.
- The auto-scroll coroutine is not modelled: the `while (true)` frame loop, `withFrameNanos` and the `scrollBy` call itself. `AutoScroll.ScrollRequest` is one frame's decision.
- Side effects with nothing to state are not modelled: haptic feedback wiring, `Log.d`, and `DebugStateIdentity`. Hooks appear only as log entries.
- The column screen assigns `onInternal*` hooks to a column state that does not declare them. The lazy column passes an `AkariReorderableState` to an item overload for the lazy state. Each state class is modelled from its own file, not from that wiring.
- Callbacks are not re-entered. `onMove` and the hooks only append to the log: a callback that mutated the engine would not be seen. An example is a host that re-registers bounds from inside `onMove`.
- Kotlin `Float` rounding is not modelled. Offsets and centres are exact reals.
- ReorderableLazyState.LazyState.TryReorder: the `IllegalArgumentException` that `coerceIn` throws on an inverted viewport is excluded by a precondition rather than modelled, because the toolkit's layout info always has `viewportStartOffset <= viewportEndOffset`.
- Integer overflow in pixel arithmetic is not modelled. Sums of widths and `h * 3` in the layout are unbounded.
- `variant { … }` calls its lambda twice in the source, once for the style and once for the behaviour. The model takes the variant object once. That is the same thing for the `data object` variants.
- `textFieldPadding { … }` (`AkariTextFieldStateBuilder.kt:65-67`) is left out: it refers to a `textFieldPadding` property that `AkariTextFieldStyle` does not declare.
- The decoration box's colour look-ups for `CONTAINER`, `LABEL`, `LEADING`, `TRAILING`, `PREFIX` and `SUFFIX` are left out: those components are missing from the `Component` enum.
- Measuring a child is the toolkit's job and is not modelled. Children arrive with their sizes. The text field's preferred size is moved into its constraints.
- `AkariLabelBehavior` is not part of this model beyond the two values the code uses, `FLOATING` and `EXTERNAL`.
- The toolkit's `TextFieldValue` keeps a composition range. The model keeps only the text and the selection.
- TextFieldState.MakeValue: lengths and selection offsets are counted in Unicode characters, not in the UTF-16 code units Kotlin's `String.length` and the toolkit's `TextRange` use. For text outside the Basic Multilingual Plane the model's clamp bound is smaller, and an offset cannot fall inside a surrogate pair.
- TextFieldState.UpdateValue: the kept selection is clamped to the new text's length in characters, not in UTF-16 code units, for the same reason as `MakeValue`.
- TextField.SelectAll: the selection ends at the text's length in characters. For text containing a character outside the Basic Multilingual Plane the source's end offset, in UTF-16 units, is larger.
- Keyed `remember` caching is modelled as plain functions of its keys. The keyless visual-state `remember` of `AkariTextField` is modelled as written and listed under "## Findings".
- `AkariTextFieldStyle.minHeightTextField` is modelled as written. It is a value fixed when the style is constructed, so a later `style { minHeightInnerTextField = … }` does not update it.
- Tooltips, buttons, FABs, the `remember*` helpers and the remaining config classes and builders only copy or delegate. They are not modelled.
- `AkariTextFieldConfigBuilder.build` never passes on its padding builder. This is not modelled.

## Findings

| source | as written | input that shows it | evidently intended | confidence | as-written member | corrected member |
|---|---|---|---|---|---|---|
| uicomponents/src/main/java/com/akari/uicomponents/textFields/state/AkariTextFieldStateBuilder.kt:43-46 | `variant { v }` stores `v.style` and `v.behavior`, the variant singleton's own mutable objects. Later `style { }`/`behavior { }` blocks and `build`'s `validateValues` then write into the singleton. | field 1: `variant { Outlined }; behavior { singleLine = true }`; field 2: `variant { Outlined }` with no configuration also comes out single-line | each builder works on its own copy of the variant's style and behaviour | high; not executed | TextFieldStateBuilder.SharedVariantLeaks | TextFieldStateBuilder.Builder.SelectVariantCopy |
| uicomponents/src/main/java/com/akari/uicomponents/textFields/AkariTextField.kt:109-118 | `remember { derivedStateOf { … } }` has no keys, so it keeps the first composition's `state` (and its `isError`) and `behavior.enabled`; only `isFocused` is tracked | the usage example `isError = text.length < 3`: start with "", type "abc" while focused; the field stays ERROR | the visual state follows the current state's `isError` and `enabled` (`remember(state) { … }` or reading them as snapshot state) | medium; not executed | TextField.StaleErrorState | TextField.VisualStateOf |

`TextFieldStateBuilder.CopiedVariantIsolates` proves the intended property for the copying selector: the second field and the variant itself stay multi-line.
