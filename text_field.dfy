/**
 * The decision rules of the text-field composable (textFields/AkariTextField.kt): the visual
 * state, the once-per-focus auto-selection, placeholder visibility and the focus request.
 */
module TextField {
  import opened Wrappers
  import opened TextFieldState
  import opened TextFieldVisuals
  import TextFieldConfigBehavior
  import TextFieldBehavior
  import TextFieldStyle

  /** An error shows over everything, then focus, then a disabled field; otherwise unfocused. */
  function VisualStateOf(isError: bool, isFocused: bool, enabled: bool): (r: VisualState)
    ensures r == ERROR <==> isError
    ensures r == FOCUSED <==> !isError && isFocused
    ensures r == DISABLED <==> !isError && !isFocused && !enabled
    ensures r == UNFOCUSED <==> !isError && !isFocused && enabled
  {
    if isError then ERROR
    else if isFocused then FOCUSED
    else if !enabled then DISABLED
    else UNFOCUSED
  }

  /** A field in error draws every part in its `error*` colour, focused or not, enabled or not. */
  lemma ErrorColorsWin(colors: TextFieldColors, isFocused: bool, enabled: bool, c: Component)
    ensures Visuals(colors, VisualStateOf(true, isFocused, enabled)).Invoke(c) ==
            colors.Pick(FamilyOf(c), ERROR)
  {
  }

  /**
   * The visual state as the composable keeps it. `remember { derivedStateOf { … } }` has no keys,
   * so it holds on to the state object, and through it the behaviour, of the composition that
   * created it. Only `isFocused`, a snapshot state, is read afresh: a later state object with
   * another `isError` does not reach it.
   */
  class RememberedVisualState {
    const first: State

    constructor (first: State)
      ensures this.first == first
    {
      this.first := first;
    }

    /** The visual state shown while the composable is handed `current`, which is not consulted. */
    function Shown(current: State, isFocused: bool): (r: VisualState)
      reads first.behavior
      ensures r == ERROR <==> first.isError
      ensures r == FOCUSED <==> !first.isError && isFocused
    {
      VisualStateOf(first.isError, isFocused, first.behavior.enabled)
    }
  }

  /**
   * The usage example's field with `isError = text.length < 3`: composed first with an empty
   * text, so in error, and then handed the state rebuilt for "abc" while focused. The remembered
   * visual state stays ERROR; the rebuilt state's own flags ask for FOCUSED.
   */
  method StaleErrorState() returns (shown: VisualState, intended: VisualState)
    ensures shown == ERROR && intended == FOCUSED
  {
    var style := new TextFieldStyle.Style();
    var behavior := new TextFieldBehavior.Behavior();
    var empty := State(MakeValue(""), 0, style, behavior, None, TextFieldConfigBehavior.External,
                       None, None, None, |""| < 3, None, None, None, None, 0, 0);
    var typed := empty.(value := MakeValue("abc"), isError := |"abc"| < 3);
    var remembered := new RememberedVisualState(empty);
    shown := remembered.Shown(typed, true);
    intended := VisualStateOf(typed.isError, true, typed.behavior.enabled);
  }

  /** The placeholder is shown while the text is empty, if there is one. */
  predicate PlaceholderVisible(text: string, placeholder: Option<Lambda>) {
    |text| == 0 && placeholder.Some?
  }

  /** Focus is requested on launch only for an editable field that asks for it. */
  predicate ShouldRequestFocus(readOnly: bool, requestFocus: bool) {
    !readOnly && requestFocus
  }

  /** A cleared state shows its placeholder exactly when it has one; an updated one exactly when the new text is empty too. */
  lemma PlaceholderAfterEdits(st: State, newText: string)
    requires st.behavior.maxLines >= st.behavior.minLines
    ensures var c := ClearValue(st).value;
      PlaceholderVisible(ValueText(c), c.placeholder) <==> st.placeholder.Some?
    ensures var u := UpdateValue(st, newText).value;
      PlaceholderVisible(ValueText(u), u.placeholder) <==> |newText| == 0 && st.placeholder.Some?
  {
  }

  /** A read-only field never asks for focus, whatever `requestFocus` says. */
  lemma ReadOnlyNeverRequestsFocus(requestFocus: bool)
    ensures !ShouldRequestFocus(true, requestFocus)
  {
  }

  /** The value with the whole text selected. */
  function SelectAll(v: TextFieldValue): (r: TextFieldValue)
    ensures r.text == v.text && r.selection == TextRange(0, |v.text|)
  {
    MakeValue(v.text, TextRange(0, |v.text|))
  }

  /** A focus change as the composable sees it: the new focus and the field's value at that moment. */
  datatype FocusChange = FocusChange(isFocused: bool, value: TextFieldValue)

  /** The new `hasAutoSelected` flag and the values handed to `onValueChange` for one focus change. */
  function FocusStep(hasAutoSelected: bool, autoSelectOnFocus: bool, e: FocusChange): (r: (bool, seq<TextFieldValue>))
    ensures !e.isFocused ==> r == (false, [])
    ensures e.isFocused ==> r.0 == (hasAutoSelected || autoSelectOnFocus)
    ensures |r.1| <= 1
    ensures |r.1| == 1 <==> e.isFocused && autoSelectOnFocus && !hasAutoSelected
    ensures |r.1| == 1 ==> r.1[0] == SelectAll(e.value)
  {
    if e.isFocused then
      if autoSelectOnFocus && !hasAutoSelected then (true, [SelectAll(e.value)])
      else (hasAutoSelected, [])
    else (false, [])
  }

  /** The flag and the emitted values after a sequence of focus changes. */
  function FocusRun(hasAutoSelected: bool, autoSelectOnFocus: bool, es: seq<FocusChange>): (bool, seq<TextFieldValue>)
    decreases |es|
  {
    if |es| == 0 then (hasAutoSelected, [])
    else
      var first := FocusStep(hasAutoSelected, autoSelectOnFocus, es[0]);
      var rest := FocusRun(first.0, autoSelectOnFocus, es[1..]);
      (rest.0, first.1 + rest.1)
  }

  /** Within one focus session (no loss of focus) the whole text is selected at most once, and not at all if already done. */
  lemma {:induction false} AutoSelectAtMostOncePerSession(has: bool, auto: bool, es: seq<FocusChange>)
    requires forall i :: 0 <= i < |es| ==> es[i].isFocused
    ensures |FocusRun(has, auto, es).1| <= (if has then 0 else 1)
    ensures has ==> FocusRun(has, auto, es).0
    decreases |es|
  {
    if |es| > 0 {
      var first := FocusStep(has, auto, es[0]);
      AutoSelectAtMostOncePerSession(first.0, auto, es[1..]);
    }
  }

  /** Without `autoSelectOnFocus` no focus change ever emits a value. */
  lemma {:induction false} NoAutoSelectNoEmission(has: bool, es: seq<FocusChange>)
    ensures FocusRun(has, false, es).1 == []
    decreases |es|
  {
    if |es| > 0 {
      NoAutoSelectNoEmission(FocusStep(has, false, es[0]).0, es[1..]);
    }
  }

  /** After losing focus the next gain of focus selects again. */
  lemma ReselectAfterFocusLoss(has: bool, v: TextFieldValue, w: TextFieldValue)
    ensures FocusRun(has, true, [FocusChange(false, v), FocusChange(true, w)]).1 == [SelectAll(w)]
  {
    var es := [FocusChange(false, v), FocusChange(true, w)];
    assert es[1..] == [FocusChange(true, w)];
    assert es[1..][1..] == [];
    assert FocusRun(false, true, es[1..]).1 == [SelectAll(w)] + [];
  }

  /** The composable's saved `hasAutoSelected` flag and the values it hands to `onValueChange`. */
  class FocusSelection {
    var hasAutoSelected: bool
    var emitted: seq<TextFieldValue>

    constructor ()
      ensures !hasAutoSelected && emitted == []
    {
      hasAutoSelected := false;
      emitted := [];
    }

    /** The `onFocusChanged` handler. */
    method OnFocusChanged(isFocused: bool, autoSelectOnFocus: bool, value: TextFieldValue)
      modifies this
      ensures var r := FocusStep(old(hasAutoSelected), autoSelectOnFocus, FocusChange(isFocused, value));
        hasAutoSelected == r.0 && emitted == old(emitted) + r.1
    {
      if isFocused {
        if autoSelectOnFocus && !hasAutoSelected {
          emitted := emitted + [MakeValue(value.text, TextRange(0, |value.text|))];
          hasAutoSelected := true;
        }
      } else {
        hasAutoSelected := false;
      }
    }
  }
}
