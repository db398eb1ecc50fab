/**
 * The immutable text-field state (state/AkariTextFieldState.kt): a record of the current value,
 * the style and behaviour objects and the optional slots, whose construction checks the line
 * counts of the behaviour object it refers to.
 */
module TextFieldState {
  import opened Wrappers
  import TextFieldConfigBehavior
  import opened TextFieldBehavior
  import opened TextFieldStyle

  /** The identity of a callback or composable slot; nothing here calls it. */
  type Lambda = nat

  /** A text selection `[start, end)`. */
  datatype TextRange = TextRange(start: int, end: int)

  /** The toolkit's text value: the text and its selection (composition is not modelled). */
  datatype TextFieldValue = TextFieldValue(text: string, selection: TextRange)

  function CoerceIn(x: int, lo: int, hi: int): int
    requires lo <= hi
  {
    if x < lo then lo else if x > hi then hi else x
  }

  /** The selection moved into `[0, length]`, as the toolkit does whenever a value is made. */
  function Constrain(r: TextRange, length: nat): (c: TextRange)
    ensures 0 <= c.start <= length && 0 <= c.end <= length
    ensures 0 <= r.start <= length && 0 <= r.end <= length ==> c == r
  {
    TextRange(CoerceIn(r.start, 0, length), CoerceIn(r.end, 0, length))
  }

  /** A value built by the toolkit; the default selection is the empty range at 0. */
  function MakeValue(text: string, selection: TextRange := TextRange(0, 0)): (v: TextFieldValue)
    ensures v.text == text && v.selection == Constrain(selection, |text|)
  {
    TextFieldValue(text, Constrain(selection, |text|))
  }

  datatype State = State(
    value: TextFieldValue,
    onValueChange: Lambda,
    style: Style,
    behavior: Behavior,
    labelSlot: Option<Lambda>,
    labelBehavior: TextFieldConfigBehavior.LabelBehavior,
    placeholder: Option<Lambda>,
    prefix: Option<Lambda>,
    suffix: Option<Lambda>,
    isError: bool,
    supportingText: Option<Lambda>,
    leadingIcon: Option<Lambda>,
    trailingIcon: Option<Lambda>,
    focusRequester: Option<Lambda>,
    focusProperties: Lambda,
    onTextLayout: Lambda)

  /** The data class's constructor: its `init` block rejects a behaviour with `maxLines < minLines`. */
  function Create(st: State): (r: Result<State>)
    reads st.behavior
    ensures r.Success? <==> st.behavior.maxLines >= st.behavior.minLines
    ensures r.Success? ==> r.value == st
  {
    if st.behavior.maxLines >= st.behavior.minLines then Success(st)
    else Failure("maxLines debe ser mayor o igual que minLines")
  }

  function ValueText(st: State): string {
    st.value.text
  }

  /** Kotlin's `Char.isWhitespace`: Java whitespace or a Unicode space separator. */
  predicate IsWhitespace(c: char) {
    || c == '\t' || c == '\n' || c == '\U{000B}' || c == '\U{000C}' || c == '\r'
    || ('\U{001C}' <= c <= '\U{001F}')
    || c == ' ' || c == '\U{00A0}' || c == '\U{1680}'
    || ('\U{2000}' <= c <= '\U{200A}')
    || c == '\U{2028}' || c == '\U{2029}' || c == '\U{202F}' || c == '\U{205F}' || c == '\U{3000}'
  }

  predicate IsEmpty(st: State) {
    |ValueText(st)| == 0
  }

  predicate IsBlank(st: State) {
    forall i :: 0 <= i < |ValueText(st)| ==> IsWhitespace(ValueText(st)[i])
  }

  /** An empty text is blank. */
  lemma EmptyIsBlank(st: State)
    requires IsEmpty(st)
    ensures IsBlank(st)
  {
  }

  /** Blankness does not imply emptiness: a single space is blank but not empty. */
  lemma BlankNotEmpty(st: State)
    requires ValueText(st) == " "
    ensures IsBlank(st) && !IsEmpty(st)
  {
  }

  /**
   * A copy with the text replaced and the selection kept (moved into the new text); every other
   * field is the receiver's. The copy goes through the constructor again, so it fails when the
   * shared behaviour object has meanwhile been given `maxLines < minLines`.
   */
  function UpdateValue(st: State, newText: string): (r: Result<State>)
    reads st.behavior
    ensures r.Success? <==> st.behavior.maxLines >= st.behavior.minLines
    ensures r.Success? ==>
      && ValueText(r.value) == newText
      && r.value.value.selection == Constrain(st.value.selection, |newText|)
      && r.value.(value := st.value) == st
  {
    Create(st.(value := MakeValue(newText, st.value.selection)))
  }

  /** A copy with an empty value and an empty selection at 0; every other field is the receiver's. */
  function ClearValue(st: State): (r: Result<State>)
    reads st.behavior
    ensures r.Success? <==> st.behavior.maxLines >= st.behavior.minLines
    ensures r.Success? ==>
      && IsEmpty(r.value)
      && r.value.value.selection == TextRange(0, 0)
      && r.value.(value := st.value) == st
  {
    Create(st.(value := MakeValue("")))
  }

  /** Updating twice is updating once with the last text, when the selection fits in the middle text. */
  lemma UpdateLastWins(st: State, a: string, b: string)
    requires st.behavior.maxLines >= st.behavior.minLines
    requires 0 <= st.value.selection.start <= |a| && 0 <= st.value.selection.end <= |a|
    ensures UpdateValue(UpdateValue(st, a).value, b) == UpdateValue(st, b)
  {
  }

  /**
   * Writing a text and then the original text back restores the state, provided the selection
   * lies within both texts.
   */
  lemma {:induction false} UpdateRoundTrip(st: State, a: string)
    requires st.behavior.maxLines >= st.behavior.minLines
    requires 0 <= st.value.selection.start <= |a| && 0 <= st.value.selection.end <= |a|
    requires 0 <= st.value.selection.start <= |st.value.text| && 0 <= st.value.selection.end <= |st.value.text|
    ensures UpdateValue(UpdateValue(st, a).value, ValueText(st)) == Success(st)
  {
    var mid := UpdateValue(st, a).value;
    assert mid.value.selection == st.value.selection;
    var back := UpdateValue(mid, ValueText(st)).value;
    assert back.value == st.value;
    assert back.(value := mid.value) == mid;
  }

  /** Clearing after any update is clearing the original. */
  lemma ClearAfterUpdate(st: State, a: string)
    requires st.behavior.maxLines >= st.behavior.minLines
    ensures ClearValue(UpdateValue(st, a).value) == ClearValue(st)
  {
  }
}
