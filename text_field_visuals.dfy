/**
 * The text field's colour table (internalConfig/AkariTextFieldVisuals.kt): for each visual part
 * and each visual state, the colour taken from the toolkit's colour set.
 */
module TextFieldVisuals {

  /** A colour value; the model only tells colours apart by where they come from. */
  type Color = nat

  datatype Component = BORDER | BACKGROUND | HINT | PLACEHOLDER | TEXT | SUPPORTING

  datatype VisualState = UNFOCUSED | FOCUSED | ERROR | DISABLED

  /** The groups of four colours, one per state, a component can draw from. */
  datatype Family = Indicator | Container | Text | Placeholder | SupportingText

  /** The colours of the toolkit's colour set that the table reads. */
  datatype TextFieldColors = TextFieldColors(
    unfocusedIndicatorColor: Color, focusedIndicatorColor: Color,
    errorIndicatorColor: Color, disabledIndicatorColor: Color,
    unfocusedContainerColor: Color, focusedContainerColor: Color,
    errorContainerColor: Color, disabledContainerColor: Color,
    unfocusedTextColor: Color, focusedTextColor: Color,
    errorTextColor: Color, disabledTextColor: Color,
    unfocusedPlaceholderColor: Color, focusedPlaceholderColor: Color,
    errorPlaceholderColor: Color, disabledPlaceholderColor: Color,
    unfocusedSupportingTextColor: Color, focusedSupportingTextColor: Color,
    errorSupportingTextColor: Color, disabledSupportingTextColor: Color)
  {
    /** The colour of a family for a state: the `unfocused*`, `focused*`, `error*` or `disabled*` member. */
    function Pick(f: Family, s: VisualState): Color {
      match f
      case Indicator =>
        (match s
         case UNFOCUSED => unfocusedIndicatorColor case FOCUSED => focusedIndicatorColor
         case ERROR => errorIndicatorColor case DISABLED => disabledIndicatorColor)
      case Container =>
        (match s
         case UNFOCUSED => unfocusedContainerColor case FOCUSED => focusedContainerColor
         case ERROR => errorContainerColor case DISABLED => disabledContainerColor)
      case Text =>
        (match s
         case UNFOCUSED => unfocusedTextColor case FOCUSED => focusedTextColor
         case ERROR => errorTextColor case DISABLED => disabledTextColor)
      case Placeholder =>
        (match s
         case UNFOCUSED => unfocusedPlaceholderColor case FOCUSED => focusedPlaceholderColor
         case ERROR => errorPlaceholderColor case DISABLED => disabledPlaceholderColor)
      case SupportingText =>
        (match s
         case UNFOCUSED => unfocusedSupportingTextColor case FOCUSED => focusedSupportingTextColor
         case ERROR => errorSupportingTextColor case DISABLED => disabledSupportingTextColor)
    }
  }

  /** Which family each component draws from; the hint shares the text colours. */
  function FamilyOf(c: Component): Family {
    match c
    case BORDER => Indicator
    case BACKGROUND => Container
    case HINT => Text
    case PLACEHOLDER => Placeholder
    case TEXT => Text
    case SUPPORTING => SupportingText
  }

  function Row(colors: TextFieldColors, f: Family): map<VisualState, Color> {
    map[UNFOCUSED := colors.Pick(f, UNFOCUSED), FOCUSED := colors.Pick(f, FOCUSED),
        ERROR := colors.Pick(f, ERROR), DISABLED := colors.Pick(f, DISABLED)]
  }

  /** The nested table, one row per component. */
  function BuildColorMap(colors: TextFieldColors): map<Component, map<VisualState, Color>> {
    map[BORDER := Row(colors, Indicator), BACKGROUND := Row(colors, Container),
        HINT := Row(colors, Text), PLACEHOLDER := Row(colors, Placeholder),
        TEXT := Row(colors, Text), SUPPORTING := Row(colors, SupportingText)]
  }

  /** Every (component, state) pair has an entry, and it is the component's family colour for that state. */
  lemma {:induction false} ColorMapComplete(colors: TextFieldColors, c: Component, s: VisualState)
    ensures c in BuildColorMap(colors) && s in BuildColorMap(colors)[c]
    ensures BuildColorMap(colors)[c][s] == colors.Pick(FamilyOf(c), s)
  {
    match c
    case BORDER =>
    case BACKGROUND =>
    case HINT =>
    case PLACEHOLDER =>
    case TEXT =>
    case SUPPORTING =>
  }

  /** A colour table fixed to one visual state. */
  datatype Visuals = Visuals(colors: TextFieldColors, state: VisualState)
  {
    /** The table look-up, falling back to the unfocused indicator colour for a missing entry. */
    function GetColorForComponent(c: Component, s: VisualState): (r: Color)
      ensures r == colors.Pick(FamilyOf(c), s)
    {
      ColorMapComplete(colors, c, s);
      var table := BuildColorMap(colors);
      if c in table && s in table[c] then table[c][s] else colors.unfocusedIndicatorColor
    }

    /** `visuals(c)`: the colour of `c` in the state fixed at construction. */
    function Invoke(c: Component): (r: Color)
      ensures r == colors.Pick(FamilyOf(c), state)
    {
      GetColorForComponent(c, state)
    }
  }

  /** The hint and the text always get the same colour. */
  lemma HintMatchesText(v: Visuals)
    ensures v.Invoke(HINT) == v.Invoke(TEXT)
  {
  }

  /** The border follows the four indicator colours, state by state. */
  lemma BorderUsesIndicatorColors(colors: TextFieldColors)
    ensures Visuals(colors, UNFOCUSED).Invoke(BORDER) == colors.unfocusedIndicatorColor
    ensures Visuals(colors, FOCUSED).Invoke(BORDER) == colors.focusedIndicatorColor
    ensures Visuals(colors, ERROR).Invoke(BORDER) == colors.errorIndicatorColor
    ensures Visuals(colors, DISABLED).Invoke(BORDER) == colors.disabledIndicatorColor
  {
  }

  /** In the error state every component takes its family's `error*` colour. */
  lemma ErrorStateUsesErrorColors(colors: TextFieldColors, c: Component)
    ensures Visuals(colors, ERROR).Invoke(c) ==
      match FamilyOf(c)
      case Indicator => colors.errorIndicatorColor
      case Container => colors.errorContainerColor
      case Text => colors.errorTextColor
      case Placeholder => colors.errorPlaceholderColor
      case SupportingText => colors.errorSupportingTextColor
  {
  }
}
