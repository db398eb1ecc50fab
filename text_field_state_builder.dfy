/**
 * The state builder DSL (state/AkariTextFieldStateBuilder.kt): mutable slots, a variant
 * selector, receiver blocks that rewrite the style and behaviour objects in place, and `build`,
 * which validates the behaviour before making the state.
 */
module TextFieldStateBuilder {
  import opened Wrappers
  import TextFieldConfigBehavior
  import opened TextFieldBehavior
  import opened TextFieldStyle
  import opened TextFieldState

  /** A text-field variant: a holder of one style object and one behaviour object. */
  class Variant {
    const style: Style
    const behavior: Behavior

    constructor (style: Style, behavior: Behavior)
      ensures this.style == style && this.behavior == behavior
    {
      this.style := style;
      this.behavior := behavior;
    }
  }

  class Builder {
    const value: TextFieldValue
    const onValueChange: Lambda
    var style: Style
    var behavior: Behavior
    var labelSlot: Option<Lambda>
    var labelBehavior: TextFieldConfigBehavior.LabelBehavior
    var placeholder: Option<Lambda>
    var prefix: Option<Lambda>
    var suffix: Option<Lambda>
    var isError: bool
    var supportingText: Option<Lambda>
    var leadingIcon: Option<Lambda>
    var trailingIcon: Option<Lambda>
    var focusRequester: Option<Lambda>
    var focusProperties: Lambda
    var onTextLayout: Lambda

    /** A fresh builder: new default style and behaviour, external label, no error, no slots. */
    constructor (value: TextFieldValue, onValueChange: Lambda, noOp: Lambda)
      ensures this.value == value && this.onValueChange == onValueChange
      ensures fresh(style) && fresh(behavior)
      ensures style.Fields() == StyleFields(0, 0, 24.0, None, None, None, None)
      ensures style.minHeightTextField == 40.0
      ensures behavior.Fields() == BehaviorFields(true, false, false, TextFieldConfigBehavior.IntMax, 1, false, false, 0, 0, 0)
      ensures labelSlot.None? && labelBehavior == TextFieldConfigBehavior.External
      ensures placeholder.None? && prefix.None? && suffix.None? && !isError
      ensures supportingText.None? && leadingIcon.None? && trailingIcon.None? && focusRequester.None?
      ensures focusProperties == noOp && onTextLayout == noOp
    {
      this.value := value;
      this.onValueChange := onValueChange;
      style := new Style();
      behavior := new Behavior();
      labelSlot := None;
      labelBehavior := TextFieldConfigBehavior.External;
      placeholder, prefix, suffix := None, None, None;
      isError := false;
      supportingText, leadingIcon, trailingIcon := None, None, None;
      focusRequester := None;
      focusProperties, onTextLayout := noOp, noOp;
    }

    /** `variant { v }` as written: the builder takes the variant's own objects, not copies. */
    method SelectVariant(v: Variant)
      modifies this`style, this`behavior
      ensures style == v.style && behavior == v.behavior
    {
      style := v.style;
      behavior := v.behavior;
    }

    /** The corrected selector: the builder gets fresh copies of the variant's objects. */
    method SelectVariantCopy(v: Variant)
      modifies this`style, this`behavior
      ensures fresh(style) && fresh(behavior)
      ensures style.Fields() == v.style.Fields() && behavior.Fields() == v.behavior.Fields()
      ensures style.minHeightTextField == v.style.minHeightInnerTextField + ContainerPaddingAllowance
    {
      var s := v.style;
      var b := v.behavior;
      style := new Style(s.textStyle, s.contentPadding, s.minHeightInnerTextField, s.shape,
                         s.borderThickness, s.colors, s.cursorBrush);
      behavior := new Behavior(b.enabled, b.readOnly, b.singleLine, b.maxLines, b.minLines,
                               b.autoSelectOnFocus, b.requestFocus, b.keyboardOptions,
                               b.keyboardActions, b.visualTransformation);
    }

    /** `style { ... }`: the block rewrites the current style object in place. */
    method StyleBlock(block: StyleFields -> StyleFields)
      modifies style
      ensures style.Fields() == block(old(style.Fields()))
    {
      style.Assign(block(style.Fields()));
    }

    /** `behavior { ... }`: the block rewrites the current behaviour object in place. */
    method BehaviorBlock(block: BehaviorFields -> BehaviorFields)
      modifies behavior
      ensures behavior.Fields() == block(old(behavior.Fields()))
    {
      behavior.Assign(block(behavior.Fields()));
    }

    /**
     * Validates the behaviour object in place, then makes a state holding every builder field;
     * the constructor's line-count check therefore always passes.
     */
    method Build() returns (st: State)
      modifies behavior
      ensures behavior.Fields() == Validated(old(behavior.Fields()))
      ensures Create(st) == Success(st)
      ensures st == State(value, onValueChange, style, behavior, labelSlot, labelBehavior,
                          placeholder, prefix, suffix, isError, supportingText, leadingIcon,
                          trailingIcon, focusRequester, focusProperties, onTextLayout)
    {
      behavior.ValidateValues();
      st := State(value, onValueChange, style, behavior, labelSlot, labelBehavior, placeholder,
                  prefix, suffix, isError, supportingText, leadingIcon, trailingIcon,
                  focusRequester, focusProperties, onTextLayout);
    }
  }

  function MakeSingleLine(f: BehaviorFields): BehaviorFields {
    f.(singleLine := true)
  }

  /**
   * Two fields built from the same variant: the first makes its behaviour single-line, and the
   * second, which configures nothing, comes out single-line too.
   */
  method SharedVariantLeaks() returns (secondIsSingleLine: bool)
    ensures secondIsSingleLine
  {
    var outlinedStyle := new Style();
    var outlinedBehavior := new Behavior();
    var outlined := new Variant(outlinedStyle, outlinedBehavior);
    var first := new Builder(MakeValue(""), 1, 0);
    first.SelectVariant(outlined);
    first.BehaviorBlock(MakeSingleLine);
    var _ := first.Build();

    var second := new Builder(MakeValue(""), 2, 0);
    second.SelectVariant(outlined);
    var st := second.Build();
    secondIsSingleLine := st.behavior.singleLine;
  }

  /** With copies, the first field's configuration stays its own and the variant keeps its defaults. */
  method CopiedVariantIsolates() returns (secondIsSingleLine: bool, variantIsSingleLine: bool)
    ensures !secondIsSingleLine && !variantIsSingleLine
  {
    var outlinedStyle := new Style();
    var outlinedBehavior := new Behavior();
    var outlined := new Variant(outlinedStyle, outlinedBehavior);
    var first := new Builder(MakeValue(""), 1, 0);
    first.SelectVariantCopy(outlined);
    first.BehaviorBlock(MakeSingleLine);
    var _ := first.Build();

    var second := new Builder(MakeValue(""), 2, 0);
    second.SelectVariantCopy(outlined);
    var st := second.Build();
    secondIsSingleLine := st.behavior.singleLine;
    variantIsSingleLine := outlined.behavior.singleLine;
  }
}
