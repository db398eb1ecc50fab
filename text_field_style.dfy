/**
 * The mutable style object of the text field (textFields/AkariTextFieldStyle.kt). Only the
 * minimum heights are numbers here; the other fields are opaque toolkit values.
 */
module TextFieldStyle {
  import opened Wrappers
  import opened TextFieldConfigBehavior

  /** A snapshot of every `var` field, which is what a style block can rewrite. */
  datatype StyleFields = StyleFields(
    textStyle: Opaque,
    contentPadding: Opaque,
    minHeightInnerTextField: real,
    shape: Option<Opaque>,
    borderThickness: Option<real>,
    colors: Option<Opaque>,
    cursorBrush: Option<Opaque>)

  /** The 8dp top and bottom padding the outer minimum height adds to the inner one. */
  const ContainerPaddingAllowance: real := 16.0

  class Style {
    var textStyle: Opaque
    var contentPadding: Opaque
    var minHeightInnerTextField: real
    var shape: Option<Opaque>
    var borderThickness: Option<real>
    var colors: Option<Opaque>
    var cursorBrush: Option<Opaque>
    // A `val` initialised from the constructor argument: later writes to the inner height do not reach it.
    const minHeightTextField: real

    constructor (textStyle: Opaque := 0, contentPadding: Opaque := 0,
                 minHeightInnerTextField: real := 24.0, shape: Option<Opaque> := None,
                 borderThickness: Option<real> := None, colors: Option<Opaque> := None,
                 cursorBrush: Option<Opaque> := None)
      ensures Fields() == StyleFields(textStyle, contentPadding, minHeightInnerTextField, shape,
                                      borderThickness, colors, cursorBrush)
      ensures minHeightTextField == minHeightInnerTextField + ContainerPaddingAllowance
    {
      this.textStyle := textStyle;
      this.contentPadding := contentPadding;
      this.minHeightInnerTextField := minHeightInnerTextField;
      this.shape := shape;
      this.borderThickness := borderThickness;
      this.colors := colors;
      this.cursorBrush := cursorBrush;
      this.minHeightTextField := minHeightInnerTextField + ContainerPaddingAllowance;
    }

    function Fields(): StyleFields
      reads this
    {
      StyleFields(textStyle, contentPadding, minHeightInnerTextField, shape, borderThickness,
                  colors, cursorBrush)
    }

    /** What a receiver block run with `apply` does: it rewrites the fields of this same object. */
    method Assign(f: StyleFields)
      modifies this
      ensures Fields() == f
    {
      textStyle := f.textStyle;
      contentPadding := f.contentPadding;
      minHeightInnerTextField := f.minHeightInnerTextField;
      shape := f.shape;
      borderThickness := f.borderThickness;
      colors := f.colors;
      cursorBrush := f.cursorBrush;
    }
  }
}
