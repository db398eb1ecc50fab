/**
 * The decoration rules and the integer layout of the text field's decoration box
 * (internalConfig/AkariTextFieldDefaults.kt): label floating, placeholder visibility, border
 * thickness, and the measure and place steps of its custom layout.
 */
module TextFieldDefaults {
  import opened Wrappers

  const UnfocusedBorderThickness: real := 1.0
  const FocusedBorderThickness: real := 2.0

  /** The label floats when the field is focused or holds text. */
  predicate IsLabelFloating(isFocused: bool, isTextEmpty: bool) {
    isFocused || !isTextEmpty
  }

  /** The placeholder shows on an empty field unless the built-in label is lying over it. */
  predicate ShowPlaceholder(isTextEmpty: bool, useInternalLabel: bool, isLabelFloating: bool) {
    isTextEmpty && (!useInternalLabel || isLabelFloating)
  }

  /**
   * With the built-in label, the placeholder of an empty field shows exactly while it is
   * focused, so the label and the placeholder never share the text area.
   */
  lemma PlaceholderAndResting(isFocused: bool, isTextEmpty: bool, useInternalLabel: bool)
    ensures ShowPlaceholder(isTextEmpty, useInternalLabel, IsLabelFloating(isFocused, isTextEmpty)) <==>
            isTextEmpty && (!useInternalLabel || isFocused)
    ensures useInternalLabel && ShowPlaceholder(isTextEmpty, useInternalLabel, IsLabelFloating(isFocused, isTextEmpty))
            ==> IsLabelFloating(isFocused, isTextEmpty)
  {
  }

  /** The style's thickness for the focus state when set, else 2dp focused and 1dp unfocused. */
  function BorderThickness(isFocused: bool, focused: Option<real>, unfocused: Option<real>): (r: real)
    ensures isFocused ==> r == (if focused.Some? then focused.value else FocusedBorderThickness)
    ensures !isFocused ==> r == (if unfocused.Some? then unfocused.value else UnfocusedBorderThickness)
  {
    var chosen := if isFocused then focused else unfocused;
    match chosen
    case Some(t) => t
    case None => if isFocused then FocusedBorderThickness else UnfocusedBorderThickness
  }

  /** A measured child: its width and height in pixels. */
  datatype Child = Child(width: nat, height: nat)

  /** The rounded paddings around the text field itself. */
  datatype Padding = Padding(left: nat, right: nat, top: nat, bottom: nat)

  /** The incoming layout constraints. */
  datatype Constraints = Constraints(minWidth: nat, maxWidth: nat, minHeight: nat, maxHeight: nat)
  {
    predicate Valid() {
      minWidth <= maxWidth && minHeight <= maxHeight
    }

    function ConstrainWidth(w: int): (r: nat)
      requires Valid()
      ensures minWidth <= r <= maxWidth
      ensures minWidth <= w <= maxWidth ==> r == w
    {
      if w < minWidth then minWidth else if w > maxWidth then maxWidth else w
    }

    function ConstrainHeight(h: int): (r: nat)
      requires Valid()
      ensures minHeight <= r <= maxHeight
      ensures minHeight <= h <= maxHeight ==> r == h
    {
      if h < minHeight then minHeight else if h > maxHeight then maxHeight else h
    }
  }

  /** The optional decorations, each `None` when its slot is absent. */
  datatype Slots = Slots(
    leading: Option<Child>,
    prefix: Option<Child>,
    placeholder: Option<Child>,
    suffix: Option<Child>,
    trailing: Option<Child>,
    labelSlot: Option<Child>)

  function WidthOf(c: Option<Child>): nat {
    if c.Some? then c.value.width else 0
  }

  function HeightOf(c: Option<Child>): nat {
    if c.Some? then c.value.height else 0
  }

  /** The horizontal room taken by the decorations beside the text field and its side paddings. */
  function OccupiedWidth(s: Slots, p: Padding): nat {
    WidthOf(s.leading) + WidthOf(s.trailing) + WidthOf(s.prefix) + WidthOf(s.suffix) + p.left + p.right
  }

  /** The text field's maximum width: what is left of the incoming maximum, never negative. */
  function TextFieldMaxWidth(c: Constraints, occupied: nat): (r: nat)
    ensures occupied <= c.maxWidth ==> r + occupied == c.maxWidth
    ensures occupied > c.maxWidth ==> r == 0
  {
    if c.maxWidth - occupied < 0 then 0 else c.maxWidth - occupied
  }

  /** The container's content height: the tallest of the text field and the icons, plus the vertical paddings. */
  function ContentHeight(textField: Child, s: Slots, p: Padding): (r: nat)
    ensures r >= textField.height + p.top + p.bottom
    ensures r >= HeightOf(s.leading) + p.top + p.bottom && r >= HeightOf(s.trailing) + p.top + p.bottom
    ensures r == textField.height + p.top + p.bottom
         || r == HeightOf(s.leading) + p.top + p.bottom
         || r == HeightOf(s.trailing) + p.top + p.bottom
  {
    var tallest := if textField.height >= HeightOf(s.leading) then textField.height else HeightOf(s.leading);
    var tallest' := if tallest >= HeightOf(s.trailing) then tallest else HeightOf(s.trailing);
    tallest' + p.top + p.bottom
  }

  /** The sum of the widths laid out in a row. */
  function RowWidth(textField: Child, s: Slots, p: Padding): nat {
    WidthOf(s.leading) + WidthOf(s.prefix) + textField.width + WidthOf(s.suffix) + WidthOf(s.trailing) + p.left + p.right
  }

  /** The measured layout: the text field as measured under its width limit, and the box's size. */
  datatype Measured = Measured(textField: Child, width: nat, height: nat)

  /**
   * The measure step. The text field is measured with `minWidth = 0` and the remaining width as
   * maximum: the toolkit moves its preferred size into those bounds.
   */
  function Measure(c: Constraints, s: Slots, preferredTextField: Child, p: Padding): (m: Measured)
    requires c.Valid()
    ensures m.textField.width <= TextFieldMaxWidth(c, OccupiedWidth(s, p))
    ensures c.minHeight <= m.textField.height <= c.maxHeight
    ensures c.minWidth <= m.width <= c.maxWidth && c.minHeight <= m.height <= c.maxHeight
    ensures m.width == c.ConstrainWidth(RowWidth(m.textField, s, p))
    ensures m.height == c.ConstrainHeight(ContentHeight(m.textField, s, p))
  {
    var maxW := TextFieldMaxWidth(c, OccupiedWidth(s, p));
    var tfWidth := if preferredTextField.width > maxW then maxW else preferredTextField.width;
    var tfHeight := c.ConstrainHeight(preferredTextField.height);
    var tf := Child(tfWidth, tfHeight);
    Measured(tf, c.ConstrainWidth(RowWidth(tf, s, p)), c.ConstrainHeight(ContentHeight(tf, s, p)))
  }

  /** When the decorations and paddings fit in the maximum width, the row fits as well. */
  lemma {:induction false} RowFitsWhenDecorationsFit(c: Constraints, s: Slots, preferredTextField: Child, p: Padding)
    requires c.Valid()
    requires OccupiedWidth(s, p) <= c.maxWidth
    ensures RowWidth(Measure(c, s, preferredTextField, p).textField, s, p) <= c.maxWidth
  {
    var m := Measure(c, s, preferredTextField, p);
    assert RowWidth(m.textField, s, p) == OccupiedWidth(s, p) + m.textField.width;
  }

  datatype Position = Position(x: int, y: int)

  /** Where each present child is placed, and the label's target offset. */
  datatype Placement = Placement(
    leading: Option<Position>,
    prefix: Option<Position>,
    textField: Position,
    placeholder: Option<Position>,
    suffix: Option<Position>,
    trailing: Option<Position>,
    labelTarget: Option<Position>)

  /** `centerY - h / 2`: the top that centres a child of height `h` in the box. */
  function CentredTop(height: nat, h: nat): int {
    height / 2 - h / 2
  }

  /** The label's target: above the box by three quarters of its height when floating, else over the text field. */
  function LabelTarget(lbl: Child, isLabelFloating: bool, textFieldX: int, height: nat): (r: Position)
    ensures isLabelFloating ==> r.x == 0 && r.y == -(lbl.height * 3 / 4)
    ensures isLabelFloating ==> r.y <= 0 <= r.y + lbl.height
    ensures !isLabelFloating ==> r.x == textFieldX && r.y == CentredTop(height, lbl.height)
  {
    if isLabelFloating then Position(0, -(lbl.height * 3 / 4))
    else Position(textFieldX, CentredTop(height, lbl.height))
  }

  /**
   * The place step: left to right, leading icon, prefix, left padding, text field (and the
   * placeholder on top of it), right padding, suffix, trailing icon; each child vertically centred.
   */
  method Place(m: Measured, s: Slots, p: Padding, isLabelFloating: bool) returns (pl: Placement)
    ensures pl.leading.Some? <==> s.leading.Some?
    ensures pl.prefix.Some? <==> s.prefix.Some?
    ensures pl.placeholder.Some? <==> s.placeholder.Some?
    ensures pl.suffix.Some? <==> s.suffix.Some?
    ensures pl.trailing.Some? <==> s.trailing.Some?
    ensures pl.labelTarget.Some? <==> s.labelSlot.Some?
    ensures pl.leading.Some? ==> pl.leading.value == Position(0, CentredTop(m.height, s.leading.value.height))
    ensures pl.prefix.Some? ==> pl.prefix.value == Position(WidthOf(s.leading), CentredTop(m.height, s.prefix.value.height))
    ensures pl.textField == Position(WidthOf(s.leading) + WidthOf(s.prefix) + p.left, CentredTop(m.height, m.textField.height))
    ensures pl.placeholder.Some? ==> pl.placeholder.value == pl.textField
    ensures pl.suffix.Some? ==>
      pl.suffix.value == Position(pl.textField.x + m.textField.width + p.right, CentredTop(m.height, s.suffix.value.height))
    ensures pl.trailing.Some? ==>
      pl.trailing.value == Position(pl.textField.x + m.textField.width + p.right + WidthOf(s.suffix),
                                    CentredTop(m.height, s.trailing.value.height))
    ensures pl.labelTarget.Some? ==>
      pl.labelTarget.value == LabelTarget(s.labelSlot.value, isLabelFloating, pl.textField.x, m.height)
  {
    var currentX := 0;
    var centerY := m.height / 2;

    var leading: Option<Position> := None;
    if s.leading.Some? {
      leading := Some(Position(currentX, centerY - s.leading.value.height / 2));
      currentX := currentX + s.leading.value.width;
    }

    var prefix: Option<Position> := None;
    if s.prefix.Some? {
      prefix := Some(Position(currentX, centerY - s.prefix.value.height / 2));
      currentX := currentX + s.prefix.value.width;
    }

    currentX := currentX + p.left;
    var textFieldX := currentX;
    var textFieldY := centerY - m.textField.height / 2;
    var textField := Position(textFieldX, textFieldY);
    var placeholder: Option<Position> := if s.placeholder.Some? then Some(textField) else None;

    currentX := currentX + m.textField.width + p.right;

    var suffix: Option<Position> := None;
    if s.suffix.Some? {
      suffix := Some(Position(currentX, centerY - s.suffix.value.height / 2));
      currentX := currentX + s.suffix.value.width;
    }

    var trailing: Option<Position> := None;
    if s.trailing.Some? {
      trailing := Some(Position(currentX, centerY - s.trailing.value.height / 2));
    }

    var labelTarget: Option<Position> := None;
    if s.labelSlot.Some? {
      var h := s.labelSlot.value.height;
      var labelY := if isLabelFloating then -(h * 3 / 4) else centerY - h / 2;
      var labelX := if isLabelFloating then 0 else textFieldX;
      labelTarget := Some(Position(labelX, labelY));
    }

    pl := Placement(leading, prefix, textField, placeholder, suffix, trailing, labelTarget);
  }

  /** The right edge of the last child placed: where the row ends. */
  function RowEnd(m: Measured, s: Slots, p: Padding): int {
    WidthOf(s.leading) + WidthOf(s.prefix) + p.left + m.textField.width + p.right + WidthOf(s.suffix) + WidthOf(s.trailing)
  }

  /** The row never overlaps: each placed child ends where the next one starts (or before). */
  lemma PlacementIsLeftToRight(m: Measured, s: Slots, p: Padding, pl: Placement)
    requires pl.textField.x == WidthOf(s.leading) + WidthOf(s.prefix) + p.left
    requires pl.prefix.Some? ==> pl.prefix.value.x == WidthOf(s.leading)
    requires pl.suffix.Some? ==> pl.suffix.value.x == pl.textField.x + m.textField.width + p.right
    requires pl.trailing.Some? ==> pl.trailing.value.x == pl.textField.x + m.textField.width + p.right + WidthOf(s.suffix)
    ensures pl.prefix.Some? ==> pl.prefix.value.x + WidthOf(s.prefix) <= pl.textField.x
    ensures pl.suffix.Some? ==> pl.textField.x + m.textField.width <= pl.suffix.value.x
    ensures pl.trailing.Some? ==> pl.trailing.value.x + WidthOf(s.trailing) == RowEnd(m, s, p)
  {
  }

  /**
   * When the decorations fit in the maximum width and the row is at least the minimum width,
   * the last child ends exactly at the box's right edge.
   */
  lemma {:induction false} RowEndsAtBoxEdge(c: Constraints, s: Slots, preferredTextField: Child, p: Padding)
    requires c.Valid()
    requires OccupiedWidth(s, p) <= c.maxWidth
    requires var m := Measure(c, s, preferredTextField, p); RowEnd(m, s, p) >= c.minWidth
    ensures var m := Measure(c, s, preferredTextField, p); RowEnd(m, s, p) == m.width
  {
    var m := Measure(c, s, preferredTextField, p);
    RowFitsWhenDecorationsFit(c, s, preferredTextField, p);
    assert RowEnd(m, s, p) == RowWidth(m.textField, s, p);
  }
}
