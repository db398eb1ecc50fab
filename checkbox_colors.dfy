/**
 * The checkbox colour choice (checkbox/AkariCheckBoxColors.kt): the box and border colours are
 * each one of four slots, picked by (enabled, checked).
 */
module CheckBoxColors {

  /** A colour value; the model only tells colours apart by where they come from. */
  type Color = nat

  /** The four slots a box or border colour is taken from. */
  datatype Slot = CheckedSlot | UncheckedSlot | DisabledCheckedSlot | DisabledUncheckedSlot
  {
    predicate IsDisabled() {
      this == DisabledCheckedSlot || this == DisabledUncheckedSlot
    }

    predicate ShowsChecked() {
      this == CheckedSlot || this == DisabledCheckedSlot
    }
  }

  /** The slot for a checkbox: a disabled slot exactly when disabled, a checked slot exactly when checked. */
  function SlotFor(enabled: bool, checked: bool): (s: Slot)
    ensures s.IsDisabled() <==> !enabled
    ensures s.ShowsChecked() <==> checked
  {
    if enabled then (if checked then CheckedSlot else UncheckedSlot)
    else (if checked then DisabledCheckedSlot else DisabledUncheckedSlot)
  }

  /** Those two facts single the slot out. */
  lemma SlotForUnique(s: Slot, enabled: bool, checked: bool)
    requires s.IsDisabled() <==> !enabled
    requires s.ShowsChecked() <==> checked
    ensures s == SlotFor(enabled, checked)
  {
  }

  datatype CheckBoxColors = CheckBoxColors(
    checkedCheckmarkColor: Color,
    uncheckedCheckmarkColor: Color,
    checkedBoxColor: Color,
    uncheckedBoxColor: Color,
    disabledCheckedBoxColor: Color,
    disabledUncheckedBoxColor: Color,
    checkedBorderColor: Color,
    uncheckedBorderColor: Color,
    disabledCheckedBorderColor: Color,
    disabledUncheckedBorderColor: Color,
    rippleColor: Color)
  {
    function BoxColorIn(s: Slot): Color {
      match s
      case CheckedSlot => checkedBoxColor
      case UncheckedSlot => uncheckedBoxColor
      case DisabledCheckedSlot => disabledCheckedBoxColor
      case DisabledUncheckedSlot => disabledUncheckedBoxColor
    }

    function BorderColorIn(s: Slot): Color {
      match s
      case CheckedSlot => checkedBorderColor
      case UncheckedSlot => uncheckedBorderColor
      case DisabledCheckedSlot => disabledCheckedBorderColor
      case DisabledUncheckedSlot => disabledUncheckedBorderColor
    }

    /** The disabled case is decided first; otherwise the checked flag picks. */
    function BoxColor(enabled: bool, checked: bool): (r: Color)
      ensures r == BoxColorIn(SlotFor(enabled, checked))
    {
      if !enabled then (if checked then disabledCheckedBoxColor else disabledUncheckedBoxColor)
      else if checked then checkedBoxColor
      else uncheckedBoxColor
    }

    /** The same four-way split over the border colours. */
    function BorderColor(enabled: bool, checked: bool): (r: Color)
      ensures r == BorderColorIn(SlotFor(enabled, checked))
    {
      if !enabled then (if checked then disabledCheckedBorderColor else disabledUncheckedBorderColor)
      else if checked then checkedBorderColor
      else uncheckedBorderColor
    }
  }
}
