/**
 * The immutable behaviour record of the text-field configuration API
 * (config/AkariTextFieldBehavior.kt) and its normalised line counts.
 */
module TextFieldConfigBehavior {

  /** Kotlin's `Int`. */
  newtype Int32 = x: int | -0x8000_0000 <= x <= 0x7FFF_FFFF

  const IntMax: Int32 := 0x7FFF_FFFF

  /** Opaque library values (keyboard options, IME actions, visual transformations). */
  type Opaque = nat

  /** How the label is laid out; the two values the library refers to. */
  datatype LabelBehavior = Floating | External

  datatype Behavior = Behavior(
    labelBehavior: LabelBehavior,
    readOnly: bool,
    singleLine: bool,
    maxLines: Int32,
    minLines: Int32,
    autoSelectOnFocus: bool,
    requestFocus: bool,
    keyboardOptions: Opaque,
    keyboardActions: Opaque,
    visualTransformation: Opaque)
  {
    /** One line for a single-line field, otherwise the requested minimum raised to at least one. */
    function NormalizedMinLines(): (r: Int32)
      ensures r >= 1
      ensures singleLine ==> r == 1
      ensures !singleLine ==> r >= minLines && (minLines >= 1 ==> r == minLines)
    {
      if singleLine then 1 else if minLines < 1 then 1 else minLines
    }

    /** One line for a single-line field, otherwise the requested maximum raised to the normalised minimum. */
    function NormalizedMaxLines(): (r: Int32)
      ensures r >= NormalizedMinLines()
      ensures singleLine ==> r == 1
      ensures !singleLine ==> r >= maxLines && (maxLines >= NormalizedMinLines() ==> r == maxLines)
    {
      if singleLine then 1
      else
        var lo := NormalizedMinLines();
        if maxLines < lo then lo else maxLines
    }

    /** A record whose line counts already satisfy `1 <= minLines <= maxLines`. */
    predicate HasValidLines() {
      1 <= minLines <= maxLines
    }

    /** The record with its line counts replaced by the normalised ones. */
    function Normalized(): (r: Behavior)
      ensures r.HasValidLines()
      ensures r.(minLines := minLines, maxLines := maxLines) == this
    {
      this.(minLines := NormalizedMinLines(), maxLines := NormalizedMaxLines())
    }
  }

  /** The record the data class's default arguments build. */
  const Default: Behavior :=
    Behavior(Floating, false, false, IntMax, 1, false, false, 0, 0, 0)

  /** A record with the given line settings and every other field at its default. */
  function WithLines(singleLine: bool, maxLines: Int32, minLines: Int32): Behavior {
    Default.(singleLine := singleLine, maxLines := maxLines, minLines := minLines)
  }

  /** The defaults normalise to one line minimum and `Int.MAX_VALUE` maximum. */
  lemma DefaultNormalization()
    ensures Default.NormalizedMinLines() == 1 && Default.NormalizedMaxLines() == IntMax
  {
  }

  /** A multi-line record whose counts already satisfy `1 <= minLines <= maxLines` is left as it is. */
  lemma NormalizationKeepsValid(b: Behavior)
    requires !b.singleLine && b.HasValidLines()
    ensures b.Normalized() == b
  {
  }

  /** Normalising twice gives what normalising once does. */
  lemma NormalizationIdempotent(b: Behavior)
    ensures b.Normalized().Normalized() == b.Normalized()
  {
    if !b.singleLine {
      NormalizationKeepsValid(b.Normalized());
    }
  }

  /** Only the single-line flag and the two line counts decide the normalised pair. */
  lemma NormalizationDependsOnLinesOnly(a: Behavior, b: Behavior)
    requires a.singleLine == b.singleLine && a.minLines == b.minLines && a.maxLines == b.maxLines
    ensures a.NormalizedMinLines() == b.NormalizedMinLines()
    ensures a.NormalizedMaxLines() == b.NormalizedMaxLines()
  {
  }
}
