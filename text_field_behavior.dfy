/**
 * The mutable behaviour object of the text field (textFields/AkariTextFieldBehavior.kt): public
 * `var` fields and `validateValues`, which clamps the line counts in place.
 */
module TextFieldBehavior {
  import Config = TextFieldConfigBehavior
  import opened TextFieldConfigBehavior

  /** A snapshot of every field, which is what a configuration block can rewrite. */
  datatype BehaviorFields = BehaviorFields(
    enabled: bool,
    readOnly: bool,
    singleLine: bool,
    maxLines: Int32,
    minLines: Int32,
    autoSelectOnFocus: bool,
    requestFocus: bool,
    keyboardOptions: Opaque,
    keyboardActions: Opaque,
    visualTransformation: Opaque)

  /** The line settings as the immutable configuration record, every other field at its default. */
  function AsConfig(f: BehaviorFields): Config.Behavior {
    Config.WithLines(f.singleLine, f.maxLines, f.minLines)
  }

  /** The snapshot `validateValues` leaves behind: the line counts normalised, the rest untouched. */
  function Validated(f: BehaviorFields): (r: BehaviorFields)
    ensures 1 <= r.minLines <= r.maxLines
    ensures f.singleLine ==> r.minLines == 1 && r.maxLines == 1
    ensures !f.singleLine ==> r.minLines >= f.minLines
    ensures r.(minLines := f.minLines, maxLines := f.maxLines) == f
  {
    f.(minLines := AsConfig(f).NormalizedMinLines(), maxLines := AsConfig(f).NormalizedMaxLines())
  }

  /** Validation leaves a multi-line snapshot with `1 <= minLines <= maxLines` exactly as it was. */
  lemma ValidatedKeepsValid(f: BehaviorFields)
    requires !f.singleLine && 1 <= f.minLines <= f.maxLines
    ensures Validated(f) == f
  {
  }

  /** Validating twice gives what validating once does. */
  lemma ValidatedIdempotent(f: BehaviorFields)
    ensures Validated(Validated(f)) == Validated(f)
  {
    if !f.singleLine {
      ValidatedKeepsValid(Validated(f));
    }
  }

  class Behavior {
    var enabled: bool
    var readOnly: bool
    var singleLine: bool
    var maxLines: Int32
    var minLines: Int32
    var autoSelectOnFocus: bool
    var requestFocus: bool
    var keyboardOptions: Opaque
    var keyboardActions: Opaque
    var visualTransformation: Opaque

    /** The primary constructor, with Kotlin's default arguments. */
    constructor (enabled: bool := true, readOnly: bool := false, singleLine: bool := false,
                 maxLines: Int32 := IntMax, minLines: Int32 := 1,
                 autoSelectOnFocus: bool := false, requestFocus: bool := false,
                 keyboardOptions: Opaque := 0, keyboardActions: Opaque := 0,
                 visualTransformation: Opaque := 0)
      ensures Fields() == BehaviorFields(enabled, readOnly, singleLine, maxLines, minLines,
                                         autoSelectOnFocus, requestFocus, keyboardOptions,
                                         keyboardActions, visualTransformation)
    {
      this.enabled := enabled;
      this.readOnly := readOnly;
      this.singleLine := singleLine;
      this.maxLines := maxLines;
      this.minLines := minLines;
      this.autoSelectOnFocus := autoSelectOnFocus;
      this.requestFocus := requestFocus;
      this.keyboardOptions := keyboardOptions;
      this.keyboardActions := keyboardActions;
      this.visualTransformation := visualTransformation;
    }

    function Fields(): BehaviorFields
      reads this
    {
      BehaviorFields(enabled, readOnly, singleLine, maxLines, minLines, autoSelectOnFocus,
                     requestFocus, keyboardOptions, keyboardActions, visualTransformation)
    }

    /** What a receiver block run with `apply` does: it rewrites the fields of this same object. */
    method Assign(f: BehaviorFields)
      modifies this
      ensures Fields() == f
    {
      enabled := f.enabled;
      readOnly := f.readOnly;
      singleLine := f.singleLine;
      maxLines := f.maxLines;
      minLines := f.minLines;
      autoSelectOnFocus := f.autoSelectOnFocus;
      requestFocus := f.requestFocus;
      keyboardOptions := f.keyboardOptions;
      keyboardActions := f.keyboardActions;
      visualTransformation := f.visualTransformation;
    }

    /**
     * Clamps the line counts in place: both become 1 for a single-line field; otherwise the
     * minimum is raised to 1 and the maximum to the minimum. No other field is written, and the
     * result is the configuration record's normalised pair.
     */
    method ValidateValues()
      modifies this`minLines, this`maxLines
      ensures minLines == AsConfig(old(Fields())).NormalizedMinLines()
      ensures maxLines == AsConfig(old(Fields())).NormalizedMaxLines()
      ensures Fields() == Validated(old(Fields()))
    {
      if singleLine {
        minLines := 1;
        maxLines := 1;
      }
      if minLines <= 0 {
        minLines := 1;
      }
      if maxLines <= 0 {
        maxLines := minLines;
      }
      if minLines > maxLines {
        maxLines := minLines;
      }
    }
  }
}
