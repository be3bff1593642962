/**
 * The JSON editor's own state: the text being edited, its line count (which
 * sizes the editor) and whether the validator reported problems. The Monaco
 * editor itself is not modelled; what it hands to the change and validation
 * handlers is the input of those handlers.
 */
module JsonEditor {
  import opened Js

  const LineHeight := 19
  const Padding := 30
  const MinHeight := 50
  const MaxHeight := 300

  /** The number of lines of `value`: one more than its line breaks. */
  function LineCount(value: string): (n: int)
    ensures n >= 1
    ensures n == |Split(value, '\n')| == multiset(value)['\n'] + 1
  {
    SplitCount(value, '\n');
    var lines := |Split(value, '\n')|;
    if lines > 1 then lines else 1
  }

  /** `editorHeight`: the height for `lineCount` lines plus padding, clamped to [50, 300]. */
  function EditorHeight(lineCount: int): (h: int)
    ensures MinHeight <= h <= MaxHeight
    ensures MinHeight <= lineCount * LineHeight + Padding <= MaxHeight ==> h == lineCount * LineHeight + Padding
    ensures lineCount * LineHeight + Padding < MinHeight ==> h == MinHeight
    ensures lineCount * LineHeight + Padding > MaxHeight ==> h == MaxHeight
  {
    var natural := lineCount * LineHeight + Padding;
    var atLeast := if natural > MinHeight then natural else MinHeight;
    if atLeast < MaxHeight then atLeast else MaxHeight
  }

  /** More lines never make the editor shorter. */
  lemma EditorHeightMonotone(a: int, b: int)
    requires a <= b
    ensures EditorHeight(a) <= EditorHeight(b)
  {
  }

  /** One line gives the minimum height; from 15 lines on the editor has its maximum height. */
  lemma EditorHeightBounds(n: int)
    ensures EditorHeight(1) == MinHeight
    ensures EditorHeight(14) == 296
    ensures n >= 15 ==> EditorHeight(n) == MaxHeight
  {
  }

  /** Text without a line break gets the minimum height; text with 14 or more line breaks the maximum. */
  lemma EditorHeightOfText(value: string)
    ensures '\n' !in value ==> EditorHeight(LineCount(value)) == MinHeight
    ensures multiset(value)['\n'] >= 14 ==> EditorHeight(LineCount(value)) == MaxHeight
  {
  }

  /** One problem the validator reports. */
  datatype Marker = Marker(message: string, startLineNumber: int)

  /** The editor component's state cells. */
  class JsonEditor {
    var localValue: string
    var lineCount: int
    var isValid: bool

    /** Mounting with the `value` prop, which defaults to "{}". */
    constructor (value: Option<string>)
      ensures localValue == value.GetOr("{}")
      ensures lineCount == 1 && isValid
    {
      localValue := value.GetOr("{}");
      lineCount := 1;
      isValid := true;
    }

    /** The effect that runs when `localValue` changes: `lineCount` becomes its line count. */
    method SyncLineCount()
      modifies this`lineCount
      ensures lineCount == LineCount(localValue) == multiset(localValue)['\n'] + 1
    {
      var lines := |Split(localValue, '\n')|;
      lineCount := if lines > 1 then lines else 1;
    }

    /** The editor's `onChange`: an undefined or null value is stored as the empty string. */
    method OnChange(value: Option<string>)
      modifies this`localValue
      ensures localValue == value.GetOr("")
    {
      localValue := value.GetOr("");
    }

    /** `handleValidate`: the text is valid exactly when the validator reports no markers. */
    method HandleValidate(markers: seq<Marker>)
      modifies this`isValid
      ensures isValid <==> markers == []
    {
      isValid := |markers| == 0;
    }
  }
}
