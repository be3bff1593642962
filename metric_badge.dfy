/**
 * The metric badge: a label, a value shown as text, and an optional unit.
 */
module MetricBadge {
  import opened Js

  /** `displayValue()`: "N/A" for undefined or null, "Yes"/"No" for a boolean, `String(value)` otherwise. */
  function DisplayValue(value: JsValue, numberToString: real -> string): (s: string)
    ensures Nullish(value) ==> s == "N/A"
    ensures value.Bool? ==> (s == "Yes" <==> value.b) && (s == "No" <==> !value.b)
    ensures !Nullish(value) && !value.Bool? ==> s == ToJsString(value, numberToString)
  {
    if value.Undefined? || value.Null? then "N/A"
    else if value.Bool? then (if value.b then "Yes" else "No")
    else ToJsString(value, numberToString)
  }

  /** Zero and the empty string are shown as themselves, not as "N/A". */
  lemma FalsyNumbersAndStringsShown(numberToString: real -> string)
    ensures DisplayValue(Number(0.0), numberToString) == numberToString(0.0)
    ensures DisplayValue(Str(""), numberToString) == ""
  {
  }

  /** `unit && <span>{unit}</span>`: the unit is rendered only when it is a non-empty string. */
  function UnitShown(unit: Option<string>): (shown: Option<string>)
    ensures shown.Some? <==> unit.Some? && unit.value != ""
    ensures shown.Some? ==> shown.value == unit.value
  {
    if unit.Some? && unit.value != "" then unit else None
  }
}
