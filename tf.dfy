/**
 * The Terraform plugin framework's values as the provider sees them: every
 * attribute is null, unknown (computed later) or a known value; errors are
 * reported as diagnostics.
 */
module Tf {
  import opened Wrappers

  datatype Value<+T> = Null | Unknown | Known(value: T)

  type TfString = Value<string>

  /** A number attribute, held as the text its `String()` gives for a known value. */
  type TfNumber = Value<string>

  /** `types.String.ValueString()`: the empty string unless the value is known. */
  function ValueString(v: TfString): (s: string)
    ensures v.Known? ==> s == v.value
    ensures !v.Known? ==> s == ""
  {
    if v.Known? then v.value else ""
  }

  /** `types.Number.String()`: placeholders for null and unknown numbers. */
  function NumberString(v: TfNumber): (s: string)
    ensures v.Known? ==> s == v.value
    ensures !v.Known? ==> |s| > 2 && s[0] == '<' && s[|s| - 1] == '>'
    ensures v.Null? ==> s == "<null>"
    ensures v.Unknown? ==> s == "<unknown>"
  {
    match v
    case Null => "<null>"
    case Unknown => "<unknown>"
    case Known(text) => text
  }

  /** An error diagnostic, optionally attached to a top-level attribute. */
  datatype Diagnostic = Diagnostic(attribute: Option<string>, summary: string, detail: string)
}
