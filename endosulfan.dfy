/** The diagnostics record shared by the scanner and its callers. */
module Endosulfan {
  import opened JsStrings

  /** A diagnostic: its kind (`type` in the source), a message, and an optional line number. */
  datatype Warning = Warning(kind: string, message: string, lineNumber: Option<nat>)
}
