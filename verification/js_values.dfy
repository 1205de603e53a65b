/** JavaScript values as they cross the wasm-bindgen boundary. */
module JsValues {
  /** A thrown or returned JavaScript value: an `Error` object (of any subclass, with its
      `name`), a string, or anything else (with the text `String(v)` gives). */
  datatype JsValue = JsError(name: string, message: string) | JsString(s: string) | JsOther(text: string)

  /** `new Error(message)`. */
  function Throw(message: string): (r: JsValue)
    ensures r.JsError? && r.message == message
  {
    JsError("Error", message)
  }

  /** `v.toString()`: `Error.prototype.toString` joins name and message with `: `. */
  function JsToString(v: JsValue): string {
    match v
    case JsError(name, message) =>
      if name == "" then message else if message == "" then name else name + ": " + message
    case JsString(s) => s
    case JsOther(text) => text
  }
}
