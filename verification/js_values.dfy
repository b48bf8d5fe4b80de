/** The JavaScript values that flow through the series editor footer: the raw
    values a field picker hands to the footer, and the payloads the footer hands
    to its save callback. Only the shapes the footer actually produces or
    compares are represented. */
module JsValues {

  /** The conventional Some/None datatype; `None` stands for JavaScript's
      `null`/`undefined` where a property is optional. */
  datatype Option<+T> = None | Some(value: T)

  /** A JavaScript value as far as the footer sees it. On strings, numbers and
      booleans, equality on this datatype is JavaScript's strict equality
      (`===`): two strings are equal iff they hold the same characters, and a
      string never equals a number. Arrays are compared by content here,
      whereas JavaScript compares them by reference; the footer never
      compares an array. Numbers are the integral identifiers the pickers
      use. */
  datatype JsValue =
    | JsStr(s: string)
    | JsNum(n: int)
    | JsBool(b: bool)
    | JsNumArray(items: seq<int>)

  /** An object literal handed to the save callback: property name to value. */
  type Payload = map<string, JsValue>
}
