/**
 * JavaScript value conventions that the relay's decisions depend on: values
 * that may be `undefined`, the truthiness test behind `x || default`, the
 * text a missing value turns into when concatenated, and errors thrown by a
 * call, carried as their message.
 */
module JsValues {

  datatype Option<+T> = None | Some(value: T)

  /** The outcome of a call that can throw: its value, or the thrown error's message. */
  datatype Result<+T> = Success(value: T) | Failure(error: string)

  /** `data[key]` on a JSON object of strings: the value under `key`, or None (undefined) when absent. */
  function Get<K>(data: map<K, string>, key: K): (r: Option<string>)
    ensures r.Some? <==> key in data
    ensures r.Some? ==> r.value == data[key]
  {
    if key in data then Some(data[key]) else None
  }

  /** A string-or-undefined is truthy exactly when present and non-empty. */
  predicate Truthy(v: Option<string>) {
    v.Some? && v.value != ""
  }

  /** JavaScript `v || fallback` on a string-or-undefined. */
  function Or(v: Option<string>, fallback: string): string {
    if Truthy(v) then v.value else fallback
  }

  /** The text `'' + v` produces: a missing value becomes "undefined". */
  function JsString(v: Option<string>): string {
    if v.Some? then v.value else "undefined"
  }
}
