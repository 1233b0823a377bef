/** JavaScript values as the pages see them in a JSON payload: a field that may be
    absent (`undefined`/`null`), the outcome of a promise, and truthiness. */
module JsValue {

  /** A JSON field that is either present or `undefined`/`null`. */
  datatype Option<+T> = None | Some(value: T)

  /** How an awaited promise settled: with a value, or by throwing. */
  datatype Settled<+T> = Resolved(value: T) | Rejected

  /** `a ?? b`: falls back to `b` only when `a` is absent (an empty string is kept). */
  function Coalesce<T>(a: Option<T>, b: T): T {
    match a
    case Some(v) => v
    case None => b
  }

  /** `a ?? b` where both sides may be absent. */
  function OrElse<T>(a: Option<T>, b: Option<T>): Option<T> {
    if a.Some? then a else b
  }

  /** Truthiness of an optional string: absent and `""` are both falsy. */
  predicate Truthy(s: Option<string>) {
    s.Some? && s.value != ""
  }

  /** Truthiness of an optional number: absent and `0` are both falsy. */
  predicate TruthyNumber(n: Option<int>) {
    n.Some? && n.value != 0
  }
}
