/** Optional values, JavaScript truthiness of optional strings, and the outcome of a call
    into the external data service. */
module Wrappers {

  /** An optional field or value: `undefined`/`null` is `None`. */
  datatype Option<+T> = None | Some(value: T)

  /** The outcome of one asynchronous call into the external CRUD service:
      it resolves with a value or rejects. */
  datatype Fetch<+T> = Ok(value: T) | Fail

  /** JavaScript truthiness of an optional string: `undefined` and `""` are falsy. */
  predicate Truthy(o: Option<string>) {
    o.Some? && o.value != ""
  }

  /** The JavaScript expression `o || fallback` on an optional string. */
  function Or(o: Option<string>, fallback: string): (r: string)
    ensures Truthy(o) ==> r == o.value
    ensures !Truthy(o) ==> r == fallback
    ensures fallback != "" ==> r != ""
  {
    if Truthy(o) then o.value else fallback
  }
}
