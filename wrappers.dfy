/** Optional values, the outcomes of network calls and the shapes of response bodies. */
module Wrappers {

  /** `null`/`undefined` versus a present value. */
  datatype Option<+T> = None | Some(value: T)

  /** The outcome of one call to the backend, seen from the browser:
      the request succeeded with a body, failed, or failed with status 401. */
  datatype Outcome<+T> = Success(data: T) | Failed | Unauthorized

  /** What `response.data` turned out to be: a JSON array, or anything else. */
  datatype Payload<+T> = ArrayOf(items: seq<T>) | NotArray

  /** `Array.isArray(data) ? data : []` */
  function AsArray<T>(p: Payload<T>): (r: seq<T>)
    ensures p.ArrayOf? ==> r == p.items
    ensures p.NotArray? ==> r == []
  {
    match p
    case ArrayOf(items) => items
    case NotArray => []
  }
}
