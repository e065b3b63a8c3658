/** Optional values and the outcome of one outbound HTTP call. */
module Wrappers {

  /** A value that may be absent (a JavaScript `undefined` or `null`). */
  datatype Option<+T> = None | Some(value: T)

  /** The outcome of one awaited HTTP request: the parsed body, or a thrown error
      (network failure, non-2xx status, or a body of the wrong shape). */
  datatype Fetch<+T> = Ok(body: T) | Err
}
