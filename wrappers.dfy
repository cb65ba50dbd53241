/** Optional values and the outcome of a request handler. */
module Wrappers {

  /** A value that may be absent: a missing request field, or a query with no row. */
  datatype Option<+T> = None | Some(value: T)

  /**
   * What a handler answers. `Ok` is the 200/201 body; `BadRequest` and `NotFound`
   * carry the `error` message the handler puts in its 400 or 404 body;
   * `InternalError` stands for an exception the handler does not catch
   * (a primary-key violation on insert, a property read on `undefined`).
   */
  datatype Response<+T> =
    | Ok(value: T)
    | BadRequest(message: string)
    | NotFound(message: string)
    | InternalError
}
